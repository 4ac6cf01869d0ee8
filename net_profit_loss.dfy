/**
 * The synthesized "Net Profit" row of the custom profit-and-loss report: for
 * every period, income less cost of goods sold, operational expense and other
 * revenue/expense, with a running total and a percentage of income.
 */
module NetProfitLoss {
  import opened Wrappers
  import opened Statement

  /** The row's `account_name` and `account`: the quoted label 'Net Profit'. */
  const NET_PROFIT_ACCOUNT := "'Net Profit'"

  /**
   * The row's percentage before rounding: `numerator / denominator * 100`,
   * kept as the exact pair of the running total and the period's income.
   */
  datatype Ratio = Ratio(numerator: int, denominator: int)

  /** The net-profit row, with its per-period amounts keyed by period key. */
  datatype NetRow = NetRow(
    accountName: string,
    account: string,
    warnIfNegative: bool,
    currency: string,
    values: map<string, int>,
    total: int,
    percentage: Ratio)
  {
    /** The amount stored under `key`, reading a key the row does not hold as 0. */
    function ValueAt(key: string): int {
      if key in values then values[key] else 0
    }
  }

  /** The percentage step divided by a period's zero income; `key` names that period. */
  datatype Error = DivisionByZero(key: string)

  /** The explicit currency when it is given and non-empty, else the company's default. */
  function CurrencyOr(currency: Option<string>, companyCurrency: string): (c: string)
    ensures currency.Some? && currency.value != "" ==> c == currency.value
    ensures currency.None? || currency.value == "" ==> c == companyCurrency
  {
    if currency.Some? && currency.value != "" then currency.value else companyCurrency
  }

  /** The four category totals of every period of `ks`, in period order. */
  function PeriodFigures(f: FilteredStatement, ks: seq<string>): (figs: seq<Figures>)
    ensures |figs| == |ks|
    ensures forall i {:trigger FiguresAt(f, ks[i])} :: 0 <= i < |ks| ==> figs[i] == FiguresAt(f, ks[i])
  {
    if ks == [] then []
    else
      var rest := PeriodFigures(f, ks[1..]);
      assert forall i :: 1 <= i < |ks| ==> ks[i] == ks[1..][i - 1];
      [FiguresAt(f, ks[0])] + rest
  }

  /** The running total after the first `n` periods: their net amounts added up in period order. */
  function RunningTotal(figs: seq<Figures>, n: nat): int
    requires n <= |figs|
  {
    if n == 0 then 0 else RunningTotal(figs, n - 1) + figs[n - 1].Net()
  }

  /** When every period nets to zero, so does the running total. */
  lemma {:induction false} RunningTotalAllZero(figs: seq<Figures>, n: nat)
    requires n <= |figs|
    requires forall i :: 0 <= i < n ==> figs[i].Net() == 0
    ensures RunningTotal(figs, n) == 0
  {
    if n > 0 {
      RunningTotalAllZero(figs, n - 1);
    }
  }

  /** The total over two consecutive runs of periods is the sum of their totals. */
  lemma {:induction false} RunningTotalAppend(a: seq<Figures>, b: seq<Figures>, n: nat)
    requires n <= |b|
    ensures RunningTotal(a + b, |a| + n) == RunningTotal(a, |a|) + RunningTotal(b, n)
  {
    if n == 0 {
      RunningTotalPrefix(a + b, a, |a|);
    } else {
      RunningTotalAppend(a, b, n - 1);
      assert (a + b)[|a| + n - 1] == b[n - 1];
    }
  }

  /** The running total after `n` periods only depends on those first `n` periods. */
  lemma {:induction false} RunningTotalPrefix(a: seq<Figures>, b: seq<Figures>, n: nat)
    requires n <= |a| && n <= |b|
    requires a[..n] == b[..n]
    ensures RunningTotal(a, n) == RunningTotal(b, n)
  {
    if n > 0 {
      assert a[..n - 1] == a[..n][..n - 1] && b[..n - 1] == b[..n][..n - 1];
      assert a[n - 1] == a[..n][n - 1] && b[n - 1] == b[..n][n - 1];
      RunningTotalPrefix(a, b, n - 1);
    }
  }

  /** Period `i` is the first period whose income is zero. */
  ghost predicate FirstZeroIncome(figs: seq<Figures>, i: int) {
    && 0 <= i < |figs|
    && figs[i].income == 0
    && forall j :: 0 <= j < i ==> figs[j].income != 0
  }

  /**
   * `row` is the net-profit row for the periods `ks`: it stores each period's
   * net amount under the period's key and nothing else, its total is the sum
   * of the periods' net amounts, and its percentage divides that total by the
   * LAST period's income.
   */
  ghost predicate IsNetProfitRow(row: NetRow, f: FilteredStatement, ks: seq<string>, currency: string) {
    && |ks| > 0
    && row.accountName == NET_PROFIT_ACCOUNT
    && row.account == NET_PROFIT_ACCOUNT
    && row.warnIfNegative
    && row.currency == currency
    && (forall k :: k in row.values <==> k in ks)
    && (forall k :: k in row.values ==> row.values[k] == FiguresAt(f, k).Net())
    && var figs := PeriodFigures(f, ks);
    && row.total == RunningTotal(figs, |ks|)
    && row.percentage == Ratio(row.total, figs[|ks| - 1].income)
  }

  /**
   * Builds the net-profit row over `periods` from the filtered categories. It
   * fails at the first period with zero income; otherwise it returns the row
   * exactly when some period has a non-zero net amount, and nothing when every
   * period nets to zero.
   */
  method NetProfitLossOver(
    f: FilteredStatement, periods: seq<Period>, currency: string, consolidated: bool)
    returns (r: Result<Option<NetRow>, Error>)
    ensures var ks := KeysOf(periods, consolidated); var figs := PeriodFigures(f, ks);
      r.Failure? ==> exists i :: FirstZeroIncome(figs, i) && r.error == DivisionByZero(ks[i])
    ensures var figs := PeriodFigures(f, KeysOf(periods, consolidated));
      r.Success? ==> forall i :: 0 <= i < |figs| ==> figs[i].income != 0
    ensures var figs := PeriodFigures(f, KeysOf(periods, consolidated));
      r.Success? ==> (r.value.Some? <==> exists i :: 0 <= i < |figs| && figs[i].Net() != 0)
    ensures r.Success? && r.value.Some? ==>
      IsNetProfitRow(r.value.value, f, KeysOf(periods, consolidated), currency)
  {
    ghost var ks := KeysOf(periods, consolidated);
    ghost var figs := PeriodFigures(f, ks);
    var values: map<string, int> := map[];
    var total := 0;
    var hasValue := false;
    // Only read once a period has been processed, which hasValue implies.
    var percentage := Ratio(0, 1);
    for i := 0 to |periods|
      invariant forall k :: k in values ==> k in ks
      invariant forall k :: k in values ==> values[k] == FiguresAt(f, k).Net()
      invariant forall j :: 0 <= j < i ==> ks[j] in values
      invariant forall j :: 0 <= j < i ==> figs[j].income != 0
      invariant hasValue <==> exists j :: 0 <= j < i && figs[j].Net() != 0
      invariant total == RunningTotal(figs, i)
      invariant i > 0 ==> percentage == Ratio(total, figs[i - 1].income)
    {
      var key := KeyOf(periods[i], consolidated);
      assert key == ks[i];
      var figures := FiguresAt(f, key);
      assert figures == figs[i];
      values := values[key := figures.Net()];
      if values[key] != 0 {
        hasValue := true;
      }
      total := total + values[key];
      if figures.income == 0 {
        assert FirstZeroIncome(figs, i);
        return Failure(DivisionByZero(key));
      }
      percentage := Ratio(total, figures.income);
    }
    if hasValue {
      r := Success(Some(NetRow(NET_PROFIT_ACCOUNT, NET_PROFIT_ACCOUNT, true, currency, values, total, percentage)));
    } else {
      r := Success(None);
    }
  }

  /**
   * The source's entry point: drops subtotal rows from each category, settles
   * the currency, then builds the row as NetProfitLossOver describes.
   */
  method GetNetProfitLoss(
    s: Statement, periods: seq<Period>, companyCurrency: string,
    currency: Option<string>, consolidated: bool)
    returns (r: Result<Option<NetRow>, Error>)
    ensures var ks := KeysOf(periods, consolidated); var figs := PeriodFigures(s.Filtered(), ks);
      r.Failure? ==> exists i :: FirstZeroIncome(figs, i) && r.error == DivisionByZero(ks[i])
    ensures var figs := PeriodFigures(s.Filtered(), KeysOf(periods, consolidated));
      r.Success? ==> forall i :: 0 <= i < |figs| ==> figs[i].income != 0
    ensures var figs := PeriodFigures(s.Filtered(), KeysOf(periods, consolidated));
      r.Success? ==> (r.value.Some? <==> exists i :: 0 <= i < |figs| && figs[i].Net() != 0)
    ensures r.Success? && r.value.Some? ==>
      IsNetProfitRow(r.value.value, s.Filtered(), KeysOf(periods, consolidated), CurrencyOr(currency, companyCurrency))
  {
    var f := s.Filtered();
    r := NetProfitLossOver(f, periods, CurrencyOr(currency, companyCurrency), consolidated);
  }
}
