/**
 * The summary strip of the custom profit-and-loss report: the last period's
 * category totals, the net profit added up over the periods, labels chosen by
 * the period count and periodicity, and a fixed nine-entry layout.
 */
module ReportSummary {
  import opened Wrappers
  import opened Statement
  import opened NetProfitLoss

  datatype Indicator = Green | Red

  /** One entry of the summary strip. */
  datatype Entry =
    | Figure(value: int, title: string, currency: string)
    | Separator(symbol: string, color: Option<string>)
    | Headline(value: int, indicator: Indicator, title: string, currency: string)

  /** The five labels of the strip. */
  datatype Labels = Labels(
    profit: string,
    income: string,
    cogs: string,
    expense: string,
    otherRevenueExpense: string)

  const THIS_YEAR_LABELS := Labels(
    "Profit This Year", "Total Income This Year", "Total COGS This Year",
    "Total Expense This Year", "Total Other Revenue & Expense This Year")

  const GENERIC_LABELS := Labels(
    "Net Profit", "Total Income", "Total COGS", "Total Expense", "Total Other Revenue & Expense")

  /** The "This Year" wording serves a report over exactly one yearly period. */
  function SummaryLabels(periodCount: nat, periodicity: string): (labels: Labels)
    ensures labels == THIS_YEAR_LABELS <==> periodCount == 1 && periodicity == "Yearly"
    ensures labels == GENERIC_LABELS <==> !(periodCount == 1 && periodicity == "Yearly")
  {
    if periodCount == 1 && periodicity == "Yearly" then THIS_YEAR_LABELS else GENERIC_LABELS
  }

  /** A profit shows green; a loss or a zero result shows red. */
  function IndicatorFor(netProfit: int): (indicator: Indicator)
    ensures indicator == Green <==> netProfit > 0
    ensures indicator == Red <==> netProfit <= 0
  {
    if netProfit > 0 then Green else Red
  }

  /**
   * The periods the summary walks: the consolidated company list when the
   * report accumulates over a group company, the report's own periods otherwise.
   */
  function EffectivePeriods(
    periods: seq<Period>, accumulatedInGroupCompany: bool, groupPeriods: seq<Period>): (ps: seq<Period>)
    ensures accumulatedInGroupCompany ==> ps == groupPeriods
    ensures !accumulatedInGroupCompany ==> ps == periods
  {
    if accumulatedInGroupCompany then groupPeriods else periods
  }

  /** The category totals of the last period of `ks`; all zero when there is no period. */
  function LastPeriodFigures(f: FilteredStatement, ks: seq<string>): Figures {
    if |ks| == 0 then Figures(0, 0, 0, 0) else FiguresAt(f, ks[|ks| - 1])
  }

  /** The net-profit row's amount for `key`, reading a missing key or a missing row as 0. */
  function RowValue(row: Option<NetRow>, key: string): int {
    if row.Some? then row.value.ValueAt(key) else 0
  }

  /** The net profit over the first `n` periods of `ks`: the row's amounts added up. */
  function NetProfitOver(row: Option<NetRow>, ks: seq<string>, n: nat): int
    requires n <= |ks|
  {
    if n == 0 then 0 else NetProfitOver(row, ks, n - 1) + RowValue(row, ks[n - 1])
  }

  /** Without a net-profit row, the summary's net profit is 0. */
  lemma {:induction false} NoRowNoProfit(ks: seq<string>, n: nat)
    requires n <= |ks|
    ensures NetProfitOver(None, ks, n) == 0
  {
    if n > 0 {
      NoRowNoProfit(ks, n - 1);
    }
  }

  /**
   * When the row holds each period's net amount, the summary's sum of the
   * row's amounts over the first `n` periods is the running total after them.
   */
  lemma {:induction false} RowAmountsAddUp(row: NetRow, ks: seq<string>, figs: seq<Figures>, n: nat)
    requires |figs| == |ks| && n <= |ks|
    requires forall i :: 0 <= i < |ks| ==> RowValue(Some(row), ks[i]) == figs[i].Net()
    ensures NetProfitOver(Some(row), ks, n) == RunningTotal(figs, n)
  {
    if n > 0 {
      RowAmountsAddUp(row, ks, figs, n - 1);
    }
  }

  /** The summary's net profit over the row's own periods is the row's `total`. */
  lemma RowTotalIsHeadline(row: NetRow, f: FilteredStatement, ks: seq<string>, currency: string)
    requires IsNetProfitRow(row, f, ks, currency)
    ensures NetProfitOver(Some(row), ks, |ks|) == row.total
  {
    var figs := PeriodFigures(f, ks);
    forall i | 0 <= i < |ks| ensures RowValue(Some(row), ks[i]) == figs[i].Net() {
      assert ks[i] in ks;
      assert figs[i] == FiguresAt(f, ks[i]);
    }
    RowAmountsAddUp(row, ks, figs, |ks|);
  }

  /**
   * Whatever the row builder returned, the summary's net profit over the same
   * periods is the sum of every period's net amount: the row's total when there
   * is a row, and 0 (which that sum then is) when there is none.
   */
  lemma HeadlineIsPeriodNetSum(row: Option<NetRow>, f: FilteredStatement, ks: seq<string>, currency: string)
    requires row.Some? ==> IsNetProfitRow(row.value, f, ks, currency)
    requires row.None? ==> forall i :: 0 <= i < |ks| ==> PeriodFigures(f, ks)[i].Net() == 0
    ensures NetProfitOver(row, ks, |ks|) == RunningTotal(PeriodFigures(f, ks), |ks|)
    ensures row.Some? ==> NetProfitOver(row, ks, |ks|) == row.value.total
  {
    if row.Some? {
      RowTotalIsHeadline(row.value, f, ks, currency);
    } else {
      NoRowNoProfit(ks, |ks|);
      RunningTotalAllZero(PeriodFigures(f, ks), |ks|);
    }
  }

  /**
   * For a single period the strip reconciles: its net profit is its income less
   * its COGS, expense and other revenue/expense.
   */
  lemma SinglePeriodReconciles(row: Option<NetRow>, f: FilteredStatement, ks: seq<string>, currency: string)
    requires |ks| == 1
    requires row.Some? ==> IsNetProfitRow(row.value, f, ks, currency)
    requires row.None? ==> forall i :: 0 <= i < |ks| ==> PeriodFigures(f, ks)[i].Net() == 0
    ensures NetProfitOver(row, ks, 1) == LastPeriodFigures(f, ks).Net()
  {
    HeadlineIsPeriodNetSum(row, f, ks, currency);
    assert PeriodFigures(f, ks)[0] == FiguresAt(f, ks[0]);
  }

  /**
   * The nine entries in display order: income, "-", COGS, "-", expense, "=",
   * other revenue/expense, a blue "=", and the net-profit headline.
   */
  function SummaryEntries(figures: Figures, netProfit: int, labels: Labels, currency: string): (entries: seq<Entry>)
    ensures |entries| == 9
    ensures forall i :: 0 <= i < 9 ==> (entries[i].Separator? <==> i % 2 == 1)
    ensures forall i :: 0 <= i < 9 && !entries[i].Separator? ==> entries[i].currency == currency
    ensures entries[8].Headline? && entries[8].value == netProfit
    ensures entries[8].indicator == Green <==> netProfit > 0
  {
    [ Figure(figures.income, labels.income, currency),
      Separator("-", None),
      Figure(figures.cogs, labels.cogs, currency),
      Separator("-", None),
      Figure(figures.expense, labels.expense, currency),
      Separator("=", None),
      Figure(figures.otherRevenueExpense, labels.otherRevenueExpense, currency),
      Separator("=", Some("blue")),
      Headline(netProfit, IndicatorFor(netProfit), labels.profit, currency) ]
  }

  /**
   * Walks the periods over the filtered categories. Each category figure is
   * overwritten on every period, so only the last period's survives; the net
   * profit adds up the row's amount for every period.
   */
  method ReportSummaryOver(
    f: FilteredStatement, ps: seq<Period>, periodicity: string, netProfitLoss: Option<NetRow>,
    currency: string, consolidated: bool)
    returns (summary: seq<Entry>, netProfit: int)
    ensures var ks := KeysOf(ps, consolidated);
      netProfit == NetProfitOver(netProfitLoss, ks, |ks|)
    ensures var ks := KeysOf(ps, consolidated);
      summary == SummaryEntries(LastPeriodFigures(f, ks), netProfit, SummaryLabels(|ps|, periodicity), currency)
  {
    ghost var ks := KeysOf(ps, consolidated);
    var netIncome, netCogs, netExpense, netOther := 0, 0, 0, 0;
    netProfit := 0;
    for i := 0 to |ps|
      invariant i == 0 ==> Figures(netIncome, netCogs, netExpense, netOther) == Figures(0, 0, 0, 0)
      invariant i > 0 ==> Figures(netIncome, netCogs, netExpense, netOther) == FiguresAt(f, ks[i - 1])
      invariant netProfit == NetProfitOver(netProfitLoss, ks, i)
    {
      var key := KeyOf(ps[i], consolidated);
      assert key == ks[i];
      if |f.income| > 0 {
        netIncome := SpecificAccountValue(f.income, TOTAL_REVENUE, key);
      }
      if |f.cogs| > 0 {
        netCogs := SpecificAccountValue(f.cogs, TOTAL_COGS, key);
      }
      if |f.expense| > 0 {
        netExpense := SpecificAccountValue(f.expense, TOTAL_OPERATIONAL_EXPENSE, key);
      }
      if |f.otherRevenueExpense| > 0 {
        netOther := SpecificAccountValue(f.otherRevenueExpense, TOTAL_OTHER_REVENUE_EXPENSE, key);
      }
      if netProfitLoss.Some? {
        netProfit := netProfit + netProfitLoss.value.ValueAt(key);
      }
    }
    var labels := SummaryLabels(|ps|, periodicity);
    summary := SummaryEntries(Figures(netIncome, netCogs, netExpense, netOther), netProfit, labels, currency);
  }

  /**
   * The source's entry point: settles the period list, drops subtotal rows
   * from each category, then builds the strip as ReportSummaryOver describes.
   * The second result is the headline's value.
   */
  method GetReportSummary(
    periods: seq<Period>, periodicity: string, s: Statement, netProfitLoss: Option<NetRow>,
    currency: string, accumulatedInGroupCompany: bool, groupPeriods: seq<Period>, consolidated: bool)
    returns (summary: seq<Entry>, netProfit: int)
    ensures var ps := EffectivePeriods(periods, accumulatedInGroupCompany, groupPeriods);
      var ks := KeysOf(ps, consolidated);
      netProfit == NetProfitOver(netProfitLoss, ks, |ks|)
    ensures var ps := EffectivePeriods(periods, accumulatedInGroupCompany, groupPeriods);
      var ks := KeysOf(ps, consolidated);
      summary == SummaryEntries(LastPeriodFigures(s.Filtered(), ks), netProfit, SummaryLabels(|ps|, periodicity), currency)
    ensures |summary| == 9 && summary[8].value == netProfit
  {
    var ps := periods;
    if accumulatedInGroupCompany {
      ps := groupPeriods;
    }
    var f := s.Filtered();
    summary, netProfit := ReportSummaryOver(f, ps, periodicity, netProfitLoss, currency, consolidated);
  }
}
