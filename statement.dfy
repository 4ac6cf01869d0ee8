/**
 * Ledger rows as the financial-statement engine hands them to the custom
 * profit-and-loss report, and the two helpers that both report builders share:
 * dropping the gross/operating-profit subtotal rows, and looking up the value
 * of the first row with a given account name.
 *
 * Amounts are integers counting thousandths of a currency unit, so rounding an
 * amount to three decimals (the source's `flt(x, 3)`) leaves it unchanged.
 */
module Statement {
  import opened Wrappers

  /** The account names the engine gives to each category's total row. */
  const TOTAL_REVENUE := "Total Revenue"
  const TOTAL_COGS := "Total COGS"
  const TOTAL_OPERATIONAL_EXPENSE := "Total Operational Expense"
  const TOTAL_OTHER_REVENUE_EXPENSE := "Total Other Revenue & Expense"

  /**
   * One row of a category: its `account_name` (absent when the row has none),
   * the two subtotal flags (an absent flag reads as false) and its amounts
   * keyed by period key.
   */
  datatype Row = Row(
    accountName: Option<string>,
    isGrossProfit: bool,
    isOperatingProfit: bool,
    values: map<string, int>)
  {
    /** A gross-profit or operating-profit subtotal, which must not be summed again. */
    predicate IsSubtotal() {
      isGrossProfit || isOperatingProfit
    }

    predicate Names(name: string) {
      accountName == Some(name)
    }

    /** The amount under `key`, reading a missing key as 0. */
    function Value(key: string): int {
      if key in values then values[key] else 0
    }
  }

  /**
   * A reporting period. `id` is the raw identifier used as the key in
   * consolidated mode; `key` is the period's own key field otherwise.
   */
  datatype Period = Period(id: string, key: string)

  function KeyOf(p: Period, consolidated: bool): string {
    if consolidated then p.id else p.key
  }

  /** The key of every period, in period order. */
  function KeysOf(periods: seq<Period>, consolidated: bool): (ks: seq<string>)
    ensures |ks| == |periods|
    ensures forall i :: 0 <= i < |periods| ==> ks[i] == KeyOf(periods[i], consolidated)
  {
    seq(|periods|, i requires 0 <= i < |periods| => KeyOf(periods[i], consolidated))
  }

  /**
   * Keeps the rows that are not subtotals. FilterMembership shows that the
   * result holds exactly those rows, FilterSplit that it keeps their order.
   */
  function FilterOutCustomRows(rows: seq<Row>): (kept: seq<Row>)
    ensures |kept| <= |rows|
  {
    if rows == [] then []
    else if rows[0].IsSubtotal() then FilterOutCustomRows(rows[1..])
    else [rows[0]] + FilterOutCustomRows(rows[1..])
  }

  /** The filter keeps exactly the rows that are not subtotals. */
  lemma {:induction false} FilterMembership(rows: seq<Row>)
    ensures forall x :: x in FilterOutCustomRows(rows) <==> x in rows && !x.IsSubtotal()
  {
    if rows != [] {
      FilterMembership(rows[1..]);
      assert rows == [rows[0]] + rows[1..];
    }
  }

  lemma {:induction false} FilterDistributes(a: seq<Row>, b: seq<Row>)
    ensures FilterOutCustomRows(a + b) == FilterOutCustomRows(a) + FilterOutCustomRows(b)
  {
    if a == [] {
      assert a + b == b;
    } else {
      assert (a + b)[0] == a[0];
      assert (a + b)[1..] == a[1..] + b;
      FilterDistributes(a[1..], b);
    }
  }

  /** Filtering works row by row: one row is kept or dropped on its own flags, in place. */
  lemma {:induction false} FilterSplit(pre: seq<Row>, x: Row, post: seq<Row>)
    ensures FilterOutCustomRows(pre + [x] + post)
         == FilterOutCustomRows(pre) + (if x.IsSubtotal() then [] else [x]) + FilterOutCustomRows(post)
  {
    assert [x][1..] == [];
    assert FilterOutCustomRows([x]) == if x.IsSubtotal() then [] else [x];
    FilterDistributes(pre + [x], post);
    FilterDistributes(pre, [x]);
  }

  /** A list without subtotal rows passes through the filter unchanged. */
  lemma {:induction false} FilterKeepsPlainRows(rows: seq<Row>)
    requires forall i :: 0 <= i < |rows| ==> !rows[i].IsSubtotal()
    ensures FilterOutCustomRows(rows) == rows
  {
    if rows != [] {
      FilterKeepsPlainRows(rows[1..]);
    }
  }

  /** Row `i` is the first row named `name`. */
  ghost predicate FirstMatch(rows: seq<Row>, name: string, i: int) {
    && 0 <= i < |rows|
    && rows[i].Names(name)
    && forall j :: 0 <= j < i ==> !rows[j].Names(name)
  }

  /**
   * The amount under `key` of the first row named `name`, or 0 when no row
   * has that name (in particular when `rows` is empty).
   */
  function SpecificAccountValue(rows: seq<Row>, name: string, key: string): int
  {
    if |rows| == 0 then 0
    else if rows[0].Names(name) then rows[0].Value(key)
    else SpecificAccountValue(rows[1..], name, key)
  }

  /** Every lookup either finds a first matching row or finds no match at all. */
  lemma {:induction false} LookupCases(rows: seq<Row>, name: string, key: string)
    ensures || (exists i :: FirstMatch(rows, name, i) && SpecificAccountValue(rows, name, key) == rows[i].Value(key))
            || ((forall i :: 0 <= i < |rows| ==> !rows[i].Names(name)) && SpecificAccountValue(rows, name, key) == 0)
  {
    if rows != [] && !rows[0].Names(name) {
      LookupCases(rows[1..], name, key);
      if exists i :: FirstMatch(rows[1..], name, i) && SpecificAccountValue(rows[1..], name, key) == rows[1..][i].Value(key) {
        var i :| FirstMatch(rows[1..], name, i) && SpecificAccountValue(rows[1..], name, key) == rows[1..][i].Value(key);
        assert FirstMatch(rows, name, i + 1);
      }
    } else if rows != [] {
      assert FirstMatch(rows, name, 0);
    }
  }

  /**
   * A subtotal row is never what a lookup on filtered rows returns: inserting
   * one anywhere, whatever its account name, leaves every lookup unchanged.
   */
  lemma SubtotalRowIgnored(pre: seq<Row>, x: Row, post: seq<Row>, name: string, key: string)
    requires x.IsSubtotal()
    ensures SpecificAccountValue(FilterOutCustomRows(pre + [x] + post), name, key)
         == SpecificAccountValue(FilterOutCustomRows(pre + post), name, key)
  {
    FilterSplit(pre, x, post);
    FilterDistributes(pre, post);
    assert FilterOutCustomRows(pre) + [] + FilterOutCustomRows(post)
        == FilterOutCustomRows(pre) + FilterOutCustomRows(post);
  }

  /** The four categories of the statement; each may be absent. */
  datatype Statement = Statement(
    income: Option<seq<Row>>,
    cogs: Option<seq<Row>>,
    expense: Option<seq<Row>>,
    otherRevenueExpense: Option<seq<Row>>)
  {
    /** The statement with subtotal rows dropped and absent categories read as empty. */
    function Filtered(): FilteredStatement {
      FilteredStatement(Kept(income), Kept(cogs), Kept(expense), Kept(otherRevenueExpense))
    }
  }

  /** A category's rows without subtotals; an absent or empty category gives no rows. */
  function Kept(category: Option<seq<Row>>): (rows: seq<Row>)
    ensures category.None? ==> rows == []
  {
    match category
    case None => []
    case Some(rs) => FilterOutCustomRows(rs)
  }

  /** A category keeps exactly its rows that are not subtotals. */
  lemma KeptMembership(category: Option<seq<Row>>)
    ensures forall x :: x in Kept(category) <==> category.Some? && x in category.value && !x.IsSubtotal()
  {
    if category.Some? {
      FilterMembership(category.value);
    }
  }

  /** The four categories after filtering. */
  datatype FilteredStatement = FilteredStatement(
    income: seq<Row>,
    cogs: seq<Row>,
    expense: seq<Row>,
    otherRevenueExpense: seq<Row>)

  /** The four category totals of one period. */
  datatype Figures = Figures(income: int, cogs: int, expense: int, otherRevenueExpense: int)
  {
    /** Income less cost of goods sold, operational expense and other revenue/expense. */
    function Net(): int {
      income - cogs - expense - otherRevenueExpense
    }
  }

  /** Each category's total for the period with key `key`, by the labelled lookup. */
  function FiguresAt(f: FilteredStatement, key: string): Figures {
    Figures(
      SpecificAccountValue(f.income, TOTAL_REVENUE, key),
      SpecificAccountValue(f.cogs, TOTAL_COGS, key),
      SpecificAccountValue(f.expense, TOTAL_OPERATIONAL_EXPENSE, key),
      SpecificAccountValue(f.otherRevenueExpense, TOTAL_OTHER_REVENUE_EXPENSE, key))
  }

  /**
   * A category that is absent, or whose every row named `name` is a subtotal,
   * contributes 0 to every period.
   */
  lemma {:induction false} CategoryWithoutTotalRowReadsZero(category: Option<seq<Row>>, name: string, key: string)
    requires category.None? || forall x :: x in category.value ==> !x.Names(name) || x.IsSubtotal()
    ensures SpecificAccountValue(Kept(category), name, key) == 0
  {
    var rows := Kept(category);
    KeptMembership(category);
    assert forall i :: 0 <= i < |rows| ==> rows[i] in rows;
    LookupCases(rows, name, key);
  }
}
