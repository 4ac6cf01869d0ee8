/**
 * A one-period statement worked through both builders: income 100, COGS 30 and
 * expense 20 (in thousandths), with an income subtotal row placed first under
 * the revenue label and no other revenue/expense category.
 */
module WorkedExample {
  import opened Wrappers
  import opened Statement
  import opened NetProfitLoss
  import opened ReportSummary

  const KEY := "fy2024"

  function ExampleStatement(): Statement {
    Statement(
      Some([ Row(Some(TOTAL_REVENUE), true, false, map[KEY := 999]),
             Row(Some(TOTAL_REVENUE), false, false, map[KEY := 100000]) ]),
      Some([ Row(Some(TOTAL_COGS), false, false, map[KEY := 30000]) ]),
      Some([ Row(Some("Rent"), false, false, map[KEY := 5000]),
             Row(Some(TOTAL_OPERATIONAL_EXPENSE), false, false, map[KEY := 20000]) ]),
      None)
  }

  /**
   * The row holds 50 for the period, a total of 50 and a percentage of 50/100;
   * the subtotal row, though it comes first under the revenue label, is not read.
   */
  method NetProfitExample() returns (r: Result<Option<NetRow>, Error>)
    ensures r == Success(Some(NetRow(
      NET_PROFIT_ACCOUNT, NET_PROFIT_ACCOUNT, true, "USD", map[KEY := 50000], 50000, Ratio(50000, 100000))))
  {
    var s := ExampleStatement();
    var f := s.Filtered();
    assert f.income == [Row(Some(TOTAL_REVENUE), false, false, map[KEY := 100000])];
    assert FiguresAt(f, KEY) == Figures(100000, 30000, 20000, 0);
    r := GetNetProfitLoss(s, [Period(KEY, KEY)], "USD", None, false);
    ghost var ks := KeysOf([Period(KEY, KEY)], false);
    assert ks == [KEY];
    assert PeriodFigures(f, ks) == [Figures(100000, 30000, 20000, 0)];
    assert r.Success?;
    assert r.value.Some?;
    ghost var row := r.value.value;
    assert row.values == map[KEY := 50000];
    assert RunningTotal(PeriodFigures(f, ks), 1) == 50000;
    assert row.total == 50000 && row.percentage == Ratio(50000, 100000);
    assert row.currency == CurrencyOr(None, "USD") == "USD";
  }

  /**
   * The summary of that statement over its single yearly period: the year
   * labels, the period's category totals and a green headline of 50.
   */
  method SummaryExample() returns (summary: seq<Entry>, netProfit: int)
    ensures netProfit == 50000
    ensures summary == [
      Figure(100000, "Total Income This Year", "USD"),
      Separator("-", None),
      Figure(30000, "Total COGS This Year", "USD"),
      Separator("-", None),
      Figure(20000, "Total Expense This Year", "USD"),
      Separator("=", None),
      Figure(0, "Total Other Revenue & Expense This Year", "USD"),
      Separator("=", Some("blue")),
      Headline(50000, Green, "Profit This Year", "USD")]
  {
    var row := NetRow(
      NET_PROFIT_ACCOUNT, NET_PROFIT_ACCOUNT, true, "USD", map[KEY := 50000], 50000, Ratio(50000, 100000));
    var s := ExampleStatement();
    var f := s.Filtered();
    assert f.income == [Row(Some(TOTAL_REVENUE), false, false, map[KEY := 100000])];
    assert FiguresAt(f, KEY) == Figures(100000, 30000, 20000, 0);
    summary, netProfit := GetReportSummary([Period(KEY, KEY)], "Yearly", s, Some(row), "USD", false, [], false);
    assert KeysOf([Period(KEY, KEY)], false) == [KEY];
  }
}
