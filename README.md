# Custom profit-and-loss report: summary arithmetic

A Dafny model of the arithmetic in ERPNext's custom profit-and-loss report
(`custom_profit_and_loss_statement.py`). It builds two things from four
pre-fetched category row lists (income, cost of goods sold, operational expense,
other revenue/expense) and a list of reporting periods:

- the synthesized **Net Profit row**: one amount per period (income − COGS −
  expense − other), a running `total`, and a `percentage` of income;
- the **report summary strip**: nine display entries and the net-profit figure
  returned beside them.

Both builders use two helpers. `filter_out_custom_rows` drops gross-profit and
operating-profit subtotal rows. `get_specific_account_value` reads one period
from the first row carrying a category's total label. The source defines each
helper twice, with the same body: once inside `get_report_summary` (lines
111-118) and once inside `get_net_profit_loss` (lines 181-188). The model
defines each once.

Files:

- `wrappers.dfy`: `Option` and `Result`.
- `statement.dfy` (module `Statement`): rows, periods, the filter, the lookup,
  and each period's four category figures (`FiguresAt`).
- `net_profit_loss.dfy` (module `NetProfitLoss`): `get_net_profit_loss` as an
  imperative loop. `IsNetProfitRow` states what the returned row holds.
- `report_summary.dfy` (module `ReportSummary`): `get_report_summary` as an
  imperative loop, plus lemmas connecting the strip to the Net Profit row.
- `worked_example.dfy` (module `WorkedExample`): one yearly period worked
  through both builders from their contracts alone. A subtotal row shadows
  the revenue label in it.

Modelling choices:

- **Money.** Amounts are integers counting thousandths of a currency unit.
  Rounding to three decimals (`flt(x, 3)`) is then the identity.
- **Period keys.** A period key is an opaque string. In consolidated mode the
  source uses the period item itself as the key (line 196). The model gives
  every `Period` an `id` to play that part.
- **Rows.** A row has an optional `account_name`, the two subtotal flags (an
  absent flag reads as false) and a map from period key to amount. The lookup
  reads a key the row lacks as 0, as `row.get(key, 0)` does.
- **Division by zero.** The percentage step (line 210) divides by the current
  period's income. Python raises `ZeroDivisionError` at the first period whose
  income is 0, and nothing is returned. The model returns
  `Failure(DivisionByZero(key))` for that first period. It has no precondition,
  so no input the source accepts is excluded.
- **Percentage.** Kept as the exact pair `Ratio(total, income)`, taken from the
  last period processed (the source overwrites it each period).
- **Two-stage methods.** Each builder is a method over the already-filtered
  categories (`NetProfitLossOver`, `ReportSummaryOver`), called by the source's
  entry point (`GetNetProfitLoss`, `GetReportSummary`). The entry point filters
  the categories and settles the currency or the period list.

## Model

| member | source | states |
|---|---|---|
| Statement.FilterMembership | erpnext/accounts/report/custom_profit_and_loss_statement/custom_profit_and_loss_statement.py:181-182 | a row is in the filtered list iff it is in the input and is neither a gross-profit nor an operating-profit subtotal; no flagged row gets through |
| Statement.FilterSplit | erpnext/accounts/report/custom_profit_and_loss_statement/custom_profit_and_loss_statement.py:181-182 | filtering goes row by row in place: the output of `pre + [x] + post` is the output of `pre`, then `x` exactly when it is not a subtotal, then the output of `post`, so kept rows keep their order |
| Statement.FilterDistributes | erpnext/accounts/report/custom_profit_and_loss_statement/custom_profit_and_loss_statement.py:181-182 | filtering a concatenation is the concatenation of the filtered parts |
| Statement.FilterKeepsPlainRows | erpnext/accounts/report/custom_profit_and_loss_statement/custom_profit_and_loss_statement.py:181-182 | a list with no subtotal rows comes through the filter unchanged |
| Statement.LookupCases | erpnext/accounts/report/custom_profit_and_loss_statement/custom_profit_and_loss_statement.py:184-188 | the lookup either returns the key's amount (0 when the key is missing) from the FIRST row whose account name equals the label, or finds no such row and returns 0; an empty list returns 0 |
| Statement.SubtotalRowIgnored | erpnext/accounts/report/custom_profit_and_loss_statement/custom_profit_and_loss_statement.py:190-201 | a subtotal row inserted anywhere in a category, whatever its account name, changes no lookup over the filtered category |
| Statement.KeptMembership | erpnext/accounts/report/custom_profit_and_loss_statement/custom_profit_and_loss_statement.py:190-193 | an absent category filters to no rows; a present one keeps exactly its non-subtotal rows |
| Statement.Kept | erpnext/accounts/report/custom_profit_and_loss_statement/custom_profit_and_loss_statement.py:190-193 | an absent category contributes the empty list |
| Statement.CategoryWithoutTotalRowReadsZero | erpnext/accounts/report/custom_profit_and_loss_statement/custom_profit_and_loss_statement.py:184-193 | a category that is absent, or whose rows carrying the label are all subtotals, contributes 0 to every period |
| NetProfitLoss.CurrencyOr | erpnext/accounts/report/custom_profit_and_loss_statement/custom_profit_and_loss_statement.py:176 | the row's currency is the given currency when it is present and non-empty, else the company's default currency |
| NetProfitLoss.RunningTotalAllZero | erpnext/accounts/report/custom_profit_and_loss_statement/custom_profit_and_loss_statement.py:205-209 | when every period nets to zero, so does the running total |
| NetProfitLoss.RunningTotalAppend | erpnext/accounts/report/custom_profit_and_loss_statement/custom_profit_and_loss_statement.py:208-209 | the running total over two consecutive runs of periods is the sum of their running totals |
| NetProfitLoss.NetProfitLossOver | erpnext/accounts/report/custom_profit_and_loss_statement/custom_profit_and_loss_statement.py:195-214 | fails exactly at the first period with zero income, naming that period's key; on success each period's income is non-zero and a row is returned iff some period's net amount is non-zero; the row stores under every period key, and under no other key, income − COGS − expense − other from the filtered lookups; its total is the sum of those amounts in period order; its percentage is that total over the last period's income |
| NetProfitLoss.GetNetProfitLoss | erpnext/accounts/report/custom_profit_and_loss_statement/custom_profit_and_loss_statement.py:170-214 | the same outcome over the categories with subtotal rows dropped and absent categories read as empty; label `'Net Profit'`, `warn_if_negative` set, and the currency as `CurrencyOr` settles it |
| ReportSummary.EffectivePeriods | erpnext/accounts/report/custom_profit_and_loss_statement/custom_profit_and_loss_statement.py:108-109 | the summary walks the consolidated company list when group-company accumulation is set, and the report's periods otherwise |
| ReportSummary.SummaryLabels | erpnext/accounts/report/custom_profit_and_loss_statement/custom_profit_and_loss_statement.py:138-149 | the "This Year" labels are chosen iff there is exactly one period and the periodicity is "Yearly"; the generic labels are chosen otherwise |
| ReportSummary.IndicatorFor | erpnext/accounts/report/custom_profit_and_loss_statement/custom_profit_and_loss_statement.py:162 | the indicator is Green iff net profit > 0, and Red iff it is ≤ 0 |
| ReportSummary.SummaryEntries | erpnext/accounts/report/custom_profit_and_loss_statement/custom_profit_and_loss_statement.py:151-167 | nine entries, separators exactly at the odd positions, every value entry in the report currency, and the last entry is the headline carrying the net profit, Green iff it is positive |
| ReportSummary.NoRowNoProfit | erpnext/accounts/report/custom_profit_and_loss_statement/custom_profit_and_loss_statement.py:135-136 | with no Net Profit row the summary's net profit is 0 |
| ReportSummary.RowAmountsAddUp | erpnext/accounts/report/custom_profit_and_loss_statement/custom_profit_and_loss_statement.py:125-136 | when the row holds each period's net amount under the period's key, the summary's sum of the row's amounts over the first n periods equals the running total after them |
| ReportSummary.RowTotalIsHeadline | erpnext/accounts/report/custom_profit_and_loss_statement/custom_profit_and_loss_statement.py:125-136 | when the summary walks the same periods the row was built over, its net profit is the row's `total` |
| ReportSummary.HeadlineIsPeriodNetSum | erpnext/accounts/report/custom_profit_and_loss_statement/custom_profit_and_loss_statement.py:125-136 | for whatever the row builder returned over the same periods, the summary's net profit is the sum of every period's net amount, and equals the row's `total` when there is a row |
| ReportSummary.SinglePeriodReconciles | erpnext/accounts/report/custom_profit_and_loss_statement/custom_profit_and_loss_statement.py:125-136 | with one period the strip reconciles: net profit = income − COGS − expense − other as shown |
| ReportSummary.ReportSummaryOver | erpnext/accounts/report/custom_profit_and_loss_statement/custom_profit_and_loss_statement.py:125-167 | the category figures are those of the LAST period only, not accumulated, and all 0 with no periods; the net profit is the sum over the periods of the row's amounts, reading a missing key, or a missing row, as 0; the strip is `SummaryEntries` of those figures with the labels chosen from the period count and periodicity |
| ReportSummary.GetReportSummary | erpnext/accounts/report/custom_profit_and_loss_statement/custom_profit_and_loss_statement.py:102-167 | the same, over the effective period list and the filtered categories; the second result is the value of the ninth and last entry |
| WorkedExample.NetProfitExample | erpnext/accounts/report/custom_profit_and_loss_statement/custom_profit_and_loss_statement.py:195-214 | income 100, COGS 30 and expense 20 over one period give the period amount 50, total 50 and percentage 50/100; a leading subtotal row under the revenue label is not read |
| WorkedExample.SummaryExample | erpnext/accounts/report/custom_profit_and_loss_statement/custom_profit_and_loss_statement.py:125-167 | the same statement over one yearly period gives the nine entries with the "This Year" labels and a green headline of 50 |

## Left out

- `execute` (lines 17-99) is not modelled. It only orchestrates calls into the external financial-statement engine: `get_period_list`, `get_data` and `get_columns`.
- The company default currency lookup (`frappe.get_cached_value`) is not modelled. Its answer is the `companyCurrency` parameter.
- `get_filtered_list_for_consolidated_report` (line 109) is an external helper. Its result is the `groupPeriods` parameter, and `accumulatedInGroupCompany` stands for the filter that triggers it.
- `get_chart_data` is not modelled. Its only call is commented out (line 90).
- Translation (`_()`) is not modelled. Labels are the untranslated strings.
- NetProfitLoss.NetProfitLossOver: the percentage is kept as the exact pair (total, last income). The source's float division, `round(…, 2)` and `%` formatting are not modelled.
- NetProfitLoss.NetRow: the per-period amounts sit in their own map, apart from the fixed fields. The model assumes no period key equals a field name such as `total` or `percentage`. With such a key, the one dictionary in the source would mix amounts and fields, and the summary's `net_profit_loss.get(key, 0.0)` would read a field.
- Floating-point amounts are not modelled. Every amount is a whole number of thousandths.
- Exceptions other than the zero-income division are not modelled, for example from a non-numeric stored amount.
