# Finance pack core, modelled in Dafny

This project models the money and validation rules of the finance pack, a set of agents written in Python, TypeScript and Go:

- the budget allocation record (`BudgetModel`) and the ledger entry record (`LedgerEntry`), including their post-construction normalisation;
- the budgeting agent's burn-rate forecast, and how it pulls month-to-date spend out of a cost-and-usage response;
- the reconciliation agent's signed balance fold, variance and one-cent tolerance;
- the audit agent's first-failure-wins entry checks and its duplicate detector;
- per-account debit/credit aggregation over ledger files;
- the forecasting agent's moving average, trend label and cash-flow projection;
- the cost watcher's alert pump over a stream of spend events.

Each source file has its own module:

- `BudgetModels` in budget_model.dfy models models/budget_model.py
- `LedgerEntries` in ledger_entry.dfy models models/ledger_entry.py
- `Budgeteering` in budgeteer.dfy models agents/budgeteer.py
- `Reconciliation` in reconcile.dfy models agents/reconcile.py
- `Auditing` in audit.dfy models agents/audit.ts
- `BalanceAggregation` in csv_utils.dfy models lib/csv_utils.py
- `Forecasting` in forecast.dfy models agents/forecast.ts
- `CostWatching` in cost_watcher.dfy models agents/cost_watcher.go

Three helper modules support them:

- `Common` holds `Option`, `Result` and `Instant`.
- `Decimals` holds the `Decimal(str(x))` coercion shared by both records.
- `Sums` holds a real-valued sum over a sequence, with lemmas for concatenation, reordering and bounds.

Money is ideal `real` arithmetic. Decimal and float values are modelled as reals.

The source's form is kept:

- The two dataclasses are classes. A static `Create` runs the dataclass constructor plus `__post_init__`, and returns an error where the coercion would raise.
- The reconciliation fold, both audit loops and the Go pump are methods with loops. Each is proved against a specification function.
- The rest are functions.

Where a modelled member converts a string to a number, the conversion is a function parameter: Python's `Decimal(str)` in `BudgetModels.BudgetModel.Create` and `LedgerEntries.LedgerEntry.Create`, Python's `float(str)` in `Budgeteering.MonthToDateSpend`, and JavaScript's `parseFloat` in `Auditing.VerifyEntries`. The forecasting agent's series values and the reconciliation agent's transaction amounts are taken already converted. A parameter also stands for the clock reading in the reconciliation report. The transaction service, the cost-and-usage client and the event stream become plain input values. The Slack client becomes a recorder object whose chosen post attempts fail.

Two facts about the code shape the model:

- The cash-flow forecast is the plain mean of the series, grown by 2% of that mean per month (agents/forecast.ts:65-69).
- The `LedgerEntry` of models/ledger_entry.py carries one `amount` and an `entry_type`, not a debit/credit pair. The aggregation in lib/csv_utils.py reads `debit` and `credit` columns, so it is modelled over an abstract `(account, debit, credit)` posting.

## Model

| member | source | states |
|---|---|---|
| `BudgetModels.BudgetModel.Create` | models/budget_model.py:18-31 | an omitted `spent` is 0 and an omitted currency is "USD"; a `None` categories map becomes empty and a supplied one is kept; both amounts are their `Decimal` coercions; an unparsable `allocated` (checked first) or `spent` string gives the matching error, and nothing else does |
| `BudgetModels.BudgetModel.Remaining` | models/budget_model.py:33-35 | `remaining + spent == allocated`; it is negative exactly when spending exceeds the allocation (not clamped) |
| `BudgetModels.BudgetModel.Utilization` | models/budget_model.py:37-41 | 0 for a zero allocation whatever was spent; otherwise `utilization * allocated == 100 * spent` |
| `BudgetModels.UtilizationIsPercentage` | models/budget_model.py:37-41 | with `0 <= spent <= allocated` utilization lies in [0, 100], and is 100 exactly when the allocation is used up |
| `BudgetModels.BudgetModel.ToDict` | models/budget_model.py:43-57 | the dictionary passes the fields through, and its `remaining` and `utilization` entries agree with the two methods |
| `BudgetModels.DictUtilizationRecoversSpent` | models/budget_model.py:51-55 | from a dictionary, `utilization / 100 * allocated` gives back `spent`, and `remaining + spent == allocated` |
| `LedgerEntries.LedgerEntry.Create` | models/ledger_entry.py:13-33 | currency defaults to "USD" and entry type to debit; `None` tags and metadata become empty and supplied ones are kept; the amount is its `Decimal` coercion; an unparsable amount string is the only error |
| `LedgerEntries.LedgerEntry.ToDict` | models/ledger_entry.py:35-48 | id, timestamp, account, description, amount, currency, entry type, category, tags and metadata pass through unchanged |
| `Budgeteering.MonthToDateSpend` | agents/budgeteer.py:53-58 | a response without `ResultsByTime` gives 0; a results value that is not a non-empty list raises; on a well-shaped response the result is the `Amount` read as a number, or 0 when it is missing or unreadable |
| `Budgeteering.MissingAmountReadsAsZero` | agents/budgeteer.py:53-58 | a missing `Amount`, one that is null, a list or a map, or a string that fails to parse reads as 0 spend |
| `Budgeteering.WellFormedResponseYieldsAmount` | agents/budgeteer.py:53-56 | the response shape the API returns gives exactly the parsed amount |
| `Budgeteering.Budgeteer.Forecast` | agents/budgeteer.py:60-72 | fails exactly when `days_elapsed <= 0` or `days_in_month <= 0`, for any spend; otherwise carries `current_spend` unchanged, `burn_rate * days_elapsed == current_spend`, `forecast * days_elapsed == current_spend * days_in_month`, and percent of budget is 0 for a zero limit and otherwise satisfies `percent * limit == forecast * 100` |
| `Budgeteering.NewBudgeteer` | agents/budgeteer.py:35-37 | keeps the limit; the channel defaults to "#finops" |
| `Budgeteering.ProjectionAtMonthEnd` | agents/budgeteer.py:64-65 | when `days_elapsed == days_in_month` the projected month-end spend equals the current spend |
| `Budgeteering.FullBudgetIsHundredPercent` | agents/budgeteer.py:66 | a projection equal to a non-zero limit is 100 percent of budget |
| `Reconciliation.ReconcileAccount` | agents/reconcile.py:39-62 | the calculated balance is the signed fold of the transactions; `variance == expected - calculated`; balanced exactly when `-0.01 < variance < 0.01`, so a variance of exactly 0.01 is not balanced; the count is the number of transactions; no transactions give balance 0 and `variance == expected` |
| `Reconciliation.BalanceIsCreditsMinusOthers` | agents/reconcile.py:41-47 | the balance is the credit total minus the total of every other entry type |
| `Reconciliation.BalanceIgnoresOrder` | agents/reconcile.py:41-47 | permuting the transactions does not change the calculated balance |
| `Reconciliation.BalanceOfBatches` | agents/reconcile.py:41-47 | the balance of two consecutive batches is the sum of their balances |
| `Reconciliation.OffsettingPairCancels` | agents/reconcile.py:44-47 | a credit and an equal amount of any other type cancel to 0 |
| `Auditing.VerifyEntries` | agents/audit.ts:15-51 | the issues are each entry's first failing check, in input order; `verified` counts the entries with none; `passed` holds exactly when there are no issues |
| `Auditing.IssuesAndVerifiedCoverEntries` | agents/audit.ts:23-44 | `verified + issues.length == entries.length`: each entry gives exactly one issue or one verification |
| `Auditing.IssuesOfBatches` | agents/audit.ts:23-44 | issues of consecutive batches come batch by batch, at most one per entry and in order |
| `Auditing.PassesIffEveryEntryPasses` | agents/audit.ts:46-48 | the audit passes exactly when every entry passes all its checks |
| `Auditing.FirstFailureWins` | agents/audit.ts:24-41 | an entry missing id, account or description gets the missing-fields issue whatever its amount and currency; an empty or absent currency never gives an issue |
| `Auditing.DetectDuplicates` | agents/audit.ts:56-71 | the reports are, in input order, one per entry whose `timestamp-account-amount` key occurred earlier |
| `Auditing.DuplicateCount` | agents/audit.ts:56-70 | the number of reports is the number of entries minus the number of distinct keys, so a first occurrence is never reported |
| `Auditing.NoRepeatsNoReports` | agents/audit.ts:60-68 | entries with pairwise distinct keys give no report |
| `Auditing.SeparatorCollision` | agents/audit.ts:61 | the key is a plain concatenation, so two entries with different timestamp and account can share a key and the second is reported |
| `BalanceAggregation.TotalsAreSums` | lib/csv_utils.py:34-35 | the group-by fold maps each account that occurs to the sums of its debit and credit columns |
| `BalanceAggregation.AccountsMembership` | lib/csv_utils.py:34-35 | an account is grouped exactly when some entry carries it |
| `BalanceAggregation.Grouping` | lib/csv_utils.py:34-36 | one row per account that occurs, and only those; the row's debit and credit are that account's sums over all entries; `net == debit - credit` |
| `BalanceAggregation.AggregateBalances` | lib/csv_utils.py:30-37 | no ledgers give the empty `account, debit, credit` frame with no `net`; ledgers that hold no entry at all raise (see Findings); otherwise the grouped rows of all entries of all ledgers |
| `BalanceAggregation.Aggregate` | lib/csv_utils.py:30-37 | corrected aggregation: the empty frame exactly when there is no entry; otherwise one row per occurring account with its sums and net |
| `BalanceAggregation.EmptyLedgerFileRaises` | lib/csv_utils.py:31-35 | one ledger file with no rows makes the as-written aggregation raise, where the corrected one gives the empty frame |
| `BalanceAggregation.AggregateAgreesWhenDefined` | lib/csv_utils.py:30-37 | wherever the as-written aggregation returns, the corrected one returns the same table |
| `BalanceAggregation.CombinedIgnoresLedgerOrder` | lib/csv_utils.py:31-34 | shuffling the ledger list only reorders the concatenated entries |
| `BalanceAggregation.GroupingIgnoresOrder` | lib/csv_utils.py:35-36 | the grouped rows depend only on which entries there are, not their order |
| `BalanceAggregation.AggregateIgnoresOrder` | lib/csv_utils.py:34-35 | reordering entries within or across ledgers changes no per-account sum, with or without the fix |
| `BalanceAggregation.AggregateIgnoresLedgerOrder` | lib/csv_utils.py:31-35 | shuffling the list of ledger files does not change the result |
| `BalanceAggregation.SeedFileNets` | lib/csv_utils.py:34-36 | for the seed file Cash debit 10 / Equity credit 10, the rows are Cash (10, 0, net 10) and Equity (0, 10, net -10) |
| `Forecasting.DetectTrend` | agents/forecast.ts:40-52 | fewer than 2 points is stable. For a positive previous value: up exactly when the last value exceeds it by more than 5%, down exactly when it falls more than 5% below, so a change of exactly ±5% is stable. The comparisons reverse for a negative previous value. For a zero previous value the result follows the sign of the last value |
| `Forecasting.RelativeChange` | agents/forecast.ts:45-51 | comparing `(last - prev) / prev` with ±0.05 is comparing `last` with `1.05 * prev` and `0.95 * prev`, reversed for a negative `prev` |
| `Forecasting.SimpleMovingAverage` | agents/forecast.ts:20-38 | the window is 3 unless one is given; fails exactly when the series is shorter than the window; otherwise `predicted * window` is the sum of the last `window` values, period is "next", confidence 0.7, the trend is that of the whole series, and the factors are `moving_average` and `window_<n>` |
| `Forecasting.MovingAverageWithinWindow` | agents/forecast.ts:25-27 | the prediction lies between the smallest and largest value of the window |
| `Forecasting.ForecastCashFlow` | agents/forecast.ts:65-69 | the output has `months` points; an empty series gives zeros; element 0 is the series mean; every step adds 2% of the mean |
| `Forecasting.LinearGrowth` | agents/forecast.ts:68 | element `k` is the mean times `1 + 0.02 * k` |
| `Forecasting.CashFlowFollowsSignOfMean` | agents/forecast.ts:67-68 | the projection never falls for a non-negative mean and never rises for a non-positive one |
| `Forecasting.ExampleSeriesStartsAtMean` | agents/forecast.ts:95-97 | the shipped example series 1200, 1350, 980 over 6 months starts at 3530 / 3 |
| `CostWatching.SlackRecorder.PostMessage` | agents/cost_watcher.go:19-21 | a post attempt either records the alert or, for a failing attempt, returns that attempt's error and records nothing |
| `CostWatching.StreamAlerts` | agents/cost_watcher.go:29-51 | the returned error, the alerts appended to the recorder and the attempts made are those of the pump specification `Pump` |
| `CostWatching.FirstStop` | agents/cost_watcher.go:37-43 | locates the first end-of-stream or error result: everything before it is an event |
| `CostWatching.CleanRunPostsAllQualifying` | agents/cost_watcher.go:30-49 | with no post failing, one alert per event with `cost >= threshold` before the first end-of-stream or error, in stream order; EOF returns no error and a stream error is returned as is |
| `CostWatching.PostsArePrefixOfQualifying` | agents/cost_watcher.go:44-49 | whatever fails, the posted alerts are a prefix of those owed: none below the threshold, none out of order |
| `CostWatching.NothingAfterStop` | agents/cost_watcher.go:38-43 | after the first EOF or stream error nothing later in the stream affects the outcome |
| `CostWatching.FailedPostEndsRun` | agents/cost_watcher.go:46-48 | a rejected post ends the run with that post's error; every earlier post went through and no later one is attempted |
| `CostWatching.ThresholdIsInclusive` | agents/cost_watcher.go:44 | an event costing exactly the threshold is alerted and one below it is not; a drained stream ends without error |

## Findings

| source | as written | input that shows it | evidently intended | confidence | as-written member | corrected member |
|---|---|---|---|---|---|---|
| lib/csv_utils.py:31-35 | when ledgers are given but none has an entry, every per-ledger frame has no columns, and `groupby("account")` on their concatenation raises `KeyError` | `[LedgerFile("empty.csv", [])]` | the empty `account, debit, credit` frame, which is already returned when no ledgers are given | medium, not executed | `BalanceAggregation.EmptyLedgerFileRaises` | `BalanceAggregation.Aggregate` |

## Left out

- Context cancellation in `StreamAlerts` (agents/cost_watcher.go:31-35) is not modelled. It concerns timeouts and concurrency, not the alert rule.
- A stream that never ends is not modelled. The stream is a finite sequence of `Next` results, and past its end it reports EOF, as the test's fake stream does.
- Number renderings are not modelled: the alert text's `%.2f`, `toFixed(2)`, `str(Decimal)`, `isoformat()` and the weekly report's formatting. Values are modelled instead.
- I/O is not modelled:
  - `read_ledger_csv`, `load_ledgers` and `to_dataframe`. The `LedgerEntry` of models/ledger_entry.py has no `.dict()`. `LedgerFile` is imported at lib/csv_utils.py:9 but defined in none of the program's files, so the model uses its own stand-in: a name plus a sequence of `(account, debit, credit)` postings.
  - The cost-and-usage client call and `_default_time_range`, which reads the clock.
  - `build_weekly_report` and its posting.
  - The transaction-service call. Its transactions are an input, and `datetime.now()` is the `now` parameter.
  - `writeForecastReport`, `renderForecastTable`, `runCli` and `runPostbuildBeacon`.
- String-to-number parsing (`Decimal(str)`, `float(str)`, `parseFloat`) is not modelled: it is a parameter where a member parses, and elsewhere values arrive already converted. A `Decimal` value of NaN or Infinity is not modelled.
- IEEE-754 rounding is not modelled; all arithmetic is exact. So is Decimal's 28-digit context rounding in `utilization`. NaN costs, thresholds and budget limits are not modelled either.
- `Forecasting.DetectTrend`: a previous value of negative zero (`parseFloat("-0")`) is treated like zero. In JavaScript it would flip the sign of the infinity.
- `Forecasting.SimpleMovingAverage`: requires a given window to be at least 1. JavaScript accepts a window of 0 and divides by zero. The window is a natural number, so a fractional window is not modelled either; in JavaScript `slice(-2.5)` keeps 2 points and their sum is then divided by 2.5. Series values are taken as numbers, so a value that `parseFloat` turns into NaN is not modelled.
- `Forecasting.ForecastCashFlow`: `months` is a natural number. In JavaScript a fractional `months` throws `RangeError` for an empty series and gives ⌊months⌋ points otherwise; a negative one throws for an empty series and gives `[]` otherwise. Neither case is modelled.
- `Reconciliation.ReconcileAccount`: transaction amounts are taken as numbers. A service amount that `Decimal` rejects, and a transaction missing `amount` or `entry_type`, are not modelled; both raise in the source.
- `Auditing.VerifyEntries`: the currency length is counted in characters, while JavaScript counts UTF-16 code units. Currencies outside the Basic Multilingual Plane can differ. A missing id, account or description is the empty string, which behaves the same as `undefined` in the checks.
- `LedgerEntries.LedgerEntry.Create`: `entry_type` is limited to debit and credit, as declared. Python does not enforce the `Literal` at run time.
- A float handed to a `Decimal` field is coerced to the value of its shortest decimal rendering (`Decimal(str(f))`), not to its binary value, so `Decimal(str(0.1))` does not compare equal to the float `0.1`; the model carries a float as that rendered value.
- Rebuilding an entry from its own dictionary (`LedgerEntry(**entry.to_dict())`) is not modelled. `to_dict` renders the amount with `str` and the timestamp with `isoformat()`, and the rebuilt entry keeps that timestamp string, so its own `to_dict()` fails on `isoformat`. The model keeps amounts and instants as values, so it cannot state this outcome.
- `BudgetModels.BudgetModel.Create`: an explicit `None` for `spent` or `currency` is outside the declared types and is not modelled. The `Option` arguments mean "left at the default".
- The agents' constant identifiers (`agentId`, `displayName`, `packId`, `agent_id`, …) are not modelled. Neither are pandas' row order and dtypes in `aggregate_balances`.
- Not mutating the inputs is not stated separately: every aggregation and forecast here is a function of values, so it holds by construction.
