# A verified model of the LLM gateway

The gateway accepts a request of a client, admits it against prices, budgets and a daily quota, reserves a run under an
idempotency key, hands it to a provider (an HTTP Responses endpoint, the Codex App Server or a WorkBuddy process),
relays the answer, and settles it: tokens become charges, charges are stored, and only then is the client told. This
project models that machinery in Dafny and proves what its documentation, its tests and its code promise about money,
idempotency, pooled processes and configuration reloads.

Run `dafny verify dfyconfig.toml` to check it.

## How it is organised

| file | models |
|---|---|
| `Wrappers`, `Names`, `Text`, `Sums`, `Heads`, `IdleList` | options and results, identifiers, white space, sums over maps and lists, counting requests by phase, the idle list both pools share |
| `Decimal`, `Estimator`, `Pricing` | fixed-point amounts, the token estimate, charges and the hard-budget test |
| `RunStore`, `Quota` | the run tables as one object whose transactions are atomic steps; quota windows and their overshoot |
| `Gateway`, `ActualCosts`, `Lifecycle` | admission, the relay of one request and the cost records it stores, and all requests interleaved over one database |
| `UsageRows`, `UsageGroups`, `UsageSeries`, `UsageCosts`, `UsageReport`, `UsageSummary`, `UsageTables` | reports over the tables |
| `WorkbuddyPool`, `AcpRun` | the WorkBuddy worker pool under every interleaving; the message loop of one prompt |
| `CodexPool`, `CodexRoute`, `RpcQueue`, `ResponseStream` | the Codex worker pool, its choice of backend, its message queue, and both readers of streamed answers |
| `RuntimeManager`, `ConfigCheck`, `ToolCall` | who owns an adapter across reloads, configuration validation, the function-call contract |

Code that changes state in place is a class or a method with loops, proved against functions; concurrency is a state
machine whose steps are the sections that run under a lock or in one transaction, interleaved without restriction with
failures, lost commits, dying processes and reopenings. Two things in the code happen outside any lock, and there the
steps are single loads and stores: the deadline of a block (`CodexRoute`) and the swaps of `Close` (`RuntimeManager`).
The methods of a pool and the steps of its machine share one transition function. Laws are lemmas about those functions
and machines.

Every decision is stated twice: by the function that the code's method is proved against, and, independently of that
function, on the fields it is about. Lemmas whose names end in `Exactly`, `Means` or `Books` are of the second kind: both
directions of each condition, every error code, every column under its own name.

Three conventions hold throughout. Instants and durations are integers (nanoseconds). Identifiers are one-field
datatypes around their text. Where the width of an integer can matter it is written out (`Decimal.Wrap64`); token
counts and rates are otherwise the 64-bit values their range checks admit.

## What the proofs found

- A decimal may carry a minus behind its plus (`+-1`), although the type is documented as non-negative: the strict
  integer parser is applied after the plus was stripped. `Decimal.NegativeExactly` gives the sign of every accepted text.
  Without a second sign an amount is not negative. With one, the amount is the fraction minus the whole part, wrapped to
  64 bits; it is negative exactly when whole part times 10^9 minus fraction, modulo 2^64, lies between 1 and 2^63. So
  `+-1` is negative and `+-9223372037` is positive. Rates are checked again (internal/config/config.go:452), daily limits
  are not: `ConfigCheck.LimitSign` says which accepted limits are positive.
- The status page can show an amount left of a daily quota while every reservation is refused. Under a negative limit the
  remainder, limit minus used, may lie below -2^63; it then wraps to a positive amount. `Quota.RefusedWhenNothingLeft`
  proves that page and refusal agree if and only if the remainder fits 64 bits, as it always does under a positive limit,
  and what happens otherwise. The limit `+-9223372036` passes the configuration check
  (`ConfigCheck.LargeNegativeLimitPasses`), and after one dollar the page shows 9223372036.709551616
  (`Quota.RefusedWithAmountLeft`).
- `Close` of the runtime manager takes no lock. If it runs after an update or a reload has loaded the current snapshot and
  before it swaps, the snapshot then installed holds a retired adapter exactly when it shares one with the closed snapshot:
  `RuntimeManager.Manager.UpdateAroundClose` and `RuntimeManager.Manager.ReloadAroundClose`, with one unchanged Codex
  provider as `RuntimeManager.UnchangedProviderClosedUnderneath`.
- An update clears the keys in the provider list of the snapshot it installs (internal/config/config.go:200-202), and the
  next reload compares against that list. It keeps a working HTTP adapter if and only if the provider now has no key and
  its other fields are unchanged (`RuntimeManager.HttpKeptExactly`): one that kept its key is built anew, and one whose
  key was removed is still served with the old one (`RuntimeManager.RemovedKeyStaysInUse`). Without an update in between
  the removal is noticed (`RuntimeManager.RemovedKeyIsNoticed`).
- The deadline that keeps text requests off the direct Codex route is computed and stored without a lock
  (internal/provider/codex/adapter.go:200, 269), so two refusals may store theirs in the opposite order of their
  readings. No text request goes direct before the deadline stored last (`CodexRoute.RouteAlways`), but one may go before
  the furthest deadline stored, and exactly those cut a minute short (`CodexRoute.BlockCutShortExactly`). A run with such
  a request exists if and only if the adapter has a direct route and more than one slot
  (`CodexRoute.CanBeCutShortExactly`), which is the default; `CodexRoute.ExtensionCanBeLost` gives it.
- In the time series of a report the number of points overflows when the window and one bucket, less a nanosecond, exceed
  a 64-bit duration. `UsageRows.SlotExactly` says which settlements then still have a point: none, except with buckets of
  one nanosecond, where those less than 2^63 - 1 nanoseconds from the start do. The admin interface cannot ask for such a
  window (internal/admin/server.go:183-224 caps it at a year and buckets at an hour); only a direct call of the store can.
- A commit whose acknowledgement is lost leaves a run that its caller believes refused. The invariants of `RunStore` and
  `Lifecycle` hold in spite of it, because every commit may be stored, undone, or stored without the caller knowing.

## Model

| member | source | states |
|---|---|---|
| Decimal.ParseDecimalExact | internal/pricing/decimal.go:18-65 | on an optional plus, digits and a fraction, parsing succeeds exactly when there are at most nine fraction digits and the value in nanos fits 64 bits, and then yields that value |
| Decimal.AcceptedShape | internal/pricing/decimal.go:18-65 | an accepted text has at most two signs, the first one a plus, then digits, and at most nine behind a dot |
| Decimal.PrintParse | internal/pricing/decimal.go:18-80 | printing and parsing gives an amount back if and only if it is not negative; a printed negative amount is refused |
| Decimal.FitsExactly | internal/pricing/decimal.go:61-64 | the overflow test is exact: it refuses precisely the pairs whose combined value does not fit |
| Decimal.TruncExactly | internal/pricing/decimal.go:61-64 | the division of the overflow test truncates toward zero |
| Decimal.SecondSignIsAccepted | internal/pricing/decimal.go:26-37 | a concrete text with two signs parses to a negative amount |
| Decimal.NegativeExactly | internal/pricing/decimal.go:26-65 | for every accepted text: without a second sign the amount is not negative; with one it is fraction minus whole part, wrapped to 64 bits, and negative exactly when whole part minus fraction in nanos, modulo 2^64, lies between 1 and 2^63 |
| Decimal.LargeSecondSignIsPositive | internal/pricing/decimal.go:60-65 | a concrete text with two signs and a whole part that is not zero parses to a positive amount |
| Decimal.AddExact | internal/pricing/decimal.go:82-87 | adding non-negative amounts fails exactly when the sum does not fit and is exact otherwise |
| Estimator.EstimateTextV1 | internal/pricing/estimator.go:15-35 | the one-pass counters equal the count of CJK runes and of the others, and the estimate is their weighted sum |
| Estimator.TokensExactly | internal/pricing/estimator.go:23-35 | one token for every CJK rune and one for every four others, begun or full |
| Estimator.EstimateConcat | internal/pricing/estimator.go:15-52 | estimating a text in two parts adds at most one token and loses none |
| Estimator.EstimatePermutation | internal/pricing/estimator.go:15-52 | the order of the runes does not matter |
| Estimator.NonEmptyTextHasTokens | internal/pricing/estimator.go:23-28 | a text has at least one token exactly when it is not empty |
| Pricing.HalfUp | internal/pricing/pricing.go:112-124 | a charge is the nearest nano, ties going up |
| Pricing.RoundedExactly | internal/pricing/pricing.go:112-124 | a count times a rate is divided by a million, ties going up |
| Pricing.ChargeMonotone | internal/pricing/pricing.go:112-124 | fewer tokens at a lower rate never cost more and never overflow where the larger charge did not |
| Pricing.ChargeSplit | internal/pricing/pricing.go:112-124 | charging in two parts differs by at most one nano |
| Pricing.TotalExact | internal/pricing/pricing.go:83-110 | the total is input plus output exactly, not negative, and within one nano of the unrounded price |
| Pricing.CalculateExactly | internal/pricing/pricing.go:83-110 | when a usage can be priced, and that each charge is that of its own count at its own rate |
| Pricing.HardBudgetSound | internal/pricing/pricing.go:145-170 | a hard budget is granted if and only if every usage within its two bounds settles without overflow and stays within the maximum charge |
| Pricing.EvaluateExactly | internal/pricing/pricing.go:145-170 | when a hard budget can be evaluated at all, and the verdict and charge it then gets |
| Pricing.ResolveUsage | internal/pricing/pricing.go:53-81 | usage is refused exactly for a negative report; otherwise each dimension takes the reported count or, without one, the estimate of its own text, says which, and is not negative |
| RunStore.SQLite.Reserve | internal/store/sqlite.go:85-153 | the tables and the answer after a reservation, for every way its commit can end |
| RunStore.ReserveBooks | internal/store/sqlite.go:85-153 | a reservation succeeds exactly when its ids are given, its key is free and the quota leaves room; it then adds one accepted, pending run and its key row, column by column, and otherwise nothing |
| RunStore.LookupMeans | internal/store/sqlite.go:275-293 | a key is found exactly when it is on record, and answered with the columns of its own run |
| RunStore.SQLite.DailyQuotaUsed | internal/store/sqlite.go:176-224 | the row loop computes the sum over the counting rows, or the first error |
| RunStore.CountsMeans | internal/store/sqlite.go:176-193 | a row counts for the quota exactly when it is a confirmed charge in dollars, in any case of the letters, of a completed run of this client that was created since |
| RunStore.SQLite.UpdateState | internal/store/sqlite.go:306-322 | only an open run changes state, and then to exactly the state, settlement and code asked for |
| RunStore.StateBooks | internal/store/sqlite.go:306-322 | a change of state succeeds exactly on a run that is accepted or running, and then changes status, settlement, code and time of this run alone |
| RunStore.SQLite.MarkRunning | internal/store/sqlite.go:295-297 | an open run becomes running and pending |
| RunStore.SQLite.MarkFailed | internal/store/sqlite.go:299-304 | an open run becomes failed with a failed settlement; pending and confirmed are refused |
| RunStore.SQLite.Complete | internal/store/sqlite.go:324-369 | usage, charge, cost and status are written together or not at all; an acknowledged completion has booked each column under its own name and changed no other row |
| RunStore.CompleteBooks | internal/store/sqlite.go:324-369 | a completion succeeds exactly when its run is open, has no usage or charge row, and no count is negative; it then stores input and output tokens, currency, total, response, bill, cost provider and payload each in its own column, and no row of another run changes |
| RunStore.SQLite.ResetDailyQuota | internal/store/sqlite.go:264-273 | the reset instant of one client, for every way its commit can end; an id of white space alone is refused |
| RunStore.SQLite.Open | internal/store/sqlite.go:51-83 | reopening fails every open run and touches nothing else |
| RunStore.RecoverBooks | internal/store/sqlite.go:73-78 | after a reopening the runs that were open are failed and unconfirmed, and every other row is as before |
| RunStore.InvStep | internal/store/sqlite.go:85-369 | every operation keeps: legal status pairs; a usage row iff a charge row iff completed and confirmed; keys point to one run of their own client and fingerprint |
| RunStore.InvAlways | internal/store/sqlite.go:51-369 | the same after any sequence of operations, whatever commits were lost |
| RunStore.ExtendsStep | internal/store/sqlite.go:295-369 | no operation removes a row of any table, changes an identity column or a cost row, or touches a finished run |
| RunStore.FinalStatesAbsorb | internal/store/sqlite.go:132-148 | completed and failed are final and a charge is made once, over any continuation |
| RunStore.ErrorSticks | internal/store/sqlite.go:194-223 | an unreadable or overflowing row decides the quota query |
| Quota.UsedIsTotal | internal/store/sqlite.go:176-224 | the total read row by row is the exact sum of the window and fails only when that sum does not fit |
| Quota.BoundedStep | internal/store/sqlite.go:106-130 | one operation keeps: spending plus what open runs may still add is within limit - 1 nano + runs times charge |
| Quota.ExposureFalls | internal/store/sqlite.go:295-369 | settling, failing and recovering runs never raise what the client may still spend |
| Quota.OvershootBound | internal/store/sqlite.go:106-130 | over any run with a fixed limit, at most K open runs and at most C for each, the confirmed total of the current or a later window is at most limit - 1 nano + K*C |
| Quota.RefusedWhenNothingLeft | internal/store/sqlite.go:106-130 | a refusal for quota and a status page that shows zero left of the same window coincide if and only if limit minus used fits 64 bits, which holds under every positive limit; where it does not fit, the reservation is refused and the page shows an amount left |
| Quota.RefusedWithAmountLeft | internal/store/sqlite.go:226-262 | a concrete history and limit: one dollar spent, 9223372036.709551616 shown as left, every reservation refused |
| Quota.NoStatusNoReservation | internal/store/sqlite.go:106-127 | when the status page cannot be computed, or the limit is zero, the reservation fails and stores nothing |
| Gateway.PersistBeforeReport | internal/gateway/gateway.go:353-471 | a client sees deltas and then nothing, one run.failed, or billing.completed and perhaps run.completed with the same bill, the latter two only after exactly this response and bill were stored |
| Gateway.ShapeStep | internal/gateway/gateway.go:353-471 | the same, one action at a time |
| Gateway.Relay.Consume | internal/gateway/gateway.go:353-471 | everything a request does, for every provider stream, cancellation, refused delivery and storage failure: its plan, carried out up to the first event its caller does not take |
| Gateway.Relay.End | internal/gateway/gateway.go:359-367 | what ends the event loop and what is done then |
| Gateway.Relay.Settle | internal/gateway/gateway.go:377-458 | a completion is checked against the tool contract and priced; what is then stored and reported is that response and bill |
| Gateway.Relay.StoreRun | internal/gateway/gateway.go:413-457 | a completion is reported only after it was stored; a failed encoding or commit marks the run and tells the caller instead |
| Gateway.Relay.Encode | internal/gateway/gateway.go:411-445 | the stored completion holds the response, the bill and the cost records of this run, or there is none |
| Gateway.CompletionMeans | internal/gateway/gateway.go:411-445 | what is handed to the store, column by column, and exactly when nothing can be |
| Gateway.RelayIsHonest | internal/gateway/gateway.go:413-445 | every completion a request hands to the store says the same in its encoded bill and in its columns |
| Gateway.Relay.ReportRun | internal/gateway/gateway.go:453-456 | the bill is sent first, and the completion only if the bill was taken |
| Gateway.Relay.Fail | internal/gateway/gateway.go:545-552 | a failure is marked when runs are stored, and then told when there is something to tell |
| Gateway.TraceFollows | internal/gateway/gateway.go:353-471 | whatever a provider sends and whatever fails, a request acts in turn |
| Gateway.ConcludesAsPriced | internal/gateway/gateway.go:377-458 | every completion stored and every bill and response reported is the priced one of the completion that ended the event loop, and its tool calls were accepted |
| Gateway.PricedMeans | internal/gateway/gateway.go:575-603 | a bill shows each charge under its own name, the nearest nano of its own count at its own rate, their sum as the total, and exceeded exactly when that sum is above the budget |
| Gateway.CountsMean | internal/gateway/gateway.go:398-405 | each count of a bill is the reported one, or else the estimate of the admitted input or of what was put out |
| Gateway.PricedIsReported | internal/gateway/gateway.go:453-456 | a run that is priced and stored ends with its bill and its completion for a caller that takes every event |
| Gateway.ReportedText | internal/gateway/gateway.go:373-384 | a reported run delivered every delta before it, and its text is their concatenation unless the provider gave one |
| Gateway.AdmitExactly | internal/gateway/gateway.go:232-282 | who is admitted, with which budget, and the code of every refusal, on the fields of request and deployment: present, enabled, allowed, effort known, functions native, budget in order |
| Gateway.AdmittedMeans | internal/gateway/gateway.go:232-282 | a request is admitted against the deployments and the client lists exactly when it is admissible on those fields; a model that is absent or not allowed is refused as such |
| Gateway.DecideExactly | internal/gateway/gateway.go:296-314 | a reservation leads to a start, a replay or a refusal with its code, exactly by the columns of the record found |
| Gateway.HowItEnds | internal/gateway/gateway.go:359-384 | which marks and events follow a cancellation, a failure, a completion and a stream that just stops |
| Gateway.HowItSettles | internal/gateway/gateway.go:377-458 | what follows a completion, in order, with the code each kind of failure leaves |
| Gateway.WholeTrace | internal/gateway/gateway.go:353-471 | a caller that takes every event gets all deltas up to the end of the event loop, and then exactly what the end calls for |
| Gateway.AdmittedBudgetHolds | internal/gateway/gateway.go:264-278 | usage within what a hard budget admitted is settled, and its bill is not marked exceeded |
| Gateway.HardBudgetKept | internal/gateway/gateway.go:353-471 | over every stream and failure: if the usage of an admitted run stays within what was admitted, it is priced and no bill the request sends is marked exceeded |
| Gateway.UnreportedInputIsAdmittedInput | internal/gateway/gateway.go:398-405 | a run without reported input is billed for the very estimate its budget was admitted with, whether its output was reported or not |
| ActualCosts.CalculateActualRecords | internal/gateway/gateway.go:504-543 | the loop over reported costs and the two configured estimates give the records, in order |
| ActualCosts.ReportedExactly | internal/gateway/gateway.go:507-529 | a reported cost is recorded exactly when its total is an amount, with each part under its own name |
| ActualCosts.EstimateExactly | internal/gateway/gateway.go:530-541 | an estimate is recorded exactly for a configured price that nothing was reported in, each charge under its own name |
| ActualCosts.RecordsNotNegative | internal/gateway/gateway.go:515-541 | whatever a provider reports, every recorded total reads back as an amount that is not negative |
| Lifecycle.SystemStep | internal/gateway/gateway.go:284-351 | every step of every interleaving of requests, failures, lost commits and reopenings keeps the system consistent |
| Lifecycle.SystemAlways | internal/gateway/gateway.go:284-471 | the same over whole runs |
| Lifecycle.AtMostOnce | internal/gateway/gateway.go:284-351 | one key of one client starts a provider at most once, ever |
| Lifecycle.OnlyAllowedRuns | internal/gateway/gateway.go:232-351 | over every interleaving, every run on record and every start of a provider belongs to a request whose deployment exists, is enabled, is on the list of its client, knows the effort and the functions asked for, and whose budget is in order |
| Lifecycle.RefusedStartBooks | internal/gateway/gateway.go:320-338 | a provider that cannot be started leaves its run failed, unconfirmed and with its code |
| Lifecycle.UnmarkedRunBooks | internal/gateway/gateway.go:339-345 | a run that cannot be marked running is failed with a failed settlement |
| Lifecycle.OneAnswerPerRun | internal/gateway/gateway.go:298-314 | whoever is told of a completed run, at the time or by repeating its key, is told the same response and bill; the total on record and both token counts on record are those of the bill |
| Lifecycle.RepeatedKey | internal/gateway/gateway.go:296-314 | a repeated key is answered from the table alone, without quota check or write, however its commit ends: replayed for an admissible request of the same fingerprint and a confirmed run, refused otherwise |
| UsageRows.SlotInWindow | internal/store/sqlite.go:741-751 | while the window fits a 64-bit duration, a settlement inside it has a point, and it is the one whose interval contains it |
| UsageRows.NoSlotInHugeWindow | internal/store/sqlite.go:746-750 | beyond that no settlement has a point when buckets are longer than a nanosecond |
| UsageRows.SlotExactly | internal/store/sqlite.go:741-751 | a settlement inside the window has a point if and only if the window fits, or buckets are single nanoseconds and it lies less than 2^63 - 1 of them from the start |
| UsageRows.EmptySeriesExample | internal/store/sqlite.go:746-750 | a concrete window that plots nothing |
| UsageRows.PartialSeriesExample | internal/store/sqlite.go:746-750 | a concrete window of single nanoseconds that plots early settlements only |
| UsageRows.AddReportDecimalMeans | internal/store/sqlite.go:821-836 | a total grows exactly, or the row is refused because it cannot be read or does not fit |
| UsageRows.GroupExactly | internal/store/sqlite.go:645-648 | a report by client groups a row under its client, any other report under the provider of its deployment |
| UsageRows.ScopeExactly | internal/store/sqlite.go:645-664 | which rows each figure of a report is about |
| UsageRows.ContributionExactly | internal/store/sqlite.go:651-664 | what a row adds to each figure, under its own name |
| UsageGroups.TallyIn | internal/store/sqlite.go:629-652 | a matching row keeps the figures equal to the sums over the rows of their scope |
| UsageGroups.TalliedMore | internal/store/sqlite.go:629-652 | the same for all groups and models at once |
| UsageGroups.PostedBalanced | internal/store/sqlite.go:641-659 | a row keeps every group equal to the sum of its models, wrapped counters included |
| UsageGroups.ModelBelowGroup | internal/store/sqlite.go:652-659 | no amount of a model exceeds that of its group |
| UsageGroups.GrandTotalsMore | internal/store/sqlite.go:629-659 | all groups together hold what all matching rows hold |
| UsageSeries.SeriesMore | internal/store/sqlite.go:741-767 | a row keeps every series the sum of its rows and each point the sum of its interval |
| UsageSeries.PointFits | internal/store/sqlite.go:761-767 | a point never exceeds its series, so the second addition cannot fail |
| UsageSeries.SeriesTotalsMore | internal/store/sqlite.go:741-767 | all series of a unit together hold what the rows with a point hold |
| UsageCosts.WithCostMeans | internal/store/sqlite.go:718-726 | a cost record is added to the group and the model or to neither |
| UsageCosts.CostExactly | internal/store/sqlite.go:698-727 | a cost counts for the group of its client, or of the provider that reported it, under its own key |
| UsageCosts.ConsistentCost | internal/store/sqlite.go:698-727 | a cost record keeps the groups the group-by of runs and costs, and balanced; costs that overflow are skipped exactly as specified |
| UsageCosts.FittingCostsAreSums | internal/store/sqlite.go:718-726 | when the costs of a group fit, the totals are the plain sums of all readable records |
| UsageCosts.ConsistentRow | internal/store/sqlite.go:629-665 | a settled run does the same |
| UsageReport.Aggregation.AddPublicRow | internal/store/sqlite.go:629-671 | a row is added to group, model and series exactly when it is readable and fits |
| UsageReport.Aggregation.AddPublicSeriesValue | internal/store/sqlite.go:741-767 | a value is added to its series exactly when its time is readable and the total fits |
| UsageReport.Aggregation.AddCostRow | internal/store/sqlite.go:698-727 | the costs of one answer are added record by record, with what cannot be read or no longer fits skipped for group and model alike |
| UsageReport.UsageReport | internal/store/sqlite.go:600-739 | a report is made exactly when the request is in order and every row can be added; it then equals the naive group-by, its groups and models are those with rows, and groups equal the sums of their models |
| UsageReport.CheckedExactly | internal/store/sqlite.go:601-621 | which queries are in order, and the window they ask for |
| UsageReport.AcceptedWhenTotalsFit | internal/store/sqlite.go:652-666 | if every row is readable and all final totals fit, no addition on the way fails |
| UsageReport.TotalsFitWhenAccepted | internal/store/sqlite.go:652-666 | and conversely |
| UsageReport.SeriesSumToGroups | internal/store/sqlite.go:660-671 | when all runs settled in the window, the series of a unit sum to the groups |
| UsageReport.ModelsSumToGroup | internal/store/sqlite.go:838-860 | runs, tokens, charges and costs of the models add up to those of the group |
| UsageSummary.UsageSummary | internal/store/sqlite.go:471-522 | one entry for each deployment and currency with exact sums, the total kept as text included; fails exactly at a row that cannot be read or does not fit |
| UsageSummary.TextAdds | internal/store/sqlite.go:503-517 | a running total kept as text is read back exactly before the next row is added |
| UsageTables.RelayCompletesWell | internal/gateway/gateway.go:410-445 | every completion a request hands to the store, whatever its provider sent, has a total that reads back and cost records that are not negative |
| UsageTables.AlwaysGood | internal/store/sqlite.go:324-369 | after any operations with such completions every charge and cost on record reads back |
| UsageTables.JoinsAreExact | internal/store/sqlite.go:629-633 | in every reachable state the joins of the report find exactly the completed, confirmed runs |
| UsageTables.JoinedExactly | internal/store/sqlite.go:623-627 | the rows a report joins are those of completed and confirmed runs with a usage and a charge |
| UsageTables.RowShowsRun | internal/store/sqlite.go:623-634 | a row of the report shows each column of its run under its own name |
| UsageTables.RowShowsCompletion | internal/store/sqlite.go:324-369 | what a completion booked is what the report shows of its run, both counts and the total included |
| UsageTables.RowShowsBill | internal/gateway/gateway.go:410-456 | over every interleaving, the report shows of a run the very counts and total that its client was told |
| UsageTables.SelectedRowsAreStored | internal/store/sqlite.go:629-727 | rows and costs selected from reachable tables meet what the report takes for granted, costs that are not negative included |
| WorkbuddyPool.Adapter.constructor | internal/provider/workbuddy/adapter.go:61-97 | the pool starts empty with its target of creations under way |
| WorkbuddyPool.Adapter.Retire | internal/provider/workbuddy/adapter.go:126-137 | all idle workers are handed out for closing and everyone is woken |
| WorkbuddyPool.Adapter.AcquireLocked | internal/provider/workbuddy/adapter.go:139-182 | the newest live idle worker, else a permission to create, else the current channel to wait on |
| WorkbuddyPool.AcquireExactly | internal/provider/workbuddy/adapter.go:139-182 | a live idle worker is taken, the newest one; only without one is a worker created, and only without room for that does the request wait |
| WorkbuddyPool.SectionsExactly | internal/provider/workbuddy/adapter.go:126-247 | what every locked section does to the counters and the idle list, and which of them wake everyone |
| WorkbuddyPool.Adapter.EndCreateLocked | internal/provider/workbuddy/adapter.go:158-179 | the end of a creation, kept or not |
| WorkbuddyPool.Adapter.ReleaseWorker | internal/provider/workbuddy/adapter.go:190-206 | a worker given back is kept or taken off the count |
| WorkbuddyPool.Adapter.NotifyLocked | internal/provider/workbuddy/adapter.go:208-211 | a new broadcast channel |
| WorkbuddyPool.Adapter.ScheduleReplenishLocked | internal/provider/workbuddy/adapter.go:213-218 | exactly the missing creations are started |
| WorkbuddyPool.Adapter.ReplenishDone | internal/provider/workbuddy/adapter.go:220-247 | the end of a background creation |
| WorkbuddyPool.InvStep | internal/provider/workbuddy/adapter.go:101-247 | every step of every interleaving keeps exact counters, one place for every worker, and no sleeper that could act |
| WorkbuddyPool.InvAlways | internal/provider/workbuddy/adapter.go:101-247 | the same over whole runs |
| WorkbuddyPool.SleepersAreServed | internal/provider/workbuddy/adapter.go:139-188 | in every reachable state background creations are at least as many as sleeping requests: no lost wakeup |
| WorkbuddyPool.EndsWakeEveryone | internal/provider/workbuddy/adapter.go:208-211 | every end of a creation, give-back and retirement wakes all sleepers |
| WorkbuddyPool.UsableWorkerIsKept | internal/provider/workbuddy/adapter.go:195-201 | the idle list is never full when a usable worker comes back |
| WorkbuddyPool.RetiredRun | internal/provider/workbuddy/adapter.go:126-137 | after retirement idle stays empty, no request gets a worker, and live reaches zero exactly when the last holder ends |
| AcpRun.AcpWorker.WaitRpcResult | internal/provider/workbuddy/adapter.go:673-691 | skips to the response of a request; its three failures |
| AcpRun.AcpWorker.PromptLoop | internal/provider/workbuddy/adapter.go:478-615 | for every message sequence: the text chunks up to the message that settles or ruins the run, then the terminal event it calls for; and the worker is reusable exactly when the completion was taken, the prompt was answered, and no message read acted on its own or carried something that is no text |
| AcpRun.AcpWorker.Run | internal/provider/workbuddy/adapter.go:412-615 | deltas then at most one terminal event, exactly one without cancellation; the final text is the concatenation of the deltas; a bad message before the end rules a completion out and is reported as a failure; good messages up to the end are completed with what they say; a worker is reused only after its prompt was answered and everything read was allowed |
| AcpRun.UnfitMeans | internal/provider/workbuddy/adapter.go:536-606 | the message that makes a worker unfit is one that cannot be read, or an update of this session beside the answer that is an action of the process or a chunk that is no text |
| AcpRun.SettledMeans | internal/provider/workbuddy/adapter.go:478-615 | a completion is due after the first message that finishes the run, exactly when every message up to it was good |
| AcpRun.RuinedMeans | internal/provider/workbuddy/adapter.go:478-615 | a failure is due after the first message that is not good, exactly when nothing was finished before it |
| AcpRun.ActionFails | internal/provider/workbuddy/adapter.go:602-606 | an action of the process, or a chunk that is no text, before the run is finished is such a message |
| AcpRun.BadMessageFails | internal/provider/workbuddy/adapter.go:478-615 | after such a message no completion is among the events, and a caller that takes everything gets a failure last |
| AcpRun.GoodRunCompletes | internal/provider/workbuddy/adapter.go:478-615 | good messages of which the last one finishes the run are completed with what they say |
| AcpRun.LastUsageMeans | internal/provider/workbuddy/adapter.go:592-601 | the usage of a run is that of its last status update that has one |
| AcpRun.LastModelMeans | internal/provider/workbuddy/adapter.go:575-577 | the model of a run is the last one an update names, or the requested one |
| AcpRun.ChunkAdded | internal/provider/workbuddy/adapter.go:579-591 | a message adds its text exactly when it is a text chunk of this session and not empty |
| AcpRun.FinalMeans | internal/provider/workbuddy/adapter.go:501-512 | the final event shows both counts under their own names, and the credit of the same update |
| AcpRun.OutcomeIsUnique | internal/provider/workbuddy/adapter.go:478-615 | at most one prefix of the messages settles or ruins a run |
| CodexPool.Adapter.AcquireLocked | internal/provider/codex/adapter.go:158-175 | the newest live idle worker, or none |
| CodexPool.Adapter.ReleaseLocked | internal/provider/codex/adapter.go:177-189 | the locked section of a give-back is the machine's step: a worker is kept exactly when it is usable and the adapter is not retired |
| CodexPool.Adapter.RetireLocked | internal/provider/codex/adapter.go:144-156 | all idle workers are handed out for closing |
| CodexPool.SectionsExactly | internal/provider/codex/adapter.go:144-189 | a live idle worker is taken, the newest one; a usable worker is kept unless the adapter is retired |
| CodexPool.BoundedStep | internal/provider/codex/adapter.go:95-189 | idle, held and unfinished workers never outnumber the slots, one step at a time |
| CodexPool.InvStep | internal/provider/codex/adapter.go:95-189 | every step of every interleaving keeps the bound, gives every worker one place, idle or with one request, and never shares one |
| CodexPool.NeverMoreWorkersThanSlots | internal/provider/codex/adapter.go:95-189 | the same over all interleavings although nothing counts the workers |
| CodexPool.NewestComesFirst | internal/provider/codex/adapter.go:158-183 | a usable worker given back is the next one handed out |
| CodexRoute.Adapter.StartDirect | internal/provider/codex/adapter.go:197-275 | a direct attempt is accepted exactly on a status of 200 to 299; it falls back exactly when there were no credentials or the status is 400, 401, 403, 404, 502, 503 or 504, and only then is the route blocked for a minute |
| CodexRoute.Adapter.Start | internal/provider/codex/adapter.go:95-140 | exactly when a request is served and by which backend, by the status of its attempt; every refusal gives its slot back, and every status that is not one of those seven leaves the deadline as it was; a cancelled wait for a slot included |
| CodexRoute.DecideExactly | internal/provider/codex/adapter.go:95-140 | a request goes direct exactly when the route is on and, for text, its reading is past the deadline |
| CodexRoute.AnswerExactly | internal/provider/codex/adapter.go:197-275 | what each answer to a direct attempt leads to, status by status |
| CodexRoute.InvStep | internal/provider/codex/adapter.go:95-275 | every step keeps the slots exact and the log of readings, stores and requests in order, with the clock read and the deadline stored in separate steps |
| CodexRoute.RouteAlways | internal/provider/codex/adapter.go:95-275 | in every run the App Server serves no function-call request, and of the text requests tried directly only those without credentials or with one of the seven status codes; no text request goes direct before the deadline stored last |
| CodexRoute.BlockCutShortExactly | internal/provider/codex/adapter.go:200-269 | in every run, a text request goes direct within a minute of a stored reading if and only if it comes between the deadline stored last and the furthest one stored |
| CodexRoute.CanBeCutShortExactly | internal/provider/codex/adapter.go:95-269 | a run that cuts a block short exists if and only if the adapter has a direct route and at least two slots |
| CodexRoute.OrderedStoresKeepBlocks | internal/provider/codex/adapter.go:200-269 | stores in the order of their readings keep every block for its minute |
| CodexRoute.ExtensionCanBeLost | internal/provider/codex/adapter.go:200-269 | a concrete run of three text requests, for any number of slots from two, in which the extension is lost |
| RpcQueue.AppServerWorker.WaitRpcResult | internal/provider/codex/adapter.go:807-830 | only the awaited response or an unreadable line is dropped; all else is kept in order |
| RpcQueue.AppServerWorker.NextMessage | internal/provider/codex/adapter.go:832-839 | kept messages come first; delivered and pending together are what was read minus what was dropped |
| RpcQueue.KeptCount | internal/provider/codex/adapter.go:807-839 | kept and dropped messages account for all that was read |
| ResponseStream.Reader.Consume | internal/provider/codex/adapter.go:373-478 | for every line sequence the events are the meaning of its frames, or an initial part when the caller leaves |
| ResponseStream.Reader.Flush | internal/provider/openai/adapter.go:205-272 | one frame, in both dialects |
| ResponseStream.ReadExactly | internal/provider/codex/adapter.go:385-453 | what a frame is taken for, in each dialect |
| ResponseStream.ErrorEndsStream | internal/provider/openai/adapter.go:205-272 | an error frame, or one that cannot be read, ends the stream in a failure after all deltas before it |
| ResponseStream.EndWithoutCompletionFails | internal/provider/openai/adapter.go:205-272 | a stream that stops without a completion has failed |
| ResponseStream.FramesExactly | internal/provider/openai/adapter.go:205-272 | a line adds its data to the open frame; an empty line, or the end, closes a frame that has data |
| ResponseStream.OneTerminal | internal/provider/openai/adapter.go:205-272 | text deltas and then exactly one terminal event |
| ResponseStream.LastWrite | internal/provider/codex/adapter.go:400-411 | after any frames each index holds the item of its last frame |
| ResponseStream.CompletedOutput | internal/provider/codex/adapter.go:373-478 | a stream whose frames before the completion neither end nor ruin it ends in the response rebuilt from these items, after all its deltas |
| ResponseStream.RebuiltExactly | internal/provider/codex/adapter.go:422-430 | the response is rebuilt only by the Codex reader, and only when it came without output |
| ResponseStream.ArrivalOrderIrrelevant | internal/provider/codex/adapter.go:400-430 | any two such streams with the same last item at every index rebuild the same response, whatever deltas lie between |
| ResponseStream.SwapAnywhere | internal/provider/codex/adapter.go:400-411 | two item frames of different indices may be swapped behind any prefix |
| ResponseStream.RebuiltOutput | internal/provider/codex/adapter.go:422-430 | an item whose last write is not null stands in the rebuilt output at the place its index gives it |
| ResponseStream.CompactAt | internal/provider/codex/adapter.go:422-430 | every non-null item appears in the rebuilt output at the place its index gives it |
| ResponseStream.CompactList | internal/provider/codex/adapter.go:422-430 | the padded list is compacted to the items in index order |
| ResponseStream.StoreItem | internal/provider/codex/adapter.go:400-411 | the last item of an index counts |
| RuntimeManager.Manager.Build | internal/runtimecfg/manager.go:195-285 | a snapshot is built exactly when nothing on the way fails; a failed attempt retires everything it made; unchanged providers keep their adapters, the rest get new ones, or the placeholder exactly when a key is missing |
| RuntimeManager.Manager.Reload | internal/runtimecfg/manager.go:110-125 | when a reload succeeds; that no current adapter is retired and all others were retired exactly once; a Codex or WorkBuddy provider goes on with its adapter exactly when the old snapshot lists the same id, kind and runtime, and otherwise gets a new one while the old one is retired once |
| RuntimeManager.Manager.Update | internal/runtimecfg/manager.go:127-166 | the same for an update, its failed save included |
| RuntimeManager.ReusableMeans | internal/runtimecfg/manager.go:287-320 | an adapter is reused exactly when the compared snapshot lists a provider of the same id and kind and the same runtime, or endpoint and key; it is then the one of that id |
| RuntimeManager.BuildableMeans | internal/runtimecfg/manager.go:195-285 | when a snapshot can be built, on the fields of its providers |
| RuntimeManager.Follows | internal/runtimecfg/manager.go:173-320 | in the snapshot that replaces another, a Codex or WorkBuddy provider goes on with its adapter exactly when the old one lists it with the same kind and runtime; otherwise its adapter is new, and the old one is retired exactly once |
| RuntimeManager.Manager.Close | internal/runtimecfg/manager.go:168-171 | everything is retired exactly once |
| RuntimeManager.Manager.RetireSnapshotExcept | internal/runtimecfg/manager.go:173-185 | in any map order, exactly the adapters the other snapshot does not keep are retired, once each |
| RuntimeManager.Manager.RetireBuilt | internal/runtimecfg/manager.go:203-209 | exactly what an attempt made is retired, once each |
| RuntimeManager.DiscardedIsDifference | internal/runtimecfg/manager.go:173-193 | comparing adapters provider by provider retires exactly the set difference |
| RuntimeManager.UnchangedExecutableKeepsAdapter | internal/runtimecfg/manager.go:287-320 | a Codex or WorkBuddy provider whose compared fields are unchanged keeps the identical adapter |
| RuntimeManager.HttpKeptExactly | internal/runtimecfg/manager.go:287-307 | after an update a reload keeps a working HTTP adapter if and only if the provider now has no key and its other compared fields are unchanged |
| RuntimeManager.RemovedKeyStaysInUse | internal/runtimecfg/manager.go:304-307 | a provider updated with a key and reloaded without one keeps the adapter that was built with it |
| RuntimeManager.RemovedKeyIsNoticed | internal/runtimecfg/manager.go:227-235 | reloaded without its key and without an update in between, it gets the placeholder |
| RuntimeManager.Manager.Swap | internal/runtimecfg/manager.go:163-164 | the swap retires once each exactly what the old snapshot had and the new one has not |
| RuntimeManager.Manager.Prepare | internal/runtimecfg/manager.go:127-162 | an update before its swap: what it stages shares with the current snapshot only what it reuses, and nothing of it is retired |
| RuntimeManager.Manager.Load | internal/runtimecfg/manager.go:110-121 | the same for a reload |
| RuntimeManager.Manager.InstallAfterClose | internal/runtimecfg/manager.go:163-171 | an unlocked close before the swap of a staged snapshot: an adapter of the installed snapshot is retired if and only if the closed snapshot had it |
| RuntimeManager.Manager.UpdateAroundClose | internal/runtimecfg/manager.go:127-171 | the same for an update from its load to its swap |
| RuntimeManager.Manager.ReloadAroundClose | internal/runtimecfg/manager.go:110-125 | the same for a reload |
| RuntimeManager.UnchangedProviderClosedUnderneath | internal/runtimecfg/manager.go:127-171 | a concrete case: an update that keeps a Codex provider installs its retired adapter |
| ConfigCheck.Validate | internal/config/config.go:262-398 | a configuration passes exactly when ids are unique, references resolve and every entity follows its rules |
| ConfigCheck.AdmissibleExactly | internal/config/config.go:262-398 | the rule set a configuration is checked against, spelled out: local end points, unique ids, references that resolve, entities in order |
| ConfigCheck.CheckProvider | internal/config/config.go:279-327 | the rules of one provider |
| ConfigCheck.CodexProviderExactly | internal/config/config.go:279-327 | when a Codex provider is in order, field by field |
| ConfigCheck.WorkbuddyProviderExactly | internal/config/config.go:279-327 | when a WorkBuddy provider is in order, field by field |
| ConfigCheck.CheckDeployments | internal/config/config.go:329-371 | the loop over deployments against the index of providers |
| ConfigCheck.DeploymentExactly | internal/config/config.go:329-371 | when a deployment is in order, field by field |
| ConfigCheck.CheckClient | internal/config/config.go:374-396 | the rules of one client, its dollar limit and its models |
| ConfigCheck.ClientExactly | internal/config/config.go:374-396 | when a client is in order, field by field |
| ConfigCheck.NewService | internal/gateway/gateway.go:126-195 | the gateway starts exactly when adapter ids are unique, rates parse and deployments have adapters, and then holds the configured deployments |
| ConfigCheck.ServableExactly | internal/gateway/gateway.go:126-195 | a deployment can be served exactly when its provider has an adapter and all its rates are decimals |
| ConfigCheck.DeploymentMeans | internal/gateway/gateway.go:140-193 | what the gateway serves of a deployment, each rate under its own name |
| ConfigCheck.ValidationSuffices | internal/gateway/gateway.go:126-195 | a validated configuration with one adapter for each provider always starts |
| ConfigCheck.ServedPrices | internal/config/config.go:437-456 | every deployment is then served under its id with rates that are not negative |
| ConfigCheck.LimitSign | internal/config/config.go:382-387 | an accepted daily limit is positive without a second sign, and with one exactly when whole part minus fraction in nanos, modulo 2^64, does not lie between 1 and 2^63 |
| ConfigCheck.NegativeLimitPasses | internal/config/config.go:382-387 | a concrete negative limit that passes |
| ConfigCheck.LargeNegativeLimitPasses | internal/config/config.go:382-387 | the most negative limit in whole units passes as well |
| ToolCall.Parse | internal/toolcall/toolcall.go:56-117 | declarations are accepted exactly when they are in order, and the request holds them |
| ToolCall.Declare | internal/toolcall/toolcall.go:78-103 | the loop over declared functions accepts exactly well-formed functions with distinct names |
| ToolCall.AcceptableExactly | internal/toolcall/toolcall.go:56-117 | a request for functions is accepted exactly with at most 32 of them in at most 256 KiB, well-formed, distinct and never in parallel |
| ToolCall.ParseChoice | internal/toolcall/toolcall.go:119-150 | without functions only the choice none is possible; a named choice has a well-formed name |
| ToolCall.ParseChoiceExactly | internal/toolcall/toolcall.go:119-150 | a text is parsed to a choice exactly when it asks for it: blank, one of three words in any case, or a named function |
| ToolCall.ParsedIsSound | internal/toolcall/toolcall.go:56-117 | at most 32 well-formed distinct names with object schemas, a named choice is declared, no tools means none |
| ToolCall.NormalFormIsStable | internal/toolcall/toolcall.go:76-150 | what is forwarded to a provider parses to the same request again |
| ToolCall.ValidateResponse | internal/toolcall/toolcall.go:165-224 | a response passes exactly when every call is complete, declared and conforms, there is at most one, and count and name fit the choice |
| ToolCall.CallExactly | internal/toolcall/toolcall.go:165-213 | when a call may be exposed, on the fields of the item and the declarations |
| ToolCall.ResponseExactly | internal/toolcall/toolcall.go:165-224 | when a response passes: by its calls, their number and the choice |
| ToolCall.ExposedCallWasDeclared | internal/toolcall/toolcall.go:165-224 | a call that reaches a client was declared by it, conforms to the declared schema, and its choice allowed calls |

## Left out

- HTTP serving, the admin pages, YAML and file writing, process spawning, environments, logging and model discovery: input and output plumbing.
- JSON, JSON Schema, SHA-256, Unicode tables and SQL are parameters or effects on maps; request fingerprints are opaque names.
- Liveness: an exit of the relay may leave a run running until the next reopening (internal/gateway/gateway.go:365-380), and dropping dead idle workers does not schedule replacements (internal/provider/workbuddy/adapter.go:146-155); only safety is claimed.
- Which rows a report selects: the window compares RFC 3339 texts whose trimmed fractions do not sort as time (internal/store/sqlite.go:626). The rows are taken as given; `UsageReport.SeriesSumToGroups` asks for settlements inside the window.
- UsageReport.UsageReport: takes charges and costs to be non-negative, as `UsageTables.SelectedRowsAreStored` proves of what the gateway stored. Groups and series are records held by value, composite text keys are tuples, and the sorted rendering is not modelled.
- UsageSummary.UsageSummary: the totals of upstream costs in the summary, which skip unreadable records, are not modelled.
- RuntimeManager.Manager.Update: secrets, their renames and pruning are not modelled; the provider list with its keys filled in is an input.
- ResponseStream.Reader.Consume: white space around a data field is trimmed as the code does, which is more than section 9.2 of the HTML Living Standard asks for; line splitting and size limits are not modelled.
- AcpRun.AcpWorker.Run: warm-up prompts, notifications and the forbidden-action list are abstracted to message kinds.
- Gateway.Relay.Consume: the provider channel is the list of events it delivers; the projection of the public response and the estimated text of a response without output are opaque.
- CodexRoute.Adapter.Start: the request body and credentials are reduced to how the attempt ends; how long a request waits for its slot is not modelled.
- The item loop of the Codex App Server run, the cost extraction of the Responses adapter, authentication, masking of secrets and default values: easy beside the rest.
