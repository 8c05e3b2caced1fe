# Verification of the invoice-purchase money engine

This project models the part of the API that moves money and proves what it keeps. The parts are the 15-status invoice
lifecycle, the credit sub-limit of each Machinery Company, the keyed ledger with payment matching and settlement, and the
monthly fee run. They share tables, and the main results run across all of them.

`dafny verify dfyconfig.toml` checks everything.

## How it is laid out

- **Tables and operations.** `Schema` holds one value of all tables (`Db`). `StateMachine`, `Credit`, `Ledger`, `FeeCalculator`,
  `Period`, `Keys`, `Invoices` and `Fees` say what each operation does to them; an operation that throws is an `Err` and
  leaves the tables alone.
- **Services.** `PrismaModule` is the store, a class with one field per table. `LedgerModule`, `CreditLimitsModule`,
  `PaymentsModule`, `InvoicesModule` and `FeesModule` are the services as classes whose methods check, write step by step,
  loop, and roll a transaction back when its body throws. Each method's contract equates the new tables with the operation
  on the old ones, errors included.
- **Answers.** `Outcomes` says of every operation on invoices and payments when it goes through, what it leaves behind, and
  what it throws otherwise, in terms of the tables alone; `Pricing` does so for tiers and fee runs. `Payouts` and `Calendar`
  tie amounts and periods to closed forms.
- **Runs.** `Engine` makes one machine of all operations (`After(keys, calls)`). `Histories`, `Exposure`, `MoneyTrail`,
  `Flags`, `Settlement`, `Chargebacks`, `InvoiceNumbers`, `AppendOnly`, `Payouts`, `Parties` and `CreditTrail` prove what
  holds after every run, and `FeeRuns`,
  `Reruns`, `EarlyRuns`, `IssueRaces`, `MonthlyRuns`, `TimelyRuns`, `AllBrokers` and `FeeComparison` do so for the fee runs.
- **Concurrent calls.** `Interleaving`, `CapTightness` and `RetryKeys` split `fund` into its checks and its transaction, with
  other steps in between; `ClosingRaces` does so for `settle` and `chargeback` of one invoice. `Scenarios` brings invoices to
  approval from empty tables, and `CapReached`, `FailingRuns` and `FailingFeeRuns` go on from there to runs in which a
  promise fails.

Units: money is in cents, gallons in thousandths, fee percentages in thousandths of a percent, advance percentages in
hundredths of a percent, instants in milliseconds since 1970, periods as month numbers. A write to a two-decimal column
rounds half away from zero.

Most handlers before funding write a status change from a status their code names, and check only that the pair is legal.
Results about whole runs therefore assume that such a handler is called on an invoice in that status
(`Engine.StartsWhereItSays`; a run that respects it is `Orderly`). For the histories this is exactly what is needed
(`Histories.NamedStartMustHold`). The credit tables need less: in whatever status such handlers are called, the counters
agree after every run in which they are called on invoices that have never been funded (`Engine.Sparing`,
`Exposure.CreditOfRun`). A handler called on one that has been funded breaks them (`Exposure.MisplacedHandler`): if it is
FUNDED at once, and if it was resolved when it is funded again, as in the run `FailingRuns.MisplacedApprovalDrifts`. Keys are
any injective assignment of strings to operations, and `Keys.DefaultKeysNeverCollide` shows that the default keys are one;
`RetryKeys` and `ClosingRaces` take the keys of the clients' headers instead.

## What does not hold as promised

- **Retries under different keys.** The comment at `apps/api/src/invoices/invoices.controller.ts:99-101` says that two
  retries of a funding collide on one key with or without a client-supplied header. With two different headers they do
  not: retries pay an invoice out once if and only if exactly one of their keys was not used before
  (`RetryKeys.FundsOnceIffOneNewKey`); under keys that were all unused, if and only if the keys are the same
  (`RetryKeys.FundsOnceIffSameKey`). `FailingRuns.DifferentKeysPayTwice` is a run that pays twice.
- **Headers used before.** A funding under a header that another invoice's funding has used makes its invoice FUNDED without
  paying it out or counting it (`RetryKeys.PaidIffKeyUnused`, with the run `FailingRuns.UsedKeyPaysNothing`).
- **The limit under concurrency.** The check and the transaction of `fund` are separate. Once all calls in flight have run
  their transactions, in any order, a company's counter is within its limit if and only if what it used and what was in
  flight for it were together, where an invoice counts once however many calls are in flight for it, and not at all if its
  key was used (`CapTightness.StaysWithinLimitIff`). k calls of at most A in flight overshoot the highest limit by at most
  (k - 1) A (`Interleaving.CapUnderInterleaving`), and a run from empty tables reaches that for every k and A
  (`CapReached.CapIsReached`).
- **Late transactions.** A funding whose transaction runs after the invoice has moved on breaks the agreement of the
  counter with the funded invoices exactly when the invoice is settled, charged back or written off by then, and its
  amount is not zero (`Interleaving.LateCommit`, with the run `FailingRuns.LateCommitDrifts`). Without such transactions
  the credit tables stay right under any interleaving (`Interleaving.CreditUnderInterleaving`), and the first one ends it
  (`Interleaving.FirstLateEndsIt`).
- **Settlement against chargeback.** Their checks and transactions are separate too, and both derive the same credit key from
  a header. When settlements and chargebacks of one invoice all pass their checks before any runs its transaction, the
  exposure is restored once for each of their keys that was not used before, so the counters still agree if and only if
  that is one key or the amount is zero (`ClosingRaces.RestoredOnceIffOneNewKey`). Under unused keys that means one common
  key (`ClosingRaces.RestoredOnceIffSameKey`), and without headers, closings of one kind
  (`ClosingRaces.RestoredOnceIffOneKind`). `FailingRuns.ClosedTogether` runs any two closings, two settlements under
  different headers included. Every racing chargeback adds a record, so the record is the invoice's only one if and only if
  at most one of them was a chargeback, and there is an entry for each if and only if each had a new key of its own
  (`ClosingRaces.OneRecordIffOneChargeback`).
- **Fee invoices issued during a run.** The check that a fee invoice is a DRAFT and the transaction of the run are separate.
  One that is issued in between stays as issued if and only if the volumes, tier and minimum fee read agree with it and no
  invoice read is yet to be charged a fee other than zero (`IssueRaces.IssuedDuringTimelyRun`; in runs that need not be in
  time order its fee must be what the invoices read come to, `IssueRaces.IssuedDuringRun`).
  `FailingFeeRuns.IssuedTotalChanges` is a run in which the total changes.
- **Early fee runs.** A run carries the whole sum of the month's accrual rows if and only if no fee other than zero was
  charged for the month on an invoice that was resolved before the month started (`EarlyRuns.WholeSumIffNoEarlyFees`).
  Runs in time order that never run a month before it starts always do (`Reruns.FeeInvoicesMatchAccruals`);
  `FailingFeeRuns.EarlyRunFallsShort` is a run that does not.
- **Periods in the years 0 to 99.** `Date.UTC` takes these years for 1900 to 1999, so the period of a date surrounds it if
  and only if its year is not one of them (`Period.PeriodBounds`, with the date of `Period.PeriodOfShortYear`).
- **Refused first attempts.** `applyDelta` on its own folds over retries like over first attempts exactly when no retry is
  accepted after its first attempt was refused for want of a limit row (`Credit.ReplayEquivalence`,
  `Credit.RefusedFirstAttempt`). The services never ask for such a delta (`Exposure.DeltasAreAccepted`,
  `Interleaving.CommitsAreAccepted`), and without one retries never matter (`Credit.ReplayOfConfigured`).
- **Write-off and exposure.** `README.md:19` of the repository lists write-off among the operations that lower the counter.
  In the code the chargeback lowers it and the write-off that follows does not; the model follows the code.

## Model

| member | source | states |
|---|---|---|
| StateMachine.HistoryLength | packages/shared/src/state-machines.ts:8-38 | a walk from DRAFT to s has exactly rank(s) + 2 per dispute + 2 per information request rows; a cancelled one has one more than the status it left |
| StateMachine.StraightHistoryAtMostNine | packages/shared/src/state-machines.ts:8-38 | without disputes and information requests a history has at most nine rows |
| StateMachine.EntersMoneyStatusesOnce | packages/shared/src/state-machines.ts:21-33 | approval, funding, settlement, chargeback and write-off are each entered once or never, exactly as the final status says |
| StateMachine.WaypointsUpTo | packages/shared/src/state-machines.ts:8-38 | the waypoint edges taken on the way to any status other than CANCELLED are a fixed prefix of the list, each once and in order |
| StateMachine.MandatoryWaypoints | packages/shared/src/state-machines.ts:8-38 | a history that entered FUNDED took the five waypoint edges once each and in order, whatever loops lie between |
| Histories.PathsOfRun | apps/api/src/invoices/invoices.service.ts:83-109 | after any orderly run each invoice's rows are a walk through the graph from DRAFT to its status |
| Histories.HistoriesOfRun | apps/api/src/invoices/invoices.service.ts:83-408 | reachable histories have the exact length, a single approval and funding, and the mandatory waypoints |
| Histories.NamedStartMustHold | apps/api/src/invoices/invoices.service.ts:92-98 | a status change from a named status keeps histories walks if and only if the invoice is in that status |
| Exposure.CounterAgreesWithInvoices | apps/api/src/invoices/invoices.service.ts:467-478 | after any run whose handlers spare invoices that have been funded, the cached counter is the sum of the FUNDED invoices' totals and of the logged deltas, is never negative, and no FUNDED invoice lacks a limit row |
| Exposure.CreditOfRun | apps/api/src/credit-limits/credit-limits.service.ts:45-81 | the same for all companies at once, with each credit key in the log exactly when its operation happened |
| Credit.ChangeLogReconstruction | apps/api/src/credit-limits/credit-limits.service.ts:60-80 | over any mix of deltas and limit changes the log rows chain from zero, and the last newUsed and the sum of deltas are the counter |
| Credit.ReplayEquivalence | apps/api/src/credit-limits/credit-limits.service.ts:45-81 | folding any requests equals folding the first occurrence of each key if and only if accepted retries follow an accepted first attempt |
| Credit.RefusedFirstAttempt | apps/api/src/credit-limits/credit-limits.service.ts:51-58 | two concrete requests for which the fold and its first occurrences differ |
| Credit.ReplayOfConfigured | apps/api/src/credit-limits/credit-limits.service.ts:42-50 | for companies that have a limit row the fold always equals the fold over first occurrences |
| Exposure.DeltasAreAccepted | apps/api/src/credit-limits/credit-limits.service.ts:51-58 | in every reachable state a funding that passes its checks goes through, and no settlement or chargeback is refused for want of a limit row |
| Interleaving.CommitsAreAccepted | apps/api/src/invoices/invoices.service.ts:426-481 | under any interleaving the transaction of a call in flight goes through |
| Exposure.MisplacedHandler | apps/api/src/invoices/invoices.service.ts:92-98 | a status change to a status before funding, from wherever, keeps the credit tables right if and only if the invoice has never been funded, and breaks the counters at once if and only if it is FUNDED and not of zero |
| Exposure.FundedAgainDrifts | apps/api/src/invoices/invoices.service.ts:353-391 | a resolved invoice that is approved and funded once more is FUNDED and counts against no limit |
| FailingRuns.MisplacedApprovalDrifts | apps/api/src/invoices/invoices.service.ts:353-391 | a run from empty tables after which an approval called on a charged-back invoice lets that happen |
| Ledger.ReplayEquivalence | apps/api/src/ledger/ledger.service.ts:34-54 | recording entries with any repetition of keys gives exactly the ledger of the first occurrences |
| Interleaving.CapUnderInterleaving | apps/api/src/invoices/invoices.service.ts:418-481 | with at most k calls of a company in flight, each of at most A, used plus in flight never exceeds the highest limit ever set by more than (k - 1) A, under any interleaving |
| Interleaving.CapInSequence | apps/api/src/invoices/invoices.service.ts:52-60 | with calls one after the other the counter never exceeds the highest limit ever set |
| CapTightness.StaysWithinLimitIff | apps/api/src/invoices/invoices.service.ts:48-60 | after any interleaved run, once all calls in flight have committed in any order, retries included, a company's counter is within its limit if and only if used plus in flight was, each invoice counted once and not at all under a used key |
| CapTightness.AllCommit | apps/api/src/invoices/invoices.service.ts:467-478 | transactions of calls in flight, in any order, keep what each company uses and has in flight together, and the limits |
| CapTightness.PromisedOfDifferent | apps/api/src/invoices/invoices.service.ts:467-478 | for calls of different invoices under unused keys what is in flight is the sum of their amounts |
| CapReached.CapIsReached | apps/api/src/invoices/invoices.service.ts:418-481 | for every k and amount, a run from empty tables with at most k calls in flight ends k - 1 amounts above the highest limit ever set |
| Interleaving.RetriesFundOnce | apps/api/src/invoices/invoices.controller.ts:96-103 | however retries under one key interleave with each other and everything else, an invoice gets one disbursement, one reserve hold and one exposure row if one of them commits, else none |
| Interleaving.LateCommit | apps/api/src/invoices/invoices.service.ts:426-481 | what a late transaction does to the counter's agreement, the credit keys and the history, with the exact conditions for each to survive |
| Interleaving.CreditUnderInterleaving | apps/api/src/invoices/invoices.service.ts:426-481 | under any interleaving without late transactions, counters, change log and FUNDED invoices agree all along |
| Interleaving.FirstLateEndsIt | apps/api/src/invoices/invoices.service.ts:426-481 | after such a run a further transaction keeps that if and only if it is not late |
| FailingRuns.LateCommitDrifts | apps/api/src/invoices/invoices.service.ts:412-481 | a run from empty tables in which a retry's transaction runs after the chargeback and the counter stays behind |
| FailingRuns.DifferentKeysPayTwice | apps/api/src/invoices/invoices.controller.ts:99-102 | a run from empty tables after which retries under two keys pay out twice |
| FailingRuns.ClosedTogether | apps/api/src/invoices/invoices.service.ts:498-543 | a run from empty tables after which any two settlements or chargebacks that both pass their checks leave the counter at zero under one key and below zero under two |
| FailingRuns.UsedKeyPaysNothing | apps/api/src/invoices/invoices.controller.ts:99-102 | a run from empty tables after which two invoices funded under one header are both FUNDED and only one is paid and counted |
| Scenarios.Prepared | apps/api/src/invoices/invoices.service.ts:113-391 | any number of invoices that each fit under the limit can be created and approved by an orderly run from empty tables |
| RetryKeys.MovesOncePerKey | apps/api/src/invoices/invoices.service.ts:442-478 | retries that all passed the checks write one disbursement, one hold and one delta for each different key whose record was not written before |
| RetryKeys.FundsOnceIffOneNewKey | apps/api/src/invoices/invoices.controller.ts:99-102 | they fund once, and leave the counter at the funded total, if and only if exactly one of their keys was not used before, and pay nothing if and only if all were |
| RetryKeys.FundsOnceIffSameKey | apps/api/src/invoices/invoices.controller.ts:99-102 | under unused keys that is if and only if they carry the same key |
| RetryKeys.PaidIffKeyUnused | apps/api/src/invoices/invoices.controller.ts:99-102 | a single funding that goes through pays if and only if nothing was paid under its key, and counts if and only if nothing was counted under it |
| RetryKeys.DerivedKeysApart | apps/api/src/invoices/invoices.service.ts:450-475 | the keys derived from different request keys never meet |
| MoneyTrail.LedgerLifeOfInvoice | apps/api/src/invoices/invoices.service.ts:442-465 | in every reachable state an invoice's ledger entries are the ones its status calls for, one each, the release of the held amount, the write-off of the charged-back amount |
| MoneyTrail.TrailsOfRun | apps/api/src/invoices/invoices.service.ts:412-732 | the same for all invoices at once, with each key's entry in the ledger exactly once when used |
| AppendOnly.LogsOnlyGrow | apps/api/src/ledger/ledger.service.ts:18-23 | over any further calls, orderly or not, no ledger entry, change log row, history row or match is changed or removed |
| Chargebacks.ChargebacksOfRun | apps/api/src/invoices/invoices.service.ts:643-729 | after any run each chargeback record names the CHARGEBACK entry of its own invoice and amount, is its invoice's only one, and is marked written off exactly when the invoice is |
| ClosingRaces.RestoredOnceIffOneNewKey | apps/api/src/invoices/invoices.service.ts:498-543 | settlements and chargebacks of one invoice that pass their checks together, under any headers, leave the counters at the funded totals if and only if exactly one of their keys was not used before or the amount is zero |
| ClosingRaces.RestoredOnceIffSameKey | apps/api/src/invoices/invoices.controller.ts:105-145 | under unused keys that is if and only if they carry the same key |
| ClosingRaces.RestoredOnceIffOneKind | apps/api/src/invoices/invoices.controller.ts:105-145 | without headers that is if and only if they are of one kind |
| ClosingRaces.AllRestored | apps/api/src/invoices/invoices.service.ts:643-693 | the exposure is restored once for each new request key, whatever the kinds, and the invoice takes the last one's status |
| ClosingRaces.EntriesAdded | apps/api/src/invoices/invoices.service.ts:521-531 | settlements release the reserve once for each of their new request keys, and chargebacks enter the chargeback once for each of theirs |
| ClosingRaces.OneRecordIffOneChargeback | apps/api/src/invoices/invoices.service.ts:644-677 | racing closings leave as many chargeback records as there were chargebacks and one entry for each of their new keys; the record is the only one if and only if at most one was a chargeback, and each has its entry if and only if each had a new key of its own |
| InvoiceNumbers.NumbersOfRun | apps/api/src/invoices/invoices.service.ts:126-131 | after any run a broker's invoice numbers are all different |
| Flags.HoldsAndDisputesMatchFlags | apps/api/src/invoices/invoices.service.ts:301-349 | active holds are one if the flag is set and none otherwise, SETTLED implies no hold, MC_DISPUTED implies one open dispute, an open dispute implies MC_DISPUTED or CANCELLED |
| Flags.FlagsOfRun | apps/api/src/invoices/invoices.service.ts:569-626 | the same as an invariant over all invoices of any run |
| Settlement.SettledWithinReceipts | apps/api/src/invoices/invoices.service.ts:507-513 | a company's settled totals are at most its PAYMENT_RECEIPT entries plus the excess of its overmatched payments |
| Settlement.CashConservation | apps/api/src/payments/payments.service.ts:70-94 | that excess is zero if and only if no payment of the company is OVERPAID, and then settled totals are covered by receipts |
| Settlement.MatchesCountedTwice | apps/api/src/payments/payments.service.ts:74-89 | matches summed by settled invoice are at most matches summed by payment of the same company |
| Settlement.SettlementOfRun | apps/api/src/payments/payments.service.ts:27-94 | after any run a payment is unmatched, partially or fully matched or overpaid exactly as its matches are none, below, at or above its amount; matches join rows of one company, receipts equal payments, settled invoices are covered |
| Settlement.SettlementGatesAgree | apps/api/src/internal/internal.service.ts:19-31 | in every reachable state the release check lists an invoice if and only if settle would go through |
| Keys.DefaultKeysNeverCollide | apps/api/src/invoices/invoices.controller.ts:102-154 | the default key strings of all eleven families are pairwise different when ids are |
| Keys.PeriodSuffixReadsBack | apps/api/src/fees/fee-accrual.service.ts:100 | id and period can be read back from a fee key |
| Keys.YearStringReadsBack | apps/api/src/fees/fee-accrual.service.ts:131 | the year part of an ISO timestamp determines the year |
| Keys.ControllerDefaults | apps/api/src/invoices/invoices.controller.ts:102-154 | the keys the service derives from the controller's defaults are the named ones |
| FeeCalculator.ContainingBandIsUnique | apps/api/src/fees/fee-calculator.ts:35-41 | on contiguous sorted bands exactly one contains a volume, the last one started |
| FeeCalculator.TierLookup | apps/api/src/fees/fee-calculator.ts:35-41 | the lookup finds that band in whatever order the table is given, and none for a negative volume |
| FeeCalculator.TierLookupOverlapping | apps/api/src/fees/fee-calculator.ts:35-41 | on overlapping sorted bands the lookup finds a containing band with the least start, and one whenever there is one |
| FeeCalculator.AdvanceSplit | apps/api/src/invoices/invoices.service.ts:422-438 | stored advance and reserve add up to the total, one cent more on an exact half-cent tie, each between zero and the total |
| FeeCalculator.RoundedFeesNearExact | apps/api/src/fees/fee-accrual.service.ts:76-92 | n rounded fees sum to within n half-cents of the exact fee on the summed amounts |
| Period.PeriodIsOneMonth | apps/api/src/fees/period.ts:2-8 | the two bounds of a period are consecutive month starts, and normalising twice changes nothing |
| Period.PeriodBounds | apps/api/src/fees/period.ts:2-8 | they surround the date if and only if its year is not one of 0 to 99, which Date.UTC takes for 1900 to 1999; otherwise the period starts after it |
| Period.PeriodOfShortYear | apps/api/src/fees/period.ts:3 | March 15 of the year 50 gives the period of March 1950 |
| Period.MonthOfBefore | apps/api/src/fees/period.ts:2-4 | an instant is before a month's start exactly when its own month is earlier |
| FeeRuns.SelectionIsExact | apps/api/src/fees/fee-accrual.service.ts:32-49 | a month's selection is each of the broker's invoices approved before the month ends and not resolved before it starts, once |
| FeeRuns.NoDoubleAccrual | apps/api/src/fees/fee-accrual.service.ts:33-36 | no reachable selection lists an invoice twice |
| FeeRuns.VolumesCountOnce | apps/api/src/fees/fee-accrual.service.ts:64-66 | the gallons and dollar volume of a run are the sums over the broker's outstanding invoices in the table, each once |
| FeeRuns.MonthCoverage | apps/api/src/fees/fee-accrual.service.ts:32-49 | an approved invoice is charged for exactly the months from its approval to its resolution |
| MonthlyRuns.ChargedOncePerMonth | apps/api/src/fees/fee-accrual.service.ts:13-21 | running a broker's months one after the other leaves a resolved invoice (resolution month - approval month + 1) accrual rows |
| MonthlyRuns.RowsAfterMonths | apps/api/src/fees/fee-accrual.service.ts:77-104 | after the months' runs an invoice has a row for a month if it had one, or the month was run and charges it |
| TimelyRuns.OneRowPerMonth | apps/api/src/fees/fee-accrual.service.ts:13-21 | in a run in time order where each month is run after its end, between whatever other calls, a settled or charged-back invoice has one row for each month from approval to resolution |
| TimelyRuns.RowsMadeInRun | apps/api/src/fees/fee-accrual.service.ts:32-49 | an invoice approved before a month's end and not resolved before its start has a row for it once the month was run after its end |
| TimelyRuns.RowsOfResolved | apps/api/src/fees/fee-accrual.service.ts:13-49 | in such a run a resolved invoice has a row for each month from approval to its earliest resolution and none after its last one; the two differ for written-off invoices only |
| Reruns.CalculatedFeeOfRun | apps/api/src/fees/fee-accrual.service.ts:76-123 | a run's calculated fee is the sum of the month's accrual rows less those of invoices no longer selected; the total is the maximum with the minimum fee |
| EarlyRuns.LeftOutRows | apps/api/src/fees/fee-accrual.service.ts:43-48 | in every reachable state the rows a month's run leaves out are exactly those whose invoice was resolved before the month started |
| EarlyRuns.WholeSumIffNoEarlyFees | apps/api/src/fees/fee-accrual.service.ts:76-107 | a run carries the whole sum of the month's rows if and only if no fee was charged for it on an invoice resolved before it started; otherwise it carries less |
| FailingFeeRuns.EarlyRunFallsShort | apps/api/src/fees/fee-accrual.service.ts:32-49 | a run from empty tables in which a month is run before it starts and later carries less than its rows |
| IssueRaces.IssuedDuringRun | apps/api/src/fees/fee-accrual.service.ts:55-123 | a fee invoice that is issued, or otherwise changed, between a run's reads and its transaction stays as it is if and only if volumes, tier and minimum read agree with it and its fee is what the invoices read have been and are yet to be charged |
| IssueRaces.IssuedDuringTimelyRun | apps/api/src/fees/fee-accrual.service.ts:55-123 | in time order a draft issued in between stays as issued if and only if what was read agrees with it and every invoice read has a row or a fee of zero |
| FailingFeeRuns.IssuedTotalChanges | apps/api/src/fees/fee-accrual.service.ts:109-123 | a run from empty tables in which an issued total changes |
| Reruns.RowsOfRun | apps/api/src/fees/fee-accrual.service.ts:79-91 | a run keeps every old row and adds at most one per selected invoice |
| Reruns.FeeInvoicesMatchAccruals | apps/api/src/fees/fee-accrual.service.ts:106-123 | in every state reached in time order a fee invoice carries the sum of its accrual rows, and a fresh run the larger of that and the minimum |
| Reruns.RerunSafety | apps/api/src/fees/fee-accrual.service.ts:55-62 | over any further calls in time order accrual rows do not change, selections of begun months only grow, and issued fee invoices are not touched |
| FeeComparison.FirstRunRefinesCalculator | apps/api/src/fees/fee-accrual.service.ts:64-107 | a first run over n invoices picks the preview's tier and is within n half-cents of its fee, before and after the minimum |
| FeeComparison.ActiveTiersAreListed | apps/api/src/fees/fee-tiers.service.ts:23-25 | the list is the active tiers, as often as in the table, in ascending order |
| FeeComparison.CurrentMinimumIsLastSet | apps/api/src/fees/fee-tiers.service.ts:66-96 | after any calls the minimum read is the one set last |
| FeeComparison.AccrualLedgerAgrees | apps/api/src/fees/fee-accrual.service.ts:92-103 | after any run a broker's FEE_ACCRUAL entries sum to its accrual rows, one entry per row |
| AllBrokers.AllBrokersRun | apps/api/src/fees/fee-accrual.service.ts:140-147 | the run over all brokers stops at the first one whose fee invoice left DRAFT; each broker before it gets, and the run returns, exactly the fee its run alone would give; the others keep what they had |
| AllBrokers.RunLeavesOthers | apps/api/src/fees/fee-accrual.service.ts:51-138 | one broker's run changes nothing that another broker's run reads |
| Outcomes.CreateOutcome | apps/api/src/invoices/invoices.service.ts:113-157 | a new invoice needs approved parties and a number new to its broker; it is stored as sent, uploaded, with one history row |
| Outcomes.HandlerOutcome | apps/api/src/invoices/invoices.service.ts:194-408 | which handlers go through from any status, with which status they end, and what those with a guard throw |
| Outcomes.ApprovalOutcome | apps/api/src/invoices/invoices.service.ts:353-379 | an approval goes through if and only if the whole amount fits under the company's limit; otherwise the limit is missing or exceeded by exactly the shortfall |
| Outcomes.DisputeOutcome | apps/api/src/invoices/invoices.service.ts:301-349 | a dispute opens with the status change; a resolution closes the first open one and reinstates or cancels |
| Outcomes.CancelOutcome | apps/api/src/invoices/invoices.service.ts:551-565 | cancelling goes through from exactly five statuses and is an illegal transition from the others |
| Outcomes.FundOutcome | apps/api/src/invoices/invoices.service.ts:412-440 | a funding goes through if and only if the invoice is approved and its whole amount fits under the limit, and what it throws otherwise |
| Outcomes.SettleOutcome | apps/api/src/invoices/invoices.service.ts:495-517 | a settlement needs a funded invoice without a hold whose matches cover it, and what it throws otherwise |
| Outcomes.ChargeBackOutcome | apps/api/src/invoices/invoices.service.ts:636-663 | a chargeback of a funded invoice adds its record with the amount asked for |
| Outcomes.WriteOffOutcome | apps/api/src/invoices/invoices.service.ts:705-713 | a write-off goes through for exactly the charged-back invoices |
| Outcomes.HoldOutcome | apps/api/src/invoices/invoices.service.ts:569-626 | holds are placed on funded invoices without one, and released from held ones in any status; only flag and events change |
| Outcomes.PaymentOutcome | apps/api/src/payments/payments.service.ts:22-51 | a payment of a known company is stored as sent, unmatched |
| Outcomes.MatchOutcome | apps/api/src/payments/payments.service.ts:64-104 | a match joins a payment and an invoice of one company, and the payment is partially matched, fully matched or overpaid as its matches are below, at or above its amount |
| Payouts.FundStoresShares | apps/api/src/invoices/invoices.service.ts:422-438 | a funding stores the configured percentage of the total as advance and the rest as reserve, each to the nearest cent and upwards on a tie |
| Payouts.PayoutsOfRun | apps/api/src/invoices/invoices.service.ts:422-465 | after any orderly run a funded invoice's disbursement and hold are these shares, once each, adding up to the total or one cent more on a tie, and a settled one's release is the hold |
| Payouts.PreviewMeans | apps/api/src/fees/fee-calculator.ts:43-68 | the preview's advance and reserve make up the volume and round to shares; its fee is floored by the minimum, and the flag says whether that was needed |
| FeeCalculator.RoundsToNearest | apps/api/src/fees/fee-accrual.service.ts:77-92 | stored amounts are the nearest cents, the greater on a tie, whatever the sign |
| Calendar.MonthStartIsCivil | apps/api/src/fees/period.ts:2-8 | every month starts where the civil calendar says, leap years of all kinds included |
| Calendar.PeriodIsCivilMonth | apps/api/src/fees/period.ts:2-4 | the period of a date outside the years 0 to 99 is the civil month it is in |
| Calendar.BoundsAreCivil | apps/api/src/fees/period.ts:2-8 | a period's bounds are the first instants of civil months |
| Calendar.MarchOf2000 | apps/api/src/fees/period.ts:2-4 | March 2000 starts after a leap day, at 951868800000 |
| Calendar.SeptemberOf2026 | apps/api/src/fees/period.ts:2-4 | noon of September 30, 2026 is in the period of September |
| Parties.EntriesOfRun | apps/api/src/ledger/ledger.service.ts:34-54 | in every reachable state each ledger entry stands under the key of its operation and names its parties, receipts and accruals carry the amounts of their rows, and no other types are written |
| CreditTrail.ChangesOfRun | apps/api/src/credit-limits/credit-limits.service.ts:60-80 | in every reachable state an invoice's change log rows are the ones its status calls for: the full amount, and the same back with its reason, for its own company |
| Pricing.LookupIsTierOf | apps/api/src/fees/fee-tiers.service.ts:23-25 | the lookup on the list finds the active tier that holds the volume and starts first, the first created among those, and none only if none holds it |
| Pricing.TierOfRun | apps/api/src/fees/fee-accrual.service.ts:64-123 | a run records the tier of its gallons, and keeps the recorded one if there is none |
| Pricing.PricesOfRun | apps/api/src/fees/fee-accrual.service.ts:77-91 | in every reachable state each accrual row has its invoice's total as base and its tier's percentage of it as fee, to the nearest cent, whatever happened to tiers since |
| Pricing.TierOutcome | apps/api/src/fees/fee-tiers.service.ts:27-64 | a created tier is active, a deactivated one applies to no volume, and the others stay |
| Pricing.FeeRunOutcome | apps/api/src/fees/fee-accrual.service.ts:55-62 | a run goes through unless the fee invoice has left DRAFT, and leaves a draft |
| Pricing.IssueOutcome | apps/api/src/fees/fee-accrual.service.ts:149-154 | issuing needs a fee invoice and changes its status only |
| Pricing.FirstRunEntersTotal | apps/api/src/fees/fee-accrual.service.ts:106-134 | the first run of a broker's month enters the fee invoice's total in the ledger, as its last entry |
| Pricing.VolumesOfRun | apps/api/src/fees/fee-accrual.service.ts:64-66 | a run's volumes are the gallons and total amounts of the broker's outstanding invoices in the table |
| Pricing.LatestOpenIsLatest | apps/api/src/fees/fee-tiers.service.ts:66-72 | the minimum read is that of the open configuration with the latest start, and zero only if none is open |
| Pricing.MinimumHistory | apps/api/src/fees/fee-tiers.service.ts:74-96 | after any calls the configurations are the minimums that were set, each in force until the next one was |
| StateMachine.Predecessors | packages/shared/src/state-machines.ts:8-38 | from which statuses each status can be entered |
| Pricing.LastResolution | apps/api/src/fees/fee-accrual.service.ts:38-41 | the time read for an invoice is that of its last settlement, chargeback or write-off in row order |
| Keys.DefaultStrings | apps/api/src/invoices/invoices.controller.ts:102-154 | the default key strings in full |
| Keys.KnownPeriod | apps/api/src/fees/fee-accrual.service.ts:100 | the period of September 2026 as it stands in keys |
| PrismaModule.Prisma.Rollback | apps/api/src/invoices/invoices.service.ts:426-481 | a transaction that throws leaves the tables it found |
| LedgerModule.LedgerService.Record | apps/api/src/ledger/ledger.service.ts:34-54 | appends unless the key is taken, and returns the entry under the key |
| LedgerModule.LedgerService.TotalsByType | apps/api/src/ledger/ledger.service.ts:106-110 | a type has a total exactly when an entry has it, and it is the sum of that type's amounts |
| CreditLimitsModule.CreditLimitsService.GetUtilization | apps/api/src/credit-limits/credit-limits.service.ts:25-38 | used and available make up the limit, and the percentage passes a hundred exactly when available is negative |
| CreditLimitsModule.CreditLimitsService.ApplyDelta | apps/api/src/credit-limits/credit-limits.service.ts:45-81 | moves counter and log together, does nothing for a known key, throws without a limit row |
| CreditLimitsModule.CreditLimitsService.WouldExceed | apps/api/src/credit-limits/credit-limits.service.ts:84-96 | exceeds and overBy are what the funding gate stops on |
| CreditLimitsModule.CreditLimitsController.SetLimit | apps/api/src/credit-limits/credit-limits.controller.ts:51-55 | changes the cap of a company and never its counter |
| PaymentsModule.PaymentsService.Record | apps/api/src/payments/payments.service.ts:22-51 | appends an unmatched payment and its receipt, or throws and changes nothing |
| PaymentsModule.PaymentsService.TotalMatched | apps/api/src/payments/payments.service.ts:85-89 | the loop sums exactly the payment's matches |
| PaymentsModule.PaymentsService.Match | apps/api/src/payments/payments.service.ts:64-104 | appends the match and sets the status that the sum of all matches calls for, or throws and changes nothing |
| InvoicesModule.InvoicesService.AssertWithinCreditLimit | apps/api/src/invoices/invoices.service.ts:52-60 | throws exactly when the full amount does not fit, with the amount over |
| InvoicesModule.InvoicesService.WriteStatusChange | apps/api/src/invoices/invoices.service.ts:83-109 | sets the status and appends its history row, or throws on an illegal pair |
| InvoicesModule.InvoicesService.Create | apps/api/src/invoices/invoices.service.ts:113-157 | appends an uploaded invoice with its first history row, or throws |
| InvoicesModule.InvoicesService.RunExtractionCore | apps/api/src/invoices/invoices.service.ts:212-246 | lands on PENDING_BROKER_REVIEW, stays in EXTRACTING when the foreign call fails, or throws without a document |
| InvoicesModule.InvoicesService.RunExtraction | apps/api/src/invoices/invoices.service.ts:194-200 | the same for the broker, an unknown invoice being not found |
| InvoicesModule.InvoicesService.RunExtractionAsSystem | apps/api/src/invoices/invoices.service.ts:208-210 | the same for the system, an unknown invoice being one without a document |
| InvoicesModule.InvoicesService.SubmitForApproval | apps/api/src/invoices/invoices.service.ts:249-272 | the status change of the handler |
| InvoicesModule.InvoicesService.McApprove | apps/api/src/invoices/invoices.service.ts:276-299 | the status change of the handler, for an approved company only |
| InvoicesModule.InvoicesService.McDispute | apps/api/src/invoices/invoices.service.ts:301-328 | opens a dispute with the status change |
| InvoicesModule.InvoicesService.ResolveDispute | apps/api/src/invoices/invoices.service.ts:330-349 | closes the first open dispute with the status change |
| InvoicesModule.InvoicesService.Underwrite | apps/api/src/invoices/invoices.service.ts:353-391 | each decision's status change, an approval if and only if the whole amount fits under the limit |
| InvoicesModule.InvoicesService.RespondToInfoRequest | apps/api/src/invoices/invoices.service.ts:393-408 | the status change of the handler |
| InvoicesModule.InvoicesService.FundChecks | apps/api/src/invoices/invoices.service.ts:414-424 | the checks of fund, and the shares of the total it is to pay out and hold |
| InvoicesModule.InvoicesService.FundTransaction | apps/api/src/invoices/invoices.service.ts:426-481 | status change, amounts, two entries and the delta, on whatever the tables hold by then |
| InvoicesModule.InvoicesService.Fund | apps/api/src/invoices/invoices.service.ts:412-491 | all of fund, or the error and unchanged tables |
| InvoicesModule.InvoicesService.MatchedTotal | apps/api/src/invoices/invoices.service.ts:507-508 | the loop sums exactly the invoice's matches |
| InvoicesModule.InvoicesService.SettleTransaction | apps/api/src/invoices/invoices.service.ts:515-546 | status change, release of the reserve and restored exposure for the invoice as read, on whatever the tables hold by then |
| InvoicesModule.InvoicesService.ChargebackTransaction | apps/api/src/invoices/invoices.service.ts:643-693 | record, status change, entry and restored exposure for the invoice as read, on whatever the tables hold by then |
| InvoicesModule.InvoicesService.Settle | apps/api/src/invoices/invoices.service.ts:495-547 | all of settle, or the error and unchanged tables |
| InvoicesModule.InvoicesService.Cancel | apps/api/src/invoices/invoices.service.ts:551-565 | cancels from exactly five statuses, or throws |
| InvoicesModule.InvoicesService.PlaceReserveHold | apps/api/src/invoices/invoices.service.ts:569-599 | adds an active hold and sets the flag of a funded invoice without one |
| InvoicesModule.InvoicesService.ReleaseReserveHold | apps/api/src/invoices/invoices.service.ts:601-626 | ends the active hold and clears the flag |
| InvoicesModule.InvoicesService.ChargeBack | apps/api/src/invoices/invoices.service.ts:636-703 | chargeback record with its entry, status change and restored exposure, or the error and unchanged tables |
| InvoicesModule.InvoicesService.WriteOff | apps/api/src/invoices/invoices.service.ts:705-732 | marks the chargeback and records its amount, or throws |
| InvoicesModule.InvoicesController.Fund | apps/api/src/invoices/invoices.controller.ts:91-103 | the service under the header's key, or under a default made from the invoice's id |
| InvoicesModule.InvoicesController.Settle | apps/api/src/invoices/invoices.controller.ts:105-113 | likewise |
| InvoicesModule.InvoicesController.ChargeBack | apps/api/src/invoices/invoices.controller.ts:136-145 | likewise |
| InvoicesModule.InvoicesController.WriteOff | apps/api/src/invoices/invoices.controller.ts:147-155 | likewise |
| InvoicesModule.RoutesAreSteps | apps/api/src/invoices/invoices.controller.ts:91-155 | without a header what each route does is a step of the machine under the default keys |
| FeesModule.FeeTiersService.CreateTier | apps/api/src/fees/fee-tiers.service.ts:27-45 | appends an active tier |
| FeesModule.FeeTiersService.DeactivateTier | apps/api/src/fees/fee-tiers.service.ts:48-64 | clears the flag of a known tier |
| FeesModule.FeeTiersService.SetMinimumMonthlyFee | apps/api/src/fees/fee-tiers.service.ts:74-96 | closes an open configuration and opens the new one |
| FeesModule.FeeAccrualService.ResolvedAtByInvoice | apps/api/src/fees/fee-accrual.service.ts:38-41 | the map built in row order keeps each invoice's last resolution |
| FeesModule.FeeAccrualService.GetOutstandingInvoicesForPeriod | apps/api/src/fees/fee-accrual.service.ts:32-49 | the loops select what the selection function selects |
| FeesModule.FeeAccrualService.UpsertAccrual | apps/api/src/fees/fee-accrual.service.ts:78-91 | keeps an existing row, else writes the new one |
| FeesModule.FeeAccrualService.AccrueEach | apps/api/src/fees/fee-accrual.service.ts:76-104 | the loop's rows, entries and fee are the fold over the invoices |
| FeesModule.FeeAccrualService.UpsertFeeInvoice | apps/api/src/fees/fee-accrual.service.ts:106-123 | a new draft, or the existing row with new amounts whatever its status; without a tier the recorded one stays |
| FeesModule.FeeAccrualService.ReadPeriod | apps/api/src/fees/fee-accrual.service.ts:52-73 | the check and the reads of the run |
| FeesModule.FeeAccrualService.RunTransaction | apps/api/src/fees/fee-accrual.service.ts:75-137 | the transaction of the run for what was read, on whatever the tables hold by then |
| FeesModule.FeeAccrualService.RunForBrokerPeriod | apps/api/src/fees/fee-accrual.service.ts:51-138 | the whole run, or the error and unchanged tables once the fee invoice left DRAFT |
| FeesModule.FeeAccrualService.RunForAllBrokers | apps/api/src/fees/fee-accrual.service.ts:140-147 | the runs in order up to the first that throws, with each broker's fee invoice as result |
| FeesModule.FeeAccrualService.MarkIssued | apps/api/src/fees/fee-accrual.service.ts:149-154 | only the status of that fee invoice changes |

## Left out

- The web portals, infrastructure, migrations, lambdas and onboarding: no money or invoice status depends on them, except that
  onboarding enters `Create` and `McApprove` as a boolean.
- Authentication, roles and ownership checks: every call counts as authorised.
- Reason codes, notes, actors, documents, extraction results, notifications and the audit log: nothing modelled reads them.
- Timestamps on rows other than the status history, which the fee run reads.
- Row ids are positions in insertion order, and queries without an order, or with ties in it, read rows in insertion order.
- Isolation inside a database transaction: one transaction body is one step. Only `fund`, for one invoice `settle` and
  `chargeback`, and the fee run against `markIssued` are split into checks and transaction; the other operations stay whole.
- Precision and rounding inside decimal.js, and floating-point addition of billed and tax amounts: totals are whole cents.
- The filters, paging and name joins of the ledger viewer: only its totals loop is modelled.
- `checkReserveReleaseCandidates` beyond the list it computes: the notification is dropped.
- The FEE_INVOICE entry keeps the amount of the first run, as in the code; nothing is claimed about recomputed totals.
- `cancel` from MC_DISPUTED leaves the dispute open, as in the code; the dispute result allows for it.
- RetryKeys.FundsOnceIffSameKey: the retries run their transactions directly after each other; other operations in between
  are covered for one key by `Interleaving.RetriesFundOnce`.
- ClosingRaces.RestoredOnceIffOneNewKey: the transactions run directly after each other.
- TimelyRuns.RowsOfResolved: gives bounds for written-off invoices. Which of the months between their chargeback and their
  write-off have a row depends on whether they were run again after the write-off.
- FeesModule.FeeAccrualService.RunForBrokerPeriod: requires invoice ids to be row positions, which `Histories.PathsOfRun` gives
  for every reachable state.
