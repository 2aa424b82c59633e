# Verified model of the stablecoin payment ledger

This project models the payment store of `internal/core/store.go`, the amount text that
passes between it and the Solana watcher, the watcher's transfer parser
(`workers/solana-watcher/src/parser.rs`) and the API's rate limiter
(`internal/api/server.go`), and proves what the rest of the system relies on.
`dafny verify dfyconfig.toml` checks everything.

## How the model is built

The ledger is described twice. `LedgerModel` and `StoreModel` say, as functions on
values, which table entries every locked operation writes. `MemoryStoreClass.MemoryStore`
is the imperative store: the source's tables as fields, its locked methods as methods,
with the source's loops. Each method is proved to leave the tables exactly as the function
says and to return what it says; the theorems are then proved about the functions, over
all runs.

| Files | Content |
|---|---|
| `Wrappers`, `Finite` | options and results; sums, counts and sorting that do not depend on iteration order |
| `Amounts`, `AmountTheorems` | amount text: reading, validation, comparison, both printers |
| `Models`, `Ledger`, `LedgerInvariant`, `LedgerPreservation`, `LedgerSteps` | records, payment operations, the global invariant and its preservation |
| `Matching`, `History`, `Replay`, `Dropping`, `Commutation`, `Tenancy`, `Receipts`, `Metrics` | theorems about the ledger |
| `Reconciliation`, `ReportTheorems`, `ReportScopes`, `ReportTenancy`, `ReportHistory`, `ReportDrift` | reconciliation runs |
| `Webhooks`, `ApiKeys`, `StoreModel`, `WebhookTheorems`, `ServiceMetrics`, `Persistence` | the whole store, deliveries, API keys, the file behind it |
| `StoreGlue`, `ReportGlue`, `MemoryStore` | the imperative store |
| `Parser`, `RateLimit` | the watcher's parser, the rate limiter |

What comes from outside is an input of the operation: identifiers (`newID`, required only
to be unused), clock readings, HTTP outcomes, and the wallet that map iteration meets
first. Where the source ranges over a Go map the methods choose an arbitrary next key.
`CreatePaymentRequest` reads the clock for validation and again, before taking the lock,
for the timestamp; both readings are inputs, and nothing says that readings follow lock
order except where a lemma asks for it. SHA-256 of a normalized body is the body itself
(injective), and an API key is known by the hash of its secret; JSON is a lossless codec for the tables; business identifiers do not contain
`|`. An amount is its text together with the rational `big.Rat.SetString` reads in it, so
the ledger theorems hold for every text the source accepts; `Amounts.Plain` fixes the
reading of plain decimal text.

## Where the code differs from what one would expect

- A repeated create with the same key and body returns the original request only until the
  request's expiry; afterwards it is refused as invalid, because the body is validated
  against the clock before the key is looked up. The documentation
  (`docs/api/milestone-2.md:141`) promises the original request without that limit.
  `Replay.RepeatedCreate` proves the exact condition.
- A call with a key or a signature may be dropped from a history exactly when it is refused
  for its own sake (bad input, no wallet) or repeats the key of an earlier call that was
  accepted (`Dropping.DroppableExactly`). A refused earlier call does not count: evidence
  refused because its wallet was not registered yet is stored when it arrives again
  (`Dropping.RefusedCallsDoNotCount`).
- A repeated ingest never upgrades a `pending_finality` transaction
  (`Replay.RepeatedIngest`, `History.FinalStatesAreFrozen`).
- A receipt is in story order exactly when the clock readings behind it did not run
  backwards (`Receipts.ReceiptTellsStory`); readings are taken before the lock.
- A printed total denotes the exact sum exactly when the sum has six decimals
  (`ReportTheorems.PrintedTotalExactly`). Plain decimal amounts always meet that;
  `validateAmount` also lets `1/3` through, which does not
  (`AmountTheorems.FractionAmountsLosePrecision`).
- Request counts of adjacent periods add up exactly when no request is created in one and
  last updated in the other (`ReportScopes.RequestsAddUnlessStraddling`).
- The limiter, whatever its limit, can allow twice that many requests within sixty seconds,
  and no more (`RateLimit.TwiceLimitIsReached`, `RateLimit.AtMostTwiceLimitPerMinute`).
- Rows, snapshots and totals of a stored run never drift, but its list of exceptions is
  looked up again at every read, and a period may end after the run is stored. An operation
  changes what the report shows exactly when it closes an exception of the report's business
  and wallet that was created, or is now closed, in the period; or when it records a new
  finalized payment of that business into a covered wallet, in the period, that no request
  in time equals alone (`ReportDrift.ReportsChangeExactly`). A report reads back the same,
  exceptions included, exactly when no operation since did either
  (`ReportDrift.StoredExceptionsDriftExactly`).

## Model

| member | source | states |
|---|---|---|
| `LedgerSteps.StepKeepsInv` | `internal/core/store.go:439-1169` | every payment operation keeps the global invariant that the source never states: matches tie settled requests to matched transactions one to one, every other finalized transaction has exactly one exception, and every request has exactly the receipt events of its status |
| `LedgerSteps.RunKeepsInv` | `internal/core/store.go:439-1169` | the invariant holds in every state reachable from any state that satisfies it, over all runs |
| `LedgerSteps.EmptyInv` | `internal/core/store.go:104-132` | a new store satisfies the invariant |
| `History.RunEvolves` | `internal/core/store.go:1880-2047` | over any run nothing recorded is lost: wallets, transactions, matches, events and index entries stay as they were, requests only settle and are then resolved, exceptions are only closed |
| `History.FinalStatesAreFrozen` | `internal/core/store.go:1891-1903` | a confirmed or manually resolved request never changes again, and no stored transaction ever does |
| `Matching.ConfirmsExactly` | `internal/core/store.go:1896-1930` | the switch confirms a request if and only if it is the one awaiting, unexpired request of the same business, wallet, chain and token with an equal amount |
| `Matching.MismatchesExactly` | `internal/core/store.go:1934-1955` | it is under- or overpaid if and only if it is the only candidate in time and the amounts differ that way |
| `Matching.ExpiresExactly` | `internal/core/store.go:1959-1977` | an expired request is used if and only if no candidate is in time, then by equal amount before uniqueness |
| `Matching.OrphansExactly` | `internal/core/store.go:1978-1982` | a payment is orphaned if and only if no request of its wallet waits for it |
| `Matching.EveryPaymentIsExplained` | `internal/core/store.go:1880-1985` | every accepted finalized payment ends with a match or an exception; the exact match is the only one without an exception |
| `Matching.IngestConfirmsExactly` | `internal/core/store.go:632-715` | through the ledger step: recording a finalized payment turns a request into a confirmed one if and only if it is the only equal candidate in time |
| `Replay.RepeatedCreate` | `internal/core/store.go:506-540` | a later create with the same key changes nothing; it returns the original request if and only if the body is the same and the clock is before its expiry, another valid body is a conflict |
| `Replay.RepeatedIngest` | `internal/core/store.go:636-659` | a later ingest of the same signature changes nothing; it returns the stored transaction, as it was first recorded, if and only if its evidence is valid and agrees with the stored one; other valid evidence is a conflict, or not found when no wallet receives it |
| `Replay.RepeatsCanBeRemoved` | `internal/core/store.go:531-659` | removing from any history every repetition of an accepted key or signature leaves a possible history with the same final ledger |
| `Dropping.AcceptedExactly` | `internal/core/store.go:506-715` | a call with a key or signature is carried out if and only if its input is good, its wallet is there and the key is unused; otherwise it changes nothing |
| `Dropping.DropsExactly` | `internal/core/store.go:506-715` | leaving such a call out of any history leads to the same ledger if and only if the call was not carried out |
| `Dropping.UsedExactly` | `internal/core/store.go:531-659` | in a history from the start a key is in use if and only if an earlier call with that key was carried out |
| `Dropping.DroppableExactly` | `internal/core/store.go:506-715` | in a history from the start a call can be left out if and only if it is refused for its own sake or repeats an accepted key |
| `Dropping.RefusedCallsDoNotCount` | `internal/core/store.go:644-648` | for example, evidence refused for want of a wallet, then a registration, then the same evidence: dropping the second arrival loses the payment |
| `Commutation.IngestionsCommute` | `internal/core/store.go:632-715` | ingestions into different wallets with different signatures lead to the same tables and the same answers in either order |
| `Tenancy.StepProjects` | `internal/core/store.go:439-1169` | an operation acts on its business's projection as it acts on the ledger, and leaves every other business's projection alone |
| `Tenancy.BusinessesAreIsolated` | `internal/core/store.go:439-1169` | what a business sees after any interleaving is what it would see if it were alone on the store |
| `Tenancy.IndistinguishableHistories` | `internal/core/store.go:439-1169` | two histories that agree on a business's own operations give it the same view and the same answers |
| `Tenancy.KeysAreSeparate` | `internal/core/store.go:2607-2609` | index keys of different businesses differ |
| `Receipts.ReceiptIsDetermined` | `internal/core/store.go:3204-3216` | the comparator is a strict total order on stored events, so a receipt does not depend on map iteration |
| `Receipts.ReceiptTellsStory` | `internal/core/store.go:2049-2151` | a sorted receipt spells created, detected, verified, matched, then confirmed or exceptioned and resolved, if and only if the clock readings behind it did not run backwards |
| `Receipts.ClockedReceipts` | `internal/core/store.go:2049-2151` | under a clock that never runs backwards (ties allowed) every receipt of every reachable state spells the story of its request's status |
| `Receipts.ReceiptsOnlyGrow` | `internal/core/store.go:2142-2151` | under such a clock an earlier receipt is a prefix of every later one |
| `Metrics.MatchedCounts` | `internal/core/store.go:2934-2958` | transactions matched = matches = settled requests of the business |
| `Metrics.OrphanCounts` | `internal/core/store.go:2948-2980` | orphan transactions = orphan exceptions, open or resolved |
| `Metrics.AmbiguousCounts` | `internal/core/store.go:1931-1969` | finalized unmatched transactions that are not orphans = ambiguous exceptions |
| `Metrics.OpenExceptionCounts` | `internal/core/store.go:2934-2980` | open exceptions = underpaid + overpaid + expired requests + open orphan and ambiguous exceptions |
| `Metrics.ReceiptCounts` | `internal/core/store.go:2934-2987` | receipts generated = payment requests created |
| `Metrics.DetectedCounts` | `internal/core/store.go:2948-2959` | detected transactions are matched, orphaned, pending or finalized without a match, each counted once |
| `ServiceMetrics.DeliveriesAreCounted` | `internal/core/store.go:2960-2970` | in every reachable state each delivery counts as delivered or as failed: none is left pending |
| `ReportTheorems.TransactionsReportedOnce` | `internal/core/store.go:2278-2303` | each transaction of the period is named by exactly one row of the report, and no row names another |
| `ReportTheorems.RequestsReportedOnce` | `internal/core/store.go:2278-2317` | each request created, updated or matched in the period is named by exactly one row of the report, and no row names another |
| `ReportTheorems.RunCounts` | `internal/core/store.go:2342-2350` | matched transactions = matches = match rows; unmatched transactions = unmatched rows, never negative |
| `ReportTheorems.RowsAreCounted` | `internal/core/store.go:2342-2350` | the totals count the report's rows: matches and matched transactions the rows with a match, unmatched transactions the rows that say unmatched |
| `ReportTheorems.ReconciledMeansConfirmed` | `internal/core/store.go:2289-2292` | a row is reconciled if and only if it is the row of an exact match |
| `ReportTheorems.ExactMatchHasNoException` | `internal/core/store.go:2561-2575` | the unfiltered exception lookup finds nothing for a match if and only if the match is exact |
| `Reconciliation.FoundIsUnique` | `internal/core/store.go:2561-2575` | the first exception that map iteration meets is the only one that passes the filter |
| `ReportTheorems.RowsConserveMoney` | `internal/core/store.go:2272-2317` | the received amounts on the report's rows add up to what the run received |
| `ReportTheorems.SnapshotsConserveMoney` | `internal/core/store.go:2463-2501` | the wallet snapshots add up to what the run received |
| `ReportTheorems.SnapshotsCountTransactions` | `internal/core/store.go:2473-2487` | the transaction counts on the snapshots add up to the transactions of the run |
| `ReportTheorems.PrintedTotalExactly` | `internal/core/store.go:3125-3136` | the printed total denotes the exact sum if and only if the sum has six decimals |
| `ReportTheorems.PlainAmountsPrintExactly` | `internal/core/store.go:2720-2739` | runs whose payments carry plain decimal amounts meet that condition |
| `ReportTheorems.PrintedTotalsAreExact` | `internal/core/store.go:3125-3136` | with six-decimal amounts the run's and every wallet's printed amount denotes the exact sum |
| `ReportTheorems.PrintedSnapshotsAddUp` | `internal/core/store.go:2463-2501` | and the amounts printed on the snapshots add up to the one printed on the run |
| `ReportScopes.AdjacentPeriodsAdd` | `internal/core/store.go:3113-3119` | transactions, matches and money of [a,b) and [b,c) add up to those of [a,c) |
| `ReportScopes.RequestsAddUnlessStraddling` | `internal/core/store.go:2408-2422` | request counts add up if and only if no request is created in one period and updated in the other |
| `ReportScopes.ReportsAreLocal` | `internal/core/store.go:2282-2317` | each row is what the business's own records alone would give, though the lookups behind it do not filter by business |
| `ReportTenancy.WholeReportsAreLocal` | `internal/core/store.go:2261-2501` | so are the totals, the set of rows and the set of snapshots of a whole run |
| `ReportTenancy.RunExceptionsLocal` | `internal/core/store.go:2442-2461` | the exceptions of a run are those the business's own records give, through the unfiltered wallet lookup |
| `ReportHistory.RunIsStored` | `internal/core/store.go:968-976` | after creation the stored rows and snapshots of the run are the ones computed |
| `ReportHistory.StoredReportNeverDrifts` | `internal/core/store.go:2360-2390` | after whatever later operations, reading a run back gives the very sequences of rows and snapshots that creating it returned, and its totals |
| `ReportDrift.ReportsChangeExactly` | `internal/core/store.go:2442-2461` | any operation changes the exceptions shown for a stored run if and only if it closes an exception of the run's business and wallet that was created or is now closed in the period, or records in the period, into a covered wallet, a new finalized payment that no request in time equals alone |
| `ReportDrift.ClosingChangesReports` | `internal/core/store.go:1107-1169` | for a closing: exactly the first of the two conditions |
| `ReportDrift.StoringChangesReports` | `internal/core/store.go:632-715` | for a new payment: exactly the second |
| `ReportDrift.RunsChangeExactly` | `internal/core/store.go:2442-2461` | over any run of payment operations the shown exceptions end up different if and only if some operation of the run met the condition: changes never cancel out |
| `ReportDrift.StoredExceptionsDriftExactly` | `internal/core/store.go:2360-2390` | over any run of the whole store a report reads back the same exceptions if and only if no operation met the condition |
| `ReportHistory.RunKeepsApart` | `internal/core/store.go:2463-2501` | no two snapshots of a run share an address, so their sorted order is determined |
| `StoreModel.LedgerIgnoresWebhooks` | `internal/core/store.go:2153-2259` | the ledger after any run is that of its payment operations alone: network outcomes, replays, subscriptions and reports do not influence it |
| `StoreModel.SameCallsSameLedger` | `internal/core/store.go:901-936` | runs that differ only in outcomes, subscriptions, replays and reports end with one ledger |
| `WebhookTheorems.AttemptsCountReplays` | `internal/core/store.go:2203-2259` | at the end of any run a delivery was attempted once plus once for every replay that found it |
| `Persistence.RebuiltIsMaintained` | `internal/core/store.go:1784-1787` | the rebuilt signature index is the one that was maintained step by step |
| `Persistence.LoadEncode` | `internal/core/store.go:1696-1862` | saving and loading gives the store back, webhook secrets excepted |
| `Persistence.RunKeepsOk` | `internal/core/store.go:439-1169` | the invariant of ledger, deliveries, stored reports and keys holds after any run |
| `Persistence.CrashAnywhere` | `internal/core/store.go:1790-1862` | stop the process anywhere in any execution (between body, marshal, write, rename; after failed writes and earlier crashes) and load the file: the store is that of a completed prefix of the operations and satisfies the invariant |
| `Persistence.RenamedIsSaved` | `internal/core/store.go:1850-1862` | once its rename has happened the file holds every operation completed so far |
| `Persistence.SavedIsNeverLost` | `internal/core/store.go:1790-1862` | in any execution, crashes, torn writes and reloads included, what a restart loads is a later state of what any earlier restart would have loaded: ledger, keys and runs only move on |
| `Persistence.SavedRevocationsHold` | `internal/core/store.go:1790-1862` | so a saved revocation of a key holds after every later restart |
| `ApiKeys.AuthenticatesExactly` | `internal/core/store.go:253-277` | a hash authenticates exactly the unrevoked key that has it |
| `ApiKeys.RevokedStaysRevoked` | `internal/core/store.go:347-373` | a hash that no longer authenticates never does again, over whatever creations and revocations follow |
| `ApiKeys.HashesAreRestored` | `internal/core/store.go:1780-1783` | whatever order the rebuilding loop takes, the rebuilt hash index is the one that creations maintained and revocations left alone |
| `AmountTheorems.FormatAtomicDenotes` | `workers/solana-watcher/src/parser.rs:256-278` | for every digit string the printed text is plain decimal text denoting raw / 10^decimals |
| `AmountTheorems.FormatAtomicCanonical` | `workers/solana-watcher/src/parser.rs:256-278` | equal amounts print equally and different ones differently |
| `AmountTheorems.WatcherAmountAccepted` | `internal/core/store.go:2720-2739` | what the watcher prints with six decimals passes validation if and only if the raw amount is positive |
| `AmountTheorems.CompareAgreesWithAtomic` | `internal/core/store.go:2741-2751` | comparing two printed amounts is comparing the raw integers |
| `AmountTheorems.PrintReadsBack` | `internal/core/store.go:3125-3136` | a printed total reads back as the value rounded to millionths |
| `AmountTheorems.PrintRoundTrip` | `internal/core/store.go:3125-3136` | printing loses nothing if and only if the value is a whole number of millionths |
| `AmountTheorems.PlainAmountsAreSixDecimal` | `internal/core/store.go:2720-2739` | plain decimal text that validation accepts denotes a whole number of millionths |
| `AmountTheorems.FractionAmountsLosePrecision` | `internal/core/store.go:2720-2739` | 1/3 is accepted, and two printed thirds do not add up to printed two thirds |
| `MemoryStoreClass.MemoryStore.constructor` | `internal/core/store.go:104-132` | a new store is valid and empty |
| `MemoryStoreClass.MemoryStore.RegisterWallet` | `internal/core/store.go:439-488` | the conflict loop and the write: the tables and the answer are those of the ledger operation |
| `MemoryStoreClass.MemoryStore.CreatePaymentRequest` | `internal/core/store.go:506-603` | validation, idempotency, wallet checks, the three writes and the deliveries: whole new store and answer |
| `MemoryStoreClass.MemoryStore.IngestStablecoinTransaction` | `internal/core/store.go:632-715` | whole new store and answer of an ingestion for some wallet that map iteration may meet first, for every order of iteration |
| `MemoryStoreClass.MemoryStore.FindWalletForTransaction` | `internal/core/store.go:1868-1878` | finds a receiving wallet if and only if there is one |
| `MemoryStoreClass.MemoryStore.CollectCandidates` | `internal/core/store.go:1891-1922` | the matching loop fills the four lists with exactly the candidates of each kind, for every order of iteration |
| `MemoryStoreClass.MemoryStore.ChooseVerdict` | `internal/core/store.go:1924-1985` | the switch over the four lists decides what the set specification decides; the error branch and the last return are dead |
| `MemoryStoreClass.MemoryStore.MatchTransaction` | `internal/core/store.go:1880-1985` | what the verdict writes: request, transaction, match, exception, events and deliveries, nothing for a pending transaction |
| `MemoryStoreClass.MemoryStore.RecordPaymentReceiptEvents` | `internal/core/store.go:2049-2125` | stores the four events of a settlement and enqueues their deliveries in order |
| `MemoryStoreClass.MemoryStore.ResolveException` | `internal/core/store.go:1107-1169` | closes the exception and its request, emits the event, repeats change nothing: whole new store and answer |
| `MemoryStoreClass.MemoryStore.EnqueueWebhookDeliveries` | `internal/core/store.go:2153-2201` | every interested subscription gets one delivery, stored and attempted, for every order of iteration |
| `MemoryStoreClass.MemoryStore.AttemptWebhookDelivery` | `internal/core/store.go:2203-2259` | the delivery after an attempt, for every outcome; an unknown delivery changes nothing |
| `MemoryStoreClass.MemoryStore.CreateWebhookSubscription` | `internal/core/store.go:807-867` | the new subscription listens to the given event types, or to all when none is given, without repeats |
| `MemoryStoreClass.NormalEventTypes` | `internal/core/store.go:3138-3168` | event types are kept once each, all of them when none is given |
| `MemoryStoreClass.MemoryStore.ReplayWebhookDelivery` | `internal/core/store.go:901-936` | resets and attempts the delivery of this business, otherwise not found |
| `MemoryStoreClass.MemoryStore.TransactionsForRun` | `internal/core/store.go:2392-2406` | lists exactly the transactions the run covers, each once |
| `MemoryStoreClass.MemoryStore.PaymentRequestsForRun` | `internal/core/store.go:2408-2422` | lists exactly the requests the run covers, each once |
| `MemoryStoreClass.MemoryStore.MatchesForRun` | `internal/core/store.go:2424-2440` | lists exactly the matches the run covers, each once |
| `MemoryStoreClass.MemoryStore.ExceptionsForRun` | `internal/core/store.go:2442-2461` | lists exactly the exceptions the run covers, each once |
| `MemoryStoreClass.MemoryStore.ExceptionMatchesRunWallet` | `internal/core/store.go:2577-2592` | the early returns decide whether the exception concerns the run's wallet |
| `MemoryStoreClass.MemoryStore.FindExceptionForReconciliation` | `internal/core/store.go:2561-2575` | returns an exception that passes the filter, none when none does |
| `MemoryStoreClass.MemoryStore.FillRow` | `internal/core/store.go:2503-2559` | the row filled in step by step has each field from the record that wins it, and the clock's time when it is given none |
| `MemoryStoreClass.MemoryStore.BuildRows` | `internal/core/store.go:2278-2324` | the three loops and the sort produce the rows of the run, each once, in the one sorted order, and the set of matched transactions |
| `MemoryStoreClass.MemoryStore.ComputeTotals` | `internal/core/store.go:2272-2350` | the counters and the running sum are the counts and the sum over the run's records |
| `MemoryStoreClass.MemoryStore.WalletInflow` | `internal/core/store.go:2473-2487` | the inner loop computes the sum and count of one wallet's payments |
| `MemoryStoreClass.MemoryStore.WalletSnapshotsForRun` | `internal/core/store.go:2463-2501` | the snapshots of exactly the run's wallets, in address order |
| `MemoryStoreClass.MemoryStore.CreateReconciliationRun` | `internal/core/store.go:938-995` | checks in order, then the report and the stored run, rows and snapshots: whole new store, and the report shows the run |
| `MemoryStoreClass.MemoryStore.GetReconciliationReport` | `internal/core/store.go:1013-1023` | the stored run with its stored rows and snapshots in sorted order and its exceptions as they are now |
| `MemoryStoreClass.MemoryStore.GetReceipt` | `internal/core/store.go:779-791` | the request of this business with its events in chronological order, otherwise not found |
| `MemoryStoreClass.MemoryStore.MeasureUsage` | `internal/core/store.go:2925-3012` | the counting loops compute the counts over the business's wallets, requests, transactions, exceptions, receipts, deliveries, runs, rows and keys |
| `MemoryStoreClass.MemoryStore.CreateAPIKey` | `internal/core/store.go:280-329` | the new key is stored and indexed, and its hash authenticates it: whole new store |
| `MemoryStoreClass.MemoryStore.RevokeAPIKey` | `internal/core/store.go:347-373` | the key of this business is marked once and the index left alone, otherwise not found: whole new store |
| `MemoryStoreClass.MemoryStore.AuthenticateAPIKey` | `internal/core/store.go:253-277` | succeeds for exactly the stored, unrevoked key with this hash |
| `MemoryStoreClass.MemoryStore.RebuildIndexes` | `internal/core/store.go:1778-1788` | every key's hash and every transaction's scope is indexed, and every entry leads to a record that has it |
| `MemoryStoreClass.MemoryStore.Reload` | `internal/core/store.go:134-162` | the store loaded from its file, both indexes rebuilt in any order, is the saved store without webhook secrets, and valid |
| `ReportGlue.IndexIsRestored` | `internal/core/store.go:1784-1787` | whatever order the rebuilding loop takes, the result is the maintained index |
| `Finite.Sort` | `internal/core/store.go:2319-2324` | sorting by a strict total order gives the one ascending listing of the elements |
| `Finite.SortedListingUnique` | `internal/core/store.go:2377-2382` | there is only one such listing, so sorted output does not depend on map iteration |
| `Parser.ParseTransaction` | `workers/solana-watcher/src/parser.rs:36-111` | over top-level and inner instructions, each parseable transfer to the watched wallet is in exactly one list, in instruction order, accepted if and only if mint and six decimals match; all others are in neither; an error if and only if signature or slot is missing |
| `Parser.SplitTransfers` | `workers/solana-watcher/src/parser.rs:56-108` | the loop that splits the inbound transfers |
| `Parser.TokenAccountMetadata` | `workers/solana-watcher/src/parser.rs:130-166` | an account is described by the last balance entry about it |
| `Parser.PostOverridesPre` | `workers/solana-watcher/src/parser.rs:135-164` | so post-balances override pre-balances, and unmentioned accounts are absent |
| `Parser.ParsedInstructions` | `workers/solana-watcher/src/parser.rs:168-187` | top-level instructions, then the inner ones group by group |
| `Parser.AcceptedAmountIsExact` | `workers/solana-watcher/src/parser.rs:215-243` | accepted evidence whose text the watcher printed denotes its atomic amount exactly and is valid in the store if and only if positive |
| `RateLimit.Limiter.AllowRequest` | `internal/api/server.go:1096-1112` | the counter of the key's window, the decision, and a retry delay that is none when allowed, else the rest of the window in whole seconds, one when less than a second is left |
| `RateLimit.AtMostLimitPerWindow` | `internal/api/server.go:1096-1111` | for any sequence of requests with a clock that does not run backwards, at most the limit is allowed in a window |
| `RateLimit.AtMostTwiceLimitPerMinute` | `internal/api/server.go:1096-1111` | and at most twice the limit in any sixty seconds |
| `RateLimit.TwiceLimitIsReached` | `internal/api/server.go:1096-1111` | which is reached for every limit: that many requests at one instant and as many sixty seconds later are all allowed |

## Left out

- Normalization before an operation starts: trimming, case folding, defaulting the destination owner, URL parsing, unknown event names and malformed JSON. Operations take normalized input.
- Texts that nothing computes with: match reasons, exception descriptions, webhook payloads and event metadata.
- Audit and access logs, users, incidents, security policy, design partners, beta evidence, and the export renderers: side tables no payment property depends on.
- MemoryStoreClass.MemoryStore.MeasureUsage: does not count exports, users, design partners and beta evidence, because those tables are not modelled.
- API keys: scopes, the displayed prefix and the validation of the name; after the key is found, `AuthenticateAPIKey` also looks up its business, and businesses are not a table of the model.
- `GetPublicReceipt`: `GetReceipt` without the business check.
- List methods sorted by creation time alone, whose order is unspecified under ties; lists inside a report are kept as lists of identifiers for the same reason, and only rows, snapshots and receipts have an order.
- HMAC, SHA-256, secret protection and random identifiers: injective or fresh.
- The file system beyond atomic rename and failed or torn writes; the error text a failed save leaves behind.
- The grammar of `big.Rat.SetString` beyond plain decimals: an amount carries what was read.
- Machine widths: `int` counters and `time.Unix` with a block time near the end of the 64-bit range; the length of a key counts characters, the source's bytes.
- `ExceptionHold` is a status the source declares and never assigns; archiving a wallet is not an operation of the store, so the invariant says that no wallet is archived.
- Parser.ParseTransaction: does not model `format_atomic_amount` (`workers/solana-watcher/src/parser.rs:256-278`) on a raw amount with multi-byte characters, where the source counts and splits bytes and panics when the split falls inside a character, because the model's text is a sequence of characters; on digits the two agree.
- The shape of the longest methods: their loops and branches are cut out as methods of their own (`IsRegistered`, `PostTo`, `StoreRequest`, `SortCandidate`, `ChooseVerdict`, `WriteSettlement`, `RaiseFlag`, `IngestReceived`, `IngestUnseen`, `StoreAndMatch`, `CloseWithRequest`, `BuildAndStore`, `BuildMatchRow`, the counting and loading loops and the like), so that each can be proved by itself.
- Rate limits: which limit and which key apply to a request (authentication, policy lookup); the limit is an input.
- A missing request or wallet behind a stored reference: the branches are in the methods where the source has them, and the invariant shows that they are dead.
- HTTP handlers, the dashboard, RPC client, command line and posting of the watcher.
