# Verified models of a restaurant back end

The back end runs a restaurant: dine-in sessions opened by QR code, orders and kitchen tickets, bills
and payments, a double-entry journal, bank reconciliation, gateway webhooks, disputes, an escrow
ledger and stock. Its hard parts are state machines and money ledgers over SQL tables. This project
models those in Dafny and proves what they promise; where a promise does not hold of the code, it
gives a concrete input and the exact condition under which the promise does hold.

Check everything with `dafny verify dfyconfig.toml`.

| file | what it models |
|---|---|
| `Basics.dfy` | option and result types and two functions that several modules share |
| `WebhookLease.dfy` | the lease on a webhook event, fenced by processing tokens, as interleaved statements |
| `TableSessions.dfy` | scanning, closing, vacating and expiry of table sessions, as interleaved statements with row locks |
| `DineInOrders.dfy`, `OrderStatuses.dfy` | cart to order to kitchen ticket, order status changes, merging of sessions |
| `SessionBilling.dfy` | bill, bill cache, counter payments, gateway settlement, vacating |
| `BillSplit.dfy` | equal, by-item and by-user splits |
| `BankReconciliation.dfy` | greedy matching of statement lines with journal entries |
| `Journal.dfy`, `AccountLedger.dfy`, `JournalBuilders.dfy`, `LedgerReports.dfy` | posting, reversal, period locks, account ledger, builders, trial balance, balance sheet |
| `Disputes.dfy` | the dispute machine under repeated and reordered gateway deliveries |
| `EscrowLedger.dfy`, `EscrowZeroOut.dfy` | escrow holds and releases, and the script that retires them |
| `CanonicalQuery.dfy` | the canonical query string of signed requests |
| `InventoryConversion.dfy` | production of semi-finished goods from stock |

Conventions. Tables are maps and sequences held by classes; each method is proved against a function
of the old tables, and runs are folds of those functions. Money is integer paise (ten-thousandths of
a unit in the escrow ledger); only stock quantities and costs are reals. Dates and times are integers
passed in. Identifiers that the database draws are positions or fresh numbers. A transaction is one
step, except in `TableSessions` and `WebhookLease`, where each statement is one, and in
`DineInOrders`, where what a placement or a merge read before its lock is a parameter of its own.

## What the code does differently from what it says

- Canonical query: a comment announces that a plus sign and an escaped space agree; nothing is
  decoded, so they do not (`CanonicalQuery.PlusAndEscapedSpaceDiffer`).
- Webhooks: the service relies on one row per (gateway, event id); the migrated indexes in
  `migrations/047_payment_webhook_events.sql` also contain the arrival, so a replay of a processed event
  is claimed again (`WebhookLease.ReplayOfAProcessedEventIsClaimed`). Fencing and separation hold of
  every row under both, and `WebhookLease.ClaimedAgainIff` says exactly when they hold of the event.
- Table occupancy: `close_session` may free a table under a session that was opened meanwhile
  (`TableSessions.RaceFreesAnOccupiedTable`).
- One active order per session: the active order is read before the session's lock is taken, so two
  placements can open two (`DineInOrders.StaleReadOpensASecondOrder`).
- Orders of closed sessions: the session's status is read before the lock too, so a closed session can still
  get an order
  (`DineInOrders.ClosedSessionStillOrders`).
- Paid before vacating: the check reads the cached bill, and eviction is best effort
  (`SessionBilling.MissedEvictionRun`); the read and the close are separate statements
  (`SessionBilling.PlacementDuringVacateRun`).
- Trial balance and balance sheet: date, branch and reversed filters stand in the ON clause of a left
  join and remove nothing; a reversal upsets the balance sheet
  (`LedgerReports.TrialBalanceIgnoresFilters`, `LedgerReports.ReversedOrderUpsetsTheSheet`).
- Escrow: a hold may be taken in any currency, a release is always in rupees
  (`EscrowLedger.DollarReleaseTakesTheRupees`); a re-run of the zero-out script may strand part of a hold
  (`EscrowZeroOut.LateTransferStrandsTheRefund`); and a full release after the script has debited a refund
  overdraws the hold (`EscrowZeroOut.HundredAndSixtyOfAHundred`).
- Stock: conversions check the branch they name only (`InventoryConversion.MixedViewsOverdraw`).

## Model

| member | source | states |
|---|---|---|
| `WebhookLease.EventTable.constructor` | app/core/webhook_security.py:203-216 | the event table starts empty |
| `WebhookLease.EventTable.Insert` | app/core/webhook_security.py:203-217 | inserts a row in state received under the delivery's token, and fails exactly when the table's index refuses it; both the index the service relies on and the migrated ones are modelled |
| `WebhookLease.EventTable.TakeOver` | app/core/webhook_security.py:217-235 | any one row of the event: identity conflict, duplicate, in progress or claim, decided by hash, state and ten-minute age; only a claim writes, and it renews token and start time |
| `WebhookLease.EventTable.MarkProcessed` | app/core/webhook_security.py:88-106 | writes state and retry count only if the row still carries the caller's token |
| `WebhookLease.EventTable.Register` | app/core/webhook_security.py:203-245 | a whole delivery: an insert that is not refused claims a new row at once; a claim leaves the delivery's own token; every other answer writes nothing; with one row per event a duplicate is answered exactly for a processed row with the same hash |
| `WebhookLease.StepKeepsInv` | app/core/webhook_security.py:88-245 | each statement of each delivery or completion keeps row, claim history and claimants in agreement for every event |
| `WebhookLease.RunKeepsInv` | app/core/webhook_security.py:88-245 | the same for every interleaving |
| `WebhookLease.OnlyTheNewestTokenWrites` | app/core/webhook_security.py:88-106 | under either index and after any interleaving, whoever changes a row holds its newest token; an older claimant's completion changes nothing |
| `WebhookLease.ClaimsAreSeparated` | app/core/webhook_security.py:217-235 | under either index, successive claims of a row have distinct tokens, never follow a processed mark, and are separated by a failed mark or by more than ten minutes; the retry counter counts the failed marks |
| `WebhookLease.ProcessedIsPermanent` | app/core/webhook_security.py:225-231 | a processed row and its claims are frozen against every continuation in which its own claimant does not mark again |
| `WebhookLease.OwnClaimantCanStillRewrite` | app/core/webhook_security.py:88-106 | that condition is exact: one more mark by the row's claimant sets any state |
| `WebhookLease.MarksComeFromTheRun` | app/core/webhook_security.py:88-106 | every effective mark in the history was issued by that claimant in the run |
| `WebhookLease.ProcessedOnceAndForAll` | app/core/webhook_security.py:88-245 | if no claimant marks twice, a processed row stays as it is and gets no further claim, whatever is delivered later |
| `WebhookLease.InsertRefusedIff` | migrations/047_payment_webhook_events.sql:46-58 | for every table: a further delivery is refused under the service's index exactly when the event is known, and under the migrated ones exactly when a row of the event has the same arrival |
| `WebhookLease.NewRowsAreAdmitted` | app/core/webhook_security.py:203-217 | an event gets a new row in a run exactly when the INSERT of one of its deliveries goes through |
| `WebhookLease.ClaimedAgainIff` | app/core/webhook_security.py:203-235 | an event with all rows processed and silent claimants is claimed again exactly when the index lets one of its deliveries through |
| `WebhookLease.OneRowPerEvent` | app/core/webhook_security.py:196-217 | the index the service relies on gives every event one row in every run |
| `WebhookLease.EventClaimsAreSeparated` | app/core/webhook_security.py:217-235 | an event with one row, under either index: all its claims are in that row's list and are separated |
| `WebhookLease.ProcessedEventIsNeverClaimedAgain` | app/core/webhook_security.py:196-235 | with one row per event and no claimant marking twice, a processed event is never claimed again |
| `WebhookLease.EveryReplayIsClaimed` | migrations/047_payment_webhook_events.sql:46-58 | under the migrated indexes no delivery with an arrival of its own is ever refused: each gets a row and a claim |
| `WebhookLease.ReplayOfAProcessedEventIsClaimed` | migrations/047_payment_webhook_events.sql:46-58 | a concrete run: an event is processed, and a replay five seconds later is claimed on a second row |
| `WebhookLease.DoubleMarkReopensAProcessedEvent` | app/core/webhook_security.py:88-106 | from every world with a processed row: its claimant marks once more as failed, and a refused delivery takes the row over |
| `TableSessions.ApplyKeepsInv` | app/services/dinein_session_service.py:122-201 | every statement of a scan, a close, a vacating, an expiry or a rollback keeps the locking invariant |
| `TableSessions.RunKeepsInv` | app/services/dinein_session_service.py:122-201 | the same for every statement-level interleaving |
| `TableSessions.OneActiveSessionPerTable` | app/services/dinein_session_service.py:122-193 | under every interleaving of statements a table has at most one active session, from the probe, lock and recheck alone |
| `TableSessions.OccupancyKeptIff` | app/services/dinein_session_service.py:377-412 | exactly which statement breaks "a table with an active session is marked occupied": a closer that frees the table although its own UPDATE changed no row, while a newer session sits there |
| `TableSessions.OccupiedThroughoutIff` | app/services/dinein_session_service.py:377-412 | over whole interleavings: occupancy holds after every step exactly when no such statement occurs; paid_and_vacate needs no condition |
| `TableSessions.RaceFreesAnOccupiedTable` | app/services/dinein_session_service.py:377-412 | a reachable state, by an explicit interleaving, with an active session on a table marked free |
| `TableSessions.FloorPlan.constructor` | app/services/dinein_session_service.py:122-135 | an empty floor meets both invariants |
| `TableSessions.FloorPlan.ScanQr` | app/services/dinein_session_service.py:122-201 | joins the table's session or opens one, refuses a reserved table, and keeps both invariants |
| `TableSessions.FloorPlan.CloseSession` | app/services/dinein_session_service.py:367-412 | closes an active session and frees its table; refuses a session that is no longer active |
| `TableSessions.FloorPlan.PaidAndVacate` | app/services/dinein_session_service.py:1979-2060 | closes and frees without counting sessions, and still keeps both invariants |
| `TableSessions.FloorPlan.ExpireInactive` | app/services/dinein_session_service.py:455-475 | closes exactly the stale active sessions, returns their number and leaves tables marked |
| `DineInOrders.OrderService.constructor` | app/services/dinein_session_service.py:733-737 | a floor without orders, items, tickets, sessions and links |
| `DineInOrders.OrderService.PlaceOrder` | app/services/dinein_session_service.py:733-1036 | appends to the order that was read if it is still Queued or Preparing and opens a new one otherwise; one ticket for all its items; the cart is emptied; refused if the session was not active when it was read or has no cart |
| `DineInOrders.OrderService.InsertItems` | app/services/dinein_session_service.py:905-966 | one order item per cart line, in order, with its tax snapshot |
| `DineInOrders.OrderService.InsertRows` | app/services/dinein_session_service.py:1018-1026 | one ticket row per new order item |
| `DineInOrders.OrderService.MergeSessions` | app/services/dinein_session_service.py:1144-1308 | the refusals in their order, from the session rows as read before the lock and the order statuses under it; otherwise items, tickets, carts and links move as the statements write them |
| `DineInOrders.OrderService.TransferOrder` | app/services/dinein_session_service.py:1191-1272 | items and tickets change order, the target is recharged from its lines and the source is cancelled |
| `DineInOrders.OrderService.JoinSessions` | app/services/dinein_session_service.py:1274-1308 | cart moves to the target, the source's link becomes linked, the target owns the order unless a link exists |
| `DineInOrders.OrderService.UpdateOrderStatus` | app/core/state_machines.py:76-92 | the verdict of the transition table, and a write only on a legal move |
| `DineInOrders.StepIsSound` | app/services/dinein_session_service.py:905-1026 | every operation keeps references valid and every item on the ticket row made for it |
| `DineInOrders.EveryItemIsOnOneTicket` | app/services/dinein_session_service.py:905-1026 | in every run, stale reads and merges included, each order item is on exactly one kitchen ticket and both name the same order |
| `DineInOrders.StepIsCurrent` | app/services/dinein_session_service.py:807-873 | a placement with a fresh read, a merge and every status change keep "an editable order that a session owns is its active order" |
| `DineInOrders.OneEditableOrder` | app/services/dinein_session_service.py:807-873 | with whole operations as steps, a session never owns two orders in Queued or Preparing |
| `DineInOrders.OneEditableKeptIff` | app/services/dinein_session_service.py:733-825 | for any read, stale or not: exactly when a placement leaves at most one editable order |
| `DineInOrders.StaleReadOpensASecondOrder` | app/services/dinein_session_service.py:733-825 | two placements that both read the session before the lock leave two queued orders |
| `DineInOrders.StaleReadIsReachable` | app/services/dinein_session_service.py:733-825 | a session as that lemma needs it is reached by opening one and filling its cart |
| `DineInOrders.ClosedSessionStillOrders` | app/services/dinein_session_service.py:733-825 | a request that read its session while it was active still opens an order after the session closed |
| `DineInOrders.MergeMovesEverything` | app/services/dinein_session_service.py:1201-1211 | target ends with the disjoint union of items and tickets, source with none, every other order unchanged |
| `DineInOrders.MergeMeaning` | app/services/dinein_session_service.py:1191-1308 | a whole merge: source order empty and cancelled, target order with all items and their total, other orders untouched, both sessions on the target order, carts in the target |
| `DineInOrders.MergeKeepsTotalIff` | app/services/dinein_session_service.py:1213-1266 | the merged total is the lines of both orders plus exclusive tax, and equals the sum of the two stored totals exactly when their roundings cancel |
| `DineInOrders.RunKeepsTotals` | app/services/dinein_session_service.py:796-903 | if no placement is rounded, every order that is not cancelled stores the total of its lines, over every run |
| `OrderStatuses.PathNeverReturns` | app/core/state_machines.py:38-73 | however transitions are requested, progress never falls, and an order that left Queued and Preparing never returns |
| `OrderStatuses.TerminalIffStuck` | app/core/state_machines.py:29-73 | the terminal states are exactly those no request sequence leaves |
| `SessionBilling.SessionAccount.constructor` | app/services/dinein_session_service.py:178-193 | a new session has no orders, payments or cached bill and zero columns |
| `SessionBilling.SessionAccount.GetSessionBill` | app/services/dinein_session_service.py:1449-1650 | a cache hit answers as is; a miss bills orders, or the cart if there are none, and stores columns and cache |
| `SessionBilling.SessionAccount.InvalidateBillCache` | app/services/dinein_session_service.py:2847-2853 | best-effort eviction |
| `SessionBilling.SessionAccount.Place` | app/services/dinein_session_service.py:733-1089 | adds the order's total, empties the cart, evicts the bill; refused without an active session and cart rows |
| `SessionBilling.SessionAccount.WritePayment` | app/services/dinein_session_service.py:1816-1957 | the tail both payment paths share: row, columns, eviction, and vacating once nothing is due |
| `SessionBilling.SessionAccount.RecordSessionPayment` | app/services/dinein_session_service.py:1777-1957 | accepted exactly when the session is active and the amount is positive and within what is due |
| `SessionBilling.SessionAccount.SettleSessionFromGateway` | app/services/dinein_session_service.py:2453-2538 | recorded, capped at what is due, exactly when the reference is new, something is due and the amount is positive |
| `SessionBilling.SessionAccount.PaidAndVacate` | app/services/dinein_session_service.py:1979-2038 | closes an active session unless the bill, possibly cached, shows a remainder and force is off |
| `SessionBilling.StepKeepsInv` | app/services/dinein_session_service.py:1088-1089 | every operation keeps payments within orders, cached remainders from below what is due, and unforced vacating exact, provided a placement's eviction works |
| `SessionBilling.NeverOverpaidAndVacatedMeansPaid` | app/services/dinein_session_service.py:1979-2038 | in every run whose placements evict: payments never exceed order totals and an unforced vacated session is paid exactly, though the check reads through the cache and whatever happens to the payments' evictions |
| `SessionBilling.MissedEvictionClosesUnpaidIff` | app/services/dinein_session_service.py:2847-2853 | exactly when a placement whose eviction fails lets the next unforced vacating close the session unpaid |
| `SessionBilling.MissedEvictionRun` | app/services/dinein_session_service.py:2847-2853 | a concrete run that does so |
| `SessionBilling.PlacementDuringVacateIff` | app/services/dinein_session_service.py:1986-2036 | with a working cache: exactly when a placement between vacating's read and its close leaves the session closed and unpaid |
| `SessionBilling.LateCacheWriteIff` | app/services/dinein_session_service.py:1644-1650 | the same for a bill computed before a placement and cached after it |
| `SessionBilling.PlacementDuringVacateRun` | app/services/dinein_session_service.py:1986-2036 | a reachable session that is closed unpaid in this way |
| `SessionBilling.CachedBillIsFresh` | app/services/dinein_session_service.py:1449-1470 | if every eviction works, a cached bill of a session with orders is the bill a fresh read would compute |
| `SessionBilling.RowsSettle` | app/services/dinein_session_service.py:2453-2530 | for every sequence of deliveries: what is due falls by the counted amounts and never below zero, and known references are tracked |
| `SessionBilling.FinalPaid` | app/services/dinein_session_service.py:2453-2530 | final paid equals the lesser of the grand total and initial paid plus the distinct new receipts |
| `SessionBilling.OrderAndRepetitionDoNotMatter` | app/services/dinein_session_service.py:2453-2530 | histories with the same set of receipts, however repeated and ordered, leave the same amount paid |
| `SessionBilling.RefsRecordedOnce` | app/services/dinein_session_service.py:2472-2479 | deliveries record a reference at most once, and not again if it was known |
| `SessionBilling.DeliverAllWritesRows` | app/services/dinein_session_service.py:2453-2538 | the whole session agrees with the row-level account of deliveries, whatever happens to cache and vacating |
| `SessionBilling.SessionFinalPaid` | app/services/dinein_session_service.py:2453-2538 | the settlement formula for the whole session |
| `BillSplit.HalfEvenIsNearest` | app/services/dinein_session_service.py:1671-1671 | the rounded share is a nearest integer, even on a tie |
| `BillSplit.NearestIsUnique` | app/services/dinein_session_service.py:1671-1671 | and there is only one such integer |
| `BillSplit.EqualShares` | app/services/dinein_session_service.py:1668-1676 | shares sum to the total, all but the first equal the nearest amount, the first is off by at most half a paisa for each part |
| `BillSplit.EqualSplitIsUnique` | app/services/dinein_session_service.py:1668-1676 | that promise determines every share |
| `BillSplit.FirstShareNegativeIff` | app/services/dinein_session_service.py:1673-1675 | exactly when the first share is negative, from quotient and remainder |
| `BillSplit.FirstShareNotNegative` | app/services/dinein_session_service.py:1673-1675 | never, once twice the total is at least n(n-1) |
| `BillSplit.KeptFromRows` | app/services/dinein_session_service.py:1684-1693 | a share is kept exactly for each positive row, with its label or position |
| `BillSplit.KeptTotal` | app/services/dinein_session_service.py:1684-1696 | kept shares are positive, and their total is zero exactly when no row is positive |
| `BillSplit.KeepPositive` | app/services/dinein_session_service.py:1682-1693 | the loop keeps exactly the positive rows and their total |
| `BillSplit.RestFills` | app/services/dinein_session_service.py:1700-1703 | kept shares and the unallocated rest are positive and sum to the grand total |
| `BillSplit.RowShares` | app/services/dinein_session_service.py:1682-1703 | the two errors exactly; otherwise the kept rows followed by the rest, summing to the total |
| `BillSplit.SplitBill` | app/services/dinein_session_service.py:1652-1751 | succeeds exactly on accepted requests, and every success sums to the grand total |
| `BankReconciliation.Score` | app/services/bank_recon_service.py:222-232 | a compatible candidate always scores at least the threshold of 60 and at most 100 |
| `BankReconciliation.Candidates` | app/services/bank_recon_service.py:157-210 | exactly the listed entries that are compatible and not yet reconciled |
| `BankReconciliation.BestIndexIsBest` | app/services/bank_recon_service.py:215-236 | the choice is the earliest candidate of the highest score |
| `BankReconciliation.PickBest` | app/services/bank_recon_service.py:215-236 | the scan finds that candidate, and one whenever the list is not empty |
| `BankReconciliation.GreedyIsSoundAndMaximal` | app/services/bank_recon_service.py:146-264 | the pass links compatible pairs one to one and leaves no unmatched line compatible with an open entry |
| `BankReconciliation.SecondPassMatchesNothing` | app/services/bank_recon_service.py:146-264 | an immediate second pass over what stayed unmatched adds nothing, in any order |
| `BankReconciliation.GreedyIsHalfOptimal` | app/services/bank_recon_service.py:146-264 | the pass matches at least half as many lines as any one-to-one assignment could |
| `BankReconciliation.CoverBound` | app/services/bank_recon_service.py:146-264 | a one-to-one set touched everywhere by m links has at most 2m members |
| `BankReconciliation.ReconciliationService.constructor` | app/services/bank_recon_service.py:146-155 | unmatched lines without links are a valid state |
| `BankReconciliation.ReconciliationService.MatchLine` | app/services/bank_recon_service.py:157-253 | one turn: links the best open candidate if there is one and marks exactly that line |
| `BankReconciliation.ReconciliationService.AutoMatch` | app/services/bank_recon_service.py:146-264 | with any listing order for each query: links, statuses and both counters are those of the greedy pass; matched lines have links and unmatched ones none |
| `BankReconciliation.ReconciliationService.ManualMatch` | app/services/bank_recon_service.py:270-319 | refuses an unknown or matched line and an unknown entry; otherwise links and marks |
| `BankReconciliation.ReconciliationService.Unmatch` | app/services/bank_recon_service.py:321-351 | removes one link; only the last one turns the line back |
| `BankReconciliation.ReconciliationService.Exclude` | app/services/bank_recon_service.py:353-374 | marks the line excluded and keeps its links |
| `Journal.AccountingEngine.constructor` | app/services/accounting_engine.py:134-136 | empty books |
| `Journal.AccountingEngine.CreateJournalEntry` | app/services/accounting_engine.py:174-305 | the checks in order, then found, refused or appended; the line loop's first error and totals decide |
| `Journal.AccountingEngine.ReverseEntry` | app/services/accounting_engine.py:323-393 | the refusals in order; otherwise one swapped entry dated today and the two links |
| `Journal.AccountingEngine.Close` | app/services/accounting_engine.py:1193-1253 | the period ends closed, or stays closed or locked |
| `Journal.AccountingEngine.Reopen` | app/services/accounting_engine.py:1255-1310 | reopens a closed period; unknown and locked ones are refused |
| `Journal.CheckLines` | app/services/accounting_engine.py:187-205 | the first faulty line decides; otherwise the totals of both sides |
| `Journal.ResolveLines` | app/services/accounting_engine.py:241-250 | every code becomes an account, or none does |
| `Journal.Find` | app/services/accounting_engine.py:226-239 | finds an entry with the reference, if there is one |
| `Journal.PostKeepsInv` | app/services/accounting_engine.py:174-267 | posting keeps every entry balanced, references unique and reversal links paired |
| `Journal.ReverseKeepsLinks` | app/services/accounting_engine.py:380-388 | a reversal keeps the links paired |
| `Journal.RunKeepsInv` | app/services/accounting_engine.py:136-393 | the same over every run of postings, reversals and period changes |
| `Journal.ReversalsPairUp` | app/services/accounting_engine.py:323-393 | in every reachable journal a reversed entry has exactly one reversal and the two sum to zero on every account |
| `Journal.NoCycle` | app/services/accounting_engine.py:380-388 | every walk along reversal links goes strictly to older entries, so there is no cycle |
| `Journal.ClosedPeriodIsFrozen` | migrations/022_bank_recon_period_lock_reports.sql:103-126 | until a closed period is reopened by name, no run adds, changes or marks an entry dated in it |
| `Journal.LockedIsForever` | app/services/accounting_engine.py:1276-1282 | a locked period stays locked and frozen whatever is attempted |
| `AccountLedger.SortOrders` | app/services/accounting_service.py:397-415 | the query's order is by date and is a permutation of the rows |
| `AccountLedger.ClosingDependsOnTheEnd` | app/services/accounting_service.py:417-453 | the closing balance is the signed balance up to the end date, wherever the period starts up to its end |
| `AccountLedger.GetLedger` | app/services/accounting_service.py:380-453 | opening balance, running balances over the dated lines, and that closing balance |
| `AccountLedger.RunningBalanceAtDayEnd` | app/services/accounting_service.py:425-441 | after the last line of a day the running balance is the account's balance at the end of that day |
| `AccountLedger.ReversalCancels` | app/services/accounting_engine.py:323-393 | a date covering both entries of a pair, or neither, gives the balance without them; covering one is off by that one |
| `AccountLedger.ReverseMovesBalance` | app/services/accounting_engine.py:323-393 | what the act of reversing does to every balance up to every date |
| `AccountLedger.BalanceIsStanding` | app/services/accounting_engine.py:323-393 | however often entries and reversals were reversed, the balance up to a date that splits no pair, of one restaurant or all, is that of the entries still standing |
| `AccountLedger.ClosingIsStanding` | app/services/accounting_service.py:380-453 | so is the closing balance of every reachable journal, for every restaurant filter |
| `JournalBuilders.PaymentAccount` | app/services/accounting_engine.py:462-469 | the receiving account is never the receivable |
| `JournalBuilders.RecordCall` | app/services/accounting_engine.py:404-517 | a builder call posts its two lines under its own reference; amounts that are not positive post nothing |
| `JournalBuilders.RecordSplitPayment` | app/services/accounting_engine.py:793-847 | parts are posted one by one until one is refused; earlier parts stay |
| `JournalBuilders.RecordUntilRefused` | app/services/accounting_engine.py:815-847 | the loop behind it, with the ids it answers |
| `JournalBuilders.RecordOne` | app/services/accounting_engine.py:174-267 | a call posts exactly when it is acceptable and its reference is new |
| `JournalBuilders.JournalIsFirstAccepted` | app/services/accounting_engine.py:226-267 | for every sequence of calls the journal grows by exactly the first accepted occurrence of each reference, in order |
| `JournalBuilders.ReplayChangesNothing` | app/services/accounting_engine.py:226-239 | delivering any of the calls again, in any order and number, changes nothing |
| `JournalBuilders.ReceivableBalance` | app/services/accounting_engine.py:404-517 | the receivable is orders less payments, split parts and discounts, each reference counted once |
| `JournalBuilders.BuildersKeepInv` | app/services/accounting_engine.py:404-517 | every entry the builders post balances |
| `LedgerReports.JoinNet` | app/services/accounting_engine.py:934-952 | the left join loses no line: debits less credits are the account's whole balance |
| `LedgerReports.JoinIgnoresFilters` | app/services/accounting_engine.py:942-946 | its sums do not depend on the date or branch asked for |
| `LedgerReports.TrialBalanceIgnoresFilters` | app/services/accounting_engine.py:932-954 | neither do the debit and credit columns of the trial balance |
| `LedgerReports.GetTrialBalance` | app/services/accounting_engine.py:932-980 | totals over the active accounts, with a row for every account that has a balance |
| `LedgerReports.TrialBalanceAgreesIff` | app/services/accounting_engine.py:955-980 | the two totals differ by exactly what inactive accounts hold |
| `LedgerReports.TrialBalances` | app/services/accounting_engine.py:955-980 | with every posted account active they agree |
| `LedgerReports.ByAccountIsByLine` | app/services/accounting_engine.py:934-953 | summing by account and summing by line agree |
| `LedgerReports.GetBalanceSheet` | app/services/accounting_engine.py:1005-1095 | assets, liabilities and equity as sums over accounts plus retained earnings |
| `LedgerReports.SheetGap` | app/services/accounting_engine.py:1029-1095 | for every journal, date and branch: the two sides differ by the earnings the inner join dropped less what inactive accounts hold, so the sheet balances exactly when these agree |
| `LedgerReports.SheetBalances` | app/services/accounting_engine.py:1005-1095 | with posted accounts active, nothing reversed, no branch filter and a date after every entry, assets equal liabilities plus equity |
| `LedgerReports.ReversalUpsetsTheSheet` | app/services/accounting_engine.py:1030-1047 | reversing an entry moves the sheet off balance by exactly that entry's earnings |
| `LedgerReports.SaleIsPosted` | app/services/accounting_engine.py:404-434 | the entry an order posts, on a chart with two accounts |
| `LedgerReports.ReversedOrderUpsetsTheSheet` | app/services/accounting_engine.py:1030-1095 | one order, posted by its builder and reversed the next day, leaves the sheet off by its amount |
| `LedgerReports.RunPostsOwn` | app/services/accounting_engine.py:136-393 | what these lemmas need holds in every reachable journal |
| `Disputes.DisputeService.constructor` | app/services/dispute_service.py:137-139 | empty tables |
| `Disputes.KindOf` | app/services/dispute_service.py:546-552 | a gateway phase always maps to a listed kind |
| `Disputes.DisputeService.Open` | app/services/dispute_service.py:139-215 | a listed kind and a positive amount open a dispute and log it; anything else is refused |
| `Disputes.DisputeService.AppendEvent` | app/services/dispute_service.py:107-131 | the log only grows |
| `Disputes.DisputeService.RetryClawback` | app/services/dispute_service.py:375-408 | a pending clawback succeeds at most once |
| `Disputes.DisputeService.ChangeStatus` | app/services/dispute_service.py:221-358 | legal moves only; a first loss posts the debit and starts the clawback |
| `Disputes.DisputeService.UpsertFromGateway` | app/services/dispute_service.py:584-685 | ignores the placeholder merchant and a missing gateway id; otherwise finds or opens the local dispute, stamps the mirror row, and advances it |
| `Disputes.DisputeService.AdvanceTo` | app/services/dispute_service.py:664-685 | the last step: a replay on a lost dispute retries the clawback, a legal target is taken, anything else is left alone |
| `Disputes.StepKeepsInv` | app/services/dispute_service.py:137-685 | every operation keeps status, log, debit and clawback in agreement |
| `Disputes.DebitLogAndClawback` | app/services/dispute_service.py:221-358 | after any run: one debit exactly if lost, the log replays to the status through legal changes, at most one clawback |
| `Disputes.AdvanceFollowsRank` | app/services/dispute_service.py:664-685 | a delivery moves a dispute exactly when it is not terminal and the target ranks higher |
| `Disputes.DeliveriesReachFinal` | app/services/dispute_service.py:584-685 | any sequence of deliveries leaves the reference status and touches no other dispute |
| `Disputes.FirstDeliveryOpensOne` | app/services/dispute_service.py:584-685 | a mirrored gateway dispute gets exactly one local dispute, in the reference status |
| `Disputes.OneLocalDisputeIffMirrored` | app/services/dispute_service.py:554-582 | two first deliveries open one dispute exactly when the mirror row exists |
| `Disputes.FinalMeaning` | app/services/dispute_service.py:40-48 | the reference status is a terminal one exactly if one was delivered, and the highest rank otherwise |
| `Disputes.OrderAndRepetitionDoNotMatter` | app/services/dispute_service.py:584-685 | with agreeing terminal statuses the result depends only on the set of statuses |
| `Disputes.DisagreeingTerminalsDependOnOrder` | app/services/dispute_service.py:40-48 | with disagreeing ones the order decides |
| `EscrowLedger.FindHoldFinds` | app/services/escrow_integration.py:125-145 | settlement finds a hold of the payment |
| `EscrowLedger.EscrowService.constructor` | app/services/escrow_service.py:102-104 | empty ledger |
| `EscrowLedger.EscrowService.PostEntry` | migrations/038_escrow_ledger.sql:250-430 | posting is checked, idempotent on its key, keeps the running balance and a single release per hold |
| `EscrowLedger.EscrowService.HoldForPayment` | app/services/escrow_service.py:276-316 | posts a credit under the payment's key |
| `EscrowLedger.EscrowService.ReleaseHold` | app/services/escrow_service.py:318-350 | posts a debit under the hold's key, in the default currency |
| `EscrowLedger.EscrowService.ReleaseDue` | app/services/escrow_service.py:380-427 | releases each due hold by its credit, counts successes and failures, and fails nowhere in a ledger of holds and full releases |
| `EscrowLedger.EscrowService.ReleaseHoldsForSettlement` | app/services/escrow_integration.py:125-160 | releases the hold of each settled payment with a positive gross amount |
| `EscrowLedger.RunIsSettled` | app/services/escrow_service.py:276-427 | every run of rupee holds, cron and settlement releases keeps balances, holds, keys and links in agreement |
| `EscrowLedger.RunIsAccounted` | app/services/escrow_service.py:276-427 | with holds in any currency: every balance of every run, up to what releases debited in the wrong currency |
| `EscrowLedger.AgreesIffNoForeignRelease` | app/services/escrow_service.py:318-350 | balances agree with what is outstanding exactly when no hold in another currency was released |
| `EscrowLedger.HeldBalanceIsOpenHoldsIff` | app/services/escrow_service.py:437-476 | in every run no balance is negative, and all equal the sums of unreleased holds exactly when no hold that is not in rupees was released |
| `EscrowLedger.HeldBalanceIsOpenHolds` | app/services/escrow_service.py:437-476 | in every run that takes rupee holds the held balance is the sum of unreleased holds and never negative |
| `EscrowLedger.PostKeepsSingleRelease` | app/services/escrow_service.py:331-337 | no request whatsoever can release a hold twice |
| `EscrowLedger.HoldsAreReleasedAtMostOnce` | app/services/escrow_service.py:318-427 | in every run a hold has at most one release entry |
| `EscrowLedger.ReleaseSucceeds` | app/services/escrow_service.py:318-427 | a full release of a hold is never refused there |
| `EscrowLedger.ReleaseTwiceIsOnce` | app/services/escrow_service.py:331-337 | in every ledger, repeating a full release changes nothing |
| `EscrowLedger.ReleaseAgreesIffRupees` | app/services/escrow_service.py:318-350 | a release keeps balances in agreement exactly when the hold was taken in rupees |
| `EscrowLedger.FullReleaseIsWithinCreditIff` | app/services/escrow_service.py:380-427 | a full release stays within the credit exactly when nothing was debited before |
| `EscrowLedger.DollarReleaseTakesTheRupees` | app/services/escrow_service.py:318-350 | a run: releasing a dollar hold empties the rupee balance while a rupee hold is open |
| `EscrowZeroOut.DebitRefunds` | scripts/escrow_zero_out.py:75-102 | one capped debit for each refund; a dry run writes nothing |
| `EscrowZeroOut.ZeroOutHold` | scripts/escrow_zero_out.py:73-140 | refunds first, then the rest of a releasable hold |
| `EscrowZeroOut.ZeroOut` | scripts/escrow_zero_out.py:72-140 | the run over all open holds, with the number of releases and the holds left open; a dry run writes nothing |
| `EscrowZeroOut.RemainingIsPure` | scripts/escrow_zero_out.py:74-102 | what is left after the refunds does not depend on what the ledger had posted before |
| `EscrowZeroOut.HoldIsProcessed` | scripts/escrow_zero_out.py:73-139 | one hold: nothing raises, nothing is overdrawn, no other hold moves, and what stays outstanding is what was counted twice |
| `EscrowZeroOut.ZeroedIff` | scripts/escrow_zero_out.py:73-139 | exactly when one run zeroes a releasable hold, from the rows it fetches |
| `EscrowZeroOut.FreshHoldIsZeroed` | scripts/escrow_zero_out.py:73-139 | without earlier debits refund debits plus release equal the credit |
| `EscrowZeroOut.LateTransferStrandsTheRefund` | scripts/escrow_zero_out.py:73-139 | two runs around a late transfer leave part of the hold stranded |
| `EscrowZeroOut.RunIsSound` | scripts/escrow_zero_out.py:72-140 | one run keeps every hold within its credit and balances in agreement |
| `EscrowZeroOut.NeverOverdrawn` | scripts/escrow_zero_out.py:72-140 | over any number of runs debits never exceed a hold's credit |
| `EscrowZeroOut.ServiceLedgerIsSoundIff` | app/services/escrow_service.py:276-427 | a ledger reached by the service is one the script may start from exactly when no hold in another currency was released |
| `EscrowZeroOut.ReleaseAfterRefundOverdraws` | app/services/escrow_service.py:380-427 | a full release after the script debited a refund overdraws the hold by that refund |
| `EscrowZeroOut.HundredAndSixtyOfAHundred` | app/services/escrow_service.py:380-427 | such a run: a hundred and sixty debited against a hold of a hundred |
| `EscrowZeroOut.NeverOverdrawnIff` | scripts/escrow_zero_out.py:72-140 | over every run of holds, full releases and script runs: no hold ends overdrawn exactly when every posted release found its hold without debits |
| `EscrowZeroOut.ProcessKeepsOwned` | scripts/escrow_zero_out.py:77-101 | refund keys keep belonging to debits of their own payment |
| `EscrowZeroOut.ServiceKeepsOwned` | app/services/escrow_service.py:276-427 | and they do in every ledger the service reaches |
| `CanonicalQuery.QuoteIsInjective` | app/middleware/request_security.py:117-119 | percent-encoding is injective |
| `CanonicalQuery.QuoteIsClean` | app/middleware/request_security.py:117-119 | encoded text holds no separator |
| `CanonicalQuery.PrintParses` | app/middleware/request_security.py:121-121 | the printed form parses back to the pairs |
| `CanonicalQuery.SortSorts` | app/middleware/request_security.py:120-120 | the sort orders and permutes |
| `CanonicalQuery.SortedIsUnique` | app/middleware/request_security.py:120-120 | a multiset of pairs has one sorted listing |
| `CanonicalQuery.CanonicalReadsBack` | app/middleware/request_security.py:105-121 | the canonical form reads back as the sorted encoded pairs |
| `CanonicalQuery.CanonicalIffSamePairs` | app/middleware/request_security.py:105-121 | two queries have the same canonical form exactly when they hold the same multiset of pairs |
| `CanonicalQuery.PlusAndEscapedSpaceDiffer` | app/middleware/request_security.py:105-121 | nothing is decoded first: a plus sign and an escaped space stay different |
| `CanonicalQuery.CanonicalQuery` | app/middleware/request_security.py:105-121 | the loop computes the canonical form |
| `InventoryConversion.YieldOf` | app/services/inventory_conversion_service.py:126-126 | a missing or zero yield counts as one, so scaling never divides by zero |
| `InventoryConversion.ScalingIsLinear` | app/services/inventory_conversion_service.py:132-143 | recipe consumption adds up over quantities and is the listed one plus waste at the recipe's yield |
| `InventoryConversion.HasDistinctInputs` | app/services/inventory_conversion_service.py:183-184 | detects repeated inputs exactly |
| `InventoryConversion.Stock.constructor` | app/services/inventory_conversion_service.py:154-166 | an empty stock ledger |
| `InventoryConversion.Stock.Convert` | app/services/inventory_conversion_service.py:154-267 | succeeds exactly on acceptable inputs, appends one row per input and one for the output, and conserves value: produced times unit cost is the cost of the inputs; a refusal names the first failed check and writes nothing |
| `InventoryConversion.Stock.CheckLines` | app/services/inventory_conversion_service.py:192-196 | the fault of the first faulty input, or none exactly when every input exists and is positive |
| `InventoryConversion.ValidIffNoFault` | app/services/inventory_conversion_service.py:192-196 | the inputs are valid exactly when no line is at fault |
| `InventoryConversion.Stock.PriceInStock` | app/services/inventory_conversion_service.py:198-215 | the cost of the inputs, or a refusal exactly when one is short and that is not allowed |
| `InventoryConversion.Stock.Consume` | app/services/inventory_conversion_service.py:232-247 | one outgoing row per input |
| `InventoryConversion.AfterBalance` | app/services/inventory_conversion_service.py:232-267 | what a conversion does to every balance from every branch's view |
| `InventoryConversion.StrictConversionKeepsStock` | app/services/inventory_conversion_service.py:198-267 | no ingredient goes negative in the view that was checked, not even between the conversion's own rows |
| `InventoryConversion.RunKeepsStock` | app/services/inventory_conversion_service.py:154-267 | nor over any run of strict conversions |
| `InventoryConversion.TotalDeficitIff` | app/services/inventory_conversion_service.py:198-210 | exactly when a strict branch conversion drives the balance over all branches negative |
| `InventoryConversion.MixedViewsOverdraw` | app/services/inventory_conversion_service.py:198-210 | a run with and without a branch that does so |
| `InventoryConversion.BatchesLeaveTheSameStock` | app/services/inventory_conversion_service.py:132-143 | one large batch and two smaller ones leave the same balances everywhere |
| `InventoryConversion.BatchingDoesNotMatter` | app/services/inventory_conversion_service.py:113-210 | a quantity can be produced in one batch exactly when it can in two, unless the recipe consumes its output |

## Left out

- HTTP, signatures, nonces, rate limits, Redis and gateway clients: a gateway is any sequence of deliveries, the cache a value that may lapse at any time.
- The tax engine: per-line taxes and the charge of a placement are parameters; `DineInOrders.RunKeepsTotals` states its condition on them.
- Wall clocks, time zones, float conversion, JSON and the 28-digit precision of decimal division: exact integers and reals instead.
- Waitlist seating: a reserved table is a parameter of `TableSessions.FloorPlan.ScanQr`.
- Sessions opened at `app/services/table_service.py:476` for a legacy visit: that path takes no table lock and relies on the partial unique index of `migrations/012_dinein_session_engine.sql:100`, which `TableSessions` does without.
- Merging in the payment machine: a merge leaves the source's total on its bill, so it has a machine of its own in `DineInOrders`; it needs two active sessions at one table, which `TableSessions.OneActiveSessionPerTable` excludes for sessions opened by scanning.
- DineInOrders.OneEditableOrder: holds for whole operations; what a merge with stale reads does to it is not stated, the exact condition is given for placements only.
- SessionBilling.SessionAccount.Place: assumes a charge that is not negative, and takes which order it adds to as a parameter.
- Request-id idempotency of placements, device binding, join PINs, cart editing beyond its total, and events: plumbing around the modelled steps.
- Runs of interleaved statements in `SessionBilling`: the two races around a bill read are stated step by step; two first gateway deliveries of one dispute do not interleave in `Disputes`.
- BankReconciliation.ReconciliationService.AutoMatch: texts are held lower-cased, because case folding is not modelled.
- CanonicalQuery.CanonicalQuery: works on UTF-8 bytes, so unpaired surrogates, which the encoder rejects, do not occur.
- Journal.AccountingEngine.CreateJournalEntry: amounts are already whole paise, and the parameters that mark an entry as a reversal are not modelled, because no caller passes them.
- Other builders (refunds, goods receipts, expenses, chargebacks, settlements), the income statement and cash flow: easy or of the same kind as those modelled; two equal partial refunds of one payment share a reference and collapse to one.
- EscrowLedger.RunIsSettled: for runs that take rupee holds; `EscrowLedger.HeldBalanceIsOpenHoldsIff` covers every currency.
- EscrowZeroOut.NeverOverdrawnIff: holds are in rupees, each script run's rows are those its own query would return, and nothing interleaves with a script run.
- Ledger fees, recovery fees and the reversal of transfer fees around disputes and escrow: not part of this model.
- InventoryConversion.Stock.Convert: deduplication keys are not modelled, because each holds a fresh conversion id; batch tracking and the mirrored stock column are left out.
- Daily closing, tax filing, dashboards, exports, audit writers, access control and menus: linear workflows or plain reads and writes.
