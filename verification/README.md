# Verified model of the billing core

A Dafny model of the parts of a point-of-sale backend that must not go wrong when requests are repeated, workers
crash and transactions race: the transactional outbox, the sale command, the ICV reservation of a branch's EGS chain,
the keyset-paged bill list, the arithmetic of bill lines and the enforcement of stock. `dafny verify dfyconfig.toml`
checks all of it.

## How it is laid out

| file | part of the system |
|---|---|
| `Options`, `Ordering` | the Option type, and ordered reads with a limit (ORDER BY, LIMIT) |
| `BillList`, `BillWalk` | one page of the bill list, and a client's walk over its pages |
| `LineTotals`, `Stock` | generated columns and totals, the check-and-deduct loop and its reversal |
| `DocumentKeys` | the document key and its injectivity |
| `EgsChain` | book, release and commit of an ICV reservation |
| `ErrorText` | the cut that makes the text of a failure fit its column |
| `OutboxProtocol`, `OutboxInvariant`, `OutboxSteps` | the outbox as a state machine, and its invariant |
| `OutboxTheorems`, `OutboxHandover`, `OutboxCounts`, `OutboxClaim`, `OutboxTightness` | what follows: safety, what the publisher was handed, counts over runs, claims under interleaving, and runs that reach the bounds |
| `Drainer` | DrainOnce, claim, recordFailure and backoff as imperative code over that machine |
| `SaleTypes`, `SaleProtocol`, `SaleInvariant`, `SaleSteps`, `SaleCommit`, `SaleTheorems`, `SaleStock`, `SaleDrafts`, `SaleRace` | the sale command as a state machine over concurrent transactions |
| `SaleStrays`, `SaleOrphans` | what failed reads of stock leave over every run, and runs that show it |
| `SaleLocks`, `SaleWaits` | who waits for whom, without and with the lock of a duplicate-key check |
| `SaleMoves`, `SaleCommand` | saveSale, writeSale and what they call, and DeleteBillDetail, as imperative code over that machine |
| `EndToEnd` | sales and drainers over one outbox table |

Both protocols are machines whose `Step` is total: an action that its actor is not at, or that a lock would block,
leaves the world as it is. A run is therefore any sequence of actions, and every theorem about runs is about every
interleaving, with crashes and rollbacks at any point. The imperative code performs its steps on an object that holds
the world, and `Others` puts any number of other actors' steps before each of its statements that reads or writes what
others share. Once a sale has taken stock, or a deletion has put it back, these steps leave alone the rows it has locked
(`SaleCommand.SaleDb.OthersAround`, `SaleCommand.SaleDb.OthersAroundDraft`).
A counter on that object says how many database errors and lock timeouts there were, so a contract can say what happens
without them.

## Assumptions

- Event ids, invoice UUIDs and reservation tokens are fresh when drawn. The fingerprint is injective on the content
  of a request, so the content stands for it. The cursor codec is injective, so a token is the value it encodes.
- Live drainers have distinct owners and one MaxAttempts. Times are whole seconds, each drainer on its own clock.
- A transaction's plain reads see the snapshot of its first non-locking read. A locking read, and a write to a unique
  key, wait for an uncommitted holder and then see the latest committed row. A lock wait may end in a timeout.
- SKIP LOCKED may also skip rows for reasons the model does not see: a claim takes a set of skipped rows.
- The EGS chain reservation is run by an external daemon, which is not part of this model. Its contract test is the
  only executable statement of the protocol in this repository, and that statement is what `EgsChain` models.
- Statements that SaleProtocol puts into the commit of a sale read nothing that another transaction can still change: the
  bill row, the counter, the request key and the product rows are locked by then. For the product rows and the outbox this
  is used and proved where `FinishSale` lets others act between those statements.
- A database error may come at any statement. That of a COMMIT, of a mark or of a recorded failure may come when the server has
  already done it and its answer is lost.
- A locked read of stock may fail in two ways. A lock wait that times out ends that statement alone. The victim of a deadlock has
  lost its transaction: the server has dropped it, each later statement commits by itself, and the COMMIT of nothing succeeds.
  AUTO_INCREMENT gives the id of a dropped bill row to no other.
- "Accepted" says that Publish returned no error. A publish that arrived and whose acknowledgement was lost counts as refused and
  is sent again, so a subscriber can see an event more often than it was accepted.
- Amounts of a request are decimals of any precision. A statement computes with them exactly, and a column rounds what it
  stores to its own scale, halves away from zero.

## What the model shows about the code

Where the code and its own comments disagree, the model follows the code.

- The checks of a final sale look at the sign of a price and a quantity, and not at their decimals, which the columns round.
  So a checked sale can be refused by the line table: a price of 0.004, a quantity of 0.0004, and a price of zero, are
  stored as zero (`SaleTheorems.CheckedSaleCanBeUnstorable`, with the exact condition in `SaleTheorems.SaleIsStorableIff`).
- Warn mode can sell more than there is, but of a line that it reads only by less than half a thousandth: with one article in stock, 1.0004 of it is
  sold with the X-Stock-Warning header, and enforce mode refuses it (`SaleDrafts.WarnModeSellsMoreThanThereIs`; exactly
  when in `SaleTheorems.SaleCommitsWithAWarningIff`). A product that is short by more fails the `quantity >= 0` check of the
  product table, so for quantities of at most three decimals warn mode is enforce mode (`Stock.WarnModeIsEnforceMode`).
- The check-and-deduct loop is an aggregate check only for such quantities: 0.4996 and 0.5004 of one article in stock are
  refused (`Stock.CoveredSaleCanBeRefused`; exactly when in `Stock.LoopSucceedsIff`).
- A product and its ledger part by 0.001 for each sold line whose quantity lies halfway between two thousandths, and but for
  sales that have lost their transaction for no other reason (`SaleStock.StockMatchesLedgerIff`, with the input 0.0005 in
  `Stock.LedgerCanPart`).
- Deleting a draft adds stock back that the draft never deducted (`SaleDrafts.SaveThenDeleteKeepsStockIff`).
- A deleted draft (state -1) can be submitted: it becomes final, or with state 0 an open draft again
  (`SaleDrafts.DeletedDraftComesBack`; exactly when in `SaleDrafts.DeletedDraftLeavesIff`).
- `attempt_count` can pass MaxAttempts, because an expired lease is reclaimed without a look at it. Only such a reclaim does it
  (`OutboxCounts.PassesLimitIff`, `OutboxCounts.PastTheLimitIff`), and it has no bound: for every n a run reaches
  MaxAttempts + n (`OutboxTightness.BoundsAreReached`).
- A cursor of another sort is refused only when the request names a sort of its own
  (`BillList.MismatchedCursorIsRefusedIff`), where the comment on the cursor's sort field says it is rejected.
- One document can take two ICVs: nothing in the reservation asks whether the document has committed
  (`EgsChain.DocumentCanTakeTwoIcvs`). To ask it before each booking is enough over every run, and nothing less is
  (`EgsChain.OneIcvPerDocumentIff`, `EgsChain.GateKeepsOneIcvIff`).
- A sale's stock movements carry no reference id, although the comment beside the insert says they can be traced by it.
- The stock loop takes every error of its locked read for an unknown product, and goes on. No unknown product comes that far,
  because the foreign key of the line table has refused it before, so what is passed over is a known product whose read failed
  (`SaleTheorems.LineIsSkippedIffUnread`). After a timeout the sale commits: in enforce mode, with nothing in stock, a sale of one
  line is final and takes nothing (`SaleOrphans.UnreadSaleTakesNothing`). Ledger and bills agree on what was sold if and only if
  no such read failed (`SaleStock.SalesMatchTheBillsIff`).
- After a deadlock at that read the sale goes on without its transaction: it is adrift. From a new tenant, an unpaid sale of one
  line is then answered with a bill that does not exist, its retry makes a second one
  (`SaleOrphans.SwallowedDeadlockOrphansASale`), and the message of the first reaches the publisher (`EndToEnd.OrphanIsPublished`).
  A draft can be reported twice, with two contents (`SaleOrphans.TwoMessagesOfOneDocument`). Over every run
  - outbox and bills agree if and only if no sale adrift has appended its event (`SaleStrays.ReportedOnceIff`,
    `EndToEnd.SalesAndRowsAgreeIff`),
  - new sales are answered truly if and only if none was answered adrift (`SaleStrays.NewSalesAreAnsweredTrulyIff`), and their
    answers agree if and only if no such one shares its key with another (`SaleStrays.AnswersAgreeIff`),
  - the payments of a final bill change exactly when a sale of it as a draft clears or adds them adrift
    (`SaleStrays.FinalPaymentsChangeIff`),
  - and none of it happens while no read loses its transaction (`SaleStrays.WithoutALossThereAreNoStrays`).
- Three final sales of one request key in three branches can deadlock in their duplicate-key checks when the first rolls back
  (`SaleWaits.ThreeBranchesDeadlock`). Copies of one request are of one branch and cannot (`SaleWaits.CopiesDoNotDeadlock`).

## Model

| member | source | states |
|---|---|---|
| `BillList.EffectiveLimit` | pkg/pagination/listquery.go:47-59 | a page always has a limit between 1 and the maximum; a limit in that range is taken as it is, else a page size in it, and neither gives the default |
| `BillList.SeekIsTheListOrder` | pkg/db/queries/bill.sql:35-39 | the seek conditions of both union branches together select exactly the rows after the cursor in the order of the list |
| `BillList.BranchesAreDisjoint` | pkg/db/queries/bill.sql:40-53 | the two branches of the union never return the same key, so UNION ALL duplicates nothing |
| `BillList.CursorRoundTrip` | pkg/handlers/list_helpers.go:238-249 | the cursor that a returned row mints decodes to that row's key |
| `BillList.MismatchedCursorIsRefusedIff` | pkg/pagination/listquery.go:81-105 | a cursor minted under another sort is refused if and only if the request names a non-empty, non-canonical sort |
| `BillList.BadRequestIff` | pkg/handlers/bill.go:93-130 | a list request is refused if and only if its limit is above the maximum, its cursor cannot be read, or the cursor is of another sort and the request names one of its own |
| `BillWalk.FetchedKeys` | pkg/db/queries/bill.sql:74-75 | the query returns the first rows after the cursor, in order |
| `BillWalk.PageHasNoOtherBill` | pkg/db/queries/bill.sql:19-75 | no page of any request holds a row whose bill is not in the table, is deleted, fails the filter, has another date, or has no credit note where the row is one |
| `BillWalk.EnvelopeOfRows` | pkg/pagination/listquery.go:157-185 | has_more says exactly whether rows remain, and next_cursor names the last row kept |
| `BillWalk.PageOfWalk` | pkg/handlers/bill.go:93-183 | a request of a walk is served the next rows after its cursor and is led to a request that continues there |
| `BillWalk.ReturnedAscends` | pkg/pagination/cursor.go:7-15 | however the table changes between pages, a walk returns strictly ascending keys |
| `BillWalk.NoKeyIsReturnedTwice` | pkg/pagination/cursor.go:7-15 | no (effective_date, id, is_credit) key is returned twice, whatever happens to the table between pages |
| `BillWalk.SteadyRowIsReturned` | pkg/db/queries/bill.sql:35-39 | a row that stays in the list under one key through a completed walk is returned |
| `BillWalk.SteadyRowIsReturnedOnce` | pkg/db/queries/bill.sql:69-73 | a completed walk from the start returns such a row exactly once |
| `BillWalk.PageCountStep` | pkg/pagination/listquery.go:146-148 | a full page leaves one page fewer: the recurrence of max(1, ceil(n / limit)) |
| `BillWalk.WalkOfFixedTable` | pkg/handlers/bill.go:147-182 | from any cursor of a walk, on a table that does not change, the pages are the sorted rest, in the fewest pages |
| `BillWalk.WalkIsTheSortedList` | pkg/db/queries/bill.sql:5-75 | on a table that does not change, a walk completes after max(1, ceil(n / limit)) pages and its pages are the sorted union |
| `BillWalk.WalkHasNoOtherBill` | pkg/db/queries/bill.sql:19-75 | however the table changes, each row of a walk is of a bill that was on the list when its page was read |
| `BillWalk.WalkIsNewestFirst` | pkg/db/queries/bill.sql:74 | however the table changes, the rows of a walk come newest first, and of one date by id and then is_credit, both falling |
| `BillWalk.SteadyBillIsReturnedOnce` | pkg/db/queries/bill.sql:5-75 | a completed walk returns a bill that stays listed under one date once as itself, and once more as its credit note exactly when it has one |
| `BillWalk.OtherBillIsNotReturned` | pkg/db/queries/bill.sql:22-56 | a bill that is deleted, fails the filter or is not there on every page is not returned |
| `BillWalk.FixedWalkReturnsTheBills` | pkg/db/queries/bill.sql:5-75 | on a table that does not change, a completed walk returns each bill with state >= 0 that passes the filter once, a second time exactly when it has a credit note, and no other bill |
| `LineTotals.NearestIsStored` | pkg/db/goose/00001_baseline.sql:419-428 | a column keeps the nearest unit of an amount, halves away from zero, and that unit is the only one |
| `LineTotals.StoredExactlyIff` | pkg/handlers/bill_sale.go:199-209 | an amount is stored as it is if and only if it has no more decimals than its column |
| `LineTotals.AmountIsPriceTimesQuantity` | pkg/db/goose/00001_baseline.sql:425 | the amount of a line is price times quantity to the nearest hundredth, halves away from zero, and n articles cost exactly n times their price |
| `LineTotals.OneLineOfVat` | pkg/db/goose/00001_baseline.sql:427 | the VAT of one line is 15% of its amount to within half a hundredth |
| `LineTotals.TotalsAgree` | pkg/db/queries/bill.sql:168-175 | for any lines: total = before VAT + VAT and before VAT = sum before discount - discount exactly, and VAT is 15% to within n * 0.005 |
| `LineTotals.TotalsOfTheColumns` | pkg/db/queries/bill.sql:168-175 | for any lines: before VAT is the sum of price times quantity less the discounts to within n * 0.005, and the total 115% of that to within n * 0.01075 |
| `LineTotals.TotalsAddUp` | pkg/db/queries/bill.sql:168-175 | the totals of two lists of lines together are the sums of their totals |
| `LineTotals.TotalsBoundIsReached` | pkg/db/goose/00001_baseline.sql:427 | that bound is met with equality for every number of lines |
| `Stock.LoopSucceedsIff` | pkg/handlers/stock.go:126-175 | for quantities of any precision the loop succeeds if and only if each line of a known product fits what the lines before it leave: as asked in enforce mode, as rounded in warn mode |
| `Stock.LoopEqualsAggregateCheck` | pkg/handlers/stock.go:126-175 | for quantities of at most three decimals the loop succeeds if and only if each known product covers the total asked of it, repeats included |
| `Stock.CoveredSaleCanBeRefused` | pkg/handlers/stock.go:141-148 | for finer ones it need not: 0.4996 and 0.5004 of one article in stock are refused |
| `Stock.MovementIsTakenOrOneMore` | pkg/handlers/stock.go:156-172 | product and movement round one line apart by 0.001 exactly when its quantity lies halfway between two thousandths |
| `Stock.DeductionIsRecorded` | pkg/handlers/stock.go:156-172 | a product loses what the lines take of it and nothing goes below zero; the recorded movements say 0.001 more for each line that lies halfway |
| `Stock.LedgerAgreesIff` | pkg/handlers/stock.go:156-172 | the change of a quantity is the sum of its movements if and only if no line of it lies halfway |
| `Stock.LedgerCanPart` | pkg/db/queries/stock.sql:67-70 | selling 0.0005 of ten leaves ten and records -0.001 |
| `Stock.DeductionIsItsProducts` | pkg/handlers/stock.go:135-136 | the loop depends on the rows of its own products alone, and changes no other |
| `Stock.WarnModeAgainstEnforceMode` | pkg/handlers/stock.go:141-154 | warn mode sells what enforce mode sells in the same way without a warning; what enforce mode refuses it refuses too, or sells with a warning |
| `Stock.SaleWarnsIff` | pkg/handlers/stock.go:141-154 | a sale is stored with a warning if and only if every line fits once rounded and some line does not fit as asked |
| `Stock.WarnModeIsEnforceMode` | pkg/db/goose/00001_baseline.sql:1303 | for quantities of at most three decimals warn mode is enforce mode |
| `Stock.WarnModeCanOversell` | pkg/db/goose/00001_baseline.sql:1294-1303 | for finer ones it is not: 1.0004 of one article is sold with a warning, and enforce mode refuses it |
| `Stock.EveryLineIsMoved` | pkg/handlers/stock.go:161-172 | a loop over known products, as far as their reads succeed, records one movement for each catalog line, in their order |
| `Stock.RestoreIsRecorded` | pkg/handlers/stock.go:186-219 | a reversal of known products always succeeds, adds what the lines hold and records it |
| `Stock.DraftDeletionKeepsStockIff` | pkg/handlers/stock.go:178-219 | a reversal leaves the shelf as it was if and only if enforcement is off or there is no catalog line |
| `Stock.StockTables.UpdateProductQuantity` | pkg/db/queries/stock.sql:67-70 | a quantity moves by the delta and is rounded to three decimals, unless that is below zero |
| `Stock.StockTables.InsertStockMovement` | pkg/db/queries/stock.sql:9-14 | a movement is appended, rounded to three decimals, when its product exists |
| `Stock.StockTables.SearchQuantityByID` | pkg/db/queries/product.sql:51-52 | the locked read gives the quantity or no row, unless it fails, as the victim of a deadlock or otherwise |
| `Stock.StockTables.SellLine` | pkg/handlers/stock.go:126-173 | one turn of the loop: a manual line, an unknown product and a failed read change nothing, a short line stops an enforce sale, any other is taken and recorded |
| `Stock.StockTables.RecordSaleMovements` | pkg/handlers/stock.go:115-176 | the loop over the tables does what the specification does with the lines that could be read, and names those that could not and the one whose read lost the transaction |
| `Stock.StockTables.ReverseSaleMovements` | pkg/handlers/stock.go:186-219 | the reversal loop leaves the specification's shelf and movements |
| `DocumentKeys.DecimalRoundTrip` | pkg/identity/documentkey.go:51-53 | a formatted id reads back as itself and holds no separator |
| `DocumentKeys.SplitIsUnique` | pkg/identity/documentkey.go:22-32 | a separator that is in neither head splits a key in one way only |
| `DocumentKeys.DocumentKeyIsInjective` | pkg/identity/documentkey.go:34-55 | two valid documents with one key are the same document |
| `DocumentKeys.DocumentKeyForm` | pkg/identity/documentkey.go:22-55 | which parts have no key: a tenant key that is empty, too long or holds a colon, a zero id, another type; and the key of acme, branch 7, bill 42 |
| `EgsChain.StepKeepsInv` | pkg/db/goose/00005_egs_chain_reservation.sql:13-16 | every booking, release and commit keeps the chain linear, the columns all-or-none and the held number next |
| `EgsChain.ChainSafety` | pkg/db/goose/egs_chain_reservation_test.go:158-234 | over every run, committed ICVs are consecutive, each invoice chains to the one before it, and a live reservation holds last_icv + 1 |
| `EgsChain.FencedForEver` | pkg/db/goose/egs_chain_reservation_test.go:181-186 | a token that lost the row never gets it back |
| `EgsChain.FencedWorkerIsPowerless` | pkg/db/goose/egs_chain_reservation_test.go:202-234 | a worker whose booking was taken over can never again commit or release, under any document and ICV |
| `EgsChain.GrantFencesTheOthers` | pkg/db/goose/egs_chain_reservation_test.go:181-186 | any change of the row fences every token issued before it |
| `EgsChain.LiveReservationIsStable` | pkg/db/goose/egs_chain_reservation_test.go:173-180 | while a lease runs, only its holder's release or commit changes the row |
| `EgsChain.ExpiredLeaseIsTakenOver` | pkg/db/goose/egs_chain_reservation_test.go:75-86 | over every run, once a lease has ended any document books the row under a fresh token with the same ICV and hash, its commit is accepted, and the token before it never commits or releases again |
| `EgsChain.BookAnswersOnTheColumns` | pkg/db/goose/egs_chain_reservation_test.go:158-187 | busy if and only if another document holds a lease that ends later, kept if and only if the same one does, booked otherwise, with last_icv + 1 |
| `EgsChain.RedeliveryOwnsNothing` | pkg/db/goose/egs_chain_reservation_test.go:177-179 | a redelivered booking is answered without error and changes nothing, and over every later run its token commits and releases nothing unless it books again |
| `EgsChain.OneIcvPerDocumentIff` | pkg/db/goose/egs_chain_reservation_test.go:173-234 | over every run, with takeovers, expiries, redeliveries and stale commits, each document has one ICV if and only if no commit is under a token that was granted to a document already committed |
| `EgsChain.GateKeepsOneIcvIff` | pkg/db/goose/egs_chain_reservation_test.go:173-187 | whatever workers ask before they book, all their runs keep one ICV per document if and only if it never lets a committed document be granted another booking |
| `EgsChain.DocumentCanTakeTwoIcvs` | pkg/db/goose/egs_chain_reservation_test.go:158-234 | from any free chain a run gives one document two ICVs |
| `EgsChain.Reservation.BookReservation` | pkg/db/goose/egs_chain_reservation_test.go:158-187 | booking in place takes the step of the chain's machine; on the columns it is contended, busy, kept or booked, the first three leave the row, and the last takes it whole |
| `EgsChain.Reservation.ReleaseReservation` | pkg/db/goose/egs_chain_reservation_test.go:202-217 | a release changes one row exactly when token and document match, and then clears only the reservation |
| `EgsChain.Reservation.CommitReservation` | pkg/db/goose/egs_chain_reservation_test.go:219-234 | a commit changes one row exactly when token, document and ICV match, and then moves last_icv by one and sets the hash |
| `OutboxSteps.StepKeepsInv` | pkg/db/queries/outbox.sql:5-56 | every statement, publish and crash keeps the leases, attempts, times, delivery chances and open claims consistent |
| `OutboxTheorems.AcceptedAtMostOncePlusReclaims` | pkg/outbox/outbox.go:93-188 | in every run an event is accepted at most once more than its expired lease was reclaimed |
| `OutboxTheorems.AttemptsAreBounded` | pkg/outbox/outbox.go:172-188 | the attempt count is the number of claims and at most MaxAttempts plus reclaims; pending is below and dead_letter is at or above MaxAttempts |
| `OutboxTheorems.WithoutReclaimsItEnds` | pkg/outbox/outbox.go:169-188 | without a reclaim an event is claimed at most MaxAttempts times, and after the last one it is published or dead-lettered unless still in flight |
| `OutboxCounts.CompletedTurnsEndIt` | pkg/outbox/outbox.go:93-124 | in every run each claim of a row was completed, reclaimed or is in flight; at most MaxAttempts turns are completed, and that many have published or dead-lettered it |
| `OutboxCounts.PassesLimitIff` | pkg/db/queries/outbox.sql:16-29 | in every reachable state a step takes a row past MaxAttempts if and only if it leases one that has had MaxAttempts attempts, and that row was in flight |
| `OutboxCounts.PastTheLimitIff` | pkg/outbox/outbox.go:141-157 | over every run a row is past MaxAttempts if and only if such a lease was made, and by exactly the number of those leases, each of them a reclaim |
| `OutboxTheorems.RecordingSettles` | pkg/db/queries/outbox.sql:31-56 | a holder that records its result takes the row out of flight: published, pending or dead_letter as the attempt count says |
| `OutboxTheorems.DeadLetterNeedsEveryWait` | pkg/outbox/outbox.go:172-188 | without a reclaim a dead-lettered event had exactly MaxAttempts attempts, the last no sooner than the sum of all waits after it was due |
| `OutboxTheorems.WaitsClosedForm` | pkg/outbox/outbox.go:190-197 | that sum in closed form: 2^n - 1 seconds up to nine waits, then 300 more for each |
| `OutboxTheorems.LeasesAndClaimsAreExclusive` | pkg/outbox/outbox.go:126-129 | a lease owner and an expiry are set if and only if the row is in flight, and open claims share no row |
| `OutboxTheorems.StepKeepsRows` | pkg/db/queries/outbox.sql:31-56 | no step removes a row or changes its event, and published and dead_letter rows never change |
| `OutboxTheorems.RunKeepsRows` | pkg/db/queries/outbox.sql:31-56 | the same over every run |
| `OutboxTheorems.NoSilentLoss` | pkg/outbox/outbox.go:86-92 | an appended event is always claimable now or after its lease, accepted at least once, or given up after MaxAttempts; a row to be retried or given up says why, in a text that fits its column |
| `OutboxTheorems.RunKeepsHanded` | pkg/outbox/outbox.go:104-111 | whatever is handed to the publisher is the event of a row |
| `OutboxHandover.AcceptedEventsWereHanded` | pkg/outbox/outbox.go:103-112 | over every run the publisher was handed the event of a row at least as often as it accepted it and at most as often as the row was claimed, so the event of a published row was handed over |
| `OutboxTheorems.StepsOnTheColumns` | pkg/db/queries/outbox.sql:5-56 | what each step does to a row on its columns: append, lease, mark, retry after min(2^n, 300) seconds or dead letter, each under its guard, and nothing else changes |
| `OutboxClaim.OthersLeaveMyRows` | pkg/outbox/outbox.go:126-129 | over any run of others, no row that an open claim has listed is changed |
| `OutboxClaim.DueListIsTheFirst` | pkg/db/queries/outbox.sql:9-14 | the list holds unlocked pending rows that are due, by next_attempt_at and then id; one that is not listed comes after all that are, and the limit is reached |
| `OutboxClaim.ExpiredListIsTheFirst` | pkg/db/queries/outbox.sql:16-21 | the same for rows in flight whose lease has ended, by lease_expires_at and then id |
| `OutboxClaim.BatchIsFullOrAll` | pkg/outbox/outbox.go:137-148 | a claim leaves a due or an expired row out of its batch only when that is full |
| `OutboxClaim.ClaimTakesTheLists` | pkg/outbox/outbox.go:130-167 | with any steps of others between its statements, a claim's batch is the first due rows of the state at its first statement and the first expired rows of the state at its second, up to BatchSize; none of them changes before the lease, and exactly they are leased, each once |
| `OutboxTightness.BoundsAreReached` | pkg/outbox/outbox.go:86-92 | for every n there is a run with n reclaims, n + 1 acceptances and MaxAttempts + n attempts, so both bounds are exact |
| `ErrorText.Truncate` | pkg/outbox/outbox.go:199-208 | the loop cuts a text at the last place up to n bytes where a rune can begin |
| `ErrorText.WholeRunesStay` | pkg/outbox/outbox.go:199-208 | a text in UTF-8 loses whole characters from its end, and no more of them than it must to fit |
| `Drainer.BackoffSeconds` | pkg/outbox/outbox.go:190-197 | the doubling loop computes min(2^(attempts-1), 300) seconds without leaving an int64 of nanoseconds |
| `Drainer.Database.MarkOutboxRetry` | pkg/db/queries/outbox.sql:41-48 | the guarded retry of one row with its error, as the drainer's next step, or no step; after an error either may be |
| `Drainer.Database.MarkOutboxDeadLetter` | pkg/db/queries/outbox.sql:50-56 | the guarded dead letter of one row with its error, as the drainer's next step, or no step; after an error either may be |
| `Drainer.Worker.ListForClaim` | pkg/outbox/outbox.go:137-148 | the events are the due list of the state at the first statement and then the expired list of the state at the second, at most BatchSize, each once, with other actors acting before both |
| `Drainer.Worker.Claim` | pkg/outbox/outbox.go:130-167 | a claim that succeeds has leased exactly the rows of its two lists, with its own time, batch size and lease; one that fails holds nothing, though its rows may be leased |
| `Drainer.Worker.Publish` | pkg/outbox/outbox.go:104-111 | exactly the event of the next row of the batch goes to the publisher, whoever owns the row by now, and the row is then sent or failed |
| `Drainer.Worker.RecordFailureOf` | pkg/outbox/outbox.go:169-188 | a refused publish leaves the row as the attempt count says, with the error cut to 1024 bytes, if the drainer still owns it; or a database error ends the drain, with that done or nothing |
| `Drainer.Worker.PublishNext` | pkg/outbox/outbox.go:104-112 | one turn of the loop hands over the event of the next row and no other and, exactly after a refusal, records it |
| `Drainer.Worker.HandleBatch` | pkg/outbox/outbox.go:103-112 | the loop hands over the events of the batch in order, each once, all of them unless the database fails it |
| `Drainer.Worker.MarkSent` | pkg/outbox/outbox.go:113-123 | the batch mark publishes the rows that were accepted and are still owned, ends the drain, and with nothing sent cannot fail; when it fails it has done so or nothing |
| `Drainer.Worker.DrainOnce` | pkg/outbox/outbox.go:93-124 | a configured drainer ends without an error if and only if the database did not fail it; then its steps are exactly one claim, one publish for each event of its batch with the failure recorded after each refusal, and the mark, and it returns the number of acceptances; what it hands over is, in order, the events of its batch, and after an error the first of them |
| `SaleCommit.StepKeepsInv` | pkg/handlers/bill_sale.go:106-145 | every step of every transaction keeps bills, unique keys, numbers, events, payments, stock, locks and answers consistent, and touches no final bill |
| `SaleTheorems.SaleIsIdempotent` | pkg/handlers/bill_sale.go:104-145 | every copy of a final request that is answered by its own transaction or from the record names the one bill with its request key, which holds its content; one number, at most one deduction and one payment, and one event beside those of sales adrift |
| `SaleTheorems.RequestKeyIsUsedOnce` | pkg/handlers/bill_sale.go:104-145 | answered or not, in every run a request key is on at most one bill, final, with the content of a request sent under it, one number, at most one deduction and one payment, and one event beside those of sales adrift |
| `SaleTheorems.RetryIsAnsweredFromTheRecord` | pkg/handlers/bill_sale.go:108-116 | a retry whose first copy committed and was not answered gets that bill if and only if it has its content, and a conflict otherwise |
| `SaleTheorems.AnswersAgree` | pkg/handlers/bill_sale.go:340-352 | two answers under one request key, given by transactions or from the record, name one bill, for one content |
| `SaleTheorems.FinalIsAllOrNothing` | pkg/handlers/sale.go:39-60 | a bill is final if and only if it has its identity and if and only if it has a number; it has one outbox row for being final and one for each event that a sale of it appended adrift |
| `SaleTheorems.FinalIsAbsorbing` | pkg/handlers/bill_sale.go:256-304 | a final bill's fields, number, lines, totals and the payment it was committed with never change again |
| `SaleTheorems.NumbersHaveNoGaps` | pkg/db/queries/sequence.sql:1-4 | each of 1 to last_value is the number of exactly one final bill of the branch, and no other number is |
| `SaleTheorems.NumberKeyNeverCollides` | pkg/handlers/sale.go:71-90 | the number a sale was given is always free in its branch's series |
| `SaleTheorems.PaymentsMatch` | pkg/handlers/bill_sale.go:211-254 | amount_paid is what was sent; a bill is committed with one payment exactly when it is positive, for that amount, within the total of its lines, and the table holds that unless a sale adrift has replaced it |
| `SaleTheorems.LostRaceFindsTheWinner` | pkg/handlers/bill_sale.go:306-318 | a sale that lost its request key finds the winner: a new sale with its content is replayed, anything else is a conflict |
| `SaleTheorems.NeverAlreadyRecorded` | pkg/handlers/bill_sale.go:316 | the answer for a winner that cannot be found is given in no run |
| `SaleStock.StockMatchesLedgerIff` | pkg/handlers/stock.go:156-172 | over every run a product's quantity has changed by the sum of its movements and what sales adrift have parted if and only if no deducting final bill took a line of it that lies halfway; it is never negative |
| `SaleTheorems.LinesOfASale` | pkg/handlers/sale.go:105-124 | the stored lines hold the stock of the catalog lines alone, and cost catalog, manual and maintenance together, each as its column stores it |
| `SaleTheorems.LinesOnTheRequest` | pkg/handlers/sale.go:105-124 | the lines of a sale are its catalog lines, its manual lines without a product and a positive maintenance cost, in that order, each amount as its column stores it |
| `SaleTheorems.RestoreUndoesDeduct` | pkg/handlers/stock.go:178-219 | restoring the stored lines of a sale cancels its deduction in the ledger, and on the shelf but for 0.001 for each line that lies halfway |
| `SaleTheorems.SaleIsStorableIff` | pkg/db/goose/00001_baseline.sql:433-435 | a sale can be stored if and only if every price is at least half a hundredth, every quantity at least half a thousandth, a positive maintenance cost at least half a hundredth, and its catalog products exist |
| `SaleTheorems.CheckedSaleCanBeUnstorable` | pkg/handlers/bill_sale.go:176-195 | a price of 0.004 and a quantity of 0.0004 pass the checks and are refused by the table |
| `SaleTheorems.FinalSaleIsCheckedIff` | pkg/handlers/bill_sale.go:176-195 | a final sale passes its checks if and only if it stores a line and each catalog and manual line has a positive quantity and a price that is not negative; a maintenance cost alone is enough |
| `SaleTheorems.LineIsSkippedIffUnread` | pkg/handlers/stock.go:134-140 | in a sale that can be stored the loop passes over a catalog line if and only if its read failed |
| `SaleTheorems.CommitIsRefusedIff` | pkg/handlers/bill_sale.go:154-174 | a sale whose bill row is written is refused if and only if a line cannot be stored, the payment is above the total, a line that was read does not fit what those before it leave of its product, or the event cannot be built or appended |
| `SaleTheorems.SaleCommitsWithAWarningIff` | pkg/handlers/sale.go:126-139 | a sale commits with the warning header if and only if it is final in warn mode, some line that was read does not fit as asked, and nothing refuses it |
| `SaleStock.SalesMatchTheBillsIff` | pkg/handlers/sale.go:126-139 | over every run the ledger's sold amount of a product is what the lines of the final bills that deducted it hold, each counted once, less what was not read, and what sales adrift recorded; but for those, both agree if and only if no read of a line of it failed |
| `SaleRace.RaceEndsInOneSale` | pkg/handlers/bill_sale.go:129-138 | the race is reachable: two copies of any storable unpaid sale run so that one loses its key, and both are answered with the only bill |
| `SaleLocks.WaitingClimbs` | pkg/handlers/bill_sale.go:118-138 | who holds a lock is further along than who waits for it |
| `SaleWaits.CyclicIff` | pkg/db/goose/00002_bill_identity.sql:12 | with the shared lock of duplicate-key checks, in every state transactions wait for each other in a cycle, of any length, if and only if two sales share one request key |
| `SaleWaits.SomeoneCanProceed` | pkg/handlers/bill_sale.go:118-138 | otherwise, while a transaction is open, some open transaction is not waiting |
| `SaleWaits.SharersAreOfTwoBranches` | pkg/handlers/sale.go:71-90 | over every run two sales that share a request key are of two branches |
| `SaleWaits.CopiesDoNotDeadlock` | pkg/handlers/bill_sale.go:118-138 | over every run in which each request key is sent for one branch, transactions never wait for each other in a cycle |
| `SaleWaits.ThreeBranchesDeadlock` | pkg/handlers/bill_sale.go:367-396 | from a new tenant, any three new final sales of one request key in three branches have a run after which two of them wait for each other |
| `SaleStrays.ReportedOnceIff` | pkg/db/goose/00004_transactional_outbox.sql:2-6 | over every run each outbox row reports a final bill and each final bill has one row if and only if no sale adrift has appended its event |
| `SaleStrays.RowsOfOneDocument` | pkg/identity/documentkey.go:34-37 | over every run two rows have one document key if and only if their bill and branch are the same, and two rows of one bill are of a draft of which a sale went adrift |
| `SaleStrays.AdriftAnswersNameNoBill` | pkg/handlers/bill_sale.go:154-174 | a new sale adrift that is answered is answered with the id of no bill, then and after every later run |
| `SaleStrays.NewSalesAreAnsweredTrulyIff` | pkg/handlers/bill_sale.go:104-145 | over every run the answers to new sales name the bills that hold them if and only if no new sale was answered adrift |
| `SaleStrays.AnswersAgreeIff` | pkg/handlers/bill_sale.go:340-352 | over every run all answers to new sales, those given adrift among them, name one bill for each request key if and only if no sale was answered adrift whose key another answered sale has |
| `SaleStrays.FinalPaymentsChangeIff` | pkg/handlers/bill_sale.go:211-254 | in every reachable state a step changes the payments of a final bill if and only if a sale of it as a draft, adrift, removes or adds them |
| `SaleStrays.WithoutALossThereAreNoStrays` | pkg/handlers/stock.go:134-140 | a run in which no read of stock loses its transaction has no row, payment or stock that a sale adrift has written, and no such answer |
| `SaleOrphans.UnreadSaleTakesNothing` | pkg/handlers/stock.go:134-140 | in enforce mode a sale of one line whose read fails is final, and takes and records nothing, whatever is in stock |
| `SaleOrphans.SwallowedDeadlockOrphansASale` | pkg/handlers/stock.go:134-140 | from a new tenant any unpaid sale of one line has a run that answers it with a bill that does not exist and leaves its row in the outbox, and its retry is answered with another bill |
| `SaleOrphans.TwoMessagesOfOneDocument` | pkg/handlers/stock.go:134-140 | two submits of one draft have a run that leaves two rows of one document with two contents |
| `SaleLocks.BlockedIsStandingStill` | pkg/db/queries/bill.sql:190-191 | a lock statement does nothing exactly while another transaction holds its lock |
| `SaleDrafts.DeletedDraftLeavesIff` | pkg/handlers/bill_sale.go:280-288 | in every reachable state a step takes a bill out of state -1 if and only if it commits a submit of it with another state that nothing refuses, and then to the state that was sent |
| `SaleDrafts.DeletedDraftStaysIff` | pkg/handlers/bill_sale.go:280-288 | over every run from a reachable state a deleted draft stays deleted if and only if no step is such a commit |
| `SaleDrafts.DeletedDraftComesBack` | pkg/handlers/bill_sale.go:44-61 | save, delete, submit is a run from every quiet state, and ends with the draft final or, for state 0, open again |
| `SaleDrafts.NewTenantCanSaveDraft` | pkg/handlers/bill_sale.go:44-61 | a new tenant is such a state, for every unpaid sale whose lines can be stored |
| `SaleDrafts.MaintenanceAloneIsSaved` | pkg/handlers/bill_sale.go:183 | from a new tenant, in every mode, a paid sale of a maintenance cost alone is saved: final, with one line, its totals, its payment and number 1 |
| `SaleDrafts.DraftMovesNoStock` | pkg/handlers/sale.go:130-131 | at no commit of any run does a sale that is not final move stock |
| `SaleDrafts.SaveThenDeleteKeepsStockIff` | pkg/handlers/bill.go:591-599 | saving a draft and deleting it leaves the stock as it was if and only if enforcement is off or the draft has no catalog line; otherwise its lines are added and recorded |
| `SaleDrafts.WarnModeSellsMoreThanThereIs` | pkg/handlers/sale.go:178-181 | a run in which 1.0004 of one article in stock is sold with a warning |
| `SaleDrafts.EnforceModeDoesNot` | pkg/handlers/stock.go:142-148 | the same run in enforce mode writes nothing |
| `SaleCommand.SaleDb.Others` | pkg/handlers/sale.go:71-73 | whatever other transactions do, they leave an open transaction's stage, the final bills and the products in place |
| `SaleCommand.SaleDb.OthersAround` | pkg/handlers/stock.go:135-136 | around a sale that has taken stock, they leave the quantities of its products as they are as well |
| `SaleCommand.SaleDb.OthersAroundDraft` | pkg/handlers/bill.go:574-599 | around a deletion that has put stock back, they leave its draft and the quantities of its products as they are |
| `SaleCommand.RequestRecord` | pkg/handlers/bill_sale.go:320-338 | finds the bill that carries the request key exactly when the sale is final and one does |
| `SaleCommand.AnswerRecordedRequest` | pkg/handlers/bill_sale.go:340-352 | a recorded request is answered with the recorded bill if and only if that bill holds the sale, and with a conflict if and only if the key is on a bill that does not |
| `SaleCommand.CheckFinalSale` | pkg/handlers/bill_sale.go:176-195 | a final sale is refused exactly for having no line, or for its first line with a quantity that is not positive or a negative price, which the answer names |
| `SaleCommand.OpenSaleBill` | pkg/handlers/bill_sale.go:256-289 | a new row, or the locked draft with whether it is final; not found only for a missing draft |
| `SaleCommand.AnswerFinalDraft` | pkg/handlers/bill_sale.go:291-304 | the answer is true of the committed database: replay, conflict, or already final |
| `SaleCommand.AnswerLostRace` | pkg/handlers/bill_sale.go:306-318 | the answer is a replay of the winner or a conflict with it, never that it cannot be found |
| `SaleCommand.NumberSale` | pkg/handlers/bill_sale.go:354-365 | a final sale takes last_value + 1 and holds the counter; a draft takes none |
| `SaleCommand.UpdateSaleBill` | pkg/handlers/bill_sale.go:367-396 | the update takes the request key or finds it recorded |
| `SaleCommand.DropManualIds` | pkg/handlers/sale.go:108-111 | every manual line loses its product id, in place, and nothing else changes |
| `SaleCommand.LinesOfSale` | pkg/handlers/sale.go:105-124 | the lines of a sale in order |
| `SaleCommand.AddProducts` | pkg/handlers/bill.go:196-215 | all lines are stored, or the call fails because one cannot be |
| `SaleCommand.RecordSalePayment` | pkg/handlers/bill_sale.go:211-254 | a draft's old payment is replaced, a payment above the total is refused |
| `SaleCommand.RecordSaleStock` | pkg/handlers/sale.go:126-139 | a final sale deducts what the specification deducts of the lines that were read and a draft nothing; a success warns if and only if the mode is warn and enforce mode would have refused those lines; a deadlock at a read is told apart |
| `SaleCommand.QueueSaleEvent` | pkg/handlers/sale.go:141-152 | a final sale adds one row, with its own document key, identity, content and new event id, to the rows there are, a draft none; it fails exactly for a row that cannot be built or appended |
| `SaleCommand.CommitSale` | pkg/handlers/bill_sale.go:169-172 | what the transaction wrote, and only that, becomes the database beside what others committed meanwhile, with a true answer |
| `SaleCommand.WriteLines` | pkg/handlers/bill_sale.go:156-163 | a draft's old lines go, all lines of the sale are stored or the call fails, and the totals are refreshed |
| `SaleCommand.TakeStockAndQueue` | pkg/handlers/sale.go:165-184 | with others acting in between, stock and event of a sale are taken as specified, or it has a reason to be refused, or it is where a deadlock drops its transaction; each failed read is counted |
| `SaleCommand.TakeStrayStock` | pkg/handlers/stock.go:126-173 | a turn of the loop after that: the same turn, outside any transaction |
| `SaleCommand.QueueStrayEvent` | pkg/handlers/sale.go:141-152 | the event of such a sale is in the outbox at once and for good, unless it cannot be built or appended |
| `SaleCommand.FinishAdrift` | pkg/handlers/bill_sale.go:154-174 | such a sale ends with an error, or with an answer that misleads: its row is in the outbox, and the bill of a new sale does not exist |
| `SaleCommand.FinishSale` | pkg/handlers/bill_sale.go:154-174 | lines, totals, stock, event and payment commit together or not at all, unless a read of stock loses the transaction; without another database error than failed reads it fails only for one of the stated reasons, and a success has had no other |
| `SaleCommand.WriteSale` | pkg/handlers/bill_sale.go:104-145 | with other transactions between its statements, every answer is true of the committed database, unless a read of stock lost the transaction; without another database error or timeout a sale fails only for one of the stated reasons |
| `SaleCommand.SaveSale` | pkg/handlers/bill_sale.go:71-102 | a request is checked if and only if, on its own columns, its payment is whole and not negative and a final one has a point of sale, a line and no bad line; a refusal says which fact it has and writes nothing; otherwise the answer is true unless a read of stock lost the transaction, the sale has ended, and a failure has a stated reason, or another database error or timeout than failed reads of stock |
| `SaleCommand.OpenDraft` | pkg/handlers/bill.go:574-589 | the row lock and the guard: missing, final and already deleted bills are refused |
| `SaleCommand.CommitDeletion` | pkg/handlers/bill.go:602-624 | the draft's state, the restored stock and its movements commit together or not at all; when the answer is an error they may have |
| `SaleCommand.ReverseAndDelete` | pkg/handlers/bill.go:590-624 | with others acting between reversal and commit, the draft is deleted with its lines put back on what is then in stock |
| `SaleCommand.DeleteBillDetail` | pkg/handlers/bill.go:554-625 | a bill is deleted only as the last step of the run and from state 0: no other bill changes and its lines are put back and recorded; a missing or final bill is refused and the answer says which, and nothing else but a database error or a timeout makes it fail |
| `EndToEnd.EveryMessageIsACommittedSale` | pkg/handlers/sale.go:141-152 | every message handed to the publisher is the event of a row, and that of a committed final sale, with its key, content, UUID, tenant, branch, subject and document key, unless a sale adrift has appended the row |
| `EndToEnd.SalesAndRowsAgreeIff` | pkg/db/goose/00004_transactional_outbox.sql:2-6 | over every run of sales and drainers each row is the message of a committed final sale and each such sale has its one row if and only if no sale adrift has appended a row |
| `EndToEnd.OrphanIsPublished` | pkg/handlers/stock.go:134-140 | from a new tenant, the message of a sale whose deadlock was swallowed is published and accepted, and there is no bill |
| `EndToEnd.EverySaleIsReportedOnce` | pkg/handlers/pub.go:119-156 | a final bill has exactly one row beside those of sales adrift, still claimable, accepted or given up, and accepted at most once plus reclaims; when the row is published its event was handed over; another bill has none but those, and a bill that is not there at most one |
| `EndToEnd.DocumentKeysAreUnique` | pkg/identity/documentkey.go:34-37 | two outbox rows have the same document key if and only if their bill and branch are the same, and then one of them is of a sale of a draft that went adrift |
| `EndToEnd.MessagesOfADocumentAgree` | pkg/handlers/pub.go:119-121 | two messages about one document are the same message, down to the event id, or one of them is of a sale of its draft that went adrift |
| `EndToEnd.EachSideRunsItsProtocol` | pkg/outbox/outbox.go:52-53 | a run of sales and drainers together is, seen from either side, a run of that protocol alone |
| `EndToEnd.StepKeepsInv` | pkg/outbox/outbox.go:52-69 | every step of a sale or a drainer keeps the rows that sales write and the rows that drainers read the same |

## Left out

- HTTP, gin, JSON, sessions, store and branch access checks, NATS, the publisher's transport and the OTP onboarding.
- `ValidatePosID` and `ValidateBillRequestID`: only that a final sale has a point of sale is kept of the shape checks.
- The SHA-256 fingerprint, its version number, and the base64 JSON of cursors: taken as injective.
- DECIMAL overflow, the floating-point arithmetic a server may use for a delta sent as text, and the rounding of DATETIME columns.
- `published_at` and the payload's JSON text.
- Gap locks: only row, counter and key locks are modelled.
- Who waits for whom at product rows when stock enforcement is on: a locked read of stock may fail as the victim of a deadlock at any time, and no theorem says when.
- The other writers of stock: purchase bills, manual adjustments, credit notes and product edits.
- Branch deletion with its cascades, migrations, and restores of the counter.
- Fairness: a claim prefers pending rows, so nothing is promised to expired rows under constant load, and no theorem says that a drainer runs.
- Backing-array sharing of the `append` in saleProducts: lines are values here, and only the loop that clears ids works in place.
- The store filter, the text search and the other columns of the bill list: one arbitrary predicate stands for the filters.
- Other paged lists, and the product list, whose in-memory stock filter runs before the envelope is built.
- Purchase bills, credit notes, cash vouchers, orders, settings, dashboards, PDFs, WhatsApp messages and the supplier ledger.
- OutboxTheorems.WithoutReclaimsItEnds: says that a claimed event ends unless it stays in flight, and not that its holder ever records the result; what each recorded result does to it is `OutboxCounts.CompletedTurnsEndIt`.
- SaleWaits.CyclicIff: with stock enforcement on, a transaction may also wait for a product row.
- SaleWaits.SomeoneCanProceed: the same.
- SaleWaits.CopiesDoNotDeadlock: the same.
- SaleLocks.BlockedIsStandingStill: with stock enforcement on, a transaction in its commit may also wait for a product row.
