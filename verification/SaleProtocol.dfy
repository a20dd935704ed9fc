/**
 The sale command as a state machine over concurrent transactions.

 A transaction's own writes are seen by others only when it commits, so they appear here at Commit. What
 others do see before that are its locks: the row of the bill it opened, its branch's counter, and the
 request key it wrote. A statement that would wait for a lock leaves the world as it is. The first plain
 read of a transaction fixes its snapshot, so a new sale's check of its request id can be stale by the
 time it writes; a draft's row is locked, and read, in its latest committed version. Any transaction may
 stop at any point (Abort), and a committed sale's answer may be lost (Commit with delivered false).

 Stock is checked and deducted in the commit step: the product rows stay locked from their check to the
 commit, so their values are the committed ones. A locked read of stock that fails is passed over. When it is
 the victim of a deadlock the server has dropped the whole transaction, and the sale goes on without one: it is
 adrift, it holds no lock, and each of its later statements commits by itself.
 */
module SaleProtocol {
  import opened Options
  import opened LineTotals
  import opened Stock
  import opened SaleTypes

  type TxId = nat
  type RowId = nat

  // ---------------------------------------------------------------- the committed database

  /** A bill with its lines and payments. content stands for the columns that UpdateBillByID copies. */
  datatype Bill = Bill(
    state: int, content: Content, number: Option<nat>, ident: Option<Identity>,
    lines: seq<Line>, totals: Totals, amountPaid: Money, payments: seq<Money>)

  /** A number of a branch's bill series: the columns of uq_bill_branch_seq. */
  datatype Slot = Slot(branchId: BranchId, number: nat)

  /** A line that a sale adrift took from the shelf, and whether its movement was recorded. */
  datatype StrayLine = StrayLine(product: nat, quantity: Amount, recorded: bool)

  /**
   What sales adrift have written, each statement by itself: outbox rows, the payments they replaced, and stock. ids
   are those that the rows of new sales had when they were dropped: AUTO_INCREMENT never gives them again.
   */
  datatype Strays = Strays(ids: set<BillId>, outbox: map<RowId, Event>, payments: map<BillId, seq<Money>>, lines: seq<StrayLine>)

  const NO_STRAYS := Strays({}, map[], map[], [])

  /**
   byRequest and byNumber are the unique keys uq_bill_pos_request and uq_bill_branch_seq. bills and outbox hold what
   transactions have written; the tables are these with the strays (Outbox, PaymentsOf). deductions records which bills
   have deducted stock, and unread which of their lines were not read, which no table does.
   */
  datatype Db = Db(
    bills: map<BillId, Bill>, byRequest: map<Key, BillId>, byNumber: map<Slot, BillId>,
    counters: map<BranchId, nat>, shelf: Shelf, movements: seq<Movement>,
    outbox: map<RowId, Event>, deductions: multiset<BillId>, unread: map<BillId, set<nat>>, strays: Strays)

  /** The outbox table. */
  function Outbox(db: Db): map<RowId, Event> { db.outbox + db.strays.outbox }

  /** The rows of bill_payment for a bill. */
  function PaymentsOf(db: Db, id: BillId): seq<Money>
    requires id in db.bills
  {
    if id in db.strays.payments then db.strays.payments[id] else db.bills[id].payments
  }

  /** branch_sequence.last_value: a branch without a row has issued no number. */
  function LastValue(db: Db, branchId: BranchId): nat {
    if branchId in db.counters then db.counters[branchId] else 0
  }

  // ---------------------------------------------------------------- transactions

  datatype Reply = Saved(bill: BillId) | Deleted | NotFound | AlreadyFinal | RequestConflict | AlreadyRecorded | Failed

  /**
   How far a transaction is. Checked found no record of its request. Opened holds its bill's row. Numbered
   holds the branch counter too, when the sale is final, and Updated its request key. LostRace has rolled
   back because the key was taken. A sale adrift has left of its stock loop these lines, then its event, then the
   removal of a draft's payments, then its own payment.
   */
  datatype Stage =
    | Begun
    | Checked
    | Opened(bill: BillId)
    | FinalDraft(bill: BillId)
    | Numbered(bill: BillId, number: Option<nat>)
    | Updated(bill: BillId, number: Option<nat>)
    | LostRace
    | Adrift(bill: BillId, mode: Mode, left: seq<Item>)
    | AdriftQueued(bill: BillId)
    | AdriftCleared(bill: BillId)
    | Done(reply: Reply)

  /** A sale, new (no draft) or of a draft, or the deletion of a draft. */
  datatype Tx =
    | SaleTx(request: Request, draft: Option<BillId>, invoiceUuid: string, stage: Stage)
    | DeleteTx(draft: Option<BillId>, stage: Stage)

  function IdentOf(tx: Tx): Option<Identity>
    requires tx.SaleTx?
  {
    FinalSaleIdentity(tx.request, tx.invoiceUuid)
  }

  datatype Answer = Answer(request: Request, draft: Option<BillId>, bill: BillId)

  /** answers are the bill ids that sale requests were answered with, and adrift those that sales adrift were. */
  datatype World = World(tenant: Tenant, db: Db, txs: map<TxId, Tx>, answers: seq<Answer>, adrift: seq<Answer>)

  predicate HoldsRow(tx: Tx, id: BillId) {
    (tx.stage.Opened? || tx.stage.FinalDraft? || tx.stage.Numbered? || tx.stage.Updated?) && tx.stage.bill == id
  }

  predicate HoldsCounter(tx: Tx, branchId: BranchId) {
    tx.SaleTx? && (tx.stage.Numbered? || tx.stage.Updated?) && tx.stage.number.Some? && tx.request.content.branchId == branchId
  }

  predicate HoldsKey(tx: Tx, key: Key) {
    tx.SaleTx? && tx.stage.Updated? && tx.request.content.state > 0 && tx.request.key == key
  }

  predicate RowHeld(w: World, t: TxId, id: BillId) { exists o | o in w.txs :: o != t && HoldsRow(w.txs[o], id) }

  predicate CounterHeld(w: World, t: TxId, branchId: BranchId) {
    exists o | o in w.txs :: o != t && HoldsCounter(w.txs[o], branchId)
  }

  predicate KeyHeld(w: World, t: TxId, key: Key) { exists o | o in w.txs :: o != t && HoldsKey(w.txs[o], key) }

  // ---------------------------------------------------------------- the writes of a sale

  /** CreateBill: a row with only the columns that have no value yet. */
  function CreatedBill(r: Request): Bill {
    Bill(0, r.content.(state := 0), None, None, [], Totals(0, 0, 0, 0), 0, [])
  }

  /** UpdateBillByID. */
  function UpdatedBill(b: Bill, r: Request, number: Option<nat>, ident: Option<Identity>): Bill {
    b.(state := r.content.state, content := r.content, number := number, ident := ident,
        amountPaid := Stored(r.content.paidAmount))
  }

  /** DeleteProductToBill for a draft, then AddProductToBill for each line, then RefreshBillTotals. */
  function LinedBill(b: Bill, r: Request, draft: bool): Bill {
    var cleared := if draft then b.(lines := []) else b;
    var added := cleared.(lines := cleared.lines + SaleLines(r.content));
    added.(totals := RefreshedTotals(added.lines))
  }

  /** recordSalePayment: None is the refusal of a payment above the total. */
  function PaidBill(b: Bill, r: Request, draft: bool): Option<Bill> {
    var cleared := if draft then b.(payments := []) else b;
    if r.content.paidAmount <= 0.0 then Some(cleared)
    else if r.content.paidAmount > cleared.totals.total as real then None
    else Some(cleared.(payments := cleared.payments + [Stored(r.content.paidAmount)]))
  }

  /** recordSaleStock: a draft deducts nothing, and a line that is not read is passed over. */
  function SaleDeduction(db: Db, c: Content, mode: Mode, unread: set<nat>): Deduction {
    if c.state <= 0 then Deducted(db.shelf, [], []) else Deduct(db.shelf, Without(c.products, unread), mode)
  }

  /** A new row id, and an event id that no row has. */
  predicate FreshEvent(db: Db, rowId: RowId, eventId: string) {
    && rowId !in db.outbox && rowId !in db.strays.outbox
    && (forall i | i in db.outbox :: db.outbox[i].eventId != eventId)
    && (forall i | i in db.strays.outbox :: db.strays.outbox[i].eventId != eventId)
  }

  /** queueSaleEvent: None is an error, and a draft writes no row. */
  function QueuedEvent(tenant: Tenant, db: Db, id: BillId, c: Content, ident: Option<Identity>, rowId: RowId, eventId: string)
    : Option<map<RowId, Event>>
  {
    if ident.None? then Some(db.outbox)
    else
      match BillEvent(tenant, id, c.branchId, ident.value, eventId)
      case None => None
      case Some(e) => if FreshEvent(db, rowId, eventId) then Some(db.outbox[rowId := e]) else None
  }

  /** The bill that a sale in stage Updated leaves, when nothing after its update is refused. */
  function FinishedBill(db: Db, tx: Tx): Option<Bill>
    requires tx.SaleTx? && tx.stage.Updated?
  {
    var draft := tx.draft.Some?;
    var base := if tx.stage.bill in db.bills then db.bills[tx.stage.bill] else CreatedBill(tx.request);
    PaidBill(LinedBill(UpdatedBill(base, tx.request, tx.stage.number, IdentOf(tx)), tx.request, draft), tx.request, draft)
  }

  /** The database after the commit of a sale in stage Updated. None is a refusal by finishSale. */
  function Committed(tenant: Tenant, db: Db, tx: Tx, mode: Mode, unread: set<nat>, rowId: RowId, eventId: string): Option<Db>
    requires tx.SaleTx? && tx.stage.Updated?
  {
    var id, c, ident := tx.stage.bill, tx.request.content, IdentOf(tx);
    var deduction := SaleDeduction(db, c, mode, unread);
    var outbox := QueuedEvent(tenant, db, id, c, ident, rowId, eventId);
    var bill := FinishedBill(db, tx);
    if !Storable(SaleLines(c), db.shelf.Keys) || deduction.Refused? || outbox.None? || bill.None? then None
    else
      Some(Db(
        db.bills[id := bill.value],
        if ident.Some? then db.byRequest[ident.value.key := id] else db.byRequest,
        if tx.stage.number.Some? then db.byNumber[Slot(c.branchId, tx.stage.number.value) := id] else db.byNumber,
        if tx.stage.number.Some? then db.counters[c.branchId := tx.stage.number.value] else db.counters,
        deduction.shelf, db.movements + deduction.movements, outbox.value,
        if c.state > 0 && !mode.Disable? then db.deductions + multiset{id} else db.deductions,
        if c.state > 0 && !mode.Disable? then db.unread[id := unread] else db.unread,
        if tx.draft.Some? then db.strays.(payments := db.strays.payments - {id}) else db.strays))
  }

  /** DeleteBillDetail, from its stock reversal on: None is a refusal. */
  function DeletedDb(db: Db, id: BillId, mode: Mode): Option<Db>
    requires id in db.bills
  {
    var restored := Restore(db.shelf, db.bills[id].lines, mode);
    if restored.Refused? then None
    else Some(db.(bills := db.bills[id := db.bills[id].(state := -1)], shelf := restored.shelf,
                  movements := db.movements + restored.movements))
  }

  // ---------------------------------------------------------------- the steps

  datatype Action =
    | Begin(t: TxId, request: Request, draft: Option<BillId>, invoiceUuid: string)
    | BeginDelete(t: TxId, bill: BillId)
    | CheckRequest(t: TxId)
    | CreateBill(t: TxId, id: BillId)
    | LockBill(t: TxId)
    | ReadFinalDraft(t: TxId)
    | TakeNumber(t: TxId)
    | UpdateBill(t: TxId)
    | Commit(t: TxId, mode: Mode, unread: set<nat>, rowId: RowId, eventId: string, delivered: bool)
    | LoseTransaction(t: TxId, mode: Mode, unread: set<nat>, line: nat)
    | TakeStrayLine(t: TxId, read: bool, recorded: bool)
    | AppendStrayEvent(t: TxId, rowId: RowId, eventId: string)
    | ClearStrayPayments(t: TxId)
    | PayStray(t: TxId, delivered: bool)
    | RereadRequest(t: TxId)
    | CommitDelete(t: TxId, mode: Mode)
    | Abort(t: TxId)

  function At(w: World, t: TxId, stage: Stage): World
    requires t in w.txs
  {
    w.(txs := w.txs[t := w.txs[t].(stage := stage)])
  }

  /** A sale is answered: a saved bill's id is recorded as the answer to its request. */
  function Replied(w: World, t: TxId, reply: Reply): World
    requires t in w.txs && w.txs[t].SaleTx?
  {
    var v := At(w, t, Done(reply));
    if reply.Saved? then v.(answers := w.answers + [Answer(w.txs[t].request, w.txs[t].draft, reply.bill)]) else v
  }

  /** answerRecordedRequest. */
  function RecordedReply(db: Db, original: BillId, ident: Identity, draft: Option<BillId>): Reply {
    var sameBill := draft.None? || draft.value == original;
    var sameContent := original in db.bills && db.bills[original].ident.Some?
                       && db.bills[original].ident.value.fingerprint == ident.fingerprint;
    if sameBill && sameContent then Saved(original) else RequestConflict
  }

  /** requestRecord and the answer it leads to; otherwise is what the caller does when there is no record. */
  function RequestReply(db: Db, tx: Tx, otherwise: Stage): Stage
    requires tx.SaleTx?
  {
    var ident := IdentOf(tx);
    if ident.Some? && ident.value.key in db.byRequest then
      Done(RecordedReply(db, db.byRequest[ident.value.key], ident.value, tx.draft))
    else otherwise
  }

  function GoTo(w: World, t: TxId, stage: Stage): World
    requires t in w.txs && w.txs[t].SaleTx?
  {
    if stage.Done? then Replied(w, t, stage.reply) else At(w, t, stage)
  }

  predicate Ready(w: World, t: TxId, sale: bool) { t in w.txs && w.txs[t].SaleTx? == sale }

  /** GetBillStateForUpdate: the stage a sale or a deletion reaches once the row is its own. */
  function LockedStage(db: Db, tx: Tx): Stage
    requires tx.draft.Some?
  {
    var id := tx.draft.value;
    if id !in db.bills then Done(NotFound)
    else if tx.SaleTx? then if db.bills[id].state > 0 then FinalDraft(id) else Opened(id)
    else if db.bills[id].state != 0 then Done(AlreadyFinal) else Opened(id)
  }

  // ---------------------------------------------------------------- sales adrift

  /** A sale in stage Updated whose stock loop comes to this line, all of its lines being stored. */
  predicate CanBeLost(db: Db, tx: Tx, mode: Mode, unread: set<nat>, line: nat) {
    && tx.SaleTx? && tx.stage.Updated? && tx.request.content.state > 0 && Storable(SaleLines(tx.request.content), db.shelf.Keys)
    && LostAt(db.shelf, tx.request.content.products, mode, unread, line, [])
  }

  /** The server drops the transaction: none of its writes remains, and the loop goes on with the next line. */
  function LoseStep(w: World, t: TxId, mode: Mode, line: nat): World
    requires t in w.txs && w.txs[t].SaleTx? && w.txs[t].stage.Updated? && line < |w.txs[t].request.content.products|
  {
    var tx := w.txs[t];
    var v := At(w, t, Adrift(tx.stage.bill, mode, tx.request.content.products[line + 1..]));
    if tx.draft.Some? then v else v.(db := w.db.(strays := w.db.strays.(ids := w.db.strays.ids + {tx.stage.bill})))
  }

  /** A line of a product that there is, whose read succeeds. */
  predicate IsRead(db: Db, l: Item, read: bool) { read && l.product.Some? && l.product.value in db.shelf }

  /** What a line taken outside any transaction writes: the update of the quantity stays even when its movement cannot be recorded. */
  function TakenLine(db: Db, l: Item, mode: Mode, read: bool, recorded: bool): Db {
    if !IsRead(db, l, read) || StopsAt(db.shelf, l, mode) then db
    else
      var p := l.product.value;
      db.(shelf := db.shelf[p := Moved(db.shelf[p], -l.quantity)],
          movements := if recorded then db.movements + [Movement(p, Stored(-l.quantity), Stray)] else db.movements,
          strays := db.strays.(lines := db.strays.lines + [StrayLine(p, l.quantity, recorded)]))
  }

  /** One turn of the loop outside any transaction. */
  function StrayLineStep(w: World, t: TxId, read: bool, recorded: bool): World
    requires t in w.txs && w.txs[t].stage.Adrift? && w.txs[t].stage.left != []
  {
    var Adrift(id, mode, left) := w.txs[t].stage;
    var ended := IsRead(w.db, left[0], read) && (StopsAt(w.db.shelf, left[0], mode) || !recorded);
    At(w, t, if ended then Done(Failed) else Adrift(id, mode, left[1..])).(db := TakenLine(w.db, left[0], mode, read, recorded))
  }

  /** The event of a sale that is not in the database. */
  function StrayEventStep(w: World, t: TxId, rowId: RowId, eventId: string): World
    requires t in w.txs && w.txs[t].SaleTx? && w.txs[t].stage.Adrift? && w.txs[t].request.content.state > 0
  {
    var tx := w.txs[t];
    var event := BillEvent(w.tenant, tx.stage.bill, tx.request.content.branchId, IdentOf(tx).value, eventId);
    if event.None? || !FreshEvent(w.db, rowId, eventId) then At(w, t, Done(Failed))
    else
      At(w, t, AdriftQueued(tx.stage.bill))
      .(db := w.db.(strays := w.db.strays.(outbox := w.db.strays.outbox[rowId := event.value])))
  }

  function WithPayments(db: Db, id: BillId, payments: seq<Money>): Db {
    db.(strays := db.strays.(payments := db.strays.payments[id := payments]))
  }

  /** DeleteBillPayments, for a draft. */
  function ClearStep(w: World, t: TxId): World
    requires t in w.txs && w.txs[t].stage.AdriftQueued?
  {
    var tx := w.txs[t];
    var v := At(w, t, AdriftCleared(tx.stage.bill));
    if tx.draft.Some? then v.(db := WithPayments(w.db, tx.stage.bill, [])) else v
  }

  /** A sale adrift is answered as any other: the COMMIT of no transaction succeeds. */
  function StrayReply(w: World, t: TxId, delivered: bool): World
    requires t in w.txs && w.txs[t].SaleTx? && w.txs[t].stage.AdriftCleared?
  {
    var tx := w.txs[t];
    if delivered then At(w, t, Done(Saved(tx.stage.bill))).(adrift := w.adrift + [Answer(tx.request, tx.draft, tx.stage.bill)])
    else At(w, t, Done(Failed))
  }

  /** The payment, against the total of the bill as it is in the database, and the answer. */
  function PayStep(w: World, t: TxId, delivered: bool): World
    requires t in w.txs && w.txs[t].SaleTx? && w.txs[t].stage.AdriftCleared?
  {
    var id, paid := w.txs[t].stage.bill, w.txs[t].request.content.paidAmount;
    if paid <= 0.0 then StrayReply(w, t, delivered)
    else if id !in w.db.bills || paid > w.db.bills[id].totals.total as real then At(w, t, Done(Failed))
    else StrayReply(w, t, delivered).(db := WithPayments(w.db, id, PaymentsOf(w.db, id) + [Stored(paid)]))
  }

  function Step(w: World, a: Action): World {
    var t := a.t;
    match a
    case Begin(_, request, draft, uuid) =>
      if t in w.txs || !Acceptable(request) then w else w.(txs := w.txs[t := SaleTx(request, draft, uuid, Begun)])
    case BeginDelete(_, id) =>
      if t in w.txs then w else w.(txs := w.txs[t := DeleteTx(Some(id), Begun)])
    case CheckRequest(_) =>
      if !Ready(w, t, true) || !w.txs[t].stage.Begun? || w.txs[t].draft.Some? then w
      else GoTo(w, t, RequestReply(w.db, w.txs[t], Checked))
    case CreateBill(_, id) =>
      if !Ready(w, t, true) || !w.txs[t].stage.Checked? || id == 0 || id in w.db.bills || id in w.db.strays.ids || RowHeld(w, t, id) then w
      else At(w, t, Opened(id))
    case LockBill(_) =>
      if t !in w.txs || !w.txs[t].stage.Begun? || w.txs[t].draft.None? || RowHeld(w, t, w.txs[t].draft.value) then w
      else At(w, t, LockedStage(w.db, w.txs[t]))
    case ReadFinalDraft(_) =>
      if !Ready(w, t, true) || !w.txs[t].stage.FinalDraft? then w
      else GoTo(w, t, RequestReply(w.db, w.txs[t], Done(AlreadyFinal)))
    case TakeNumber(_) =>
      if !Ready(w, t, true) || !w.txs[t].stage.Opened? then w
      else
        var c := w.txs[t].request.content;
        if c.state <= 0 then At(w, t, Numbered(w.txs[t].stage.bill, None))
        else if CounterHeld(w, t, c.branchId) then w
        else At(w, t, Numbered(w.txs[t].stage.bill, Some(LastValue(w.db, c.branchId) + 1)))
    case UpdateBill(_) =>
      if !Ready(w, t, true) || !w.txs[t].stage.Numbered? then w
      else
        var tx := w.txs[t];
        var updated := Updated(tx.stage.bill, tx.stage.number);
        if tx.request.content.state <= 0 then At(w, t, updated)
        else if KeyHeld(w, t, tx.request.key) then w
        else if tx.stage.number.Some? && Slot(tx.request.content.branchId, tx.stage.number.value) in w.db.byNumber then
          At(w, t, Done(Failed)) // a duplicate on uq_bill_branch_seq
        else if tx.request.key in w.db.byRequest then At(w, t, LostRace) // a duplicate on uq_bill_pos_request
        else At(w, t, updated)
    case Commit(_, mode, unread, rowId, eventId, delivered) =>
      if !Ready(w, t, true) || !w.txs[t].stage.Updated? then w
      else
        var db := Committed(w.tenant, w.db, w.txs[t], mode, unread, rowId, eventId);
        if db.None? then w
        else Replied(w, t, if delivered then Saved(w.txs[t].stage.bill) else Failed).(db := db.value)
    case LoseTransaction(_, mode, unread, line) =>
      if t !in w.txs || !CanBeLost(w.db, w.txs[t], mode, unread, line) then w else LoseStep(w, t, mode, line)
    case TakeStrayLine(_, read, recorded) =>
      if t !in w.txs || !w.txs[t].stage.Adrift? || w.txs[t].stage.left == [] then w else StrayLineStep(w, t, read, recorded)
    case AppendStrayEvent(_, rowId, eventId) =>
      if !Ready(w, t, true) || !w.txs[t].stage.Adrift? || w.txs[t].stage.left != [] || w.txs[t].request.content.state <= 0 then w
      else StrayEventStep(w, t, rowId, eventId)
    case ClearStrayPayments(_) =>
      if !Ready(w, t, true) || !w.txs[t].stage.AdriftQueued? then w else ClearStep(w, t)
    case PayStray(_, delivered) =>
      if !Ready(w, t, true) || !w.txs[t].stage.AdriftCleared? then w else PayStep(w, t, delivered)
    case RereadRequest(_) =>
      if !Ready(w, t, true) || !w.txs[t].stage.LostRace? then w
      else GoTo(w, t, RequestReply(w.db, w.txs[t], Done(AlreadyRecorded)))
    case CommitDelete(_, mode) =>
      if !Ready(w, t, false) || !w.txs[t].stage.Opened? || w.txs[t].stage.bill !in w.db.bills then w
      else
        var db := DeletedDb(w.db, w.txs[t].stage.bill, mode);
        if db.None? then w else At(w, t, Done(Deleted)).(db := db.value)
    case Abort(_) =>
      if t !in w.txs || w.txs[t].stage.Done? then w else At(w, t, Done(Failed))
  }

  function Run(w: World, actions: seq<Action>): World {
    if actions == [] then w else Step(Run(w, actions[..|actions| - 1]), actions[|actions| - 1])
  }

  lemma RunPush(w: World, actions: seq<Action>, a: Action)
    ensures Run(w, actions + [a]) == Step(Run(w, actions), a)
  {
    assert (actions + [a])[..|actions|] == actions;
  }

  lemma {:induction false} RunConcat(w: World, before: seq<Action>, after: seq<Action>)
    ensures Run(w, before + after) == Run(Run(w, before), after)
  {
    if after == [] {
      assert before + after == before;
    } else {
      var n := |after| - 1;
      assert before + after == before + after[..n] + [after[n]];
      RunConcat(w, before, after[..n]);
      RunPush(w, before + after[..n], after[n]);
    }
  }

  lemma RunFrom(w: World, actions: seq<Action>)
    requires actions != []
    ensures Run(w, actions) == Run(Step(w, actions[0]), actions[1..])
  {
    assert actions == [actions[0]] + actions[1..] && [actions[0]][..0] == [];
    assert Run(w, [actions[0]]) == Step(w, actions[0]);
    RunConcat(w, [actions[0]], actions[1..]);
  }

  /** A tenant before its first sale: only its products and their quantities. */
  predicate Initial(w: World) {
    && w.db == Db(map[], map[], map[], map[], w.db.shelf, [], map[], multiset{}, map[], NO_STRAYS)
    && NonNegative(w.db.shelf) && w.txs == map[] && w.answers == [] && w.adrift == []
  }
}
