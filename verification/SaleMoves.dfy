/** What one step of a sale does to that sale, and what the steps of the others leave alone. */
module SaleMoves {
  import opened Options
  import opened LineTotals
  import opened DocumentKeys
  import opened Stock
  import opened SaleTypes
  import opened SaleProtocol
  import opened SaleInvariant
  import opened SaleSteps
  import opened SaleCommit
  import opened SaleTheorems

  /** One call of saveSale: its transaction, its request, its draft if any, and the UUID it drew. */
  datatype Sale = Sale(t: TxId, request: Request, draft: Option<BillId>, invoiceUuid: string)

  function TxOf(s: Sale, stage: Stage): Tx { SaleTx(s.request, s.draft, s.invoiceUuid, stage) }

  function IdentOfSale(s: Sale): Option<Identity> { FinalSaleIdentity(s.request, s.invoiceUuid) }

  predicate Is(w: World, s: Sale, stage: Stage) { s.t in w.txs && w.txs[s.t] == TxOf(s, stage) }

  /** The sale is final and its request key is on a committed bill. */
  predicate IsRecorded(db: Db, s: Sale) { s.request.content.state > 0 && s.request.key in db.byRequest }

  // ---------------------------------------------------------------- what an answer means

  /** The bill holds what the sale asked for, under its request key when it is final. */
  ghost predicate Holds(db: Db, s: Sale, id: BillId) {
    && id in db.bills && db.bills[id].content == s.request.content && (s.draft.Some? ==> s.draft.value == id)
    && (s.request.content.state > 0 ==>
          FinalBill(db.bills[id]) && s.request.key in db.byRequest && db.byRequest[s.request.key] == id)
  }

  ghost predicate Conflicts(db: Db, s: Sale) {
    && IsRecorded(db, s) && db.byRequest[s.request.key] in db.bills
    && ((s.draft.Some? && s.draft.value != db.byRequest[s.request.key])
        || db.bills[db.byRequest[s.request.key]].content != s.request.content)
  }

  /** What each answer tells its caller about the committed database. */
  ghost predicate Means(w: World, s: Sale, reply: Reply) {
    match reply
    case Saved(id) =>
      Is(w, s, Done(reply)) && Answer(s.request, s.draft, id) in w.answers && Holds(w.db, s, id)
    case NotFound =>
      Is(w, s, Done(reply)) && s.draft.Some? && s.draft.value !in w.db.bills
    case AlreadyFinal =>
      && Is(w, s, Done(reply)) && !IsRecorded(w.db, s)
      && s.draft.Some? && s.draft.value in w.db.bills && FinalBill(w.db.bills[s.draft.value])
    case RequestConflict => Is(w, s, Done(reply)) && Conflicts(w.db, s)
    case Failed => s.t in w.txs && !(w.txs[s.t].stage.Done? && w.txs[s.t].stage.reply.Saved?)
    case AlreadyRecorded => false
    case Deleted => false
  }

  lemma FailedMeans(w: World, s: Sale, stage: Stage)
    requires Is(w, s, stage) && !stage.Done?
    ensures Means(w, s, Failed)
  {
  }

  lemma FailedNow(w: World, s: Sale, id: BillId, number: Option<nat>)
    requires Is(w, s, Updated(id, number))
    ensures Means(w, s, Failed)
  {
  }

  // ---------------------------------------------------------------- the others

  /** Outbox rows of sales adrift stay. */
  predicate StrayRowsKept(db: Db, d: Db) {
    forall i | i in db.strays.outbox :: i in d.strays.outbox && d.strays.outbox[i] == db.strays.outbox[i]
  }

  /** What may have happened between two statements of transaction t. */
  ghost predicate OthersMoved(w: World, v: World, t: TxId) {
    && FinalsKept(w.db, v.db) && StrayRowsKept(w.db, v.db) && v.db.shelf.Keys == w.db.shelf.Keys && v.tenant == w.tenant
    && (t in v.txs <==> t in w.txs) && (t in w.txs ==> v.txs[t] == w.txs[t])
  }

  lemma NothingMoved(w: World, t: TxId)
    ensures OthersMoved(w, w, t)
  {
  }

  lemma StepKeepsProducts(w: World, a: Action)
    requires Inv(w)
    ensures Step(w, a).db.shelf.Keys == w.db.shelf.Keys
  {
    hide Step, Committed, DeletedDb, LedgerSum, FinishedBill, DbOk, NonNegative, Compatible, AnswerOk;
    DbParts(w.tenant, w.db);
    if Step(w, a).db != w.db {
      OnlyCommitsCommit(w, a);
      if a.Commit? {
        CommittedIsAWrite(w.tenant, w.db, w.txs[a.t], a.mode, a.unread, a.rowId, a.eventId);
      } else if a.CommitDelete? {
        DeletedDbOk(w.tenant, w.db, w.txs[a.t].stage.bill, a.mode);
      }
    }
  }

  lemma StepKeepsStrayRows(w: World, a: Action)
    ensures StrayRowsKept(w.db, Step(w, a).db)
  {
    hide FinishedBill, SaleDeduction, QueuedEvent, Storable, SaleLines, Restore, RequestReply, LockedStage, CanBeLost, StopsAt, BillEvent;
    hide RowHeld, CounterHeld, KeyHeld, LastValue, Acceptable, Moved, PaymentsOf;
  }

  lemma OtherMoves(start: World, w: World, a: Action, t: TxId)
    requires Inv(w) && OthersMoved(start, w, t) && a.t != t
    ensures OthersMoved(start, Step(w, a), t)
  {
    hide Inv, Step;
    StepKeepsInv(w, a);
    StepLeavesTx(w, a, t);
    StepKeepsProducts(w, a);
    StepKeepsStrayRows(w, a);
  }

  // ---------------------------------------------------------------- reading the record of a request

  /** What GetBillByRequestIdentity returns. */
  datatype Recorded = Recorded(id: BillId, fingerprint: Option<Fingerprint>)

  function RecordOf(db: Db, id: BillId): Recorded {
    Recorded(id, if id in db.bills && db.bills[id].ident.Some? then Some(db.bills[id].ident.value.fingerprint) else None)
  }

  function AnswerFor(original: Recorded, s: Sale): Reply {
    if (s.draft.Some? && s.draft.value != original.id) || original.fingerprint != Some(SaleFingerprint(s.request))
    then RequestConflict else Saved(original.id)
  }

  /** The record of a request tells what its bill holds: the answer is that bill exactly when it holds the sale. */
  lemma RecordTells(w: World, s: Sale)
    requires Inv(w) && IsRecorded(w.db, s)
    ensures
      var id := w.db.byRequest[s.request.key];
      && AnswerFor(RecordOf(w.db, id), s) == (if Holds(w.db, s, id) then Saved(id) else RequestConflict)
      && (Conflicts(w.db, s) <==> !Holds(w.db, s, id))
  {
    hide DbOk, LocksOk, AnswerOk, TxOk;
    DbHasParts(w.tenant, w.db);
    RecordedIsFinal(w.tenant, w.db, s.request.key);
    assert StateOk(w.db, w.db.byRequest[s.request.key], w.db.bills[w.db.byRequest[s.request.key]]);
  }

  /** A request that is recorded is answered from its record. */
  lemma RecordedMeans(w: World, s: Sale, stage: Stage, otherwise: Stage)
    requires Inv(w) && Is(w, s, stage) && IsRecorded(w.db, s)
    ensures
      var v := GoTo(w, s.t, RequestReply(w.db, w.txs[s.t], otherwise));
      v.db == w.db && Means(v, s, AnswerFor(RecordOf(w.db, w.db.byRequest[s.request.key]), s))
  {
    hide DbOk, TxOk, LocksOk, AnswerOk, RecordedReply;
    DbHasParts(w.tenant, w.db);
    RecordedIsFinal(w.tenant, w.db, s.request.key);
    var tx, winner := w.txs[s.t], w.db.byRequest[s.request.key];
    RecordedReplyIs(w.db, tx);
    assert StateOk(w.db, winner, w.db.bills[winner]);
    var reply := AnswerFor(RecordOf(w.db, winner), s);
    assert RecordedReply(w.db, winner, IdentOf(tx).value, tx.draft) == reply;
    RepliedMeans(w, s, stage, reply);
  }

  lemma RepliedMeans(w: World, s: Sale, stage: Stage, reply: Reply)
    requires Is(w, s, stage)
    requires reply.Saved? ==> Holds(w.db, s, reply.bill)
    requires reply.RequestConflict? ==> Conflicts(w.db, s)
    requires reply.Saved? || reply.RequestConflict?
    ensures Replied(w, s.t, reply).db == w.db && Means(Replied(w, s.t, reply), s, reply)
  {
    var v := Replied(w, s.t, reply);
    if reply.Saved? { assert v.answers[|w.answers|] == Answer(s.request, s.draft, reply.bill); }
  }

  lemma CheckRequestStep(w: World, s: Sale)
    requires Inv(w) && Is(w, s, Begun) && s.draft.None?
    ensures
      var v := Step(w, CheckRequest(s.t));
      if IsRecorded(w.db, s) then v.db == w.db && Means(v, s, AnswerFor(RecordOf(w.db, w.db.byRequest[s.request.key]), s))
      else Is(v, s, Checked)
  {
    hide Inv, Means, RecordedReply, RecordOf, AnswerFor;
    if IsRecorded(w.db, s) { RecordedMeans(w, s, Begun, Checked); }
  }

  lemma FinalDraftIsFinal(w: World, t: TxId)
    requires Inv(w) && t in w.txs && w.txs[t].SaleTx? && w.txs[t].stage.FinalDraft?
    ensures
      var id := w.txs[t].stage.bill;
      w.txs[t].draft == Some(id) && id in w.db.bills && FinalBill(w.db.bills[id])
  {
    hide DbOk, LocksOk, AnswerOk, Acceptable;
    assert TxOk(w.db, w.txs[t]);
  }

  lemma AlreadyFinalMeans(w: World, s: Sale, id: BillId)
    requires Is(w, s, FinalDraft(id)) && !IsRecorded(w.db, s)
    requires s.draft == Some(id) && id in w.db.bills && FinalBill(w.db.bills[id])
    ensures Means(Step(w, ReadFinalDraft(s.t)), s, AlreadyFinal)
  {
    hide RecordedReply;
  }

  lemma ReadFinalDraftStep(w: World, s: Sale, id: BillId)
    requires Inv(w) && Is(w, s, FinalDraft(id))
    ensures
      var v := Step(w, ReadFinalDraft(s.t));
      Means(v, s, if IsRecorded(w.db, s) then AnswerFor(RecordOf(w.db, w.db.byRequest[s.request.key]), s) else AlreadyFinal)
  {
    hide Inv, RecordedReply, RecordOf, AnswerFor, Means;
    if IsRecorded(w.db, s) {
      RecordedMeans(w, s, FinalDraft(id), Done(AlreadyFinal));
    } else {
      FinalDraftIsFinal(w, s.t);
      AlreadyFinalMeans(w, s, id);
    }
  }

  lemma LoserIsRecorded(w: World, s: Sale)
    requires Inv(w) && Is(w, s, LostRace)
    ensures IsRecorded(w.db, s)
  {
    hide DbOk, LocksOk, AnswerOk, Acceptable;
    assert TxOk(w.db, w.txs[s.t]);
  }

  lemma RereadStep(w: World, s: Sale)
    requires Inv(w) && Is(w, s, LostRace)
    ensures IsRecorded(w.db, s)
    ensures Means(Step(w, RereadRequest(s.t)), s, AnswerFor(RecordOf(w.db, w.db.byRequest[s.request.key]), s))
  {
    hide Inv, RecordedReply, RecordOf, AnswerFor, Means;
    LoserIsRecorded(w, s);
    RecordedMeans(w, s, LostRace, Done(AlreadyRecorded));
  }

  // ---------------------------------------------------------------- opening, numbering and updating the bill

  lemma CreateBillStep(w: World, s: Sale, id: BillId)
    requires Is(w, s, Checked) && id != 0 && id !in w.db.bills && id !in w.db.strays.ids && !RowHeld(w, s.t, id)
    ensures Is(Step(w, CreateBill(s.t, id)), s, Opened(id))
  {
    hide RowHeld;
  }

  lemma LockBillStep(w: World, s: Sale)
    requires Is(w, s, Begun) && s.draft.Some? && !RowHeld(w, s.t, s.draft.value)
    ensures
      var v, id := Step(w, LockBill(s.t)), s.draft.value;
      if id !in w.db.bills then Means(v, s, NotFound)
      else Is(v, s, if w.db.bills[id].state > 0 then FinalDraft(id) else Opened(id))
  {
    hide RowHeld;
  }

  lemma TakeNumberStep(w: World, s: Sale, id: BillId)
    requires Is(w, s, Opened(id))
    ensures
      var v, c := Step(w, TakeNumber(s.t)), s.request.content;
      && v.db == w.db
      && (c.state <= 0 ==> Is(v, s, Numbered(id, None)))
      && (c.state > 0 && !CounterHeld(w, s.t, c.branchId) ==> Is(v, s, Numbered(id, Some(LastValue(w.db, c.branchId) + 1))))
  {
    hide CounterHeld, LastValue;
  }

  lemma NumberedFacts(w: World, s: Sale, id: BillId, number: Option<nat>)
    requires Inv(w) && Is(w, s, Numbered(id, number))
    ensures number.Some? ==> Slot(s.request.content.branchId, number.value) !in w.db.byNumber
  {
    hide DbOk, TxOk, LocksOk, AnswerOk;
    if number.Some? {
      DbHasParts(w.tenant, w.db);
      NumberedIsFree(w.db, w.txs[s.t]);
    }
  }

  lemma UpdateBillStep(w: World, s: Sale, id: BillId, number: Option<nat>)
    requires Inv(w) && Is(w, s, Numbered(id, number))
    requires s.request.content.state > 0 ==> !KeyHeld(w, s.t, s.request.key)
    ensures
      var v := Step(w, UpdateBill(s.t));
      v.db == w.db && Is(v, s, if IsRecorded(w.db, s) then LostRace else Updated(id, number))
  {
    hide Inv, KeyHeld, NumberOk;
    NumberedFacts(w, s, id, number);
  }

  // ---------------------------------------------------------------- the commit

  /** The row that updateSaleBill has left for the statements after it. */
  function RowOfSale(db: Db, s: Sale, id: BillId, number: Option<nat>): Bill {
    UpdatedBill(if id in db.bills then db.bills[id] else CreatedBill(s.request), s.request, number, IdentOfSale(s))
  }

  /** Whatever others committed meanwhile, the finished bill is what the statements built on their own row. */
  lemma FinishedIsPending(before: World, w: World, s: Sale, id: BillId, number: Option<nat>)
    requires Inv(before) && Inv(w) && Is(before, s, Updated(id, number)) && Is(w, s, Updated(id, number))
    ensures FinishedBill(w.db, TxOf(s, Updated(id, number)))
            == PaidBill(LinedBill(RowOfSale(before.db, s, id, number), s.request, s.draft.Some?), s.request, s.draft.Some?)
  {
    hide SaleLines, RefreshedTotals, DbOk, LocksOk, AnswerOk;
    assert TxOk(w.db, w.txs[s.t]) && TxOk(before.db, before.txs[s.t]);
    hide Inv;
    assert [] + SaleLines(s.request.content) == SaleLines(s.request.content);
  }

  lemma ShelfIsNonNegative(w: World)
    requires Inv(w)
    ensures NonNegative(w.db.shelf)
  {
    hide BillOk, RequestKeysOk, NumbersOk, EventsOk, DeductionsOk, TxOk, LocksOk, AnswerOk;
  }

  /** The checks before the transaction have seen to the quantities of a final sale. */
  lemma SaleIsPositive(w: World, s: Sale, id: BillId, number: Option<nat>)
    requires Inv(w) && Is(w, s, Updated(id, number))
    ensures s.request.content.state > 0 ==> Positive(s.request.content.products)
  {
    hide DbOk, LocksOk, AnswerOk, TxOk;
    assert TxOk(w.db, w.txs[s.t]);
    UpdatedTxFacts(w.db, w.txs[s.t]);
  }

  /** The columns of a commit that nothing refuses. */
  lemma CommitIsWritten(tenant: Tenant, db: Db, tx: Tx, mode: Mode, unread: set<nat>, rowId: RowId, eventId: string)
    requires tx.SaleTx? && tx.stage.Updated?
    requires Storable(SaleLines(tx.request.content), db.shelf.Keys) && FinishedBill(db, tx).Some?
    requires SaleDeduction(db, tx.request.content, mode, unread).Deducted?
    requires QueuedEvent(tenant, db, tx.stage.bill, tx.request.content, IdentOf(tx), rowId, eventId).Some?
    ensures
      var d := Committed(tenant, db, tx, mode, unread, rowId, eventId);
      && d.Some?
      && d.value.bills == db.bills[tx.stage.bill := FinishedBill(db, tx).value]
      && d.value.byRequest == (if IdentOf(tx).Some? then db.byRequest[IdentOf(tx).value.key := tx.stage.bill] else db.byRequest)
      && d.value.shelf == SaleDeduction(db, tx.request.content, mode, unread).shelf
      && d.value.movements == db.movements + SaleDeduction(db, tx.request.content, mode, unread).movements
      && Some(d.value.outbox) == QueuedEvent(tenant, db, tx.stage.bill, tx.request.content, IdentOf(tx), rowId, eventId)
  {
    hide FinishedBill, SaleDeduction, QueuedEvent, SaleLines, Storable;
  }

  /** A commit that nothing refuses makes the pending writes the database. */
  lemma CommitStep(w: World, s: Sale, id: BillId, number: Option<nat>, mode: Mode, unread: set<nat>, rowId: RowId, eventId: string, delivered: bool)
    requires Inv(w) && Is(w, s, Updated(id, number))
    requires Storable(SaleLines(s.request.content), w.db.shelf.Keys)
    requires FinishedBill(w.db, TxOf(s, Updated(id, number))).Some?
    requires SaleDeduction(w.db, s.request.content, mode, unread).Deducted?
    requires QueuedEvent(w.tenant, w.db, id, s.request.content, IdentOfSale(s), rowId, eventId).Some?
    ensures
      var v := Step(w, Commit(s.t, mode, unread, rowId, eventId, delivered));
      && Means(v, s, if delivered then Saved(id) else Failed)
      && v.db.bills == w.db.bills[id := FinishedBill(w.db, TxOf(s, Updated(id, number))).value]
      && v.db.shelf == SaleDeduction(w.db, s.request.content, mode, unread).shelf
      && v.db.movements == w.db.movements + SaleDeduction(w.db, s.request.content, mode, unread).movements
      && QueuedEvent(w.tenant, w.db, id, s.request.content, IdentOfSale(s), rowId, eventId) == Some(v.db.outbox)
  {
    hide Storable, FinishedBill, SaleDeduction, QueuedEvent, SaleLines, DbOk, LocksOk, AnswerOk, TxOk, Committed;
    var tx := w.txs[s.t];
    assert TxOk(w.db, tx);
    hide Inv;
    CommitIsWritten(w.tenant, w.db, tx, mode, unread, rowId, eventId);
    FinishedBillIsTheRequests(w.db, tx);
    UpdatedTxFacts(w.db, tx);
    var v := Step(w, Commit(s.t, mode, unread, rowId, eventId, delivered));
    assert Committed(w.tenant, w.db, tx, mode, unread, rowId, eventId) == Some(v.db);
    if delivered { assert v.answers[|w.answers|] == Answer(s.request, s.draft, id); }
  }

  /** The outbox row that reports a final sale: its document, its identity and its content, under an event id of its own. */
  predicate ReportsSale(tenant: Tenant, s: Sale, id: BillId, e: Event, eventId: string) {
    && DocumentKey(tenant.key, s.request.content.branchId, DOC_BILL, id) == Some(e.documentKey)
    && e.eventId == eventId == e.payload.eventId && e.payload.id == id && e.payload.branchId == s.request.content.branchId
    && e.payload.tenantKey == tenant.key && e.payload.invoiceUuid == s.invoiceUuid
    && Key(e.payload.posId, e.payload.billRequestId) == s.request.key && e.payload.requestFingerprint == s.request.content
    && e.payload.docType == DOC_BILL && e.payload.dbName == tenant.dbName
    && e.subject == "zatca.bill." + tenant.dbName + "." + e.payload.egsSequenceId
    && e.payload.egsSequenceId == Decimal(s.request.content.branchId)
  }

  /** What queueing the event of a sale does to the outbox, and when it cannot be done. */
  lemma QueueingReports(tenant: Tenant, db: Db, s: Sale, id: BillId, rowId: RowId, eventId: string)
    ensures
      var c, queued := s.request.content, QueuedEvent(tenant, db, id, s.request.content, IdentOfSale(s), rowId, eventId);
      && (queued.Some? <==>
            c.state <= 0 || (id <= MAX_INT64 && ValidParts(tenant.key, c.branchId, DOC_BILL, id) && FreshEvent(db, rowId, eventId)))
      && (c.state <= 0 ==> queued == Some(db.outbox))
      && (c.state > 0 && queued.Some? ==>
            && queued.value.Keys == db.outbox.Keys + {rowId} && rowId !in db.outbox
            && ReportsSale(tenant, s, id, queued.value[rowId], eventId)
            && forall i | i in db.outbox :: queued.value[i] == db.outbox[i] && db.outbox[i].eventId != eventId)
  {
    hide ValidParts;
  }

  // ---------------------------------------------------------------- what a sale holds until its commit

  /** A sale that takes stock has locked the rows of the products that it has read. */
  predicate HoldsProduct(c: Content, mode: Mode, unread: set<nat>, p: nat) {
    c.state > 0 && !mode.Disable? && Lists(Without(c.products, unread), p)
  }

  /** A step leaves these product rows alone, and takes neither this row id nor this event id once they are written. */
  predicate Spares(w: World, v: World, c: Content, mode: Mode, unread: set<nat>, rowId: RowId, eventId: string, queued: bool) {
    && (forall p | p in w.db.shelf && HoldsProduct(c, mode, unread, p) :: p in v.db.shelf && v.db.shelf[p] == w.db.shelf[p])
    && (queued && FreshEvent(w.db, rowId, eventId) ==> FreshEvent(v.db, rowId, eventId))
  }

  lemma SparesTwice(u: World, v: World, w: World, c: Content, mode: Mode, unread: set<nat>, rowId: RowId, eventId: string, queued: bool)
    requires Spares(u, v, c, mode, unread, rowId, eventId, queued) && Spares(v, w, c, mode, unread, rowId, eventId, queued)
    ensures Spares(u, w, c, mode, unread, rowId, eventId, queued)
  {
    hide FreshEvent, HoldsProduct;
  }

  lemma NothingTouched(w: World, c: Content, mode: Mode, unread: set<nat>, rowId: RowId, eventId: string, queued: bool)
    ensures Spares(w, w, c, mode, unread, rowId, eventId, queued)
  {
  }

  /** A sale's deduction leaves the products it does not hold as they are. */
  lemma DeductionLeavesOthers(db: Db, c: Content, mode: Mode, unread: set<nat>)
    requires SaleDeduction(db, c, mode, unread).Deducted?
    ensures
      var d := SaleDeduction(db, c, mode, unread);
      d.shelf.Keys == db.shelf.Keys && forall p | p in db.shelf && !HoldsProduct(c, mode, unread, p) :: d.shelf[p] == db.shelf[p]
  {
    hide Lists;
    if c.state > 0 && !mode.Disable? { DeductionIsItsProducts(db.shelf, db.shelf, Without(c.products, unread), mode, [], []); }
  }

  /** These are the quantities and movements that the sale's deduction leaves of its own products. */
  ghost predicate Takes(db: Db, c: Content, mode: Mode, unread: set<nat>, shelf: Shelf, movements: seq<Movement>) {
    var d := SaleDeduction(db, c, mode, unread);
    && d.Deducted? && d.movements == movements
    && forall p | p in db.shelf && HoldsProduct(c, mode, unread, p) :: p in d.shelf && p in shelf && shelf[p] == d.shelf[p]
  }

  lemma TakesStays(w: World, v: World, c: Content, mode: Mode, unread: set<nat>, rowId: RowId, eventId: string, queued: bool,
                   shelf: Shelf, movements: seq<Movement>)
    requires Spares(w, v, c, mode, unread, rowId, eventId, queued) && v.db.shelf.Keys == w.db.shelf.Keys
    requires Takes(w.db, c, mode, unread, shelf, movements)
    ensures Takes(v.db, c, mode, unread, shelf, movements)
  {
    hide FreshEvent, Lists;
    if c.state > 0 && !mode.Disable? { DeductionIsItsProducts(w.db.shelf, v.db.shelf, Without(c.products, unread), mode, [], []); }
  }

  /** The outbox once a pending event, if any, is in it. */
  function WithEvent(db: Db, rowId: RowId, event: Option<Event>): map<RowId, Event> {
    if event.None? then db.outbox else db.outbox[rowId := event.value]
  }

  ghost predicate Queues(w: World, s: Sale, id: BillId, rowId: RowId, eventId: string, event: Option<Event>) {
    && (event.Some? <==> s.request.content.state > 0)
    && QueuedEvent(w.tenant, w.db, id, s.request.content, IdentOfSale(s), rowId, eventId) == Some(WithEvent(w.db, rowId, event))
  }

  lemma QueuesStays(w: World, v: World, s: Sale, id: BillId, mode: Mode, unread: set<nat>, rowId: RowId, eventId: string, event: Option<Event>)
    requires Spares(w, v, s.request.content, mode, unread, rowId, eventId, true) && v.tenant == w.tenant
    requires Queues(w, s, id, rowId, eventId, event)
    ensures Queues(v, s, id, rowId, eventId, event)
  {
    hide HoldsProduct, BillEvent;
    if event.Some? { assert WithEvent(w.db, rowId, event)[rowId] == event.value; }
  }

  // ---------------------------------------------------------------- a sale adrift

  /** A row of the outbox reports the sale, and no transaction has written it. */
  ghost predicate HasStrayRow(w: World, s: Sale, id: BillId) {
    exists i :: i in w.db.strays.outbox && ReportsSale(w.tenant, s, id, w.db.strays.outbox[i], w.db.strays.outbox[i].eventId)
  }

  /** The answer of a sale adrift: its event reports a sale that it has not made. The id of a new sale is that of no bill. */
  ghost predicate Misleads(w: World, s: Sale, id: BillId) {
    && Is(w, s, Done(Saved(id))) && s.request.content.state > 0 && Answer(s.request, s.draft, id) in w.adrift
    && (s.draft.None? ==> id !in w.db.bills) && HasStrayRow(w, s, id)
  }

  /** What the answer of a sale tells: of one that has lost its transaction it may mislead. */
  ghost predicate Tells(w: World, s: Sale, reply: Reply, lost: bool) {
    if lost && reply.Saved? then Misleads(w, s, reply.bill) else Means(w, s, reply)
  }

  lemma ToldIsThere(w: World, s: Sale, reply: Reply, lost: bool)
    requires Tells(w, s, reply, lost)
    ensures s.t in w.txs
  {
  }

  lemma LoseItStep(w: World, s: Sale, id: BillId, number: Option<nat>, mode: Mode, unread: set<nat>, line: nat)
    requires Is(w, s, Updated(id, number)) && CanBeLost(w.db, w.txs[s.t], mode, unread, line)
    ensures line < |s.request.content.products|
    ensures Is(Step(w, LoseTransaction(s.t, mode, unread, line)), s, Adrift(id, mode, s.request.content.products[line + 1..]))
  {
    hide Storable, SaleLines, DeductFrom;
  }

  lemma CanBeLostFacts(db: Db, tx: Tx, mode: Mode, unread: set<nat>, line: nat)
    requires CanBeLost(db, tx, mode, unread, line)
    ensures !mode.Disable? && tx.request.content.state > 0
  {
    hide Storable, SaleLines, DeductFrom;
  }

  /** What others do leaves a sale where it is. */
  lemma OthersLeaveIt(w: World, v: World, s: Sale, stage: Stage)
    requires OthersMoved(w, v, s.t) && Is(w, s, stage)
    ensures Is(v, s, stage)
  {
    hide FinalsKept, StrayRowsKept;
  }

  lemma OthersLeaveItsRow(w: World, v: World, s: Sale, id: BillId)
    requires OthersMoved(w, v, s.t) && HasStrayRow(w, s, id)
    ensures HasStrayRow(v, s, id)
  {
    hide FinalsKept, HasStrayRow, StrayRowsKept;
    StrayRowStays(w, v, s, id);
  }

  lemma EndedMeans(w: World, s: Sale)
    requires Is(w, s, Done(Failed))
    ensures Means(w, s, Failed)
  {
  }

  lemma StrayLineIs(w: World, s: Sale, id: BillId, mode: Mode, left: seq<Item>, read: bool, recorded: bool)
    requires Is(w, s, Adrift(id, mode, left)) && left != []
    ensures
      var v, l := Step(w, TakeStrayLine(s.t, read, recorded)), left[0];
      var catalog := read && l.product.Some? && l.product.value in w.db.shelf;
      var taken := catalog && !StopsAt(w.db.shelf, l, mode);
      && Is(v, s, if catalog && !(taken && recorded) then Done(Failed) else Adrift(id, mode, left[1..]))
      && v.db.shelf == if taken then w.db.shelf[l.product.value := Moved(w.db.shelf[l.product.value], -l.quantity)] else w.db.shelf
  {
    hide StopsAt, Moved;
  }

  lemma StrayEventIs(w: World, s: Sale, id: BillId, mode: Mode, rowId: RowId, eventId: string)
    requires Is(w, s, Adrift(id, mode, [])) && s.request.content.state > 0
    ensures
      var v := Step(w, AppendStrayEvent(s.t, rowId, eventId));
      if id > MAX_INT64 || !ValidParts(w.tenant.key, s.request.content.branchId, DOC_BILL, id) || !FreshEvent(w.db, rowId, eventId)
      then Is(v, s, Done(Failed))
      else Is(v, s, AdriftQueued(id)) && v.tenant == w.tenant && rowId in v.db.strays.outbox
           && ReportsSale(w.tenant, s, id, v.db.strays.outbox[rowId], eventId)
  {
    EventIsBuiltIff(w.tenant, s, id, eventId);
    hide BillEvent, FreshEvent, ValidParts, ReportsSale;
  }

  lemma EventIsBuiltIff(tenant: Tenant, s: Sale, id: BillId, eventId: string)
    requires s.request.content.state > 0
    ensures
      var e := BillEvent(tenant, id, s.request.content.branchId, IdentOfSale(s).value, eventId);
      && (e.Some? <==> id <= MAX_INT64 && ValidParts(tenant.key, s.request.content.branchId, DOC_BILL, id))
      && (e.Some? ==> ReportsSale(tenant, s, id, e.value, eventId))
  {
    hide ValidParts;
  }

  lemma ClearIs(w: World, s: Sale, id: BillId)
    requires Is(w, s, AdriftQueued(id))
    ensures
      var v := Step(w, ClearStrayPayments(s.t));
      Is(v, s, AdriftCleared(id)) && v.db.strays.outbox == w.db.strays.outbox && v.tenant == w.tenant
  {
  }

  /** The payment and the answer, once nothing refuses the payment. */
  lemma PayIs(w: World, s: Sale, id: BillId, delivered: bool)
    requires Is(w, s, AdriftCleared(id))
    requires s.request.content.paidAmount <= 0.0
             || (id in w.db.bills && s.request.content.paidAmount <= w.db.bills[id].totals.total as real)
    ensures
      var v := Step(w, PayStray(s.t, delivered));
      && Is(v, s, Done(if delivered then Saved(id) else Failed)) && v.db.strays.outbox == w.db.strays.outbox && v.tenant == w.tenant
      && (delivered ==> v.adrift == w.adrift + [Answer(s.request, s.draft, id)])
  {
    hide PaymentsOf, Stored;
  }

  lemma StrayRowStays(w: World, v: World, s: Sale, id: BillId)
    requires HasStrayRow(w, s, id) && StrayRowsKept(w.db, v.db) && v.tenant == w.tenant
    ensures HasStrayRow(v, s, id)
  {
    hide ReportsSale;
    var i :| i in w.db.strays.outbox && ReportsSale(w.tenant, s, id, w.db.strays.outbox[i], w.db.strays.outbox[i].eventId);
    assert i in v.db.strays.outbox && v.db.strays.outbox[i] == w.db.strays.outbox[i];
  }

  lemma AdriftMisleads(w: World, s: Sale, id: BillId)
    requires Inv(w) && Is(w, s, Done(Saved(id))) && Answer(s.request, s.draft, id) in w.adrift && HasStrayRow(w, s, id)
    ensures Misleads(w, s, id)
  {
    hide DbOk, TxOk, LocksOk, AnswerOk, HasStrayRow;
    var k :| 0 <= k < |w.adrift| && w.adrift[k] == Answer(s.request, s.draft, id);
    assert AdriftOk(w.db, w.adrift[k]);
    DbStrays(w.tenant, w.db);
  }

  // ---------------------------------------------------------------- when a sale fails

  /** The sale has written its bill row and is refused by its commit, for one of the reasons there are. */
  ghost predicate RefusedFor(w: World, s: Sale, id: BillId, mode: Mode, unread: set<nat>, rowId: RowId, eventId: string) {
    && s.t in w.txs && w.txs[s.t] == TxOf(s, w.txs[s.t].stage) && w.txs[s.t].stage.Updated? && w.txs[s.t].stage.bill == id
    && HasReason(w.tenant, w.db, s.request.content, id, mode, unread, rowId, eventId)
  }

  ghost predicate RefusedSale(w: World, s: Sale, mode: Mode, unread: set<nat>, rowId: RowId, eventId: string) {
    s.t in w.txs && w.txs[s.t].SaleTx? && w.txs[s.t].stage.Updated?
    && RefusedFor(w, s, w.txs[s.t].stage.bill, mode, unread, rowId, eventId)
  }

  lemma RefusalHasReason(w: World, s: Sale, id: BillId, number: Option<nat>, mode: Mode, unread: set<nat>, rowId: RowId, eventId: string)
    requires Inv(w) && Is(w, s, Updated(id, number))
    requires
      || !Storable(SaleLines(s.request.content), w.db.shelf.Keys)
      || SaleDeduction(w.db, s.request.content, mode, unread).Refused?
      || QueuedEvent(w.tenant, w.db, id, s.request.content, IdentOfSale(s), rowId, eventId).None?
      || FinishedBill(w.db, TxOf(s, Updated(id, number))).None?
    ensures RefusedFor(w, s, id, mode, unread, rowId, eventId)
  {
    hide Storable, SaleLines, SaleDeduction, QueuedEvent, FinishedBill, HasReason, DbOk, TxOk, LocksOk, AnswerOk;
    var tx := w.txs[s.t];
    assert TxOk(w.db, tx);
    ShelfIsNonNegative(w);
    CommitIsRefusedIff(w.tenant, w.db, tx, mode, unread, rowId, eventId);
  }

  lemma BeginStep(w: World, s: Sale)
    requires s.t !in w.txs && Acceptable(s.request)
    ensures Is(Step(w, Begin(s.t, s.request, s.draft, s.invoiceUuid)), s, Begun)
  {
    hide Acceptable;
  }

  /** The bill of a sale that has written its row: its draft, or an id that no committed bill has. */
  lemma BillWritten(w: World, s: Sale) returns (bill: BillId)
    requires Inv(w) && s.t in w.txs
    ensures w.txs[s.t].SaleTx? && w.txs[s.t].stage.Updated? ==>
      && bill == w.txs[s.t].stage.bill
      && (if w.txs[s.t].draft.Some? then bill == w.txs[s.t].draft.value else bill !in w.db.bills)
  {
    hide DbOk, LocksOk, AnswerOk, TxOk;
    var tx := w.txs[s.t];
    assert TxOk(w.db, tx);
    bill := 0;
    if tx.SaleTx? && tx.stage.Updated? {
      bill := tx.stage.bill;
      UpdatedTxFacts(w.db, tx);
    }
  }

  /** The deferred rollback ends what is still open and leaves an answer as it is. */
  lemma RollbackStep(w: World, s: Sale, reply: Reply, lost: bool)
    requires Tells(w, s, reply, lost)
    ensures
      var v := Step(w, Abort(s.t));
      Tells(v, s, reply, lost) && v.db == w.db && v.tenant == w.tenant && v.txs[s.t].stage.Done?
  {
  }

  // ---------------------------------------------------------------- deleting a draft

  predicate IsDelete(w: World, t: TxId, id: BillId, stage: Stage) { t in w.txs && w.txs[t] == DeleteTx(Some(id), stage) }

  lemma BeginDeleteStep(w: World, t: TxId, id: BillId)
    requires t !in w.txs
    ensures IsDelete(Step(w, BeginDelete(t, id)), t, id, Begun)
  {
  }

  lemma LockDeleteStep(w: World, t: TxId, id: BillId)
    requires IsDelete(w, t, id, Begun) && !RowHeld(w, t, id)
    ensures
      var v := Step(w, LockBill(t));
      && v.db == w.db
      && IsDelete(v, t, id, if id !in w.db.bills then Done(NotFound) else if w.db.bills[id].state != 0 then Done(AlreadyFinal)
                            else Opened(id))
  {
    hide RowHeld;
  }

  /** The row lock keeps an opened draft a draft, and its lines can be put back. */
  lemma OpenedDraft(w: World, t: TxId, id: BillId)
    requires Inv(w) && IsDelete(w, t, id, Opened(id))
    ensures id in w.db.bills && w.db.bills[id].state == 0
    ensures NonNegative(w.db.shelf) && PositiveLines(w.db.bills[id].lines) && KnownProducts(w.db.shelf, w.db.bills[id].lines)
  {
    hide LocksOk, AnswerOk, RequestKeysOk, NumbersOk, EventsOk, DeductionsOk, StateOk, PaymentOk;
    assert TxOk(w.db, w.txs[t]);
    assert BillOk(w.db, id);
  }

  /** A deletion that puts stock back has locked the rows of the catalog lines' products. */
  predicate Returns(lines: seq<Line>, mode: Mode, p: nat) {
    !mode.Disable? && exists k :: 0 <= k < |lines| && lines[k].product == Some(p)
  }

  /** A step leaves this draft and the rows of its products alone. */
  predicate SparesDraft(w: World, v: World, id: BillId, mode: Mode) {
    && id in w.db.bills && id in v.db.bills && v.db.bills[id] == w.db.bills[id]
    && forall p | p in w.db.shelf && Returns(w.db.bills[id].lines, mode, p) :: p in v.db.shelf && v.db.shelf[p] == w.db.shelf[p]
  }

  lemma SparesDraftTwice(u: World, v: World, w: World, id: BillId, mode: Mode)
    requires SparesDraft(u, v, id, mode) && SparesDraft(v, w, id, mode)
    ensures SparesDraft(u, w, id, mode)
  {
    hide Returns;
  }

  /** These are the quantities and movements that the reversal leaves of its own products. */
  ghost predicate PutsBack(db: Db, lines: seq<Line>, mode: Mode, shelf: Shelf, movements: seq<Movement>) {
    var d := Restore(db.shelf, lines, mode);
    && d.Deducted? && d.movements == movements && d.shelf.Keys == db.shelf.Keys
    && forall p | p in db.shelf :: if Returns(lines, mode, p) then p in shelf && shelf[p] == d.shelf[p] else d.shelf[p] == db.shelf[p]
  }

  lemma ReversalPutsBack(db: Db, lines: seq<Line>, mode: Mode)
    requires NonNegative(db.shelf) && PositiveLines(lines) && KnownProducts(db.shelf, lines)
    ensures
      var d := Restore(db.shelf, lines, mode);
      d.Deducted? && PutsBack(db, lines, mode, d.shelf, d.movements)
  {
    RestoreIsRecorded(db.shelf, lines, mode, []);
    hide RestoreFrom, Requested, LedgerSum;
    forall p | p in db.shelf && !Returns(lines, mode, p) ensures Restore(db.shelf, lines, mode).shelf[p] == db.shelf[p] {
      if !mode.Disable? { NoneOfIt(lines, p); }
    }
  }

  lemma {:induction false} NoneOfIt(lines: seq<Line>, p: nat)
    requires forall k | 0 <= k < |lines| :: lines[k].product != Some(p)
    ensures Requested(lines, p) == 0
  {
    if lines != [] {
      assert forall k | 0 <= k < |lines| - 1 :: lines[1..][k] == lines[k + 1];
      NoneOfIt(lines[1..], p);
    }
  }

  lemma PutsBackStays(w: World, v: World, id: BillId, mode: Mode, shelf: Shelf, movements: seq<Movement>)
    requires SparesDraft(w, v, id, mode) && v.db.shelf.Keys == w.db.shelf.Keys
    requires NonNegative(w.db.shelf) && NonNegative(v.db.shelf)
    requires PositiveLines(w.db.bills[id].lines) && KnownProducts(w.db.shelf, w.db.bills[id].lines)
    requires PutsBack(w.db, w.db.bills[id].lines, mode, shelf, movements)
    ensures PutsBack(v.db, w.db.bills[id].lines, mode, shelf, movements)
  {
    var lines := w.db.bills[id].lines;
    RestoreIsRecorded(w.db.shelf, lines, mode, []);
    RestoreIsRecorded(v.db.shelf, lines, mode, []);
    ReversalIsItsLines(w.db.shelf, v.db.shelf, lines, mode, []);
    ReversalPutsBack(v.db, lines, mode);
    hide RestoreFrom, Requested, LedgerSum, Returns;
  }

  /** No other transaction writes a bill whose row is held. */
  lemma HeldBillStays(w: World, a: Action, t: TxId, id: BillId)
    requires Inv(w) && t in w.txs && HoldsRow(w.txs[t], id) && a.t != t && id in w.db.bills
    ensures id in Step(w, a).db.bills && Step(w, a).db.bills[id] == w.db.bills[id]
  {
    hide Step, DbOk, TxOk, AnswerOk, Committed, DeletedDb;
    if Step(w, a).db != w.db {
      OnlyCommitsCommit(w, a);
      assert Compatible(w.txs[a.t], w.txs[t]);
      hide Inv;
      if a.Commit? {
        CommitWritesOneBill(w.tenant, w.db, w.txs[a.t], a.mode, a.unread, a.rowId, a.eventId);
      } else if a.CommitDelete? {
        DeletionWritesOneBill(w.db, w.txs[a.t].stage.bill, a.mode);
      }
    }
  }

  lemma CommitWritesOneBill(tenant: Tenant, db: Db, tx: Tx, mode: Mode, unread: set<nat>, rowId: RowId, eventId: string)
    requires tx.SaleTx? && tx.stage.Updated? && Committed(tenant, db, tx, mode, unread, rowId, eventId).Some?
    ensures
      var d := Committed(tenant, db, tx, mode, unread, rowId, eventId).value;
      && tx.stage.bill in d.bills && d.bills == db.bills[tx.stage.bill := d.bills[tx.stage.bill]]
      && d.strays.payments == if tx.draft.Some? then db.strays.payments - {tx.stage.bill} else db.strays.payments
  {
    hide FinishedBill, SaleDeduction, QueuedEvent, Storable, SaleLines;
  }

  lemma DeletionWritesOneBill(db: Db, id: BillId, mode: Mode)
    requires id in db.bills && DeletedDb(db, id, mode).Some?
    ensures DeletedDb(db, id, mode).value.bills == db.bills[id := db.bills[id].(state := -1)]
    ensures DeletedDb(db, id, mode).value.strays == db.strays
  {
    hide Restore;
  }

  lemma CommitDeleteStep(w: World, t: TxId, id: BillId, mode: Mode)
    requires IsDelete(w, t, id, Opened(id)) && id in w.db.bills && Restore(w.db.shelf, w.db.bills[id].lines, mode).Deducted?
    ensures
      var v, d := Step(w, CommitDelete(t, mode)), Restore(w.db.shelf, w.db.bills[id].lines, mode);
      && v.db == w.db.(bills := w.db.bills[id := w.db.bills[id].(state := -1)], shelf := d.shelf,
                       movements := w.db.movements + d.movements)
      && IsDelete(v, t, id, Done(Deleted))
  {
    hide Restore;
  }
}
