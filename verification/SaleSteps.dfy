/** Each action of the sale command keeps the invariant. */
module SaleSteps {
  import opened Options
  import opened LineTotals
  import opened Stock
  import opened SaleTypes
  import opened SaleProtocol
  import opened SaleInvariant

  // ---------------------------------------------------------------- steps that commit nothing

  ghost predicate LocksFree(w: World, t: TxId, tx: Tx) {
    forall o | o in w.txs && o != t :: Compatible(tx, w.txs[o]) && Compatible(w.txs[o], tx)
  }

  lemma MoveKeepsInv(w: World, v: World, t: TxId, tx: Tx)
    requires Inv(w)
    requires v.txs == w.txs[t := tx] && v.db == w.db && v.tenant == w.tenant && v.adrift == w.adrift
    requires TxOk(w.db, tx) && LocksFree(w, t, tx)
    requires w.answers <= v.answers
    requires forall k | |w.answers| <= k < |v.answers| :: AnswerOk(w.db, v.answers[k])
    ensures Inv(v)
  {
    hide DbOk, TxOk, Compatible, AnswerOk;
    forall k | 0 <= k < |v.answers| ensures AnswerOk(v.db, v.answers[k]) {
      if k < |w.answers| { assert v.answers[k] == w.answers[k]; }
    }
  }

  /** It has lost its transaction and goes on. */
  predicate Drifting(tx: Tx) { tx.stage.Adrift? || tx.stage.AdriftQueued? || tx.stage.AdriftCleared? }

  /** A transaction that moves on without a new lock keeps out of the others' way. */
  lemma NoNewLocks(w: World, t: TxId, tx: Tx)
    requires LocksOk(w) && t in w.txs
    requires tx == w.txs[t].(stage := tx.stage)
    requires tx.stage.Begun? || tx.stage.Checked? || tx.stage.LostRace? || tx.stage.Done? || Drifting(tx)
    ensures LocksFree(w, t, tx)
  {
  }

  lemma GoToKeepsInv(w: World, t: TxId, otherwise: Stage)
    requires Inv(w) && t in w.txs && w.txs[t].SaleTx?
    requires otherwise.Checked? ==> w.txs[t].draft.None?
    requires otherwise.Checked? || (otherwise.Done? && !otherwise.reply.Saved?)
    ensures Inv(GoTo(w, t, RequestReply(w.db, w.txs[t], otherwise)))
  {
    hide DbOk, Compatible, AnswerOk, RecordedReply;
    var tx := w.txs[t];
    var stage := RequestReply(w.db, tx, otherwise);
    var v := GoTo(w, t, stage);
    assert TxOk(w.db, tx);
    var moved := tx.(stage := stage);
    NoNewLocks(w, t, moved);
    forall k | |w.answers| <= k < |v.answers| ensures AnswerOk(w.db, v.answers[k]) {
      RecordedReplyOk(w.tenant, w.db, tx);
    }
    MoveKeepsInv(w, v, t, moved);
  }

  /** A replay names the recorded bill, whose content is that of the request. */
  lemma RecordedReplyOk(tenant: Tenant, db: Db, tx: Tx)
    requires DbOk(tenant, db) && tx.SaleTx? && IdentOf(tx).Some? && tx.request.key in db.byRequest
    ensures
      var reply := RecordedReply(db, db.byRequest[tx.request.key], IdentOf(tx).value, tx.draft);
      reply.Saved? ==> AnswerOk(db, Answer(tx.request, tx.draft, reply.bill))
  {
    var id := db.byRequest[tx.request.key];
    assert BillOk(db, id);
  }

  lemma BeginKeepsInv(w: World, t: TxId, tx: Tx)
    requires Inv(w) && t !in w.txs && tx.stage.Begun?
    requires if tx.SaleTx? then Acceptable(tx.request) else tx.draft.Some?
    ensures Inv(w.(txs := w.txs[t := tx]))
  {
    MoveKeepsInv(w, w.(txs := w.txs[t := tx]), t, tx);
  }

  lemma CreateBillKeepsInv(w: World, t: TxId, id: BillId)
    requires Inv(w) && Ready(w, t, true) && w.txs[t].stage.Checked?
    requires id != 0 && id !in w.db.bills && id !in w.db.strays.ids && !RowHeld(w, t, id)
    ensures Inv(At(w, t, Opened(id)))
  {
    var tx := w.txs[t];
    assert TxOk(w.db, tx);
    assert LocksFree(w, t, tx.(stage := Opened(id)));
    MoveKeepsInv(w, At(w, t, Opened(id)), t, tx.(stage := Opened(id)));
  }

  lemma IdIsPositive(tenant: Tenant, db: Db, id: BillId)
    requires DbOk(tenant, db) && id in db.bills
    ensures id != 0
  {
    assert BillOk(db, id);
  }

  lemma LockBillKeepsInv(w: World, t: TxId)
    requires Inv(w) && t in w.txs && w.txs[t].stage.Begun? && w.txs[t].draft.Some?
    requires !RowHeld(w, t, w.txs[t].draft.value)
    ensures Inv(At(w, t, LockedStage(w.db, w.txs[t])))
  {
    hide DbOk, TxOk, Compatible, LockedStage;
    var tx := w.txs[t];
    var stage := LockedStage(w.db, tx);
    if tx.draft.value in w.db.bills { IdIsPositive(w.tenant, w.db, tx.draft.value); }
    LockedTxOk(w.db, tx);
    LockedLocksFree(w, t);
    MoveKeepsInv(w, At(w, t, stage), t, tx.(stage := stage));
  }

  lemma LockedTxOk(db: Db, tx: Tx)
    requires TxOk(db, tx) && tx.draft.Some?
    requires tx.draft.value in db.bills ==> tx.draft.value != 0
    ensures TxOk(db, tx.(stage := LockedStage(db, tx)))
  {
  }

  lemma LockedLocksFree(w: World, t: TxId)
    requires LocksOk(w) && t in w.txs && w.txs[t].stage.Begun? && w.txs[t].draft.Some?
    requires !RowHeld(w, t, w.txs[t].draft.value)
    ensures LocksFree(w, t, w.txs[t].(stage := LockedStage(w.db, w.txs[t])))
  {
  }

  lemma TakeNumberKeepsInv(w: World, t: TxId)
    requires Inv(w)
    ensures Inv(Step(w, TakeNumber(t)))
  {
    hide DbOk, TxOk, Compatible, LastValue;
    var v := Step(w, TakeNumber(t));
    if v != w {
      var tx := w.txs[t];
      NumberedTxOk(w.db, tx, v.txs[t].stage);
      NumberedLocksFree(w, t, v.txs[t]);
      MoveKeepsInv(w, v, t, v.txs[t]);
    }
  }

  lemma NumberedTxOk(db: Db, tx: Tx, stage: Stage)
    requires tx.SaleTx? && tx.stage.Opened? && TxOk(db, tx)
    requires stage == Numbered(tx.stage.bill, if tx.request.content.state > 0 then Some(LastValue(db, tx.request.content.branchId) + 1) else None)
    ensures TxOk(db, tx.(stage := stage))
  {
  }

  lemma NumberedLocksFree(w: World, t: TxId, tx: Tx)
    requires LocksOk(w) && Ready(w, t, true) && w.txs[t].stage.Opened?
    requires tx == w.txs[t].(stage := tx.stage) && tx.stage.Numbered? && tx.stage.bill == w.txs[t].stage.bill
    requires tx.stage.number.Some? ==> !CounterHeld(w, t, tx.request.content.branchId)
    ensures LocksFree(w, t, tx)
  {
  }

  /** The number is one past the last, so the branch's number key cannot be the one that collides. */
  lemma NumberIsUnused(db: Db, branchId: BranchId)
    requires NumbersOk(db)
    ensures Slot(branchId, LastValue(db, branchId) + 1) !in db.byNumber
  {
    var s := Slot(branchId, LastValue(db, branchId) + 1);
    assert s in db.byNumber ==> SlotOk(db, s);
  }

  /** The bill that a request key names is final. */
  lemma RecordedIsFinal(tenant: Tenant, db: Db, key: Key)
    requires DbOk(tenant, db) && key in db.byRequest
    ensures db.byRequest[key] in db.bills && FinalBill(db.bills[db.byRequest[key]])
  {
    assert BillOk(db, db.byRequest[key]);
  }

  lemma UpdateBillKeepsInv(w: World, t: TxId)
    requires Inv(w)
    ensures Inv(Step(w, UpdateBill(t)))
  {
    hide DbOk, TxOk, Compatible;
    var v := Step(w, UpdateBill(t));
    if v != w {
      var tx := w.txs[t];
      if tx.request.key in w.db.byRequest { RecordedIsFinal(w.tenant, w.db, tx.request.key); }
      UpdatedTxOk(w.db, tx, v.txs[t].stage);
      UpdatedLocksFree(w, t, v.txs[t]);
      MoveKeepsInv(w, v, t, v.txs[t]);
    }
  }

  lemma UpdatedTxOk(db: Db, tx: Tx, stage: Stage)
    requires tx.SaleTx? && tx.stage.Numbered? && TxOk(db, tx)
    requires
      || (stage.Done? && !stage.reply.Saved?)
      || (stage.LostRace? && tx.request.content.state > 0 && tx.request.key in db.byRequest)
      || (stage == Updated(tx.stage.bill, tx.stage.number) && (tx.request.content.state > 0 ==> tx.request.key !in db.byRequest))
    requires tx.request.key in db.byRequest ==>
      db.byRequest[tx.request.key] in db.bills && FinalBill(db.bills[db.byRequest[tx.request.key]])
    ensures TxOk(db, tx.(stage := stage))
  {
  }

  lemma UpdatedLocksFree(w: World, t: TxId, tx: Tx)
    requires LocksOk(w) && Ready(w, t, true) && w.txs[t].stage.Numbered?
    requires tx == w.txs[t].(stage := tx.stage)
    requires tx.stage.LostRace? || tx.stage.Done? || tx.stage == Updated(w.txs[t].stage.bill, w.txs[t].stage.number)
    requires tx.stage.Updated? && tx.request.content.state > 0 ==> !KeyHeld(w, t, tx.request.key)
    ensures LocksFree(w, t, tx)
  {
  }

  lemma AbortKeepsInv(w: World, t: TxId)
    requires Inv(w) && t in w.txs
    ensures Inv(At(w, t, Done(Failed)))
  {
    var tx := w.txs[t].(stage := Done(Failed));
    assert TxOk(w.db, w.txs[t]);
    NoNewLocks(w, t, tx);
    MoveKeepsInv(w, At(w, t, Done(Failed)), t, tx);
  }

  // ---------------------------------------------------------------- sales adrift

  /** What a step of a sale adrift leaves of the database, and the stray rows, payments and ids that it may add. */
  ghost predicate StrayWrite(db: Db, d: Db) {
    && d == db.(shelf := d.shelf, movements := d.movements, strays := d.strays)
    && d.shelf.Keys == db.shelf.Keys && NonNegative(d.shelf) && db.strays.ids <= d.strays.ids && StraysOk(d)
  }

  lemma StraysKeepDb(tenant: Tenant, db: Db, d: Db)
    requires DbOk(tenant, db) && StrayWrite(db, d)
    ensures DbOk(tenant, d) && FinalsKept(db, d)
  {
    hide LinesOk, PaymentOk, BillEvent, StateOk, StraysOk;
    forall id | id in d.bills ensures BillOk(d, id) {
      assert BillOk(db, id);
      SameBillOk(db, d, id);
    }
    SameTablesOk(tenant, db, d);
  }

  lemma SameBillOk(db: Db, d: Db, id: BillId)
    requires id in db.bills && BillOk(db, id) && id in d.bills && d.bills[id] == db.bills[id]
    requires d.byRequest == db.byRequest && d.byNumber == db.byNumber && d.shelf.Keys == db.shelf.Keys
    ensures BillOk(d, id)
  {
    hide SaleLines, RefreshedTotals, Storable;
  }

  lemma SameTablesOk(tenant: Tenant, db: Db, d: Db)
    requires RequestKeysOk(db) && NumbersOk(db) && EventsOk(tenant, db) && DeductionsOk(db)
    requires d == db.(shelf := d.shelf, movements := d.movements, strays := d.strays)
    ensures RequestKeysOk(d) && NumbersOk(d) && EventsOk(tenant, d) && DeductionsOk(d)
  {
    SameNumbersOk(db, d);
    SameEventsOk(tenant, db, d);
    hide NumbersOk, EventsOk;
  }

  lemma SameNumbersOk(db: Db, d: Db)
    requires NumbersOk(db) && d.bills == db.bills && d.byNumber == db.byNumber && d.counters == db.counters
    ensures NumbersOk(d)
  {
    forall s | s in d.byNumber ensures SlotOk(d, s) { assert SlotOk(db, s); }
    assert forall b: BranchId :: LastValue(d, b) == LastValue(db, b);
  }

  lemma SameEventsOk(tenant: Tenant, db: Db, d: Db)
    requires EventsOk(tenant, db) && d.bills == db.bills && d.outbox == db.outbox
    ensures EventsOk(tenant, d)
  {
    hide BillEvent, FinalBill;
    forall i | i in d.outbox ensures EventOk(tenant, d, d.outbox[i]) { assert EventOk(tenant, db, db.outbox[i]); }
    forall id | id in d.bills && FinalBill(d.bills[id]) ensures exists i :: Reports(d, i, id) {
      var i :| Reports(db, i, id);
      assert Reports(d, i, id);
    }
  }

  lemma StraysLeaveTx(db: Db, d: Db, tx: Tx)
    requires TxOk(db, tx) && StrayWrite(db, d)
    requires forall id | id in d.strays.ids && id !in db.strays.ids :: !HoldsRow(tx, id)
    ensures TxOk(d, tx)
  {
    hide Acceptable, StraysOk;
    assert tx.SaleTx? ==> LastValue(d, tx.request.content.branchId) == LastValue(db, tx.request.content.branchId);
  }

  /** The step of a sale adrift, or the one that sets it adrift. */
  ghost predicate StrayMove(w: World, v: World, t: TxId) {
    && t in w.txs && t in v.txs && v.txs == w.txs[t := v.txs[t]] && v.txs[t] == w.txs[t].(stage := v.txs[t].stage)
    && v.tenant == w.tenant && v.answers == w.answers && StrayWrite(w.db, v.db)
    && (forall id | id in v.db.strays.ids && id !in w.db.strays.ids :: HoldsRow(w.txs[t], id))
    && TxOk(v.db, v.txs[t]) && (Drifting(v.txs[t]) || v.txs[t].stage.Done?)
    && w.adrift <= v.adrift && forall k | |w.adrift| <= k < |v.adrift| :: AdriftOk(v.db, v.adrift[k])
  }

  lemma StrayMoveKeepsInv(w: World, v: World, t: TxId)
    requires Inv(w) && StrayMove(w, v, t)
    ensures Inv(v) && FinalsKept(w.db, v.db)
  {
    hide DbOk, TxOk, AnswerOk, FinalsKept, NonNegative, StraysOk;
    StraysKeepDb(w.tenant, w.db, v.db);
    NoNewLocks(w, t, v.txs[t]);
    forall o | o in v.txs ensures TxOk(v.db, v.txs[o]) {
      if o != t { OthersAreNotDropped(w, v.db, t, o); }
    }
    hide Compatible, HoldsRow;
    forall k | 0 <= k < |v.answers| ensures AnswerOk(v.db, v.answers[k]) { AnswerKept(w.db, v.db, w.answers[k]); }
    forall k | 0 <= k < |v.adrift| ensures AdriftOk(v.db, v.adrift[k]) {
      if k < |w.adrift| { assert v.adrift[k] == w.adrift[k]; }
    }
  }

  lemma OthersAreNotDropped(w: World, d: Db, t: TxId, o: TxId)
    requires LocksOk(w) && t in w.txs && o in w.txs && o != t && TxOk(w.db, w.txs[o]) && StrayWrite(w.db, d)
    requires forall id | id in d.strays.ids && id !in w.db.strays.ids :: HoldsRow(w.txs[t], id)
    ensures TxOk(d, w.txs[o])
  {
    assert Compatible(w.txs[t], w.txs[o]);
    hide TxOk, StrayWrite, LocksOk;
    StraysLeaveTx(w.db, d, w.txs[o]);
  }

  lemma DbStrays(tenant: Tenant, db: Db)
    requires DbOk(tenant, db)
    ensures StraysOk(db) && NonNegative(db.shelf)
  {
    hide BillOk, RequestKeysOk, NumbersOk, EventsOk, DeductionsOk, StraysOk, NonNegative;
  }

  lemma LoseKeepsInv(w: World, t: TxId, mode: Mode, unread: set<nat>, line: nat)
    requires Inv(w) && t in w.txs && CanBeLost(w.db, w.txs[t], mode, unread, line)
    ensures Inv(LoseStep(w, t, mode, line)) && FinalsKept(w.db, LoseStep(w, t, mode, line).db)
  {
    hide DbOk, Compatible, AnswerOk, AdriftOk, DeductFrom, Storable;
    DbStrays(w.tenant, w.db);
    assert TxOk(w.db, w.txs[t]);
    hide Inv;
    LostTxOk(w, t, mode, line);
    hide TxOk;
    StrayMoveKeepsInv(w, LoseStep(w, t, mode, line), t);
  }

  lemma LostTxOk(w: World, t: TxId, mode: Mode, line: nat)
    requires t in w.txs && w.txs[t].SaleTx? && w.txs[t].stage.Updated? && w.txs[t].request.content.state > 0 && TxOk(w.db, w.txs[t])
    requires !mode.Disable? && line < |w.txs[t].request.content.products|
    ensures
      var v := LoseStep(w, t, mode, line);
      TxOk(v.db, v.txs[t])
  {
    var c := w.txs[t].request.content;
    assert forall i | 0 <= i < |c.products| :: c.products[i] in c.products + c.manualProducts;
  }

  /** A quantity that an update leaves is not negative, so no stray line breaks the table's CHECK. */
  lemma StrayLineKeepsInv(w: World, t: TxId, read: bool, recorded: bool)
    requires Inv(w) && t in w.txs && w.txs[t].stage.Adrift? && w.txs[t].stage.left != []
    ensures Inv(StrayLineStep(w, t, read, recorded)) && FinalsKept(w.db, StrayLineStep(w, t, read, recorded).db)
  {
    StrayLineMoves(w, t, read, recorded);
    hide Inv, FinalsKept, StrayLineStep, StrayMove;
    StrayMoveKeepsInv(w, StrayLineStep(w, t, read, recorded), t);
  }

  /** The stage that a sale adrift goes on to, or its end. */
  ghost predicate GoesOn(tx: Tx, stage: Stage) {
    && tx.SaleTx? && Drifting(tx)
    && (stage.Done?
        || (Drifting(tx.(stage := stage)) && stage.bill == tx.stage.bill
            && (stage.Adrift? ==> !stage.mode.Disable? && Positive(stage.left))))
  }

  lemma GoingOnMoves(w: World, t: TxId, stage: Stage, d: Db)
    requires t in w.txs && TxOk(w.db, w.txs[t]) && GoesOn(w.txs[t], stage)
    requires StrayWrite(w.db, d) && d.strays.ids == w.db.strays.ids && d.bills == w.db.bills
    ensures StrayMove(w, At(w, t, stage).(db := d), t)
  {
    hide StrayWrite, Positive, Acceptable;
  }

  lemma StrayLineMoves(w: World, t: TxId, read: bool, recorded: bool)
    requires Inv(w) && t in w.txs && w.txs[t].stage.Adrift? && w.txs[t].stage.left != []
    ensures StrayMove(w, StrayLineStep(w, t, read, recorded), t)
  {
    AdriftFacts(w, t);
    hide Inv, StrayMove;
    var Adrift(id, mode, left) := w.txs[t].stage;
    var d := TakenLine(w.db, left[0], mode, read, recorded);
    TakingIsAWrite(w.db, left[0], mode, read, recorded);
    LeftStaysPositive(left);
    hide TakenLine, TxOk, StrayWrite, StopsAt, IsRead, Positive;
    GoingOnMoves(w, t, Done(Failed), d);
    GoingOnMoves(w, t, Adrift(id, mode, left[1..]), d);
  }

  lemma AdriftFacts(w: World, t: TxId)
    requires Inv(w) && t in w.txs && w.txs[t].stage.Adrift?
    ensures TxOk(w.db, w.txs[t]) && w.txs[t].SaleTx? && StraysOk(w.db) && NonNegative(w.db.shelf)
    ensures Positive(w.txs[t].stage.left) && !w.txs[t].stage.mode.Disable?
    ensures w.txs[t].stage.bill in w.db.strays.ids + w.db.bills.Keys
  {
    hide DbOk, Compatible, AnswerOk, AdriftOk, Acceptable, Positive;
    DbStrays(w.tenant, w.db);
    assert TxOk(w.db, w.txs[t]);
  }

  lemma LeftStaysPositive(left: seq<Item>)
    requires left != [] && Positive(left)
    ensures Positive(left[1..])
  {
  }

  lemma TakingIsAWrite(db: Db, l: Item, mode: Mode, read: bool, recorded: bool)
    requires StraysOk(db) && NonNegative(db.shelf)
    ensures
      var d := TakenLine(db, l, mode, read, recorded);
      StrayWrite(db, d) && d.strays.ids == db.strays.ids && d.bills == db.bills
  {
    hide Moved, Stored;
  }

  lemma StrayEventKeepsInv(w: World, t: TxId, rowId: RowId, eventId: string)
    requires Inv(w) && Ready(w, t, true) && w.txs[t].stage.Adrift? && w.txs[t].request.content.state > 0
    ensures Inv(StrayEventStep(w, t, rowId, eventId)) && FinalsKept(w.db, StrayEventStep(w, t, rowId, eventId).db)
  {
    StrayEventMoves(w, t, rowId, eventId);
    hide Inv, FinalsKept, StrayEventStep, StrayMove;
    StrayMoveKeepsInv(w, StrayEventStep(w, t, rowId, eventId), t);
  }

  lemma StrayEventMoves(w: World, t: TxId, rowId: RowId, eventId: string)
    requires Inv(w) && Ready(w, t, true) && w.txs[t].stage.Adrift? && w.txs[t].request.content.state > 0
    ensures StrayMove(w, StrayEventStep(w, t, rowId, eventId), t)
  {
    AdriftFacts(w, t);
    hide Inv, StrayMove;
    StrayEventIsWritten(w, t, rowId, eventId);
    var v := StrayEventStep(w, t, rowId, eventId);
    hide StrayEventStep, TxOk, StrayWrite, GoesOn;
    GoingOnMoves(w, t, v.txs[t].stage, v.db);
  }

  lemma StrayEventIsWritten(w: World, t: TxId, rowId: RowId, eventId: string)
    requires Ready(w, t, true) && w.txs[t].stage.Adrift? && w.txs[t].request.content.state > 0
    requires StraysOk(w.db) && NonNegative(w.db.shelf) && w.txs[t].stage.bill in w.db.strays.ids + w.db.bills.Keys
    ensures
      var v := StrayEventStep(w, t, rowId, eventId);
      && t in v.txs && v == At(w, t, v.txs[t].stage).(db := v.db) && GoesOn(w.txs[t], v.txs[t].stage)
      && StrayWrite(w.db, v.db) && v.db.strays.ids == w.db.strays.ids && v.db.bills == w.db.bills
  {
    var tx := w.txs[t];
    EventFields(w.tenant, tx.stage.bill, tx.request.content.branchId, IdentOf(tx).value, eventId);
    hide BillEvent, NonNegative;
  }

  lemma EventFields(tenant: Tenant, id: BillId, branchId: BranchId, ident: Identity, eventId: string)
    ensures
      var e := BillEvent(tenant, id, branchId, ident, eventId);
      e.Some? ==> e.value.payload.id == id && e.value.eventId == eventId
  {
  }

  lemma ClearKeepsInv(w: World, t: TxId)
    requires Inv(w) && Ready(w, t, true) && w.txs[t].stage.AdriftQueued?
    ensures Inv(ClearStep(w, t)) && FinalsKept(w.db, ClearStep(w, t).db)
  {
    hide DbOk, Compatible, AnswerOk, AdriftOk, Acceptable;
    var v := ClearStep(w, t);
    DbStrays(w.tenant, w.db);
    assert TxOk(w.db, w.txs[t]);
    hide Inv;
    assert TxOk(v.db, v.txs[t]) && StrayWrite(w.db, v.db);
    hide TxOk, StrayWrite;
    StrayMoveKeepsInv(w, v, t);
  }

  lemma PayKeepsInv(w: World, t: TxId, delivered: bool)
    requires Inv(w) && Ready(w, t, true) && w.txs[t].stage.AdriftCleared?
    ensures Inv(PayStep(w, t, delivered)) && FinalsKept(w.db, PayStep(w, t, delivered).db)
  {
    hide DbOk, Compatible, AnswerOk, Acceptable, PaymentsOf, Stored;
    var v := PayStep(w, t, delivered);
    DbStrays(w.tenant, w.db);
    assert TxOk(w.db, w.txs[t]);
    hide Inv;
    assert TxOk(v.db, v.txs[t]) && StrayWrite(w.db, v.db);
    hide TxOk, StrayWrite;
    StrayMoveKeepsInv(w, v, t);
  }
}
