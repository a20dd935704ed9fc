/**
 Sales whose transaction was dropped at a failed read of stock, and which went on without it: what they leave in the outbox, in
 the payments and in the answers, over every run, and what is true exactly when there are none.
 */
module SaleStrays {
  import opened Options
  import opened LineTotals
  import opened DocumentKeys
  import opened Stock
  import opened SaleTypes
  import opened SaleProtocol
  import opened SaleInvariant
  import opened SaleSteps
  import opened SaleCommit
  import opened SaleTheorems
  import opened SaleMoves
  import opened SaleDrafts

  // ---------------------------------------------------------------- the outbox table

  /** The step appends the event of a sale adrift. */
  predicate AppendsStray(w: World, a: Action) { a.AppendStrayEvent? && Step(w, a).db.strays.outbox != w.db.strays.outbox }

  /** How many times a run does so. */
  function StrayEvents(w: World, actions: seq<Action>): nat {
    if actions == [] then 0
    else
      var n := |actions| - 1;
      StrayEvents(w, actions[..n]) + if AppendsStray(Run(w, actions[..n]), actions[n]) then 1 else 0
  }

  /** No step but those changes the stray rows, and each adds one. */
  lemma StrayRowsGrow(w: World, a: Action)
    ensures |Step(w, a).db.strays.outbox| == |w.db.strays.outbox| + if AppendsStray(w, a) then 1 else 0
  {
    if a.AppendStrayEvent? {
      hide BillEvent, At;
      if AppendsStray(w, a) {
        var before, after := w.db.strays.outbox, Step(w, a).db.strays.outbox;
        assert after.Keys == before.Keys + {a.rowId} && a.rowId !in before;
        assert |after| == |after.Keys| && |before| == |before.Keys|;
      }
    } else {
      OthersAppendNoStray(w, a);
      hide Step;
    }
  }

  lemma OthersAppendNoStray(w: World, a: Action)
    requires !a.AppendStrayEvent?
    ensures Step(w, a).db.strays.outbox == w.db.strays.outbox
  {
    hide FinishedBill, SaleDeduction, QueuedEvent, Storable, SaleLines, Restore, RequestReply, LockedStage, CanBeLost, StopsAt;
    hide RowHeld, CounterHeld, KeyHeld, LastValue, Acceptable, Moved, PaymentsOf;
  }

  lemma {:induction false} StrayRowsAreCounted(w: World, actions: seq<Action>)
    requires Initial(w)
    ensures |Run(w, actions).db.strays.outbox| == StrayEvents(w, actions)
  {
    hide Step, AppendsStray;
    if actions != [] {
      var n := |actions| - 1;
      StrayRowsAreCounted(w, actions[..n]);
      StrayRowsGrow(Run(w, actions[..n]), actions[n]);
    }
  }

  /** All or nothing: each row of the outbox table reports a final bill, and each final bill has one row. */
  ghost predicate ReportedOnce(db: Db) {
    && (forall i | i in Outbox(db) :: Outbox(db)[i].payload.id in db.bills && FinalBill(db.bills[Outbox(db)[i].payload.id]))
    && (forall id | id in db.bills && FinalBill(db.bills[id]) :: |EventsOfBill(db, id)| == 1)
  }

  /**
   Over every run, the sales and the outbox table say the same if and only if no sale adrift has appended its event. The
   transaction of such a sale was dropped at a read of stock, and its bill is not the one that the row reports.
   */
  lemma ReportedOnceIff(w: World, actions: seq<Action>)
    requires Initial(w)
    ensures ReportedOnce(Run(w, actions).db) <==> StrayEvents(w, actions) == 0
  {
    hide Run, StrayEvents, ReportedOnce;
    RunIsSound(w, actions);
    StrayRowsAreCounted(w, actions);
    var v := Run(w, actions);
    NoStrayRowsIff(v.tenant, v.db);
    assert |v.db.strays.outbox| == 0 <==> v.db.strays.outbox == map[];
  }

  lemma NoStrayRowsIff(tenant: Tenant, db: Db)
    requires DbOk(tenant, db)
    ensures ReportedOnce(db) <==> db.strays.outbox == map[]
  {
    DbHasParts(tenant, db);
    hide *;
    if db.strays.outbox == map[] {
      NoStrayRows(tenant, db);
    } else {
      StrayRowIsOneMore(tenant, db);
    }
  }

  lemma NoStrayRows(tenant: Tenant, db: Db)
    requires EventsOk(tenant, db) && StraysOk(db) && db.strays.outbox == map[]
    requires forall id | id in db.bills :: StateOk(db, id, db.bills[id])
    ensures ReportedOnce(db)
  {
    forall id | id in db.bills && FinalBill(db.bills[id]) ensures |EventsOfBill(db, id)| == 1 {
      OneEvent(tenant, db, id) by { hide *; }
      NoStrayRowOf(db, id);
    }
    hide EventsOfBill, StateOk, StraysOk;
    forall i | i in Outbox(db) ensures Outbox(db)[i].payload.id in db.bills && FinalBill(db.bills[Outbox(db)[i].payload.id]) {
      RowIsOfAFinalBill(tenant, db, i);
    }
  }

  lemma RowIsOfAFinalBill(tenant: Tenant, db: Db, i: RowId)
    requires EventsOk(tenant, db) && i in db.outbox && forall id | id in db.bills :: StateOk(db, id, db.bills[id])
    ensures db.outbox[i].payload.id in db.bills && FinalBill(db.bills[db.outbox[i].payload.id])
  {
    assert EventOk(tenant, db, db.outbox[i]);
    assert StateOk(db, db.outbox[i].payload.id, db.bills[db.outbox[i].payload.id]);
  }

  lemma StrayRowIsOneMore(tenant: Tenant, db: Db)
    requires EventsOk(tenant, db) && StraysOk(db) && db.strays.outbox != map[]
    ensures !ReportedOnce(db)
  {
    var i :| i in db.strays.outbox;
    var id := db.strays.outbox[i].payload.id;
    assert Outbox(db)[i] == db.strays.outbox[i];
    SomeStrayRowOf(db, i);
    hide EventsOk, StraysOk, StrayRows, EventsOfBill;
    if ReportedOnce(db) { OneEvent(tenant, db, id); }
  }

  lemma NoStrayRowOf(db: Db, id: BillId)
    requires db.strays.outbox == map[]
    ensures |StrayRows(db, id)| == 0
  {
    assert StrayRows(db, id) == {};
  }

  lemma SomeStrayRowOf(db: Db, i: RowId)
    requires i in db.strays.outbox
    ensures |StrayRows(db, db.strays.outbox[i].payload.id)| > 0
  {
    assert i in StrayRows(db, db.strays.outbox[i].payload.id);
  }

  // ---------------------------------------------------------------- the documents of the stray rows

  /** Its document is that of its payload. */
  predicate NamesItsDocument(tenant: Tenant, e: Event) {
    DocumentKey(tenant.key, e.payload.branchId, DOC_BILL, e.payload.id) == Some(e.documentKey)
  }

  /** A new sale adrift that has not appended its event yet. */
  predicate NewAndUnreported(tx: Tx) { tx.SaleTx? && tx.draft.None? && tx.stage.Adrift? }

  /** A new sale adrift that is not over. */
  predicate NewDrifting(tx: Tx) { tx.SaleTx? && tx.draft.None? && Drifting(tx) }

  predicate NoStrayRowOfTx(db: Db, tx: Tx)
    requires tx.stage.Adrift?
  {
    forall i | i in db.strays.outbox :: db.strays.outbox[i].payload.id != tx.stage.bill
  }

  ghost predicate RowsNameTheirDocuments(w: World) {
    forall i | i in w.db.strays.outbox :: NamesItsDocument(w.tenant, w.db.strays.outbox[i])
  }

  /** Two stray rows of one bill are of a bill in the database: of a draft. */
  ghost predicate OnlyDraftsHaveTwo(w: World) {
    forall i, j | i in w.db.strays.outbox && j in w.db.strays.outbox && i != j
                  && w.db.strays.outbox[i].payload.id == w.db.strays.outbox[j].payload.id ::
      w.db.strays.outbox[i].payload.id in w.db.bills
  }

  ghost predicate UnreportedHaveNone(w: World) {
    && (forall t | t in w.txs && NewAndUnreported(w.txs[t]) :: NoStrayRowOfTx(w.db, w.txs[t]))
    && (forall t, o | t in w.txs && o in w.txs && t != o && NewAndUnreported(w.txs[t]) && NewAndUnreported(w.txs[o]) ::
          w.txs[t].stage.bill != w.txs[o].stage.bill)
  }

  ghost predicate OrphansOk(w: World) { RowsNameTheirDocuments(w) && OnlyDraftsHaveTwo(w) && UnreportedHaveNone(w) }

  lemma {:induction false} OrphansStayOk(w: World, actions: seq<Action>)
    requires Initial(w)
    ensures OrphansOk(Run(w, actions))
  {
    hide Step, OrphansOk, Inv;
    if actions == [] {
      NoOrphansAtFirst(w);
    } else {
      var n := |actions| - 1;
      OrphansStayOk(w, actions[..n]);
      RunIsSound(w, actions[..n]);
      StepKeepsOrphans(Run(w, actions[..n]), actions[n]);
    }
  }

  lemma NoOrphansAtFirst(w: World)
    requires Initial(w)
    ensures OrphansOk(w)
  {
  }

  lemma StepKeepsOrphans(w: World, a: Action)
    requires Inv(w) && OrphansOk(w)
    ensures OrphansOk(Step(w, a))
  {
    hide Step, Inv, OrphansOk;
    if a.LoseTransaction? {
      LoseKeepsOrphans(w, a);
    } else if a.AppendStrayEvent? {
      AppendKeepsOrphans(w, a);
    } else {
      BillsStay(w, a);
      OthersAppendNoStray(w, a);
      StageAfter(w, a);
      StepIsOfOneTx(w, a);
      RestKeepsOrphans(w, Step(w, a), a.t);
    }
  }

  lemma BillsStay(w: World, a: Action)
    ensures forall id | id in w.db.bills :: id in Step(w, a).db.bills
  {
    hide Step, Committed, DeletedDb;
    if Step(w, a).db != w.db {
      OnlyCommitsCommit(w, a);
      if a.Commit? {
        CommitWritesOneBill(w.tenant, w.db, w.txs[a.t], a.mode, a.unread, a.rowId, a.eventId);
      } else if a.CommitDelete? {
        DeletionWritesOneBill(w.db, w.txs[a.t].stage.bill, a.mode);
      }
    }
  }

  lemma StepIsOfOneTx(w: World, a: Action)
    ensures Step(w, a).tenant == w.tenant
    ensures forall t | t != a.t :: (t in Step(w, a).txs <==> t in w.txs) && (t in w.txs ==> Step(w, a).txs[t] == w.txs[t])
  {
    hide Step;
    forall t | t != a.t ensures (t in Step(w, a).txs <==> t in w.txs) && (t in w.txs ==> Step(w, a).txs[t] == w.txs[t]) {
      StepLeavesTx(w, a, t);
    }
    StepLeavesTx(w, a, a.t + 1);
  }

  /** Transaction t is adrift after the step only as it was before. */
  predicate DriftsOn(w: World, v: World, t: TxId) {
    t in v.txs && Drifting(v.txs[t]) ==>
      && t in w.txs && Drifting(w.txs[t]) && (v.txs[t].stage.Adrift? ==> w.txs[t].stage.Adrift?)
      && v.txs[t].stage.bill == w.txs[t].stage.bill && w.txs[t].SaleTx? == v.txs[t].SaleTx? && w.txs[t].draft == v.txs[t].draft
  }

  /** Only the loss of a transaction sets a sale adrift, and its stock loop keeps its bill. */
  lemma StageAfter(w: World, a: Action)
    requires !a.LoseTransaction?
    ensures DriftsOn(w, Step(w, a), a.t)
  {
    hide Step, DriftsOn;
    if OfSaleAdrift(a) { AdriftStageAfter(w, a); } else { OtherStageAfter(w, a); }
  }

  lemma AdriftStageAfter(w: World, a: Action)
    requires OfSaleAdrift(a) && !a.LoseTransaction?
    ensures DriftsOn(w, Step(w, a), a.t)
  {
    hide BillEvent, FreshEvent, StopsAt, Moved, PaymentsOf, FinalSaleIdentity;
  }

  lemma OtherStageAfter(w: World, a: Action)
    requires !OfSaleAdrift(a)
    ensures DriftsOn(w, Step(w, a), a.t)
  {
    hide Committed, DeletedDb, RecordedReply, RowHeld, CounterHeld, KeyHeld, LastValue, Acceptable, FinalSaleIdentity;
  }

  lemma RestKeepsOrphans(w: World, v: World, t: TxId)
    requires OrphansOk(w) && v.tenant == w.tenant && v.db.strays.outbox == w.db.strays.outbox
    requires forall id | id in w.db.bills :: id in v.db.bills
    requires forall o | o != t :: (o in v.txs <==> o in w.txs) && (o in w.txs ==> v.txs[o] == w.txs[o])
    requires DriftsOn(w, v, t)
    ensures OrphansOk(v)
  {
    hide NamesItsDocument;
  }

  lemma LoseKeepsOrphans(w: World, a: Action)
    requires Inv(w) && OrphansOk(w) && a.LoseTransaction?
    ensures OrphansOk(Step(w, a))
  {
    if Step(w, a) != w {
      LoseIs(w, a);
      AdriftIdsAreDropped(w);
      DbStrays(w.tenant, w.db) by { hide DbOk, TxOk, LocksOk, AnswerOk; }
      hide Inv, Step, NamesItsDocument;
      OneMoreAdrift(w, Step(w, a), a.t);
    }
  }

  lemma LoseIs(w: World, a: Action)
    requires Inv(w) && a.LoseTransaction? && Step(w, a) != w
    ensures
      var v := Step(w, a);
      && a.t in w.txs && a.t in v.txs && v.txs == w.txs[a.t := v.txs[a.t]] && v.tenant == w.tenant
      && v.db.bills == w.db.bills && v.db.strays.outbox == w.db.strays.outbox && v.txs[a.t].stage.Adrift?
      && (NewAndUnreported(v.txs[a.t]) ==> v.txs[a.t].stage.bill !in w.db.bills && v.txs[a.t].stage.bill !in w.db.strays.ids)
  {
    hide LocksOk, AnswerOk, DbOk, LostAt, Storable, SaleLines, Acceptable, NumberOk;
    assert TxOk(w.db, w.txs[a.t]);
    hide Inv;
  }

  lemma AdriftIdsAreDropped(w: World)
    requires Inv(w)
    ensures forall t | t in w.txs && NewDrifting(w.txs[t]) :: w.txs[t].stage.bill in w.db.strays.ids
  {
    hide LocksOk, AnswerOk, DbOk, Acceptable, NumberOk;
    forall t | t in w.txs && NewDrifting(w.txs[t]) ensures w.txs[t].stage.bill in w.db.strays.ids { assert TxOk(w.db, w.txs[t]); }
  }

  lemma OneMoreAdrift(w: World, v: World, t: TxId)
    requires OrphansOk(w) && StraysOk(w.db) && t in w.txs && t in v.txs && v.txs == w.txs[t := v.txs[t]] && v.tenant == w.tenant
    requires v.db.bills == w.db.bills && v.db.strays.outbox == w.db.strays.outbox
    requires NewAndUnreported(v.txs[t]) ==> v.txs[t].stage.bill !in w.db.bills && v.txs[t].stage.bill !in w.db.strays.ids
    requires forall o | o in w.txs && NewAndUnreported(w.txs[o]) :: w.txs[o].stage.bill in w.db.strays.ids
    ensures OrphansOk(v)
  {
    hide NamesItsDocument;
  }

  lemma AppendKeepsOrphans(w: World, a: Action)
    requires Inv(w) && OrphansOk(w) && a.AppendStrayEvent?
    ensures OrphansOk(Step(w, a))
  {
    hide OrphansOk;
    if Step(w, a).db != w.db {
      AppendWrites(w, a);
      hide Step, NamesItsDocument;
      AdriftIdsAreDropped(w);
      if w.txs[a.t].draft.Some? { AdriftDraftIsThere(w, a.t); }
      DbStrays(w.tenant, w.db) by { hide DbOk, TxOk, LocksOk, AnswerOk; }
      hide Inv;
      var tx := w.txs[a.t];
      DocumentIsNamed(w.tenant, tx.stage.bill, tx.request.content.branchId, IdentOf(tx).value, a.eventId);
      FreshRow(w.db, a.rowId, a.eventId);
      OneMoreOrphan(w, Step(w, a), a.t, a.rowId);
    } else {
      BillsStay(w, a);
      StageAfter(w, a);
      StepIsOfOneTx(w, a);
      hide Step, Inv;
      RestKeepsOrphans(w, Step(w, a), a.t);
    }
  }

  lemma AdriftDraftIsThere(w: World, t: TxId)
    requires Inv(w) && t in w.txs && w.txs[t].SaleTx? && w.txs[t].stage.Adrift? && w.txs[t].draft.Some?
    ensures w.txs[t].stage.bill in w.db.bills
  {
    hide LocksOk, AnswerOk, DbOk, Acceptable;
    assert TxOk(w.db, w.txs[t]);
  }

  lemma AppendWrites(w: World, a: Action)
    requires a.AppendStrayEvent? && Step(w, a).db != w.db
    ensures a.t in w.txs && w.txs[a.t].SaleTx? && w.txs[a.t].stage.Adrift? && w.txs[a.t].request.content.state > 0
    ensures FreshEvent(w.db, a.rowId, a.eventId)
    ensures
      var v, tx := Step(w, a), w.txs[a.t];
      var e := BillEvent(w.tenant, tx.stage.bill, tx.request.content.branchId, IdentOf(tx).value, a.eventId);
      && e.Some? && v.db.strays.outbox == w.db.strays.outbox[a.rowId := e.value] && v.db.bills == w.db.bills
      && v.tenant == w.tenant && v.txs == w.txs[a.t := tx.(stage := AdriftQueued(tx.stage.bill))]
  {
    hide BillEvent, FreshEvent, FinalSaleIdentity;
  }

  lemma DocumentIsNamed(tenant: Tenant, id: BillId, branchId: BranchId, ident: Identity, eventId: string)
    ensures
      var e := BillEvent(tenant, id, branchId, ident, eventId);
      e.Some? ==> e.value.payload.id == id && NamesItsDocument(tenant, e.value)
  {
  }

  lemma FreshRow(db: Db, row: RowId, eventId: string)
    requires FreshEvent(db, row, eventId)
    ensures row !in db.outbox && row !in db.strays.outbox
  {
  }

  /** The step of transaction t has appended this row for its bill. */
  predicate OneRowMore(w: World, v: World, t: TxId, row: RowId) {
    && t in w.txs && w.txs[t].SaleTx? && w.txs[t].stage.Adrift? && (w.txs[t].draft.Some? ==> w.txs[t].stage.bill in w.db.bills)
    && v.db.bills == w.db.bills && v.tenant == w.tenant && t in v.txs && v.txs == w.txs[t := v.txs[t]] && v.txs[t].stage.AdriftQueued?
    && row !in w.db.strays.outbox && row in v.db.strays.outbox
    && v.db.strays.outbox == w.db.strays.outbox[row := v.db.strays.outbox[row]]
    && v.db.strays.outbox[row].payload.id == w.txs[t].stage.bill
  }

  lemma OneMoreOrphan(w: World, v: World, t: TxId, row: RowId)
    requires OrphansOk(w) && StraysOk(w.db) && OneRowMore(w, v, t, row) && NamesItsDocument(w.tenant, v.db.strays.outbox[row])
    requires forall o | o in w.txs && NewAndUnreported(w.txs[o]) :: w.txs[o].stage.bill in w.db.strays.ids
    ensures OrphansOk(v)
  {
    OneMoreIsNamed(w, v, t, row);
    OneMoreOfADraft(w, v, t, row);
    OneMoreReported(w, v, t, row);
    hide RowsNameTheirDocuments, OnlyDraftsHaveTwo, UnreportedHaveNone;
  }

  lemma OneMoreIsNamed(w: World, v: World, t: TxId, row: RowId)
    requires RowsNameTheirDocuments(w) && OneRowMore(w, v, t, row) && NamesItsDocument(w.tenant, v.db.strays.outbox[row])
    ensures RowsNameTheirDocuments(v)
  {
    hide NamesItsDocument;
  }

  lemma OneMoreOfADraft(w: World, v: World, t: TxId, row: RowId)
    requires OnlyDraftsHaveTwo(w) && UnreportedHaveNone(w) && OneRowMore(w, v, t, row)
    ensures OnlyDraftsHaveTwo(v)
  {
    assert w.txs[t].draft.None? ==> NewAndUnreported(w.txs[t]);
  }

  lemma OneMoreReported(w: World, v: World, t: TxId, row: RowId)
    requires UnreportedHaveNone(w) && StraysOk(w.db) && OneRowMore(w, v, t, row)
    requires forall o | o in w.txs && NewAndUnreported(w.txs[o]) :: w.txs[o].stage.bill in w.db.strays.ids
    ensures UnreportedHaveNone(v)
  {
    assert w.txs[t].draft.None? ==> NewAndUnreported(w.txs[t]);
  }

  /**
   Over every run: two rows of the outbox table have one document key exactly when their bill and branch are the same. Two rows
   of one bill are those of a bill in the database, and one of them at least is of a sale of it as a draft that went adrift.
   */
  lemma RowsOfOneDocument(w: World, actions: seq<Action>, i: RowId, j: RowId)
    requires Initial(w) && i in Outbox(Run(w, actions).db) && j in Outbox(Run(w, actions).db)
    ensures
      var db := Run(w, actions).db;
      var x, y := Outbox(db)[i], Outbox(db)[j];
      && (x.documentKey == y.documentKey <==> x.payload.id == y.payload.id && x.payload.branchId == y.payload.branchId)
      && (x.payload.id == y.payload.id && i != j ==> x.payload.id in db.bills && (i in db.strays.outbox || j in db.strays.outbox))
  {
    hide Run;
    RunIsSound(w, actions);
    OrphansStayOk(w, actions);
    var v := Run(w, actions);
    DbHasEvents(v);
    hide Inv, NamesItsDocument, EventsOk, StraysOk, OnlyDraftsHaveTwo, RowsNameTheirDocuments, UnreportedHaveNone, Initial;
    RowNamesItsDocument(v, i);
    RowNamesItsDocument(v, j);
    SameKeySameDocument(v.tenant, Outbox(v.db)[i], Outbox(v.db)[j]);
    if Outbox(v.db)[i].payload.id == Outbox(v.db)[j].payload.id && i != j { OneIsStray(v, i, j); }
  }

  lemma DbHasEvents(v: World)
    requires Inv(v)
    ensures EventsOk(v.tenant, v.db) && StraysOk(v.db)
  {
    hide EventsOk, StraysOk, BillOk, RequestKeysOk, NumbersOk, DeductionsOk, TxOk, LocksOk, AnswerOk;
  }

  lemma RowNamesItsDocument(v: World, i: RowId)
    requires EventsOk(v.tenant, v.db) && StraysOk(v.db) && RowsNameTheirDocuments(v) && i in Outbox(v.db)
    ensures NamesItsDocument(v.tenant, Outbox(v.db)[i])
  {
    if i in v.db.outbox {
      var e := v.db.outbox[i];
      assert EventOk(v.tenant, v.db, e);
      DocumentIsNamed(v.tenant, e.payload.id, v.db.bills[e.payload.id].content.branchId, v.db.bills[e.payload.id].ident.value, e.eventId);
    }
    hide NamesItsDocument, EventsOk, BillEvent;
  }

  lemma SameKeySameDocument(tenant: Tenant, x: Event, y: Event)
    requires NamesItsDocument(tenant, x) && NamesItsDocument(tenant, y)
    ensures x.documentKey == y.documentKey <==> x.payload.id == y.payload.id && x.payload.branchId == y.payload.branchId
  {
    if x.documentKey == y.documentKey {
      DocumentKeyIsInjective(tenant.key, x.payload.branchId, DOC_BILL, x.payload.id, tenant.key, y.payload.branchId, DOC_BILL, y.payload.id);
    }
  }

  lemma OneIsStray(v: World, i: RowId, j: RowId)
    requires EventsOk(v.tenant, v.db) && StraysOk(v.db) && OnlyDraftsHaveTwo(v) && i in Outbox(v.db) && j in Outbox(v.db) && i != j
    requires Outbox(v.db)[i].payload.id == Outbox(v.db)[j].payload.id
    ensures Outbox(v.db)[i].payload.id in v.db.bills && (i in v.db.strays.outbox || j in v.db.strays.outbox)
  {
    if i in v.db.outbox { assert EventOk(v.tenant, v.db, v.db.outbox[i]); }
    if j in v.db.outbox { assert EventOk(v.tenant, v.db, v.db.outbox[j]); }
    hide EventOk;
  }

  /** A bill that is not in the database has at most one row, and that is a stray one. */
  lemma NoBillHasTwo(v: World, id: BillId)
    requires EventsOk(v.tenant, v.db) && StraysOk(v.db) && OrphansOk(v) && id !in v.db.bills
    ensures |EventsOfBill(v.db, id)| == |StrayRows(v.db, id)| <= 1
  {
    NoRowOfIt(v.tenant, v.db, id);
    OnlyStrayRows(v.db, id);
    AtMostOneOfIt(v, id);
    hide EventsOfBill, StrayRows, EventsOk, StraysOk, OrphansOk;
  }

  lemma NoRowOfIt(tenant: Tenant, db: Db, id: BillId)
    requires EventsOk(tenant, db) && id !in db.bills
    ensures forall i | i in db.outbox :: db.outbox[i].payload.id != id
  {
    forall i | i in db.outbox ensures db.outbox[i].payload.id != id {
      assert EventOk(tenant, db, db.outbox[i]);
    }
  }

  lemma OnlyStrayRows(db: Db, id: BillId)
    requires forall i | i in db.outbox :: db.outbox[i].payload.id != id
    ensures EventsOfBill(db, id) == StrayRows(db, id)
  {
    forall i ensures i in EventsOfBill(db, id) <==> i in StrayRows(db, id) {}
  }

  lemma AtMostOneOfIt(v: World, id: BillId)
    requires OnlyDraftsHaveTwo(v) && id !in v.db.bills
    ensures |StrayRows(v.db, id)| <= 1
  {
    if i :| i in StrayRows(v.db, id) { assert StrayRows(v.db, id) == {i}; }
  }

  // ---------------------------------------------------------------- the answers

  /** Every answer to a new final sale names the bill that holds it. */
  ghost predicate NewSalesAreAnsweredTruly(v: World) {
    && (forall k | 0 <= k < |v.answers| && v.answers[k].draft.None? :: AnswerOk(v.db, v.answers[k]))
    && (forall k | 0 <= k < |v.adrift| && v.adrift[k].draft.None? :: AnswerOk(v.db, v.adrift[k]))
  }

  /** A new sale adrift that is answered is answered with the id of no bill, in that state and in every later one. */
  lemma AdriftAnswersNameNoBill(w: World, before: seq<Action>, after: seq<Action>, k: nat)
    requires Initial(w) && k < |Run(w, before).adrift| && Run(w, before).adrift[k].draft.None?
    ensures Run(w, before).adrift[k].bill !in Run(w, before + after).db.bills
  {
    hide Run, Step, Inv;
    RunConcat(w, before, after);
    RunIsSound(w, before);
    AdriftStays(Run(w, before), after, k);
    RunIsSound(w, before + after);
    AdriftNamesNoBill(Run(w, before + after), k);
  }

  lemma AdriftNamesNoBill(v: World, k: nat)
    requires Inv(v) && k < |v.adrift| && v.adrift[k].draft.None?
    ensures v.adrift[k].bill !in v.db.bills && v.adrift[k].request.content.state > 0
  {
    hide TxOk, LocksOk, AnswerOk, DbOk;
    assert AdriftOk(v.db, v.adrift[k]);
    DbStrays(v.tenant, v.db);
  }

  lemma AdriftGrows(w: World, a: Action)
    ensures w.adrift <= Step(w, a).adrift
  {
    hide Committed, DeletedDb, RequestReply, LockedStage, RowHeld, CounterHeld, KeyHeld, LastValue, CanBeLost, BillEvent, StopsAt, Moved;
  }

  lemma {:induction false} AdriftStays(w: World, actions: seq<Action>, k: nat)
    requires k < |w.adrift|
    ensures k < |Run(w, actions).adrift| && Run(w, actions).adrift[k] == w.adrift[k]
  {
    hide Step;
    if actions != [] {
      AdriftStays(w, actions[..|actions| - 1], k);
      AdriftGrows(Run(w, actions[..|actions| - 1]), actions[|actions| - 1]);
    }
  }

  /** Over every run, the answers to new sales are true if and only if none of them was adrift when it was answered. */
  lemma NewSalesAreAnsweredTrulyIff(w: World, actions: seq<Action>)
    requires Initial(w)
    ensures
      var v := Run(w, actions);
      NewSalesAreAnsweredTruly(v) <==> forall k | 0 <= k < |v.adrift| :: v.adrift[k].draft.Some?
  {
    hide Run;
    RunIsSound(w, actions);
    var v := Run(w, actions);
    hide DbOk, TxOk, LocksOk;
    forall k | 0 <= k < |v.adrift| && v.adrift[k].draft.None? ensures !AnswerOk(v.db, v.adrift[k]) { AdriftNamesNoBill(v, k); }
  }

  /** New sales adrift, and the answers to them, are of bills of their own. */
  ghost predicate AdriftApart(w: World) {
    && (forall t, o | t in w.txs && o in w.txs && t != o && NewDrifting(w.txs[t]) && NewDrifting(w.txs[o]) ::
          w.txs[t].stage.bill != w.txs[o].stage.bill)
    && (forall t, k | t in w.txs && NewDrifting(w.txs[t]) && 0 <= k < |w.adrift| && w.adrift[k].draft.None? ::
          w.adrift[k].bill != w.txs[t].stage.bill)
    && (forall j, k | 0 <= j < k < |w.adrift| && w.adrift[j].draft.None? && w.adrift[k].draft.None? :: w.adrift[j].bill != w.adrift[k].bill)
  }

  lemma {:induction false} AdriftStaysApart(w: World, actions: seq<Action>)
    requires Initial(w)
    ensures AdriftApart(Run(w, actions))
  {
    hide Step, AdriftApart, Inv;
    if actions == [] {
      NoneIsApart(w);
    } else {
      var n := |actions| - 1;
      AdriftStaysApart(w, actions[..n]);
      RunIsSound(w, actions[..n]);
      StepKeepsApart(Run(w, actions[..n]), actions[n]);
    }
  }

  lemma NoneIsApart(w: World)
    requires Initial(w)
    ensures AdriftApart(w)
  {
  }

  lemma StepKeepsApart(w: World, a: Action)
    requires Inv(w) && AdriftApart(w)
    ensures AdriftApart(Step(w, a))
  {
    hide Step, Inv, AdriftApart;
    if a.LoseTransaction? {
      LoseKeepsApart(w, a);
    } else {
      StageAfter(w, a);
      StepIsOfOneTx(w, a);
      if a.PayStray? && Step(w, a).adrift != w.adrift {
        PayAnswers(w, a);
        AnswerKeepsApart(w, Step(w, a), a.t);
      } else {
        if !a.PayStray? { OnlyPayAnswers(w, a); }
        RestKeepsApart(w, Step(w, a), a.t);
      }
    }
  }

  lemma RestKeepsApart(w: World, v: World, t: TxId)
    requires AdriftApart(w) && v.adrift == w.adrift && DriftsOn(w, v, t)
    requires forall o | o != t :: (o in v.txs <==> o in w.txs) && (o in w.txs ==> v.txs[o] == w.txs[o])
    ensures AdriftApart(v)
  {
  }

  lemma PayAnswers(w: World, a: Action)
    requires a.PayStray? && Step(w, a).adrift != w.adrift
    ensures a.t in w.txs && w.txs[a.t].SaleTx? && Drifting(w.txs[a.t]) && a.t in Step(w, a).txs && Step(w, a).txs[a.t].stage.Done?
    ensures Step(w, a).adrift == w.adrift + [Answer(w.txs[a.t].request, w.txs[a.t].draft, w.txs[a.t].stage.bill)]
  {
    hide PaymentsOf, Stored;
  }

  lemma AnswerKeepsApart(w: World, v: World, t: TxId)
    requires AdriftApart(w) && t in w.txs && w.txs[t].SaleTx? && Drifting(w.txs[t]) && t in v.txs && v.txs[t].stage.Done?
    requires v.adrift == w.adrift + [Answer(w.txs[t].request, w.txs[t].draft, w.txs[t].stage.bill)]
    requires forall o | o != t :: (o in v.txs <==> o in w.txs) && (o in w.txs ==> v.txs[o] == w.txs[o])
    ensures AdriftApart(v)
  {
    assert w.txs[t].draft.None? ==> NewDrifting(w.txs[t]);
  }

  lemma LoseKeepsApart(w: World, a: Action)
    requires Inv(w) && AdriftApart(w) && a.LoseTransaction?
    ensures AdriftApart(Step(w, a))
  {
    hide Step, AdriftApart;
    if Step(w, a) != w {
      LoseIs(w, a);
      AdriftIdsAreDropped(w);
      OnlyPayAnswers(w, a);
      AnsweredIdsAreDropped(w);
      hide Inv;
      LossKeepsApart(w, Step(w, a), a.t);
    }
  }

  lemma AnsweredIdsAreDropped(w: World)
    requires Inv(w)
    ensures forall k | 0 <= k < |w.adrift| && w.adrift[k].draft.None? :: w.adrift[k].bill in w.db.strays.ids
  {
    hide DbOk, TxOk, LocksOk, AnswerOk;
    forall k | 0 <= k < |w.adrift| && w.adrift[k].draft.None? ensures w.adrift[k].bill in w.db.strays.ids { assert AdriftOk(w.db, w.adrift[k]); }
  }

  lemma LossKeepsApart(w: World, v: World, t: TxId)
    requires AdriftApart(w) && t in w.txs && t in v.txs && v.txs == w.txs[t := v.txs[t]] && v.adrift == w.adrift
    requires NewDrifting(v.txs[t]) ==> v.txs[t].stage.bill !in w.db.strays.ids
    requires forall o | o in w.txs && NewDrifting(w.txs[o]) :: w.txs[o].stage.bill in w.db.strays.ids
    requires forall k | 0 <= k < |w.adrift| && w.adrift[k].draft.None? :: w.adrift[k].bill in w.db.strays.ids
    ensures AdriftApart(v)
  {
  }

  lemma OnlyPayAnswers(w: World, a: Action)
    requires !a.PayStray?
    ensures Step(w, a).adrift == w.adrift
  {
    hide Committed, DeletedDb, RequestReply, LockedStage, RowHeld, CounterHeld, KeyHeld, LastValue, CanBeLost, BillEvent, StopsAt, Moved;
  }

  /** Two answers to new sales, final ones under one request key. */
  predicate OfOneKey(a: Answer, b: Answer) {
    && a.draft.None? && b.draft.None? && a.request.content.state > 0 && b.request.content.state > 0
    && a.request.key == b.request.key
  }

  /** All the answers to new sales of a key name one bill. */
  ghost predicate AllAgree(all: seq<Answer>) {
    forall j, k | 0 <= j < k < |all| && OfOneKey(all[j], all[k]) :: all[j].bill == all[k].bill
  }

  /**
   Over every run, the answers to new sales, those given adrift among them, name one bill for each request key if and only if
   no sale adrift was answered whose key another answered sale has.
   */
  lemma AnswersAgreeIff(w: World, actions: seq<Action>)
    requires Initial(w)
    ensures
      var v := Run(w, actions);
      var all := v.answers + v.adrift;
      AllAgree(all) <==> forall j, k | 0 <= j < k < |all| && k >= |v.answers| :: !OfOneKey(all[j], all[k])
  {
    hide Run, Inv, AdriftApart, AllAgree, OfOneKey;
    RunIsSound(w, actions);
    AdriftStaysApart(w, actions);
    AgreeIff(Run(w, actions));
  }

  lemma AgreeIff(v: World)
    requires Inv(v) && AdriftApart(v)
    ensures
      var all := v.answers + v.adrift;
      AllAgree(all) <==> forall j, k | 0 <= j < k < |all| && k >= |v.answers| :: !OfOneKey(all[j], all[k])
  {
    hide Inv, AdriftApart, OfOneKey;
    var all := v.answers + v.adrift;
    forall j, k | 0 <= j < k < |all| && OfOneKey(all[j], all[k]) ensures all[j].bill == all[k].bill <==> k < |v.answers| {
      if k < |v.answers| { AnswersOfOneKey(v, j, k); } else { AdriftDisagrees(v, j, k - |v.answers|); }
    }
  }

  lemma AnswersOfOneKey(v: World, j: nat, k: nat)
    requires Inv(v) && j < k < |v.answers| && OfOneKey(v.answers[j], v.answers[k])
    ensures v.answers[j].bill == v.answers[k].bill
  {
    hide DbOk, TxOk, LocksOk;
    assert AnswerOk(v.db, v.answers[j]) && AnswerOk(v.db, v.answers[k]);
  }

  lemma AdriftDisagrees(v: World, j: nat, k: nat)
    requires Inv(v) && AdriftApart(v) && k < |v.adrift| && j < |v.answers| + k
    requires OfOneKey((v.answers + v.adrift)[j], v.adrift[k])
    ensures (v.answers + v.adrift)[j].bill != v.adrift[k].bill
  {
    AdriftNamesNoBill(v, k);
    hide DbOk, TxOk, LocksOk;
    if j < |v.answers| { assert AnswerOk(v.db, v.answers[j]); }
  }

  // ---------------------------------------------------------------- the payments

  /** The step removes the payments of this bill outside any transaction, and there are some. */
  predicate ClearsPayments(w: World, a: Action, id: BillId)
    requires id in w.db.bills
  {
    && a.ClearStrayPayments? && a.t in w.txs && w.txs[a.t].SaleTx? && w.txs[a.t].stage == AdriftQueued(id) && w.txs[a.t].draft.Some?
    && PaymentsOf(w.db, id) != []
  }

  /** The step adds a payment to this bill outside any transaction. */
  predicate AddsPayment(w: World, a: Action, id: BillId)
    requires id in w.db.bills
  {
    && a.PayStray? && a.t in w.txs && w.txs[a.t].SaleTx? && w.txs[a.t].stage == AdriftCleared(id)
    && 0.0 < w.txs[a.t].request.content.paidAmount <= w.db.bills[id].totals.total as real
  }

  /** In every state a run can reach, the payments of a final bill change exactly when a sale adrift of it as a draft clears or adds them. */
  lemma FinalPaymentsChangeIff(w: World, a: Action, id: BillId)
    requires Inv(w) && id in w.db.bills && FinalBill(w.db.bills[id])
    ensures id in Step(w, a).db.bills
    ensures PaymentsOf(Step(w, a).db, id) != PaymentsOf(w.db, id) <==> ClearsPayments(w, a, id) || AddsPayment(w, a, id)
  {
    hide Step, Inv;
    if a.Commit? || a.CommitDelete? {
      CommitsKeepPayments(w, a, id);
    } else if OfSaleAdrift(a) {
      AdriftChangesPayments(w, a, id);
    } else {
      if Step(w, a).db != w.db { OnlyCommitsCommit(w, a); }
    }
  }

  lemma CommitsKeepPayments(w: World, a: Action, id: BillId)
    requires Inv(w) && id in w.db.bills && FinalBill(w.db.bills[id]) && (a.Commit? || a.CommitDelete?)
    ensures id in Step(w, a).db.bills && PaymentsOf(Step(w, a).db, id) == PaymentsOf(w.db, id)
  {
    hide Step, Inv, Committed, DeletedDb;
    if Step(w, a).db != w.db {
      OnlyCommitsCommit(w, a);
      if a.Commit? {
        UpdatedFacts(w, a.t);
        UpdatedTxFacts(w.db, w.txs[a.t]);
        CommitWritesOneBill(w.tenant, w.db, w.txs[a.t], a.mode, a.unread, a.rowId, a.eventId);
      } else {
        DeletionIsOfADraft(w, a.t);
        DeletionWritesOneBill(w.db, w.txs[a.t].stage.bill, a.mode);
      }
    }
  }

  lemma AdriftChangesPayments(w: World, a: Action, id: BillId)
    requires OfSaleAdrift(a) && id in w.db.bills
    ensures id in Step(w, a).db.bills
    ensures PaymentsOf(Step(w, a).db, id) != PaymentsOf(w.db, id) <==> ClearsPayments(w, a, id) || AddsPayment(w, a, id)
  {
    if a.ClearStrayPayments? {
      ClearChanges(w, a, id);
    } else if a.PayStray? {
      PayChanges(w, a, id);
    } else {
      OthersChangeNoPayment(w, a);
      hide Step;
    }
  }

  lemma OthersChangeNoPayment(w: World, a: Action)
    requires a.LoseTransaction? || a.TakeStrayLine? || a.AppendStrayEvent?
    ensures Step(w, a).db.bills == w.db.bills && Step(w, a).db.strays.payments == w.db.strays.payments
  {
    if a.TakeStrayLine? {
      hide StopsAt, Moved, Stored, At;
    } else {
      hide CanBeLost, BillEvent, FreshEvent;
    }
  }

  lemma ClearChanges(w: World, a: Action, id: BillId)
    requires a.ClearStrayPayments? && id in w.db.bills
    ensures Step(w, a).db.bills == w.db.bills
    ensures PaymentsOf(Step(w, a).db, id) != PaymentsOf(w.db, id) <==> ClearsPayments(w, a, id)
  {
  }

  lemma PayChanges(w: World, a: Action, id: BillId)
    requires a.PayStray? && id in w.db.bills
    ensures Step(w, a).db.bills == w.db.bills
    ensures PaymentsOf(Step(w, a).db, id) != PaymentsOf(w.db, id) <==> AddsPayment(w, a, id)
  {
    PayIs(w, a);
    hide Step, PayStep, PaymentsOf, Stored, WithPayments;
    if Ready(w, a.t, true) && w.txs[a.t].stage.AdriftCleared? {
      var bill, paid := w.txs[a.t].stage.bill, w.txs[a.t].request.content.paidAmount;
      PayWrites(w, a.t, a.delivered);
      if bill in w.db.bills {
        var after := PaymentsOf(w.db, bill) + [Stored(paid)];
        PaymentsWith(w.db, bill, after, id);
        assert |after| != |PaymentsOf(w.db, bill)|;
      }
    }
  }

  lemma PayIs(w: World, a: Action)
    requires a.PayStray?
    ensures Step(w, a) == if Ready(w, a.t, true) && w.txs[a.t].stage.AdriftCleared? then PayStep(w, a.t, a.delivered) else w
  {
  }

  lemma PayWrites(w: World, t: TxId, delivered: bool)
    requires t in w.txs && w.txs[t].SaleTx? && w.txs[t].stage.AdriftCleared?
    ensures
      var id, paid := w.txs[t].stage.bill, w.txs[t].request.content.paidAmount;
      PayStep(w, t, delivered).db
      == if id in w.db.bills && 0.0 < paid <= w.db.bills[id].totals.total as real
         then WithPayments(w.db, id, PaymentsOf(w.db, id) + [Stored(paid)]) else w.db
  {
    hide PaymentsOf, Stored, WithPayments;
  }

  lemma PaymentsWith(db: Db, bill: BillId, payments: seq<Money>, id: BillId)
    requires id in db.bills
    ensures WithPayments(db, bill, payments).bills == db.bills
    ensures PaymentsOf(WithPayments(db, bill, payments), id) == if id == bill then payments else PaymentsOf(db, id)
  {
  }

  // ---------------------------------------------------------------- without a lost transaction

  predicate NoneAdrift(w: World) { w.db.strays == NO_STRAYS && w.adrift == [] && forall t | t in w.txs :: !Drifting(w.txs[t]) }

  /** The step is a read of stock that loses its transaction. */
  predicate Loses(w: World, a: Action) { a.LoseTransaction? && Step(w, a) != w }

  ghost predicate NoneIsLost(w: World, actions: seq<Action>) {
    forall n | 0 <= n < |actions| :: !Loses(Run(w, actions[..n]), actions[n])
  }

  /** Nothing of this happens in a run in which no read of stock loses its transaction. */
  lemma {:induction false} WithoutALossThereAreNoStrays(w: World, actions: seq<Action>)
    requires Initial(w) && NoneIsLost(w, actions)
    ensures NoneAdrift(Run(w, actions))
  {
    hide Step, Loses, NoneAdrift;
    if actions == [] {
      StartHasNone(w);
    } else {
      var n := |actions| - 1;
      forall k | 0 <= k < n ensures !Loses(Run(w, actions[..n][..k]), actions[..n][k]) { assert actions[..n][..k] == actions[..k]; }
      WithoutALossThereAreNoStrays(w, actions[..n]);
      StepLeavesNone(Run(w, actions[..n]), actions[n]);
    }
  }

  lemma StartHasNone(w: World)
    requires Initial(w)
    ensures NoneAdrift(w)
  {
  }

  lemma StepLeavesNone(w: World, a: Action)
    requires NoneAdrift(w) && !Loses(w, a)
    ensures NoneAdrift(Step(w, a))
  {
    hide Step, NoneAdrift;
    if a.Commit? {
      CommitLeavesNone(w, a);
    } else if OfSaleAdrift(a) {
      NoSaleGoesOn(w, a);
    } else {
      OthersLeaveNone(w, a);
    }
  }

  lemma NoSaleGoesOn(w: World, a: Action)
    requires NoneAdrift(w) && OfSaleAdrift(a) && !Loses(w, a)
    ensures Step(w, a) == w
  {
    hide CanBeLost, LoseStep, StrayLineStep, StrayEventStep, ClearStep, PayStep;
  }

  lemma OthersLeaveNone(w: World, a: Action)
    requires NoneAdrift(w) && !a.Commit? && !OfSaleAdrift(a)
    ensures NoneAdrift(Step(w, a))
  {
    hide RecordedReply, RowHeld, CounterHeld, KeyHeld, LastValue, Acceptable, Restore;
  }

  lemma CommitLeavesNone(w: World, a: Action)
    requires NoneAdrift(w) && a.Commit?
    ensures NoneAdrift(Step(w, a))
  {
    hide FinishedBill, SaleDeduction, QueuedEvent, Storable, SaleLines;
    if Step(w, a) != w {
      assert NO_STRAYS.payments - {w.txs[a.t].stage.bill} == map[];
    }
  }
}
