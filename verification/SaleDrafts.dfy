/**
 Drafts, and sales that nobody disturbs: what the deletion of a draft leaves of the stock, how a deleted draft comes back,
 and how warn mode sells more than there is. The runs are of one transaction after another; what a single step does is stated
 for every step of every run.
 */
module SaleDrafts {
  import opened Options
  import opened LineTotals
  import opened DocumentKeys
  import opened Stock
  import opened SaleTypes
  import opened SaleProtocol
  import opened SaleInvariant
  import opened SaleSteps
  import opened SaleCommit
  import opened SaleTheorems
  import opened SaleMoves

  // ---------------------------------------------------------------- a deleted draft, step by step

  /** The step commits a submit of this draft that nothing refuses, with another state than deleted. */
  predicate BringsBack(w: World, a: Action, draft: BillId) {
    && a.Commit? && a.t in w.txs && w.txs[a.t].SaleTx? && w.txs[a.t].stage.Updated? && w.txs[a.t].draft == Some(draft)
    && w.txs[a.t].request.content.state != -1
    && !HasReason(w.tenant, w.db, w.txs[a.t].request.content, draft, a.mode, a.unread, a.rowId, a.eventId)
  }

  /**
   A deleted draft need not stay deleted: a submit refuses a bill only when it is final. In every state a run can reach,
   a bill at state -1 leaves it exactly at the commit of its submit, when that has another state and nothing refuses it.
   The bill then has the state that was sent: it is final, or an open draft again.
   */
  lemma DeletedDraftLeavesIff(w: World, a: Action, draft: BillId)
    requires Inv(w) && IsDeleted(w, draft)
    ensures draft in Step(w, a).db.bills
    ensures Step(w, a).db.bills[draft].state != -1 <==> BringsBack(w, a, draft)
    ensures BringsBack(w, a, draft) ==> Step(w, a).db.bills[draft].state == w.txs[a.t].request.content.state
  {
    hide Step, HasReason, Inv, TxOk;
    if a.Commit? && a.t in w.txs && w.txs[a.t].SaleTx? && w.txs[a.t].stage.Updated? {
      CommitBringsBackIff(w, a, draft);
    } else if Step(w, a).db != w.db {
      OnlyCommitsCommit(w, a);
      if a.CommitDelete? {
        DeletionIsOfADraft(w, a.t);
        DeletionWritesOnlyItsBill(w.db, w.txs[a.t].stage.bill, a.mode);
      }
    }
  }

  lemma CommitBringsBackIff(w: World, a: Action, draft: BillId)
    requires Inv(w) && IsDeleted(w, draft)
    requires a.Commit? && a.t in w.txs && w.txs[a.t].SaleTx? && w.txs[a.t].stage.Updated?
    ensures draft in Step(w, a).db.bills
    ensures Step(w, a).db.bills[draft].state != -1 <==> BringsBack(w, a, draft)
    ensures BringsBack(w, a, draft) ==> Step(w, a).db.bills[draft].state == w.txs[a.t].request.content.state
  {
    var tx := w.txs[a.t];
    UpdatedFacts(w, a.t);
    assert BringsBack(w, a, draft) <==>
      (tx.draft == Some(draft) && tx.request.content.state != -1
       && !HasReason(w.tenant, w.db, tx.request.content, draft, a.mode, a.unread, a.rowId, a.eventId));
    assert draft in w.db.bills && w.db.bills[draft].state == -1;
    hide *;
    CommitIsRefusedIff(w.tenant, w.db, tx, a.mode, a.unread, a.rowId, a.eventId);
    CommitLeaves(w, a);
    if Committed(w.tenant, w.db, tx, a.mode, a.unread, a.rowId, a.eventId).Some? {
      CommitWritesItsBill(w.tenant, w.db, tx, a.mode, a.unread, a.rowId, a.eventId);
    }
  }

  lemma CommitWritesItsBill(tenant: Tenant, db: Db, tx: Tx, mode: Mode, unread: set<nat>, rowId: RowId, eventId: string)
    requires tx.SaleTx? && tx.stage.Updated? && TxOk(db, tx) && Committed(tenant, db, tx, mode, unread, rowId, eventId).Some?
    ensures
      var d, id := Committed(tenant, db, tx, mode, unread, rowId, eventId).value, tx.stage.bill;
      && id in d.bills && d.bills == db.bills[id := d.bills[id]]
      && d.bills[id].state == tx.request.content.state && d.bills[id].lines == SaleLines(tx.request.content)
  {
    hide TxOk, FinishedBill, SaleLines, Storable, SaleDeduction, QueuedEvent, PaymentOk;
    assert FinishedBill(db, tx).Some?;
    FinishedBillIsTheRequests(db, tx);
  }

  lemma UpdatedFacts(w: World, t: TxId)
    requires Inv(w) && t in w.txs && w.txs[t].SaleTx? && w.txs[t].stage.Updated?
    ensures
      var tx := w.txs[t];
      TxOk(w.db, tx) && NonNegative(w.db.shelf) && (if tx.draft.Some? then tx.stage.bill == tx.draft.value else tx.stage.bill !in w.db.bills)
  {
    hide DbOk, LocksOk, AnswerOk, TxOk, NonNegative, AdriftOk;
    assert TxOk(w.db, w.txs[t]);
    DbParts(w.tenant, w.db);
    UpdatedTxFacts(w.db, w.txs[t]);
  }

  lemma CommitLeaves(w: World, a: Action)
    requires a.Commit? && a.t in w.txs && w.txs[a.t].SaleTx? && w.txs[a.t].stage.Updated?
    ensures
      var d := Committed(w.tenant, w.db, w.txs[a.t], a.mode, a.unread, a.rowId, a.eventId);
      Step(w, a).db == if d.Some? then d.value else w.db
  {
    hide Committed;
  }

  lemma DeletionIsOfADraft(w: World, t: TxId)
    requires Inv(w) && t in w.txs && w.txs[t].DeleteTx? && w.txs[t].stage.Opened?
    ensures w.txs[t].stage.bill in w.db.bills && w.db.bills[w.txs[t].stage.bill].state == 0
  {
    hide DbOk, LocksOk, AnswerOk;
    assert TxOk(w.db, w.txs[t]);
  }

  lemma DeletionWritesOnlyItsBill(db: Db, id: BillId, mode: Mode)
    requires id in db.bills && DeletedDb(db, id, mode).Some?
    ensures DeletedDb(db, id, mode).value.bills == db.bills[id := db.bills[id].(state := -1)]
  {
    hide Restore;
  }

  /** No step of the run brings the draft back. */
  predicate NeverBroughtBack(w: World, actions: seq<Action>, draft: BillId) {
    actions == []
    || var n := |actions| - 1;
       NeverBroughtBack(w, actions[..n], draft) && !BringsBack(Run(w, actions[..n]), actions[n], draft)
  }

  predicate IsDeleted(w: World, draft: BillId) { draft in w.db.bills && w.db.bills[draft].state == -1 }

  /** The draft is deleted before and after each step of the run. */
  predicate StaysDeleted(w: World, actions: seq<Action>, draft: BillId) {
    IsDeleted(Run(w, actions), draft) && (actions == [] || StaysDeleted(w, actions[..|actions| - 1], draft))
  }

  /** Over every run from a reachable state a deleted draft stays deleted if and only if no submit of it commits so. */
  lemma {:induction false} DeletedDraftStaysIff(w: World, actions: seq<Action>, draft: BillId)
    requires Inv(w) && IsDeleted(w, draft)
    ensures StaysDeleted(w, actions, draft) <==> NeverBroughtBack(w, actions, draft)
  {
    hide Inv, Step, BringsBack;
    if actions != [] {
      var n := |actions| - 1;
      DeletedDraftStaysIff(w, actions[..n], draft);
      RunKeepsInv(w, actions[..n]);
      if StaysDeleted(w, actions[..n], draft) { DeletedDraftLeavesIff(Run(w, actions[..n]), actions[n], draft); }
    }
  }

  // ---------------------------------------------------------------- one transaction after another

  /** No other transaction than t is open. */
  predicate Alone(w: World, t: TxId) { forall o | o in w.txs && o != t :: w.txs[o].stage.Done? }

  /** No transaction is open. */
  predicate Quiet(w: World) { forall o | o in w.txs :: w.txs[o].stage.Done? }

  lemma StepLeavesAlone(w: World, a: Action)
    requires Alone(w, a.t) && Inv(w)
    ensures Alone(Step(w, a), a.t) && Inv(Step(w, a)) && Step(w, a).tenant == w.tenant
    ensures forall o | o != a.t :: o in Step(w, a).txs <==> o in w.txs
  {
    hide Step, Inv;
    StepKeepsInv(w, a);
    forall o | o != a.t
      ensures o in Step(w, a).txs <==> o in w.txs
      ensures o in w.txs ==> Step(w, a).txs[o] == w.txs[o]
    {
      StepLeavesTx(w, a, o);
    }
    StepKeepsTenant(w, a);
  }

  lemma StepKeepsTenant(w: World, a: Action)
    ensures Step(w, a).tenant == w.tenant
  {
    hide Committed, DeletedDb, RequestReply, LockedStage, RowHeld, CounterHeld, KeyHeld, LastValue;
  }

  lemma NobodyHolds(w: World, t: TxId, id: BillId, branchId: BranchId, key: Key)
    requires Alone(w, t)
    ensures !RowHeld(w, t, id) && !CounterHeld(w, t, branchId) && !KeyHeld(w, t, key)
  {
  }

  /** The world after these steps is the world before them, but for where transaction t is. */
  ghost predicate Reached(w: World, v: World, s: Sale, stage: Stage) {
    && Inv(v) && Alone(v, s.t) && Is(v, s, stage) && v.db == w.db && v.tenant == w.tenant
    && v.txs.Keys == w.txs.Keys + {s.t}
  }

  lemma StepReaches(w: World, v: World, a: Action, s: Sale, stage: Stage, next: Stage)
    requires Reached(w, v, s, stage) && a.t == s.t
    requires Is(Step(v, a), s, next) && Step(v, a).db == v.db
    ensures Reached(w, Step(v, a), s, next)
  {
    hide Inv, Step, Alone;
    StepLeavesAlone(v, a);
  }

  lemma BeginReaches(w: World, s: Sale)
    requires Inv(w) && Quiet(w) && s.t !in w.txs && Acceptable(s.request)
    ensures Reached(w, Step(w, Begin(s.t, s.request, s.draft, s.invoiceUuid)), s, Begun)
  {
    hide Inv, Acceptable;
    StepKeepsInv(w, Begin(s.t, s.request, s.draft, s.invoiceUuid));
  }

  /** The number a sale takes. */
  function NumberFor(db: Db, c: Content): Option<nat> {
    if c.state > 0 then Some(LastValue(db, c.branchId) + 1) else None
  }

  lemma OpenedReachesUpdated(w: World, v: World, s: Sale, id: BillId)
    requires Reached(w, v, s, Opened(id)) && !IsRecorded(w.db, s)
    ensures
      var number := NumberFor(w.db, s.request.content);
      Reached(w, Step(Step(v, TakeNumber(s.t)), UpdateBill(s.t)), s, Updated(id, number))
  {
    hide Inv, Step, Alone, RowHeld, CounterHeld, KeyHeld, LastValue;
    var number := NumberFor(w.db, s.request.content);
    NobodyHolds(v, s.t, id, s.request.content.branchId, s.request.key);
    TakeNumberStep(v, s, id);
    StepReaches(w, v, TakeNumber(s.t), s, Opened(id), Numbered(id, number));
    var u := Step(v, TakeNumber(s.t));
    NobodyHolds(u, s.t, id, s.request.content.branchId, s.request.key);
    UpdateBillStep(u, s, id, number);
    StepReaches(w, u, UpdateBill(s.t), s, Numbered(id, number), Updated(id, number));
  }

  /** A new sale that no other transaction disturbs. */
  function SaveNew(s: Sale, id: BillId, mode: Mode, unread: set<nat>, rowId: RowId, eventId: string): seq<Action> {
    [Begin(s.t, s.request, s.draft, s.invoiceUuid), CheckRequest(s.t), CreateBill(s.t, id), TakeNumber(s.t), UpdateBill(s.t),
     Commit(s.t, mode, unread, rowId, eventId, true)]
  }

  /** A submit of a draft that no other transaction disturbs. */
  function Submit(s: Sale, mode: Mode, unread: set<nat>, rowId: RowId, eventId: string): seq<Action> {
    [Begin(s.t, s.request, s.draft, s.invoiceUuid), LockBill(s.t), TakeNumber(s.t), UpdateBill(s.t),
     Commit(s.t, mode, unread, rowId, eventId, true)]
  }

  /** The deletion of a draft that no other transaction disturbs. */
  function Delete(t: TxId, id: BillId, mode: Mode): seq<Action> { [BeginDelete(t, id), LockBill(t), CommitDelete(t, mode)] }

  lemma NewSaleReachesUpdated(w: World, s: Sale, id: BillId) returns (v: World)
    requires Inv(w) && Quiet(w) && s.t !in w.txs && Acceptable(s.request) && s.draft.None? && !IsRecorded(w.db, s)
    requires id != 0 && id !in w.db.bills && id !in w.db.strays.ids
    ensures v == Step(Step(Step(Step(Step(w, Begin(s.t, s.request, s.draft, s.invoiceUuid)), CheckRequest(s.t)), CreateBill(s.t, id)),
                           TakeNumber(s.t)), UpdateBill(s.t))
    ensures Reached(w, v, s, Updated(id, NumberFor(w.db, s.request.content)))
  {
    hide Inv, Step, Alone, Quiet, RowHeld, CounterHeld, KeyHeld, LastValue, Acceptable;
    BeginReaches(w, s);
    var w1 := Step(w, Begin(s.t, s.request, s.draft, s.invoiceUuid));
    CheckRequestStep(w1, s);
    CheckLeavesDb(w1, s);
    StepReaches(w, w1, CheckRequest(s.t), s, Begun, Checked);
    var w2 := Step(w1, CheckRequest(s.t));
    NobodyHolds(w2, s.t, id, 0, s.request.key);
    CreateBillStep(w2, s, id);
    CreateLeavesDb(w2, s, id);
    StepReaches(w, w2, CreateBill(s.t, id), s, Checked, Opened(id));
    var w3 := Step(w2, CreateBill(s.t, id));
    OpenedReachesUpdated(w, w3, s, id);
    v := Step(Step(w3, TakeNumber(s.t)), UpdateBill(s.t));
  }

  lemma CheckLeavesDb(w: World, s: Sale)
    ensures Step(w, CheckRequest(s.t)).db == w.db
  {
    hide RequestReply;
  }

  lemma CreateLeavesDb(w: World, s: Sale, id: BillId)
    ensures Step(w, CreateBill(s.t, id)).db == w.db && Step(w, LockBill(s.t)).db == w.db
  {
    hide RowHeld, LockedStage;
  }

  lemma SubmitReachesUpdated(w: World, s: Sale) returns (v: World)
    requires Inv(w) && Quiet(w) && s.t !in w.txs && Acceptable(s.request) && !IsRecorded(w.db, s)
    requires s.draft.Some? && s.draft.value in w.db.bills && !FinalBill(w.db.bills[s.draft.value])
    ensures v == Step(Step(Step(Step(w, Begin(s.t, s.request, s.draft, s.invoiceUuid)), LockBill(s.t)), TakeNumber(s.t)), UpdateBill(s.t))
    ensures Reached(w, v, s, Updated(s.draft.value, NumberFor(w.db, s.request.content)))
  {
    hide Inv, Step, Alone, Quiet, RowHeld, CounterHeld, KeyHeld, LastValue, Acceptable, Means;
    BeginReaches(w, s);
    var w1, id := Step(w, Begin(s.t, s.request, s.draft, s.invoiceUuid)), s.draft.value;
    NobodyHolds(w1, s.t, id, 0, s.request.key);
    LockBillStep(w1, s);
    CreateLeavesDb(w1, s, id);
    StepReaches(w, w1, LockBill(s.t), s, Begun, Opened(id));
    var w2 := Step(w1, LockBill(s.t));
    OpenedReachesUpdated(w, w2, s, id);
    v := Step(Step(w2, TakeNumber(s.t)), UpdateBill(s.t));
  }

  /** A sale that is alone and refused by nothing ends with its writes committed. */
  ghost predicate Sold(w: World, v: World, s: Sale, id: BillId, mode: Mode, unread: set<nat>, rowId: RowId, eventId: string) {
    && Inv(v) && Quiet(v) && v.tenant == w.tenant && v.txs.Keys == w.txs.Keys + {s.t} && Is(v, s, Done(Saved(id)))
    && Committed(w.tenant, w.db, TxOf(s, Updated(id, NumberFor(w.db, s.request.content))), mode, unread, rowId, eventId) == Some(v.db)
    && id in v.db.bills && v.db.bills[id].state == s.request.content.state && v.db.bills[id].lines == SaleLines(s.request.content)
  }

  lemma CommitAlone(w: World, v: World, s: Sale, id: BillId, mode: Mode, unread: set<nat>, rowId: RowId, eventId: string)
    requires Reached(w, v, s, Updated(id, NumberFor(w.db, s.request.content)))
    requires !HasReason(w.tenant, w.db, s.request.content, id, mode, unread, rowId, eventId)
    ensures Sold(w, Step(v, Commit(s.t, mode, unread, rowId, eventId, true)), s, id, mode, unread, rowId, eventId)
  {
    hide HasReason, Committed, Inv, TxOk, FinishedBill, SaleLines, NonNegative, LastValue, Step;
    var a, tx := Commit(s.t, mode, unread, rowId, eventId, true), v.txs[s.t];
    UpdatedFacts(v, s.t);
    CommitIsRefusedIff(v.tenant, v.db, tx, mode, unread, rowId, eventId);
    CommitLeaves(v, a);
    CommitWritesItsBill(v.tenant, v.db, tx, mode, unread, rowId, eventId);
    StepLeavesAlone(v, a);
    CommitEnds(v, a);
  }

  lemma CommitEnds(w: World, a: Action)
    requires a.Commit? && a.t in w.txs && w.txs[a.t].SaleTx? && w.txs[a.t].stage.Updated?
    requires Committed(w.tenant, w.db, w.txs[a.t], a.mode, a.unread, a.rowId, a.eventId).Some?
    ensures a.t in Step(w, a).txs
    ensures Step(w, a).txs[a.t] == w.txs[a.t].(stage := Done(if a.delivered then Saved(w.txs[a.t].stage.bill) else Failed))
  {
    hide Committed;
  }

  lemma SaveNewSells(w: World, s: Sale, id: BillId, mode: Mode, unread: set<nat>, rowId: RowId, eventId: string)
    requires Inv(w) && Quiet(w) && s.t !in w.txs && Acceptable(s.request) && s.draft.None? && !IsRecorded(w.db, s)
    requires id != 0 && id !in w.db.bills && id !in w.db.strays.ids && !HasReason(w.tenant, w.db, s.request.content, id, mode, unread, rowId, eventId)
    ensures Sold(w, Run(w, SaveNew(s, id, mode, unread, rowId, eventId)), s, id, mode, unread, rowId, eventId)
  {
    hide Inv, Step, Run, HasReason, Acceptable, Quiet, IsRecorded, LastValue, Sold;
    var all := SaveNew(s, id, mode, unread, rowId, eventId);
    var v := NewSaleReachesUpdated(w, s, id);
    CommitAlone(w, v, s, id, mode, unread, rowId, eventId);
    RunOfSix(w, all);
  }

  lemma SubmitSells(w: World, s: Sale, mode: Mode, unread: set<nat>, rowId: RowId, eventId: string)
    requires Inv(w) && Quiet(w) && s.t !in w.txs && Acceptable(s.request) && !IsRecorded(w.db, s)
    requires s.draft.Some? && s.draft.value in w.db.bills && !FinalBill(w.db.bills[s.draft.value])
    requires !HasReason(w.tenant, w.db, s.request.content, s.draft.value, mode, unread, rowId, eventId)
    ensures Sold(w, Run(w, Submit(s, mode, unread, rowId, eventId)), s, s.draft.value, mode, unread, rowId, eventId)
  {
    hide Inv, Step, Run, HasReason, Acceptable, Quiet, IsRecorded, LastValue, Sold, FinalBill;
    var all := Submit(s, mode, unread, rowId, eventId);
    var v := SubmitReachesUpdated(w, s);
    CommitAlone(w, v, s, s.draft.value, mode, unread, rowId, eventId);
    RunFrom(w, all);
    RunOfFour(Step(w, all[0]), all[1..]);
  }

  lemma RunOfFour(w: World, all: seq<Action>)
    requires |all| == 4
    ensures Run(w, all) == Step(Step(Step(Step(w, all[0]), all[1]), all[2]), all[3])
  {
    hide Step;
    RunFrom(w, all);
    RunFrom(Step(w, all[0]), all[1..]);
    RunFrom(Step(Step(w, all[0]), all[1]), all[1..][1..]);
    RunFrom(Step(Step(Step(w, all[0]), all[1]), all[2]), all[1..][1..][1..]);
  }

  lemma RunOfSix(w: World, all: seq<Action>)
    requires |all| == 6
    ensures Run(w, all) == Step(Step(Step(Step(Step(Step(w, all[0]), all[1]), all[2]), all[3]), all[4]), all[5])
  {
    hide Step, Run;
    RunFrom(w, all);
    RunFrom(Step(w, all[0]), all[1..]);
    RunOfFour(Step(Step(w, all[0]), all[1]), all[1..][1..]);
  }

  /** A deletion that is alone ends with the draft deleted and its lines back on the shelf. */
  ghost predicate Removed(w: World, v: World, t: TxId, id: BillId, mode: Mode)
    requires id in w.db.bills
  {
    && Inv(v) && Quiet(v) && v.tenant == w.tenant && v.txs.Keys == w.txs.Keys + {t} && DeletedDb(w.db, id, mode) == Some(v.db)
  }

  lemma DeleteRemoves(w: World, t: TxId, id: BillId, mode: Mode)
    requires Inv(w) && Quiet(w) && t !in w.txs && id in w.db.bills && w.db.bills[id].state == 0
    ensures Removed(w, Run(w, Delete(t, id, mode)), t, id, mode)
  {
    hide Inv, Step, Run, RestoreFrom, DeletedDb;
    var all := Delete(t, id, mode);
    RunFrom(w, all);
    RunFrom(Step(w, all[0]), all[1..]);
    RunFrom(Step(Step(w, all[0]), all[1]), all[1..][1..]);
    BeginDeleteStep(w, t, id);
    BeginDeleteLeaves(w, t, id);
    var w1 := Step(w, all[0]);
    StepKeepsInv(w, all[0]);
    NobodyHolds(w1, t, id, 0, Key("", ""));
    LockDeleteStep(w1, t, id);
    StepLeavesAlone(w1, all[1]);
    var w2 := Step(w1, all[1]);
    OpenedDraft(w2, t, id);
    RestoreIsRecorded(w2.db.shelf, w2.db.bills[id].lines, mode, []);
    CommitDeleteStep(w2, t, id, mode);
    StepLeavesAlone(w2, all[2]);
    assert all[1..][1..][1..] == [];
    RunOfNothing(Step(w2, all[2]));
    DeletedDbIs(w.db, id, mode);
  }

  lemma DeletedDbIs(db: Db, id: BillId, mode: Mode)
    requires id in db.bills && Restore(db.shelf, db.bills[id].lines, mode).Deducted?
    ensures
      var d := Restore(db.shelf, db.bills[id].lines, mode);
      DeletedDb(db, id, mode) == Some(db.(bills := db.bills[id := db.bills[id].(state := -1)], shelf := d.shelf,
                                          movements := db.movements + d.movements))
  {
    hide Restore;
  }

  lemma RunOfNothing(w: World)
    ensures Run(w, []) == w
  {
  }

  lemma BeginDeleteLeaves(w: World, t: TxId, id: BillId)
    requires Quiet(w) && t !in w.txs
    ensures
      var v := Step(w, BeginDelete(t, id));
      v.db == w.db && v.tenant == w.tenant && v.txs.Keys == w.txs.Keys + {t} && Alone(v, t)
  {
  }

  // ---------------------------------------------------------------- saving a draft

  /** What a draft can be refused for: its lines and its payment. */
  predicate DraftIsRefused(db: Db, c: Content) {
    !Storable(SaleLines(c), db.shelf.Keys) || (c.paidAmount > 0.0 && c.paidAmount > RefreshedTotals(SaleLines(c)).total as real)
  }

  lemma DraftHasNoOtherReason(tenant: Tenant, db: Db, c: Content, id: BillId, mode: Mode, unread: set<nat>, rowId: RowId, eventId: string)
    requires c.state <= 0
    ensures HasReason(tenant, db, c, id, mode, unread, rowId, eventId) <==> DraftIsRefused(db, c)
  {
    hide SaleLines, RefreshedTotals, Storable, FreshEvent, EachLineFits, ValidParts;
  }

  /** Nobody is in the way of the save of this draft and its deletion, the ids are new, and nothing refuses the draft. */
  ghost predicate CanSaveDraft(w: World, s: Sale, id: BillId, t: TxId) {
    && Inv(w) && Quiet(w) && s.t !in w.txs && t !in w.txs && s.t != t && id != 0 && id !in w.db.bills && id !in w.db.strays.ids
    && s.draft.None? && s.request.content.state == 0 && Acceptable(s.request) && !DraftIsRefused(w.db, s.request.content)
  }

  /** The draft's lines are what its request asked for, and a deletion can put them back. */
  lemma LinesOfABill(w: World, id: BillId)
    requires Inv(w) && id in w.db.bills
    ensures NonNegative(w.db.shelf) && PositiveLines(w.db.bills[id].lines) && KnownProducts(w.db.shelf, w.db.bills[id].lines)
    ensures w.db.bills[id].lines == SaleLines(w.db.bills[id].content)
  {
    hide LocksOk, AnswerOk, RequestKeysOk, NumbersOk, EventsOk, DeductionsOk, StateOk, PaymentOk, SaleLines;
    assert BillOk(w.db, id);
  }

  // ---------------------------------------------------------------- what a deletion leaves of the stock

  /** At no commit of any run does a sale that is not final move stock. */
  lemma DraftMovesNoStock(w: World, a: Action)
    requires a.Commit? && a.t in w.txs && w.txs[a.t].SaleTx? && w.txs[a.t].request.content.state <= 0
    ensures Step(w, a).db.shelf == w.db.shelf && Step(w, a).db.movements == w.db.movements
  {
    hide FinishedBill, QueuedEvent, SaleLines, Storable;
  }

  predicate NoCatalogLine(c: Content) { forall i | 0 <= i < |c.products| :: c.products[i].product.None? }

  lemma CatalogLinesOfASale(c: Content)
    ensures NoCatalogLine(c) <==> forall i | 0 <= i < |SaleLines(c)| :: SaleLines(c)[i].product.None?
  {
    hide Stored;
    var lines, n := SaleLines(c), |c.products|;
    assert forall i | 0 <= i < n :: lines[i].product == c.products[i].product;
    assert forall i | n <= i < |lines| :: lines[i].product.None?;
  }

  /** The save of a draft that nobody disturbs commits its bill alone. */
  lemma SavedDraft(w: World, s: Sale, id: BillId, mode: Mode, t: TxId)
    requires CanSaveDraft(w, s, id, t)
    ensures
      var v := Run(w, SaveNew(s, id, mode, {}, 0, ""));
      && Inv(v) && Quiet(v) && v.tenant == w.tenant && v.txs.Keys == w.txs.Keys + {s.t}
      && v.db == w.db.(bills := v.db.bills) && id in v.db.bills
      && v.db.bills[id].state == 0 && v.db.bills[id].lines == SaleLines(s.request.content) && t !in v.txs
  {
    hide Inv, Step, Run, HasReason, Quiet, LastValue, SaleLines, Acceptable, DraftIsRefused;
    assert !IsRecorded(w.db, s);
    DraftHasNoOtherReason(w.tenant, w.db, s.request.content, id, mode, {}, 0, "");
    SaveNewSells(w, s, id, mode, {}, 0, "");
    SoldDraft(w, Run(w, SaveNew(s, id, mode, {}, 0, "")), s, id, mode, {}, 0, "");
  }

  lemma SoldDraft(w: World, v: World, s: Sale, id: BillId, mode: Mode, unread: set<nat>, rowId: RowId, eventId: string)
    requires Sold(w, v, s, id, mode, unread, rowId, eventId) && s.request.content.state <= 0 && s.draft.None?
    ensures v.db == w.db.(bills := v.db.bills)
  {
    hide Inv, Quiet, FinishedBill, SaleLines, Storable, LastValue;
  }

  lemma DeletedDraft(w: World, s: Sale, id: BillId, mode: Mode, t: TxId, deleteMode: Mode)
    requires CanSaveDraft(w, s, id, t)
    ensures
      var v := Run(Run(w, SaveNew(s, id, mode, {}, 0, "")), Delete(t, id, deleteMode));
      var back := Restore(w.db.shelf, SaleLines(s.request.content), deleteMode);
      && Inv(v) && Quiet(v) && v.tenant == w.tenant && v.txs.Keys == w.txs.Keys + {s.t, t}
      && IsDeleted(v, id) && PositiveLines(SaleLines(s.request.content)) && KnownProducts(w.db.shelf, SaleLines(s.request.content))
      && NonNegative(w.db.shelf) && back.Deducted?
      && v.db == w.db.(bills := v.db.bills, shelf := back.shelf, movements := w.db.movements + back.movements)
  {
    hide Inv, Step, Run, Quiet, SaleLines, RestoreFrom, CanSaveDraft, DeletedDb, SaveNew, Delete, Removed;
    SavedDraft(w, s, id, mode, t);
    var saved := Run(w, SaveNew(s, id, mode, {}, 0, ""));
    DeleteRemoves(saved, t, id, deleteMode);
    RemovedBill(saved, Run(saved, Delete(t, id, deleteMode)), t, id, deleteMode);
  }

  lemma RemovedBill(w: World, v: World, t: TxId, id: BillId, mode: Mode)
    requires Inv(w) && id in w.db.bills && Removed(w, v, t, id, mode)
    ensures
      var lines := w.db.bills[id].lines;
      var back := Restore(w.db.shelf, lines, mode);
      && Inv(v) && Quiet(v) && v.tenant == w.tenant && v.txs.Keys == w.txs.Keys + {t}
      && IsDeleted(v, id) && NonNegative(w.db.shelf) && PositiveLines(lines) && KnownProducts(w.db.shelf, lines) && back.Deducted?
      && v.db == w.db.(bills := v.db.bills, shelf := back.shelf, movements := w.db.movements + back.movements)
  {
    hide Inv, Quiet, SaleLines, RestoreFrom;
    LinesOfABill(w, id);
    RestoreIsRecorded(w.db.shelf, w.db.bills[id].lines, mode, []);
    DeletedDbIs(w.db, id, mode);
  }

  /**
   A draft that is saved and then deleted: its save moves no stock, and its deletion puts its catalog lines on the shelf
   and records them. So the stock comes out higher than it was, unless enforcement is off at the deletion or the draft
   has no catalog line.
   */
  lemma SaveThenDeleteKeepsStockIff(w: World, s: Sale, id: BillId, mode: Mode, t: TxId, deleteMode: Mode)
    requires CanSaveDraft(w, s, id, t)
    ensures
      var saved := Run(w, SaveNew(s, id, mode, {}, 0, ""));
      var v, c := Run(saved, Delete(t, id, deleteMode)), s.request.content;
      && saved.db.shelf == w.db.shelf && saved.db.movements == w.db.movements && IsDeleted(v, id)
      && v.db.shelf.Keys == w.db.shelf.Keys
      && (forall p | p in w.db.shelf ::
            && v.db.shelf[p] == w.db.shelf[p] + (if deleteMode.Disable? then 0 else Requested(StoredLines(c.products), p))
            && v.db.shelf[p] - w.db.shelf[p] == LedgerSum(v.db.movements, p) - LedgerSum(w.db.movements, p))
      && (v.db.shelf == w.db.shelf <==> deleteMode.Disable? || NoCatalogLine(c))
  {
    SavedDraft(w, s, id, mode, t);
    DeletedDraft(w, s, id, mode, t, deleteMode);
    hide Inv, Step, Run, Quiet, SaleLines, RestoreFrom, LedgerSum, Requested, StoredLines, NoCatalogLine, Storable, NonNegative;
    var c := s.request.content;
    var lines := SaleLines(c);
    RestoreIsRecorded(w.db.shelf, lines, deleteMode, []);
    DraftDeletionKeepsStockIff(w.db.shelf, lines, deleteMode);
    CatalogLinesOfASale(c);
    LedgerOfNothing();
    var moved := Restore(w.db.shelf, lines, deleteMode).movements;
    forall p | p in w.db.shelf
      ensures Requested(lines, p) == Requested(StoredLines(c.products), p)
      ensures LedgerSum(w.db.movements + moved, p) == LedgerSum(w.db.movements, p) + LedgerSum(moved, p)
    {
      LinesOfASale(c, p);
      LedgerSumConcat(w.db.movements, moved, p);
    }
  }

  // ---------------------------------------------------------------- a deleted draft comes back

  /** What a submit needs that nothing but its state refuses. */
  ghost predicate CanSubmit(w: World, s: Sale, id: BillId, rowId: RowId, eventId: string) {
    && ValidTenantKey(w.tenant.key) && 0 < id <= MAX_INT64 && s.request.content.branchId != 0
    && s.draft == Some(id) && s.t !in w.txs && Acceptable(s.request) && !IsRecorded(w.db, s) && FreshEvent(w.db, rowId, eventId)
    && s.request.content.paidAmount == 0.0 && Storable(SaleLines(s.request.content), w.db.shelf.Keys)
  }

  /** A new tenant is such a state, for every unpaid sale whose lines can be stored. */
  lemma NewTenantCanSaveDraft(w: World, s: Sale, id: BillId, t: TxId, submit: Sale, rowId: RowId, eventId: string)
    requires Initial(w) && ValidTenantKey(w.tenant.key) && s.t != t && 0 < id <= MAX_INT64
    requires s.draft.None? && submit.draft == Some(id) && s.request == submit.request.(content := submit.request.content.(state := 0))
    requires submit.request.content.branchId != 0 && submit.request.content.paidAmount == 0.0 && Acceptable(submit.request)
    requires Storable(SaleLines(submit.request.content), w.db.shelf.Keys)
    ensures CanSaveDraft(w, s, id, t) && CanSubmit(w, submit, id, rowId, eventId)
  {
    InitialInv(w);
    StateDoesNotMatter(submit.request);
    hide Inv, Storable, Acceptable, StoredLines, RefreshedTotals;
    assert SaleProducts(s.request.content) == SaleProducts(submit.request.content);
  }

  /** What is acceptable as a final sale is acceptable as a draft. */
  lemma StateDoesNotMatter(r: Request)
    requires Acceptable(r)
    ensures Acceptable(r.(content := r.content.(state := 0)))
  {
    hide Stored;
  }

  /**
   Both ways back are real. From any quiet state, and so from a new tenant, a draft is saved, deleted, and then submitted: with
   a positive state it becomes final, numbered and reported; with state 0 it is an open draft again.
   */
  lemma DeletedDraftComesBack(w: World, s: Sale, id: BillId, t: TxId, submit: Sale, rowId: RowId, eventId: string)
    requires CanSaveDraft(w, s, id, t) && CanSubmit(w, submit, id, rowId, eventId) && submit.t != s.t && submit.t != t
    ensures
      var deleted := Run(Run(w, SaveNew(s, id, Disable, {}, 0, "")), Delete(t, id, Disable));
      var v := Run(deleted, Submit(submit, Disable, {}, rowId, eventId));
      && IsDeleted(deleted, id) && Inv(v) && id in v.db.bills
      && v.db.bills[id].state == submit.request.content.state
      && (FinalBill(v.db.bills[id]) <==> submit.request.content.state > 0)
  {
    hide Inv, Step, Run, HasReason, Acceptable, Quiet, LastValue, SaleLines, Storable, CanSaveDraft, SaveNew, Delete, Submit, RestoreFrom;
    var deleted := Run(Run(w, SaveNew(s, id, Disable, {}, 0, "")), Delete(t, id, Disable));
    DeletedDraft(w, s, id, Disable, t, Disable);
    RestoreIsRecorded(w.db.shelf, SaleLines(s.request.content), Disable, []);
    UnpaidSaleIsNotRefused(w.tenant, deleted.db, submit.request.content, id, rowId, eventId);
    SubmitSells(deleted, submit, Disable, {}, rowId, eventId);
  }

  // ---------------------------------------------------------------- a paid sale of maintenance alone

  /** A new tenant, and a final sale without products whose maintenance cost of 50.00 is paid with its VAT. */
  predicate SellsMaintenance(w: World, s: Sale, id: BillId) {
    && Initial(w) && ValidTenantKey(w.tenant.key) && s.draft.None? && s.request.key.posId != "" && 0 < id <= MAX_INT64
    && var c := s.request.content;
       && c.state > 0 && c.branchId != 0 && c.products == [] && c.manualProducts == [] && c.maintenanceCost == 5000.0
       && c.paidAmount == 5750.0
  }

  const MAINTENANCE_LINE := Line(None, MAINTENANCE_COST, 5000, 1000, 0)

  lemma MaintenanceLines(c: Content)
    requires c.products == [] && c.manualProducts == [] && c.maintenanceCost == 5000.0
    ensures SaleLines(c) == [MAINTENANCE_LINE]
    ensures RefreshedTotals([MAINTENANCE_LINE]) == Totals(5000, 750, 5750, 0)
  {
    WholeIsStored(5000);
    WholeIsStored(1000);
    WholeIsStored(0);
    WholeIsStored(750);
    hide Stored;
    assert SaleProducts(c) == [Item(None, MAINTENANCE_COST, 5000.0, 1000.0, 0.0)];
    assert SaleLines(c) == [MAINTENANCE_LINE];
    assert (5000 * 1000) as real / 1000.0 == 5000 as real;
    assert (5000 * DEFAULT_VAT) as real / 10000.0 == 750 as real;
    assert TotalBeforeDiscount(MAINTENANCE_LINE) == 5000 && VatTotal(MAINTENANCE_LINE) == 750;
    TotalsOfOne(MAINTENANCE_LINE);
  }

  lemma MaintenanceIsNotRefused(w: World, s: Sale, id: BillId, mode: Mode, rowId: RowId, eventId: string)
    requires SellsMaintenance(w, s, id)
    ensures Acceptable(s.request) && !IsRecorded(w.db, s) && Inv(w) && Quiet(w) && s.t !in w.txs
    ensures !HasReason(w.tenant, w.db, s.request.content, id, mode, {}, rowId, eventId)
  {
    InitialInv(w);
    MaintenanceLines(s.request.content);
    WholeIsStored(5750);
    hide Inv, SaleLines, RefreshedTotals, Stored;
  }

  /** In every mode it is saved: final, with its one line, its totals, its payment and the first number of its branch. */
  lemma MaintenanceAloneIsSaved(w: World, s: Sale, id: BillId, mode: Mode, rowId: RowId, eventId: string)
    requires SellsMaintenance(w, s, id)
    ensures
      var v := Run(w, SaveNew(s, id, mode, {}, rowId, eventId));
      && Is(v, s, Done(Saved(id))) && id in v.db.bills
      && var b := v.db.bills[id];
         && FinalBill(b) && b.number == Some(1) && b.lines == [MAINTENANCE_LINE] && b.totals == Totals(5000, 750, 5750, 0)
         && b.payments == [5750] && b.amountPaid == 5750
  {
    MaintenanceIsNotRefused(w, s, id, mode, rowId, eventId);
    MaintenanceIsFinished(w, s, id);
    hide Inv, Quiet, Step, Run, HasReason, Acceptable, IsRecorded, SaveNew, Sold, FinishedBill;
    SaveNewSells(w, s, id, mode, {}, rowId, eventId);
    SoldIsFinished(w, Run(w, SaveNew(s, id, mode, {}, rowId, eventId)), s, id, mode, {}, rowId, eventId);
  }

  lemma SoldIsFinished(w: World, v: World, s: Sale, id: BillId, mode: Mode, unread: set<nat>, rowId: RowId, eventId: string)
    requires Sold(w, v, s, id, mode, unread, rowId, eventId)
    ensures Is(v, s, Done(Saved(id))) && id in v.db.bills
    ensures FinishedBill(w.db, TxOf(s, Updated(id, NumberFor(w.db, s.request.content)))) == Some(v.db.bills[id])
  {
    hide Inv, Quiet, FinishedBill, SaleLines, Storable, LastValue, SaleDeduction, QueuedEvent;
  }

  lemma MaintenanceIsFinished(w: World, s: Sale, id: BillId)
    requires SellsMaintenance(w, s, id)
    ensures
      var finished := FinishedBill(w.db, TxOf(s, Updated(id, NumberFor(w.db, s.request.content))));
      && finished.Some?
      && var b := finished.value;
         && FinalBill(b) && b.number == Some(1) && b.lines == [MAINTENANCE_LINE] && b.totals == Totals(5000, 750, 5750, 0)
         && b.payments == [5750] && b.amountPaid == 5750
  {
    MaintenanceLines(s.request.content);
    WholeIsStored(5750);
    hide SaleLines, RefreshedTotals, Stored;
    assert [] + [MAINTENANCE_LINE] == [MAINTENANCE_LINE];
  }

  // ---------------------------------------------------------------- a sale of more than there is

  /** A new tenant with one article of product p, and an unpaid final sale of 1.0004 of it. */
  predicate AsksForTooMuch(w: World, s: Sale, id: BillId, p: nat) {
    && Initial(w) && ValidTenantKey(w.tenant.key) && p in w.db.shelf && w.db.shelf[p] == 1000
    && s.draft.None? && s.request.key.posId != "" && 0 < id <= MAX_INT64
    && var c := s.request.content;
       && c.state > 0 && c.branchId != 0 && c.paidAmount == 0.0 && c.maintenanceCost == 0.0
       && c.products == [ItemOf(p, 1000.4)] && c.manualProducts == []
  }

  lemma ItIsAcceptable(w: World, s: Sale, id: BillId, p: nat)
    requires AsksForTooMuch(w, s, id, p)
    ensures Acceptable(s.request) && Storable(SaleLines(s.request.content), w.db.shelf.Keys)
  {
    WholeIsStored(0);
    SaleIsStorableIff(s.request.content, w.db.shelf.Keys);
    hide Stored, Storable, SaleLines;
  }

  lemma ItFitsInWarnModeOnly(w: World, s: Sale, id: BillId, p: nat)
    requires AsksForTooMuch(w, s, id, p)
    ensures EachLineFits(w.db.shelf, s.request.content.products, Warn)
    ensures !EachLineFits(w.db.shelf, s.request.content.products, Enforce)
  {
    var items := s.request.content.products;
    NearestIsStored(1000.4, 1000);
    assert items[..0] == [];
    assert LineFits(w.db.shelf, items, 0, Warn) && !LineFits(w.db.shelf, items, 0, Enforce);
  }

  lemma ItIsRefusedByEnforceModeOnly(w: World, s: Sale, id: BillId, p: nat, rowId: RowId, eventId: string)
    requires AsksForTooMuch(w, s, id, p)
    ensures !HasReason(w.tenant, w.db, s.request.content, id, Warn, {}, rowId, eventId)
    ensures HasReason(w.tenant, w.db, s.request.content, id, Enforce, {}, rowId, eventId)
  {
    ItIsAcceptable(w, s, id, p);
    ItFitsInWarnModeOnly(w, s, id, p);
    NothingUnread(s.request.content.products);
    hide Storable, SaleLines, RefreshedTotals, EachLineFits, Acceptable;
  }

  /** In warn mode that sale is final with a warning, and the shelf is empty: a run can set X-Stock-Warning on a success. */
  lemma WarnModeSellsMoreThanThereIs(w: World, s: Sale, id: BillId, p: nat, rowId: RowId, eventId: string)
    requires AsksForTooMuch(w, s, id, p)
    ensures
      var v := Run(w, SaveNew(s, id, Warn, {}, rowId, eventId));
      && id in v.db.bills && FinalBill(v.db.bills[id])
      && SaleDeduction(w.db, s.request.content, Warn, {}) == Deducted(v.db.shelf, v.db.movements, [Warning(p, 1000, 1000.4)])
      && v.db.shelf == w.db.shelf[p := 0] && v.db.movements == [Movement(p, -1000, Stock.Sale)]
  {
    ItCanBeSaved(w, s, id, p);
    ItIsRefusedByEnforceModeOnly(w, s, id, p, rowId, eventId);
    ItTakesEverything(w.db, s.request.content, p);
    hide *;
    SaveNewSells(w, s, id, Warn, {}, rowId, eventId);
    var v := Run(w, SaveNew(s, id, Warn, {}, rowId, eventId));
    SoldSale(w, v, s, id, Warn, {}, rowId, eventId);
    assert v.db.movements == [] + [Movement(p, -1000, Stock.Sale)] == [Movement(p, -1000, Stock.Sale)];
  }

  /** In enforce mode it writes nothing. */
  lemma EnforceModeDoesNot(w: World, s: Sale, id: BillId, p: nat, rowId: RowId, eventId: string)
    requires AsksForTooMuch(w, s, id, p)
    ensures Run(w, SaveNew(s, id, Enforce, {}, rowId, eventId)).db == w.db
  {
    ItCanBeSaved(w, s, id, p);
    ItIsRefusedByEnforceModeOnly(w, s, id, p, rowId, eventId);
    assert s.draft.None? && id != 0;
    hide *;
    SaveNewIsRefused(w, s, id, Enforce, {}, rowId, eventId);
  }

  lemma ItCanBeSaved(w: World, s: Sale, id: BillId, p: nat)
    requires AsksForTooMuch(w, s, id, p)
    ensures Inv(w) && Quiet(w) && s.t !in w.txs && Acceptable(s.request) && !IsRecorded(w.db, s) && id !in w.db.bills
    ensures w.db.movements == []
  {
    InitialInv(w);
    ItIsAcceptable(w, s, id, p);
    hide Inv, Acceptable, Storable, SaleLines;
  }

  lemma ItTakesEverything(db: Db, c: Content, p: nat)
    requires p in db.shelf && db.shelf[p] == 1000 && c.state > 0 && c.products == [ItemOf(p, 1000.4)]
    ensures SaleDeduction(db, c, Warn, {}) == Deducted(db.shelf[p := 0], [Movement(p, -1000, Stock.Sale)], [Warning(p, 1000, 1000.4)])
  {
    NearestIsStored(-0.4, 0);
    NearestIsStored(-1000.4, -1000);
    NothingUnread(c.products);
    hide Stored;
    var items, m, warning := c.products, Movement(p, -1000, Stock.Sale), Warning(p, 1000, 1000.4);
    assert items[1..] == [] && [] + [m] == [m] && [] + [warning] == [warning];
    assert DeductFrom(db.shelf, items, Warn, [], []) == DeductFrom(db.shelf[p := 0], [], Warn, [m], [warning]);
  }

  lemma SoldSale(w: World, v: World, s: Sale, id: BillId, mode: Mode, unread: set<nat>, rowId: RowId, eventId: string)
    requires Sold(w, v, s, id, mode, unread, rowId, eventId)
    ensures id in v.db.bills && (FinalBill(v.db.bills[id]) <==> s.request.content.state > 0)
    ensures
      var d := SaleDeduction(w.db, s.request.content, mode, unread);
      d.Deducted? && v.db.shelf == d.shelf && v.db.movements == w.db.movements + d.movements
  {
    hide Inv, Quiet, FinishedBill, SaleLines, Storable, LastValue, SaleDeduction, QueuedEvent;
  }

  /** A new sale that has a reason to be refused leaves the database as it was. */
  lemma SaveNewIsRefused(w: World, s: Sale, id: BillId, mode: Mode, unread: set<nat>, rowId: RowId, eventId: string)
    requires Inv(w) && Quiet(w) && s.t !in w.txs && Acceptable(s.request) && s.draft.None? && !IsRecorded(w.db, s)
    requires id != 0 && id !in w.db.bills && id !in w.db.strays.ids && HasReason(w.tenant, w.db, s.request.content, id, mode, unread, rowId, eventId)
    ensures Run(w, SaveNew(s, id, mode, unread, rowId, eventId)).db == w.db
  {
    hide Step, Run, HasReason, Acceptable, Quiet, IsRecorded, LastValue, DbOk, LocksOk, AnswerOk, TxOk, NonNegative;
    var v := NewSaleReachesUpdated(w, s, id);
    RunOfSix(w, SaveNew(s, id, mode, unread, rowId, eventId));
    assert TxOk(v.db, v.txs[s.t]);
    DbParts(v.tenant, v.db);
    CommitIsRefusedIff(v.tenant, v.db, v.txs[s.t], mode, unread, rowId, eventId);
    CommitLeaves(v, Commit(s.t, mode, unread, rowId, eventId, true));
  }
}
