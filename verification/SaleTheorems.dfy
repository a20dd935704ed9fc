/** What the sale command promises, over every interleaving of any number of transactions. */
module SaleTheorems {
  import opened Options
  import opened LineTotals
  import opened DocumentKeys
  import opened Stock
  import opened SaleTypes
  import opened SaleProtocol
  import opened SaleInvariant
  import opened SaleSteps
  import opened SaleCommit

  lemma RunIsSound(w: World, actions: seq<Action>)
    requires Initial(w)
    ensures Inv(Run(w, actions))
  {
    InitialInv(w);
    RunKeepsInv(w, actions);
  }

  // ---------------------------------------------------------------- idempotence

  function BillsWithKey(db: Db, key: Key): set<BillId> {
    set id | id in db.bills && db.bills[id].ident.Some? && db.bills[id].ident.value.key == key
  }

  /** The rows of the outbox table that report a bill. */
  function EventsOfBill(db: Db, id: BillId): set<RowId> { set i | i in Outbox(db) && Outbox(db)[i].payload.id == id }

  /** Those of them that sales adrift have written. */
  function StrayRows(db: Db, id: BillId): set<RowId> { set i | i in db.strays.outbox && db.strays.outbox[i].payload.id == id }

  function SlotsOfBill(db: Db, id: BillId): set<Slot> { set s | s in db.byNumber && db.byNumber[s] == id }

  /**
   Whatever copies of a final sale request run, in whatever interleaving, with rollbacks and lost answers:
   every one that is answered with a bill is answered with the one bill that carries its request key, and
   that bill holds its content. The copies together leave one bill, one number, at most one stock deduction, one event
   beside those of sales adrift, and at most one payment unless a sale adrift has replaced it. What a sale adrift itself
   is answered is in SaleStrays.
   */
  lemma SaleIsIdempotent(w: World, actions: seq<Action>, k: nat)
    requires Initial(w) && k < |Run(w, actions).answers|
    requires Run(w, actions).answers[k].request.content.state > 0
    ensures
      var db, a := Run(w, actions).db, Run(w, actions).answers[k];
      && BillsWithKey(db, a.request.key) == {a.bill}
      && db.bills[a.bill].content == a.request.content
      && |SlotsOfBill(db, a.bill)| == 1 && |EventsOfBill(db, a.bill)| == 1 + |StrayRows(db, a.bill)|
      && db.deductions[a.bill] <= 1 && (a.bill !in db.strays.payments ==> |PaymentsOf(db, a.bill)| <= 1)
  {
    hide Run;
    RunIsSound(w, actions);
    var v := Run(w, actions);
    OneOfEach(v.tenant, v.db, v.answers[k]);
  }

  lemma OneOfEach(tenant: Tenant, db: Db, a: Answer)
    requires DbOk(tenant, db) && AnswerOk(db, a) && a.request.content.state > 0
    ensures BillsWithKey(db, a.request.key) == {a.bill}
    ensures |SlotsOfBill(db, a.bill)| == 1 && |EventsOfBill(db, a.bill)| == 1 + |StrayRows(db, a.bill)|
    ensures db.deductions[a.bill] <= 1 && (a.bill !in db.strays.payments ==> |PaymentsOf(db, a.bill)| <= 1)
  {
    hide DbOk, LinesOk, EventsOk, NumbersOk;
    DbHasParts(tenant, db);
    OneBill(db, a.request.key);
    OneSlot(db, a.bill);
    OneEvent(tenant, db, a.bill);
  }

  /** The parts of DbOk, one by one. */
  lemma DbHasParts(tenant: Tenant, db: Db)
    requires DbOk(tenant, db)
    ensures RequestKeysOk(db) && NumbersOk(db) && EventsOk(tenant, db) && DeductionsOk(db) && StraysOk(db)
    ensures forall id | id in db.bills :: StateOk(db, id, db.bills[id]) && PaymentOk(db.bills[id])
  {
    hide RequestKeysOk, NumbersOk, EventsOk, DeductionsOk, StateOk, PaymentOk, LinesOk, StraysOk;
    forall id | id in db.bills ensures StateOk(db, id, db.bills[id]) && PaymentOk(db.bills[id]) {
      assert BillOk(db, id);
    }
  }

  lemma OneBill(db: Db, key: Key)
    requires RequestKeysOk(db) && key in db.byRequest
    requires forall id | id in db.bills :: StateOk(db, id, db.bills[id])
    ensures BillsWithKey(db, key) == {db.byRequest[key]}
  {
    assert db.byRequest[key] in BillsWithKey(db, key);
    forall id | id in BillsWithKey(db, key) ensures id == db.byRequest[key] { assert StateOk(db, id, db.bills[id]); }
  }

  lemma OneSlot(db: Db, id: BillId)
    requires NumbersOk(db) && id in db.bills && StateOk(db, id, db.bills[id]) && FinalBill(db.bills[id])
    ensures SlotsOfBill(db, id) == {Slot(db.bills[id].content.branchId, db.bills[id].number.value)}
  {
    forall s | s in SlotsOfBill(db, id) ensures s == Slot(db.bills[id].content.branchId, db.bills[id].number.value) {
      assert SlotOk(db, s);
    }
  }

  lemma OneEvent(tenant: Tenant, db: Db, id: BillId)
    requires EventsOk(tenant, db) && StraysOk(db) && id in db.bills && FinalBill(db.bills[id])
    ensures |EventsOfBill(db, id)| == 1 + |StrayRows(db, id)|
  {
    hide EventOk;
    var row: RowId :| Reports(db, row, id);
    assert EventsOfBill(db, id) == {row} + StrayRows(db, id);
    assert row !in StrayRows(db, id);
  }

  /** Some transaction was begun for this request. */
  ghost predicate WasSent(w: World, r: Request) { exists t | t in w.txs :: w.txs[t].SaleTx? && w.txs[t].request == r }

  ghost predicate FinalsWereSent(w: World) {
    forall id | id in w.db.bills && FinalBill(w.db.bills[id]) && w.db.bills[id].ident.Some? ::
      WasSent(w, Request(w.db.bills[id].ident.value.key, w.db.bills[id].content))
  }

  /** A step of a sale adrift moves that sale alone. */
  lemma AdriftMovesOne(w: World, a: Action)
    requires OfSaleAdrift(a)
    ensures Step(w, a).tenant == w.tenant
    ensures a.t in w.txs ==>
      a.t in Step(w, a).txs && Step(w, a).txs == w.txs[a.t := w.txs[a.t].(stage := Step(w, a).txs[a.t].stage)]
    ensures a.t !in w.txs ==> Step(w, a) == w
  {
    hide CanBeLost, BillEvent, StopsAt, FreshEvent, Moved, PaymentsOf;
  }

  /** A step is of one transaction. */
  lemma StepLeavesTx(w: World, a: Action, t: TxId)
    requires a.t != t
    ensures t in Step(w, a).txs <==> t in w.txs
    ensures t in w.txs ==> Step(w, a).txs[t] == w.txs[t]
    ensures Step(w, a).tenant == w.tenant
  {
    hide Committed, DeletedDb, RequestReply, LockedStage, RowHeld, CounterHeld, KeyHeld, LastValue, Acceptable;
    hide CanBeLost, LoseStep, StrayLineStep, StrayEventStep, ClearStep, PayStep;
    if OfSaleAdrift(a) { AdriftMovesOne(w, a); }
  }

  /** A transaction keeps its request for ever. */
  lemma TxKeepsRequest(w: World, a: Action, t: TxId)
    requires t in w.txs && w.txs[t].SaleTx?
    ensures t in Step(w, a).txs && Step(w, a).txs[t].SaleTx? && Step(w, a).txs[t].request == w.txs[t].request
  {
    hide Committed, DeletedDb, RequestReply, LockedStage, RowHeld, CounterHeld, KeyHeld, LastValue, Acceptable;
    hide CanBeLost, LoseStep, StrayLineStep, StrayEventStep, ClearStep, PayStep;
    if a.t != t { StepLeavesTx(w, a, t); } else if OfSaleAdrift(a) { AdriftMovesOne(w, a); }
  }

  lemma StepKeepsSent(w: World, a: Action, r: Request)
    requires WasSent(w, r)
    ensures WasSent(Step(w, a), r)
  {
    hide Step;
    var t :| t in w.txs && w.txs[t].SaleTx? && w.txs[t].request == r;
    TxKeepsRequest(w, a, t);
  }

  lemma SenderIsThere(w: World, t: TxId)
    requires t in w.txs && w.txs[t].SaleTx?
    ensures WasSent(w, w.txs[t].request)
  {
  }

  /** The bill that a step makes final is that of the transaction that commits it. */
  lemma NewFinalIsTheRequests(w: World, a: Action, id: BillId)
    requires Inv(w) && id in Step(w, a).db.bills && FinalBill(Step(w, a).db.bills[id]) && Step(w, a).db.bills[id].ident.Some?
    requires id in w.db.bills ==> w.db.bills[id] != Step(w, a).db.bills[id]
    ensures
      var b := Step(w, a).db.bills[id];
      a.t in w.txs && w.txs[a.t].SaleTx? && w.txs[a.t].request == Request(b.ident.value.key, b.content)
  {
    hide Step, DbOk, LocksOk, AnswerOk, TxOk, FinishedBill, SaleDeduction, QueuedEvent, Storable;
    OnlyCommitsCommit(w, a);
    if a.Commit? {
      assert TxOk(w.db, w.txs[a.t]);
      FinishedBillIsTheRequests(w.db, w.txs[a.t]);
    }
  }

  lemma {:induction false} RunKeepsFinalsSent(w: World, actions: seq<Action>)
    requires Initial(w)
    ensures FinalsWereSent(Run(w, actions))
  {
    hide Step, Inv, WasSent;
    if actions != [] {
      var before, a := Run(w, actions[..|actions| - 1]), actions[|actions| - 1];
      RunKeepsFinalsSent(w, actions[..|actions| - 1]);
      RunIsSound(w, actions[..|actions| - 1]);
      var v := Step(before, a);
      forall id | id in v.db.bills && FinalBill(v.db.bills[id]) && v.db.bills[id].ident.Some?
        ensures WasSent(v, Request(v.db.bills[id].ident.value.key, v.db.bills[id].content))
      {
        var r := Request(v.db.bills[id].ident.value.key, v.db.bills[id].content);
        if !(id in before.db.bills && before.db.bills[id] == v.db.bills[id]) {
          NewFinalIsTheRequests(before, a, id);
          SenderIsThere(before, a.t);
        }
        StepKeepsSent(before, a, r);
      }
    }
  }

  /**
   Under one request key there is at most one bill in any run, answered or not: one number, one event, at most one
   stock deduction and one payment, and the content of a request that was sent under that key. So it is when a commit
   succeeds and its answer is lost.
   */
  lemma RequestKeyIsUsedOnce(w: World, actions: seq<Action>, key: Key)
    requires Initial(w)
    ensures
      var v := Run(w, actions);
      var db := v.db;
      && |BillsWithKey(db, key)| <= 1
      && (BillsWithKey(db, key) != {} <==> key in db.byRequest)
      && forall id | id in BillsWithKey(db, key) ::
           && FinalBill(db.bills[id]) && db.byRequest[key] == id && WasSent(v, Request(key, db.bills[id].content))
           && |SlotsOfBill(db, id)| == 1 && |EventsOfBill(db, id)| == 1 + |StrayRows(db, id)|
           && db.deductions[id] <= 1 && (id !in db.strays.payments ==> |PaymentsOf(db, id)| <= 1)
  {
    hide Run;
    RunIsSound(w, actions);
    RunKeepsFinalsSent(w, actions);
    var v := Run(w, actions);
    hide WasSent;
    OneOfEachUnderKey(v.tenant, v.db, key);
  }

  lemma OneOfEachUnderKey(tenant: Tenant, db: Db, key: Key)
    requires DbOk(tenant, db)
    ensures key !in db.byRequest ==> BillsWithKey(db, key) == {}
    ensures key in db.byRequest ==>
      var id := db.byRequest[key];
      && BillsWithKey(db, key) == {id} && id in db.bills && FinalBill(db.bills[id])
      && |SlotsOfBill(db, id)| == 1 && |EventsOfBill(db, id)| == 1 + |StrayRows(db, id)|
      && db.deductions[id] <= 1 && (id !in db.strays.payments ==> |PaymentsOf(db, id)| <= 1)
  {
    hide DbOk, LinesOk, EventsOk, NumbersOk;
    DbHasParts(tenant, db);
    forall id | id in BillsWithKey(db, key) ensures key in db.byRequest { assert StateOk(db, id, db.bills[id]); }
    if key in db.byRequest {
      var id := db.byRequest[key];
      assert StateOk(db, id, db.bills[id]);
      OneBill(db, key);
      OneSlot(db, id);
      OneEvent(tenant, db, id);
    }
  }

  /**
   A retry needs no answer to have been given: a new sale whose request key is on a committed bill is answered with that
   bill exactly when it has its content, and with a conflict otherwise.
   */
  lemma RetryIsAnsweredFromTheRecord(w: World, actions: seq<Action>, t: TxId)
    requires Initial(w) && t in Run(w, actions).txs && Run(w, actions).txs[t].SaleTx?
    requires Run(w, actions).txs[t].stage.Begun? && Run(w, actions).txs[t].draft.None?
    requires Run(w, actions).txs[t].request.content.state > 0 && Run(w, actions).txs[t].request.key in Run(w, actions).db.byRequest
    ensures
      var v := Run(w, actions);
      var tx := v.txs[t];
      var id := v.db.byRequest[tx.request.key];
      && id in v.db.bills && t in Step(v, CheckRequest(t)).txs
      && Step(v, CheckRequest(t)).txs[t].stage
         == Done(if v.db.bills[id].content == tx.request.content then Saved(id) else RequestConflict)
      && Step(v, CheckRequest(t)).db == v.db
  {
    hide Run, Step, StateOk;
    RunIsSound(w, actions);
    var v := Run(w, actions);
    LostTxOk(v, t);
    DbHasParts(v.tenant, v.db);
    RecordedIsFinal(v.tenant, v.db, v.txs[t].request.key);
    hide Inv, DbOk;
    CheckFindsTheRecord(v, t);
  }

  lemma CheckFindsTheRecord(v: World, t: TxId)
    requires t in v.txs && v.txs[t].SaleTx? && v.txs[t].stage.Begun? && v.txs[t].draft.None?
    requires v.txs[t].request.content.state > 0 && v.txs[t].request.key in v.db.byRequest
    requires
      var id := v.db.byRequest[v.txs[t].request.key];
      id in v.db.bills && FinalBill(v.db.bills[id]) && StateOk(v.db, id, v.db.bills[id])
    ensures
      var tx, u := v.txs[t], Step(v, CheckRequest(t));
      var id := v.db.byRequest[tx.request.key];
      && u.db == v.db && t in u.txs
      && u.txs[t].stage == Done(if v.db.bills[id].content == tx.request.content then Saved(id) else RequestConflict)
  {
    hide RecordedReply, StateOk;
    RecordedReplyIs(v.db, v.txs[t]);
  }

  /** Two answers under one request key name the same bill, for the same content. */
  lemma AnswersAgree(w: World, actions: seq<Action>, j: nat, k: nat)
    requires Initial(w) && j < |Run(w, actions).answers| && k < |Run(w, actions).answers|
    requires Run(w, actions).answers[j].request.key == Run(w, actions).answers[k].request.key
    requires Run(w, actions).answers[j].request.content.state > 0 && Run(w, actions).answers[k].request.content.state > 0
    ensures Run(w, actions).answers[j].bill == Run(w, actions).answers[k].bill
    ensures Run(w, actions).answers[j].request.content == Run(w, actions).answers[k].request.content
  {
    hide Run, DbOk, TxOk, Compatible;
    RunIsSound(w, actions);
    assert AnswerOk(Run(w, actions).db, Run(w, actions).answers[j]);
    assert AnswerOk(Run(w, actions).db, Run(w, actions).answers[k]);
  }

  // ---------------------------------------------------------------- final bills

  /**
   In every committed state a bill is final exactly when it has its request identity and exactly when it has a number. It
   has an outbox row for being final, and one for each sale adrift that went on to its event, and no other.
   */
  lemma FinalIsAllOrNothing(w: World, actions: seq<Action>, id: BillId)
    requires Initial(w) && id in Run(w, actions).db.bills
    ensures
      var db := Run(w, actions).db;
      && (FinalBill(db.bills[id]) <==> db.bills[id].ident.Some?)
      && (FinalBill(db.bills[id]) <==> db.bills[id].number.Some?)
      && |EventsOfBill(db, id)| == (if FinalBill(db.bills[id]) then 1 else 0) + |StrayRows(db, id)|
  {
    hide Run;
    RunIsSound(w, actions);
    EventsIffFinal(Run(w, actions).tenant, Run(w, actions).db, id);
  }

  lemma EventsIffFinal(tenant: Tenant, db: Db, id: BillId)
    requires DbOk(tenant, db) && id in db.bills
    ensures StateOk(db, id, db.bills[id])
    ensures |EventsOfBill(db, id)| == (if FinalBill(db.bills[id]) then 1 else 0) + |StrayRows(db, id)|
  {
    DbHasParts(tenant, db);
    hide DbOk, EventsOk, StraysOk, EventsOfBill, StrayRows, NumbersOk, RequestKeysOk, DeductionsOk;
    assert StateOk(db, id, db.bills[id]);
    if FinalBill(db.bills[id]) { OneEvent(tenant, db, id); } else { NoOwnRow(tenant, db, id); }
  }

  lemma NoOwnRow(tenant: Tenant, db: Db, id: BillId)
    requires EventsOk(tenant, db) && StraysOk(db) && id in db.bills && StateOk(db, id, db.bills[id]) && !FinalBill(db.bills[id])
    ensures EventsOfBill(db, id) == StrayRows(db, id)
  {
    hide BillEvent;
    forall row | row in db.outbox ensures db.outbox[row].payload.id != id { assert EventOk(tenant, db, db.outbox[row]); }
    hide EventsOk, EventOk, StateOk;
    assert forall row :: row in EventsOfBill(db, id) <==> row in StrayRows(db, id);
  }

  /** Once final, always the same: no transaction changes its fields, number, lines, totals and payment again. */
  lemma FinalIsAbsorbing(w: World, before: seq<Action>, after: seq<Action>, id: BillId)
    requires Initial(w) && id in Run(w, before).db.bills && FinalBill(Run(w, before).db.bills[id])
    ensures id in Run(Run(w, before), after).db.bills
    ensures Run(Run(w, before), after).db.bills[id] == Run(w, before).db.bills[id]
  {
    hide Run, Inv;
    RunIsSound(w, before);
    RunKeepsInv(Run(w, before), after);
  }

  function BillsNumbered(db: Db, branchId: BranchId, n: nat): set<BillId> {
    set id | id in db.bills && FinalBill(db.bills[id]) && db.bills[id].content.branchId == branchId
             && db.bills[id].number == Some(n)
  }

  /**
   Gap-free numbering: the numbers of a branch's final bills are exactly 1 to last_value, and each number is
   the number of one bill, whatever was rolled back, lost, replayed or refused.
   */
  lemma NumbersHaveNoGaps(w: World, actions: seq<Action>, branchId: BranchId, n: nat)
    requires Initial(w)
    ensures
      var db := Run(w, actions).db;
      |BillsNumbered(db, branchId, n)| == if 1 <= n <= LastValue(db, branchId) then 1 else 0
  {
    hide Run;
    RunIsSound(w, actions);
    var v := Run(w, actions);
    DbHasParts(v.tenant, v.db);
    NumberIsOfOneBill(v.db, branchId, n);
  }

  lemma NumberIsOfOneBill(db: Db, branchId: BranchId, n: nat)
    requires NumbersOk(db) && forall id | id in db.bills :: StateOk(db, id, db.bills[id])
    ensures |BillsNumbered(db, branchId, n)| == if 1 <= n <= LastValue(db, branchId) then 1 else 0
  {
    var s := Slot(branchId, n);
    assert s in db.byNumber ==> SlotOk(db, s);
    forall id | id in BillsNumbered(db, branchId, n) ensures s in db.byNumber && db.byNumber[s] == id {
      assert StateOk(db, id, db.bills[id]);
    }
    if 1 <= n <= LastValue(db, branchId) {
      assert s in db.byNumber;
      assert StateOk(db, db.byNumber[s], db.bills[db.byNumber[s]]);
      assert BillsNumbered(db, branchId, n) == {db.byNumber[s]};
    } else {
      assert BillsNumbered(db, branchId, n) == {};
    }
  }

  /**
   The transaction that saves a bill leaves it at most one payment: one exactly when something was paid, for that amount,
   within the total of its lines. That is what the table holds until a sale adrift replaces it.
   */
  lemma PaymentsMatch(w: World, actions: seq<Action>, id: BillId)
    requires Initial(w) && id in Run(w, actions).db.bills
    ensures
      var db := Run(w, actions).db;
      var b := db.bills[id];
      && b.amountPaid as real == b.content.paidAmount
      && (b.amountPaid > 0 <==> |b.payments| == 1) && (b.amountPaid == 0 <==> b.payments == [])
      && (forall p | p in b.payments :: p == b.amountPaid && p <= RefreshedTotals(b.lines).total)
      && (id !in db.strays.payments ==> PaymentsOf(db, id) == b.payments)
  {
    hide Run, RefreshedTotals;
    RunIsSound(w, actions);
    assert BillOk(Run(w, actions).db, id);
  }

  // ---------------------------------------------------------------- lost races

  /** The winner is there, and the re-read replays it or reports a conflict. */
  ghost predicate FindsTheWinner(v: World, t: TxId)
    requires t in v.txs && v.txs[t].SaleTx?
  {
    var tx := v.txs[t];
    && tx.request.key in v.db.byRequest && v.db.byRequest[tx.request.key] in v.db.bills
    && var winner := v.db.byRequest[tx.request.key];
       Step(v, RereadRequest(t)).txs[t].stage
       == Done(if tx.draft.None? && v.db.bills[winner].content == tx.request.content then Saved(winner) else RequestConflict)
  }

  /**
   A sale that loses its request key always finds the winner: the re-read of a new sale replays the winner
   exactly when it has the same content, and anything else is a conflict. The answer for a winner that
   cannot be found is never given.
   */
  lemma LostRaceFindsTheWinner(w: World, actions: seq<Action>, t: TxId)
    requires Initial(w) && t in Run(w, actions).txs && Run(w, actions).txs[t].stage.LostRace?
    ensures Run(w, actions).txs[t].SaleTx? && FindsTheWinner(Run(w, actions), t)
  {
    hide Run;
    RunIsSound(w, actions);
    var v := Run(w, actions);
    LostRaceKnows(v.tenant, v.db, v.txs[t]);
    RereadEnds(v, t);
  }

  lemma LostRaceKnows(tenant: Tenant, db: Db, tx: Tx)
    requires DbOk(tenant, db) && TxOk(db, tx) && tx.stage.LostRace?
    ensures tx.SaleTx? && tx.request.content.state > 0 && tx.request.key in db.byRequest
    ensures
      var winner := db.byRequest[tx.request.key];
      && winner in db.bills && FinalBill(db.bills[winner]) && StateOk(db, winner, db.bills[winner])
      && (tx.draft.Some? ==> tx.draft.value != winner)
  {
    RecordedIsFinal(tenant, db, tx.request.key);
    DbHasParts(tenant, db);
  }

  lemma RereadEnds(v: World, t: TxId)
    requires t in v.txs && v.txs[t].SaleTx? && v.txs[t].stage.LostRace?
    requires v.txs[t].request.content.state > 0 && v.txs[t].request.key in v.db.byRequest
    requires
      var winner := v.db.byRequest[v.txs[t].request.key];
      && winner in v.db.bills && FinalBill(v.db.bills[winner]) && StateOk(v.db, winner, v.db.bills[winner])
      && (v.txs[t].draft.Some? ==> v.txs[t].draft.value != winner)
    ensures FindsTheWinner(v, t)
  {
    hide RecordedReply;
    RecordedReplyIs(v.db, v.txs[t]);
  }

  lemma RecordedReplyIs(db: Db, tx: Tx)
    requires tx.SaleTx? && tx.request.content.state > 0 && tx.request.key in db.byRequest
    requires var id := db.byRequest[tx.request.key]; id in db.bills && FinalBill(db.bills[id]) && StateOk(db, id, db.bills[id])
    ensures
      var winner := db.byRequest[tx.request.key];
      RecordedReply(db, winner, IdentOf(tx).value, tx.draft)
      == if (tx.draft.None? || tx.draft.value == winner) && db.bills[winner].content == tx.request.content then Saved(winner)
         else RequestConflict
  {
  }

  predicate NobodyToldAlreadyRecorded(w: World) { forall t | t in w.txs :: w.txs[t].stage != Done(AlreadyRecorded) }

  lemma OnlyRereadsTell(w: World, a: Action)
    requires a.t in Step(w, a).txs && Step(w, a).txs[a.t].stage == Done(AlreadyRecorded)
    ensures a.t in w.txs && (w.txs[a.t].stage == Done(AlreadyRecorded) || (a.RereadRequest? && w.txs[a.t].stage.LostRace?))
  {
    hide Committed, DeletedDb, RowHeld, CounterHeld, KeyHeld, LastValue;
  }

  lemma RereadNeverTells(w: World, t: TxId)
    requires Inv(w) && t in w.txs && w.txs[t].stage.LostRace?
    ensures t in Step(w, RereadRequest(t)).txs
    ensures Step(w, RereadRequest(t)).txs[t].stage != Done(AlreadyRecorded)
  {
    hide Inv, DbOk, StateOk;
    LostTxOk(w, t);
    LostRaceKnows(w.tenant, w.db, w.txs[t]);
    RereadEnds(w, t);
  }

  lemma StepTellsNobody(w: World, a: Action)
    requires Inv(w) && NobodyToldAlreadyRecorded(w)
    ensures NobodyToldAlreadyRecorded(Step(w, a))
  {
    hide Inv, Step;
    var v := Step(w, a);
    if a.RereadRequest? && a.t in w.txs && w.txs[a.t].stage.LostRace? { RereadNeverTells(w, a.t); }
    forall t | t in v.txs ensures v.txs[t].stage != Done(AlreadyRecorded) {
      if t != a.t { StepLeavesTx(w, a, t); } else if v.txs[t].stage == Done(AlreadyRecorded) { OnlyRereadsTell(w, a); }
    }
  }

  lemma LostTxOk(w: World, t: TxId)
    requires Inv(w) && t in w.txs
    ensures DbOk(w.tenant, w.db) && TxOk(w.db, w.txs[t])
  {
    hide DbOk, TxOk, LocksOk, AnswerOk;
  }

  /** In no run is any sale told that its request was recorded by a bill that cannot be found. */
  lemma {:induction false} NeverAlreadyRecorded(w: World, actions: seq<Action>)
    requires Initial(w)
    ensures NobodyToldAlreadyRecorded(Run(w, actions))
  {
    hide Step, Inv, NobodyToldAlreadyRecorded;
    if actions != [] {
      NeverAlreadyRecorded(w, actions[..|actions| - 1]);
      RunIsSound(w, actions[..|actions| - 1]);
      StepTellsNobody(Run(w, actions[..|actions| - 1]), actions[|actions| - 1]);
    } else {
      NobodyIsOpen(w);
    }
  }

  lemma NobodyIsOpen(w: World)
    requires w.txs == map[]
    ensures NobodyToldAlreadyRecorded(w)
  {
  }

  /** A final sale never collides on the number key of its branch. */
  lemma NumberKeyNeverCollides(w: World, actions: seq<Action>, t: TxId)
    requires Initial(w) && t in Run(w, actions).txs && Run(w, actions).txs[t].SaleTx?
    requires Run(w, actions).txs[t].stage.Numbered? && Run(w, actions).txs[t].stage.number.Some?
    ensures
      var v := Run(w, actions);
      Slot(v.txs[t].request.content.branchId, v.txs[t].stage.number.value) !in v.db.byNumber
  {
    hide Run;
    RunIsSound(w, actions);
    var v := Run(w, actions);
    DbHasParts(v.tenant, v.db);
    NumberedIsFree(v.db, v.txs[t]);
  }

  lemma NumberedIsFree(db: Db, tx: Tx)
    requires NumbersOk(db) && TxOk(db, tx) && tx.SaleTx? && tx.stage.Numbered? && tx.stage.number.Some?
    ensures Slot(tx.request.content.branchId, tx.stage.number.value) !in db.byNumber
  {
    hide NumbersOk, Acceptable;
    NumberIsUnused(db, tx.request.content.branchId);
  }

  // ---------------------------------------------------------------- stock

  /** What the steps of sales adrift change is quantities, movements and strays. */
  predicate OfSaleAdrift(a: Action) {
    a.LoseTransaction? || a.TakeStrayLine? || a.AppendStrayEvent? || a.ClearStrayPayments? || a.PayStray?
  }

  /** Two steps commit transactions, and those of sales adrift write beside them. */
  lemma OnlyCommitsCommit(w: World, a: Action)
    requires Step(w, a).db != w.db
    ensures a.t in w.txs
    ensures a.Commit? || a.CommitDelete? || OfSaleAdrift(a)
    ensures a.Commit? ==>
      && w.txs[a.t].SaleTx? && w.txs[a.t].stage.Updated?
      && Committed(w.tenant, w.db, w.txs[a.t], a.mode, a.unread, a.rowId, a.eventId) == Some(Step(w, a).db)
    ensures a.CommitDelete? ==>
      && w.txs[a.t].DeleteTx? && w.txs[a.t].stage.Opened? && w.txs[a.t].stage.bill in w.db.bills
      && DeletedDb(w.db, w.txs[a.t].stage.bill, a.mode) == Some(Step(w, a).db)
    ensures OfSaleAdrift(a) ==>
      var d := Step(w, a).db;
      d == w.db.(shelf := d.shelf, movements := d.movements, strays := d.strays) && d.shelf.Keys == w.db.shelf.Keys
  {
    hide Committed, DeletedDb, RequestReply, LockedStage, RowHeld, CounterHeld, KeyHeld, LastValue, CanBeLost, BillEvent, StopsAt;
  }

  // ---------------------------------------------------------------- the lines of a sale

  lemma {:induction false} RequestedConcat(a: seq<Line>, b: seq<Line>, p: nat)
    ensures Requested(a + b, p) == Requested(a, p) + Requested(b, p)
  {
    if a == [] {
      assert a + b == b;
    } else {
      assert (a + b)[1..] == a[1..] + b;
      RequestedConcat(a[1..], b, p);
    }
  }

  lemma {:induction false} DroppedIdsCostTheSame(items: seq<Item>)
    ensures Sum(TotalBeforeVat, StoredLines(DropProductIds(items))) == Sum(TotalBeforeVat, StoredLines(items))
  {
    hide StoredLine;
    if items != [] {
      assert StoredLines(DropProductIds(items))[1..] == StoredLines(DropProductIds(items[1..]));
      assert StoredLines(items)[1..] == StoredLines(items[1..]);
      DroppedIdsCostTheSame(items[1..]);
      PriceHasNoProduct(items[0]);
    }
  }

  lemma PriceHasNoProduct(i: Item)
    ensures TotalBeforeVat(StoredLine(i.(product := None))) == TotalBeforeVat(StoredLine(i))
  {
  }

  /** A line of one article costs its price. */
  lemma OneArticleCostsItsPrice(l: Line)
    requires l.quantity == 1000 && l.discount == 0
    ensures TotalBeforeVat(l) == l.price
  {
    NearestIsStored((l.price * 1000) as real / 1000.0, l.price);
  }

  /**
   The lines of a sale on its request: the catalog lines in their order, then the manual ones without a product, then a positive
   maintenance cost as one article at that price. A column rounds each amount and nothing else changes.
   */
  lemma LinesOnTheRequest(c: Content)
    ensures
      var lines, n, m := SaleLines(c), |c.products|, |c.manualProducts|;
      && |lines| == n + m + (if c.maintenanceCost > 0.0 then 1 else 0)
      && (forall k | 0 <= k < n ::
            var i := c.products[k];
            lines[k] == Line(i.product, i.name, Stored(i.price), Stored(i.quantity), Stored(i.discount)))
      && (forall k | 0 <= k < m ::
            var i := c.manualProducts[k];
            lines[n + k] == Line(None, i.name, Stored(i.price), Stored(i.quantity), Stored(i.discount)))
      && (c.maintenanceCost > 0.0 ==> lines[n + m] == Line(None, "maintenance_cost", Stored(c.maintenanceCost), 1000, 0))
  {
    WholeIsStored(1000);
    WholeIsStored(0);
    hide Stored;
  }

  /**
   The stored lines of a sale hold the stock of its catalog lines alone, and they cost what the catalog lines, the
   manual lines and a positive maintenance cost together do, each as its column stores it.
   */
  lemma LinesOfASale(c: Content, p: nat)
    ensures Requested(SaleLines(c), p) == Requested(StoredLines(c.products), p)
    ensures Sum(TotalBeforeVat, SaleLines(c))
            == Sum(TotalBeforeVat, StoredLines(c.products)) + Sum(TotalBeforeVat, StoredLines(c.manualProducts))
               + if c.maintenanceCost > 0.0 then Stored(c.maintenanceCost) else 0
  {
    hide Stored, TotalBeforeVat;
    var catalog, manual := StoredLines(c.products), StoredLines(DropProductIds(c.manualProducts));
    var extra := SaleLines(c)[|catalog + manual|..];
    assert SaleLines(c) == (catalog + manual) + extra;
    RequestedConcat(catalog + manual, extra, p);
    RequestedConcat(catalog, manual, p);
    NothingRequested(manual, p);
    NothingRequested(extra, p);
    SumConcat(TotalBeforeVat, catalog + manual, extra);
    SumConcat(TotalBeforeVat, catalog, manual);
    DroppedIdsCostTheSame(c.manualProducts);
    if c.maintenanceCost > 0.0 {
      WholeIsStored(1000);
      WholeIsStored(0);
      OneArticleCostsItsPrice(extra[0]);
    }
  }

  /**
   Putting back the stored lines of a sale after its deduction cancels it in the ledger. On the shelf it gives back
   one thousandth too many for each line that lies halfway, so it undoes the deduction exactly when there is none.
   */
  lemma RestoreUndoesDeduct(shelf: Shelf, c: Content, mode: Mode, p: nat)
    requires NonNegative(shelf) && Positive(c.products) && PositiveLines(SaleLines(c)) && KnownProducts(shelf, SaleLines(c))
    requires Deduct(shelf, c.products, mode).Deducted? && p in shelf
    ensures
      var taken := Deduct(shelf, c.products, mode);
      var back := Restore(taken.shelf, SaleLines(c), mode);
      && back.Deducted? && back.shelf.Keys == shelf.Keys
      && LedgerSum(taken.movements + back.movements, p) == 0
      && back.shelf[p] == shelf[p] + if mode.Disable? then 0 else Halves(c.products, p)
  {
    hide SaleLines, NonNegative;
    DeductionIsRecorded(shelf, c.products, mode, [], []);
    var taken := Deduct(shelf, c.products, mode);
    RestoreIsRecorded(taken.shelf, SaleLines(c), mode, []);
    LinesOfASale(c, p);
    StoredLinesHold(c.products, p);
    LedgerSumConcat(taken.movements, Restore(taken.shelf, SaleLines(c), mode).movements, p);
  }

  /** The price or quantity is stored as at least one unit, so that the CHECK of its column lets it through. */
  predicate StoredPositive(x: Amount) { x >= 0.5 }

  lemma StoredPositiveIff(x: Amount)
    ensures Stored(x) > 0 <==> StoredPositive(x)
  {
    hide Stored;
  }

  /** What the line table asks of a line as it was sent. */
  predicate StorableItem(l: Item, products: set<nat>) {
    StoredPositive(l.price) && StoredPositive(l.quantity) && (l.product.Some? ==> l.product.value in products)
  }

  lemma StorableLinesIff(items: seq<Item>, products: set<nat>)
    ensures Storable(StoredLines(items), products) <==> forall i | 0 <= i < |items| :: StorableItem(items[i], products)
  {
    hide Stored, StoredPositive;
    var lines := StoredLines(items);
    forall i | 0 <= i < |items|
      ensures (lines[i].price > 0 && lines[i].quantity > 0 && (lines[i].product.Some? ==> lines[i].product.value in products))
              <==> StorableItem(items[i], products)
    {
      StoredPositiveIff(items[i].price);
      StoredPositiveIff(items[i].quantity);
    }
    if forall i | 0 <= i < |items| :: StorableItem(items[i], products) {
      assert forall i | 0 <= i < |lines| :: StorableItem(items[i], products);
    } else {
      var i :| 0 <= i < |items| && !StorableItem(items[i], products);
      assert !(lines[i].price > 0 && lines[i].quantity > 0 && (lines[i].product.Some? ==> lines[i].product.value in products));
    }
  }

  /**
   The checks before the transaction do not promise that the lines can be stored: they look at the sign of a price and
   a quantity, and the columns keep whole hundredths and thousandths that must be positive. A sale is storable exactly
   when every price is at least half a hundredth, every quantity at least half a thousandth, the maintenance cost not
   below half a hundredth when there is one, and every catalog product exists.
   */
  lemma SaleIsStorableIff(c: Content, products: set<nat>)
    ensures Storable(SaleLines(c), products) <==>
      && (forall l | l in c.products + c.manualProducts :: StoredPositive(l.price) && StoredPositive(l.quantity))
      && (forall l | l in c.products && l.product.Some? :: l.product.value in products)
      && (c.maintenanceCost > 0.0 ==> StoredPositive(c.maintenanceCost))
  {
    hide StoredLines, Storable;
    StorableLinesIff(SaleProducts(c), products);
    var all := SaleProducts(c);
    var n, m := |c.products|, |c.manualProducts|;
    assert forall i | 0 <= i < n :: all[i] == c.products[i];
    assert forall i | 0 <= i < m :: all[n + i] == c.manualProducts[i].(product := None);
    assert c.maintenanceCost > 0.0 ==> all[n + m] == Item(None, MAINTENANCE_COST, c.maintenanceCost, 1000.0, 0.0);
    assert StoredPositive(1000.0);
    hide SaleProducts, StoredPositive;
  }

  /** A price of 0.004 and a quantity of 0.0004 pass the checks, and no product table makes the sale storable. */
  lemma CheckedSaleCanBeUnstorable(c: Content, products: set<nat>)
    requires c.state > 0
    ensures
      var cheap := c.(products := [], manualProducts := [Item(None, "", 0.4, 1000.0, 0.0)]);
      var little := c.(products := [], manualProducts := [Item(None, "", 100.0, 0.4, 0.0)]);
      && VerifyFinalSale(cheap) && !Storable(SaleLines(cheap), products)
      && VerifyFinalSale(little) && !Storable(SaleLines(little), products)
  {
    hide Storable, SaleLines;
    var l, k := Item(None, "", 0.4, 1000.0, 0.0), Item(None, "", 100.0, 0.4, 0.0);
    SaleIsStorableIff(c.(products := [], manualProducts := [l]), products);
    SaleIsStorableIff(c.(products := [], manualProducts := [k]), products);
    assert l in [] + [l] && k in [] + [k];
  }

  /**
   Which final sales the checks let through: those that store a line, and whose catalog and manual lines have positive quantities
   and prices that are not negative. A maintenance cost alone is enough.
   */
  lemma FinalSaleIsCheckedIff(c: Content)
    requires c.state > 0
    ensures VerifyFinalSale(c) <==>
      && SaleLines(c) != []
      && (forall k | 0 <= k < |c.products| :: c.products[k].quantity > 0.0 && c.products[k].price >= 0.0)
      && (forall k | 0 <= k < |c.manualProducts| :: c.manualProducts[k].quantity > 0.0 && c.manualProducts[k].price >= 0.0)
    ensures SaleLines(c) != [] <==> c.products != [] || c.manualProducts != [] || c.maintenanceCost > 0.0
  {
    hide StoredLine;
    var lines := c.products + c.manualProducts;
    if VerifyFinalSale(c) {
      assert forall k | 0 <= k < |c.products| :: lines[k] == c.products[k];
      assert forall k | 0 <= k < |c.manualProducts| :: lines[|c.products| + k] == c.manualProducts[k];
    }
  }

  /**
   In a sale that can be stored every catalog line has its product, so the branch of the stock loop that skips an unknown
   product is taken for a failed read and for nothing else: with enforcement on, the movements are those of the lines that
   were read, and all the catalog lines are there exactly when no read of one failed.
   */
  lemma LineIsSkippedIffUnread(db: Db, c: Content, mode: Mode, unread: set<nat>)
    requires c.state > 0 && !mode.Disable? && Storable(SaleLines(c), db.shelf.Keys)
    requires SaleDeduction(db, c, mode, unread).Deducted?
    ensures SaleDeduction(db, c, mode, unread).movements == CatalogMovements(Without(c.products, unread))
    ensures SaleDeduction(db, c, mode, unread).movements == CatalogMovements(c.products)
            <==> forall i | i in unread && i < |c.products| :: c.products[i].product.None?
  {
    SaleIsStorableIff(c, db.shelf.Keys);
    hide Storable, SaleLines;
    var seen := Without(c.products, unread);
    forall l | l in seen && l.product.Some? ensures l.product.value in db.shelf {
      var i :| 0 <= i < |seen| && seen[i] == l;
      assert c.products[i] in c.products;
    }
    EveryLineIsMoved(db.shelf, seen, mode, [], []);
    assert [] + CatalogMovements(seen) == CatalogMovements(seen);
    FewerMovements(seen, c.products);
    if seen == c.products {
      assert forall i | i in unread && i < |c.products| :: seen[i] == c.products[i];
    }
  }

  // ---------------------------------------------------------------- when a sale is refused

  /**
   Why a sale whose bill row is written can still be refused: a line that cannot be stored, a payment above
   the total, and, for a final sale, a line that was read and does not fit what the lines before it leave of its product,
   or an event that cannot be built or appended.
   */
  predicate HasReason(tenant: Tenant, db: Db, c: Content, id: BillId, mode: Mode, unread: set<nat>, rowId: RowId, eventId: string) {
    || !Storable(SaleLines(c), db.shelf.Keys)
    || (c.paidAmount > 0.0 && c.paidAmount > RefreshedTotals(SaleLines(c)).total as real)
    || (c.state > 0 && !mode.Disable? && !EachLineFits(db.shelf, Without(c.products, unread), mode))
    || (c.state > 0 && (id > MAX_INT64 || !ValidParts(tenant.key, c.branchId, DOC_BILL, id) || !FreshEvent(db, rowId, eventId)))
  }

  /** A sale commits if and only if there is no such reason. */
  lemma CommitIsRefusedIff(tenant: Tenant, db: Db, tx: Tx, mode: Mode, unread: set<nat>, rowId: RowId, eventId: string)
    requires tx.SaleTx? && tx.stage.Updated? && TxOk(db, tx) && NonNegative(db.shelf)
    ensures Committed(tenant, db, tx, mode, unread, rowId, eventId).None?
            <==> HasReason(tenant, db, tx.request.content, tx.stage.bill, mode, unread, rowId, eventId)
  {
    PaymentIsRefusedIff(db, tx);
    StockIsRefusedIff(db, tx, mode, unread);
    EventIsRefusedIff(tenant, db, tx, rowId, eventId);
    hide TxOk, FinishedBill, SaleDeduction, QueuedEvent, FreshEvent, SaleLines, RefreshedTotals, Storable, EachLineFits, ValidParts, NonNegative;
  }

  /** Nothing refuses an unpaid sale with enforcement off, when its lines can be stored and its event can be built. */
  lemma UnpaidSaleIsNotRefused(tenant: Tenant, db: Db, c: Content, id: BillId, rowId: RowId, eventId: string)
    requires ValidTenantKey(tenant.key) && 0 < id <= MAX_INT64
    requires c.branchId != 0 && c.paidAmount == 0.0
    requires Storable(SaleLines(c), db.shelf.Keys) && FreshEvent(db, rowId, eventId)
    ensures !HasReason(tenant, db, c, id, Disable, {}, rowId, eventId)
  {
    hide SaleLines, RefreshedTotals, Storable, FreshEvent, EachLineFits;
  }

  /**
   When a sale commits with the X-Stock-Warning header: in warn mode, when nothing refuses it and some line does not fit
   what the lines before it leave of its product. Enforce mode refuses it.
   */
  lemma SaleCommitsWithAWarningIff(tenant: Tenant, db: Db, tx: Tx, mode: Mode, unread: set<nat>, rowId: RowId, eventId: string)
    requires tx.SaleTx? && tx.stage.Updated? && TxOk(db, tx) && NonNegative(db.shelf)
    ensures
      var c := tx.request.content;
      Committed(tenant, db, tx, mode, unread, rowId, eventId).Some? && SaleDeduction(db, c, mode, unread).warnings != []
      <==> c.state > 0 && mode.Warn? && !EachLineFits(db.shelf, Without(c.products, unread), Enforce)
           && !HasReason(tenant, db, c, tx.stage.bill, mode, unread, rowId, eventId)
  {
    var c := tx.request.content;
    CommitIsRefusedIff(tenant, db, tx, mode, unread, rowId, eventId);
    UpdatedTxFacts(db, tx);
    if c.state > 0 {
      WithoutIsPositive(c.products, unread);
      WarnModeAgainstEnforceMode(db.shelf, Without(c.products, unread), [], []);
      LoopSucceedsIff(db.shelf, Without(c.products, unread), Enforce, [], []);
    }
    hide TxOk, FinishedBill, QueuedEvent, SaleLines, EachLineFits, HasReason, NonNegative, Storable;
  }

  lemma PaymentIsRefusedIff(db: Db, tx: Tx)
    requires tx.SaleTx? && tx.stage.Updated? && TxOk(db, tx)
    ensures
      var c := tx.request.content;
      FinishedBill(db, tx).None? <==> c.paidAmount > 0.0 && c.paidAmount > RefreshedTotals(SaleLines(c)).total as real
  {
    hide SaleLines, RefreshedTotals;
    assert [] + SaleLines(tx.request.content) == SaleLines(tx.request.content);
  }

  lemma StockIsRefusedIff(db: Db, tx: Tx, mode: Mode, unread: set<nat>)
    requires tx.SaleTx? && tx.stage.Updated? && TxOk(db, tx) && NonNegative(db.shelf)
    ensures
      var c := tx.request.content;
      SaleDeduction(db, c, mode, unread).Refused? <==> c.state > 0 && !mode.Disable? && !EachLineFits(db.shelf, Without(c.products, unread), mode)
  {
    var c := tx.request.content;
    if c.state > 0 && !mode.Disable? {
      assert Positive(c.products) by { CheckedLinesArePositive(c); }
      WithoutIsPositive(c.products, unread);
      LoopSucceedsIff(db.shelf, Without(c.products, unread), mode, [], []);
    }
  }

  lemma EventIsRefusedIff(tenant: Tenant, db: Db, tx: Tx, rowId: RowId, eventId: string)
    requires tx.SaleTx? && tx.stage.Updated?
    ensures
      var c, id := tx.request.content, tx.stage.bill;
      QueuedEvent(tenant, db, id, c, IdentOf(tx), rowId, eventId).None?
      <==> c.state > 0 && (id > MAX_INT64 || !ValidParts(tenant.key, c.branchId, DOC_BILL, id) || !FreshEvent(db, rowId, eventId))
  {
    hide FreshEvent, ValidParts;
  }
}
