/**
 Two copies of one sale, racing. The second has checked its request id before the first committed, so it
 loses the request key, rolls back, and is answered with the first copy's bill.
 */
module SaleRace {
  import opened Options
  import opened LineTotals
  import opened DocumentKeys
  import opened Stock
  import opened SaleTypes
  import opened SaleProtocol
  import opened SaleInvariant
  import opened SaleCommit
  import opened SaleMoves
  import SaleDrafts
  import SaleSteps
  import SaleTheorems

  /** A tenant with these two transactions and no other. */
  function Two(tenant: Tenant, db: Db, s1: Sale, x: Stage, s2: Sale, y: Stage, answers: seq<Answer>): World {
    World(tenant, db, map[s1.t := TxOf(s1, x), s2.t := TxOf(s2, y)], answers, [])
  }

  /** Two copies of a new sale: the same request in two transactions. */
  predicate Copies(s1: Sale, s2: Sale) {
    && s1.t != s2.t && s1.request == s2.request && s1.draft.None? && s2.draft.None?
    && Acceptable(s1.request) && s1.request.content.state > 0
  }

  lemma FirstMoves(tenant: Tenant, db: Db, s1: Sale, x: Stage, s2: Sale, y: Stage, answers: seq<Answer>, z: Stage)
    requires s1.t != s2.t
    ensures At(Two(tenant, db, s1, x, s2, y, answers), s1.t, z) == Two(tenant, db, s1, z, s2, y, answers)
  {
    assert map[s1.t := TxOf(s1, x), s2.t := TxOf(s2, y)][s1.t := TxOf(s1, z)] == map[s1.t := TxOf(s1, z), s2.t := TxOf(s2, y)];
  }

  lemma SecondMoves(tenant: Tenant, db: Db, s1: Sale, x: Stage, s2: Sale, y: Stage, answers: seq<Answer>, z: Stage)
    requires s1.t != s2.t
    ensures At(Two(tenant, db, s1, x, s2, y, answers), s2.t, z) == Two(tenant, db, s1, x, s2, z, answers)
  {
    assert map[s1.t := TxOf(s1, x), s2.t := TxOf(s2, y)][s2.t := TxOf(s2, z)] == map[s1.t := TxOf(s1, x), s2.t := TxOf(s2, z)];
  }

  /** Both copies look for the request before either writes, and both open a row of their own. */
  function Opening(s1: Sale, id1: BillId, s2: Sale, id2: BillId): seq<Action> {
    [Begin(s1.t, s1.request, None, s1.invoiceUuid), Begin(s2.t, s2.request, None, s2.invoiceUuid),
     CheckRequest(s1.t), CheckRequest(s2.t), CreateBill(s1.t, id1), CreateBill(s2.t, id2)]
  }

  lemma BothBegin(w: World, s1: Sale, s2: Sale)
    requires Initial(w) && Copies(s1, s2)
    ensures
      var w1 := Step(w, Begin(s1.t, s1.request, None, s1.invoiceUuid));
      Step(w1, Begin(s2.t, s2.request, None, s2.invoiceUuid)) == Two(w.tenant, w.db, s1, Begun, s2, Begun, [])
  {
    hide Acceptable;
    assert map[][s1.t := TxOf(s1, Begun)][s2.t := TxOf(s2, Begun)] == map[s1.t := TxOf(s1, Begun), s2.t := TxOf(s2, Begun)];
  }

  lemma BothCheck(tenant: Tenant, db: Db, s1: Sale, s2: Sale)
    requires Copies(s1, s2) && s1.request.key !in db.byRequest
    ensures
      var w := Two(tenant, db, s1, Begun, s2, Begun, []);
      Step(Step(w, CheckRequest(s1.t)), CheckRequest(s2.t)) == Two(tenant, db, s1, Checked, s2, Checked, [])
  {
    hide Acceptable;
    FirstMoves(tenant, db, s1, Begun, s2, Begun, [], Checked);
    SecondMoves(tenant, db, s1, Checked, s2, Begun, [], Checked);
  }

  lemma FirstOpens(tenant: Tenant, db: Db, s1: Sale, id1: BillId, s2: Sale)
    requires s1.t != s2.t && id1 != 0 && id1 !in db.bills && id1 !in db.strays.ids
    ensures
      var w := Two(tenant, db, s1, Checked, s2, Checked, []);
      Step(w, CreateBill(s1.t, id1)) == Two(tenant, db, s1, Opened(id1), s2, Checked, [])
  {
    FirstMoves(tenant, db, s1, Checked, s2, Checked, [], Opened(id1));
  }

  lemma SecondOpens(tenant: Tenant, db: Db, s1: Sale, id1: BillId, s2: Sale, id2: BillId)
    requires s1.t != s2.t && id1 != id2 && id2 != 0 && id2 !in db.bills && id2 !in db.strays.ids
    ensures
      var w := Two(tenant, db, s1, Opened(id1), s2, Checked, []);
      Step(w, CreateBill(s2.t, id2)) == Two(tenant, db, s1, Opened(id1), s2, Opened(id2), [])
  {
    SecondMoves(tenant, db, s1, Opened(id1), s2, Checked, [], Opened(id2));
  }

  lemma OpeningRun(w: World, s1: Sale, id1: BillId, s2: Sale, id2: BillId)
    requires Initial(w) && Copies(s1, s2) && id1 != id2 && id1 != 0 && id2 != 0
    ensures Run(w, Opening(s1, id1, s2, id2)) == Two(w.tenant, w.db, s1, Opened(id1), s2, Opened(id2), [])
  {
    BothBegin(w, s1, s2);
    BothCheck(w.tenant, w.db, s1, s2);
    FirstOpens(w.tenant, w.db, s1, id1, s2);
    SecondOpens(w.tenant, w.db, s1, id1, s2, id2);
    hide Step, Run, Two, Copies, Initial;
    SaleDrafts.RunOfSix(w, Opening(s1, id1, s2, id2));
  }

  /** The first copy takes the number and the key. */
  lemma FirstTakesNumber(tenant: Tenant, db: Db, s1: Sale, id1: BillId, s2: Sale, id2: BillId)
    requires Copies(s1, s2)
    ensures
      Step(Two(tenant, db, s1, Opened(id1), s2, Opened(id2), []), TakeNumber(s1.t))
      == Two(tenant, db, s1, Numbered(id1, Some(LastValue(db, s1.request.content.branchId) + 1)), s2, Opened(id2), [])
  {
    hide Acceptable, LastValue;
    FirstMoves(tenant, db, s1, Opened(id1), s2, Opened(id2), [], Numbered(id1, Some(LastValue(db, s1.request.content.branchId) + 1)));
  }

  lemma FirstUpdates(tenant: Tenant, db: Db, s1: Sale, id1: BillId, n: nat, s2: Sale, id2: BillId)
    requires Copies(s1, s2) && Slot(s1.request.content.branchId, n) !in db.byNumber && s1.request.key !in db.byRequest
    ensures
      Step(Two(tenant, db, s1, Numbered(id1, Some(n)), s2, Opened(id2), []), UpdateBill(s1.t))
      == Two(tenant, db, s1, Updated(id1, Some(n)), s2, Opened(id2), [])
  {
    hide Acceptable;
    FirstMoves(tenant, db, s1, Numbered(id1, Some(n)), s2, Opened(id2), [], Updated(id1, Some(n)));
  }

  lemma FirstCommits(tenant: Tenant, db: Db, s1: Sale, id1: BillId, number: Option<nat>, s2: Sale, id2: BillId,
                     rowId: RowId, eventId: string)
    requires Copies(s1, s2) && Committed(tenant, db, TxOf(s1, Updated(id1, number)), Disable, {}, rowId, eventId).Some?
    ensures
      var after := Committed(tenant, db, TxOf(s1, Updated(id1, number)), Disable, {}, rowId, eventId).value;
      Step(Two(tenant, db, s1, Updated(id1, number), s2, Opened(id2), []), Commit(s1.t, Disable, {}, rowId, eventId, true))
      == Two(tenant, after, s1, Done(Saved(id1)), s2, Opened(id2), [Answer(s1.request, None, id1)])
  {
    hide Acceptable, Committed;
    FirstMoves(tenant, db, s1, Updated(id1, number), s2, Opened(id2), [], Done(Saved(id1)));
  }

  /** The second copy takes the next number, and finds its key taken. */
  lemma SecondTakesNumber(tenant: Tenant, db: Db, s1: Sale, id1: BillId, s2: Sale, id2: BillId, answers: seq<Answer>)
    requires Copies(s1, s2)
    ensures
      Step(Two(tenant, db, s1, Done(Saved(id1)), s2, Opened(id2), answers), TakeNumber(s2.t))
      == Two(tenant, db, s1, Done(Saved(id1)), s2, Numbered(id2, Some(LastValue(db, s1.request.content.branchId) + 1)), answers)
  {
    hide Acceptable, LastValue;
    SecondMoves(tenant, db, s1, Done(Saved(id1)), s2, Opened(id2), answers, Numbered(id2, Some(LastValue(db, s1.request.content.branchId) + 1)));
  }

  lemma SecondLoses(tenant: Tenant, db: Db, s1: Sale, id1: BillId, s2: Sale, id2: BillId, n: nat, answers: seq<Answer>)
    requires Copies(s1, s2) && Slot(s1.request.content.branchId, n) !in db.byNumber && s1.request.key in db.byRequest
    ensures
      Step(Two(tenant, db, s1, Done(Saved(id1)), s2, Numbered(id2, Some(n)), answers), UpdateBill(s2.t))
      == Two(tenant, db, s1, Done(Saved(id1)), s2, LostRace, answers)
  {
    hide Acceptable;
    SecondMoves(tenant, db, s1, Done(Saved(id1)), s2, Numbered(id2, Some(n)), answers, LostRace);
  }

  lemma SecondIsReplayed(tenant: Tenant, db: Db, s1: Sale, id1: BillId, s2: Sale, answers: seq<Answer>)
    requires Copies(s1, s2) && s1.request.key in db.byRequest && db.byRequest[s1.request.key] == id1
    requires id1 in db.bills && db.bills[id1].ident.Some? && db.bills[id1].ident.value.fingerprint == s1.request.content
    ensures
      Step(Two(tenant, db, s1, Done(Saved(id1)), s2, LostRace, answers), RereadRequest(s2.t))
      == Two(tenant, db, s1, Done(Saved(id1)), s2, Done(Saved(id1)), answers + [Answer(s2.request, None, id1)])
  {
    hide Acceptable;
    SecondMoves(tenant, db, s1, Done(Saved(id1)), s2, LostRace, answers, Done(Saved(id1)));
  }

  /** Up to the first copy's commit. */
  function Winning(s1: Sale, id1: BillId, s2: Sale, id2: BillId): seq<Action> {
    Opening(s1, id1, s2, id2) + [TakeNumber(s1.t)] + [UpdateBill(s1.t)]
  }

  /** From there to the second copy's answer. */
  function Losing(s1: Sale, id1: BillId, s2: Sale, id2: BillId, rowId: RowId, eventId: string): seq<Action> {
    Winning(s1, id1, s2, id2) + [Commit(s1.t, Disable, {}, rowId, eventId, true)] + [TakeNumber(s2.t)] + [UpdateBill(s2.t)]
  }

  lemma WinningRun(w: World, s1: Sale, id1: BillId, s2: Sale, id2: BillId)
    requires Initial(w) && Copies(s1, s2) && id1 != id2 && id1 != 0 && id2 != 0
    ensures Run(w, Winning(s1, id1, s2, id2)) == Two(w.tenant, w.db, s1, Updated(id1, Some(1)), s2, Opened(id2), [])
  {
    hide Step, Run, Copies, Two;
    var before := Opening(s1, id1, s2, id2);
    OpeningRun(w, s1, id1, s2, id2);
    FirstTakesNumber(w.tenant, w.db, s1, id1, s2, id2);
    FirstUpdates(w.tenant, w.db, s1, id1, 1, s2, id2);
    RunPush(w, before, TakeNumber(s1.t));
    RunPush(w, before + [TakeNumber(s1.t)], UpdateBill(s1.t));
  }

  /** What the first copy's commit leaves for the second to find. */
  lemma WinnerIsThere(w: World, s1: Sale, id1: BillId, s2: Sale, id2: BillId, rowId: RowId, eventId: string)
    requires Initial(w) && Copies(s1, s2) && id1 != id2 && 0 < id1 <= MAX_INT64 && id2 != 0
    requires ValidTenantKey(w.tenant.key) && s1.request.content.branchId != 0 && s1.request.content.paidAmount == 0.0
    requires Storable(SaleLines(s1.request.content), w.db.shelf.Keys)
    ensures
      var after := Committed(w.tenant, w.db, TxOf(s1, Updated(id1, Some(1))), Disable, {}, rowId, eventId);
      && after.Some?
      && var db := after.value;
         && db.bills.Keys == {id1} && s1.request.key in db.byRequest && db.byRequest[s1.request.key] == id1
         && db.bills[id1].ident.Some? && db.bills[id1].ident.value.fingerprint == s1.request.content
  {
    var tx := TxOf(s1, Updated(id1, Some(1)));
    assert TxOk(w.db, tx);
    SaleTheorems.UnpaidSaleIsNotRefused(w.tenant, w.db, s1.request.content, id1, rowId, eventId);
    SaleTheorems.CommitIsRefusedIff(w.tenant, w.db, tx, Disable, {}, rowId, eventId);
    hide Acceptable, SaleLines, QueuedEvent, SaleDeduction, FinishedBill, Storable, TxOk, SaleTheorems.HasReason;
    FinishedBillIsTheRequests(w.db, tx);
  }

  /**
   The race is real, and it ends in one sale: from a new tenant, two copies of any sale that can be stored
   run so that one loses its request key, and both are answered with the one bill there is.
   */
  lemma RaceEndsInOneSale(w: World, s1: Sale, id1: BillId, s2: Sale, id2: BillId, rowId: RowId, eventId: string)
    requires Initial(w) && Copies(s1, s2) && id1 != id2 && 0 < id1 <= MAX_INT64 && id2 != 0
    requires ValidTenantKey(w.tenant.key) && s1.request.content.branchId != 0 && s1.request.content.paidAmount == 0.0
    requires Storable(SaleLines(s1.request.content), w.db.shelf.Keys)
    ensures
      var lost := Run(w, Losing(s1, id1, s2, id2, rowId, eventId));
      var v := Step(lost, RereadRequest(s2.t));
      && Is(lost, s2, LostRace)
      && v.answers == [Answer(s1.request, None, id1), Answer(s1.request, None, id1)]
      && v.db.bills.Keys == {id1}
  {
    hide Step, Run, Copies, Initial, Storable, SaleLines, Committed, NumbersOk;
    WinningRun(w, s1, id1, s2, id2);
    WinnerIsThere(w, s1, id1, s2, id2, rowId, eventId);
    var db := Committed(w.tenant, w.db, TxOf(s1, Updated(id1, Some(1))), Disable, {}, rowId, eventId).value;
    FirstCommits(w.tenant, w.db, s1, id1, Some(1), s2, id2, rowId, eventId);
    var won := Winning(s1, id1, s2, id2) + [Commit(s1.t, Disable, {}, rowId, eventId, true)];
    RunPush(w, Winning(s1, id1, s2, id2), Commit(s1.t, Disable, {}, rowId, eventId, true));
    RunPush(w, won, TakeNumber(s2.t));
    RunPush(w, won + [TakeNumber(s2.t)], UpdateBill(s2.t));
    NumbersAfterRun(w, won);
    SaleSteps.NumberIsUnused(db, s1.request.content.branchId);
    var answers := [Answer(s1.request, None, id1)];
    SecondTakesNumber(w.tenant, db, s1, id1, s2, id2, answers);
    SecondLoses(w.tenant, db, s1, id1, s2, id2, LastValue(db, s1.request.content.branchId) + 1, answers);
    SecondIsReplayed(w.tenant, db, s1, id1, s2, answers);
    SameRequest(s1, s2);
  }

  lemma SameRequest(s1: Sale, s2: Sale)
    requires Copies(s1, s2)
    ensures s1.t != s2.t && s1.request == s2.request && s2.draft.None?
  {
  }

  lemma NumbersAfterRun(w: World, actions: seq<Action>)
    requires Initial(w)
    ensures NumbersOk(Run(w, actions).db)
  {
    hide Run;
    SaleTheorems.RunIsSound(w, actions);
    SaleTheorems.DbHasParts(Run(w, actions).tenant, Run(w, actions).db);
  }
}
