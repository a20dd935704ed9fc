/**
 Failed reads of stock, as runs: a line that is not read is sold and not taken, and a sale that loses its transaction at a
 deadlock is answered and reported all the same.
 */
module SaleOrphans {
  import opened Options
  import opened LineTotals
  import opened DocumentKeys
  import opened Stock
  import opened SaleTypes
  import opened SaleProtocol
  import opened SaleInvariant
  import opened SaleSteps
  import opened SaleCommit
  import opened SaleTheorems
  import opened SaleMoves
  import opened SaleDrafts
  import opened SaleStrays

  // ---------------------------------------------------------------- a sale that is not read

  /** An unpaid final sale of one line of a product that there is, for a bill with this id. */
  predicate SellsOne(w: World, s: Sale, id: BillId) {
    && ValidTenantKey(w.tenant.key) && Acceptable(s.request) && 0 < id <= MAX_INT64
    && var c := s.request.content;
       && c.state > 0 && c.branchId != 0 && c.paidAmount == 0.0 && |c.products| == 1 && c.products[0].product.Some?
       && Storable(SaleLines(c), w.db.shelf.Keys) && c.products[0].product.value in w.db.shelf
  }

  /** A new tenant, and such a sale without a draft. */
  predicate SellsOneLine(w: World, s: Sale, id: BillId) { Initial(w) && s.draft.None? && SellsOne(w, s, id) }

  lemma OneLineCanBeSaved(w: World, s: Sale, id: BillId, rowId: RowId, eventId: string)
    requires SellsOneLine(w, s, id)
    ensures Inv(w) && Quiet(w) && s.t !in w.txs && !IsRecorded(w.db, s) && id !in w.db.bills && id !in w.db.strays.ids
    ensures s.draft.None? && SellsOne(w, s, id) && FreshEvent(w.db, rowId, eventId) && w.db.movements == []
  {
    InitialInv(w);
    hide Inv, SellsOne;
  }

  /**
   In enforce mode, whatever is in stock, a sale whose one line is not read is final: nothing is checked, nothing is taken and
   nothing is recorded.
   */
  lemma UnreadSaleTakesNothing(w: World, s: Sale, id: BillId, rowId: RowId, eventId: string)
    requires SellsOneLine(w, s, id)
    ensures
      var v := Run(w, SaveNew(s, id, Enforce, {0}, rowId, eventId));
      && id in v.db.bills && FinalBill(v.db.bills[id]) && v.db.bills[id].lines == SaleLines(s.request.content)
      && v.db.shelf == w.db.shelf && v.db.movements == []
  {
    hide *;
    OneLineCanBeSaved(w, s, id, rowId, eventId);
    PartsAreValid(w, s, id);
    UnreadHasNoReason(w, s, id, rowId, eventId);
    SaveNewSells(w, s, id, Enforce, {0}, rowId, eventId);
    var v := Run(w, SaveNew(s, id, Enforce, {0}, rowId, eventId));
    SoldSale(w, v, s, id, Enforce, {0}, rowId, eventId);
    SoldBill(w, v, s, id, Enforce, {0}, rowId, eventId);
    assert v.db.shelf == w.db.shelf;
    assert v.db.movements == [] + [];
    assert FinalBill(v.db.bills[id]);
  }

  lemma UnreadHasNoReason(w: World, s: Sale, id: BillId, rowId: RowId, eventId: string)
    requires SellsOneLine(w, s, id)
    ensures !HasReason(w.tenant, w.db, s.request.content, id, Enforce, {0}, rowId, eventId)
    ensures SaleDeduction(w.db, s.request.content, Enforce, {0}) == Deducted(w.db.shelf, [], [])
  {
    hide Storable, SaleLines, RefreshedTotals, Acceptable;
    var seen := Without(s.request.content.products, {0});
    assert seen[0].product.None?;
    assert EachLineFits(w.db.shelf, seen, Enforce);
    ManualLineTakesNothing(w.db.shelf, seen);
  }

  lemma ManualLineTakesNothing(shelf: Shelf, items: seq<Item>)
    requires |items| == 1 && items[0].product.None?
    ensures Deduct(shelf, items, Enforce) == Deducted(shelf, [], [])
  {
    assert items[1..] == [];
    assert DeductFrom(shelf, items[1..], Enforce, [], []) == Deducted(shelf, [], []);
  }

  // ---------------------------------------------------------------- a sale that loses its transaction

  /** It is the victim of a deadlock at its one line, and goes on to its end. */
  function GoAdrift(s: Sale, rowId: RowId, eventId: string): seq<Action> {
    [LoseTransaction(s.t, Enforce, {}, 0), AppendStrayEvent(s.t, rowId, eventId), ClearStrayPayments(s.t), PayStray(s.t, true)]
  }

  /** Up to that line nobody disturbs it. */
  function BeginNew(s: Sale, id: BillId): seq<Action> {
    [Begin(s.t, s.request, s.draft, s.invoiceUuid), CheckRequest(s.t), CreateBill(s.t, id), TakeNumber(s.t), UpdateBill(s.t)]
  }

  function BeginDraft(s: Sale): seq<Action> {
    [Begin(s.t, s.request, s.draft, s.invoiceUuid), LockBill(s.t), TakeNumber(s.t), UpdateBill(s.t)]
  }

  lemma ActionsOfIt(s: Sale, id: BillId, rowId: RowId, eventId: string)
    ensures
      var all := BeginNew(s, id);
      && |all| == 5 && all[0] == Begin(s.t, s.request, s.draft, s.invoiceUuid) && all[1] == CheckRequest(s.t)
      && all[2] == CreateBill(s.t, id) && all[3] == TakeNumber(s.t) && all[4] == UpdateBill(s.t)
    ensures
      var all := BeginDraft(s);
      && |all| == 4 && all[0] == Begin(s.t, s.request, s.draft, s.invoiceUuid) && all[1] == LockBill(s.t)
      && all[2] == TakeNumber(s.t) && all[3] == UpdateBill(s.t)
    ensures
      var all := GoAdrift(s, rowId, eventId);
      && |all| == 4 && all[0] == LoseTransaction(s.t, Enforce, {}, 0) && all[1] == AppendStrayEvent(s.t, rowId, eventId)
      && all[2] == ClearStrayPayments(s.t) && all[3] == PayStray(s.t, true) && forall k | 0 <= k < |all| :: all[k].t == s.t
  {
  }

  lemma RunOfFive(w: World, all: seq<Action>)
    requires |all| == 5
    ensures Run(w, all) == Step(Step(Step(Step(Step(w, all[0]), all[1]), all[2]), all[3]), all[4])
  {
    hide Step, Run;
    RunFrom(w, all);
    RunOfFour(Step(w, all[0]), all[1..]);
  }

  /** The database once its transaction is dropped: the row of a new sale leaves its id behind. */
  function Dropped(db: Db, s: Sale, id: BillId): Db {
    if s.draft.Some? then db else db.(strays := db.strays.(ids := db.strays.ids + {id}))
  }

  /** What it leaves then: of the tables the row of its event alone, beside the payments of a draft, and its answer. */
  ghost predicate WentAdrift(w: World, v: World, s: Sale, id: BillId, rowId: RowId, eventId: string) {
    && Is(v, s, Done(Saved(id))) && v.adrift == w.adrift + [Answer(s.request, s.draft, id)]
    && v.db == w.db.(strays := v.db.strays) && v.db.strays.ids == Dropped(w.db, s, id).strays.ids
    && rowId in v.db.strays.outbox && v.db.strays.outbox == w.db.strays.outbox[rowId := v.db.strays.outbox[rowId]]
    && ReportsSale(w.tenant, s, id, v.db.strays.outbox[rowId], eventId)
  }

  lemma LosesIt(w: World, v: World, s: Sale, id: BillId)
    requires SellsOne(w, s, id) && Reached(w, v, s, Updated(id, NumberFor(w.db, s.request.content)))
    ensures
      var u := Step(v, LoseTransaction(s.t, Enforce, {}, 0));
      Is(u, s, Adrift(id, Enforce, [])) && u.adrift == v.adrift && u.tenant == w.tenant && u.db == Dropped(w.db, s, id)
  {
    hide Inv, Storable, SaleLines, Acceptable, Alone;
    var c := s.request.content;
    NothingUnread(c.products);
    assert c.products[..0] == [] && c.products[1..] == [];
  }

  lemma Appends(w: World, u: World, s: Sale, id: BillId, rowId: RowId, eventId: string)
    requires SellsOne(w, s, id) && Is(u, s, Adrift(id, Enforce, [])) && u.tenant == w.tenant && u.db == Dropped(w.db, s, id)
    requires FreshEvent(w.db, rowId, eventId)
    ensures
      var v := Step(u, AppendStrayEvent(s.t, rowId, eventId));
      && Is(v, s, AdriftQueued(id)) && v.adrift == u.adrift && rowId in v.db.strays.outbox
      && v.db == u.db.(strays := u.db.strays.(outbox := u.db.strays.outbox[rowId := v.db.strays.outbox[rowId]]))
      && ReportsSale(w.tenant, s, id, v.db.strays.outbox[rowId], eventId)
  {
    EventIsBuiltIff(u.tenant, s, id, eventId);
    PartsAreValid(w, s, id);
    hide SellsOne, BillEvent, ReportsSale, ValidParts;
    assert FreshEvent(u.db, rowId, eventId);
    hide FreshEvent;
  }

  lemma PartsAreValid(w: World, s: Sale, id: BillId)
    requires SellsOne(w, s, id)
    ensures Acceptable(s.request) && s.request.content.state > 0 && s.request.content.branchId != 0 && s.request.content.paidAmount == 0.0
    ensures 0 < id <= MAX_INT64 && ValidTenantKey(w.tenant.key) && ValidParts(w.tenant.key, s.request.content.branchId, DOC_BILL, id)
    ensures Storable(SaleLines(s.request.content), w.db.shelf.Keys)
  {
    hide Acceptable, Storable, SaleLines;
  }

  lemma Ends(w: World, s: Sale, id: BillId)
    requires Is(w, s, AdriftQueued(id)) && s.request.content.paidAmount == 0.0
    ensures
      var v := Step(Step(w, ClearStrayPayments(s.t)), PayStray(s.t, true));
      && Is(v, s, Done(Saved(id))) && v.adrift == w.adrift + [Answer(s.request, s.draft, id)]
      && v.db == if s.draft.Some? then WithPayments(w.db, id, []) else w.db
  {
    ClearStays(w, s, id);
    hide WithPayments;
    assert Is(Step(w, ClearStrayPayments(s.t)), s, AdriftCleared(id));
    PaysNothing(Step(w, ClearStrayPayments(s.t)), s, id);
  }

  lemma ClearStays(w: World, s: Sale, id: BillId)
    requires Is(w, s, AdriftQueued(id))
    ensures
      var v := Step(w, ClearStrayPayments(s.t));
      Is(v, s, AdriftCleared(id)) && v.adrift == w.adrift && v.db == if s.draft.Some? then WithPayments(w.db, id, []) else w.db
  {
    hide WithPayments;
  }

  lemma PaysNothing(w: World, s: Sale, id: BillId)
    requires Is(w, s, AdriftCleared(id)) && s.request.content.paidAmount == 0.0
    ensures
      var v := Step(w, PayStray(s.t, true));
      Is(v, s, Done(Saved(id))) && v.adrift == w.adrift + [Answer(s.request, s.draft, id)] && v.db == w.db
  {
    hide WithPayments, PaymentsOf;
  }

  lemma AdriftSteps(w: World, v: World, s: Sale, id: BillId, rowId: RowId, eventId: string)
    requires SellsOne(w, s, id) && Reached(w, v, s, Updated(id, NumberFor(w.db, s.request.content)))
    requires v.adrift == w.adrift && FreshEvent(w.db, rowId, eventId)
    ensures WentAdrift(w, Run(v, GoAdrift(s, rowId, eventId)), s, id, rowId, eventId)
  {
    ActionsOfIt(s, id, rowId, eventId);
    LosesIt(w, v, s, id);
    var v1 := Step(v, LoseTransaction(s.t, Enforce, {}, 0));
    Appends(w, v1, s, id, rowId, eventId);
    var v2 := Step(v1, AppendStrayEvent(s.t, rowId, eventId));
    assert s.request.content.paidAmount == 0.0;
    hide *;
    RunOfFour(v, GoAdrift(s, rowId, eventId));
    Ends(v2, s, id);
    WentAdriftIs(w, v2, Run(v, GoAdrift(s, rowId, eventId)), s, id, rowId, eventId);
  }

  lemma WentAdriftIs(w: World, u: World, v: World, s: Sale, id: BillId, rowId: RowId, eventId: string)
    requires Is(v, s, Done(Saved(id))) && v.adrift == u.adrift + [Answer(s.request, s.draft, id)] && u.adrift == w.adrift
    requires v.db == if s.draft.Some? then WithPayments(u.db, id, []) else u.db
    requires rowId in u.db.strays.outbox && ReportsSale(w.tenant, s, id, u.db.strays.outbox[rowId], eventId)
    requires
      var dropped := Dropped(w.db, s, id);
      u.db == dropped.(strays := dropped.strays.(outbox := dropped.strays.outbox[rowId := u.db.strays.outbox[rowId]]))
    ensures WentAdrift(w, v, s, id, rowId, eventId)
  {
    hide Is, ReportsSale;
  }

  /** Steps of one transaction, when no other is open. */
  lemma {:induction false} RunLeavesAlone(w: World, actions: seq<Action>, t: TxId)
    requires Alone(w, t) && Inv(w) && t in w.txs && forall k | 0 <= k < |actions| :: actions[k].t == t
    ensures
      var v := Run(w, actions);
      Alone(v, t) && Inv(v) && v.tenant == w.tenant && forall o | o != t :: o in v.txs <==> o in w.txs
  {
    hide Step, Inv, Alone;
    if actions != [] {
      var n := |actions| - 1;
      RunLeavesAlone(w, actions[..n], t);
      StepLeavesAlone(Run(w, actions[..n]), actions[n]);
    }
  }

  /** The whole: it is over, nobody is in the way of the next sale, and it has left no more than that. */
  ghost predicate IsOrphaned(w: World, v: World, s: Sale, id: BillId, rowId: RowId, eventId: string) {
    Inv(v) && Quiet(v) && v.tenant == w.tenant && v.txs.Keys == w.txs.Keys + {s.t} && WentAdrift(w, v, s, id, rowId, eventId)
  }

  lemma AdriftEnds(w: World, v: World, s: Sale, id: BillId, rowId: RowId, eventId: string)
    requires SellsOne(w, s, id) && Reached(w, v, s, Updated(id, NumberFor(w.db, s.request.content)))
    requires v.adrift == w.adrift && FreshEvent(w.db, rowId, eventId)
    ensures IsOrphaned(w, Run(v, GoAdrift(s, rowId, eventId)), s, id, rowId, eventId)
  {
    var all := GoAdrift(s, rowId, eventId);
    AdriftSteps(w, v, s, id, rowId, eventId);
    ReachedIs(w, v, s, Updated(id, NumberFor(w.db, s.request.content)));
    ActionsOfIt(s, id, rowId, eventId);
    hide *;
    RunLeavesAlone(v, all, s.t);
    OrphanedFrom(w, v, Run(v, all), s, id, rowId, eventId);
  }

  lemma OrphanedFrom(w: World, v: World, u: World, s: Sale, id: BillId, rowId: RowId, eventId: string)
    requires WentAdrift(w, u, s, id, rowId, eventId) && Alone(u, s.t) && Inv(u) && u.tenant == v.tenant == w.tenant
    requires v.txs.Keys == w.txs.Keys + {s.t} && forall o | o != s.t :: o in u.txs <==> o in v.txs
    ensures IsOrphaned(w, u, s, id, rowId, eventId)
  {
    AloneAndDone(u, s, id) by { hide Inv, ReportsSale, Alone; }
    hide Inv, Alone, Quiet, ReportsSale;
    assert u.txs.Keys == w.txs.Keys + {s.t};
  }

  lemma ReachedIs(w: World, v: World, s: Sale, stage: Stage)
    requires Reached(w, v, s, stage)
    ensures Inv(v) && Alone(v, s.t) && v.db == w.db && v.tenant == w.tenant && v.txs.Keys == w.txs.Keys + {s.t} && s.t in v.txs
  {
    hide Inv, Alone;
  }

  lemma AloneAndDone(w: World, s: Sale, id: BillId)
    requires Alone(w, s.t) && Is(w, s, Done(Saved(id)))
    ensures Quiet(w)
  {
  }

  lemma {:induction false} SavesLeaveAdrift(w: World, actions: seq<Action>)
    requires forall k | 0 <= k < |actions| :: !actions[k].PayStray?
    ensures Run(w, actions).adrift == w.adrift
  {
    hide Step;
    if actions != [] {
      SavesLeaveAdrift(w, actions[..|actions| - 1]);
      OnlyPayAnswers(Run(w, actions[..|actions| - 1]), actions[|actions| - 1]);
    }
  }

  // ---------------------------------------------------------------- a bill that is not there

  lemma OrphanedSale(w: World, s: Sale, id: BillId, rowId: RowId, eventId: string)
    requires SellsOneLine(w, s, id)
    ensures IsOrphaned(w, Run(w, BeginNew(s, id) + GoAdrift(s, rowId, eventId)), s, id, rowId, eventId)
  {
    hide *;
    OneLineCanBeSaved(w, s, id, rowId, eventId);
    PartsAreValid(w, s, id);
    ActionsOfIt(s, id, rowId, eventId);
    var v := NewSaleReachesUpdated(w, s, id);
    RunOfFive(w, BeginNew(s, id));
    ThenAdrift(w, BeginNew(s, id), s, id, rowId, eventId);
  }

  lemma ThenAdrift(w: World, before: seq<Action>, s: Sale, id: BillId, rowId: RowId, eventId: string)
    requires SellsOne(w, s, id) && FreshEvent(w.db, rowId, eventId)
    requires Reached(w, Run(w, before), s, Updated(id, NumberFor(w.db, s.request.content)))
    requires forall k | 0 <= k < |before| :: !before[k].PayStray?
    ensures IsOrphaned(w, Run(w, before + GoAdrift(s, rowId, eventId)), s, id, rowId, eventId)
  {
    hide *;
    SavesLeaveAdrift(w, before);
    AdriftEnds(w, Run(w, before), s, id, rowId, eventId);
    RunConcat(w, before, GoAdrift(s, rowId, eventId));
  }

  /**
   A deadlock that the stock loop swallows: from a new tenant, an unpaid sale of one line is answered with a bill that is not in
   the database and whose row is in the outbox. Its retry finds no record, and is answered with another bill. So two answers to
   one request name two bills.
   */
  lemma SwallowedDeadlockOrphansASale(w: World, s: Sale, id: BillId, rowId: RowId, eventId: string,
                                      retry: Sale, id2: BillId, rowId2: RowId, eventId2: string)
    requires SellsOneLine(w, s, id) && SellsOneLine(w, retry, id2) && retry.request == s.request && retry.t != s.t
    requires id2 != id && rowId2 != rowId && eventId2 != eventId
    ensures
      var v := Run(w, BeginNew(s, id) + GoAdrift(s, rowId, eventId));
      var u := Run(v, SaveNew(retry, id2, Disable, {}, rowId2, eventId2));
      && v.db.bills == map[] && v.adrift == [Answer(s.request, None, id)]
      && Outbox(v.db).Keys == {rowId} && ReportsSale(w.tenant, s, id, Outbox(v.db)[rowId], eventId) && !ReportedOnce(v.db)
      && u.db.bills.Keys == {id2} && FinalBill(u.db.bills[id2]) && u.adrift == v.adrift && Is(u, retry, Done(Saved(id2)))
  {
    OrphanedSale(w, s, id, rowId, eventId);
    var v := Run(w, BeginNew(s, id) + GoAdrift(s, rowId, eventId));
    OrphanShows(w, v, s, id, rowId, eventId);
    RetrySells(w, v, s, id, rowId, eventId, retry, id2, rowId2, eventId2);
  }

  lemma OrphanShows(w: World, v: World, s: Sale, id: BillId, rowId: RowId, eventId: string)
    requires Initial(w) && s.draft.None? && IsOrphaned(w, v, s, id, rowId, eventId)
    ensures v.db.bills == map[] && v.adrift == [Answer(s.request, None, id)]
    ensures Outbox(v.db).Keys == {rowId} && ReportsSale(w.tenant, s, id, Outbox(v.db)[rowId], eventId) && !ReportedOnce(v.db)
  {
    hide Inv, Quiet, DocumentKey;
    assert Outbox(v.db)[rowId].payload.id !in v.db.bills;
  }

  /** Nothing is in the way of this sale, and nothing refuses it. */
  ghost predicate CanSave(w: World, s: Sale, id: BillId, rowId: RowId, eventId: string) {
    && Inv(w) && Quiet(w) && s.t !in w.txs && Acceptable(s.request) && s.draft.None? && !IsRecorded(w.db, s)
    && id != 0 && id !in w.db.bills && id !in w.db.strays.ids && s.request.content.state > 0
    && !HasReason(w.tenant, w.db, s.request.content, id, Disable, {}, rowId, eventId)
  }

  lemma RetrySells(w: World, v: World, s: Sale, id: BillId, rowId: RowId, eventId: string,
                   retry: Sale, id2: BillId, rowId2: RowId, eventId2: string)
    requires SellsOneLine(w, retry, id2) && s.draft.None? && retry.t != s.t && IsOrphaned(w, v, s, id, rowId, eventId)
    requires id2 != id && rowId2 != rowId && eventId2 != eventId
    ensures
      var u := Run(v, SaveNew(retry, id2, Disable, {}, rowId2, eventId2));
      u.db.bills.Keys == {id2} && FinalBill(u.db.bills[id2]) && u.adrift == v.adrift && Is(u, retry, Done(Saved(id2)))
  {
    RetryCanBeSaved(w, v, s, id, rowId, eventId, retry, id2, rowId2, eventId2);
    hide SellsOneLine, IsOrphaned, CanSave, Run, SaveNew, FinalBill, Is;
    SavesItsBill(v, retry, id2, rowId2, eventId2);
  }

  lemma SavesItsBill(w: World, s: Sale, id: BillId, rowId: RowId, eventId: string)
    requires CanSave(w, s, id, rowId, eventId)
    ensures
      var v := Run(w, SaveNew(s, id, Disable, {}, rowId, eventId));
      && v.db.bills.Keys == w.db.bills.Keys + {id} && FinalBill(v.db.bills[id]) && v.adrift == w.adrift && Is(v, s, Done(Saved(id)))
  {
    hide Inv, Quiet, Acceptable, IsRecorded, HasReason, Run, Step, Sold;
    SaveNewSells(w, s, id, Disable, {}, rowId, eventId);
    SoldBill(w, Run(w, SaveNew(s, id, Disable, {}, rowId, eventId)), s, id, Disable, {}, rowId, eventId);
    SavesLeaveAdrift(w, SaveNew(s, id, Disable, {}, rowId, eventId));
  }

  lemma RetryCanBeSaved(w: World, v: World, s: Sale, id: BillId, rowId: RowId, eventId: string,
                        retry: Sale, id2: BillId, rowId2: RowId, eventId2: string)
    requires SellsOneLine(w, retry, id2) && s.draft.None? && retry.t != s.t && IsOrphaned(w, v, s, id, rowId, eventId)
    requires id2 != id && rowId2 != rowId && eventId2 != eventId
    ensures v.db.bills == map[] && CanSave(v, retry, id2, rowId2, eventId2)
  {
    PartsAreValid(w, retry, id2);
    hide SellsOne, Inv, Acceptable, SaleLines, Storable, Quiet, DocumentKey, ValidParts, ValidTenantKey, HasReason;
    assert FreshEvent(v.db, rowId2, eventId2);
    UnpaidSaleIsNotRefused(v.tenant, v.db, retry.request.content, id2, rowId2, eventId2);
  }

  // ---------------------------------------------------------------- a draft that is reported twice

  lemma OrphanedDraft(w: World, s: Sale, id: BillId, rowId: RowId, eventId: string)
    requires Inv(w) && Quiet(w) && s.t !in w.txs && !IsRecorded(w.db, s) && FreshEvent(w.db, rowId, eventId)
    requires s.draft == Some(id) && id in w.db.bills && !FinalBill(w.db.bills[id]) && SellsOne(w, s, id)
    ensures IsOrphaned(w, Run(w, BeginDraft(s) + GoAdrift(s, rowId, eventId)), s, id, rowId, eventId)
  {
    hide *;
    PartsAreValid(w, s, id);
    ActionsOfIt(s, id, rowId, eventId);
    var v := SubmitReachesUpdated(w, s);
    RunOfFour(w, BeginDraft(s));
    ThenAdrift(w, BeginDraft(s), s, id, rowId, eventId);
  }

  /** A new tenant, a draft, and two submits of it that differ in what they sell. */
  ghost predicate SubmitsTwice(w: World, s: Sale, id: BillId, first: Sale, second: Sale) {
    && Initial(w) && s.draft.None? && first.draft == Some(id) == second.draft && SellsOne(w, first, id) && SellsOne(w, second, id)
    && s.request == first.request.(content := first.request.content.(state := 0))
    && first.request.content.branchId == second.request.content.branchId && first.request.content != second.request.content
    && s.t != first.t && s.t != second.t && first.t != second.t
  }

  /** Two rows of one document, with the contents of two sales. */
  predicate ReportedTwice(rows: map<RowId, Event>, first: Sale, rowId: RowId, second: Sale, rowId2: RowId) {
    && rows.Keys == {rowId, rowId2} && rows[rowId].documentKey == rows[rowId2].documentKey
    && rows[rowId].payload.requestFingerprint == first.request.content
    && rows[rowId2].payload.requestFingerprint == second.request.content
  }

  /**
   The first submit loses its transaction and the second commits: the outbox has two rows of one document with different
   contents, and the bill holds the second.
   */
  lemma TwoMessagesOfOneDocument(w: World, s: Sale, id: BillId, first: Sale, rowId: RowId, eventId: string,
                                 second: Sale, rowId2: RowId, eventId2: string)
    requires SubmitsTwice(w, s, id, first, second) && rowId2 != rowId && eventId2 != eventId
    ensures
      var saved := Run(w, SaveNew(s, id, Disable, {}, 0, ""));
      var v := Run(saved, BeginDraft(first) + GoAdrift(first, rowId, eventId));
      ReportedTwice(Outbox(Run(v, Submit(second, Disable, {}, rowId2, eventId2)).db), first, rowId, second, rowId2)
  {
    var saved := Run(w, SaveNew(s, id, Disable, {}, 0, ""));
    DraftOfTwo(w, s, id, first, second);
    hide Run, Inv, Quiet, SaveNew, Submit, BeginDraft, GoAdrift, CanSaveDraft, ReportedTwice, OpenForBoth, SubmitsTwice;
    SavedDraft(w, s, id, Disable, first.t);
    DraftIsOpen(w, saved, s, id, first, second);
    BothAreReported(saved, id, first, rowId, eventId, second, rowId2, eventId2);
  }

  /** An open draft that either of the two submits could make final, before any row of the outbox. */
  ghost predicate OpenForBoth(w: World, id: BillId, first: Sale, second: Sale) {
    && first.t !in w.txs && second.t !in w.txs && first.t != second.t && w.db.outbox == map[] && w.db.strays.outbox == map[]
    && first.draft == Some(id) == second.draft && id in w.db.bills && !FinalBill(w.db.bills[id])
    && SellsOne(w, first, id) && SellsOne(w, second, id) && !IsRecorded(w.db, first) && !IsRecorded(w.db, second)
    && first.request.content.branchId == second.request.content.branchId
  }

  lemma BothAreReported(w: World, id: BillId, first: Sale, rowId: RowId, eventId: string, second: Sale, rowId2: RowId, eventId2: string)
    requires Inv(w) && Quiet(w) && OpenForBoth(w, id, first, second) && rowId2 != rowId && eventId2 != eventId
    ensures
      var v := Run(w, BeginDraft(first) + GoAdrift(first, rowId, eventId));
      ReportedTwice(Outbox(Run(v, Submit(second, Disable, {}, rowId2, eventId2)).db), first, rowId, second, rowId2)
  {
    hide Run, Inv, Quiet, Submit, BeginDraft, GoAdrift, SellsOne, IsOrphaned, IsRecorded, ReportedTwice, FinalBill;
    assert FreshEvent(w.db, rowId, eventId);
    OrphanedDraft(w, first, id, rowId, eventId);
    SecondSells(w, Run(w, BeginDraft(first) + GoAdrift(first, rowId, eventId)), id, first, rowId, eventId, second, rowId2, eventId2);
  }

  lemma DraftOfTwo(w: World, s: Sale, id: BillId, first: Sale, second: Sale)
    requires SubmitsTwice(w, s, id, first, second)
    ensures CanSaveDraft(w, s, id, first.t)
  {
    PartsAreValid(w, first, id);
    hide SellsOne, Acceptable, Storable, SaleLines, ValidParts, ValidTenantKey;
    NewTenantCanSaveDraft(w, s, id, first.t, first, 0, "");
  }

  lemma DraftIsOpen(w: World, v: World, s: Sale, id: BillId, first: Sale, second: Sale)
    requires SubmitsTwice(w, s, id, first, second) && v.tenant == w.tenant && v.db == w.db.(bills := v.db.bills)
    requires id in v.db.bills && v.db.bills[id].state == 0 && v.txs.Keys == w.txs.Keys + {s.t}
    ensures OpenForBoth(v, id, first, second)
  {
    hide Acceptable, Storable, SaleLines, ValidTenantKey;
  }

  lemma SecondSells(w: World, v: World, id: BillId, first: Sale, rowId: RowId, eventId: string,
                    second: Sale, rowId2: RowId, eventId2: string)
    requires IsOrphaned(w, v, first, id, rowId, eventId) && second.t != first.t && second.t !in w.txs && second.draft == Some(id) == first.draft
    requires SellsOne(w, second, id) && !IsRecorded(w.db, second) && id in w.db.bills && !FinalBill(w.db.bills[id])
    requires w.db.outbox == map[] && w.db.strays.outbox == map[] && rowId2 != rowId && eventId2 != eventId
    requires first.request.content.branchId == second.request.content.branchId
    ensures
      ReportedTwice(Outbox(Run(v, Submit(second, Disable, {}, rowId2, eventId2)).db), first, rowId, second, rowId2)
  {
    hide *;
    SecondCanBeSold(w, v, id, first, rowId, eventId, second, rowId2, eventId2);
    UnpaidSaleIsNotRefused(v.tenant, v.db, second.request.content, id, rowId2, eventId2);
    SubmitSells(v, second, Disable, {}, rowId2, eventId2);
    var u := Run(v, Submit(second, Disable, {}, rowId2, eventId2));
    SoldRow(v, u, second, id, Disable, {}, rowId2, eventId2);
    TwoRows(v, u, id, first, rowId, eventId, second, rowId2, eventId2);
  }

  lemma TwoRows(v: World, u: World, id: BillId, first: Sale, rowId: RowId, eventId: string, second: Sale, rowId2: RowId, eventId2: string)
    requires u.db.outbox.Keys == {rowId2} && u.db.strays.outbox.Keys == {rowId} && rowId2 != rowId
    requires ReportsSale(v.tenant, first, id, u.db.strays.outbox[rowId], eventId)
    requires ReportsSale(v.tenant, second, id, u.db.outbox[rowId2], eventId2)
    requires first.request.content.branchId == second.request.content.branchId
    ensures ReportedTwice(Outbox(u.db), first, rowId, second, rowId2)
  {
    hide DocumentKey;
    assert Outbox(u.db).Keys == {rowId, rowId2};
  }

  lemma SecondCanBeSold(w: World, v: World, id: BillId, first: Sale, rowId: RowId, eventId: string,
                        second: Sale, rowId2: RowId, eventId2: string)
    requires IsOrphaned(w, v, first, id, rowId, eventId) && second.t != first.t && second.t !in w.txs && second.draft == Some(id)
    requires SellsOne(w, second, id) && !IsRecorded(w.db, second) && id in w.db.bills && !FinalBill(w.db.bills[id])
    requires w.db.outbox == map[] && w.db.strays.outbox == map[] && rowId2 != rowId && eventId2 != eventId
    ensures Inv(v) && Quiet(v) && second.t !in v.txs && Acceptable(second.request) && !IsRecorded(v.db, second)
    ensures id in v.db.bills && !FinalBill(v.db.bills[id]) && ValidTenantKey(v.tenant.key) && 0 < id <= MAX_INT64
    ensures FreshEvent(v.db, rowId2, eventId2) && Storable(SaleLines(second.request.content), v.db.shelf.Keys)
    ensures second.request.content.branchId != 0 && second.request.content.paidAmount == 0.0 && second.request.content.state > 0
    ensures v.db.outbox == map[] && v.db.strays.outbox.Keys == {rowId} && ReportsSale(v.tenant, first, id, v.db.strays.outbox[rowId], eventId)
  {
    hide Inv, Acceptable, SaleLines, Storable, Quiet, DocumentKey;
  }

  /** The row of a sale that is sold, beside the rows that there were. */
  lemma SoldRow(w: World, v: World, s: Sale, id: BillId, mode: Mode, unread: set<nat>, rowId: RowId, eventId: string)
    requires Sold(w, v, s, id, mode, unread, rowId, eventId) && s.request.content.state > 0
    ensures v.db.outbox.Keys == w.db.outbox.Keys + {rowId} && v.db.strays.outbox == w.db.strays.outbox
    ensures rowId !in w.db.strays.outbox && ReportsSale(w.tenant, s, id, v.db.outbox[rowId], eventId)
  {
    SoldIsQueued(w, v, s, id, mode, unread, rowId, eventId);
    hide *;
    QueueingReports(w.tenant, w.db, s, id, rowId, eventId);
    FreshWhenQueued(w.tenant, w.db, s, id, rowId, eventId);
  }

  lemma SoldIsQueued(w: World, v: World, s: Sale, id: BillId, mode: Mode, unread: set<nat>, rowId: RowId, eventId: string)
    requires Sold(w, v, s, id, mode, unread, rowId, eventId)
    ensures QueuedEvent(w.tenant, w.db, id, s.request.content, IdentOfSale(s), rowId, eventId) == Some(v.db.outbox)
    ensures v.db.strays.outbox == w.db.strays.outbox
  {
    hide Inv, Quiet, FinishedBill, SaleLines, Storable, LastValue, SaleDeduction, QueuedEvent;
  }

  lemma FreshWhenQueued(tenant: Tenant, db: Db, s: Sale, id: BillId, rowId: RowId, eventId: string)
    requires s.request.content.state > 0
    ensures QueuedEvent(tenant, db, id, s.request.content, IdentOfSale(s), rowId, eventId).Some? ==> rowId !in db.strays.outbox
  {
    hide BillEvent;
  }

  lemma SoldBill(w: World, v: World, s: Sale, id: BillId, mode: Mode, unread: set<nat>, rowId: RowId, eventId: string)
    requires Sold(w, v, s, id, mode, unread, rowId, eventId)
    ensures v.db.bills.Keys == w.db.bills.Keys + {id} && id in v.db.bills && v.db.bills[id].state == s.request.content.state
    ensures v.db.bills[id].lines == SaleLines(s.request.content) && Is(v, s, Done(Saved(id)))
  {
    hide Inv, Quiet, FinishedBill, SaleLines, Storable, LastValue, SaleDeduction, QueuedEvent;
  }
}
