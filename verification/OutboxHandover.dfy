/**
 What the publisher is handed: the event of each turn and no other, so that what is counted as accepted was handed over, and
 nothing is handed over more often than it was claimed.
 */
module OutboxHandover {
  import opened Options
  import opened Ordering
  import opened SaleTypes
  import opened OutboxProtocol
  import opened OutboxInvariant
  import opened OutboxSteps
  import opened OutboxTheorems

  /** Where an event was handed over. */
  function Handovers(handed: seq<Event>, e: Event): set<int> { set k | 0 <= k < |handed| && handed[k] == e }

  /** The drainers that have still to hand over this row's event. */
  ghost predicate ToHand(p: Phase, i: RowId) { (p.Draining? || p.Failing?) && i in Ids(p.todo) }

  ghost function Waiting(w: World, i: RowId): set<Owner> { set d | d in w.drainers && ToHand(w.drainers[d], i) }

  ghost predicate EventsDiffer(w: World) {
    forall i, j | i in w.rows && j in w.rows && i != j :: w.rows[i].event.eventId != w.rows[j].event.eventId
  }

  ghost predicate HandOk(w: World, i: RowId)
    requires i in w.rows && i in w.tally
  {
    var n := |Handovers(w.handed, w.rows[i].event)|;
    w.tally[i].accepted <= n && n + |Waiting(w, i)| <= w.tally[i].claims
  }

  ghost predicate HandoversOk(w: World) {
    && w.rows.Keys == w.tally.Keys && EventsDiffer(w) && HandedFromRows(w)
    && forall i | i in w.rows :: HandOk(w, i)
  }

  lemma OneMoreHandover(handed: seq<Event>, e: Event, x: Event)
    ensures |Handovers(handed + [e], x)| == |Handovers(handed, x)| + if e == x then 1 else 0
  {
    var n := |handed|;
    assert Handovers(handed + [e], x) == Handovers(handed, x) + if e == x then {n} else {};
    assert n !in Handovers(handed, x);
  }

  lemma WaitingAfter(w: World, v: World, d: Owner, p: Phase, i: RowId)
    requires v.drainers == w.drainers[d := p]
    ensures |Waiting(v, i)| == |Waiting(w, i)| - (if ToHand(PhaseOf(w, d), i) then 1 else 0) + if ToHand(p, i) then 1 else 0
  {
    WaitingSets(w, v, d, p, i);
    hide Waiting, ToHand;
  }

  lemma WaitingSets(w: World, v: World, d: Owner, p: Phase, i: RowId)
    requires v.drainers == w.drainers[d := p]
    ensures d in Waiting(w, i) <==> ToHand(PhaseOf(w, d), i)
    ensures Waiting(v, i) == (Waiting(w, i) - {d}) + if ToHand(p, i) then {d} else {}
  {
    assert d in Waiting(w, i) ==> ToHand(PhaseOf(w, d), i);
    hide Ids;
    forall o ensures o in Waiting(v, i) <==> o in (Waiting(w, i) - {d}) + if ToHand(p, i) then {d} else {} {
      if o == d { assert v.drainers[d] == p; }
    }
  }

  /** A step of d that hands over nothing and counts nothing, after which d has no more to hand over than before. */
  lemma QuietStep(w: World, v: World, d: Owner, p: Phase)
    requires HandoversOk(w) && v.drainers == w.drainers[d := p] && v.handed == w.handed && v.tally == w.tally
    requires v.rows.Keys == w.rows.Keys && forall i | i in w.rows :: v.rows[i].event == w.rows[i].event
    requires forall i | i in w.rows && ToHand(p, i) :: ToHand(PhaseOf(w, d), i)
    ensures HandoversOk(v)
  {
    hide ToHand, Handovers;
    SameEventsHanded(w, v);
    hide HandedFromRows;
    forall i | i in v.rows ensures HandOk(v, i) {
      assert HandOk(w, i);
      WaitingAfter(w, v, d, p, i);
    }
  }

  lemma AppendKeepsHandovers(w: World, id: RowId, e: Event, dueAt: int)
    requires Inv(w) && HandoversOk(w)
    ensures HandoversOk(Step(w, Append(id, e, dueAt)))
  {
    hide HandoversOk, EventsDiffer;
    if Step(w, Append(id, e, dueAt)) != w {
      NobodyWaits(w, id);
      hide Inv;
      AppendedIsOk(w, id, e, dueAt);
    }
  }

  lemma AppendedIsOk(w: World, id: RowId, e: Event, dueAt: int)
    requires HandoversOk(w) && id !in w.rows && Waiting(w, id) == {}
    requires forall i | i in w.rows :: w.rows[i].event.eventId != e.eventId
    ensures HandoversOk(AfterAppend(w, id, e, dueAt))
  {
    var v := AfterAppend(w, id, e, dueAt);
    SameEventsHanded(w, v);
    NeverHanded(w, e);
    OneMoreDiffers(w, id, e, dueAt);
    hide HandedFromRows, EventsDiffer, Handovers;
    forall i | i in v.rows ensures HandOk(v, i) {
      if i == id { NewIsOk(w, id, e, dueAt); } else { OldIsOk(w, v, i); }
    }
    hide HandOk;
  }

  lemma NewIsOk(w: World, id: RowId, e: Event, dueAt: int)
    requires Waiting(w, id) == {} && Handovers(w.handed, e) == {}
    ensures HandOk(AfterAppend(w, id, e, dueAt), id)
  {
    SameWaiting(w, AfterAppend(w, id, e, dueAt), id);
    hide Waiting, Handovers;
  }

  lemma OldIsOk(w: World, v: World, i: RowId)
    requires i in w.rows && i in w.tally && i in v.rows && i in v.tally && HandOk(w, i)
    requires v.rows[i] == w.rows[i] && v.tally[i] == w.tally[i] && v.drainers == w.drainers && v.handed == w.handed
    ensures HandOk(v, i)
  {
    SameWaiting(w, v, i);
    hide Waiting, Handovers;
  }

  lemma SameWaiting(w: World, v: World, i: RowId)
    requires v.drainers == w.drainers
    ensures Waiting(v, i) == Waiting(w, i)
  {
  }

  lemma OneMoreDiffers(w: World, id: RowId, e: Event, dueAt: int)
    requires EventsDiffer(w) && forall i | i in w.rows :: w.rows[i].event.eventId != e.eventId
    ensures EventsDiffer(AfterAppend(w, id, e, dueAt))
  {
  }

  lemma NeverHanded(w: World, e: Event)
    requires HandedFromRows(w) && forall i | i in w.rows :: w.rows[i].event.eventId != e.eventId
    ensures Handovers(w.handed, e) == {}
  {
    forall k | 0 <= k < |w.handed| ensures w.handed[k] != e { assert EventOfRow(w, w.handed[k]); }
  }

  lemma SameEventsHanded(w: World, v: World)
    requires HandedFromRows(w) && v.handed == w.handed
    requires forall i | i in w.rows :: i in v.rows && v.rows[i].event == w.rows[i].event
    ensures HandedFromRows(v)
  {
    forall k | 0 <= k < |v.handed| ensures EventOfRow(v, v.handed[k]) {
      assert EventOfRow(w, w.handed[k]);
      var i :| i in w.rows && w.rows[i].event == w.handed[k];
      assert v.rows[i].event == v.handed[k];
    }
  }

  lemma NobodyWaits(w: World, id: RowId)
    requires Inv(w) && id !in w.rows
    ensures Waiting(w, id) == {}
  {
    hide RowOk, DeliveryOk, LocksDisjoint, SentOk;
    forall d | d in w.drainers ensures !ToHand(w.drainers[d], id) { assert PhaseOk(w, d, w.drainers[d]); }
  }

  lemma LeaseKeepsHandovers(w: World, d: Owner, seconds: nat)
    requires Inv(w) && HandoversOk(w) && PhaseOf(w, d).Listed?
    ensures HandoversOk(LeaseStep(w, d, PhaseOf(w, d).now, PhaseOf(w, d).events, seconds))
  {
    hide Inv, Handovers;
    var Listed(now, events) := PhaseOf(w, d);
    var v := LeaseStep(w, d, now, events, seconds);
    SameEventsHanded(w, v);
    hide HandedFromRows;
    forall i | i in v.rows ensures HandOk(v, i) {
      assert HandOk(w, i);
      WaitingAfter(w, v, d, Draining(now, events, []), i);
    }
  }

  lemma PublishKeepsHandovers(w: World, d: Owner, accepted: bool)
    requires Inv(w) && HandoversOk(w)
    ensures HandoversOk(Step(w, Publish(d, accepted)))
  {
    var p := PhaseOf(w, d);
    PublishIs(w, d, accepted);
    if p.Draining? && p.todo != [] && p.todo[0].id in w.rows && p.todo[0].id in w.tally {
      TodoHasItOnce(w, d);
      StepKeepsHandedFromRows(w, d, accepted);
      hide Inv, Step;
      PublishedAreOk(w, d, accepted);
    } else {
      hide Inv, Step, HandoversOk;
    }
  }

  lemma PublishIs(w: World, d: Owner, accepted: bool)
    ensures
      var p := PhaseOf(w, d);
      Step(w, Publish(d, accepted))
      == if p.Draining? && p.todo != [] && p.todo[0].id in w.rows && p.todo[0].id in w.tally then PublishStep(w, d, p, accepted) else w
  {
    hide PublishStep;
  }

  lemma PublishedAreOk(w: World, d: Owner, accepted: bool)
    requires HandoversOk(w) && PhaseOf(w, d).Draining? && PhaseOf(w, d).todo != [] && PhaseOf(w, d).todo[0].id in w.rows
    requires
      var todo := PhaseOf(w, d).todo;
      && todo[0].id in Ids(todo) && todo[0].id !in Ids(todo[1..])
      && forall j | j != todo[0].id :: j in Ids(todo[1..]) <==> j in Ids(todo)
    requires HandedFromRows(PublishStep(w, d, PhaseOf(w, d), accepted))
    ensures HandoversOk(PublishStep(w, d, PhaseOf(w, d), accepted))
  {
    var v := PublishStep(w, d, PhaseOf(w, d), accepted);
    forall i | i in w.rows ensures i in v.rows && i in v.tally && HandOk(v, i) { PublishedIsOk(w, d, accepted, i); }
    PublishLeavesRows(w, d, accepted);
    hide PublishStep, HandedFromRows, EventsDiffer, HandOk, Ids;
    SameEventsDiffer(w, v);
  }

  lemma PublishLeavesRows(w: World, d: Owner, accepted: bool)
    requires PhaseOf(w, d).Draining? && PhaseOf(w, d).todo != []
    requires PhaseOf(w, d).todo[0].id in w.rows && PhaseOf(w, d).todo[0].id in w.tally
    ensures
      var v := PublishStep(w, d, PhaseOf(w, d), accepted);
      v.rows == w.rows && v.tally.Keys == w.tally.Keys
  {
  }

  lemma SameEventsDiffer(w: World, v: World)
    requires EventsDiffer(w) && v.rows == w.rows
    ensures EventsDiffer(v)
  {
  }

  lemma PublishedIsOk(w: World, d: Owner, accepted: bool, i: RowId)
    requires HandoversOk(w) && PhaseOf(w, d).Draining? && PhaseOf(w, d).todo != [] && i in w.rows
    requires
      var todo := PhaseOf(w, d).todo;
      && todo[0].id in w.rows && todo[0].id in Ids(todo) && todo[0].id !in Ids(todo[1..])
      && forall j | j != todo[0].id :: j in Ids(todo[1..]) <==> j in Ids(todo)
    ensures
      var v := PublishStep(w, d, PhaseOf(w, d), accepted);
      HandOk(v, i)
  {
    hide HandedFromRows, Handovers, Ids;
    var c := PhaseOf(w, d).todo[0];
    var v := PublishStep(w, d, PhaseOf(w, d), accepted);
    assert HandOk(w, i);
    OneMoreHandover(w.handed, w.rows[c.id].event, w.rows[i].event);
    WaitingAfter(w, v, d, v.drainers[d], i);
  }

  lemma StepKeepsHandedFromRows(w: World, d: Owner, accepted: bool)
    requires HandedFromRows(w)
    ensures HandedFromRows(Step(w, Publish(d, accepted)))
  {
    HandedGrows(w, Publish(d, accepted));
    hide EventOfRow;
  }

  lemma TodoHasItOnce(w: World, d: Owner)
    requires Inv(w) && PhaseOf(w, d).Draining? && PhaseOf(w, d).todo != []
    ensures
      var todo := PhaseOf(w, d).todo;
      && todo[0].id in Ids(todo) && todo[0].id !in Ids(todo[1..])
      && forall i | i != todo[0].id :: i in Ids(todo[1..]) <==> i in Ids(todo)
  {
    hide RowOk, DeliveryOk, LocksDisjoint, SentOk, HeldOk;
    var todo := PhaseOf(w, d).todo;
    assert PhaseOk(w, d, PhaseOf(w, d));
    forall i | i in Ids(todo) && i != todo[0].id ensures i in Ids(todo[1..]) {
      var k :| 0 <= k < |todo| && todo[k].id == i;
      assert todo[1..][k - 1].id == i;
    }
  }

  lemma StepKeepsHandovers(w: World, a: Action)
    requires Inv(w) && HandoversOk(w)
    ensures HandoversOk(Step(w, a))
  {
    hide Inv, HandoversOk, ListDue, ListExpired, LockedByOthers, Backoff;
    match a
    case Append(id, e, dueAt) => AppendKeepsHandovers(w, id, e, dueAt);
    case Publish(d, accepted) => PublishKeepsHandovers(w, d, accepted);
    case Lease(d, seconds) =>
      if PhaseOf(w, d).Listed? {
        if seconds == 0 || PhaseOf(w, d).events == [] { QuietLease(w, d, seconds); } else { LeaseKeepsHandovers(w, d, seconds); }
      }
    case _ => OthersKeepHandovers(w, a);
  }

  lemma QuietLease(w: World, d: Owner, seconds: nat)
    requires HandoversOk(w) && PhaseOf(w, d).Listed? && (seconds == 0 || PhaseOf(w, d).events == [])
    ensures HandoversOk(Step(w, Lease(d, seconds)))
  {
    hide HandoversOk;
    if seconds != 0 { QuietStep(w, At(w, d, Idle), d, Idle); }
  }

  lemma OthersKeepHandovers(w: World, a: Action)
    requires Inv(w) && HandoversOk(w) && !a.Append? && !a.Publish? && !a.Lease?
    ensures HandoversOk(Step(w, a))
  {
    hide Step, HandoversOk;
    var v := Step(w, a);
    if v != w {
      forall i | i in w.rows ensures i in v.rows && v.rows[i].event == w.rows[i].event { StepKeepsRows(w, a, i); }
      hide Inv;
      HandsNothing(w, a);
      QuietStep(w, v, a.d, v.drainers[a.d]);
    }
  }

  lemma HandsNothing(w: World, a: Action)
    requires !a.Append? && !a.Publish? && !a.Lease? && Step(w, a) != w
    ensures
      var v := Step(w, a);
      && a.d in v.drainers && v.drainers == w.drainers[a.d := v.drainers[a.d]] && v.handed == w.handed && v.tally == w.tally
      && v.rows.Keys == w.rows.Keys && forall i | ToHand(v.drainers[a.d], i) :: ToHand(PhaseOf(w, a.d), i)
  {
    hide ListDue, ListExpired, LockedByOthers, FailedRow, Ids;
  }

  lemma {:induction false} RunKeepsHandovers(w: World, actions: seq<Action>)
    requires Initial(w)
    ensures HandoversOk(Run(w, actions))
  {
    hide Step;
    if actions != [] {
      RunKeepsHandovers(w, actions[..|actions| - 1]);
      RunKeepsInv(w, actions[..|actions| - 1]);
      hide Inv, HandoversOk;
      StepKeepsHandovers(Run(w, actions[..|actions| - 1]), actions[|actions| - 1]);
    }
  }

  /**
   Over every run: the publisher was handed the event of a row at least as often as it accepted it, and at most as often as the
   row was claimed. So the event of a published row was handed over.
   */
  lemma AcceptedEventsWereHanded(w: World, actions: seq<Action>, i: RowId)
    requires Initial(w) && i in Run(w, actions).rows
    ensures i in Run(w, actions).tally
    ensures
      var v := Run(w, actions);
      && v.tally[i].accepted <= |Handovers(v.handed, v.rows[i].event)| <= v.tally[i].claims
      && (v.rows[i].status == Published ==> v.rows[i].event in v.handed)
  {
    RunKeepsHandovers(w, actions);
    RunKeepsInv(w, actions);
    var v := Run(w, actions);
    hide Run;
    assert HandOk(v, i) && RowOk(v, i);
    if v.rows[i].status == Published {
      var k :| k in Handovers(v.handed, v.rows[i].event);
    }
  }
}
