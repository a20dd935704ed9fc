/** Each action of the outbox keeps the invariant. */
module OutboxSteps {
  import opened Options
  import opened Ordering
  import opened ErrorText
  import opened SaleTypes
  import opened OutboxProtocol
  import opened OutboxInvariant

  function AfterAppend(w: World, id: RowId, e: Event, dueAt: int): World {
    w.(rows := w.rows[id := Inserted(e, dueAt)], tally := w.tally[id := Tally(0, 0, 0, dueAt, dueAt)])
  }

  lemma AppendKeepsPhase(w: World, id: RowId, e: Event, dueAt: int, d: Owner)
    requires id !in w.rows && w.rows.Keys == w.tally.Keys
    requires d in w.drainers && PhaseOk(w, d, w.drainers[d])
    ensures !Holds(w.drainers[d], id) && PhaseOk(AfterAppend(w, id, e, dueAt), d, w.drainers[d])
  {
  }

  lemma AppendKeepsInv(w: World, id: RowId, e: Event, dueAt: int)
    requires Inv(w) && id !in w.rows
    ensures Inv(AfterAppend(w, id, e, dueAt))
  {
    hide PhaseOk, Holds, RowOk;
    var v := AfterAppend(w, id, e, dueAt);
    forall d | d in w.drainers ensures !Holds(w.drainers[d], id) && PhaseOk(v, d, v.drainers[d]) {
      AppendKeepsPhase(w, id, e, dueAt, d);
    }
    assert Holders(v, id) == {};
    forall i | i in v.rows ensures RowOk(v, i) && DeliveryOk(v, i) {
      if i == id {
        AppendedRowOk(v, i, e, dueAt);
      } else {
        assert RowOk(w, i) && DeliveryOk(w, i) && Holders(v, i) == Holders(w, i);
        SameRowOk(w, v, i);
      }
    }
  }

  lemma AppendedRowOk(v: World, i: RowId, e: Event, dueAt: int)
    requires v.maxAttempts > 0 && i in v.rows && i in v.tally
    requires v.rows[i] == Inserted(e, dueAt) && v.tally[i] == Tally(0, 0, 0, dueAt, dueAt)
    ensures RowOk(v, i)
  {
    assert Waits(0) == 0;
  }

  lemma SameRowOk(w: World, v: World, i: RowId)
    requires i in w.rows && i in w.tally && i in v.rows && i in v.tally && v.maxAttempts == w.maxAttempts
    requires v.rows[i] == w.rows[i] && v.tally[i] == w.tally[i] && RowOk(w, i)
    ensures RowOk(v, i)
  {
  }

  /** A step that changes only where d is, and what d holds only for the less. */
  lemma MoveKeepsInv(w: World, d: Owner, p: Phase)
    requires Inv(w) && PhaseOk(w, d, p)
    requires Locks(p) !! LockedByOthers(w, d)
    requires forall i | i in w.rows :: Holds(p, i) ==> Holds(PhaseOf(w, d), i)
    ensures Inv(At(w, d, p))
  {
    var v := At(w, d, p);
    assert PhaseOk(v, d, p) by { SamePhase(w, v, d, p); }
    OthersKeepPhases(w, v, d, p);
    MoreLocks(w, v, d, p);
    forall i | i in w.rows ensures RowOk(v, i) && DeliveryOk(v, i) {
      assert RowOk(w, i) && DeliveryOk(w, i);
      HoldersAfter(w, v, d, p, i);
    }
  }

  lemma SamePhase(w: World, v: World, d: Owner, p: Phase)
    requires v.rows == w.rows && v.tally == w.tally && PhaseOk(w, d, p)
    ensures PhaseOk(v, d, p)
  {
  }

  lemma ClaimDueKeepsInv(w: World, d: Owner, now: int, batch: nat, skipped: set<RowId>)
    requires Inv(w) && PhaseOf(w, d).Idle?
    ensures Inv(At(w, d, Listing(now, batch, ListDue(w.rows, now, LockedByOthers(w, d) + skipped, batch))))
  {
    hide ListDue;
    ListDueFacts(w.rows, now, LockedByOthers(w, d) + skipped, batch);
    MoveKeepsInv(w, d, Listing(now, batch, ListDue(w.rows, now, LockedByOthers(w, d) + skipped, batch)));
  }

  lemma OwnLocksAreFree(w: World, d: Owner)
    requires LocksDisjoint(w)
    ensures Locks(PhaseOf(w, d)) !! LockedByOthers(w, d)
  {
  }

  lemma IdsConcat(a: seq<Claimed>, b: seq<Claimed>)
    ensures Ids(a + b) == Ids(a) + Ids(b)
  {
    forall i | i in Ids(a) + Ids(b) ensures i in Ids(a + b) {
      if i in Ids(a) {
        var k :| 0 <= k < |a| && a[k].id == i;
        assert (a + b)[k].id == i;
      } else {
        var k :| 0 <= k < |b| && b[k].id == i;
        assert (a + b)[|a| + k].id == i;
      }
    }
  }

  lemma ClaimExpiredKeepsInv(w: World, d: Owner, skipped: set<RowId>)
    requires Inv(w) && PhaseOf(w, d).Listing?
    ensures Inv(Step(w, ClaimExpired(d, skipped)))
  {
    hide ListExpired;
    var p := PhaseOf(w, d);
    assert PhaseOk(w, d, p);
    OwnLocksAreFree(w, d);
    if |p.due| >= p.batch {
      MoveKeepsInv(w, d, Listed(p.now, p.due));
    } else {
      var locked := LockedByOthers(w, d) + skipped;
      var expired := ListExpired(w.rows, p.now, locked, p.batch - |p.due|);
      ListExpiredFacts(w.rows, p.now, locked, p.batch - |p.due|);
      IdsConcat(p.due, expired);
      var events := p.due + expired;
      forall j, k | 0 <= j < k < |events| ensures events[j].id != events[k].id {
        if j < |p.due| <= k {
          assert Due(w.rows[events[j].id], p.now) && Expired(w.rows[events[k].id], p.now);
        }
      }
      MoveKeepsInv(w, d, Listed(p.now, events));
    }
  }

  lemma LeaseKeepsInv(w: World, d: Owner, seconds: nat)
    requires Inv(w) && PhaseOf(w, d).Listed? && PhaseOf(w, d).events != [] && seconds > 0
    ensures Inv(LeaseStep(w, d, PhaseOf(w, d).now, PhaseOf(w, d).events, seconds))
  {
    hide PhaseOk, RowOk, DeliveryOk;
    var Listed(now, events) := PhaseOf(w, d);
    var ids := Ids(events);
    var v := LeaseStep(w, d, now, events, seconds);
    var p := Draining(now, events, []);
    assert PhaseOk(w, d, PhaseOf(w, d));
    OwnLocksAreFree(w, d);
    forall i | i in w.rows ensures RowOk(v, i) && DeliveryOk(v, i) {
      LeaseKeepsRow(w, d, i, seconds);
    }
    assert RowsStepBy(w, v, d);
    assert PhaseOk(v, d, p) by { LeasedPhaseOk(w, d, seconds); }
    OthersKeepPhases(w, v, d, p);
    MoreLocks(w, v, d, p);
  }

  lemma LeasedPhaseOk(w: World, d: Owner, seconds: nat)
    requires PhaseOf(w, d).Listed? && PhaseOk(w, d, PhaseOf(w, d)) && w.rows.Keys == w.tally.Keys
    ensures
      var Listed(now, events) := PhaseOf(w, d);
      PhaseOk(LeaseStep(w, d, now, events, seconds), d, Draining(now, events, []))
  {
    var Listed(now, events) := PhaseOf(w, d);
    var v := LeaseStep(w, d, now, events, seconds);
    forall k | 0 <= k < |events| ensures HeldOk(v, d, now, events[k]) {
      assert Fetched(w, events[k]) && events[k].id in Ids(events);
    }
  }

  lemma LeaseKeepsRow(w: World, d: Owner, i: RowId, seconds: nat)
    requires PhaseOf(w, d).Listed? && PhaseOk(w, d, PhaseOf(w, d)) && w.rows.Keys == w.tally.Keys && seconds > 0
    requires i in w.rows && RowOk(w, i) && DeliveryOk(w, i)
    ensures
      var Listed(now, events) := PhaseOf(w, d);
      var v := LeaseStep(w, d, now, events, seconds);
      RowOk(v, i) && DeliveryOk(v, i)
  {
    var Listed(now, events) := PhaseOf(w, d);
    var v := LeaseStep(w, d, now, events, seconds);
    HoldersAfter(w, v, d, Draining(now, events, []), i);
    if i in Ids(events) {
      var k :| 0 <= k < |events| && events[k].id == i;
      LeasedRowOk(w.rows[i], w.tally[i], w.maxAttempts, d, now, seconds);
    }
  }

  lemma LeasedRowOk(r: Row, t: Tally, maxAttempts: nat, d: Owner, now: int, seconds: nat)
    requires LeaseOk(r) && AttemptsOk(r, t, maxAttempts) && TimesOk(r, t) && ErrorOk(r)
    requires (Due(r, now) || Expired(r, now)) && seconds > 0
    ensures
      var r', t' := Leased(r, d, now + seconds), ClaimTally(r, t, now);
      LeaseOk(r') && AttemptsOk(r', t', maxAttempts) && TimesOk(r', t') && ErrorOk(r')
  {
  }

  /** The publisher's answer: an acceptance spends d's hold on the event, a refusal keeps it until it is recorded. */
  lemma PublishKeepsInv(w: World, d: Owner, accepted: bool)
    requires Inv(w) && PhaseOf(w, d).Draining? && PhaseOf(w, d).todo != []
    ensures Inv(Step(w, Publish(d, accepted)))
  {
    hide RowOk, DeliveryOk, PhaseOk, LockedByOthers;
    var p := PhaseOf(w, d);
    TodoIsKnown(w, d);
    var v := PublishStep(w, d, p, accepted);
    assert v == Step(w, Publish(d, accepted));
    forall i | i in w.rows ensures RowOk(v, i) && DeliveryOk(v, i) {
      PublishKeepsRow(w, d, accepted, i);
    }
    assert RowsStepBy(w, v, d);
    assert PhaseOk(v, d, PhaseOf(v, d)) by { PublishedPhaseOk(w, d, accepted); }
    OthersKeepPhases(w, v, d, PhaseOf(v, d));
    FewerLocks(w, v, d, PhaseOf(v, d));
  }

  lemma TodoIsKnown(w: World, d: Owner)
    requires Inv(w) && PhaseOf(w, d).Draining? && PhaseOf(w, d).todo != []
    ensures PhaseOf(w, d).todo[0].id in w.rows && PhaseOf(w, d).todo[0].id in w.tally
    ensures Distinct(PhaseOf(w, d).todo)
  {
    assert PhaseOk(w, d, PhaseOf(w, d));
    assert HeldOk(w, d, PhaseOf(w, d).now, PhaseOf(w, d).todo[0]);
  }

  lemma PublishKeepsRow(w: World, d: Owner, accepted: bool, i: RowId)
    requires PhaseOf(w, d).Draining? && PhaseOf(w, d).todo != [] && Distinct(PhaseOf(w, d).todo)
    requires PhaseOf(w, d).todo[0].id in w.rows && w.rows.Keys == w.tally.Keys
    requires i in w.rows && RowOk(w, i) && DeliveryOk(w, i)
    ensures
      var v := PublishStep(w, d, PhaseOf(w, d), accepted);
      RowOk(v, i) && DeliveryOk(v, i)
  {
    hide TimesOk, AttemptsOk, LeaseOk, ErrorOk, Holders, Distinct, Ids;
    var p := PhaseOf(w, d);
    var v := PublishStep(w, d, p, accepted);
    HeldInRest(p.todo);
    HoldersAfter(w, v, d, PhaseOf(v, d), i);
    if accepted && i == p.todo[0].id {
      OneMoreAccepted(w.rows[i], w.tally[i], w.maxAttempts);
      assert !Holds(PhaseOf(v, d), i) && Holds(p, i);
    }
  }

  lemma OneMoreAccepted(r: Row, t: Tally, maxAttempts: nat)
    requires AttemptsOk(r, t, maxAttempts) && TimesOk(r, t)
    ensures AttemptsOk(r, t.(accepted := t.accepted + 1), maxAttempts) && TimesOk(r, t.(accepted := t.accepted + 1))
  {
  }

  /** A batch holds each event once, so its head is not in its tail. */
  lemma HeldInRest(todo: seq<Claimed>)
    requires todo != [] && Distinct(todo)
    ensures todo[0].id !in Ids(todo[1..])
    ensures Ids(todo) == {todo[0].id} + Ids(todo[1..])
    ensures Distinct(todo[1..])
  {
    IdsConcat([todo[0]], todo[1..]);
    assert [todo[0]] + todo[1..] == todo;
    forall k | 0 <= k < |todo[1..]| ensures todo[1..][k].id != todo[0].id {
      assert todo[1..][k] == todo[k + 1];
    }
    assert Ids([todo[0]]) == {todo[0].id} by { assert [todo[0]][0].id in Ids([todo[0]]); }
  }

  /** What a publish leaves of the table, and what an acceptance adds. */
  lemma PublishLeaves(w: World, d: Owner, accepted: bool)
    requires PhaseOf(w, d).Draining? && PhaseOf(w, d).todo != []
    requires PhaseOf(w, d).todo[0].id in w.rows && PhaseOf(w, d).todo[0].id in w.tally
    ensures
      var p := PhaseOf(w, d);
      var v, id, rest := PublishStep(w, d, p, accepted), p.todo[0].id, p.todo[1..];
      && v.rows == w.rows && v.tally.Keys == w.tally.Keys
      && (forall i | i in w.tally :: v.tally[i].claimedAt == w.tally[i].claimedAt && v.tally[i].accepted >= w.tally[i].accepted)
      && PhaseOf(v, d) == (if accepted then Draining(p.now, rest, p.sent + [id]) else Failing(p.now, p.todo[0], rest, p.sent))
      && (if accepted then v.tally[id].accepted >= 1 else v.tally == w.tally)
  {
  }

  lemma DrainingFacts(w: World, d: Owner)
    requires Inv(w) && PhaseOf(w, d).Draining?
    ensures
      var p := PhaseOf(w, d);
      Distinct(p.todo) && AllHeldOk(w, d, p.now, p.todo) && SentOk(w, p.sent)
  {
    hide RowOk, DeliveryOk, LocksDisjoint, HeldOk, SentOk;
    assert PhaseOk(w, d, PhaseOf(w, d));
  }

  lemma PublishedPhaseOk(w: World, d: Owner, accepted: bool)
    requires Inv(w) && PhaseOf(w, d).Draining? && PhaseOf(w, d).todo != []
    ensures PhaseOk(PublishStep(w, d, PhaseOf(w, d), accepted), d, PhaseOf(PublishStep(w, d, PhaseOf(w, d), accepted), d))
  {
    DrainingFacts(w, d);
    TodoIsKnown(w, d);
    PublishLeaves(w, d, accepted);
    var p := PhaseOf(w, d);
    hide Inv, HeldOk, SentOk, PublishStep, PhaseOf, PhaseOk, Distinct;
    var v := PublishStep(w, d, p, accepted);
    forall k | 0 <= k < |p.todo| ensures HeldOk(v, d, p.now, p.todo[k]) { HeldAfterPublish(w, v, d, p.now, p.todo[k]); }
    if accepted {
      TailIsHeld(v, d, p.now, p.todo);
      SentAfterPublish(w, v, p.sent, p.todo[0].id);
      DrainingIsOk(v, d, p.now, p.todo[1..], p.sent + [p.todo[0].id]);
    } else {
      SentStays(w, v, p.sent);
      FailingIsOk(v, d, p.now, p.todo, p.sent);
    }
  }

  lemma DrainingIsOk(w: World, d: Owner, now: int, todo: seq<Claimed>, sent: seq<RowId>)
    requires Distinct(todo) && AllHeldOk(w, d, now, todo) && SentOk(w, sent)
    ensures PhaseOk(w, d, Draining(now, todo, sent))
  {
  }

  lemma FailingIsOk(w: World, d: Owner, now: int, todo: seq<Claimed>, sent: seq<RowId>)
    requires todo != [] && Distinct(todo) && AllHeldOk(w, d, now, todo) && SentOk(w, sent)
    ensures PhaseOk(w, d, Failing(now, todo[0], todo[1..], sent))
  {
    hide HeldOk, SentOk;
    TailIsHeld(w, d, now, todo);
    assert [todo[0]] + todo[1..] == todo;
  }

  lemma TailIsHeld(w: World, d: Owner, now: int, todo: seq<Claimed>)
    requires todo != [] && Distinct(todo) && AllHeldOk(w, d, now, todo)
    ensures Distinct(todo[1..]) && AllHeldOk(w, d, now, todo[1..])
  {
    hide HeldOk;
    assert forall k :: 0 <= k < |todo[1..]| ==> todo[1..][k] == todo[k + 1];
  }

  lemma SentStays(w: World, v: World, sent: seq<RowId>)
    requires SentOk(w, sent) && v.rows == w.rows && v.tally == w.tally
    ensures SentOk(v, sent)
  {
  }

  lemma HeldAfterPublish(w: World, v: World, d: Owner, now: int, c: Claimed)
    requires HeldOk(w, d, now, c) && v.rows == w.rows && v.tally.Keys == w.tally.Keys
    requires forall i | i in w.tally :: v.tally[i].claimedAt == w.tally[i].claimedAt
    ensures HeldOk(v, d, now, c)
  {
  }

  lemma SentAfterPublish(w: World, v: World, sent: seq<RowId>, id: RowId)
    requires SentOk(w, sent) && v.rows == w.rows && v.tally.Keys == w.tally.Keys && id in w.rows && id in w.tally
    requires v.tally[id].accepted >= 1 && forall i | i in w.tally :: v.tally[i].accepted >= w.tally[i].accepted
    ensures SentOk(v, sent + [id])
  {
  }

  /** recordFailure under the owner guard: a retry gives up the chance it spends, and a stale one changes nothing. */
  lemma RecordFailureKeepsInv(w: World, d: Owner, cause: Text)
    requires Inv(w) && PhaseOf(w, d).Failing?
    ensures Inv(Step(w, RecordFailure(d, cause)))
  {
    hide PhaseOk, RowOk, DeliveryOk, FailedRow, LockedByOthers;
    var v := Step(w, RecordFailure(d, cause));
    if v != w {
      var Failing(now, failed, todo, sent) := PhaseOf(w, d);
      var p := Draining(now, todo, sent);
      assert PhaseOk(w, d, PhaseOf(w, d));
      forall i | i in w.rows ensures RowOk(v, i) && DeliveryOk(v, i) {
        FailureKeepsRow(w, d, i, cause);
      }
      FailureFrame(w.rows[failed.id], d, failed, now, w.maxAttempts, cause);
      assert RowsStepBy(w, v, d);
      assert PhaseOk(v, d, p) by { FailurePhaseOk(w, v, d); }
      OthersKeepPhases(w, v, d, p);
      FewerLocks(w, v, d, p);
    }
  }

  lemma FailureFrame(r: Row, d: Owner, c: Claimed, now: int, maxAttempts: nat, cause: Text)
    ensures FailedRow(r, d, c, now, maxAttempts, cause) == r || FailedRow(r, d, c, now, maxAttempts, cause).leaseOwner == None
    ensures r.leaseOwner != Some(d) ==> FailedRow(r, d, c, now, maxAttempts, cause) == r
  {
  }

  lemma FailurePhaseOk(w: World, v: World, d: Owner)
    requires PhaseOf(w, d).Failing? && PhaseOk(w, d, PhaseOf(w, d))
    requires RowsStepBy(w, v, d)
    requires forall i | i in w.rows :: v.rows[i] == w.rows[i] || v.rows[i].leaseOwner == None
    ensures PhaseOk(v, d, Draining(PhaseOf(w, d).now, PhaseOf(w, d).todo, PhaseOf(w, d).sent))
  {
    var Failing(now, failed, todo, sent) := PhaseOf(w, d);
    assert forall k :: 0 <= k < |todo| ==> ([failed] + todo)[k + 1] == todo[k];
    forall k | 0 <= k < |todo| ensures HeldOk(v, d, now, todo[k]) {
      assert HeldOk(w, d, now, todo[k]);
    }
  }

  lemma FailureKeepsRow(w: World, d: Owner, i: RowId, cause: Text)
    requires PhaseOf(w, d).Failing? && PhaseOk(w, d, PhaseOf(w, d)) && w.rows.Keys == w.tally.Keys && w.maxAttempts > 0
    requires i in w.rows && RowOk(w, i) && DeliveryOk(w, i)
    requires Step(w, RecordFailure(d, cause)) != w
    ensures RowOk(Step(w, RecordFailure(d, cause)), i) && DeliveryOk(Step(w, RecordFailure(d, cause)), i)
  {
    hide FailedRow, LockedByOthers, TimesOk, AttemptsOk, ErrorOk, Holders, Ids;
    var Failing(now, failed, todo, sent) := PhaseOf(w, d);
    var v := Step(w, RecordFailure(d, cause));
    HoldersAfter(w, v, d, Draining(now, todo, sent), i);
    FailureFrame(w.rows[failed.id], d, failed, now, w.maxAttempts, cause);
    HeldInRest([failed] + todo);
    assert ([failed] + todo)[1..] == todo;
    if i == failed.id && w.rows[i].leaseOwner == Some(d) {
      FailedRowOk(w.rows[i], w.tally[i], w.maxAttempts, d, now, failed, cause);
    }
  }

  lemma FailedRowOk(r: Row, t: Tally, maxAttempts: nat, d: Owner, now: int, c: Claimed, cause: Text)
    requires LeaseOk(r) && AttemptsOk(r, t, maxAttempts) && TimesOk(r, t) && maxAttempts > 0
    requires r.leaseOwner == Some(d) && r.attemptCount == c.attemptCount + 1 && t.claimedAt == now
    ensures
      var r' := FailedRow(r, d, c, now, maxAttempts, cause);
      && LeaseOk(r') && AttemptsOk(r', t, maxAttempts) && TimesOk(r', t) && ErrorOk(r')
      && r'.status == if c.attemptCount + 1 >= maxAttempts then DeadLetter else Pending
  {
    assert Waits(r.attemptCount) == Waits(r.attemptCount - 1) + Backoff(r.attemptCount);
  }

  /** The batch mark: only rows that d still owns, and each of those was accepted. */
  lemma MarkKeepsInv(w: World, d: Owner)
    requires Inv(w) && PhaseOf(w, d).Draining?
    ensures Inv(Step(w, MarkPublished(d)))
  {
    hide PhaseOk, RowOk, DeliveryOk;
    var v := Step(w, MarkPublished(d));
    if v != w {
      var sent := PhaseOf(w, d).sent;
      assert PhaseOk(w, d, PhaseOf(w, d));
      forall i | i in w.rows ensures RowOk(v, i) && DeliveryOk(v, i) {
        MarkKeepsRow(w, d, i);
      }
      assert RowsStepBy(w, v, d);
      assert PhaseOk(v, d, Idle) by { IdleOk(v, d); }
      OthersKeepPhases(w, v, d, Idle);
      FewerLocks(w, v, d, Idle);
    }
  }

  lemma IdleOk(w: World, d: Owner)
    ensures PhaseOk(w, d, Idle)
  {
  }

  lemma MarkKeepsRow(w: World, d: Owner, i: RowId)
    requires PhaseOf(w, d).Draining? && PhaseOk(w, d, PhaseOf(w, d)) && w.rows.Keys == w.tally.Keys
    requires i in w.rows && RowOk(w, i) && DeliveryOk(w, i)
    requires Step(w, MarkPublished(d)) != w
    ensures RowOk(Step(w, MarkPublished(d)), i) && DeliveryOk(Step(w, MarkPublished(d)), i)
  {
    hide TimesOk, AttemptsOk, LockedByOthers;
    var v := Step(w, MarkPublished(d));
    assert |Holders(v, i)| <= |Holders(w, i)| by { HoldersAfter(w, v, d, Idle, i); }
    assert v.rows[i] != w.rows[i] ==> w.tally[i].accepted >= 1 && v.rows[i] == MarkedPublished(w.rows[i], d);
    hide Step, PhaseOk, Holders;
    if v.rows[i] != w.rows[i] { MarkedRowOk(w.rows[i], w.tally[i], w.maxAttempts); }
  }

  lemma MarkedRowOk(r: Row, t: Tally, maxAttempts: nat)
    requires r.status == InFlight && t.accepted >= 1 && AttemptsOk(r, t, maxAttempts) && TimesOk(r, t)
    ensures
      var m := r.(status := Published, leaseOwner := None, leaseExpiresAt := None, lastError := None);
      AttemptsOk(m, t, maxAttempts) && TimesOk(m, t) && ErrorOk(m)
  {
  }

  lemma StepKeepsInv(w: World, a: Action)
    requires Inv(w)
    ensures Inv(Step(w, a))
  {
    hide Inv, PublishStep, LeaseStep, ListDue, ListExpired, FailedRow, MarkRows;
    if Step(w, a) != w {
      match a
      case Append(id, e, dueAt) => AppendKeepsInv(w, id, e, dueAt);
      case ClaimDue(d, now, batch, skipped) => ClaimDueKeepsInv(w, d, now, batch, skipped);
      case ClaimExpired(d, skipped) => ClaimExpiredKeepsInv(w, d, skipped);
      case Lease(d, seconds) =>
        if PhaseOf(w, d).events == [] { GoIdleKeepsInv(w, d); } else { LeaseKeepsInv(w, d, seconds); }
      case Publish(d, accepted) => PublishKeepsInv(w, d, accepted);
      case RecordFailure(d, cause) => RecordFailureKeepsInv(w, d, cause);
      case MarkPublished(d) => MarkKeepsInv(w, d);
      case Stop(d) => GoIdleKeepsInv(w, d);
    }
  }

  lemma GoIdleKeepsInv(w: World, d: Owner)
    requires Inv(w)
    ensures Inv(At(w, d, Idle))
  {
    MoveKeepsInv(w, d, Idle);
  }

  lemma {:induction false} RunKeepsInv(w: World, actions: seq<Action>)
    requires Initial(w)
    ensures Inv(Run(w, actions))
  {
    if actions != [] {
      RunKeepsInv(w, actions[..|actions| - 1]);
      StepKeepsInv(Run(w, actions[..|actions| - 1]), actions[|actions| - 1]);
    }
  }
}
