/**
 The bounds of the outbox are exact: for every n there is a run in which an event's lease is reclaimed n times, the
 publisher accepts it n + 1 times, and it is claimed MaxAttempts + n times. In its first rounds the publisher refuses the
 event and the drainer records it, until one attempt is left. In each round after them a drainer claims the event,
 publishes it, and stops before it records the result.
 */
module OutboxTightness {
  import opened Options
  import opened Ordering
  import opened SaleTypes
  import opened OutboxProtocol
  import opened OutboxInvariant
  import opened OutboxSteps
  import opened OutboxTheorems

  /** One row, and no drainer in the middle of anything. */
  predicate Lone(w: World, i: RowId) {
    && w.rows.Keys == {i} && w.tally.Keys == {i}
    && (forall o | o in w.drainers :: w.drainers[o].Idle?)
  }

  function Round(d: Owner, now: int): seq<Action> {
    [ClaimDue(d, now, 1, {}), ClaimExpired(d, {}), Lease(d, 1), Publish(d, true), Stop(d)]
  }

  // ---------------------------------------------------------------- a claim that nobody interrupts

  lemma MyLocksAreNotOthers(w: World, d: Owner, p: Phase)
    ensures LockedByOthers(At(w, d, p), d) == LockedByOthers(w, d)
  {
    var v := At(w, d, p);
    forall i ensures i in LockedByOthers(v, d) <==> i in LockedByOthers(w, d) {
      if o :| o in w.drainers && o != d && i in Locks(w.drainers[o]) { assert o in v.drainers; }
      if o :| o in v.drainers && o != d && i in Locks(v.drainers[o]) { assert o in w.drainers; }
    }
  }

  /** It lists the first rows of the due list followed by the expired list, but for the rows that others have locked. */
  lemma ClaimListing(w: World, d: Owner, now: int, batch: nat)
    requires batch > 0 && PhaseOf(w, d).Idle?
    ensures
      var busy := LockedByOthers(w, d);
      var due, expired := Sorted(DueRanks(w.rows, now, busy)), Sorted(ExpiredRanks(w.rows, now, busy));
      Step(Step(w, ClaimDue(d, now, batch, {})), ClaimExpired(d, {}))
      == At(At(w, d, Listing(now, batch, ListDue(w.rows, now, busy, batch))), d,
            Listed(now, ClaimedOf(w.rows, First(due + expired, batch))))
  {
    hide Sorted, DueRanks, ExpiredRanks, ClaimedOf, LockedByOthers;
    var busy := LockedByOthers(w, d);
    assert busy + {} == busy;
    var due, expired := Sorted(DueRanks(w.rows, now, busy)), Sorted(ExpiredRanks(w.rows, now, busy));
    MyLocksAreNotOthers(w, d, Listing(now, batch, ListDue(w.rows, now, busy, batch)));
    ClaimedOfConcat(w.rows, due, expired, batch);
  }

  lemma ClaimedOfConcat(rows: Rows, due: seq<Rank>, expired: seq<Rank>, batch: nat)
    ensures |ClaimedOf(rows, First(due, batch))| == Min(batch, |due|)
    ensures |due| >= batch ==> ClaimedOf(rows, First(due + expired, batch)) == ClaimedOf(rows, First(due, batch))
    ensures |due| < batch ==>
      (ClaimedOf(rows, First(due + expired, batch))
       == ClaimedOf(rows, First(due, batch)) + ClaimedOf(rows, First(expired, batch - |due|)))
  {
  }

  // ---------------------------------------------------------------- one round

  lemma ListingOfOne(x: Rank)
    ensures Sorted({x}) == [x] && Sorted({}) == []
  {
    SortedLists({x});
    var s := Sorted({x});
    assert s[0] in s;
    assert s == [x];
  }

  lemma ClaimOfLone(w: World, i: RowId, now: int)
    requires Lone(w, i) && LeaseOk(w.rows[i]) && (Due(w.rows[i], now) || Expired(w.rows[i], now))
    ensures
      var due, expired := Sorted(DueRanks(w.rows, now, {})), Sorted(ExpiredRanks(w.rows, now, {}));
      ClaimedOf(w.rows, First(due + expired, 1)) == [Claimed(i, w.rows[i].attemptCount)]
  {
    hide Sorted;
    var r := w.rows[i];
    var x := Rank(if Due(r, now) then r.nextAttemptAt else r.leaseExpiresAt.value, i, 0);
    ListingOfOne(x);
    if Due(r, now) {
      assert DueRanks(w.rows, now, {}) == {x} && ExpiredRanks(w.rows, now, {}) == {};
    } else {
      assert DueRanks(w.rows, now, {}) == {} && ExpiredRanks(w.rows, now, {}) == {x};
    }
    assert First([x], 1) == [x] && [x] + [] == [x] && [] + [x] == [x];
  }

  lemma RunOfRound(w: World, d: Owner, now: int)
    ensures
      var w3 := Step(Step(Step(w, ClaimDue(d, now, 1, {})), ClaimExpired(d, {})), Lease(d, 1));
      Run(w, Round(d, now)) == Step(Step(w3, Publish(d, true)), Stop(d))
  {
    hide Step;
    RunOfClaim(w, Round(d, now));
    var w3 := Step(Step(Step(w, ClaimDue(d, now, 1, {})), ClaimExpired(d, {})), Lease(d, 1));
    RunFrom(w3, Round(d, now)[3..]);
    RunFrom(Step(w3, Publish(d, true)), Round(d, now)[3..][1..]);
  }

  lemma RunOfClaim(w: World, actions: seq<Action>)
    requires |actions| >= 3
    ensures Run(w, actions) == Run(Step(Step(Step(w, actions[0]), actions[1]), actions[2]), actions[3..])
  {
    hide Step;
    RunFrom(w, actions);
    RunFrom(Step(w, actions[0]), actions[1..]);
    RunFrom(Step(Step(w, actions[0]), actions[1]), actions[1..][1..]);
    assert actions[1..][1..][1..] == actions[3..];
  }

  /** One round of a drainer that stops before its mark: one more acceptance, and a lease left to expire. */
  lemma RoundOfLone(w: World, i: RowId, d: Owner, now: int)
    requires Inv(w) && Lone(w, i) && (Due(w.rows[i], now) || Expired(w.rows[i], now))
    ensures
      var v := Run(w, Round(d, now));
      && Inv(v) && Lone(v, i) && Expired(v.rows[i], now + 1)
      && v.maxAttempts == w.maxAttempts
      && v.rows[i].status == InFlight && v.rows[i].attemptCount == w.rows[i].attemptCount + 1
      && v.tally[i].accepted == w.tally[i].accepted + 1 && v.handed == w.handed + [w.rows[i].event]
      && v.tally[i].reclaims == w.tally[i].reclaims + if w.rows[i].status == InFlight then 1 else 0
  {
    hide Inv, Step, Run, LeaseStep;
    RunKeepsConfig(w, Round(d, now));
    RunOfRound(w, d, now);
    ClaimStepsOfLone(w, i, d, now);
    var w1 := Step(w, ClaimDue(d, now, 1, {}));
    var w2 := Step(w1, ClaimExpired(d, {}));
    var w3 := Step(w2, Lease(d, 1));
    var w4 := Step(w3, Publish(d, true));
    StepKeepsInv(w, ClaimDue(d, now, 1, {}));
    StepKeepsInv(w1, ClaimExpired(d, {}));
    StepKeepsInv(w2, Lease(d, 1));
    StepKeepsInv(w3, Publish(d, true));
    StepKeepsInv(w4, Stop(d));
    LeaseOfLone(w, i, d, now);
    PublishAndStop(w3, i, d, now, Claimed(i, w.rows[i].attemptCount));
  }

  lemma ClaimStepsOfLone(w: World, i: RowId, d: Owner, now: int)
    requires Inv(w) && Lone(w, i) && (Due(w.rows[i], now) || Expired(w.rows[i], now))
    ensures
      Step(Step(Step(w, ClaimDue(d, now, 1, {})), ClaimExpired(d, {})), Lease(d, 1))
      == LeaseStep(w, d, now, [Claimed(i, w.rows[i].attemptCount)], 1)
  {
    assert LeaseOk(w.rows[i]) by { assert RowOk(w, i); }
    hide Step, Sorted, DueRanks, ExpiredRanks, ClaimedOf, Inv, LeaseStep, ListDue;
    ClaimOfLone(w, i, now);
    assert LockedByOthers(w, d) == {};
    ClaimListing(w, d, now, 1);
    var claimed := [Claimed(i, w.rows[i].attemptCount)];
    var listing := Listing(now, 1, ListDue(w.rows, now, {}, 1));
    LeaseOfOne(At(At(w, d, listing), d, Listed(now, claimed)), d, now, claimed);
    LeaseStepForgetsPhase(w, Listed(now, claimed), listing, d, now, claimed);
  }

  lemma LeaseOfOne(w: World, d: Owner, now: int, claimed: seq<Claimed>)
    requires PhaseOf(w, d) == Listed(now, claimed) && claimed != []
    ensures Step(w, Lease(d, 1)) == LeaseStep(w, d, now, claimed, 1)
  {
  }

  lemma LeaseStepForgetsPhase(w: World, p: Phase, q: Phase, d: Owner, now: int, claimed: seq<Claimed>)
    ensures LeaseStep(At(At(w, d, q), d, p), d, now, claimed, 1) == LeaseStep(w, d, now, claimed, 1)
  {
  }

  lemma LeaseOfLone(w: World, i: RowId, d: Owner, now: int)
    requires Lone(w, i)
    ensures
      var v := LeaseStep(w, d, now, [Claimed(i, w.rows[i].attemptCount)], 1);
      && v.rows == map[i := Leased(w.rows[i], d, now + 1)]
      && v.tally == map[i := ClaimTally(w.rows[i], w.tally[i], now)]
      && v.drainers == w.drainers[d := Draining(now, [Claimed(i, w.rows[i].attemptCount)], [])]
      && v.maxAttempts == w.maxAttempts && v.handed == w.handed
  {
    var claimed := [Claimed(i, w.rows[i].attemptCount)];
    assert claimed[0].id in Ids(claimed);
  }

  lemma PublishAndStop(w: World, i: RowId, d: Owner, now: int, c: Claimed)
    requires c.id == i && w.rows.Keys == {i} && w.tally.Keys == {i} && PhaseOf(w, d) == Draining(now, [c], [])
    ensures
      var v := Step(Step(w, Publish(d, true)), Stop(d));
      && v.rows == w.rows && v.drainers == w.drainers[d := Idle] && v.handed == w.handed + [w.rows[i].event]
      && v.tally == map[i := w.tally[i].(accepted := w.tally[i].accepted + 1)]
  {
  }

  // ---------------------------------------------------------------- a refused attempt

  function Refusal(d: Owner, now: int): seq<Action> {
    [ClaimDue(d, now, 1, {}), ClaimExpired(d, {}), Lease(d, 1), Publish(d, false), RecordFailure(d, []), MarkPublished(d)]
  }

  lemma RunOfRefusal(w: World, d: Owner, now: int)
    ensures
      var w3 := Step(Step(Step(w, ClaimDue(d, now, 1, {})), ClaimExpired(d, {})), Lease(d, 1));
      Run(w, Refusal(d, now)) == Step(Step(Step(w3, Publish(d, false)), RecordFailure(d, [])), MarkPublished(d))
  {
    hide Step;
    var all := Refusal(d, now);
    RunOfClaim(w, all);
    var w3 := Step(Step(Step(w, ClaimDue(d, now, 1, {})), ClaimExpired(d, {})), Lease(d, 1));
    RunFrom(w3, all[3..]);
    RunFrom(Step(w3, Publish(d, false)), all[3..][1..]);
    RunFrom(Step(Step(w3, Publish(d, false)), RecordFailure(d, [])), all[3..][1..][1..]);
  }

  /** One round in which the publisher refuses the event, with attempts left: it waits for its next attempt. */
  lemma RefusalOfLone(w: World, i: RowId, d: Owner, now: int)
    requires Inv(w) && Lone(w, i) && Due(w.rows[i], now) && w.rows[i].attemptCount + 1 < w.maxAttempts
    ensures
      var v := Run(w, Refusal(d, now));
      && Inv(v) && Lone(v, i) && Due(v.rows[i], now + Backoff(w.rows[i].attemptCount + 1))
      && v.maxAttempts == w.maxAttempts && v.rows[i].attemptCount == w.rows[i].attemptCount + 1
      && v.tally[i].accepted == w.tally[i].accepted && v.tally[i].reclaims == w.tally[i].reclaims
  {
    hide Inv, Step, Run, LeaseStep, Backoff;
    RunOfRefusal(w, d, now);
    RunKeepsConfig(w, Refusal(d, now));
    ClaimStepsOfLone(w, i, d, now);
    LeaseOfLone(w, i, d, now);
    RunStaysSound(w, Refusal(d, now));
    RefuseAndRecord(LeaseStep(w, d, now, [Claimed(i, w.rows[i].attemptCount)], 1), i, d, now, Claimed(i, w.rows[i].attemptCount));
  }

  lemma {:induction false} RunStaysSound(w: World, actions: seq<Action>)
    requires Inv(w)
    ensures Inv(Run(w, actions))
  {
    hide Inv, Step;
    if actions != [] {
      RunStaysSound(w, actions[..|actions| - 1]);
      StepKeepsInv(Run(w, actions[..|actions| - 1]), actions[|actions| - 1]);
    }
  }

  lemma Publishes(w: World, i: RowId, d: Owner, now: int, c: Claimed)
    requires c.id == i && w.rows.Keys == {i} && w.tally.Keys == {i} && PhaseOf(w, d) == Draining(now, [c], [])
    ensures Step(w, Publish(d, false)) == w.(drainers := w.drainers[d := Failing(now, c, [], [])], handed := w.handed + [w.rows[i].event])
  {
    assert [c][1..] == [];
  }

  lemma RefuseAndRecord(w: World, i: RowId, d: Owner, now: int, c: Claimed)
    requires c.id == i && w.rows.Keys == {i} && w.tally.Keys == {i} && PhaseOf(w, d) == Draining(now, [c], [])
    requires forall o | o in w.drainers && o != d :: w.drainers[o].Idle?
    requires w.rows[i].leaseOwner == Some(d) && c.attemptCount + 1 < w.maxAttempts
    ensures
      var v := Step(Step(Step(w, Publish(d, false)), RecordFailure(d, [])), MarkPublished(d));
      && v.rows == map[i := Retried(w.rows[i], d, now + Backoff(c.attemptCount + 1), [])]
      && v.drainers == w.drainers[d := Idle] && v.tally == w.tally
  {
    hide Step;
    Publishes(w, i, d, now, c);
    Records(Step(w, Publish(d, false)), i, d, now, c);
    MarksNothing(Step(Step(w, Publish(d, false)), RecordFailure(d, [])), d, now);
  }

  lemma Records(w: World, i: RowId, d: Owner, now: int, c: Claimed)
    requires c.id == i && w.rows.Keys == {i} && PhaseOf(w, d) == Failing(now, c, [], [])
    requires forall o | o in w.drainers && o != d :: w.drainers[o].Idle?
    requires w.rows[i].leaseOwner == Some(d) && c.attemptCount + 1 < w.maxAttempts
    ensures
      Step(w, RecordFailure(d, []))
      == w.(rows := map[i := Retried(w.rows[i], d, now + Backoff(c.attemptCount + 1), [])],
            drainers := w.drainers[d := Draining(now, [], [])])
  {
    hide Backoff;
    assert LockedByOthers(w, d) == {};
  }

  lemma MarksNothing(w: World, d: Owner, now: int)
    requires PhaseOf(w, d) == Draining(now, [], [])
    ensures Step(w, MarkPublished(d)) == At(w, d, Idle)
  {
    hide LockedByOthers;
    var none: seq<RowId> := [];
    assert (set j | j in none) == {};
    assert MarkRows(w.rows, {}, d) == w.rows;
  }

  // ---------------------------------------------------------------- the bounds

  /** k refusals, each as soon as the event is due again. */
  lemma {:induction false} Refusals(w: World, i: RowId, e: Event, d: Owner, k: nat) returns (actions: seq<Action>, now: int)
    requires Initial(w) && k < w.maxAttempts
    ensures
      var v := Run(w, actions);
      && Inv(v) && Lone(v, i) && Due(v.rows[i], now) && v.rows[i].attemptCount == k && v.maxAttempts == w.maxAttempts
      && v.tally[i].reclaims == 0 && v.tally[i].accepted == 0
  {
    hide Inv, Step, Backoff;
    if k == 0 {
      actions, now := [Append(i, e, 0)], 0;
      assert Run(w, actions) == Step(w, Append(i, e, 0)) by { RunPush(w, [], actions[0]); }
      AppendToEmpty(w, i, e);
    } else {
      var before, clock := Refusals(w, i, e, d, k - 1);
      RunConcat(w, before, Refusal(d, clock));
      actions, now := before + Refusal(d, clock), clock + Backoff(k);
      RefusalOfLone(Run(w, before), i, d, clock);
    }
  }

  /**
   Both bounds are reached together: for every n a run reclaims one event n times, has it accepted n + 1 times, and claims
   it MaxAttempts + n times. So attempt_count has no bound of its own.
   */
  lemma {:induction false} BoundsAreReached(w: World, i: RowId, e: Event, d: Owner, n: nat)
    returns (actions: seq<Action>, now: int)
    requires Initial(w)
    ensures
      var v := Run(w, actions);
      && Inv(v) && Lone(v, i) && Expired(v.rows[i], now)
      && v.tally[i].reclaims == n && v.tally[i].accepted == n + 1 && v.rows[i].attemptCount == w.maxAttempts + n
  {
    hide Inv, Step;
    var before: seq<Action>, clock: int;
    if n == 0 {
      before, clock := Refusals(w, i, e, d, w.maxAttempts - 1);
    } else {
      before, clock := BoundsAreReached(w, i, e, d, n - 1);
    }
    RunConcat(w, before, Round(d, clock));
    actions, now := before + Round(d, clock), clock + 1;
    RoundOfLone(Run(w, before), i, d, clock);
  }

  lemma AppendToEmpty(w: World, i: RowId, e: Event)
    requires Initial(w)
    ensures
      var v := Step(w, Append(i, e, 0));
      && Inv(v) && Lone(v, i) && Due(v.rows[i], 0) && v.rows[i].attemptCount == 0 && v.maxAttempts == w.maxAttempts
      && v.tally[i].accepted == 0 && v.tally[i].reclaims == 0
  {
    AppendKeepsInv(w, i, e, 0);
  }
}
