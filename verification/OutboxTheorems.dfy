/** What the outbox promises, over every run of any number of drainers. */
module OutboxTheorems {
  import opened Options
  import opened Ordering
  import opened ErrorText
  import opened SaleTypes
  import opened OutboxProtocol
  import opened OutboxInvariant
  import opened OutboxSteps

  predicate Final(s: Status) { s == Published || s == DeadLetter }

  /**
   Delivery. The publisher accepts an event at most once more than its expired lease was reclaimed, so
   without a reclaim it is delivered at most once: whatever crashes, slow drainers that publish after
   they lost their rows, and database errors a run has.
   */
  lemma AcceptedAtMostOncePlusReclaims(w: World, actions: seq<Action>, i: RowId)
    requires Initial(w) && i in Run(w, actions).rows
    ensures i in Run(w, actions).tally
    ensures Run(w, actions).tally[i].accepted <= 1 + Run(w, actions).tally[i].reclaims
  {
    hide Run;
    RunKeepsInv(w, actions);
    assert DeliveryOk(Run(w, actions), i);
  }

  /** Attempts. Only a reclaim takes a row past MaxAttempts, because it does not look at the count. */
  lemma AttemptsAreBounded(w: World, actions: seq<Action>, i: RowId)
    requires Initial(w) && i in Run(w, actions).rows
    ensures i in Run(w, actions).tally
    ensures
      var r, t := Run(w, actions).rows[i], Run(w, actions).tally[i];
      && r.attemptCount == t.claims <= w.maxAttempts + t.reclaims
      && (r.status == Pending ==> r.attemptCount < w.maxAttempts)
      && (r.status == DeadLetter ==> r.attemptCount >= w.maxAttempts)
  {
    RunKeepsInv(w, actions);
    RunKeepsConfig(w, actions);
    assert RowOk(Run(w, actions), i);
  }

  lemma StepKeepsConfig(w: World, a: Action)
    ensures Step(w, a).maxAttempts == w.maxAttempts
  {
    hide ListDue, ListExpired, LockedByOthers, MarkRows, LeaseRows, FailedRow;
  }

  lemma {:induction false} RunKeepsConfig(w: World, actions: seq<Action>)
    ensures Run(w, actions).maxAttempts == w.maxAttempts
  {
    hide Step;
    if actions != [] {
      RunKeepsConfig(w, actions[..|actions| - 1]);
      StepKeepsConfig(Run(w, actions[..|actions| - 1]), actions[|actions| - 1]);
    }
  }

  /**
   Termination. Without a reclaim an event is claimed at most MaxAttempts times, and once it has been, it is
   published or dead-lettered as soon as its last holder records the result.
   */
  lemma WithoutReclaimsItEnds(w: World, actions: seq<Action>, i: RowId)
    requires Initial(w) && i in Run(w, actions).rows && i in Run(w, actions).tally
    requires Run(w, actions).tally[i].reclaims == 0
    ensures
      var r, t := Run(w, actions).rows[i], Run(w, actions).tally[i];
      t.claims <= w.maxAttempts && (t.claims == w.maxAttempts && r.status != InFlight ==> Final(r.status))
  {
    hide Run;
    RunKeepsInv(w, actions);
    RunKeepsConfig(w, actions);
    assert RowOk(Run(w, actions), i);
  }

  /** A holder that records what happened takes the event out of flight: published, to be retried, or given up. */
  lemma RecordingSettles(w: World, d: Owner, i: RowId, cause: Text)
    requires Inv(w) && i in w.rows && w.rows[i].leaseOwner == Some(d) && i !in LockedByOthers(w, d)
    ensures PhaseOf(w, d).Failing? && PhaseOf(w, d).failed.id == i ==>
      Step(w, RecordFailure(d, cause)).rows[i].status
      == if PhaseOf(w, d).failed.attemptCount + 1 >= w.maxAttempts then DeadLetter else Pending
    ensures PhaseOf(w, d).Draining? && PhaseOf(w, d).todo == [] && i in PhaseOf(w, d).sent
            && (set j | j in PhaseOf(w, d).sent) !! LockedByOthers(w, d) ==>
      Step(w, MarkPublished(d)).rows[i].status == Published
  {
    hide Inv, LockedByOthers;
  }

  /** The wait after n + 1 attempts: two to the n seconds, and no more than five minutes. */
  lemma WaitAfter(n: nat)
    ensures Backoff(n + 1) == if n <= 8 then Pow2(n) else 300
  {
    Pow2Table();
    if n <= 8 { Pow2Grows(n, 8); } else { Pow2Grows(9, n); }
  }

  /**
   What a step does to the rows, on their columns. A lease takes the rows of its batch for its drainer, until the time of the drainer's
   clock plus the lease, and counts one more attempt. A mark publishes what was sent, and a failure makes its row pending again after
   the wait for the attempts made, or a dead letter once they are all used: both only for what the drainer still owns, and then
   the lease is gone. An append adds its row, due at its time. No other step touches a row, and no other column changes.
   */
  lemma StepsOnTheColumns(w: World, a: Action, i: RowId)
    requires i in w.rows
    ensures i in Step(w, a).rows
    ensures a.Append? && a.id !in w.rows && (forall j | j in w.rows :: w.rows[j].event.eventId != a.event.eventId) ==>
      a.id in Step(w, a).rows && Step(w, a).rows[a.id] == Row(a.event, Pending, 0, a.dueAt, None, None, None)
    ensures
      var r, v := w.rows[i], Step(w, a).rows[i];
      match a
      case Lease(d, seconds) =>
        var p := PhaseOf(w, d);
        v == if p.Listed? && seconds > 0 && (exists k :: 0 <= k < |p.events| && p.events[k].id == i)
             then Row(r.event, InFlight, r.attemptCount + 1, r.nextAttemptAt, Some(d), Some(p.now + seconds), r.lastError) else r
      case MarkPublished(d) =>
        var p := PhaseOf(w, d);
        v == if p.Draining? && p.todo == [] && i in p.sent && r.leaseOwner == Some(d) && (forall j | j in p.sent :: j !in LockedByOthers(w, d))
             then Row(r.event, Published, r.attemptCount, r.nextAttemptAt, None, None, None) else r
      case RecordFailure(d, cause) =>
        var p := PhaseOf(w, d);
        v == if p.Failing? && p.failed.id == i && r.leaseOwner == Some(d) && i !in LockedByOthers(w, d) then
               var n := p.failed.attemptCount;
               var error := Some(Truncated(cause, MAX_ERROR_LEN));
               if n + 1 >= w.maxAttempts then Row(r.event, DeadLetter, r.attemptCount, r.nextAttemptAt, None, None, error)
               else Row(r.event, Pending, r.attemptCount, p.now + (if n <= 8 then Pow2(n) else 300), None, None, error)
             else r
      case _ => v == r
  {
    hide Truncated, Backoff, Pow2, ListDue, ListExpired, LockedByOthers;
    if a.RecordFailure? && PhaseOf(w, a.d).Failing? { WaitAfter(PhaseOf(w, a.d).failed.attemptCount); }
  }

  /**
   Time. Without a reclaim an event that is dead-lettered had exactly MaxAttempts attempts, and the last
   one began no sooner after the event was due than all the waits between attempts add up to. No
   assumption on the drainers' clocks is needed.
   */
  lemma DeadLetterNeedsEveryWait(w: World, actions: seq<Action>, i: RowId)
    requires Initial(w) && i in Run(w, actions).rows && i in Run(w, actions).tally
    requires Run(w, actions).rows[i].status == DeadLetter && Run(w, actions).tally[i].reclaims == 0
    ensures
      var r, t := Run(w, actions).rows[i], Run(w, actions).tally[i];
      r.attemptCount == w.maxAttempts && t.claimedAt >= t.dueAt + Waits(w.maxAttempts - 1)
  {
    RunKeepsInv(w, actions);
    RunKeepsConfig(w, actions);
    assert RowOk(Run(w, actions), i);
  }

  /** The waits double from one second and stop at five minutes. */
  lemma {:induction false} WaitsClosedForm(n: nat)
    ensures Waits(n) == if n <= 9 then Pow2(n) - 1 else 511 + 300 * (n - 9)
  {
    if n > 0 {
      WaitsClosedForm(n - 1);
      if n >= 10 {
        Pow2Grows(9, n - 1);
      } else {
        Pow2Grows(n - 1, 8);
        assert Pow2(n) == 2 * Pow2(n - 1);
      }
      Pow2Table();
    }
  }

  lemma {:induction false} Pow2Grows(m: nat, n: nat)
    requires m <= n
    ensures Pow2(m) <= Pow2(n)
  {
    if m < n { Pow2Grows(m, n - 1); }
  }

  lemma Pow2Table()
    ensures Pow2(8) == 256 && Pow2(9) == 512
  {
    assert Pow2(1) == 2 && Pow2(2) == 4 && Pow2(3) == 8 && Pow2(4) == 16;
    assert Pow2(5) == 32 && Pow2(6) == 64 && Pow2(7) == 128;
  }

  /** Leases. A row has an owner and an expiry exactly while it is in flight, and open claims share no row. */
  lemma LeasesAndClaimsAreExclusive(w: World, actions: seq<Action>)
    requires Initial(w)
    ensures
      var v := Run(w, actions);
      && (forall i | i in v.rows ::
            && (v.rows[i].leaseOwner.Some? <==> v.rows[i].status == InFlight)
            && (v.rows[i].leaseExpiresAt.Some? <==> v.rows[i].status == InFlight))
      && (forall d, o | d in v.drainers && o in v.drainers && d != o :: Locks(v.drainers[d]) !! Locks(v.drainers[o]))
  {
    hide Run;
    RunKeepsInv(w, actions);
    var v := Run(w, actions);
    forall i | i in v.rows
      ensures v.rows[i].leaseOwner.Some? <==> v.rows[i].status == InFlight
      ensures v.rows[i].leaseExpiresAt.Some? <==> v.rows[i].status == InFlight
    {
      assert RowOk(v, i);
    }
  }

  // ---------------------------------------------------------------- nothing is lost

  /** A claim takes only rows that are due or expired, and so never a final one. */
  lemma LeaseKeepsFinal(w: World, d: Owner, seconds: nat, i: RowId)
    requires Inv(w) && PhaseOf(w, d).Listed? && i in w.rows && Final(w.rows[i].status)
    ensures i !in Ids(PhaseOf(w, d).events)
  {
    var p := PhaseOf(w, d);
    assert PhaseOk(w, d, p);
    forall k | 0 <= k < |p.events| ensures p.events[k].id != i { assert Fetched(w, p.events[k]); }
  }

  lemma FinalHasNoOwner(w: World, i: RowId)
    requires Inv(w) && i in w.rows && Final(w.rows[i].status)
    ensures w.rows[i].leaseOwner.None?
  {
    assert RowOk(w, i);
  }

  /** A row stays in the table with its event, and published and dead_letter are final. */
  lemma StepKeepsRows(w: World, a: Action, i: RowId)
    requires Inv(w) && i in w.rows
    ensures i in Step(w, a).rows && Step(w, a).rows[i].event == w.rows[i].event
    ensures Final(w.rows[i].status) ==> Step(w, a).rows[i] == w.rows[i]
  {
    hide Inv, ListDue, ListExpired, LockedByOthers, Backoff;
    if Final(w.rows[i].status) {
      FinalHasNoOwner(w, i);
      if a.Lease? && PhaseOf(w, a.d).Listed? { LeaseKeepsFinal(w, a.d, a.seconds, i); }
    }
  }

  lemma {:induction false} RunKeepsRows(w: World, actions: seq<Action>, i: RowId)
    requires Inv(w) && i in w.rows
    ensures Inv(Run(w, actions))
    ensures i in Run(w, actions).rows && Run(w, actions).rows[i].event == w.rows[i].event
    ensures Final(w.rows[i].status) ==> Run(w, actions).rows[i] == w.rows[i]
  {
    hide Inv, Step;
    if actions != [] {
      var before := actions[..|actions| - 1];
      RunKeepsRows(w, before, i);
      StepKeepsInv(Run(w, before), actions[|actions| - 1]);
      StepKeepsRows(Run(w, before), actions[|actions| - 1], i);
    }
  }

  /**
   An appended event is always in one of three conditions: still claimable, accepted by the publisher
   at least once, or given up after MaxAttempts attempts. Published without an acceptance is impossible. A row that waits for
   another attempt, or that is given up, says what the last failure was, in a text that fits its column.
   */
  lemma NoSilentLoss(w: World, actions: seq<Action>, i: RowId)
    requires Initial(w) && i in Run(w, actions).rows
    ensures i in Run(w, actions).tally
    ensures
      var r, t := Run(w, actions).rows[i], Run(w, actions).tally[i];
      match r.status
      case Pending => r.leaseOwner.None? && r.attemptCount < w.maxAttempts && (r.lastError.Some? <==> r.attemptCount > 0)
      case InFlight => r.leaseExpiresAt.Some? && Expired(r, r.leaseExpiresAt.value)
      case Published => t.accepted >= 1 && r.lastError.None?
      case DeadLetter => r.attemptCount >= w.maxAttempts && r.lastError.Some? && |r.lastError.value| <= MAX_ERROR_LEN
  {
    RunKeepsInv(w, actions);
    RunKeepsConfig(w, actions);
    assert RowOk(Run(w, actions), i);
  }

  predicate EventOfRow(w: World, e: Event) { exists i | i in w.rows :: w.rows[i].event == e }

  predicate HandedFromRows(w: World) {
    forall k | 0 <= k < |w.handed| :: EventOfRow(w, w.handed[k])
  }

  lemma StepKeepsHanded(w: World, a: Action)
    requires Inv(w) && HandedFromRows(w)
    ensures HandedFromRows(Step(w, a))
  {
    hide Inv, Step;
    var v := Step(w, a);
    HandedGrows(w, a);
    forall k | 0 <= k < |v.handed| ensures EventOfRow(v, v.handed[k]) {
      assert EventOfRow(w, v.handed[k]);
      var i :| i in w.rows && w.rows[i].event == v.handed[k];
      StepKeepsRows(w, a, i);
    }
  }

  /** What a step hands over is the event of a row. */
  lemma HandedGrows(w: World, a: Action)
    requires HandedFromRows(w)
    ensures forall k | 0 <= k < |Step(w, a).handed| :: EventOfRow(w, Step(w, a).handed[k])
  {
    var v := Step(w, a);
    if v.handed != w.handed {
      var c := PhaseOf(w, a.d).todo[0];
      assert v.handed == w.handed + [w.rows[c.id].event];
      assert EventOfRow(w, w.rows[c.id].event);
      assert forall k :: 0 <= k < |w.handed| ==> v.handed[k] == w.handed[k];
    }
  }

  lemma {:induction false} RunKeepsHanded(w: World, actions: seq<Action>)
    requires Initial(w)
    ensures HandedFromRows(Run(w, actions))
  {
    if actions != [] {
      RunKeepsHanded(w, actions[..|actions| - 1]);
      RunKeepsInv(w, actions[..|actions| - 1]);
      StepKeepsHanded(Run(w, actions[..|actions| - 1]), actions[|actions| - 1]);
    }
  }
}
