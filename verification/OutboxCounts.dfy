/** What a run counts of one row: the claims past MaxAttempts, and the turns that were completed. */
module OutboxCounts {
  import opened Options
  import opened SaleTypes
  import opened OutboxProtocol
  import opened OutboxInvariant
  import opened OutboxSteps
  import opened OutboxTheorems

  /** The step leases this row. */
  predicate Leases(w: World, a: Action, i: RowId) {
    a.Lease? && a.seconds > 0 && PhaseOf(w, a.d).Listed? && i in Ids(PhaseOf(w, a.d).events)
  }

  /** The step leases this row, which has already had MaxAttempts attempts. */
  predicate LateClaim(w: World, a: Action, i: RowId) {
    Leases(w, a, i) && i in w.rows && w.rows[i].attemptCount >= w.maxAttempts
  }

  /** The row is in flight before the step and not after it: its attempt has been recorded. */
  predicate Completes(w: World, a: Action, i: RowId) {
    i in w.rows && w.rows[i].status == InFlight && i in Step(w, a).rows && Step(w, a).rows[i].status != InFlight
  }

  function LateClaims(w: World, actions: seq<Action>, i: RowId): nat {
    if actions == [] then 0
    else
      var n := |actions| - 1;
      LateClaims(w, actions[..n], i) + if LateClaim(Run(w, actions[..n]), actions[n], i) then 1 else 0
  }

  function Completions(w: World, actions: seq<Action>, i: RowId): nat {
    if actions == [] then 0
    else
      var n := |actions| - 1;
      Completions(w, actions[..n], i) + if Completes(Run(w, actions[..n]), actions[n], i) then 1 else 0
  }

  // ---------------------------------------------------------------- one step

  /** What is leased was due or expired, and one that was due had attempts left. */
  lemma LeasedWas(w: World, a: Action, i: RowId)
    requires Inv(w) && Leases(w, a, i)
    ensures i in w.rows && (w.rows[i].status == Pending || w.rows[i].status == InFlight)
    ensures w.rows[i].status == Pending ==> w.rows[i].attemptCount < w.maxAttempts
  {
    hide DeliveryOk, LocksDisjoint, TimesOk, LeaseOk;
    var p := PhaseOf(w, a.d);
    assert PhaseOk(w, a.d, p);
    var k :| 0 <= k < |p.events| && p.events[k].id == i;
    assert Fetched(w, p.events[k]);
    assert RowOk(w, i);
  }

  /** Claims and reclaims count the leases of the row, and only a lease puts it in flight. */
  lemma StepCounts(w: World, a: Action, i: RowId)
    requires w.rows.Keys == w.tally.Keys && i in w.rows
    ensures
      var v := Step(w, a);
      && i in v.rows && i in v.tally
      && v.rows[i].attemptCount == w.rows[i].attemptCount + (if Leases(w, a, i) then 1 else 0)
      && v.tally[i].reclaims == w.tally[i].reclaims + (if Leases(w, a, i) && w.rows[i].status == InFlight then 1 else 0)
      && (Leases(w, a, i) ==> v.rows[i].status == InFlight)
      && (!Leases(w, a, i) && v.rows[i].status == InFlight ==> w.rows[i].status == InFlight)
  {
    hide ListDue, ListExpired, LockedByOthers, Backoff;
  }

  lemma AppendedCounts(w: World, a: Action, i: RowId)
    requires w.rows.Keys == w.tally.Keys && i !in w.rows && i in Step(w, a).rows
    ensures
      var v := Step(w, a);
      i in v.tally && v.rows[i].attemptCount == 0 && v.tally[i].reclaims == 0 && v.rows[i].status == Pending
  {
    hide ListDue, ListExpired, LockedByOthers, FailedRow;
  }

  /**
   Which step takes a row past MaxAttempts: in every state a run can reach, exactly the lease of one that has had
   MaxAttempts attempts, and that row was in flight. The reclaim of an expired lease does not look at the count.
   */
  lemma PassesLimitIff(w: World, a: Action, i: RowId)
    requires Inv(w) && i in w.rows && w.rows[i].attemptCount <= w.maxAttempts
    ensures i in Step(w, a).rows
    ensures Step(w, a).rows[i].attemptCount > w.maxAttempts <==> Leases(w, a, i) && w.rows[i].attemptCount == w.maxAttempts
    ensures Step(w, a).rows[i].attemptCount > w.maxAttempts ==> w.rows[i].status == InFlight
  {
    hide Step, Leases, RowOk, DeliveryOk, PhaseOk, LocksDisjoint;
    StepCounts(w, a, i);
    if Leases(w, a, i) { LeasedWas(w, a, i); }
  }

  // ---------------------------------------------------------------- whole runs

  /** What the counts of a run are, after it. */
  ghost predicate Counted(v: World, i: RowId, late: nat, completions: nat) {
    if i !in v.rows || i !in v.tally then late == 0 && completions == 0
    else
      && (if late == 0 then v.rows[i].attemptCount <= v.maxAttempts else v.rows[i].attemptCount == v.maxAttempts + late)
      && late <= v.tally[i].reclaims
      && v.rows[i].attemptCount == completions + v.tally[i].reclaims + (if v.rows[i].status == InFlight then 1 else 0)
      && completions <= v.maxAttempts && (!Final(v.rows[i].status) ==> completions < v.maxAttempts)
  }

  lemma CountedStep(w: World, a: Action, i: RowId, late: nat, completions: nat)
    requires Inv(w) && Counted(w, i, late, completions)
    ensures Counted(Step(w, a), i, late + (if LateClaim(w, a, i) then 1 else 0), completions + (if Completes(w, a, i) then 1 else 0))
  {
    hide Step, Leases, Inv;
    StepKeepsInv(w, a);
    StepKeepsConfig(w, a);
    var v := Step(w, a);
    SameKeys(w);
    if i !in w.rows {
      if Leases(w, a, i) { LeasedWas(w, a, i); }
      if i in v.rows { AppendedCounts(w, a, i); HasAttempts(v); }
    } else {
      StepCounts(w, a, i);
      if Leases(w, a, i) { LeasedWas(w, a, i); }
      if Final(w.rows[i].status) { StepKeepsRows(w, a, i); }
      PendingHasAttemptsLeft(v, i);
    }
  }

  lemma SameKeys(w: World)
    requires Inv(w)
    ensures w.rows.Keys == w.tally.Keys
  {
    hide RowOk, DeliveryOk, PhaseOk, LocksDisjoint;
  }

  lemma HasAttempts(w: World)
    requires Inv(w)
    ensures w.maxAttempts > 0
  {
    hide RowOk, DeliveryOk, PhaseOk, LocksDisjoint;
  }

  lemma PendingHasAttemptsLeft(w: World, i: RowId)
    requires Inv(w) && i in w.rows
    ensures w.rows[i].status == Pending ==> w.rows[i].attemptCount < w.maxAttempts
  {
    hide DeliveryOk, PhaseOk, LocksDisjoint, TimesOk, LeaseOk;
    assert RowOk(w, i);
  }

  lemma {:induction false} RunCounts(w: World, actions: seq<Action>, i: RowId)
    requires Initial(w)
    ensures Counted(Run(w, actions), i, LateClaims(w, actions, i), Completions(w, actions, i))
    ensures Run(w, actions).maxAttempts == w.maxAttempts
  {
    hide Step, Inv, Counted, LateClaim, Completes;
    if actions == [] {
      NothingCounted(w, i);
    } else {
      var n := |actions| - 1;
      RunCounts(w, actions[..n], i);
      RunKeepsInv(w, actions[..n]);
      CountedStep(Run(w, actions[..n]), actions[n], i, LateClaims(w, actions[..n], i), Completions(w, actions[..n], i));
      StepKeepsConfig(Run(w, actions[..n]), actions[n]);
    }
  }

  lemma NothingCounted(w: World, i: RowId)
    requires w.rows == map[]
    ensures Counted(w, i, 0, 0)
  {
  }

  /**
   attempt_count is not kept to MaxAttempts: over every run a row is past it if and only if a lease took it there, and
   then it is past it by the number of those leases. Each of them is a reclaim.
   */
  lemma PastTheLimitIff(w: World, actions: seq<Action>, i: RowId)
    requires Initial(w) && i in Run(w, actions).rows
    ensures i in Run(w, actions).tally
    ensures
      var v, late := Run(w, actions), LateClaims(w, actions, i);
      && (v.rows[i].attemptCount > w.maxAttempts <==> late > 0)
      && (late > 0 ==> v.rows[i].attemptCount == w.maxAttempts + late)
      && late <= v.tally[i].reclaims
  {
    hide Run, Inv;
    RunCounts(w, actions, i);
    RunKeepsInv(w, actions);
    SameKeys(Run(w, actions));
  }

  /**
   Every claim of a row was completed, was reclaimed from whoever made it, or is still in flight. MaxAttempts completed
   turns end the row, whatever was reclaimed in between: with fewer it may be open, with that many it is published or
   dead-lettered, and no row is ever given more.
   */
  lemma CompletedTurnsEndIt(w: World, actions: seq<Action>, i: RowId)
    requires Initial(w) && i in Run(w, actions).rows
    ensures i in Run(w, actions).tally
    ensures
      var v, completed := Run(w, actions), Completions(w, actions, i);
      && v.tally[i].claims == completed + v.tally[i].reclaims + (if v.rows[i].status == InFlight then 1 else 0)
      && completed <= w.maxAttempts && (completed == w.maxAttempts ==> Final(v.rows[i].status))
  {
    hide Run, Inv;
    RunCounts(w, actions, i);
    RunKeepsInv(w, actions);
    SameKeys(Run(w, actions));
    ClaimsAreAttempts(Run(w, actions), i);
  }

  lemma ClaimsAreAttempts(w: World, i: RowId)
    requires Inv(w) && i in w.rows && i in w.tally
    ensures w.rows[i].attemptCount == w.tally[i].claims
  {
    hide DeliveryOk, PhaseOk, LocksDisjoint, TimesOk, LeaseOk;
    assert RowOk(w, i);
  }
}
