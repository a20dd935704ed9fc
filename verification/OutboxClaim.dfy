/**
 A claim as its three statements: the list of due events, the list of expired ones, and the lease. Other drainers and
 sales take any steps between them. What a claim has listed stays locked, so they leave it as it was.
 */
module OutboxClaim {
  import opened Options
  import opened Ordering
  import opened SaleTypes
  import opened OutboxProtocol
  import opened OutboxInvariant
  import opened OutboxSteps

  // ---------------------------------------------------------------- the steps of the others

  predicate By(a: Action, d: Owner) { !a.Append? && a.d == d }

  predicate NoneBy(actions: seq<Action>, d: Owner) {
    forall k | 0 <= k < |actions| :: !By(actions[k], d)
  }

  /** Where a drainer is changes by its own steps alone. */
  lemma StepLeavesPhase(w: World, a: Action, d: Owner)
    requires !By(a, d)
    ensures PhaseOf(Step(w, a), d) == PhaseOf(w, d)
  {
    hide ListDue, ListExpired, LockedByOthers, MarkRows, FailedRow;
  }

  /** What an open claim has listed is in the table, as it was listed. */
  lemma LockedIsListed(w: World, d: Owner, i: RowId)
    requires Inv(w) && i in Locks(PhaseOf(w, d))
    ensures i in w.rows
  {
    hide RowOk, DeliveryOk, LocksDisjoint;
    var p := PhaseOf(w, d);
    assert PhaseOk(w, d, p);
    var events := if p.Listing? then p.due else p.events;
    var k :| 0 <= k < |events| && events[k].id == i;
    assert Fetched(w, events[k]);
  }

  lemma LockedByMe(w: World, d: Owner, o: Owner, i: RowId)
    requires i in Locks(PhaseOf(w, d)) && o != d
    ensures i in LockedByOthers(w, o)
  {
    assert d in w.drainers;
  }

  lemma StepLeavesLocked(w: World, a: Action, d: Owner, i: RowId)
    requires Inv(w) && !By(a, d) && i in Locks(PhaseOf(w, d))
    ensures i in w.rows && i in Step(w, a).rows && Step(w, a).rows[i] == w.rows[i]
  {
    hide Inv, Locks, LockedByOthers;
    LockedIsListed(w, d, i);
    if !a.Append? {
      hide Step;
      LockedByMe(w, d, a.d, i);
      MyLocksAreMine(w, a.d);
      StepSparesOthers(w, a, i);
    }
  }

  lemma MyLocksAreMine(w: World, d: Owner)
    requires Inv(w)
    ensures Locks(PhaseOf(w, d)) !! LockedByOthers(w, d)
  {
    hide RowOk, DeliveryOk, PhaseOk;
    OwnLocksAreFree(w, d);
  }

  lemma StepSparesOthers(w: World, a: Action, i: RowId)
    requires !a.Append? && i in w.rows && i in LockedByOthers(w, a.d) && Locks(PhaseOf(w, a.d)) !! LockedByOthers(w, a.d)
    ensures i in Step(w, a).rows && Step(w, a).rows[i] == w.rows[i]
  {
    hide ListDue, ListExpired, LockedByOthers, FailedRow;
  }

  /** No step of the others changes a row that an open claim has listed, over any run of them. */
  lemma {:induction false} OthersLeaveMyRows(w: World, actions: seq<Action>, d: Owner)
    requires Inv(w) && NoneBy(actions, d)
    ensures Inv(Run(w, actions)) && PhaseOf(Run(w, actions), d) == PhaseOf(w, d)
    ensures forall i | i in Locks(PhaseOf(w, d)) :: i in w.rows && i in Run(w, actions).rows && Run(w, actions).rows[i] == w.rows[i]
  {
    hide Inv, Step, Locks;
    if actions == [] {
      forall i | i in Locks(PhaseOf(w, d)) ensures i in w.rows { LockedIsListed(w, d, i); }
    } else {
      var n := |actions| - 1;
      var before := Run(w, actions[..n]);
      OthersLeaveMyRows(w, actions[..n], d);
      StepKeepsInv(before, actions[n]);
      StepLeavesPhase(before, actions[n], d);
      forall i | i in Locks(PhaseOf(w, d)) ensures i in Step(before, actions[n]).rows && Step(before, actions[n]).rows[i] == w.rows[i] {
        StepLeavesLocked(before, actions[n], d, i);
      }
    }
  }

  // ---------------------------------------------------------------- the claim

  /** The due events that the first statement lists. */
  function DueOf(first: World, d: Owner, now: int, batch: nat, busy: set<RowId>): seq<Claimed> {
    ListDue(first.rows, now, LockedByOthers(first, d) + busy, batch)
  }

  /** The expired events that the second statement lists, when the first has left room. */
  function ExpiredOf(second: World, d: Owner, now: int, room: int, busy: set<RowId>): seq<Claimed> {
    if room <= 0 then [] else ListExpired(second.rows, now, LockedByOthers(second, d) + busy, room)
  }

  /** The batch of a claim whose two lists are of these two states. */
  function BatchOf(first: World, second: World, d: Owner, now: int, batch: nat, busy: set<RowId>, alsoBusy: set<RowId>): seq<Claimed> {
    var due := DueOf(first, d, now, batch, busy);
    due + ExpiredOf(second, d, now, batch - |due|, alsoBusy)
  }

  lemma BatchIs(first: World, second: World, d: Owner, now: int, batch: nat, busy: set<RowId>, alsoBusy: set<RowId>)
    ensures
      var due := DueOf(first, d, now, batch, busy);
      BatchOf(first, second, d, now, batch, busy, alsoBusy) == due + ExpiredOf(second, d, now, batch - |due|, alsoBusy)
  {
  }

  lemma PageAscends(ranks: set<Rank>, limit: nat)
    ensures Ascending(First(Sorted(ranks), limit))
  {
    hide Sorted, Less;
    SortedLists(ranks);
    FirstIsPrefix(Sorted(ranks), limit);
  }

  /**
   ListDuePendingOutboxEvents, on the columns: rows that nobody has locked, pending and due, in the order of next_attempt_at and then
   id. One that is not listed comes after all that are, and the limit is reached.
   */
  lemma DueListIsTheFirst(rows: Rows, now: int, locked: set<RowId>, limit: nat)
    ensures
      var events := ListDue(rows, now, locked, limit);
      && |events| <= limit
      && (forall k | 0 <= k < |events| ::
            && events[k].id in rows && events[k].id !in locked && events[k].attemptCount == rows[events[k].id].attemptCount
            && rows[events[k].id].status == Pending && rows[events[k].id].nextAttemptAt <= now)
      && (forall j, k | 0 <= j < k < |events| ::
            || rows[events[j].id].nextAttemptAt < rows[events[k].id].nextAttemptAt
            || (rows[events[j].id].nextAttemptAt == rows[events[k].id].nextAttemptAt && events[j].id < events[k].id))
      && (forall i | i in rows && i !in locked && rows[i].status == Pending && rows[i].nextAttemptAt <= now && i !in Ids(events) ::
            && |events| == limit
            && forall k | 0 <= k < |events| ::
                 || rows[events[k].id].nextAttemptAt < rows[i].nextAttemptAt
                 || (rows[events[k].id].nextAttemptAt == rows[i].nextAttemptAt && events[k].id < i))
  {
    var ranks := DueRanks(rows, now, locked);
    var page, events := First(Sorted(ranks), limit), ListDue(rows, now, locked, limit);
    ListDueFacts(rows, now, locked, limit);
    PageOfRanks(ranks, limit);
    PageAscends(ranks, limit);
    hide Sorted, First;
    forall k | 0 <= k < |events|
      ensures events[k].id in rows && page[k] == Rank(rows[events[k].id].nextAttemptAt, events[k].id, 0) && events[k].id !in locked
    {
      assert page[k] in ranks;
    }
    forall i | i in rows && i !in locked && rows[i].status == Pending && rows[i].nextAttemptAt <= now && i !in Ids(events)
      ensures |events| == limit && forall k | 0 <= k < |events| :: Less(page[k], Rank(rows[i].nextAttemptAt, i, 0))
    {
      var x := Rank(rows[i].nextAttemptAt, i, 0);
      assert x in ranks;
      NotInPage(page, events, x, i);
      LeftOut(ranks, limit, x);
    }
  }

  /** ListExpiredOutboxEvents: the same for rows in flight whose lease has ended, in the order of lease_expires_at and then id. */
  lemma ExpiredListIsTheFirst(rows: Rows, now: int, locked: set<RowId>, limit: nat)
    ensures
      var events := ListExpired(rows, now, locked, limit);
      && |events| <= limit
      && (forall k | 0 <= k < |events| ::
            && events[k].id in rows && events[k].id !in locked && events[k].attemptCount == rows[events[k].id].attemptCount
            && rows[events[k].id].status == InFlight && rows[events[k].id].leaseExpiresAt.Some?
            && rows[events[k].id].leaseExpiresAt.value <= now)
      && (forall j, k | 0 <= j < k < |events| ::
            || rows[events[j].id].leaseExpiresAt.value < rows[events[k].id].leaseExpiresAt.value
            || (rows[events[j].id].leaseExpiresAt == rows[events[k].id].leaseExpiresAt && events[j].id < events[k].id))
      && (forall i | i in rows && i !in locked && rows[i].status == InFlight && rows[i].leaseExpiresAt.Some?
                     && rows[i].leaseExpiresAt.value <= now && i !in Ids(events) ::
            && |events| == limit
            && forall k | 0 <= k < |events| ::
                 || rows[events[k].id].leaseExpiresAt.value < rows[i].leaseExpiresAt.value
                 || (rows[events[k].id].leaseExpiresAt == rows[i].leaseExpiresAt && events[k].id < i))
  {
    var ranks := ExpiredRanks(rows, now, locked);
    var page, events := First(Sorted(ranks), limit), ListExpired(rows, now, locked, limit);
    ListExpiredFacts(rows, now, locked, limit);
    PageOfRanks(ranks, limit);
    PageAscends(ranks, limit);
    hide Sorted, First;
    forall k | 0 <= k < |events|
      ensures && events[k].id in rows && events[k].id !in locked && rows[events[k].id].leaseExpiresAt.Some?
              && page[k] == Rank(rows[events[k].id].leaseExpiresAt.value, events[k].id, 0)
    {
      assert page[k] in ranks;
    }
    forall i | i in rows && i !in locked && rows[i].status == InFlight && rows[i].leaseExpiresAt.Some?
               && rows[i].leaseExpiresAt.value <= now && i !in Ids(events)
      ensures |events| == limit && forall k | 0 <= k < |events| :: Less(page[k], Rank(rows[i].leaseExpiresAt.value, i, 0))
    {
      var x := Rank(rows[i].leaseExpiresAt.value, i, 0);
      assert x in ranks;
      NotInPage(page, events, x, i);
      LeftOut(ranks, limit, x);
    }
  }

  /** A claim leaves a due row, or an expired one, out of its batch only when that is full. */
  lemma BatchIsFullOrAll(first: World, second: World, d: Owner, now: int, batch: nat, busy: set<RowId>, alsoBusy: set<RowId>, i: RowId)
    requires i !in Ids(BatchOf(first, second, d, now, batch, busy, alsoBusy))
    requires
      || (i in first.rows && i !in LockedByOthers(first, d) + busy && first.rows[i].status == Pending && first.rows[i].nextAttemptAt <= now)
      || (i in second.rows && i !in LockedByOthers(second, d) + alsoBusy && second.rows[i].status == InFlight
          && second.rows[i].leaseExpiresAt.Some? && second.rows[i].leaseExpiresAt.value <= now)
    ensures |BatchOf(first, second, d, now, batch, busy, alsoBusy)| >= batch
  {
    var due := DueOf(first, d, now, batch, busy);
    var expired := ExpiredOf(second, d, now, batch - |due|, alsoBusy);
    IdsConcat(due, expired);
    DueListIsTheFirst(first.rows, now, LockedByOthers(first, d) + busy, batch);
    if |due| < batch { ExpiredListIsTheFirst(second.rows, now, LockedByOthers(second, d) + alsoBusy, batch - |due|); }
    hide ListDue, ListExpired, LockedByOthers, Ids;
  }

  lemma PageOfRanks(ranks: set<Rank>, limit: nat)
    ensures forall k | 0 <= k < |First(Sorted(ranks), limit)| :: First(Sorted(ranks), limit)[k] in ranks
  {
    hide Sorted;
    SortedLists(ranks);
    FirstIsPrefix(Sorted(ranks), limit);
    var page := First(Sorted(ranks), limit);
    forall k | 0 <= k < |page| ensures page[k] in ranks { assert page[k] in page; }
  }

  lemma NotInPage(page: seq<Rank>, events: seq<Claimed>, x: Rank, i: RowId)
    requires |page| == |events| && (forall k | 0 <= k < |events| :: page[k].minor == events[k].id) && x.minor == i && i !in Ids(events)
    ensures x !in page
  {
    forall k | 0 <= k < |page| ensures page[k] != x { assert events[k].id in Ids(events); }
  }

  lemma LeftOut(ranks: set<Rank>, limit: nat, x: Rank)
    requires x in ranks && x !in First(Sorted(ranks), limit)
    ensures |First(Sorted(ranks), limit)| == limit
    ensures forall k | 0 <= k < |First(Sorted(ranks), limit)| :: Less(First(Sorted(ranks), limit)[k], x)
  {
    hide Sorted, Less;
    SortedLists(ranks);
    FirstSplits(Sorted(ranks), limit, x);
    var page := First(Sorted(ranks), limit);
    forall k | 0 <= k < |page| ensures Less(page[k], x) { assert page[k] in page; }
  }

  /** Each of these events is still the row it was when it was listed. */
  ghost predicate Unchanged(listed: World, now: World, events: seq<Claimed>) {
    forall k :: 0 <= k < |events| ==>
      && events[k].id in listed.rows && events[k].id in now.rows && now.rows[events[k].id] == listed.rows[events[k].id]
      && listed.rows[events[k].id].attemptCount == events[k].attemptCount
  }

  lemma DueStep(w: World, d: Owner, now: int, batch: nat, busy: set<RowId>)
    requires Inv(w) && PhaseOf(w, d).Idle? && batch > 0
    ensures
      var v, due := Step(w, ClaimDue(d, now, batch, busy)), DueOf(w, d, now, batch, busy);
      Inv(v) && PhaseOf(v, d) == Listing(now, batch, due) && v.rows == w.rows && |due| <= batch && Unchanged(w, w, due)
  {
    hide Inv, ListDue, LockedByOthers;
    StepKeepsInv(w, ClaimDue(d, now, batch, busy));
    ListDueFacts(w.rows, now, LockedByOthers(w, d) + busy, batch);
  }

  lemma ExpiredStep(w: World, d: Owner, now: int, batch: nat, due: seq<Claimed>, busy: set<RowId>)
    requires Inv(w) && PhaseOf(w, d) == Listing(now, batch, due) && |due| <= batch
    ensures
      var v, expired := Step(w, ClaimExpired(d, busy)), ExpiredOf(w, d, now, batch - |due|, busy);
      && Inv(v) && PhaseOf(v, d) == Listed(now, due + expired) && v.rows == w.rows
      && |due + expired| <= batch && Unchanged(w, w, expired)
  {
    hide Inv, ListExpired, LockedByOthers;
    StepKeepsInv(w, ClaimExpired(d, busy));
    if |due| < batch { ListExpiredFacts(w.rows, now, LockedByOthers(w, d) + busy, batch - |due|); }
    assert due + [] == due;
  }

  lemma LeaseOfListed(w: World, d: Owner, now: int, events: seq<Claimed>, seconds: nat)
    requires PhaseOf(w, d) == Listed(now, events) && seconds > 0
    ensures
      var v := Step(w, Lease(d, seconds));
      && v.rows == LeaseRows(w.rows, Ids(events), d, now + seconds)
      && PhaseOf(v, d) == if events == [] then Idle else Draining(now, events, [])
  {
    assert events == [] ==> LeaseRows(w.rows, {}, d, now + seconds) == w.rows;
  }

  lemma StillUnchanged(listed: World, middle: World, now: World, events: seq<Claimed>, locked: set<RowId>)
    requires Unchanged(listed, middle, events) && Ids(events) <= locked
    requires forall i | i in locked :: i in middle.rows && i in now.rows && now.rows[i] == middle.rows[i]
    ensures Unchanged(listed, now, events)
  {
    forall k | 0 <= k < |events|
      ensures events[k].id in now.rows && now.rows[events[k].id] == listed.rows[events[k].id]
    {
      assert events[k].id in Ids(events);
    }
  }

  /**
   A claim, whatever others do between its statements: its batch is the first due rows of the state at its first statement,
   and the first expired ones of the state at its second, up to the batch size and without those that other claims hold or
   that the database skips as locked. Nothing changes a row between its listing and the lease, and the lease takes exactly
   the batch, each row once.
   */
  lemma ClaimTakesTheLists(w: World, between: seq<Action>, after: seq<Action>, d: Owner, now: int, batch: nat,
                           busy: set<RowId>, alsoBusy: set<RowId>, seconds: nat)
    requires Inv(w) && PhaseOf(w, d).Idle? && batch > 0 && seconds > 0
    requires NoneBy(between, d) && NoneBy(after, d)
    ensures
      var second := Run(Step(w, ClaimDue(d, now, batch, busy)), between);
      var third := Run(Step(second, ClaimExpired(d, alsoBusy)), after);
      var v := Step(third, Lease(d, seconds));
      var due := DueOf(w, d, now, batch, busy);
      var expired := ExpiredOf(second, d, now, batch - |due|, alsoBusy);
      var events := BatchOf(w, second, d, now, batch, busy, alsoBusy);
      && |events| <= batch && Distinct(events)
      && Unchanged(w, third, due) && Unchanged(second, third, expired)
      && PhaseOf(third, d) == Listed(now, events)
      && v.rows == LeaseRows(third.rows, Ids(events), d, now + seconds)
      && PhaseOf(v, d) == if events == [] then Idle else Draining(now, events, [])
  {
    hide Inv, Step, Run, DueOf, ExpiredOf, Distinct, NoneBy, Unchanged, LeaseRows;
    DueStep(w, d, now, batch, busy);
    var w1, due := Step(w, ClaimDue(d, now, batch, busy)), DueOf(w, d, now, batch, busy);
    OthersLeaveMyRows(w1, between, d);
    var second := Run(w1, between);
    UnchangedRows(w, w1, due);
    StillUnchanged(w, w1, second, due, Ids(due));
    ExpiredStep(second, d, now, batch, due, alsoBusy);
    var w3, expired := Step(second, ClaimExpired(d, alsoBusy)), ExpiredOf(second, d, now, batch - |due|, alsoBusy);
    OthersLeaveMyRows(w3, after, d);
    var third, events := Run(w3, after), due + expired;
    IdsConcat(due, expired);
    UnchangedRowsTo(w, second, w3, due);
    StillUnchanged(w, w3, third, due, Ids(events));
    UnchangedRows(second, w3, expired);
    StillUnchanged(second, w3, third, expired, Ids(events));
    ListedIsDistinct(third, d);
    LeaseOfListed(third, d, now, events, seconds);
  }

  lemma UnchangedRows(w: World, v: World, events: seq<Claimed>)
    requires Unchanged(w, w, events) && v.rows == w.rows
    ensures Unchanged(w, v, events)
  {
  }

  lemma UnchangedRowsTo(listed: World, w: World, v: World, events: seq<Claimed>)
    requires Unchanged(listed, w, events) && v.rows == w.rows
    ensures Unchanged(listed, v, events)
  {
  }

  lemma ListedIsDistinct(w: World, d: Owner)
    requires Inv(w) && PhaseOf(w, d).Listed?
    ensures Distinct(PhaseOf(w, d).events)
  {
    hide RowOk, DeliveryOk, LocksDisjoint;
    assert PhaseOk(w, d, PhaseOf(w, d));
  }
}
