/** What every step of the outbox keeps. */
module OutboxInvariant {
  import opened Options
  import opened Ordering
  import opened ErrorText
  import opened SaleTypes
  import opened OutboxProtocol

  // ---------------------------------------------------------------- the invariant

  ghost predicate Distinct(events: seq<Claimed>) {
    forall j, k :: 0 <= j < k < |events| ==> events[j].id != events[k].id
  }

  /** A drainer that may still hand this row's event to the publisher, or has a refused publish to record. */
  ghost predicate Holds(p: Phase, i: RowId) {
    match p
    case Draining(_, todo, _) => i in Ids(todo)
    case Failing(_, failed, todo, _) => i == failed.id || i in Ids(todo)
    case _ => false
  }

  ghost function Holders(w: World, i: RowId): set<Owner> { set d | d in w.drainers && Holds(w.drainers[d], i) }

  ghost predicate LeaseOk(r: Row) {
    && (r.status == InFlight <==> r.leaseOwner.Some?)
    && (r.leaseOwner.Some? <==> r.leaseExpiresAt.Some?)
  }

  ghost predicate AttemptsOk(r: Row, t: Tally, maxAttempts: nat) {
    && r.attemptCount == t.claims
    && (r.status == Pending ==> r.attemptCount < maxAttempts)
    && (r.status != Pending ==> r.attemptCount >= 1)
    && r.attemptCount <= maxAttempts + t.reclaims
    && (r.status == Published ==> t.accepted >= 1)
    && (r.status == DeadLetter ==> r.attemptCount >= maxAttempts)
  }

  ghost predicate TimesOk(r: Row, t: Tally) {
    && t.claimedAt >= t.dueAt && r.nextAttemptAt >= t.dueAt
    && (r.leaseExpiresAt.Some? ==> r.leaseExpiresAt.value > t.claimedAt)
    && (t.reclaims == 0 ==>
          if r.status == Pending then r.nextAttemptAt >= t.dueAt + Waits(r.attemptCount)
          else r.attemptCount >= 1 && t.claimedAt >= t.dueAt + Waits(r.attemptCount - 1))
  }

  /** The error of the last recorded failure: a row that waits for another attempt or is given up says why, and its text fits. */
  ghost predicate ErrorOk(r: Row) {
    && (r.lastError.Some? ==> |r.lastError.value| <= MAX_ERROR_LEN)
    && (r.status == Pending ==> (r.lastError.Some? <==> r.attemptCount > 0))
    && (r.status == DeadLetter ==> r.lastError.Some?)
    && (r.status == Published ==> r.lastError.None?)
  }

  ghost predicate RowOk(w: World, i: RowId)
    requires i in w.rows && i in w.tally
  {
    LeaseOk(w.rows[i]) && AttemptsOk(w.rows[i], w.tally[i], w.maxAttempts) && TimesOk(w.rows[i], w.tally[i]) && ErrorOk(w.rows[i])
  }

  /** Each claim is one chance to be accepted: those used, those still held, and one per reclaim. */
  ghost predicate DeliveryOk(w: World, i: RowId)
    requires i in w.rows && i in w.tally
  {
    w.tally[i].accepted + |Holders(w, i)| <= w.tally[i].reclaims + if w.rows[i].status == Pending then 0 else 1
  }

  ghost predicate Fetched(w: World, c: Claimed) {
    c.id in w.rows && w.rows[c.id].attemptCount == c.attemptCount
  }

  ghost predicate HeldOk(w: World, d: Owner, now: int, c: Claimed) {
    && c.id in w.rows && c.id in w.tally
    && (w.rows[c.id].leaseOwner == Some(d) ==>
          w.rows[c.id].attemptCount == c.attemptCount + 1 && w.tally[c.id].claimedAt == now)
  }

  ghost predicate AllHeldOk(w: World, d: Owner, now: int, events: seq<Claimed>) {
    forall k :: 0 <= k < |events| ==> HeldOk(w, d, now, events[k])
  }

  ghost predicate SentOk(w: World, sent: seq<RowId>) {
    forall k :: 0 <= k < |sent| ==> sent[k] in w.rows && sent[k] in w.tally && w.tally[sent[k]].accepted >= 1
  }

  ghost predicate PhaseOk(w: World, d: Owner, p: Phase) {
    match p
    case Idle => true
    case Listing(now, batch, due) =>
      && Distinct(due) && |due| <= batch
      && (forall k :: 0 <= k < |due| ==> Fetched(w, due[k]) && Due(w.rows[due[k].id], now))
    case Listed(now, events) =>
      && Distinct(events)
      && (forall k :: 0 <= k < |events| ==>
            Fetched(w, events[k]) && (Due(w.rows[events[k].id], now) || Expired(w.rows[events[k].id], now)))
    case Draining(now, todo, sent) =>
      Distinct(todo) && AllHeldOk(w, d, now, todo) && SentOk(w, sent)
    case Failing(now, failed, todo, sent) =>
      && Distinct([failed] + todo) && HeldOk(w, d, now, failed) && AllHeldOk(w, d, now, todo) && SentOk(w, sent)
  }

  ghost predicate LocksDisjoint(w: World) {
    forall d, o | d in w.drainers && o in w.drainers && d != o :: Locks(w.drainers[d]) !! Locks(w.drainers[o])
  }

  ghost predicate Inv(w: World) {
    && w.maxAttempts > 0 && w.rows.Keys == w.tally.Keys
    && (forall i | i in w.rows :: RowOk(w, i))
    && (forall i | i in w.rows :: DeliveryOk(w, i))
    && (forall d | d in w.drainers :: PhaseOk(w, d, w.drainers[d]))
    && LocksDisjoint(w)
  }

  // ---------------------------------------------------------------- what a step leaves alone

  lemma HoldersAfter(w: World, v: World, d: Owner, p: Phase, i: RowId)
    requires v.drainers == w.drainers[d := p]
    ensures Holders(v, i) == (Holders(w, i) - {d}) + if Holds(p, i) then {d} else {}
    ensures |Holders(v, i)| ==
      |Holders(w, i)| - (if Holds(PhaseOf(w, d), i) then 1 else 0) + if Holds(p, i) then 1 else 0
  {
    assert Holders(v, i) == (Holders(w, i) - {d}) + if Holds(p, i) then {d} else {};
    assert d in Holders(w, i) <==> Holds(PhaseOf(w, d), i);
  }

  /** A step of d gives a row to d or to nobody, and touches no row that another claim has locked. */
  ghost predicate RowsStepBy(w: World, v: World, d: Owner) {
    && w.rows.Keys == w.tally.Keys && v.rows.Keys == w.rows.Keys == v.tally.Keys && v.maxAttempts == w.maxAttempts
    && (forall i | i in w.rows ::
          && (v.rows[i] == w.rows[i] || v.rows[i].leaseOwner == None || v.rows[i].leaseOwner == Some(d))
          && (i in LockedByOthers(w, d) ==> v.rows[i] == w.rows[i])
          && v.tally[i].accepted >= w.tally[i].accepted
          && (v.rows[i] == w.rows[i] ==> v.tally[i].claimedAt == w.tally[i].claimedAt))
  }

  lemma OtherKeepsPhase(w: World, v: World, d: Owner, o: Owner)
    requires RowsStepBy(w, v, d)
    requires o in w.drainers && o != d && PhaseOk(w, o, w.drainers[o])
    ensures PhaseOk(v, o, w.drainers[o])
  {
    var p := w.drainers[o];
    forall i | i in Locks(p) ensures i in LockedByOthers(w, d) {
    }
    if p.Listing? {
      assert forall k :: 0 <= k < |p.due| ==> p.due[k].id in Locks(p);
    } else if p.Listed? {
      assert forall k :: 0 <= k < |p.events| ==> p.events[k].id in Locks(p);
    }
  }

  lemma OthersKeepPhases(w: World, v: World, d: Owner, p: Phase)
    requires Inv(w) && RowsStepBy(w, v, d)
    requires v.drainers == w.drainers[d := p] && PhaseOk(v, d, p)
    ensures forall o | o in v.drainers :: PhaseOk(v, o, v.drainers[o])
  {
    forall o | o in v.drainers ensures PhaseOk(v, o, v.drainers[o]) {
      if o != d { OtherKeepsPhase(w, v, d, o); }
    }
  }

  lemma FewerLocks(w: World, v: World, d: Owner, p: Phase)
    requires LocksDisjoint(w) && v.drainers == w.drainers[d := p]
    requires Locks(p) <= Locks(PhaseOf(w, d))
    ensures LocksDisjoint(v)
  {
  }

  lemma MoreLocks(w: World, v: World, d: Owner, p: Phase)
    requires LocksDisjoint(w) && v.drainers == w.drainers[d := p]
    requires Locks(p) !! LockedByOthers(w, d)
    ensures LocksDisjoint(v)
  {
    forall o | o in w.drainers && o != d ensures Locks(p) !! Locks(w.drainers[o]) {
      assert Locks(w.drainers[o]) <= LockedByOthers(w, d);
    }
  }

  // ---------------------------------------------------------------- what a listing returns

  lemma ListingFacts(rows: Rows, ranks: set<Rank>, limit: nat)
    requires forall x | x in ranks :: x.minor in rows && x.minor >= 0
    requires forall x, y | x in ranks && y in ranks && x.minor == y.minor :: x == y
    ensures
      var events := ClaimedOf(rows, First(Sorted(ranks), limit));
      && |events| == Min(limit, |ranks|) && Distinct(events)
      && (forall k :: 0 <= k < |events| ==>
            && events[k].id in rows && rows[events[k].id].attemptCount == events[k].attemptCount
            && First(Sorted(ranks), limit)[k] in ranks && First(Sorted(ranks), limit)[k].minor == events[k].id)
  {
    SortedLists(ranks);
    var s := Sorted(ranks);
    var page := First(s, limit);
    FirstIsPrefix(s, limit);
    var events := ClaimedOf(rows, page);
    forall k | 0 <= k < |events|
      ensures events[k].id in rows && rows[events[k].id].attemptCount == events[k].attemptCount
      ensures page[k] in ranks && page[k].minor == events[k].id
    {
      assert page[k] in page;
    }
    forall j, k | 0 <= j < k < |events| ensures events[j].id != events[k].id {
      assert Less(s[j], s[k]);
      assert page[j] == s[j] && page[k] == s[k];
    }
  }

  lemma ListDueFacts(rows: Rows, now: int, locked: set<RowId>, limit: nat)
    ensures
      var events := ListDue(rows, now, locked, limit);
      && |events| <= limit && Distinct(events) && Ids(events) !! locked
      && (forall k :: 0 <= k < |events| ==>
            && events[k].id in rows && rows[events[k].id].attemptCount == events[k].attemptCount
            && Due(rows[events[k].id], now))
  {
    ListingFacts(rows, DueRanks(rows, now, locked), limit);
  }

  lemma ListExpiredFacts(rows: Rows, now: int, locked: set<RowId>, limit: nat)
    ensures
      var events := ListExpired(rows, now, locked, limit);
      && |events| <= limit && Distinct(events) && Ids(events) !! locked
      && (forall k :: 0 <= k < |events| ==>
            && events[k].id in rows && rows[events[k].id].attemptCount == events[k].attemptCount
            && Expired(rows[events[k].id], now))
  {
    ListingFacts(rows, ExpiredRanks(rows, now, locked), limit);
  }
}
