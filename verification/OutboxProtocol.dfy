/**
 The transactional outbox as a state machine.

 Any number of drainers claim rows under leases, publish them outside any transaction and record the
 results under an owner guard. Every step below is one committed statement, one statement of an open
 claim, or one call to the publisher. A drainer may stop between any two of its steps: a crash, a
 database error or a rollback. Steps that a database would block, and steps that a drainer is not at,
 leave the world as it is, so a run is any sequence of actions.

 Live drainers have distinct owners, and share one MaxAttempts. Times are whole seconds on each
 drainer's own clock. The publication time of a row is not kept.
 */
module OutboxProtocol {
  import opened Options
  import opened Ordering
  import opened ErrorText
  import opened SaleTypes

  type Owner = string
  type RowId = nat

  datatype Status = Pending | InFlight | Published | DeadLetter

  /** A row of the outbox table. */
  datatype Row = Row(
    event: Event, status: Status, attemptCount: nat, nextAttemptAt: int,
    leaseOwner: Option<Owner>, leaseExpiresAt: Option<int>, lastError: Option<Text>)

  type Rows = map<RowId, Row>

  // ---------------------------------------------------------------- the statements

  /** InsertOutboxEvent. */
  function Inserted(e: Event, dueAt: int): Row { Row(e, Pending, 0, dueAt, None, None, None) }

  /** LeaseOutboxEvents. */
  function Leased(r: Row, owner: Owner, expires: int): Row {
    r.(status := InFlight, leaseOwner := Some(owner), leaseExpiresAt := Some(expires), attemptCount := r.attemptCount + 1)
  }

  function LeaseRows(rows: Rows, ids: set<RowId>, owner: Owner, expires: int): Rows {
    map i | i in rows :: if i in ids then Leased(rows[i], owner, expires) else rows[i]
  }

  /** MarkOutboxEventsPublished, on one row. */
  function MarkedPublished(r: Row, owner: Owner): Row {
    if r.leaseOwner == Some(owner) then r.(status := Published, leaseOwner := None, leaseExpiresAt := None, lastError := None)
    else r
  }

  function MarkRows(rows: Rows, ids: set<RowId>, owner: Owner): Rows {
    map i | i in rows :: if i in ids then MarkedPublished(rows[i], owner) else rows[i]
  }

  /** MarkOutboxRetry. */
  function Retried(r: Row, owner: Owner, nextAttemptAt: int, error: Text): Row {
    if r.leaseOwner == Some(owner) then
      r.(status := Pending, nextAttemptAt := nextAttemptAt, leaseOwner := None, leaseExpiresAt := None, lastError := Some(error))
    else r
  }

  /** MarkOutboxDeadLetter. */
  function DeadLettered(r: Row, owner: Owner, error: Text): Row {
    if r.leaseOwner == Some(owner) then
      r.(status := DeadLetter, leaseOwner := None, leaseExpiresAt := None, lastError := Some(error))
    else r
  }

  predicate Due(r: Row, now: int) { r.status == Pending && r.nextAttemptAt <= now }

  predicate Expired(r: Row, now: int) {
    r.status == InFlight && r.leaseExpiresAt.Some? && r.leaseExpiresAt.value <= now
  }

  /** ListDuePendingOutboxEvents and ListExpiredOutboxEvents: ordered, limited, skipping locked rows. */
  function DueRanks(rows: Rows, now: int, locked: set<RowId>): set<Rank> {
    set i | i in rows && i !in locked && Due(rows[i], now) :: Rank(rows[i].nextAttemptAt, i, 0)
  }

  function ExpiredRanks(rows: Rows, now: int, locked: set<RowId>): set<Rank> {
    set i | i in rows && i !in locked && Expired(rows[i], now) :: Rank(rows[i].leaseExpiresAt.value, i, 0)
  }

  /** A claimed event: its row and the attempts made before this claim. */
  datatype Claimed = Claimed(id: RowId, attemptCount: nat)

  function ClaimedOf(rows: Rows, ranks: seq<Rank>): seq<Claimed> {
    seq(|ranks|, k requires 0 <= k < |ranks| =>
      var i := ranks[k].minor;
      if i in rows then Claimed(i, rows[i].attemptCount) else Claimed(0, 0))
  }

  function ListDue(rows: Rows, now: int, locked: set<RowId>, limit: nat): seq<Claimed> {
    ClaimedOf(rows, First(Sorted(DueRanks(rows, now, locked)), limit))
  }

  function ListExpired(rows: Rows, now: int, locked: set<RowId>, limit: nat): seq<Claimed> {
    ClaimedOf(rows, First(Sorted(ExpiredRanks(rows, now, locked)), limit))
  }

  // ---------------------------------------------------------------- backoff

  const MAX_BACKOFF: nat := 300

  function Pow2(n: nat): nat { if n == 0 then 1 else 2 * Pow2(n - 1) }

  /** The wait after the given number of attempts, in seconds. */
  function Backoff(attempts: nat): nat {
    if attempts == 0 then 1 else Min(Pow2(attempts - 1), MAX_BACKOFF)
  }

  /** The waits after attempts 1 to n, together. */
  function Waits(n: nat): nat { if n == 0 then 0 else Waits(n - 1) + Backoff(n) }

  // ---------------------------------------------------------------- the drainers

  /**
   Where a drainer is in DrainOnce. Listing and Listed hold the locks of an open claim transaction.
   Draining has todo left to publish and sent waiting for its mark. Failing has one event whose publish
   was refused and not yet recorded.
   */
  datatype Phase =
    | Idle
    | Listing(now: int, batch: nat, due: seq<Claimed>)
    | Listed(now: int, events: seq<Claimed>)
    | Draining(now: int, todo: seq<Claimed>, sent: seq<RowId>)
    | Failing(now: int, failed: Claimed, todo: seq<Claimed>, sent: seq<RowId>)

  /** What no column records: how often a row was claimed, reclaimed and accepted, and when. */
  datatype Tally = Tally(claims: nat, reclaims: nat, accepted: nat, dueAt: int, claimedAt: int)

  datatype World = World(
    maxAttempts: nat, rows: Rows, tally: map<RowId, Tally>, drainers: map<Owner, Phase>,
    handed: seq<Event>) // every event given to the publisher, accepted or not

  function PhaseOf(w: World, d: Owner): Phase { if d in w.drainers then w.drainers[d] else Idle }

  function Ids(events: seq<Claimed>): set<RowId> { set k | 0 <= k < |events| :: events[k].id }

  /** The rows an open claim has locked. */
  function Locks(p: Phase): set<RowId> {
    match p
    case Listing(_, _, due) => Ids(due)
    case Listed(_, events) => Ids(events)
    case _ => {}
  }

  function LockedByOthers(w: World, d: Owner): set<RowId> {
    set o, i | o in w.drainers && o != d && i in Locks(w.drainers[o]) :: i
  }

  datatype Action =
    | Append(id: RowId, event: Event, dueAt: int)
    | ClaimDue(d: Owner, now: int, batch: nat, skipped: set<RowId>)
    | ClaimExpired(d: Owner, skipped: set<RowId>)
    | Lease(d: Owner, seconds: nat)
    | Publish(d: Owner, accepted: bool)
    | RecordFailure(d: Owner, cause: Text)
    | MarkPublished(d: Owner)
    | Stop(d: Owner)

  function At(w: World, d: Owner, p: Phase): World { w.(drainers := w.drainers[d := p]) }

  function ClaimTally(r: Row, t: Tally, now: int): Tally {
    t.(claims := t.claims + 1, reclaims := t.reclaims + if r.status == InFlight then 1 else 0, claimedAt := now)
  }

  function LeaseStep(w: World, d: Owner, now: int, events: seq<Claimed>, seconds: nat): World {
    var ids := Ids(events);
    World(w.maxAttempts, LeaseRows(w.rows, ids, d, now + seconds),
          map i | i in w.tally :: if i in ids && i in w.rows then ClaimTally(w.rows[i], w.tally[i], now) else w.tally[i],
          w.drainers[d := Draining(now, events, [])], w.handed)
  }

  function PublishStep(w: World, d: Owner, p: Phase, accepted: bool): World
    requires p.Draining? && p.todo != [] && p.todo[0].id in w.rows && p.todo[0].id in w.tally
  {
    var c, rest := p.todo[0], p.todo[1..];
    var w' := w.(handed := w.handed + [w.rows[c.id].event]);
    if accepted then
      At(w', d, Draining(p.now, rest, p.sent + [c.id]))
      .(tally := w.tally[c.id := w.tally[c.id].(accepted := w.tally[c.id].accepted + 1)])
    else
      At(w', d, Failing(p.now, c, rest, p.sent))
  }

  /** recordFailure: the row that its statement leaves. */
  function FailedRow(r: Row, d: Owner, c: Claimed, now: int, maxAttempts: nat, cause: Text): Row {
    var attempt, error := c.attemptCount + 1, Truncated(cause, MAX_ERROR_LEN);
    if attempt >= maxAttempts then DeadLettered(r, d, error) else Retried(r, d, now + Backoff(attempt), error)
  }

  function Step(w: World, a: Action): World {
    match a
    case Append(id, e, dueAt) =>
      if id in w.rows || (exists i | i in w.rows :: w.rows[i].event.eventId == e.eventId) then w
      else w.(rows := w.rows[id := Inserted(e, dueAt)], tally := w.tally[id := Tally(0, 0, 0, dueAt, dueAt)])
    case ClaimDue(d, now, batch, skipped) =>
      if !PhaseOf(w, d).Idle? || batch == 0 then w
      else At(w, d, Listing(now, batch, ListDue(w.rows, now, LockedByOthers(w, d) + skipped, batch)))
    case ClaimExpired(d, skipped) =>
      var p := PhaseOf(w, d);
      if !p.Listing? then w
      else if |p.due| >= p.batch then At(w, d, Listed(p.now, p.due))
      else
        At(w, d, Listed(p.now, p.due + ListExpired(w.rows, p.now, LockedByOthers(w, d) + skipped, p.batch - |p.due|)))
    case Lease(d, seconds) =>
      var p := PhaseOf(w, d);
      if !p.Listed? || seconds == 0 then w
      else if p.events == [] then At(w, d, Idle)
      else LeaseStep(w, d, p.now, p.events, seconds)
    case Publish(d, accepted) =>
      var p := PhaseOf(w, d);
      if !p.Draining? || p.todo == [] || p.todo[0].id !in w.rows || p.todo[0].id !in w.tally then w
      else PublishStep(w, d, p, accepted)
    case RecordFailure(d, cause) =>
      var p := PhaseOf(w, d);
      if !p.Failing? || p.failed.id !in w.rows || p.failed.id in LockedByOthers(w, d) then w
      else
        At(w, d, Draining(p.now, p.todo, p.sent))
        .(rows := w.rows[p.failed.id := FailedRow(w.rows[p.failed.id], d, p.failed, p.now, w.maxAttempts, cause)])
    case MarkPublished(d) =>
      var p := PhaseOf(w, d);
      if !p.Draining? || p.todo != [] then w
      else
        var ids := set i | i in p.sent;
        if !(ids !! LockedByOthers(w, d)) then w
        else At(w, d, Idle).(rows := MarkRows(w.rows, ids, d))
    case Stop(d) =>
      At(w, d, Idle)
  }

  function Run(w: World, actions: seq<Action>): World {
    if actions == [] then w else Step(Run(w, actions[..|actions| - 1]), actions[|actions| - 1])
  }

  lemma RunPush(w: World, actions: seq<Action>, a: Action)
    ensures Run(w, actions + [a]) == Step(Run(w, actions), a)
  {
    assert (actions + [a])[..|actions|] == actions;
  }

  lemma {:induction false} RunConcat(w: World, before: seq<Action>, after: seq<Action>)
    ensures Run(w, before + after) == Run(Run(w, before), after)
  {
    if after == [] {
      assert before + after == before;
    } else {
      var n := |after| - 1;
      assert before + after == before + after[..n] + [after[n]];
      RunConcat(w, before, after[..n]);
      RunPush(w, before + after[..n], after[n]);
    }
  }

  lemma RunFrom(w: World, actions: seq<Action>)
    requires actions != []
    ensures Run(w, actions) == Run(Step(w, actions[0]), actions[1..])
  {
    assert actions == [actions[0]] + actions[1..] && [actions[0]][..0] == [];
    assert Run(w, [actions[0]]) == Step(w, actions[0]);
    RunConcat(w, [actions[0]], actions[1..]);
  }

  predicate Initial(w: World) {
    w.maxAttempts > 0 && w.rows == map[] && w.tally == map[] && w.drainers == map[] && w.handed == []
  }
}
