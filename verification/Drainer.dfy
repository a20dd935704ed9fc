/**
 The drainer itself: DrainOnce, claim, recordFailure and backoff, run against a database that other
 drainers and sales change between any two of its statements.
 */
module Drainer {
  import opened Options
  import opened Ordering
  import opened ErrorText
  import opened SaleTypes
  import opened OutboxProtocol
  import opened OutboxInvariant
  import opened OutboxSteps
  import opened OutboxClaim
  import opened OutboxTheorems

  // ---------------------------------------------------------------- who did what

  /** The steps of one drainer, in order. */
  function StepsOf(actions: seq<Action>, d: Owner): seq<Action> {
    if actions == [] then []
    else
      var n := |actions| - 1;
      StepsOf(actions[..n], d) + if By(actions[n], d) then [actions[n]] else []
  }

  /** What one step hands to the publisher. */
  function NewlyHanded(w: World, v: World): seq<Event> { if |w.handed| <= |v.handed| then v.handed[|w.handed|..] else [] }

  /** The events that one drainer has handed to the publisher, in order. */
  function HandedBy(start: World, actions: seq<Action>, d: Owner): seq<Event> {
    if actions == [] then []
    else
      var n := |actions| - 1;
      HandedBy(start, actions[..n], d)
      + if By(actions[n], d) then NewlyHanded(Run(start, actions[..n]), Run(start, actions)) else []
  }

  lemma HandedByPush(start: World, actions: seq<Action>, a: Action, d: Owner)
    ensures
      var w := Run(start, actions);
      HandedBy(start, actions + [a], d)
      == HandedBy(start, actions, d) + if a.Publish? && a.d == d then NewlyHanded(w, Step(w, a)) else []
  {
    hide Step, Run, NewlyHanded;
    RunPush(start, actions, a);
    assert (actions + [a])[..|actions|] == actions;
    if !a.Publish? { OnlyPublishHands(Run(start, actions), a); }
  }

  lemma OnlyPublishHands(w: World, a: Action)
    requires !a.Publish?
    ensures NewlyHanded(w, Step(w, a)) == []
  {
    hide ListDue, ListExpired, LockedByOthers, FailedRow, MarkRows, LeaseRows;
  }

  /** The events of these rows. */
  function EventsOf(rows: Rows, events: seq<Claimed>): seq<Event>
    requires forall k | 0 <= k < |events| :: events[k].id in rows
  {
    seq(|events|, k requires 0 <= k < |events| => rows[events[k].id].event)
  }

  /** Rows stay in the table with their events. */
  ghost predicate EventsKept(rows: Rows, later: Rows) {
    forall i | i in rows :: i in later && later[i].event == rows[i].event
  }

  lemma EventsStay(start: World, before: seq<Action>, after: seq<Action>)
    requires Initial(start) && before <= after
    ensures EventsKept(Run(start, before).rows, Run(start, after).rows)
  {
    hide Run, Inv;
    RunKeepsInv(start, before);
    var rest := after[|before|..];
    assert before + rest == after;
    RunConcat(start, before, rest);
    forall i | i in Run(start, before).rows
      ensures i in Run(start, after).rows && Run(start, after).rows[i].event == Run(start, before).rows[i].event
    {
      RunKeepsRows(Run(start, before), rest, i);
    }
  }

  /** The row that a drainer has to record a refusal on is in the table. */
  lemma FailedIsKnown(w: World, d: Owner)
    requires Inv(w) && PhaseOf(w, d).Failing?
    ensures PhaseOf(w, d).failed.id in w.rows
  {
    hide RowOk, DeliveryOk, LocksDisjoint, AllHeldOk, SentOk;
    assert PhaseOk(w, d, PhaseOf(w, d));
  }

  lemma OthersPublishForThemselves(a: Action, d: Owner)
    requires !By(a, d)
    ensures a.Publish? ==> a.d != d
  {
  }

  // ---------------------------------------------------------------- the database

  /** The outbox table, with the locks that open claims hold on it. history is every step so far. */
  class Database {
    var world: World
    var faults: nat // database errors and lock waits that timed out, so far
    ghost var start: World
    ghost var history: seq<Action>

    ghost predicate Valid()
      reads this`world, this`start, this`history
    {
      Initial(start) && world == Run(start, history)
    }

    /** What happened since an earlier point of this database's history. */
    ghost function Since(earlier: seq<Action>): seq<Action>
      requires earlier <= history
      reads this
    {
      history[|earlier|..]
    }

    lemma Sound()
      requires Valid()
      ensures Inv(world)
    {
      RunKeepsInv(start, history);
    }

    constructor (maxAttempts: nat)
      requires maxAttempts > 0
      ensures Valid() && history == [] && world.maxAttempts == maxAttempts
    {
      var w := World(maxAttempts, map[], map[], map[], []);
      world, faults, start, history := w, 0, w, [];
    }

    /**
     Any statement may meet a database error, or wait too long for a row that an open claim has locked. A statement that
     fails may still have reached the database, when its answer is lost on the way back.
     */
    method MayFail(rows: set<RowId>, d: Owner) returns (fails: bool, reached: bool)
      modifies this`faults
      ensures faults == old(faults) + if fails then 1 else 0
      ensures !fails ==> reached
      ensures reached ==> rows !! LockedByOthers(world, d)
    {
      fails, reached := *, *;
      var free := rows !! LockedByOthers(world, d);
      fails := fails || !free;
      reached := !fails || (reached && free);
      if fails { faults := faults + 1; }
    }

    /** One step, by whoever takes it. */
    method Perform(a: Action)
      requires Valid()
      modifies this`world, this`start, this`history
      ensures Valid() && start == old(start)
      ensures world == Step(old(world), a) && history == old(history) + [a]
      ensures world.maxAttempts == old(world.maxAttempts)
      ensures forall d :: StepsOf(history, d) == StepsOf(old(history), d) + if By(a, d) then [a] else []
    {
      RunPush(start, history, a);
      RunKeepsConfig(start, history);
      RunKeepsConfig(start, history + [a]);
      assert (history + [a])[..|history|] == history;
      world := Step(world, a);
      history := history + [a];
    }

    /** Time passes: sales append rows, and other drainers take any number of steps. */
    method Others(d: Owner)
      requires Valid()
      modifies this`world, this`start, this`history
      ensures Valid() && start == old(start) && old(history) <= history
      ensures NoneBy(Since(old(history)), d)
      ensures PhaseOf(world, d) == old(PhaseOf(world, d)) && world.maxAttempts == old(world.maxAttempts)
      ensures StepsOf(history, d) == StepsOf(old(history), d) && HandedBy(start, history, d) == HandedBy(start, old(history), d)
    {
      hide Step, Run, By, HandedBy;
      var steps: nat := *;
      while steps > 0
        invariant Valid() && start == old(start) && old(history) <= history && NoneBy(Since(old(history)), d)
        invariant PhaseOf(world, d) == old(PhaseOf(world, d)) && world.maxAttempts == old(world.maxAttempts)
        invariant StepsOf(history, d) == StepsOf(old(history), d) && HandedBy(start, history, d) == HandedBy(start, old(history), d)
      {
        var a: Action := *;
        if !By(a, d) {
          OthersPublishForThemselves(a, d);
          HandedByPush(start, history, a, d);
          StepLeavesPhase(world, a, d);
          Perform(a);
        }
        steps := steps - 1;
      }
    }

    /**
     MarkOutboxRetry: no error unless the row stays locked by another claim or the connection fails. An error after the update
     has reached the row leaves it updated.
     */
    method MarkOutboxRetry(id: RowId, owner: Owner, nextAttemptAt: int, lastError: Text) returns (ok: bool)
      requires Valid()
      requires
        var p := PhaseOf(world, owner);
        && p.Failing? && p.failed.id == id
        && p.failed.attemptCount + 1 < world.maxAttempts && nextAttemptAt == p.now + Backoff(p.failed.attemptCount + 1)
      requires |lastError| <= MAX_ERROR_LEN
      modifies this
      ensures Valid() && start == old(start)
      ensures history != old(history) ==>
        && id in old(world.rows)
        && world.rows == old(world.rows)[id := Retried(old(world.rows)[id], owner, nextAttemptAt, lastError)]
      ensures faults == old(faults) + if ok then 0 else 1
      ensures history == old(history) ==> !ok && world == old(world)
      ensures history != old(history) ==>
        && world == Step(old(world), RecordFailure(owner, lastError))
        && history == old(history) + [RecordFailure(owner, lastError)]
      ensures history != old(history) ==>
        var p := old(PhaseOf(world, owner));
        && PhaseOf(world, owner) == Draining(p.now, p.todo, p.sent)
        && StepsOf(history, owner) == StepsOf(old(history), owner) + [RecordFailure(owner, lastError)]
      ensures world.maxAttempts == old(world.maxAttempts)
      ensures HandedBy(start, history, owner) == HandedBy(start, old(history), owner)
    {
      hide Inv, Run, LockedByOthers, HandedBy;
      Sound();
      FailedIsKnown(world, owner);
      var fails, reached := MayFail({id}, owner);
      if reached {
        HandedByPush(start, history, RecordFailure(owner, lastError), owner);
        Perform(RecordFailure(owner, lastError));
      }
      ok := !fails;
    }

    /** MarkOutboxDeadLetter. */
    method MarkOutboxDeadLetter(id: RowId, owner: Owner, lastError: Text) returns (ok: bool)
      requires Valid()
      requires
        var p := PhaseOf(world, owner);
        p.Failing? && p.failed.id == id && p.failed.attemptCount + 1 >= world.maxAttempts
      requires |lastError| <= MAX_ERROR_LEN
      modifies this
      ensures Valid() && start == old(start)
      ensures history != old(history) ==>
        id in old(world.rows) && world.rows == old(world.rows)[id := DeadLettered(old(world.rows)[id], owner, lastError)]
      ensures faults == old(faults) + if ok then 0 else 1
      ensures history == old(history) ==> !ok && world == old(world)
      ensures history != old(history) ==>
        && world == Step(old(world), RecordFailure(owner, lastError))
        && history == old(history) + [RecordFailure(owner, lastError)]
      ensures history != old(history) ==>
        var p := old(PhaseOf(world, owner));
        && PhaseOf(world, owner) == Draining(p.now, p.todo, p.sent)
        && StepsOf(history, owner) == StepsOf(old(history), owner) + [RecordFailure(owner, lastError)]
      ensures world.maxAttempts == old(world.maxAttempts)
      ensures HandedBy(start, history, owner) == HandedBy(start, old(history), owner)
    {
      hide Inv, Run, LockedByOthers, HandedBy;
      Sound();
      FailedIsKnown(world, owner);
      var fails, reached := MayFail({id}, owner);
      if reached {
        HandedByPush(start, history, RecordFailure(owner, lastError), owner);
        Perform(RecordFailure(owner, lastError));
      }
      ok := !fails;
    }
  }

  // ---------------------------------------------------------------- the worker

  /** One DrainOnce: by whom, at what time, and with which batch size and lease. */
  datatype Turn = Turn(d: Owner, now: int, batch: int, seconds: int)

  /** The histories before the three statements of a claim, and the rows that its two lists skipped as locked. */
  datatype Statements = Statements(first: seq<Action>, second: seq<Action>, third: seq<Action>, busy: set<RowId>, alsoBusy: set<RowId>)

  /**
   A claim with this turn's time, batch size and lease, made by these statements of a history: the drainer takes no other
   step between them, and its batch is what its two lists gave in the states they were made in.
   */
  ghost predicate Claims(start: World, history: seq<Action>, turn: Turn, c: Statements, events: seq<Claimed>) {
    && turn.batch > 0 && turn.seconds > 0
    && c.first + [ClaimDue(turn.d, turn.now, turn.batch, c.busy)] <= c.second && NoneBy(c.second[|c.first| + 1..], turn.d)
    && c.second + [ClaimExpired(turn.d, c.alsoBusy)] <= c.third && NoneBy(c.third[|c.second| + 1..], turn.d)
    && c.third + [Lease(turn.d, turn.seconds)] <= history
    && events == BatchOf(Run(start, c.first), Run(start, c.second), turn.d, turn.now, turn.batch, c.busy, c.alsoBusy)
  }

  lemma TruncatedFits(cause: Text)
    ensures |Truncated(cause, MAX_ERROR_LEN)| <= MAX_ERROR_LEN
    ensures Truncated(Truncated(cause, MAX_ERROR_LEN), MAX_ERROR_LEN) == Truncated(cause, MAX_ERROR_LEN)
  {
  }

  lemma ClaimsGrow(start: World, history: seq<Action>, longer: seq<Action>, turn: Turn, c: Statements, events: seq<Claimed>)
    requires Claims(start, history, turn, c, events) && history <= longer
    ensures Claims(start, longer, turn, c, events)
  {
    hide Run, BatchOf, NoneBy;
    var claim := c.third + [Lease(turn.d, turn.seconds)];
    assert claim <= longer by { assert longer[..|claim|] == history[..|claim|]; }
  }

  /** What the publisher said of an event. */
  datatype Answer = Taken | Refused(error: Text)

  /** What a drainer does with one event of its batch. */
  function Handle(d: Owner, answer: Answer): seq<Action> {
    match answer
    case Taken => [Publish(d, true)]
    case Refused(error) => [Publish(d, false), RecordFailure(d, Truncated(error, MAX_ERROR_LEN))]
  }

  lemma SameEvents(rows: Rows, later: Rows, batch: seq<Claimed>)
    requires EventsKept(rows, later) && forall k | 0 <= k < |batch| :: batch[k].id in rows
    ensures forall k | 0 <= k < |batch| :: batch[k].id in later
    ensures EventsOf(later, batch[..|batch|]) == EventsOf(rows, batch[..|batch|])
  {
  }

  lemma NoEvents(rows: Rows)
    ensures EventsOf(rows, []) == []
  {
  }

  lemma OneMoreEvent(rows: Rows, later: Rows, batch: seq<Claimed>, i: nat)
    requires i < |batch| && EventsKept(rows, later) && forall k | 0 <= k < |batch| :: batch[k].id in rows
    ensures forall k | 0 <= k < |batch| :: batch[k].id in later
    ensures EventsOf(later, batch[..i + 1]) == EventsOf(rows, batch[..i]) + [later[batch[i].id].event]
  {
    assert batch[..i + 1] == batch[..i] + [batch[i]];
  }

  lemma BatchIsKnown(w: World, d: Owner, batch: seq<Claimed>)
    requires Inv(w) && PhaseOf(w, d).Draining? && PhaseOf(w, d).todo == batch
    ensures forall k | 0 <= k < |batch| :: batch[k].id in w.rows
  {
    hide RowOk, DeliveryOk, LocksDisjoint, SentOk, Distinct;
    assert PhaseOk(w, d, PhaseOf(w, d));
    assert forall k | 0 <= k < |batch| :: HeldOk(w, d, PhaseOf(w, d).now, batch[k]);
  }

  /** What it does with the first events of its batch, by what the publisher said of each. */
  function HandleEach(d: Owner, answers: seq<Answer>): seq<Action> {
    if answers == [] then []
    else HandleEach(d, answers[..|answers| - 1]) + Handle(d, answers[|answers| - 1])
  }

  function Accepted(answers: seq<Answer>): nat {
    if answers == [] then 0
    else Accepted(answers[..|answers| - 1]) + if answers[|answers| - 1].Taken? then 1 else 0
  }

  function ClaimSteps(turn: Turn, busy: set<RowId>, alsoBusy: set<RowId>): seq<Action>
    requires turn.batch > 0 && turn.seconds > 0
  {
    [ClaimDue(turn.d, turn.now, turn.batch, busy), ClaimExpired(turn.d, alsoBusy), Lease(turn.d, turn.seconds)]
  }

  /**
   The whole turn: the claim, each event of its batch handed over and its refusal recorded, and the mark. A mark of nothing
   stands for the return without one, and there is no mark after an empty claim.
   */
  function TurnSteps(turn: Turn, busy: set<RowId>, alsoBusy: set<RowId>, answers: seq<Answer>): seq<Action>
    requires turn.batch > 0 && turn.seconds > 0
  {
    ClaimSteps(turn, busy, alsoBusy) + HandleEach(turn.d, answers)
    + if answers == [] then [] else [MarkPublished(turn.d)]
  }

  lemma NoneHandled(d: Owner)
    ensures HandleEach(d, []) == [] && Accepted([]) == 0
  {
  }

  lemma OneMoreHandled(d: Owner, answers: seq<Answer>, answer: Answer)
    ensures HandleEach(d, answers + [answer]) == HandleEach(d, answers) + Handle(d, answer)
    ensures Accepted(answers + [answer]) == Accepted(answers) + if answer.Taken? then 1 else 0
  {
    assert (answers + [answer])[..|answers|] == answers;
  }

  /** backoff: doubles with each attempt, from one second up to five minutes, and stays within an int64 of nanoseconds. */
  method BackoffSeconds(attempts: nat) returns (wait: nat)
    ensures wait == Backoff(attempts)
  {
    wait := 1;
    var i := 1;
    while i < attempts && wait < MAX_BACKOFF
      invariant 1 <= i && (i <= attempts || i == 1)
      invariant wait == Pow2(i - 1) && wait < 2 * MAX_BACKOFF
      invariant wait * 1_000_000_000 <= 0x7fff_ffff_ffff_ffff
    {
      wait := wait * 2;
      i := i + 1;
    }
    if attempts > 0 { Pow2Grows(i - 1, attempts - 1); }
    wait := Min(wait, MAX_BACKOFF);
  }

  lemma StopPhase(w: World, d: Owner)
    ensures PhaseOf(Step(w, Stop(d)), d) == Idle
  {
  }

  lemma PublishPhase(w: World, d: Owner, accepted: bool)
    requires Inv(w) && PhaseOf(w, d).Draining? && PhaseOf(w, d).todo != []
    ensures
      var p := PhaseOf(w, d);
      PhaseOf(Step(w, Publish(d, accepted)), d) ==
        if accepted then Draining(p.now, p.todo[1..], p.sent + [p.todo[0].id])
        else Failing(p.now, p.todo[0], p.todo[1..], p.sent)
  {
    TodoIsKnown(w, d);
  }

  /** It hands over the event of the row that is next in its batch, and no other. */
  lemma PublishHands(w: World, d: Owner, accepted: bool)
    requires Inv(w) && PhaseOf(w, d).Draining? && PhaseOf(w, d).todo != []
    ensures
      var v, id := Step(w, Publish(d, accepted)), PhaseOf(w, d).todo[0].id;
      && id in w.rows && v.rows == w.rows && v.handed == w.handed + [w.rows[id].event]
      && NewlyHanded(w, v) == [w.rows[id].event]
  {
    TodoIsKnown(w, d);
  }

  lemma MarkPhase(w: World, d: Owner)
    requires PhaseOf(w, d).Draining? && PhaseOf(w, d).todo == []
    requires (set i | i in PhaseOf(w, d).sent) !! LockedByOthers(w, d)
    ensures PhaseOf(Step(w, MarkPublished(d)), d) == Idle
    ensures Step(w, MarkPublished(d)).rows == MarkRows(w.rows, (set i | i in PhaseOf(w, d).sent), d)
  {
  }

  class Worker {
    const owner: Owner
    const batchSize: int
    const leaseSeconds: int
    const maxAttempts: nat

    constructor (owner: Owner, batchSize: int, leaseSeconds: int, maxAttempts: nat)
      ensures this.owner == owner && this.batchSize == batchSize
      ensures this.leaseSeconds == leaseSeconds && this.maxAttempts == maxAttempts
    {
      this.owner, this.batchSize, this.leaseSeconds, this.maxAttempts := owner, batchSize, leaseSeconds, maxAttempts;
    }

    predicate Configured() { owner != "" && batchSize > 0 && leaseSeconds > 0 && maxAttempts != 0 }

    /** A rollback, or an error that ends this DrainOnce: what it still holds is left to its lease. */
    method GiveUp(db: Database)
      requires db.Valid()
      modifies db
      ensures db.Valid() && db.start == old(db.start) && db.world.maxAttempts == old(db.world.maxAttempts)
      ensures PhaseOf(db.world, owner) == Idle && StepsOf(db.history, owner) == StepsOf(old(db.history), owner) + [Stop(owner)]
      ensures old(db.history) <= db.history && db.faults == old(db.faults)
      ensures HandedBy(db.start, db.history, owner) == HandedBy(db.start, old(db.history), owner)
    {
      hide Step, Run, NoneBy, HandedBy;
      StopPhase(db.world, owner);
      HandedByPush(db.start, db.history, Stop(owner), owner);
      db.Perform(Stop(owner));
    }

    /** The two lists of a claim: due events, and expired ones when there is room. first and second are the histories before each. */
    method ListForClaim(db: Database, now: int)
      returns (events: seq<Claimed>, ok: bool, ghost first: seq<Action>, ghost second: seq<Action>,
               ghost busy: set<RowId>, ghost alsoBusy: set<RowId>)
      requires db.Valid() && Configured() && PhaseOf(db.world, owner).Idle?
      modifies db
      ensures db.Valid() && db.start == old(db.start) && db.world.maxAttempts == old(db.world.maxAttempts)
      ensures old(db.history) <= db.history && StepsOf(old(db.history), owner) <= StepsOf(db.history, owner)
      ensures HandedBy(db.start, db.history, owner) == HandedBy(db.start, old(db.history), owner)
      ensures !ok ==> PhaseOf(db.world, owner).Idle?
      ensures db.faults == old(db.faults) + if ok then 0 else 1
      ensures ok ==>
        && PhaseOf(db.world, owner) == Listed(now, events) && |events| <= batchSize && Distinct(events)
        && events == BatchOf(Run(db.start, first), Run(db.start, second), owner, now, batchSize, busy, alsoBusy)
        && old(db.history) <= first && first + [ClaimDue(owner, now, batchSize, busy)] <= second
        && NoneBy(second[|first| + 1..], owner) && db.history == second + [ClaimExpired(owner, alsoBusy)]
        && StepsOf(db.history, owner)
           == StepsOf(old(db.history), owner) + [ClaimDue(owner, now, batchSize, busy), ClaimExpired(owner, alsoBusy)]
    {
      hide Step, NoneBy, Run, Initial, BatchOf, DueOf, ExpiredOf, Unchanged, Inv, StepsOf, Distinct, HandedBy;
      ghost var before := StepsOf(db.history, owner);
      var skipped: set<RowId>, alsoSkipped: set<RowId> := *, *;
      busy, alsoBusy := skipped, alsoSkipped;
      db.Others(owner);
      db.Sound();
      first, second := db.history, db.history;
      ghost var one := db.world;
      DueStep(db.world, owner, now, batchSize, busy);
      HandedByPush(db.start, db.history, ClaimDue(owner, now, batchSize, busy), owner);
      db.Perform(ClaimDue(owner, now, batchSize, skipped));
      db.Others(owner);
      second := db.history;
      assert second[|first| + 1..] == db.Since(first + [ClaimDue(owner, now, batchSize, busy)]);
      var failed, answered := db.MayFail({}, owner);
      if failed {
        GiveUp(db);
        return [], false, first, second, busy, alsoBusy;
      }
      db.Sound();
      ExpiredStep(db.world, owner, now, batchSize, DueOf(one, owner, now, batchSize, busy), alsoBusy);
      BatchIs(one, db.world, owner, now, batchSize, busy, alsoBusy);
      HandedByPush(db.start, db.history, ClaimExpired(owner, alsoBusy), owner);
      db.Perform(ClaimExpired(owner, alsoSkipped));
      db.Sound();
      events, ok := PhaseOf(db.world, owner).events, true;
      ListedIsDistinct(db.world, owner);
      assert before + [ClaimDue(owner, now, batchSize, busy)] + [ClaimExpired(owner, alsoBusy)]
          == before + [ClaimDue(owner, now, batchSize, busy), ClaimExpired(owner, alsoBusy)];
    }

    /**
     claim: one transaction that lists due events, then expired ones, and leases the batch. A failure rolls it back, but for
     one of its commit that had reached the database: then its rows stay leased and nobody has them. On success the batch is
     what the two lists gave, and the lease took exactly its rows, each once.
     */
    method Claim(db: Database, now: int) returns (events: seq<Claimed>, ok: bool, ghost c: Statements)
      requires db.Valid() && Configured() && PhaseOf(db.world, owner).Idle?
      modifies db
      ensures db.Valid() && db.start == old(db.start) && db.world.maxAttempts == old(db.world.maxAttempts)
      ensures |events| <= batchSize && Distinct(events) && (!ok ==> events == [])
      ensures PhaseOf(db.world, owner) == if events == [] then Idle else Draining(now, events, [])
      ensures old(db.history) <= db.history && StepsOf(old(db.history), owner) <= StepsOf(db.history, owner)
      ensures HandedBy(db.start, db.history, owner) == HandedBy(db.start, old(db.history), owner)
      ensures db.faults == old(db.faults) + if ok then 0 else 1
      ensures ok ==>
        && old(db.history) <= c.first && Claims(db.start, db.history, Turn(owner, now, batchSize, leaseSeconds), c, events)
        && StepsOf(db.history, owner) == StepsOf(old(db.history), owner)
           + ClaimSteps(Turn(owner, now, batchSize, leaseSeconds), c.busy, c.alsoBusy)
        && db.world.rows == LeaseRows(Run(db.start, db.history[..|db.history| - 1]).rows, Ids(events), owner, now + leaseSeconds)
    {
      hide Step, NoneBy, Run, Initial, BatchOf, LeaseRows, Ids, StepsOf, HandedBy;
      ghost var before, turn := StepsOf(db.history, owner), Turn(owner, now, batchSize, leaseSeconds);
      c := Statements([], [], [], {}, {});
      var beginFails, begun := db.MayFail({}, owner);
      if beginFails { return [], false, c; }
      ghost var first: seq<Action>, second: seq<Action>, busy: set<RowId>, alsoBusy: set<RowId>;
      events, ok, first, second, busy, alsoBusy := ListForClaim(db, now);
      if !ok { return [], false, c; }
      ghost var listed := db.history;
      db.Others(owner);
      ghost var third := db.history;
      assert third[|second| + 1..] == db.Since(listed);
      var failed, committed := db.MayFail({}, owner);
      HandedByPush(db.start, db.history, Lease(owner, leaseSeconds), owner);
      if failed {
        if committed { db.Perform(Lease(owner, leaseSeconds)); }
        GiveUp(db);
        return [], false, c;
      }
      LeaseOfListed(db.world, owner, now, events, leaseSeconds);
      c := Statements(first, second, third, busy, alsoBusy);
      db.Perform(Lease(owner, leaseSeconds));
      assert Claims(db.start, db.history, turn, c, events);
      assert db.history[..|db.history| - 1] == third;
      assert before + [ClaimDue(owner, now, batchSize, busy), ClaimExpired(owner, alsoBusy)] + [Lease(owner, leaseSeconds)]
          == before + ClaimSteps(turn, busy, alsoBusy);
    }

    /**
     recordFailure: a retry after the backoff, or a dead letter once the last allowed attempt has failed, with the error cut to
     the size of its column. Only a row that this drainer still owns is changed.
     */
    method RecordFailureOf(db: Database, ev: Claimed, now: int, cause: Text) returns (ok: bool)
      requires db.Valid() && maxAttempts == db.world.maxAttempts
      requires PhaseOf(db.world, owner).Failing? && PhaseOf(db.world, owner).failed == ev && PhaseOf(db.world, owner).now == now
      modifies db
      ensures db.Valid() && db.start == old(db.start) && db.world.maxAttempts == old(db.world.maxAttempts)
      ensures ok ==>
        var p := old(PhaseOf(db.world, owner));
        && PhaseOf(db.world, owner) == Draining(p.now, p.todo, p.sent)
        && StepsOf(db.history, owner) == StepsOf(old(db.history), owner) + [RecordFailure(owner, Truncated(cause, MAX_ERROR_LEN))]
        && |db.history| > 0
        && var rows := Run(db.start, db.history[..|db.history| - 1]).rows;
           ev.id in rows && db.world.rows == rows[ev.id := FailedRow(rows[ev.id], owner, ev, now, maxAttempts, cause)]
      ensures !ok ==>
        || StepsOf(db.history, owner) == StepsOf(old(db.history), owner)
        || StepsOf(db.history, owner) == StepsOf(old(db.history), owner) + [RecordFailure(owner, Truncated(cause, MAX_ERROR_LEN))]
      ensures old(db.history) <= db.history
      ensures HandedBy(db.start, db.history, owner) == HandedBy(db.start, old(db.history), owner)
      ensures db.faults == old(db.faults) + if ok then 0 else 1
    {
      hide Step, Run, NoneBy, LockedByOthers, Truncated, HandedBy;
      var lastError := Truncate(cause, MAX_ERROR_LEN);
      TruncatedFits(cause);
      var attempt := ev.attemptCount + 1;
      db.Others(owner);
      ghost var before := db.history;
      if attempt >= maxAttempts {
        ok := db.MarkOutboxDeadLetter(ev.id, owner, lastError);
      } else {
        var wait := BackoffSeconds(attempt);
        ok := db.MarkOutboxRetry(ev.id, owner, now + wait, lastError);
      }
      assert db.history != before ==> db.history[..|db.history| - 1] == before;
    }

    /** Publisher.Publish: outside any transaction, whoever owns the row by now. It hands over the event of the next row of the batch. */
    method Publish(db: Database) returns (answer: Answer)
      requires db.Valid() && PhaseOf(db.world, owner).Draining? && PhaseOf(db.world, owner).todo != []
      modifies db
      ensures db.Valid() && db.start == old(db.start) && db.world.maxAttempts == old(db.world.maxAttempts)
      ensures StepsOf(db.history, owner) == StepsOf(old(db.history), owner) + [OutboxProtocol.Publish(owner, answer.Taken?)]
      ensures old(db.history) <= db.history && db.faults == old(db.faults)
      ensures
        var id := old(PhaseOf(db.world, owner).todo[0].id);
        && id in db.world.rows
        && HandedBy(db.start, db.history, owner) == HandedBy(db.start, old(db.history), owner) + [db.world.rows[id].event]
        && |db.history| > 0 && Run(db.start, db.history[..|db.history| - 1]).handed + [db.world.rows[id].event] == db.world.handed
      ensures
        var p := old(PhaseOf(db.world, owner));
        PhaseOf(db.world, owner) ==
          if answer.Taken? then Draining(p.now, p.todo[1..], p.sent + [p.todo[0].id]) else Failing(p.now, p.todo[0], p.todo[1..], p.sent)
    {
      hide Step, Run, NoneBy, HandedBy;
      db.Others(owner);
      answer := *;
      db.Sound();
      PublishPhase(db.world, owner, answer.Taken?);
      PublishHands(db.world, owner, answer.Taken?);
      HandedByPush(db.start, db.history, OutboxProtocol.Publish(owner, answer.Taken?), owner);
      ghost var before := db.history;
      db.Perform(OutboxProtocol.Publish(owner, answer.Taken?));
      assert db.history[..|db.history| - 1] == before;
    }

    /** One turn of DrainOnce's loop: hand the next event to the publisher, and record a refusal. */
    method PublishNext(db: Database, now: int) returns (answer: Answer, ok: bool)
      requires db.Valid() && maxAttempts == db.world.maxAttempts
      requires
        var p := PhaseOf(db.world, owner);
        p.Draining? && p.now == now && p.todo != []
      modifies db
      ensures db.Valid() && db.start == old(db.start) && db.world.maxAttempts == old(db.world.maxAttempts)
      ensures old(db.history) <= db.history && StepsOf(old(db.history), owner) <= StepsOf(db.history, owner)
      ensures
        var id := old(PhaseOf(db.world, owner).todo[0].id);
        && id in db.world.rows
        && HandedBy(db.start, db.history, owner) == HandedBy(db.start, old(db.history), owner) + [db.world.rows[id].event]
      ensures ok ==>
        var p := old(PhaseOf(db.world, owner));
        && PhaseOf(db.world, owner) == Draining(now, p.todo[1..], if answer.Taken? then p.sent + [p.todo[0].id] else p.sent)
        && StepsOf(db.history, owner) == StepsOf(old(db.history), owner) + Handle(owner, answer)
      ensures !ok ==> PhaseOf(db.world, owner).Idle?
      ensures db.faults == old(db.faults) + if ok then 0 else 1
    {
      hide Step, Run, NoneBy, LockedByOthers, HandedBy, Initial;
      ghost var before := StepsOf(db.history, owner);
      answer := Publish(db);
      ok := true;
      if answer.Taken? { return; }
      ghost var published := db.history;
      ok := RecordFailureOf(db, PhaseOf(db.world, owner).failed, now, answer.error);
      if !ok {
        GiveUp(db);
        EventsStay(db.start, published, db.history);
        return;
      }
      EventsStay(db.start, published, db.history);
      assert before + [OutboxProtocol.Publish(owner, false)] + [RecordFailure(owner, Truncated(answer.error, MAX_ERROR_LEN))]
          == before + Handle(owner, answer);
    }

    /** The loop of DrainOnce: each event of the batch in turn, until the database fails it. */
    method HandleBatch(db: Database, now: int, batch: seq<Claimed>) returns (sent: seq<RowId>, ok: bool, ghost answers: seq<Answer>)
      requires db.Valid() && maxAttempts == db.world.maxAttempts && PhaseOf(db.world, owner) == Draining(now, batch, [])
      modifies db
      ensures db.Valid() && db.start == old(db.start)
      ensures old(db.history) <= db.history && StepsOf(old(db.history), owner) <= StepsOf(db.history, owner)
      ensures ok ==>
        && PhaseOf(db.world, owner) == Draining(now, [], sent) && |answers| == |batch| && |sent| == Accepted(answers)
        && StepsOf(db.history, owner) == StepsOf(old(db.history), owner) + HandleEach(owner, answers)
      ensures !ok ==> PhaseOf(db.world, owner).Idle? && |answers| < |batch|
      ensures forall k | 0 <= k < |batch| :: batch[k].id in db.world.rows
      ensures HandedBy(db.start, db.history, owner)
        == HandedBy(db.start, old(db.history), owner) + EventsOf(db.world.rows, batch[..if ok then |batch| else |answers| + 1])
      ensures db.faults == old(db.faults) + if ok then 0 else 1
    {
      hide Step, Run, Initial, Handle, HandleEach, Accepted, StepsOf, HandedBy, EventsOf, Inv;
      db.Sound();
      BatchIsKnown(db.world, owner, batch);
      NoneHandled(owner);
      NoEvents(db.world.rows);
      ghost var before := StepsOf(db.history, owner);
      assert before + [] == before;
      sent, ok, answers := [], true, [];
      var i := 0;
      while i < |batch|
        invariant 0 <= i <= |batch| && db.Valid() && db.start == old(db.start) && maxAttempts == db.world.maxAttempts
        invariant PhaseOf(db.world, owner) == Draining(now, batch[i..], sent)
        invariant old(db.history) <= db.history && db.faults == old(db.faults)
        invariant |answers| == i && |sent| == Accepted(answers)
        invariant StepsOf(db.history, owner) == before + HandleEach(owner, answers) && before <= StepsOf(db.history, owner)
        invariant forall k | 0 <= k < |batch| :: batch[k].id in db.world.rows
        invariant HandedBy(db.start, db.history, owner)
          == HandedBy(db.start, old(db.history), owner) + EventsOf(db.world.rows, batch[..i])
      {
        assert batch[i..][0] == batch[i] && batch[i..][1..] == batch[i + 1..];
        ghost var steps, rows, history := StepsOf(db.history, owner), db.world.rows, db.history;
        var answer: Answer;
        answer, ok := PublishNext(db, now);
        EventsStay(db.start, history, db.history);
        OneMoreEvent(rows, db.world.rows, batch, i);
        if !ok { return; }
        if answer.Taken? { sent := sent + [batch[i].id]; }
        OneMoreHandled(owner, answers, answer);
        assert steps + Handle(owner, answer) == before + HandleEach(owner, answers + [answer]);
        answers := answers + [answer];
        i := i + 1;
      }
      assert batch[..i] == batch;
    }

    /** A mark that fails, with its rows reached or not. */
    method GiveUpMark(db: Database, reached: bool)
      requires db.Valid()
      modifies db
      ensures db.Valid() && PhaseOf(db.world, owner).Idle? && db.start == old(db.start) && db.faults == old(db.faults)
      ensures old(db.history) <= db.history
      ensures StepsOf(db.history, owner)
        == StepsOf(old(db.history), owner) + if reached then [MarkPublished(owner), Stop(owner)] else [Stop(owner)]
      ensures HandedBy(db.start, db.history, owner) == HandedBy(db.start, old(db.history), owner)
    {
      hide Step, Run, NoneBy, LockedByOthers, MarkRows, HandedBy;
      HandedByPush(db.start, db.history, MarkPublished(owner), owner);
      ghost var before := StepsOf(db.history, owner);
      if reached { db.Perform(MarkPublished(owner)); }
      GiveUp(db);
      assert before + [MarkPublished(owner)] + [Stop(owner)] == before + [MarkPublished(owner), Stop(owner)];
    }

    /** The mark at the end of DrainOnce. When it fails, it may have reached its rows all the same. */
    method MarkSent(db: Database, sent: seq<RowId>) returns (ok: bool)
      requires db.Valid()
      requires
        var p := PhaseOf(db.world, owner);
        p.Draining? && p.todo == [] && p.sent == sent
      modifies db
      ensures db.Valid() && PhaseOf(db.world, owner).Idle? && db.start == old(db.start)
      ensures old(db.history) <= db.history && StepsOf(old(db.history), owner) <= StepsOf(db.history, owner)
      ensures ok ==>
        && StepsOf(db.history, owner) == StepsOf(old(db.history), owner) + [MarkPublished(owner)]
        && |db.history| > 0
        && db.world.rows == MarkRows(Run(db.start, db.history[..|db.history| - 1]).rows, (set id | id in sent), owner)
      ensures !ok ==>
        || StepsOf(db.history, owner) == StepsOf(old(db.history), owner) + [Stop(owner)]
        || StepsOf(db.history, owner) == StepsOf(old(db.history), owner) + [MarkPublished(owner), Stop(owner)]
      ensures HandedBy(db.start, db.history, owner) == HandedBy(db.start, old(db.history), owner)
      ensures sent == [] ==> ok
      ensures db.faults == old(db.faults) + if ok then 0 else 1
    {
      hide Step, Run, NoneBy, LockedByOthers, MarkRows, HandedBy;
      db.Others(owner);
      HandedByPush(db.start, db.history, MarkPublished(owner), owner);
      if sent != [] {
        var failed, reached := db.MayFail((set id | id in sent), owner);
        if failed {
          GiveUpMark(db, reached);
          return false;
        }
      }
      MarkPhase(db.world, owner);
      ghost var before := db.history;
      db.Perform(MarkPublished(owner));
      assert db.history[..|db.history| - 1] == before;
      return true;
    }

    /**
     DrainOnce: how many events it published, and whether it ended without an error. A clean end is one whole turn: a claim,
     then for each event of its batch one publish, with its failure recorded after each refusal, then the mark; n counts
     the acceptances. What it hands to the publisher is the events of its batch in their order, or the first of them. A
     configured drainer ends with an error exactly when the database failed it, and then leaves the rest of the claim to
     its lease.
     */
    method DrainOnce(db: Database, now: int)
      returns (n: nat, ok: bool, ghost c: Statements, ghost events: seq<Claimed>, ghost answers: seq<Answer>, ghost handed: nat)
      requires db.Valid() && PhaseOf(db.world, owner).Idle? && maxAttempts == db.world.maxAttempts
      modifies db
      ensures db.Valid() && PhaseOf(db.world, owner).Idle?
      ensures old(db.history) <= db.history && StepsOf(old(db.history), owner) <= StepsOf(db.history, owner)
      ensures !Configured() ==> !ok && StepsOf(db.history, owner) == StepsOf(old(db.history), owner)
      ensures ok ==>
        && old(db.history) <= c.first && Claims(db.start, db.history, Turn(owner, now, batchSize, leaseSeconds), c, events)
        && |answers| == |events| && n == Accepted(answers)
        && StepsOf(db.history, owner) == StepsOf(old(db.history), owner)
           + TurnSteps(Turn(owner, now, batchSize, leaseSeconds), c.busy, c.alsoBusy, answers)
      ensures !ok ==> n == 0
      ensures ok <==> Configured() && db.faults == old(db.faults)
      ensures handed <= |events| && (ok ==> handed == |events|) && forall k | 0 <= k < |events| :: events[k].id in db.world.rows
      ensures HandedBy(db.start, db.history, owner)
        == HandedBy(db.start, old(db.history), owner) + EventsOf(db.world.rows, events[..handed])
    {
      hide Step, Run, Initial, Claims, Handle, ClaimSteps, LeaseRows, MarkRows, StepsOf, HandedBy, EventsOf;
      n, ok, c, answers, events, handed := 0, false, Statements([], [], [], {}, {}), [], [], 0;
      NoEvents(db.world.rows);
      if owner == "" || batchSize <= 0 || leaseSeconds <= 0 || maxAttempts == 0 { return; }
      ghost var turn := Turn(owner, now, batchSize, leaseSeconds);
      var batch, sent;
      batch, ok, c := Claim(db, now);
      NoEvents(db.world.rows);
      events := batch;
      if !ok || batch == [] { return; }
      ghost var history := db.history;
      sent, ok, answers := HandleBatch(db, now, batch);
      handed := if ok then |batch| else |answers| + 1;
      if !ok { return; }
      ghost var drained := db.history;
      ghost var rows := db.world.rows;
      ok := MarkSent(db, sent);
      EventsStay(db.start, drained, db.history);
      SameEvents(rows, db.world.rows, batch);
      n := if ok then |sent| else 0;
      ClaimsGrow(db.start, history, db.history, turn, c, events);
    }
  }
}
