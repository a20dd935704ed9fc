/**
 Waiting, with the lock that a duplicate-key check takes. A sale whose request key another has written waits for a shared lock
 on its entry. When that other one rolls back, all that wait get it at once, and then each needs it exclusively to write the key.
 As in SaleLocks, stock enforcement is off.
 */
module SaleWaits {
  import opened Options
  import opened SaleTypes
  import opened SaleProtocol
  import opened SaleInvariant
  import opened SaleTheorems
  import opened SaleMoves
  import SaleLocks

  /** queued are the sales that wait in their duplicate-key check, and shared those whose check has got its lock. */
  datatype Locks = Locks(world: World, queued: set<TxId>, shared: set<TxId>)

  datatype Move = Take(action: Action) | CheckKey(t: TxId)

  /** A final sale that is about to write its request key. */
  predicate AtKey(w: World, t: TxId) {
    t in w.txs && w.txs[t].SaleTx? && w.txs[t].stage.Numbered? && w.txs[t].request.content.state > 0
  }

  function KeyOf(w: World, t: TxId): Key
    requires AtKey(w, t)
  {
    w.txs[t].request.key
  }

  /** Another sale has a shared lock on the key that t is about to write. */
  predicate SharedByOther(x: Locks, t: TxId)
    requires AtKey(x.world, t)
  {
    exists o | o in x.shared :: o != t && AtKey(x.world, o) && KeyOf(x.world, o) == KeyOf(x.world, t)
  }

  function StillQueued(x: Locks, v: World): set<TxId> { set t | t in x.queued && AtKey(v, t) && KeyHeld(v, t, KeyOf(v, t)) }

  /** Who waited for a sale that has rolled back now shares its key. A key that was committed is a duplicate, and nobody's any more. */
  function NowShared(x: Locks, v: World): set<TxId> {
    set t | t in x.shared + x.queued && AtKey(v, t) && !KeyHeld(v, t, KeyOf(v, t)) && KeyOf(v, t) !in v.db.byRequest
  }

  function Next(x: Locks, m: Move): Locks {
    match m
    case CheckKey(t) =>
      if AtKey(x.world, t) && KeyHeld(x.world, t, KeyOf(x.world, t)) then x.(queued := x.queued + {t}) else x
    case Take(a) =>
      if a.UpdateBill? && AtKey(x.world, a.t) && SharedByOther(x, a.t) then x
      else
        var v := Step(x.world, a);
        Locks(v, StillQueued(x, v), NowShared(x, v))
  }

  function After(x: Locks, moves: seq<Move>): Locks {
    if moves == [] then x else Next(After(x, moves[..|moves| - 1]), moves[|moves| - 1])
  }

  predicate AtFirst(x: Locks) { Initial(x.world) && x.queued == {} && x.shared == {} }

  // ---------------------------------------------------------------- who waits for whom

  predicate WaitsForShare(x: Locks, t: TxId, o: TxId) {
    t != o && o in x.shared && AtKey(x.world, t) && AtKey(x.world, o) && KeyOf(x.world, t) == KeyOf(x.world, o)
  }

  predicate WaitsFor(x: Locks, t: TxId, o: TxId) { SaleLocks.WaitsFor(x.world, t, o) || WaitsForShare(x, t, o) }

  ghost predicate Chain(x: Locks, path: seq<TxId>) {
    forall i :: 0 <= i < |path| - 1 ==> WaitsFor(x, path[i], path[i + 1])
  }

  ghost predicate Cyclic(x: Locks) { exists path: seq<TxId> :: |path| >= 2 && path[0] == path[|path| - 1] && Chain(x, path) }

  /** Two sales share one key, and each waits for the other. */
  predicate TwoShareAKey(x: Locks) { exists t, o | t in x.shared && o in x.shared :: WaitsForShare(x, t, o) }

  lemma WaitingDoesNotSink(x: Locks, t: TxId, o: TxId)
    requires WaitsFor(x, t, o)
    ensures t in x.world.txs && o in x.world.txs
    ensures SaleLocks.Height(x.world.txs[t]) <= SaleLocks.Height(x.world.txs[o])
    ensures !WaitsForShare(x, t, o) ==> SaleLocks.Height(x.world.txs[t]) < SaleLocks.Height(x.world.txs[o])
  {
    if SaleLocks.WaitsFor(x.world, t, o) { SaleLocks.WaitingClimbs(x.world, t, o); }
  }

  lemma {:induction false} ChainDoesNotSink(x: Locks, path: seq<TxId>)
    requires |path| >= 2 && Chain(x, path)
    ensures path[0] in x.world.txs && path[|path| - 1] in x.world.txs
    ensures SaleLocks.Height(x.world.txs[path[0]]) <= SaleLocks.Height(x.world.txs[path[|path| - 1]])
    ensures SaleLocks.Height(x.world.txs[path[0]]) == SaleLocks.Height(x.world.txs[path[|path| - 1]]) ==>
      forall i :: 0 <= i < |path| - 1 ==> WaitsForShare(x, path[i], path[i + 1])
  {
    hide SaleLocks.WaitsFor, WaitsFor, WaitsForShare, SaleLocks.Height;
    WaitingDoesNotSink(x, path[0], path[1]);
    if |path| > 2 {
      var rest := path[1..];
      forall i | 0 <= i < |rest| - 1 ensures WaitsFor(x, rest[i], rest[i + 1]) { assert WaitsFor(x, path[i + 1], path[i + 2]); }
      ChainDoesNotSink(x, rest);
      forall i | 1 <= i < |path| - 1 ensures path[i] == rest[i - 1] && path[i + 1] == rest[i] {}
    }
  }

  /** In every state, reachable or not, transactions wait for each other in a cycle if and only if two sales share a key. */
  lemma CyclicIff(x: Locks)
    ensures Cyclic(x) <==> TwoShareAKey(x)
  {
    if Cyclic(x) {
      var path: seq<TxId> :| |path| >= 2 && path[0] == path[|path| - 1] && Chain(x, path);
      ChainDoesNotSink(x, path);
      var n := |path| - 1;
      assert WaitsForShare(x, path[n - 1], path[n]) && WaitsForShare(x, path[0], path[1]);
    }
    if TwoShareAKey(x) {
      var t, o :| t in x.shared && o in x.shared && WaitsForShare(x, t, o);
      assert WaitsFor(x, t, o) && WaitsFor(x, o, t);
      var path := [t, o, t];
      assert Chain(x, path) && path[0] == path[|path| - 1];
    }
  }

  predicate Stands(x: Locks, t: TxId) { exists o | o in x.world.txs :: WaitsFor(x, t, o) }

  /** Otherwise, while any transaction is open, one of them is not waiting. */
  lemma SomeoneCanProceed(x: Locks, t: TxId)
    requires SaleLocks.Unfinished(x.world, t) && !TwoShareAKey(x)
    ensures exists s | s in x.world.txs :: SaleLocks.Unfinished(x.world, s) && !Stands(x, s)
  {
    var w := x.world;
    var open := set o | o in w.txs && SaleLocks.Unfinished(w, o);
    assert t in open;
    SaleLocks.HighestExists(w, open);
    var s :| s in open && forall o | o in open :: SaleLocks.Height(w.txs[o]) <= SaleLocks.Height(w.txs[s]);
    if o :| o in w.txs && WaitsForShare(x, s, o) {
      HighestProceeds(x, o);
    } else {
      HighestProceeds(x, s);
    }
  }

  /** Nobody is further along than s, and s waits for no shared lock or has one. */
  lemma HighestProceeds(x: Locks, s: TxId)
    requires SaleLocks.Unfinished(x.world, s) && !TwoShareAKey(x)
    requires forall o | o in x.world.txs && SaleLocks.Unfinished(x.world, o) :: SaleLocks.Height(x.world.txs[o]) <= SaleLocks.Height(x.world.txs[s])
    requires s in x.shared || forall o | o in x.world.txs :: !WaitsForShare(x, s, o)
    ensures !Stands(x, s)
  {
    hide SaleLocks.Height, SaleLocks.WaitsFor, WaitsForShare, SaleLocks.Unfinished;
    forall o | o in x.world.txs ensures !WaitsFor(x, s, o) {
      if SaleLocks.WaitsFor(x.world, s, o) { SaleLocks.WaitingClimbs(x.world, s, o); }
      SharerWaitsForNone(x, s, o);
    }
  }

  lemma SharerWaitsForNone(x: Locks, t: TxId, o: TxId)
    requires !TwoShareAKey(x)
    ensures t in x.shared ==> !WaitsForShare(x, t, o)
  {
  }

  // ---------------------------------------------------------------- the copies of a request

  /** The locks only make sales wait: a run with them is a run of the sale command. */
  lemma {:induction false} RunsTheSales(x: Locks, moves: seq<Move>) returns (actions: seq<Action>)
    ensures After(x, moves).world == Run(x.world, actions)
  {
    hide Step;
    if moves == [] {
      actions := [];
    } else {
      var m, before := moves[|moves| - 1], After(x, moves[..|moves| - 1]);
      actions := RunsTheSales(x, moves[..|moves| - 1]);
      if m.Take? && Next(before, m) != before {
        RunPush(x.world, actions, m.action);
        actions := actions + [m.action];
      }
    }
  }

  /** Over every run: two sales that share a key are of two branches, because each of them holds the counter of its own. */
  lemma SharersAreOfTwoBranches(x: Locks, moves: seq<Move>, t: TxId, o: TxId)
    requires AtFirst(x) && WaitsForShare(After(x, moves), t, o)
    ensures After(x, moves).world.txs[t].request.content.branchId != After(x, moves).world.txs[o].request.content.branchId
  {
    var actions := RunsTheSales(x, moves);
    hide After, Run;
    RunIsSound(x.world, actions);
    NumberedHoldsItsCounter(After(x, moves).world, t, o);
  }

  lemma NumberedHoldsItsCounter(w: World, t: TxId, o: TxId)
    requires Inv(w) && t != o && AtKey(w, t) && AtKey(w, o)
    ensures w.txs[t].request.content.branchId != w.txs[o].request.content.branchId
  {
    hide DbOk, AnswerOk, Acceptable, OpenSale;
    assert TxOk(w.db, w.txs[t]) && TxOk(w.db, w.txs[o]);
    assert Compatible(w.txs[t], w.txs[o]);
  }

  /** The sales of one request key are all of one branch, as the copies of a request are. */
  ghost predicate OneBranchPerKey(w: World) {
    forall t, o | t in w.txs && o in w.txs && w.txs[t].SaleTx? && w.txs[o].SaleTx? && w.txs[t].request.key == w.txs[o].request.key ::
      w.txs[t].request.content.branchId == w.txs[o].request.content.branchId
  }

  /** So they never wait for each other in a cycle, however many copies of however many requests there are. */
  lemma CopiesDoNotDeadlock(x: Locks, moves: seq<Move>)
    requires AtFirst(x) && OneBranchPerKey(After(x, moves).world)
    ensures !Cyclic(After(x, moves))
  {
    hide After;
    var v := After(x, moves);
    CyclicIff(v);
    if t, o :| t in v.shared && o in v.shared && WaitsForShare(v, t, o) {
      SharersAreOfTwoBranches(x, moves, t, o);
    }
  }

  // ---------------------------------------------------------------- three branches

  /** A new tenant, and three new final sales of one request key in three branches. */
  predicate ThreeBranches(x: Locks, s1: Sale, s2: Sale, s3: Sale) {
    && AtFirst(x) && s1.t != s2.t && s1.t != s3.t && s2.t != s3.t
    && (forall s | s in {s1, s2, s3} :: s.draft.None? && s.request.content.state > 0 && Acceptable(s.request) && s.request.key == s1.request.key)
    && s1.request.content.branchId != s2.request.content.branchId && s1.request.content.branchId != s3.request.content.branchId
    && s2.request.content.branchId != s3.request.content.branchId
  }

  /** A sale up to its number. */
  function UpToNumber(s: Sale, id: BillId): seq<Move> {
    [Take(Begin(s.t, s.request, s.draft, s.invoiceUuid)), Take(CheckRequest(s.t)), Take(CreateBill(s.t, id)), Take(TakeNumber(s.t))]
  }

  /** The first writes the key, the others wait for it, and it rolls back. */
  function ThenRollBack(s1: Sale, s2: Sale, s3: Sale): seq<Move> {
    [Take(UpdateBill(s1.t)), CheckKey(s2.t), CheckKey(s3.t), Take(Abort(s1.t))]
  }

  lemma AfterFour(x: Locks, moves: seq<Move>)
    requires |moves| == 4
    ensures After(x, moves) == Next(Next(Next(Next(x, moves[0]), moves[1]), moves[2]), moves[3])
  {
    hide Next;
    assert moves[..3][..2] == moves[..2] && moves[..2][..1] == moves[..1] && moves[..1][..0] == [];
    assert After(x, moves[..1]) == Next(x, moves[0]);
    assert After(x, moves[..2]) == Next(After(x, moves[..1]), moves[1]);
    assert After(x, moves[..3]) == Next(After(x, moves[..2]), moves[2]);
  }

  function NumberedTx(s: Sale, id: BillId): Tx { TxOf(s, Numbered(id, Some(1))) }

  /** No sale holds this row or this counter. */
  predicate Free(w: World, id: BillId, branchId: BranchId) {
    forall o | o in w.txs :: !HoldsRow(w.txs[o], id) && !HoldsCounter(w.txs[o], branchId)
  }

  /** Without a wait at a key the locks change nothing. */
  lemma NobodyWaits(x: Locks, a: Action)
    requires x.queued == {} == x.shared
    ensures Next(x, Take(a)) == Locks(Step(x.world, a), {}, {})
  {
    hide Step;
  }

  lemma OpensItself(w: World, s: Sale, id: BillId)
    requires w.db.bills == map[] && w.db.byRequest == map[] && w.db.strays.ids == {} && s.t !in w.txs && s.draft.None?
    requires Acceptable(s.request) && id != 0 && forall o | o in w.txs :: !HoldsRow(w.txs[o], id)
    ensures
      Step(Step(Step(w, Begin(s.t, s.request, s.draft, s.invoiceUuid)), CheckRequest(s.t)), CreateBill(s.t, id))
      == w.(txs := w.txs[s.t := TxOf(s, Opened(id))])
  {
    hide Acceptable;
    var w1 := w.(txs := w.txs[s.t := TxOf(s, Begun)]);
    assert Step(w, Begin(s.t, s.request, s.draft, s.invoiceUuid)) == w1;
    var w2 := w.(txs := w.txs[s.t := TxOf(s, Checked)]);
    assert Step(w1, CheckRequest(s.t)) == w2;
    assert !RowHeld(w2, s.t, id);
  }

  lemma NumbersOpened(w: World, s: Sale, id: BillId)
    requires w.db.counters == map[] && Is(w, s, Opened(id)) && s.request.content.state > 0
    requires forall o | o in w.txs && o != s.t :: !HoldsCounter(w.txs[o], s.request.content.branchId)
    ensures Step(w, TakeNumber(s.t)) == w.(txs := w.txs[s.t := NumberedTx(s, id)])
  {
    assert !CounterHeld(w, s.t, s.request.content.branchId);
  }

  lemma NumbersItself(x: Locks, s: Sale, id: BillId)
    requires x.queued == {} == x.shared && x.world.db.bills == map[] && x.world.db.byRequest == map[] && x.world.db.counters == map[]
    requires x.world.db.strays.ids == {}
    requires s.t !in x.world.txs && s.draft.None? && s.request.content.state > 0 && Acceptable(s.request) && id != 0
    requires Free(x.world, id, s.request.content.branchId)
    ensures After(x, UpToNumber(s, id)) == Locks(x.world.(txs := x.world.txs[s.t := NumberedTx(s, id)]), {}, {})
  {
    var w := x.world;
    var begin, w3 := Begin(s.t, s.request, s.draft, s.invoiceUuid), w.(txs := w.txs[s.t := TxOf(s, Opened(id))]);
    assert forall o | o in w.txs :: !HoldsRow(w.txs[o], id);
    assert forall o | o in w3.txs && o != s.t :: !HoldsCounter(w3.txs[o], s.request.content.branchId);
    assert w3.txs[s.t := NumberedTx(s, id)] == w.txs[s.t := NumberedTx(s, id)];
    FourTakes(x, UpToNumber(s, id), begin, CheckRequest(s.t), CreateBill(s.t, id), TakeNumber(s.t));
    hide After, Step, Next, Acceptable, HoldsRow, HoldsCounter, UpToNumber;
    OpensItself(w, s, id);
    NumbersOpened(w3, s, id);
  }

  lemma FourTakes(x: Locks, moves: seq<Move>, a: Action, b: Action, c: Action, d: Action)
    requires x.queued == {} == x.shared && moves == [Take(a), Take(b), Take(c), Take(d)]
    ensures After(x, moves) == Locks(Step(Step(Step(Step(x.world, a), b), c), d), {}, {})
  {
    AfterFour(x, moves);
    hide After, Step, Next;
    NobodyWaits(x, a);
    NobodyWaits(Locks(Step(x.world, a), {}, {}), b);
    NobodyWaits(Locks(Step(Step(x.world, a), b), {}, {}), c);
    NobodyWaits(Locks(Step(Step(Step(x.world, a), b), c), {}, {}), d);
  }

  /**
   Three sales of one request key in three branches deadlock: from a new tenant, whatever else they are, there is a run after which
   two of them wait for each other.
   */
  lemma ThreeBranchesDeadlock(x: Locks, s1: Sale, s2: Sale, s3: Sale)
    requires ThreeBranches(x, s1, s2, s3)
    ensures
      var v := After(After(After(After(x, UpToNumber(s1, 1)), UpToNumber(s2, 2)), UpToNumber(s3, 3)), ThenRollBack(s1, s2, s3));
      v.shared == {s2.t, s3.t} && Cyclic(v)
  {
    hide After, Acceptable;
    NumbersItself(x, s1, 1);
    var x1 := After(x, UpToNumber(s1, 1));
    NumbersItself(x1, s2, 2);
    var x2 := After(x1, UpToNumber(s2, 2));
    NumbersItself(x2, s3, 3);
    var x3 := After(x2, UpToNumber(s3, 3));
    TheFirstRollsBack(x3, s1, s2, s3);
    CyclicIff(After(x3, ThenRollBack(s1, s2, s3)));
  }

  /** Three sales at the key, one of which may have written it. */
  predicate AtOneKey(w: World, s1: Sale, first: Stage, s2: Sale, s3: Sale) {
    && w.txs == map[s1.t := TxOf(s1, first), s2.t := NumberedTx(s2, 2), s3.t := NumberedTx(s3, 3)]
    && s1.t != s2.t && s1.t != s3.t && s2.t != s3.t && w.db.byRequest == map[] && w.db.byNumber == map[]
    && forall s | s in {s1, s2, s3} :: s.request.content.state > 0 && s.request.key == s1.request.key
  }

  lemma TheFirstRollsBack(x: Locks, s1: Sale, s2: Sale, s3: Sale)
    requires AtOneKey(x.world, s1, Numbered(1, Some(1)), s2, s3) && x.queued == {} == x.shared
    ensures
      var v := After(x, ThenRollBack(s1, s2, s3));
      v.shared == {s2.t, s3.t} && TwoShareAKey(v)
  {
    AfterFour(x, ThenRollBack(s1, s2, s3));
    hide After, Next, Step, AtOneKey;
    NobodyWaits(x, UpdateBill(s1.t));
    WritesTheKey(x.world, s1, s2, s3);
    var w1 := Step(x.world, UpdateBill(s1.t));
    OthersQueue(w1, s1, s2, s3);
    RollsBack(w1, s1, s2, s3);
  }

  lemma WritesTheKey(w: World, s1: Sale, s2: Sale, s3: Sale)
    requires AtOneKey(w, s1, Numbered(1, Some(1)), s2, s3)
    ensures AtOneKey(Step(w, UpdateBill(s1.t)), s1, Updated(1, Some(1)), s2, s3)
  {
    assert !KeyHeld(w, s1.t, s1.request.key);
  }

  lemma OthersQueue(w: World, s1: Sale, s2: Sale, s3: Sale)
    requires AtOneKey(w, s1, Updated(1, Some(1)), s2, s3)
    ensures Next(Next(Locks(w, {}, {}), CheckKey(s2.t)), CheckKey(s3.t)) == Locks(w, {s2.t, s3.t}, {})
  {
    hide Step;
    assert HoldsKey(w.txs[s1.t], s1.request.key);
    assert KeyHeld(w, s2.t, s1.request.key) && KeyHeld(w, s3.t, s1.request.key);
  }

  lemma RollsBack(w: World, s1: Sale, s2: Sale, s3: Sale)
    requires AtOneKey(w, s1, Updated(1, Some(1)), s2, s3)
    ensures
      var v := Next(Locks(w, {s2.t, s3.t}, {}), Take(Abort(s1.t)));
      v.shared == {s2.t, s3.t} && TwoShareAKey(v)
  {
    var v := Next(Locks(w, {s2.t, s3.t}, {}), Take(Abort(s1.t)));
    RolledBack(w, s1, s2, s3);
    hide Step;
    assert AtOneKey(v.world, s1, Done(Failed), s2, s3);
    assert !KeyHeld(v.world, s2.t, s1.request.key) && !KeyHeld(v.world, s3.t, s1.request.key);
    assert v.shared == {s2.t, s3.t};
    assert WaitsForShare(v, s2.t, s3.t);
  }

  lemma RolledBack(w: World, s1: Sale, s2: Sale, s3: Sale)
    requires AtOneKey(w, s1, Updated(1, Some(1)), s2, s3)
    ensures AtOneKey(Step(w, Abort(s1.t)), s1, Done(Failed), s2, s3)
  {
  }
}
