/**
 Waiting. With stock enforcement off, a transaction of the sale command takes at most one bill row, then one branch counter, then
 one request key, in that order. These results hold in every state, reachable or not. What a duplicate-key check adds to them, and
 which cycles there are then, is in SaleWaits.
 */
module SaleLocks {
  import opened SaleTypes
  import opened SaleProtocol

  /** t's next statement needs a lock that o holds. */
  predicate WaitsFor(w: World, t: TxId, o: TxId) {
    t in w.txs && o in w.txs && t != o
    && var x, y := w.txs[t], w.txs[o];
       || (x.stage.Begun? && x.draft.Some? && HoldsRow(y, x.draft.value))
       || (x.SaleTx? && x.stage.Opened? && x.request.content.state > 0 && HoldsCounter(y, x.request.content.branchId))
       || (x.SaleTx? && x.stage.Numbered? && x.request.content.state > 0 && HoldsKey(y, x.request.key))
  }

  predicate Unfinished(w: World, t: TxId) { t in w.txs && !w.txs[t].stage.Done? }

  predicate Blocked(w: World, t: TxId) { exists o | o in w.txs :: WaitsFor(w, t, o) }

  /** How many kinds of lock a transaction has passed. */
  function Height(tx: Tx): nat {
    match tx.stage
    case Begun => 0
    case Checked => 0
    case Opened(_) => if tx.SaleTx? then 1 else 3
    case Numbered(_, _) => 2
    case _ => 3
  }

  /** Who holds a lock is further on than who waits for it. */
  lemma WaitingClimbs(w: World, t: TxId, o: TxId)
    requires WaitsFor(w, t, o)
    ensures Unfinished(w, o) && Height(w.txs[t]) < Height(w.txs[o])
  {
  }

  lemma HighestExists(w: World, open: set<TxId>)
    requires open != {} && forall t | t in open :: t in w.txs
    ensures exists t | t in open :: forall o | o in open :: Height(w.txs[o]) <= Height(w.txs[t])
  {
    var t :| t in open;
    if open != {t} {
      HighestExists(w, open - {t});
      var h :| h in open - {t} && forall o | o in open - {t} :: Height(w.txs[o]) <= Height(w.txs[h]);
      var top := if Height(w.txs[h]) <= Height(w.txs[t]) then t else h;
      assert forall o | o in open :: o == t || o in open - {t};
      assert top in open && forall o | o in open :: Height(w.txs[o]) <= Height(w.txs[top]);
    }
  }

  /** Blocked is what it says: the statement a transaction is at does nothing exactly while a lock is held. */
  lemma BlockedIsStandingStill(w: World, t: TxId)
    requires t in w.txs
    ensures w.txs[t].stage.Begun? && w.txs[t].draft.Some? ==> (Step(w, LockBill(t)) == w <==> Blocked(w, t))
    ensures Ready(w, t, true) && w.txs[t].stage.Opened? ==> (Step(w, TakeNumber(t)) == w <==> Blocked(w, t))
    ensures Ready(w, t, true) && w.txs[t].stage.Numbered? ==> (Step(w, UpdateBill(t)) == w <==> Blocked(w, t))
  {
    hide HoldsRow, HoldsCounter, HoldsKey;
    var tx := w.txs[t];
    assert forall o | o in w.txs && o != t :: tx.stage.Begun? && tx.draft.Some? ==> (WaitsFor(w, t, o) <==> HoldsRow(w.txs[o], tx.draft.value));
  }
}
