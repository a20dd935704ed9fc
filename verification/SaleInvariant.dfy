/** What every step of the sale command keeps. */
module SaleInvariant {
  import opened Options
  import opened LineTotals
  import opened Stock
  import opened SaleTypes
  import opened SaleProtocol

  // ---------------------------------------------------------------- committed bills

  /** At most one payment: there is one exactly when something was paid, for what was paid, within the total. */
  ghost predicate PaymentOk(b: Bill) {
    && b.amountPaid as real == b.content.paidAmount >= 0.0
    && (if b.amountPaid > 0 then b.payments == [b.amountPaid] && b.amountPaid <= b.totals.total else b.payments == [])
  }

  /** The lines are those of the content, and the totals are theirs. */
  ghost predicate LinesOk(b: Bill, products: set<nat>) {
    && b.lines == SaleLines(b.content) && b.totals == RefreshedTotals(b.lines) && Storable(b.lines, products)
  }

  predicate FinalBill(b: Bill) { b.state > 0 }

  /** Final, identified and numbered are one thing, and the unique keys point back at the bill. */
  ghost predicate StateOk(db: Db, id: BillId, b: Bill) {
    && (FinalBill(b) <==> b.ident.Some?) && (FinalBill(b) <==> b.number.Some?)
    && (FinalBill(b) ==>
          && b.state == b.content.state && b.ident.value.fingerprint == b.content
          && b.ident.value.key in db.byRequest && db.byRequest[b.ident.value.key] == id
          && Slot(b.content.branchId, b.number.value) in db.byNumber
          && db.byNumber[Slot(b.content.branchId, b.number.value)] == id)
  }

  ghost predicate BillOk(db: Db, id: BillId)
    requires id in db.bills
  {
    && id != 0 && StateOk(db, id, db.bills[id]) && PaymentOk(db.bills[id]) && LinesOk(db.bills[id], db.shelf.Keys)
  }

  ghost predicate RequestKeysOk(db: Db) {
    forall k | k in db.byRequest ::
      && db.byRequest[k] in db.bills && db.bills[db.byRequest[k]].ident.Some?
      && db.bills[db.byRequest[k]].ident.value.key == k
  }

  ghost predicate SlotOk(db: Db, s: Slot)
    requires s in db.byNumber
  {
    && db.byNumber[s] in db.bills && db.bills[db.byNumber[s]].number == Some(s.number)
    && db.bills[db.byNumber[s]].content.branchId == s.branchId
    && 1 <= s.number <= LastValue(db, s.branchId)
  }

  ghost predicate NumbersOk(db: Db) {
    && (forall s | s in db.byNumber :: SlotOk(db, s))
    && (forall b: BranchId, n: nat :: 1 <= n <= LastValue(db, b) ==> Slot(b, n) in db.byNumber)
  }

  // ---------------------------------------------------------------- the outbox rows of the sales

  ghost predicate EventOk(tenant: Tenant, db: Db, e: Event) {
    && e.payload.id in db.bills && db.bills[e.payload.id].ident.Some?
    && BillEvent(tenant, e.payload.id, db.bills[e.payload.id].content.branchId, db.bills[e.payload.id].ident.value, e.eventId) == Some(e)
  }

  ghost predicate Reports(db: Db, row: RowId, id: BillId) { row in db.outbox && db.outbox[row].payload.id == id }

  ghost predicate EventsOk(tenant: Tenant, db: Db) {
    && (forall i | i in db.outbox :: EventOk(tenant, db, db.outbox[i]))
    && (forall i, j | i in db.outbox && j in db.outbox && db.outbox[i].payload.id == db.outbox[j].payload.id :: i == j)
    && (forall i, j | i in db.outbox && j in db.outbox && db.outbox[i].eventId == db.outbox[j].eventId :: i == j)
    && (forall id | id in db.bills && FinalBill(db.bills[id]) :: exists i :: Reports(db, i, id))
  }

  ghost predicate DeductionsOk(db: Db) {
    forall id | id in db.deductions :: db.deductions[id] == 1 && id in db.bills && FinalBill(db.bills[id])
  }

  /** The two kinds of rows have rows of their own, and an id that was dropped with its sale is the id of no bill. */
  ghost predicate StraysOk(db: Db) {
    && db.outbox.Keys !! db.strays.outbox.Keys && db.strays.payments.Keys <= db.bills.Keys
    && db.strays.ids !! db.bills.Keys
    && (forall i | i in db.strays.outbox :: db.strays.outbox[i].payload.id in db.strays.ids + db.bills.Keys)
  }

  ghost predicate DbOk(tenant: Tenant, db: Db) {
    && (forall id | id in db.bills :: BillOk(db, id)) && StraysOk(db)
    && RequestKeysOk(db) && NumbersOk(db) && EventsOk(tenant, db) && DeductionsOk(db) && NonNegative(db.shelf)
  }

  // ---------------------------------------------------------------- open transactions

  ghost predicate BillOfTx(db: Db, tx: Tx, id: BillId) {
    id != 0 && if tx.draft.Some? then id == tx.draft.value && id in db.bills else id !in db.bills && id !in db.strays.ids
  }

  ghost predicate OpenSale(db: Db, tx: Tx, id: BillId) {
    BillOfTx(db, tx, id) && (id in db.bills ==> !FinalBill(db.bills[id]))
  }

  ghost predicate NumberOk(db: Db, tx: Tx, number: Option<nat>)
    requires tx.SaleTx?
  {
    if tx.request.content.state > 0 then number == Some(LastValue(db, tx.request.content.branchId) + 1) else number == None
  }

  /** A sale adrift is a final one. Its draft is in the database, or the id of its new bill is that of none. */
  ghost predicate Drifts(db: Db, tx: Tx, id: BillId)
    requires tx.SaleTx?
  {
    && id != 0 && tx.request.content.state > 0
    && if tx.draft.Some? then id == tx.draft.value && id in db.bills else id in db.strays.ids
  }

  ghost predicate TxOk(db: Db, tx: Tx) {
    if tx.DeleteTx? then
      && tx.draft.Some?
      && (tx.stage.Begun? || tx.stage.Opened? || tx.stage.Done?)
      && (tx.stage.Opened? ==> tx.stage.bill == tx.draft.value && tx.stage.bill in db.bills && db.bills[tx.stage.bill].state == 0)
    else
      && Acceptable(tx.request)
      && match tx.stage
         case Begun => true
         case Checked => tx.draft.None?
         case Opened(id) => OpenSale(db, tx, id)
         case FinalDraft(id) => tx.draft == Some(id) && id in db.bills && FinalBill(db.bills[id])
         case Numbered(id, number) => OpenSale(db, tx, id) && NumberOk(db, tx, number)
         case Updated(id, number) =>
           OpenSale(db, tx, id) && NumberOk(db, tx, number)
           && (tx.request.content.state > 0 ==> tx.request.key !in db.byRequest)
         case LostRace =>
           && tx.request.content.state > 0 && tx.request.key in db.byRequest
           && (tx.draft.Some? ==> db.byRequest[tx.request.key] != tx.draft.value)
         case Adrift(id, mode, left) => Drifts(db, tx, id) && !mode.Disable? && Positive(left)
         case AdriftQueued(id) => Drifts(db, tx, id)
         case AdriftCleared(id) => Drifts(db, tx, id)
         case Done(_) => true
  }

  /** No two transactions hold the same bill row, branch counter or request key. */
  ghost predicate Compatible(x: Tx, y: Tx) {
    && !((x.stage.Opened? || x.stage.FinalDraft? || x.stage.Numbered? || x.stage.Updated?) && HoldsRow(y, x.stage.bill))
    && !(x.SaleTx? && HoldsCounter(x, x.request.content.branchId) && HoldsCounter(y, x.request.content.branchId))
    && !(x.SaleTx? && HoldsKey(x, x.request.key) && HoldsKey(y, x.request.key))
  }

  ghost predicate LocksOk(w: World) {
    forall t, o | t in w.txs && o in w.txs && t != o :: Compatible(w.txs[t], w.txs[o])
  }

  /** A final request is answered with the bill that carries its request key and its content. */
  ghost predicate AnswerOk(db: Db, a: Answer) {
    a.request.content.state > 0 ==>
      && a.request.key in db.byRequest && db.byRequest[a.request.key] == a.bill && a.bill in db.bills
      && FinalBill(db.bills[a.bill]) && db.bills[a.bill].content == a.request.content
      && (a.draft.Some? ==> a.draft.value == a.bill)
  }

  /** What a sale adrift that was new was answered with is the id of no bill. */
  ghost predicate AdriftOk(db: Db, a: Answer) {
    a.request.content.state > 0 && (a.draft.None? ==> a.bill in db.strays.ids)
  }

  ghost predicate Inv(w: World) {
    && DbOk(w.tenant, w.db)
    && (forall t | t in w.txs :: TxOk(w.db, w.txs[t]))
    && LocksOk(w)
    && (forall k | 0 <= k < |w.answers| :: AnswerOk(w.db, w.answers[k]))
    && (forall k | 0 <= k < |w.adrift| :: AdriftOk(w.db, w.adrift[k]))
  }

  // ---------------------------------------------------------------- what commits leave alone

  /** No transaction touches a final bill, and the request keys only grow. */
  ghost predicate FinalsKept(db: Db, d: Db) {
    && (forall id | id in db.bills && FinalBill(db.bills[id]) :: id in d.bills && d.bills[id] == db.bills[id])
    && (forall k | k in db.byRequest :: k in d.byRequest && d.byRequest[k] == db.byRequest[k])
  }

  lemma AnswerKept(db: Db, d: Db, a: Answer)
    requires FinalsKept(db, d) && AnswerOk(db, a)
    ensures AnswerOk(d, a)
  {
  }
}
