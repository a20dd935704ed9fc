/** The two steps that commit: a sale and the deletion of a draft. */
module SaleCommit {
  import opened Options
  import opened LineTotals
  import opened Stock
  import opened SaleTypes
  import opened SaleProtocol
  import opened SaleInvariant
  import opened SaleSteps

  // ---------------------------------------------------------------- the bill a sale writes

  /** What a sale may write over: its own new id or its own open draft, and with what. */
  ghost predicate Writable(db: Db, id: BillId, b: Bill) {
    && id != 0 && (if id in db.bills then !FinalBill(db.bills[id]) else id !in db.strays.ids)
    && (FinalBill(b) <==> b.ident.Some?) && (FinalBill(b) <==> b.number.Some?)
    && (FinalBill(b) ==>
          && b.state == b.content.state && b.ident.value.fingerprint == b.content
          && b.ident.value.key !in db.byRequest && b.number.value == LastValue(db, b.content.branchId) + 1)
    && PaymentOk(b) && LinesOk(b, db.shelf.Keys)
  }

  /** The bill, the unique keys and the counter after the write. */
  ghost predicate Wrote(db: Db, d: Db, id: BillId, b: Bill) {
    && d.bills == db.bills[id := b]
    && d.byRequest == (if b.ident.Some? then db.byRequest[b.ident.value.key := id] else db.byRequest)
    && d.byNumber == (if b.number.Some? then db.byNumber[Slot(b.content.branchId, b.number.value) := id] else db.byNumber)
    && d.counters == (if b.number.Some? then db.counters[b.content.branchId := b.number.value] else db.counters)
    && d.shelf.Keys == db.shelf.Keys
    && d.strays.ids == db.strays.ids && d.strays.outbox == db.strays.outbox && d.strays.payments.Keys <= db.strays.payments.Keys
  }

  /** A draft's old lines and payments are replaced, so the finished bill is its request's alone. */
  lemma FinishedBillIsTheRequests(db: Db, tx: Tx)
    requires tx.SaleTx? && tx.stage.Updated? && TxOk(db, tx) && FinishedBill(db, tx).Some?
    ensures
      var b, c := FinishedBill(db, tx).value, tx.request.content;
      && b.state == c.state && b.content == c && b.number == tx.stage.number && b.ident == IdentOf(tx)
      && b.lines == SaleLines(c) && b.totals == RefreshedTotals(b.lines) && PaymentOk(b)
  {
    hide SaleLines, RefreshedTotals;
    assert [] + SaleLines(tx.request.content) == SaleLines(tx.request.content);
  }

  lemma CommittedIsAWrite(tenant: Tenant, db: Db, tx: Tx, mode: Mode, unread: set<nat>, rowId: RowId, eventId: string)
    requires tx.SaleTx? && tx.stage.Updated? && TxOk(db, tx) && NonNegative(db.shelf)
    requires Committed(tenant, db, tx, mode, unread, rowId, eventId).Some?
    ensures
      var d, b := Committed(tenant, db, tx, mode, unread, rowId, eventId).value, FinishedBill(db, tx).value;
      && FinishedBill(db, tx).Some?
      && Writable(db, tx.stage.bill, b) && Wrote(db, d, tx.stage.bill, b) && NonNegative(d.shelf)
      && (forall p | p in db.shelf ::
            d.shelf[p] - db.shelf[p] == LedgerSum(d.movements, p) - LedgerSum(db.movements, p) + HalvesTaken(tx.request.content, mode, unread, p))
  {
    hide FinishedBill, SaleLines, QueuedEvent, SaleDeduction, TxOk, Writable, LedgerSum, NonNegative;
    FinishedBillIsWritable(db, tx);
    UpdatedTxFacts(db, tx);
    StockAfter(db, tx.request.content, mode, unread);
    assert FinishedBill(db, tx).value.ident == IdentOf(tx) by { FinishedBillIsTheRequests(db, tx); }
    assert FinishedBill(db, tx).value.number == tx.stage.number by { FinishedBillIsTheRequests(db, tx); }
    assert FinishedBill(db, tx).value.content == tx.request.content by { FinishedBillIsTheRequests(db, tx); }
  }

  lemma FinishedBillIsWritable(db: Db, tx: Tx)
    requires tx.SaleTx? && tx.stage.Updated? && TxOk(db, tx) && FinishedBill(db, tx).Some?
    requires Storable(SaleLines(tx.request.content), db.shelf.Keys)
    ensures Writable(db, tx.stage.bill, FinishedBill(db, tx).value)
  {
    FinishedBillIsTheRequests(db, tx);
    UpdatedTxFacts(db, tx);
    hide FinishedBill, SaleLines, RefreshedTotals, PaymentOk, Storable, TxOk;
  }

  /** What a sale may rely on once its bill row is updated. */
  lemma UpdatedTxFacts(db: Db, tx: Tx)
    requires tx.SaleTx? && tx.stage.Updated? && TxOk(db, tx)
    ensures OpenSale(db, tx, tx.stage.bill) && NumberOk(db, tx, tx.stage.number)
    ensures tx.request.content.state > 0 ==> tx.request.key !in db.byRequest
    ensures tx.draft.Some? ==> tx.draft.value == tx.stage.bill
    ensures tx.request.content.state > 0 ==> Positive(tx.request.content.products)
  {
    if tx.request.content.state > 0 { CheckedLinesArePositive(tx.request.content); }
    hide Acceptable;
  }

  lemma CheckedLinesArePositive(c: Content)
    requires c.state > 0 && VerifyFinalSale(c)
    ensures Positive(c.products)
  {
    forall i | 0 <= i < |c.products| ensures c.products[i].quantity > 0.0 {
      assert c.products[i] in c.products + c.manualProducts;
    }
  }

  /** How many thousandths of a product the ledger records beyond what a sale takes: one for each of its lines that lies halfway. */
  function HalvesTaken(c: Content, mode: Mode, unread: set<nat>, p: nat): nat {
    if c.state > 0 && !mode.Disable? then Halves(Without(c.products, unread), p) else 0
  }

  /** What a sale takes from the shelf is what its movements say, but for its lines that lie halfway. */
  lemma StockAfter(db: Db, c: Content, mode: Mode, unread: set<nat>)
    requires NonNegative(db.shelf) && SaleDeduction(db, c, mode, unread).Deducted? && (c.state > 0 ==> Positive(c.products))
    ensures
      var deduction := SaleDeduction(db, c, mode, unread);
      && deduction.shelf.Keys == db.shelf.Keys && NonNegative(deduction.shelf)
      && (forall p | p in db.shelf ::
            deduction.shelf[p] - db.shelf[p]
            == LedgerSum(db.movements + deduction.movements, p) - LedgerSum(db.movements, p) + HalvesTaken(c, mode, unread, p))
  {
    var deduction := SaleDeduction(db, c, mode, unread);
    if c.state > 0 {
      WithoutIsPositive(c.products, unread);
      DeductionIsRecorded(db.shelf, Without(c.products, unread), mode, [], []);
    }
    forall p | p in db.shelf
      ensures LedgerSum(db.movements + deduction.movements, p) == LedgerSum(db.movements, p) + LedgerSum(deduction.movements, p)
    {
      LedgerSumConcat(db.movements, deduction.movements, p);
    }
  }

  // ---------------------------------------------------------------- the database after it

  lemma OtherBillsKept(db: Db, d: Db, id: BillId, b: Bill, i: BillId)
    requires Writable(db, id, b) && Wrote(db, d, id, b) && NumbersOk(db)
    requires i in db.bills && i != id && BillOk(db, i)
    ensures BillOk(d, i)
  {
    if b.number.Some? { NumberIsUnused(db, b.content.branchId); }
  }

  lemma RequestKeysAfter(db: Db, d: Db, id: BillId, b: Bill)
    requires Writable(db, id, b) && Wrote(db, d, id, b) && RequestKeysOk(db)
    requires id in db.bills ==> BillOk(db, id)
    ensures RequestKeysOk(d)
  {
  }

  /** The counter moves by one and the new number fills the new slot: 1 to last_value stays full. */
  lemma NumbersAfter(db: Db, d: Db, id: BillId, b: Bill)
    requires Writable(db, id, b) && Wrote(db, d, id, b) && NumbersOk(db)
    requires id in db.bills ==> BillOk(db, id)
    ensures NumbersOk(d)
  {
    hide LinesOk, PaymentOk;
    forall s | s in d.byNumber ensures SlotOk(d, s) {
      if s in db.byNumber { assert SlotOk(db, s); }
    }
    forall branch: BranchId, n: nat | 1 <= n <= LastValue(d, branch) ensures Slot(branch, n) in d.byNumber {
      assert n <= LastValue(db, branch) ==> Slot(branch, n) in db.byNumber;
    }
  }

  lemma OldEventsOk(tenant: Tenant, db: Db, d: Db, id: BillId, b: Bill, row: RowId)
    requires Writable(db, id, b) && Wrote(db, d, id, b) && EventsOk(tenant, db)
    requires id in db.bills ==> BillOk(db, id)
    requires row in db.outbox
    ensures db.outbox[row].payload.id != id && EventOk(tenant, d, db.outbox[row])
  {
    hide LinesOk, PaymentOk, BillEvent;
    assert EventOk(tenant, db, db.outbox[row]);
  }

  /** The event that a final sale adds, when it adds one. */
  lemma NewEvent(tenant: Tenant, db: Db, d: Db, id: BillId, b: Bill, rowId: RowId, eventId: string)
    requires id in d.bills && d.bills[id] == b && b.ident.Some?
    requires QueuedEvent(tenant, db, id, b.content, b.ident, rowId, eventId) == Some(d.outbox)
    ensures rowId !in db.outbox && rowId in d.outbox && d.outbox == db.outbox[rowId := d.outbox[rowId]]
    ensures d.outbox[rowId].payload.id == id && EventOk(tenant, d, d.outbox[rowId])
    ensures forall i | i in db.outbox :: db.outbox[i].eventId != d.outbox[rowId].eventId
  {
    EventFields(tenant, id, b.content.branchId, b.ident.value, eventId);
    hide BillEvent;
  }

  /** One more event, of a bill and under an id that no event had. */
  lemma EventsGrow(tenant: Tenant, db: Db, d: Db, id: BillId, rowId: RowId)
    requires id in d.bills && d.bills == db.bills[id := d.bills[id]]
    requires EventsOk(tenant, db) && rowId !in db.outbox && rowId in d.outbox && d.outbox == db.outbox[rowId := d.outbox[rowId]]
    requires forall i | i in d.outbox :: EventOk(tenant, d, d.outbox[i])
    requires d.outbox[rowId].payload.id == id
    requires forall i | i in db.outbox :: db.outbox[i].payload.id != id && db.outbox[i].eventId != d.outbox[rowId].eventId
    ensures EventsOk(tenant, d)
  {
    hide EventOk, FinalBill;
    assert Reports(d, rowId, id);
    FinalsReported(db, d, id);
    hide Reports;
  }

  lemma EventsStay(tenant: Tenant, db: Db, d: Db, id: BillId)
    requires id in d.bills && d.bills == db.bills[id := d.bills[id]] && !FinalBill(d.bills[id])
    requires EventsOk(tenant, db) && d.outbox == db.outbox
    requires forall i | i in d.outbox :: EventOk(tenant, d, d.outbox[i])
    ensures EventsOk(tenant, d)
  {
    hide EventOk, FinalBill;
    FinalsReported(db, d, id);
    hide Reports;
  }

  lemma EventsAfter(tenant: Tenant, db: Db, d: Db, id: BillId, b: Bill, rowId: RowId, eventId: string)
    requires Writable(db, id, b) && Wrote(db, d, id, b) && EventsOk(tenant, db)
    requires id in db.bills ==> BillOk(db, id)
    requires QueuedEvent(tenant, db, id, b.content, b.ident, rowId, eventId) == Some(d.outbox)
    ensures EventsOk(tenant, d)
  {
    assert FinalBill(b) <==> b.ident.Some?;
    assert d.bills == db.bills[id := b];
    assert b.ident.None? ==> d.outbox == db.outbox;
    hide BillOk, Writable, EventOk, Wrote, QueuedEvent, FinalBill, EventsOk, Reports;
    forall i | i in db.outbox ensures db.outbox[i].payload.id != id && EventOk(tenant, d, db.outbox[i]) {
      OldEventsOk(tenant, db, d, id, b, i);
    }
    if b.ident.Some? {
      NewEvent(tenant, db, d, id, b, rowId, eventId);
      EventsGrow(tenant, db, d, id, rowId);
    } else {
      EventsStay(tenant, db, d, id);
    }
  }

  lemma FinalsReported(db: Db, d: Db, id: BillId)
    requires forall i | i in db.bills && FinalBill(db.bills[i]) :: exists row :: Reports(db, row, i)
    requires id in d.bills && d.bills == db.bills[id := d.bills[id]] && (FinalBill(d.bills[id]) ==> exists row :: Reports(d, row, id))
    requires forall row | row in db.outbox :: row in d.outbox && d.outbox[row] == db.outbox[row]
    ensures forall i | i in d.bills && FinalBill(d.bills[i]) :: exists row :: Reports(d, row, i)
  {
    forall i | i in d.bills && FinalBill(d.bills[i]) ensures exists row :: Reports(d, row, i) {
      if i != id {
        var row :| Reports(db, row, i);
        assert Reports(d, row, i);
      }
    }
  }

  lemma WriteKeepsDb(tenant: Tenant, db: Db, d: Db, id: BillId, b: Bill)
    requires DbOk(tenant, db) && Writable(db, id, b) && Wrote(db, d, id, b)
    requires EventsOk(tenant, d) && NonNegative(d.shelf) && d.outbox.Keys !! d.strays.outbox.Keys
    requires d.deductions == db.deductions || (FinalBill(b) && d.deductions == db.deductions + multiset{id})
    ensures DbOk(tenant, d)
  {
    hide EventsOk, LinesOk, PaymentOk, RequestKeysOk, NumbersOk, NonNegative, StateOk;
    StraysAfter(db, d, id, b);
    hide StraysOk;
    forall i | i in d.bills ensures BillOk(d, i) {
      if i != id { OtherBillsKept(db, d, id, b, i); } else { NewBillOk(db, d, id, b); }
    }
    RequestKeysAfter(db, d, id, b);
    NumbersAfter(db, d, id, b);
    DeductionsAfter(db, d, id, b);
  }

  lemma StraysAfter(db: Db, d: Db, id: BillId, b: Bill)
    requires StraysOk(db) && Writable(db, id, b) && Wrote(db, d, id, b) && d.outbox.Keys !! d.strays.outbox.Keys
    ensures StraysOk(d)
  {
    hide LinesOk, PaymentOk;
  }

  lemma NewBillOk(db: Db, d: Db, id: BillId, b: Bill)
    requires Writable(db, id, b) && Wrote(db, d, id, b)
    ensures BillOk(d, id)
  {
    hide LinesOk, PaymentOk;
    assert LinesOk(b, d.shelf.Keys) && PaymentOk(b);
  }

  /** Only the sale that makes a bill final deducts its stock. */
  lemma DeductionsAfter(db: Db, d: Db, id: BillId, b: Bill)
    requires Writable(db, id, b) && Wrote(db, d, id, b) && DeductionsOk(db)
    requires d.deductions == db.deductions || (FinalBill(b) && d.deductions == db.deductions + multiset{id})
    ensures DeductionsOk(d)
  {
    hide LinesOk, PaymentOk;
    assert id !in db.deductions;
  }

  lemma WriteKeepsFinals(db: Db, d: Db, id: BillId, b: Bill)
    requires Writable(db, id, b) && Wrote(db, d, id, b)
    ensures FinalsKept(db, d)
  {
  }

  // ---------------------------------------------------------------- the other transactions

  /** A commit touches only what its transaction had locked, so no other transaction's view of its own is lost. */
  lemma OtherTxKept(db: Db, d: Db, mine: Tx, b: Bill, other: Tx)
    requires mine.SaleTx? && mine.stage.Updated? && TxOk(db, other)
    requires Writable(db, mine.stage.bill, b) && Wrote(db, d, mine.stage.bill, b)
    requires b.number == mine.stage.number && b.content == mine.request.content && b.ident == IdentOf(mine)
    requires Compatible(mine, other)
    ensures TxOk(d, other)
  {
    hide LinesOk, PaymentOk;
    FreeOfLocks(mine, other);
    if b.number.Some? {
      assert other.SaleTx? && (other.stage.Numbered? || other.stage.Updated?) && other.request.content.branchId == b.content.branchId
        ==> other.stage.number.None?;
    }
    if b.ident.Some? {
      assert other.SaleTx? && other.stage.Updated? && other.request.content.state > 0 ==> other.request.key != b.ident.value.key;
    }
  }

  lemma FreeOfLocks(mine: Tx, other: Tx)
    requires mine.SaleTx? && mine.stage.Updated? && Compatible(mine, other)
    ensures !HoldsRow(other, mine.stage.bill)
    ensures mine.stage.number.Some? ==> !HoldsCounter(other, mine.request.content.branchId)
    ensures mine.request.content.state > 0 ==> !HoldsKey(other, mine.request.key)
  {
  }

  /** The sale's commit: its bill, lines, totals, stock, event and payment together, and the answer. */
  lemma CommitKeepsInv(w: World, t: TxId, mode: Mode, unread: set<nat>, rowId: RowId, eventId: string, delivered: bool)
    requires Inv(w)
    ensures Inv(Step(w, Commit(t, mode, unread, rowId, eventId, delivered)))
    ensures FinalsKept(w.db, Step(w, Commit(t, mode, unread, rowId, eventId, delivered)).db)
  {
    hide Committed, FinishedBill, DbOk, TxOk, Compatible, AnswerOk, NonNegative;
    var v := Step(w, Commit(t, mode, unread, rowId, eventId, delivered));
    if v.db != w.db || v.txs != w.txs {
      var tx, id := w.txs[t], w.txs[t].stage.bill;
      assert NonNegative(w.db.shelf) by { DbParts(w.tenant, w.db); }
      CommittedIsAWrite(w.tenant, w.db, tx, mode, unread, rowId, eventId);
      var b := FinishedBill(w.db, tx).value;
      FinishedBillIsTheRequests(w.db, tx);
      WriteKeepsFinals(w.db, v.db, id, b);
      CommittedDbOk(w.tenant, w.db, tx, mode, unread, rowId, eventId);
      forall o | o in v.txs ensures TxOk(v.db, v.txs[o]) {
        if o == t { DoneOk(w.db, v.db, tx, v.txs[t].stage); } else { OtherTxKept(w.db, v.db, tx, b, w.txs[o]); }
      }
      forall k | 0 <= k < |v.answers| ensures AnswerOk(v.db, v.answers[k]) {
        if k < |w.answers| {
          AnswerKept(w.db, v.db, w.answers[k]);
        } else {
          NewAnswerOk(w.db, v.db, tx, b);
        }
      }
      DoneLocksOk(w, v, t);
    }
  }

  lemma DbParts(tenant: Tenant, db: Db)
    requires DbOk(tenant, db)
    ensures NonNegative(db.shelf) && EventsOk(tenant, db)
    ensures forall i | i in db.bills :: BillOk(db, i)
  {
  }

  lemma DoneOk(db: Db, d: Db, tx: Tx, stage: Stage)
    requires TxOk(db, tx) && stage.Done?
    ensures TxOk(d, tx.(stage := stage))
  {
  }

  lemma DoneLocksOk(w: World, v: World, t: TxId)
    requires LocksOk(w) && t in w.txs && t in v.txs && v.txs == w.txs[t := v.txs[t]]
    requires v.txs[t] == w.txs[t].(stage := v.txs[t].stage) && v.txs[t].stage.Done?
    ensures LocksOk(v)
  {
  }

  lemma NewAnswerOk(db: Db, d: Db, tx: Tx, b: Bill)
    requires tx.SaleTx? && tx.stage.Updated? && TxOk(db, tx)
    requires Writable(db, tx.stage.bill, b) && Wrote(db, d, tx.stage.bill, b)
    requires b.content == tx.request.content && b.ident == IdentOf(tx)
    ensures AnswerOk(d, Answer(tx.request, tx.draft, tx.stage.bill))
  {
    hide LinesOk, PaymentOk;
  }

  lemma RowsStayApart(tenant: Tenant, db: Db, d: Db, id: BillId, b: Bill, rowId: RowId, eventId: string)
    requires StraysOk(db) && d.strays.outbox == db.strays.outbox
    requires QueuedEvent(tenant, db, id, b.content, b.ident, rowId, eventId) == Some(d.outbox)
    ensures d.outbox.Keys !! d.strays.outbox.Keys
  {
    hide BillEvent;
  }

  lemma CommittedDbOk(tenant: Tenant, db: Db, tx: Tx, mode: Mode, unread: set<nat>, rowId: RowId, eventId: string)
    requires DbOk(tenant, db) && tx.SaleTx? && tx.stage.Updated? && TxOk(db, tx)
    requires Committed(tenant, db, tx, mode, unread, rowId, eventId).Some?
    ensures DbOk(tenant, Committed(tenant, db, tx, mode, unread, rowId, eventId).value)
  {
    DbParts(tenant, db);
    CommittedIsAWrite(tenant, db, tx, mode, unread, rowId, eventId);
    FinishedBillIsTheRequests(db, tx);
    hide FinishedBill, TxOk, BillOk, DbOk, Wrote, Writable, EventsOk, QueuedEvent, SaleDeduction, NonNegative;
    var d, id, b := Committed(tenant, db, tx, mode, unread, rowId, eventId).value, tx.stage.bill, FinishedBill(db, tx).value;
    EventsAfter(tenant, db, d, id, b, rowId, eventId);
    RowsStayApart(tenant, db, d, id, b, rowId, eventId);
    WriteKeepsDb(tenant, db, d, id, b);
  }

  // ---------------------------------------------------------------- deleting a draft

  lemma DeletedDbOk(tenant: Tenant, db: Db, id: BillId, mode: Mode)
    requires DbOk(tenant, db) && id in db.bills && db.bills[id].state == 0 && DeletedDb(db, id, mode).Some?
    ensures
      var d := DeletedDb(db, id, mode).value;
      && DbOk(tenant, d) && FinalsKept(db, d)
      && d.bills == db.bills[id := db.bills[id].(state := -1)] && d.byRequest == db.byRequest && d.counters == db.counters
      && d.strays == db.strays && d.shelf.Keys == db.shelf.Keys
      && (forall p | p in db.shelf :: d.shelf[p] - db.shelf[p] == LedgerSum(d.movements, p) - LedgerSum(db.movements, p))
  {
    var d, lines := DeletedDb(db, id, mode).value, db.bills[id].lines;
    assert BillOk(db, id);
    assert PositiveLines(lines) && KnownProducts(db.shelf, lines);
    RestoreIsRecorded(db.shelf, lines, mode, []);
    var moved := Restore(db.shelf, lines, mode).movements;
    forall p | p in db.shelf ensures LedgerSum(db.movements + moved, p) == LedgerSum(db.movements, p) + LedgerSum(moved, p) {
      LedgerSumConcat(db.movements, moved, p);
    }
    DeletionKeepsDb(tenant, db, d, id);
  }

  lemma DeletionKeepsDb(tenant: Tenant, db: Db, d: Db, id: BillId)
    requires DbOk(tenant, db) && id in db.bills && db.bills[id].state == 0
    requires d == db.(bills := db.bills[id := db.bills[id].(state := -1)], shelf := d.shelf, movements := d.movements)
    requires d.shelf.Keys == db.shelf.Keys && NonNegative(d.shelf)
    ensures DbOk(tenant, d) && FinalsKept(db, d)
  {
    hide LinesOk, PaymentOk, BillEvent, EventsOk, NumbersOk, RequestKeysOk, NonNegative;
    forall i | i in d.bills ensures BillOk(d, i) {
      assert BillOk(db, i);
      SameLinesAndPayments(db.bills[i], d.bills[i], d.shelf.Keys);
    }
    assert BillOk(db, id);
    DeletionKeepsKeys(db, d, id);
    DeletionKeepsEvents(tenant, db, d, id);
  }

  lemma DeletionKeepsKeys(db: Db, d: Db, id: BillId)
    requires NumbersOk(db) && RequestKeysOk(db) && id in db.bills && db.bills[id].state == 0 && BillOk(db, id)
    requires d.bills == db.bills[id := db.bills[id].(state := -1)]
    requires d.byRequest == db.byRequest && d.byNumber == db.byNumber && d.counters == db.counters
    ensures NumbersOk(d) && RequestKeysOk(d)
  {
    hide LinesOk, PaymentOk;
    forall s | s in d.byNumber ensures SlotOk(d, s) { assert SlotOk(db, s); }
    assert forall b: BranchId :: LastValue(d, b) == LastValue(db, b);
  }

  lemma DeletionKeepsEvents(tenant: Tenant, db: Db, d: Db, id: BillId)
    requires EventsOk(tenant, db) && id in db.bills && db.bills[id].state == 0
    requires d.bills == db.bills[id := db.bills[id].(state := -1)] && d.outbox == db.outbox
    ensures EventsOk(tenant, d)
  {
    hide BillEvent;
    forall i | i in d.outbox ensures EventOk(tenant, d, d.outbox[i]) {
      assert EventOk(tenant, db, db.outbox[i]);
    }
    forall i | i in d.bills && FinalBill(d.bills[i]) ensures exists row :: Reports(d, row, i) {
      var row :| Reports(db, row, i);
      assert Reports(d, row, i);
    }
  }

  lemma SameLinesAndPayments(b: Bill, c: Bill, products: set<nat>)
    requires c == b.(state := c.state) && PaymentOk(b) && LinesOk(b, products)
    ensures PaymentOk(c) && LinesOk(c, products)
  {
  }

  lemma DeletionLeavesTx(db: Db, d: Db, id: BillId, other: Tx)
    requires TxOk(db, other) && !HoldsRow(other, id)
    requires id in db.bills && db.bills[id].state == 0
    requires d.bills == db.bills[id := db.bills[id].(state := -1)] && d.byRequest == db.byRequest && d.counters == db.counters
    requires d.strays == db.strays
    ensures TxOk(d, other)
  {
  }

  lemma CommitDeleteKeepsInv(w: World, t: TxId, mode: Mode)
    requires Inv(w)
    ensures Inv(Step(w, CommitDelete(t, mode)))
    ensures FinalsKept(w.db, Step(w, CommitDelete(t, mode)).db)
  {
    hide DeletedDb, DbOk, AnswerOk;
    var v := Step(w, CommitDelete(t, mode));
    if v.db != w.db || v.txs != w.txs {
      var id := w.txs[t].stage.bill;
      assert TxOk(w.db, w.txs[t]);
      DeletedDbOk(w.tenant, w.db, id, mode);
      forall o | o in v.txs ensures TxOk(v.db, v.txs[o]) {
        if o == t { DoneOk(w.db, v.db, w.txs[t], v.txs[t].stage); } else {
          assert Compatible(w.txs[t], w.txs[o]);
          DeletionLeavesTx(w.db, v.db, id, w.txs[o]);
        }
      }
      forall k | 0 <= k < |v.answers| ensures AnswerOk(v.db, v.answers[k]) {
        AnswerKept(w.db, v.db, w.answers[k]);
      }
      DoneLocksOk(w, v, t);
    }
  }

  // ---------------------------------------------------------------- all steps

  lemma StepKeepsInv(w: World, a: Action)
    requires Inv(w)
    ensures Inv(Step(w, a))
    ensures FinalsKept(w.db, Step(w, a).db)
  {
    hide Inv, Committed, DeletedDb, RequestReply, LockedStage, RowHeld, CounterHeld, KeyHeld, LastValue, CanBeLost;
    hide LoseStep, StrayLineStep, StrayEventStep, ClearStep, PayStep;
    var t := a.t;
    if Step(w, a) != w {
      match a
      case Begin(_, request, draft, uuid) => BeginKeepsInv(w, t, SaleTx(request, draft, uuid, Begun));
      case BeginDelete(_, id) => BeginKeepsInv(w, t, DeleteTx(Some(id), Begun));
      case CheckRequest(_) => GoToKeepsInv(w, t, Checked);
      case CreateBill(_, id) => CreateBillKeepsInv(w, t, id);
      case LockBill(_) => LockBillKeepsInv(w, t);
      case ReadFinalDraft(_) => GoToKeepsInv(w, t, Done(AlreadyFinal));
      case TakeNumber(_) => TakeNumberKeepsInv(w, t);
      case UpdateBill(_) => UpdateBillKeepsInv(w, t);
      case LoseTransaction(_, mode, unread, line) => LoseKeepsInv(w, t, mode, unread, line);
      case TakeStrayLine(_, read, recorded) => StrayLineKeepsInv(w, t, read, recorded);
      case AppendStrayEvent(_, rowId, eventId) => StrayEventKeepsInv(w, t, rowId, eventId);
      case ClearStrayPayments(_) => ClearKeepsInv(w, t);
      case PayStray(_, delivered) => PayKeepsInv(w, t, delivered);
      case Commit(_, mode, unread, rowId, eventId, delivered) => CommitKeepsInv(w, t, mode, unread, rowId, eventId, delivered);
      case RereadRequest(_) => GoToKeepsInv(w, t, Done(AlreadyRecorded));
      case CommitDelete(_, mode) => CommitDeleteKeepsInv(w, t, mode);
      case Abort(_) => AbortKeepsInv(w, t);
    }
  }

  lemma {:induction false} RunKeepsInv(w: World, actions: seq<Action>)
    requires Inv(w)
    ensures Inv(Run(w, actions)) && FinalsKept(w.db, Run(w, actions).db)
  {
    hide Inv, Step;
    if actions != [] {
      var before := Run(w, actions[..|actions| - 1]);
      RunKeepsInv(w, actions[..|actions| - 1]);
      StepKeepsInv(before, actions[|actions| - 1]);
    }
  }

  lemma InitialInv(w: World)
    requires Initial(w)
    ensures Inv(w)
  {
  }
}
