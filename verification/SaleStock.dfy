/**
 Conservation of stock: what the ledger says was sold is what the final bills hold of the lines that were read, and what
 sales adrift recorded. A product's quantity parts from its ledger by one thousandth for each line sold that lies halfway
 between two, and by what sales adrift took and did not record.
 */
module SaleStock {
  import opened Options
  import opened LineTotals
  import opened Stock
  import opened SaleTypes
  import opened SaleProtocol
  import opened SaleInvariant
  import opened SaleSteps
  import opened SaleCommit
  import opened SaleTheorems

  /** The ledger's sum over the movements of sales alone, those adrift included. */
  function SoldSum(movements: seq<Movement>, p: nat): Quantity {
    if movements == [] then 0
    else
      var last := movements[|movements| - 1];
      SoldSum(movements[..|movements| - 1], p) + if last.product == p && !last.kind.Deletion? then last.quantity else 0
  }

  lemma {:induction false} SoldSumConcat(a: seq<Movement>, b: seq<Movement>, p: nat)
    ensures SoldSum(a + b, p) == SoldSum(a, p) + SoldSum(b, p)
  {
    if b == [] {
      assert a + b == a;
    } else {
      assert (a + b)[..|a + b| - 1] == a + b[..|b| - 1];
      SoldSumConcat(a, b[..|b| - 1], p);
    }
  }

  /** All that a deduction records are sales. */
  lemma {:induction false} DeductionsAreSales(shelf: Shelf, items: seq<Item>, mode: Mode, done: seq<Movement>, warned: seq<Warning>, p: nat)
    requires DeductFrom(shelf, items, mode, done, warned).Deducted?
    ensures
      var d := DeductFrom(shelf, items, mode, done, warned);
      SoldSum(d.movements, p) - SoldSum(done, p) == LedgerSum(d.movements, p) - LedgerSum(done, p)
  {
    hide Moved, Stored;
    if !mode.Disable? && items != [] {
      var l, rest := items[0], items[1..];
      if l.product.None? || l.product.value !in shelf {
        DeductionsAreSales(shelf, rest, mode, done, warned, p);
      } else {
        var q, current := l.product.value, shelf[l.product.value];
        var more := done + [Movement(q, Stored(-l.quantity), Sale)];
        assert more[..|more| - 1] == done;
        DeductionsAreSales(shelf[q := Moved(current, -l.quantity)], rest, mode, more,
                           if current as real < l.quantity then warned + [Warning(q, current, l.quantity)] else warned, p);
      }
    }
  }

  /** None of what a reversal records is a sale. */
  lemma {:induction false} RestoresAreNotSales(shelf: Shelf, lines: seq<Line>, mode: Mode, done: seq<Movement>, p: nat)
    requires RestoreFrom(shelf, lines, mode, done).Deducted?
    ensures SoldSum(RestoreFrom(shelf, lines, mode, done).movements, p) == SoldSum(done, p)
  {
    if !mode.Disable? && lines != [] {
      var l, rest := lines[0], lines[1..];
      if l.product.None? {
        RestoresAreNotSales(shelf, rest, mode, done, p);
      } else {
        var q := l.product.value;
        var more := done + [Movement(q, l.quantity, Deletion)];
        assert more[..|more| - 1] == done;
        RestoresAreNotSales(shelf[q := shelf[q] + l.quantity], rest, mode, more, p);
      }
    }
  }

  // ---------------------------------------------------------------- sums over bills

  /** A quantity of each of these bills, added up. */
  ghost function Total(ids: set<BillId>, of: BillId -> int): int {
    if ids == {} then 0
    else
      var id :| id in ids;
      of(id) + Total(ids - {id}, of)
  }

  lemma {:induction false} TotalWithout(ids: set<BillId>, id: BillId, of: BillId -> int)
    requires id in ids
    ensures Total(ids, of) == of(id) + Total(ids - {id}, of)
    decreases |ids|
  {
    var x :| x in ids && Total(ids, of) == of(x) + Total(ids - {x}, of);
    if x != id {
      TotalWithout(ids - {x}, id, of);
      TotalWithout(ids - {id}, x, of);
      assert ids - {x} - {id} == ids - {id} - {x};
    }
  }

  lemma {:induction false} TotalAgrees(ids: set<BillId>, of: BillId -> int, also: BillId -> int)
    requires forall id | id in ids :: of(id) == also(id)
    ensures Total(ids, of) == Total(ids, also)
    decreases |ids|
  {
    if id :| id in ids {
      TotalWithout(ids, id, of);
      TotalWithout(ids, id, also);
      TotalAgrees(ids - {id}, of, also);
    }
  }

  lemma {:induction false} TotalIsZeroIff(ids: set<BillId>, of: BillId -> int)
    requires forall id | id in ids :: of(id) >= 0
    ensures Total(ids, of) >= 0
    ensures Total(ids, of) == 0 <==> forall id | id in ids :: of(id) == 0
    decreases |ids|
  {
    if id :| id in ids {
      TotalWithout(ids, id, of);
      TotalIsZeroIff(ids - {id}, of);
    }
  }

  /** The lines that a bill's sale did not read. */
  function UnreadOf(db: Db, id: BillId): set<nat> { if id in db.unread then db.unread[id] else {} }

  /** What a bill's lines hold of a product. */
  function Holding(db: Db, p: nat): BillId -> int { (id: BillId) => if id in db.bills then Requested(db.bills[id].lines, p) else 0 }

  /** What they hold of it that was not read, and so was not taken. */
  function MissedBy(db: Db, p: nat): BillId -> int {
    (id: BillId) => if id in db.bills then Missed(db.bills[id].content.products, UnreadOf(db, id), p) else 0
  }

  /** How many lines of a product a bill took that lie halfway between two thousandths. */
  function HalfwayLines(db: Db, p: nat): BillId -> int {
    (id: BillId) => if id in db.bills then Halves(Without(db.bills[id].content.products, UnreadOf(db, id)), p) as int else 0
  }

  /** What sales adrift recorded of a product. */
  function StrayRecorded(lines: seq<StrayLine>, p: nat): Quantity {
    if lines == [] then 0
    else
      var l := lines[|lines| - 1];
      StrayRecorded(lines[..|lines| - 1], p) + if l.product == p && l.recorded then Stored(l.quantity) else 0
  }

  /** How far sales adrift have moved a product from its ledger: up by a half, and down by what they did not record. */
  function StrayParted(lines: seq<StrayLine>, p: nat): int {
    if lines == [] then 0
    else
      var l := lines[|lines| - 1];
      StrayParted(lines[..|lines| - 1], p)
      + if l.product != p then 0 else if !l.recorded then -TakenBy(l.quantity) else if Halfway(l.quantity) then 1 else 0
  }

  /** The bills whose sale deducted its stock. */
  function DeductedBills(db: Db): set<BillId> { set id | id in db.deductions }

  /** first is the product's quantity before the first sale. */
  ghost predicate Conserved(db: Db, p: nat, first: Quantity) {
    var ids := DeductedBills(db);
    && ids <= db.bills.Keys && p in db.shelf
    && SoldSum(db.movements, p) == Total(ids, MissedBy(db, p)) - Total(ids, Holding(db, p)) - StrayRecorded(db.strays.lines, p)
    && db.shelf[p] == first + LedgerSum(db.movements, p) + Total(ids, HalfwayLines(db, p)) + StrayParted(db.strays.lines, p)
  }

  // ---------------------------------------------------------------- the steps that commit

  /** What a committing sale takes of a product is what its stored lines hold of it and it has read, when it takes anything. */
  lemma SaleTakesItsLines(db: Db, c: Content, mode: Mode, unread: set<nat>, p: nat)
    requires NonNegative(db.shelf) && SaleDeduction(db, c, mode, unread).Deducted? && p in db.shelf && (c.state > 0 ==> Positive(c.products))
    ensures SoldSum(db.movements + SaleDeduction(db, c, mode, unread).movements, p)
            == SoldSum(db.movements, p)
               - if c.state > 0 && !mode.Disable? then Requested(SaleLines(c), p) - Missed(c.products, unread, p) else 0
  {
    hide SaleLines, Halves, Taken, Missed, Without;
    SoldSumConcat(db.movements, SaleDeduction(db, c, mode, unread).movements, p);
    if c.state > 0 {
      var seen := Without(c.products, unread);
      WithoutIsPositive(c.products, unread);
      DeductionsAreSales(db.shelf, seen, mode, [], [], p);
      DeductionIsRecorded(db.shelf, seen, mode, [], []);
      LinesOfASale(c, p);
      SeenAndMissed(c.products, unread, p);
      StoredLinesHold(seen, p);
    }
  }

  /** A bill that is not final has deducted nothing, so writing it counts only what it deducts now. */
  lemma TotalAfterWrite(db: Db, d: Db, id: BillId, before: BillId -> int, after: BillId -> int)
    requires id !in db.deductions
    requires d.deductions == db.deductions || d.deductions == db.deductions + multiset{id}
    requires forall i | i in db.deductions :: before(i) == after(i)
    ensures Total(DeductedBills(d), after) == Total(DeductedBills(db), before) + if d.deductions == db.deductions then 0 else after(id)
  {
    TotalAgrees(DeductedBills(db), before, after);
    if d.deductions != db.deductions {
      assert DeductedBills(d) == DeductedBills(db) + {id};
      TotalWithout(DeductedBills(d), id, after);
      assert DeductedBills(d) - {id} == DeductedBills(db);
    }
  }

  lemma NotDeducted(tenant: Tenant, db: Db, id: BillId)
    requires DbOk(tenant, db) && (id in db.bills ==> !FinalBill(db.bills[id]))
    ensures id !in db.deductions
  {
    hide BillOk, RequestKeysOk, NumbersOk, EventsOk, StraysOk;
  }

  /** The columns of a commit that stock depends on. */
  lemma CommitWrites(tenant: Tenant, db: Db, tx: Tx, mode: Mode, unread: set<nat>, rowId: RowId, eventId: string)
    requires tx.SaleTx? && tx.stage.Updated? && Committed(tenant, db, tx, mode, unread, rowId, eventId).Some?
    ensures FinishedBill(db, tx).Some? && SaleDeduction(db, tx.request.content, mode, unread).Deducted?
    ensures
      var d, takes := Committed(tenant, db, tx, mode, unread, rowId, eventId).value, tx.request.content.state > 0 && !mode.Disable?;
      && d.bills == db.bills[tx.stage.bill := FinishedBill(db, tx).value]
      && d.movements == db.movements + SaleDeduction(db, tx.request.content, mode, unread).movements
      && d.deductions == (if takes then db.deductions + multiset{tx.stage.bill} else db.deductions)
      && d.unread == (if takes then db.unread[tx.stage.bill := unread] else db.unread)
      && d.strays.lines == db.strays.lines
  {
    hide FinishedBill, SaleDeduction, QueuedEvent, Storable, SaleLines;
  }

  lemma SameElsewhere(db: Db, d: Db, id: BillId, p: nat)
    requires id in d.bills && d.bills == db.bills[id := d.bills[id]] && forall i | i != id :: UnreadOf(d, i) == UnreadOf(db, i)
    ensures forall i | i != id ::
      && Holding(db, p)(i) == Holding(d, p)(i) && MissedBy(db, p)(i) == MissedBy(d, p)(i)
      && HalfwayLines(db, p)(i) == HalfwayLines(d, p)(i)
    ensures
      var b := d.bills[id];
      && Holding(d, p)(id) == Requested(b.lines, p) && MissedBy(d, p)(id) == Missed(b.content.products, UnreadOf(d, id), p)
      && HalfwayLines(d, p)(id) == Halves(Without(b.content.products, UnreadOf(d, id)), p)
  {
    hide Halves, Missed, Requested, Without, UnreadOf;
  }

  /** A write of one bill that had deducted nothing, with what it deducts now. */
  lemma WriteConserves(db: Db, d: Db, id: BillId, p: nat, first: Quantity)
    requires Conserved(db, p, first) && id !in db.deductions && id in d.bills && d.bills == db.bills[id := d.bills[id]]
    requires d.deductions == db.deductions || d.deductions == db.deductions + multiset{id}
    requires forall i | i != id :: UnreadOf(d, i) == UnreadOf(db, i)
    requires d.strays.lines == db.strays.lines && p in d.shelf
    requires
      var b, takes := d.bills[id], d.deductions != db.deductions;
      && SoldSum(d.movements, p) == SoldSum(db.movements, p)
         - (if takes then Requested(b.lines, p) - Missed(b.content.products, UnreadOf(d, id), p) else 0)
      && d.shelf[p] - db.shelf[p] == LedgerSum(d.movements, p) - LedgerSum(db.movements, p)
         + (if takes then Halves(Without(b.content.products, UnreadOf(d, id)), p) else 0)
    ensures Conserved(d, p, first)
  {
    hide SoldSum, LedgerSum, Halves, Missed, Requested, Without, UnreadOf, Holding, MissedBy, HalfwayLines, Total;
    hide StrayRecorded, StrayParted;
    SameElsewhere(db, d, id, p);
    TotalAfterWrite(db, d, id, Holding(db, p), Holding(d, p));
    TotalAfterWrite(db, d, id, MissedBy(db, p), MissedBy(d, p));
    TotalAfterWrite(db, d, id, HalfwayLines(db, p), HalfwayLines(d, p));
    assert DeductedBills(d) <= DeductedBills(db) + {id};
  }

  lemma CommitConserves(tenant: Tenant, db: Db, tx: Tx, mode: Mode, unread: set<nat>, rowId: RowId, eventId: string, p: nat, first: Quantity)
    requires DbOk(tenant, db) && tx.SaleTx? && tx.stage.Updated? && TxOk(db, tx) && Conserved(db, p, first)
    requires Committed(tenant, db, tx, mode, unread, rowId, eventId).Some?
    ensures Conserved(Committed(tenant, db, tx, mode, unread, rowId, eventId).value, p, first)
  {
    var d, c := Committed(tenant, db, tx, mode, unread, rowId, eventId).value, tx.request.content;
    assert p in db.shelf;
    hide Conserved, Committed, DbOk, TxOk;
    CommitTakes(tenant, db, tx, mode, unread, rowId, eventId, p);
    WriteConserves(db, d, tx.stage.bill, p, first);
  }

  /** What the commit of a sale writes, and how far it moves a product, its ledger and its sold sum. */
  lemma CommitTakes(tenant: Tenant, db: Db, tx: Tx, mode: Mode, unread: set<nat>, rowId: RowId, eventId: string, p: nat)
    requires DbOk(tenant, db) && tx.SaleTx? && tx.stage.Updated? && TxOk(db, tx) && p in db.shelf
    requires Committed(tenant, db, tx, mode, unread, rowId, eventId).Some?
    ensures
      var d, id := Committed(tenant, db, tx, mode, unread, rowId, eventId).value, tx.stage.bill;
      && id !in db.deductions && id in d.bills && d.bills == db.bills[id := d.bills[id]] && p in d.shelf
      && (d.deductions == db.deductions || d.deductions == db.deductions + multiset{id})
      && (forall i | i != id :: UnreadOf(d, i) == UnreadOf(db, i)) && d.strays.lines == db.strays.lines
      && var b, takes := d.bills[id], d.deductions != db.deductions;
         && SoldSum(d.movements, p) == SoldSum(db.movements, p)
            - (if takes then Requested(b.lines, p) - Missed(b.content.products, UnreadOf(d, id), p) else 0)
         && d.shelf[p] - db.shelf[p] == LedgerSum(d.movements, p) - LedgerSum(db.movements, p)
            + (if takes then Halves(Without(b.content.products, UnreadOf(d, id)), p) else 0)
  {
    CommitTakesStock(tenant, db, tx, mode, unread, rowId, eventId, p);
    CommitRecords(tenant, db, tx, mode, unread, rowId, eventId);
    HalvesAre(tx.request.content, mode, unread, p);
    hide DbOk, TxOk, Committed, SaleLines, Halves, Missed, SoldSum, LedgerSum, Without, Requested, HalvesTaken, UnreadOf;
  }

  /** The bill that a commit writes is that of its request, and it is recorded whether it deducts stock and what it has not read. */
  lemma CommitRecords(tenant: Tenant, db: Db, tx: Tx, mode: Mode, unread: set<nat>, rowId: RowId, eventId: string)
    requires DbOk(tenant, db) && tx.SaleTx? && tx.stage.Updated? && TxOk(db, tx)
    requires Committed(tenant, db, tx, mode, unread, rowId, eventId).Some?
    ensures
      var d, id, c := Committed(tenant, db, tx, mode, unread, rowId, eventId).value, tx.stage.bill, tx.request.content;
      && id !in db.deductions && id in d.bills && d.bills == db.bills[id := d.bills[id]]
      && d.bills[id].lines == SaleLines(c) && d.bills[id].content == c && d.strays.lines == db.strays.lines
      && (d.deductions == db.deductions || d.deductions == db.deductions + multiset{id})
      && (d.deductions != db.deductions <==> c.state > 0 && !mode.Disable?)
      && (d.deductions != db.deductions ==> UnreadOf(d, id) == unread) && forall i | i != id :: UnreadOf(d, i) == UnreadOf(db, i)
  {
    UpdatedTxFacts(db, tx);
    NotDeducted(tenant, db, tx.stage.bill);
    hide DbOk;
    CommitWrites(tenant, db, tx, mode, unread, rowId, eventId);
    FinishedBillIsTheRequests(db, tx);
    OneMoreDeduction(db.deductions, tx.stage.bill);
    hide TxOk, FinishedBill, SaleLines, SaleDeduction, Committed, RefreshedTotals, PaymentOk;
  }

  lemma HalvesAre(c: Content, mode: Mode, unread: set<nat>, p: nat)
    ensures HalvesTaken(c, mode, unread, p) == if c.state > 0 && !mode.Disable? then Halves(Without(c.products, unread), p) else 0
  {
    hide Halves, Without;
  }

  lemma CommitTakesStock(tenant: Tenant, db: Db, tx: Tx, mode: Mode, unread: set<nat>, rowId: RowId, eventId: string, p: nat)
    requires DbOk(tenant, db) && tx.SaleTx? && tx.stage.Updated? && TxOk(db, tx) && p in db.shelf
    requires Committed(tenant, db, tx, mode, unread, rowId, eventId).Some?
    ensures
      var d, c := Committed(tenant, db, tx, mode, unread, rowId, eventId).value, tx.request.content;
      && p in d.shelf
      && SoldSum(d.movements, p) == SoldSum(db.movements, p)
         - (if c.state > 0 && !mode.Disable? then Requested(SaleLines(c), p) - Missed(c.products, unread, p) else 0)
      && d.shelf[p] - db.shelf[p]
         == LedgerSum(d.movements, p) - LedgerSum(db.movements, p) + HalvesTaken(c, mode, unread, p)
  {
    UpdatedTxFacts(db, tx);
    DbParts(tenant, db);
    hide DbOk, TxOk, FinishedBill, SaleLines, SaleDeduction, Committed, NonNegative, Writable, HalvesTaken;
    hide Missed, SoldSum, LedgerSum, Requested, OpenSale, NumberOk, Positive, BillOk, EventsOk;
    CommitWrites(tenant, db, tx, mode, unread, rowId, eventId);
    CommittedIsAWrite(tenant, db, tx, mode, unread, rowId, eventId);
    SaleTakesItsLines(db, tx.request.content, mode, unread, p);
  }

  lemma OneMoreDeduction(m: multiset<BillId>, id: BillId)
    ensures m + multiset{id} != m
  {
    assert (m + multiset{id})[id] == m[id] + 1;
  }

  lemma DeletionWrites(db: Db, id: BillId, mode: Mode)
    requires id in db.bills && DeletedDb(db, id, mode).Some?
    ensures Restore(db.shelf, db.bills[id].lines, mode).Deducted?
    ensures
      var d := DeletedDb(db, id, mode).value;
      && d.bills == db.bills[id := db.bills[id].(state := -1)] && d.deductions == db.deductions
      && d.unread == db.unread && d.strays == db.strays
      && d.movements == db.movements + Restore(db.shelf, db.bills[id].lines, mode).movements
  {
  }

  lemma DeletionConserves(tenant: Tenant, db: Db, id: BillId, mode: Mode, p: nat, first: Quantity)
    requires DbOk(tenant, db) && id in db.bills && db.bills[id].state == 0 && DeletedDb(db, id, mode).Some? && Conserved(db, p, first)
    ensures Conserved(DeletedDb(db, id, mode).value, p, first)
  {
    assert p in db.shelf;
    var d := DeletedDb(db, id, mode).value;
    hide DbOk, Total, DeletedDb, Conserved;
    NotDeducted(tenant, db, id);
    DeletionTakes(tenant, db, id, mode, p);
    WriteConserves(db, d, id, p, first);
  }

  lemma DeletionTakes(tenant: Tenant, db: Db, id: BillId, mode: Mode, p: nat)
    requires DbOk(tenant, db) && id in db.bills && db.bills[id].state == 0 && DeletedDb(db, id, mode).Some? && p in db.shelf
    ensures
      var d := DeletedDb(db, id, mode).value;
      && id in d.bills && d.bills == db.bills[id := d.bills[id]] && d.deductions == db.deductions && p in d.shelf
      && (forall i :: UnreadOf(d, i) == UnreadOf(db, i)) && d.strays.lines == db.strays.lines
      && SoldSum(d.movements, p) == SoldSum(db.movements, p)
      && d.shelf[p] - db.shelf[p] == LedgerSum(d.movements, p) - LedgerSum(db.movements, p)
  {
    hide DbOk, DeletedDb, SoldSum, LedgerSum, Restore, FinalsKept;
    DeletionWrites(db, id, mode);
    DeletedDbOk(tenant, db, id, mode);
    RestoresAddNoSale(db, id, mode, p);
  }

  lemma RestoresAddNoSale(db: Db, id: BillId, mode: Mode, p: nat)
    requires id in db.bills && Restore(db.shelf, db.bills[id].lines, mode).Deducted?
    ensures SoldSum(db.movements + Restore(db.shelf, db.bills[id].lines, mode).movements, p) == SoldSum(db.movements, p)
  {
    RestoresAreNotSales(db.shelf, db.bills[id].lines, mode, [], p);
    SoldSumConcat(db.movements, Restore(db.shelf, db.bills[id].lines, mode).movements, p);
  }

  // ---------------------------------------------------------------- sales adrift

  /** How a database differs after a sale adrift has taken a line, which it has recorded or not. */
  predicate TakesStray(db: Db, d: Db, l: Item, recorded: bool) {
    && l.product.Some? && l.product.value in db.shelf && Moved(db.shelf[l.product.value], -l.quantity) >= 0
    && d.strays.lines == db.strays.lines + [StrayLine(l.product.value, l.quantity, recorded)]
    && d.shelf == db.shelf[l.product.value := Moved(db.shelf[l.product.value], -l.quantity)]
    && d.movements == if recorded then db.movements + [Movement(l.product.value, Stored(-l.quantity), Stray)] else db.movements
  }

  lemma LineTakesStray(w: World, t: TxId, read: bool, recorded: bool)
    requires t in w.txs && w.txs[t].stage.Adrift? && w.txs[t].stage.left != []
    ensures
      var d := StrayLineStep(w, t, read, recorded).db;
      d == w.db || TakesStray(w.db, d, w.txs[t].stage.left[0], recorded)
  {
    hide Moved, Stored;
  }

  /** A step of a sale adrift moves no stock, or takes one line from the shelf and records it or does not. */
  lemma AdriftTakes(w: World, a: Action)
    requires OfSaleAdrift(a)
    ensures
      var d := Step(w, a).db;
      && d.bills == w.db.bills && d.deductions == w.db.deductions && d.unread == w.db.unread
      && ((d.shelf == w.db.shelf && d.movements == w.db.movements && d.strays.lines == w.db.strays.lines)
          || (a.TakeStrayLine? && a.t in w.txs && w.txs[a.t].stage.Adrift? && w.txs[a.t].stage.left != []
              && TakesStray(w.db, d, w.txs[a.t].stage.left[0], a.recorded)))
  {
    if a.TakeStrayLine? {
      hide TakesStray, StrayLineStep;
      if a.t in w.txs && w.txs[a.t].stage.Adrift? && w.txs[a.t].stage.left != [] { LineTakesStray(w, a.t, a.read, a.recorded); }
    } else {
      OthersTakeNothing(w, a);
      hide Step, TakesStray;
    }
    hide TakesStray;
  }

  predicate TakesNothing(db: Db, d: Db) {
    && d.bills == db.bills && d.deductions == db.deductions && d.unread == db.unread
    && d.shelf == db.shelf && d.movements == db.movements && d.strays.lines == db.strays.lines
  }

  lemma OthersTakeNothing(w: World, a: Action)
    requires OfSaleAdrift(a) && !a.TakeStrayLine?
    ensures TakesNothing(w.db, Step(w, a).db)
  {
    hide Step, TakesNothing;
    if a.LoseTransaction? || a.AppendStrayEvent? { EventTakesNothing(w, a); } else { PaymentTakesNothing(w, a); }
  }

  lemma EventTakesNothing(w: World, a: Action)
    requires a.LoseTransaction? || a.AppendStrayEvent?
    ensures TakesNothing(w.db, Step(w, a).db)
  {
    hide CanBeLost, BillEvent, FreshEvent;
  }

  lemma PaymentTakesNothing(w: World, a: Action)
    requires a.ClearStrayPayments? || a.PayStray?
    ensures TakesNothing(w.db, Step(w, a).db)
  {
    hide PaymentsOf, Stored, PayStep;
    if Ready(w, a.t, true) && w.txs[a.t].stage.AdriftCleared? && a.PayStray? { PayTakesNothing(w, a.t, a.delivered); }
  }

  lemma PayTakesNothing(w: World, t: TxId, delivered: bool)
    requires t in w.txs && w.txs[t].SaleTx? && w.txs[t].stage.AdriftCleared?
    ensures TakesNothing(w.db, PayStep(w, t, delivered).db)
  {
    assert StrayReply(w, t, delivered).db == w.db;
    hide PaymentsOf, Stored, StrayReply;
  }

  lemma AdriftConserves(w: World, a: Action, p: nat, first: Quantity)
    requires Inv(w) && OfSaleAdrift(a) && Conserved(w.db, p, first)
    ensures Conserved(Step(w, a).db, p, first)
  {
    hide Step, Inv, TakesStray, Conserved;
    AdriftTakes(w, a);
    var db, d := w.db, Step(w, a).db;
    if d.shelf == db.shelf && d.movements == db.movements && d.strays.lines == db.strays.lines {
      SameTotals(db, d, p, first);
    } else {
      StrayLineIsPositive(w, a.t);
      StrayConserves(db, d, w.txs[a.t].stage.left[0], a.recorded, p, first);
    }
  }

  lemma SameTotals(db: Db, d: Db, p: nat, first: Quantity)
    requires Conserved(db, p, first) && d.bills == db.bills && d.deductions == db.deductions && d.unread == db.unread
    ensures
      var ids := DeductedBills(d);
      && ids == DeductedBills(db) && Total(ids, Holding(d, p)) == Total(ids, Holding(db, p))
      && Total(ids, MissedBy(d, p)) == Total(ids, MissedBy(db, p)) && Total(ids, HalfwayLines(d, p)) == Total(ids, HalfwayLines(db, p))
    ensures d.shelf == db.shelf && d.movements == db.movements && d.strays.lines == db.strays.lines ==> Conserved(d, p, first)
  {
    hide SoldSum, LedgerSum, Halves, Missed, Requested, Without, UnreadOf, Total, StrayRecorded, StrayParted;
    var ids := DeductedBills(d);
    EqualEverywhere(db, d, p);
    hide Holding, MissedBy, HalfwayLines;
    TotalAgrees(ids, Holding(d, p), Holding(db, p));
    TotalAgrees(ids, MissedBy(d, p), MissedBy(db, p));
    TotalAgrees(ids, HalfwayLines(d, p), HalfwayLines(db, p));
  }

  lemma EqualEverywhere(db: Db, d: Db, p: nat)
    requires d.bills == db.bills && d.unread == db.unread
    ensures forall i :: Holding(d, p)(i) == Holding(db, p)(i) && MissedBy(d, p)(i) == MissedBy(db, p)(i)
    ensures forall i :: HalfwayLines(d, p)(i) == HalfwayLines(db, p)(i)
  {
    hide Halves, Missed, Requested, Without;
  }

  lemma StrayConserves(db: Db, d: Db, l: Item, recorded: bool, p: nat, first: Quantity)
    requires Conserved(db, p, first) && d.bills == db.bills && d.deductions == db.deductions && d.unread == db.unread
    requires l.quantity > 0.0 && NonNegative(db.shelf) && TakesStray(db, d, l, recorded)
    ensures Conserved(d, p, first)
  {
    hide Total, StrayRecorded, StrayParted, SoldSum, LedgerSum, Holding, MissedBy, HalfwayLines, Moved, Stored, TakenBy, Halfway;
    SameTotals(db, d, p, first);
    StrayMovesOne(db, d, l, recorded, p);
  }

  /** How far a stray line moves a product, its ledger and the sums over stray lines. */
  lemma StrayMovesOne(db: Db, d: Db, l: Item, recorded: bool, p: nat)
    requires l.quantity > 0.0 && NonNegative(db.shelf) && TakesStray(db, d, l, recorded) && p in db.shelf
    ensures p in d.shelf
    ensures SoldSum(d.movements, p) - SoldSum(db.movements, p) == StrayRecorded(db.strays.lines, p) - StrayRecorded(d.strays.lines, p)
    ensures d.shelf[p] - db.shelf[p]
            == LedgerSum(d.movements, p) - LedgerSum(db.movements, p) + StrayParted(d.strays.lines, p) - StrayParted(db.strays.lines, p)
  {
    hide StrayRecorded, StrayParted, SoldSum, LedgerSum, Moved, Stored, TakenBy, Halfway;
    var q := l.product.value;
    LeftAfter(db.shelf[q], l.quantity);
    MovementIsTakenOrOneMore(l.quantity);
    OneMoreStray(db.strays.lines, StrayLine(q, l.quantity, recorded), p);
    OneMoreMovement(db.movements, Movement(q, Stored(-l.quantity), Stray), p);
  }

  lemma StrayLineIsPositive(w: World, t: TxId)
    requires Inv(w) && t in w.txs && w.txs[t].stage.Adrift? && w.txs[t].stage.left != []
    ensures w.txs[t].stage.left[0].quantity > 0.0 && NonNegative(w.db.shelf)
  {
    hide LocksOk, AnswerOk, AdriftOk, DbOk, NonNegative;
    assert TxOk(w.db, w.txs[t]);
    DbParts(w.tenant, w.db);
  }

  lemma OneMoreStray(lines: seq<StrayLine>, l: StrayLine, p: nat)
    ensures StrayRecorded(lines + [l], p) == StrayRecorded(lines, p) + if l.product == p && l.recorded then Stored(l.quantity) else 0
    ensures StrayParted(lines + [l], p) == StrayParted(lines, p)
            + if l.product != p then 0 else if !l.recorded then -TakenBy(l.quantity) else if Halfway(l.quantity) then 1 else 0
  {
    hide Stored, TakenBy, Halfway;
    assert (lines + [l])[..|lines|] == lines;
  }

  lemma OneMoreMovement(done: seq<Movement>, m: Movement, p: nat)
    ensures LedgerSum(done + [m], p) == LedgerSum(done, p) + if m.product == p then m.quantity else 0
    ensures SoldSum(done + [m], p) == SoldSum(done, p) + if m.product == p && !m.kind.Deletion? then m.quantity else 0
  {
    assert (done + [m])[..|done|] == done;
  }

  // ---------------------------------------------------------------- every run

  lemma StepConserves(w: World, a: Action, p: nat, first: Quantity)
    requires Inv(w) && Conserved(w.db, p, first)
    ensures Conserved(Step(w, a).db, p, first)
  {
    hide Step, Committed, DeletedDb, Conserved, DbOk, LocksOk, AnswerOk;
    if Step(w, a).db != w.db {
      OnlyCommitsCommit(w, a);
      assert TxOk(w.db, w.txs[a.t]);
      if a.Commit? {
        CommitConserves(w.tenant, w.db, w.txs[a.t], a.mode, a.unread, a.rowId, a.eventId, p, first);
      } else if a.CommitDelete? {
        DeletionConserves(w.tenant, w.db, w.txs[a.t].stage.bill, a.mode, p, first);
      } else {
        AdriftConserves(w, a, p, first);
      }
    }
  }

  lemma {:induction false} RunConserves(w: World, actions: seq<Action>, p: nat)
    requires Initial(w) && p in w.db.shelf
    ensures Conserved(Run(w, actions).db, p, w.db.shelf[p])
  {
    hide Step, Inv;
    if actions != [] {
      var before := actions[..|actions| - 1];
      RunConserves(w, before, p);
      RunIsSound(w, before);
      StepConserves(Run(w, before), actions[|actions| - 1], p, w.db.shelf[p]);
    }
  }

  /** No catalog line of the product was passed over because its read failed, in a bill that deducted its stock. */
  ghost predicate NoLineMissed(db: Db, p: nat)
    requires DeductedBills(db) <= db.bills.Keys
  {
    forall id, i | id in DeductedBills(db) && i in UnreadOf(db, id) && i < |db.bills[id].content.products| ::
      db.bills[id].content.products[i].product != Some(p)
  }

  /**
   Over any run, what the ledger says was sold of a product is what the lines of the bills that deducted it hold, less what
   their sales did not read, and what sales adrift recorded of it. Each of those bills is final and counted once, so no copy,
   rollback or lost answer sells twice. But for sales adrift, the ledger and the bills agree exactly when no read of a catalog
   line of the product failed.
   */
  lemma SalesMatchTheBillsIff(w: World, actions: seq<Action>, p: nat)
    requires Initial(w) && p in w.db.shelf
    ensures
      var db := Run(w, actions).db;
      var ids := DeductedBills(db);
      && ids <= db.bills.Keys
      && SoldSum(db.movements, p) == Total(ids, MissedBy(db, p)) - Total(ids, Holding(db, p)) - StrayRecorded(db.strays.lines, p)
      && (SoldSum(db.movements, p) + StrayRecorded(db.strays.lines, p) == -Total(ids, Holding(db, p)) <==> NoLineMissed(db, p))
      && (forall id | id in ids :: FinalBill(db.bills[id]) && db.deductions[id] == 1)
  {
    hide Run;
    RunConserves(w, actions, p);
    RunIsSound(w, actions);
    var v := Run(w, actions);
    DbHasParts(v.tenant, v.db);
    hide SoldSum, Missed, UnreadOf;
    NothingMissedByIff(v.tenant, v.db, p);
  }

  lemma NothingMissedByIff(tenant: Tenant, db: Db, p: nat)
    requires DbOk(tenant, db) && DeductedBills(db) <= db.bills.Keys
    ensures Total(DeductedBills(db), MissedBy(db, p)) == 0 <==> NoLineMissed(db, p)
  {
    hide UnreadOf, DbOk, Missed;
    forall id | id in DeductedBills(db)
      ensures MissedBy(db, p)(id) >= 0
      ensures MissedBy(db, p)(id) == 0 <==>
        forall i | i in UnreadOf(db, id) && i < |db.bills[id].content.products| :: db.bills[id].content.products[i].product != Some(p)
    {
      CatalogIsPositive(tenant, db, id);
      MissedIsZeroIff(db.bills[id].content.products, UnreadOf(db, id), p);
    }
    TotalIsZeroIff(DeductedBills(db), MissedBy(db, p));
  }

  lemma MissedIsZeroIff(items: seq<Item>, unread: set<nat>, p: nat)
    requires PositiveLines(StoredLines(items))
    ensures Missed(items, unread, p) >= 0
    ensures Missed(items, unread, p) == 0 <==> forall i | i in unread && i < |items| :: items[i].product != Some(p)
  {
    var missed := Only(items, unread);
    assert Fewer(missed, items);
    assert forall i | 0 <= i < |items| :: missed[i].product == Some(p) <==> i in unread && items[i].product == Some(p);
    hide StoredLines, Requested, Only;
    NothingMissedIff(items, missed, p);
  }

  lemma CatalogIsPositive(tenant: Tenant, db: Db, id: BillId)
    requires DbOk(tenant, db) && id in db.bills
    ensures PositiveLines(StoredLines(db.bills[id].content.products))
  {
    hide RequestKeysOk, NumbersOk, EventsOk, DeductionsOk, StateOk, PaymentOk, StraysOk, Stored;
    assert BillOk(db, id);
    var c := db.bills[id].content;
    assert forall i | 0 <= i < |c.products| :: SaleLines(c)[i] == StoredLines(c.products)[i];
  }

  /** No line that these bills took of the product lies halfway between two thousandths. */
  ghost predicate NoHalfwayLineSold(db: Db, p: nat)
    requires DeductedBills(db) <= db.bills.Keys
  {
    forall id, i | id in DeductedBills(db) && 0 <= i < |db.bills[id].content.products| && i !in UnreadOf(db, id) ::
      db.bills[id].content.products[i].product == Some(p) ==> !Halfway(db.bills[id].content.products[i].quantity)
  }

  /**
   Over any run of sales and deletions, with the enforcement mode changing as it likes, a product's quantity is never
   negative. It has changed by the sum of its movements, by one thousandth more for each line sold that lies halfway
   between two thousandths, and by what sales adrift have parted: but for those, the ledger is complete exactly when no
   such line was sold.
   */
  lemma StockMatchesLedgerIff(w: World, actions: seq<Action>, p: nat)
    requires Initial(w) && p in w.db.shelf
    ensures
      var db := Run(w, actions).db;
      var parted := StrayParted(db.strays.lines, p);
      && p in db.shelf && db.shelf[p] >= 0 && DeductedBills(db) <= db.bills.Keys
      && db.shelf[p] == w.db.shelf[p] + LedgerSum(db.movements, p) + Total(DeductedBills(db), HalfwayLines(db, p)) + parted
      && (db.shelf[p] == w.db.shelf[p] + LedgerSum(db.movements, p) + parted <==> NoHalfwayLineSold(db, p))
  {
    hide Run, LedgerSum, Halfway, Halves, StrayParted;
    RunConserves(w, actions, p);
    RunIsSound(w, actions);
    var v := Run(w, actions);
    DbParts(v.tenant, v.db);
    hide Inv;
    HalfwayLinesIff(v.db, p);
  }

  lemma HalfwayLinesIff(db: Db, p: nat)
    requires DeductedBills(db) <= db.bills.Keys
    ensures Total(DeductedBills(db), HalfwayLines(db, p)) == 0 <==> NoHalfwayLineSold(db, p)
  {
    hide Halfway, Halves, UnreadOf;
    TotalIsZeroIff(DeductedBills(db), HalfwayLines(db, p));
    forall id | id in DeductedBills(db)
      ensures HalfwayLines(db, p)(id) == 0 <==>
        forall i | 0 <= i < |db.bills[id].content.products| && i !in UnreadOf(db, id) ::
          db.bills[id].content.products[i].product == Some(p) ==> !Halfway(db.bills[id].content.products[i].quantity)
    {
      var seen := Without(db.bills[id].content.products, UnreadOf(db, id));
      NoHalvesIff(seen, p);
      assert forall i | 0 <= i < |seen| :: seen[i].quantity == db.bills[id].content.products[i].quantity;
    }
  }
}
