/**
 The sale command itself: saveSale, writeSale and what they call, and DeleteBillDetail, run against a database that
 other transactions change between its statements. Once a sale has taken stock, they leave the rows of its products alone.

 A reply stands for the pair that the functions return and the response they have written: Saved is
 success, the others are the refusals. The store and branch access checks are not part of this model.
 */
module SaleCommand {
  import opened Options
  import opened LineTotals
  import opened DocumentKeys
  import opened Stock
  import opened SaleTypes
  import opened SaleProtocol
  import opened SaleInvariant
  import opened SaleSteps
  import opened SaleCommit
  import opened SaleTheorems
  import opened SaleMoves

  // ---------------------------------------------------------------- the database

  class SaleDb {
    var world: World
    var faults: nat // database errors and lock waits that timed out, so far
    ghost var start: World
    ghost var history: seq<Action>

    ghost predicate Valid()
      reads this`world, this`start, this`history
    {
      Initial(start) && world == Run(start, history)
    }

    lemma Sound()
      requires Valid()
      ensures Inv(world)
    {
      RunIsSound(start, history);
    }

    constructor (tenant: Tenant, shelf: Shelf)
      requires NonNegative(shelf)
      ensures Valid() && history == [] && world.tenant == tenant && world.db.shelf == shelf
    {
      var w := World(tenant, Db(map[], map[], map[], map[], shelf, [], map[], multiset{}, map[], NO_STRAYS), map[], [], []);
      world, faults, start, history := w, 0, w, [];
    }

    /** Any statement may meet a database error. */
    method MayFail() returns (fails: bool)
      modifies this`faults
      ensures faults == old(faults) + if fails then 1 else 0
    {
      fails := *;
      if fails { faults := faults + 1; }
    }

    /** A lock that another transaction holds for too long. */
    method TimeOut()
      modifies this`faults
      ensures faults == old(faults) + 1
    {
      faults := faults + 1;
    }

    /** The errors that statements on the stock tables have met. */
    method Faulted(more: nat)
      modifies this`faults
      ensures faults == old(faults) + more
    {
      faults := faults + more;
    }

    /** One step, by whoever takes it. */
    method Perform(a: Action)
      requires Valid()
      modifies this`world, this`start, this`history
      ensures Valid() && start == old(start)
      ensures world == Step(old(world), a) && history == old(history) + [a]
    {
      assert (history + [a])[..|history|] == history;
      world := Step(world, a);
      history := history + [a];
    }

    /** Time passes: any number of steps by any other transactions. */
    method Others(t: TxId)
      requires Valid()
      modifies this`world, this`start, this`history
      ensures Valid() && start == old(start)
      ensures OthersMoved(old(world), world, t)
    {
      hide Step, Run, Initial, Inv, FinalsKept;
      NothingMoved(world, t);
      var steps: nat := *;
      while steps > 0
        invariant Valid() && start == old(start) && OthersMoved(old(world), world, t)
      {
        var a: Action := *;
        if a.t != t {
          Sound();
          OtherMoves(old(world), world, a, t);
          Perform(a);
        }
        steps := steps - 1;
      }
    }

    /** The same, while sale s holds the rows of its products, and its event once it is queued: steps that need them wait. */
    method OthersAround(s: Sale, mode: Mode, unread: set<nat>, rowId: RowId, eventId: string, queued: bool)
      requires Valid()
      modifies this`world, this`start, this`history
      ensures Valid() && start == old(start)
      ensures OthersMoved(old(world), world, s.t) && Spares(old(world), world, s.request.content, mode, unread, rowId, eventId, queued)
    {
      hide Step, Run, Initial, Inv, FinalsKept, Spares;
      NothingMoved(world, s.t);
      NothingTouched(world, s.request.content, mode, unread, rowId, eventId, queued);
      var steps: nat := *;
      while steps > 0
        invariant Valid() && start == old(start) && OthersMoved(old(world), world, s.t)
        invariant Spares(old(world), world, s.request.content, mode, unread, rowId, eventId, queued)
      {
        var a: Action := *;
        if a.t != s.t && Spares(world, Step(world, a), s.request.content, mode, unread, rowId, eventId, queued) {
          Sound();
          OtherMoves(old(world), world, a, s.t);
          SparesTwice(old(world), world, Step(world, a), s.request.content, mode, unread, rowId, eventId, queued);
          Perform(a);
        }
        steps := steps - 1;
      }
    }

    /** The same, while the deletion of a draft holds its row and those of the products that it has put back. */
    method OthersAroundDraft(t: TxId, billID: BillId, mode: Mode)
      requires Valid() && IsDelete(world, t, billID, Opened(billID)) && billID in world.db.bills
      modifies this`world, this`start, this`history
      ensures Valid() && start == old(start)
      ensures OthersMoved(old(world), world, t) && SparesDraft(old(world), world, billID, mode)
    {
      hide Step, Run, Initial, Inv, FinalsKept, Returns, StrayRowsKept;
      NothingMoved(world, t);
      var steps: nat := *;
      while steps > 0
        invariant Valid() && start == old(start) && OthersMoved(old(world), world, t) && SparesDraft(old(world), world, billID, mode)
      {
        var a: Action := *;
        if a.t != t {
          Sound();
          HeldBillStays(world, a, t, billID);
          if SparesDraft(world, Step(world, a), billID, mode) {
            OtherMoves(old(world), world, a, t);
            SparesDraftTwice(old(world), world, Step(world, a), billID, mode);
            Perform(a);
          }
        }
        steps := steps - 1;
      }
    }

    /** GetBillByRequestIdentity: a plain read. */
    method GetBillByRequestIdentity(key: Key) returns (row: Option<Recorded>)
      ensures row.Some? <==> key in world.db.byRequest
      ensures row.Some? ==> row.value == RecordOf(world.db, world.db.byRequest[key])
    {
      row := if key in world.db.byRequest then Some(RecordOf(world.db, world.db.byRequest[key])) else None;
    }
  }

  // ---------------------------------------------------------------- the record of a request

  /** requestRecord: ok is false on a database error. */
  method RequestRecord(db: SaleDb, s: Sale) returns (original: Option<Recorded>, ok: bool)
    modifies db`faults
    ensures db.faults == old(db.faults) + if ok then 0 else 1
    ensures ok ==> (original.Some? <==> IsRecorded(db.world.db, s))
    ensures ok && original.Some? ==> original.value == RecordOf(db.world.db, db.world.db.byRequest[s.request.key])
  {
    if s.request.content.state <= 0 { return None, true; }
    var fails := db.MayFail();
    ok := !fails;
    original := db.GetBillByRequestIdentity(s.request.key);
  }

  /**
   answerRecordedRequest, with the record just read. The request is answered with the recorded bill exactly when that bill
   holds the sale, and with a conflict exactly when the key is on a bill that does not.
   */
  method AnswerRecordedRequest(db: SaleDb, original: Recorded, s: Sale) returns (reply: Reply)
    requires db.Valid() && IsRecorded(db.world.db, s)
    requires original == RecordOf(db.world.db, db.world.db.byRequest[s.request.key])
    ensures reply in {Saved(db.world.db.byRequest[s.request.key]), RequestConflict}
    ensures reply.Saved? <==> Holds(db.world.db, s, db.world.db.byRequest[s.request.key])
    ensures reply == RequestConflict <==> Conflicts(db.world.db, s)
  {
    hide Run, Inv, Holds, Conflicts;
    db.Sound();
    RecordTells(db.world, s);
    var sameBill := s.draft.None? || s.draft.value == original.id;
    var sameContent := original.fingerprint.Some? && original.fingerprint.value == SaleFingerprint(s.request);
    if sameBill && sameContent { return Saved(original.id); }
    reply := RequestConflict;
  }

  /** verifyFinalSale: a final sale has a line, and the first bad line of it is the one that is named. */
  method CheckFinalSale(c: Content) returns (error: Option<CheckError>)
    ensures error.None? <==> VerifyFinalSale(c)
    ensures error.None? <==>
      c.state <= 0
      || ((|c.products| > 0 || |c.manualProducts| > 0 || c.maintenanceCost > 0.0)
          && (forall k | 0 <= k < |c.products| :: c.products[k].quantity > 0.0 && c.products[k].price >= 0.0)
          && (forall k | 0 <= k < |c.manualProducts| :: c.manualProducts[k].quantity > 0.0 && c.manualProducts[k].price >= 0.0))
    ensures error == Some(NoLine) <==> c.state > 0 && c.products == [] && c.manualProducts == [] && c.maintenanceCost <= 0.0
    ensures error.Some? && error != Some(NoLine) ==>
      var lines := c.products + c.manualProducts;
      && (error.value.QuantityNotPositive? || error.value.NegativePrice?) && 1 <= error.value.line <= |lines|
      && (forall k | 0 <= k < error.value.line - 1 :: lines[k].quantity > 0.0 && lines[k].price >= 0.0)
      && (error.value.QuantityNotPositive? <==> lines[error.value.line - 1].quantity <= 0.0)
      && (error.value.NegativePrice? ==> lines[error.value.line - 1].price < 0.0)
  {
    if c.state <= 0 { return None; }
    if |c.products| + |c.manualProducts| == 0 && c.maintenanceCost <= 0.0 { return Some(NoLine); }
    var lines := c.products + c.manualProducts;
    LinesOfBoth(c);
    var i := 0;
    while i < |lines|
      invariant 0 <= i <= |lines|
      invariant forall k | 0 <= k < i :: lines[k].quantity > 0.0 && lines[k].price >= 0.0
    {
      if lines[i].quantity <= 0.0 { return Some(QuantityNotPositive(i + 1)); }
      if lines[i].price < 0.0 { return Some(NegativePrice(i + 1)); }
      i := i + 1;
    }
    return None;
  }

  lemma LinesOfBoth(c: Content)
    ensures
      var lines := c.products + c.manualProducts;
      (forall k | 0 <= k < |lines| :: lines[k].quantity > 0.0 && lines[k].price >= 0.0) <==>
        && (forall k | 0 <= k < |c.products| :: c.products[k].quantity > 0.0 && c.products[k].price >= 0.0)
        && (forall k | 0 <= k < |c.manualProducts| :: c.manualProducts[k].quantity > 0.0 && c.manualProducts[k].price >= 0.0)
  {
    var lines := c.products + c.manualProducts;
    if forall k | 0 <= k < |lines| :: lines[k].quantity > 0.0 && lines[k].price >= 0.0 {
      assert forall k | 0 <= k < |c.products| :: lines[k] == c.products[k];
      assert forall k | 0 <= k < |c.manualProducts| :: lines[|c.products| + k] == c.manualProducts[k];
    }
  }

  // ---------------------------------------------------------------- opening, numbering and updating the bill

  /** openSaleBill: a new row, or the draft's row locked and read in its latest version. */
  method OpenSaleBill(db: SaleDb, s: Sale) returns (billID: BillId, final: bool, error: Option<Reply>)
    requires db.Valid() && Is(db.world, s, if s.draft.None? then Checked else Begun)
    modifies db
    ensures db.Valid() && db.start == old(db.start)
    ensures error.None? ==> Is(db.world, s, if final then FinalDraft(billID) else Opened(billID))
    ensures error.None? && s.draft.Some? ==> billID == s.draft.value
    ensures error.Some? ==> error.value in {NotFound, Failed} && Means(db.world, s, error.value)
    ensures db.faults == old(db.faults) + if error == Some(Failed) then 1 else 0
  {
    hide Step, Run, Inv, Means, RowHeld;
    db.Others(s.t);
    db.Sound();
    if s.draft.None? {
      billID := *;
      FailedMeans(db.world, s, Checked);
      if billID == 0 || billID in db.world.db.bills || billID in db.world.db.strays.ids || RowHeld(db.world, s.t, billID) {
        db.TimeOut();
        return billID, false, Some(Failed);
      }
      CreateBillStep(db.world, s, billID);
      db.Perform(CreateBill(s.t, billID));
      return billID, false, None;
    }
    billID := s.draft.value;
    FailedMeans(db.world, s, Begun);
    if RowHeld(db.world, s.t, billID) {
      db.TimeOut();
      return billID, false, Some(Failed);
    }
    LockBillStep(db.world, s);
    var bills := db.world.db.bills;
    db.Perform(LockBill(s.t));
    if billID !in bills { return billID, false, Some(NotFound); }
    return billID, bills[billID].state > 0, None;
  }

  /** answerFinalDraft. */
  method AnswerFinalDraft(db: SaleDb, s: Sale, billID: BillId) returns (reply: Reply)
    requires db.Valid() && Is(db.world, s, FinalDraft(billID))
    modifies db
    ensures db.Valid() && db.start == old(db.start) && Means(db.world, s, reply)
    ensures db.faults == old(db.faults) + if reply == Failed then 1 else 0
  {
    hide Step, Run, Inv, Means, IsRecorded;
    db.Others(s.t);
    db.Sound();
    FailedMeans(db.world, s, FinalDraft(billID));
    var original, ok := RequestRecord(db, s);
    if !ok { return Failed; }
    ReadFinalDraftStep(db.world, s, billID);
    if original.Some? { RecordTells(db.world, s); }
    if original.Some? { reply := AnswerRecordedRequest(db, original.value, s); } else { reply := AlreadyFinal; }
    db.Perform(ReadFinalDraft(s.t));
  }

  /** answerLostRace: after the rollback, so the committed winner is read. */
  method AnswerLostRace(db: SaleDb, s: Sale) returns (reply: Reply)
    requires db.Valid() && Is(db.world, s, LostRace)
    modifies db
    ensures db.Valid() && db.start == old(db.start) && Means(db.world, s, reply)
    ensures db.faults == old(db.faults) + if reply == Failed then 1 else 0
  {
    hide Step, Run, Inv, Means, IsRecorded;
    db.Others(s.t);
    db.Sound();
    FailedMeans(db.world, s, LostRace);
    var original, ok := RequestRecord(db, s);
    if !ok { return Failed; }
    RereadStep(db.world, s);
    if original.Some? { RecordTells(db.world, s); }
    if original.Some? { reply := AnswerRecordedRequest(db, original.value, s); } else { reply := AlreadyRecorded; }
    db.Perform(RereadRequest(s.t));
  }

  /** numberSale and allocateBillNumber. */
  method NumberSale(db: SaleDb, s: Sale, billID: BillId) returns (number: Option<nat>, ok: bool)
    requires db.Valid() && Is(db.world, s, Opened(billID))
    modifies db
    ensures db.Valid() && db.start == old(db.start)
    ensures ok ==> Is(db.world, s, Numbered(billID, number)) && (number.Some? <==> s.request.content.state > 0)
    ensures ok && number.Some? ==> number.value == LastValue(db.world.db, s.request.content.branchId) + 1
    ensures !ok ==> Means(db.world, s, Failed)
    ensures db.faults == old(db.faults) + if ok then 0 else 1
  {
    hide Step, Run, Inv, Means, CounterHeld, LastValue;
    db.Others(s.t);
    var c := s.request.content;
    FailedMeans(db.world, s, Opened(billID));
    TakeNumberStep(db.world, s, billID);
    if c.state > 0 && CounterHeld(db.world, s.t, c.branchId) {
      db.TimeOut();
      return None, false;
    }
    number := if c.state <= 0 then None else Some(LastValue(db.world.db, c.branchId) + 1);
    db.Perform(TakeNumber(s.t));
    ok := true;
  }

  datatype UpdateError = DuplicateRequest | OtherError

  /** updateSaleBill. A duplicate of the request key has rolled the transaction back. */
  method UpdateSaleBill(db: SaleDb, s: Sale, billID: BillId, number: Option<nat>) returns (error: Option<UpdateError>)
    requires db.Valid() && Is(db.world, s, Numbered(billID, number))
    modifies db
    ensures db.Valid() && db.start == old(db.start)
    ensures error.None? ==> Is(db.world, s, Updated(billID, number))
    ensures error == Some(DuplicateRequest) ==> Is(db.world, s, LostRace) && IsRecorded(db.world.db, s)
    ensures error == Some(OtherError) ==> Means(db.world, s, Failed)
    ensures db.faults == old(db.faults) + if error == Some(OtherError) then 1 else 0
  {
    hide Step, Run, Inv, Means, KeyHeld;
    db.Others(s.t);
    db.Sound();
    FailedMeans(db.world, s, Numbered(billID, number));
    if s.request.content.state > 0 && KeyHeld(db.world, s.t, s.request.key) {
      db.TimeOut();
      return Some(OtherError);
    }
    UpdateBillStep(db.world, s, billID, number);
    db.Perform(UpdateBill(s.t));
    if IsRecorded(db.world.db, s) { return Some(DuplicateRequest); }
    error := None;
  }

  // ---------------------------------------------------------------- the writes after the bill row

  /** The bill row that an open transaction has updated, with its lines and payments. */
  class OpenBill {
    var bill: Bill

    constructor (bill: Bill)
      ensures this.bill == bill
    {
      this.bill := bill;
    }

    method DeleteProductToBill()
      modifies this
      ensures bill == old(bill).(lines := [])
    {
      bill := bill.(lines := []);
    }

    /** AddProductToBill: the columns round the amounts, and then the checks and the foreign key of bill_product may refuse them. */
    method AddProductToBill(item: Item, products: set<nat>) returns (ok: bool)
      modifies this
      ensures ok == Storable([StoredLine(item)], products)
      ensures bill == if ok then old(bill).(lines := old(bill.lines) + [StoredLine(item)]) else old(bill)
    {
      var l := StoredLine(item);
      assert [l][0] == l;
      ok := l.price > 0 && l.quantity > 0 && (l.product.Some? ==> l.product.value in products);
      if ok { bill := bill.(lines := bill.lines + [l]); }
    }

    method RefreshBillTotals()
      modifies this
      ensures bill == old(bill).(totals := RefreshedTotals(old(bill).lines))
    {
      bill := bill.(totals := RefreshedTotals(bill.lines));
    }

    method DeleteBillPayments()
      modifies this
      ensures bill == old(bill).(payments := [])
    {
      bill := bill.(payments := []);
    }

    method InsertBillPayment(amount: Money)
      modifies this
      ensures bill == old(bill).(payments := old(bill.payments) + [amount])
    {
      bill := bill.(payments := bill.payments + [amount]);
    }
  }

  /** The loop of saleProducts that clears the product ids of manual lines, in place. */
  method DropManualIds(manual: array<Item>)
    modifies manual
    ensures manual[..] == DropProductIds(old(manual[..]))
  {
    var i := 0;
    while i < manual.Length
      invariant 0 <= i <= manual.Length
      invariant forall k | 0 <= k < i :: manual[k] == old(manual[k]).(product := None)
      invariant forall k | i <= k < manual.Length :: manual[k] == old(manual[k])
    {
      manual[i] := manual[i].(product := None);
      i := i + 1;
    }
  }

  /** saleProducts. */
  method LinesOfSale(c: Content, manual: array<Item>) returns (items: seq<Item>)
    requires manual[..] == c.manualProducts
    modifies manual
    ensures items == SaleProducts(c)
  {
    DropManualIds(manual);
    items := c.products + manual[..];
    if c.maintenanceCost > 0.0 { items := items + [Item(None, MAINTENANCE_COST, c.maintenanceCost, 1000.0, 0.0)]; }
  }

  /** addProductToBill. */
  method AddProducts(open: OpenBill, items: seq<Item>, products: set<nat>) returns (ok: bool)
    modifies open
    ensures ok == Storable(StoredLines(items), products)
    ensures ok ==> open.bill == old(open.bill).(lines := old(open.bill.lines) + StoredLines(items))
  {
    hide StoredLine;
    ghost var lines := StoredLines(items);
    var i := 0;
    while i < |items|
      invariant 0 <= i <= |items| && Storable(lines[..i], products)
      invariant open.bill == old(open.bill).(lines := old(open.bill.lines) + lines[..i])
    {
      var added := open.AddProductToBill(items[i], products);
      if !added { assert !Storable(lines, products) by { assert !Storable([lines[i]], products); } return false; }
      assert lines[..i + 1] == lines[..i] + [lines[i]];
      i := i + 1;
    }
    assert lines[..i] == lines;
    ok := true;
  }

  /** recordSalePayment. It fails when the amount is above the total, and when the database does. */
  method RecordSalePayment(db: SaleDb, open: OpenBill, s: Sale) returns (ok: bool)
    modifies open, db`faults
    ensures ok ==> PaidBill(old(open.bill), s.request, s.draft.Some?) == Some(open.bill)
    ensures s.request.content.paidAmount > 0.0 && s.request.content.paidAmount > old(open.bill).totals.total as real ==> !ok
    ensures !ok && db.faults == old(db.faults) ==> PaidBill(old(open.bill), s.request, s.draft.Some?).None?
    ensures db.faults >= old(db.faults) && (ok ==> db.faults == old(db.faults))
  {
    if s.draft.Some? { open.DeleteBillPayments(); }
    if s.request.content.paidAmount <= 0.0 { return true; }
    if s.request.content.paidAmount > open.bill.totals.total as real { return false; }
    var fails := db.MayFail();
    if fails { return false; }
    open.InsertBillPayment(Stored(s.request.content.paidAmount));
    ok := true;
  }

  /**
   recordSaleStock. warned is the X-Stock-Warning header: in warn mode, enforce mode would have refused the lines that were
   read. unread are those whose reads failed, and lost is the one whose read lost the transaction.
   */
  method RecordSaleStock(stock: StockTables, c: Content, mode: Mode)
    returns (warned: bool, ok: bool, unread: set<nat>, lost: Option<nat>)
    requires stock.movements == [] && NonNegative(stock.shelf) && (c.state > 0 ==> Positive(c.products))
    modifies stock
    ensures stock.faults == old(stock.faults) + |unread| + if lost.Some? then 1 else 0
    ensures forall k | k in unread :: k < |c.products| && c.products[k].product.Some? && c.state > 0 && !mode.Disable?
    ensures lost.Some? ==> c.state > 0 && LostAt(old(stock.shelf), c.products, mode, unread, lost.value, [])
    ensures lost.None? ==> ok == (c.state <= 0 || Deduct(old(stock.shelf), Without(c.products, unread), mode).Deducted?)
    ensures lost.None? && ok ==>
      && (warned <==> c.state > 0 && mode.Warn? && !EachLineFits(old(stock.shelf), Without(c.products, unread), Enforce))
      && var d := if c.state <= 0 then Deducted(old(stock.shelf), [], []) else Deduct(old(stock.shelf), Without(c.products, unread), mode);
         d.Deducted? && stock.shelf == d.shelf && stock.movements == d.movements
  {
    hide EachLineFits, Without;
    if mode.Disable? || c.state <= 0 { return false, true, {}, None; }
    var warnings: seq<Warning>;
    warnings, ok, unread, lost := stock.RecordSaleMovements(c.products, mode);
    warned := |warnings| > 0;
    if lost.None? {
      var seen := Without(c.products, unread);
      WithoutIsPositive(c.products, unread);
      WarnModeAgainstEnforceMode(old(stock.shelf), seen, [], []);
      LoopSucceedsIff(old(stock.shelf), seen, Enforce, [], []);
    }
  }

  /**
   queueSaleEvent: one new row that reports this bill under a new event id, beside the rows there are, or no row for a
   draft. It fails only for an event that cannot be built or appended.
   */
  method QueueSaleEvent(db: SaleDb, id: BillId, s: Sale, rowId: RowId, eventId: string) returns (event: Option<Event>, ok: bool)
    ensures ok ==> Queues(db.world, s, id, rowId, eventId, event)
    ensures ok && event.Some? ==>
      && ReportsSale(db.world.tenant, s, id, event.value, eventId)
      && rowId !in db.world.db.outbox && forall i | i in db.world.db.outbox :: db.world.db.outbox[i].eventId != eventId
    ensures ok ==> (event.Some? <==> s.request.content.state > 0)
    ensures !ok <==>
      && s.request.content.state > 0
      && (|| id > MAX_INT64 || !ValidParts(db.world.tenant.key, s.request.content.branchId, DOC_BILL, id)
          || !FreshEvent(db.world.db, rowId, eventId))
  {
    QueueingReports(db.world.tenant, db.world.db, s, id, rowId, eventId);
    hide ReportsSale, ValidParts;
    event, ok := None, true;
    if s.request.content.state <= 0 { return; }
    event := BillEvent(db.world.tenant, id, s.request.content.branchId, IdentOfSale(s).value, eventId);
    ok := event.Some? && FreshEvent(db.world.db, rowId, eventId);
    assert ok ==> WithEvent(db.world.db, rowId, event)[rowId] == event.value;
  }

  /** COMMIT. What the transaction wrote becomes the database, and the answer may be lost on the way back. */
  method CommitSale(db: SaleDb, s: Sale, billID: BillId, number: Option<nat>, open: OpenBill, stock: StockTables,
                    event: Option<Event>, mode: Mode, unread: set<nat>, rowId: RowId, eventId: string) returns (reply: Reply)
    requires db.Valid() && Is(db.world, s, Updated(billID, number))
    requires Storable(SaleLines(s.request.content), db.world.db.shelf.Keys)
    requires FinishedBill(db.world.db, TxOf(s, Updated(billID, number))) == Some(open.bill)
    requires Takes(db.world.db, s.request.content, mode, unread, stock.shelf, stock.movements)
    requires Queues(db.world, s, billID, rowId, eventId, event)
    modifies db
    ensures db.Valid() && db.start == old(db.start) && Means(db.world, s, reply)
    ensures reply == Saved(billID) || reply == Failed
    ensures db.faults == old(db.faults) + if reply == Failed then 1 else 0
    ensures reply.Saved? ==>
      && db.world.db.bills == old(db.world.db.bills)[billID := open.bill]
      && db.world.db.shelf.Keys == old(db.world.db.shelf.Keys)
      && (forall p | p in old(db.world.db.shelf) ::
            if HoldsProduct(s.request.content, mode, unread, p) then p in stock.shelf && db.world.db.shelf[p] == stock.shelf[p]
            else db.world.db.shelf[p] == old(db.world.db.shelf)[p])
      && db.world.db.movements == old(db.world.db.movements) + stock.movements
      && db.world.db.outbox == WithEvent(old(db.world.db), rowId, event)
  {
    hide Step, Run, Inv, Means, Storable, FinishedBill, SaleDeduction, QueuedEvent, HoldsProduct, WithEvent;
    db.Sound();
    FailedMeans(db.world, s, Updated(billID, number));
    var fails := db.MayFail();
    var reached: bool := *;
    if fails && !reached { return Failed; }
    CommitStep(db.world, s, billID, number, mode, unread, rowId, eventId, !fails);
    DeductionLeavesOthers(db.world.db, s.request.content, mode, unread);
    db.Perform(Commit(s.t, mode, unread, rowId, eventId, !fails));
    reply := if fails then Failed else Saved(billID);
  }

  /** The lines and totals of finishSale and completeSale, with a draft's old lines removed first. */
  method WriteLines(db: SaleDb, s: Sale, open: OpenBill) returns (ok: bool)
    modifies open
    ensures ok == Storable(SaleLines(s.request.content), db.world.db.shelf.Keys)
    ensures ok ==> open.bill == LinedBill(old(open.bill), s.request, s.draft.Some?)
  {
    hide Storable, SaleProducts, StoredLines, RefreshedTotals;
    var c := s.request.content;
    if s.draft.Some? { open.DeleteProductToBill(); }
    var manual := new Item[|c.manualProducts|](i requires 0 <= i < |c.manualProducts| => c.manualProducts[i]);
    assert manual[..] == c.manualProducts;
    var items := LinesOfSale(c, manual);
    ok := AddProducts(open, items, db.world.db.shelf.Keys);
    if ok { open.RefreshBillTotals(); }
  }

  /**
   The stock and the event of completeSale. Others act in between, but not on the rows of the products that were read. A
   sale that has lost its transaction is where LoseTransaction finds it.
   */
  method TakeStockAndQueue(db: SaleDb, s: Sale, billID: BillId, number: Option<nat>, mode: Mode, rowId: RowId, eventId: string)
    returns (stock: StockTables, event: Option<Event>, ok: bool, unread: set<nat>, lost: Option<nat>)
    requires db.Valid() && Is(db.world, s, Updated(billID, number)) && Storable(SaleLines(s.request.content), db.world.db.shelf.Keys)
    modifies db
    ensures db.Valid() && db.start == old(db.start) && fresh(stock)
    ensures OthersMoved(old(db.world), db.world, s.t)
    ensures db.faults == old(db.faults) + |unread| + if lost.Some? then 1 else 0
    ensures lost.Some? ==> db.world == old(db.world) && CanBeLost(db.world.db, db.world.txs[s.t], mode, unread, lost.value)
    ensures lost.None? && !ok ==> RefusedFor(db.world, s, billID, mode, unread, rowId, eventId)
    ensures lost.None? && ok ==>
      && Takes(db.world.db, s.request.content, mode, unread, stock.shelf, stock.movements)
      && Queues(db.world, s, billID, rowId, eventId, event)
  {
    hide Step, Run, Inv, Storable, SaleLines, RefreshedTotals, QueuedEvent, Deduct, FinishedBill, HasReason;
    hide FinalsKept, Spares, FreshEvent, HoldsProduct, Without, StrayRowsKept, LostAt;
    db.Sound();
    ShelfIsNonNegative(db.world);
    SaleIsPositive(db.world, s, billID, number);
    stock := new StockTables(db.world.db.shelf);
    event := None;
    NothingMoved(db.world, s.t);
    var warned: bool;
    warned, ok, unread, lost := RecordSaleStock(stock, s.request.content, mode);
    db.Faulted(stock.faults);
    if lost.Some? { return; }
    if !ok {
      RefusalHasReason(db.world, s, billID, number, mode, unread, rowId, eventId);
      return;
    }
    ghost var taken := db.world;
    DeductionLeavesOthers(taken.db, s.request.content, mode, unread);
    db.OthersAround(s, mode, unread, rowId, eventId, false);
    TakesStays(taken, db.world, s.request.content, mode, unread, rowId, eventId, false, stock.shelf, stock.movements);
    event, ok := QueueSaleEvent(db, billID, s, rowId, eventId);
    if !ok {
      db.Sound();
      QueueingReports(db.world.tenant, db.world.db, s, billID, rowId, eventId);
      RefusalHasReason(db.world, s, billID, number, mode, unread, rowId, eventId);
    }
  }

  /** One more turn of the stock loop, outside any transaction. */
  method TakeStrayStock(db: SaleDb, s: Sale, billID: BillId, mode: Mode, left: seq<Item>) returns (ok: bool)
    requires db.Valid() && Is(db.world, s, Adrift(billID, mode, left)) && left != [] && !mode.Disable?
    modifies db
    ensures db.Valid() && db.start == old(db.start) && db.faults >= old(db.faults)
    ensures if ok then Is(db.world, s, Adrift(billID, mode, left[1..])) else Means(db.world, s, Failed)
  {
    hide Step, Run, Inv, Moved, Stored, StopsAt, Means, OthersMoved;
    db.Others(s.t);
    OthersLeaveIt(old(db.world), db.world, s, Adrift(billID, mode, left));
    var stock := new StockTables(db.world.db.shelf);
    var turn, warnings := stock.SellLine(left[0], mode);
    db.Faulted(stock.faults);
    var recorded := true;
    if turn.SoldIt? {
      var fails := db.MayFail(); // the insert of its movement
      recorded := !fails;
    }
    StrayLineIs(db.world, s, billID, mode, left, !turn.NotRead? && !turn.LostHere?, recorded);
    db.Perform(TakeStrayLine(s.t, !turn.NotRead? && !turn.LostHere?, recorded));
    assert turn.SoldIt? ==> db.world.db.shelf == stock.shelf;
    ok := !turn.Stopped? && recorded;
    if !ok { EndedMeans(db.world, s); }
  }

  /** finishSale from its event on, outside any transaction: each statement by itself, and the COMMIT of nothing. */
  method FinishAdrift(db: SaleDb, s: Sale, billID: BillId, mode: Mode, left: seq<Item>, rowId: RowId, eventId: string)
    returns (reply: Reply)
    requires db.Valid() && Is(db.world, s, Adrift(billID, mode, left)) && !mode.Disable? && s.request.content.state > 0
    modifies db
    ensures db.Valid() && db.start == old(db.start) && db.faults >= old(db.faults)
    ensures reply in {Saved(billID), Failed} && Tells(db.world, s, reply, true)
  {
    hide Step, Run, Inv, Means, Misleads, OthersMoved, HasStrayRow, BillEvent;
    var i := 0;
    while i < |left|
      invariant 0 <= i <= |left| && db.Valid() && db.start == old(db.start) && db.faults >= old(db.faults)
      invariant Is(db.world, s, Adrift(billID, mode, left[i..]))
    {
      assert left[i..][1..] == left[i + 1..];
      var taken := TakeStrayStock(db, s, billID, mode, left[i..]);
      if !taken { return Failed; }
      i := i + 1;
    }
    var queued := QueueStrayEvent(db, s, billID, mode, rowId, eventId);
    if !queued { return Failed; }
    reply := PayAdrift(db, s, billID);
  }

  /** Its event: in the outbox before its COMMIT, and for good. */
  method QueueStrayEvent(db: SaleDb, s: Sale, billID: BillId, mode: Mode, rowId: RowId, eventId: string) returns (ok: bool)
    requires db.Valid() && Is(db.world, s, Adrift(billID, mode, [])) && s.request.content.state > 0
    modifies db
    ensures db.Valid() && db.start == old(db.start) && db.faults >= old(db.faults)
    ensures if ok then Is(db.world, s, AdriftQueued(billID)) && HasStrayRow(db.world, s, billID) else Means(db.world, s, Failed)
  {
    hide Step, Run, Inv, Means, ValidParts, FreshEvent, OthersMoved, Queues;
    var stage := Adrift(billID, mode, []);
    db.Others(s.t);
    OthersLeaveIt(old(db.world), db.world, s, stage);
    FailedMeans(db.world, s, stage);
    var fails := db.MayFail();
    if fails { return false; }
    var event: Option<Event>;
    event, ok := QueueSaleEvent(db, billID, s, rowId, eventId);
    StrayEventIs(db.world, s, billID, mode, rowId, eventId);
    db.Perform(AppendStrayEvent(s.t, rowId, eventId));
    if !ok { EndedMeans(db.world, s); }
  }

  /** Its payment, and its answer. */
  method PayAdrift(db: SaleDb, s: Sale, billID: BillId) returns (reply: Reply)
    requires db.Valid() && Is(db.world, s, AdriftQueued(billID)) && HasStrayRow(db.world, s, billID)
    modifies db
    ensures db.Valid() && db.start == old(db.start) && db.faults >= old(db.faults)
    ensures reply in {Saved(billID), Failed} && Tells(db.world, s, reply, true)
  {
    hide Step, Run, Inv, Means, Misleads, OthersMoved, HasStrayRow;
    ghost var before := db.world;
    db.Others(s.t);
    OthersLeaveIt(before, db.world, s, AdriftQueued(billID));
    OthersLeaveItsRow(before, db.world, s, billID);
    FailedMeans(db.world, s, AdriftQueued(billID));
    var fails := db.MayFail();
    if fails { return Failed; }
    ClearIs(db.world, s, billID);
    ghost var uncleared := db.world;
    db.Perform(ClearStrayPayments(s.t));
    StrayRowStays(uncleared, db.world, s, billID);
    ghost var cleared := db.world;
    db.Others(s.t);
    OthersLeaveIt(cleared, db.world, s, AdriftCleared(billID));
    OthersLeaveItsRow(cleared, db.world, s, billID);
    FailedMeans(db.world, s, AdriftCleared(billID));
    var paid, bills := s.request.content.paidAmount, db.world.db.bills;
    if paid > 0.0 && (billID !in bills || paid > bills[billID].totals.total as real) { return Failed; }
    fails := db.MayFail();
    PayIs(db.world, s, billID, !fails);
    ghost var unpaid := db.world;
    db.Perform(PayStray(s.t, !fails));
    if fails {
      EndedMeans(db.world, s);
      return Failed;
    }
    StrayRowStays(unpaid, db.world, s, billID);
    db.Sound();
    assert db.world.adrift[|unpaid.adrift|] == Answer(s.request, s.draft, billID);
    AdriftMisleads(db.world, s, billID);
    reply := Saved(billID);
  }

  /**
   finishSale: lines, totals, stock, event and payment, then the commit, with other transactions before each of them.
   Without another database error than failed reads of stock it fails only for one of the reasons that refuse a commit. A
   read that loses the transaction does not end it: what it then answers may mislead.
   */
  method FinishSale(db: SaleDb, s: Sale, billID: BillId, number: Option<nat>, mode: Mode, rowId: RowId, eventId: string)
    returns (reply: Reply, ghost unread: set<nat>, ghost lost: bool)
    requires db.Valid() && Is(db.world, s, Updated(billID, number))
    modifies db
    ensures db.Valid() && db.start == old(db.start) && Tells(db.world, s, reply, lost)
    ensures reply == Saved(billID) || reply == Failed
    ensures db.faults >= old(db.faults) + |unread| + if lost then 1 else 0
    ensures reply.Saved? && !lost ==> db.faults == old(db.faults) + |unread|
    ensures reply == Failed && db.faults == old(db.faults) + |unread| ==> RefusedFor(db.world, s, billID, mode, unread, rowId, eventId)
  {
    hide Step, Run, Inv, Means, Misleads, Storable, SaleLines, RefreshedTotals, QueuedEvent, SaleDeduction, PaidBill, LinedBill, RowOfSale;
    hide Spares, Takes, Queues, FinalsKept, WithEvent, StrayRowsKept, CanBeLost, HasReason;
    unread, lost := {}, false;
    db.Sound();
    ghost var before := db.world;
    var open := new OpenBill(RowOfSale(db.world.db, s, billID, number));
    var added := WriteLines(db, s, open);
    FailedNow(db.world, s, billID, number);
    if !added {
      RefusalHasReason(db.world, s, billID, number, mode, unread, rowId, eventId);
      return Failed, unread, lost;
    }
    db.Others(s.t); // until the product rows are this sale's
    FailedNow(db.world, s, billID, number);
    var fails := db.MayFail(); // of the statements so far
    if fails { return Failed, unread, lost; }
    var stock, event, completed, missed, lostAt := TakeStockAndQueue(db, s, billID, number, mode, rowId, eventId);
    unread, lost := missed, lostAt.Some?;
    if lostAt.Some? {
      LoseItStep(db.world, s, billID, number, mode, missed, lostAt.value);
      CanBeLostFacts(db.world.db, db.world.txs[s.t], mode, missed, lostAt.value);
      db.Perform(LoseTransaction(s.t, mode, missed, lostAt.value));
      reply := FinishAdrift(db, s, billID, mode, s.request.content.products[lostAt.value + 1..], rowId, eventId);
      return;
    }
    FailedNow(db.world, s, billID, number);
    if !completed { return Failed, unread, lost; }
    reply := PayAndCommit(db, s, billID, number, open, stock, event, mode, missed, rowId, eventId, before);
  }

  /** The payment and the commit of finishSale. before is the state in which the sale wrote its lines. */
  method PayAndCommit(db: SaleDb, s: Sale, billID: BillId, number: Option<nat>, open: OpenBill, stock: StockTables, event: Option<Event>,
                      mode: Mode, unread: set<nat>, rowId: RowId, eventId: string, ghost before: World) returns (reply: Reply)
    requires db.Valid() && Is(db.world, s, Updated(billID, number))
    requires Inv(before) && Is(before, s, Updated(billID, number))
    requires open.bill == LinedBill(RowOfSale(before.db, s, billID, number), s.request, s.draft.Some?)
    requires Storable(SaleLines(s.request.content), db.world.db.shelf.Keys)
    requires Takes(db.world.db, s.request.content, mode, unread, stock.shelf, stock.movements)
    requires Queues(db.world, s, billID, rowId, eventId, event)
    modifies db, open
    ensures db.Valid() && db.start == old(db.start) && Means(db.world, s, reply)
    ensures reply == Saved(billID) || reply == Failed
    ensures db.faults >= old(db.faults) && (reply.Saved? ==> db.faults == old(db.faults))
    ensures reply == Failed && db.faults == old(db.faults) ==> RefusedFor(db.world, s, billID, mode, unread, rowId, eventId)
  {
    hide Step, Run, Inv, Means, Storable, SaleLines, RefreshedTotals, QueuedEvent, SaleDeduction, PaidBill, LinedBill, RowOfSale, HasReason;
    hide Spares, Takes, Queues, FinalsKept, WithEvent, StrayRowsKept;
    ghost var queued := db.world;
    db.OthersAround(s, mode, unread, rowId, eventId, true);
    FailedNow(db.world, s, billID, number);
    db.Sound();
    FinishedIsPending(before, db.world, s, billID, number);
    var paid := RecordSalePayment(db, open, s);
    if !paid {
      if db.faults == old(db.faults) { RefusalHasReason(db.world, s, billID, number, mode, unread, rowId, eventId); }
      return Failed;
    }
    ghost var unpaid := db.world;
    db.OthersAround(s, mode, unread, rowId, eventId, true);
    db.Sound();
    FinishedIsPending(before, db.world, s, billID, number);
    SparesTwice(queued, unpaid, db.world, s.request.content, mode, unread, rowId, eventId, true);
    TakesStays(queued, db.world, s.request.content, mode, unread, rowId, eventId, true, stock.shelf, stock.movements);
    QueuesStays(queued, db.world, s, billID, mode, unread, rowId, eventId, event);
    reply := CommitSale(db, s, billID, number, open, stock, event, mode, unread, rowId, eventId);
  }

  // ---------------------------------------------------------------- the whole command

  /** The check of writeSale before a new sale: its record, if there is one, is its answer. */
  method CheckRecord(db: SaleDb, s: Sale) returns (answer: Option<Reply>)
    requires db.Valid() && Is(db.world, s, Begun) && s.draft.None?
    modifies db
    ensures db.Valid() && db.start == old(db.start)
    ensures if answer.None? then Is(db.world, s, Checked) else Means(db.world, s, answer.value)
    ensures db.faults == old(db.faults) + if answer == Some(Failed) then 1 else 0
  {
    hide Step, Run, Inv, Means, IsRecorded;
    db.Others(s.t);
    db.Sound();
    FailedMeans(db.world, s, Begun);
    var original, ok := RequestRecord(db, s);
    if !ok { return Some(Failed); }
    CheckRequestStep(db.world, s);
    answer := None;
    if original.Some? {
      RecordTells(db.world, s);
      var reply := AnswerRecordedRequest(db, original.value, s);
      answer := Some(reply);
    }
    db.Perform(CheckRequest(s.t));
  }

  /** writeSale. */
  method WriteSale(db: SaleDb, s: Sale, mode: Mode, rowId: RowId, eventId: string)
    returns (reply: Reply, ghost unread: set<nat>, ghost lost: bool)
    requires db.Valid() && Is(db.world, s, Begun)
    modifies db
    ensures db.Valid() && db.start == old(db.start) && Tells(db.world, s, reply, lost)
    ensures db.faults >= old(db.faults) + |unread| + if lost then 1 else 0
    ensures reply != Failed && !lost ==> db.faults == old(db.faults) + |unread|
    ensures reply == Failed && db.faults == old(db.faults) + |unread| ==> RefusedSale(db.world, s, mode, unread, rowId, eventId)
  {
    hide Step, Run, Inv, Means, Misleads, IsRecorded;
    unread, lost := {}, false;
    if s.draft.None? {
      var answer := CheckRecord(db, s);
      if answer.Some? { return answer.value, unread, lost; }
    }
    var billID, final, error := OpenSaleBill(db, s);
    if error.Some? { return error.value, unread, lost; }
    if final {
      reply := AnswerFinalDraft(db, s, billID);
      return;
    }
    var number, numbered := NumberSale(db, s, billID);
    if !numbered { return Failed, unread, lost; }
    var updateError := UpdateSaleBill(db, s, billID, number);
    if updateError.Some? {
      if updateError.value != DuplicateRequest { return Failed, unread, lost; }
      reply := AnswerLostRace(db, s);
      return;
    }
    reply, unread, lost := FinishSale(db, s, billID, number, mode, rowId, eventId);
  }

  /** The transaction of saveSale and its deferred rollback. */
  method RunSale(db: SaleDb, s: Sale, mode: Mode, rowId: RowId, eventId: string)
    returns (reply: Reply, ghost bill: BillId, ghost unread: set<nat>, ghost lost: bool)
    requires db.Valid() && s.t !in db.world.txs && Acceptable(s.request)
    modifies db
    ensures db.Valid() && db.start == old(db.start)
    ensures Tells(db.world, s, reply, lost) && db.world.txs[s.t].stage.Done?
    ensures db.faults >= old(db.faults) + |unread| + if lost then 1 else 0
    ensures reply != Failed && !lost ==> db.faults == old(db.faults) + |unread|
    ensures reply == Failed && db.faults == old(db.faults) + |unread| ==>
      && HasReason(db.world.tenant, db.world.db, s.request.content, bill, mode, unread, rowId, eventId)
      && (if s.draft.Some? then bill == s.draft.value else bill !in db.world.db.bills)
  {
    hide Step, Run, Inv, Acceptable, HasReason, Means, Misleads;
    BeginStep(db.world, s);
    db.Perform(Begin(s.t, s.request, s.draft, s.invoiceUuid));
    reply, unread, lost := WriteSale(db, s, mode, rowId, eventId);
    db.Sound();
    ToldIsThere(db.world, s, reply, lost);
    bill := BillWritten(db.world, s);
    RollbackStep(db.world, s, reply, lost);
    db.Perform(Abort(s.t));
  }

  /**
   saveSale: the checks, the transaction, and its deferred rollback. Without another database error or a timeout than failed
   reads of stock, a sale that passes its checks fails only for one of the reasons that refuse a commit.
   */
  method SaveSale(db: SaleDb, s: Sale, mode: Mode, rowId: RowId, eventId: string)
    returns (reply: Reply, error: Option<CheckError>, ghost bill: BillId, ghost unread: set<nat>, ghost lost: bool)
    requires db.Valid() && s.t !in db.world.txs
    modifies db
    ensures db.Valid() && db.start == old(db.start)
    ensures error.None? <==> Acceptable(s.request)
    ensures
      var c := s.request.content;
      error.None? <==>
        && c.paidAmount >= 0.0 && c.paidAmount == c.paidAmount.Floor as real
        && (c.state > 0 ==>
              && s.request.key.posId != "" && (|c.products| > 0 || |c.manualProducts| > 0 || c.maintenanceCost > 0.0)
              && (forall k | 0 <= k < |c.products| :: c.products[k].quantity > 0.0 && c.products[k].price >= 0.0)
              && (forall k | 0 <= k < |c.manualProducts| :: c.manualProducts[k].quantity > 0.0 && c.manualProducts[k].price >= 0.0))
    ensures error == Some(NoPointOfSale) <==> s.request.content.state > 0 && s.request.key.posId == ""
    ensures error == Some(NegativePayment) <==> error != Some(NoPointOfSale) && s.request.content.paidAmount < 0.0
    ensures error == Some(FinePayment) <==>
      && error != Some(NoPointOfSale) && s.request.content.paidAmount >= 0.0
      && s.request.content.paidAmount != s.request.content.paidAmount.Floor as real
    ensures error.Some? ==> db.world == old(db.world) && db.faults == old(db.faults) && reply == Failed
    ensures error.None? ==> Tells(db.world, s, reply, lost) && db.world.txs[s.t].stage.Done?
    ensures db.faults >= old(db.faults) + |unread| + if lost then 1 else 0
    ensures reply != Failed && !lost ==> db.faults == old(db.faults) + |unread|
    ensures error.None? && reply == Failed && db.faults == old(db.faults) + |unread| ==>
      && HasReason(db.world.tenant, db.world.db, s.request.content, bill, mode, unread, rowId, eventId)
      && (if s.draft.Some? then bill == s.draft.value else bill !in db.world.db.bills)
  {
    hide Run, VerifyFinalSale, HasReason, Means, Misleads, Stored;
    var r := s.request;
    reply, error, bill, unread, lost := Failed, None, 0, {}, false;
    StoredExactlyIff(r.content.paidAmount);
    if r.content.state > 0 && r.key.posId == "" { return Failed, Some(NoPointOfSale), bill, unread, lost; }
    if r.content.paidAmount < 0.0 { return Failed, Some(NegativePayment), bill, unread, lost; }
    if Stored(r.content.paidAmount) as real != r.content.paidAmount { return Failed, Some(FinePayment), bill, unread, lost; }
    error := CheckFinalSale(r.content);
    if error.Some? { return; }
    reply, bill, unread, lost := RunSale(db, s, mode, rowId, eventId);
  }

  // ---------------------------------------------------------------- deleting a draft

  /**
   The deletion of a draft: an open draft becomes deleted and keeps the rest of its columns, no other bill changes, and
   with enforcement on its lines are put back and recorded.
   */
  ghost predicate DeletesDraft(w: World, v: World, billID: BillId, mode: Mode) {
    && billID in w.db.bills && w.db.bills[billID].state == 0
    && v.db.bills == w.db.bills[billID := w.db.bills[billID].(state := -1)]
    && v.db.outbox == w.db.outbox && v.db.byRequest == w.db.byRequest && v.db.counters == w.db.counters
    && v.db.shelf.Keys == w.db.shelf.Keys && w.db.movements <= v.db.movements
    && forall p | p in w.db.shelf ::
         && v.db.shelf[p] == w.db.shelf[p] + (if mode.Disable? then 0 else Requested(w.db.bills[billID].lines, p))
         && v.db.shelf[p] - w.db.shelf[p] == LedgerSum(v.db.movements, p) - LedgerSum(w.db.movements, p)
  }

  lemma RestoreDeletes(w: World, v: World, billID: BillId, mode: Mode)
    requires Inv(w) && billID in w.db.bills && w.db.bills[billID].state == 0 && DeletedDb(w.db, billID, mode) == Some(v.db)
    requires NonNegative(w.db.shelf) && PositiveLines(w.db.bills[billID].lines) && KnownProducts(w.db.shelf, w.db.bills[billID].lines)
    ensures DeletesDraft(w, v, billID, mode)
  {
    hide RestoreFrom, LedgerSum, Inv, DbOk;
    RestoreIsRecorded(w.db.shelf, w.db.bills[billID].lines, mode, []);
    var moved := Restore(w.db.shelf, w.db.bills[billID].lines, mode).movements;
    forall p ensures LedgerSum(w.db.movements + moved, p) == LedgerSum(w.db.movements, p) + LedgerSum(moved, p) {
      LedgerSumConcat(w.db.movements, moved, p);
    }
    LedgerOfNothing();
  }

  /** The step that commits a deletion is the last of the run. */
  ghost predicate DeletedLast(db: SaleDb, t: TxId, billID: BillId, mode: Mode)
    reads db`world, db`start, db`history
  {
    && |db.history| > 0 && IsDelete(db.world, t, billID, Done(Deleted))
    && DeletesDraft(Run(db.start, db.history[..|db.history| - 1]), db.world, billID, mode)
  }

  /** The commit of a deletion. Its answer may be lost on the way back: then the draft is deleted and the answer is an error. */
  method CommitDeletion(db: SaleDb, t: TxId, billID: BillId, stock: StockTables, mode: Mode) returns (reply: Reply)
    requires db.Valid() && IsDelete(db.world, t, billID, Opened(billID)) && billID in db.world.db.bills
    requires PutsBack(db.world.db, db.world.db.bills[billID].lines, mode, stock.shelf, stock.movements)
    modifies db
    ensures db.Valid() && db.start == old(db.start)
    ensures reply == Deleted || reply == Failed
    ensures db.faults == old(db.faults) + if reply == Failed then 1 else 0
    ensures reply == Deleted ==> db.world != old(db.world)
    ensures db.world != old(db.world) ==>
      && db.world.db.bills == old(db.world.db.bills)[billID := old(db.world.db.bills)[billID].(state := -1)]
      && db.world.db.shelf.Keys == old(db.world.db.shelf.Keys)
      && (forall p | p in old(db.world.db.shelf) ::
            if Returns(old(db.world.db.bills)[billID].lines, mode, p) then p in stock.shelf && db.world.db.shelf[p] == stock.shelf[p]
            else db.world.db.shelf[p] == old(db.world.db.shelf)[p])
      && db.world.db.movements == old(db.world.db.movements) + stock.movements
      && IsDelete(db.world, t, billID, Done(Deleted)) && db.history == old(db.history) + [CommitDelete(t, mode)]
      && DeletedDb(old(db.world.db), billID, mode) == Some(db.world.db)
  {
    hide Step, Run, Restore, Returns;
    var fails := db.MayFail();
    var reached: bool := *;
    if fails && !reached { return Failed; }
    CommitDeleteStep(db.world, t, billID, mode);
    db.Perform(CommitDelete(t, mode));
    reply := if fails then Failed else Deleted;
  }

  /** The lock and the guard of DeleteBillDetail: error says why the bill cannot be deleted. */
  method OpenDraft(db: SaleDb, t: TxId, billID: BillId) returns (error: Option<Reply>)
    requires db.Valid() && t !in db.world.txs
    modifies db
    ensures db.Valid() && db.start == old(db.start)
    ensures error.None? ==> IsDelete(db.world, t, billID, Opened(billID))
    ensures error.Some? ==> error.value in {NotFound, AlreadyFinal, Failed}
    ensures error == Some(NotFound) ==> billID !in db.world.db.bills
    ensures error == Some(AlreadyFinal) ==> billID in db.world.db.bills && db.world.db.bills[billID].state != 0
    ensures error.Some? ==> IsDelete(db.world, t, billID, if error.value == Failed then Begun else Done(error.value))
    ensures db.faults == old(db.faults) + if error == Some(Failed) then 1 else 0
  {
    hide Step, Run, Inv, RowHeld, FinalsKept;
    BeginDeleteStep(db.world, t, billID);
    db.Perform(BeginDelete(t, billID));
    db.Others(t);
    if RowHeld(db.world, t, billID) {
      db.TimeOut();
      return Some(Failed);
    }
    LockDeleteStep(db.world, t, billID);
    var bills := db.world.db.bills;
    db.Perform(LockBill(t));
    if billID !in bills { return Some(NotFound); }
    if bills[billID].state != 0 { return Some(AlreadyFinal); }
    error := None;
  }

  /** DeleteBillDetail once it has the draft's row. Others act in between, but not on that row nor on those of its products. */
  method ReverseAndDelete(db: SaleDb, t: TxId, billID: BillId, mode: Mode) returns (reply: Reply)
    requires db.Valid() && IsDelete(db.world, t, billID, Opened(billID))
    modifies db
    ensures db.Valid() && db.start == old(db.start) && (reply == Deleted || reply == Failed)
    ensures reply == Deleted ==> IsDelete(db.world, t, billID, Done(Deleted))
    ensures IsDelete(db.world, t, billID, Done(Deleted)) ==> DeletedLast(db, t, billID, mode)
    ensures db.faults == old(db.faults) + if reply == Failed then 1 else 0
  {
    hide Step, Run, Inv, RestoreFrom, LedgerSum, Requested, FinalsKept, StrayRowsKept, DeletesDraft, DeletedDb, Returns;
    db.Sound();
    OpenedDraft(db.world, t, billID);
    var stock := new StockTables(db.world.db.shelf);
    ReversalPutsBack(db.world.db, db.world.db.bills[billID].lines, mode);
    var reversed := stock.ReverseSaleMovements(db.world.db.bills[billID].lines, mode);
    assert reversed;
    ghost var returned := db.world;
    db.OthersAroundDraft(t, billID, mode);
    db.Sound();
    OpenedDraft(db.world, t, billID);
    PutsBackStays(returned, db.world, billID, mode, stock.shelf, stock.movements);
    ghost var before, history := db.world, db.history;
    reply := CommitDeletion(db, t, billID, stock, mode);
    if db.world != before {
      RestoreDeletes(before, db.world, billID, mode);
      assert db.history[..|db.history| - 1] == history;
    }
  }

  /**
   DeleteBillDetail: a final bill and a deleted draft are both refused, and before any stock is put back. A deletion is
   the last step of the run, and it is that of a bill that was an open draft just before it.
   */
  method DeleteBillDetail(db: SaleDb, t: TxId, billID: BillId, mode: Mode) returns (reply: Reply)
    requires db.Valid() && t !in db.world.txs
    modifies db
    ensures db.Valid() && db.start == old(db.start) && reply in {Deleted, NotFound, AlreadyFinal, Failed}
    ensures reply == Deleted ==> IsDelete(db.world, t, billID, Done(Deleted))
    ensures IsDelete(db.world, t, billID, Done(Deleted)) ==> DeletedLast(db, t, billID, mode)
    ensures reply == NotFound ==> billID !in db.world.db.bills && IsDelete(db.world, t, billID, Done(NotFound))
    ensures reply == AlreadyFinal ==>
      billID in db.world.db.bills && db.world.db.bills[billID].state != 0 && IsDelete(db.world, t, billID, Done(AlreadyFinal))
    ensures db.faults == old(db.faults) + if reply == Failed then 1 else 0
  {
    hide Step, Run, Inv, FinalsKept, StrayRowsKept, DeletesDraft;
    var error := OpenDraft(db, t, billID);
    if error.Some? { return error.value; }
    db.Others(t);
    reply := ReverseAndDelete(db, t, billID, mode);
  }
}
