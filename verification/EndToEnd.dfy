/**
 Sales and drainers together: the sale command writes its outbox row in its own transaction, and the
 drainers publish from the same table. A step is a step of a sale or a step of a drainer, and the commit
 of a final sale is the append of its row. A sale that has lost its transaction appends its row by itself.
 */
module EndToEnd {
  import opened Options
  import opened DocumentKeys
  import opened SaleTypes
  import Stock
  import S = SaleProtocol
  import SI = SaleInvariant
  import SC = SaleCommit
  import SS = SaleSteps
  import ST = SaleTheorems
  import SX = SaleStrays
  import O = OutboxProtocol
  import OI = OutboxInvariant
  import OS = OutboxSteps
  import OT = OutboxTheorems
  import OB = OutboxTightness
  import OH = OutboxHandover
  import SM = SaleMoves
  import SO = SaleOrphans

  datatype System = System(sales: S.World, outbox: O.World)

  /** dueAt is the application clock that Append puts into the row. */
  datatype Move = Sell(sale: S.Action, dueAt: int) | Drain(drain: O.Action)

  /** The step puts this row into the outbox table. */
  predicate Appends(before: S.Db, after: S.Db, a: S.Action) {
    (a.Commit? || a.AppendStrayEvent?) && a.rowId !in S.Outbox(before) && a.rowId in S.Outbox(after)
  }

  function AppendOf(after: S.Db, a: S.Action, dueAt: int): O.Action
    requires (a.Commit? || a.AppendStrayEvent?) && a.rowId in S.Outbox(after)
  {
    O.Append(a.rowId, S.Outbox(after)[a.rowId], dueAt)
  }

  function Step(y: System, m: Move): System {
    match m
    case Sell(a, dueAt) =>
      var sales := S.Step(y.sales, a);
      System(sales,
             if Appends(y.sales.db, sales.db, a) then O.Step(y.outbox, AppendOf(sales.db, a, dueAt)) else y.outbox)
    case Drain(a) => if a.Append? then y else System(y.sales, O.Step(y.outbox, a))
  }

  function Run(y: System, moves: seq<Move>): System {
    if moves == [] then y else Step(Run(y, moves[..|moves| - 1]), moves[|moves| - 1])
  }

  predicate Initial(y: System) { S.Initial(y.sales) && O.Initial(y.outbox) }

  /** The two protocols speak of one table. */
  ghost predicate Synced(sales: map<S.RowId, Event>, rows: O.Rows) {
    sales.Keys == rows.Keys && forall i | i in rows :: rows[i].event == sales[i]
  }

  ghost predicate Inv(y: System) {
    && SI.Inv(y.sales) && OI.Inv(y.outbox) && OT.HandedFromRows(y.outbox) && Synced(S.Outbox(y.sales.db), y.outbox.rows)
  }

  // ---------------------------------------------------------------- every step keeps the table one

  /** A step of a sale leaves the outbox as it is, or adds its one row under a fresh event id. */
  lemma SaleTouchesOneRow(w: S.World, a: S.Action)
    requires SI.Inv(w)
    ensures
      var before, after := w.db, S.Step(w, a).db;
      if Appends(before, after, a) then
        && S.Outbox(after) == S.Outbox(before)[a.rowId := S.Outbox(after)[a.rowId]]
        && (forall i | i in S.Outbox(before) :: S.Outbox(before)[i].eventId != S.Outbox(after)[a.rowId].eventId)
      else S.Outbox(after) == S.Outbox(before)
  {
    hide S.Step, S.Committed, S.DeletedDb, SI.Inv;
    if S.Step(w, a).db != w.db {
      ST.OnlyCommitsCommit(w, a);
      if a.Commit? {
        CommitAddsItsRow(w.tenant, w.db, w.txs[a.t], a.mode, a.unread, a.rowId, a.eventId);
      } else if a.CommitDelete? {
        DeletionAddsNoRow(w.db, w.txs[a.t].stage.bill, a.mode);
      } else if a.AppendStrayEvent? {
        StrayAddsItsRow(w, a);
      } else {
        SX.OthersAppendNoStray(w, a);
      }
    }
  }

  /** The outbox with one more row, or as it was. */
  predicate AddsOne(before: map<S.RowId, Event>, after: map<S.RowId, Event>, row: S.RowId) {
    if row !in before && row in after then
      after == before[row := after[row]] && forall i | i in before :: before[i].eventId != after[row].eventId
    else after == before
  }

  lemma CommitAddsItsRow(tenant: Tenant, db: S.Db, tx: S.Tx, mode: Stock.Mode, unread: set<nat>, rowId: S.RowId, eventId: string)
    requires tx.SaleTx? && tx.stage.Updated? && S.Committed(tenant, db, tx, mode, unread, rowId, eventId).Some?
    ensures AddsOne(S.Outbox(db), S.Outbox(S.Committed(tenant, db, tx, mode, unread, rowId, eventId).value), rowId)
  {
    CommitQueues(tenant, db, tx, mode, unread, rowId, eventId);
    QueuedAddsOne(tenant, db, tx.stage.bill, tx.request.content, S.IdentOf(tx), rowId, eventId);
    hide S.Committed, S.QueuedEvent, S.IdentOf, AddsOne;
  }

  lemma CommitQueues(tenant: Tenant, db: S.Db, tx: S.Tx, mode: Stock.Mode, unread: set<nat>, rowId: S.RowId, eventId: string)
    requires tx.SaleTx? && tx.stage.Updated? && S.Committed(tenant, db, tx, mode, unread, rowId, eventId).Some?
    ensures
      var d := S.Committed(tenant, db, tx, mode, unread, rowId, eventId).value;
      && S.QueuedEvent(tenant, db, tx.stage.bill, tx.request.content, S.IdentOf(tx), rowId, eventId) == Some(d.outbox)
      && d.strays.outbox == db.strays.outbox
  {
    hide S.FinishedBill, S.SaleDeduction, S.QueuedEvent, S.IdentOf, SaleLines, Storable;
  }

  lemma QueuedAddsOne(tenant: Tenant, db: S.Db, id: BillId, c: Content, ident: Option<Identity>, rowId: S.RowId, eventId: string)
    requires S.QueuedEvent(tenant, db, id, c, ident, rowId, eventId).Some?
    ensures AddsOne(S.Outbox(db), S.QueuedEvent(tenant, db, id, c, ident, rowId, eventId).value + db.strays.outbox, rowId)
  {
    if ident.Some? {
      SS.EventFields(tenant, id, c.branchId, ident.value, eventId);
      var e := BillEvent(tenant, id, c.branchId, ident.value, eventId).value;
      hide BillEvent;
      assert db.outbox[rowId := e] + db.strays.outbox == S.Outbox(db)[rowId := e];
    }
  }

  lemma DeletionAddsNoRow(db: S.Db, id: BillId, mode: Stock.Mode)
    requires id in db.bills && S.DeletedDb(db, id, mode).Some?
    ensures S.Outbox(S.DeletedDb(db, id, mode).value) == S.Outbox(db)
  {
    hide Stock.Restore;
  }

  lemma StrayAddsItsRow(w: S.World, a: S.Action)
    requires a.AppendStrayEvent? && S.Step(w, a).db != w.db
    ensures AddsOne(S.Outbox(w.db), S.Outbox(S.Step(w, a).db), a.rowId)
  {
    SX.AppendWrites(w, a);
    ST.OnlyCommitsCommit(w, a);
    var tx := w.txs[a.t];
    SS.EventFields(w.tenant, tx.stage.bill, tx.request.content.branchId, S.IdentOf(tx).value, a.eventId);
    hide S.Step, S.Outbox, S.FreshEvent, S.IdentOf, AddsOne, BillEvent;
    FreshRowIsAdded(w.db, S.Step(w, a).db, a.rowId, a.eventId,
                    BillEvent(w.tenant, tx.stage.bill, tx.request.content.branchId, S.IdentOf(tx).value, a.eventId).value);
  }

  lemma FreshRowIsAdded(before: S.Db, after: S.Db, row: S.RowId, eventId: string, e: Event)
    requires S.FreshEvent(before, row, eventId) && e.eventId == eventId
    requires after.outbox == before.outbox && after.strays.outbox == before.strays.outbox[row := e]
    ensures AddsOne(S.Outbox(before), S.Outbox(after), row)
  {
    assert S.Outbox(after) == S.Outbox(before)[row := e];
  }

  lemma AppendKeepsSync(sales: map<S.RowId, Event>, w: O.World, id: O.RowId, e: Event, dueAt: int)
    requires Synced(sales, w.rows) && id !in sales
    requires forall i | i in sales :: sales[i].eventId != e.eventId
    ensures Synced(sales[id := e], O.Step(w, O.Append(id, e, dueAt)).rows)
  {
  }

  /** A step of a drainer adds no row, removes none and changes no event. */
  lemma DrainKeepsKeys(w: O.World, a: O.Action)
    requires !a.Append?
    ensures O.Step(w, a).rows.Keys == w.rows.Keys
  {
    hide O.ListDue, O.ListExpired, O.LockedByOthers, O.FailedRow;
  }

  lemma DrainKeepsSync(sales: map<S.RowId, Event>, w: O.World, a: O.Action)
    requires Synced(sales, w.rows) && OI.Inv(w) && !a.Append?
    ensures Synced(sales, O.Step(w, a).rows)
  {
    hide O.Step, OI.Inv;
    DrainKeepsKeys(w, a);
    forall i | i in w.rows ensures O.Step(w, a).rows[i].event == w.rows[i].event { OT.StepKeepsRows(w, a, i); }
  }

  lemma StepKeepsInv(y: System, m: Move)
    requires Inv(y)
    ensures Inv(Step(y, m))
  {
    hide S.Step, O.Step, SI.Inv, OI.Inv, OT.HandedFromRows;
    match m
    case Sell(a, dueAt) =>
      SC.StepKeepsInv(y.sales, a);
      SaleTouchesOneRow(y.sales, a);
      var sales := S.Step(y.sales, a);
      if Appends(y.sales.db, sales.db, a) {
        AppendKeepsSync(S.Outbox(y.sales.db), y.outbox, a.rowId, S.Outbox(sales.db)[a.rowId], dueAt);
        OS.StepKeepsInv(y.outbox, O.Append(a.rowId, S.Outbox(sales.db)[a.rowId], dueAt));
        OT.StepKeepsHanded(y.outbox, O.Append(a.rowId, S.Outbox(sales.db)[a.rowId], dueAt));
      }
    case Drain(a) =>
      if !a.Append? {
        OS.StepKeepsInv(y.outbox, a);
        OT.StepKeepsHanded(y.outbox, a);
        DrainKeepsSync(S.Outbox(y.sales.db), y.outbox, a);
      }
  }

  lemma {:induction false} RunKeepsInv(y: System, moves: seq<Move>)
    requires Inv(y)
    ensures Inv(Run(y, moves))
  {
    hide Inv, Step;
    if moves != [] {
      RunKeepsInv(y, moves[..|moves| - 1]);
      StepKeepsInv(Run(y, moves[..|moves| - 1]), moves[|moves| - 1]);
    }
  }

  lemma RunIsSound(y: System, moves: seq<Move>)
    requires Initial(y)
    ensures Inv(Run(y, moves))
  {
    hide Run;
    SC.InitialInv(y.sales);
    RunKeepsInv(y, moves);
  }

  /**
   Seen from either side, a run of the whole is a run of that side alone, so what was proved of each protocol
   holds in the whole.
   */
  lemma {:induction false} EachSideRunsItsProtocol(y: System, moves: seq<Move>) returns (sells: seq<S.Action>, drains: seq<O.Action>)
    ensures Run(y, moves).sales == S.Run(y.sales, sells) && Run(y, moves).outbox == O.Run(y.outbox, drains)
  {
    hide S.Step, O.Step;
    if moves == [] {
      sells, drains := [], [];
    } else {
      var m, before := moves[|moves| - 1], Run(y, moves[..|moves| - 1]);
      sells, drains := EachSideRunsItsProtocol(y, moves[..|moves| - 1]);
      match m
      case Sell(a, dueAt) =>
        var sales := S.Step(before.sales, a);
        S.RunPush(y.sales, sells, a);
        if Appends(before.sales.db, sales.db, a) {
          var append := AppendOf(sales.db, a, dueAt);
          O.RunPush(y.outbox, drains, append);
          drains := drains + [append];
        }
        sells := sells + [a];
      case Drain(a) =>
        if !a.Append? {
          O.RunPush(y.outbox, drains, a);
          drains := drains + [a];
        }
    }
  }

  // ---------------------------------------------------------------- end to end

  /** The message of a committed final sale, with the identity and the content that the bill holds. */
  ghost predicate MessageOf(sales: S.World, id: BillId, e: Event) {
    && id in sales.db.bills && SI.FinalBill(sales.db.bills[id]) && sales.db.bills[id].ident.Some?
    && var b := sales.db.bills[id];
       && e.payload.id == id && e.payload.branchId == b.content.branchId && e.payload.requestFingerprint == b.content
       && Key(e.payload.posId, e.payload.billRequestId) == b.ident.value.key && e.payload.invoiceUuid == b.ident.value.invoiceUuid
       && e.payload.docType == DOC_BILL && e.payload.tenantKey == sales.tenant.key && e.payload.dbName == sales.tenant.dbName
       && e.payload.eventId == e.eventId && e.subject == "zatca.bill." + sales.tenant.dbName + "." + e.payload.egsSequenceId
       && Value(e.payload.egsSequenceId) == b.content.branchId
       && DocumentKey(sales.tenant.key, b.content.branchId, DOC_BILL, id) == Some(e.documentKey)
  }

  /** What the event of a bill says. */
  lemma EventSays(tenant: Tenant, id: BillId, branchId: BranchId, ident: Identity, eventId: string, e: Event)
    requires BillEvent(tenant, id, branchId, ident, eventId) == Some(e)
    ensures e.payload.id == id && e.payload.branchId == branchId && e.payload.requestFingerprint == ident.fingerprint
    ensures Key(e.payload.posId, e.payload.billRequestId) == ident.key && e.payload.invoiceUuid == ident.invoiceUuid
    ensures e.payload.docType == DOC_BILL && e.payload.tenantKey == tenant.key && e.payload.dbName == tenant.dbName
    ensures e.payload.eventId == e.eventId && e.subject == "zatca.bill." + tenant.dbName + "." + e.payload.egsSequenceId
    ensures Value(e.payload.egsSequenceId) == branchId
    ensures DocumentKey(tenant.key, branchId, DOC_BILL, id) == Some(e.documentKey)
  {
    DecimalRoundTrip(branchId);
    hide Decimal, Value, DocumentKey;
    assert "zatca." + DOC_BILL + "." == "zatca.bill.";
  }

  lemma RowIsASale(sales: S.World, i: S.RowId)
    requires SI.Inv(sales) && i in sales.db.outbox
    ensures MessageOf(sales, sales.db.outbox[i].payload.id, sales.db.outbox[i])
  {
    hide SI.TxOk, SI.LocksOk, SI.AnswerOk, SI.DbOk;
    ST.DbHasParts(sales.tenant, sales.db);
    var e := sales.db.outbox[i];
    SaleOfARow(sales, e);
  }

  lemma SaleOfARow(sales: S.World, e: Event)
    requires SI.EventOk(sales.tenant, sales.db, e)
    requires SI.StateOk(sales.db, e.payload.id, sales.db.bills[e.payload.id])
    ensures MessageOf(sales, e.payload.id, e)
  {
    var b := sales.db.bills[e.payload.id];
    EventSays(sales.tenant, e.payload.id, b.content.branchId, b.ident.value, e.eventId, e);
    hide BillEvent, Value, DocumentKey;
  }

  /** The row is that of a sale adrift: no transaction has written it. */
  predicate IsStray(sales: S.World, i: S.RowId) { i in sales.db.strays.outbox }

  /**
   Nothing is ever handed to the publisher but the event of a row. It is the message of a committed final sale, unless a sale
   adrift has appended its row. The bill of a row of that kind is in the database only as the draft that the sale was of.
   */
  lemma EveryMessageIsACommittedSale(y: System, moves: seq<Move>, k: nat)
    requires Initial(y) && k < |Run(y, moves).outbox.handed|
    ensures
      var v := Run(y, moves);
      var e := v.outbox.handed[k];
      exists i :: i in v.outbox.rows && v.outbox.rows[i].event == e && (!IsStray(v.sales, i) ==> MessageOf(v.sales, e.payload.id, e))
  {
    hide Run, SI.Inv, OI.Inv, MessageOf;
    RunIsSound(y, moves);
    var v := Run(y, moves);
    assert OT.EventOfRow(v.outbox, v.outbox.handed[k]);
    var i :| i in v.outbox.rows && v.outbox.rows[i].event == v.outbox.handed[k];
    if !IsStray(v.sales, i) { RowIsASale(v.sales, i); }
  }

  /** Each row of the table is the message of a committed final sale. */
  ghost predicate RowsAreSales(v: System) {
    forall i | i in v.outbox.rows :: MessageOf(v.sales, v.outbox.rows[i].event.payload.id, v.outbox.rows[i].event)
  }

  ghost predicate SalesHaveOneRow(v: System) {
    forall id | id in v.sales.db.bills && SI.FinalBill(v.sales.db.bills[id]) :: |RowsOfBill(v.outbox, id)| == 1
  }

  /**
   Over every run of the whole: each row of the table is the message of a committed final sale and each such sale has its one row,
   if and only if no sale adrift has appended a row.
   */
  lemma SalesAndRowsAgreeIff(y: System, moves: seq<Move>)
    requires Initial(y)
    ensures
      var v := Run(y, moves);
      RowsAreSales(v) && SalesHaveOneRow(v) <==> v.sales.db.strays.outbox == map[]
  {
    hide Run, SI.Inv, OI.Inv;
    RunIsSound(y, moves);
    RowsAgreeIff(Run(y, moves));
  }

  lemma RowsAgreeIff(v: System)
    requires SI.Inv(v.sales) && Synced(S.Outbox(v.sales.db), v.outbox.rows)
    ensures RowsAreSales(v) && SalesHaveOneRow(v) <==> v.sales.db.strays.outbox == map[]
  {
    DbIsOk(v.sales);
    SX.NoStrayRowsIff(v.sales.tenant, v.sales.db);
    if v.sales.db.strays.outbox == map[] {
      AllRowsAreSales(v);
      SameCounts(v);
    } else if RowsAreSales(v) && SalesHaveOneRow(v) {
      SameCounts(v);
      SoReportedOnce(v);
    }
    hide SI.Inv, SI.DbOk, RowsAreSales, SalesHaveOneRow, Synced, SX.ReportedOnce;
  }

  lemma AllRowsAreSales(v: System)
    requires SI.Inv(v.sales) && Synced(S.Outbox(v.sales.db), v.outbox.rows) && v.sales.db.strays.outbox == map[]
    ensures RowsAreSales(v)
  {
    hide SI.Inv, MessageOf;
    forall i | i in v.outbox.rows ensures MessageOf(v.sales, v.outbox.rows[i].event.payload.id, v.outbox.rows[i].event) {
      RowIsASale(v.sales, i);
    }
  }

  lemma SameCounts(v: System)
    requires Synced(S.Outbox(v.sales.db), v.outbox.rows)
    ensures forall id :: RowsOfBill(v.outbox, id) == ST.EventsOfBill(v.sales.db, id)
    ensures SX.ReportedOnce(v.sales.db) ==> SalesHaveOneRow(v)
  {
    forall id ensures RowsOfBill(v.outbox, id) == ST.EventsOfBill(v.sales.db, id) {}
    hide RowsOfBill, ST.EventsOfBill, Synced;
  }

  lemma SoReportedOnce(v: System)
    requires RowsAreSales(v) && SalesHaveOneRow(v) && Synced(S.Outbox(v.sales.db), v.outbox.rows)
    requires forall id :: RowsOfBill(v.outbox, id) == ST.EventsOfBill(v.sales.db, id)
    ensures SX.ReportedOnce(v.sales.db)
  {
    hide RowsOfBill, ST.EventsOfBill, S.Outbox, SI.FinalBill;
    var db := v.sales.db;
    forall i | i in S.Outbox(db)
      ensures S.Outbox(db)[i].payload.id in db.bills && SI.FinalBill(db.bills[S.Outbox(db)[i].payload.id])
    {
      assert MessageOf(v.sales, v.outbox.rows[i].event.payload.id, v.outbox.rows[i].event);
    }
  }

  lemma DbIsOk(sales: S.World)
    requires SI.Inv(sales)
    ensures SI.DbOk(sales.tenant, sales.db)
  {
    hide SI.DbOk, SI.TxOk, SI.LocksOk, SI.AnswerOk;
  }

  /**
   Two rows of the outbox report one document exactly when they are of one bill and branch. Then the bill is in the database, and
   one of them at least is of a sale of it as a draft that went adrift: no other two rows share a document.
   */
  lemma DocumentKeysAreUnique(y: System, moves: seq<Move>, i: O.RowId, j: O.RowId)
    requires Initial(y) && i in Run(y, moves).outbox.rows && j in Run(y, moves).outbox.rows
    ensures
      var v := Run(y, moves);
      var x, z := v.outbox.rows[i].event, v.outbox.rows[j].event;
      && (x.documentKey == z.documentKey <==> x.payload.id == z.payload.id && x.payload.branchId == z.payload.branchId)
      && (x.documentKey == z.documentKey && i != j ==>
            x.payload.id in v.sales.db.bills && (IsStray(v.sales, i) || IsStray(v.sales, j)))
  {
    var sells, drains := EachSideRunsItsProtocol(y, moves);
    hide Run, S.Run, SI.Inv, OI.Inv;
    RunIsSound(y, moves);
    SX.RowsOfOneDocument(y.sales, sells, i, j);
  }

  /**
   However often a document is published, every message about it is the same, down to its event id, unless a sale of its draft
   went adrift: then one of the two is the event of such a sale.
   */
  lemma MessagesOfADocumentAgree(y: System, moves: seq<Move>, j: nat, k: nat)
    requires Initial(y) && j < |Run(y, moves).outbox.handed| && k < |Run(y, moves).outbox.handed|
    requires Run(y, moves).outbox.handed[j].documentKey == Run(y, moves).outbox.handed[k].documentKey
    ensures
      var v := Run(y, moves);
      var x, z := v.outbox.handed[j], v.outbox.handed[k];
      || x == z
      || (x.payload.id in v.sales.db.bills && exists i :: IsStray(v.sales, i) && v.sales.db.strays.outbox[i] in {x, z})
  {
    hide Run, SI.Inv, OI.Inv;
    RunIsSound(y, moves);
    var v := Run(y, moves);
    var x, z := v.outbox.handed[j], v.outbox.handed[k];
    assert OT.EventOfRow(v.outbox, x) && OT.EventOfRow(v.outbox, z);
    var r :| r in v.outbox.rows && v.outbox.rows[r].event == x;
    var s :| s in v.outbox.rows && v.outbox.rows[s].event == z;
    if x != z {
      DocumentKeysAreUnique(y, moves, r, s);
      var i := if IsStray(v.sales, r) then r else s;
      assert IsStray(v.sales, i) && v.sales.db.strays.outbox[i] in {x, z};
    }
  }

  function RowsOfBill(w: O.World, id: BillId): set<O.RowId> { set i | i in w.rows && w.rows[i].event.payload.id == id }

  /** What a row's status says about its event. */
  ghost predicate Accounted(w: O.World, i: O.RowId) {
    i in w.rows && i in w.tally
    && var r, t := w.rows[i], w.tally[i];
       match r.status
       case Pending => r.leaseOwner.None? && r.attemptCount < w.maxAttempts
       case InFlight => r.leaseOwner.Some? && r.leaseExpiresAt.Some?
       case Published => t.accepted >= 1 && r.event in w.handed
       case DeadLetter => r.attemptCount >= w.maxAttempts
  }

  /**
   Every committed final sale has exactly one row beside those of sales adrift, and no sale is lost: its row can still be claimed,
   or its message was handed to the publisher and accepted, or it was given up after MaxAttempts attempts. It was accepted at most once
   more than its lease was reclaimed. A bill that is not final has no row but those of sales adrift, and a bill that is not
   there has at most one.
   */
  lemma EverySaleIsReportedOnce(y: System, moves: seq<Move>, id: BillId)
    requires Initial(y)
    ensures
      var v := Run(y, moves);
      && (if id in v.sales.db.bills then
            |RowsOfBill(v.outbox, id)| == (if SI.FinalBill(v.sales.db.bills[id]) then 1 else 0) + |ST.StrayRows(v.sales.db, id)|
          else |RowsOfBill(v.outbox, id)| == |ST.StrayRows(v.sales.db, id)| <= 1)
      && forall i | i in RowsOfBill(v.outbox, id) ::
           Accounted(v.outbox, i) && v.outbox.tally[i].accepted <= 1 + v.outbox.tally[i].reclaims
  {
    var sells, drains := EachSideRunsItsProtocol(y, moves);
    hide Run, S.Run, O.Run, SI.Inv, OI.Inv, Accounted, SX.OrphansOk;
    RunIsSound(y, moves);
    SX.OrphansStayOk(y.sales, sells);
    var v := Run(y, moves);
    assert RowsOfBill(v.outbox, id) == ST.EventsOfBill(v.sales.db, id);
    RowsOfABill(v.sales, id);
    forall i | i in v.outbox.rows
      ensures i in v.outbox.tally && Accounted(v.outbox, i) && v.outbox.tally[i].accepted <= 1 + v.outbox.tally[i].reclaims
    {
      OH.AcceptedEventsWereHanded(y.outbox, drains, i);
      RowIsAccounted(v.outbox, i);
    }
  }

  lemma RowsOfABill(sales: S.World, id: BillId)
    requires SI.Inv(sales) && SX.OrphansOk(sales)
    ensures
      if id in sales.db.bills then
        |ST.EventsOfBill(sales.db, id)| == (if SI.FinalBill(sales.db.bills[id]) then 1 else 0) + |ST.StrayRows(sales.db, id)|
      else |ST.EventsOfBill(sales.db, id)| == |ST.StrayRows(sales.db, id)| <= 1
  {
    DbIsOk(sales);
    hide SI.Inv, SX.OrphansOk;
    ST.DbHasParts(sales.tenant, sales.db);
    if id in sales.db.bills {
      ST.EventsIffFinal(sales.tenant, sales.db, id);
    } else {
      hide SI.DbOk;
      SX.NoBillHasTwo(sales, id);
    }
  }

  lemma RowIsAccounted(w: O.World, i: O.RowId)
    requires OI.Inv(w) && i in w.rows && (w.rows[i].status == O.Published ==> w.rows[i].event in w.handed)
    ensures i in w.tally && Accounted(w, i) && w.tally[i].accepted <= 1 + w.tally[i].reclaims
  {
    assert OI.RowOk(w, i) && OI.DeliveryOk(w, i);
  }

  // ---------------------------------------------------------------- an orphan is published

  /** These steps of sales, with this clock for the row that they append, if any. */
  function Sells(actions: seq<S.Action>, dueAt: int): seq<Move> {
    seq(|actions|, k requires 0 <= k < |actions| => Sell(actions[k], dueAt))
  }

  function Drains(actions: seq<O.Action>): seq<Move> {
    seq(|actions|, k requires 0 <= k < |actions| => Drain(actions[k]))
  }

  /** Since state o rows have been appended and no more. */
  ghost predicate OnlyAppended(o: O.World, v: O.World, dueAt: int) {
    && v.drainers == o.drainers && v.handed == o.handed && v.maxAttempts == o.maxAttempts && v.rows.Keys == v.tally.Keys
    && forall i | i in v.rows :: v.rows[i] == O.Inserted(v.rows[i].event, dueAt) && v.tally[i].accepted == 0
  }

  lemma {:induction false} SellsOnlyAppend(y: System, actions: seq<S.Action>, dueAt: int)
    requires Initial(y)
    ensures
      var v := Run(y, Sells(actions, dueAt));
      v.sales == S.Run(y.sales, actions) && OnlyAppended(y.outbox, v.outbox, dueAt)
  {
    hide S.Step;
    if actions != [] {
      var n := |actions| - 1;
      SellsOnlyAppend(y, actions[..n], dueAt);
      assert Sells(actions, dueAt)[..n] == Sells(actions[..n], dueAt);
    }
  }

  lemma {:induction false} DrainsOnlyDrain(y: System, actions: seq<O.Action>)
    requires forall k | 0 <= k < |actions| :: !actions[k].Append?
    ensures Run(y, Drains(actions)) == System(y.sales, O.Run(y.outbox, actions))
  {
    hide O.Step;
    if actions != [] {
      var n := |actions| - 1;
      DrainsOnlyDrain(y, actions[..n]);
      assert Drains(actions)[..n] == Drains(actions[..n]);
    }
  }

  /**
   The sale whose deadlock the stock loop swallows reaches the publisher: one message, accepted, of a final sale of which there is
   no bill.
   */
  lemma OrphanIsPublished(y: System, s: SM.Sale, id: BillId, rowId: S.RowId, eventId: string, dueAt: int, d: O.Owner, now: int)
    requires Initial(y) && SO.SellsOneLine(y.sales, s, id) && dueAt <= now
    ensures
      var sold := Run(y, Sells(SO.BeginNew(s, id) + SO.GoAdrift(s, rowId, eventId), dueAt));
      var v := Run(sold, Drains(OB.Round(d, now)));
      && v.sales.db.bills == map[] && |v.outbox.handed| == 1
      && SM.ReportsSale(y.sales.tenant, s, id, v.outbox.handed[0], eventId)
      && rowId in v.outbox.tally && v.outbox.tally[rowId].accepted == 1
  {
    hide *;
    OrphanIsInTheTable(y, s, id, rowId, eventId, dueAt);
    RoundPublishes(Run(y, Sells(SO.BeginNew(s, id) + SO.GoAdrift(s, rowId, eventId), dueAt)), rowId, dueAt, d, now);
  }

  lemma RoundPublishes(y: System, i: O.RowId, dueAt: int, d: O.Owner, now: int)
    requires OI.Inv(y.outbox) && OB.Lone(y.outbox, i) && y.outbox.handed == [] && dueAt <= now
    requires y.outbox.rows[i] == O.Inserted(y.outbox.rows[i].event, dueAt) && y.outbox.tally[i].accepted == 0
    ensures
      var v := Run(y, Drains(OB.Round(d, now)));
      && v.sales == y.sales && v.outbox.handed == [y.outbox.rows[i].event] && i in v.outbox.tally && v.outbox.tally[i].accepted == 1
  {
    assert O.Due(y.outbox.rows[i], now);
    RoundHandsIt(y.outbox, i, d, now);
    RoundAppendsNothing(d, now);
    hide *;
    DrainsOnlyDrain(y, OB.Round(d, now));
  }

  lemma RoundHandsIt(w: O.World, i: O.RowId, d: O.Owner, now: int)
    requires OI.Inv(w) && OB.Lone(w, i) && w.handed == [] && w.tally[i].accepted == 0 && O.Due(w.rows[i], now)
    ensures
      var v := O.Run(w, OB.Round(d, now));
      v.handed == [w.rows[i].event] && i in v.tally && v.tally[i].accepted == 1
  {
    hide O.Run, OI.Inv, OB.Round, O.Due;
    OB.RoundOfLone(w, i, d, now);
  }

  lemma RoundAppendsNothing(d: O.Owner, now: int)
    ensures forall k | 0 <= k < |OB.Round(d, now)| :: !OB.Round(d, now)[k].Append?
  {
  }

  lemma OrphanIsInTheTable(y: System, s: SM.Sale, id: BillId, rowId: S.RowId, eventId: string, dueAt: int)
    requires Initial(y) && SO.SellsOneLine(y.sales, s, id)
    ensures
      var v := Run(y, Sells(SO.BeginNew(s, id) + SO.GoAdrift(s, rowId, eventId), dueAt));
      && v.sales.db.bills == map[] && OI.Inv(v.outbox) && OB.Lone(v.outbox, rowId) && v.outbox.handed == []
      && v.outbox.rows[rowId] == O.Inserted(v.outbox.rows[rowId].event, dueAt) && v.outbox.tally[rowId].accepted == 0
      && SM.ReportsSale(y.sales.tenant, s, id, v.outbox.rows[rowId].event, eventId)
  {
    var actions := SO.BeginNew(s, id) + SO.GoAdrift(s, rowId, eventId);
    assert S.Initial(y.sales) && s.draft.None?;
    hide Run, S.Run, SI.Inv, OI.Inv, SM.ReportsSale, SO.BeginNew, SO.GoAdrift, SO.SellsOneLine, Sells, SO.IsOrphaned;
    SellsOnlyAppend(y, actions, dueAt);
    RunIsSound(y, Sells(actions, dueAt));
    SO.OrphanedSale(y.sales, s, id, rowId, eventId);
    SO.OrphanShows(y.sales, S.Run(y.sales, actions), s, id, rowId, eventId);
  }
}
