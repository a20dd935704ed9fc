/** The values a sale is made of: its request, its identity, and the event that reports it. */
module SaleTypes {
  import opened Options
  import opened LineTotals
  import opened DocumentKeys

  type BillId = nat
  type BranchId = nat

  /** The point of sale and the id it gave the attempt: unique among bills. */
  datatype Key = Key(posId: string, billRequestId: string)

  /**
   A sale request without its point-of-sale identity, with its amounts as they were sent. header stands for the
   columns that are copied to the bill: dates, discount, client, phone, note, payment method.
   */
  datatype Content = Content(
    state: int, storeId: int, branchId: BranchId,
    products: seq<Item>, manualProducts: seq<Item>, maintenanceCost: Amount, paidAmount: Amount, header: string)

  datatype Request = Request(key: Key, content: Content)

  /** The fingerprint is injective on content, so the content itself stands for it. */
  type Fingerprint = Content

  function SaleFingerprint(r: Request): Fingerprint { r.content }

  /** The identity of a final sale. A draft has none. */
  datatype Identity = Identity(key: Key, invoiceUuid: string, fingerprint: Fingerprint)

  /** finalSaleIdentity, for a request whose ids passed their checks. */
  function FinalSaleIdentity(r: Request, invoiceUuid: string): Option<Identity> {
    if r.content.state <= 0 then None else Some(Identity(r.key, invoiceUuid, SaleFingerprint(r)))
  }

  const MAINTENANCE_COST := "maintenance_cost"

  function DropProductIds(items: seq<Item>): seq<Item> {
    seq(|items|, i requires 0 <= i < |items| => items[i].(product := None))
  }

  /** saleProducts: the catalog lines, the manual lines, and a positive maintenance cost as its own line. */
  function SaleProducts(c: Content): seq<Item> {
    c.products + DropProductIds(c.manualProducts)
    + if c.maintenanceCost > 0.0 then [Item(None, MAINTENANCE_COST, c.maintenanceCost, 1000.0, 0.0)] else []
  }

  /** The rows of bill_product that a sale leaves. */
  function SaleLines(c: Content): seq<Line> { StoredLines(SaleProducts(c)) }

  /** verifyFinalSale. */
  predicate VerifyFinalSale(c: Content) {
    c.state > 0 ==>
      && (|c.products| + |c.manualProducts| > 0 || c.maintenanceCost > 0.0)
      && (forall l | l in c.products + c.manualProducts :: l.quantity > 0.0 && l.price >= 0.0)
  }

  /** paidAmountError: not negative, and at most two decimals. */
  predicate PaidAmountOk(paid: Amount) { paid >= 0.0 && Stored(paid) as real == paid }

  /** The checks saveSale makes before the transaction begins, but for the shape of the two ids. */
  predicate Acceptable(r: Request) {
    PaidAmountOk(r.content.paidAmount) && VerifyFinalSale(r.content) && (r.content.state > 0 ==> r.key.posId != "")
  }

  /** What saveSale answers to a request that its checks refuse. Lines are counted from one, the catalog's first. */
  datatype CheckError =
    | NoPointOfSale
    | NegativePayment
    | FinePayment
    | NoLine
    | QuantityNotPositive(line: nat)
    | NegativePrice(line: nat)

  /** chk_price, chk_quantity and fk_product_id: what the table refuses to store as a line of a bill. */
  predicate Storable(lines: seq<Line>, products: set<nat>) {
    forall i | 0 <= i < |lines| ::
      lines[i].price > 0 && lines[i].quantity > 0 && (lines[i].product.Some? ==> lines[i].product.value in products)
  }

  // ---------------------------------------------------------------- the event of a final sale

  /** The envelope that the daemon reads. */
  datatype Message = Message(
    docType: string, id: BillId, branchId: BranchId, dbName: string, tenantKey: string,
    posId: string, billRequestId: string, eventId: string, egsSequenceId: string,
    invoiceUuid: string, requestFingerprint: Fingerprint)

  datatype Event = Event(eventId: string, documentKey: string, subject: string, payload: Message)

  datatype Tenant = Tenant(dbName: string, key: string)

  const MAX_INT64: int := 0x7fff_ffff_ffff_ffff

  /** BillEvent: None stands for its errors. */
  function BillEvent(tenant: Tenant, billId: BillId, branchId: BranchId, ident: Identity, eventId: string): Option<Event> {
    if billId > MAX_INT64 then None
    else
      match DocumentKey(tenant.key, branchId, DOC_BILL, billId)
      case None => None
      case Some(documentKey) =>
        Some(Event(eventId, documentKey, "zatca." + DOC_BILL + "." + tenant.dbName + "." + Decimal(branchId),
                   Message(DOC_BILL, billId, branchId, tenant.dbName, tenant.key, ident.key.posId, ident.key.billRequestId,
                           eventId, Decimal(branchId), ident.invoiceUuid, ident.fingerprint)))
  }
}
