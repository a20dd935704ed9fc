/**
 The bill list: one page of GetBills, and a client's walk over its pages.

 A bill is listed once for itself and once more when it has a credit note. The list is ordered by
 (effective_date, id, is_credit), all descending, and a page starts after the key its cursor names.
 Dates are whole instants. The base64 JSON codec is taken to be injective, so a token is the value
 it encodes.
 */
module BillList {
  import opened Options
  import opened Ordering

  const MAX_LIMIT: int := 10000
  const DEFAULT_LIMIT: int := 25
  const BILL_LIST_SORT := "-effective_date"

  // ---------------------------------------------------------------- the table and the query

  /** The columns of a bill that the list reads. searched stands for those only the filters look at. */
  datatype Bill = Bill(effectiveDate: int, state: int, hasCreditNote: bool, searched: string)

  type Table = map<nat, Bill>

  /** The optional filters of a request, as one predicate on the joined row. */
  type Filter = Bill -> bool

  /** A row of the list, as the columns that identify it. The other columns are copied from the bill. */
  datatype ListRow = ListRow(id: int, effectiveDate: int, isCredit: int)

  datatype Position = Position(date: int, id: int, isCredit: int)

  /** CAST(x AS UNSIGNED) of a signed 64-bit value. */
  function CastUnsigned(x: int): int { if x < 0 then x + 0x1_0000_0000_0000_0000 else x }

  /** The seek condition of the query's branch whose is_credit column is the given constant. */
  predicate Seek(cursor: Option<Position>, date: int, id: nat, isCredit: int) {
    || cursor.None?
    || date < cursor.value.date
    || (date == cursor.value.date && id < cursor.value.id)
    || (date == cursor.value.date && id == cursor.value.id && CastUnsigned(cursor.value.isCredit) > isCredit)
  }

  function Key(date: int, id: int, isCredit: int): Rank { Rank(-date, -id, -isCredit) }

  function PositionKey(p: Position): Rank { Key(p.date, p.id, p.isCredit) }

  function RowKey(r: ListRow): Rank { Key(r.effectiveDate, r.id, r.isCredit) }

  predicate Shown(b: Bill, keep: Filter) { b.state >= 0 && keep(b) }

  /** The WHERE clauses of the two branches of the UNION ALL. */
  function CreditKeys(t: Table, keep: Filter, cursor: Option<Position>): set<Rank> {
    set id | id in t && t[id].hasCreditNote && Shown(t[id], keep) && Seek(cursor, t[id].effectiveDate, id, 1)
      :: Key(t[id].effectiveDate, id, 1)
  }

  function BillKeys(t: Table, keep: Filter, cursor: Option<Position>): set<Rank> {
    set id | id in t && Shown(t[id], keep) && Seek(cursor, t[id].effectiveDate, id, 0)
      :: Key(t[id].effectiveDate, id, 0)
  }

  function Matching(t: Table, keep: Filter, cursor: Option<Position>): set<Rank> {
    CreditKeys(t, keep, cursor) + BillKeys(t, keep, cursor)
  }

  function RowAt(k: Rank): ListRow { ListRow(-k.minor, -k.major, -k.tie) }

  /** GetAllBill: ORDER BY effective_date DESC, id DESC, is_credit DESC LIMIT ?. */
  function GetAllBill(t: Table, keep: Filter, cursor: Option<Position>, limit: nat): seq<ListRow> {
    var keys := First(Sorted(Matching(t, keep, cursor)), limit);
    seq(|keys|, i requires 0 <= i < |keys| => RowAt(keys[i]))
  }

  // ---------------------------------------------------------------- cursors and the envelope

  /** One element of a cursor's tuple, as JSON carries it. */
  datatype Part = Instant(t: int) | Number(n: int) | Other

  /** A cursor string: empty, not decodable, or an encoded tuple with its sort spec. */
  datatype Token = Empty | Malformed | Token(parts: seq<Part>, sort: string)

  datatype Envelope = Envelope(items: seq<ListRow>, nextCursor: Token, hasMore: bool)

  datatype ListRequest = ListRequest(limit: int, pageSize: int, cursor: Token, sort: string)

  datatype Response = BadRequest | Listed(page: Envelope)

  function BillCursorKeys(r: ListRow): seq<Part> {
    [Instant(r.effectiveDate), Number(r.id), Number(r.isCredit)]
  }

  /** int32(x) of a 64-bit integer. */
  function ToInt32(x: int): int {
    var low := x % 0x1_0000_0000;
    if low < 0x8000_0000 then low else low - 0x1_0000_0000
  }

  datatype Decoded = Invalid | Decoded(position: Option<Position>)

  /** decodeBillCursor: a tuple shorter than three elements is the first page. */
  function DecodeBillCursor(parts: seq<Part>): Decoded {
    if |parts| < 3 then Decoded(None)
    else if parts[0].Instant? && parts[1].Number? && parts[1].n > 0 && parts[2].Number? then
      Decoded(Some(Position(parts[0].t, parts[1].n, ToInt32(parts[2].n))))
    else Invalid
  }

  function EffectiveLimit(r: ListRequest): (n: int)
    ensures 1 <= n <= MAX_LIMIT
    ensures 1 <= r.limit <= MAX_LIMIT ==> n == r.limit
    ensures r.limit <= 0 && 1 <= r.pageSize <= MAX_LIMIT ==> n == r.pageSize
    ensures r.limit <= 0 && r.pageSize <= 0 ==> n == DEFAULT_LIMIT
  {
    var n := if r.limit <= 0 then r.pageSize else r.limit;
    if n <= 0 then DEFAULT_LIMIT else if n > MAX_LIMIT then MAX_LIMIT else n
  }

  predicate Validate(r: ListRequest, expectedSort: string) {
    var wantSort := if r.sort == "" then expectedSort else r.sort;
    && r.limit <= MAX_LIMIT
    && !r.cursor.Malformed?
    && (r.cursor.Token? ==> r.cursor.sort == "" || r.cursor.sort == wantSort || wantSort == expectedSort)
  }

  function BuildEnvelope(rows: seq<ListRow>, limit: nat, sort: string): Envelope {
    var kept := First(rows, limit);
    var hasMore := |rows| > limit;
    Envelope(kept, if hasMore && |kept| > 0 then Token(BillCursorKeys(kept[|kept| - 1]), sort) else Empty, hasMore)
  }

  function GetBills(t: Table, keep: Filter, r: ListRequest): Response {
    if !Validate(r, BILL_LIST_SORT) then BadRequest
    else
      match DecodeBillCursor(if r.cursor.Token? then r.cursor.parts else [])
      case Invalid => BadRequest
      case Decoded(position) =>
        var limit := EffectiveLimit(r);
        Listed(BuildEnvelope(GetAllBill(t, keep, position, limit + 1), limit, BILL_LIST_SORT))
  }

  // ---------------------------------------------------------------- one page

  /** The rows of the whole list, in order, as the keys that identify them. */
  function Listing(t: Table, keep: Filter): seq<Rank> { Sorted(Matching(t, keep, None)) }

  function Keys(rows: seq<ListRow>): seq<Rank> {
    seq(|rows|, i requires 0 <= i < |rows| => RowKey(rows[i]))
  }

  /** A position the list itself names: an auto-increment id is positive, and is_credit is 0 or 1. */
  predicate Minted(p: Option<Position>) {
    p.Some? ==> p.value.id > 0 && 0 <= p.value.isCredit <= 1
  }

  /** The seek condition of both branches is exactly "after the cursor in the order of the list". */
  lemma SeekIsTheListOrder(t: Table, keep: Filter, p: Option<Position>, k: Rank)
    requires Minted(p)
    ensures k in Matching(t, keep, p) <==>
      k in Matching(t, keep, None) && (p.Some? ==> Less(PositionKey(p.value), k))
  {
    if k in Matching(t, keep, None) && (p.Some? ==> Less(PositionKey(p.value), k)) {
      if k in CreditKeys(t, keep, None) {
        var id :| id in t && t[id].hasCreditNote && Shown(t[id], keep) && k == Key(t[id].effectiveDate, id, 1);
        assert Seek(p, t[id].effectiveDate, id, 1);
      } else {
        var id :| id in t && Shown(t[id], keep) && k == Key(t[id].effectiveDate, id, 0);
        assert Seek(p, t[id].effectiveDate, id, 0);
      }
    }
  }

  /** UNION ALL returns no row twice: the branches differ in is_credit, and each is keyed by bill id. */
  lemma BranchesAreDisjoint(t: Table, keep: Filter, p: Option<Position>)
    ensures CreditKeys(t, keep, p) !! BillKeys(t, keep, p)
    ensures |Matching(t, keep, p)| == |CreditKeys(t, keep, p)| + |BillKeys(t, keep, p)|
  {
  }

  /** Ids come from AUTO_INCREMENT, so they are positive. */
  predicate PositiveIds(t: Table) { 0 !in t }

  /** The cursor that a row mints is read back as that row's key. */
  lemma CursorRoundTrip(r: ListRow)
    requires r.id > 0 && 0 <= r.isCredit <= 1
    ensures DecodeBillCursor(BillCursorKeys(r)) == Decoded(Some(Position(r.effectiveDate, r.id, r.isCredit)))
  {
  }

  /**
   A cursor of another sort is not always refused. It is refused exactly when the request names a sort of its
   own that is not the list's: an empty or canonical sort lets any cursor through.
   */
  lemma MismatchedCursorIsRefusedIff(r: ListRequest, expectedSort: string)
    requires r.limit <= MAX_LIMIT && r.cursor.Token? && r.cursor.sort != ""
    requires r.cursor.sort != if r.sort == "" then expectedSort else r.sort
    ensures !Validate(r, expectedSort) <==> r.sort != "" && r.sort != expectedSort
  {
  }

  /**
   When a list request is refused: a limit above the maximum, a cursor that does not decode, one of another sort as above, and one
   whose tuple of three or more is not a date, a positive id and a number.
   */
  lemma BadRequestIff(t: Table, keep: Filter, r: ListRequest)
    ensures GetBills(t, keep, r).BadRequest? <==>
      || r.limit > MAX_LIMIT
      || r.cursor.Malformed?
      || (r.cursor.Token? && r.cursor.sort != "" && r.cursor.sort != r.sort && r.sort != "" && r.sort != BILL_LIST_SORT)
      || (r.cursor.Token? && |r.cursor.parts| >= 3
          && !(r.cursor.parts[0].Instant? && r.cursor.parts[1].Number? && r.cursor.parts[1].n > 0 && r.cursor.parts[2].Number?))
  {
    hide GetAllBill, BuildEnvelope, EffectiveLimit;
  }
}
