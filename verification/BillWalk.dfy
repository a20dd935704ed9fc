/**
 A client's walk over the bill list: it asks for a page, and while the page says has_more it asks
 again with next_cursor. Each page reads the table as it is at that moment, so a walk is over a
 sequence of tables, one for each request.
 */
module BillWalk {
  import opened Options
  import opened Ordering
  import opened BillList

  ghost function Walk(tables: seq<Table>, keep: Filter, r: ListRequest): seq<Envelope> {
    if tables == [] then []
    else
      match GetBills(tables[0], keep, r)
      case BadRequest => []
      case Listed(page) =>
        [page] + if page.hasMore then Walk(tables[1..], keep, r.(cursor := page.nextCursor)) else []
  }

  ghost predicate Completed(pages: seq<Envelope>) {
    pages != [] && !pages[|pages| - 1].hasMore
  }

  /** The keys of every row the walk returned, in the order it returned them. */
  ghost function Returned(pages: seq<Envelope>): seq<Rank> {
    if pages == [] then [] else Keys(pages[0].items) + Returned(pages[1..])
  }

  ghost function PositionOf(r: ListRequest): Option<Position> {
    var d := DecodeBillCursor(if r.cursor.Token? then r.cursor.parts else []);
    if d.Decoded? then d.position else None
  }

  /** A request of a walk: within the limit, the list's own sort, and no cursor but one a page gave. */
  ghost predicate Walking(r: ListRequest) {
    && r.limit <= MAX_LIMIT
    && r.sort in {"", BILL_LIST_SORT}
    && (r.cursor == Empty || (r.cursor.Token? && r.cursor.sort == BILL_LIST_SORT && PositionOf(r).Some?))
    && DecodeBillCursor(if r.cursor.Token? then r.cursor.parts else []).Decoded?
    && Minted(PositionOf(r))
  }

  ghost predicate AllPositive(tables: seq<Table>) {
    forall i :: 0 <= i < |tables| ==> PositiveIds(tables[i])
  }

  ghost function Rest(t: Table, keep: Filter, r: ListRequest): seq<Rank> {
    Sorted(Matching(t, keep, PositionOf(r)))
  }

  /** GetAllBill returns the first rows of the list after the cursor, in order. */
  lemma FetchedKeys(t: Table, keep: Filter, p: Option<Position>, n: nat)
    requires PositiveIds(t)
    ensures Keys(GetAllBill(t, keep, p, n)) == First(Sorted(Matching(t, keep, p)), n)
    ensures forall i :: 0 <= i < |GetAllBill(t, keep, p, n)| ==>
      GetAllBill(t, keep, p, n)[i].id > 0 && 0 <= GetAllBill(t, keep, p, n)[i].isCredit <= 1
  {
    hide Sorted, Matching;
    var s := Sorted(Matching(t, keep, p));
    SortedLists(Matching(t, keep, p));
    FirstIsPrefix(s, n);
    var rows := GetAllBill(t, keep, p, n);
    forall i | 0 <= i < |rows|
      ensures RowKey(rows[i]) == First(s, n)[i] && rows[i].id > 0 && 0 <= rows[i].isCredit <= 1
    {
      MatchingFields(t, keep, p, First(s, n)[i]);
    }
  }

  lemma MatchingFields(t: Table, keep: Filter, p: Option<Position>, k: Rank)
    requires PositiveIds(t) && k in Matching(t, keep, p)
    ensures -k.minor > 0 && 0 <= -k.tie <= 1
  {
  }

  /** The extra row decides has_more and is dropped, and the cursor is the key of the last row kept. */
  lemma EnvelopeOfRows(rows: seq<ListRow>, limit: nat, s: seq<Rank>)
    requires limit >= 1 && Keys(rows) == First(s, limit + 1)
    requires forall i :: 0 <= i < |rows| ==> rows[i].id > 0 && 0 <= rows[i].isCredit <= 1
    ensures
      var page := BuildEnvelope(rows, limit, BILL_LIST_SORT);
      && Keys(page.items) == First(s, limit)
      && (page.hasMore <==> |s| > limit)
      && (!page.hasMore ==> page.nextCursor == Empty)
      && (page.hasMore ==>
            && page.nextCursor.Token? && page.nextCursor.sort == BILL_LIST_SORT
            && var d := DecodeBillCursor(page.nextCursor.parts);
               && d.Decoded? && d.position.Some? && Minted(d.position)
               && PositionKey(d.position.value) == s[limit - 1])
  {
    assert forall i :: 0 <= i < |rows| ==> Keys(rows)[i] == RowKey(rows[i]) && s[i] == Keys(rows)[i];
    if |rows| > limit {
      CursorRoundTrip(rows[limit - 1]);
    }
  }

  /** What one request of a walk returns, and the request it leads to. */
  lemma PageOfWalk(t: Table, keep: Filter, r: ListRequest)
    requires Walking(r) && PositiveIds(t)
    ensures GetBills(t, keep, r).Listed?
    ensures
      var page := GetBills(t, keep, r).page;
      var next := r.(cursor := page.nextCursor);
      && Keys(page.items) == First(Rest(t, keep, r), EffectiveLimit(r))
      && (page.hasMore <==> |Rest(t, keep, r)| > EffectiveLimit(r))
      && (page.hasMore ==>
            && Walking(next) && PositionOf(next).Some?
            && PositionKey(PositionOf(next).value) == Rest(t, keep, r)[EffectiveLimit(r) - 1])
  {
    hide Sorted, Matching, GetAllBill;
    var p, limit := PositionOf(r), EffectiveLimit(r);
    var rows := GetAllBill(t, keep, p, limit + 1);
    assert GetBills(t, keep, r) == Listed(BuildEnvelope(rows, limit, BILL_LIST_SORT));
    FetchedKeys(t, keep, p, limit + 1);
    EnvelopeOfRows(rows, limit, Rest(t, keep, r));
  }

  /** What is left for a request: in the order of the list, and exactly what comes after its cursor. */
  lemma RestIsTheTail(t: Table, keep: Filter, r: ListRequest)
    ensures Lists(Rest(t, keep, r), Matching(t, keep, PositionOf(r)))
  {
    SortedLists(Matching(t, keep, PositionOf(r)));
  }

  lemma KeysAfter(t: Table, keep: Filter, r: ListRequest, k: Rank)
    requires Walking(r)
    ensures Ascending(Rest(t, keep, r))
    ensures k in Rest(t, keep, r) <==>
      k in Matching(t, keep, None) && (PositionOf(r).Some? ==> Less(PositionKey(PositionOf(r).value), k))
  {
    RestIsTheTail(t, keep, r);
    SeekIsTheListOrder(t, keep, PositionOf(r), k);
  }

  /** However the table changes between the pages, a walk returns its keys in strictly ascending order. */
  lemma {:induction false} ReturnedAscends(tables: seq<Table>, keep: Filter, r: ListRequest)
    requires Walking(r) && AllPositive(tables)
    ensures Ascending(Returned(Walk(tables, keep, r)))
    ensures PositionOf(r).Some? ==>
      forall k :: k in Returned(Walk(tables, keep, r)) ==> Less(PositionKey(PositionOf(r).value), k)
  {
    hide Sorted, Matching, GetBills, Walking;
    if tables != [] {
      var t := tables[0];
      PageOfWalk(t, keep, r);
      var page := GetBills(t, keep, r).page;
      var here := Keys(page.items);
      RestIsTheTail(t, keep, r);
      FirstIsPrefix(Rest(t, keep, r), EffectiveLimit(r));
      forall k | k in here ensures PositionOf(r).Some? ==> Less(PositionKey(PositionOf(r).value), k) {
        KeysAfter(t, keep, r, k);
      }
      if page.hasMore {
        var next := r.(cursor := page.nextCursor);
        ReturnedAscends(tables[1..], keep, next);
        var there := Returned(Walk(tables[1..], keep, next));
        assert Walk(tables, keep, r)[1..] == Walk(tables[1..], keep, next);
        assert Returned(Walk(tables, keep, r)) == here + there;
        AscendingConcat(here, there, PositionKey(PositionOf(next).value));
        LessTransitive(here, there, r, next);
      } else {
        assert Walk(tables, keep, r) == [page];
        assert Returned([page]) == here;
      }
    }
  }

  lemma AscendingConcat(s: seq<Rank>, t: seq<Rank>, m: Rank)
    requires Ascending(s) && Ascending(t)
    requires s != [] && s[|s| - 1] == m
    requires forall k :: k in t ==> Less(m, k)
    ensures Ascending(s + t)
  {
    forall i, j | 0 <= i < j < |s + t| ensures Less((s + t)[i], (s + t)[j]) {
      if i < |s| <= j {
        assert t[j - |s|] in t;
        assert i < |s| - 1 ==> Less(s[i], m);
      }
    }
  }

  lemma LessTransitive(here: seq<Rank>, there: seq<Rank>, r: ListRequest, next: ListRequest)
    requires here != [] && PositionOf(next).Some? && PositionKey(PositionOf(next).value) == here[|here| - 1]
    requires PositionOf(r).Some? ==> forall k :: k in here ==> Less(PositionKey(PositionOf(r).value), k)
    requires forall k :: k in there ==> Less(PositionKey(PositionOf(next).value), k)
    ensures PositionOf(r).Some? ==> forall k :: k in here + there ==> Less(PositionKey(PositionOf(r).value), k)
  {
    assert here[|here| - 1] in here;
  }

  /** No (effective_date, id, is_credit) key is returned twice, whatever happens to the table. */
  lemma NoKeyIsReturnedTwice(tables: seq<Table>, keep: Filter, r: ListRequest, i: nat, j: nat)
    requires Walking(r) && AllPositive(tables)
    requires i < j < |Returned(Walk(tables, keep, r))|
    ensures Returned(Walk(tables, keep, r))[i] != Returned(Walk(tables, keep, r))[j]
  {
    ReturnedAscends(tables, keep, r);
  }

  /** A row that is in the list, under an unchanged key, at every request of a completed walk is returned. */
  lemma {:induction false} SteadyRowIsReturned(tables: seq<Table>, keep: Filter, r: ListRequest, k: Rank)
    requires Walking(r) && AllPositive(tables)
    requires Completed(Walk(tables, keep, r))
    requires forall i :: 0 <= i < |Walk(tables, keep, r)| && i < |tables| ==> k in Matching(tables[i], keep, None)
    requires PositionOf(r).Some? ==> Less(PositionKey(PositionOf(r).value), k)
    ensures k in Returned(Walk(tables, keep, r))
  {
    hide Sorted, Matching, GetBills, Walking;
    var t := tables[0];
    PageOfWalk(t, keep, r);
    var page := GetBills(t, keep, r).page;
    var here := Keys(page.items);
    var pages := Walk(tables, keep, r);
    assert pages[0] == page;
    KeysAfter(t, keep, r, k);
    assert |Rest(t, keep, r)| <= EffectiveLimit(r) ==> here == Rest(t, keep, r);
    if k !in here {
      FirstSplits(Rest(t, keep, r), EffectiveLimit(r), k);
      var next := r.(cursor := page.nextCursor);
      var later := Walk(tables[1..], keep, next);
      assert pages == [page] + later;
      assert here[|here| - 1] in here;
      forall i | 0 <= i < |later| && i < |tables[1..]| ensures k in Matching(tables[1..][i], keep, None) {
        assert tables[1..][i] == tables[i + 1];
      }
      SteadyRowIsReturned(tables[1..], keep, next, k);
      assert pages[1..] == later;
    } else if page.hasMore {
      assert Returned(pages) == here + Returned(pages[1..]);
    }
  }

  ghost function Occurrences(s: seq<Rank>, k: Rank): set<int> { set i | 0 <= i < |s| && s[i] == k }

  /** A completed walk from the start returns every row that stays in the list exactly once. */
  lemma SteadyRowIsReturnedOnce(tables: seq<Table>, keep: Filter, r: ListRequest, k: Rank)
    requires Walking(r) && AllPositive(tables) && PositionOf(r).None?
    requires Completed(Walk(tables, keep, r))
    requires forall i :: 0 <= i < |Walk(tables, keep, r)| && i < |tables| ==> k in Matching(tables[i], keep, None)
    ensures |Occurrences(Returned(Walk(tables, keep, r)), k)| == 1
  {
    hide Walk, Walking;
    SteadyRowIsReturned(tables, keep, r, k);
    ReturnedAscends(tables, keep, r);
    var all := Returned(Walk(tables, keep, r));
    var i :| 0 <= i < |all| && all[i] == k;
    assert Occurrences(all, k) == {i};
  }

  // ---------------------------------------------------------------- a table that does not change

  /** max(1, ceil(n / limit)). */
  function PageCount(n: nat, limit: int): int
    requires limit >= 1
  {
    if n == 0 then 1 else (n + limit - 1) / limit
  }

  lemma PageCountStep(n: nat, limit: int)
    requires limit >= 1
    ensures PageCount(n, limit) >= 1
    ensures n <= limit ==> PageCount(n, limit) == 1
    ensures n > limit ==> PageCount(n, limit) == 1 + PageCount(n - limit, limit)
  {
    if n == 0 {
    } else if n <= limit {
      assert n + limit - 1 == 1 * limit + (n - 1);
      QuotientIs(n + limit - 1, limit, 1, n - 1);
    } else {
      var q, m := (n - 1) / limit, (n - 1) % limit;
      assert n - 1 == q * limit + m;
      assert n + limit - 1 == (q + 1) * limit + m;
      QuotientIs(n + limit - 1, limit, q + 1, m);
      QuotientIs((n - limit) + limit - 1, limit, q, m);
    }
  }

  lemma AtLeast(e: int, d: int)
    requires e >= 1 && d >= 1
    ensures e * d >= d
  {
  }

  lemma QuotientIs(x: int, d: int, q: int, m: int)
    requires d >= 1 && 0 <= m < d && x == q * d + m
    ensures x / d == q
  {
    var q', m' := x / d, x % d;
    assert x == q' * d + m';
    var e := q - q';
    assert e * d == m' - m;
    if e >= 1 {
      AtLeast(e, d);
    } else if e <= -1 {
      AtLeast(-e, d);
    }
  }

  /** The keys after the last one of a full page are what the page left. */
  lemma RestAfterPage(t: Table, keep: Filter, r: ListRequest, next: ListRequest, n: nat)
    requires Walking(r) && Walking(next) && PositionOf(next).Some?
    requires 0 < n < |Rest(t, keep, r)|
    requires PositionKey(PositionOf(next).value) == Rest(t, keep, r)[n - 1]
    ensures Rest(t, keep, next) == Rest(t, keep, r)[n..]
  {
    hide Matching, Walking;
    RestIsTheTail(t, keep, r);
    RestIsTheTail(t, keep, next);
    var s := Rest(t, keep, r);
    var m := s[n - 1];
    forall k ensures k in s[n..] <==> k in Matching(t, keep, PositionOf(next)) {
      KeysAfter(t, keep, r, k);
      KeysAfter(t, keep, next, k);
      if PositionOf(r).Some? { KeysAfter(t, keep, r, m); }
      if k in s {
        var i :| 0 <= i < |s| && s[i] == k;
        assert if i < n - 1 then Less(k, m) else i == n - 1 || Less(m, k);
        assert i >= n ==> s[n..][i - n] == k;
      }
    }
    ListingIsUnique(s[n..], Rest(t, keep, next), Matching(t, keep, PositionOf(next)));
  }

  /** On a table that does not change, the pages put together are the sorted list, in the fewest pages. */
  lemma {:induction false} WalkOfFixedTable(t: Table, tables: seq<Table>, keep: Filter, r: ListRequest)
    requires Walking(r) && PositiveIds(t)
    requires forall i :: 0 <= i < |tables| ==> tables[i] == t
    requires |tables| >= PageCount(|Rest(t, keep, r)|, EffectiveLimit(r))
    ensures Completed(Walk(tables, keep, r))
    ensures Returned(Walk(tables, keep, r)) == Rest(t, keep, r)
    ensures |Walk(tables, keep, r)| == PageCount(|Rest(t, keep, r)|, EffectiveLimit(r))
    decreases |tables|
  {
    hide Sorted, Matching, GetBills, Walking, Rest, PageCount, PositionOf, Keys, First, Walk, Returned, EffectiveLimit;
    var s, limit := Rest(t, keep, r), EffectiveLimit(r);
    PageCountStep(|s|, limit);
    PageOfWalk(t, keep, r);
    var page := GetBills(t, keep, r).page;
    FirstOf(s, limit);
    var next := r.(cursor := page.nextCursor);
    WalkUnfolds(tables, keep, r);
    if |s| <= limit {
      ReturnedPush(page, []);
    } else {
      RestAfterPage(t, keep, r, next, limit);
      SameLimit(r, next);
      WalkOfFixedTable(t, tables[1..], keep, next);
      ReturnedPush(page, Walk(tables[1..], keep, next));
    }
  }

  lemma SameLimit(r: ListRequest, next: ListRequest)
    requires next == r.(cursor := next.cursor)
    ensures EffectiveLimit(next) == EffectiveLimit(r)
  {
  }

  lemma FirstOf(s: seq<Rank>, n: nat)
    ensures |s| <= n ==> First(s, n) == s
    ensures |s| > n ==> First(s, n) + s[n..] == s
  {
  }

  lemma WalkUnfolds(tables: seq<Table>, keep: Filter, r: ListRequest)
    requires tables != [] && GetBills(tables[0], keep, r).Listed?
    ensures
      var page := GetBills(tables[0], keep, r).page;
      Walk(tables, keep, r) == [page] + if page.hasMore then Walk(tables[1..], keep, r.(cursor := page.nextCursor)) else []
  {
    hide GetBills;
  }

  lemma ReturnedPush(page: Envelope, later: seq<Envelope>)
    ensures Returned([page] + later) == Keys(page.items) + Returned(later) && Returned([]) == []
  {
    assert ([page] + later)[1..] == later;
  }

  /** The whole walk, from a request without a cursor. */
  lemma WalkIsTheSortedList(t: Table, tables: seq<Table>, keep: Filter, r: ListRequest)
    requires r.limit <= MAX_LIMIT && r.sort in {"", BILL_LIST_SORT} && r.cursor == Empty && PositiveIds(t)
    requires forall i :: 0 <= i < |tables| ==> tables[i] == t
    requires |tables| >= PageCount(|Listing(t, keep)|, EffectiveLimit(r))
    ensures Completed(Walk(tables, keep, r))
    ensures Returned(Walk(tables, keep, r)) == Listing(t, keep)
    ensures |Walk(tables, keep, r)| == PageCount(|Listing(t, keep)|, EffectiveLimit(r))
  {
    WalkOfFixedTable(t, tables, keep, r);
  }

  // ---------------------------------------------------------------- the bills of a walk

  /**
   The row is that of a bill in the table that is not deleted and passes the filter, under the bill's date. A row with is_credit 1 is
   the second one of a bill with a credit note.
   */
  ghost predicate IsOfABill(t: Table, keep: Filter, row: ListRow) {
    && row.id in t && t[row.id].state >= 0 && keep(t[row.id]) && row.effectiveDate == t[row.id].effectiveDate
    && (row.isCredit == 0 || (row.isCredit == 1 && t[row.id].hasCreditNote))
  }

  lemma FetchedIsOfABill(t: Table, keep: Filter, p: Option<Position>, n: nat, i: nat)
    requires i < |GetAllBill(t, keep, p, n)|
    ensures IsOfABill(t, keep, GetAllBill(t, keep, p, n)[i])
  {
    hide Sorted, Matching, IsOfABill, RowAt;
    var s := Sorted(Matching(t, keep, p));
    SortedLists(Matching(t, keep, p));
    FirstIsPrefix(s, n);
    assert First(s, n)[i] in s;
    MatchingIsOfABill(t, keep, p, First(s, n)[i]);
  }

  lemma MatchingIsOfABill(t: Table, keep: Filter, p: Option<Position>, k: Rank)
    requires k in Matching(t, keep, p)
    ensures IsOfABill(t, keep, RowAt(k))
  {
    hide Seek;
  }

  /** Whatever the request asks for and whatever cursor it brings, a page has no row but that of such a bill. */
  lemma PageHasNoOtherBill(t: Table, keep: Filter, r: ListRequest, i: nat)
    requires GetBills(t, keep, r).Listed? && i < |GetBills(t, keep, r).page.items|
    ensures IsOfABill(t, keep, GetBills(t, keep, r).page.items[i])
  {
    hide GetAllBill, IsOfABill;
    FetchedIsOfABill(t, keep, PositionOf(r), EffectiveLimit(r) + 1, i);
  }

  /** The rows that a walk returned, in order. */
  ghost function RowsOf(pages: seq<Envelope>): seq<ListRow> {
    if pages == [] then [] else pages[0].items + RowsOf(pages[1..])
  }

  /** Some table that the walk has read has the bill of this row. */
  ghost predicate IsOfAReadBill(tables: seq<Table>, keep: Filter, read: nat, row: ListRow) {
    exists n :: 0 <= n < read && n < |tables| && IsOfABill(tables[n], keep, row)
  }

  lemma {:induction false} WalkHasNoOtherBill(tables: seq<Table>, keep: Filter, r: ListRequest)
    ensures forall k :: 0 <= k < |RowsOf(Walk(tables, keep, r))| ==>
      IsOfAReadBill(tables, keep, |Walk(tables, keep, r)|, RowsOf(Walk(tables, keep, r))[k])
  {
    hide GetBills, IsOfABill;
    if tables != [] && GetBills(tables[0], keep, r).Listed? {
      var page := GetBills(tables[0], keep, r).page;
      var next := r.(cursor := page.nextCursor);
      var later := if page.hasMore then Walk(tables[1..], keep, next) else [];
      assert Walk(tables, keep, r) == [page] + later;
      assert RowsOf([page] + later) == page.items + RowsOf(later) by { assert ([page] + later)[1..] == later; }
      WalkHasNoOtherBill(tables[1..], keep, next);
      forall k | 0 <= k < |page.items + RowsOf(later)|
        ensures IsOfAReadBill(tables, keep, 1 + |later|, (page.items + RowsOf(later))[k])
      {
        if k < |page.items| {
          PageHasNoOtherBill(tables[0], keep, r, k);
        } else {
          var row := RowsOf(later)[k - |page.items|];
          var n :| 0 <= n < |later| && n < |tables[1..]| && IsOfABill(tables[1..][n], keep, row);
          assert IsOfABill(tables[n + 1], keep, row);
        }
      }
    }
  }

  lemma {:induction false} KeysOfRows(pages: seq<Envelope>)
    ensures Keys(RowsOf(pages)) == Returned(pages)
  {
    if pages != [] {
      KeysOfRows(pages[1..]);
      assert Keys(pages[0].items + RowsOf(pages[1..])) == Keys(pages[0].items) + Keys(RowsOf(pages[1..]));
    }
  }

  /** However the table changes, the rows come newest first, and of one instant by id and then is_credit, both falling. */
  lemma WalkIsNewestFirst(tables: seq<Table>, keep: Filter, r: ListRequest, j: nat, k: nat)
    requires Walking(r) && AllPositive(tables) && j < k < |RowsOf(Walk(tables, keep, r))|
    ensures
      var x, y := RowsOf(Walk(tables, keep, r))[j], RowsOf(Walk(tables, keep, r))[k];
      || x.effectiveDate > y.effectiveDate
      || (x.effectiveDate == y.effectiveDate && x.id > y.id)
      || (x.effectiveDate == y.effectiveDate && x.id == y.id && x.isCredit > y.isCredit)
  {
    hide Walk, Walking;
    ReturnedAscends(tables, keep, r);
    KeysOfRows(Walk(tables, keep, r));
    var rows := RowsOf(Walk(tables, keep, r));
    assert Less(Keys(rows)[j], Keys(rows)[k]);
  }

  /** Where a walk returned this row of a bill. */
  ghost function Places(rows: seq<ListRow>, id: int, isCredit: int): set<int> {
    set k | 0 <= k < |rows| && rows[k].id == id && rows[k].isCredit == isCredit
  }

  /** The bill is not deleted and passes the filter, in each table that was read and under one date. */
  ghost predicate StaysListed(tables: seq<Table>, keep: Filter, read: nat, id: nat, date: int) {
    forall n :: 0 <= n < read && n < |tables| ==>
      id in tables[n] && tables[n][id].state >= 0 && keep(tables[n][id]) && tables[n][id].effectiveDate == date
  }

  /** In each table that was read the bill is missing, deleted or not what the filter asks for. */
  ghost predicate StaysOff(tables: seq<Table>, keep: Filter, read: nat, id: nat) {
    forall n :: 0 <= n < read && n < |tables| ==> id !in tables[n] || tables[n][id].state < 0 || !keep(tables[n][id])
  }

  ghost predicate CreditStays(tables: seq<Table>, read: nat, id: nat, hasCreditNote: bool) {
    forall n :: 0 <= n < read && n < |tables| && id in tables[n] ==> tables[n][id].hasCreditNote == hasCreditNote
  }

  /**
   However the other bills change between its pages, a completed walk from the start returns a bill that stays on the list under one
   date once with is_credit 0, and once more with is_credit 1 exactly when it has a credit note.
   */
  lemma SteadyBillIsReturnedOnce(tables: seq<Table>, keep: Filter, r: ListRequest, id: nat, date: int, hasCreditNote: bool)
    requires Walking(r) && AllPositive(tables) && PositionOf(r).None? && Completed(Walk(tables, keep, r))
    requires StaysListed(tables, keep, |Walk(tables, keep, r)|, id, date)
    requires CreditStays(tables, |Walk(tables, keep, r)|, id, hasCreditNote)
    ensures |Places(RowsOf(Walk(tables, keep, r)), id, 0)| == 1
    ensures |Places(RowsOf(Walk(tables, keep, r)), id, 1)| == if hasCreditNote then 1 else 0
  {
    hide Walking, PositionOf, Walk;
    var pages := Walk(tables, keep, r);
    var rows := RowsOf(pages);
    WalkHasNoOtherBill(tables, keep, r);
    KeysOfRows(pages);
    SteadyKeys(tables, keep, |pages|, id, date, hasCreditNote);
    SteadyRowIsReturnedOnce(tables, keep, r, Key(date, id, 0));
    SamePlaces(tables, keep, |pages|, rows, id, date, 0);
    if hasCreditNote {
      SteadyRowIsReturnedOnce(tables, keep, r, Key(date, id, 1));
      SamePlaces(tables, keep, |pages|, rows, id, date, 1);
    } else {
      NoCreditRow(tables, keep, |pages|, rows, id);
    }
  }

  lemma SteadyKeys(tables: seq<Table>, keep: Filter, read: nat, id: nat, date: int, hasCreditNote: bool)
    requires StaysListed(tables, keep, read, id, date) && CreditStays(tables, read, id, hasCreditNote)
    ensures forall n :: 0 <= n < read && n < |tables| ==>
      Key(date, id, 0) in Matching(tables[n], keep, None) && (hasCreditNote ==> Key(date, id, 1) in Matching(tables[n], keep, None))
  {
  }

  lemma SamePlaces(tables: seq<Table>, keep: Filter, read: nat, rows: seq<ListRow>, id: nat, date: int, isCredit: int)
    requires StaysListed(tables, keep, read, id, date)
    requires forall k :: 0 <= k < |rows| ==> IsOfAReadBill(tables, keep, read, rows[k])
    ensures Places(rows, id, isCredit) == Occurrences(Keys(rows), Key(date, id, isCredit))
  {
    forall k | 0 <= k < |rows| && rows[k].id == id ensures rows[k].effectiveDate == date {
      var n :| 0 <= n < read && n < |tables| && IsOfABill(tables[n], keep, rows[k]);
    }
    assert forall k :: 0 <= k < |rows| ==> Keys(rows)[k] == RowKey(rows[k]);
  }

  lemma NoCreditRow(tables: seq<Table>, keep: Filter, read: nat, rows: seq<ListRow>, id: nat)
    requires CreditStays(tables, read, id, false)
    requires forall k :: 0 <= k < |rows| ==> IsOfAReadBill(tables, keep, read, rows[k])
    ensures |Places(rows, id, 1)| == 0
  {
    forall k | 0 <= k < |rows| && rows[k].id == id ensures rows[k].isCredit != 1 {
      var n :| 0 <= n < read && n < |tables| && IsOfABill(tables[n], keep, rows[k]);
    }
    assert Places(rows, id, 1) == {};
  }

  /** And a bill that stays off the list is not returned. */
  lemma OtherBillIsNotReturned(tables: seq<Table>, keep: Filter, r: ListRequest, id: nat, isCredit: int)
    requires StaysOff(tables, keep, |Walk(tables, keep, r)|, id)
    ensures |Places(RowsOf(Walk(tables, keep, r)), id, isCredit)| == 0
  {
    hide Walk;
    WalkHasNoOtherBill(tables, keep, r);
    var rows := RowsOf(Walk(tables, keep, r));
    forall k | 0 <= k < |rows| ensures rows[k].id != id {
      var n :| 0 <= n < |Walk(tables, keep, r)| && n < |tables| && IsOfABill(tables[n], keep, rows[k]);
    }
    assert Places(rows, id, isCredit) == {};
  }

  /**
   On a table that does not change a completed walk returns each bill that is not deleted and passes the filter once, a second time
   exactly when it has a credit note, and no other bill.
   */
  lemma FixedWalkReturnsTheBills(t: Table, tables: seq<Table>, keep: Filter, r: ListRequest, id: nat)
    requires Walking(r) && PositionOf(r).None? && PositiveIds(t) && Completed(Walk(tables, keep, r))
    requires forall i :: 0 <= i < |tables| ==> tables[i] == t
    ensures
      var rows, listed := RowsOf(Walk(tables, keep, r)), id in t && t[id].state >= 0 && keep(t[id]);
      && |Places(rows, id, 0)| == (if listed then 1 else 0)
      && |Places(rows, id, 1)| == (if listed && t[id].hasCreditNote then 1 else 0)
  {
    hide Walk, Walking, PositionOf;
    if id in t && t[id].state >= 0 && keep(t[id]) {
      SteadyBillIsReturnedOnce(tables, keep, r, id, t[id].effectiveDate, t[id].hasCreditNote);
    } else {
      OtherBillIsNotReturned(tables, keep, r, id, 0);
      OtherBillIsNotReturned(tables, keep, r, id, 1);
    }
  }
}
