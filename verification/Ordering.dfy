/**
 Ordered reads with a limit. A query that says ORDER BY and LIMIT returns the first n members of a
 set in an order, and here that order is on triples of integers: a descending column enters
 negated. The outbox claim and the bill list both read their rows this way.
 */
module Ordering {

  datatype Rank = Rank(major: int, minor: int, tie: int)

  predicate Less(x: Rank, y: Rank) {
    || x.major < y.major
    || (x.major == y.major && x.minor < y.minor)
    || (x.major == y.major && x.minor == y.minor && x.tie < y.tie)
  }

  ghost predicate Ascending(s: seq<Rank>) {
    forall i, j :: 0 <= i < j < |s| ==> Less(s[i], s[j])
  }

  ghost predicate Lists(s: seq<Rank>, ranks: set<Rank>) {
    && Ascending(s)
    && (forall x :: x in s <==> x in ranks)
  }

  predicate IsLeast(m: Rank, ranks: set<Rank>) {
    m in ranks && forall x | x in ranks :: x == m || Less(m, x)
  }

  lemma LeastExists(ranks: set<Rank>)
    requires ranks != {}
    ensures exists m :: IsLeast(m, ranks)
  {
    var x :| x in ranks;
    if ranks == {x} {
      assert IsLeast(x, ranks);
    } else {
      LeastExists(ranks - {x});
      var m :| IsLeast(m, ranks - {x});
      var least := if Less(m, x) then m else x;
      assert forall y | y in ranks :: y == x || y in ranks - {x};
      assert IsLeast(least, ranks);
    }
  }

  /** The members of a set in order: ORDER BY without a LIMIT. */
  function Sorted(ranks: set<Rank>): seq<Rank> {
    if ranks == {} then []
    else
      LeastExists(ranks);
      var m :| IsLeast(m, ranks);
      [m] + Sorted(ranks - {m})
  }

  /** The least member comes first, and the others follow in order. */
  lemma SortedUnfolds(ranks: set<Rank>)
    requires ranks != {}
    ensures Sorted(ranks) != [] && IsLeast(Sorted(ranks)[0], ranks)
    ensures Sorted(ranks) == [Sorted(ranks)[0]] + Sorted(ranks - {Sorted(ranks)[0]})
  {
    LeastExists(ranks);
    hide IsLeast;
    var m :| IsLeast(m, ranks) && Sorted(ranks) == [m] + Sorted(ranks - {m});
  }

  lemma ListsPush(m: Rank, rest: seq<Rank>, ranks: set<Rank>)
    requires IsLeast(m, ranks) && Lists(rest, ranks - {m})
    ensures Lists([m] + rest, ranks)
  {
    assert forall i :: 0 <= i < |rest| ==> rest[i] in rest;
  }

  lemma {:induction false} SortedLists(ranks: set<Rank>)
    ensures Lists(Sorted(ranks), ranks)
    ensures |Sorted(ranks)| == |ranks|
  {
    if ranks == {} {
      assert Sorted(ranks) == [];
    } else {
      SortedUnfolds(ranks);
      var m := Sorted(ranks)[0];
      assert m in ranks;
      hide Sorted, Lists, IsLeast;
      SortedLists(ranks - {m});
      ListsPush(m, Sorted(ranks - {m}), ranks);
    }
  }

  function Min(a: nat, b: nat): nat { if a < b then a else b }

  /** LIMIT n. */
  function First<T>(s: seq<T>, n: nat): seq<T> { s[..Min(n, |s|)] }

  lemma {:induction false} ListingIsUnique(s: seq<Rank>, t: seq<Rank>, ranks: set<Rank>)
    requires Lists(s, ranks) && Lists(t, ranks)
    ensures s == t
  {
    assert (s != [] ==> s[0] in t) && (t != [] ==> t[0] in s);
    if s == [] {
    } else {
      assert t[0] in ranks && t[0] in s && s[0] in t;
      assert s[0] == t[0];
      var rest := ranks - {s[0]};
      forall x ensures x in s[1..] <==> x in rest {
        if x in s[1..] {
          var i :| 1 <= i < |s| && s[i] == x;
          assert Less(s[0], s[i]);
        }
        if x in rest { assert x in s; }
      }
      forall x ensures x in t[1..] <==> x in rest {
        if x in t[1..] {
          var i :| 1 <= i < |t| && t[i] == x;
          assert Less(t[0], t[i]);
        }
        if x in rest { assert x in t; }
      }
      ListingIsUnique(s[1..], t[1..], rest);
      assert s == [s[0]] + s[1..] && t == [t[0]] + t[1..];
    }
  }

  lemma FirstIsPrefix(s: seq<Rank>, n: nat)
    ensures First(s, n) <= s
    ensures forall y | y in First(s, n) :: y in s
  {
  }

  /** What a limited read leaves behind comes after everything it returned. */
  lemma FirstSplits(s: seq<Rank>, n: nat, x: Rank)
    requires Ascending(s) && x in s && x !in First(s, n)
    ensures |First(s, n)| == n
    ensures forall y | y in First(s, n) :: Less(y, x)
  {
    var page := First(s, n);
    var i :| 0 <= i < |s| && s[i] == x;
    forall j | 0 <= j < |page| ensures s[j] != x {
      assert page[j] in page;
    }
    forall y | y in page ensures Less(y, x) {
      var j :| 0 <= j < |page| && page[j] == y;
      assert Less(s[j], s[i]);
    }
  }
}
