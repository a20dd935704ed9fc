/** The text of a failed publish, as bytes in UTF-8, and the cut that makes it fit its column. */
module ErrorText {
  type Text = seq<bv8>

  /** The size in bytes to which an error is cut. The column takes as many characters, and no character is less than a byte. */
  const MAX_ERROR_LEN: nat := 1024

  /** utf8.RuneStart: not a continuation byte. */
  predicate RuneStart(b: bv8) { b & 0xC0 != 0x80 }

  /** The last place up to n where a rune can begin, or the beginning. */
  function CutAt(s: Text, n: nat): (k: nat)
    requires n < |s|
    ensures k <= n && (k == 0 || RuneStart(s[k])) && forall j :: k < j <= n ==> !RuneStart(s[j])
  {
    if n == 0 || RuneStart(s[n]) then n else CutAt(s, n - 1)
  }

  function Truncated(s: Text, n: nat): (r: Text)
    ensures r <= s && |r| <= n
  {
    if |s| <= n then s else s[..CutAt(s, n)]
  }

  /** truncate. */
  method Truncate(s: Text, n: nat) returns (r: Text)
    ensures r == Truncated(s, n)
  {
    if |s| <= n { return s; }
    var k := n;
    while k > 0 && !RuneStart(s[k])
      invariant 0 <= k <= n && CutAt(s, n) == CutAt(s, k)
    {
      k := k - 1;
    }
    r := s[..k];
  }

  // ---------------------------------------------------------------- whole runes

  /** One character in UTF-8: a byte that can begin a rune, and continuation bytes. */
  predicate Rune(r: Text) { r != [] && RuneStart(r[0]) && forall j :: 0 < j < |r| ==> !RuneStart(r[j]) }

  predicate Runes(runes: seq<Text>) { forall i :: 0 <= i < |runes| ==> Rune(runes[i]) }

  function Joined(runes: seq<Text>): Text {
    if runes == [] then [] else Joined(runes[..|runes| - 1]) + runes[|runes| - 1]
  }

  lemma CutInFront(front: Text, last: Text, n: nat)
    requires n < |front|
    ensures Truncated(front + last, n) == Truncated(front, n)
  {
    SameCut(front, last, n);
    hide CutAt;
  }

  lemma SameCut(s: Text, t: Text, n: nat)
    requires n < |s|
    ensures CutAt(s + t, n) == CutAt(s, n)
  {
  }

  lemma CutInLast(front: Text, last: Text, n: nat)
    requires |front| <= n < |front + last| && Rune(last)
    ensures Truncated(front + last, n) == front
  {
    hide CutAt, RuneStart;
    assert (front + last)[|front|] == last[0];
    assert forall j :: |front| < j <= n ==> (front + last)[j] == last[j - |front|];
  }

  /** A text in UTF-8 loses whole characters from its end, and no more of them than it must to fit. */
  lemma {:induction false} WholeRunesStay(runes: seq<Text>, n: nat) returns (m: nat)
    requires Runes(runes)
    ensures m <= |runes| && Truncated(Joined(runes), n) == Joined(runes[..m])
    ensures |Joined(runes[..m])| <= n && (m < |runes| ==> |Joined(runes[..m + 1])| > n)
  {
    hide Rune, Truncated;
    m := |runes|;
    assert runes[..m] == runes;
    if |Joined(runes)| <= n {
      FitsAsItIs(Joined(runes), n);
    } else {
      var init, last := runes[..m - 1], runes[m - 1];
      assert Joined(runes) == Joined(init) + last;
      hide Joined;
      if |Joined(init)| <= n {
        CutInLast(Joined(init), last, n);
        m := m - 1;
      } else {
        CutInFront(Joined(init), last, n);
        m := WholeRunesStay(init, n);
        assert init[..|init|] == init;
        assert m < |init| && init[..m] == runes[..m] && init[..m + 1] == runes[..m + 1];
      }
    }
  }

  lemma FitsAsItIs(s: Text, n: nat)
    requires |s| <= n
    ensures Truncated(s, n) == s
  {
  }
}
