/** The stable key of a tax document: tenant_key:branch_id:doc_type:source_id. */
module DocumentKeys {
  import opened Options

  const MAX_TENANT_KEY_LEN := 64
  const DOC_BILL := "bill"
  const DOC_CREDIT_NOTE := "credit_note"
  const DOC_DEBIT_NOTE := "debit_note"

  /** A tenant key has 1 to 64 characters and no ':', which separates the parts of a key. */
  predicate ValidTenantKey(tenantKey: string) {
    1 <= |tenantKey| <= MAX_TENANT_KEY_LEN && ':' !in tenantKey
  }

  predicate KnownDocType(docType: string) { docType in {DOC_BILL, DOC_CREDIT_NOTE, DOC_DEBIT_NOTE} }

  predicate ValidParts(tenantKey: string, branchId: nat, docType: string, sourceId: nat) {
    ValidTenantKey(tenantKey) && branchId != 0 && sourceId != 0 && KnownDocType(docType)
  }

  function Digit(d: nat): char
    requires d < 10
  {
    "0123456789"[d]
  }

  /** FormatUint in base ten. */
  function Decimal(n: nat): (s: string)
    ensures |s| > 0
  {
    if n < 10 then [Digit(n)] else Decimal(n / 10) + [Digit(n % 10)]
  }

  /** DocumentKey: None stands for the error answers. */
  function DocumentKey(tenantKey: string, branchId: nat, docType: string, sourceId: nat): Option<string> {
    if !ValidParts(tenantKey, branchId, docType, sourceId) then None
    else Some(tenantKey + ":" + (Decimal(branchId) + ":" + (docType + ":" + Decimal(sourceId))))
  }

  /** The form of a key, and the parts that have none. */
  lemma DocumentKeyForm(tenantKey: string, branchId: nat, docType: string, sourceId: nat)
    ensures DocumentKey(tenantKey, branchId, docType, sourceId).None? <==>
      || tenantKey == "" || |tenantKey| > 64 || (exists i :: 0 <= i < |tenantKey| && tenantKey[i] == ':')
      || branchId == 0 || sourceId == 0
      || (docType != "bill" && docType != "credit_note" && docType != "debit_note")
    ensures DocumentKey("acme", 7, "bill", 42) == Some("acme:7:bill:42")
  {
    assert "acme" + ":" + ("7" + ":" + ("bill" + ":" + "42")) == "acme:7:bill:42";
    assert Decimal(7) == "7" && Decimal(42) == "42";
  }

  function DigitValue(c: char): int { c as int - '0' as int }

  /** ParseUint, the inverse of Decimal on its image. */
  function Value(s: string): int {
    if s == "" then 0 else 10 * Value(s[..|s| - 1]) + DigitValue(s[|s| - 1])
  }

  lemma {:induction false} DecimalRoundTrip(n: nat)
    ensures Value(Decimal(n)) == n
    ensures ':' !in Decimal(n)
  {
    if n >= 10 {
      DecimalRoundTrip(n / 10);
      var s := Decimal(n);
      assert s[..|s| - 1] == Decimal(n / 10);
      assert s[|s| - 1] == Digit(n % 10);
    } else {
      assert Decimal(n)[..0] == "";
    }
  }

  function FirstColon(s: string): nat {
    if s == "" || s[0] == ':' then 0 else 1 + FirstColon(s[1..])
  }

  lemma {:induction false} ColonAfterHead(head: string, tail: string)
    requires ':' !in head
    ensures FirstColon(head + (":" + tail)) == |head|
  {
    if head == "" {
      assert head + (":" + tail) == ":" + tail;
    } else {
      assert (head + (":" + tail))[1..] == head[1..] + (":" + tail);
      ColonAfterHead(head[1..], tail);
    }
  }

  /** A separator that occurs in neither head splits a string in one way only. */
  lemma SplitIsUnique(head1: string, tail1: string, head2: string, tail2: string)
    requires ':' !in head1 && ':' !in head2
    requires head1 + ":" + tail1 == head2 + ":" + tail2
    ensures head1 == head2 && tail1 == tail2
  {
    var s := head1 + ":" + tail1;
    assert s == head1 + (":" + tail1) && s == head2 + (":" + tail2);
    ColonAfterHead(head1, tail1);
    ColonAfterHead(head2, tail2);
    assert s[..|head1|] == head1 && s[..|head2|] == head2;
    assert s[|head1| + 1..] == tail1 && s[|head2| + 1..] == tail2;
  }

  /** Two documents have the same key only if they are the same document. */
  lemma DocumentKeyIsInjective(t1: string, b1: nat, d1: string, s1: nat, t2: string, b2: nat, d2: string, s2: nat)
    requires ValidParts(t1, b1, d1, s1) && ValidParts(t2, b2, d2, s2)
    requires DocumentKey(t1, b1, d1, s1) == DocumentKey(t2, b2, d2, s2)
    ensures t1 == t2 && b1 == b2 && d1 == d2 && s1 == s2
  {
    DecimalRoundTrip(b1);
    DecimalRoundTrip(b2);
    DecimalRoundTrip(s1);
    DecimalRoundTrip(s2);
    SplitIsUnique(t1, Decimal(b1) + ":" + (d1 + ":" + Decimal(s1)), t2, Decimal(b2) + ":" + (d2 + ":" + Decimal(s2)));
    SplitIsUnique(Decimal(b1), d1 + ":" + Decimal(s1), Decimal(b2), d2 + ":" + Decimal(s2));
    SplitIsUnique(d1, Decimal(s1), d2, Decimal(s2));
  }
}
