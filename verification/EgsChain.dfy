/**
 The ICV reservation of one branch's EGS chain: a lease with a fencing token over one row.

 The runtime owner of this protocol is an external daemon. The repository states it in the contract
 test of the four reservation columns, and that statement is what is modelled: book under FOR UPDATE
 NOWAIT, owner-guarded release, owner-guarded commit. Tokens are fresh at each booking.
 */
module EgsChain {
  import opened Options

  type Document = string
  type Token = string
  type Hash = string

  /** The chain columns of branch_zatca_config. */
  datatype Row = Row(
    lastIcv: nat, previousHash: Option<Hash>,
    key: Option<Document>, token: Option<Token>, reservedIcv: Option<nat>, leaseExpires: Option<int>)
  {
    predicate LiveAt(now: int) { leaseExpires.Some? && leaseExpires.value > now }

    function Cleared(): Row { this.(key := None, token := None, reservedIcv := None, leaseExpires := None) }

    /** chk_bzc_icv_reservation: the four reservation columns are set together or not at all. */
    predicate AllOrNone() {
      || (key.None? && token.None? && reservedIcv.None? && leaseExpires.None?)
      || (key.Some? && token.Some? && reservedIcv.Some? && leaseExpires.Some?)
    }
  }

  datatype BookAnswer = Contended | Busy | Kept | Booked

  function BookAnswerOf(row: Row, document: Document, now: int): BookAnswer {
    if row.key.Some? && row.key.value != document && row.LiveAt(now) then Busy
    else if row.key.Some? && row.key.value == document && row.LiveAt(now) then Kept
    else Booked
  }

  function BookedRow(row: Row, document: Document, token: Token, now: int, lease: int): Row {
    if BookAnswerOf(row, document, now) != Booked then row
    else row.(key := Some(document), token := Some(token), reservedIcv := Some(row.lastIcv + 1), leaseExpires := Some(lease))
  }

  /** What a booking is answered, and the row it leaves, on the columns of the row. */
  lemma BookAnswersOnTheColumns(row: Row, document: Document, token: Token, now: int, lease: int)
    requires row.AllOrNone()
    ensures BookAnswerOf(row, document, now) in {Busy, Kept, Booked}
    ensures BookAnswerOf(row, document, now) == Busy <==> row.key.Some? && row.key.value != document && row.leaseExpires.value > now
    ensures BookAnswerOf(row, document, now) == Kept <==> row.key.Some? && row.key.value == document && row.leaseExpires.value > now
    ensures BookedRow(row, document, token, now, lease) ==
      if BookAnswerOf(row, document, now) != Booked then row
      else Row(row.lastIcv, row.previousHash, Some(document), Some(token), Some(row.lastIcv + 1), Some(lease))
  {
  }

  predicate ReleaseMatches(row: Row, document: Document, token: Token) {
    row.token == Some(token) && row.key == Some(document)
  }

  function ReleasedRow(row: Row, document: Document, token: Token): Row {
    if ReleaseMatches(row, document, token) then row.Cleared() else row
  }

  predicate CommitMatches(row: Row, document: Document, token: Token, icv: nat) {
    row.token == Some(token) && row.key == Some(document) && row.reservedIcv == Some(icv)
  }

  function CommittedRow(row: Row, document: Document, token: Token, icv: nat, hash: Hash): Row {
    if CommitMatches(row, document, token, icv) then
      row.Cleared().(lastIcv := row.reservedIcv.value, previousHash := Some(hash))
    else row
  }

  // ---------------------------------------------------------------- runs

  /** What a booking showed its worker: the number it reserved and the hash its invoice chains to. */
  datatype Seen = Seen(icv: nat, previousHash: Option<Hash>)

  datatype Entry = Entry(icv: nat, previousHash: Option<Hash>, hash: Hash, document: Document, token: Token)

  /** The row, with the history that no column keeps: the commits so far and every booking's view. */
  datatype Chain = Chain(row: Row, firstIcv: nat, firstHash: Option<Hash>, log: seq<Entry>, bookings: map<Token, Seen>)

  /** A call by any worker. contended says that another transaction holds the row at that moment. */
  datatype Op =
    | Book(document: Document, token: Token, now: int, lease: int, contended: bool)
    | Release(document: Document, token: Token)
    | Commit(document: Document, token: Token, icv: nat, hash: Hash)

  /** Commit by a token that no booking issued matches no row of a run, so any entry stands for it here. */
  function ViewOf(c: Chain, token: Token): Seen {
    if token in c.bookings then c.bookings[token] else Seen(0, None)
  }

  function Step(c: Chain, op: Op): Chain {
    match op
    case Book(document, token, now, lease, contended) =>
      if contended || token in c.bookings || BookAnswerOf(c.row, document, now) != Booked then c
      else
        c.(row := BookedRow(c.row, document, token, now, lease),
           bookings := c.bookings[token := Seen(c.row.lastIcv + 1, c.row.previousHash)])
    case Release(document, token) =>
      c.(row := ReleasedRow(c.row, document, token))
    case Commit(document, token, icv, hash) =>
      if !CommitMatches(c.row, document, token, icv) then c
      else
        c.(row := CommittedRow(c.row, document, token, icv, hash),
           log := c.log + [Entry(icv, ViewOf(c, token).previousHash, hash, document, token)])
  }

  function Run(c: Chain, ops: seq<Op>): Chain {
    if ops == [] then c else Step(Run(c, ops[..|ops| - 1]), ops[|ops| - 1])
  }

  /** A branch whose chain already stands at some ICV and hash, with no reservation. */
  predicate Initial(c: Chain) {
    && c.row == c.row.Cleared()
    && c.firstIcv == c.row.lastIcv && c.firstHash == c.row.previousHash
    && c.log == [] && c.bookings == map[]
  }

  /** The hash that the next invoice chains to after the first n commits. */
  function HashAfter(c: Chain, n: nat): Option<Hash>
    requires n <= |c.log|
  {
    if n == 0 then c.firstHash else Some(c.log[n - 1].hash)
  }

  /** Commits are consecutive, and each one signs over the hash that the commit before it gave. */
  predicate Linear(c: Chain) {
    forall i :: 0 <= i < |c.log| ==>
      c.log[i].icv == c.firstIcv + i + 1 && c.log[i].previousHash == HashAfter(c, i)
  }

  predicate EachTokenOnce(c: Chain) {
    forall i, j :: 0 <= i < j < |c.log| ==> c.log[i].token != c.log[j].token
  }

  predicate HeldBookingIsNext(c: Chain) {
    c.row.token.Some? ==>
      && c.row.reservedIcv == Some(c.row.lastIcv + 1)
      && c.row.token.value in c.bookings
      && c.bookings[c.row.token.value] == Seen(c.row.lastIcv + 1, c.row.previousHash)
      && (forall i :: 0 <= i < |c.log| ==> c.log[i].token != c.row.token.value)
  }

  predicate Inv(c: Chain) {
    && c.row.AllOrNone()
    && c.row.lastIcv == c.firstIcv + |c.log|
    && c.row.previousHash == HashAfter(c, |c.log|)
    && Linear(c) && EachTokenOnce(c) && HeldBookingIsNext(c)
    && (forall i :: 0 <= i < |c.log| ==> c.log[i].token in c.bookings)
  }

  lemma StepKeepsInv(c: Chain, op: Op)
    requires Inv(c)
    ensures Inv(Step(c, op))
  {
    hide Linear, EachTokenOnce, HashAfter;
    if op.Commit? && CommitMatches(c.row, op.document, op.token, op.icv) {
      CommitKeepsInv(c, op);
    } else {
      SameHistory(c, Step(c, op));
    }
  }

  lemma CommitKeepsInv(c: Chain, op: Op)
    requires Inv(c) && op.Commit? && CommitMatches(c.row, op.document, op.token, op.icv)
    ensures Inv(Step(c, op))
  {
    hide Linear, EachTokenOnce, HashAfter;
    var entry := Entry(op.icv, c.row.previousHash, op.hash, op.document, op.token);
    assert Step(c, op).log == c.log + [entry];
    AppendKeepsHistory(c, Step(c, op), entry);
  }

  lemma SameHistory(c: Chain, d: Chain)
    requires d.log == c.log && d.firstIcv == c.firstIcv && d.firstHash == c.firstHash
    ensures HashAfter(d, |d.log|) == HashAfter(c, |c.log|)
    ensures Linear(c) ==> Linear(d)
    ensures EachTokenOnce(c) ==> EachTokenOnce(d)
  {
    assert forall i :: 0 <= i <= |c.log| ==> HashAfter(d, i) == HashAfter(c, i);
  }

  lemma AppendKeepsHistory(c: Chain, d: Chain, entry: Entry)
    requires Linear(c) && EachTokenOnce(c)
    requires d.log == c.log + [entry] && d.firstIcv == c.firstIcv && d.firstHash == c.firstHash
    requires entry.icv == c.firstIcv + |c.log| + 1 && entry.previousHash == HashAfter(c, |c.log|)
    requires forall i :: 0 <= i < |c.log| ==> c.log[i].token != entry.token
    ensures Linear(d) && EachTokenOnce(d) && HashAfter(d, |d.log|) == Some(entry.hash)
  {
    assert HashAfter(d, |d.log|) == Some(entry.hash);
    assert EachTokenOnce(d) by { hide HashAfter, Linear; }
    forall i | 0 <= i < |d.log| ensures d.log[i].icv == c.firstIcv + i + 1 && d.log[i].previousHash == HashAfter(d, i) {
      LinkAfterAppend(c, d, entry, i);
    }
  }

  lemma LinkAfterAppend(c: Chain, d: Chain, entry: Entry, i: nat)
    requires i < |c.log| ==> c.log[i].icv == c.firstIcv + i + 1 && c.log[i].previousHash == HashAfter(c, i)
    requires d.log == c.log + [entry] && d.firstIcv == c.firstIcv && d.firstHash == c.firstHash
    requires entry.icv == c.firstIcv + |c.log| + 1 && entry.previousHash == HashAfter(c, |c.log|)
    requires i < |d.log|
    ensures d.log[i].icv == c.firstIcv + i + 1 && d.log[i].previousHash == HashAfter(d, i)
  {
  }

  lemma {:induction false} RunKeepsInv(c: Chain, ops: seq<Op>)
    requires Inv(c)
    ensures Inv(Run(c, ops))
  {
    if ops != [] {
      RunKeepsInv(c, ops[..|ops| - 1]);
      StepKeepsInv(Run(c, ops[..|ops| - 1]), ops[|ops| - 1]);
    }
  }

  /**
   Over every run of bookings, takeovers, releases, commits and redeliveries by any workers: the
   committed ICVs count up from the first without a gap or a repeat, each invoice chains to the one
   committed before it, the row stands at the last commit, and a held reservation is the next number.
   */
  lemma ChainSafety(c: Chain, ops: seq<Op>)
    requires Initial(c)
    ensures
      var d := Run(c, ops);
      && (forall i :: 0 <= i < |d.log| ==> d.log[i].icv == c.row.lastIcv + i + 1)
      && (forall i :: 0 < i < |d.log| ==> d.log[i].previousHash == Some(d.log[i - 1].hash))
      && (d.log != [] ==> d.log[0].previousHash == c.row.previousHash)
      && d.row.lastIcv == c.row.lastIcv + |d.log|
      && (d.log != [] ==> d.row.previousHash == Some(d.log[|d.log| - 1].hash))
      && d.row.AllOrNone()
      && (d.row.key.Some? ==> d.row.reservedIcv == Some(d.row.lastIcv + 1))
  {
    hide Run, Linear;
    RunKeepsInv(c, ops);
    FirstIsKept(c, ops);
    LinearReads(Run(c, ops));
  }

  lemma LinearReads(d: Chain)
    requires Linear(d)
    ensures forall i :: 0 <= i < |d.log| ==> d.log[i].icv == d.firstIcv + i + 1
    ensures forall i :: 0 < i < |d.log| ==> d.log[i].previousHash == Some(d.log[i - 1].hash)
    ensures d.log != [] ==> d.log[0].previousHash == d.firstHash
  {
    forall i | 0 < i < |d.log| ensures d.log[i].previousHash == Some(d.log[i - 1].hash) {
      assert d.log[i].previousHash == HashAfter(d, i);
    }
  }

  lemma {:induction false} FirstIsKept(c: Chain, ops: seq<Op>)
    ensures Run(c, ops).firstIcv == c.firstIcv && Run(c, ops).firstHash == c.firstHash
  {
    if ops != [] { FirstIsKept(c, ops[..|ops| - 1]); }
  }

  // ---------------------------------------------------------------- fencing

  /** A token that was issued and no longer holds the row: released, committed or taken over. */
  predicate Fenced(c: Chain, token: Token) {
    token in c.bookings && c.row.token != Some(token)
  }

  lemma {:induction false} FencedForEver(c: Chain, ops: seq<Op>, token: Token)
    requires Fenced(c, token)
    ensures Fenced(Run(c, ops), token)
  {
    if ops != [] { FencedForEver(c, ops[..|ops| - 1], token); }
  }

  /** Once fenced, a worker can never commit or release again, under any document and any ICV. */
  lemma FencedWorkerIsPowerless(c: Chain, ops: seq<Op>, token: Token, document: Document, icv: nat)
    requires Fenced(c, token)
    ensures !CommitMatches(Run(c, ops).row, document, token, icv)
    ensures !ReleaseMatches(Run(c, ops).row, document, token)
  {
    FencedForEver(c, ops, token);
  }

  /** A booking that is granted fences every token issued before it, and so does a commit or a release. */
  lemma GrantFencesTheOthers(c: Chain, op: Op, token: Token)
    requires token in c.bookings
    requires Step(c, op).row != c.row
    ensures Fenced(Step(c, op), token)
  {
  }

  /** While the lease runs, only the holder's own release or commit changes the row. */
  lemma LiveReservationIsStable(c: Chain, op: Op)
    requires Inv(c) && c.row.token.Some?
    requires op.Book? ==> c.row.LiveAt(op.now)
    ensures Step(c, op).row != c.row ==> !op.Book? && op.token == c.row.token.value && op.document == c.row.key.value
  {
  }

  /**
   A lease that has ended blocks nobody: over every run, once it has, the first booking that meets no other transaction takes the
   row under its own token, whatever document it is for. It reserves the number that the ended one had and chains to the same
   hash, and its commit is accepted. The worker that let the lease end never commits or releases again.
   */
  lemma ExpiredLeaseIsTakenOver(c: Chain, ops: seq<Op>, document: Document, token: Token, now: int, lease: int, hash: Hash, later: seq<Op>)
    requires Initial(c) && token !in Run(c, ops).bookings
    requires Run(c, ops).row.leaseExpires.Some? ==> Run(c, ops).row.leaseExpires.value <= now
    ensures
      var before := Run(c, ops).row;
      var d := Step(Run(c, ops), Book(document, token, now, lease, false));
      && d.row == Row(before.lastIcv, before.previousHash, Some(document), Some(token), Some(before.lastIcv + 1), Some(lease))
      && (before.reservedIcv.Some? ==> d.row.reservedIcv == before.reservedIcv)
      && Step(d, Commit(document, token, before.lastIcv + 1, hash)).row
         == Row(before.lastIcv + 1, Some(hash), None, None, None, None)
      && (before.token.Some? ==> forall other: Document, icv: nat ::
            !CommitMatches(Run(d, later).row, other, before.token.value, icv) && !ReleaseMatches(Run(d, later).row, other, before.token.value))
  {
    RunKeepsInv(c, ops);
    hide Run, Initial, Inv, Step, CommitMatches, ReleaseMatches, Fenced;
    var before := Run(c, ops);
    TakesOver(before, document, token, now, lease, hash);
    var d := Step(before, Book(document, token, now, lease, false));
    if before.row.token.Some? {
      forall other: Document, icv: nat
        ensures !CommitMatches(Run(d, later).row, other, before.row.token.value, icv)
        ensures !ReleaseMatches(Run(d, later).row, other, before.row.token.value)
      {
        FencedWorkerIsPowerless(d, later, before.row.token.value, other, icv);
      }
    }
  }

  lemma TakesOver(c: Chain, document: Document, token: Token, now: int, lease: int, hash: Hash)
    requires Inv(c) && token !in c.bookings && (c.row.leaseExpires.Some? ==> c.row.leaseExpires.value <= now)
    ensures
      var d := Step(c, Book(document, token, now, lease, false));
      && d.row == Row(c.row.lastIcv, c.row.previousHash, Some(document), Some(token), Some(c.row.lastIcv + 1), Some(lease))
      && (c.row.reservedIcv.Some? ==> d.row.reservedIcv == c.row.reservedIcv)
      && Step(d, Commit(document, token, c.row.lastIcv + 1, hash)).row
         == Row(c.row.lastIcv + 1, Some(hash), None, None, None, None)
      && (c.row.token.Some? ==> Fenced(d, c.row.token.value))
  {
    hide Linear, EachTokenOnce, HashAfter;
  }

  /** None of these bookings is under this token. */
  predicate NeverBooks(ops: seq<Op>, token: Token) { forall k | 0 <= k < |ops| && ops[k].Book? :: ops[k].token != token }

  lemma {:induction false} UnissuedOwnsNothing(c: Chain, ops: seq<Op>, token: Token)
    requires Inv(c) && token !in c.bookings && NeverBooks(ops, token)
    ensures Inv(Run(c, ops)) && token !in Run(c, ops).bookings && Run(c, ops).row.token != Some(token)
  {
    hide Linear, EachTokenOnce, HashAfter;
    if ops != [] {
      UnissuedOwnsNothing(c, ops[..|ops| - 1], token);
      StepKeepsInv(Run(c, ops[..|ops| - 1]), ops[|ops| - 1]);
    }
  }

  /**
   A redelivery of the document that holds the row is answered without error and changes nothing, and its new token owns
   nothing ever after: whatever runs later, it commits and releases under no document and no ICV, unless it books again.
   */
  lemma {:induction false} RedeliveryOwnsNothing(c: Chain, op: Op, ops: seq<Op>, document: Document, icv: nat)
    requires Inv(c) && op.Book? && op.token !in c.bookings
    requires BookAnswerOf(c.row, op.document, op.now) == Kept && NeverBooks(ops, op.token)
    ensures Step(c, op) == c
    ensures !CommitMatches(Run(Step(c, op), ops).row, document, op.token, icv)
    ensures !ReleaseMatches(Run(Step(c, op), ops).row, document, op.token)
  {
    UnissuedOwnsNothing(c, ops, op.token);
  }

  // ---------------------------------------------------------------- documents

  /** No document has two ICVs. */
  predicate OneIcvPerDocument(c: Chain) {
    forall i, j :: 0 <= i < j < |c.log| ==> c.log[i].document != c.log[j].document
  }

  predicate Committed(c: Chain, document: Document) {
    exists i :: 0 <= i < |c.log| && c.log[i].document == document
  }

  /** The call is a booking that reserves the next number. */
  predicate Grants(c: Chain, op: Op) {
    op.Book? && !op.contended && op.token !in c.bookings && BookAnswerOf(c.row, op.document, op.now) == Booked
  }

  /** The tokens that a run has granted to a document that had committed by then. */
  function GrantedAgain(c: Chain, ops: seq<Op>): set<Token> {
    if ops == [] then {}
    else
      var n := |ops| - 1;
      var before := Run(c, ops[..n]);
      GrantedAgain(c, ops[..n])
      + if Grants(before, ops[n]) && Committed(before, ops[n].document) then {ops[n].token} else {}
  }

  /** The tokens granted again say which entries repeat a document, and whether the one in hand would. */
  predicate AgainOk(c: Chain, again: set<Token>) {
    && again <= c.bookings.Keys
    && (c.row.token.Some? && c.row.key.Some? ==> (c.row.token.value in again <==> Committed(c, c.row.key.value)))
    && (OneIcvPerDocument(c) <==> forall i :: 0 <= i < |c.log| ==> c.log[i].token !in again)
  }

  lemma OneMoreEntry(c: Chain, d: Chain, entry: Entry)
    requires d.log == c.log + [entry]
    ensures OneIcvPerDocument(d) <==> OneIcvPerDocument(c) && !Committed(c, entry.document)
  {
    var n := |c.log|;
    assert d.log[n] == entry && forall i :: 0 <= i < n ==> d.log[i] == c.log[i];
    if Committed(c, entry.document) {
      var i :| 0 <= i < n && c.log[i].document == entry.document;
      assert d.log[i].document == d.log[n].document;
    }
    if OneIcvPerDocument(d) {
      forall i, j | 0 <= i < j < n ensures c.log[i].document != c.log[j].document { assert d.log[i].document != d.log[j].document; }
    }
  }

  lemma SameCommitted(c: Chain, d: Chain)
    requires d.log == c.log
    ensures OneIcvPerDocument(d) == OneIcvPerDocument(c) && forall k :: Committed(d, k) == Committed(c, k)
  {
  }

  lemma AgainStep(c: Chain, op: Op, again: set<Token>)
    requires Inv(c) && AgainOk(c, again)
    ensures AgainOk(Step(c, op), again + if Grants(c, op) && Committed(c, op.document) then {op.token} else {})
  {
    hide Linear, EachTokenOnce, HashAfter, OneIcvPerDocument, Committed;
    var d := Step(c, op);
    if op.Commit? && CommitMatches(c.row, op.document, op.token, op.icv) {
      var n := |c.log|;
      OneMoreEntry(c, d, d.log[n]);
      assert forall i :: 0 <= i < n ==> d.log[i] == c.log[i];
    } else {
      SameCommitted(c, d);
    }
  }

  lemma {:induction false} RunKeepsAgain(c: Chain, ops: seq<Op>)
    requires Initial(c)
    ensures Inv(Run(c, ops)) && AgainOk(Run(c, ops), GrantedAgain(c, ops))
  {
    hide Inv, Step, Grants, Committed, AgainOk;
    if ops != [] {
      RunKeepsAgain(c, ops[..|ops| - 1]);
      AgainStep(Run(c, ops[..|ops| - 1]), ops[|ops| - 1], GrantedAgain(c, ops[..|ops| - 1]));
      StepKeepsInv(Run(c, ops[..|ops| - 1]), ops[|ops| - 1]);
    } else {
      NothingAgain(c);
    }
  }

  lemma NothingAgain(c: Chain)
    requires Initial(c)
    ensures Inv(c) && AgainOk(c, {})
  {
  }

  /**
   The reservation alone does not give a document one ICV. Over every run, with takeovers, expiries, redeliveries and
   stale commits in between, each document has one if and only if no commit is under a token that was granted to a
   document already committed. What a worker can ask before it books decides it.
   */
  lemma OneIcvPerDocumentIff(c: Chain, ops: seq<Op>)
    requires Initial(c)
    ensures OneIcvPerDocument(Run(c, ops)) <==> forall i :: 0 <= i < |Run(c, ops).log| ==> Run(c, ops).log[i].token !in GrantedAgain(c, ops)
  {
    hide Run, Inv, GrantedAgain;
    RunKeepsAgain(c, ops);
  }

  // ---------------------------------------------------------------- asking before the booking

  /** Every booking of the run that was granted had passed this gate. */
  predicate Obeys(c: Chain, ops: seq<Op>, gate: (Chain, Document) -> bool) {
    ops == []
    || var n := |ops| - 1;
       Obeys(c, ops[..n], gate) && (Grants(Run(c, ops[..n]), ops[n]) ==> gate(Run(c, ops[..n]), ops[n].document))
  }

  /** In no run that obeys it does the gate let a committed document be granted another booking. */
  ghost predicate AsksFirst(c: Chain, gate: (Chain, Document) -> bool) {
    forall ops, op | Obeys(c, ops, gate) && Grants(Run(c, ops), op) && gate(Run(c, ops), op.document) ::
      !Committed(Run(c, ops), op.document)
  }

  ghost predicate KeepsOneIcv(c: Chain, gate: (Chain, Document) -> bool) {
    forall ops | Obeys(c, ops, gate) :: OneIcvPerDocument(Run(c, ops))
  }

  lemma {:induction false} NothingGrantedAgain(c: Chain, ops: seq<Op>, gate: (Chain, Document) -> bool)
    requires AsksFirst(c, gate) && Obeys(c, ops, gate)
    ensures GrantedAgain(c, ops) == {}
  {
    if ops != [] { NothingGrantedAgain(c, ops[..|ops| - 1], gate); }
  }

  /** A booking granted to a committed document, and its own commit after it: that document has two ICVs. */
  lemma GrantedAgainCommits(c: Chain, ops: seq<Op>, op: Op, hash: Hash)
    requires Initial(c) && Grants(Run(c, ops), op) && Committed(Run(c, ops), op.document)
    ensures
      var commit := Commit(op.document, op.token, Run(c, ops).row.lastIcv + 1, hash);
      !OneIcvPerDocument(Run(c, ops + [op] + [commit]))
  {
    hide Run, Step, Committed, OneIcvPerDocument, Grants;
    var before := Run(c, ops);
    var commit := Commit(op.document, op.token, before.row.lastIcv + 1, hash);
    RunPush(c, ops, op);
    RunPush(c, ops + [op], commit);
    var entry := CommitOfBooking(before, op, hash);
    OneMoreEntry(before, Step(Step(before, op), commit), entry);
  }

  lemma CommitOfBooking(c: Chain, op: Op, hash: Hash) returns (entry: Entry)
    requires Grants(c, op)
    ensures Step(Step(c, op), Commit(op.document, op.token, c.row.lastIcv + 1, hash)).log == c.log + [entry]
    ensures entry.document == op.document
  {
    entry := Entry(c.row.lastIcv + 1, c.row.previousHash, hash, op.document, op.token);
  }

  lemma CommitsNeedNoGate(c: Chain, ops: seq<Op>, op: Op, gate: (Chain, Document) -> bool)
    requires Obeys(c, ops, gate) && (Grants(Run(c, ops), op) ==> gate(Run(c, ops), op.document))
    ensures Obeys(c, ops + [op], gate)
  {
    assert (ops + [op])[..|ops|] == ops;
  }

  /**
   Whatever a worker asks before it books, the runs of all workers that ask it give each document one ICV if and only if it
   never lets a committed document be granted another booking. So to ask whether the document is committed is enough over
   every run, and nothing less is.
   */
  lemma GateKeepsOneIcvIff(c: Chain, gate: (Chain, Document) -> bool)
    requires Initial(c)
    ensures KeepsOneIcv(c, gate) <==> AsksFirst(c, gate)
  {
    hide Run, Step, Grants, Committed, OneIcvPerDocument, Obeys, Inv, GrantedAgain;
    if AsksFirst(c, gate) {
      forall ops | Obeys(c, ops, gate) ensures OneIcvPerDocument(Run(c, ops)) {
        NothingGrantedAgain(c, ops, gate);
        OneIcvPerDocumentIff(c, ops);
      }
    }
    if KeepsOneIcv(c, gate) {
      forall ops, op | Obeys(c, ops, gate) && Grants(Run(c, ops), op) && gate(Run(c, ops), op.document)
        ensures !Committed(Run(c, ops), op.document)
      {
        if Committed(Run(c, ops), op.document) {
          var commit := Commit(op.document, op.token, Run(c, ops).row.lastIcv + 1, "");
          GrantedAgainCommits(c, ops, op, "");
          CommitsNeedNoGate(c, ops, op, gate);
          OnlyBooksAreGranted(Run(c, ops + [op]), commit);
          CommitsNeedNoGate(c, ops + [op], commit, gate);
        }
      }
    }
  }

  lemma OnlyBooksAreGranted(c: Chain, op: Op)
    ensures Grants(c, op) ==> op.Book?
  {
  }

  /** The failing family is reachable: one document, two bookings, two ICVs. */
  lemma DocumentCanTakeTwoIcvs(c: Chain, document: Document, t1: Token, t2: Token, hash: Hash)
    requires Initial(c) && t1 != t2
    ensures exists ops :: !OneIcvPerDocument(Run(c, ops))
  {
    hide Run, Step;
    RunOfNothing(c);
    var once := BookAndCommit(c, [], document, t1, hash);
    var twice := BookAndCommit(c, once, document, t2, hash);
    assert Run(c, twice).log[0].document == Run(c, twice).log[1].document;
  }

  lemma BookAndCommit(c: Chain, ops: seq<Op>, document: Document, token: Token, hash: Hash) returns (longer: seq<Op>)
    requires Run(c, ops).row.Cleared() == Run(c, ops).row && token !in Run(c, ops).bookings
    ensures
      var before, after := Run(c, ops), Run(c, longer);
      && after.row.Cleared() == after.row && after.bookings.Keys == before.bookings.Keys + {token}
      && |after.log| == |before.log| + 1 && before.log <= after.log && after.log[|before.log|].document == document
  {
    var before := Run(c, ops);
    var booked := ops + [Book(document, token, 0, 1, false)];
    longer := booked + [Commit(document, token, before.row.lastIcv + 1, hash)];
    RunPush(c, ops, booked[|ops|]);
    RunPush(c, booked, longer[|booked|]);
  }

  lemma RunOfNothing(c: Chain)
    ensures Run(c, []) == c
  {
  }

  lemma RunPush(c: Chain, ops: seq<Op>, op: Op)
    ensures Run(c, ops + [op]) == Step(Run(c, ops), op)
  {
    assert (ops + [op])[..|ops|] == ops;
  }

  /** What a booking leaves of the row. */
  lemma BookLeaves(c: Chain, document: Document, token: Token, now: int, lease: int, contended: bool)
    requires token !in c.bookings
    ensures
      var answer := if contended then Contended else BookAnswerOf(c.row, document, now);
      Step(c, Book(document, token, now, lease, contended)).row ==
        if answer != Booked then c.row
        else Row(c.row.lastIcv, c.row.previousHash, Some(document), Some(token), Some(c.row.lastIcv + 1), Some(lease))
  {
  }

  // ---------------------------------------------------------------- the row, in place

  /** The row as the workers change it. chain is its history, and Valid ties the two together. */
  class Reservation {
    var row: Row
    ghost var chain: Chain

    ghost predicate Valid()
      reads this
    {
      chain.row == row && Inv(chain)
    }

    constructor (lastIcv: nat, previousHash: Option<Hash>)
      ensures Valid() && Initial(chain) && row.lastIcv == lastIcv && row.previousHash == previousHash
    {
      var start := Row(lastIcv, previousHash, None, None, None, None);
      row := start;
      chain := Chain(start, lastIcv, previousHash, [], map[]);
    }

    /** bookEGSReservation. A row that another transaction has locked is refused at once (NOWAIT). */
    method BookReservation(document: Document, token: Token, now: int, lease: int, contended: bool) returns (answer: BookAnswer)
      requires Valid() && token !in chain.bookings
      modifies this
      ensures Valid() && chain == Step(old(chain), Book(document, token, now, lease, contended))
      ensures answer == Contended <==> contended
      ensures answer == Busy <==>
        && !contended && old(row).key.Some? && old(row).key.value != document
        && old(row).leaseExpires.Some? && old(row).leaseExpires.value > now
      ensures answer == Kept <==>
        && !contended && old(row).key.Some? && old(row).key.value == document
        && old(row).leaseExpires.Some? && old(row).leaseExpires.value > now
      ensures answer == if contended then Contended else BookAnswerOf(old(row), document, now)
      ensures row ==
        if answer != Booked then old(row)
        else Row(old(row).lastIcv, old(row).previousHash, Some(document), Some(token), Some(old(row).lastIcv + 1), Some(lease))
    {
      hide Linear, EachTokenOnce, HashAfter, HeldBookingIsNext;
      StepKeepsInv(chain, Book(document, token, now, lease, contended));
      BookLeaves(chain, document, token, now, lease, contended);
      hide *;
      if contended { return Contended; }
      if row.key.Some? {
        if row.key.value != document && row.leaseExpires.Some? && row.leaseExpires.value > now { return Busy; }
        if row.key.value == document && row.leaseExpires.Some? && row.leaseExpires.value > now { return Kept; }
      }
      chain := Step(chain, Book(document, token, now, lease, false));
      row := row.(key := Some(document), token := Some(token), reservedIcv := Some(row.lastIcv + 1), leaseExpires := Some(lease));
      answer := Booked;
    }

    /** releaseEGSReservation: the number of rows it changed. */
    method ReleaseReservation(document: Document, token: Token) returns (affected: nat)
      requires Valid()
      modifies this
      ensures Valid() && chain == Step(old(chain), Release(document, token))
      ensures affected == if old(row).token == Some(token) && old(row).key == Some(document) then 1 else 0
      ensures row == if affected == 1 then Row(old(row).lastIcv, old(row).previousHash, None, None, None, None) else old(row)
    {
      hide Inv;
      StepKeepsInv(chain, Release(document, token));
      affected := 0;
      if row.token == Some(token) && row.key == Some(document) {
        row := row.(key := None, token := None, reservedIcv := None, leaseExpires := None);
        affected := 1;
      }
      chain := Step(chain, Release(document, token));
    }

    /** commitEGSReservation: the number of rows it changed. */
    method CommitReservation(document: Document, token: Token, icv: nat, signedHash: Hash) returns (affected: nat)
      requires Valid()
      modifies this
      ensures Valid() && chain == Step(old(chain), Commit(document, token, icv, signedHash))
      ensures affected == 1 ==>
        && old(row).token == Some(token) && old(row).key == Some(document) && old(row).reservedIcv == Some(icv)
        && icv == old(row).lastIcv + 1 && row == Row(icv, Some(signedHash), None, None, None, None)
      ensures affected != 1 ==> affected == 0 && row == old(row)
      ensures old(row).token == Some(token) && old(row).key == Some(document) && old(row).reservedIcv == Some(icv) ==> affected == 1
    {
      hide Linear, EachTokenOnce, HashAfter;
      StepKeepsInv(chain, Commit(document, token, icv, signedHash));
      affected := 0;
      if row.token == Some(token) && row.key == Some(document) && row.reservedIcv == Some(icv) {
        chain := Step(chain, Commit(document, token, icv, signedHash));
        row := row.(lastIcv := row.reservedIcv.value, previousHash := Some(signedHash), key := None, token := None,
                    reservedIcv := None, leaseExpires := None);
        affected := 1;
      }
    }
  }
}
