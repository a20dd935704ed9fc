/**
 Stock enforcement of a sale and its reversal when a draft is deleted.

 The shelf is the product table's quantity column, in whole thousandths. A request's quantity may have more
 decimals: the check compares it as it is, the update rounds what is left, and the movement rounds what was
 taken. A statement that would store a quantity below zero fails, because the column carries
 CHECK (quantity >= 0). The locked read finds every row of the table, deleted products included. When it fails, for
 whatever reason, the loop takes the line for a manual one and goes on.
 */
module Stock {
  import opened Options
  import opened LineTotals

  datatype Mode = Disable | Warn | Enforce

  /** A movement of kind Stray is a row of a sale too, whose transaction had been dropped by then. */
  datatype Kind = Sale | Deletion | Stray

  /** A row of stock_movements. The sale's rows carry no reference_id, so none is kept here. */
  datatype Movement = Movement(product: nat, quantity: Quantity, kind: Kind)

  datatype Warning = Warning(product: nat, available: Quantity, requested: Amount)

  type Shelf = map<nat, Quantity>

  predicate NonNegative(shelf: Shelf) { forall p | p in shelf :: shelf[p] >= 0 }

  predicate Positive(items: seq<Item>) { forall i | 0 <= i < |items| :: items[i].quantity > 0.0 }

  predicate PositiveLines(lines: seq<Line>) { forall i | 0 <= i < |lines| :: lines[i].quantity > 0 }

  /** The lines as the loop sees them when the reads of these have failed: a line that is not read is passed over as a manual one is. */
  function Without(items: seq<Item>, unread: set<nat>): (seen: seq<Item>)
    ensures |seen| == |items|
  {
    seq(|items|, i requires 0 <= i < |items| => if i in unread then items[i].(product := None) else items[i])
  }

  lemma NothingUnread(items: seq<Item>)
    ensures Without(items, {}) == items
  {
  }

  lemma WithoutIsPositive(items: seq<Item>, unread: set<nat>)
    requires Positive(items)
    ensures Positive(Without(items, unread))
  {
  }

  datatype Deduction = Refused | Deducted(shelf: Shelf, movements: seq<Movement>, warnings: seq<Warning>)

  /** What an UPDATE of a quantity by an amount stores. */
  function Moved(current: Quantity, delta: Amount): Quantity { Stored(current as real + delta) }

  /** The check-and-deduct loop of recordSaleMovements, after the movements and warnings so far. */
  function DeductFrom(shelf: Shelf, items: seq<Item>, mode: Mode, done: seq<Movement>, warned: seq<Warning>): Deduction {
    if mode.Disable? || items == [] then Deducted(shelf, done, warned)
    else
      var l := items[0];
      if l.product.None? || l.product.value !in shelf then DeductFrom(shelf, items[1..], mode, done, warned)
      else
        var p, current := l.product.value, shelf[l.product.value];
        var short := current as real < l.quantity;
        var left := Moved(current, -l.quantity);
        if short && mode.Enforce? then Refused
        else if left < 0 then Refused // the CHECK on product.quantity
        else
          DeductFrom(shelf[p := left], items[1..], mode,
                     done + [Movement(p, Stored(-l.quantity), Sale)],
                     if short then warned + [Warning(p, current, l.quantity)] else warned)
  }

  function Deduct(shelf: Shelf, items: seq<Item>, mode: Mode): Deduction {
    DeductFrom(shelf, items, mode, [], [])
  }

  // ---------------------------------------------------------------- sums over lines and movements

  /** How much of a product the items ask for in all. */
  function Asked(items: seq<Item>, p: nat): Amount {
    if items == [] then 0.0
    else (if items[0].product == Some(p) then items[0].quantity else 0.0) + Asked(items[1..], p)
  }

  /** How much of a product the stored lines hold in all. */
  function Requested(lines: seq<Line>, p: nat): Quantity {
    if lines == [] then 0
    else (if lines[0].product == Some(p) then lines[0].quantity else 0) + Requested(lines[1..], p)
  }

  /** What a quantity takes from a product: the nearest thousandth, but halves stay on the shelf. */
  function TakenBy(quantity: Amount): (n: Quantity)
    ensures -0.5 < quantity - n as real <= 0.5
  {
    -(0.5 - quantity).Floor
  }

  /** What the items take of a product in all. */
  function Taken(items: seq<Item>, p: nat): Quantity {
    if items == [] then 0
    else (if items[0].product == Some(p) then TakenBy(items[0].quantity) else 0) + Taken(items[1..], p)
  }

  /** The quantity lies halfway between two thousandths. */
  predicate Halfway(quantity: Amount) { quantity - quantity.Floor as real == 0.5 }

  /** How many of the items ask for a quantity of the product that lies halfway between two thousandths. */
  function Halves(items: seq<Item>, p: nat): nat {
    if items == [] then 0
    else (if items[0].product == Some(p) && Halfway(items[0].quantity) then 1 else 0) + Halves(items[1..], p)
  }

  /** GetStockLedgerSum over these rows. */
  function LedgerSum(movements: seq<Movement>, p: nat): Quantity {
    if movements == [] then 0
    else LedgerSum(movements[..|movements| - 1], p) +
         if movements[|movements| - 1].product == p then movements[|movements| - 1].quantity else 0
  }

  lemma LedgerSumPush(done: seq<Movement>, m: Movement, p: nat)
    ensures LedgerSum(done + [m], p) == LedgerSum(done, p) + if m.product == p then m.quantity else 0
  {
    assert (done + [m])[..|done|] == done;
  }

  lemma LedgerOfNothing()
    ensures forall p :: LedgerSum([], p) == 0
  {
  }

  lemma {:induction false} LedgerSumConcat(a: seq<Movement>, b: seq<Movement>, p: nat)
    ensures LedgerSum(a + b, p) == LedgerSum(a, p) + LedgerSum(b, p)
  {
    if b == [] {
      assert a + b == a;
    } else {
      assert (a + b)[..|a + b| - 1] == a + b[..|b| - 1];
      LedgerSumConcat(a, b[..|b| - 1], p);
    }
  }

  lemma {:induction false} RequestedIsPositive(lines: seq<Line>, p: nat)
    requires PositiveLines(lines)
    ensures Requested(lines, p) >= 0
  {
    if lines != [] { RequestedIsPositive(lines[1..], p); }
  }

  // ---------------------------------------------------------------- how one line rounds

  /** Product and movement round apart by one thousandth exactly when the quantity lies halfway. */
  lemma MovementIsTakenOrOneMore(quantity: Amount)
    requires quantity > 0.0
    ensures Stored(-quantity) == -Stored(quantity)
    ensures Stored(quantity) == TakenBy(quantity) + if Halfway(quantity) then 1 else 0
  {
    NegatedIsStored(quantity);
    var n := TakenBy(quantity);
    hide Stored, TakenBy;
    if quantity - n as real == 0.5 {
      assert quantity.Floor == n;
      NearestIsStored(quantity, n + 1);
    } else {
      assert quantity.Floor == n || quantity.Floor == n - 1;
      assert !Halfway(quantity);
      NearestIsStored(quantity, n);
    }
  }

  /** What is left fails the CHECK exactly when the quantity, stored as a line, is more than there is. */
  lemma LeftAfter(current: Quantity, quantity: Amount)
    requires current >= 0 && quantity > 0.0
    ensures Moved(current, -quantity) < 0 <==> current < Stored(quantity)
    ensures Moved(current, -quantity) >= 0 ==> Moved(current, -quantity) == current - TakenBy(quantity)
    ensures quantity <= current as real ==> Moved(current, -quantity) >= 0
  {
    hide Stored, TakenBy;
    if Moved(current, -quantity) >= 0 { NearestIsStored(current as real - quantity, current - TakenBy(quantity)); }
  }

  // ---------------------------------------------------------------- when the loop succeeds

  /** A line may take this much of what is left of its product. */
  predicate Fits(quantity: Amount, left: Quantity, mode: Mode) {
    if mode.Enforce? then quantity <= left as real else Stored(quantity) <= left
  }

  /** A line of a known product fits what the lines before it leave of it. */
  predicate LineFits(shelf: Shelf, items: seq<Item>, k: nat, mode: Mode)
    requires k < |items|
  {
    var l := items[k];
    l.product.Some? && l.product.value in shelf ==>
      Fits(l.quantity, shelf[l.product.value] - Taken(items[..k], l.product.value), mode)
  }

  predicate EachLineFits(shelf: Shelf, items: seq<Item>, mode: Mode) {
    forall k | 0 <= k < |items| :: LineFits(shelf, items, k, mode)
  }

  lemma LineFitsShift(shelf: Shelf, less: Shelf, items: seq<Item>, k: nat, mode: Mode)
    requires k + 1 < |items| && less.Keys == shelf.Keys
    requires forall p | p in shelf :: less[p] == shelf[p] - Taken(items[..1], p)
    ensures LineFits(shelf, items, k + 1, mode) <==> LineFits(less, items[1..], k, mode)
  {
    hide Fits, TakenBy;
    if items[k + 1].product.Some? { TakenShift(items, k, items[k + 1].product.value); }
  }

  lemma TakenShift(items: seq<Item>, k: nat, p: nat)
    requires k < |items|
    ensures Taken(items[..k + 1], p) == Taken(items[..1], p) + Taken(items[1..][..k], p)
  {
    assert items[..k + 1][1..] == items[1..][..k] && items[..1][1..] == [];
  }

  lemma FitsShift(shelf: Shelf, less: Shelf, items: seq<Item>, mode: Mode)
    requires items != [] && less.Keys == shelf.Keys
    requires forall p | p in shelf :: less[p] == shelf[p] - Taken(items[..1], p)
    ensures EachLineFits(shelf, items, mode) <==> EachLineFits(less, items[1..], mode) && LineFits(shelf, items, 0, mode)
  {
    hide LineFits, Taken;
    forall k | 0 <= k < |items| - 1 ensures LineFits(shelf, items, k + 1, mode) <==> LineFits(less, items[1..], k, mode) {
      LineFitsShift(shelf, less, items, k, mode);
    }
    if EachLineFits(shelf, items, mode) {
      forall k | 0 <= k < |items| - 1 ensures LineFits(less, items[1..], k, mode) { assert LineFits(shelf, items, k + 1, mode); }
    }
    if EachLineFits(less, items[1..], mode) {
      forall k | 1 <= k < |items| ensures LineFits(shelf, items, k, mode) { assert LineFits(less, items[1..], k - 1, mode); }
    }
  }

  /**
   Which lines are sold: with enforcement on, the loop succeeds exactly when every line of a known product fits
   what the lines before it leave. In enforce mode a line fits when its quantity is there, in warn mode when what
   the column stores of it is.
   */
  lemma {:induction false} LoopSucceedsIff(shelf: Shelf, items: seq<Item>, mode: Mode, done: seq<Movement>, warned: seq<Warning>)
    requires !mode.Disable? && NonNegative(shelf) && Positive(items)
    ensures DeductFrom(shelf, items, mode, done, warned).Deducted? <==> EachLineFits(shelf, items, mode)
  {
    hide Moved, TakenBy, Stored;
    if items != [] {
      var l, rest := items[0], items[1..];
      assert items[..1][1..] == [] && items[..0] == [];
      if l.product.None? || l.product.value !in shelf {
        LoopSucceedsIff(shelf, rest, mode, done, warned);
        FitsShift(shelf, shelf, items, mode);
      } else {
        var p0, current := l.product.value, shelf[l.product.value];
        LeftAfter(current, l.quantity);
        assert Fits(l.quantity, current, mode) <==> !(current as real < l.quantity && mode.Enforce?) && Moved(current, -l.quantity) >= 0;
        if Moved(current, -l.quantity) >= 0 {
          var less := shelf[p0 := Moved(current, -l.quantity)];
          LoopSucceedsIff(less, rest, mode, done + [Movement(p0, Stored(-l.quantity), Sale)],
                          if current as real < l.quantity then warned + [Warning(p0, current, l.quantity)] else warned);
          FitsShift(shelf, less, items, mode);
        } else {
          assert !LineFits(shelf, items, 0, mode) by { assert items[..0] == []; }
        }
      }
    }
  }

  /** The items together ask for no more of any known product than the shelf has. */
  predicate Covers(shelf: Shelf, items: seq<Item>) {
    forall p | p in shelf :: Asked(items, p) <= shelf[p] as real
  }

  /** Every quantity of a catalog line has at most the column's three decimals. */
  predicate QuantitiesAtScale(items: seq<Item>) {
    forall i | 0 <= i < |items| && items[i].product.Some? :: AtColumnScale(items[i].quantity)
  }

  lemma {:induction false} AskedIsPositive(items: seq<Item>, p: nat)
    requires Positive(items)
    ensures Asked(items, p) >= 0.0
  {
    if items != [] { AskedIsPositive(items[1..], p); }
  }

  /**
   Line by line or all at once, the answer is the same for quantities of the column's scale: the loop succeeds
   exactly when every known product covers the total asked of it, however often the product is repeated.
   */
  lemma {:induction false} LoopEqualsAggregateCheck(shelf: Shelf, items: seq<Item>, mode: Mode, done: seq<Movement>, warned: seq<Warning>)
    requires !mode.Disable? && NonNegative(shelf) && Positive(items) && QuantitiesAtScale(items)
    ensures DeductFrom(shelf, items, mode, done, warned).Deducted? <==> Covers(shelf, items)
  {
    hide Moved, TakenBy, Stored;
    if items != [] {
      var l, rest := items[0], items[1..];
      if l.product.None? || l.product.value !in shelf {
        LoopEqualsAggregateCheck(shelf, rest, mode, done, warned);
        assert forall p | p in shelf :: Asked(items, p) == Asked(rest, p);
      } else {
        var p0 := l.product.value;
        AskedIsPositive(rest, p0);
        LeftAfter(shelf[p0], l.quantity);
        TakenAtScale(l.quantity);
        if shelf[p0] as real < l.quantity {
          assert Asked(items, p0) > shelf[p0] as real;
        } else {
          var less := shelf[p0 := Moved(shelf[p0], -l.quantity)];
          LoopEqualsAggregateCheck(less, rest, mode, done + [Movement(p0, Stored(-l.quantity), Sale)], warned);
          assert forall p | p in shelf :: Asked(items, p) - shelf[p] as real == Asked(rest, p) - less[p] as real;
        }
      }
    }
  }

  lemma TakenAtScale(quantity: Amount)
    requires quantity > 0.0 && AtColumnScale(quantity)
    ensures TakenBy(quantity) as real == quantity == Stored(quantity) as real && !Halfway(quantity)
  {
    hide Stored, TakenBy;
    StoredExactlyIff(quantity);
    MovementIsTakenOrOneMore(quantity);
  }

  /** A line of product p at a price of one. */
  function ItemOf(p: nat, quantity: Amount): Item { Item(Some(p), "", 100.0, quantity, 0.0) }

  /** With finer quantities it is not: 0.4996 and 0.5004 of one article in stock are refused, and together they are there. */
  lemma CoveredSaleCanBeRefused(p: nat)
    ensures
      var shelf, items := map[p := 1000], [ItemOf(p, 499.6), ItemOf(p, 500.4)];
      Covers(shelf, items) && Deduct(shelf, items, Enforce).Refused?
  {
    var items := [ItemOf(p, 499.6), ItemOf(p, 500.4)];
    assert items[1..] == [ItemOf(p, 500.4)] && items[1..][1..] == [];
    assert Asked(items[1..], p) == 500.4;
    NearestIsStored(500.4, 500);
    hide Stored;
    var m := Movement(p, Stored(-499.6), Sale);
    assert DeductFrom(map[p := 1000], items, Enforce, [], []) == DeductFrom(map[p := 1000][p := 500], items[1..], Enforce, [] + [m], []);
  }

  // ---------------------------------------------------------------- what the loop leaves

  /**
   What the loop leaves, over quantities of any precision: nothing goes below zero, no product appears or vanishes,
   and a product loses what is taken of it. The ledger records one thousandth more for each line that lies halfway
   between two.
   */
  lemma {:induction false} DeductionIsRecorded(shelf: Shelf, items: seq<Item>, mode: Mode, done: seq<Movement>, warned: seq<Warning>)
    requires NonNegative(shelf) && Positive(items)
    requires DeductFrom(shelf, items, mode, done, warned).Deducted?
    ensures
      var d := DeductFrom(shelf, items, mode, done, warned);
      && d.shelf.Keys == shelf.Keys && NonNegative(d.shelf)
      && (forall p | p in shelf ::
            && d.shelf[p] == (if mode.Disable? then shelf[p] else shelf[p] - Taken(items, p))
            && d.shelf[p] - shelf[p]
               == LedgerSum(d.movements, p) - LedgerSum(done, p) + if mode.Disable? then 0 else Halves(items, p))
  {
    hide Moved, TakenBy, Stored, Halfway, LedgerSum;
    if !mode.Disable? && items != [] {
      var l, rest := items[0], items[1..];
      if l.product.None? || l.product.value !in shelf {
        DeductionIsRecorded(shelf, rest, mode, done, warned);
      } else {
        var p0, current := l.product.value, shelf[l.product.value];
        LeftAfter(current, l.quantity);
        MovementIsTakenOrOneMore(l.quantity);
        var more := done + [Movement(p0, Stored(-l.quantity), Sale)];
        forall p ensures LedgerSum(more, p) == LedgerSum(done, p) + if p == p0 then Stored(-l.quantity) else 0 {
          LedgerSumPush(done, Movement(p0, Stored(-l.quantity), Sale), p);
        }
        DeductionIsRecorded(shelf[p0 := Moved(current, -l.quantity)], rest, mode, more,
                            if current as real < l.quantity then warned + [Warning(p0, current, l.quantity)] else warned);
      }
    }
  }

  /** A deduction and its movements agree on a product exactly when no line of it lies halfway between two thousandths. */
  lemma LedgerAgreesIff(shelf: Shelf, items: seq<Item>, mode: Mode, p: nat)
    requires NonNegative(shelf) && Positive(items) && !mode.Disable? && p in shelf
    requires Deduct(shelf, items, mode).Deducted?
    ensures
      var d := Deduct(shelf, items, mode);
      d.shelf.Keys == shelf.Keys
      && (d.shelf[p] - shelf[p] == LedgerSum(d.movements, p)
          <==> forall i | 0 <= i < |items| && items[i].product == Some(p) :: !Halfway(items[i].quantity))
  {
    DeductionIsRecorded(shelf, items, mode, [], []);
    NoHalvesIff(items, p);
  }

  lemma {:induction false} NoHalvesIff(items: seq<Item>, p: nat)
    ensures Halves(items, p) == 0 <==> forall i | 0 <= i < |items| && items[i].product == Some(p) :: !Halfway(items[i].quantity)
  {
    hide Halfway;
    if items != [] {
      NoHalvesIff(items[1..], p);
      assert forall i | 0 <= i < |items| - 1 :: items[1..][i] == items[i + 1];
    }
  }

  /** The stored lines hold of a product what was taken of it, and one thousandth more for each that lies halfway. */
  lemma {:induction false} StoredLinesHold(items: seq<Item>, p: nat)
    requires Positive(items)
    ensures Requested(StoredLines(items), p) == Taken(items, p) + Halves(items, p)
  {
    hide TakenBy, Stored, Halfway;
    if items != [] {
      MovementIsTakenOrOneMore(items[0].quantity);
      assert StoredLines(items)[1..] == StoredLines(items[1..]);
      StoredLinesHold(items[1..], p);
    }
  }

  /** Selling 0.0005 of ten articles leaves ten, and the ledger says that 0.001 was sold. */
  lemma LedgerCanPart(p: nat)
    ensures
      var d := Deduct(map[p := 10000], [ItemOf(p, 0.5)], Enforce);
      d == Deducted(map[p := 10000], [Movement(p, -1, Sale)], []) && LedgerSum(d.movements, p) == -1
  {
    NearestIsStored(9999.5, 10000);
    NearestIsStored(-0.5, -1);
    hide Stored;
    var m, items := Movement(p, -1, Sale), [ItemOf(p, 0.5)];
    assert items[1..] == [] && [] + [m] == [m] && [m][..0] == [];
    assert map[p := 10000][p := 10000] == map[p := 10000];
    assert DeductFrom(map[p := 10000], items, Enforce, [], []) == DeductFrom(map[p := 10000], [], Enforce, [m], []);
  }

  // ---------------------------------------------------------------- warn mode

  /**
   Warn mode sells what enforce mode sells, in the same way and without a warning. What enforce mode refuses, it
   refuses too or sells with a warning.
   */
  lemma {:induction false} WarnModeAgainstEnforceMode(shelf: Shelf, items: seq<Item>, done: seq<Movement>, warned: seq<Warning>)
    requires NonNegative(shelf) && Positive(items)
    ensures
      var warn, enforce := DeductFrom(shelf, items, Warn, done, warned), DeductFrom(shelf, items, Enforce, done, warned);
      && (enforce.Deducted? ==> warn == enforce && warn.warnings == warned)
      && (enforce.Refused? && warn.Deducted? ==> |warn.warnings| > |warned|)
      && (warn.Deducted? ==> |warn.warnings| >= |warned|)
  {
    hide Moved, TakenBy, Stored;
    if items != [] {
      var l, rest := items[0], items[1..];
      if l.product.None? || l.product.value !in shelf {
        WarnModeAgainstEnforceMode(shelf, rest, done, warned);
      } else {
        var p, current := l.product.value, shelf[l.product.value];
        LeftAfter(current, l.quantity);
        if Moved(current, -l.quantity) >= 0 {
          var more := done + [Movement(p, Stored(-l.quantity), Sale)];
          WarnModeAgainstEnforceMode(shelf[p := Moved(current, -l.quantity)], rest, more,
                                     if current as real < l.quantity then warned + [Warning(p, current, l.quantity)] else warned);
        }
      }
    }
  }

  /**
   When a sale is stored with a warning: exactly when every line fits what the lines before it leave once the column
   has rounded it, and some line does not fit as it was asked. That line is short by less than half a thousandth.
   */
  lemma SaleWarnsIff(shelf: Shelf, items: seq<Item>)
    requires NonNegative(shelf) && Positive(items)
    ensures
      var warn := Deduct(shelf, items, Warn);
      warn.Deducted? && warn.warnings != [] <==> EachLineFits(shelf, items, Warn) && !EachLineFits(shelf, items, Enforce)
  {
    hide EachLineFits;
    WarnModeAgainstEnforceMode(shelf, items, [], []);
    LoopSucceedsIff(shelf, items, Warn, [], []);
    LoopSucceedsIff(shelf, items, Enforce, [], []);
  }

  /** For quantities of the column's scale warn mode is enforce mode, so no such sale is stored with a warning. */
  lemma WarnModeIsEnforceMode(shelf: Shelf, items: seq<Item>)
    requires NonNegative(shelf) && Positive(items) && QuantitiesAtScale(items)
    ensures Deduct(shelf, items, Warn) == Deduct(shelf, items, Enforce)
  {
    hide Covers;
    WarnModeAgainstEnforceMode(shelf, items, [], []);
    LoopEqualsAggregateCheck(shelf, items, Warn, [], []);
    LoopEqualsAggregateCheck(shelf, items, Enforce, [], []);
  }

  /** With finer quantities it is not: 1.0004 of one article in stock is sold with a warning, and enforce mode refuses it. */
  lemma WarnModeCanOversell(p: nat)
    ensures
      var shelf, items := map[p := 1000], [ItemOf(p, 1000.4)];
      && Deduct(shelf, items, Warn) == Deducted(map[p := 0], [Movement(p, -1000, Sale)], [Warning(p, 1000, 1000.4)])
      && Deduct(shelf, items, Enforce).Refused?
  {
    NearestIsStored(-0.4, 0);
    NearestIsStored(-1000.4, -1000);
    hide Stored;
    var shelf, items := map[p := 1000], [ItemOf(p, 1000.4)];
    var m, warning := Movement(p, -1000, Sale), Warning(p, 1000, 1000.4);
    assert items[1..] == [] && [] + [m] == [m] && [] + [warning] == [warning] && shelf[p := 0] == map[p := 0];
    assert DeductFrom(shelf, items, Warn, [], []) == DeductFrom(map[p := 0], [], Warn, [m], [warning]);
  }

  /** The movements of a sale: one for each line of the catalog. */
  function CatalogMovements(items: seq<Item>): seq<Movement> {
    if items == [] then []
    else
      var l := items[0];
      (if l.product.Some? then [Movement(l.product.value, Stored(-l.quantity), Sale)] else []) + CatalogMovements(items[1..])
  }

  /** One turn of the loop over a known product. */
  lemma OneLine(shelf: Shelf, items: seq<Item>, mode: Mode, done: seq<Movement>, warned: seq<Warning>)
    requires !mode.Disable? && items != [] && items[0].product.Some? && items[0].product.value in shelf
    requires DeductFrom(shelf, items, mode, done, warned).Deducted?
    ensures
      var l := items[0];
      var p, current := l.product.value, shelf[l.product.value];
      DeductFrom(shelf, items, mode, done, warned)
      == DeductFrom(shelf[p := Moved(current, -l.quantity)], items[1..], mode, done + [Movement(p, Stored(-l.quantity), Sale)],
                    if current as real < l.quantity then warned + [Warning(p, current, l.quantity)] else warned)
  {
    hide Moved, Stored;
  }

  lemma ManualLine(shelf: Shelf, items: seq<Item>, mode: Mode, done: seq<Movement>, warned: seq<Warning>)
    requires items != [] && (items[0].product.None? || items[0].product.value !in shelf)
    ensures DeductFrom(shelf, items, mode, done, warned) == DeductFrom(shelf, items[1..], mode, done, warned)
  {
    hide Moved, Stored;
  }

  lemma CatalogPush(done: seq<Movement>, items: seq<Item>)
    requires items != []
    ensures
      var l, rest := items[0], CatalogMovements(items[1..]);
      done + CatalogMovements(items)
      == if l.product.None? then done + rest else done + [Movement(l.product.value, Stored(-l.quantity), Sale)] + rest
  {
    hide Stored;
    assert [] + CatalogMovements(items[1..]) == CatalogMovements(items[1..]);
  }

  lemma RestIsKnown(items: seq<Item>, shelf: Shelf)
    requires items != [] && forall l | l in items :: l.product.Some? ==> l.product.value in shelf
    ensures items[0].product.Some? ==> items[0].product.value in shelf
    ensures forall l | l in items[1..] :: l.product.Some? ==> l.product.value in shelf
  {
    assert forall l | l in items[1..] :: l in items;
  }

  /** With enforcement on, a sale of known products alone records one movement for each of its lines, in their order. */
  lemma {:induction false} EveryLineIsMoved(shelf: Shelf, items: seq<Item>, mode: Mode, done: seq<Movement>, warned: seq<Warning>)
    requires !mode.Disable? && DeductFrom(shelf, items, mode, done, warned).Deducted?
    requires forall l | l in items :: l.product.Some? ==> l.product.value in shelf
    ensures DeductFrom(shelf, items, mode, done, warned).movements == done + CatalogMovements(items)
  {
    if items == [] {
      assert done + [] == done;
    } else {
      var l, rest := items[0], items[1..];
      RestIsKnown(items, shelf);
      CatalogPush(done, items);
      hide CatalogMovements, Moved, Stored;
      if l.product.None? {
        ManualLine(shelf, items, mode, done, warned);
        hide DeductFrom;
        EveryLineIsMoved(shelf, rest, mode, done, warned);
      } else {
        OneLine(shelf, items, mode, done, warned);
        hide DeductFrom;
        var p, current, m := l.product.value, shelf[l.product.value], Movement(l.product.value, Stored(-l.quantity), Sale);
        EveryLineIsMoved(shelf[p := Moved(current, -l.quantity)], rest, mode, done + [m],
                         if current as real < l.quantity then warned + [Warning(p, current, l.quantity)] else warned);
      }
    }
  }

  /** Some lines of the second list have lost their product. */
  predicate Fewer(seen: seq<Item>, items: seq<Item>) {
    |seen| == |items| && forall i | 0 <= i < |items| :: seen[i] == items[i] || seen[i] == items[i].(product := None)
  }

  /** Each line that lost its product is a movement less, so the movements are all there exactly when none did. */
  lemma {:induction false} FewerMovements(seen: seq<Item>, items: seq<Item>)
    requires Fewer(seen, items)
    ensures |CatalogMovements(seen)| <= |CatalogMovements(items)|
    ensures |CatalogMovements(seen)| == |CatalogMovements(items)| <==> seen == items
  {
    hide Stored;
    if items != [] {
      assert Fewer(seen[1..], items[1..]) by {
        assert forall i | 0 <= i < |items| - 1 :: seen[1..][i] == seen[i + 1] && items[1..][i] == items[i + 1];
      }
      FewerMovements(seen[1..], items[1..]);
      assert seen == [seen[0]] + seen[1..] && items == [items[0]] + items[1..];
    }
  }

  /** The lines whose reads failed, and the others without their product. */
  function Only(items: seq<Item>, unread: set<nat>): (missed: seq<Item>)
    ensures |missed| == |items|
  {
    seq(|items|, i requires 0 <= i < |items| => if i in unread then items[i] else items[i].(product := None))
  }

  /** Two lists that share out the products of a third hold together what it holds. */
  predicate Shared(a: seq<Item>, b: seq<Item>, items: seq<Item>) {
    |a| == |b| == |items|
    && forall i | 0 <= i < |items| :: (a[i] == items[i] && b[i] == items[i].(product := None))
                                   || (b[i] == items[i] && a[i] == items[i].(product := None))
  }

  lemma {:induction false} SharedRequests(a: seq<Item>, b: seq<Item>, items: seq<Item>, p: nat)
    requires Shared(a, b, items)
    ensures Requested(StoredLines(items), p) == Requested(StoredLines(a), p) + Requested(StoredLines(b), p)
  {
    hide Stored;
    if items != [] {
      assert Shared(a[1..], b[1..], items[1..]) by {
        assert forall i | 0 <= i < |items| - 1 :: a[1..][i] == a[i + 1] && b[1..][i] == b[i + 1] && items[1..][i] == items[i + 1];
      }
      SharedRequests(a[1..], b[1..], items[1..], p);
      assert StoredLines(items)[1..] == StoredLines(items[1..]);
      assert StoredLines(a)[1..] == StoredLines(a[1..]) && StoredLines(b)[1..] == StoredLines(b[1..]);
    }
  }

  /** How much of a product the lines hold that were not read. */
  function Missed(items: seq<Item>, unread: set<nat>, p: nat): Quantity { Requested(StoredLines(Only(items, unread)), p) }

  lemma SeenAndMissed(items: seq<Item>, unread: set<nat>, p: nat)
    ensures Requested(StoredLines(items), p) == Requested(StoredLines(Without(items, unread)), p) + Missed(items, unread, p)
  {
    hide Stored, StoredLines, Requested;
    SharedRequests(Without(items, unread), Only(items, unread), items, p);
  }

  /** With positive stored quantities, nothing of a product is missed exactly when none of its lines is. */
  lemma {:induction false} NothingMissedIff(items: seq<Item>, missed: seq<Item>, p: nat)
    requires Fewer(missed, items) && PositiveLines(StoredLines(items))
    ensures Requested(StoredLines(missed), p) >= 0
    ensures Requested(StoredLines(missed), p) == 0 <==> forall i | 0 <= i < |missed| :: missed[i].product != Some(p)
  {
    hide Stored;
    if items != [] {
      assert Fewer(missed[1..], items[1..]) by {
        assert forall i | 0 <= i < |items| - 1 :: missed[1..][i] == missed[i + 1] && items[1..][i] == items[i + 1];
      }
      assert StoredLines(items)[1..] == StoredLines(items[1..]) && StoredLines(missed)[1..] == StoredLines(missed[1..]);
      assert forall i | 0 <= i < |items| - 1 :: StoredLines(items[1..])[i] == StoredLines(items)[i + 1];
      NothingMissedIff(items[1..], missed[1..], p);
      assert StoredLines(missed)[0].quantity == StoredLines(items)[0].quantity;
      assert forall i | 0 <= i < |missed| :: i == 0 || missed[i] == missed[1..][i - 1];
      assert forall i | 0 <= i < |missed| - 1 :: missed[1..][i] == missed[i + 1];
    }
  }

  /** The loop over two lists is the loop over the first and then, on what it leaves, over the second. */
  lemma {:induction false} DeductAppend(shelf: Shelf, a: seq<Item>, b: seq<Item>, mode: Mode, done: seq<Movement>, warned: seq<Warning>)
    requires !mode.Disable?
    ensures
      var first := DeductFrom(shelf, a, mode, done, warned);
      DeductFrom(shelf, a + b, mode, done, warned)
      == if first.Refused? then Refused else DeductFrom(first.shelf, b, mode, first.movements, first.warnings)
  {
    hide Moved, Stored;
    if a == [] {
      assert a + b == b;
    } else {
      assert (a + b)[0] == a[0] && (a + b)[1..] == a[1..] + b;
      var l := a[0];
      if l.product.None? || l.product.value !in shelf {
        DeductAppend(shelf, a[1..], b, mode, done, warned);
      } else {
        var p, current := l.product.value, shelf[l.product.value];
        DeductAppend(shelf[p := Moved(current, -l.quantity)], a[1..], b, mode, done + [Movement(p, Stored(-l.quantity), Sale)],
                     if current as real < l.quantity then warned + [Warning(p, current, l.quantity)] else warned);
      }
    }
  }

  /** A line of these is of this product. */
  predicate Lists(items: seq<Item>, p: nat) { exists i :: 0 <= i < |items| && items[i].product == Some(p) }

  /** The two shelves have the same products, and the same quantities of those that the lines are of. */
  predicate SameStock(a: Shelf, b: Shelf, items: seq<Item>) {
    a.Keys == b.Keys && forall p | p in a && Lists(items, p) :: b[p] == a[p]
  }

  /** The loop reads and writes the rows of its own products alone: on any other shelf with the same quantities of them it does the same. */
  lemma {:induction false} DeductionIsItsProducts(a: Shelf, b: Shelf, items: seq<Item>, mode: Mode,
                                                  done: seq<Movement>, warned: seq<Warning>)
    requires SameStock(a, b, items)
    ensures
      var x, y := DeductFrom(a, items, mode, done, warned), DeductFrom(b, items, mode, done, warned);
      && (x.Deducted? <==> y.Deducted?)
      && (x.Deducted? ==>
            && y.movements == x.movements && y.warnings == x.warnings && x.shelf.Keys == y.shelf.Keys == a.Keys
            && forall p | p in a :: if Lists(items, p) then y.shelf[p] == x.shelf[p] else x.shelf[p] == a[p] && y.shelf[p] == b[p])
  {
    hide Moved, Stored;
    if !mode.Disable? && items != [] {
      var l, rest := items[0], items[1..];
      forall p: nat ensures Lists(items, p) <==> l.product == Some(p) || Lists(rest, p) { ListsFirst(items, p); }
      hide Lists;
      if l.product.None? || l.product.value !in a {
        DeductionIsItsProducts(a, b, rest, mode, done, warned);
      } else {
        var p0, current := l.product.value, a[l.product.value];
        var left := Moved(current, -l.quantity);
        DeductionIsItsProducts(a[p0 := left], b[p0 := left], rest, mode, done + [Movement(p0, Stored(-l.quantity), Sale)],
                               if current as real < l.quantity then warned + [Warning(p0, current, l.quantity)] else warned);
      }
    }
  }

  lemma ListsFirst(items: seq<Item>, p: nat)
    requires items != []
    ensures Lists(items, p) <==> items[0].product == Some(p) || Lists(items[1..], p)
  {
    if i :| 0 <= i < |items| && items[i].product == Some(p) { assert i == 0 || items[1..][i - 1] == items[i]; }
    if i :| 0 <= i < |items| - 1 && items[1..][i].product == Some(p) { assert items[i + 1] == items[1..][i]; }
  }

  // ---------------------------------------------------------------- reversal

  /** reverseSaleMovements over the lines of a bill. */
  function RestoreFrom(shelf: Shelf, lines: seq<Line>, mode: Mode, done: seq<Movement>): Deduction {
    if mode.Disable? || lines == [] then Deducted(shelf, done, [])
    else
      var l := lines[0];
      if l.product.None? then RestoreFrom(shelf, lines[1..], mode, done)
      else if l.product.value !in shelf then Refused // the movement's foreign key
      else
        var p := l.product.value;
        RestoreFrom(shelf[p := shelf[p] + l.quantity], lines[1..], mode, done + [Movement(p, l.quantity, Deletion)])
  }

  function Restore(shelf: Shelf, lines: seq<Line>, mode: Mode): Deduction {
    RestoreFrom(shelf, lines, mode, [])
  }

  predicate KnownProducts(shelf: Shelf, lines: seq<Line>) {
    forall i | 0 <= i < |lines| && lines[i].product.Some? :: lines[i].product.value in shelf
  }

  lemma {:induction false} RestoreIsRecorded(shelf: Shelf, lines: seq<Line>, mode: Mode, done: seq<Movement>)
    requires NonNegative(shelf) && PositiveLines(lines) && KnownProducts(shelf, lines)
    ensures
      var d := RestoreFrom(shelf, lines, mode, done);
      && d.Deducted? && d.shelf.Keys == shelf.Keys && NonNegative(d.shelf)
      && (forall p | p in shelf ::
            && d.shelf[p] - shelf[p] == LedgerSum(d.movements, p) - LedgerSum(done, p)
            && d.shelf[p] == if mode.Disable? then shelf[p] else shelf[p] + Requested(lines, p))
  {
    hide LedgerSum;
    if !mode.Disable? && lines != [] {
      var l, rest := lines[0], lines[1..];
      assert KnownProducts(shelf, rest) && PositiveLines(rest) by {
        assert forall i | 0 <= i < |rest| :: rest[i] == lines[i + 1];
      }
      if l.product.None? {
        RestoreIsRecorded(shelf, rest, mode, done);
      } else {
        var p0 := l.product.value;
        var moved := done + [Movement(p0, l.quantity, Deletion)];
        forall p ensures LedgerSum(moved, p) == LedgerSum(done, p) + if p == p0 then l.quantity else 0 {
          LedgerSumPush(done, Movement(p0, l.quantity, Deletion), p);
        }
        RestoreIsRecorded(shelf[p0 := shelf[p0] + l.quantity], rest, mode, moved);
      }
    }
  }

  /** What the reversal records does not depend on the quantities that there are. */
  lemma {:induction false} ReversalIsItsLines(a: Shelf, b: Shelf, lines: seq<Line>, mode: Mode, done: seq<Movement>)
    requires a.Keys == b.Keys
    ensures
      var x, y := RestoreFrom(a, lines, mode, done), RestoreFrom(b, lines, mode, done);
      (x.Deducted? <==> y.Deducted?) && (x.Deducted? ==> y.movements == x.movements)
  {
    if !mode.Disable? && lines != [] {
      var l, rest := lines[0], lines[1..];
      if l.product.None? {
        ReversalIsItsLines(a, b, rest, mode, done);
      } else if l.product.value in a {
        var p := l.product.value;
        ReversalIsItsLines(a[p := a[p] + l.quantity], b[p := b[p] + l.quantity], rest, mode, done + [Movement(p, l.quantity, Deletion)]);
      }
    }
  }

  /**
   Deleting a draft does not in general leave the stock as it was before the draft: a draft deducts
   nothing, and its deletion adds its catalog lines back. It does exactly when enforcement is off or
   the draft has no catalog line.
   */
  lemma DraftDeletionKeepsStockIff(shelf: Shelf, lines: seq<Line>, mode: Mode)
    requires NonNegative(shelf) && PositiveLines(lines) && KnownProducts(shelf, lines)
    ensures Restore(shelf, lines, mode).Deducted?
    ensures Restore(shelf, lines, mode).shelf == shelf <==>
      mode.Disable? || forall i | 0 <= i < |lines| :: lines[i].product.None?
  {
    RestoreIsRecorded(shelf, lines, mode, []);
    var after := Restore(shelf, lines, mode).shelf;
    if !mode.Disable? {
      if i :| 0 <= i < |lines| && lines[i].product.Some? {
        RequestedCoversLine(lines, i);
        assert after[lines[i].product.value] > shelf[lines[i].product.value];
      } else {
        forall p | p in shelf ensures Requested(lines, p) == 0 { NothingRequested(lines, p); }
      }
    }
  }

  lemma {:induction false} RequestedCoversLine(lines: seq<Line>, i: nat)
    requires PositiveLines(lines) && i < |lines| && lines[i].product.Some?
    ensures Requested(lines, lines[i].product.value) >= lines[i].quantity
  {
    assert PositiveLines(lines[1..]) by { assert forall j | 0 <= j < |lines| - 1 :: lines[1..][j] == lines[j + 1]; }
    if i == 0 {
      RequestedIsPositive(lines[1..], lines[0].product.value);
    } else {
      RequestedCoversLine(lines[1..], i - 1);
    }
  }

  lemma {:induction false} NothingRequested(lines: seq<Line>, p: nat)
    requires forall i | 0 <= i < |lines| :: lines[i].product.None?
    ensures Requested(lines, p) == 0
  {
    if lines != [] { NothingRequested(lines[1..], p); }
  }

  // ---------------------------------------------------------------- the loops

  /** What the locked read of a quantity gives. A deadlock is an error after which the transaction is gone. */
  datatype ReadResult = Quantity(quantity: Quantity) | NoRow | ReadFailed | Deadlock

  /** The rows a sale's transaction works on: product quantities and the movements it inserts. */
  class StockTables {
    var shelf: Shelf
    var movements: seq<Movement>
    var faults: nat // database errors so far

    constructor (shelf: Shelf)
      ensures this.shelf == shelf && movements == [] && faults == 0
    {
      this.shelf, movements, faults := shelf, [], 0;
    }

    /** SELECT quantity FROM product WHERE id = ? FOR UPDATE: it waits for the row, and may time out or be the victim of a deadlock. */
    method SearchQuantityByID(p: nat) returns (result: ReadResult)
      modifies this`faults
      ensures result.Quantity? ==> p in shelf && result.quantity == shelf[p]
      ensures result.NoRow? ==> p !in shelf
      ensures result.Deadlock? ==> p in shelf
      ensures faults == old(faults) + if result.ReadFailed? || result.Deadlock? then 1 else 0
    {
      var fails: bool, deadlock: bool := *, *;
      if !fails { return if p in shelf then Quantity(shelf[p]) else NoRow; }
      faults := faults + 1;
      result := if deadlock && p in shelf then Deadlock else ReadFailed;
    }

    /** UPDATE product SET quantity = quantity + ? WHERE id = ?: the column rounds the sum, and its CHECK may refuse it. */
    method UpdateProductQuantity(p: nat, delta: Amount) returns (ok: bool)
      modifies this`shelf
      ensures ok == (p in old(shelf) ==> Stored(old(shelf)[p] as real + delta) >= 0)
      ensures shelf == if ok && p in old(shelf) then old(shelf)[p := Stored(old(shelf)[p] as real + delta)] else old(shelf)
    {
      ok := true;
      if p in shelf {
        var left := Moved(shelf[p], delta);
        if left >= 0 { shelf := shelf[p := left]; } else { ok := false; }
      }
    }

    /** INSERT INTO stock_movements, which fails when the product is not in the table. */
    method InsertStockMovement(p: nat, quantity: Amount, kind: Kind) returns (ok: bool)
      modifies this`movements
      ensures ok == (p in shelf)
      ensures movements == if ok then old(movements) + [Movement(p, Stored(quantity), kind)] else old(movements)
    {
      ok := p in shelf;
      if ok { movements := movements + [Movement(p, Stored(quantity), kind)]; }
    }

    /** One turn of the loop of recordSaleMovements: what it does with a line, and the warning of a short one that it takes. */
    method SellLine(l: Item, mode: Mode) returns (turn: Turn, warnings: seq<Warning>)
      requires !mode.Disable?
      modifies this
      ensures turn.Passed? ==> l.product.None? || l.product.value !in shelf
      ensures turn.NotRead? || turn.LostHere? ==> l.product.Some?
      ensures turn.LostHere? || turn.Stopped? || turn.SoldIt? ==> l.product.Some? && l.product.value in old(shelf)
      ensures turn.Stopped? ==> StopsAt(old(shelf), l, mode)
      ensures turn.SoldIt? ==> !StopsAt(old(shelf), l, mode) && TakesLine(old(shelf), old(movements), shelf, movements, l, warnings)
      ensures !turn.SoldIt? && !turn.Stopped? ==> shelf == old(shelf) && movements == old(movements) && warnings == []
      ensures faults == old(faults) + if turn.NotRead? || turn.LostHere? then 1 else 0
    {
      hide Stored;
      warnings := [];
      if l.product.None? { return Passed, []; }
      var p := l.product.value;
      var read := SearchQuantityByID(p);
      match read {
        case Deadlock => return LostHere, [];
        case ReadFailed => return NotRead, []; // swallowed: the loop goes on
        case NoRow => return Passed, [];
        case Quantity(current) =>
          if current as real < l.quantity {
            if mode.Enforce? { return Stopped, []; }
            warnings := [Warning(p, current, l.quantity)];
          }
          var updated := UpdateProductQuantity(p, -l.quantity);
          if !updated { return Stopped, []; }
          var inserted := InsertStockMovement(p, -l.quantity, Sale);
          turn := SoldIt;
      }
    }

    /**
     recordSaleMovements, up to a deadlock if there is one: lost is then the line whose read it ended. unread are the lines
     whose reads failed otherwise: they are passed over. What a failed call leaves behind is rolled back by its caller.
     */
    method RecordSaleMovements(items: seq<Item>, mode: Mode)
      returns (warnings: seq<Warning>, ok: bool, unread: set<nat>, lost: Option<nat>)
      modifies this
      ensures forall k | k in unread :: k < |items| && items[k].product.Some? && !mode.Disable?
      ensures faults == old(faults) + |unread| + if lost.Some? then 1 else 0
      ensures lost.None? ==> ok == DeductFrom(old(shelf), Without(items, unread), mode, old(movements), []).Deducted?
      ensures lost.None? && ok ==>
        DeductFrom(old(shelf), Without(items, unread), mode, old(movements), []) == Deducted(shelf, movements, warnings)
      ensures lost.Some? ==> LostAt(old(shelf), items, mode, unread, lost.value, old(movements))
    {
      hide Stored, DeductFrom, Without, StopsAt, TakesLine;
      warnings, ok, unread, lost := [], true, {}, None;
      ghost var start, done := shelf, movements;
      NothingDeducted(start, items, mode, done);
      if mode.Disable? { return; }
      var i := 0;
      while i < |items|
        invariant 0 <= i <= |items| && forall k | k in unread :: k < i && items[k].product.Some?
        invariant faults == old(faults) + |unread|
        invariant DeductFrom(start, Without(items[..i], unread), mode, done, []) == Deducted(shelf, movements, warnings)
      {
        NextLine(start, items, i, unread, mode, done);
        var turn, more := SellLine(items[i], mode);
        if turn.LostHere? {
          WithoutPrefix(items, unread, i);
          return warnings, false, unread, Some(i);
        }
        if turn.Stopped? { return warnings, false, unread, None; }
        if turn.NotRead? { unread := unread + {i}; }
        assert warnings + [] == warnings;
        warnings := warnings + more;
        i := i + 1;
      }
      assert items[..|items|] == items;
    }

    /** reverseSaleMovements, over the stored lines of a bill. */
    method ReverseSaleMovements(lines: seq<Line>, mode: Mode) returns (ok: bool)
      requires NonNegative(shelf) && PositiveLines(lines)
      modifies this
      ensures ok == RestoreFrom(old(shelf), lines, mode, old(movements)).Deducted?
      ensures ok ==> RestoreFrom(old(shelf), lines, mode, old(movements)) == Deducted(shelf, movements, [])
    {
      hide Stored;
      ok := true;
      if mode.Disable? { return; }
      var i := 0;
      while i < |lines|
        invariant 0 <= i <= |lines| && NonNegative(shelf)
        invariant RestoreFrom(old(shelf), lines, mode, old(movements)) == RestoreFrom(shelf, lines[i..], mode, movements)
      {
        var l := lines[i];
        assert lines[i..][0] == l && lines[i..][1..] == lines[i + 1..];
        i := i + 1;
        if l.product.None? { continue; }
        WholeIsStored(l.quantity);
        if l.product.value in shelf { WholeIsStored(shelf[l.product.value] + l.quantity); }
        var updated := UpdateProductQuantity(l.product.value, l.quantity as real);
        if !updated { return false; }
        var inserted := InsertStockMovement(l.product.value, l.quantity as real, Deletion);
        if !inserted { return false; }
      }
    }
  }

  /** What one turn of the loop does with a line. */
  datatype Turn = Passed | NotRead | SoldIt | Stopped | LostHere

  /** The line is short in enforce mode, or the CHECK on the quantity refuses what it would leave. */
  predicate StopsAt(shelf: Shelf, l: Item, mode: Mode)
    requires l.product.Some? && l.product.value in shelf
  {
    (shelf[l.product.value] as real < l.quantity && mode.Enforce?) || Moved(shelf[l.product.value], -l.quantity) < 0
  }

  /** The line is taken from the shelf and recorded, with a warning when it was short. */
  predicate TakesLine(before: Shelf, done: seq<Movement>, after: Shelf, movements: seq<Movement>, l: Item, warnings: seq<Warning>)
    requires l.product.Some? && l.product.value in before
  {
    var p := l.product.value;
    && after == before[p := Moved(before[p], -l.quantity)]
    && movements == done + [Movement(p, Stored(-l.quantity), Sale)]
    && warnings == if before[p] as real < l.quantity then [Warning(p, before[p], l.quantity)] else []
  }

  /** The loop reaches this line, of a known product, with the lines before it deducted but for those it could not read. */
  predicate LostAt(shelf: Shelf, items: seq<Item>, mode: Mode, unread: set<nat>, line: nat, done: seq<Movement>) {
    && !mode.Disable? && line < |items| && items[line].product.Some?
    && var before := DeductFrom(shelf, Without(items, unread)[..line], mode, done, []);
       before.Deducted? && items[line].product.value in before.shelf
  }

  lemma NothingDeducted(shelf: Shelf, items: seq<Item>, mode: Mode, done: seq<Movement>)
    ensures DeductFrom(shelf, Without(items[..0], {}), mode, done, []) == Deducted(shelf, done, [])
    ensures mode.Disable? ==> DeductFrom(shelf, Without(items, {}), mode, done, []) == Deducted(shelf, done, [])
  {
  }

  lemma WithoutPrefix(items: seq<Item>, unread: set<nat>, i: nat)
    requires i <= |items|
    ensures Without(items[..i], unread) == Without(items, unread)[..i]
  {
  }

  /** The turn for line i, whether it is read or not: what the loop leaves after it, or that it refuses the whole. */
  lemma NextLine(start: Shelf, items: seq<Item>, i: nat, unread: set<nat>, mode: Mode, done: seq<Movement>)
    requires !mode.Disable? && i < |items| && forall k | k in unread :: k < i
    requires DeductFrom(start, Without(items[..i], unread), mode, done, []).Deducted?
    ensures
      var d, l := DeductFrom(start, Without(items[..i], unread), mode, done, []), items[i];
      && DeductFrom(start, Without(items[..i + 1], unread + {i}), mode, done, []) == d
      && var after := DeductFrom(start, Without(items[..i + 1], unread), mode, done, []);
         if l.product.None? || l.product.value !in d.shelf then after == d
         else if StopsAt(d.shelf, l, mode) then DeductFrom(start, Without(items, unread), mode, done, []).Refused?
         else
           forall shelf, movements, more | TakesLine(d.shelf, d.movements, shelf, movements, l, more) ::
             after == Deducted(shelf, movements, d.warnings + more)
  {
    hide Moved, Stored;
    var before := Without(items[..i], unread);
    var d := DeductFrom(start, before, mode, done, []);
    var skipped := [items[i].(product := None)];
    assert Without(items[..i + 1], unread + {i}) == before + skipped;
    assert Without(items[..i + 1], unread) == before + [items[i]];
    assert Without(items, unread) == before + [items[i]] + Without(items, unread)[i + 1..];
    assert skipped[1..] == [] && [items[i]][1..] == [];
    DeductAppend(start, before, skipped, mode, done, []);
    DeductAppend(start, before, [items[i]], mode, done, []);
    DeductAppend(start, before + [items[i]], Without(items, unread)[i + 1..], mode, done, []);
    assert d.warnings + [] == d.warnings;
  }

  lemma WholeIsStored(n: int)
    ensures Stored(n as real) == n
  {
    NearestIsStored(n as real, n);
  }

  lemma {:induction false} AccumulatorsDoNotMatter(shelf: Shelf, items: seq<Item>, mode: Mode,
                                  d1: seq<Movement>, w1: seq<Warning>, d2: seq<Movement>, w2: seq<Warning>)
    ensures DeductFrom(shelf, items, mode, d1, w1).Deducted? == DeductFrom(shelf, items, mode, d2, w2).Deducted?
  {
    hide Moved, Stored;
    if !mode.Disable? && items != [] {
      var l := items[0];
      if l.product.None? || l.product.value !in shelf {
        AccumulatorsDoNotMatter(shelf, items[1..], mode, d1, w1, d2, w2);
      } else {
        var p := l.product.value;
        var m := Movement(p, Stored(-l.quantity), Sale);
        var short := shelf[p] as real < l.quantity;
        var w := Warning(p, shelf[p], l.quantity);
        AccumulatorsDoNotMatter(shelf[p := Moved(shelf[p], -l.quantity)], items[1..], mode,
                                d1 + [m], if short then w1 + [w] else w1, d2 + [m], if short then w2 + [w] else w2);
      }
    }
  }
}
