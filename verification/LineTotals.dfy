/**
 What bill_product stores of a line, its generated columns, and the totals RefreshBillTotals sums from them.

 Stored money is in hundredths, stored quantities are in thousandths and a VAT rate is in hundredths of a
 percent: the scales of the columns. The amounts of a request are decimals of any precision, in the same units,
 so they need not be whole. A DECIMAL column and ROUND keep the nearest unit, halves away from zero. The
 overflow checks of DECIMAL(12,2) are not part of this model.
 */
module LineTotals {
  import opened Options

  type Money = int
  type Quantity = int

  /** The rate every stored line has: the column's default, which no statement overrides. */
  const DEFAULT_VAT: int := 1500

  /** A row of bill_product. */
  datatype Line = Line(product: Option<nat>, name: string, price: Money, quantity: Quantity, discount: Money)

  // ---------------------------------------------------------------- what a column keeps of an amount

  type Amount = real

  /** A line as the request has it. */
  datatype Item = Item(product: Option<nat>, name: string, price: Amount, quantity: Amount, discount: Amount)

  /** What a DECIMAL column or ROUND keeps of an amount: the nearest unit, halves away from zero. */
  function Stored(x: Amount): (n: int)
    ensures -0.5 <= x - n as real <= 0.5
    ensures x - n as real == 0.5 ==> x < 0.0
    ensures x - n as real == -0.5 ==> x > 0.0
  {
    if x >= 0.0 then (x + 0.5).Floor else -(0.5 - x).Floor
  }

  /** The amount has no more decimals than its column. */
  predicate AtColumnScale(x: Amount) { x == x.Floor as real }

  /** The nearest unit is the only one that the column can keep. */
  lemma NearestIsStored(x: Amount, n: int)
    requires -0.5 <= x - n as real <= 0.5
    requires x - n as real == 0.5 ==> x < 0.0
    requires x - n as real == -0.5 ==> x > 0.0
    ensures Stored(x) == n
  {
    hide Stored;
    assert -1.0 <= Stored(x) as real - n as real <= 1.0;
  }

  /** A column stores an amount of its own scale as it is, and no other. */
  lemma StoredExactlyIff(x: Amount)
    ensures Stored(x) as real == x <==> AtColumnScale(x)
  {
    hide Stored;
    if AtColumnScale(x) { NearestIsStored(x, x.Floor); }
  }

  lemma NegatedIsStored(x: Amount)
    ensures Stored(-x) == -Stored(x)
  {
    NearestIsStored(-x, -Stored(x));
  }

  function StoredLine(i: Item): Line { Line(i.product, i.name, Stored(i.price), Stored(i.quantity), Stored(i.discount)) }

  function StoredLines(items: seq<Item>): seq<Line> {
    seq(|items|, k requires 0 <= k < |items| => StoredLine(items[k]))
  }

  // ---------------------------------------------------------------- generated columns and totals

  datatype Totals = Totals(beforeVat: Money, vat: Money, total: Money, discount: Money)

  function TotalBeforeDiscount(l: Line): Money { Stored((l.price * l.quantity) as real / 1000.0) }

  function TotalBeforeVat(l: Line): Money { TotalBeforeDiscount(l) - l.discount }

  function VatTotal(l: Line): Money { Stored((TotalBeforeVat(l) * DEFAULT_VAT) as real / 10000.0) }

  function TotalIncludingVat(l: Line): Money { TotalBeforeVat(l) + VatTotal(l) }

  /** COALESCE(SUM(column), 0) over the lines of a bill. */
  function Sum(column: Line -> Money, lines: seq<Line>): Money {
    if lines == [] then 0 else column(lines[0]) + Sum(column, lines[1..])
  }

  /** RefreshBillTotals. */
  function RefreshedTotals(lines: seq<Line>): Totals {
    Totals(Sum(TotalBeforeVat, lines), Sum(VatTotal, lines), Sum(TotalIncludingVat, lines),
           Sum((l: Line) => l.discount, lines))
  }

  function Magnitude(x: int): nat { if x < 0 then -x else x }

  /**
   The totals of a bill agree with each other exactly, and its VAT is 15% of its total before VAT to
   within half a hundredth for each line: |total_vat - 0.15 * total_before_vat| <= n * 0.005.
   */
  lemma {:induction false} TotalsAgree(lines: seq<Line>)
    ensures
      var t := RefreshedTotals(lines);
      && t.total == t.beforeVat + t.vat
      && t.beforeVat == Sum(TotalBeforeDiscount, lines) - t.discount
      && Magnitude(100 * t.vat - 15 * t.beforeVat) <= 50 * |lines|
  {
    if lines != [] {
      TotalsAgree(lines[1..]);
      OneLineOfVat(lines[0]);
    }
  }

  lemma OneLineOfVat(l: Line)
    ensures Magnitude(100 * VatTotal(l) - 15 * TotalBeforeVat(l)) <= 50
  {
    hide Stored, TotalBeforeVat;
    var exact := (TotalBeforeVat(l) * DEFAULT_VAT) as real / 10000.0;
    assert -0.5 <= exact - VatTotal(l) as real <= 0.5;
  }

  /**
   The amount of a line is price times quantity to the nearest hundredth, halves away from zero; n articles cost n times
   their price exactly.
   */
  lemma AmountIsPriceTimesQuantity(l: Line)
    ensures Magnitude(1000 * TotalBeforeDiscount(l) - l.price * l.quantity) <= 500
    ensures 1000 * TotalBeforeDiscount(l) - l.price * l.quantity == 500 ==> l.price * l.quantity > 0
    ensures 1000 * TotalBeforeDiscount(l) - l.price * l.quantity == -500 ==> l.price * l.quantity < 0
    ensures forall n: int :: l.quantity == 1000 * n ==> TotalBeforeDiscount(l) == l.price * n
  {
    hide Stored;
    var worth := l.price * l.quantity;
    assert -0.5 <= worth as real / 1000.0 - TotalBeforeDiscount(l) as real <= 0.5;
    forall n: int | l.quantity == 1000 * n ensures TotalBeforeDiscount(l) == l.price * n {
      assert worth == 1000 * (l.price * n);
    }
  }

  /**
   The totals of a bill, on the columns of its lines: before VAT the sum of price times quantity less the discounts, to within half
   a hundredth for each line, and with VAT 115% of that, to within 1.075 hundredths for each line.
   */
  lemma {:induction false} TotalsOfTheColumns(lines: seq<Line>)
    ensures
      var t := RefreshedTotals(lines);
      var worth := Sum((l: Line) => l.price * l.quantity, lines);
      && t.discount == Sum((l: Line) => l.discount, lines)
      && Magnitude(1000 * t.beforeVat - (worth - 1000 * t.discount)) <= 500 * |lines|
      && Magnitude(100_000 * t.total - 115 * (worth - 1000 * t.discount)) <= 107_500 * |lines|
  {
    if lines != [] {
      TotalsOfTheColumns(lines[1..]);
      hide TotalBeforeDiscount, VatTotal;
      AmountIsPriceTimesQuantity(lines[0]);
      OneLineOfVat(lines[0]);
    }
  }

  /** The totals of one line are its columns. */
  lemma TotalsOfOne(l: Line)
    ensures RefreshedTotals([l]) == Totals(TotalBeforeVat(l), VatTotal(l), TotalIncludingVat(l), l.discount)
  {
    SumOfOne(TotalBeforeVat, l);
    SumOfOne(VatTotal, l);
    SumOfOne(TotalIncludingVat, l);
    SumOfOne((m: Line) => m.discount, l);
    hide TotalBeforeVat, VatTotal, TotalIncludingVat, Sum;
  }

  lemma SumOfOne(column: Line -> Money, l: Line)
    ensures Sum(column, [l]) == column(l)
  {
    assert [l][1..] == [];
  }

  /** The totals of lines put together are the sums of their totals. */
  lemma TotalsAddUp(a: seq<Line>, b: seq<Line>)
    ensures
      var x, y, t := RefreshedTotals(a), RefreshedTotals(b), RefreshedTotals(a + b);
      t == Totals(x.beforeVat + y.beforeVat, x.vat + y.vat, x.total + y.total, x.discount + y.discount)
  {
    SumConcat(TotalBeforeVat, a, b);
    SumConcat(VatTotal, a, b);
    SumConcat(TotalIncludingVat, a, b);
    SumConcat((l: Line) => l.discount, a, b);
  }

  /** One article at ten hundredths: its 1.5 hundredths of VAT are rounded up to 2. */
  const WORST_LINE := Line(None, "", 10, 1000, 0)

  /** The bound is reached for every number of lines, so no smaller one holds. */
  lemma {:induction false} TotalsBoundIsReached(n: nat)
    ensures
      var t := RefreshedTotals(seq(n, _ => WORST_LINE));
      100 * t.vat - 15 * t.beforeVat == 50 * n
  {
    var lines := seq(n, _ => WORST_LINE);
    if n > 0 {
      TotalsBoundIsReached(n - 1);
      assert lines[1..] == seq(n - 1, _ => WORST_LINE);
      assert TotalBeforeDiscount(WORST_LINE) == 10 && VatTotal(WORST_LINE) == 2;
    }
  }

  lemma {:induction false} SumConcat(column: Line -> Money, a: seq<Line>, b: seq<Line>)
    ensures Sum(column, a + b) == Sum(column, a) + Sum(column, b)
  {
    if a == [] {
      assert a + b == b;
    } else {
      assert (a + b)[1..] == a[1..] + b;
      SumConcat(column, a[1..], b);
    }
  }
}
