/**
 * The stock and order helpers of the utilities module: available stock, the
 * stock badge, the order total and the order-id generator.
 */
module Stock {

  import opened Wrappers
  import Text
  import opened Payloads

  /** The two counters `availableStock` reads from a variant. */
  datatype StockLevels = StockLevels(stock: int, reserved: int)

  /** `availableStock`: stock minus reserved, not clamped at zero. */
  function AvailableStock(v: StockLevels): (a: int)
    ensures a + v.reserved == v.stock
    ensures a < 0 <==> v.reserved > v.stock
  {
    v.stock - v.reserved
  }

  datatype StockBadge = StockBadge(text: string, color: string)

  const Red: string := "#DC2626"
  const Amber: string := "#D97706"
  const Green: string := "#059669"

  /** The "`n` un." label of a non-empty stock badge. */
  function UnitsLabel(n: int): string {
    Text.IntToDecimal(n) + " un."
  }

  /** Reads the count back out of a "`n` un." label. */
  function ParseUnitsLabel(l: string): Option<int> {
    if |l| >= 4 && l[|l| - 4..] == " un." then Text.ParseInt(l[..|l| - 4]) else None
  }

  lemma UnitsLabelRoundTrip(n: int)
    ensures ParseUnitsLabel(UnitsLabel(n)) == Some(n)
    ensures UnitsLabel(n) != "Agotado"
  {
    var d := Text.IntToDecimal(n);
    assert UnitsLabel(n)[..|UnitsLabel(n)| - 4] == d;
    Text.IntToDecimalRoundTrip(n);
    assert d[0] == '-' || Text.IsDigit(d[0]);
    assert UnitsLabel(n)[0] == d[0];
  }

  /** `stockStatus`: "Agotado" in red at zero, the count in amber up to three
      (negative counts included), the count in green above three. */
  function StockStatus(v: StockLevels): (r: StockBadge)
    ensures r.text == "Agotado" <==> AvailableStock(v) == 0
    ensures AvailableStock(v) != 0 ==> ParseUnitsLabel(r.text) == Some(AvailableStock(v))
    ensures r.color == Red <==> AvailableStock(v) == 0
    ensures r.color == Amber <==> AvailableStock(v) != 0 && AvailableStock(v) <= 3
    ensures r.color == Green <==> AvailableStock(v) > 3
  {
    var avail := AvailableStock(v);
    UnitsLabelRoundTrip(avail);
    if avail == 0 then StockBadge("Agotado", Red)
    else if avail <= 3 then StockBadge(UnitsLabel(avail), Amber)
    else StockBadge(UnitsLabel(avail), Green)
  }

  /** The amount one cart line contributes. */
  function Subtotal(l: Line): int {
    l.price * l.quantity
  }

  /** Multiplication distributes over addition; the solver needs this instance named. */
  lemma MulDistributes(a: int, b: int, c: int)
    ensures a * (b + c) == a * b + a * c
  {
  }

  /** `calcOrderTotal`: the left-to-right sum of price times quantity. */
  function CalcOrderTotal(items: seq<Line>): (r: int)
    ensures items == [] ==> r == 0
    ensures |items| == 1 ==> r == Subtotal(items[0])
    decreases |items|
  {
    if items == [] then 0
    else CalcOrderTotal(items[..|items| - 1]) + Subtotal(items[|items| - 1])
  }

  /** A cart of non-negative prices and quantities has a non-negative total. */
  lemma {:induction false} TotalNonNegative(items: seq<Line>)
    requires forall i :: 0 <= i < |items| ==> items[i].price >= 0 && items[i].quantity >= 0
    ensures CalcOrderTotal(items) >= 0
    decreases |items|
  {
    if items != [] {
      TotalNonNegative(items[..|items| - 1]);
    }
  }

  /** The total of a concatenation is the sum of the totals. */
  lemma {:induction false} TotalAppend(a: seq<Line>, b: seq<Line>)
    ensures CalcOrderTotal(a + b) == CalcOrderTotal(a) + CalcOrderTotal(b)
    decreases |b|
  {
    if b == [] {
      assert a + b == a;
    } else {
      var c := b[..|b| - 1];
      assert (a + b)[..|a + b| - 1] == a + c;
      assert (a + b)[|a + b| - 1] == b[|b| - 1];
      TotalAppend(a, c);
    }
  }

  /** Replacing one line changes the total by the difference of the two subtotals. */
  lemma TotalUpdate(items: seq<Line>, i: int, l: Line)
    requires 0 <= i < |items|
    ensures CalcOrderTotal(items[i := l]) == CalcOrderTotal(items) - Subtotal(items[i]) + Subtotal(l)
  {
    var pre, post := items[..i], items[i + 1..];
    assert items == pre + [items[i]] + post;
    assert items[i := l] == pre + [l] + post;
    TotalAppend(pre + [items[i]], post);
    TotalAppend(pre, [items[i]]);
    TotalAppend(pre + [l], post);
    TotalAppend(pre, [l]);
    assert CalcOrderTotal([l]) == Subtotal(l) by {
      assert [l][..0] == [];
    }
    assert CalcOrderTotal([items[i]]) == Subtotal(items[i]) by {
      assert [items[i]][..0] == [];
    }
  }

  /** `generateOrderId`: "ORD-" and the decimal count, zero-padded to three characters. */
  function GenerateOrderId(count: int): (r: string)
    ensures |r| >= 7 && r[..4] == "ORD-" && |r| >= 4 + |Text.IntToDecimal(count)|
    ensures r[|r| - |Text.IntToDecimal(count)|..] == Text.IntToDecimal(count)
    ensures forall i :: 4 <= i < |r| - |Text.IntToDecimal(count)| ==> r[i] == '0'
  {
    "ORD-" + Text.PadStart(Text.IntToDecimal(count), 3, '0')
  }

  /** Reads the count back out of an order id. */
  function ParseOrderId(id: string): Option<nat> {
    if |id| > 4 && id[..4] == "ORD-" && Text.AllDigits(id[4..]) then Some(Text.DigitsValue(id[4..])) else None
  }

  /** Every non-negative count is recovered from its id. */
  lemma OrderIdRoundTrip(count: nat)
    ensures ParseOrderId(GenerateOrderId(count)) == Some(count)
  {
    var d := Text.NatToDecimal(count);
    var r := GenerateOrderId(count);
    var z := r[4..|r| - |d|];
    assert r[4..] == z + d;
    Text.LeadingZerosValue(z, d);
    Text.NatToDecimalRoundTrip(count);
  }

  /** Distinct non-negative counts give distinct ids. */
  lemma OrderIdInjective(a: nat, b: nat)
    requires GenerateOrderId(a) == GenerateOrderId(b)
    ensures a == b
  {
    OrderIdRoundTrip(a);
    OrderIdRoundTrip(b);
  }

  /** An id is exactly seven characters long precisely for counts 0 to 999. */
  lemma OrderIdLength(count: nat)
    ensures |GenerateOrderId(count)| == 7 <==> count < 1000
  {
    Text.NatToDecimalShort(count);
  }

  /** A negative count keeps its minus sign inside the id, so the id is not "ORD-" and digits. */
  lemma NegativeOrderId(count: int)
    requires count < 0
    ensures ParseOrderId(GenerateOrderId(count)) == None
  {
    var d := Text.IntToDecimal(count);
    var r := GenerateOrderId(count);
    assert r[|r| - |d|] == d[0] == '-';
    assert !Text.IsDigit(r[4..][|r| - |d| - 4]);
  }
}
