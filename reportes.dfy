/**
 * The reports page: the guards that keep "NaN" off the cards, the zero-filled
 * week and day ranges the charts fall back to, the chart totals, the top-products
 * pagination, the low-stock card and the pending-order count. Dates are whole
 * day numbers.
 */
module Reportes {

  import opened Wrappers
  import opened Payloads
  import Text
  import Js
  import Stock
  import Store
  import Pedidos

  /** A numeric field as it may arrive: JSON's null, a missing field, a number that
      is NaN, or an (integer) number. */
  datatype NumInput = Null | Undefined | NaN | Number(n: int)

  /** A value a card may be given: a numeric input or a text. */
  datatype Value = Plain(x: NumInput) | Text(s: string)

  /** `safeNum`: 0 for null, undefined and NaN, else the number. */
  function SafeNum(x: NumInput): (r: int)
    ensures x.Number? ==> r == x.n
    ensures !x.Number? ==> r == 0
  {
    if x.Number? then x.n else 0
  }

  /** `safeDisplay`: never one of the three placeholder words. */
  function SafeDisplay(x: Value): (r: string)
    ensures r != "NaN" && r != "undefined" && r != "null"
    ensures x.Plain? && !x.x.Number? ==> r == "0"
    ensures x.Plain? && x.x.Number? ==> r == Text.IntToDecimal(x.x.n)
    ensures x.Text? && x.s != "NaN" && x.s != "undefined" && x.s != "null" ==> r == x.s
    ensures x.Text? && (x.s == "NaN" || x.s == "undefined" || x.s == "null") ==> r == "0"
  {
    if x.Plain? && !x.x.Number? then "0"
    else if x.Plain? then
      // `String(n)` of a number is a numeral, which the placeholder test never catches.
      DecimalIsNoPlaceholder(x.x.n);
      Text.IntToDecimal(x.x.n)
    else if x.s == "NaN" || x.s == "undefined" || x.s == "null" then "0"
    else x.s
  }

  /** A decimal numeral is never one of the placeholder words. */
  lemma DecimalIsNoPlaceholder(n: int)
    ensures Text.IntToDecimal(n) != "NaN" && Text.IntToDecimal(n) != "undefined" && Text.IntToDecimal(n) != "null"
  {
    Text.IntToDecimalRoundTrip(n);
    assert "NaN"[0] == 'N' && "undefined"[0] == 'u' && "null"[0] == 'n';
    assert Text.ParseInt("NaN") == None;
    assert Text.ParseInt("undefined") == None;
    assert Text.ParseInt("null") == None;
  }

  /** Displaying a displayed value again changes nothing. */
  lemma SafeDisplayIdempotent(x: Value)
    ensures SafeDisplay(Text(SafeDisplay(x))) == SafeDisplay(x)
  {
  }

  /** A shown number reads back as the number that was shown. */
  lemma SafeDisplayNumberRoundTrip(n: int)
    ensures Text.ParseInt(SafeDisplay(Plain(Number(n)))) == Some(n)
  {
    Text.IntToDecimalRoundTrip(n);
  }

  /** One zero-filled bar of a generated range. */
  datatype Period = Period(day: int, totalAmount: int, orderCount: int)

  /** The reference for the generated ranges: from `start`, every `step` days while
      the day is at most `to`, at most `limit` entries, all with zero totals. */
  function Stepped(start: int, to: int, step: nat, limit: nat): (r: seq<Period>)
    ensures |r| <= limit
    decreases limit
  {
    if limit == 0 || start > to then []
    else [Period(start, 0, 0)] + Stepped(start + step, to, step, limit - 1)
  }

  /** Entry `k` of a generated range is day `start + k * step`, never after `to`,
      with zero totals; a range whose start is after its end is empty. */
  lemma {:induction false} SteppedShape(start: int, to: int, step: nat, limit: nat)
    ensures start > to ==> Stepped(start, to, step, limit) == []
    ensures limit > 0 && start <= to ==> |Stepped(start, to, step, limit)| > 0
    ensures forall k :: 0 <= k < |Stepped(start, to, step, limit)| ==> Stepped(start, to, step, limit)[k] == Period(start + k * step, 0, 0)
    ensures forall k :: 0 <= k < |Stepped(start, to, step, limit)| ==> Stepped(start, to, step, limit)[k].day <= to
    decreases limit
  {
    var r := Stepped(start, to, step, limit);
    if limit > 0 && start <= to {
      var rest := Stepped(start + step, to, step, limit - 1);
      SteppedShape(start + step, to, step, limit - 1);
      assert r == [Period(start, 0, 0)] + rest;
      forall k | 0 <= k < |r| ensures r[k] == Period(start + k * step, 0, 0) && r[k].day <= to {
        if k > 0 {
          assert r[k] == rest[k - 1];
          assert start + step + (k - 1) * step == start + k * step;
        }
      }
    }
  }

  /** A range with a positive step stops only at the limit or past the end: it holds
      every day from `start` to `to` on the step, up to `limit` of them. */
  lemma {:induction false} SteppedComplete(start: int, to: int, step: nat, limit: nat)
    requires step > 0
    ensures |Stepped(start, to, step, limit)| < limit ==>
      start + |Stepped(start, to, step, limit)| * step > to
    decreases limit
  {
    var r := Stepped(start, to, step, limit);
    if limit > 0 && start <= to {
      SteppedComplete(start + step, to, step, limit - 1);
      assert start + step + (|r| - 1) * step == start + |r| * step;
    }
  }

  /** One loop step: emitting the current day moves it from the pending range to the output. */
  lemma SteppedStep(out: seq<Period>, d: int, to: int, step: nat, limit: nat)
    requires d <= to && limit > 0
    ensures out + Stepped(d, to, step, limit) == (out + [Period(d, 0, 0)]) + Stepped(d + step, to, step, limit - 1)
  {
    var rest := Stepped(d + step, to, step, limit - 1);
    assert Stepped(d, to, step, limit) == [Period(d, 0, 0)] + rest;
    assert out + ([Period(d, 0, 0)] + rest) == (out + [Period(d, 0, 0)]) + rest;
  }

  /** `weeksBetween`: empty when a bound is missing, else weekly from `from`, at most 53. */
  method WeeksBetween(from: Option<int>, to: Option<int>) returns (out: seq<Period>)
    ensures from.None? || to.None? ==> out == []
    ensures from.Some? && to.Some? ==> out == Stepped(from.value, to.value, 7, 53)
    ensures |out| <= 53
  {
    if from.None? || to.None? {
      return [];
    }
    out := [];
    var d := from.value;
    while d <= to.value && |out| < 53
      invariant |out| <= 53
      invariant out + Stepped(d, to.value, 7, 53 - |out|) == Stepped(from.value, to.value, 7, 53)
      decreases 53 - |out|
    {
      SteppedStep(out, d, to.value, 7, 53 - |out|);
      out := out + [Period(d, 0, 0)];
      d := d + 7;
    }
    assert Stepped(d, to.value, 7, 53 - |out|) == [];
  }

  /** `daysBetween`: empty when a bound is missing, else daily from `from`, at most 366. */
  method DaysBetween(from: Option<int>, to: Option<int>) returns (out: seq<Period>)
    ensures from.None? || to.None? ==> out == []
    ensures from.Some? && to.Some? ==> out == Stepped(from.value, to.value, 1, 366)
    ensures |out| <= 366
  {
    if from.None? || to.None? {
      return [];
    }
    out := [];
    var d := from.value;
    var n := 0;
    while n < 366 && d <= to.value
      invariant n == |out| <= 366
      invariant out + Stepped(d, to.value, 1, 366 - n) == Stepped(from.value, to.value, 1, 366)
      decreases 366 - n
    {
      SteppedStep(out, d, to.value, 1, 366 - n);
      out := out + [Period(d, 0, 0)];
      d := d + 1;
      n := n + 1;
    }
    assert Stepped(d, to.value, 1, 366 - n) == [];
  }

  /** A bar row as the range report sends it (or as a generated period becomes). */
  datatype Row = Row(totalAmount: NumInput, orderCount: NumInput)

  /** The range report's totals and weekly rows. */
  datatype RangeData = RangeData(byWeek: Option<seq<Row>>, totalAmount: NumInput, totalOrders: NumInput)

  function PeriodRows(ps: seq<Period>): (r: seq<Row>)
    ensures |r| == |ps|
    ensures forall i :: 0 <= i < |ps| ==> r[i] == Row(Number(ps[i].totalAmount), Number(ps[i].orderCount))
  {
    seq(|ps|, i requires 0 <= i < |ps| => Row(Number(ps[i].totalAmount), Number(ps[i].orderCount)))
  }

  /** `rangeData?.byWeek || []`. */
  function ApiWeeks(data: Option<RangeData>): seq<Row> {
    if data.Some? && data.value.byWeek.Some? then data.value.byWeek.value else []
  }

  /** The rows the range chart draws: the report's weeks when there are any, else
      the generated zero weeks. */
  function ChartRows(data: Option<RangeData>, generated: seq<Period>): (r: seq<Row>)
    ensures |ApiWeeks(data)| > 0 ==> r == ApiWeeks(data)
    ensures |ApiWeeks(data)| == 0 ==> r == PeriodRows(generated)
  {
    if |ApiWeeks(data)| > 0 then ApiWeeks(data) else PeriodRows(generated)
  }

  /** The amount of a bar: `safeNum(w.totalAmount)`. */
  function BarAmount(w: Row): int {
    SafeNum(w.totalAmount)
  }

  /** `bars.reduce((s, b) => s + b.amount, 0)`. */
  function SumAmounts(rows: seq<Row>): int
    decreases |rows|
  {
    if rows == [] then 0 else SumAmounts(rows[..|rows| - 1]) + BarAmount(rows[|rows| - 1])
  }

  /** Zero-filled rows add up to zero. */
  lemma {:induction false} GeneratedSumZero(ps: seq<Period>)
    requires forall i :: 0 <= i < |ps| ==> ps[i].totalAmount == 0
    ensures SumAmounts(PeriodRows(ps)) == 0
    decreases |ps|
  {
    if ps != [] {
      var init := ps[..|ps| - 1];
      GeneratedSumZero(init);
      assert PeriodRows(ps)[..|ps| - 1] == PeriodRows(init);
    }
  }

  /** The range total: the report's `totalAmount` when it is a non-zero number,
      else the sum of the bars. */
  function RangeTotal(data: Option<RangeData>, generated: seq<Period>): (r: int)
    ensures data.Some? && data.value.totalAmount.Number? && data.value.totalAmount.n != 0 ==>
      r == data.value.totalAmount.n
    ensures (data.None? || !data.value.totalAmount.Number? || data.value.totalAmount.n == 0) ==>
      r == SumAmounts(ChartRows(data, generated))
  {
    var server := if data.Some? then SafeNum(data.value.totalAmount) else 0;
    if server != 0 then server else SumAmounts(ChartRows(data, generated))
  }

  /** With no weekly rows from the report and only generated weeks, the total is the
      report's own figure or 0. */
  lemma RangeTotalWithoutWeeks(data: Option<RangeData>, from: int, to: int)
    requires |ApiWeeks(data)| == 0
    ensures RangeTotal(data, Stepped(from, to, 7, 53)) ==
      if data.Some? && data.value.totalAmount.Number? then data.value.totalAmount.n else 0
  {
    var g := Stepped(from, to, 7, 53);
    SteppedShape(from, to, 7, 53);
    GeneratedSumZero(g);
  }

  /** The rank shown next to the first product of a page: `page * (pageSize || 10) + 1`. */
  function RankStart(page: NumInput, pageSize: NumInput): (r: int)
    ensures !pageSize.Number? || pageSize.n == 0 ==> r == SafeNum(page) * 10 + 1
    ensures pageSize.Number? && pageSize.n != 0 ==> r == SafeNum(page) * pageSize.n + 1
  {
    var size := SafeNum(pageSize);
    SafeNum(page) * (if size != 0 then size else 10) + 1
  }

  /** Consecutive pages continue the numbering where the previous page stopped. */
  lemma RanksContiguous(page: int, size: int)
    requires size > 0
    ensures RankStart(Number(page + 1), Number(size)) == RankStart(Number(page), Number(size)) + size
    ensures RankStart(Number(0), Number(size)) == 1
  {
    Stock.MulDistributes(size, page, 1);
  }

  /** "Anterior" is disabled on the first page and before it. */
  predicate PrevDisabled(pageIndex: int) {
    pageIndex <= 0
  }

  /** "Siguiente" is disabled on the last page and after it. */
  predicate NextDisabled(pageIndex: int, totalPages: int) {
    pageIndex >= totalPages - 1
  }

  /** The controls appear only when there is more than one page. */
  predicate ShowControls(totalPages: int) {
    totalPages > 1
  }

  /** Whenever the controls show on a page in range, at least one button works, and
      moving by an enabled button stays in range. */
  lemma PagingStaysInRange(pageIndex: int, totalPages: int)
    requires ShowControls(totalPages) && 0 <= pageIndex < totalPages
    ensures !(PrevDisabled(pageIndex) && NextDisabled(pageIndex, totalPages))
    ensures !PrevDisabled(pageIndex) ==> 0 <= pageIndex - 1 < totalPages
    ensures !NextDisabled(pageIndex, totalPages) ==> 0 <= pageIndex + 1 < totalPages
  {
  }

  /** A balance the low-stock card lists: stock minus reserved at most 3. */
  predicate IsLowStock(b: Balance) {
    Store.StockOf(b) - Store.ReservedOf(b) <= 3
  }

  /** `balances.filter(...)` of the low-stock card. */
  function LowStockBalances(balances: seq<Balance>): (r: seq<Balance>)
    ensures |r| <= |balances|
    ensures forall b :: b in r <==> b in balances && IsLowStock(b)
    ensures forall b :: multiset(r)[b] == if IsLowStock(b) then multiset(balances)[b] else 0
    ensures |balances| == 1 ==> r == if IsLowStock(balances[0]) then balances else []
    decreases |balances|
  {
    if balances == [] then []
    else
      var rest := LowStockBalances(balances[..|balances| - 1]);
      var last := balances[|balances| - 1];
      assert balances == balances[..|balances| - 1] + [last];
      if IsLowStock(last) then rest + [last] else rest
  }

  /** The "Variantes Bajo Stock" card. */
  function LowStockCount(balances: seq<Balance>): (r: nat)
    ensures r <= |balances|
    ensures |balances| == 1 ==> (r == 1 <==> IsLowStock(balances[0]))
    ensures |balances| == 1 ==> (r == 0 <==> !IsLowStock(balances[0]))
  {
    |LowStockBalances(balances)|
  }

  /** The low-stock rule is the utilities' availability at most 3. */
  lemma LowStockIsAvailabilityAtMostThree(b: Balance)
    ensures IsLowStock(b) <==> Stock.AvailableStock(Stock.StockLevels(Store.StockOf(b), Store.ReservedOf(b))) <= 3
  {
  }

  /** The filter keeps order over a split balance list: the low-stock balances of
      `a + b` are those of `a` followed by those of `b`. */
  lemma {:induction false} LowStockAppend(a: seq<Balance>, b: seq<Balance>)
    ensures LowStockBalances(a + b) == LowStockBalances(a) + LowStockBalances(b)
    decreases |b|
  {
    if b == [] {
      assert a + b == a;
    } else {
      var init := b[..|b| - 1];
      assert (a + b)[..|a + b| - 1] == a + init;
      assert (a + b)[|a + b| - 1] == b[|b| - 1];
      LowStockAppend(a, init);
    }
  }

  /** The count adds up over a split balance list. */
  lemma LowStockCountAppend(a: seq<Balance>, b: seq<Balance>)
    ensures LowStockCount(a + b) == LowStockCount(a) + LowStockCount(b)
  {
    LowStockAppend(a, b);
  }

  /** A row of the low-stock list. */
  datatype LowRow = LowRow(text: string, stock: int, reserved: int, avail: int, status: string, color: string)

  /** `b.variant?.label`. */
  function NestedLabel(b: Balance): Option<string> {
    if b.variant.Some? then b.variant.value.labelText else None
  }

  /** `b.variantId ?? b.id ?? ""` as a template literal writes it. */
  function RowIdText(b: Balance): string {
    if b.variantId.Some? then IdString(b.variantId.value)
    else if b.id.Some? then IdString(b.id.value) else ""
  }

  /** The row's label: sku, else label, else the nested variant's label, else
      "Variante" and the id. */
  function LowRowLabel(b: Balance): (r: string)
    ensures r != ""
    ensures Js.Truthy(b.variantSku) ==> r == b.variantSku.value
    ensures !Js.Truthy(b.variantSku) && Js.Truthy(b.variantLabel) ==> r == b.variantLabel.value
    ensures !Js.Truthy(b.variantSku) && !Js.Truthy(b.variantLabel) && Js.Truthy(NestedLabel(b)) ==> r == NestedLabel(b).value
    ensures !Js.Truthy(b.variantSku) && !Js.Truthy(b.variantLabel) && !Js.Truthy(NestedLabel(b)) ==>
      r == "Variante " + RowIdText(b)
  {
    Js.Or(Js.OrElse(Js.OrElse(b.variantSku, b.variantLabel), NestedLabel(b)), "Variante " + RowIdText(b))
  }

  /** One row of the low-stock card; the label is shown through `safeDisplay`. */
  function LowStockRow(b: Balance): (r: LowRow)
    ensures r.stock == Store.StockOf(b) && r.reserved == Store.ReservedOf(b)
    ensures LowRowLabel(b) !in {"NaN", "undefined", "null"} ==> r.text == LowRowLabel(b)
    ensures LowRowLabel(b) in {"NaN", "undefined", "null"} ==> r.text == "0"
    ensures r.avail >= 0
    ensures r.avail == if Store.StockOf(b) > Store.ReservedOf(b) then Store.StockOf(b) - Store.ReservedOf(b) else 0
    ensures r.status == "Agotado" <==> r.avail == 0
    ensures r.status != "Agotado" ==> r.status == "Bajo stock"
    ensures r.color == (if r.avail == 0 then Stock.Red else Stock.Amber)
  {
    var stock, reserved := Store.StockOf(b), Store.ReservedOf(b);
    var avail := if stock - reserved > 0 then stock - reserved else 0;
    LowRow(SafeDisplay(Text(LowRowLabel(b))), stock, reserved, avail,
      if avail == 0 then "Agotado" else "Bajo stock",
      if avail == 0 then Stock.Red else Stock.Amber)
  }

  /** The listed rows: one per low-stock balance, in order. */
  function LowStockRows(balances: seq<Balance>): (r: seq<LowRow>)
    ensures |r| == LowStockCount(balances)
    ensures forall i :: 0 <= i < |r| ==> r[i] == LowStockRow(LowStockBalances(balances)[i])
  {
    var low := LowStockBalances(balances);
    seq(|low|, i requires 0 <= i < |low| => LowStockRow(low[i]))
  }

  /** Every listed row shows between 0 and 3 available units, and "Agotado" exactly
      when the reservations cover the stock. */
  lemma LowStockRowsBounded(balances: seq<Balance>)
    ensures forall i :: 0 <= i < |LowStockRows(balances)| ==> 0 <= LowStockRows(balances)[i].avail <= 3
    ensures forall i :: 0 <= i < |LowStockRows(balances)| ==>
      (LowStockRows(balances)[i].status == "Agotado" <==>
       Store.StockOf(LowStockBalances(balances)[i]) <= Store.ReservedOf(LowStockBalances(balances)[i]))
  {
    var low := LowStockBalances(balances);
    forall i | 0 <= i < |low| ensures IsLowStock(low[i]) {
      assert low[i] in low;
    }
  }

  /** The card clamps at zero, while the utilities' badge shows the negative count:
      2 in stock and 5 reserved read "Agotado" here and "-3 un." there. */
  lemma OverReservedRowDiffersFromBadge()
    ensures LowStockRow(Balance(None, None, None, Some(2), None, Some(5), None, None, None)).status == "Agotado"
    ensures Stock.StockStatus(Stock.StockLevels(2, 5)).text == "-3 un."
  {
  }

  /** `(o.state || o.status) === "PENDING"`. */
  predicate IsPending(o: RawOrder) {
    Js.Or(o.state, o.status.GetOr("")) == "PENDING"
  }

  /** `orders.filter(...).length` of the "Pedidos Pendientes" card. */
  function PendingCount(orders: seq<RawOrder>): (r: nat)
    ensures r <= |orders|
    ensures r == 0 <==> forall i :: 0 <= i < |orders| ==> !IsPending(orders[i])
    ensures r == |orders| <==> forall i :: 0 <= i < |orders| ==> IsPending(orders[i])
    ensures |orders| == 1 ==> (r == 1 <==> IsPending(orders[0]))
    decreases |orders|
  {
    if orders == [] then 0
    else PendingCount(orders[1..]) + (if IsPending(orders[0]) then 1 else 0)
  }

  /** The count adds up over a split order list. */
  lemma {:induction false} PendingCountAppend(a: seq<RawOrder>, b: seq<RawOrder>)
    ensures PendingCount(a + b) == PendingCount(a) + PendingCount(b)
    decreases |a|
  {
    if a == [] {
      assert a + b == b;
    } else {
      assert (a + b)[0] == a[0];
      assert (a + b)[1..] == a[1..] + b;
      PendingCountAppend(a[1..], b);
    }
  }

  /** A counted order is shown as PENDING by the orders page too; the converse fails
      for an order with neither field, which that page defaults to PENDING. */
  lemma PendingAgreesWithOrdersPage(o: RawOrder)
    ensures IsPending(o) ==> Pedidos.NormaliseOrder(Some(o)).value.state == "PENDING"
    ensures !Js.Truthy(o.state) && !Js.Truthy(o.status) ==>
      !IsPending(o) && Pedidos.NormaliseOrder(Some(o)).value.state == "PENDING"
  {
  }
}
