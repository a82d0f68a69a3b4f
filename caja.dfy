/**
 * The cash-desk page: the inventory table (search, per-variant price, size,
 * colour and availability), the manual stock adjustment dialog, and the
 * direct-sale panel that looks a variant up by code, builds a sale list and
 * turns it into negative stock adjustments.
 */
module Caja {

  import opened Wrappers
  import opened Payloads
  import Text
  import Js
  import Stock
  import Store
  import Cart
  import CreateOrder

  /** `v.attributes?.price`. */
  function AttrPrice(v: Variant): Option<int> {
    if v.attributes.Some? then v.attributes.value.price else None
  }

  /** `v.attributes?.unitPrice`. */
  function AttrUnitPrice(v: Variant): Option<int> {
    if v.attributes.Some? then v.attributes.value.unitPrice else None
  }

  /** `variantPrice`: the first present of price, unitPrice, attributes.price,
      attributes.unitPrice, else 0. */
  function VariantPrice(v: Variant): (r: int)
    ensures v.price.Some? ==> r == v.price.value
    ensures v.price.None? && v.unitPrice.Some? ==> r == v.unitPrice.value
    ensures v.price.None? && v.unitPrice.None? && AttrPrice(v).Some? ==> r == AttrPrice(v).value
    ensures v.price.None? && v.unitPrice.None? && AttrPrice(v).None? && AttrUnitPrice(v).Some? ==> r == AttrUnitPrice(v).value
    ensures v.price.None? && v.unitPrice.None? && AttrPrice(v).None? && AttrUnitPrice(v).None? ==> r == 0
  {
    v.price.OrOption(v.unitPrice).OrOption(AttrPrice(v)).OrOption(AttrUnitPrice(v)).GetOr(0)
  }

  /** The cash desk and the order form price a variant alike when it carries a
      top-level price; only the cash desk looks inside `attributes`. */
  lemma PriceAgreesWithOrderForm(v: Variant)
    ensures v.price.Some? || v.unitPrice.Some? ==> VariantPrice(v) == CreateOrder.LinePrice(v)
    ensures v.price.None? && v.unitPrice.None? ==> CreateOrder.LinePrice(v) == 0
  {
  }

  /** `v.attributes?.size`. */
  function AttrSize(v: Variant): Option<string> {
    if v.attributes.Some? then v.attributes.value.size else None
  }

  /** `v.attributes?.talla`. */
  function AttrTalla(v: Variant): Option<string> {
    if v.attributes.Some? then v.attributes.value.talla else None
  }

  /** `variantTalla`: size, talla, attributes.size, attributes.talla, else "—". */
  function VariantTalla(v: Variant): (r: string)
    ensures v.size.Some? ==> r == v.size.value
    ensures v.size.None? && v.talla.Some? ==> r == v.talla.value
    ensures v.size.None? && v.talla.None? && AttrSize(v).Some? ==> r == AttrSize(v).value
    ensures v.size.None? && v.talla.None? && AttrSize(v).None? && AttrTalla(v).Some? ==> r == AttrTalla(v).value
    ensures v.size.None? && v.talla.None? && AttrSize(v).None? && AttrTalla(v).None? ==> r == "—"
  {
    v.size.OrOption(v.talla).OrOption(AttrSize(v)).OrOption(AttrTalla(v)).GetOr("—")
  }

  /** `variantColor`: color, attributes.color, else "—". */
  function VariantColor(v: Variant): (r: string)
    ensures v.color.Some? ==> r == v.color.value
    ensures v.color.None? && (v.attributes.None? || v.attributes.value.color.None?) ==> r == "—"
    ensures v.color.None? && v.attributes.Some? && v.attributes.value.color.Some? ==> r == v.attributes.value.color.value
  {
    var a := if v.attributes.Some? then v.attributes.value.color else None;
    v.color.OrOption(a).GetOr("—")
  }

  /** The search rule of the inventory table. */
  predicate Keeps(p: Product, query: string) {
    Text.Contains(Text.ToLower(p.name), Text.ToLower(query)) || Text.Contains(IdString(p.id), query)
  }

  /** `products.filter(...)` with that rule. */
  function SearchProducts(products: seq<Product>, query: string): (r: seq<Product>)
    ensures |r| <= |products|
    ensures forall p :: p in r <==> p in products && Keeps(p, query)
    decreases |products|
  {
    if products == [] then []
    else (if Keeps(products[0], query) then [products[0]] else []) + SearchProducts(products[1..], query)
  }

  /** The search keeps the list order: it distributes over concatenation. */
  lemma {:induction false} SearchAppend(a: seq<Product>, b: seq<Product>, query: string)
    ensures SearchProducts(a + b, query) == SearchProducts(a, query) + SearchProducts(b, query)
    decreases |a|
  {
    if a != [] {
      assert (a + b)[1..] == a[1..] + b;
      SearchAppend(a[1..], b, query);
    } else {
      assert a + b == b;
    }
  }

  /** An empty query keeps every product. */
  lemma {:induction false} SearchEmptyKeepsAll(products: seq<Product>)
    ensures SearchProducts(products, "") == products
    decreases |products|
  {
    if products != [] {
      Text.ContainsEmpty(IdString(products[0].id));
      SearchEmptyKeepsAll(products[1..]);
    }
  }

  /** `stockColor`. */
  function StockColor(avail: int): (r: string)
    ensures r == Stock.Red <==> avail == 0
    ensures r == Stock.Amber <==> avail != 0 && avail <= 3
    ensures r == Stock.Green <==> avail > 3
  {
    if avail == 0 then Stock.Red else if avail <= 3 then Stock.Amber else Stock.Green
  }

  /** The table's colour is the badge colour of the utilities module. */
  lemma StockColorAgrees(levels: Stock.StockLevels)
    ensures StockColor(Stock.AvailableStock(levels)) == Stock.StockStatus(levels).color
  {
  }

  /** The availability cell: "Agotado" at zero, the number otherwise. */
  function AvailCell(avail: int): (r: string)
    ensures r == "Agotado" <==> avail == 0
    ensures avail != 0 ==> Text.ParseInt(r) == Some(avail)
  {
    Text.IntToDecimalRoundTrip(avail);
    var d := Text.IntToDecimal(avail);
    assert d[0] == '-' || Text.IsDigit(d[0]);
    if avail == 0 then "Agotado" else d
  }

  /** `String(b.variantId ?? b.variant?.id ?? b.id)`: the inventory table's balance key. */
  function BalanceKey(b: Balance): string {
    OptIdString(b.variantId.OrOption(NestedVariantId(b)).OrOption(b.id))
  }

  /** The inventory table's own balance lookup (not the store's). */
  function TableBalance(balances: seq<Balance>, id: Id): (r: Option<Balance>)
    ensures r.None? <==> forall i :: 0 <= i < |balances| ==> BalanceKey(balances[i]) != IdString(id)
    ensures r.Some? ==> r.value in balances && BalanceKey(r.value) == IdString(id)
  {
    Js.FindByKey(balances, BalanceKey, IdString(id))
  }

  /** The balance found is the first one whose key reads as the id, as `find` returns it. */
  lemma TableBalanceFirst(balances: seq<Balance>, id: Id, k: int)
    requires 0 <= k < |balances| && BalanceKey(balances[k]) == IdString(id)
    requires forall j :: 0 <= j < k ==> BalanceKey(balances[j]) != IdString(id)
    ensures TableBalance(balances, id) == Some(balances[k])
  {
    Js.FindByKeyFirst(balances, BalanceKey, IdString(id), k);
  }

  /** The stock, reserved and available figures of one table row. */
  datatype RowFigures = RowFigures(stock: int, reserved: int, avail: int)

  /** `bal?.stock ?? bal?.quantity`. */
  function BalStock(bal: Option<Balance>): Option<int> {
    if bal.Some? then bal.value.stock.OrOption(bal.value.quantity) else None
  }

  /** `bal?.reserved ?? bal?.reservedQty`. */
  function BalReserved(bal: Option<Balance>): Option<int> {
    if bal.Some? then bal.value.reserved.OrOption(bal.value.reservedQty) else None
  }

  /** A row's figures: the balance's counters, else the variant's own, else 0;
      available is their difference, unclamped. */
  function RowStock(balances: seq<Balance>, v: Variant): (r: RowFigures)
    ensures r.avail == r.stock - r.reserved
    ensures var bal := TableBalance(balances, v.id);
      (BalStock(bal).Some? ==> r.stock == Store.StockOf(bal.value)) &&
      (BalStock(bal).None? ==> r.stock == v.stock.GetOr(0)) &&
      (BalReserved(bal).Some? ==> r.reserved == Store.ReservedOf(bal.value)) &&
      (BalReserved(bal).None? ==> r.reserved == v.reserved.GetOr(0))
  {
    var bal := TableBalance(balances, v.id);
    var stock := BalStock(bal).OrOption(v.stock).GetOr(0);
    var reserved := BalReserved(bal).OrOption(v.reserved).GetOr(0);
    RowFigures(stock, reserved, stock - reserved)
  }

  /** The table and the sale panel can disagree: a balance whose own `variantId`
      differs from its nested `variant.id` is found by the store for the nested id
      but not by the table. */
  lemma TableLookupDiffersFromStore()
    ensures var b := Balance(Some(Num(2)), Some(VariantRef(Some(Num(1)), None)), None, Some(9), None, None, None, None, None);
      Store.GetBalance([b], Num(1)) == Some(b) && TableBalance([b], Num(1)) == None
  {
    var b := Balance(Some(Num(2)), Some(VariantRef(Some(Num(1)), None)), None, Some(9), None, None, None, None, None);
    assert Store.Matches(b, Num(1));
    assert IdString(Num(2)) == "2" && IdString(Num(1)) == "1";
  }

  /** `AdjustModal.handleSave` goes ahead only with a non-zero quantity and a reason
      that is not blank. */
  function AdjustSaveAllowed(quantity: int, reason: string): (r: bool)
    ensures r <==> quantity != 0 && exists i :: 0 <= i < |reason| && !Text.IsSpace(reason[i])
  {
    Text.TrimEmptyIffBlank(reason);
    quantity != 0 && Text.Trim(reason) != ""
  }

  /** A variant matches a sale code by its id, or by its sku ignoring case. */
  predicate VariantMatches(v: Variant, code: string) {
    IdString(v.id) == code || (Js.Truthy(v.sku) && Text.ToLower(v.sku.value) == Text.ToLower(code))
  }

  /** `(p.variants || []).find(...)` with that rule. */
  function FindInVariants(vs: seq<Variant>, code: string): (r: Option<Variant>)
    ensures r.None? <==> forall i :: 0 <= i < |vs| ==> !VariantMatches(vs[i], code)
    ensures r.Some? ==> exists i :: (0 <= i < |vs| && vs[i] == r.value && VariantMatches(r.value, code) &&
      forall j :: 0 <= j < i ==> !VariantMatches(vs[j], code))
    decreases |vs|
  {
    if vs == [] then None
    else if VariantMatches(vs[0], code) then Some(vs[0])
    else FindInVariants(vs[1..], code)
  }

  datatype Found = Found(p: Product, v: Variant)

  /** The first product, in list order, with a matching variant, and that variant. */
  function FirstVariantMatch(products: seq<Product>, code: string): (r: Option<Found>)
    ensures r.None? <==> forall i :: 0 <= i < |products| ==> FindInVariants(products[i].variants, code).None?
    ensures r.Some? ==> r.value.p in products && r.value.v in r.value.p.variants && VariantMatches(r.value.v, code)
    decreases |products|
  {
    if products == [] then None
    else
      var v := FindInVariants(products[0].variants, code);
      if v.Some? then Some(Found(products[0], v.value)) else FirstVariantMatch(products[1..], code)
  }

  /** A match in an earlier product wins over any later one. */
  lemma {:induction false} FirstVariantMatchEarliest(products: seq<Product>, code: string, k: int)
    requires 0 <= k < |products| && FindInVariants(products[k].variants, code).Some?
    requires forall j :: 0 <= j < k ==> FindInVariants(products[j].variants, code).None?
    ensures FirstVariantMatch(products, code) == Some(Found(products[k], FindInVariants(products[k].variants, code).value))
    decreases k
  {
    if k > 0 {
      FirstVariantMatchEarliest(products[1..], code, k - 1);
    }
  }

  /** `findVariant`: nothing for a blank code, else the first match in product order. */
  method FindSaleVariant(products: seq<Product>, saleCode: string) returns (found: Option<Found>)
    ensures Text.Trim(saleCode) == "" ==> found == None
    ensures Text.Trim(saleCode) != "" ==> found == FirstVariantMatch(products, Text.Trim(saleCode))
  {
    var code := Text.Trim(saleCode);
    if code == "" {
      return None;
    }
    var i := 0;
    while i < |products|
      invariant 0 <= i <= |products|
      invariant FirstVariantMatch(products[i..], code) == FirstVariantMatch(products, code)
    {
      assert products[i..][1..] == products[i + 1..];
      var v := FindInVariants(products[i].variants, code);
      if v.Some? {
        return Some(Found(products[i], v.value));
      }
      i := i + 1;
    }
    return None;
  }

  /** The sale panel accepts a found variant whenever the available count covers the
      quantity; it has no lower bound on the quantity. */
  predicate SaleAccepted(found: bool, avail: int, qty: int) {
    found && qty <= avail
  }

  /** Unlike the order form, the sale panel accepts a zero or negative quantity. */
  lemma SaleAcceptsNonPositiveQuantity()
    ensures SaleAccepted(true, 5, -2) && SaleAccepted(true, 0, 0)
    ensures CreateOrder.AddGuard("1", "1", -2, 5) == CreateOrder.Ignored
  {
  }

  /** `[t, c].filter(x => x !== "—")`. */
  function NotDash(parts: seq<string>): (r: seq<string>)
    ensures |r| <= |parts|
    ensures forall i :: 0 <= i < |r| ==> r[i] != "—"
    decreases |parts|
  {
    if parts == [] then [] else (if parts[0] != "—" then [parts[0]] else []) + NotDash(parts[1..])
  }

  lemma NotDashPair(t: string, c: string)
    ensures NotDash([t, c]) == (if t != "—" then [t] else []) + (if c != "—" then [c] else [])
  {
    assert [t, c][1..] == [c];
    assert [c][1..] == [];
  }

  /** `v.sku || String(v.id)`, and "—" when that is empty too. */
  function SaleFallback(v: Variant): string {
    if Js.Or(v.sku, IdString(v.id)) != "" then Js.Or(v.sku, IdString(v.id)) else "—"
  }

  /** The label of a sale line: size and colour (dashes dropped) joined by " / ",
      else the sku, else the id, else "—". */
  function SaleLabel(v: Variant): (r: string)
    ensures r != ""
    ensures VariantTalla(v) != "—" && VariantColor(v) != "—" ==> r == VariantTalla(v) + " / " + VariantColor(v)
    ensures VariantTalla(v) !in {"—", ""} && VariantColor(v) == "—" ==> r == VariantTalla(v)
    ensures VariantTalla(v) == "—" && VariantColor(v) !in {"—", ""} ==> r == VariantColor(v)
    ensures VariantTalla(v) == "—" && VariantColor(v) == "—" ==> r == SaleFallback(v)
    ensures VariantTalla(v) == "" && VariantColor(v) == "—" ==> r == SaleFallback(v)
    ensures VariantTalla(v) == "—" && VariantColor(v) == "" ==> r == SaleFallback(v)
  {
    var t, c := VariantTalla(v), VariantColor(v);
    NotDashPair(t, c);
    Text.JoinPair(t, c, " / ");
    assert |t + " / " + c| >= 3;
    var joined := Text.Join(NotDash([t, c]), " / ");
    var l := if joined != "" then joined else Js.Or(v.sku, IdString(v.id));
    if l != "" then l else "—"
  }

  /** One stock adjustment request. */
  datatype Adjustment = Adjustment(variantId: Id, quantity: int, reason: string)

  const SaleReason: string := "Venta directa caja"

  /** `handleDirectSale`: one negative adjustment per sale line. */
  function DirectSaleAdjustments(items: seq<Line>): (r: seq<Adjustment>)
    ensures |r| == |items|
    ensures forall i :: 0 <= i < |items| ==>
      r[i].variantId == items[i].variantId && r[i].quantity == -items[i].quantity && r[i].reason == SaleReason
  {
    seq(|items|, i requires 0 <= i < |items| => Adjustment(items[i].variantId, -items[i].quantity, SaleReason))
  }

  /** Units on a sale list. */
  function Units(items: seq<Line>): int
    decreases |items|
  {
    if items == [] then 0 else items[0].quantity + Units(items[1..])
  }

  /** Net change a batch of adjustments asks for. */
  function NetAdjustment(adjs: seq<Adjustment>): int
    decreases |adjs|
  {
    if adjs == [] then 0 else adjs[0].quantity + NetAdjustment(adjs[1..])
  }

  /** A direct sale takes out of stock exactly the units on the sale list. */
  lemma {:induction false} DirectSaleRemovesUnits(items: seq<Line>)
    ensures NetAdjustment(DirectSaleAdjustments(items)) == -Units(items)
    decreases |items|
  {
    if items != [] {
      assert DirectSaleAdjustments(items)[1..] == DirectSaleAdjustments(items[1..]);
      DirectSaleRemovesUnits(items[1..]);
    }
  }

  /** The sale panel's state. */
  class SalePanel {
    var saleCode: string
    var saleQty: int
    var saleList: seq<Line>

    /** The sale list never holds two lines for the same variant. */
    predicate Valid()
      reads this
    {
      Cart.DistinctVariants(saleList)
    }

    constructor ()
      ensures Valid() && saleCode == "" && saleQty == 1 && saleList == []
    {
      saleCode, saleQty, saleList := "", 1, [];
    }

    /** The line `addToList` adds for a found variant. */
    static function SaleLine(f: Found, qty: int): (r: Line)
      ensures Cart.Key(r) == IdString(f.v.id) && r.quantity == qty && r.price == VariantPrice(f.v)
    {
      Line(f.v.id, f.p.name, SaleLabel(f.v), qty, VariantPrice(f.v))
    }

    /** `addToList`: a no-op without a found variant or with too little stock; else
        merge-or-append of the line, then the code and quantity reset. */
    method AddToList(products: seq<Product>, balances: seq<Balance>)
      requires Valid()
      modifies this
      ensures Valid()
      ensures var code := Text.Trim(old(saleCode));
        var f := if code == "" then None else FirstVariantMatch(products, code);
        var avail := if f.Some? then Store.GetAvailable(balances, f.value.v.id) else 0;
        if SaleAccepted(f.Some?, avail, old(saleQty)) then
          saleList == Cart.MergeOrAppend(old(saleList), SaleLine(f.value, old(saleQty))) &&
          saleCode == "" && saleQty == 1
        else
          saleList == old(saleList) && saleCode == old(saleCode) && saleQty == old(saleQty)
    {
      var found := FindSaleVariant(products, saleCode);
      if found.None? {
        return;
      }
      var avail := Store.GetAvailable(balances, found.value.v.id);
      if avail < saleQty {
        return;
      }
      var line := SaleLine(found.value, saleQty);
      Cart.MergeDistinct(saleList, line);
      saleList := Cart.MergeOrAppend(saleList, line);
      saleCode, saleQty := "", 1;
    }

    /** The remove button of row `i`. */
    method RemoveFromList(i: int)
      requires Valid()
      modifies this
      ensures Valid()
      ensures saleList == Cart.RemoveAt(old(saleList), i)
      ensures saleCode == old(saleCode) && saleQty == old(saleQty)
    {
      Cart.RemoveDistinct(saleList, i);
      saleList := Cart.RemoveAt(saleList, i);
    }

    /** "Cancelar": the sale list is emptied. */
    method ClearList()
      modifies this
      ensures Valid() && saleList == []
      ensures saleCode == old(saleCode) && saleQty == old(saleQty)
    {
      saleList := [];
    }

    /** `handleSell`: the adjustments for the list go out; the list is emptied only
        when they all succeed. */
    method Sell(succeeded: bool) returns (adjustments: seq<Adjustment>)
      requires Valid()
      modifies this
      ensures Valid()
      ensures adjustments == DirectSaleAdjustments(old(saleList))
      ensures succeeded ==> saleList == []
      ensures !succeeded ==> saleList == old(saleList)
      ensures saleCode == old(saleCode) && saleQty == old(saleQty)
    {
      adjustments := DirectSaleAdjustments(saleList);
      if succeeded {
        saleList := [];
      }
    }
  }
}
