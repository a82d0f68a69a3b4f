/**
 * The client-side store hook: the cached products, orders and balances, the
 * per-resource loading flags, the single error slot, and the balance lookups
 * the pages use to decide how much of a variant can still be sold.
 */
module Store {

  import opened Wrappers
  import opened Payloads
  import Js

  /** A balance belongs to a variant when its `variantId` or its nested
      `variant.id` is that id, or when `String(b.variantId)` reads the same as
      `String(id)`. */
  predicate Matches(b: Balance, id: Id) {
    b.variantId == Some(id) || NestedVariantId(b) == Some(id) || OptIdString(b.variantId) == IdString(id)
  }

  /** `getBalance`: the first balance that belongs to the variant, or null. */
  function GetBalance(balances: seq<Balance>, id: Id): (r: Option<Balance>)
    ensures r.None? <==> forall i :: 0 <= i < |balances| ==> !Matches(balances[i], id)
    ensures r.Some? ==> r.value in balances && Matches(r.value, id)
    decreases |balances|
  {
    if balances == [] then None
    else if Matches(balances[0], id) then Some(balances[0])
    else GetBalance(balances[1..], id)
  }

  /** Index `i` holds the first balance that belongs to the variant. */
  predicate FirstMatchAt(balances: seq<Balance>, id: Id, i: int) {
    0 <= i < |balances| && Matches(balances[i], id) && forall j :: 0 <= j < i ==> !Matches(balances[j], id)
  }

  /** The balance found is the first one that belongs to the variant. */
  lemma {:induction false} GetBalanceFirst(balances: seq<Balance>, id: Id, i: int)
    requires FirstMatchAt(balances, id, i)
    ensures GetBalance(balances, id) == Some(balances[i])
    decreases i
  {
    if i > 0 {
      GetBalanceFirst(balances[1..], id, i - 1);
    }
  }

  /** `b.stock ?? b.quantity ?? 0`. */
  function StockOf(b: Balance): (r: int)
    ensures b.stock.Some? ==> r == b.stock.value
    ensures b.stock.None? && b.quantity.Some? ==> r == b.quantity.value
    ensures b.stock.None? && b.quantity.None? ==> r == 0
  {
    b.stock.GetOr(b.quantity.GetOr(0))
  }

  /** `b.reserved ?? b.reservedQty ?? 0`. */
  function ReservedOf(b: Balance): (r: int)
    ensures b.reserved.Some? ==> r == b.reserved.value
    ensures b.reserved.None? && b.reservedQty.Some? ==> r == b.reservedQty.value
    ensures b.reserved.None? && b.reservedQty.None? ==> r == 0
  {
    b.reserved.GetOr(b.reservedQty.GetOr(0))
  }

  /** `getAvailable`: zero without a balance, else stock minus reserved, unclamped. */
  function GetAvailable(balances: seq<Balance>, id: Id): (r: int)
    ensures (forall i :: 0 <= i < |balances| ==> !Matches(balances[i], id)) ==> r == 0
    ensures forall i :: FirstMatchAt(balances, id, i) ==> r == StockOf(balances[i]) - ReservedOf(balances[i])
  {
    var b := GetBalance(balances, id);
    forall i | FirstMatchAt(balances, id, i) ensures b == Some(balances[i]) {
      GetBalanceFirst(balances, id, i);
    }
    if b.None? then 0 else StockOf(b.value) - ReservedOf(b.value)
  }

  /** Availability is not clamped: more reserved than in stock gives a negative count. */
  lemma OverReservedIsNegative()
    ensures GetAvailable([Balance(Some(Num(7)), None, None, Some(2), None, Some(5), None, None, None)], Num(7)) == -3
  {
    var b := Balance(Some(Num(7)), None, None, Some(2), None, Some(5), None, None, None);
    assert Matches(b, Num(7));
  }

  /** A balance without any `variantId` stringifies to "undefined", so the string
      comparison lets it stand for a variant whose id is the text "undefined". */
  lemma MissingIdMatchesUndefined(b: Balance)
    requires b.variantId.None?
    ensures Matches(b, Str("undefined"))
  {
  }

  const ConnectionMessage: string :=
    "No se pudo conectar con el servidor. Revisa tu conexión o intenta más tarde."

  /** The message a failed fetch leaves in the error slot. */
  function FetchErrorMessage(message: Option<string>): (r: string)
    ensures r != "" && r != "Failed to fetch"
    ensures message == Some("Failed to fetch") ==> r == ConnectionMessage
    ensures Js.Truthy(message) && message.value != "Failed to fetch" ==> r == message.value
    ensures !Js.Truthy(message) ==> r == "Error de conexión"
  {
    if message == Some("Failed to fetch") then ConnectionMessage
    else Js.Or(message, "Error de conexión")
  }

  /** Mapping a mapped message again changes nothing. */
  lemma FetchErrorMessageIdempotent(message: Option<string>)
    ensures FetchErrorMessage(Some(FetchErrorMessage(message))) == FetchErrorMessage(message)
  {
  }

  /** The outcome of one backend call: its parsed body, or the message of the error it threw. */
  datatype Fetched<T> = Fetched(data: T) | FetchFailed(message: Option<string>)

  /** The outcome of `variantsApi.byProduct(id)`; a rejected lookup is caught. */
  datatype VariantLookup = LookupFailed | LookupOk(variants: Option<seq<Variant>>)

  /** `variants || []` after the catch. */
  function VariantsOf(l: VariantLookup): (r: seq<Variant>)
    ensures l.LookupFailed? || l.variants.None? ==> r == []
    ensures l.LookupOk? && l.variants.Some? ==> r == l.variants.value
  {
    if l.LookupOk? && l.variants.Some? then l.variants.value else []
  }

  /** Each listed product, in order, with the variants looked up for it. */
  function WithVariants(listed: seq<ListedProduct>, byProduct: Id -> VariantLookup): (r: seq<Product>)
    ensures |r| == |listed|
    ensures forall i :: 0 <= i < |listed| ==>
      r[i].id == listed[i].id && r[i].name == listed[i].name && r[i].variants == VariantsOf(byProduct(listed[i].id))
  {
    seq(|listed|, i requires 0 <= i < |listed| =>
      Product(listed[i].id, listed[i].name, VariantsOf(byProduct(listed[i].id))))
  }

  class Store {
    var products: seq<Product>
    var orders: seq<RawOrder>
    var balances: seq<Balance>
    var loading: map<string, bool>
    var error: Option<string>

    constructor ()
      ensures products == [] && orders == [] && balances == []
      ensures loading == map[] && error == None
    {
      products, orders, balances := [], [], [];
      loading, error := map[], None;
    }

    /** `startLoad(key)`: only the flag of `key` changes, to true. */
    method StartLoad(key: string)
      modifies this
      ensures loading == old(loading)[key := true]
      ensures products == old(products) && orders == old(orders) && balances == old(balances)
      ensures error == old(error)
    {
      loading := loading[key := true];
    }

    /** `endLoad(key)`: only the flag of `key` changes, to false. */
    method EndLoad(key: string)
      modifies this
      ensures loading == old(loading)[key := false]
      ensures products == old(products) && orders == old(orders) && balances == old(balances)
      ensures error == old(error)
    {
      loading := loading[key := false];
    }

    /** `fetchProducts`: replaces the products by the listed ones with their variants,
        or, when the list call fails, leaves them and overwrites the error slot. */
    method FetchProducts(listed: Fetched<Option<seq<ListedProduct>>>, byProduct: Id -> VariantLookup)
      modifies this
      ensures loading == old(loading)["products" := false]
      ensures orders == old(orders) && balances == old(balances)
      ensures listed.Fetched? ==> products == WithVariants(listed.data.GetOr([]), byProduct) && error == old(error)
      ensures listed.FetchFailed? ==> products == old(products) && error == Some(FetchErrorMessage(listed.message))
    {
      StartLoad("products");
      match listed {
        case Fetched(data) =>
          products := WithVariants(data.GetOr([]), byProduct);
        case FetchFailed(message) =>
          error := Some(FetchErrorMessage(message));
      }
      EndLoad("products");
    }

    /** `fetchBalances`: the same pattern under the "inventory" flag. */
    method FetchBalances(fetched: Fetched<Option<seq<Balance>>>)
      modifies this
      ensures loading == old(loading)["inventory" := false]
      ensures products == old(products) && orders == old(orders)
      ensures fetched.Fetched? ==> balances == fetched.data.GetOr([]) && error == old(error)
      ensures fetched.FetchFailed? ==> balances == old(balances) && error == Some(FetchErrorMessage(fetched.message))
    {
      StartLoad("inventory");
      match fetched {
        case Fetched(data) =>
          balances := data.GetOr([]);
        case FetchFailed(message) =>
          error := Some(FetchErrorMessage(message));
      }
      EndLoad("inventory");
    }

    /** `fetchOrders`: the same pattern under the "orders" flag. */
    method FetchOrders(fetched: Fetched<Option<seq<RawOrder>>>)
      modifies this
      ensures loading == old(loading)["orders" := false]
      ensures products == old(products) && balances == old(balances)
      ensures fetched.Fetched? ==> orders == fetched.data.GetOr([]) && error == old(error)
      ensures fetched.FetchFailed? ==> orders == old(orders) && error == Some(FetchErrorMessage(fetched.message))
    {
      StartLoad("orders");
      match fetched {
        case Fetched(data) =>
          orders := data.GetOr([]);
        case FetchFailed(message) =>
          error := Some(FetchErrorMessage(message));
      }
      EndLoad("orders");
    }
  }
}
