/**
 * The shapes the backend sends and the client keeps: identifiers, products and
 * their variants, inventory balances, orders as received, and the cart line the
 * order form and the cash desk build. Optional fields are `Option`s, because
 * the backend names fields inconsistently across endpoints.
 */
module Payloads {

  import opened Wrappers
  import Text

  /** An identifier as JSON carries it: a number or a string. */
  datatype Id = Num(n: int) | Str(s: string)

  /** `String(id)`. */
  function IdString(id: Id): string {
    match id
    case Num(n) => Text.IntToDecimal(n)
    case Str(s) => s
  }

  /** `String(x)` of an optional identifier: a missing one reads "undefined". */
  function OptIdString(o: Option<Id>): string {
    if o.Some? then IdString(o.value) else "undefined"
  }

  datatype Attributes = Attributes(
    price: Option<int>, unitPrice: Option<int>,
    size: Option<string>, talla: Option<string>, color: Option<string>)

  datatype Variant = Variant(
    id: Id, sku: Option<string>,
    size: Option<string>, talla: Option<string>, color: Option<string>,
    price: Option<int>, unitPrice: Option<int>,
    attributes: Option<Attributes>,
    stock: Option<int>, reserved: Option<int>)

  /** A product as `GET /products` lists it. */
  datatype ListedProduct = ListedProduct(id: Id, name: string)

  /** A product in the store, with the variants looked up for it. */
  datatype Product = Product(id: Id, name: string, variants: seq<Variant>)

  /** The nested `variant` object of a balance (`labelText` is its `label` field). */
  datatype VariantRef = VariantRef(id: Option<Id>, labelText: Option<string>)

  /** An inventory balance; stock and reserved arrive under two names each. */
  datatype Balance = Balance(
    variantId: Option<Id>, variant: Option<VariantRef>, id: Option<Id>,
    stock: Option<int>, quantity: Option<int>,
    reserved: Option<int>, reservedQty: Option<int>,
    variantSku: Option<string>, variantLabel: Option<string>)

  /** `b.variant?.id`. */
  function NestedVariantId(b: Balance): Option<Id> {
    if b.variant.Some? then b.variant.value.id else None
  }

  /** A cart line of the order form or the cash desk. Money is in cents. */
  datatype Line = Line(variantId: Id, productName: string, variant: string, quantity: int, price: int)

  datatype ClientRef = ClientRef(name: Option<string>, phone: Option<string>, address: Option<string>)

  /** An order item as the backend sends it. */
  datatype RawItem = RawItem(
    productName: Option<string>, productRefName: Option<string>, name: Option<string>,
    variant: Option<string>, variantLabel: Option<string>, variantName: Option<string>,
    variantSku: Option<string>,
    size: Option<string>, talla: Option<string>, color: Option<string>,
    quantity: Option<int>, qty: Option<int>,
    price: Option<int>, unitPrice: Option<int>, unitPriceSnake: Option<int>)

  /** An order as the backend sends it. */
  datatype RawOrder = RawOrder(
    state: Option<string>, status: Option<string>,
    clientName: Option<string>, client: Option<ClientRef>, customerName: Option<string>,
    clientPhone: Option<string>, phone: Option<string>, customerPhone: Option<string>,
    clientAddress: Option<string>, address: Option<string>,
    shippingAddress: Option<string>, shippingCity: Option<string>, shippingRegion: Option<string>,
    channel: Option<string>, source: Option<string>,
    items: Option<seq<RawItem>>, orderItems: Option<seq<RawItem>>,
    total: Option<int>, totalAmount: Option<int>, amount: Option<int>,
    createdAt: Option<string>, createdDate: Option<string>, date: Option<string>)
}
