/**
 * The new-order form: client fields, the item picker (product, variant,
 * quantity), the cart it fills, and the request it submits.
 */
module CreateOrder {

  import opened Wrappers
  import opened Payloads
  import Text
  import Js
  import Store
  import Cart

  /** `products.find(p => String(p.id) === String(pid))`. */
  function FindProduct(products: seq<Product>, pid: string): (r: Option<Product>)
    ensures r.None? <==> forall i :: 0 <= i < |products| ==> IdString(products[i].id) != pid
    ensures r.Some? ==> r.value in products && IdString(r.value.id) == pid
  {
    Js.FindByKey(products, (p: Product) => IdString(p.id), pid)
  }

  /** The product found is the first one with the picked id, as `find` returns it. */
  lemma FindProductFirst(products: seq<Product>, pid: string, k: int)
    requires 0 <= k < |products| && IdString(products[k].id) == pid
    requires forall j :: 0 <= j < k ==> IdString(products[j].id) != pid
    ensures FindProduct(products, pid) == Some(products[k])
  {
    Js.FindByKeyFirst(products, (p: Product) => IdString(p.id), pid, k);
  }

  /** `selectedProduct?.variants?.find(v => String(v.id) === String(vid))`. */
  function FindVariant(p: Option<Product>, vid: string): (r: Option<Variant>)
    ensures p.None? ==> r.None?
    ensures p.Some? ==> (r.None? <==> forall i :: 0 <= i < |p.value.variants| ==> IdString(p.value.variants[i].id) != vid)
    ensures r.Some? ==> p.Some? && r.value in p.value.variants && IdString(r.value.id) == vid
  {
    if p.None? then None else Js.FindByKey(p.value.variants, (v: Variant) => IdString(v.id), vid)
  }

  /** The variant found is the first one of the product with the picked id. */
  lemma FindVariantFirst(p: Product, vid: string, k: int)
    requires 0 <= k < |p.variants| && IdString(p.variants[k].id) == vid
    requires forall j :: 0 <= j < k ==> IdString(p.variants[j].id) != vid
    ensures FindVariant(Some(p), vid) == Some(p.variants[k])
  {
    Js.FindByKeyFirst(p.variants, (v: Variant) => IdString(v.id), vid, k);
  }

  /** `avail`: what the store reports for the picked variant, 0 when none is picked. */
  function PickerAvail(products: seq<Product>, balances: seq<Balance>, pid: string, vid: string): (r: int)
    ensures FindVariant(FindProduct(products, pid), vid).None? ==> r == 0
    ensures FindVariant(FindProduct(products, pid), vid).Some? ==>
      r == Store.GetAvailable(balances, FindVariant(FindProduct(products, pid), vid).value.id)
  {
    var v := FindVariant(FindProduct(products, pid), vid);
    if v.Some? then Store.GetAvailable(balances, v.value.id) else 0
  }

  /** `v.size ?? v.talla`. */
  function SizeText(v: Variant): Option<string> {
    v.size.OrOption(v.talla)
  }

  /** `variantLabel`: size (or talla) and colour joined by " / ", else the sku, else the id. */
  function VariantLabel(v: Variant): (r: string)
    ensures Js.Truthy(SizeText(v)) && Js.Truthy(v.color) ==> r == SizeText(v).value + " / " + v.color.value
    ensures Js.Truthy(SizeText(v)) && !Js.Truthy(v.color) ==> r == SizeText(v).value
    ensures !Js.Truthy(SizeText(v)) && Js.Truthy(v.color) ==> r == v.color.value
    ensures !Js.Truthy(SizeText(v)) && !Js.Truthy(v.color) ==> r == Js.Or(v.sku, IdString(v.id))
  {
    var parts := Js.Truthies([SizeText(v), v.color]);
    Js.TruthiesPair(SizeText(v), v.color);
    Text.JoinPair(SizeText(v).GetOr(""), v.color.GetOr(""), " / ");
    if parts != [] then Text.Join(parts, " / ") else Js.Or(v.sku, IdString(v.id))
  }

  /** `selectedVariant.price ?? selectedVariant.unitPrice ?? 0`. */
  function LinePrice(v: Variant): (r: int)
    ensures v.price.Some? ==> r == v.price.value
    ensures v.price.None? && v.unitPrice.Some? ==> r == v.unitPrice.value
    ensures v.price.None? && v.unitPrice.None? ==> r == 0
  {
    v.price.GetOr(v.unitPrice.GetOr(0))
  }

  /** What `addItem` decides before touching the cart. */
  datatype AddDecision = Ignored | Insufficient(avail: int) | Accepted

  /** The guards of `addItem`: nothing picked or a quantity below one is ignored;
      a quantity above what is available is refused with the available count. */
  function AddGuard(pid: string, vid: string, qty: int, avail: int): (r: AddDecision)
    ensures r == Ignored <==> pid == "" || vid == "" || qty < 1
    ensures r.Insufficient? <==> pid != "" && vid != "" && 1 <= qty && avail < qty
    ensures r.Insufficient? ==> r.avail == avail
    ensures r == Accepted ==> 1 <= qty <= avail
  {
    if pid == "" || vid == "" || qty < 1 then Ignored
    else if qty > avail then Insufficient(avail)
    else Accepted
  }

  function InsufficientMessage(avail: int): string {
    "❌ Stock insuficiente. Disponible: " + Text.IntToDecimal(avail)
  }

  /** The line the picker adds, when a variant is picked. */
  function PickedLine(products: seq<Product>, pid: string, vid: string, qty: int): (r: Option<Line>)
    ensures FindVariant(FindProduct(products, pid), vid).Some? <==> r.Some?
    ensures r.Some? ==> Cart.Key(r.value) == vid && r.value.quantity == qty
    ensures r.Some? ==> r.value.variantId == FindVariant(FindProduct(products, pid), vid).value.id
    ensures r.Some? ==> r.value.productName == FindProduct(products, pid).value.name
    ensures r.Some? ==> r.value.variant == VariantLabel(FindVariant(FindProduct(products, pid), vid).value)
    ensures r.Some? ==> r.value.price == LinePrice(FindVariant(FindProduct(products, pid), vid).value)
  {
    var p := FindProduct(products, pid);
    var v := FindVariant(p, vid);
    if v.Some? then Some(Line(v.value.id, p.value.name, VariantLabel(v.value), qty, LinePrice(v.value))) else None
  }

  /** An accepted add always has a picked variant: without one the available count is 0. */
  lemma AcceptedHasVariant(products: seq<Product>, balances: seq<Balance>, pid: string, vid: string, qty: int)
    requires AddGuard(pid, vid, qty, PickerAvail(products, balances, pid, vid)) == Accepted
    ensures PickedLine(products, pid, vid, qty).Some?
  {
  }

  /** The guard compares only the quantity being added with the available count:
      a cart line may end up holding more than is available. */
  lemma GuardIgnoresCartQuantity()
    ensures AddGuard("1", "7", 2, 2) == Accepted
    ensures Cart.MergeOrAppend([Line(Num(7), "Camisa", "M", 2, 500)], Line(Num(7), "Camisa", "M", 2, 500))[0].quantity == 4
  {
    assert Cart.Key(Line(Num(7), "Camisa", "M", 2, 500)) == "7";
  }

  /** One item of the create-order request. */
  datatype OrderItemBody = OrderItemBody(variantId: Id, quantity: int)

  datatype OrderBody = OrderBody(
    clientName: string, clientPhone: string, clientAddress: string,
    channel: string, notes: string, items: seq<OrderItemBody>)

  datatype Submission = Rejected(message: string) | Send(body: OrderBody)

  const NameRequired: string := "❌ Nombre del cliente requerido"
  const PhoneRequired: string := "❌ Teléfono del cliente requerido"
  const ItemsRequired: string := "❌ Agrega al menos un artículo"

  /** `items.map(i => ({ variantId: i.variantId, quantity: i.quantity }))`. */
  function ItemBodies(items: seq<Line>): (r: seq<OrderItemBody>)
    ensures |r| == |items|
    ensures forall i :: 0 <= i < |items| ==> r[i].variantId == items[i].variantId && r[i].quantity == items[i].quantity
  {
    seq(|items|, i requires 0 <= i < |items| => OrderItemBody(items[i].variantId, items[i].quantity))
  }

  class OrderForm {
    var clientName: string
    var clientPhone: string
    var clientAddress: string
    var channel: string
    var notes: string
    var items: seq<Line>
    var pid: string
    var vid: string
    var qty: int

    /** The cart never holds two lines for the same variant. */
    predicate Valid()
      reads this
    {
      Cart.DistinctVariants(items)
    }

    constructor ()
      ensures Valid()
      ensures clientName == "" && clientPhone == "" && clientAddress == ""
      ensures channel == "WHATSAPP" && notes == "" && items == []
      ensures pid == "" && vid == "" && qty == 1
    {
      clientName, clientPhone, clientAddress := "", "", "";
      channel, notes, items := "WHATSAPP", "", [];
      pid, vid, qty := "", "", 1;
    }

    /** `addItem`: the guards, then merge-or-append of the picked line, then the picker reset. */
    method AddItem(products: seq<Product>, balances: seq<Balance>) returns (toast: Option<string>)
      requires Valid()
      modifies this
      ensures Valid()
      ensures clientName == old(clientName) && clientPhone == old(clientPhone)
      ensures clientAddress == old(clientAddress) && channel == old(channel) && notes == old(notes)
      ensures var d := AddGuard(old(pid), old(vid), old(qty), PickerAvail(products, balances, old(pid), old(vid)));
        match d
        case Ignored =>
          toast == None && items == old(items) && pid == old(pid) && vid == old(vid) && qty == old(qty)
        case Insufficient(avail) =>
          toast == Some(InsufficientMessage(avail)) &&
          items == old(items) && pid == old(pid) && vid == old(vid) && qty == old(qty)
        case Accepted =>
          toast == None && PickedLine(products, old(pid), old(vid), old(qty)).Some? &&
          items == Cart.MergeOrAppend(old(items), PickedLine(products, old(pid), old(vid), old(qty)).value) &&
          pid == "" && vid == "" && qty == 1
    {
      var avail := PickerAvail(products, balances, pid, vid);
      var d := AddGuard(pid, vid, qty, avail);
      if d == Ignored {
        return None;
      }
      if d.Insufficient? {
        return Some(InsufficientMessage(avail));
      }
      var line := PickedLine(products, pid, vid, qty);
      Cart.MergeDistinct(items, line.value);
      items := Cart.MergeOrAppend(items, line.value);
      pid, vid, qty := "", "", 1;
      toast := None;
    }

    /** The remove button of row `i`. */
    method RemoveItem(i: int)
      requires Valid()
      modifies this
      ensures Valid()
      ensures items == Cart.RemoveAt(old(items), i)
      ensures clientName == old(clientName) && clientPhone == old(clientPhone)
      ensures clientAddress == old(clientAddress) && channel == old(channel) && notes == old(notes)
      ensures pid == old(pid) && vid == old(vid) && qty == old(qty)
    {
      Cart.RemoveDistinct(items, i);
      items := Cart.RemoveAt(items, i);
    }

    /** `handleSubmit` up to the call: the three guards in order, else the request body. */
    function Submit(): (r: Submission)
      reads this
      ensures clientName == "" ==> r == Rejected(NameRequired)
      ensures clientName != "" && clientPhone == "" ==> r == Rejected(PhoneRequired)
      ensures clientName != "" && clientPhone != "" && items == [] ==> r == Rejected(ItemsRequired)
      ensures r.Send? <==> clientName != "" && clientPhone != "" && items != []
      ensures r.Send? ==>
        r.body.clientName == clientName && r.body.clientPhone == clientPhone &&
        r.body.clientAddress == clientAddress && r.body.channel == channel && r.body.notes == notes
      ensures r.Send? ==>
        |r.body.items| == |items| &&
        forall i :: 0 <= i < |items| ==> r.body.items[i] == OrderItemBody(items[i].variantId, items[i].quantity)
    {
      if clientName == "" then Rejected(NameRequired)
      else if clientPhone == "" then Rejected(PhoneRequired)
      else if items == [] then Rejected(ItemsRequired)
      else Send(OrderBody(clientName, clientPhone, clientAddress, channel, notes, ItemBodies(items)))
    }
  }

  /** A request built from a valid cart names each variant once. */
  lemma BodyVariantsDistinct(items: seq<Line>)
    requires Cart.DistinctVariants(items)
    ensures forall i, j :: 0 <= i < j < |items| ==>
      IdString(ItemBodies(items)[i].variantId) != IdString(ItemBodies(items)[j].variantId)
  {
  }
}
