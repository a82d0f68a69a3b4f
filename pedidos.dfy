/**
 * The orders page: the normaliser that reads the backend's inconsistently named
 * order fields into one shape, the page's own copy of the transition table and
 * the next-state lookup, the "load more" pagination state, and the address
 * guards of the list and the detail view.
 */
module Pedidos {

  import opened Wrappers
  import opened Payloads
  import Text
  import Js
  import OrderStates

  /** One normalised order line. */
  datatype Item = Item(productName: string, variant: string, quantity: int, price: int)

  /** A normalised order. */
  datatype Order = Order(
    state: string, clientName: string, clientPhone: string, clientAddress: string,
    channel: string, items: seq<Item>, total: int, createdAt: string)

  function ClientName(o: RawOrder): Option<string> {
    if o.client.Some? then o.client.value.name else None
  }

  function ClientPhone(o: RawOrder): Option<string> {
    if o.client.Some? then o.client.value.phone else None
  }

  function ClientAddress(o: RawOrder): Option<string> {
    if o.client.Some? then o.client.value.address else None
  }

  /** `[o.shippingAddress, o.shippingCity, o.shippingRegion].filter(Boolean)`. */
  function AddressParts(o: RawOrder): seq<string> {
    Js.Truthies([o.shippingAddress, o.shippingCity, o.shippingRegion])
  }

  /** The address chain: clientAddress, client.address, address, then the shipping
      parts joined by ", ", then shippingAddress, else "". */
  function NormaliseAddress(o: RawOrder): (r: string)
    ensures Js.Truthy(o.clientAddress) ==> r == o.clientAddress.value
    ensures !Js.Truthy(o.clientAddress) && Js.Truthy(ClientAddress(o)) ==> r == ClientAddress(o).value
    ensures !Js.Truthy(o.clientAddress) && !Js.Truthy(ClientAddress(o)) && Js.Truthy(o.address) ==> r == o.address.value
    ensures !Js.Truthy(o.clientAddress) && !Js.Truthy(ClientAddress(o)) && !Js.Truthy(o.address) ==>
      r == Text.Join(AddressParts(o), ", ")
  {
    var parts := AddressParts(o);
    var joined := if |parts| > 0 then Some(Text.Join(parts, ", ")) else None;
    Js.Or(Js.OrElse(Js.OrElse(Js.OrElse(Js.OrElse(o.clientAddress, ClientAddress(o)), o.address), joined), o.shippingAddress), "")
  }

  /** The address is empty exactly when none of the six sources holds a non-empty text. */
  lemma AddressEmptyIff(o: RawOrder)
    ensures NormaliseAddress(o) == "" <==>
      !Js.Truthy(o.clientAddress) && !Js.Truthy(ClientAddress(o)) && !Js.Truthy(o.address) &&
      !Js.Truthy(o.shippingAddress) && !Js.Truthy(o.shippingCity) && !Js.Truthy(o.shippingRegion)
  {
    var parts := AddressParts(o);
    Text.JoinEmpty(parts, ", ");
    var ps := [o.shippingAddress, o.shippingCity, o.shippingRegion];
    assert ps[0] == o.shippingAddress && ps[1] == o.shippingCity && ps[2] == o.shippingRegion;
  }

  /** `[i.size ?? i.talla, i.color].filter(Boolean).join("/")`. */
  function SizeColor(i: RawItem): (r: string)
    ensures Js.Truthy(i.size.OrOption(i.talla)) && Js.Truthy(i.color) ==> r == i.size.OrOption(i.talla).value + "/" + i.color.value
    ensures Js.Truthy(i.size.OrOption(i.talla)) && !Js.Truthy(i.color) ==> r == i.size.OrOption(i.talla).value
    ensures !Js.Truthy(i.size.OrOption(i.talla)) && Js.Truthy(i.color) ==> r == i.color.value
    ensures !Js.Truthy(i.size.OrOption(i.talla)) && !Js.Truthy(i.color) ==> r == ""
  {
    Js.TruthiesPair(i.size.OrOption(i.talla), i.color);
    Text.JoinPair(i.size.OrOption(i.talla).GetOr(""), i.color.GetOr(""), "/");
    Text.Join(Js.Truthies([i.size.OrOption(i.talla), i.color]), "/")
  }

  /** None of the four variant text fields of an item is set to a non-empty text. */
  predicate NoVariantText(i: RawItem) {
    !Js.Truthy(i.variant) && !Js.Truthy(i.variantLabel) && !Js.Truthy(i.variantName) && !Js.Truthy(i.variantSku)
  }

  /** `i.variant || i.variantLabel || i.variantName || i.variantSku || [size ?? talla, color]
      joined by "/" || "—"`. */
  function ItemVariant(i: RawItem): (r: string)
    ensures r != ""
    ensures Js.Truthy(i.variant) ==> r == i.variant.value
    ensures !Js.Truthy(i.variant) && Js.Truthy(i.variantLabel) ==> r == i.variantLabel.value
    ensures !Js.Truthy(i.variant) && !Js.Truthy(i.variantLabel) && Js.Truthy(i.variantName) ==> r == i.variantName.value
    ensures !Js.Truthy(i.variant) && !Js.Truthy(i.variantLabel) && !Js.Truthy(i.variantName) && Js.Truthy(i.variantSku) ==>
      r == i.variantSku.value
    ensures NoVariantText(i) && SizeColor(i) != "" ==> r == SizeColor(i)
    ensures NoVariantText(i) && SizeColor(i) == "" ==> r == "—"
  {
    var sizeColor := SizeColor(i);
    Js.Or(Js.OrElse(Js.OrElse(Js.OrElse(i.variant, i.variantLabel), i.variantName), i.variantSku),
      if sizeColor != "" then sizeColor else "—")
  }

  /** One raw item, normalised; missing quantity and price read as 0. */
  function NormaliseItem(i: RawItem): (r: Item)
    ensures r.productName != "" && r.variant == ItemVariant(i)
    ensures Js.Truthy(i.productName) ==> r.productName == i.productName.value
    ensures !Js.Truthy(i.productName) && Js.Truthy(i.productRefName) ==> r.productName == i.productRefName.value
    ensures !Js.Truthy(i.productName) && !Js.Truthy(i.productRefName) && Js.Truthy(i.name) ==> r.productName == i.name.value
    ensures !Js.Truthy(i.productName) && !Js.Truthy(i.productRefName) && !Js.Truthy(i.name) ==> r.productName == "Producto"
    ensures Js.TruthyNum(i.quantity) ==> r.quantity == i.quantity.value
    ensures !Js.TruthyNum(i.quantity) && Js.TruthyNum(i.qty) ==> r.quantity == i.qty.value
    ensures !Js.TruthyNum(i.quantity) && !Js.TruthyNum(i.qty) ==> r.quantity == 0
    ensures Js.TruthyNum(i.price) ==> r.price == i.price.value
    ensures !Js.TruthyNum(i.price) && Js.TruthyNum(i.unitPrice) ==> r.price == i.unitPrice.value
    ensures !Js.TruthyNum(i.price) && !Js.TruthyNum(i.unitPrice) && Js.TruthyNum(i.unitPriceSnake) ==>
      r.price == i.unitPriceSnake.value
    ensures !Js.TruthyNum(i.price) && !Js.TruthyNum(i.unitPrice) && !Js.TruthyNum(i.unitPriceSnake) ==> r.price == 0
  {
    Item(
      Js.Or(Js.OrElse(i.productName, i.productRefName), Js.Or(i.name, "Producto")),
      ItemVariant(i),
      Js.OrNum(i.quantity, Js.OrNum(i.qty, 0)),
      Js.OrNum(i.price, Js.OrNum(i.unitPrice, Js.OrNum(i.unitPriceSnake, 0))))
  }

  /** `o.items || o.orderItems || []`: an array is truthy even when empty. */
  function RawItems(o: RawOrder): (r: seq<RawItem>)
    ensures o.items.Some? ==> r == o.items.value
    ensures o.items.None? && o.orderItems.Some? ==> r == o.orderItems.value
    ensures o.items.None? && o.orderItems.None? ==> r == []
  {
    if o.items.Some? then o.items.value else o.orderItems.GetOr([])
  }

  /** Each raw item normalised, one for one and in order. */
  predicate ItemsNormalised(raw: seq<RawItem>, items: seq<Item>) {
    |items| == |raw| && forall k :: 0 <= k < |items| ==> items[k] == NormaliseItem(raw[k])
  }

  /** None of `total`, `totalAmount`, `amount` holds a non-zero number. */
  predicate NoTotal(o: RawOrder) {
    !Js.TruthyNum(o.total) && !Js.TruthyNum(o.totalAmount) && !Js.TruthyNum(o.amount)
  }

  /** `o.clientName || o.client?.name || o.customerName || "—"`, link by link. */
  function NameChain(o: RawOrder): (r: string)
    ensures Js.Truthy(o.clientName) ==> r == o.clientName.value
    ensures !Js.Truthy(o.clientName) && Js.Truthy(ClientName(o)) ==> r == ClientName(o).value
    ensures !Js.Truthy(o.clientName) && !Js.Truthy(ClientName(o)) && Js.Truthy(o.customerName) ==> r == o.customerName.value
    ensures !Js.Truthy(o.clientName) && !Js.Truthy(ClientName(o)) && !Js.Truthy(o.customerName) ==> r == "—"
  {
    if Js.Truthy(o.clientName) then o.clientName.value
    else if Js.Truthy(ClientName(o)) then ClientName(o).value
    else if Js.Truthy(o.customerName) then o.customerName.value
    else "—"
  }

  /** `o.clientPhone || o.client?.phone || o.phone || (o.customerPhone ?? "")`, link by link. */
  function PhoneChain(o: RawOrder): (r: string)
    ensures Js.Truthy(o.clientPhone) ==> r == o.clientPhone.value
    ensures !Js.Truthy(o.clientPhone) && Js.Truthy(ClientPhone(o)) ==> r == ClientPhone(o).value
    ensures !Js.Truthy(o.clientPhone) && !Js.Truthy(ClientPhone(o)) && Js.Truthy(o.phone) ==> r == o.phone.value
    ensures !Js.Truthy(o.clientPhone) && !Js.Truthy(ClientPhone(o)) && !Js.Truthy(o.phone) ==> r == o.customerPhone.GetOr("")
  {
    if Js.Truthy(o.clientPhone) then o.clientPhone.value
    else if Js.Truthy(ClientPhone(o)) then ClientPhone(o).value
    else if Js.Truthy(o.phone) then o.phone.value
    else o.customerPhone.GetOr("")
  }

  /** `o.total || o.totalAmount || o.amount || 0`, link by link. */
  function TotalChain(o: RawOrder): (r: int)
    ensures Js.TruthyNum(o.total) ==> r == o.total.value
    ensures !Js.TruthyNum(o.total) && Js.TruthyNum(o.totalAmount) ==> r == o.totalAmount.value
    ensures !Js.TruthyNum(o.total) && !Js.TruthyNum(o.totalAmount) && Js.TruthyNum(o.amount) ==> r == o.amount.value
    ensures NoTotal(o) ==> r == 0
  {
    if Js.TruthyNum(o.total) then o.total.value
    else if Js.TruthyNum(o.totalAmount) then o.totalAmount.value
    else if Js.TruthyNum(o.amount) then o.amount.value
    else 0
  }

  /** `o.createdAt || o.createdDate || o.date || ""`, link by link. */
  function CreatedChain(o: RawOrder): (r: string)
    ensures Js.Truthy(o.createdAt) ==> r == o.createdAt.value
    ensures !Js.Truthy(o.createdAt) && Js.Truthy(o.createdDate) ==> r == o.createdDate.value
    ensures !Js.Truthy(o.createdAt) && !Js.Truthy(o.createdDate) && Js.Truthy(o.date) ==> r == o.date.value
    ensures !Js.Truthy(o.createdAt) && !Js.Truthy(o.createdDate) && !Js.Truthy(o.date) ==> r == ""
  {
    if Js.Truthy(o.createdAt) then o.createdAt.value
    else if Js.Truthy(o.createdDate) then o.createdDate.value
    else if Js.Truthy(o.date) then o.date.value
    else ""
  }

  /** `normaliseOrder`: a missing order stays missing; otherwise every field is read
      through its chain of alternatives. */
  function NormaliseOrder(raw: Option<RawOrder>): (r: Option<Order>)
    ensures r.None? <==> raw.None?
    ensures r.Some? ==> r.value.state != "" && r.value.clientName != "" && r.value.channel != ""
    ensures r.Some? && Js.Truthy(raw.value.state) ==> r.value.state == raw.value.state.value
    ensures r.Some? && !Js.Truthy(raw.value.state) && Js.Truthy(raw.value.status) ==> r.value.state == raw.value.status.value
    ensures r.Some? && !Js.Truthy(raw.value.state) && !Js.Truthy(raw.value.status) ==> r.value.state == "PENDING"
    ensures r.Some? ==> r.value.clientName == NameChain(raw.value)
    ensures r.Some? ==> r.value.clientPhone == PhoneChain(raw.value)
    ensures r.Some? ==> r.value.clientAddress == NormaliseAddress(raw.value)
    ensures r.Some? && Js.Truthy(raw.value.channel) ==> r.value.channel == raw.value.channel.value
    ensures r.Some? && !Js.Truthy(raw.value.channel) && Js.Truthy(raw.value.source) ==> r.value.channel == raw.value.source.value
    ensures r.Some? && !Js.Truthy(raw.value.channel) && !Js.Truthy(raw.value.source) ==> r.value.channel == "—"
    ensures r.Some? ==> ItemsNormalised(RawItems(raw.value), r.value.items)
    ensures r.Some? ==> r.value.total == TotalChain(raw.value)
    ensures r.Some? && NoTotal(raw.value) ==> r.value.total == 0
    ensures r.Some? ==> r.value.createdAt == CreatedChain(raw.value)
  {
    if raw.None? then None
    else
      var o := raw.value;
      var items := RawItems(o);
      Some(Order(
        Js.Or(o.state, Js.Or(o.status, "PENDING")),
        NameChain(o),
        PhoneChain(o),
        NormaliseAddress(o),
        Js.Or(o.channel, Js.Or(o.source, "—")),
        seq(|items|, k requires 0 <= k < |items| => NormaliseItem(items[k])),
        TotalChain(o),
        CreatedChain(o)))
  }

  /** An empty `items` array hides a non-empty `orderItems`. */
  lemma EmptyItemsHideOrderItems(o: RawOrder)
    requires o.items == Some([]) && o.orderItems.Some? && o.orderItems.value != []
    ensures NormaliseOrder(Some(o)).value.items == []
  {
  }

  /** `API_TRANSITIONS`. */
  const ApiTransitions: map<string, seq<string>> := map[
    "PENDING" := ["CONFIRMED", "CANCELLED"],
    "CONFIRMED" := ["PREPARING", "CANCELLED"],
    "PREPARING" := ["SHIPPED", "CANCELLED"],
    "SHIPPED" := ["DELIVERED"],
    "DELIVERED" := [],
    "CANCELLED" := []]

  /** The page's copy agrees with the constants module entry for entry. */
  lemma ApiTransitionsAgree()
    ensures ApiTransitions == OrderStates.StateTransitions
  {
  }

  /** `API_TRANSITIONS[norm.state] || []`: the offered next states. */
  function NextStates(state: string): (r: seq<string>)
    ensures state !in ApiTransitions ==> r == []
    ensures forall s :: OrderStates.Name(s) == state ==> r == OrderStates.Names(OrderStates.Successors(s))
  {
    if state in ApiTransitions then ApiTransitions[state] else []
  }

  /** The lookup is case-sensitive: a lower-case state offers nothing. */
  lemma NextStatesCaseSensitive()
    ensures NextStates("pending") == [] && NextStates("Pendiente") == []
  {
  }

  /** Cancelling is offered exactly for PENDING, CONFIRMED and PREPARING orders. */
  lemma CancelOffered(state: string)
    ensures "CANCELLED" in NextStates(state) <==> state in {"PENDING", "CONFIRMED", "PREPARING"}
  {
  }

  /** The "Sin dirección" flag of the order list. */
  predicate MissingAddressFlag(o: Order) {
    o.clientAddress == "" && o.state != "CANCELLED"
  }

  /** The "Editar" address button. */
  predicate CanEditAddress(o: Order) {
    o.state != "SHIPPED" && o.state != "DELIVERED"
  }

  /** The confirm button of the transition dialog. */
  predicate ConfirmDisabled(saving: bool, newState: string, o: Order) {
    saving || (newState == "SHIPPED" && o.clientAddress == "")
  }

  /** Shipping is blocked exactly for orders the list flags, among those that can ship. */
  lemma ShipBlockedIffFlagged(o: Order)
    requires "SHIPPED" in NextStates(o.state)
    ensures ConfirmDisabled(false, "SHIPPED", o) <==> MissingAddressFlag(o)
    ensures CanEditAddress(o)
  {
  }

  /** The page fields of a list response. */
  datatype PageInfo = PageInfo(number: Option<int>, totalPages: Option<int>)

  /** `(number ?? 0) + 1 < (totalPages ?? 1)`. */
  function HasMore(number: Option<int>, totalPages: Option<int>): (r: bool)
    ensures number.None? && totalPages.None? ==> !r
    ensures number.Some? && totalPages.Some? ==> (r <==> number.value + 1 < totalPages.value)
    ensures r <==> number.GetOr(0) + 1 < totalPages.GetOr(1)
  {
    number.GetOr(0) + 1 < totalPages.GetOr(1)
  }

  /** The pagination state of the order list. */
  class OrdersPager {
    var currentPage: int
    var hasMore: bool

    constructor ()
      ensures currentPage == 0 && !hasMore
    {
      currentPage, hasMore := 0, false;
    }

    /** The first page after a filter change: the page resets to 0 even when
        nothing comes back; `hasMore` is read from a returned page. */
    method FirstPageLoaded(data: Option<PageInfo>)
      modifies this
      ensures currentPage == 0
      ensures data.Some? ==> hasMore == HasMore(data.value.number, data.value.totalPages)
      ensures data.None? ==> hasMore == old(hasMore)
    {
      currentPage := 0;
      if data.Some? {
        hasMore := HasMore(data.value.number, data.value.totalPages);
      }
    }

    /** `handleLoadMore`: advances only when a page comes back, and then judges
        `hasMore` by the requested page number rather than the returned one. */
    method LoadMore(data: Option<PageInfo>)
      modifies this
      ensures data.Some? ==> currentPage == old(currentPage) + 1
      ensures data.Some? ==> (hasMore <==> currentPage + 1 < data.value.totalPages.GetOr(1))
      ensures data.None? ==> currentPage == old(currentPage) && hasMore == old(hasMore)
    {
      var nextPage := currentPage + 1;
      if data.Some? {
        currentPage := nextPage;
        hasMore := nextPage + 1 < data.value.totalPages.GetOr(1);
      }
    }

    /** The retry button: like the first load, but the page resets only when a
        page comes back. */
    method Retry(data: Option<PageInfo>)
      modifies this
      ensures data.Some? ==> currentPage == 0 && hasMore == HasMore(data.value.number, data.value.totalPages)
      ensures data.None? ==> currentPage == old(currentPage) && hasMore == old(hasMore)
    {
      if data.Some? {
        currentPage := 0;
        hasMore := HasMore(data.value.number, data.value.totalPages);
      }
    }
  }

  /** With a fixed page count the "load more" button disappears on the last page. */
  lemma LoadMoreStopsAtLastPage(page: int, totalPages: int)
    requires 0 <= page && page + 1 < totalPages
    ensures HasMore(Some(page), Some(totalPages))
    ensures !HasMore(Some(totalPages - 1), Some(totalPages))
  {
  }

  /** The store hook as shipped resolves `fetchOrders` to nothing, whatever page is
      asked for. However often the list loads, "load more" is pressed or the retry
      button is used, the pager then stays on page 0 and never offers more. */
  method PagerWithStoreAsShipped(presses: nat) returns (page: int, more: bool)
    ensures page == 0 && !more
  {
    var pager := new OrdersPager();
    pager.FirstPageLoaded(None);
    var k := 0;
    while k < presses
      invariant pager.currentPage == 0 && !pager.hasMore
    {
      pager.LoadMore(None);
      pager.Retry(None);
      pager.FirstPageLoaded(None);
      k := k + 1;
    }
    page, more := pager.currentPage, pager.hasMore;
  }
}
