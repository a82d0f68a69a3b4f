# Store dashboard — a Dafny model of its client-side rules

The store dashboard is a React front end for a small clothing shop. Its backend owns
stock, orders and reports. The browser side still decides a good deal:
- which next states an order may take;
- how much of a variant can still be sold;
- how the order form and the cash desk build a cart (one line per variant, merged
  on repeat adds);
- how backend payloads with inconsistently named fields are normalised;
- how the report cards avoid showing `NaN`;
- how an HTTP response becomes data or an error, and when the session ends.

This project models those rules in Dafny and proves what they promise.

Modelling conventions:
- Money is integer cents and dates are integer day numbers.
- JSON `null`/`undefined` are `Option.None`.
- JavaScript truthiness, `||`, `??` and `String(x)` are written out (modules `Js` and `Text`).
- Network calls, JSON parsing and the browser's session storage are parameters or
  object fields.

Modules:
- `Wrappers`: the `Option` type, with `??` as `GetOr`.
- `Text`: decimal numerals and their parser, padding, trimming, lower-casing, joining.
- `Js`: truthiness, `||` chains, `filter(Boolean)`, JSON values and `String(json)`.
- `Payloads`: identifiers, products, variants, balances, cart lines, raw orders.
- `OrderStates`: the six-state machine of `src/constants/index.js`.
- `Stock`: availability, the stock badge, order totals and order ids (`src/utils/index.js`).
- `Store`: the store hook, a class over its state slots (`src/hooks/useStore.js`).
- `Cart`: the merge-or-append and remove-by-position rules both carts share.
- `CreateOrder`: the new-order form, a class with its cart (`src/components/CreateOrderModal.jsx`).
- `Caja`: the inventory table, adjust dialog and direct-sale panel (`src/pages/CajaPage.jsx`).
- `Pedidos`: order normalisation, next states, paging and guards (`src/pages/PedidosPage.jsx`).
- `Reportes`: safe numbers, generated date ranges, chart totals, paging, low stock, pending count (`src/pages/ReportesPage.jsx`).
- `Client`: token store, headers, response classification, query parameters (`src/api/client.js`).
- `Login`: the login form and token choice (`src/pages/LoginPage.jsx`).

Some of the code's behaviour differs from what a caller might expect. The model
follows the code:
- A caller might expect the next-state lookup to ignore case. The code looks the
  state up as received, so `Pedidos.NextStatesCaseSensitive` holds.
- A caller might expect availability to be clamped at 0. `availableStock` and
  `getAvailable` do not clamp (`Store.OverReservedIsNegative`). Only the reports'
  low-stock card clamps (`Reportes.OverReservedRowDiffersFromBadge`).
- The DELIVERED dot colour is "#059669" as in the constants, although
  `src/constants/index.test.js` expects "#14B8A6".

## Model

| member | source | states |
|---|---|---|
| OrderStates.Parse | src/constants/index.js:3-10 | a name parses exactly when it is one of the six enum values, and parses to the state with that name |
| OrderStates.StateNamesDistinct | src/constants/index.js:3-10 | the six names are distinct, and the transition table has exactly them as keys |
| OrderStates.TransitionTableAgrees | src/constants/index.js:21-28 | every state has a table entry, and it lists the names of its typed successors |
| OrderStates.SuccessorsAreStates | src/constants/index.js:21-28 | every listed successor is one of the six states |
| OrderStates.LabelsAndColoursTotal | src/constants/index.js:12-44 | every state has a label and a colour; the label's fallback colour entry equals the state's own |
| OrderStates.TerminalStates | src/constants/index.js:26-27 | a state has no successor exactly when it is DELIVERED or CANCELLED |
| OrderStates.CancelRule | src/constants/index.js:22-25 | CANCELLED is offered exactly from PENDING, CONFIRMED and PREPARING, always last; SHIPPED leads only to DELIVERED |
| OrderStates.SuccessorRaisesRank | src/constants/index.js:21-28 | each step raises the rank strictly, so no state is its own successor |
| OrderStates.PathRanks | src/constants/index.js:21-28 | along a path the rank grows by at least one per step |
| OrderStates.PathIsSimple | src/constants/index.js:21-28 | no path visits a state twice (the graph is acyclic) |
| OrderStates.PathFromPendingBounded | src/constants/index.js:21-28 | a path from PENDING has at most 4 steps, and a 4-step path ends at DELIVERED |
| OrderStates.MaximalPathEndsTerminal | src/constants/index.js:21-28 | a path from PENDING that cannot be extended ends at DELIVERED or CANCELLED |
| Stock.AvailableStock | src/utils/index.js:11 | availability plus reserved is stock, with no clamping; it is negative exactly when more is reserved than held |
| Stock.StockStatus | src/utils/index.js:13-18 | "Agotado" and red exactly at 0; otherwise a label reading back as the count, amber for counts at most 3 (negatives included), green above 3 |
| Stock.UnitsLabelRoundTrip | src/utils/index.js:16-17 | the "`n` un." label reads back as `n` and is never "Agotado" |
| Stock.TotalNonNegative | src/utils/index.js:22-23 | a cart with non-negative prices and quantities has a non-negative total |
| Stock.CalcOrderTotal | src/utils/index.js:22-23 | 0 for an empty cart and the line's subtotal for one line; its partners `Stock.TotalAppend`, `Stock.TotalUpdate` and `Stock.TotalNonNegative` state how it behaves over concatenation, replacement and signs |
| Stock.TotalAppend | src/utils/index.js:22-23 | the total is additive over concatenation (and 0 for an empty cart) |
| Stock.TotalUpdate | src/utils/index.js:22-23 | replacing a line changes the total by the two lines' subtotals |
| Stock.GenerateOrderId | src/utils/index.js:25-26 | the id is "ORD-", then zeros, then the full decimal count; at least 7 characters, never truncated |
| Stock.OrderIdRoundTrip | src/utils/index.js:25-26 | the count reads back from the id of every non-negative count |
| Stock.OrderIdInjective | src/utils/index.js:25-26 | distinct non-negative counts give distinct ids |
| Stock.OrderIdLength | src/utils/index.js:25-26 | the id has length 7 exactly when the count is below 1000 |
| Stock.NegativeOrderId | src/utils/index.js:25-26 | a negative count gives an id that does not read back as a count |
| Store.GetBalance | src/hooks/useStore.js:97-103 | none exactly when no balance matches by `variantId`, nested `variant.id` or string form; else a matching balance |
| Store.GetBalanceFirst | src/hooks/useStore.js:97-103 | the balance found is the first matching one |
| Store.StockOf | src/hooks/useStore.js:108 | `stock`, else `quantity`, else 0 |
| Store.ReservedOf | src/hooks/useStore.js:109 | `reserved`, else `reservedQty`, else 0 |
| Store.GetAvailable | src/hooks/useStore.js:105-111 | 0 without a matching balance; else stock minus reserved of the first match, unclamped |
| Store.OverReservedIsNegative | src/hooks/useStore.js:110 | 2 in stock and 5 reserved give -3 |
| Store.MissingIdMatchesUndefined | src/hooks/useStore.js:101 | a balance whose `variantId` field is absent matches the id text "undefined" |
| Store.FetchErrorMessage | src/hooks/useStore.js:35-37 | "Failed to fetch" becomes the connection message, other messages are kept, a missing one becomes "Error de conexión"; never empty |
| Store.FetchErrorMessageIdempotent | src/hooks/useStore.js:35-37 | mapping an already mapped message changes nothing |
| Store.VariantsOf | src/hooks/useStore.js:29-30 | a failed or empty lookup gives [] |
| Store.WithVariants | src/hooks/useStore.js:27-32 | one product per listed product, same order, id and name kept, variants from its own lookup |
| Store.Store.StartLoad | src/hooks/useStore.js:18 | only the key's flag changes, to true |
| Store.Store.EndLoad | src/hooks/useStore.js:19 | only the key's flag changes, to false |
| Store.Store.FetchProducts | src/hooks/useStore.js:23-41 | success replaces the products; failure keeps them and overwrites the error slot; the flag ends false |
| Store.Store.FetchBalances | src/hooks/useStore.js:77-89 | the same pattern for balances under "inventory" |
| Store.Store.FetchOrders | src/hooks/useStore.js:115-127 | the same pattern for orders under "orders" |
| Cart.LineIndex | src/components/CreateOrderModal.jsx:31 | -1 exactly when no line has the key; else the first line with it |
| Cart.MergeOrAppend | src/components/CreateOrderModal.jsx:31-42 | when the variant is present, the same length, with the first line of that variant raised by the added quantity and every other line unchanged; else the line appended at the end; keys kept |
| Cart.RemoveAt | src/components/CreateOrderModal.jsx:131 | drops exactly position `i`, keeping order; out of range changes nothing |
| Cart.MergeQuantity | src/components/CreateOrderModal.jsx:31-41 | the variant's held quantity rises by the added quantity; other variants' do not change |
| Cart.MergeDistinct | src/components/CreateOrderModal.jsx:31-42 | adding keeps at most one line per variant |
| Cart.MergeTotal | src/components/CreateOrderModal.jsx:46 | adding raises the total by quantity times the price of the line the units land in |
| Cart.RemoveQuantity | src/components/CreateOrderModal.jsx:131 | removing a line removes exactly its units from its variant |
| Cart.RemoveTotal | src/components/CreateOrderModal.jsx:131 | removing a line lowers the total by its subtotal |
| Cart.RemoveDistinct | src/components/CreateOrderModal.jsx:131 | removing keeps at most one line per variant |
| Cart.RemoveUndoesAppend | src/components/CreateOrderModal.jsx:131 | removing a freshly appended line gives the cart back |
| Js.FindByKey | src/components/CreateOrderModal.jsx:21-22 | `find` by key: none exactly when no element has the wanted key; else an element of the list that has it |
| Js.FindByKeyFirst | src/components/CreateOrderModal.jsx:21-22 | `find` returns the first element with the wanted key |
| CreateOrder.FindProduct | src/components/CreateOrderModal.jsx:21 | none exactly when no product id reads as the picked id; else one that does |
| CreateOrder.FindProductFirst | src/components/CreateOrderModal.jsx:21 | the product found is the first whose id reads as the picked id |
| CreateOrder.FindVariant | src/components/CreateOrderModal.jsx:22 | none without a product or matching variant; else a variant of that product with the picked id |
| CreateOrder.FindVariantFirst | src/components/CreateOrderModal.jsx:22 | the variant found is the product's first whose id reads as the picked id |
| CreateOrder.PickerAvail | src/components/CreateOrderModal.jsx:23 | 0 when no variant is picked; otherwise the store's available stock for the picked variant's id |
| CreateOrder.VariantLabel | src/components/CreateOrderModal.jsx:25-26 | "size / colour", or whichever is present, else the sku, else the id |
| CreateOrder.LinePrice | src/components/CreateOrderModal.jsx:40 | `price`, else `unitPrice`, else 0 |
| CreateOrder.AddGuard | src/components/CreateOrderModal.jsx:29-30 | ignored exactly when nothing is picked or qty < 1; refused with the available count exactly when qty exceeds it |
| CreateOrder.PickedLine | src/components/CreateOrderModal.jsx:35-41 | a line exists exactly when a variant is picked, keyed by the picked variant's id with the picked quantity, the product's name, the variant's label and its price |
| CreateOrder.AcceptedHasVariant | src/components/CreateOrderModal.jsx:23-30 | an accepted add always has a picked variant |
| CreateOrder.GuardIgnoresCartQuantity | src/components/CreateOrderModal.jsx:30-33 | the guard checks only the added quantity: two adds of 2 against 2 available leave 4 in the line |
| CreateOrder.ItemBodies | src/components/CreateOrderModal.jsx:57 | one body item per cart line, in order, with only variant id and quantity |
| CreateOrder.OrderForm.constructor | src/components/CreateOrderModal.jsx:10-19 | empty fields, channel WHATSAPP, quantity 1 |
| CreateOrder.OrderForm.AddItem | src/components/CreateOrderModal.jsx:28-44 | ignored: nothing changes; insufficient: the toast with the count and nothing changes; accepted: merge-or-append of the picked line and the picker reset; client fields untouched |
| CreateOrder.OrderForm.RemoveItem | src/components/CreateOrderModal.jsx:131 | the cart loses position `i`, still one line per variant |
| CreateOrder.OrderForm.Submit | src/components/CreateOrderModal.jsx:48-58 | rejects a missing name, then phone, then empty cart, in that order; otherwise the body mirrors the form and the cart |
| CreateOrder.BodyVariantsDistinct | src/components/CreateOrderModal.jsx:57 | a body built from a valid cart names each variant once |
| Caja.VariantPrice | src/pages/CajaPage.jsx:7-10 | first present of `price`, `unitPrice`, `attributes.price`, `attributes.unitPrice`, else 0 |
| Caja.PriceAgreesWithOrderForm | src/pages/CajaPage.jsx:7-10 | matches the order form's price whenever a root price field is present |
| Caja.VariantTalla | src/pages/CajaPage.jsx:11-13 | the first present of `size`, `talla`, `attributes.size` and `attributes.talla`, each case stated, else "—" |
| Caja.VariantColor | src/pages/CajaPage.jsx:14-16 | `color`, else `attributes.color`, else "—" |
| Caja.SearchProducts | src/pages/CajaPage.jsx:39-42 | keeps exactly the products whose lower-cased name contains the lower-cased query or whose id text contains it |
| Caja.SearchAppend | src/pages/CajaPage.jsx:39-42 | filtering keeps the products' order |
| Caja.SearchEmptyKeepsAll | src/pages/CajaPage.jsx:39-42 | an empty query keeps every product |
| Caja.StockColor | src/pages/CajaPage.jsx:44-45 | red exactly at 0, amber for non-zero at most 3, green above |
| Caja.StockColorAgrees | src/pages/CajaPage.jsx:44-45 | gives the same colour as the utilities' badge |
| Caja.AvailCell | src/pages/CajaPage.jsx:130 | "Agotado" exactly at 0; otherwise the count, reading back |
| Caja.TableBalance | src/pages/CajaPage.jsx:34-37 | none exactly when no balance's `variantId ?? variant.id ?? id` reads as the variant id; else a balance whose key does |
| Caja.TableBalanceFirst | src/pages/CajaPage.jsx:34-37 | the balance found is the first whose key reads as the variant id |
| Caja.RowStock | src/pages/CajaPage.jsx:113-117 | stock and reserved from the balance, else the variant, else 0; availability is their difference |
| Caja.TableLookupDiffersFromStore | src/pages/CajaPage.jsx:34-37 | a balance found by the store through `variant.id` is missed by the table when `variantId` differs |
| Caja.AdjustSaveAllowed | src/pages/CajaPage.jsx:159 | save proceeds exactly when the quantity is non-zero and the reason has a non-space character |
| Caja.FindInVariants | src/pages/CajaPage.jsx:200-202 | none exactly when no variant's id or (case-insensitive) sku matches the code; else the first variant that matches |
| Caja.FirstVariantMatch | src/pages/CajaPage.jsx:199-205 | none exactly when no product has a match; else a matching variant of a listed product |
| Caja.FirstVariantMatchEarliest | src/pages/CajaPage.jsx:199-205 | the match comes from the first product that has one |
| Caja.FindSaleVariant | src/pages/CajaPage.jsx:196-206 | none for a blank code; else the first match for the trimmed code (the loop with early return) |
| Caja.SaleAcceptsNonPositiveQuantity | src/pages/CajaPage.jsx:213-215 | the desk's guard lets quantities 0 and -2 through, where the order form ignores them |
| Caja.SaleLabel | src/pages/CajaPage.jsx:217-220 | "talla / colour" when neither is "—"; the one that is set and non-empty when the other is "—"; the sku, else the id, else "—" when both are "—" or one is "—" and the other empty; never empty |
| Caja.DirectSaleAdjustments | src/pages/CajaPage.jsx:325-327 | one adjustment per line, in order, with the negated quantity and the fixed reason |
| Caja.DirectSaleRemovesUnits | src/pages/CajaPage.jsx:325-327 | the adjustments' net effect is minus the cart's units |
| Caja.SalePanel.SaleLine | src/pages/CajaPage.jsx:216-220 | the line carries the variant id, the quantity and the desk's price |
| Caja.SalePanel.AddToList | src/pages/CajaPage.jsx:212-222 | nothing found or too little available: nothing changes; else merge-or-append and reset of code and quantity; one line per variant kept |
| Caja.SalePanel.RemoveFromList | src/pages/CajaPage.jsx:275 | the list loses position `i` |
| Caja.SalePanel.ClearList | src/pages/CajaPage.jsx:286 | the list becomes empty |
| Caja.SalePanel.Sell | src/pages/CajaPage.jsx:224-228 | the adjustments for the current list; the list empties only when the sale succeeds |
| Pedidos.NormaliseAddress | src/pages/PedidosPage.jsx:15-19 | `clientAddress`, `client.address`, `address` in turn, then the shipping parts joined by ", " |
| Pedidos.AddressEmptyIff | src/pages/PedidosPage.jsx:15-19 | the address is empty exactly when all six sources are empty or missing |
| Pedidos.SizeColor | src/pages/PedidosPage.jsx:33 | size (or talla) and colour joined by "/", whichever is set alone, else "" |
| Pedidos.ItemVariant | src/pages/PedidosPage.jsx:33 | never empty; the first non-empty of `variant`, `variantLabel`, `variantName`, `variantSku`, the size/colour text, else "—", each case stated |
| Pedidos.NormaliseItem | src/pages/PedidosPage.jsx:31-38 | product name: `productName`, `product.name`, `name`, else "Producto"; quantity: `quantity`, `qty`, else 0; price: `price`, `unitPrice`, `unit_price`, else 0; each link stated |
| Pedidos.RawItems | src/pages/PedidosPage.jsx:31 | `items` when present (even empty), else `orderItems`, else [] |
| Pedidos.NameChain | src/pages/PedidosPage.jsx:25 | `clientName`, `client.name`, `customerName`, else "—", each link stated |
| Pedidos.PhoneChain | src/pages/PedidosPage.jsx:26 | `clientPhone`, `client.phone`, `phone`, else `customerPhone ?? ""`, each link stated |
| Pedidos.TotalChain | src/pages/PedidosPage.jsx:38 | `total`, `totalAmount`, `amount`, else 0, each link stated |
| Pedidos.CreatedChain | src/pages/PedidosPage.jsx:39 | `createdAt`, `createdDate`, `date`, else "", each link stated |
| Pedidos.NormaliseOrder | src/pages/PedidosPage.jsx:12-41 | missing stays missing; state is `state`, else `status`, else PENDING; channel is `channel`, else `source`, else "—"; name, phone, address, total and date follow their chains; items mapped one for one |
| Pedidos.EmptyItemsHideOrderItems | src/pages/PedidosPage.jsx:31 | an empty `items` array hides a non-empty `orderItems` |
| Pedidos.ApiTransitionsAgree | src/pages/PedidosPage.jsx:44-51 | the page's table equals the constants' table entry for entry |
| Pedidos.NextStates | src/pages/PedidosPage.jsx:167 | an unknown state offers nothing; a known one offers its successors' names |
| Pedidos.NextStatesCaseSensitive | src/pages/PedidosPage.jsx:167 | lower-case or Spanish state names offer nothing |
| Pedidos.CancelOffered | src/pages/PedidosPage.jsx:44-51 | cancelling is offered exactly for PENDING, CONFIRMED and PREPARING |
| Pedidos.ShipBlockedIffFlagged | src/pages/PedidosPage.jsx:303-311 | for an order that can ship, the ship confirmation is blocked exactly when the list flags it; its address is editable |
| Pedidos.HasMore | src/pages/PedidosPage.jsx:343-344 | more pages exactly when (number ?? 0) + 1 < (totalPages ?? 1) |
| Pedidos.OrdersPager.FirstPageLoaded | src/pages/PedidosPage.jsx:338-348 | the page resets to 0; `hasMore` is recomputed when a page came back |
| Pedidos.OrdersPager.LoadMore | src/pages/PedidosPage.jsx:350-360 | advances by one only when a page came back, judging `hasMore` by the requested page |
| Pedidos.OrdersPager.Retry | src/pages/PedidosPage.jsx:419 | a returned page resets to 0 and recomputes `hasMore`; otherwise nothing changes |
| Pedidos.PagerWithStoreAsShipped | src/hooks/useStore.js:115-126 | with list calls that resolve to nothing, the pager stays on page 0 and never offers more pages, however often it loads, retries or is asked for more |
| Pedidos.LoadMoreStopsAtLastPage | src/pages/PedidosPage.jsx:350-360 | more pages before the last one, none on it |
| Reportes.SafeNum | src/pages/ReportesPage.jsx:8-12 | 0 for null, undefined and NaN, else the number |
| Reportes.SafeDisplay | src/pages/ReportesPage.jsx:15-20 | never "NaN", "undefined" or "null"; those inputs give "0"; a number gives its numeral; other texts pass through |
| Reportes.DecimalIsNoPlaceholder | src/pages/ReportesPage.jsx:18-19 | a numeral is never a placeholder word |
| Reportes.SafeDisplayIdempotent | src/pages/ReportesPage.jsx:15-20 | displaying a displayed value again changes nothing |
| Reportes.SafeDisplayNumberRoundTrip | src/pages/ReportesPage.jsx:15-20 | a displayed number reads back as itself |
| Reportes.SteppedShape | src/pages/ReportesPage.jsx:37-62 | entry `k` of a range is day `from + k*step` with zero totals, never after `to`; empty when `from` is after `to` |
| Reportes.SteppedComplete | src/pages/ReportesPage.jsx:37-62 | a range shorter than its cap stops only because the next day is past `to` |
| Reportes.WeeksBetween | src/pages/ReportesPage.jsx:37-48 | empty without a bound; else the weekly range from `from`, at most 53 entries |
| Reportes.DaysBetween | src/pages/ReportesPage.jsx:51-62 | empty without a bound; else the daily range from `from`, at most 366 entries |
| Reportes.ChartRows | src/pages/ReportesPage.jsx:117-119 | the report's weeks when there are any, else the generated weeks |
| Reportes.GeneratedSumZero | src/pages/ReportesPage.jsx:41-47 | generated bars add up to 0 |
| Reportes.RangeTotal | src/pages/ReportesPage.jsx:126 | the report's non-zero total, else the sum of the bars |
| Reportes.RangeTotalWithoutWeeks | src/pages/ReportesPage.jsx:118-126 | without weekly rows the total is the report's figure or 0 |
| Reportes.RankStart | src/pages/ReportesPage.jsx:248-249 | page × (page size, or 10 when it is 0 or missing) + 1 |
| Reportes.RanksContiguous | src/pages/ReportesPage.jsx:248-249 | page 0 starts at rank 1 and each page continues where the last stopped |
| Reportes.PagingStaysInRange | src/pages/ReportesPage.jsx:280-286 | with the controls shown, some button works and an enabled one stays within the pages |
| Reportes.LowStockBalances | src/pages/ReportesPage.jsx:383-387 | keeps exactly the balances with stock minus reserved at most 3, each as often as it occurs; a single balance is kept exactly when it is low |
| Reportes.LowStockAppend | src/pages/ReportesPage.jsx:383-387 | the filter keeps order: over `a + b` it is the filter of `a` followed by that of `b` |
| Reportes.LowStockCount | src/pages/ReportesPage.jsx:383-387 | at most the number of balances; 1 for a single low balance, else 0 |
| Reportes.LowStockIsAvailabilityAtMostThree | src/pages/ReportesPage.jsx:384-386 | the low-stock rule is the utilities' availability at most 3 |
| Reportes.LowStockCountAppend | src/pages/ReportesPage.jsx:383-387 | the count is additive over a split list |
| Reportes.LowRowLabel | src/pages/ReportesPage.jsx:458 | never empty; `variantSku`, else `variantLabel`, else `variant.label`, else "Variante " and the id text, each case stated |
| Reportes.LowStockRow | src/pages/ReportesPage.jsx:455-470 | the label through `safeDisplay` (a label "NaN", "undefined" or "null" shows "0"); stock and reserved as read; shown availability is max(0, stock − reserved); "Agotado" and red exactly at 0, else "Bajo stock" and amber |
| Reportes.LowStockRows | src/pages/ReportesPage.jsx:452-459 | one row per low-stock balance, as many as the card counts |
| Reportes.LowStockRowsBounded | src/pages/ReportesPage.jsx:453-459 | every row shows 0 to 3 available, "Agotado" exactly when reservations cover the stock |
| Reportes.OverReservedRowDiffersFromBadge | src/pages/ReportesPage.jsx:457-459 | 2 in stock and 5 reserved read "Agotado" here but "-3 un." on the utilities' badge |
| Reportes.PendingCount | src/pages/ReportesPage.jsx:380 | 0 exactly when no order's `state`, else `status`, is "PENDING"; the number of orders exactly when all are; 1 for a single pending order |
| Reportes.PendingCountAppend | src/pages/ReportesPage.jsx:380 | the count is additive over a split list |
| Reportes.PendingAgreesWithOrdersPage | src/pages/ReportesPage.jsx:380 | a counted order normalises to PENDING; an order with neither field normalises to PENDING but is not counted |
| Client.TokenStore.constructor | src/api/client.js:11 | the kept token, an empty one read as none |
| Client.TokenStore.Set | src/api/client.js:15-17 | held and saved as given; set exactly when non-empty |
| Client.TokenStore.Clear | src/api/client.js:16-17 | nothing held or saved; not set |
| Client.TokenStore.Receive | src/api/client.js:34-57 | 401 clears the token, raises one logout signal and fails with the session-expired message and no body; otherwise the classification, token untouched |
| Client.Headers | src/api/client.js:23-27 | JSON content type; "Bearer <token>" exactly when a token is set; caller headers win |
| Client.BodyData | src/api/client.js:44-46 | empty body is null, JSON is parsed, anything else is the raw text |
| Client.ErrorMessage | src/api/client.js:49-53 | the body's `message`, else `error`, else non-empty text body, else "Error <status>" |
| Client.ErrorMessageNonEmpty | src/api/client.js:49-53 | never empty unless the chosen field is an array |
| Client.Classify | src/api/client.js:41-57 | 204 is null; ok exactly for 204 and 2xx; a failure carries the status, the message and the parsed body |
| Client.PlainTextErrorBody | src/api/client.js:46-53 | a failed call with a non-JSON body reports that text |
| Client.EmptyErrorBody | src/api/client.js:53 | a failed call with an empty body reports "Error <status>", whose status reads back |
| Client.Lookup | src/api/client.js:129-132 | none exactly when the key was not set; else the first value set under it |
| Client.LookupAppend | src/api/client.js:129-132 | setting a new parameter leaves the earlier ones readable |
| Client.OrdersListQuery | src/api/client.js:128-134 | `status` exactly when truthy; page and size always, defaulting to 0 and 30 |
| Client.TopProductsQuery | src/api/client.js:214-221 | page and size defaulting to 0 and 10; `from` and `to` exactly when not null |
| Client.PageParamRoundTrip | src/api/client.js:128-134 | the page and size sent read back as asked |
| Client.EmptyFilterContrast | src/api/client.js:128-134 | an empty status is dropped but an empty date bound is sent |
| Login.SelectToken | src/pages/LoginPage.jsx:18-22 | the first truthy of `token`, `accessToken`, `jwt`, or the body when it is a non-empty text; none exactly when all fail |
| Login.TokenFieldWins | src/pages/LoginPage.jsx:18-22 | `token` wins over `accessToken`; an empty `token` falls through |
| Login.FromOutcome | src/pages/LoginPage.jsx:16-27 | a body for a successful call, the error's message for a failed one |
| Login.FailureMessage | src/pages/LoginPage.jsx:27 | the error's own message, else "Credenciales incorrectas"; never empty |
| Login.RejectedLoginShowsSessionExpired | src/pages/LoginPage.jsx:27 | a 401 from the login call shows the session-expired text |
| Login.LoginForm.Submit | src/pages/LoginPage.jsx:10-31 | empty fields: the prompt and nothing else; a token: stored, then `onLogin` called with it held; no token: "Respuesta inesperada del servidor"; a failure: its message; loading ends false after a call |

## Left out

- Rendering, styles and animations; the WhatsApp and order-history modals; the app wiring; the seed data.
- The network, `fetch`, `Promise.all` and effect timing: call results are parameters (`Fetched`, `Response`, `LoginResult`, `Option<PageInfo>`), and concurrent fetches are not modelled.
- `JSON.parse` is a parameter that may fail; URL encoding of query parameters is not modelled.
- The browser session storage is the `saved` field of `Client.TokenStore`; the "auth:logout" event is the `logoutSignals` counter.
- Locale formatting (`fmtCurrency`, `toLocaleString`) and real dates: dates are day numbers, so ISO text, time zones and `lastYearFrom`/`toInstantStart`/`toInstantEnd` are not modelled.
- Prices are integer cents, not floating point.
- CreateOrder.AddGuard: quantities are whole numbers. The form reads them with `Number(e.target.value)`, so a fractional quantity such as 1.5 passes `qty < 1` and reaches the cart; fractional input is not modelled.
- Caja.SaleAccepted: quantities are whole numbers. A fractional sale quantity read by `Number(e.target.value)` is not modelled.
- Caja.AdjustSaveAllowed: quantities are whole numbers. A fractional adjustment such as 0.5 passes the non-zero guard in the source; fractional input is not modelled.
- Lower-casing and trimming cover ASCII letters and spaces only.
- JSON `null` and a missing field are both `None`. They differ in two places. First, the page and size defaults of the query builders apply only to a missing argument; there `None` means missing. Second, `String(x)` writes "null" for a null identifier and "undefined" for a missing one, while `OptIdString(None)` is always "undefined". So for a balance whose `variantId` or `id` is an explicit `null`, the string comparisons of the store lookup (src/hooks/useStore.js:101) and of the inventory table (src/pages/CajaPage.jsx:35) match the text "null" in the source and "undefined" in the model.
- Product mutations (create, update, delete) and stock adjustments are a backend call followed by a refetch; only the refetch (`Store.Store.FetchProducts`/`FetchBalances`) is modelled.
- The `submitting`, `saving` and `selling` flags, success toasts and `onCreated` callbacks.
- Pedidos.OrdersPager: the store hook as shipped defines `fetchOrders(status)` without page and size parameters and resolves it to nothing. It also provides no `fetchPendingCount` or `fetchOrderById`. On the orders page every `data` is therefore undefined, so `hasMore` never turns true and "load more" never advances. `Pedidos.PagerWithStoreAsShipped` proves this. The pager methods take the page data as a parameter and model the page's handlers for a list call that does return a page.
- `ordersApi.list` answers a page object, which `fetchOrders` stores as-is; `Store.Store.FetchOrders` takes the list of orders. The orders page's handlers take the page fields as a parameter.
- The `...p` and `...o` spreads keep extra backend fields; the model keeps only the fields the rules read.
- `u[idx].quantity += qty` mutates the line object shared with the previous list. The model builds a new sequence, so that aliasing is not captured.
- The day chart (`DayChart`) draws the same zero-filled fallback as the range chart, from `Reportes.DaysBetween`; its bar layout is not modelled.
- The top-products row labels and bar widths are not modelled.
- Pedidos.NextStates: only the table's own keys are modelled. The source indexes a plain object (`API_TRANSITIONS[state] || []`), so a state named after an inherited `Object.prototype` member, such as "constructor" or "hasOwnProperty", yields a function. The detail view then sees a non-zero `length` and fails at `nextStates.map` while rendering. The model offers nothing for such a state.
- Reportes.SafeNum: does not model `Number(x)` coercion of texts and booleans; its input is null, undefined, NaN or an integer.
- Login.LoginForm.Submit: a token that is not a text is held as its string form (`String(token)`); the source holds the raw value.
- Stock.CalcOrderTotal: non-negativity is proved by `Stock.TotalNonNegative` for non-negative prices and quantities, since the source does not restrict signs.
