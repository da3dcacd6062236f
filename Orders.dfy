/** What `handleSubmitOrder` (app/cart/page.js) builds from the cart: the
    order-creation request body and, after the backend accepts it, the record
    archived under the `placedOrders` storage key. */
module Orders {
  import opened Seqs
  import opened CartLines

  /** The contact form fields. */
  datatype Contact = Contact(name: string, email: string, phone: string, address: string)

  /** One entry of the request's `items`: `{product_id, quantity}`. */
  datatype PayloadItem = PayloadItem(productId: nat, quantity: int)

  /** The order-creation request body. */
  datatype OrderPayload = OrderPayload(
    contact: Contact,
    totalPrice: int,
    sessionId: string,
    items: seq<PayloadItem>)

  /** One item of an archived order: product id and title, quantity, price snapshot. */
  datatype PlacedItem = PlacedItem(productId: nat, title: string, quantity: int, price: nat)

  /** The record appended to `placedOrders` after a successful submission. */
  datatype PlacedOrder = PlacedOrder(
    id: nat,
    contact: Contact,
    totalPrice: int,
    status: string,
    created: string,
    items: seq<PlacedItem>)

  /** The status every archived order starts with. */
  const PendingStatus := "pending"

  /** `!name || !phone` rejects the form: both must be non-empty. */
  predicate ContactComplete(c: Contact)
  {
    c.name != "" && c.phone != ""
  }

  /** `sessionStorage.getItem("sessionId") || generated`: a stored non-empty id
      is reused, anything else is replaced by the newly generated one. */
  function ResolveSessionId(stored: Option<string>, generated: string): (sid: string)
    ensures stored.Some? && stored.value != "" ==> sid == stored.value
    ensures stored.None? || stored.value == "" ==> sid == generated
  {
    if stored.Some? && stored.value != "" then stored.value else generated
  }

  /** Once an id has been stored, the next submission reuses it. */
  lemma SessionIdIsStable(stored: Option<string>, generated1: string, generated2: string)
    requires ResolveSessionId(stored, generated1) != ""
    ensures ResolveSessionId(Some(ResolveSessionId(stored, generated1)), generated2)
         == ResolveSessionId(stored, generated1)
  {
  }

  /** `cart.map(item => ({product_id: item.product.id, quantity: item.quantity}))`. */
  function PayloadItems(cart: Cart): (r: seq<PayloadItem>)
    ensures |r| == |cart|
    ensures forall k :: 0 <= k < |cart| ==>
      r[k].productId == cart[k].product.id && r[k].quantity == cart[k].quantity
  {
    if cart == [] then []
    else [PayloadItem(cart[0].product.id, cart[0].quantity)] + PayloadItems(cart[1..])
  }

  /** The items of the archived record, one per cart line, in cart order. */
  function PlacedItems(cart: Cart): (r: seq<PlacedItem>)
    ensures |r| == |cart|
    ensures forall k :: 0 <= k < |cart| ==>
      && r[k].productId == cart[k].product.id
      && r[k].title == cart[k].product.title
      && r[k].quantity == cart[k].quantity
      && r[k].price == cart[k].price
  {
    if cart == [] then []
    else
      [PlacedItem(cart[0].product.id, cart[0].product.title, cart[0].quantity, cart[0].price)]
        + PlacedItems(cart[1..])
  }

  /** The request body for `cart` and the form. */
  function Payload(cart: Cart, contact: Contact, sessionId: string): (p: OrderPayload)
    ensures p.contact == contact && p.sessionId == sessionId
    ensures p.totalPrice == SumOfSubtotals(cart)
    ensures p.items == PayloadItems(cart)
  {
    SnapshotTotalIsSumOfSubtotals(cart);
    OrderPayload(contact, SnapshotTotal(cart), sessionId, PayloadItems(cart))
  }

  /** The archived record: the backend's order id, the client's own snapshot
      of the form and the cart, status "pending". `created` stands for
      `new Date().toISOString()`. */
  function PlacedRecord(orderId: nat, cart: Cart, contact: Contact, created: string): (o: PlacedOrder)
    ensures o.id == orderId && o.contact == contact && o.created == created
    ensures o.status == PendingStatus
    ensures o.totalPrice == SumOfSubtotals(cart)
    ensures o.items == PlacedItems(cart)
  {
    SnapshotTotalIsSumOfSubtotals(cart);
    PlacedOrder(orderId, contact, SnapshotTotal(cart), PendingStatus, created, PlacedItems(cart))
  }

  /** The archived record and the request agree on the total and on every item. */
  lemma RecordMatchesPayload(orderId: nat, cart: Cart, contact: Contact, sessionId: string, created: string)
    ensures var p := Payload(cart, contact, sessionId);
            var o := PlacedRecord(orderId, cart, contact, created);
            && o.totalPrice == p.totalPrice
            && |o.items| == |p.items|
            && forall k :: 0 <= k < |p.items| ==>
                 o.items[k].productId == p.items[k].productId && o.items[k].quantity == p.items[k].quantity
  {
  }
}
