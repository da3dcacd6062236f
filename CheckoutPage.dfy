/** The cart page (app/cart/page.js): the line editor, the totals and the
    checkout form's `handleSubmitOrder`. */
module CheckoutPage {
  import opened Seqs
  import opened CartLines
  import opened Orders
  import opened Storage

  /** How the order-creation request settled: the backend's new order id, or
      a non-ok response / network error. */
  datatype PlaceOutcome = Created(orderId: nat) | Rejected

  /** What one press of "Place order" did: stopped by validation before any
      request, or sent `payload` and failed, or sent it and archived `record`. */
  datatype Submission =
    | Invalid
    | Failed(payload: OrderPayload)
    | Placed(payload: OrderPayload, record: PlacedOrder)

  /** The page's component state; `storage` is the tab's session storage. */
  class CartPage {
    const storage: SessionStorage
    var cart: Cart
    var contact: Contact
    var loading: bool
    var orderSuccess: bool

    /** The cart is valid and, whenever a cart is stored, it is the one on
        screen. */
    ghost predicate Valid()
      reads this, storage
    {
      && storage.Valid()
      && ValidCart(cart)
      && (CartKey in storage.items ==> storage.items[CartKey] == CartJson(cart))
    }

    /** Mounting the page: the stored cart, if any, is loaded; the form is empty. */
    constructor (storage: SessionStorage)
      requires storage.Valid()
      ensures Valid() && this.storage == storage
      ensures cart == (match StoredCart(storage.items) case Some(c) => c case None => [])
      ensures contact == Contact("", "", "", "")
      ensures !loading && !orderSuccess
    {
      this.storage := storage;
      var stored := storage.GetItem(CartKey);
      cart := if stored.Some? then stored.value.lines else [];
      contact := Contact("", "", "", "");
      loading := false;
      orderSuccess := false;
    }

    /** `updateQuantity(itemId, newQuantity)`: the same rule as the storefront's. */
    method UpdateQuantity(itemId: string, newQuantity: int)
      requires Valid()
      modifies this`cart, storage
      ensures Valid()
      ensures cart == CartLines.UpdateQuantity(old(cart), itemId, newQuantity)
      ensures newQuantity < 1 ==> storage.items == old(storage.items)
      ensures newQuantity >= 1 ==> storage.items == old(storage.items)[CartKey := CartJson(cart)]
    {
      if newQuantity < 1 {
        return;
      }
      UpdateQuantityKeepsValid(cart, itemId, newQuantity);
      var updatedCart := CartLines.UpdateQuantity(cart, itemId, newQuantity);
      cart := updatedCart;
      storage.SetItem(CartKey, CartJson(updatedCart));
    }

    /** `removeItem(itemId)`: the same rule as the storefront's `removeFromCart`. */
    method RemoveItem(itemId: string)
      requires Valid()
      modifies this`cart, storage
      ensures Valid()
      ensures cart == RemoveLine(old(cart), itemId)
      ensures storage.items == old(storage.items)[CartKey := CartJson(cart)]
    {
      RemoveLineKeepsValid(cart, itemId);
      var updatedCart := RemoveLine(cart, itemId);
      cart := updatedCart;
      storage.SetItem(CartKey, CartJson(updatedCart));
    }

    /** `calculateTotal()`: the sum of `calculateSubtotal` over the lines,
        from the price snapshots. */
    function CalculateTotal(): (total: int)
      reads this
      ensures total == SumOfSubtotals(cart)
    {
      SnapshotTotalIsSumOfSubtotals(cart);
      SnapshotTotal(cart)
    }

    /** `handleSubmitOrder`. `generatedId` stands for the random session
        token, `outcome` for the backend's answer and `created` for the
        submission time. */
    method SubmitOrder(generatedId: string, outcome: PlaceOutcome, created: string) returns (r: Submission)
      requires Valid()
      modifies this`loading, this`orderSuccess, storage
      ensures Valid()
      // a missing name or phone stops everything: no request, no storage change
      ensures !ContactComplete(contact) ==>
        && r == Invalid
        && storage.items == old(storage.items)
        && loading == old(loading) && orderSuccess == old(orderSuccess)
      // otherwise the request is built from the cart and the (reused or new) session id ...
      ensures ContactComplete(contact) ==>
        var sid := ResolveSessionId(StoredSessionId(old(storage.items)), generatedId);
        && !r.Invalid?
        && r.payload == Payload(cart, contact, sid)
        && StoredSessionId(storage.items) == Some(sid)
        && !loading
      // ... a rejected request leaves everything else as it was ...
      ensures ContactComplete(contact) && outcome.Rejected? ==>
        var sid := ResolveSessionId(StoredSessionId(old(storage.items)), generatedId);
        && r.Failed?
        && storage.items == old(storage.items)[SessionIdKey := Text(sid)]
        && orderSuccess == old(orderSuccess)
      // ... and an accepted one appends one pending record and forgets the stored cart
      ensures ContactComplete(contact) && outcome.Created? ==>
        var sid := ResolveSessionId(StoredSessionId(old(storage.items)), generatedId);
        var record := PlacedRecord(outcome.orderId, cart, contact, created);
        && r == Placed(Payload(cart, contact, sid), record)
        && storage.items == (old(storage.items)[SessionIdKey := Text(sid)]
                               [PlacedOrdersKey := OrdersJson(StoredOrders(old(storage.items)) + [record])]
                             - {CartKey})
        && orderSuccess
    {
      if contact.name == "" || contact.phone == "" {
        return Invalid;
      }
      loading := true;

      var sessionId := ResolveSessionId(StoredSessionId(storage.items), generatedId);
      storage.SetItem(SessionIdKey, Text(sessionId));
      var payload := Payload(cart, contact, sessionId);

      match outcome {
        case Rejected =>
          r := Failed(payload);
        case Created(orderId) =>
          var newOrder := PlacedRecord(orderId, cart, contact, created);
          var existingOrders := StoredOrders(storage.items);
          existingOrders := existingOrders + [newOrder];
          storage.SetItem(PlacedOrdersKey, OrdersJson(existingOrders));
          storage.RemoveItem(CartKey);
          orderSuccess := true;
          r := Placed(payload, newOrder);
      }
      loading := false;
    }
  }

  /** Two submissions in one tab send the same session id, whatever the
      first one's outcome, as long as the first generated token is not empty. */
  method SubmitTwice(page: CartPage, generated1: string, outcome1: PlaceOutcome,
                     generated2: string, outcome2: PlaceOutcome, created: string)
    returns (first: Submission, second: Submission)
    requires page.Valid() && ContactComplete(page.contact)
    requires generated1 != ""
    modifies page, page.storage
    ensures !first.Invalid? && !second.Invalid?
    ensures first.payload.sessionId == second.payload.sessionId
  {
    first := page.SubmitOrder(generated1, outcome1, created);
    second := page.SubmitOrder(generated2, outcome2, created);
  }
}
