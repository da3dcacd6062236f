/** The order dashboard (app/dashboard/page.js): the order list loaded from
    the backend, the search box, the status badge and the status update that
    is applied only once the backend confirms it. */
module Dashboard {
  import opened Seqs
  import opened Text

  /** One item of a backend order. */
  datatype OrderItem = OrderItem(productId: nat, title: string, quantity: int, price: nat, lineTotal: int)

  /** A backend order. Name, email and phone may be missing (`order.name?`). */
  datatype Order = Order(
    id: nat,
    name: Option<string>,
    email: Option<string>,
    phone: Option<string>,
    address: string,
    totalPrice: int,
    status: string,
    created: string,
    items: seq<OrderItem>)

  // ---------------------------------------------------------- status update

  /** `orders.map(order => order.id === orderId ? {...order, status: newStatus} : order)`. */
  function WithStatus(orders: seq<Order>, orderId: nat, newStatus: string): (r: seq<Order>)
    ensures |r| == |orders|
    ensures forall k :: 0 <= k < |orders| && orders[k].id == orderId ==> r[k] == orders[k].(status := newStatus)
    ensures forall k :: 0 <= k < |orders| && orders[k].id != orderId ==> r[k] == orders[k]
  {
    if orders == [] then []
    else
      [if orders[0].id == orderId then orders[0].(status := newStatus) else orders[0]]
        + WithStatus(orders[1..], orderId, newStatus)
  }

  // ------------------------------------------------------------ the search

  /** `order.name?.toLowerCase().includes(term.toLowerCase())` and the same for
      email; `order.phone?.includes(term)` and `order.id?.toString().includes(term)`
      compare as typed. */
  predicate OrderMatches(order: Order, term: string)
  {
    || (order.name.Some? && Contains(Lower(order.name.value), Lower(term)))
    || (order.email.Some? && Contains(Lower(order.email.value), Lower(term)))
    || (order.phone.Some? && Contains(order.phone.value, term))
    || Contains(DecimalString(order.id), term)
  }

  /** `filteredOrders`. */
  function FilterOrders(orders: seq<Order>, term: string): (r: seq<Order>)
    ensures forall k :: 0 <= k < |r| ==> r[k] in orders && OrderMatches(r[k], term)
    ensures forall k :: 0 <= k < |orders| && OrderMatches(orders[k], term) ==> orders[k] in r
  {
    Filter(orders, (o: Order) => OrderMatches(o, term))
  }

  /** The search keeps the list order, and every copy of a matching order. */
  lemma FilterOrdersKeepsOrder(orders: seq<Order>, term: string)
    ensures IsSubsequence(FilterOrders(orders, term), orders)
    ensures forall o :: multiset(FilterOrders(orders, term))[o] ==
                        (if OrderMatches(o, term) then multiset(orders)[o] else 0)
  {
    var keep := (o: Order) => OrderMatches(o, term);
    FilterIsSubsequence(orders, keep);
    forall o ensures multiset(FilterOrders(orders, term))[o] ==
                     (if OrderMatches(o, term) then multiset(orders)[o] else 0) {
      FilterCount(orders, keep, o);
    }
  }

  /** An empty search box lists every order: every order has an id, and every
      id includes the empty string. */
  lemma EmptySearchKeepsAllOrders(orders: seq<Order>)
    ensures FilterOrders(orders, "") == orders
  {
    var keep := (o: Order) => OrderMatches(o, "");
    forall k | 0 <= k < |orders| ensures keep(orders[k]) {
      EmptyIsContained(DecimalString(orders[k].id));
    }
    FilterKeepsAll(orders, keep);
  }

  /** Name matching ignores case: an order whose name differs only in the case
      of its letters matches the same searches. */
  lemma NameMatchIgnoresCase(order: Order, name: string, term: string)
    requires order.name.Some? && Lower(order.name.value) == Lower(name)
    ensures OrderMatches(order, term) <==> OrderMatches(order.(name := Some(name)), term)
  {
  }

  // ----------------------------------------------------------- the badge

  const DeliveredBadge := "bg-green-100 text-green-800"
  const ProcessingBadge := "bg-blue-100 text-blue-800"
  const ShippedBadge := "bg-purple-100 text-purple-800"
  const CancelledBadge := "bg-red-100 text-red-800"
  const PendingBadge := "bg-yellow-100 text-yellow-800"

  /** The status badge's colour classes. Each of the four named statuses has
      its own class; every other status, "pending" included, is yellow. */
  function BadgeClass(status: string): (c: string)
    ensures c == DeliveredBadge <==> status == "delivered"
    ensures c == ProcessingBadge <==> status == "processing"
    ensures c == ShippedBadge <==> status == "shipped"
    ensures c == CancelledBadge <==> status == "cancelled"
    ensures c == PendingBadge <==> status !in {"delivered", "processing", "shipped", "cancelled"}
  {
    if status == "delivered" then DeliveredBadge
    else if status == "processing" then ProcessingBadge
    else if status == "shipped" then ShippedBadge
    else if status == "cancelled" then CancelledBadge
    else PendingBadge
  }

  // ------------------------------------------------------------ the page

  /** The dashboard's message when the order list cannot be loaded. */
  const OrdersError := "Failed to load orders. Please try again later."

  /** The page's component state. */
  class DashboardPage {
    var orders: seq<Order>
    var selectedOrder: Option<Order>
    var searchTerm: string
    var loading: bool
    var statusUpdating: bool
    var error: Option<string>

    /** Mounting the page, before the first fetch settles. */
    constructor ()
      ensures orders == [] && selectedOrder == None && searchTerm == ""
      ensures loading && !statusUpdating && error == None
    {
      orders := [];
      selectedOrder := None;
      searchTerm := "";
      loading := true;
      statusUpdating := false;
      error := None;
    }

    /** `fetchOrders()`: `response` is the orders request (`None` when it
        fails). A non-empty list selects its first order; an empty one keeps
        the selection; a failure keeps both list and selection. */
    method FetchOrders(response: Option<seq<Order>>)
      modifies this`orders, this`selectedOrder, this`loading, this`error
      ensures response.None? ==>
        orders == old(orders) && selectedOrder == old(selectedOrder) && error == Some(OrdersError)
      ensures response.Some? && |response.value| > 0 ==>
        orders == response.value && selectedOrder == Some(response.value[0]) && error == None
      ensures response.Some? && |response.value| == 0 ==>
        orders == [] && selectedOrder == old(selectedOrder) && error == None
      ensures !loading
    {
      loading := true;
      match response {
        case None =>
          error := Some(OrdersError);
        case Some(data) =>
          if |data| > 0 {
            orders := data;
            selectedOrder := Some(data[0]);
          } else {
            orders := [];
          }
          error := None;
      }
      loading := false;
    }

    /** `updateOrderStatus(orderId, newStatus)`; `responseOk` is whether the
        backend accepted the change and its response body parsed as JSON (a
        body that does not parse takes the same `catch` path as a refusal).
        Nothing changes unless both hold. */
    method UpdateOrderStatus(orderId: nat, newStatus: string, responseOk: bool) returns (ok: bool)
      modifies this`orders, this`selectedOrder, this`statusUpdating
      ensures ok == responseOk
      ensures !ok ==> orders == old(orders) && selectedOrder == old(selectedOrder)
      ensures ok ==> orders == WithStatus(old(orders), orderId, newStatus)
      ensures ok && old(selectedOrder).Some? && old(selectedOrder).value.id == orderId ==>
        selectedOrder == Some(old(selectedOrder).value.(status := newStatus))
      ensures ok && !(old(selectedOrder).Some? && old(selectedOrder).value.id == orderId) ==>
        selectedOrder == old(selectedOrder)
      ensures !statusUpdating
    {
      statusUpdating := true;
      if !responseOk {
        statusUpdating := false;
        return false;
      }
      orders := WithStatus(orders, orderId, newStatus);
      if selectedOrder.Some? && selectedOrder.value.id == orderId {
        selectedOrder := Some(selectedOrder.value.(status := newStatus));
      }
      statusUpdating := false;
      return true;
    }

    /** `handleOrderClick(order)`: selection is a local pointer change. */
    method SelectOrder(order: Order)
      modifies this`selectedOrder
      ensures selectedOrder == Some(order)
    {
      selectedOrder := Some(order);
    }

    /** `filteredOrders` for the current search box. */
    function FilteredOrders(): (r: seq<Order>)
      reads this
      ensures forall k :: 0 <= k < |r| ==> r[k] in orders && OrderMatches(r[k], searchTerm)
      ensures forall k :: 0 <= k < |orders| && OrderMatches(orders[k], searchTerm) ==> orders[k] in r
    {
      FilterOrders(orders, searchTerm)
    }
  }
}
