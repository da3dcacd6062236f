/** The browser's `sessionStorage` as the pages use it: a store from key to
    value with `getItem`, `setItem` and `removeItem`. Values are JSON text in
    the browser; here each key holds the value the pages serialize under it. */
module Storage {
  import opened Seqs
  import opened CartLines
  import opened Orders

  const CartKey := "cart"
  const SessionIdKey := "sessionId"
  const PlacedOrdersKey := "placedOrders"

  /** A stored value: plain text, a serialized cart, or a serialized list of
      placed orders. */
  datatype Stored = Text(text: string) | CartJson(lines: Cart) | OrdersJson(orders: seq<PlacedOrder>)

  /** Every key the pages use holds what the pages write under it, and the
      stored cart satisfies the cart invariant. */
  ghost predicate WellTyped(items: map<string, Stored>)
  {
    && (CartKey in items ==> items[CartKey].CartJson? && ValidCart(items[CartKey].lines))
    && (SessionIdKey in items ==> items[SessionIdKey].Text?)
    && (PlacedOrdersKey in items ==> items[PlacedOrdersKey].OrdersJson?)
  }

  /** `JSON.parse(sessionStorage.getItem("cart"))` when the key is set. */
  function StoredCart(items: map<string, Stored>): (c: Option<Cart>)
    ensures c.Some? <==> CartKey in items && items[CartKey].CartJson?
    ensures c.Some? ==> items[CartKey] == CartJson(c.value)
  {
    if CartKey in items && items[CartKey].CartJson? then Some(items[CartKey].lines) else None
  }

  /** `sessionStorage.getItem("sessionId")`. */
  function StoredSessionId(items: map<string, Stored>): (s: Option<string>)
    ensures s.Some? <==> SessionIdKey in items && items[SessionIdKey].Text?
    ensures s.Some? ==> items[SessionIdKey] == Text(s.value)
  {
    if SessionIdKey in items && items[SessionIdKey].Text? then Some(items[SessionIdKey].text) else None
  }

  /** `JSON.parse(sessionStorage.getItem("placedOrders") || "[]")`. */
  function StoredOrders(items: map<string, Stored>): (os: seq<PlacedOrder>)
    ensures PlacedOrdersKey !in items ==> os == []
    ensures PlacedOrdersKey in items && items[PlacedOrdersKey].OrdersJson? ==>
      os == items[PlacedOrdersKey].orders
  {
    if PlacedOrdersKey in items && items[PlacedOrdersKey].OrdersJson? then items[PlacedOrdersKey].orders
    else []
  }

  class SessionStorage {
    var items: map<string, Stored>

    ghost predicate Valid()
      reads this
    {
      WellTyped(items)
    }

    /** A new browser session starts with nothing stored. */
    constructor ()
      ensures Valid() && items == map[]
    {
      items := map[];
    }

    /** `sessionStorage.getItem(key)`, `None` standing for `null`. */
    function GetItem(key: string): (v: Option<Stored>)
      reads this
      ensures v.Some? <==> key in items
      ensures v.Some? ==> v.value == items[key]
    {
      if key in items then Some(items[key]) else None
    }

    /** `sessionStorage.setItem(key, value)`. */
    method SetItem(key: string, value: Stored)
      modifies this
      ensures items == old(items)[key := value]
    {
      items := items[key := value];
    }

    /** `sessionStorage.removeItem(key)`. */
    method RemoveItem(key: string)
      modifies this
      ensures items == old(items) - {key}
    {
      items := items - {key};
    }
  }
}
