/** The shopping cart as the storefront (app/page.js) and the cart page
    (app/cart/page.js) both keep it: an ordered list of lines, each a snapshot
    of a product, a quantity and the unit price at the time it was added.
    Prices are integer cents. The two pages carry their own copies of the
    quantity and removal operations; the copies are textually the same and are
    defined once here. */
module CartLines {
  import opened Seqs

  /** One customer rating as the ratings endpoint returns it. */
  datatype Rating = Rating(score: nat, review: string)

  /** A product record. `ratings` and `averageRating` are absent on a record
      as the products endpoint returns it and are attached by the storefront. */
  datatype Product = Product(
    id: nat,
    slug: string,
    title: string,
    price: nat,
    ratings: Option<seq<Rating>>,
    averageRating: Option<real>)

  /** A cart line `{id, product, quantity, price}`. */
  datatype CartLine = CartLine(id: string, product: Product, quantity: int, price: nat)

  type Cart = seq<CartLine>

  /** Every line has quantity at least 1. */
  ghost predicate QuantitiesPositive(cart: Cart)
  {
    forall i :: 0 <= i < |cart| ==> cart[i].quantity >= 1
  }

  /** No two lines are for the same product. */
  ghost predicate ProductsUnique(cart: Cart)
  {
    forall i, j :: 0 <= i < j < |cart| ==> cart[i].product.id != cart[j].product.id
  }

  /** Every line's price snapshot equals the price of its product snapshot. */
  ghost predicate SnapshotsAgree(cart: Cart)
  {
    forall i :: 0 <= i < |cart| ==> cart[i].price == cart[i].product.price
  }

  /** The invariant every cart mutation keeps. */
  ghost predicate ValidCart(cart: Cart)
  {
    QuantitiesPositive(cart) && ProductsUnique(cart) && SnapshotsAgree(cart)
  }

  /** No two lines share a line id. The line ids come from `Date.now()`,
      which does not by itself make them distinct. */
  ghost predicate LineIdsUnique(cart: Cart)
  {
    forall i, j :: 0 <= i < j < |cart| ==> cart[i].id != cart[j].id
  }

  /** `cart.findIndex(item => item.product.id === pid)`: the first line for
      product `pid`, or -1 when there is none. */
  function IndexOfProduct(cart: Cart, pid: nat): (i: int)
    ensures -1 <= i < |cart|
    ensures i == -1 <==> forall k :: 0 <= k < |cart| ==> cart[k].product.id != pid
    ensures 0 <= i ==> cart[i].product.id == pid
    ensures 0 <= i ==> forall k :: 0 <= k < i ==> cart[k].product.id != pid
  {
    if cart == [] then -1
    else if cart[0].product.id == pid then 0
    else
      var j := IndexOfProduct(cart[1..], pid);
      if j == -1 then -1 else j + 1
  }

  /** `addToCart`'s merge step: increment the line for `product` if there is
      one, otherwise append a new line with quantity 1 and the product's
      current price. `lineId` stands for `Date.now().toString()`. */
  function AddToCart(cart: Cart, product: Product, lineId: string): (r: Cart)
    // an existing product: same length, that line one more, all others unchanged
    ensures IndexOfProduct(cart, product.id) >= 0 ==>
      var i := IndexOfProduct(cart, product.id);
      && |r| == |cart|
      && r[i].quantity == cart[i].quantity + 1
      && r[i].id == cart[i].id && r[i].product == cart[i].product && r[i].price == cart[i].price
      && forall k :: 0 <= k < |cart| && k != i ==> r[k] == cart[k]
    // a new product: exactly one line appended, quantity 1, price snapshot
    ensures IndexOfProduct(cart, product.id) == -1 ==>
      && |r| == |cart| + 1
      && r[..|cart|] == cart
      && r[|cart|] == CartLine(lineId, product, 1, product.price)
  {
    var i := IndexOfProduct(cart, product.id);
    if i >= 0 then cart[i := cart[i].(quantity := cart[i].quantity + 1)]
    else cart + [CartLine(lineId, product, 1, product.price)]
  }

  /** `updateQuantity(itemId, newQuantity)`: below 1 nothing changes; otherwise
      every line with that line id takes the new quantity. */
  function UpdateQuantity(cart: Cart, itemId: string, newQuantity: int): (r: Cart)
    ensures newQuantity < 1 ==> r == cart
    ensures |r| == |cart|
    ensures newQuantity >= 1 ==> forall k :: 0 <= k < |cart| ==>
      && r[k].id == cart[k].id
      && r[k].product == cart[k].product
      && r[k].price == cart[k].price
      && r[k].quantity == (if cart[k].id == itemId then newQuantity else cart[k].quantity)
  {
    if newQuantity < 1 then cart
    else
      seq(|cart|, k requires 0 <= k < |cart| =>
        if cart[k].id == itemId then cart[k].(quantity := newQuantity) else cart[k])
  }

  /** The removal's filter test: the line's id differs from `itemId`. */
  function OtherLine(itemId: string): CartLine -> bool
  {
    (line: CartLine) => line.id != itemId
  }

  /** `removeFromCart(itemId)` / `removeItem(itemId)`: keep the lines whose id differs. */
  function RemoveLine(cart: Cart, itemId: string): (r: Cart)
    ensures |r| <= |cart|
    ensures forall k :: 0 <= k < |r| ==> r[k] in cart && r[k].id != itemId
    ensures forall k :: 0 <= k < |cart| && cart[k].id != itemId ==> cart[k] in r
  {
    Filter(cart, OtherLine(itemId))
  }

  /** Removal keeps the surviving lines in their original relative order, and
      keeps every copy of them. */
  lemma RemoveLineKeepsOrder(cart: Cart, itemId: string)
    ensures IsSubsequence(RemoveLine(cart, itemId), cart)
    ensures forall l :: multiset(RemoveLine(cart, itemId))[l] ==
                        (if l.id != itemId then multiset(cart)[l] else 0)
  {
    var keep := OtherLine(itemId);
    FilterIsSubsequence(cart, keep);
    forall l ensures multiset(RemoveLine(cart, itemId))[l] == if l.id != itemId then multiset(cart)[l] else 0 {
      FilterCount(cart, keep, l);
    }
  }

  // ---------------------------------------------------------------- totals

  /** `calculateSubtotal(item)`: the line's snapshot price times its quantity. */
  function Subtotal(line: CartLine): int
  {
    line.price * line.quantity
  }

  /** `cart.reduce((total, item) => total + item.product.price * item.quantity, 0)`,
      the storefront's `cartTotal`; a left fold, so it recurses on the prefix. */
  function ProductPriceTotal(cart: Cart): int
  {
    if cart == [] then 0
    else ProductPriceTotal(cart[..|cart| - 1]) + cart[|cart| - 1].product.price * cart[|cart| - 1].quantity
  }

  /** `calculateTotal()` on the cart page: the same fold over `item.price`. */
  function SnapshotTotal(cart: Cart): int
  {
    if cart == [] then 0
    else SnapshotTotal(cart[..|cart| - 1]) + cart[|cart| - 1].price * cart[|cart| - 1].quantity
  }

  /** `cart.reduce((total, item) => total + item.quantity, 0)`: the badge count. */
  function ItemCount(cart: Cart): int
  {
    if cart == [] then 0
    else ItemCount(cart[..|cart| - 1]) + cart[|cart| - 1].quantity
  }

  /** The sum of the line subtotals, taken from the first line on. */
  function SumOfSubtotals(cart: Cart): int
  {
    if cart == [] then 0 else Subtotal(cart[0]) + SumOfSubtotals(cart[1..])
  }

  /** Sum of the quantities, taken from the first line on. */
  function SumOfQuantities(cart: Cart): int
  {
    if cart == [] then 0 else cart[0].quantity + SumOfQuantities(cart[1..])
  }

  lemma {:induction false} SumOfSubtotalsAppend(cart: Cart, line: CartLine)
    ensures SumOfSubtotals(cart + [line]) == SumOfSubtotals(cart) + Subtotal(line)
  {
    if cart != [] {
      assert (cart + [line])[1..] == cart[1..] + [line];
      SumOfSubtotalsAppend(cart[1..], line);
    }
  }

  lemma {:induction false} SumOfQuantitiesAppend(cart: Cart, line: CartLine)
    ensures SumOfQuantities(cart + [line]) == SumOfQuantities(cart) + line.quantity
  {
    if cart != [] {
      assert (cart + [line])[1..] == cart[1..] + [line];
      SumOfQuantitiesAppend(cart[1..], line);
    }
  }

  /** With exact arithmetic, `calculateTotal` is the sum of `calculateSubtotal`
      over the lines. */
  lemma {:induction false} SnapshotTotalIsSumOfSubtotals(cart: Cart)
    ensures SnapshotTotal(cart) == SumOfSubtotals(cart)
  {
    if cart != [] {
      var init := cart[..|cart| - 1];
      SnapshotTotalIsSumOfSubtotals(init);
      assert init + [cart[|cart| - 1]] == cart;
      SumOfSubtotalsAppend(init, cart[|cart| - 1]);
    }
  }

  /** The badge count is the sum of the quantities. */
  lemma {:induction false} ItemCountIsSumOfQuantities(cart: Cart)
    ensures ItemCount(cart) == SumOfQuantities(cart)
  {
    if cart != [] {
      var init := cart[..|cart| - 1];
      ItemCountIsSumOfQuantities(init);
      assert init + [cart[|cart| - 1]] == cart;
      SumOfQuantitiesAppend(init, cart[|cart| - 1]);
    }
  }

  /** The storefront's `cartTotal` (over `item.product.price`) and the cart
      page's `calculateTotal` (over `item.price`) agree on every valid cart. */
  lemma {:induction false} TotalsAgree(cart: Cart)
    requires SnapshotsAgree(cart)
    ensures ProductPriceTotal(cart) == SnapshotTotal(cart)
  {
    if cart != [] {
      TotalsAgree(cart[..|cart| - 1]);
    }
  }

  /** Replacing one line changes the snapshot total by that line's difference. */
  lemma {:induction false} SnapshotTotalUpdate(cart: Cart, i: nat, line: CartLine)
    requires i < |cart|
    ensures SnapshotTotal(cart[i := line]) == SnapshotTotal(cart) - Subtotal(cart[i]) + Subtotal(line)
  {
    var n := |cart| - 1;
    if i < n {
      assert cart[i := line][..n] == cart[..n][i := line];
      SnapshotTotalUpdate(cart[..n], i, line);
    } else {
      assert cart[i := line][..n] == cart[..n];
    }
  }

  /** Replacing one line changes the badge count by that line's difference. */
  lemma {:induction false} ItemCountUpdate(cart: Cart, i: nat, line: CartLine)
    requires i < |cart|
    ensures ItemCount(cart[i := line]) == ItemCount(cart) - cart[i].quantity + line.quantity
  {
    var n := |cart| - 1;
    if i < n {
      assert cart[i := line][..n] == cart[..n][i := line];
      ItemCountUpdate(cart[..n], i, line);
    } else {
      assert cart[i := line][..n] == cart[..n];
    }
  }

  /** One more unit adds one unit price to a line's subtotal. */
  lemma SubtotalOneMore(line: CartLine)
    ensures Subtotal(line.(quantity := line.quantity + 1)) == Subtotal(line) + line.price
  {
    assert line.price * (line.quantity + 1) == line.price * line.quantity + line.price;
  }

  lemma SnapshotTotalAppend(cart: Cart, line: CartLine)
    ensures SnapshotTotal(cart + [line]) == SnapshotTotal(cart) + Subtotal(line)
  {
    assert (cart + [line])[..|cart|] == cart;
  }

  lemma ItemCountAppend(cart: Cart, line: CartLine)
    ensures ItemCount(cart + [line]) == ItemCount(cart) + line.quantity
  {
    assert (cart + [line])[..|cart|] == cart;
  }

  /** Adding a product raises the badge count by exactly one. */
  lemma AddToCartCount(cart: Cart, product: Product, lineId: string)
    ensures ItemCount(AddToCart(cart, product, lineId)) == ItemCount(cart) + 1
  {
    var i := IndexOfProduct(cart, product.id);
    if i >= 0 {
      var line := cart[i].(quantity := cart[i].quantity + 1);
      assert AddToCart(cart, product, lineId) == cart[i := line];
      ItemCountUpdate(cart, i, line);
    } else {
      var line := CartLine(lineId, product, 1, product.price);
      assert AddToCart(cart, product, lineId) == cart + [line];
      ItemCountAppend(cart, line);
    }
  }

  /** Adding a product raises the total by the unit price of its line: the
      snapshot already in the cart, or the product's price for a new line. */
  lemma AddToCartTotal(cart: Cart, product: Product, lineId: string)
    ensures var i := IndexOfProduct(cart, product.id);
      SnapshotTotal(AddToCart(cart, product, lineId))
        == SnapshotTotal(cart) + (if i >= 0 then cart[i].price else product.price)
  {
    var i := IndexOfProduct(cart, product.id);
    if i >= 0 {
      var line := cart[i].(quantity := cart[i].quantity + 1);
      assert AddToCart(cart, product, lineId) == cart[i := line];
      SnapshotTotalUpdate(cart, i, line);
      SubtotalOneMore(cart[i]);
    } else {
      var line := CartLine(lineId, product, 1, product.price);
      assert AddToCart(cart, product, lineId) == cart + [line];
      SnapshotTotalAppend(cart, line);
    }
  }

  // ------------------------------------------------------------ invariants

  lemma AddToCartKeepsValid(cart: Cart, product: Product, lineId: string)
    requires ValidCart(cart)
    ensures ValidCart(AddToCart(cart, product, lineId))
  {
  }

  /** A fresh line id keeps the line ids distinct. */
  lemma AddToCartKeepsLineIds(cart: Cart, product: Product, lineId: string)
    requires LineIdsUnique(cart)
    requires forall k :: 0 <= k < |cart| ==> cart[k].id != lineId
    ensures LineIdsUnique(AddToCart(cart, product, lineId))
  {
  }

  lemma UpdateQuantityKeepsValid(cart: Cart, itemId: string, newQuantity: int)
    requires ValidCart(cart)
    ensures ValidCart(UpdateQuantity(cart, itemId, newQuantity))
    ensures LineIdsUnique(cart) ==> LineIdsUnique(UpdateQuantity(cart, itemId, newQuantity))
  {
  }

  lemma RemoveLineKeepsValid(cart: Cart, itemId: string)
    requires ValidCart(cart)
    ensures ValidCart(RemoveLine(cart, itemId))
  {
    var r := RemoveLine(cart, itemId);
    forall k | 0 <= k < |r| ensures r[k].quantity >= 1 && r[k].price == r[k].product.price {
      var j :| 0 <= j < |cart| && cart[j] == r[k];
    }
    var key := (line: CartLine) => line.product.id;
    FilterKeepsDistinct(cart, OtherLine(itemId), key);
    forall i, j | 0 <= i < j < |r| ensures r[i].product.id != r[j].product.id {
      assert key(r[i]) != key(r[j]);
    }
  }

  lemma RemoveLineKeepsLineIds(cart: Cart, itemId: string)
    requires LineIdsUnique(cart)
    ensures LineIdsUnique(RemoveLine(cart, itemId))
  {
    var r := RemoveLine(cart, itemId);
    var key := (line: CartLine) => line.id;
    FilterKeepsDistinct(cart, OtherLine(itemId), key);
    forall i, j | 0 <= i < j < |r| ensures r[i].id != r[j].id {
      assert key(r[i]) != key(r[j]);
    }
  }

  /** With every quantity at least 1, the badge count is at least the number of lines. */
  lemma {:induction false} CountAtLeastLines(cart: Cart)
    requires QuantitiesPositive(cart)
    ensures SumOfQuantities(cart) >= |cart|
  {
    if cart != [] {
      CountAtLeastLines(cart[1..]);
    }
  }

  // -------------------------------------------- the product detail view

  /** The quantity the detail view shows for a product: that of the first
      line for it, or 0. */
  function DisplayedQuantity(cart: Cart, pid: nat): (q: int)
    ensures IndexOfProduct(cart, pid) == -1 ==> q == 0
    ensures IndexOfProduct(cart, pid) >= 0 ==> q == cart[IndexOfProduct(cart, pid)].quantity
    ensures ValidCart(cart) && IndexOfProduct(cart, pid) >= 0 ==> q >= 1
  {
    var i := IndexOfProduct(cart, pid);
    if i >= 0 then cart[i].quantity else 0
  }

  /** The first line for a product depends only on the lines' product ids. */
  lemma {:induction false} IndexOfProductByIds(a: Cart, b: Cart, pid: nat)
    requires |a| == |b|
    requires forall k :: 0 <= k < |a| ==> a[k].product.id == b[k].product.id
    ensures IndexOfProduct(a, pid) == IndexOfProduct(b, pid)
  {
    if a != [] {
      IndexOfProductByIds(a[1..], b[1..], pid);
    }
  }
}
