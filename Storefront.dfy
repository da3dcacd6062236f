/** The storefront page (app/page.js): the banner carousel, the product title
    search, the merge of rating summaries onto the product list, the cart
    drawer and the product detail view's quantity buttons. */
module Storefront {
  import opened Seqs
  import opened Text
  import opened CartLines
  import opened Storage

  // ------------------------------------------------------------- carousel

  /** The page shows a fixed list of three banners. */
  const BannerCount := 3

  /** `(prev + 1) % banners.length`: used by the "next" arrow and by the
      five-second rotation timer. */
  function NextSlide(prev: int, count: int): (next: int)
    requires 0 <= prev < count
    ensures 0 <= next < count
    ensures prev < count - 1 ==> next == prev + 1
    ensures prev == count - 1 ==> next == 0
  {
    (prev + 1) % count
  }

  /** `prev === 0 ? banners.length - 1 : prev - 1`. */
  function PrevSlide(prev: int, count: int): (p: int)
    requires 0 <= prev < count
    ensures 0 <= p < count
  {
    if prev == 0 then count - 1 else prev - 1
  }

  /** "previous" undoes "next" and "next" undoes "previous". */
  lemma SlideStepsAreInverse(i: int, count: int)
    requires 0 <= i < count
    ensures PrevSlide(NextSlide(i, count), count) == i
    ensures NextSlide(PrevSlide(i, count), count) == i
  {
  }

  // -------------------------------------------------------- title search

  /** `product.title.toLowerCase().includes(searchTerm.toLowerCase())`. */
  predicate TitleMatches(product: Product, term: string)
  {
    Contains(Lower(product.title), Lower(term))
  }

  /** `filteredProducts`: the products whose title matches the search term. */
  function FilterProducts(products: seq<Product>, term: string): (r: seq<Product>)
    ensures forall k :: 0 <= k < |r| ==> r[k] in products && TitleMatches(r[k], term)
    ensures forall k :: 0 <= k < |products| && TitleMatches(products[k], term) ==> products[k] in r
  {
    if |products| > 0 then Filter(products, (p: Product) => TitleMatches(p, term)) else []
  }

  /** The search keeps the catalog order, and every copy of a matching product. */
  lemma FilterProductsKeepsOrder(products: seq<Product>, term: string)
    ensures IsSubsequence(FilterProducts(products, term), products)
    ensures forall p :: multiset(FilterProducts(products, term))[p] ==
                        (if TitleMatches(p, term) then multiset(products)[p] else 0)
  {
    var keep := (p: Product) => TitleMatches(p, term);
    FilterIsSubsequence(products, keep);
    forall p ensures multiset(FilterProducts(products, term))[p] ==
                     (if TitleMatches(p, term) then multiset(products)[p] else 0) {
      FilterCount(products, keep, p);
    }
  }

  /** An empty search box shows the whole catalog. */
  lemma EmptySearchKeepsAll(products: seq<Product>)
    ensures FilterProducts(products, "") == products
  {
    var keep := (p: Product) => TitleMatches(p, "");
    forall k | 0 <= k < |products| ensures keep(products[k]) {
      EmptyIsContained(Lower(products[k].title));
    }
    FilterKeepsAll(products, keep);
  }

  // ------------------------------------------------------- ratings merge

  /** A ratings response body `{id, ratings, average}`; any field may be absent. */
  datatype RatingsJson = RatingsJson(id: Option<string>, ratings: Option<seq<Rating>>, average: Option<real>)

  /** How one ratings request settled: not ok or rejected, or a parsed body. */
  datatype RatingsFetch = FetchFailed | Fetched(body: RatingsJson)

  /** A `ratingsMap` entry `{ratings, average}`. */
  datatype RatingsSummary = RatingsSummary(ratings: seq<Rating>, average: real)

  /** The body a ratings request for `slug` settles to: a failed request
      becomes `{id: slug, ratings: [], average: 0}`. */
  function SettledBody(slug: string, fetch: RatingsFetch): (b: RatingsJson)
    ensures fetch.FetchFailed? ==> b == RatingsJson(Some(slug), Some([]), Some(0.0))
    ensures fetch.Fetched? ==> b == fetch.body
  {
    match fetch
    case FetchFailed => RatingsJson(Some(slug), Some([]), Some(0.0))
    case Fetched(body) => body
  }

  /** `Promise.all` over the requests: one settled body per slug, in slug order. */
  function SettledBodies(slugs: seq<string>, fetches: seq<RatingsFetch>): (r: seq<RatingsJson>)
    requires |fetches| == |slugs|
    ensures |r| == |slugs|
    ensures forall k :: 0 <= k < |slugs| ==> r[k] == SettledBody(slugs[k], fetches[k])
  {
    if slugs == [] then []
    else [SettledBody(slugs[0], fetches[0])] + SettledBodies(slugs[1..], fetches[1..])
  }

  /** `data.map(product => product.slug)`. */
  function Slugs(products: seq<Product>): (r: seq<string>)
    ensures |r| == |products|
    ensures forall k :: 0 <= k < |products| ==> r[k] == products[k].slug
  {
    if products == [] then [] else [products[0].slug] + Slugs(products[1..])
  }

  /** The property name `ratingsMap[data.id]` writes: a missing id is the
      string "undefined". */
  function MapKey(body: RatingsJson): string
  {
    match body.id
    case Some(id) => id
    case None => "undefined"
  }

  /** `{ratings: data.ratings || [], average: data.average || 0}`. */
  function Summarize(body: RatingsJson): (s: RatingsSummary)
    ensures body.ratings.None? ==> s.ratings == []
    ensures body.ratings.Some? ==> s.ratings == body.ratings.value
    ensures body.average.None? ==> s.average == 0.0
    ensures body.average.Some? ==> s.average == body.average.value
  {
    RatingsSummary(
      if body.ratings.Some? then body.ratings.value else [],
      if body.average.Some? then body.average.value else 0.0)
  }

  /** The map the `forEach` leaves: each body written in turn under its key,
      a later body overwriting an earlier one with the same key. */
  function RatingsMapOf(bodies: seq<RatingsJson>): map<string, RatingsSummary>
  {
    if bodies == [] then map[]
    else
      var last := bodies[|bodies| - 1];
      RatingsMapOf(bodies[..|bodies| - 1])[MapKey(last) := Summarize(last)]
  }

  /** The `ratingsData.forEach` loop that fills `ratingsMap`. */
  method BuildRatingsMap(bodies: seq<RatingsJson>) returns (ratingsMap: map<string, RatingsSummary>)
    ensures ratingsMap == RatingsMapOf(bodies)
  {
    ratingsMap := map[];
    var i := 0;
    while i < |bodies|
      invariant 0 <= i <= |bodies|
      invariant ratingsMap == RatingsMapOf(bodies[..i])
    {
      assert bodies[..i + 1][..i] == bodies[..i];
      ratingsMap := ratingsMap[MapKey(bodies[i]) := Summarize(bodies[i])];
      i := i + 1;
    }
    assert bodies[..|bodies|] == bodies;
  }

  /** A key is in the map exactly when some body carries it. */
  lemma {:induction false} RatingsMapKeys(bodies: seq<RatingsJson>, key: string)
    ensures key in RatingsMapOf(bodies) <==> exists j :: 0 <= j < |bodies| && MapKey(bodies[j]) == key
  {
    if bodies != [] {
      var init := bodies[..|bodies| - 1];
      RatingsMapKeys(init, key);
      if exists j :: 0 <= j < |init| && MapKey(init[j]) == key {
        var j :| 0 <= j < |init| && MapKey(init[j]) == key;
        assert MapKey(bodies[j]) == key;
      }
      if exists j :: 0 <= j < |bodies| && MapKey(bodies[j]) == key {
        var j :| 0 <= j < |bodies| && MapKey(bodies[j]) == key;
        if j < |init| {
          assert MapKey(init[j]) == key;
        }
      }
    }
  }

  /** The entry for a key is the summary of the last body carrying it. */
  lemma {:induction false} RatingsMapLastWins(bodies: seq<RatingsJson>, j: nat)
    requires j < |bodies|
    requires forall k :: j < k < |bodies| ==> MapKey(bodies[k]) != MapKey(bodies[j])
    ensures MapKey(bodies[j]) in RatingsMapOf(bodies)
    ensures RatingsMapOf(bodies)[MapKey(bodies[j])] == Summarize(bodies[j])
  {
    var init := bodies[..|bodies| - 1];
    if j < |init| {
      assert forall k :: j < k < |init| ==> init[k] == bodies[k];
      RatingsMapLastWins(init, j);
      assert init[j] == bodies[j];
    }
  }

  /** One product with its rating summary attached:
      `{...product, ratings: entry?.ratings || [], average_rating: entry?.average || 0}`. */
  function WithRatings(product: Product, ratingsMap: map<string, RatingsSummary>): (p: Product)
    ensures p.id == product.id && p.slug == product.slug
    ensures p.title == product.title && p.price == product.price
    ensures product.slug !in ratingsMap ==> p.ratings == Some([]) && p.averageRating == Some(0.0)
    ensures product.slug in ratingsMap ==>
      p.ratings == Some(ratingsMap[product.slug].ratings)
      && p.averageRating == Some(ratingsMap[product.slug].average)
  {
    if product.slug in ratingsMap then
      product.(ratings := Some(ratingsMap[product.slug].ratings),
               averageRating := Some(ratingsMap[product.slug].average))
    else
      product.(ratings := Some([]), averageRating := Some(0.0))
  }

  /** `data.map(...)` attaching ratings to every product: same count, same order. */
  function AttachRatings(products: seq<Product>, ratingsMap: map<string, RatingsSummary>): (r: seq<Product>)
    ensures |r| == |products|
    ensures forall k :: 0 <= k < |products| ==> r[k] == WithRatings(products[k], ratingsMap)
  {
    if products == [] then []
    else [WithRatings(products[0], ratingsMap)] + AttachRatings(products[1..], ratingsMap)
  }

  /** The product list `fetchProducts` stores after a successful fetch. An
      empty list is stored as it came; otherwise ratings are attached. */
  function LoadedProducts(data: seq<Product>, fetches: seq<RatingsFetch>): (r: seq<Product>)
    requires |fetches| == |data|
    ensures |r| == |data|
    ensures forall k :: 0 <= k < |data| ==>
      r[k].id == data[k].id && r[k].slug == data[k].slug && r[k].title == data[k].title
  {
    if |data| > 0 then AttachRatings(data, RatingsMapOf(SettledBodies(Slugs(data), fetches)))
    else data
  }

  /** When the slugs are distinct and every successful response names its own
      product in `id`, each product receives the ratings of its own request,
      whatever order the responses arrived in; a failed request leaves it with
      no ratings and average 0. */
  lemma ProductGetsOwnRatings(data: seq<Product>, fetches: seq<RatingsFetch>, i: nat)
    requires |fetches| == |data| && i < |data|
    requires forall a, b :: 0 <= a < b < |data| ==> data[a].slug != data[b].slug
    requires forall k :: 0 <= k < |data| && fetches[k].Fetched? ==> fetches[k].body.id == Some(data[k].slug)
    ensures var s := Summarize(SettledBody(data[i].slug, fetches[i]));
      && LoadedProducts(data, fetches)[i].ratings == Some(s.ratings)
      && LoadedProducts(data, fetches)[i].averageRating == Some(s.average)
    ensures fetches[i].FetchFailed? ==>
      && LoadedProducts(data, fetches)[i].ratings == Some([])
      && LoadedProducts(data, fetches)[i].averageRating == Some(0.0)
  {
    var bodies := SettledBodies(Slugs(data), fetches);
    forall k | 0 <= k < |data| ensures MapKey(bodies[k]) == data[k].slug {
    }
    RatingsMapLastWins(bodies, i);
  }

  // ------------------------------------------------------------ the page

  /** The storefront's message when the product list cannot be loaded. */
  const ProductsError := "Failed to load products. Please try again later."

  /** The page's component state; `storage` is the tab's session storage. */
  class StorefrontPage {
    const storage: SessionStorage
    var cart: Cart
    var products: seq<Product>
    var searchTerm: string
    var currentSlide: int
    var loading: bool
    var error: Option<string>

    /** The cart is valid, the slide index is in range, and whenever a cart
        is stored it is the one on screen. */
    ghost predicate Valid()
      reads this, storage
    {
      && storage.Valid()
      && ValidCart(cart)
      && 0 <= currentSlide < BannerCount
      && (CartKey in storage.items ==> storage.items[CartKey] == CartJson(cart))
    }

    /** Mounting the page: the stored cart, if any, is loaded. */
    constructor (storage: SessionStorage)
      requires storage.Valid()
      ensures Valid() && this.storage == storage
      ensures cart == (match StoredCart(storage.items) case Some(c) => c case None => [])
      ensures products == [] && searchTerm == "" && currentSlide == 0
      ensures loading && error == None
    {
      this.storage := storage;
      var stored := storage.GetItem(CartKey);
      cart := if stored.Some? then stored.value.lines else [];
      products := [];
      searchTerm := "";
      currentSlide := 0;
      loading := true;
      error := None;
    }

    /** `addToCart` once its animation delay has passed: merge, then persist. */
    method AddToCart(product: Product, lineId: string)
      requires Valid()
      modifies this`cart, storage
      ensures Valid()
      ensures cart == CartLines.AddToCart(old(cart), product, lineId)
      ensures storage.items == old(storage.items)[CartKey := CartJson(cart)]
    {
      var i := IndexOfProduct(cart, product.id);
      var updatedCart := cart;
      if i >= 0 {
        updatedCart := updatedCart[i := updatedCart[i].(quantity := updatedCart[i].quantity + 1)];
      } else {
        updatedCart := updatedCart + [CartLine(lineId, product, 1, product.price)];
      }
      AddToCartKeepsValid(cart, product, lineId);
      cart := updatedCart;
      storage.SetItem(CartKey, CartJson(updatedCart));
    }

    /** `removeFromCart(itemId)`. */
    method RemoveFromCart(itemId: string)
      requires Valid()
      modifies this`cart, storage
      ensures Valid()
      ensures cart == RemoveLine(old(cart), itemId)
      ensures storage.items == old(storage.items)[CartKey := CartJson(cart)]
    {
      RemoveLineKeepsValid(cart, itemId);
      var updatedCart := RemoveLine(cart, itemId);
      cart := updatedCart;
      storage.SetItem(CartKey, CartJson(updatedCart));
    }

    /** `updateQuantity(itemId, newQuantity)`: below 1 neither the cart nor
        storage is touched. */
    method UpdateQuantity(itemId: string, newQuantity: int)
      requires Valid()
      modifies this`cart, storage
      ensures Valid()
      ensures cart == CartLines.UpdateQuantity(old(cart), itemId, newQuantity)
      ensures newQuantity < 1 ==> storage.items == old(storage.items)
      ensures newQuantity >= 1 ==> storage.items == old(storage.items)[CartKey := CartJson(cart)]
    {
      if newQuantity < 1 {
        return;
      }
      UpdateQuantityKeepsValid(cart, itemId, newQuantity);
      var updatedCart := CartLines.UpdateQuantity(cart, itemId, newQuantity);
      cart := updatedCart;
      storage.SetItem(CartKey, CartJson(updatedCart));
    }

    /** `cartTotal`, shown in the cart drawer: the sum of the line subtotals. */
    function CartTotal(): (total: int)
      reads this, storage
      requires Valid()
      ensures total == SumOfSubtotals(cart)
    {
      TotalsAgree(cart);
      SnapshotTotalIsSumOfSubtotals(cart);
      ProductPriceTotal(cart)
    }

    /** The cart badge: the sum of the quantities, never fewer than the lines. */
    function BadgeCount(): (count: int)
      reads this, storage
      requires Valid()
      ensures count == SumOfQuantities(cart)
      ensures count >= |cart|
    {
      ItemCountIsSumOfQuantities(cart);
      CountAtLeastLines(cart);
      ItemCount(cart)
    }

    /** `filteredProducts` for the current search box. */
    function FilteredProducts(): (r: seq<Product>)
      reads this
      ensures forall k :: 0 <= k < |r| ==> r[k] in products && TitleMatches(r[k], searchTerm)
      ensures forall k :: 0 <= k < |products| && TitleMatches(products[k], searchTerm) ==> products[k] in r
    {
      FilterProducts(products, searchTerm)
    }

    /** The "next" arrow, and each tick of the rotation timer. */
    method GoToNextSlide()
      requires Valid()
      modifies this`currentSlide
      ensures Valid()
      ensures currentSlide == NextSlide(old(currentSlide), BannerCount)
    {
      currentSlide := NextSlide(currentSlide, BannerCount);
    }

    /** The "previous" arrow. */
    method GoToPrevSlide()
      requires Valid()
      modifies this`currentSlide
      ensures Valid()
      ensures currentSlide == PrevSlide(old(currentSlide), BannerCount)
    {
      currentSlide := PrevSlide(currentSlide, BannerCount);
    }

    /** `fetchProducts()`: `response` is the products request (`None` when it
        fails); `fetches` are the ratings requests, one per product. */
    method FetchProducts(response: Option<seq<Product>>, fetches: seq<RatingsFetch>)
      requires Valid()
      requires response.Some? ==> |fetches| == |response.value|
      modifies this`products, this`loading, this`error
      ensures Valid()
      ensures response.None? ==> products == [] && error == Some(ProductsError)
      ensures response.Some? ==> products == LoadedProducts(response.value, fetches) && error == None
      ensures !loading
    {
      loading := true;
      match response {
        case None =>
          error := Some(ProductsError);
          products := [];
        case Some(data) =>
          if |data| > 0 {
            var bodies := SettledBodies(Slugs(data), fetches);
            var ratingsMap := BuildRatingsMap(bodies);
            products := AttachRatings(data, ratingsMap);
          } else {
            products := data;
          }
          error := None;
      }
      loading := false;
    }

    /** The detail view's "-" button: `updateQuantity` on the product's first
        line with one less, which `updateQuantity` ignores once it would drop
        below 1; with no line, nothing happens. */
    method DetailDecrement(product: Product)
      requires Valid()
      modifies this`cart, storage
      ensures Valid()
      ensures var i := IndexOfProduct(old(cart), product.id);
        i >= 0 && old(cart)[i].quantity > 1 ==>
          && cart == CartLines.UpdateQuantity(old(cart), old(cart)[i].id, old(cart)[i].quantity - 1)
          && storage.items == old(storage.items)[CartKey := CartJson(cart)]
      ensures var i := IndexOfProduct(old(cart), product.id);
        !(i >= 0 && old(cart)[i].quantity > 1) ==>
          cart == old(cart) && storage.items == old(storage.items)
      ensures var q := old(DisplayedQuantity(cart, product.id));
        DisplayedQuantity(cart, product.id) == if q > 1 then q - 1 else q
      ensures |cart| == |old(cart)|
    {
      var i := IndexOfProduct(cart, product.id);
      var currentQty := if i >= 0 then cart[i].quantity else 0;
      if currentQty > 0 {
        ghost var before := cart;
        UpdateQuantity(cart[i].id, currentQty - 1);
        IndexOfProductByIds(before, cart, product.id);
      }
    }

    /** The detail view's "+" button: one more of the product, through
        `updateQuantity` on its line or `addToCart` when it has none. */
    method DetailIncrement(product: Product, lineId: string)
      requires Valid()
      modifies this`cart, storage
      ensures Valid()
      ensures var i := IndexOfProduct(old(cart), product.id);
        i >= 0 ==> cart == CartLines.UpdateQuantity(old(cart), old(cart)[i].id, old(cart)[i].quantity + 1)
      ensures IndexOfProduct(old(cart), product.id) == -1 ==>
        cart == CartLines.AddToCart(old(cart), product, lineId)
      ensures storage.items == old(storage.items)[CartKey := CartJson(cart)]
      ensures DisplayedQuantity(cart, product.id) == old(DisplayedQuantity(cart, product.id)) + 1
    {
      var i := IndexOfProduct(cart, product.id);
      if i >= 0 {
        ghost var before := cart;
        UpdateQuantity(cart[i].id, cart[i].quantity + 1);
        IndexOfProductByIds(before, cart, product.id);
      } else {
        AddToCart(product, lineId);
      }
    }
  }
}
