/** The Express backend of backend/server.js: read-only queries over the
    catalog, and three in-memory collections (cart, wishlist, orders) that
    the route handlers change in place. A reply's status is the shape of
    the `Reply` value; the 404 bodies carry no information and are left out. */
module Server {
  import opened Opt
  import opened Strings
  import opened Seqs
  import opened Catalog

  // ---------------------------------------------------------------------
  // Products API
  // ---------------------------------------------------------------------

  /** Whether the lower-cased name or description includes the lower-cased term. */
  predicate MatchesSearch(p: Product, term: string) {
    Contains(ToLower(p.name), ToLower(term)) || Contains(ToLower(p.description), ToLower(term))
  }

  /** The filter of GET /api/products for a given search term. */
  function Matching(search: string): Product -> bool {
    (p: Product) => MatchesSearch(p, search)
  }

  /** GET /api/products. An absent `search` parameter and an empty one are
      both falsy (both are `""` here) and list the whole catalog; any other
      term keeps the matching products in catalog order. */
  function SearchProducts(catalog: seq<Product>, search: string): (r: seq<Product>)
    ensures search == [] ==> r == catalog
    ensures forall p :: p in r <==> p in catalog && MatchesSearch(p, search)
    ensures IsSubsequence(r, catalog)
  {
    if search != [] then
      FilterIsSubsequence(catalog, Matching(search));
      Filter(catalog, Matching(search))
    else
      SubsequenceReflexive(catalog);
      assert forall p :: MatchesSearch(p, search) by {
        forall p ensures MatchesSearch(p, search) {
          ContainsEmpty(ToLower(p.name));
        }
      }
      catalog
  }

  /** `catalog.find(p => p.id === id)`. */
  function FindById(catalog: seq<Product>, id: int): (r: Option<Product>)
    ensures r.Some? <==> exists p :: p in catalog && p.id == id
    ensures r.Some? ==> r.value in catalog && r.value.id == id
  {
    if catalog == [] then None
    else if catalog[0].id == id then Some(catalog[0])
    else FindById(catalog[1..], id)
  }

  /** GET /api/products/:id. The parameter goes through `parseInt`; a
      parameter that does not parse (`None`) equals no id. `None` is the 404. */
  function ProductById(catalog: seq<Product>, id: Option<int>): (r: Option<Product>)
    ensures r.Some? <==> id.Some? && exists p :: p in catalog && p.id == id.value
    ensures r.Some? ==> r.value in catalog && r.value.id == id.value
  {
    if id.None? then None else FindById(catalog, id.value)
  }

  /** In a catalog with unique ids, looking a product up by its own id
      finds that product. */
  lemma ProductByIdFindsMember(catalog: seq<Product>, p: Product)
    requires UniqueIds(catalog) && p in catalog
    ensures ProductById(catalog, Some(p.id)) == Some(p)
  {
    var q := ProductById(catalog, Some(p.id)).value;
    var i :| 0 <= i < |catalog| && catalog[i] == p;
    var j :| 0 <= j < |catalog| && catalog[j] == q;
    assert !DifferentIds(catalog[i], catalog[j]) && !DifferentIds(catalog[j], catalog[i]);
  }

  /** GET /api/categories: each category once, in the order of first appearance. */
  function Categories(catalog: seq<Product>): (r: seq<string>)
    ensures NoDuplicates(r)
    ensures forall c :: c in r <==> exists p :: p in catalog && p.category == c
    ensures forall c :: c in r <==> c in CategoryList(catalog)
    ensures forall i, j :: 0 <= i < j < |r| ==>
      FirstIndex(CategoryList(catalog), r[i]) < FirstIndex(CategoryList(catalog), r[j])
  {
    var cs := CategoryList(catalog);
    forall c | c in cs ensures exists p :: p in catalog && p.category == c {
      var i :| 0 <= i < |cs| && cs[i] == c;
      assert catalog[i] in catalog;
    }
    forall p | p in catalog ensures p.category in cs {
      var i :| 0 <= i < |catalog| && catalog[i] == p;
      assert cs[i] == p.category;
    }
    DistinctFirstOccurrenceOrder(cs);
    Distinct(cs)
  }

  /** The filter of GET /api/products/category/:categoryName. */
  function InCategory(name: string): Product -> bool {
    (p: Product) => ToLower(p.category) == ToLower(name)
  }

  /** GET /api/products/category/:categoryName: the products whose category
      equals the parameter, ignoring case. */
  function ProductsInCategory(catalog: seq<Product>, name: string): (r: seq<Product>)
    ensures forall p :: p in r <==> p in catalog && ToLower(p.category) == ToLower(name)
    ensures IsSubsequence(r, catalog)
  {
    FilterIsSubsequence(catalog, InCategory(name));
    Filter(catalog, InCategory(name))
  }

  /** The category route is case-insensitive: any spelling of a category
      lists the same products as its lower-case spelling. */
  lemma ProductsInCategoryIgnoresCase(catalog: seq<Product>, name: string)
    ensures ProductsInCategory(catalog, name) == ProductsInCategory(catalog, ToLower(name))
  {
    ToLowerIdempotent(name);
    FilterExt(catalog, InCategory(name), InCategory(ToLower(name)));
  }

  // ---------------------------------------------------------------------
  // Cart API
  // ---------------------------------------------------------------------

  /** One entry of the server's cart. */
  datatype CartLine = CartLine(product: Product, quantity: int)

  predicate DifferentProducts(a: CartLine, b: CartLine) {
    a.product.id != b.product.id
  }

  /** What the cart routes maintain: at most one line per product id. */
  predicate OneLinePerProduct(cart: seq<CartLine>) {
    Pairwise(cart, DifferentProducts)
  }

  /** Every line holds a catalog product (the routes only add those). */
  predicate LinesInCatalog(catalog: seq<Product>, cart: seq<CartLine>) {
    forall i :: 0 <= i < |cart| ==> cart[i].product in catalog
  }

  predicate HasLine(cart: seq<CartLine>, id: int) {
    exists i :: 0 <= i < |cart| && cart[i].product.id == id
  }

  /** How many of product `id` the cart holds, over all its lines. */
  function QuantityOf(cart: seq<CartLine>, id: int): int {
    if cart == [] then 0
    else (if cart[0].product.id == id then cart[0].quantity else 0) + QuantityOf(cart[1..], id)
  }

  /** `cart.find(item => item.product.id === id)`, as an index. */
  function LineIndex(cart: seq<CartLine>, id: int): (r: Option<nat>)
    ensures r.None? <==> !HasLine(cart, id)
    ensures r.Some? ==> r.value < |cart| && cart[r.value].product.id == id
  {
    FindFirst(cart, (l: CartLine) => l.product.id == id)
  }

  /** The cart after POST /api/cart has found `product`: the existing line
      for its id grows by `qty`, or a new line is appended. */
  function CartAdd(cart: seq<CartLine>, product: Product, qty: int): seq<CartLine> {
    match LineIndex(cart, product.id)
    case Some(i) => cart[i := cart[i].(quantity := cart[i].quantity + qty)]
    case None => cart + [CartLine(product, qty)]
  }

  /** The filter of DELETE /api/cart/:id, `item.product.id !== id`. A
      parameter that does not parse (`None`, NaN) differs from every id. */
  function KeepLine(id: Option<int>): CartLine -> bool {
    (l: CartLine) => id.None? || l.product.id != id.value
  }

  /** The cart after DELETE /api/cart/:id. */
  function CartRemove(cart: seq<CartLine>, id: Option<int>): (r: seq<CartLine>)
    ensures forall l :: l in r <==> l in cart && (id.None? || l.product.id != id.value)
    ensures IsSubsequence(r, cart)
  {
    FilterIsSubsequence(cart, KeepLine(id));
    Filter(cart, KeepLine(id))
  }

  lemma {:induction false} QuantityOfAppend(cart: seq<CartLine>, l: CartLine, id: int)
    ensures QuantityOf(cart + [l], id) == QuantityOf(cart, id) + (if l.product.id == id then l.quantity else 0)
  {
    if cart != [] {
      assert (cart + [l])[1..] == cart[1..] + [l];
      QuantityOfAppend(cart[1..], l, id);
    } else {
      assert cart + [l] == [l];
    }
  }

  lemma {:induction false} QuantityOfUpdate(cart: seq<CartLine>, i: nat, q: int, id: int)
    requires i < |cart|
    ensures QuantityOf(cart[i := cart[i].(quantity := q)], id)
         == QuantityOf(cart, id) + (if cart[i].product.id == id then q - cart[i].quantity else 0)
  {
    var c := cart[i := cart[i].(quantity := q)];
    if i > 0 {
      assert c[0] == cart[0];
      assert c[1..] == cart[1..][i - 1 := cart[i].(quantity := q)];
      QuantityOfUpdate(cart[1..], i - 1, q, id);
    } else {
      assert c[1..] == cart[1..];
    }
  }

  /** Adding leaves the products of the cart in their order: the lines of
      other products stay as they were, and a line is appended, last, only
      for a product that had none. */
  lemma CartAddKeepsOtherLines(cart: seq<CartLine>, product: Product, qty: int)
    ensures var r := CartAdd(cart, product, qty);
      && |cart| <= |r| <= |cart| + 1
      && (forall k :: 0 <= k < |cart| ==> r[k].product == cart[k].product)
      && (forall k :: 0 <= k < |cart| && cart[k].product.id != product.id ==> r[k] == cart[k])
      && (|r| == |cart| + 1 <==> !HasLine(cart, product.id))
      && (|r| == |cart| + 1 ==> r[|cart|] == CartLine(product, qty))
  {
  }

  /** With one line per product, a product's quantity is that of its line. */
  lemma {:induction false} QuantityOfLine(cart: seq<CartLine>, i: nat)
    requires OneLinePerProduct(cart) && i < |cart|
    ensures QuantityOf(cart, cart[i].product.id) == cart[i].quantity
  {
    if i == 0 {
      QuantityOfAbsent(cart[1..], cart[0].product.id);
    } else {
      assert OneLinePerProduct(cart[1..]);
      QuantityOfLine(cart[1..], i - 1);
      assert DifferentProducts(cart[0], cart[i]);
    }
  }

  /** A product without a line has no quantity. */
  lemma {:induction false} QuantityOfAbsent(cart: seq<CartLine>, id: int)
    requires forall k :: 0 <= k < |cart| ==> cart[k].product.id != id
    ensures QuantityOf(cart, id) == 0
  {
    if cart != [] {
      QuantityOfAbsent(cart[1..], id);
    }
  }

  /** Adding raises the quantity of the added product by `qty`, and of no other. */
  lemma CartAddQuantity(cart: seq<CartLine>, product: Product, qty: int, id: int)
    ensures QuantityOf(CartAdd(cart, product, qty), id)
         == QuantityOf(cart, id) + (if id == product.id then qty else 0)
  {
    match LineIndex(cart, product.id)
    case Some(i) => QuantityOfUpdate(cart, i, cart[i].quantity + qty, id);
    case None => QuantityOfAppend(cart, CartLine(product, qty), id);
  }

  /** Adding keeps one line per product, and makes a new line exactly when
      the product had none; afterwards the product has a line. */
  lemma CartAddKeepsOneLine(cart: seq<CartLine>, product: Product, qty: int)
    requires OneLinePerProduct(cart)
    ensures OneLinePerProduct(CartAdd(cart, product, qty))
    ensures |CartAdd(cart, product, qty)| == |cart| + (if HasLine(cart, product.id) then 0 else 1)
    ensures HasLine(CartAdd(cart, product, qty), product.id)
  {
    var r := CartAdd(cart, product, qty);
    match LineIndex(cart, product.id)
    case Some(i) =>
      assert r[i].product.id == product.id;
      forall a, b | 0 <= a < b < |r| ensures DifferentProducts(r[a], r[b]) {
        assert r[a].product == cart[a].product && r[b].product == cart[b].product;
        assert DifferentProducts(cart[a], cart[b]);
      }
    case None =>
      assert r[|cart|].product.id == product.id;
      forall a, b | 0 <= a < b < |r| ensures DifferentProducts(r[a], r[b]) {
        if b < |cart| {
          assert DifferentProducts(cart[a], cart[b]);
        } else {
          assert r[a] == cart[a];
        }
      }
  }

  /** Adding a catalog product keeps every line a catalog product. */
  lemma CartAddInCatalog(catalog: seq<Product>, cart: seq<CartLine>, product: Product, qty: int)
    requires LinesInCatalog(catalog, cart) && product in catalog
    ensures LinesInCatalog(catalog, CartAdd(cart, product, qty))
  {
    var r := CartAdd(cart, product, qty);
    forall k | 0 <= k < |r| ensures r[k].product in catalog {
      if k < |cart| && r[k].product != product {
        match LineIndex(cart, product.id)
        case Some(i) => assert r[k].product == cart[k].product;
        case None => assert r[k] == cart[k];
      }
    }
  }

  /** After removing, the removed product has no quantity left, and the
      others keep theirs. */
  lemma {:induction false} CartRemoveQuantity(cart: seq<CartLine>, id: int, x: int)
    ensures QuantityOf(CartRemove(cart, Some(id)), x) == (if x == id then 0 else QuantityOf(cart, x))
  {
    if cart != [] {
      CartRemoveQuantity(cart[1..], id, x);
      var f := KeepLine(Some(id));
      var rest := Filter(cart[1..], f);
      if f(cart[0]) {
        var r := [cart[0]] + rest;
        assert Filter(cart, f) == r;
        assert r[0] == cart[0] && r[1..] == rest;
      } else {
        assert Filter(cart, f) == rest;
      }
    }
  }

  /** Removing keeps one line per product and leaves no line for the id. */
  lemma CartRemoveKeepsOneLine(cart: seq<CartLine>, id: Option<int>)
    requires OneLinePerProduct(cart)
    ensures OneLinePerProduct(CartRemove(cart, id))
    ensures id.Some? ==> !HasLine(CartRemove(cart, id), id.value)
  {
    FilterPairwise(cart, KeepLine(id), DifferentProducts);
    var r := CartRemove(cart, id);
    forall i | 0 <= i < |r| ensures id.Some? ==> r[i].product.id != id.value {
      assert r[i] in r;
    }
  }

  /** Removing keeps every line a catalog product. */
  lemma CartRemoveInCatalog(catalog: seq<Product>, cart: seq<CartLine>, id: Option<int>)
    requires LinesInCatalog(catalog, cart)
    ensures LinesInCatalog(catalog, CartRemove(cart, id))
  {
    var r := CartRemove(cart, id);
    forall k | 0 <= k < |r| ensures r[k].product in catalog {
      assert r[k] in r;
      var i :| 0 <= i < |cart| && cart[i] == r[k];
    }
  }

  /** Removing twice removes no more than removing once. */
  lemma CartRemoveIdempotent(cart: seq<CartLine>, id: Option<int>)
    ensures CartRemove(CartRemove(cart, id), id) == CartRemove(cart, id)
  {
    FilterIdempotent(cart, KeepLine(id));
  }

  /** Removing a product with no line, or an id that did not parse, changes nothing. */
  lemma CartRemoveAbsent(cart: seq<CartLine>, id: Option<int>)
    requires id.None? || !HasLine(cart, id.value)
    ensures CartRemove(cart, id) == cart
  {
    FilterAll(cart, KeepLine(id));
  }

  // ---------------------------------------------------------------------
  // Wishlist API
  // ---------------------------------------------------------------------

  predicate InWishlist(wishlist: seq<Product>, id: int) {
    exists i :: 0 <= i < |wishlist| && wishlist[i].id == id
  }

  predicate AllInCatalog(catalog: seq<Product>, s: seq<Product>) {
    forall i :: 0 <= i < |s| ==> s[i] in catalog
  }

  /** The wishlist after POST /api/wishlist has found `product`: appended
      unless a product with its id is already there. */
  function WishlistAdd(wishlist: seq<Product>, product: Product): seq<Product> {
    if FindFirst(wishlist, (p: Product) => p.id == product.id).Some? then wishlist else wishlist + [product]
  }

  /** The filter of DELETE /api/wishlist/:id, `p.id !== id`. */
  function KeepProduct(id: Option<int>): Product -> bool {
    (p: Product) => id.None? || p.id != id.value
  }

  /** The wishlist after DELETE /api/wishlist/:id. */
  function WishlistRemove(wishlist: seq<Product>, id: Option<int>): (r: seq<Product>)
    ensures forall p :: p in r <==> p in wishlist && (id.None? || p.id != id.value)
    ensures IsSubsequence(r, wishlist)
  {
    FilterIsSubsequence(wishlist, KeepProduct(id));
    Filter(wishlist, KeepProduct(id))
  }

  /** Adding puts the product's id on the wishlist, keeps the ids unique,
      adds nothing a second time, and touches no other membership. */
  lemma WishlistAddSpec(wishlist: seq<Product>, product: Product, x: int)
    requires UniqueIds(wishlist)
    ensures InWishlist(WishlistAdd(wishlist, product), product.id)
    ensures UniqueIds(WishlistAdd(wishlist, product))
    ensures WishlistAdd(WishlistAdd(wishlist, product), product) == WishlistAdd(wishlist, product)
    ensures x != product.id ==> (InWishlist(WishlistAdd(wishlist, product), x) <==> InWishlist(wishlist, x))
  {
    var r := WishlistAdd(wishlist, product);
    if FindFirst(wishlist, (p: Product) => p.id == product.id).None? {
      assert r[|wishlist|].id == product.id;
      assert FindFirst(r, (p: Product) => p.id == product.id).Some?;
      forall a, b | 0 <= a < b < |r| ensures DifferentIds(r[a], r[b]) {
        if b < |wishlist| {
          assert DifferentIds(wishlist[a], wishlist[b]);
        } else {
          assert r[a] == wishlist[a];
        }
      }
      if InWishlist(wishlist, x) {
        var i :| 0 <= i < |wishlist| && wishlist[i].id == x;
        assert r[i] == wishlist[i];
      }
      if InWishlist(r, x) && x != product.id {
        var i :| 0 <= i < |r| && r[i].id == x;
        assert i < |wishlist| && wishlist[i].id == x;
      }
    }
  }

  /** Adding a catalog product keeps every entry a catalog product. */
  lemma WishlistAddInCatalog(catalog: seq<Product>, wishlist: seq<Product>, product: Product)
    requires AllInCatalog(catalog, wishlist) && product in catalog
    ensures AllInCatalog(catalog, WishlistAdd(wishlist, product))
  {
  }

  lemma WishlistRemoveDropsId(wishlist: seq<Product>, id: int)
    ensures !InWishlist(WishlistRemove(wishlist, Some(id)), id)
  {
    var r := WishlistRemove(wishlist, Some(id));
    forall i | 0 <= i < |r| ensures r[i].id != id {
      assert r[i] in r;
    }
  }

  lemma WishlistRemoveKeepsOthers(wishlist: seq<Product>, id: Option<int>, x: int)
    requires id.None? || x != id.value
    ensures InWishlist(WishlistRemove(wishlist, id), x) <==> InWishlist(wishlist, x)
  {
    var r := WishlistRemove(wishlist, id);
    if InWishlist(wishlist, x) {
      var i :| 0 <= i < |wishlist| && wishlist[i].id == x;
      assert wishlist[i] in r;
      var k :| 0 <= k < |r| && r[k] == wishlist[i];
    }
    if InWishlist(r, x) {
      var i :| 0 <= i < |r| && r[i].id == x;
      assert r[i] in wishlist;
      var k :| 0 <= k < |wishlist| && wishlist[k] == r[i];
    }
  }

  /** Removing takes the id off the wishlist, keeps the ids unique, and
      touches no other membership. */
  lemma WishlistRemoveSpec(wishlist: seq<Product>, id: Option<int>, x: int)
    requires UniqueIds(wishlist)
    ensures id.Some? ==> !InWishlist(WishlistRemove(wishlist, id), id.value)
    ensures UniqueIds(WishlistRemove(wishlist, id))
    ensures (id.None? || x != id.value) ==> (InWishlist(WishlistRemove(wishlist, id), x) <==> InWishlist(wishlist, x))
  {
    FilterPairwise(wishlist, KeepProduct(id), DifferentIds);
    if id.Some? {
      WishlistRemoveDropsId(wishlist, id.value);
    }
    if id.None? || x != id.value {
      WishlistRemoveKeepsOthers(wishlist, id, x);
    }
  }

  /** Removing keeps every entry a catalog product. */
  lemma WishlistRemoveInCatalog(catalog: seq<Product>, wishlist: seq<Product>, id: Option<int>)
    requires AllInCatalog(catalog, wishlist)
    ensures AllInCatalog(catalog, WishlistRemove(wishlist, id))
  {
    var r := WishlistRemove(wishlist, id);
    forall i | 0 <= i < |r| ensures r[i] in catalog {
      assert r[i] in r;
      var k :| 0 <= k < |wishlist| && wishlist[k] == r[i];
    }
  }

  // ---------------------------------------------------------------------
  // Orders API
  // ---------------------------------------------------------------------

  /** The shipping block of the checkout form, field by field. */
  datatype ShippingInfo = ShippingInfo(
    firstName: string, lastName: string, email: string, phone: string,
    address: string, city: string, state: string, zipCode: string,
    country: string, notes: string)

  /** The body the checkout page posts: shipping details and the payment method. */
  datatype OrderData = OrderData(shipping: ShippingInfo, payment: string)

  /** A stored order: the posted body with the id the server gives it. */
  datatype Order = Order(id: string, data: OrderData)

  /** `ORD-${Date.now()}`, for a clock reading in milliseconds. */
  function OrderId(timestamp: nat): (r: string)
    ensures |r| > 4 && r[..4] == "ORD-"
    ensures forall i :: 4 <= i < |r| ==> IsDigit(r[i])
  {
    "ORD-" + NatToString(timestamp)
  }

  /** Orders placed at different milliseconds get different ids. */
  lemma OrderIdInjective(t1: nat, t2: nat)
    ensures OrderId(t1) == OrderId(t2) <==> t1 == t2
  {
    if OrderId(t1) == OrderId(t2) {
      assert OrderId(t1)[4..] == NatToString(t1);
      assert OrderId(t2)[4..] == NatToString(t2);
      NatToStringInjective(t1, t2);
    }
  }

  // ---------------------------------------------------------------------
  // The server's state
  // ---------------------------------------------------------------------

  /** A route's status: 201 with a body, 204, or 404. */
  datatype Reply<T> = Created(body: T) | NoContent | NotFound

  class Repository {
    /** The product list imported from backend/products.js. */
    const catalog: seq<Product>
    var cart: seq<CartLine>
    var wishlist: seq<Product>
    var orders: seq<Order>

    /** What the route handlers maintain: one cart line per product, every
        cart line and wishlist entry a catalog product, no wishlist id twice;
        and the catalog's ids are unique. */
    ghost predicate Valid()
      reads this
    {
      && UniqueIds(catalog)
      && OneLinePerProduct(cart) && LinesInCatalog(catalog, cart)
      && UniqueIds(wishlist) && AllInCatalog(catalog, wishlist)
    }

    /** The process starts with all three collections empty. */
    constructor ()
      ensures Valid()
      ensures catalog == PRODUCTS && cart == [] && wishlist == [] && orders == []
    {
      catalog := PRODUCTS;
      cart := [];
      CatalogWellFormed();
      wishlist := [];
      orders := [];
    }

    /** POST /api/cart. Both body fields go through `parseInt`, and a
        quantity that does not parse, or is 0, counts as 1. */
    method PostCart(productId: Option<int>, quantity: Option<int>) returns (reply: Reply<seq<CartLine>>)
      requires Valid()
      modifies this
      ensures Valid()
      ensures ProductById(catalog, productId).None? ==> reply == NotFound && cart == old(cart)
      ensures ProductById(catalog, productId).Some? ==>
        && cart == CartAdd(old(cart), ProductById(catalog, productId).value, IntOr(quantity, 1))
        && reply == Created(cart)
      ensures wishlist == old(wishlist) && orders == old(orders)
    {
      var parsedQuantity := IntOr(quantity, 1);
      var product := ProductById(catalog, productId);
      if product.None? {
        return NotFound;
      }
      var next := cart;
      var existing := LineIndex(next, product.value.id);
      if existing.Some? {
        var i := existing.value;
        next := next[i := next[i].(quantity := next[i].quantity + parsedQuantity)];
      } else {
        next := next + [CartLine(product.value, parsedQuantity)];
      }
      assert next == CartAdd(cart, product.value, parsedQuantity);
      CartAddKeepsOneLine(cart, product.value, parsedQuantity);
      CartAddInCatalog(catalog, cart, product.value, parsedQuantity);
      cart := next;
      reply := Created(cart);
    }

    /** DELETE /api/cart/:id. */
    method DeleteCart(id: Option<int>) returns (reply: Reply<seq<CartLine>>)
      requires Valid()
      modifies this
      ensures Valid()
      ensures cart == CartRemove(old(cart), id) && reply == NoContent
      ensures wishlist == old(wishlist) && orders == old(orders)
    {
      CartRemoveKeepsOneLine(cart, id);
      CartRemoveInCatalog(catalog, cart, id);
      cart := CartRemove(cart, id);
      reply := NoContent;
    }

    /** POST /api/wishlist. The id is compared with `===` as sent, without
        `parseInt`; a body whose id is not a number (`None`) finds nothing. */
    method PostWishlist(productId: Option<int>) returns (reply: Reply<seq<Product>>)
      requires Valid()
      modifies this
      ensures Valid()
      ensures ProductById(catalog, productId).None? ==> reply == NotFound && wishlist == old(wishlist)
      ensures ProductById(catalog, productId).Some? ==>
        && wishlist == WishlistAdd(old(wishlist), ProductById(catalog, productId).value)
        && reply == Created(wishlist)
      ensures cart == old(cart) && orders == old(orders)
    {
      var product := ProductById(catalog, productId);
      if product.None? {
        return NotFound;
      }
      WishlistAddSpec(wishlist, product.value, product.value.id);
      WishlistAddInCatalog(catalog, wishlist, product.value);
      if FindFirst(wishlist, (p: Product) => p.id == product.value.id).None? {
        wishlist := wishlist + [product.value];
      }
      reply := Created(wishlist);
    }

    /** DELETE /api/wishlist/:id. */
    method DeleteWishlist(id: Option<int>) returns (reply: Reply<seq<Product>>)
      requires Valid()
      modifies this
      ensures Valid()
      ensures wishlist == WishlistRemove(old(wishlist), id) && reply == NoContent
      ensures cart == old(cart) && orders == old(orders)
    {
      WishlistRemoveSpec(wishlist, id, 0);
      WishlistRemoveInCatalog(catalog, wishlist, id);
      wishlist := WishlistRemove(wishlist, id);
      reply := NoContent;
    }

    /** POST /api/orders: stores the body under a clock-derived id; the
        clock reading is a parameter. */
    method PostOrder(data: OrderData, timestamp: nat) returns (reply: Reply<Order>)
      requires Valid()
      modifies this
      ensures Valid()
      ensures orders == old(orders) + [Order(OrderId(timestamp), data)]
      ensures reply == Created(Order(OrderId(timestamp), data))
      ensures cart == old(cart) && wishlist == old(wishlist)
    {
      var order := Order(OrderId(timestamp), data);
      orders := orders + [order];
      reply := Created(order);
    }
  }
}
