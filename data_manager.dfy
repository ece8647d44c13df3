/** The client-side facade of frontend/shared/data-manager.js. Every call
    is one or more HTTP requests to the backend; here a request is a call
    into the server's `Repository`, and a read of the server's state is a
    function of that state. A JSON parse that throws is `None`. */
module DataManager {
  import opened Opt
  import opened Strings
  import opened Seqs
  import opened Catalog
  import Server

  // ---------------------------------------------------------------------
  // Products
  // ---------------------------------------------------------------------

  /** `searchProducts`' test: name, description or category, lower-cased,
      includes the lower-cased query. */
  predicate MatchesQuery(p: Product, lowerQuery: string) {
    || Contains(ToLower(p.name), lowerQuery)
    || Contains(ToLower(p.description), lowerQuery)
    || Contains(ToLower(p.category), lowerQuery)
  }

  function QueryFilter(query: string): Product -> bool {
    (p: Product) => MatchesQuery(p, ToLower(query))
  }

  /** `searchProducts(query)` over the product list `getAllProducts` fetched. */
  function SearchProducts(products: seq<Product>, query: string): (r: seq<Product>)
    ensures forall p :: p in r <==> p in products && MatchesQuery(p, ToLower(query))
    ensures IsSubsequence(r, products)
  {
    FilterIsSubsequence(products, QueryFilter(query));
    Filter(products, QueryFilter(query))
  }

  /** The facade searches client-side over the whole catalog and also
      looks at the category; it therefore finds everything the server's own
      search finds, in the same order. */
  lemma SearchExtendsServerSearch(catalog: seq<Product>, query: string)
    ensures IsSubsequence(Server.SearchProducts(catalog, query),
                          SearchProducts(Server.SearchProducts(catalog, ""), query))
  {
    if query == [] {
      forall p ensures QueryFilter(query)(p) {
        ContainsEmpty(ToLower(p.name));
      }
      FilterAll(catalog, QueryFilter(query));
      SubsequenceReflexive(catalog);
    } else {
      FilterWeaker(catalog, Server.Matching(query), QueryFilter(query));
    }
  }

  /** An empty query keeps every product. */
  lemma SearchEmptyQuery(products: seq<Product>)
    ensures SearchProducts(products, "") == products
  {
    forall p ensures QueryFilter("")(p) {
      ContainsEmpty(ToLower(p.name));
    }
    FilterAll(products, QueryFilter(""));
  }

  // ---------------------------------------------------------------------
  // Cart
  // ---------------------------------------------------------------------

  /** `{ ...product, quantity }`: a product as fetched, with its cart quantity. */
  datatype CartItem = CartItem(product: Product, quantity: int)

  /** `getCartItems()`: each cart line's product fetched again by id, with
      the line's quantity, in cart order. A 404 reply is plain text, so
      `response.json()` throws: `None`. */
  function GetCartItems(catalog: seq<Product>, cart: seq<Server.CartLine>): (r: Option<seq<CartItem>>)
    ensures r.Some? <==> forall i :: 0 <= i < |cart| ==> Server.FindById(catalog, cart[i].product.id).Some?
    ensures r.Some? ==> |r.value| == |cart|
    ensures r.Some? ==> forall i :: 0 <= i < |cart| ==>
      && r.value[i].quantity == cart[i].quantity
      && r.value[i].product.id == cart[i].product.id
      && r.value[i].product in catalog
  {
    if cart == [] then Some([])
    else
      var head := Server.ProductById(catalog, Some(cart[0].product.id));
      var tail := GetCartItems(catalog, cart[1..]);
      if head.None? || tail.None? then
        assert head.None? ==> !Server.FindById(catalog, cart[0].product.id).Some?;
        None
      else
        Some([CartItem(head.value, cart[0].quantity)] + tail.value)
  }

  /** On the server's state the items are exactly the cart's lines: every
      line holds a catalog product, and ids are unique, so each fetch
      returns the very product of its line. */
  lemma {:induction false} GetCartItemsOfValidCart(catalog: seq<Product>, cart: seq<Server.CartLine>)
    requires UniqueIds(catalog) && Server.LinesInCatalog(catalog, cart)
    ensures GetCartItems(catalog, cart).Some?
    ensures forall i :: 0 <= i < |cart| ==>
      GetCartItems(catalog, cart).value[i] == CartItem(cart[i].product, cart[i].quantity)
  {
    if cart != [] {
      assert Server.LinesInCatalog(catalog, cart[1..]);
      GetCartItemsOfValidCart(catalog, cart[1..]);
      Server.ProductByIdFindsMember(catalog, cart[0].product);
      var r := GetCartItems(catalog, cart).value;
      forall i | 0 <= i < |cart| ensures r[i] == CartItem(cart[i].product, cart[i].quantity) {
        if i > 0 {
          assert r[i] == GetCartItems(catalog, cart[1..]).value[i - 1];
        }
      }
    }
  }

  /** `getCartCount()`: the sum of the line quantities. */
  function CartCount(cart: seq<Server.CartLine>): int {
    if cart == [] then 0 else cart[0].quantity + CartCount(cart[1..])
  }

  /** Appending a line adds its quantity to the count. */
  lemma {:induction false} CartCountAppend(cart: seq<Server.CartLine>, l: Server.CartLine)
    ensures CartCount(cart + [l]) == CartCount(cart) + l.quantity
  {
    if cart != [] {
      assert (cart + [l])[1..] == cart[1..] + [l];
      CartCountAppend(cart[1..], l);
    } else {
      assert cart + [l] == [l];
    }
  }

  lemma {:induction false} CartCountUpdate(cart: seq<Server.CartLine>, i: nat, q: int)
    requires i < |cart|
    ensures CartCount(cart[i := cart[i].(quantity := q)]) == CartCount(cart) + q - cart[i].quantity
  {
    var c := cart[i := cart[i].(quantity := q)];
    if i > 0 {
      assert c[0] == cart[0];
      assert c[1..] == cart[1..][i - 1 := cart[i].(quantity := q)];
      CartCountUpdate(cart[1..], i - 1, q);
    } else {
      assert c[1..] == cart[1..];
    }
  }

  /** Adding `qty` of a product raises the count by `qty`. */
  lemma CartCountAdd(cart: seq<Server.CartLine>, product: Product, qty: int)
    ensures CartCount(Server.CartAdd(cart, product, qty)) == CartCount(cart) + qty
  {
    match Server.LineIndex(cart, product.id)
    case Some(i) =>
      CartCountUpdate(cart, i, cart[i].quantity + qty);
    case None =>
      CartCountAppend(cart, Server.CartLine(product, qty));
  }

  /** Removing a product lowers the count by the quantity it had. */
  lemma {:induction false} CartCountRemove(cart: seq<Server.CartLine>, id: int)
    ensures CartCount(Server.CartRemove(cart, Some(id))) == CartCount(cart) - Server.QuantityOf(cart, id)
  {
    if cart != [] {
      CartCountRemove(cart[1..], id);
      var f := Server.KeepLine(Some(id));
      var rest := Filter(cart[1..], f);
      if f(cart[0]) {
        var r := [cart[0]] + rest;
        assert Filter(cart, f) == r;
        assert r[0] == cart[0] && r[1..] == rest;
      } else {
        assert Filter(cart, f) == rest;
      }
    }
  }

  /** `items.reduce((t, item) => t + item.price * item.quantity, 0)`, in cents. */
  function ItemsTotal(items: seq<CartItem>): int {
    if items == [] then 0 else items[0].product.price * items[0].quantity + ItemsTotal(items[1..])
  }

  /** `getCartTotal()`: the total of `getCartItems()`; it throws when that does. */
  function GetCartTotal(catalog: seq<Product>, cart: seq<Server.CartLine>): (r: Option<int>)
    ensures r.Some? <==> GetCartItems(catalog, cart).Some?
  {
    match GetCartItems(catalog, cart)
    case Some(items) => Some(ItemsTotal(items))
    case None => None
  }

  /** The price of a cart: each line's product price times its quantity. */
  function LinesTotal(cart: seq<Server.CartLine>): int {
    if cart == [] then 0 else cart[0].product.price * cart[0].quantity + LinesTotal(cart[1..])
  }

  /** On the server's state the fetched total is the price of the cart's own lines. */
  lemma {:induction false} GetCartTotalOfValidCart(catalog: seq<Product>, cart: seq<Server.CartLine>)
    requires UniqueIds(catalog) && Server.LinesInCatalog(catalog, cart)
    ensures GetCartTotal(catalog, cart) == Some(LinesTotal(cart))
  {
    GetCartItemsOfValidCart(catalog, cart);
    if cart != [] {
      assert Server.LinesInCatalog(catalog, cart[1..]);
      GetCartTotalOfValidCart(catalog, cart[1..]);
      var items := GetCartItems(catalog, cart).value;
      assert items[1..] == GetCartItems(catalog, cart[1..]).value;
    }
  }

  /** The cart after `updateCartQuantity(id, q)`: the line is removed and,
      when `q > 0`, added again with quantity `q`. */
  function CartAfterUpdate(catalog: seq<Product>, cart: seq<Server.CartLine>, id: int, q: int): seq<Server.CartLine> {
    var removed := Server.CartRemove(cart, Some(id));
    if q > 0 then
      match Server.ProductById(catalog, Some(id))
      case Some(p) => Server.CartAdd(removed, p, q)
      case None => removed
    else removed
  }

  /** After an update the product has exactly the requested quantity, on
      one line that now stands last in the cart; a quantity of 0 or less
      removes it; no other product changes. */
  lemma CartAfterUpdateSpec(catalog: seq<Product>, cart: seq<Server.CartLine>, id: int, q: int, x: int)
    requires Server.OneLinePerProduct(cart)
    ensures Server.OneLinePerProduct(CartAfterUpdate(catalog, cart, id, q))
    ensures Server.QuantityOf(CartAfterUpdate(catalog, cart, id, q), id)
         == (if q > 0 && Server.ProductById(catalog, Some(id)).Some? then q else 0)
    ensures x != id ==> Server.QuantityOf(CartAfterUpdate(catalog, cart, id, q), x) == Server.QuantityOf(cart, x)
    ensures q > 0 && Server.ProductById(catalog, Some(id)).Some? ==>
      CartAfterUpdate(catalog, cart, id, q)
        == Server.CartRemove(cart, Some(id)) + [Server.CartLine(Server.ProductById(catalog, Some(id)).value, q)]
  {
    var removed := Server.CartRemove(cart, Some(id));
    Server.CartRemoveKeepsOneLine(cart, Some(id));
    Server.CartRemoveQuantity(cart, id, id);
    Server.CartRemoveQuantity(cart, id, x);
    if q > 0 && Server.ProductById(catalog, Some(id)).Some? {
      var p := Server.ProductById(catalog, Some(id)).value;
      Server.CartAddKeepsOneLine(removed, p, q);
      Server.CartAddQuantity(removed, p, q, id);
      Server.CartAddQuantity(removed, p, q, x);
    }
  }

  /** `addToCart(productId, quantity = 1)`: POST /api/cart with the JSON body. */
  method AddToCart(repo: Server.Repository, productId: int, quantity: Option<int>)
    returns (reply: Server.Reply<seq<Server.CartLine>>)
    requires repo.Valid()
    modifies repo
    ensures repo.Valid()
    ensures match Server.ProductById(repo.catalog, Some(productId))
      case None => reply == Server.NotFound && repo.cart == old(repo.cart)
      case Some(p) =>
        && repo.cart == Server.CartAdd(old(repo.cart), p, IntOr(Some(quantity.GetOr(1)), 1))
        && reply == Server.Created(repo.cart)
    ensures repo.wishlist == old(repo.wishlist) && repo.orders == old(repo.orders)
  {
    reply := repo.PostCart(Some(productId), Some(quantity.GetOr(1)));
  }

  /** `removeFromCart(productId)`: DELETE /api/cart/:id. */
  method RemoveFromCart(repo: Server.Repository, productId: int)
    requires repo.Valid()
    modifies repo
    ensures repo.Valid()
    ensures repo.cart == Server.CartRemove(old(repo.cart), Some(productId))
    ensures repo.wishlist == old(repo.wishlist) && repo.orders == old(repo.orders)
  {
    var _ := repo.DeleteCart(Some(productId));
  }

  /** `updateCartQuantity(productId, quantity)`: there is no update route,
      so the line is removed and, for a positive quantity, added again. */
  method UpdateCartQuantity(repo: Server.Repository, productId: int, quantity: int)
    requires repo.Valid()
    modifies repo
    ensures repo.Valid()
    ensures repo.cart == CartAfterUpdate(repo.catalog, old(repo.cart), productId, quantity)
    ensures repo.wishlist == old(repo.wishlist) && repo.orders == old(repo.orders)
  {
    RemoveFromCart(repo, productId);
    if quantity > 0 {
      var _ := AddToCart(repo, productId, Some(quantity));
    }
  }

  // ---------------------------------------------------------------------
  // Wishlist
  // ---------------------------------------------------------------------

  /** `isInWishlist(productId)`: `!!wishlist.find(p => p.id === productId)`. */
  function IsInWishlist(wishlist: seq<Product>, productId: int): (r: bool)
    ensures r <==> Server.InWishlist(wishlist, productId)
  {
    FindFirst(wishlist, (p: Product) => p.id == productId).Some?
  }

  /** `getWishlistCount()`: the number of wishlist entries. */
  function WishlistCount(wishlist: seq<Product>): nat {
    |wishlist|
  }

  /** The wishlist after `toggleWishlist(productId)`: removed when present,
      posted otherwise (and the post finds a catalog product, or nothing). */
  function WishlistAfterToggle(catalog: seq<Product>, wishlist: seq<Product>, productId: int): seq<Product> {
    if IsInWishlist(wishlist, productId) then Server.WishlistRemove(wishlist, Some(productId))
    else match Server.ProductById(catalog, Some(productId))
      case Some(p) => Server.WishlistAdd(wishlist, p)
      case None => wishlist
  }

  /** Toggling a catalog product flips its membership, moves the count by
      one, and leaves every other product's membership as it was. */
  lemma ToggleFlips(catalog: seq<Product>, wishlist: seq<Product>, productId: int, x: int)
    requires UniqueIds(wishlist)
    requires Server.FindById(catalog, productId).Some?
    ensures UniqueIds(WishlistAfterToggle(catalog, wishlist, productId))
    ensures IsInWishlist(WishlistAfterToggle(catalog, wishlist, productId), productId)
        == !IsInWishlist(wishlist, productId)
    ensures WishlistCount(WishlistAfterToggle(catalog, wishlist, productId))
        == if IsInWishlist(wishlist, productId) then WishlistCount(wishlist) - 1 else WishlistCount(wishlist) + 1
    ensures x != productId ==>
      IsInWishlist(WishlistAfterToggle(catalog, wishlist, productId), x) == IsInWishlist(wishlist, x)
  {
    var p := Server.ProductById(catalog, Some(productId)).value;
    if IsInWishlist(wishlist, productId) {
      Server.WishlistRemoveSpec(wishlist, Some(productId), x);
      RemovePresentShrinks(wishlist, productId);
    } else {
      Server.WishlistAddSpec(wishlist, p, x);
    }
  }

  /** Toggling twice restores every product's membership. */
  lemma ToggleTwiceRestores(catalog: seq<Product>, wishlist: seq<Product>, productId: int, x: int)
    requires UniqueIds(wishlist)
    requires Server.FindById(catalog, productId).Some?
    ensures IsInWishlist(WishlistAfterToggle(catalog, WishlistAfterToggle(catalog, wishlist, productId), productId), x)
         == IsInWishlist(wishlist, x)
  {
    var once := WishlistAfterToggle(catalog, wishlist, productId);
    ToggleFlips(catalog, wishlist, productId, x);
    ToggleFlips(catalog, once, productId, x);
  }

  /** In a list of unique ids, the head's id occurs nowhere else. */
  lemma HeadIdOnce(wishlist: seq<Product>)
    requires UniqueIds(wishlist) && wishlist != []
    ensures Filter(wishlist[1..], Server.KeepProduct(Some(wishlist[0].id))) == wishlist[1..]
  {
    var f := Server.KeepProduct(Some(wishlist[0].id));
    forall i | 0 <= i < |wishlist[1..]| ensures f(wishlist[1..][i]) {
      assert DifferentIds(wishlist[0], wishlist[i + 1]);
    }
    FilterAll(wishlist[1..], f);
  }

  /** In a list of unique ids, removing a present id removes exactly one entry. */
  lemma {:induction false} RemovePresentShrinks(wishlist: seq<Product>, id: int)
    requires UniqueIds(wishlist) && Server.InWishlist(wishlist, id)
    ensures |Server.WishlistRemove(wishlist, Some(id))| == |wishlist| - 1
  {
    var f := Server.KeepProduct(Some(id));
    var rest := Filter(wishlist[1..], f);
    if wishlist[0].id == id {
      assert !f(wishlist[0]);
      assert Filter(wishlist, f) == rest;
      HeadIdOnce(wishlist);
    } else {
      assert f(wishlist[0]);
      var i :| 0 <= i < |wishlist| && wishlist[i].id == id;
      assert i > 0;
      assert wishlist[1..][i - 1].id == id;
      assert UniqueIds(wishlist[1..]);
      RemovePresentShrinks(wishlist[1..], id);
      assert Filter(wishlist, f) == [wishlist[0]] + rest;
    }
  }

  /** `toggleWishlist(productId)`: reads the wishlist, then deletes or posts. */
  method ToggleWishlist(repo: Server.Repository, productId: int)
    requires repo.Valid()
    modifies repo
    ensures repo.Valid()
    ensures repo.wishlist == WishlistAfterToggle(repo.catalog, old(repo.wishlist), productId)
    ensures repo.cart == old(repo.cart) && repo.orders == old(repo.orders)
  {
    var wishlist := repo.wishlist;
    if FindFirst(wishlist, (p: Product) => p.id == productId).Some? {
      var _ := repo.DeleteWishlist(Some(productId));
    } else {
      var _ := repo.PostWishlist(Some(productId));
    }
  }

  // ---------------------------------------------------------------------
  // Orders
  // ---------------------------------------------------------------------

  /** `createOrder(orderData)`: POST /api/orders; the reply is the stored order. */
  method CreateOrder(repo: Server.Repository, data: Server.OrderData, timestamp: nat)
    returns (order: Server.Order)
    requires repo.Valid()
    modifies repo
    ensures repo.Valid()
    ensures order == Server.Order(Server.OrderId(timestamp), data)
    ensures repo.orders == old(repo.orders) + [order]
    ensures repo.cart == old(repo.cart) && repo.wishlist == old(repo.wishlist)
  {
    var reply := repo.PostOrder(data, timestamp);
    order := reply.body;
  }
}
