/** The cart page of frontend/cart/cart.js: the item-count label, the
    order totals, the quantity buttons, removal and the checkout button.
    Markup, notifications and the navbar badge are not modelled. */
module CartPage {
  import opened Opt
  import opened Strings
  import opened Seqs
  import opened Catalog
  import opened Money
  import Server
  import DataManager

  /** `cartItems.reduce((sum, item) => sum + item.quantity, 0)`. */
  function TotalItems(items: seq<DataManager.CartItem>): int {
    if items == [] then 0 else items[0].quantity + TotalItems(items[1..])
  }

  /** On the server's state the page's item total is the cart count the
      navbar shows (`getCartCount`). */
  lemma {:induction false} TotalItemsIsCartCount(catalog: seq<Product>, cart: seq<Server.CartLine>)
    requires UniqueIds(catalog) && Server.LinesInCatalog(catalog, cart)
    ensures DataManager.GetCartItems(catalog, cart).Some?
    ensures TotalItems(DataManager.GetCartItems(catalog, cart).value) == DataManager.CartCount(cart)
  {
    DataManager.GetCartItemsOfValidCart(catalog, cart);
    if cart != [] {
      assert Server.LinesInCatalog(catalog, cart[1..]);
      TotalItemsIsCartCount(catalog, cart[1..]);
      assert DataManager.GetCartItems(catalog, cart).value[1..] == DataManager.GetCartItems(catalog, cart[1..]).value;
    }
  }

  /** `${n} item${n !== 1 ? 's' : ''}`. */
  function CountLabel(n: int): (r: string)
    ensures |r| > |IntToString(n)| && r[..|IntToString(n)|] == IntToString(n)
    ensures r[|r| - 1] == 's' <==> n != 1
    ensures r[|IntToString(n)|..] == if n != 1 then " items" else " item"
  {
    IntToString(n) + " item" + (if n != 1 then "s" else "")
  }

  /** The `itemCount` text: '0 items' for an empty cart, else the counted label. */
  function ItemCountLabel(items: seq<DataManager.CartItem>): (r: string)
    ensures r == CountLabel(TotalItems(items))
  {
    if |items| == 0 then "0 items" else CountLabel(TotalItems(items))
  }

  /** The summary totals: the subtotal `getCartTotal` fetches, $9.99 of
      shipping for a non-empty cart, and 8.5% tax. */
  function CartTotals(items: seq<DataManager.CartItem>): (r: Totals)
    ensures r.subtotal == DataManager.ItemsTotal(items)
    ensures r.shipping == (if items == [] then 0 else SHIPPING)
    ensures r.total == r.subtotal as real * 1.085 + r.shipping as real
  {
    MakeTotals(DataManager.ItemsTotal(items), if |items| > 0 then SHIPPING else 0)
  }

  /** Two T-shirts and a pair of headphones: $189.97, plus $9.99 shipping
      and $16.14745 tax, make $216.10745. */
  lemma CartTotalsExample()
    ensures CartTotals([DataManager.CartItem(PRODUCTS[0], 2), DataManager.CartItem(PRODUCTS[1], 1)])
         == Totals(18997, 999, 1614.745, 21610.745)
  {
    var items := [DataManager.CartItem(PRODUCTS[0], 2), DataManager.CartItem(PRODUCTS[1], 1)];
    assert PRODUCTS[0].price == 2999 && PRODUCTS[1].price == 12999;
    assert items[1..][1..] == [];
    assert DataManager.ItemsTotal(items[1..]) == 12999;
    assert DataManager.ItemsTotal(items) == 18997;
  }

  /** The '−' button is disabled at quantity 1 or less. */
  function MinusDisabled(quantity: int): bool {
    quantity <= 1
  }

  /** The '−' button is enabled only where a click leaves a positive
      quantity, so it never removes an item; '+' always leaves one. */
  lemma EnabledMinusKeepsItem(catalog: seq<Product>, cart: seq<Server.CartLine>, i: nat)
    requires Server.OneLinePerProduct(cart) && i < |cart|
    requires Server.ProductById(catalog, Some(cart[i].product.id)).Some?
    requires !MinusDisabled(cart[i].quantity)
    ensures Server.QuantityOf(DataManager.CartAfterUpdate(catalog, cart, cart[i].product.id, cart[i].quantity - 1),
                              cart[i].product.id) == cart[i].quantity - 1 >= 1
  {
    DataManager.CartAfterUpdateSpec(catalog, cart, cart[i].product.id, cart[i].quantity - 1, cart[i].product.id);
  }

  /** `item => item.product.id === id`. */
  function ItemWithId(id: int): DataManager.CartItem -> bool {
    (item: DataManager.CartItem) => item.product.id == id
  }

  /** The lookup of `updateQuantity`: `getCartItems()`, then the item with
      the id. On the server's state the item it finds is the cart's line
      for the id, and it finds none exactly when the cart has none. */
  method FindItemQuantity(catalog: seq<Product>, cart: seq<Server.CartLine>, id: int) returns (found: Option<int>)
    requires UniqueIds(catalog) && Server.LinesInCatalog(catalog, cart) && Server.OneLinePerProduct(cart)
    ensures found.None? <==> !Server.HasLine(cart, id)
    ensures found.Some? ==> found.value == Server.QuantityOf(cart, id)
  {
    var fetched := DataManager.GetCartItems(catalog, cart);
    DataManager.GetCartItemsOfValidCart(catalog, cart);
    var items := fetched.value;
    var k := FindFirst(items, ItemWithId(id));
    if k.Some? {
      found := Some(items[k.value].quantity);
      assert cart[k.value].product.id == id;
      Server.QuantityOfLine(cart, k.value);
    } else {
      found := None;
      forall j | 0 <= j < |cart| ensures cart[j].product.id != id {
        assert !ItemWithId(id)(items[j]);
      }
    }
  }

  /** `window.updateQuantity(id, change)`: fetches the items; when one has
      the id, sets its quantity to its current one plus `change`. A failing
      fetch (`None`) throws before anything changes. */
  method UpdateQuantity(repo: Server.Repository, id: int, change: int)
    requires repo.Valid()
    modifies repo
    ensures repo.Valid()
    ensures Server.HasLine(old(repo.cart), id) ==>
      repo.cart == DataManager.CartAfterUpdate(repo.catalog, old(repo.cart), id, Server.QuantityOf(old(repo.cart), id) + change)
    ensures !Server.HasLine(old(repo.cart), id) ==> repo.cart == old(repo.cart)
    ensures repo.wishlist == old(repo.wishlist) && repo.orders == old(repo.orders)
  {
    var found := FindItemQuantity(repo.catalog, repo.cart, id);
    if found.Some? {
      DataManager.UpdateCartQuantity(repo, id, found.value + change);
    }
  }

  /** `window.removeItem(id)`: fetches the product for the notification,
      then removes its line. An unknown id answers 404 in plain text, so
      the fetch throws before the removal; nothing changes then. */
  method RemoveItem(repo: Server.Repository, id: int) returns (notice: Option<string>)
    requires repo.Valid()
    modifies repo
    ensures repo.Valid()
    ensures Server.ProductById(repo.catalog, Some(id)).None? ==> repo.cart == old(repo.cart) && notice.None?
    ensures Server.ProductById(repo.catalog, Some(id)).Some? ==>
      && repo.cart == Server.CartRemove(old(repo.cart), Some(id))
      && notice == Some(Server.ProductById(repo.catalog, Some(id)).value.name + " removed from cart")
    ensures repo.wishlist == old(repo.wishlist) && repo.orders == old(repo.orders)
  {
    var product := Server.ProductById(repo.catalog, Some(id));
    if product.None? {
      return None;
    }
    DataManager.RemoveFromCart(repo, id);
    notice := Some(product.value.name + " removed from cart");
  }

  /** Where `window.checkout()` goes. */
  datatype CheckoutAction = WarnEmpty | GoToCheckout

  /** `window.checkout()`: an empty cart only warns; otherwise the browser
      goes to the checkout page. `None` is a failing fetch. */
  function Checkout(catalog: seq<Product>, cart: seq<Server.CartLine>): (r: Option<CheckoutAction>)
    ensures r.Some? <==> DataManager.GetCartItems(catalog, cart).Some?
    ensures r.Some? ==> (r.value == GoToCheckout <==> cart != [])
  {
    match DataManager.GetCartItems(catalog, cart)
    case None => None
    case Some(items) => Some(if |items| == 0 then WarnEmpty else GoToCheckout)
  }
}
