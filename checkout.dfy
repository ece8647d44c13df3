/** The checkout page of frontend/checkout/checkout.js: the order summary,
    field validation, and placing the order. The page as written calls two
    asynchronous facade functions without `await`; `CheckoutPage` models
    the evidently intended, awaited behaviour, and the `...AsWritten`
    members below model what the code as written does. */
module Checkout {
  import opened Opt
  import opened Strings
  import opened Seqs
  import opened Catalog
  import opened Money
  import Server
  import DataManager
  import CartPage

  // ---------------------------------------------------------------------
  // Field validation
  // ---------------------------------------------------------------------

  /** The `type` attribute, as far as validation distinguishes it. */
  datatype FieldKind = EmailField | TelField | OtherField

  /** A form control: its type, whether it has the `required` attribute,
      and its current value. */
  datatype Field = Field(kind: FieldKind, required: bool, value: string)

  /** `[^\s@]+`: a non-empty run with no white space and no '@'. */
  predicate Plain(s: string) {
    |s| > 0 && forall i :: 0 <= i < |s| ==> !IsWhitespace(s[i]) && s[i] != '@'
  }

  /** `/^[^\s@]+@[^\s@]+\.[^\s@]+$/.test(s)`: the three runs around one '@'
      and one of the '.'s after it. */
  predicate EmailPattern(s: string) {
    exists i, j :: 0 <= i < j < |s| && s[i] == '@' && s[j] == '.'
      && Plain(s[..i]) && Plain(s[i + 1..j]) && Plain(s[j + 1..])
  }

  /** What the e-mail pattern accepts, said plainly: no white space, exactly
      one '@', not at the start, and a '.' after it that neither follows it
      directly nor ends the string. */
  predicate EmailShape(s: string) {
    && (forall m :: 0 <= m < |s| ==> !IsWhitespace(s[m]))
    && (exists k :: 0 < k < |s| && s[k] == '@'
         && (forall m :: 0 <= m < |s| && s[m] == '@' ==> m == k)
         && (exists j :: k + 1 < j < |s| - 1 && s[j] == '.'))
  }

  lemma EmailPatternHasShape(s: string)
    requires EmailPattern(s)
    ensures EmailShape(s)
  {
    var i, j :| 0 <= i < j < |s| && s[i] == '@' && s[j] == '.'
      && Plain(s[..i]) && Plain(s[i + 1..j]) && Plain(s[j + 1..]);
    forall m | 0 <= m < |s| ensures !IsWhitespace(s[m]) && (s[m] == '@' ==> m == i) {
      if m < i {
        assert s[m] == s[..i][m];
      } else if i < m < j {
        assert s[m] == s[i + 1..j][m - i - 1];
      } else if j < m {
        assert s[m] == s[j + 1..][m - j - 1];
      }
    }
    assert i + 1 < j < |s| - 1;
  }

  lemma EmailShapeMatchesPattern(s: string)
    requires EmailShape(s)
    ensures EmailPattern(s)
  {
    var k :| 0 < k < |s| && s[k] == '@'
      && (forall m :: 0 <= m < |s| && s[m] == '@' ==> m == k)
      && (exists j :: k + 1 < j < |s| - 1 && s[j] == '.');
    var j :| k + 1 < j < |s| - 1 && s[j] == '.';
    var local, domain, tld := s[..k], s[k + 1..j], s[j + 1..];
    forall m | 0 <= m < |local| ensures !IsWhitespace(local[m]) && local[m] != '@' {
      assert local[m] == s[m];
    }
    forall m | 0 <= m < |domain| ensures !IsWhitespace(domain[m]) && domain[m] != '@' {
      assert domain[m] == s[k + 1 + m];
    }
    forall m | 0 <= m < |tld| ensures !IsWhitespace(tld[m]) && tld[m] != '@' {
      assert tld[m] == s[j + 1 + m];
    }
    assert Plain(local) && Plain(domain) && Plain(tld);
  }

  /** The pattern accepts exactly the strings of that shape. */
  lemma EmailPatternIffShape(s: string)
    ensures EmailPattern(s) <==> EmailShape(s)
  {
    if EmailPattern(s) {
      EmailPatternHasShape(s);
    }
    if EmailShape(s) {
      EmailShapeMatchesPattern(s);
    }
  }

  /** One character of `[\d\s\-\+\(\)]`. */
  predicate PhoneChar(c: char) {
    IsDigit(c) || IsWhitespace(c) || c == '-' || c == '+' || c == '(' || c == ')'
  }

  /** `/^[\d\s\-\+\(\)]+$/.test(s)`. */
  predicate PhonePattern(s: string) {
    |s| > 0 && forall i :: 0 <= i < |s| ==> PhoneChar(s[i])
  }

  /** `validateField(field)`: a required field must not be blank after
      `trim`; a non-empty e-mail field must match the e-mail pattern and a
      non-empty tel field the phone pattern. */
  function ValidateField(f: Field): bool {
    if f.required && Trim(f.value) == [] then false
    else if f.kind == EmailField && f.value != [] && !EmailPattern(f.value) then false
    else if f.kind == TelField && f.value != [] && !PhonePattern(f.value) then false
    else true
  }

  /** The rules of `validateField`, each on its own: a field passes exactly
      when it is not a required field left blank (white space only), and
      its value, when non-empty, is of the shape its type asks for. */
  lemma ValidateFieldRules(f: Field)
    ensures ValidateField(f) <==>
      && (f.required ==> !AllWhitespace(f.value))
      && (f.kind == EmailField && f.value != [] ==> EmailShape(f.value))
      && (f.kind == TelField && f.value != [] ==> PhonePattern(f.value))
  {
    TrimEmptyIffBlank(f.value);
    EmailPatternIffShape(f.value);
  }

  /** An empty optional field always passes, whatever its type. */
  lemma EmptyOptionalFieldPasses(kind: FieldKind)
    ensures ValidateField(Field(kind, false, ""))
  {
  }

  /** An address the e-mail rule accepts. */
  lemma EmailAccepted()
    ensures EmailPattern("jane@shop.co")
  {
    var s := "jane@shop.co";
    assert s[..4] == "jane" && s[5..9] == "shop" && s[10..] == "co";
    assert s[4] == '@' && s[9] == '.';
  }

  /** Addresses the e-mail rule rejects: no '.' after the '@', a space,
      nothing before the '@'. */
  lemma EmailRejected()
    ensures !EmailPattern("jane@shop")
    ensures !EmailPattern("jane doe@shop.co")
    ensures !EmailPattern("@shop.co")
  {
    EmailPatternIffShape("jane@shop");
    EmailPatternIffShape("jane doe@shop.co");
    EmailPatternIffShape("@shop.co");
    assert "jane doe@shop.co"[4] == ' ';
    assert "@shop.co"[0] == '@';
  }

  /** Whether the form passes: every field with the `required` attribute
      passes `validateField`; fields without it are not looked at. */
  predicate FormValid(form: seq<Field>) {
    forall i :: 0 <= i < |form| && form[i].required ==> ValidateField(form[i])
  }

  /** `form.querySelectorAll('[required]')`'s test. */
  function RequiredStep(): Field -> bool {
    (f: Field) => f.required
  }

  /** Every required field passes iff every field of the `[required]` query passes. */
  predicate RequiredPass(requiredFields: seq<Field>) {
    forall k :: 0 <= k < |requiredFields| ==> ValidateField(requiredFields[k])
  }

  /** The form passes iff every field the `[required]` query returns passes. */
  lemma FormValidIffRequiredPass(form: seq<Field>)
    ensures FormValid(form) <==> RequiredPass(Filter(form, RequiredStep()))
  {
    var requiredFields := Filter(form, RequiredStep());
    if FormValid(form) {
      forall k | 0 <= k < |requiredFields| ensures ValidateField(requiredFields[k]) {
        var x := requiredFields[k];
        assert x in requiredFields;
        assert x in form && x.required;
        var i :| 0 <= i < |form| && form[i] == x;
      }
      assert RequiredPass(requiredFields);
    }
    if RequiredPass(requiredFields) {
      forall i | 0 <= i < |form| && form[i].required ensures ValidateField(form[i]) {
        assert RequiredStep()(form[i]);
        assert form[i] in requiredFields;
        var m :| 0 <= m < |requiredFields| && requiredFields[m] == form[i];
        assert ValidateField(requiredFields[m]);
      }
      assert FormValid(form);
    }
  }

  /** `validateForm()`: visits every required field (there is no early
      exit, so every one gets its red or green border, here `marks`) and
      reports whether all passed. */
  method ValidateForm(form: seq<Field>) returns (isValid: bool, marks: seq<bool>)
    ensures isValid == FormValid(form)
    ensures |marks| == |Filter(form, RequiredStep())|
    ensures forall i :: 0 <= i < |marks| ==> marks[i] == ValidateField(Filter(form, RequiredStep())[i])
  {
    var requiredFields := Filter(form, RequiredStep());
    isValid := true;
    marks := [];
    var i := 0;
    while i < |requiredFields|
      invariant 0 <= i <= |requiredFields|
      invariant |marks| == i
      invariant forall k :: 0 <= k < i ==> marks[k] == ValidateField(requiredFields[k])
      invariant isValid <==> forall k :: 0 <= k < i ==> marks[k]
    {
      var ok := ValidateField(requiredFields[i]);
      marks := marks + [ok];
      if !ok {
        isValid := false;
      }
      i := i + 1;
    }
    assert isValid <==> RequiredPass(requiredFields);
    FormValidIffRequiredPass(form);
  }

  // ---------------------------------------------------------------------
  // Totals and the page's state
  // ---------------------------------------------------------------------

  /** `calculateTotals()` for a fetched subtotal: the shipping is always $9.99. */
  function CheckoutTotals(subtotal: int): (r: Totals)
    ensures r.subtotal == subtotal && r.shipping == SHIPPING
  {
    MakeTotals(subtotal, SHIPPING)
  }

  /** For a non-empty cart the checkout page shows the totals the cart page showed. */
  lemma CheckoutTotalsAgreeWithCart(items: seq<DataManager.CartItem>)
    requires items != []
    ensures CheckoutTotals(DataManager.ItemsTotal(items)) == CartPage.CartTotals(items)
  {
  }

  /** What `loadOrderSummary()` ends in. */
  datatype LoadOutcome = RedirectToProducts | ShowSummary | Threw

  class CheckoutPage {
    /** The module variables `cartItems` and `orderTotals`, and the
        `lastOrderId` entry of `sessionStorage`. */
    var cartItems: seq<DataManager.CartItem>
    var orderTotals: Option<Totals>
    var lastOrderId: Option<string>

    constructor ()
      ensures cartItems == [] && orderTotals == None && lastOrderId == None
    {
      cartItems := [];
      orderTotals := None;
      lastOrderId := None;
    }

    /** `loadOrderSummary()` with the fetches awaited: an empty cart warns
        and redirects to the products page; otherwise the summary is shown
        and the totals computed. The server's state is only read. */
    method LoadOrderSummary(repo: Server.Repository) returns (outcome: LoadOutcome)
      requires repo.Valid()
      modifies this
      ensures DataManager.GetCartItems(repo.catalog, repo.cart).Some?
      ensures cartItems == DataManager.GetCartItems(repo.catalog, repo.cart).value
      ensures outcome == (if repo.cart == [] then RedirectToProducts else ShowSummary)
      ensures repo.cart != [] ==> orderTotals == Some(CheckoutTotals(DataManager.LinesTotal(repo.cart)))
      ensures repo.cart == [] ==> orderTotals == old(orderTotals)
      ensures lastOrderId == old(lastOrderId)
    {
      DataManager.GetCartItemsOfValidCart(repo.catalog, repo.cart);
      cartItems := DataManager.GetCartItems(repo.catalog, repo.cart).value;
      if |cartItems| == 0 {
        return RedirectToProducts;
      }
      DataManager.GetCartTotalOfValidCart(repo.catalog, repo.cart);
      var subtotal := DataManager.GetCartTotal(repo.catalog, repo.cart).value;
      orderTotals := Some(CheckoutTotals(subtotal));
      outcome := ShowSummary;
    }

    /** `window.placeOrder()` with the order awaited. An invalid form stops
        before anything is sent. Otherwise the shipping details and the
        payment method are posted as the order, and its id is kept for the
        confirmation page. The cart is left as it was. */
    method PlaceOrder(repo: Server.Repository, form: seq<Field>, shipping: Server.ShippingInfo,
                      payment: string, timestamp: nat) returns (placed: bool)
      requires repo.Valid()
      modifies this, repo
      ensures repo.Valid()
      ensures placed == FormValid(form)
      ensures !placed ==> repo.orders == old(repo.orders) && lastOrderId == old(lastOrderId)
      ensures placed ==>
        && repo.orders == old(repo.orders) + [Server.Order(Server.OrderId(timestamp), Server.OrderData(shipping, payment))]
        && lastOrderId == Some(Server.OrderId(timestamp))
      ensures repo.cart == old(repo.cart) && repo.wishlist == old(repo.wishlist)
      ensures cartItems == old(cartItems) && orderTotals == old(orderTotals)
    {
      var isValid, _ := ValidateForm(form);
      if !isValid {
        return false;
      }
      var order := DataManager.CreateOrder(repo, Server.OrderData(shipping, payment), timestamp);
      lastOrderId := Some(order.id);
      placed := true;
    }
  }

  // ---------------------------------------------------------------------
  // The code as written: two calls without `await`
  // ---------------------------------------------------------------------

  /** A value as the page's code sees it: the awaited result, or the
      Promise itself when the call was not awaited. */
  datatype JsValue<T> = Resolved(value: T) | PendingPromise

  /** `v.length`: a Promise has no `length` (it is `undefined`, `None`). */
  function LengthOf<T>(v: JsValue<seq<T>>): (r: Option<nat>)
    ensures r.Some? <==> v.Resolved?
  {
    match v
    case Resolved(s) => Some(|s|)
    case PendingPromise => None
  }

  /** How `loadOrderSummary()` ends for the value `cartItems` holds:
      `undefined === 0` is false, so a Promise passes the empty-cart guard,
      and `renderOrderItems` then calls `cartItems.map`, which a Promise
      lacks. */
  function LoadOutcomeOf(cartItems: JsValue<seq<DataManager.CartItem>>): (r: LoadOutcome)
    ensures r == RedirectToProducts <==> cartItems == Resolved([])
    ensures r == Threw <==> cartItems.PendingPromise?
  {
    if LengthOf(cartItems) == Some(0) then RedirectToProducts
    else if cartItems.PendingPromise? then Threw
    else ShowSummary
  }

  /** `loadOrderSummary()` as written: `getCartItems()` is not awaited. */
  function LoadOrderSummaryAsWritten(catalog: seq<Product>, cart: seq<Server.CartLine>): LoadOutcome {
    LoadOutcomeOf(PendingPromise)
  }

  /** As written, the empty-cart guard never fires: for every cart, the
      empty one included, the page throws instead of redirecting, while
      the awaited version redirects exactly on the empty cart. */
  lemma LoadOrderSummaryAsWrittenThrows(catalog: seq<Product>, cart: seq<Server.CartLine>)
    requires UniqueIds(catalog) && Server.LinesInCatalog(catalog, cart)
    ensures LoadOrderSummaryAsWritten(catalog, cart) == Threw
    ensures LoadOutcomeOf(Resolved(DataManager.GetCartItems(catalog, cart).value))
         == (if cart == [] then RedirectToProducts else ShowSummary)
  {
    DataManager.GetCartItemsOfValidCart(catalog, cart);
  }

  /** What `sessionStorage.setItem('lastOrderId', order.id)` stores: a
      Promise has no `id`, and `undefined` is stored as "undefined". */
  function StoredOrderId(order: JsValue<Server.Order>): string {
    match order
    case Resolved(o) => o.id
    case PendingPromise => "undefined"
  }

  /** `placeOrder()` as written stores the id of an unawaited Promise. */
  function LastOrderIdAsWritten(timestamp: nat): string {
    StoredOrderId(PendingPromise)
  }

  /** As written, the confirmation page is handed "undefined", which is no
      order's id; awaited, it is handed the id of the order just placed. */
  lemma LastOrderIdAsWrittenIsNoOrderId(timestamp: nat, t: nat)
    ensures LastOrderIdAsWritten(timestamp) != Server.OrderId(t)
    ensures StoredOrderId(Resolved(Server.Order(Server.OrderId(timestamp), Server.OrderData(Server.ShippingInfo("", "", "", "", "", "", "", "", "", ""), ""))))
         == Server.OrderId(timestamp)
  {
    var id := Server.OrderId(t);
    assert id[..4] == "ORD-";
    assert "undefined"[..4] == "unde";
  }
}
