/** The product-view page of frontend/products/product-view/product-view.js:
    the quantity selector, the cart counter, the wishlist flag, thumbnail
    navigation by arrow keys and swipes, and the recently-viewed list. The
    page's globals are the fields of `ProductView`; `localStorage` holds
    the recently-viewed list, `None` standing for stored text that does
    not parse as a list. */
module ProductView {
  import opened Opt
  import opened Seqs

  const MIN_QUANTITY: int := 1
  const MAX_QUANTITY: int := 10
  const SWIPE_THRESHOLD: int := 50
  const RECENT_LIMIT: nat := 10

  // ---------------------------------------------------------------------
  // Quantity
  // ---------------------------------------------------------------------

  /** The `input` handler of the quantity box for the parsed value (`None`
      for NaN): below 1 or NaN becomes 1, above 10 becomes 10. */
  function ClampQuantity(parsed: Option<int>): (q: int)
    ensures MIN_QUANTITY <= q <= MAX_QUANTITY
    ensures parsed.Some? && MIN_QUANTITY <= parsed.value <= MAX_QUANTITY ==> q == parsed.value
    ensures parsed.None? || parsed.value < MIN_QUANTITY ==> q == MIN_QUANTITY
    ensures parsed.Some? && parsed.value > MAX_QUANTITY ==> q == MAX_QUANTITY
  {
    if parsed.None? || parsed.value < 1 then 1
    else if parsed.value > 10 then 10
    else parsed.value
  }

  // ---------------------------------------------------------------------
  // Thumbnails
  // ---------------------------------------------------------------------

  /** The index after moving one thumbnail forward, wrapping from the last
      to the first; `current` is `indexOf` of the active one, -1 for none. */
  function NextIndex(current: int, n: nat): int {
    if current < n - 1 then current + 1 else 0
  }

  /** The index after moving one thumbnail back, wrapping from the first to the last. */
  function PreviousIndex(current: int, n: nat): int {
    if current > 0 then current - 1 else n - 1
  }

  /** Both moves stay among the thumbnails, wrap at the ends and otherwise
      move by one; they undo each other. */
  lemma IndexMovesWrap(current: int, n: nat)
    requires n > 0 && -1 <= current < n
    ensures 0 <= NextIndex(current, n) < n && 0 <= PreviousIndex(current, n) < n
    ensures current == n - 1 ==> NextIndex(current, n) == 0
    ensures current == 0 ==> PreviousIndex(current, n) == n - 1
    ensures 0 <= current < n - 1 ==> NextIndex(current, n) == current + 1
    ensures 0 < current < n ==> PreviousIndex(current, n) == current - 1
    ensures 0 <= current ==> PreviousIndex(NextIndex(current, n), n) == current
    ensures 0 <= current ==> NextIndex(PreviousIndex(current, n), n) == current
  {
  }

  /** Where a swipe from `startX` to `endX` leads: nowhere unless it is
      longer than 50 pixels; a swipe to the left shows the next image, one
      to the right the previous. */
  function SwipeTarget(startX: int, endX: int, current: int, n: nat): (r: Option<int>)
    ensures r.None? <==> -SWIPE_THRESHOLD <= startX - endX <= SWIPE_THRESHOLD
    ensures r.Some? && startX > endX ==> r.value == NextIndex(current, n)
    ensures r.Some? && startX < endX ==> r.value == PreviousIndex(current, n)
  {
    var difference := startX - endX;
    var distance := if difference < 0 then -difference else difference;
    if distance > SWIPE_THRESHOLD then
      Some(if difference > 0 then NextIndex(current, n) else PreviousIndex(current, n))
    else None
  }

  // ---------------------------------------------------------------------
  // Recently viewed
  // ---------------------------------------------------------------------

  /** An entry of the recently-viewed list. Prices are cents. */
  datatype Viewed = Viewed(id: string, name: string, price: int, image: string, timestamp: nat)

  /** The product this page shows, viewed at `timestamp` (`Date.now()`). */
  function ThisProduct(timestamp: nat): Viewed {
    Viewed("premium-cotton-tshirt", "Premium Cotton T-Shirt", 2499, "\U{1F455}", timestamp)
  }

  predicate OtherId(id: string, v: Viewed) {
    v.id != id
  }

  function WithoutId(id: string): Viewed -> bool {
    (v: Viewed) => OtherId(id, v)
  }

  /** The list `saveToRecentlyViewed` stores when the stored one is `recent`. */
  function RecentAfterSave(recent: seq<Viewed>, product: Viewed): seq<Viewed> {
    JsSlice([product] + Filter(recent, WithoutId(product.id)), 0, RECENT_LIMIT)
  }

  /** After saving, the product comes first, no other entry has its id,
      there are at most 10 entries, and the others are earlier entries in
      their earlier order. */
  lemma RecentAfterSaveSpec(recent: seq<Viewed>, product: Viewed)
    ensures var r := RecentAfterSave(recent, product);
      && 1 <= |r| <= RECENT_LIMIT
      && r[0] == product
      && (forall i :: 1 <= i < |r| ==> r[i].id != product.id)
      && IsSubsequence(r[1..], recent)
      && |r| == (if |Filter(recent, WithoutId(product.id))| + 1 < RECENT_LIMIT
                 then |Filter(recent, WithoutId(product.id))| + 1 else RECENT_LIMIT)
  {
    var rest := Filter(recent, WithoutId(product.id));
    var whole := [product] + rest;
    TakeLength(whole, RECENT_LIMIT);
    var r := RecentAfterSave(recent, product);
    assert r == whole[..|r|];
    assert r[1..] == rest[..|r| - 1];
    forall i | 1 <= i < |r| ensures r[i].id != product.id {
      assert r[i] == rest[i - 1];
      assert rest[i - 1] in rest;
    }
    FilterIsSubsequence(recent, WithoutId(product.id));
    SubsequencePrefix(rest, recent, |r| - 1);
  }

  /** Viewing the same product again keeps a single entry for it, at the front. */
  lemma SaveTwiceKeepsOneEntry(recent: seq<Viewed>, product: Viewed, later: Viewed)
    requires later.id == product.id
    ensures var r := RecentAfterSave(RecentAfterSave(recent, product), later);
      r[0] == later && forall i :: 1 <= i < |r| ==> r[i].id != product.id
  {
    RecentAfterSaveSpec(RecentAfterSave(recent, product), later);
  }

  // ---------------------------------------------------------------------
  // The page
  // ---------------------------------------------------------------------

  class ProductView {
    var cartCount: int
    var currentQuantity: int
    /** `parseInt` of the quantity box's text (`None` for NaN). */
    var quantityBox: Option<int>
    var isInWishlist: bool
    /** The index of the active thumbnail, -1 when none is marked active. */
    var activeThumbnail: int
    /** How many thumbnails the page has. */
    const thumbnailCount: nat
    var recentlyViewed: Option<seq<Viewed>>

    /** The quantity stays within the selector's bounds, and the box shows it. */
    ghost predicate Valid()
      reads this
    {
      && MIN_QUANTITY <= currentQuantity <= MAX_QUANTITY
      && quantityBox == Some(currentQuantity)
      && -1 <= activeThumbnail < thumbnailCount
    }

    /** The globals' initial values: three items in the cart, quantity 1,
        not in the wishlist. Which thumbnail the markup marks active
        (`active`, -1 for none) is given, since the markup is not modelled. */
    constructor (thumbnails: nat, active: int, stored: Option<seq<Viewed>>)
      requires -1 <= active < thumbnails
      ensures Valid()
      ensures cartCount == 3 && currentQuantity == 1 && quantityBox == Some(1) && !isInWishlist
      ensures thumbnailCount == thumbnails && activeThumbnail == active
      ensures recentlyViewed == stored
    {
      cartCount := 3;
      currentQuantity := 1;
      quantityBox := Some(1);
      isInWishlist := false;
      thumbnailCount := thumbnails;
      activeThumbnail := active;
      recentlyViewed := stored;
    }

    /** The quantity box's `input` handler, after the user typed text that
        parses to `parsed`: out-of-range text is replaced in the box. */
    method OnQuantityInput(parsed: Option<int>)
      requires Valid()
      modifies this
      ensures Valid()
      ensures currentQuantity == ClampQuantity(parsed)
      ensures parsed.Some? && MIN_QUANTITY <= parsed.value <= MAX_QUANTITY ==> quantityBox == parsed
      ensures cartCount == old(cartCount) && isInWishlist == old(isInWishlist)
      ensures activeThumbnail == old(activeThumbnail) && recentlyViewed == old(recentlyViewed)
    {
      quantityBox := parsed;
      if parsed.None? || parsed.value < 1 {
        quantityBox := Some(1);
        currentQuantity := 1;
      } else if parsed.value > 10 {
        quantityBox := Some(10);
        currentQuantity := 10;
      } else {
        currentQuantity := parsed.value;
      }
    }

    /** `changeQuantity(change)`: applied only when the result stays in 1..10. */
    method ChangeQuantity(change: int)
      requires Valid()
      modifies this
      ensures Valid()
      ensures var q := old(currentQuantity) + change;
        currentQuantity == (if MIN_QUANTITY <= q <= MAX_QUANTITY then q else old(currentQuantity))
      ensures cartCount == old(cartCount) && isInWishlist == old(isInWishlist)
      ensures activeThumbnail == old(activeThumbnail) && recentlyViewed == old(recentlyViewed)
    {
      var newQuantity := currentQuantity + change;
      if newQuantity >= 1 && newQuantity <= 10 {
        currentQuantity := newQuantity;
        quantityBox := Some(currentQuantity);
      }
    }

    /** `updateQuantity()`: the box's value parsed, or 1 for NaN and 0. It
        does not clamp; it needs none, since the box always shows the
        quantity the `input` handler and the buttons left in it. */
    method UpdateQuantity()
      requires Valid()
      modifies this
      ensures Valid()
      ensures currentQuantity == IntOr(old(quantityBox), 1)
      ensures currentQuantity == old(currentQuantity) && quantityBox == old(quantityBox)
      ensures cartCount == old(cartCount) && isInWishlist == old(isInWishlist)
      ensures activeThumbnail == old(activeThumbnail) && recentlyViewed == old(recentlyViewed)
    {
      currentQuantity := IntOr(quantityBox, 1);
    }

    /** `addToCart()`: the counter grows by the chosen quantity. */
    method AddToCart()
      modifies this
      ensures cartCount == old(cartCount) + currentQuantity
      ensures currentQuantity == old(currentQuantity) && quantityBox == old(quantityBox)
      ensures isInWishlist == old(isInWishlist)
      ensures activeThumbnail == old(activeThumbnail) && recentlyViewed == old(recentlyViewed)
    {
      cartCount := cartCount + currentQuantity;
    }

    /** `toggleWishlist()`: flips the flag. */
    method ToggleWishlist()
      modifies this
      ensures isInWishlist == !old(isInWishlist)
      ensures cartCount == old(cartCount) && currentQuantity == old(currentQuantity)
      ensures quantityBox == old(quantityBox)
      ensures activeThumbnail == old(activeThumbnail) && recentlyViewed == old(recentlyViewed)
    {
      isInWishlist := !isInWishlist;
    }

    /** The `keydown` handler: the arrow keys move between thumbnails
        (`false` when there are none and the click throws), '+' and '='
        raise the quantity, '-' lowers it. */
    method KeyDown(key: string) returns (ok: bool)
      requires Valid()
      modifies this
      ensures Valid()
      ensures ok <==> !((key == "ArrowLeft" || key == "ArrowRight") && thumbnailCount == 0)
      ensures ok && key == "ArrowLeft" ==> activeThumbnail == PreviousIndex(old(activeThumbnail), thumbnailCount)
      ensures ok && key == "ArrowRight" ==> activeThumbnail == NextIndex(old(activeThumbnail), thumbnailCount)
      ensures key != "ArrowLeft" && key != "ArrowRight" ==> activeThumbnail == old(activeThumbnail)
      ensures ok && (key == "+" || key == "=") ==>
        currentQuantity == (if old(currentQuantity) + 1 <= MAX_QUANTITY then old(currentQuantity) + 1 else old(currentQuantity))
      ensures ok && key == "-" ==>
        currentQuantity == (if old(currentQuantity) - 1 >= MIN_QUANTITY then old(currentQuantity) - 1 else old(currentQuantity))
      ensures key != "+" && key != "=" && key != "-" ==>
        currentQuantity == old(currentQuantity) && quantityBox == old(quantityBox)
      ensures cartCount == old(cartCount) && isInWishlist == old(isInWishlist) && recentlyViewed == old(recentlyViewed)
    {
      if key == "ArrowLeft" || key == "ArrowRight" {
        if thumbnailCount == 0 {
          return false;
        }
        IndexMovesWrap(activeThumbnail, thumbnailCount);
        if key == "ArrowLeft" {
          activeThumbnail := PreviousIndex(activeThumbnail, thumbnailCount);
        } else {
          activeThumbnail := NextIndex(activeThumbnail, thumbnailCount);
        }
      }
      if key == "+" || key == "=" {
        ChangeQuantity(1);
      } else if key == "-" {
        ChangeQuantity(-1);
      }
      ok := true;
    }

    /** `handleImageSwipe()` for a touch from `startX` to `endX`:
        `false` when a long enough swipe finds no thumbnail to click. */
    method HandleImageSwipe(startX: int, endX: int) returns (ok: bool)
      requires Valid()
      modifies this
      ensures Valid()
      ensures var target := SwipeTarget(startX, endX, old(activeThumbnail), thumbnailCount);
        && (ok <==> target.None? || thumbnailCount > 0)
        && (ok ==> activeThumbnail == target.GetOr(old(activeThumbnail)))
      ensures cartCount == old(cartCount) && currentQuantity == old(currentQuantity)
      ensures quantityBox == old(quantityBox)
      ensures isInWishlist == old(isInWishlist) && recentlyViewed == old(recentlyViewed)
    {
      var target := SwipeTarget(startX, endX, activeThumbnail, thumbnailCount);
      if target.None? {
        return true;
      }
      if thumbnailCount == 0 {
        return false;
      }
      IndexMovesWrap(activeThumbnail, thumbnailCount);
      activeThumbnail := target.value;
      ok := true;
    }

    /** `saveToRecentlyViewed()`: drops the earlier entry for this product,
        puts it first and keeps ten entries. Unparsable storage throws and
        is left as it was. */
    method SaveToRecentlyViewed(timestamp: nat)
      modifies this
      ensures old(recentlyViewed).None? ==> recentlyViewed == old(recentlyViewed)
      ensures old(recentlyViewed).Some? ==>
        recentlyViewed == Some(RecentAfterSave(old(recentlyViewed).value, ThisProduct(timestamp)))
      ensures cartCount == old(cartCount) && currentQuantity == old(currentQuantity)
      ensures quantityBox == old(quantityBox)
      ensures isInWishlist == old(isInWishlist) && activeThumbnail == old(activeThumbnail)
    {
      var product := ThisProduct(timestamp);
      if recentlyViewed.None? {
        return;
      }
      var recent := recentlyViewed.value;
      recent := Filter(recent, WithoutId(product.id));
      recent := [product] + recent;
      recent := JsSlice(recent, 0, RECENT_LIMIT);
      recentlyViewed := Some(recent);
    }
  }
}
