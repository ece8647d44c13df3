# ShopVibe storefront core, modelled in Dafny

ShopVibe is a small storefront. It has an Express backend and a set of browser pages. The backend keeps
a fixed catalog of six products and three in-memory collections: the cart, the wishlist and the orders.
The pages reach the backend through a shared client facade. This project models, in Dafny:

- the backend routes. These are the catalog queries (search, lookup by id, category list, category
  filter) and the cart, wishlist and order routes. They are methods of a `Repository` class whose fields
  are the three collections.
- the client facade. It covers search, add/remove/update in the cart, the cart joins and totals, the
  wishlist toggle and order creation.
- the cart page. It covers the item count label, the totals, the quantity buttons, removal and the
  checkout guard.
- the checkout page. It covers field and form validation, the totals, the order summary and order
  placement.
- the products page. It covers filters, the price range, stable sorting, pagination and star ratings.
- the search page. It covers the filter pipeline with price buckets and ratings, sorting, the
  recommendation fallback and the category filter counts.
- the product-view page. It covers the quantity selector, the cart counter, the wishlist flag, thumbnail
  wrap-around by keys and swipes, and the recently-viewed list.
- the category page. It covers case-insensitive search, the top-four suggestions, the two-way fuzzy
  match, clearing and selecting.

Conventions:

- Money is in integer cents: `29.99` becomes `2999`.
- Ratings are integer tenths: `4.5` becomes `45`.
- Whole-dollar inputs are compared as `price < dollars * 100`. These are the products page's sliders and
  the `parseInt` inputs.
- The search page parses its inputs with `parseFloat`. Those are `real`s, compared as
  `price as real >= dollars * 100.0`.
- A JavaScript `NaN` or `undefined` is `None` of `Opt.Option`. `parseInt(x) || d` is `Opt.IntOr`.
- `Array.prototype.sort` is modelled by `Sorting.SortBy`. This is a stable insertion sort under `le`,
  where `le(a, b)` stands for "the comparator returns a value ≤ 0".
- `localeCompare` and the default string sort are modelled as code-point lexicographic order,
  `Strings.LexLe`. On text of the Basic Multilingual Plane this equals JavaScript's code-unit order.
- `toLowerCase` is modelled on ASCII letters.
- Clock readings (`Date.now()`), the random shuffle and everything read from the DOM are parameters.
  The shuffle is a parameter that must be a permutation.

Modules:

| module | source |
|---|---|
| `Opt`, `Strings`, `Seqs`, `Sorting` | helpers: Option, strings, `filter`/`find`/`slice`, stable sort |
| `Catalog` | backend/products.js |
| `Server` | backend/server.js |
| `DataManager` | frontend/shared/data-manager.js |
| `Money`, `CartPage` | frontend/cart/cart.js |
| `Checkout` | frontend/checkout/checkout.js |
| `ProductsPage` | frontend/products/products.js |
| `SearchPage` | frontend/search/search.js |
| `ProductView` | frontend/products/product-view/product-view.js |
| `CategoryPage` | frontend/products/category/category.js |

## Model

| member | source | states |
|---|---|---|
| Catalog.CatalogWellFormed | backend/products.js:1-84 | the six products have ids 1 to 6, so the ids are unique; every price is non-negative; every rating lies between 0 and 5 stars; a former price is always higher than the current one |
| Catalog.CategoryList | backend/server.js:61 | `map(p => p.category)` keeps the length and gives each position the product's category |
| Opt.IntOr | backend/server.js:83 | `parseInt(x) \|\| d` is the parsed value unless that value is NaN or 0, and `d` in those two cases |
| Server.SearchProducts | backend/server.js:34-47 | without a search term the whole catalog comes back; otherwise exactly the products whose lower-cased name or description includes the lower-cased term, in catalog order (a subsequence) |
| Server.FindById | backend/server.js:51 | a product is found iff some catalog product has the id, and the one found has it |
| Server.ProductById | backend/server.js:49-57 | the route answers a product iff the id parses and some catalog product has it; otherwise it is 404 |
| Server.ProductByIdFindsMember | backend/server.js:49-57 | with unique ids, looking a product up by its own id yields that very product |
| Server.Categories | backend/server.js:60-61 | each category once, exactly the categories some product has, listed in the order of their first occurrence in the catalog |
| Server.ProductsInCategory | backend/server.js:65-71 | exactly the products whose category equals the name case-insensitively, in catalog order |
| Server.ProductsInCategoryIgnoresCase | backend/server.js:65-71 | any spelling of a name gives the same products as its lower-cased form |
| Server.LineIndex | backend/server.js:89 | the existing line is found iff the cart has a line for the id, and the index found points at such a line |
| Server.CartRemove | backend/server.js:99-103 | a line survives iff its product id differs from the parsed id (all survive when the id is NaN), in cart order |
| Server.QuantityOfAppend | backend/server.js:93 | pushing a line adds its quantity to that product's total only |
| Server.QuantityOfUpdate | backend/server.js:91 | changing one line's quantity changes only that product's total, by the difference |
| Server.CartAddKeepsOtherLines | backend/server.js:89-94 | adding keeps the cart's products in their order and every other product's line as it was; it grows by one line, the new product with its quantity at the end, exactly when the product had no line |
| Server.QuantityOf | backend/server.js:89-91 | the quantity a cart holds of one product, summed over its lines; with one line per product it is that line's quantity (`QuantityOfLine`), and 0 without one (`QuantityOfAbsent`) |
| Server.CartAdd | backend/server.js:89-94 | the cart after POST /api/cart: the existing line grows or a line is pushed; its effect on every quantity is `CartAddQuantity`, on the order and the other lines `CartAddKeepsOtherLines`, on one line per product `CartAddKeepsOneLine` |
| Server.QuantityOfLine | backend/server.js:89-94 | with one line per product, a product's total is its line's quantity |
| Server.QuantityOfAbsent | backend/server.js:89-94 | a product with no line has total 0 |
| Server.CartAddQuantity | backend/server.js:80-96 | adding raises the added product's quantity by `qty` and no other product's |
| Server.CartAddKeepsOneLine | backend/server.js:89-94 | adding keeps at most one line per product; the cart grows by one line exactly when the product had none; the product then has a line |
| Server.CartAddInCatalog | backend/server.js:84-94 | only catalog products ever enter the cart |
| Server.CartRemoveQuantity | backend/server.js:99-103 | after removal the product's quantity is 0 and every other product's is unchanged |
| Server.CartRemoveKeepsOneLine | backend/server.js:99-103 | removal keeps one line per product and leaves no line for the id |
| Server.CartRemoveInCatalog | backend/server.js:99-103 | removal keeps every line a catalog product |
| Server.CartRemoveIdempotent | backend/server.js:99-103 | removing twice is removing once |
| Server.CartRemoveAbsent | backend/server.js:99-103 | removing an absent product, or an id that does not parse, changes nothing |
| Server.WishlistRemove | backend/server.js:126-130 | exactly the entries with another id survive, in order |
| Server.WishlistAdd | backend/server.js:112-124 | the wishlist after POST /api/wishlist: the product is pushed unless an entry has its id; its properties are `WishlistAddSpec` |
| Server.WishlistAddSpec | backend/server.js:112-124 | after adding, the product is on the list and ids stay unique; adding again changes nothing; no other id's membership changes |
| Server.WishlistAddInCatalog | backend/server.js:112-124 | only catalog products enter the wishlist |
| Server.WishlistRemoveSpec | backend/server.js:126-130 | after removing, the id is off the list, ids stay unique, and no other id's membership changes |
| Server.WishlistRemoveInCatalog | backend/server.js:126-130 | removal keeps every entry a catalog product |
| Server.OrderId | backend/server.js:141 | an order id is "ORD-" followed by decimal digits |
| Server.OrderIdInjective | backend/server.js:141 | two orders get the same id iff they were stamped at the same millisecond |
| Server.Repository.constructor | backend/server.js:74-133 | the process starts with an empty cart, wishlist and order list over the fixed catalog |
| Server.Repository.PostCart | backend/server.js:80-97 | an unknown or unparsable id answers 404 and leaves the cart alone; otherwise the product is added with quantity `parseInt(quantity) \|\| 1` and the reply is 201 with the new cart; one line per product is kept |
| Server.Repository.DeleteCart | backend/server.js:99-103 | the cart loses the id's lines and the reply is 204 |
| Server.Repository.PostWishlist | backend/server.js:112-124 | an unknown id answers 404; otherwise the product is added unless its id is already there, and the reply is 201 with the list |
| Server.Repository.DeleteWishlist | backend/server.js:126-130 | the wishlist loses the id's entry and the reply is 204 |
| Server.Repository.PostOrder | backend/server.js:139-144 | the body is appended as an order stamped "ORD-" plus the clock reading, and that order is the reply |
| DataManager.SearchProducts | frontend/shared/data-manager.js:20-28 | exactly the products whose name, description or category includes the lower-cased query, in order |
| DataManager.SearchExtendsServerSearch | frontend/shared/data-manager.js:20-28 | the facade's search finds everything the server's search finds, in the same order |
| DataManager.SearchEmptyQuery | frontend/shared/data-manager.js:20-28 | the empty query keeps every product |
| DataManager.GetCartItems | frontend/shared/data-manager.js:57-64 | the join succeeds iff every line's product is still found by id; then it has one entry per line, in order, with that line's quantity |
| DataManager.GetCartItemsOfValidCart | frontend/shared/data-manager.js:57-64 | on the server's own cart the join succeeds and pairs each line's product with its quantity |
| DataManager.CartCountAppend | frontend/shared/data-manager.js:66-69 | a pushed line adds its quantity to the count |
| DataManager.CartCountUpdate | frontend/shared/data-manager.js:66-69 | changing a line's quantity moves the count by the difference |
| DataManager.CartCount | frontend/shared/data-manager.js:66-69 | `getCartCount`, the sum of the line quantities; how adding, updating and removing move it is `CartCountAppend`, `CartCountUpdate`, `CartCountAdd` and `CartCountRemove` |
| DataManager.CartCountAdd | frontend/shared/data-manager.js:66-69 | adding `qty` of a product raises the count by `qty` |
| DataManager.CartCountRemove | frontend/shared/data-manager.js:66-69 | removing a product lowers the count by its quantity |
| DataManager.ItemsTotal | frontend/shared/data-manager.js:71-74 | the `reduce` of `getCartTotal`, price times quantity summed over the items; `GetCartTotalOfValidCart` equates it with the line sum |
| DataManager.LinesTotal | frontend/shared/data-manager.js:71-74 | the same sum taken over the server's cart lines; `GetCartTotalOfValidCart` shows the facade's total equals it for a cart within the catalog |
| DataManager.GetCartTotal | frontend/shared/data-manager.js:71-74 | the total exists iff the join does |
| DataManager.GetCartTotalOfValidCart | frontend/shared/data-manager.js:71-74 | on the server's own cart the total is the sum of price times quantity over its lines |
| DataManager.CartAfterUpdate | frontend/shared/data-manager.js:49-55 | the cart after `updateCartQuantity`: the product's lines removed, then re-added when the quantity is positive; its properties are `CartAfterUpdateSpec` |
| DataManager.CartAfterUpdateSpec | frontend/shared/data-manager.js:49-55 | the update keeps one line per product and gives the product exactly quantity `q` when `q > 0` and the id is a catalog product, and 0 otherwise; the re-added line stands last; other products are untouched |
| DataManager.AddToCart | frontend/shared/data-manager.js:36-43 | posts the product with the given quantity, or 1 when none is given |
| DataManager.RemoveFromCart | frontend/shared/data-manager.js:45-47 | the cart becomes the server's removal of the id |
| DataManager.UpdateCartQuantity | frontend/shared/data-manager.js:49-55 | the cart becomes the remove-then-re-add result that the spec function describes |
| DataManager.IsInWishlist | frontend/shared/data-manager.js:95-98 | true iff an entry has the id |
| DataManager.WishlistAfterToggle | frontend/shared/data-manager.js:82-93 | the wishlist after `toggleWishlist`: removal when the id is present, the POST otherwise; `ToggleFlips` and `ToggleTwiceRestores` state what it does |
| DataManager.WishlistCount | frontend/shared/data-manager.js:100-103 | `getWishlistCount`, the number of entries; `ToggleFlips` states how a toggle moves it by one |
| DataManager.ToggleFlips | frontend/shared/data-manager.js:82-103 | toggling a catalog product flips its membership; the count moves by one in the matching direction; no other product changes; ids stay unique |
| DataManager.ToggleTwiceRestores | frontend/shared/data-manager.js:82-93 | toggling twice restores every product's membership |
| DataManager.RemovePresentShrinks | backend/server.js:126-130 | with unique ids, removing a present id removes exactly one entry |
| DataManager.ToggleWishlist | frontend/shared/data-manager.js:82-93 | deletes when the id is on the list and posts otherwise; the cart and the orders are untouched |
| DataManager.CreateOrder | frontend/shared/data-manager.js:110-117 | the posted data is stored as the next order, and that order is returned |
| Money.MakeTotals | frontend/cart/cart.js:77-80 | tax is 8.5% of the subtotal; the total is 1.085 times the subtotal plus shipping |
| CartPage.TotalItems | frontend/cart/cart.js:39 | the page's `reduce` over the item quantities; `TotalItemsIsCartCount` equates it with the facade's cart count |
| CartPage.TotalItemsIsCartCount | frontend/cart/cart.js:39 | the page's item total equals the cart count the facade reports |
| CartPage.CountLabel | frontend/cart/cart.js:40 | the label is the number followed by " item", with an "s" exactly when the number is not 1 |
| CartPage.ItemCountLabel | frontend/cart/cart.js:35-40 | the empty cart's fixed "0 items" is the same label the count would give |
| CartPage.CartTotals | frontend/cart/cart.js:77-80 | the subtotal is the items' price; shipping is $9.99 unless the cart is empty; the total adds 8.5% tax |
| CartPage.CartTotalsExample | frontend/cart/cart.js:77-80 | two $29.99 T-shirts and one pair of $129.99 headphones come to $216.10745 with shipping and tax |
| CartPage.MinusDisabled | frontend/cart/cart.js:58 | the `disabled` condition of the '−' button; `EnabledMinusKeepsItem` shows an enabled click never removes the item |
| CartPage.EnabledMinusKeepsItem | frontend/cart/cart.js:58 | a click on an enabled '−' leaves the product in the cart with one less |
| CartPage.UpdateQuantity | frontend/cart/cart.js:90-107 | a product in the cart gets its current quantity plus `change`; otherwise nothing changes |
| CartPage.FindItemQuantity | frontend/cart/cart.js:91-92 | the item found for the id carries the cart's quantity of that product, and none is found exactly when the cart has no line for it |
| CartPage.RemoveItem | frontend/cart/cart.js:109-125 | a known product loses its line and the notice names it; an unknown id throws before anything changes |
| CartPage.Checkout | frontend/cart/cart.js:127-140 | the page goes to checkout iff the cart is non-empty, and warns otherwise |
| Checkout.EmailPatternHasShape | frontend/checkout/checkout.js:101-107 | a string the e-mail pattern accepts has one '@', not first, and a later '.' with text on both sides |
| Checkout.EmailShapeMatchesPattern | frontend/checkout/checkout.js:101-107 | conversely, every string of that shape matches the pattern |
| Checkout.EmailPattern | frontend/checkout/checkout.js:102 | the e-mail regular expression; `EmailPatternIffShape` shows it accepts exactly the strings without white space that hold one '@', not first, and after it a '.' that neither follows the '@' directly nor ends the string |
| Checkout.PhonePattern | frontend/checkout/checkout.js:110 | the telephone regular expression: a non-empty run of digits, white space, '-', '+', '(' and ')'; `ValidateFieldRules` states its use |
| Checkout.EmailPatternIffShape | frontend/checkout/checkout.js:101-107 | the e-mail pattern accepts exactly those strings |
| Checkout.EmailAccepted | frontend/checkout/checkout.js:102 | "jane@shop.co" is accepted |
| Checkout.EmailRejected | frontend/checkout/checkout.js:102 | "jane@shop" (no dot), "jane doe@shop.co" (a space) and "@shop.co" (nothing before '@') are rejected |
| Checkout.ValidateField | frontend/checkout/checkout.js:95-119 | `validateField`; `ValidateFieldRules` and `EmptyOptionalFieldPasses` state when a field passes |
| Checkout.ValidateFieldRules | frontend/checkout/checkout.js:95-119 | a field passes iff it is not a blank required field, an e-mail field that is empty or well-shaped, and a phone field that is empty or made only of digits, spaces, '-', '+', '(' and ')' |
| Checkout.EmptyOptionalFieldPasses | frontend/checkout/checkout.js:95-119 | an empty optional field of any type passes |
| Checkout.FormValid | frontend/checkout/checkout.js:121-133 | every required field passes `ValidateField`; `ValidateForm` computes it with the source's loop and `FormValidIffRequiredPass` ties it to the required-field query |
| Checkout.ValidateForm | frontend/checkout/checkout.js:121-133 | the form is valid iff every required field passes; every required field is checked and marked |
| Checkout.FormValidIffRequiredPass | frontend/checkout/checkout.js:121-133 | the form is valid iff every field of the required-field query passes its check |
| Checkout.CheckoutTotals | frontend/checkout/checkout.js:59-65 | checkout always charges $9.99 of shipping on top of the subtotal and 8.5% tax |
| Checkout.CheckoutTotalsAgreeWithCart | frontend/checkout/checkout.js:59-65 | for a non-empty cart the checkout totals equal the cart page's totals |
| Checkout.CheckoutPage.constructor | frontend/checkout/checkout.js:7-8 | the page starts with no items, no totals and no stored order id |
| Checkout.CheckoutPage.LoadOrderSummary | frontend/checkout/checkout.js:20-35 | awaited: redirects iff the cart is empty; otherwise the totals are those of the cart's lines |
| Checkout.CheckoutPage.PlaceOrder | frontend/checkout/checkout.js:135-168 | awaited: an order is placed iff the form is valid; it carries the shipping details and payment method, and its id is stored for the confirmation page |
| Checkout.LengthOf | frontend/checkout/checkout.js:23 | `.length` is defined iff the value was awaited |
| Checkout.LoadOutcomeOf | frontend/checkout/checkout.js:20-35 | the page redirects iff it holds an awaited empty list, and throws iff it holds a Promise |
| Checkout.LoadOrderSummaryAsWrittenThrows | frontend/checkout/checkout.js:21-23 | as written the page throws on every cart, the empty one included; awaited it redirects exactly on the empty cart |
| Checkout.LastOrderIdAsWrittenIsNoOrderId | frontend/checkout/checkout.js:162-168 | as written the stored id is no order's id; awaited it is the new order's id |
| ProductsPage.Filtered | frontend/products/products.js:191-207 | `applyFilters`' list; `FilteredSpec` states which products it keeps and in what order |
| ProductsPage.FilteredSpec | frontend/products/products.js:191-207 | exactly the products in the chosen category (or any, for "all") priced within [min, max] dollars inclusive, in catalog order |
| ProductsPage.NarrowerRangeShowsLess | frontend/products/products.js:191-207 | a narrower price range shows a subsequence of what the wider one shows |
| ProductsPage.DefaultFiltersShowAll | frontend/products/products.js:13-17 | the initial filters show every product priced from $0 to $500 |
| ProductsPage.OrderedRange | frontend/products/products.js:209-226 | the two slider values come back as a range with min ≤ max |
| ProductsPage.SliderValue | frontend/products/products.js:244-245 | a value written into a range slider reads back within its bounds: unchanged inside them, the nearer bound outside |
| ProductsPage.ComparatorsArePreorders | frontend/products/products.js:270-296 | each sort option's comparator is total and transitive |
| ProductsPage.Comparator | frontend/products/products.js:273-290 | the comparator of each sort option, none for the default; `ComparatorsArePreorders`, `SortKeys` and `SortOptionSpec` state the order each gives |
| ProductsPage.SortOptionSpec | frontend/products/products.js:270-296 | sorting by an option permutes the list, orders it by the comparator, and keeps tied products in their previous order; choosing the same option again changes nothing |
| ProductsPage.SortKeys | frontend/products/products.js:273-290 | "price-low" ascends by price, "rating" descends by rating, and "newest" puts new products first |
| ProductsPage.TotalPages | frontend/products/products.js:319 | `Math.ceil(n / 12)`; `TotalPagesIsCeiling` proves it is the ceiling, and `NonEmptyPages` that each of those pages has products |
| ProductsPage.TotalPagesIsCeiling | frontend/products/products.js:319 | the page count is the ceiling of n / 12 |
| ProductsPage.PageSlice | frontend/products/products.js:95-97 | the products of one page; `PageSliceSpec` and `EveryProductOnItsPage` state which |
| ProductsPage.PageSliceSpec | frontend/products/products.js:95-97 | a page holds at most 12 products: the positions (p−1)·12 up to p·12 that exist |
| ProductsPage.EveryProductOnItsPage | frontend/products/products.js:95-97 | every product appears on page k / 12 + 1, at position k mod 12 |
| ProductsPage.NonEmptyPages | frontend/products/products.js:95-97 | a page is non-empty iff its number is at most the page count |
| ProductsPage.UpdatePagination | frontend/products/products.js:318-344 | hidden iff there is at most one page; otherwise buttons 1..min(pages, 5) with the current page active, a last-page button iff there are more than 5 pages, and "Previous"/"Next" disabled on the first/last page |
| ProductsPage.ProductCount | frontend/products/products.js:363-369 | the numbers of the "showing a–b of n" text; `ProductCountMatchesSlice` ties them to the page slice |
| ProductsPage.ProductCountMatchesSlice | frontend/products/products.js:363-369 | the "showing a–b of n" text spans exactly the products on the page |
| ProductsPage.GenerateStars | frontend/products/products.js:157-170 | one star per whole star of the rating plus one for a fraction: the rating rounded up |
| ProductsPage.ProductsPage.constructor | frontend/products/products.js:8-24 | the page starts on page 1 with every product and the default filters; the sliders' `min` and `max`, set by the markup, are parameters |
| ProductsPage.ProductsPage.ApplyFilters | frontend/products/products.js:191-207 | the shown list becomes the filtered catalog |
| ProductsPage.ProductsPage.SelectCategory | frontend/products/products.js:173-189 | the category filter is set, the page resets to 1, and the list is refiltered |
| ProductsPage.ProductsPage.UpdatePriceRange | frontend/products/products.js:209-238 | the filter gets min(a, b) and max(a, b) of the sliders, the page resets to 1, and the list is refiltered |
| ProductsPage.ProductsPage.UpdateFromInput | frontend/products/products.js:240-248 | the typed bounds, defaulting to 0 and 500, are clamped by the sliders they are written into and then ordered, so the filter range lies within the sliders' range |
| ProductsPage.ProductsPage.ClearAllFilters | frontend/products/products.js:250-267 | the category returns to "all" and the page to 1; the price range is 0 and 500 as read back from the sliders, which is exactly $0 to $500 whenever the sliders span that range |
| ProductsPage.ProductsPage.SortProducts | frontend/products/products.js:270-296 | a known option stably sorts the shown list; "featured" refilters, which restores catalog order |
| ProductsPage.ProductsPage.ChangePage | frontend/products/products.js:346-355 | the page moves only onto an existing page, and stays in range |
| ProductsPage.ProductsPage.GoToPage | frontend/products/products.js:357-361 | the page is set without a check |
| ProductsPage.ProductsPage.Render | frontend/products/products.js:75-109 | no results iff the list is empty; otherwise the current page's slice, the pagination bar and the count |
| SearchPage.AsListings | frontend/search/search.js:195 | each product becomes one listing, in order, with the recommendation flag |
| SearchPage.NumberOr | frontend/search/search.js:260-261 | `parseFloat(x) \|\| d` is the parsed value unless it is NaN or 0 |
| SearchPage.MinOf | frontend/search/search.js:288 | `Math.min` of the selected ratings is one of them and below all |
| SearchPage.Pipeline | frontend/search/search.js:248-291 | the list `applyFilters` leaves before sorting; `PipelineSpec` states which listings survive |
| SearchPage.ByCategory | frontend/search/search.js:251-257 | the category step; `ByCategorySpec` states what it keeps |
| SearchPage.ByPrice | frontend/search/search.js:259-263 | the price-input step; `ByPriceSpec` states what it keeps |
| SearchPage.ByBucket | frontend/search/search.js:265-281 | the price-range step; `ByBucketSpec` states what it keeps |
| SearchPage.ByRating | frontend/search/search.js:283-290 | the rating step; `ByRatingSpec` states what it keeps |
| SearchPage.PipelineSpec | frontend/search/search.js:248-295 | a result survives iff it passes all four filters: checked category, price range, some checked bucket, and the lowest checked rating; survivors keep their order |
| SearchPage.ByCategorySpec | frontend/search/search.js:251-257 | the category step keeps exactly the listings of a checked category (all of them when none is checked), in order |
| SearchPage.ByPriceSpec | frontend/search/search.js:259-263 | the price step keeps exactly the listings priced within the parsed inputs, $0 and $999999 by default, in order |
| SearchPage.ByBucketSpec | frontend/search/search.js:265-281 | the price-range step keeps exactly the listings some checked range admits (all when none is checked), in order |
| SearchPage.ByRatingSpec | frontend/search/search.js:283-290 | the rating step keeps exactly the listings rated at least some checked rating (all when none is checked), in order |
| SearchPage.NoFiltersKeepAll | frontend/search/search.js:260-263 | with nothing checked and empty inputs, every product up to $999,999 survives |
| SearchPage.BucketsCoverAllPrices | frontend/search/search.js:270-279 | every price is in some bucket; neighbouring buckets overlap only at $100 |
| SearchPage.OnProductsPreorder | frontend/search/search.js:297-322 | a comparator on products is still total and transitive on listings |
| SearchPage.SortListings | frontend/search/search.js:297-322 | `sortProducts` on the listings; `SortListingsSpec` states the order each option gives |
| SearchPage.SortListingsSpec | frontend/search/search.js:297-322 | sorting permutes the list and orders it by the chosen comparator; "relevance" keeps the order |
| SearchPage.BestsellerOrder | frontend/search/search.js:313-314 | "bestseller" orders by rating count, highest first |
| SearchPage.Recommended | frontend/search/search.js:214-222 | `getRecommendedProducts` with the shuffle as a parameter; `RecommendedSpec` states what it picks |
| SearchPage.RecommendedSpec | frontend/search/search.js:214-222 | at most 20 catalog products; if any product has 4 stars or more, only such products; otherwise the first 20 |
| SearchPage.PrefixOfPermutation | frontend/search/search.js:217-219 | the first n of a shuffle are min(n, number of candidates) of the candidates, no product more often than among the candidates |
| SearchPage.CountCategories | frontend/search/search.js:229-233 | a category is counted iff some product has it, and its count is the number of products in it |
| SearchPage.OptionsFor | frontend/search/search.js:235-243 | one option per category key, in key order, each with that category's product count and its checked state |
| SearchPage.StringOrderPreorder | frontend/search/search.js:236 | the default string order is total and transitive |
| SearchPage.SortedCategoriesMembers | frontend/search/search.js:236 | the sorted keys are exactly the categories present |
| SearchPage.SortedCategories | frontend/search/search.js:236 | `Object.keys(categories).sort()`; `SortedCategoriesMembers` and `SortedCategoriesSpec` state which keys and in what order |
| SearchPage.SortedCategoriesSpec | frontend/search/search.js:236 | each category once, in ascending string order |
| SearchPage.CategoryFilters | frontend/search/search.js:224-246 | one checkbox per category in sorted order, with its count, checked iff it equals the selected category case-insensitively |
| SearchPage.CountAt | frontend/search/search.js:229-233 | the counted map's entry is the category's product count |
| SearchPage.AsyncResults | frontend/search/search.js:188-211 | a failed search gives nothing; hits are shown as they are; zero hits fall back to flagged recommendations |
| SearchPage.SearchPage.constructor | frontend/search/search.js:7-9 | the page starts with no results |
| SearchPage.SearchPage.SortProducts | frontend/search/search.js:297-322 | the shown list is sorted by the chosen option |
| SearchPage.SearchPage.ApplyFilters | frontend/search/search.js:248-295 | the shown list is the sorted result of the pipeline over the search results |
| SearchPage.SearchPage.PerformAsyncSearch | frontend/search/search.js:188-211 | the results follow the fetch's outcome: nothing on an error, the recommendations for no hit, and otherwise the facade's search hits for the term; then the filters and the sort apply |
| SearchPage.SearchTerm | frontend/search/search.js:155 | the search term, the box lowercased and trimmed; `PerformSearch` branches on it being empty |
| SearchPage.SearchPage.PerformSearch | frontend/search/search.js:153-185 | an empty term uses all products when a category is checked, the recommendations otherwise; a non-empty term lists the facade's hits for the trimmed, lowercased term, or the fallbacks of the asynchronous search |
| SearchPage.SearchPage.ClearAllFilters | frontend/search/search.js:405-436 | the results reset to every product, and nothing is filtered out |
| ProductView.ClampQuantity | frontend/products/product-view/product-view.js:49-60 | the quantity always lands in 1..10; NaN or below 1 gives 1; above 10 gives 10; a value in range is kept |
| ProductView.NextIndex | frontend/products/product-view/product-view.js:348 | the ArrowRight target; `IndexMovesWrap` proves it stays among the thumbnails, wraps at the end, and is undone by `PreviousIndex` |
| ProductView.PreviousIndex | frontend/products/product-view/product-view.js:346 | the ArrowLeft target; `IndexMovesWrap` proves it stays among the thumbnails, wraps at the start, and is undone by `NextIndex` |
| ProductView.IndexMovesWrap | frontend/products/product-view/product-view.js:339-352 | both moves stay among the thumbnails, wrap at the ends, step by one elsewhere, and undo each other |
| ProductView.SwipeTarget | frontend/products/product-view/product-view.js:451-471 | nothing happens iff the swipe is at most 50 pixels; a swipe left goes to the next thumbnail, a swipe right to the previous |
| ProductView.RecentAfterSave | frontend/products/product-view/product-view.js:418-427 | the list `saveToRecentlyViewed` stores; `RecentAfterSaveSpec` and `SaveTwiceKeepsOneEntry` state its properties |
| ProductView.RecentAfterSaveSpec | frontend/products/product-view/product-view.js:418-427 | after saving, the product is first; no other entry has its id; there are at most 10 entries; the rest are earlier entries in their order |
| ProductView.SaveTwiceKeepsOneEntry | frontend/products/product-view/product-view.js:418-427 | viewing the product again still leaves one entry for it, at the front |
| ProductView.ProductView.constructor | frontend/products/product-view/product-view.js:3-7 | the page starts with 3 in the cart, quantity 1 shown in the box, and not in the wishlist; the active thumbnail is whichever the markup marks (a parameter, -1 for none) |
| ProductView.ProductView.OnQuantityInput | frontend/products/product-view/product-view.js:49-60 | the quantity becomes the clamped input; in-range text stays in the box, other text is replaced by the bound, so the box always shows the quantity |
| ProductView.ProductView.ChangeQuantity | frontend/products/product-view/product-view.js:124-132 | the change applies only when the result stays in 1..10 |
| ProductView.ProductView.UpdateQuantity | frontend/products/product-view/product-view.js:134-137 | the quantity becomes the parsed box value, or 1 for NaN and 0; since the box shows the quantity, nothing changes and the 1..10 bound is kept |
| ProductView.ProductView.AddToCart | frontend/products/product-view/product-view.js:140-142 | the counter grows by the chosen quantity |
| ProductView.ProductView.ToggleWishlist | frontend/products/product-view/product-view.js:173-176 | the wishlist flag flips |
| ProductView.ProductView.KeyDown | frontend/products/product-view/product-view.js:338-359 | the arrows move to the previous or next thumbnail with wrap-around, and fail when there are none; '+' and '=' raise the quantity and '-' lowers it, within 1..10 |
| ProductView.ProductView.HandleImageSwipe | frontend/products/product-view/product-view.js:451-471 | a long enough swipe activates the target thumbnail; it fails only when there are none |
| ProductView.ProductView.SaveToRecentlyViewed | frontend/products/product-view/product-view.js:408-433 | readable storage gets the saved list; unreadable storage stays as it was |
| CategoryPage.QueryResults | frontend/products/category/category.js:247-250 | the categories `handleSearch` shows; `QueryResultsSpec` and `NarrowingQuery` state which |
| CategoryPage.QueryResultsSpec | frontend/products/category/category.js:247-250 | exactly the categories whose title or description includes the query, ignoring case, in their order |
| CategoryPage.NarrowingQuery | frontend/products/category/category.js:247-250 | a query that includes another keeps a subsequence of what the other kept |
| CategoryPage.Suggestions | frontend/products/category/category.js:267-271 | the suggestion list; `SuggestionsSpec` and `SuggestionsAmongResults` state which entries it holds |
| CategoryPage.SuggestionsSpec | frontend/products/category/category.js:267-271 | the suggestions are the first four or fewer categories whose title includes the query, in order |
| CategoryPage.SuggestionsAmongResults | frontend/products/category/category.js:247-271 | every suggestion is also among the categories shown |
| CategoryPage.FuzzyMatch | frontend/products/category/category.js:517-520 | the `fuzzySearch` filter: either string includes the other, ignoring case; `FuzzyMatchesSpec` states its use |
| CategoryPage.FuzzyMatches | frontend/products/category/category.js:516-522 | `fuzzySearch` over a term list: the first five matches, in list order; `FuzzyMatchesSpec`, `FuzzyFindsExactTerm` and `FuzzyEmptyQuery` state what it returns |
| CategoryPage.FuzzySearch | frontend/products/category/category.js:516-522 | `fuzzySearch(query)` over the page's own term list, an instance of `FuzzyMatches`: by `FuzzyMatchesSpec` the first five of the terms that include the query or are included in it |
| CategoryPage.FuzzyMatchesSpec | frontend/products/category/category.js:516-522 | the result is exactly the first five (or fewer) of the terms that include the query or are included in it, ignoring case, in list order; so at most 5, each a matching term of the list |
| CategoryPage.FuzzyFindsExactTerm | frontend/products/category/category.js:516-522 | a term typed in full always matches itself, and it is returned whenever fewer than five terms before it match |
| CategoryPage.FuzzyEmptyQuery | frontend/products/category/category.js:516-522 | the empty query matches every term, so the first five come back |
| CategoryPage.FindCategory | frontend/products/category/category.js:225 | a category is found iff one has the id, and the one found has it |
| CategoryPage.CategoryPage.constructor | frontend/products/category/category.js:3-80 | the page starts showing every category |
| CategoryPage.CategoryPage.HandleSearch | frontend/products/category/category.js:236-265 | the empty query restores every category and hides the suggestions; any other keeps the matching categories, shows the suggestions, and reports "no results" iff nothing matched |
| CategoryPage.CategoryPage.ClearSearch | frontend/products/category/category.js:306-312 | the box is emptied, every category is shown, and the suggestions are hidden |
| CategoryPage.CategoryPage.SelectCategory | frontend/products/category/category.js:223-233 | a known id puts its title in the box; an unknown id changes nothing but hiding the suggestions |

## Left out

- Markup, CSS, animations, the lightbox, notifications and the navbar badge. Also the analytics calls
  and the scroll and menu handlers. They have no state the model could state.
- HTTP transport and JSON. The facade methods call the `Repository` methods directly. Network or parse
  failures are `None` where the source handles them. The search page's fetch result is a parameter.
  When it succeeds it is required to be `DataManager.SearchProducts` over the products the page loaded,
  so the facade's own `getAllProducts` is taken to answer the same catalog.
- Floating point. Money is exact integer cents, tax is an exact `real`, and the `toFixed(2)`
  formatting is not modelled. The discount `Math.round` on cards is not modelled either.
- Strings. `toLowerCase` covers ASCII letters only. `localeCompare` and the default sort are code-point
  order. That differs from JavaScript's UTF-16 code-unit order only between characters U+E000..U+FFFF
  and characters above U+FFFF, and `localeCompare`'s locale collation is not modelled. Search-page category labels are not capitalised.
- Concurrency. Interleavings of the unawaited calls and of the timers (`setTimeout`) are not modelled;
  every handler runs to completion.
- ProductsPage.ProductsPage.ClearAllFilters: renders twice, once through `selectCategory('all')` and once through
  `updatePriceRange`. Each render's 300 ms callback appends the page's cards, and both run after the second
  `innerHTML = ''`, so the grid likely shows every card twice. The model's `Render` is one callback over the final state.
- ProductsPage.SliderValue: a slider `step` other than the default 1 is markup and is not modelled; with step 1 the
  whole numbers `parseInt` yields are not rounded.
- Time and randomness. `Date.now()` is a parameter. The `Math.random` shuffle in the recommendations is
  a parameter required to be a permutation of the highly rated products.
- Checkout.CheckoutPage.PlaceOrder: models the posted order as the shipping block and the payment method.
  `FormData` and the checked radio button are parameters. The cart is not cleared after an order,
  because the source does not clear it.
- Checkout field values are given as a list of `(type, required, value)` records, not read from the DOM.
- ProductView.ProductView.UpdateQuantity: does not clamp, as in the source. The model reads the box as
  `quantityBox`, which only the `input` handler and the buttons write. Text typed without an `input`
  event, and the box's initial markup value, are not modelled; the box is taken to start at 1.
- ProductView.ProductView.KeyDown: the thumbnail click is modelled as making that thumbnail active, as
  `changeMainImage` does. The main image itself and Escape's lightbox close are not modelled.
- Size and colour selection, buy-now and quick view on the product pages are UI only.
- The products page's `setViewMode` and mobile filters are UI only. Its per-card add-to-cart and
  wishlist buttons call the facade, which is modelled.
- The search page's per-card add-to-cart, wishlist and quick-view handlers call the facade or are UI.
- CategoryPage.CategoryPage.HandleSearch: the text the user types into the search box is not recorded in `searchValue`. That field holds only what the script writes (`clearSearch`, `selectCategory`); typed text arrives as the `query` argument.
- ProductView.ProductView.constructor: which thumbnail starts active comes from the page markup, which is not modelled; it is a parameter.
- The category page's `navigateToCategory` only notifies and tracks. `selectCategory` returns the
  category it would navigate to. The `cartCount` variable of the category page is never updated there.

## Findings

| source | as written | input that shows it | evidently intended | confidence | as-written member | corrected member |
|---|---|---|---|---|---|---|
| frontend/checkout/checkout.js:21-23 | `cartItems = DataManager.getCartItems()` is not awaited, so `cartItems` is a Promise. `cartItems.length === 0` is false even for an empty cart, and `renderOrderItems` then throws on `cartItems.map` (line 60 likewise gets a Promise from `getCartTotal`) | any cart, e.g. the empty one: the page throws instead of warning and redirecting | await both calls: redirect exactly on the empty cart, otherwise show the summary and its totals | not executed | Checkout.LoadOrderSummaryAsWrittenThrows | Checkout.CheckoutPage.LoadOrderSummary |
| frontend/checkout/checkout.js:162-168 | `DataManager.createOrder(...)` is not awaited, so `order.id` is `undefined` and the string "undefined" is stored as `lastOrderId` | any valid form: the confirmation page is handed "undefined", which is no order's id | await the order and store its "ORD-…" id | not executed | Checkout.LastOrderIdAsWrittenIsNoOrderId | Checkout.CheckoutPage.PlaceOrder |
