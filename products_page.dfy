/** The products page of frontend/products/products.js: the category and
    price filters, sorting, pagination and the star rating. The page's
    module variables are the fields of `ProductsPage`; the DOM it writes
    is returned as a `View`. Prices on the page's sliders are whole
    dollars, product prices are cents. */
module ProductsPage {
  import opened Opt
  import opened Strings
  import opened Seqs
  import opened Sorting
  import opened Catalog

  const PRODUCTS_PER_PAGE: nat := 12
  /** The slider's upper end, in dollars. */
  const DEFAULT_MAX_PRICE: int := 500

  /** `currentFilters`: a category name or "all", and a price range in dollars. */
  datatype Filters = Filters(category: string, minPrice: int, maxPrice: int)

  const DEFAULT_FILTERS: Filters := Filters("all", 0, DEFAULT_MAX_PRICE)

  // ---------------------------------------------------------------------
  // Filtering
  // ---------------------------------------------------------------------

  /** The predicate `applyFilters` hands to `filter`. */
  predicate Passes(f: Filters, p: Product) {
    && (f.category == "all" || p.category == f.category)
    && !(p.price < f.minPrice * 100 || p.price > f.maxPrice * 100)
  }

  function FilterFor(f: Filters): Product -> bool {
    (p: Product) => Passes(f, p)
  }

  /** `allProducts.filter(...)` under the filters `f`. */
  function Filtered(all: seq<Product>, f: Filters): seq<Product> {
    Filter(all, FilterFor(f))
  }

  /** The filtered list is exactly the products of the chosen category (or
      of any, for "all") priced within the range, bounds included, in
      catalog order. */
  lemma FilteredSpec(all: seq<Product>, f: Filters)
    ensures forall p :: p in Filtered(all, f) <==>
      p in all && (f.category == "all" || p.category == f.category)
      && f.minPrice * 100 <= p.price <= f.maxPrice * 100
    ensures IsSubsequence(Filtered(all, f), all)
  {
    FilterIsSubsequence(all, FilterFor(f));
  }

  /** Narrowing the price range keeps a subsequence of what was shown. */
  lemma NarrowerRangeShowsLess(all: seq<Product>, f: Filters, lo: int, hi: int)
    requires f.minPrice <= lo && hi <= f.maxPrice
    ensures IsSubsequence(Filtered(all, f.(minPrice := lo, maxPrice := hi)), Filtered(all, f))
  {
    FilterWeaker(all, FilterFor(f.(minPrice := lo, maxPrice := hi)), FilterFor(f));
  }

  /** The default filters hide nothing priced within $0..$500. */
  lemma DefaultFiltersShowAll(all: seq<Product>)
    requires forall i :: 0 <= i < |all| ==> 0 <= all[i].price <= DEFAULT_MAX_PRICE * 100
    ensures Filtered(all, DEFAULT_FILTERS) == all
  {
    FilterAll(all, FilterFor(DEFAULT_FILTERS));
  }

  /** `updatePriceRange`'s repair of the two slider values: the low slider
      takes the smaller, the high one the larger. */
  function OrderedRange(a: int, b: int): (r: (int, int))
    ensures r.0 <= r.1
    ensures (r.0 == a && r.1 == b) || (r.0 == b && r.1 == a)
  {
    var lo := if a > b then b else a;
    var hi := if b < a then a else b;
    (lo, hi)
  }

  /** What a range input (`<input type="range" min=lo max=hi>`) holds after
      `value = v` is written: the value clamped into its range, whose top is
      `lo` when `hi < lo`. The default step of 1 leaves whole numbers alone. */
  function SliderValue(v: int, lo: int, hi: int): (r: int)
    ensures lo <= r && (lo <= hi ==> r <= hi)
    ensures lo <= v && v <= hi ==> r == v
    ensures v < lo ==> r == lo
    ensures lo <= hi < v ==> r == hi
  {
    var top := if hi < lo then lo else hi;
    if v < lo then lo else if v > top then top else v
  }

  // ---------------------------------------------------------------------
  // Sorting
  // ---------------------------------------------------------------------

  /** The comparators of `sortProducts`, as `cmp(a, b) <= 0`. */
  predicate PriceLow(a: Product, b: Product) { a.price - b.price <= 0 }
  predicate PriceHigh(a: Product, b: Product) { b.price - a.price <= 0 }
  predicate NameOrder(a: Product, b: Product) { LexLe(a.name, b.name) }
  predicate RatingHigh(a: Product, b: Product) { b.rating - a.rating <= 0 }
  /** `b.isNew - a.isNew`, booleans counting as 0 and 1. */
  predicate NewestFirst(a: Product, b: Product) {
    (if b.isNew then 1 else 0) - (if a.isNew then 1 else 0) <= 0
  }

  /** The comparator of a sort option; `None` is "featured" and any other value. */
  function Comparator(option: string): Option<(Product, Product) -> bool> {
    if option == "price-low" then Some(PriceLow)
    else if option == "price-high" then Some(PriceHigh)
    else if option == "name" then Some(NameOrder)
    else if option == "rating" then Some(RatingHigh)
    else if option == "newest" then Some(NewestFirst)
    else None
  }

  /** Every comparator of the page is consistent, so sorting by it is well defined. */
  lemma ComparatorsArePreorders(option: string)
    requires Comparator(option).Some?
    ensures TotalPreorder(Comparator(option).value)
  {
    if option == "name" {
      forall a: Product, b: Product ensures NameOrder(a, b) || NameOrder(b, a) {
        LexLeTotal(a.name, b.name);
      }
      forall a: Product, b: Product, c: Product | NameOrder(a, b) && NameOrder(b, c)
        ensures NameOrder(a, c)
      {
        LexLeTransitive(a.name, b.name, c.name);
      }
    }
  }

  /** Each sort option yields a permutation of the list, ordered by its
      comparator, with products it ties left in their previous order;
      sorting the result again by the same option changes nothing. */
  lemma SortOptionSpec(s: seq<Product>, option: string, y: Product)
    requires Comparator(option).Some?
    ensures multiset(SortBy(s, Comparator(option).value)) == multiset(s)
    ensures SortedBy(SortBy(s, Comparator(option).value), Comparator(option).value)
    ensures Filter(SortBy(s, Comparator(option).value), z => Tied(Comparator(option).value, z, y))
         == Filter(s, z => Tied(Comparator(option).value, z, y))
    ensures SortBy(SortBy(s, Comparator(option).value), Comparator(option).value) == SortBy(s, Comparator(option).value)
  {
    ComparatorsArePreorders(option);
    SortBySorted(s, Comparator(option).value);
    SortByStable(s, Comparator(option).value, y);
    SortBySortedInput(SortBy(s, Comparator(option).value), Comparator(option).value);
  }

  /** "price-low" orders by ascending price, "rating" by descending rating,
      and "newest" puts every new product before every other. */
  lemma SortKeys(s: seq<Product>)
    ensures var r := SortBy(s, PriceLow); forall i, j :: 0 <= i < j < |r| ==> r[i].price <= r[j].price
    ensures var r := SortBy(s, RatingHigh); forall i, j :: 0 <= i < j < |r| ==> r[i].rating >= r[j].rating
    ensures var r := SortBy(s, NewestFirst); forall i, j :: 0 <= i < j < |r| && r[j].isNew ==> r[i].isNew
  {
    ComparatorsArePreorders("price-low");
    ComparatorsArePreorders("rating");
    ComparatorsArePreorders("newest");
    SortBySorted(s, PriceLow);
    SortBySorted(s, RatingHigh);
    SortBySorted(s, NewestFirst);
  }

  // ---------------------------------------------------------------------
  // Pagination
  // ---------------------------------------------------------------------

  /** `Math.ceil(n / productsPerPage)`. */
  function TotalPages(n: nat): nat {
    (n + PRODUCTS_PER_PAGE - 1) / PRODUCTS_PER_PAGE
  }

  /** `TotalPages` is the ceiling: the fewest pages of 12 that hold `n` products. */
  lemma TotalPagesIsCeiling(n: nat)
    ensures TotalPages(n) * PRODUCTS_PER_PAGE >= n
    ensures TotalPages(n) == 0 || (TotalPages(n) - 1) * PRODUCTS_PER_PAGE < n
  {
  }

  /** The products `renderProducts` shows on page `page`. */
  function PageSlice(s: seq<Product>, page: int): seq<Product> {
    var start := (page - 1) * PRODUCTS_PER_PAGE;
    JsSlice(s, start, start + PRODUCTS_PER_PAGE)
  }

  function Min(a: int, b: int): int {
    if a < b then a else b
  }

  /** A page shows at most 12 products: the block of the list from its
      start index, cut off at the end of the list. */
  lemma PageSliceSpec(s: seq<Product>, page: int)
    requires page >= 1
    ensures |PageSlice(s, page)| <= PRODUCTS_PER_PAGE
    ensures var start := (page - 1) * PRODUCTS_PER_PAGE;
      PageSlice(s, page) == s[Min(start, |s|)..Min(start + PRODUCTS_PER_PAGE, |s|)]
  {
  }

  /** Each product of the list is shown on exactly one page: the `k`th is
      at position `k % 12` of page `k / 12 + 1`. */
  lemma EveryProductOnItsPage(s: seq<Product>, k: nat)
    requires k < |s|
    ensures 1 <= k / PRODUCTS_PER_PAGE + 1 <= TotalPages(|s|)
    ensures k % PRODUCTS_PER_PAGE < |PageSlice(s, k / PRODUCTS_PER_PAGE + 1)|
    ensures PageSlice(s, k / PRODUCTS_PER_PAGE + 1)[k % PRODUCTS_PER_PAGE] == s[k]
  {
    PageSliceSpec(s, k / PRODUCTS_PER_PAGE + 1);
  }

  /** The pages from 1 to `TotalPages` are the non-empty ones. */
  lemma NonEmptyPages(s: seq<Product>, page: int)
    requires page >= 1
    ensures PageSlice(s, page) != [] <==> page <= TotalPages(|s|)
  {
    PageSliceSpec(s, page);
  }

  /** One numbered button of the pagination bar, and whether it is the current page. */
  datatype PageButton = PageButton(page: int, active: bool)

  /** The pagination bar: hidden, or "Previous", the first buttons, the
      last-page button after "...", and "Next". */
  datatype Pagination =
    | Hidden
    | Shown(prevDisabled: bool, buttons: seq<PageButton>, last: Option<PageButton>, nextDisabled: bool)

  /** `updatePagination()` for `n` products. */
  method UpdatePagination(n: nat, currentPage: int) returns (r: Pagination)
    ensures r.Hidden? <==> TotalPages(n) <= 1
    ensures r.Shown? ==>
      && r.prevDisabled == (currentPage == 1)
      && r.nextDisabled == (currentPage == TotalPages(n))
      && |r.buttons| == Min(TotalPages(n), 5)
      && (forall i :: 0 <= i < |r.buttons| ==> r.buttons[i] == PageButton(i + 1, currentPage == i + 1))
      && (r.last.Some? <==> TotalPages(n) > 5)
      && (r.last.Some? ==> r.last.value == PageButton(TotalPages(n), currentPage == TotalPages(n)))
    ensures r.Shown? ==> forall i :: 0 <= i < |r.buttons| ==> 1 <= r.buttons[i].page <= TotalPages(n)
  {
    var totalPages := TotalPages(n);
    if totalPages <= 1 {
      return Hidden;
    }
    var buttons: seq<PageButton> := [];
    var i := 1;
    while i <= Min(totalPages, 5)
      invariant 1 <= i <= Min(totalPages, 5) + 1
      invariant |buttons| == i - 1
      invariant forall k :: 0 <= k < |buttons| ==> buttons[k] == PageButton(k + 1, currentPage == k + 1)
    {
      buttons := buttons + [PageButton(i, currentPage == i)];
      i := i + 1;
    }
    var last := if totalPages > 5 then Some(PageButton(totalPages, currentPage == totalPages)) else None;
    r := Shown(currentPage == 1, buttons, last, currentPage == totalPages);
  }

  /** The "showing" text of `updateProductCount()`: first and last position
      shown, and the total. */
  datatype Count = Count(first: int, last: int, total: nat)

  function ProductCount(n: nat, page: int): Count {
    var start := (page - 1) * PRODUCTS_PER_PAGE;
    Count(start + 1, Min(start + PRODUCTS_PER_PAGE, n), n)
  }

  /** The count text agrees with the products shown: on a non-empty page it
      spans exactly the page's slice. */
  lemma ProductCountMatchesSlice(s: seq<Product>, page: int)
    requires 1 <= page <= TotalPages(|s|)
    ensures var c := ProductCount(|s|, page);
      && 1 <= c.first <= c.last <= c.total
      && c.last - c.first + 1 == |PageSlice(s, page)|
      && PageSlice(s, page) == s[c.first - 1..c.last]
  {
    PageSliceSpec(s, page);
  }

  /** What `renderProducts()` shows once its timer fires. */
  datatype View =
    | NoResults
    | Listing(cards: seq<Product>, pagination: Pagination, count: Count)

  // ---------------------------------------------------------------------
  // Stars
  // ---------------------------------------------------------------------

  const STAR: char := '\U{2B50}'

  /** `generateStars(rating)` for a rating in tenths: a star per whole
      point, and one more, drawn the same, for a fractional part. */
  method GenerateStars(rating: int) returns (stars: string)
    ensures forall i :: 0 <= i < |stars| ==> stars[i] == STAR
    ensures |stars| == (if rating / 10 > 0 then rating / 10 else 0) + (if rating % 10 != 0 then 1 else 0)
    ensures rating >= 0 ==> |stars| == (rating + 9) / 10
  {
    var fullStars := rating / 10;
    var halfStar := rating % 10 != 0;
    stars := "";
    var i := 0;
    while i < fullStars
      invariant 0 <= i <= (if fullStars > 0 then fullStars else 0)
      invariant |stars| == i
      invariant forall k :: 0 <= k < |stars| ==> stars[k] == STAR
    {
      stars := stars + [STAR];
      i := i + 1;
    }
    if halfStar {
      stars := stars + [STAR];
    }
  }

  // ---------------------------------------------------------------------
  // The page
  // ---------------------------------------------------------------------

  class ProductsPage {
    /** `allProducts`, fetched once when the page loads. */
    const allProducts: seq<Product>
    var currentProducts: seq<Product>
    var currentPage: int
    var filters: Filters
    /** The `min` and `max` attributes of the two price sliders, set by the
        page's markup. */
    const sliderMin: int
    const sliderMax: int

    /** The load handler: every product shown, page 1, the default filters. */
    constructor (products: seq<Product>, lo: int, hi: int)
      ensures allProducts == products && currentProducts == products
      ensures currentPage == 1 && filters == DEFAULT_FILTERS
      ensures sliderMin == lo && sliderMax == hi
    {
      sliderMin, sliderMax := lo, hi;
      allProducts := products;
      currentProducts := products;
      currentPage := 1;
      filters := DEFAULT_FILTERS;
    }

    /** `applyFilters()`: the list becomes the catalog under the current filters. */
    method ApplyFilters()
      modifies this
      ensures currentProducts == Filtered(allProducts, filters)
      ensures currentPage == old(currentPage) && filters == old(filters)
    {
      currentProducts := Filter(allProducts, FilterFor(filters));
    }

    /** `selectCategory(category)`: sets the category, back to page 1. */
    method SelectCategory(category: string)
      modifies this
      ensures filters == old(filters).(category := category)
      ensures currentPage == 1
      ensures currentProducts == Filtered(allProducts, filters)
    {
      filters := filters.(category := category);
      currentPage := 1;
      ApplyFilters();
    }

    /** `updatePriceRange()` for the slider values `minValue` and `maxValue`:
        an inverted pair is put in order, then back to page 1. */
    method UpdatePriceRange(minValue: int, maxValue: int)
      modifies this
      ensures filters == old(filters).(minPrice := OrderedRange(minValue, maxValue).0,
                                       maxPrice := OrderedRange(minValue, maxValue).1)
      ensures filters.minPrice <= filters.maxPrice
      ensures currentPage == 1
      ensures currentProducts == Filtered(allProducts, filters)
    {
      if minValue > maxValue {
        filters := filters.(minPrice := maxValue);
      } else {
        filters := filters.(minPrice := minValue);
      }
      if maxValue < minValue {
        filters := filters.(maxPrice := minValue);
      } else {
        filters := filters.(maxPrice := maxValue);
      }
      currentPage := 1;
      ApplyFilters();
    }

    /** `updateFromInput()`: the number boxes, parsed (`None` for NaN), with
        0 and 500 for an empty, unparsable or zero entry, are written into
        the sliders, which clamp them; `updatePriceRange` reads them back. */
    method UpdateFromInput(minInput: Option<int>, maxInput: Option<int>)
      modifies this
      ensures var a := SliderValue(IntOr(minInput, 0), sliderMin, sliderMax);
        var b := SliderValue(IntOr(maxInput, DEFAULT_MAX_PRICE), sliderMin, sliderMax);
        filters == old(filters).(minPrice := OrderedRange(a, b).0, maxPrice := OrderedRange(a, b).1)
      ensures sliderMin <= filters.minPrice <= filters.maxPrice
      ensures sliderMin <= sliderMax ==> filters.maxPrice <= sliderMax
      ensures currentPage == 1
      ensures currentProducts == Filtered(allProducts, filters)
    {
      var minValue := SliderValue(IntOr(minInput, 0), sliderMin, sliderMax);
      var maxValue := SliderValue(IntOr(maxInput, DEFAULT_MAX_PRICE), sliderMin, sliderMax);
      UpdatePriceRange(minValue, maxValue);
    }

    /** `clearAllFilters()`: category "all" and page 1; the sliders are set
        to 0 and 500 and read back, which gives $0 to $500 whenever the
        sliders span that range. */
    method ClearAllFilters()
      modifies this
      ensures var a := SliderValue(0, sliderMin, sliderMax);
        var b := SliderValue(DEFAULT_MAX_PRICE, sliderMin, sliderMax);
        filters == DEFAULT_FILTERS.(minPrice := OrderedRange(a, b).0, maxPrice := OrderedRange(a, b).1)
      ensures sliderMin <= 0 && DEFAULT_MAX_PRICE <= sliderMax ==> filters == DEFAULT_FILTERS
      ensures currentPage == 1
      ensures currentProducts == Filtered(allProducts, filters)
    {
      SelectCategory("all");
      filters := DEFAULT_FILTERS;
      UpdatePriceRange(SliderValue(0, sliderMin, sliderMax), SliderValue(DEFAULT_MAX_PRICE, sliderMin, sliderMax));
    }

    /** `sortProducts()` for the chosen option: sorts the shown list by the
        option's comparator, or, for "featured", filters the catalog anew,
        which restores catalog order. */
    method SortProducts(option: string)
      modifies this
      ensures Comparator(option).Some? ==>
        currentProducts == SortBy(old(currentProducts), Comparator(option).value)
      ensures Comparator(option).None? ==> currentProducts == Filtered(allProducts, filters)
      ensures multiset(currentProducts) == multiset(old(currentProducts)) || Comparator(option).None?
      ensures currentPage == old(currentPage) && filters == old(filters)
    {
      var le := Comparator(option);
      if le.None? {
        ApplyFilters();
        return;
      }
      currentProducts := SortBy(currentProducts, le.value);
    }

    /** `changePage(direction)`: moves only onto an existing page. */
    method ChangePage(direction: int)
      modifies this
      ensures var target := old(currentPage) + direction;
        currentPage == (if 1 <= target <= TotalPages(|currentProducts|) then target else old(currentPage))
      ensures 1 <= old(currentPage) <= TotalPages(|currentProducts|) ==>
        1 <= currentPage <= TotalPages(|currentProducts|)
      ensures currentProducts == old(currentProducts) && filters == old(filters)
    {
      var totalPages := TotalPages(|currentProducts|);
      var newPage := currentPage + direction;
      if newPage >= 1 && newPage <= totalPages {
        currentPage := newPage;
      }
    }

    /** `goToPage(page)`: no check at all. */
    method GoToPage(page: int)
      modifies this
      ensures currentPage == page
      ensures currentProducts == old(currentProducts) && filters == old(filters)
    {
      currentPage := page;
    }

    /** `renderProducts()` (its timer callback): the current page's cards,
        the pagination bar and the count, or the no-results notice. */
    method Render() returns (view: View)
      ensures currentProducts == [] <==> view == NoResults
      ensures view.Listing? ==>
        && view.cards == PageSlice(currentProducts, currentPage)
        && view.count == ProductCount(|currentProducts|, currentPage)
        && (view.pagination.Hidden? <==> TotalPages(|currentProducts|) <= 1)
    {
      if |currentProducts| == 0 {
        return NoResults;
      }
      var cards := PageSlice(currentProducts, currentPage);
      var pagination := UpdatePagination(|currentProducts|, currentPage);
      view := Listing(cards, pagination, ProductCount(|currentProducts|, currentPage));
    }
  }
}
