/** The search page of frontend/search/search.js: the search with its
    fallbacks, the filter pipeline (categories, price inputs, price
    buckets, minimum rating), sorting, recommendations and the category
    counts. Prices are cents and ratings tenths; the page's inputs are in
    dollars and stars, and `parseFloat` results are reals. */
module SearchPage {
  import opened Opt
  import opened Strings
  import opened Seqs
  import opened Sorting
  import opened Catalog
  import ProductsPage
  import DataManager

  /** A product as the page lists it; `isRecommendation` is set on the
      products shown in place of an empty search result. */
  datatype Listing = Listing(product: Product, isRecommendation: bool)

  /** `ps`, listed with the given flag. */
  function AsListings(ps: seq<Product>, isRecommendation: bool): (r: seq<Listing>)
    ensures |r| == |ps|
    ensures forall i :: 0 <= i < |ps| ==> r[i] == Listing(ps[i], isRecommendation)
  {
    seq(|ps|, i requires 0 <= i < |ps| => Listing(ps[i], isRecommendation))
  }

  /** The checked boxes and the two price inputs, as `applyFilters` reads
      them: the values of the checked category, price-range and rating
      boxes, and the parsed price inputs (`None` for an empty or
      unparsable box). */
  datatype FilterInputs = FilterInputs(
    categories: seq<string>,
    minPrice: Option<real>,
    maxPrice: Option<real>,
    priceRanges: seq<string>,
    ratings: seq<real>)

  const NO_FILTERS: FilterInputs := FilterInputs([], None, None, [], [])

  /** `parseFloat(v) || d`: NaN and 0 give way to `d`. */
  function NumberOr(parsed: Option<real>, d: real): (r: real)
    ensures parsed.Some? && parsed.value != 0.0 ==> r == parsed.value
    ensures parsed.None? || parsed.value == 0.0 ==> r == d
  {
    if parsed.None? || parsed.value == 0.0 then d else parsed.value
  }

  /** `Math.min(...s)` for a non-empty `s`. */
  function MinOf(s: seq<real>): (r: real)
    requires s != []
    ensures r in s
    ensures forall x :: x in s ==> r <= x
  {
    if |s| == 1 then s[0]
    else
      var m := MinOf(s[1..]);
      assert forall x :: x in s[1..] ==> x in s;
      assert forall x :: x in s ==> x == s[0] || x in s[1..];
      if s[0] <= m then s[0] else m
  }

  // ---------------------------------------------------------------------
  // The filter pipeline
  // ---------------------------------------------------------------------

  /** One price-range box: `under50`, `50-100`, `100-200`, `over200`;
      any other value matches every price. */
  predicate InBucket(range: string, price: int) {
    if range == "under50" then price < 5000
    else if range == "50-100" then 5000 <= price <= 10000
    else if range == "100-200" then 10000 <= price <= 20000
    else if range == "over200" then price > 20000
    else true
  }

  predicate InCategories(cats: seq<string>, l: Listing) {
    l.product.category in cats
  }

  predicate InPriceRange(minPrice: real, maxPrice: real, l: Listing) {
    l.product.price as real >= minPrice * 100.0 && l.product.price as real <= maxPrice * 100.0
  }

  predicate InSomeBucket(ranges: seq<string>, l: Listing) {
    exists i :: 0 <= i < |ranges| && InBucket(ranges[i], l.product.price)
  }

  predicate RatedAtLeast(minRating: real, l: Listing) {
    l.product.rating as real >= minRating * 10.0
  }

  function CategoryStep(cats: seq<string>): Listing -> bool {
    (l: Listing) => InCategories(cats, l)
  }

  function PriceStep(minPrice: real, maxPrice: real): Listing -> bool {
    (l: Listing) => InPriceRange(minPrice, maxPrice, l)
  }

  function BucketStep(ranges: seq<string>): Listing -> bool {
    (l: Listing) => InSomeBucket(ranges, l)
  }

  function RatingStep(minRating: real): Listing -> bool {
    (l: Listing) => RatedAtLeast(minRating, l)
  }

  /** The category step: only listings of a checked category, when any is checked. */
  function ByCategory(s: seq<Listing>, cats: seq<string>): seq<Listing> {
    if |cats| > 0 then Filter(s, CategoryStep(cats)) else s
  }

  /** The price-input step, with `parseFloat(...) || 0` and `|| 999999`. */
  function ByPrice(s: seq<Listing>, minPrice: Option<real>, maxPrice: Option<real>): seq<Listing> {
    Filter(s, PriceStep(NumberOr(minPrice, 0.0), NumberOr(maxPrice, 999999.0)))
  }

  /** The price-range step: some checked range matches, when any is checked. */
  function ByBucket(s: seq<Listing>, ranges: seq<string>): seq<Listing> {
    if |ranges| > 0 then Filter(s, BucketStep(ranges)) else s
  }

  /** The rating step: at least the lowest checked rating, when any is checked. */
  function ByRating(s: seq<Listing>, ratings: seq<real>): seq<Listing> {
    if |ratings| > 0 then Filter(s, RatingStep(MinOf(ratings))) else s
  }

  /** The list `applyFilters` leaves before sorting, step by step. */
  function Pipeline(results: seq<Listing>, f: FilterInputs): seq<Listing> {
    ByRating(ByBucket(ByPrice(ByCategory(results, f.categories), f.minPrice, f.maxPrice), f.priceRanges), f.ratings)
  }

  predicate CategoryOk(f: FilterInputs, l: Listing) {
    f.categories != [] ==> l.product.category in f.categories
  }

  predicate PriceOk(f: FilterInputs, l: Listing) {
    NumberOr(f.minPrice, 0.0) * 100.0 <= l.product.price as real <= NumberOr(f.maxPrice, 999999.0) * 100.0
  }

  predicate BucketOk(f: FilterInputs, l: Listing) {
    f.priceRanges != [] ==> exists r :: r in f.priceRanges && InBucket(r, l.product.price)
  }

  predicate RatingOk(f: FilterInputs, l: Listing) {
    f.ratings != [] ==> exists x :: x in f.ratings && l.product.rating as real >= x * 10.0
  }

  /** What a listing must satisfy to survive, each box group on its own:
      a checked category if any is checked; the price inputs, defaulting
      to $0 and $999999; some checked price range if any is checked; and
      at least one checked rating if any is checked. */
  predicate Survives(f: FilterInputs, l: Listing) {
    CategoryOk(f, l) && PriceOk(f, l) && BucketOk(f, l) && RatingOk(f, l)
  }

  lemma ByCategorySpec(s: seq<Listing>, f: FilterInputs)
    ensures forall l :: l in ByCategory(s, f.categories) <==> l in s && CategoryOk(f, l)
    ensures IsSubsequence(ByCategory(s, f.categories), s)
  {
    if |f.categories| > 0 {
      FilterIsSubsequence(s, CategoryStep(f.categories));
    } else {
      SubsequenceReflexive(s);
    }
  }

  lemma ByPriceSpec(s: seq<Listing>, f: FilterInputs)
    ensures forall l :: l in ByPrice(s, f.minPrice, f.maxPrice) <==> l in s && PriceOk(f, l)
    ensures IsSubsequence(ByPrice(s, f.minPrice, f.maxPrice), s)
  {
    FilterIsSubsequence(s, PriceStep(NumberOr(f.minPrice, 0.0), NumberOr(f.maxPrice, 999999.0)));
  }

  lemma ByBucketSpec(s: seq<Listing>, f: FilterInputs)
    ensures forall l :: l in ByBucket(s, f.priceRanges) <==> l in s && BucketOk(f, l)
    ensures IsSubsequence(ByBucket(s, f.priceRanges), s)
  {
    if |f.priceRanges| > 0 {
      forall l ensures InSomeBucket(f.priceRanges, l) <==> BucketOk(f, l) {
        if BucketOk(f, l) {
          var x :| x in f.priceRanges && InBucket(x, l.product.price);
          var i :| 0 <= i < |f.priceRanges| && f.priceRanges[i] == x;
        }
      }
      FilterIsSubsequence(s, BucketStep(f.priceRanges));
    } else {
      SubsequenceReflexive(s);
    }
  }

  lemma ByRatingSpec(s: seq<Listing>, f: FilterInputs)
    ensures forall l :: l in ByRating(s, f.ratings) <==> l in s && RatingOk(f, l)
    ensures IsSubsequence(ByRating(s, f.ratings), s)
  {
    if |f.ratings| > 0 {
      var m := MinOf(f.ratings);
      forall l ensures RatedAtLeast(m, l) <==> RatingOk(f, l) {
        if RatingOk(f, l) {
          var x :| x in f.ratings && l.product.rating as real >= x * 10.0;
          assert m <= x;
        }
      }
      FilterIsSubsequence(s, RatingStep(m));
    } else {
      SubsequenceReflexive(s);
    }
  }

  /** The pipeline keeps exactly the search results that survive every
      checked group, in their order. */
  lemma PipelineSpec(results: seq<Listing>, f: FilterInputs)
    ensures forall l :: l in Pipeline(results, f) <==> l in results && Survives(f, l)
    ensures IsSubsequence(Pipeline(results, f), results)
  {
    var byCategory := ByCategory(results, f.categories);
    var byPrice := ByPrice(byCategory, f.minPrice, f.maxPrice);
    var byBucket := ByBucket(byPrice, f.priceRanges);
    ByCategorySpec(results, f);
    ByPriceSpec(byCategory, f);
    ByBucketSpec(byPrice, f);
    ByRatingSpec(byBucket, f);
    SubsequenceTransitive(byPrice, byCategory, results);
    SubsequenceTransitive(byBucket, byPrice, results);
    SubsequenceTransitive(Pipeline(results, f), byBucket, results);
  }

  /** With nothing checked and the price inputs empty, every result priced
      within $0..$999999 survives. */
  lemma NoFiltersKeepAll(results: seq<Listing>)
    requires forall i :: 0 <= i < |results| ==> 0 <= results[i].product.price <= 99999900
    ensures Pipeline(results, NO_FILTERS) == results
  {
    FilterAll(results, PriceStep(0.0, 999999.0));
  }

  /** The four named price ranges together cover every price, and "50-100"
      and "100-200" share only $100. */
  lemma BucketsCoverAllPrices(price: int)
    ensures InBucket("under50", price) || InBucket("50-100", price)
         || InBucket("100-200", price) || InBucket("over200", price)
    ensures InBucket("50-100", price) && InBucket("100-200", price) ==> price == 10000
  {
  }

  // ---------------------------------------------------------------------
  // Sorting
  // ---------------------------------------------------------------------

  /** `b.ratingCount - a.ratingCount <= 0`. */
  predicate Bestseller(a: Product, b: Product) {
    b.ratingCount - a.ratingCount <= 0
  }

  /** The product comparator of a sort option; `None` keeps the order. */
  function ProductComparator(sortValue: string): Option<(Product, Product) -> bool> {
    if sortValue == "price-low" then Some(ProductsPage.PriceLow)
    else if sortValue == "price-high" then Some(ProductsPage.PriceHigh)
    else if sortValue == "rating" then Some(ProductsPage.RatingHigh)
    else if sortValue == "newest" then Some(ProductsPage.NewestFirst)
    else if sortValue == "bestseller" then Some(Bestseller)
    else None
  }

  /** A product comparator, applied to listings. */
  function OnProducts(le: (Product, Product) -> bool): (Listing, Listing) -> bool {
    (a: Listing, b: Listing) => le(a.product, b.product)
  }

  /** `sortProducts()` on a list. */
  function SortListings(s: seq<Listing>, sortValue: string): seq<Listing> {
    match ProductComparator(sortValue)
    case None => s
    case Some(le) => SortBy(s, OnProducts(le))
  }

  lemma OnProductsPreorder(le: (Product, Product) -> bool)
    requires TotalPreorder(le)
    ensures TotalPreorder(OnProducts(le))
  {
    var f := OnProducts(le);
    forall a: Listing, b: Listing ensures f(a, b) || f(b, a) {
      assert le(a.product, b.product) || le(b.product, a.product);
    }
    forall a: Listing, b: Listing, c: Listing | f(a, b) && f(b, c) ensures f(a, c) {
      assert le(a.product, b.product) && le(b.product, c.product);
    }
  }

  /** Sorting permutes the list and orders it by the option's key; the
      default option leaves it as it is. */
  lemma SortListingsSpec(s: seq<Listing>, sortValue: string)
    ensures multiset(SortListings(s, sortValue)) == multiset(s)
    ensures ProductComparator(sortValue).Some? ==>
      SortedBy(SortListings(s, sortValue), OnProducts(ProductComparator(sortValue).value))
    ensures ProductComparator(sortValue).None? ==> SortListings(s, sortValue) == s
  {
    if ProductComparator(sortValue).Some? {
      var le := ProductComparator(sortValue).value;
      if sortValue != "bestseller" {
        ProductsPage.ComparatorsArePreorders(sortValue);
      }
      OnProductsPreorder(le);
      SortBySorted(s, OnProducts(le));
    }
  }

  /** "bestseller" puts the most-rated products first. */
  lemma BestsellerOrder(s: seq<Listing>)
    ensures var r := SortListings(s, "bestseller");
      forall i, j :: 0 <= i < j < |r| ==> r[i].product.ratingCount >= r[j].product.ratingCount
  {
    SortListingsSpec(s, "bestseller");
    assert ProductComparator("bestseller") == Some(Bestseller);
    var r := SortListings(s, "bestseller");
    forall i, j | 0 <= i < j < |r| ensures r[i].product.ratingCount >= r[j].product.ratingCount {
      assert OnProducts(Bestseller)(r[i], r[j]);
      assert Bestseller(r[i].product, r[j].product);
    }
  }

  // ---------------------------------------------------------------------
  // Recommendations
  // ---------------------------------------------------------------------

  /** Rated 4 stars or more. */
  predicate HighlyRated(p: Product) {
    p.rating >= 40
  }

  function HighlyRatedStep(): Product -> bool {
    (p: Product) => HighlyRated(p)
  }

  /** `getRecommendedProducts()`. The random shuffle is the parameter
      `shuffled`, some ordering of the products rated 4 or more; the first
      20 of it are taken, or, when there are none, the first 20 products. */
  function Recommended(all: seq<Product>, shuffled: seq<Product>): seq<Product>
    requires multiset(shuffled) == multiset(Filter(all, HighlyRatedStep()))
  {
    var recommended := JsSlice(shuffled, 0, 20);
    if |recommended| > 0 then recommended else JsSlice(all, 0, 20)
  }

  /** The recommendations are at most 20 products of the catalog, each at
      most as often as it is rated 4 or more there, whenever there is such
      a product; otherwise they are the first 20 of the catalog. */
  lemma RecommendedSpec(all: seq<Product>, shuffled: seq<Product>)
    requires multiset(shuffled) == multiset(Filter(all, HighlyRatedStep()))
    ensures |Recommended(all, shuffled)| <= 20
    ensures forall p :: p in Recommended(all, shuffled) ==> p in all
    ensures (exists p :: p in all && HighlyRated(p)) ==>
      && multiset(Recommended(all, shuffled)) <= multiset(Filter(all, HighlyRatedStep()))
      && |Recommended(all, shuffled)| == ProductsPage.Min(20, |Filter(all, HighlyRatedStep())|)
      && forall p :: p in Recommended(all, shuffled) ==> HighlyRated(p)
    ensures (forall p :: p in all ==> !HighlyRated(p)) ==>
      Recommended(all, shuffled) == all[..ProductsPage.Min(20, |all|)]
  {
    var candidates := Filter(all, HighlyRatedStep());
    TakeLength(shuffled, 20);
    TakeLength(all, 20);
    PrefixOfPermutation(shuffled, candidates, 20);
    if exists p :: p in all && HighlyRated(p) {
      var p :| p in all && HighlyRated(p);
      assert p in candidates;
    } else {
      forall i | 0 <= i < |all| ensures !HighlyRatedStep()(all[i]) {
        assert all[i] in all;
      }
      FilterNone(all, HighlyRatedStep());
    }
  }

  /** The first `n` of a permutation of `candidates` are at most `n` of them. */
  lemma PrefixOfPermutation(shuffled: seq<Product>, candidates: seq<Product>, n: nat)
    requires multiset(shuffled) == multiset(candidates)
    ensures var k := ProductsPage.Min(n, |shuffled|);
      && |shuffled[..k]| == ProductsPage.Min(n, |candidates|)
      && multiset(shuffled[..k]) <= multiset(candidates)
      && forall p :: p in shuffled[..k] ==> p in candidates
  {
    var k := ProductsPage.Min(n, |shuffled|);
    var r := shuffled[..k];
    assert |shuffled| == |multiset(shuffled)| == |candidates|;
    assert shuffled == r + shuffled[k..];
    assert multiset(shuffled) == multiset(r) + multiset(shuffled[k..]);
    forall p | p in r ensures p in candidates {
      assert p in multiset(r);
      assert multiset(r) <= multiset(shuffled);
      assert p in multiset(candidates);
    }
  }

  // ---------------------------------------------------------------------
  // Category filters
  // ---------------------------------------------------------------------

  /** One checkbox of the category filter: the name, how many products
      have it, and whether it starts checked. */
  datatype CategoryOption = CategoryOption(name: string, count: nat, checked: bool)

  /** How many of `products` are in category `c`. */
  function CategoryCount(products: seq<Product>, c: string): nat {
    multiset(CategoryList(products))[c]
  }

  /** `counts[c] || 0`. */
  function CountOf(counts: map<string, nat>, c: string): nat {
    if c in counts then counts[c] else 0
  }

  /** `counts` holds, for each category of `cats` and no other, how often it occurs. */
  ghost predicate Tally(counts: map<string, nat>, cats: seq<string>) {
    && (forall c :: CountOf(counts, c) == multiset(cats)[c])
    && (forall c :: c in counts ==> counts[c] > 0)
  }

  /** One more product of category `cat` adds one to its count. */
  lemma TallyStep(counts: map<string, nat>, cats: seq<string>, cat: string)
    requires Tally(counts, cats)
    ensures Tally(counts[cat := CountOf(counts, cat) + 1], cats + [cat])
  {
    var next := counts[cat := CountOf(counts, cat) + 1];
    assert multiset(cats + [cat]) == multiset(cats) + multiset{cat};
    forall c ensures CountOf(next, c) == multiset(cats + [cat])[c] {
      if c != cat {
        assert CountOf(next, c) == CountOf(counts, c);
      }
    }
  }

  lemma TallyComplete(counts: map<string, nat>, cats: seq<string>)
    requires Tally(counts, cats)
    ensures forall c :: c in counts <==> c in cats
    ensures forall c :: c in counts ==> counts[c] == multiset(cats)[c]
  {
    forall c ensures c in counts <==> c in cats {
      assert c in cats <==> c in multiset(cats);
      assert CountOf(counts, c) == multiset(cats)[c];
    }
    forall c | c in counts ensures counts[c] == multiset(cats)[c] {
      assert CountOf(counts, c) == multiset(cats)[c];
    }
  }

  lemma CategoryListSnoc(products: seq<Product>, i: nat)
    requires i < |products|
    ensures CategoryList(products[..i + 1]) == CategoryList(products[..i]) + [products[i].category]
  {
    var l := CategoryList(products[..i + 1]);
    var r := CategoryList(products[..i]) + [products[i].category];
    assert |l| == |r|;
    forall k | 0 <= k < |l| ensures l[k] == r[k] {
      assert products[..i + 1][k] == products[k];
    }
  }

  /** The counting loop of `renderCategoryFilters`: how many products sit
      in each category. */
  method CountCategories(products: seq<Product>) returns (counts: map<string, nat>)
    ensures forall c :: c in counts <==> c in CategoryList(products)
    ensures forall c :: c in counts ==> counts[c] == multiset(CategoryList(products))[c]
  {
    counts := map[];
    var i := 0;
    assert CategoryList(products[..0]) == [];
    while i < |products|
      invariant 0 <= i <= |products|
      invariant Tally(counts, CategoryList(products[..i]))
    {
      var cat := products[i].category;
      TallyStep(counts, CategoryList(products[..i]), cat);
      CategoryListSnoc(products, i);
      counts := counts[cat := CountOf(counts, cat) + 1];
      i := i + 1;
    }
    assert products[..i] == products;
    TallyComplete(counts, CategoryList(products));
  }

  /** The order of the default `sort()` on strings, as `LexLe` reads it. */
  function StringOrder(): (string, string) -> bool {
    (a: string, b: string) => LexLe(a, b)
  }

  lemma StringOrderPreorder()
    ensures TotalPreorder(StringOrder())
  {
    forall a: string, b: string ensures LexLe(a, b) || LexLe(b, a) {
      LexLeTotal(a, b);
    }
    forall a: string, b: string, c: string | LexLe(a, b) && LexLe(b, c) ensures LexLe(a, c) {
      LexLeTransitive(a, b, c);
    }
  }

  /** The category names in the order the filter lists them: each once,
      sorted by `LexLe`. */
  function SortedCategories(products: seq<Product>): seq<string> {
    SortBy(Distinct(CategoryList(products)), StringOrder())
  }

  lemma SortedCategoriesMembers(products: seq<Product>)
    ensures forall c :: c in SortedCategories(products) <==> c in CategoryList(products)
  {
    SortByPermutes(Distinct(CategoryList(products)), StringOrder());
  }

  lemma SortedCategoriesSpec(products: seq<Product>)
    ensures forall c :: c in SortedCategories(products) <==> c in CategoryList(products)
    ensures |SortedCategories(products)| == |Distinct(CategoryList(products))|
    ensures NoDuplicates(SortedCategories(products))
    ensures forall i, j :: 0 <= i < j < |SortedCategories(products)| ==>
      LexLe(SortedCategories(products)[i], SortedCategories(products)[j])
  {
    var d := Distinct(CategoryList(products));
    StringOrderPreorder();
    SortBySorted(d, StringOrder());
    SortByPermutes(d, StringOrder());
    PermutationNoDuplicates(SortBy(d, StringOrder()), d);
  }

  /** `selectedCategory && cat.toLowerCase() === selectedCategory.toLowerCase()`. */
  predicate IsSelected(selected: string, name: string) {
    selected != "" && ToLower(name) == ToLower(selected)
  }

  /** `renderCategoryFilters(selected)`: one option per category, in sorted
      order, with its product count, checked when it equals the selected
      category ignoring case. */
  method CategoryFilters(products: seq<Product>, selected: string) returns (options: seq<CategoryOption>)
    ensures |options| == |SortedCategories(products)|
    ensures forall i :: 0 <= i < |options| ==> options[i] == OptionFor(products, selected, SortedCategories(products)[i])
  {
    var counts := CountCategories(products);
    var keys := SortedCategories(products);
    SortedCategoriesMembers(products);
    forall c | c in keys ensures c in counts && counts[c] == CategoryCount(products, c) {
      CountAt(counts, products, c);
    }
    options := OptionsFor(products, selected, keys, counts);
  }

  /** The `forEach` over the sorted keys, each counted in `counts`. */
  method OptionsFor(products: seq<Product>, selected: string, keys: seq<string>, counts: map<string, nat>)
    returns (options: seq<CategoryOption>)
    requires forall c :: c in keys ==> c in counts && counts[c] == CategoryCount(products, c)
    ensures |options| == |keys|
    ensures forall i :: 0 <= i < |options| ==> options[i] == OptionFor(products, selected, keys[i])
  {
    options := [];
    var i := 0;
    while i < |keys|
      invariant 0 <= i <= |keys|
      invariant |options| == i
      invariant forall k :: 0 <= k < i ==> options[k] == OptionFor(products, selected, keys[k])
    {
      var cat := keys[i];
      options := options + [CategoryOption(cat, counts[cat], IsSelected(selected, cat))];
      i := i + 1;
    }
  }

  /** The option the filter shows for category `name`: its product count,
      and whether it is the selected one. */
  function OptionFor(products: seq<Product>, selected: string, name: string): CategoryOption {
    CategoryOption(name, CategoryCount(products, name), IsSelected(selected, name))
  }

  lemma CountAt(counts: map<string, nat>, products: seq<Product>, c: string)
    requires forall c :: c in counts <==> c in CategoryList(products)
    requires forall c :: c in counts ==> counts[c] == multiset(CategoryList(products))[c]
    requires c in CategoryList(products)
    ensures c in counts && counts[c] == CategoryCount(products, c)
  {
  }

  // ---------------------------------------------------------------------
  // The page
  // ---------------------------------------------------------------------

  /** `searchInput.value.toLowerCase().trim()`. */
  function SearchTerm(input: string): string {
    Trim(ToLower(input))
  }

  /** What `performAsyncSearch` stores for the facade's answer (`None` when
      it threw): nothing on an error, the recommendations flagged as such
      for no hit, and the hits otherwise. */
  function AsyncResults(fetched: Option<seq<Product>>, all: seq<Product>, shuffled: seq<Product>): (r: seq<Listing>)
    requires multiset(shuffled) == multiset(Filter(all, HighlyRatedStep()))
    ensures fetched.None? ==> r == []
    ensures fetched.Some? && fetched.value != [] ==> r == AsListings(fetched.value, false)
    ensures fetched == Some([]) ==> r == AsListings(Recommended(all, shuffled), true)
  {
    match fetched
    case None => []
    case Some(results) =>
      if |results| == 0 then AsListings(Recommended(all, shuffled), true) else AsListings(results, false)
  }

  class SearchPage {
    /** `allProducts`, fetched when the page loads (empty when that failed). */
    const allProducts: seq<Product>
    var searchResults: seq<Listing>
    var currentProducts: seq<Listing>

    constructor (products: seq<Product>)
      ensures allProducts == products && searchResults == [] && currentProducts == []
    {
      allProducts := products;
      searchResults := [];
      currentProducts := [];
    }

    /** `sortProducts()` for the selected option. */
    method SortProducts(sortValue: string)
      modifies this
      ensures currentProducts == SortListings(old(currentProducts), sortValue)
      ensures searchResults == old(searchResults)
    {
      var le := ProductComparator(sortValue);
      if le.Some? {
        currentProducts := SortBy(currentProducts, OnProducts(le.value));
      }
    }

    /** `applyFilters()`: narrows the search results step by step, then sorts. */
    method ApplyFilters(f: FilterInputs, sortValue: string)
      modifies this
      ensures currentProducts == SortListings(Pipeline(searchResults, f), sortValue)
      ensures searchResults == old(searchResults)
    {
      var filtered := searchResults;
      if |f.categories| > 0 {
        filtered := Filter(filtered, CategoryStep(f.categories));
      }
      var minPrice := NumberOr(f.minPrice, 0.0);
      var maxPrice := NumberOr(f.maxPrice, 999999.0);
      filtered := Filter(filtered, PriceStep(minPrice, maxPrice));
      if |f.priceRanges| > 0 {
        filtered := Filter(filtered, BucketStep(f.priceRanges));
      }
      if |f.ratings| > 0 {
        var minRating := MinOf(f.ratings);
        filtered := Filter(filtered, RatingStep(minRating));
      }
      currentProducts := filtered;
      SortProducts(sortValue);
    }

    /** `performAsyncSearch(searchTerm)` with the facade's answer `fetched`:
        when the call succeeds it is `DataManager.searchProducts` over the
        catalog the page loaded. */
    method PerformAsyncSearch(searchTerm: string, fetched: Option<seq<Product>>, f: FilterInputs, sortValue: string,
                              shuffled: seq<Product>)
      requires fetched.Some? ==> fetched.value == DataManager.SearchProducts(allProducts, searchTerm)
      requires multiset(shuffled) == multiset(Filter(allProducts, HighlyRatedStep()))
      modifies this
      ensures searchResults == AsyncResults(fetched, allProducts, shuffled)
      ensures fetched.Some? && DataManager.SearchProducts(allProducts, searchTerm) != [] ==>
        searchResults == AsListings(DataManager.SearchProducts(allProducts, searchTerm), false)
      ensures currentProducts == SortListings(Pipeline(searchResults, f), sortValue)
    {
      match fetched {
        case None =>
          searchResults := [];
        case Some(results) =>
          if |results| == 0 {
            searchResults := AsListings(Recommended(allProducts, shuffled), true);
          } else {
            searchResults := AsListings(results, false);
          }
      }
      ApplyFilters(f, sortValue);
    }

    /** `performSearch()`: without a term, the base is every product when a
        category box is checked and the recommendations otherwise; with a
        term, the facade's search. */
    method PerformSearch(input: string, fetched: Option<seq<Product>>, f: FilterInputs, sortValue: string,
                         shuffled: seq<Product>)
      requires SearchTerm(input) != [] && fetched.Some? ==>
        fetched.value == DataManager.SearchProducts(allProducts, SearchTerm(input))
      requires multiset(shuffled) == multiset(Filter(allProducts, HighlyRatedStep()))
      modifies this
      ensures SearchTerm(input) == [] && f.categories != [] ==> searchResults == AsListings(allProducts, false)
      ensures SearchTerm(input) == [] && f.categories == [] ==>
        searchResults == AsListings(Recommended(allProducts, shuffled), false)
      ensures SearchTerm(input) != [] ==> searchResults == AsyncResults(fetched, allProducts, shuffled)
      ensures SearchTerm(input) != [] && fetched.Some? && DataManager.SearchProducts(allProducts, SearchTerm(input)) != [] ==>
        searchResults == AsListings(DataManager.SearchProducts(allProducts, SearchTerm(input)), false)
      ensures currentProducts == SortListings(Pipeline(searchResults, f), sortValue)
    {
      var searchTerm := SearchTerm(input);
      var hasCategoryFilter := |f.categories| > 0;
      if searchTerm == [] {
        if hasCategoryFilter {
          searchResults := AsListings(allProducts, false);
        } else {
          searchResults := AsListings(Recommended(allProducts, shuffled), false);
        }
        ApplyFilters(f, sortValue);
      } else {
        PerformAsyncSearch(searchTerm, fetched, f, sortValue, shuffled);
      }
    }

    /** `clearAllFilters()`: every box unchecked, price inputs and search
        emptied, relevance order, and every product as the base. */
    method ClearAllFilters()
      modifies this
      ensures searchResults == AsListings(allProducts, false)
      ensures currentProducts == Pipeline(searchResults, NO_FILTERS)
      ensures (forall i :: 0 <= i < |allProducts| ==> 0 <= allProducts[i].price <= 99999900) ==>
        currentProducts == searchResults
    {
      searchResults := AsListings(allProducts, false);
      ApplyFilters(NO_FILTERS, "relevance");
      if forall i :: 0 <= i < |allProducts| ==> 0 <= allProducts[i].price <= 99999900 {
        NoFiltersKeepAll(searchResults);
      }
    }
  }
}
