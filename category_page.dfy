/** The category page of frontend/products/category/category.js: the
    fixed category list, the search box that narrows it, the suggestion
    list under the box, selection of a suggestion and the fuzzy term
    matcher. Rendering, notifications and analytics are not modelled. */
module CategoryPage {
  import opened Opt
  import opened Strings
  import opened Seqs

  /** A category card. */
  datatype Category = Category(
    id: string, title: string, image: string, description: string,
    productCount: nat, badge: string, featured: bool)

  /** The page's `categories` constant. */
  const CATEGORIES: seq<Category> := [
    Category("fashion", "Fashion & Clothing", "\U{1F455}",
      "Discover the latest trends in fashion with our curated collection of clothing, shoes, and accessories for men, women, and kids.",
      245, "Trending", true),
    Category("electronics", "Electronics & Gadgets", "\U{1F4F1}",
      "Stay ahead with cutting-edge technology. From smartphones to smart home devices, find all your electronic needs here.",
      189, "New Arrivals", true),
    Category("home", "Home & Living", "\U{1F3E0}",
      "Transform your living space with our premium home decor, furniture, and kitchen essentials for a perfect home.",
      156, "Best Sellers", false),
    Category("beauty", "Beauty & Personal Care", "\U{1F484}",
      "Enhance your natural beauty with our extensive range of skincare, makeup, and personal care products.",
      132, "Premium", true),
    Category("sports", "Sports & Fitness", "\U{26BD}",
      "Achieve your fitness goals with our high-quality sports equipment, activewear, and wellness products.",
      98, "Active", false),
    Category("books", "Books & Education", "\U{1F4DA}",
      "Expand your knowledge with our vast collection of books, educational materials, and learning resources.",
      87, "Knowledge", false),
    Category("automotive", "Automotive & Tools", "\U{1F697}",
      "Keep your vehicle running smoothly with our automotive parts, accessories, and professional-grade tools.",
      76, "Professional", false),
    Category("toys", "Toys & Games", "\U{1F3AE}",
      "Bring joy and fun with our exciting collection of toys, games, and educational play items for all ages.",
      64, "Fun", false)
  ]

  /** The page's `searchSuggestionsList`. */
  const SEARCH_TERMS: seq<string> := [
    "fashion", "clothing", "shoes", "accessories",
    "electronics", "smartphones", "laptops", "gadgets",
    "home", "furniture", "decor", "kitchen",
    "beauty", "skincare", "makeup", "personal care",
    "sports", "fitness", "outdoor", "activewear",
    "books", "education", "learning", "novels",
    "automotive", "car accessories", "tools",
    "toys", "games", "kids", "children"
  ]

  const SUGGESTION_LIMIT: nat := 4
  const FUZZY_LIMIT: nat := 5

  // ---------------------------------------------------------------------
  // Matching
  // ---------------------------------------------------------------------

  /** `s.toLowerCase().includes(query.toLowerCase())`. */
  predicate Mentions(s: string, query: string) {
    Contains(ToLower(s), ToLower(query))
  }

  /** The `handleSearch` filter: the title or the description mentions the query. */
  predicate MatchesQuery(query: string, c: Category) {
    Mentions(c.title, query) || Mentions(c.description, query)
  }

  function QueryStep(query: string): Category -> bool {
    (c: Category) => MatchesQuery(query, c)
  }

  /** The `updateSearchSuggestions` filter: the title mentions the query. */
  predicate TitleMatches(query: string, c: Category) {
    Mentions(c.title, query)
  }

  function TitleStep(query: string): Category -> bool {
    (c: Category) => TitleMatches(query, c)
  }

  /** The categories a non-empty query leaves on the page. */
  function QueryResults(categories: seq<Category>, query: string): seq<Category> {
    Filter(categories, QueryStep(query))
  }

  /** The query keeps exactly the categories whose title or description
      mentions it, in their original order. */
  lemma QueryResultsSpec(categories: seq<Category>, query: string)
    ensures forall c :: c in QueryResults(categories, query) <==>
      c in categories && (Mentions(c.title, query) || Mentions(c.description, query))
    ensures IsSubsequence(QueryResults(categories, query), categories)
  {
    FilterIsSubsequence(categories, QueryStep(query));
  }

  /** Typing more narrows the results: a query that includes another keeps
      a subsequence of what the other kept. */
  lemma NarrowingQuery(categories: seq<Category>, shorter: string, longer: string)
    requires Contains(ToLower(longer), ToLower(shorter))
    ensures IsSubsequence(QueryResults(categories, longer), QueryResults(categories, shorter))
  {
    forall c: Category | QueryStep(longer)(c) ensures QueryStep(shorter)(c) {
      if Mentions(c.title, longer) {
        ContainsTransitive(ToLower(c.title), ToLower(longer), ToLower(shorter));
      } else {
        ContainsTransitive(ToLower(c.description), ToLower(longer), ToLower(shorter));
      }
    }
    FilterWeaker(categories, QueryStep(longer), QueryStep(shorter));
  }

  /** The suggestion list for a query: the first four title matches. */
  function Suggestions(categories: seq<Category>, query: string): seq<Category> {
    JsSlice(Filter(categories, TitleStep(query)), 0, SUGGESTION_LIMIT)
  }

  /** The suggestions are the first (at most four) categories whose title
      mentions the query, in list order. */
  lemma SuggestionsSpec(categories: seq<Category>, query: string)
    ensures var matches := Filter(categories, TitleStep(query));
      && Suggestions(categories, query) == matches[..if |matches| < SUGGESTION_LIMIT then |matches| else SUGGESTION_LIMIT]
      && |Suggestions(categories, query)| <= SUGGESTION_LIMIT
      && (forall c :: c in Suggestions(categories, query) ==> c in categories && Mentions(c.title, query))
      && IsSubsequence(Suggestions(categories, query), categories)
  {
    var matches := Filter(categories, TitleStep(query));
    TakeLength(matches, SUGGESTION_LIMIT);
    var k := if |matches| < SUGGESTION_LIMIT then |matches| else SUGGESTION_LIMIT;
    forall c | c in matches[..k] ensures c in matches {
    }
    FilterIsSubsequence(categories, TitleStep(query));
    SubsequencePrefix(matches, categories, k);
  }

  /** Every suggestion is also among the categories the query leaves. */
  lemma SuggestionsAmongResults(categories: seq<Category>, query: string)
    ensures forall c :: c in Suggestions(categories, query) ==> c in QueryResults(categories, query)
  {
    SuggestionsSpec(categories, query);
  }

  // ---------------------------------------------------------------------
  // Fuzzy matching
  // ---------------------------------------------------------------------

  /** A term matches a query when either includes the other, ignoring case. */
  predicate FuzzyMatch(query: string, term: string) {
    Mentions(term, query) || Mentions(query, term)
  }

  function FuzzyStep(query: string): string -> bool {
    (term: string) => FuzzyMatch(query, term)
  }

  /** `fuzzySearch` over a term list: the first five fuzzy matches. */
  function FuzzyMatches(terms: seq<string>, query: string): seq<string> {
    JsSlice(Filter(terms, FuzzyStep(query)), 0, FUZZY_LIMIT)
  }

  /** `fuzzySearch(query)`. */
  function FuzzySearch(query: string): seq<string> {
    FuzzyMatches(SEARCH_TERMS, query)
  }

  /** The first five (or fewer) terms that include or are included in the
      query, in list order. */
  lemma FuzzyMatchesSpec(terms: seq<string>, query: string)
    ensures var matches := Filter(terms, FuzzyStep(query));
      FuzzyMatches(terms, query) == matches[..if |matches| < FUZZY_LIMIT then |matches| else FUZZY_LIMIT]
    ensures |FuzzyMatches(terms, query)| <= FUZZY_LIMIT
    ensures forall t :: t in FuzzyMatches(terms, query) ==>
      t in terms && (Mentions(t, query) || Mentions(query, t))
    ensures IsSubsequence(FuzzyMatches(terms, query), terms)
  {
    var matches := Filter(terms, FuzzyStep(query));
    TakeLength(matches, FUZZY_LIMIT);
    var k := if |matches| < FUZZY_LIMIT then |matches| else FUZZY_LIMIT;
    forall t | t in matches[..k] ensures t in matches {
    }
    FilterIsSubsequence(terms, FuzzyStep(query));
    SubsequencePrefix(matches, terms, k);
  }

  /** A term typed in full is always matched, so it appears when fewer than
      five earlier terms match. */
  lemma FuzzyFindsExactTerm(terms: seq<string>, i: nat)
    requires i < |terms|
    ensures terms[i] in Filter(terms, FuzzyStep(terms[i]))
    ensures |Filter(terms[..i], FuzzyStep(terms[i]))| < FUZZY_LIMIT ==> terms[i] in FuzzyMatches(terms, terms[i])
  {
    var f := FuzzyStep(terms[i]);
    var t := ToLower(terms[i]);
    assert t <= t;
    assert Contains(t, t);
    assert f(terms[i]);
    var before := Filter(terms[..i], f);
    assert terms == terms[..i] + terms[i..];
    FilterConcat(terms[..i], terms[i..], f);
    assert Filter(terms[i..], f)[0] == terms[i];
    var matches := Filter(terms, f);
    assert matches[|before|] == terms[i];
    FuzzyMatchesSpec(terms, terms[i]);
  }

  /** The empty query matches every term: the first five come back. */
  lemma FuzzyEmptyQuery(terms: seq<string>)
    ensures FuzzyMatches(terms, "") == terms[..if |terms| < FUZZY_LIMIT then |terms| else FUZZY_LIMIT]
  {
    forall t | t in terms ensures FuzzyStep("")(t) {
      ContainsEmpty(ToLower(t));
    }
    FilterAll(terms, FuzzyStep(""));
    TakeLength(terms, FUZZY_LIMIT);
  }

  // ---------------------------------------------------------------------
  // The page
  // ---------------------------------------------------------------------

  /** `categories.find(cat => cat.id === id)`. */
  function FindCategory(categories: seq<Category>, id: string): (r: Option<Category>)
    ensures r.None? <==> forall i :: 0 <= i < |categories| ==> categories[i].id != id
    ensures r.Some? ==> r.value in categories && r.value.id == id
  {
    match FindFirst(categories, (c: Category) => c.id == id)
    case None => None
    case Some(k) => Some(categories[k])
  }

  class CategoryPage {
    const categories: seq<Category>
    /** The cards on the page. */
    var filteredCategories: seq<Category>
    /** The text the script writes into the search box: `clearSearch`
        empties it and `selectCategory` fills in a title. What the user types
        reaches the page only as the query handed to `HandleSearch`, which
        does not write the box, so typing is not recorded here. */
    var searchValue: string
    /** The suggestion list's entries and whether it is shown. */
    var suggestions: seq<Category>
    var suggestionsShown: bool

    /** The cards shown are always some of the categories, in their order. */
    ghost predicate Valid()
      reads this
    {
      IsSubsequence(filteredCategories, categories)
    }

    /** The page as loaded: every category shown, an empty box. */
    constructor (all: seq<Category>)
      ensures Valid()
      ensures categories == all && filteredCategories == all
      ensures searchValue == "" && suggestions == [] && !suggestionsShown
    {
      categories := all;
      filteredCategories := all;
      searchValue := "";
      suggestions := [];
      suggestionsShown := false;
      new;
      SubsequenceReflexive(all);
    }

    /** `handleSearch(query)`. The empty query restores every category and
        hides the suggestions; any other narrows the cards and shows the
        suggestions. `noResults` is the "No categories found" message. */
    method HandleSearch(query: string) returns (noResults: bool)
      requires Valid()
      modifies this
      ensures Valid()
      ensures query == [] ==> filteredCategories == categories && !suggestionsShown && suggestions == old(suggestions)
      ensures query != [] ==>
        && filteredCategories == QueryResults(categories, query)
        && suggestions == Suggestions(categories, query)
        && suggestionsShown
      ensures noResults <==> query != [] && filteredCategories == []
      ensures searchValue == old(searchValue)
    {
      if |query| == 0 {
        suggestionsShown := false;
        filteredCategories := categories;
        SubsequenceReflexive(categories);
        return false;
      }
      filteredCategories := Filter(categories, QueryStep(query));
      QueryResultsSpec(categories, query);
      suggestions := Suggestions(categories, query);
      suggestionsShown := true;
      noResults := |filteredCategories| == 0;
    }

    /** `clearSearch()`: empties the box, shows every category and hides the suggestions. */
    method ClearSearch()
      modifies this
      ensures Valid()
      ensures searchValue == "" && filteredCategories == categories && !suggestionsShown
      ensures suggestions == old(suggestions)
    {
      searchValue := "";
      filteredCategories := categories;
      SubsequenceReflexive(categories);
      suggestionsShown := false;
    }

    /** `selectCategory(id)`: a known id puts its title in the box and
        navigates to it (`navigated`); the suggestions are hidden either way,
        and nothing else changes. */
    method SelectCategory(id: string) returns (navigated: Option<Category>)
      requires Valid()
      modifies this
      ensures Valid()
      ensures navigated == FindCategory(categories, id)
      ensures navigated.Some? ==> searchValue == navigated.value.title
      ensures navigated.None? ==> searchValue == old(searchValue)
      ensures !suggestionsShown
      ensures filteredCategories == old(filteredCategories) && suggestions == old(suggestions)
    {
      navigated := FindCategory(categories, id);
      if navigated.Some? {
        searchValue := navigated.value.title;
      }
      suggestionsShown := false;
    }
  }
}
