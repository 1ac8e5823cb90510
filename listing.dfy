/**
  The product listing page: its six pieces of state, the one-shot load of the
  catalogue, the setters its controls call, and the two views it derives on
  every render, the filtered product list and the category pills.
 */
module Listing {
  import opened Wrappers
  import opened Sequences
  import opened Catalog

  /** Lower-case mapping of one character; only the ASCII letters are mapped. */
  function LowerChar(c: char): char {
    if 'A' <= c <= 'Z' then (c as int + 32) as char else c
  }

  /** `s.toLowerCase()`, restricted to ASCII letters. */
  function ToLower(s: string): (r: string)
    ensures |r| == |s|
    ensures forall i :: 0 <= i < |s| ==> !('A' <= r[i] <= 'Z')
    ensures forall i :: 0 <= i < |s| ==> ('A' <= s[i] <= 'Z' || r[i] == s[i])
    ensures forall i :: 0 <= i < |s| && 'A' <= s[i] <= 'Z' ==> r[i] as int == s[i] as int + 32
  {
    seq(|s|, i requires 0 <= i < |s| => LowerChar(s[i]))
  }

  /** `q` occurs in `s` starting at position `i`. */
  predicate OccursAt(s: string, q: string, i: nat) {
    i + |q| <= |s| && s[i..i + |q|] == q
  }

  /** `s.includes(q)`: `q` occurs in `s` at some position. */
  predicate Includes(s: string, q: string) {
    exists i: nat :: i <= |s| && OccursAt(s, q, i)
  }

  /**
    The category test. A missing or empty active category is falsy in the
    original and lets every product through.
   */
  predicate MatchesCategory(p: Product, activeCategory: Option<string>) {
    activeCategory.None? || activeCategory.value == "" || p.category == activeCategory.value
  }

  /** The search test: an empty query, or a case-insensitive hit in the name or the description. */
  predicate MatchesSearch(p: Product, searchQuery: string) {
    searchQuery == ""
    || Includes(ToLower(p.name), ToLower(searchQuery))
    || Includes(ToLower(p.description), ToLower(searchQuery))
  }

  /** Lower-casing twice is lower-casing once. */
  lemma ToLowerIdempotent(s: string)
    ensures ToLower(ToLower(s)) == ToLower(s)
  {
    assert forall i :: 0 <= i < |s| ==> ToLower(ToLower(s))[i] == ToLower(s)[i];
  }

  /** The search ignores the case of the query: typing it in upper or lower case shows the same products. */
  lemma SearchIgnoresQueryCase(p: Product, searchQuery: string)
    ensures MatchesSearch(p, ToLower(searchQuery)) == MatchesSearch(p, searchQuery)
  {
    ToLowerIdempotent(searchQuery);
  }

  /** Lower-casing distributes over concatenation. */
  lemma ToLowerAppend(a: string, b: string)
    ensures ToLower(a + b) == ToLower(a) + ToLower(b)
  {
    assert forall i :: 0 <= i < |a + b| ==> ToLower(a + b)[i] == (ToLower(a) + ToLower(b))[i];
  }

  /**
    Lower-cased text holds no lower-case letter `c` when the text holds
    neither `c` nor its upper-case form.
   */
  lemma LowerLacksLetter(s: string, c: char)
    requires 'a' <= c <= 'z'
    requires c !in s && (c as int - 32) as char !in s
    ensures c !in ToLower(s)
  {
    forall i | 0 <= i < |s| ensures ToLower(s)[i] != c {
      if 'A' <= s[i] <= 'Z' {
        assert s[i] != (c as int - 32) as char;
      }
    }
  }

  /** Text that lacks one of the query's characters does not include the query. */
  lemma LacksCharNoHit(s: string, q: string, k: nat)
    requires k < |q| && q[k] !in s
    ensures !Includes(s, q)
  {
    forall i: nat | i <= |s| ensures !OccursAt(s, q, i) {
      if i + |q| <= |s| {
        assert s[i..i + |q|][k] == s[i + k];
      }
    }
  }

  /**
    A query without spaces occurs in `a + " " + b` only if it occurs in `a`
    or in `b`: no occurrence can straddle the space.
   */
  lemma SpaceSplitNoHit(a: string, b: string, q: string)
    requires ' ' !in q
    requires !Includes(a, q) && !Includes(b, q)
    ensures !Includes(a + " " + b, q)
  {
    var s := a + " " + b;
    forall i: nat | i <= |s| ensures !OccursAt(s, q, i) {
      if i + |q| <= |s| {
        if i + |q| <= |a| {
          assert s[i..i + |q|] == a[i..i + |q|];
          assert !OccursAt(a, q, i);
        } else if i > |a| {
          assert s[i..i + |q|] == b[i - |a| - 1..i - |a| - 1 + |q|];
          assert !OccursAt(b, q, i - |a| - 1);
        } else {
          assert s[i..i + |q|][|a| - i] == s[|a|] == ' ';
        }
      }
    }
  }

  /**
    A lower-case query without spaces is not found in the lower-cased text
    `s == a + " " + b` when it is found in neither lower-cased part.
   */
  lemma SplitNoMatch(s: string, a: string, b: string, q: string)
    requires s == a + " " + b && ' ' !in q
    requires !Includes(ToLower(a), q) && !Includes(ToLower(b), q)
    ensures !Includes(ToLower(s), q)
  {
    ToLowerAppend(a + " ", b);
    ToLowerAppend(a, " ");
    assert ToLower(" ") == " ";
    SpaceSplitNoHit(ToLower(a), ToLower(b), q);
  }

  /**
    A lower-case query is not found in the lower-cased text when the text
    holds its `k`-th letter in neither case.
   */
  lemma MissingLetterNoMatch(s: string, q: string, k: nat)
    requires k < |q| && 'a' <= q[k] <= 'z'
    requires q[k] !in s && (q[k] as int - 32) as char !in s
    ensures !Includes(ToLower(s), q)
  {
    LowerLacksLetter(s, q[k]);
    LacksCharNoHit(ToLower(s), q, k);
  }

  /** The predicate handed to `products.filter`. */
  function Passes(activeCategory: Option<string>, searchQuery: string): Product -> bool {
    (p: Product) => MatchesCategory(p, activeCategory) && MatchesSearch(p, searchQuery)
  }

  /**
    `filteredProducts`: the products that pass both tests, in catalogue order.
   */
  function FilteredProducts(products: seq<Product>, activeCategory: Option<string>, searchQuery: string): (r: seq<Product>)
    ensures IsSubsequence(r, products)
    ensures forall p :: p in r <==>
      p in products && MatchesCategory(p, activeCategory) && MatchesSearch(p, searchQuery)
  {
    FilterIsSubsequence(products, Passes(activeCategory, searchQuery));
    FilterMembership(products, Passes(activeCategory, searchQuery));
    Filter(products, Passes(activeCategory, searchQuery))
  }

  /**
    `categories`: the distinct category labels of `products`; the order is
    stated by `CategoriesInFirstOccurrenceOrder`.
   */
  function Categories(products: seq<Product>): (r: seq<string>)
    ensures Distinct(r)
    ensures forall c :: c in r <==> exists p :: p in products && p.category == c
  {
    var labels := Labels(products);
    assert forall c :: c in labels <==> exists p :: p in products && p.category == c by {
      forall c ensures c in labels <==> exists p :: p in products && p.category == c {
        if c in labels {
          var i :| 0 <= i < |labels| && labels[i] == c;
          assert products[i] in products;
        }
        if p :| p in products && p.category == c {
          var i :| 0 <= i < |products| && products[i] == p;
          assert labels[i] == c;
        }
      }
    }
    DedupDistinctMembers(labels);
    Dedup(labels)
  }

  /** The category pills come in the order in which their first product appears. */
  lemma CategoriesInFirstOccurrenceOrder(products: seq<Product>)
    ensures InFirstOccurrenceOrder(Categories(products), Labels(products))
  {
    DedupFirstOccurrenceOrder(Labels(products));
  }

  /** Filters built from tests that agree on every product agree. */
  lemma {:induction false} FilterSameTest(s: seq<Product>, f: Product -> bool, g: Product -> bool)
    requires forall p :: f(p) == g(p)
    ensures Filter(s, f) == Filter(s, g)
    decreases |s|
  {
    if s != [] {
      FilterSameTest(s[1..], f, g);
    }
  }

  /** With no category and no query, the page shows every product, in order. */
  lemma NoFilterShowsAll(products: seq<Product>)
    ensures FilteredProducts(products, None, "") == products
  {
    FilterAllPass(products, Passes(None, ""));
  }

  /** An empty category label filters exactly like no category at all. */
  lemma EmptyCategoryLabelShowsAll(products: seq<Product>, searchQuery: string)
    ensures FilteredProducts(products, Some(""), searchQuery) == FilteredProducts(products, None, searchQuery)
  {
    FilterSameTest(products, Passes(Some(""), searchQuery), Passes(None, searchQuery));
  }

  /** With only a category set, the page shows what the catalogue's category lookup returns. */
  lemma CategoryOnlyIsCategoryLookup(products: seq<Product>, category: string)
    requires category != ""
    ensures FilteredProducts(products, Some(category), "") == InCategory(products, category)
  {
    FilterSameTest(products, Passes(Some(category), ""), HasCategory(category));
  }

  /** The two tests compose: category first, then search, keeps exactly what both together keep. */
  lemma CategoryThenSearch(products: seq<Product>, activeCategory: Option<string>, searchQuery: string)
    ensures FilteredProducts(FilteredProducts(products, activeCategory, ""), None, searchQuery)
         == FilteredProducts(products, activeCategory, searchQuery)
  {
    FilterConjunction(products, Passes(activeCategory, ""), Passes(None, searchQuery), Passes(activeCategory, searchQuery));
  }

  /** And in the other order: search first, then category. */
  lemma SearchThenCategory(products: seq<Product>, activeCategory: Option<string>, searchQuery: string)
    ensures FilteredProducts(FilteredProducts(products, None, searchQuery), activeCategory, "")
         == FilteredProducts(products, activeCategory, searchQuery)
  {
    FilterConjunction(products, Passes(None, searchQuery), Passes(activeCategory, ""), Passes(activeCategory, searchQuery));
  }

  /** On the sample catalogue, the "electronics" pill shows products 1, 3, 5, 8 and 11, in that order. */
  lemma ElectronicsPill()
    ensures Ids(FilteredProducts(FetchProducts(), Some("electronics"), "")) == [1, 3, 5, 8, 11]
  {
    CategoryOnlyIsCategoryLookup(FetchProducts(), "electronics");
    ElectronicsScenario();
  }

  /** On the sample catalogue, a search for "yoga" shows the yoga mat (product 10). */
  lemma YogaFindsMat()
    ensures exists p :: p in FilteredProducts(FetchProducts(), None, "yoga") && p.id == 10
  {
    MockYogaMat();
    YogaFindsMatIn(FetchProducts());
  }

  /** A "yoga" search over any catalogue whose tenth entry is the sample yoga mat. */
  lemma YogaFindsMatIn(ps: seq<Product>)
    requires |ps| == 12 && ps[9].id == 10 && ps[9].name == "Yoga Mat"
    ensures exists p :: p in FilteredProducts(ps, None, "yoga") && p.id == 10
  {
    var mat := ps[9];
    assert ToLower("yoga") == "yoga";
    assert ToLower(mat.name)[0..4] == "yoga";
    assert OccursAt(ToLower(mat.name), ToLower("yoga"), 0);
    assert mat in FilteredProducts(ps, None, "yoga");
  }

  /** On the sample catalogue the pills read, in order, the seven labels as first met. */
  lemma SamplePills()
    ensures Categories(FetchProducts()) == ["electronics", "furniture", "clothing", "kitchen", "accessories", "fitness", "home"]
  {
    MockLabels();
    SampleLabelsDedup();
  }

  /** De-duplicating the sample catalogue's labels. */
  lemma SampleLabelsDedup()
    ensures Dedup(["electronics", "furniture", "electronics", "clothing", "electronics", "kitchen", "accessories", "electronics", "kitchen", "fitness", "electronics", "home"])
         == ["electronics", "furniture", "clothing", "kitchen", "accessories", "fitness", "home"]
  {
    var labels: seq<string> := ["electronics", "furniture", "electronics", "clothing", "electronics", "kitchen", "accessories", "electronics", "kitchen", "fitness", "electronics", "home"];
    var pills: seq<string> := ["electronics", "furniture", "clothing", "kitchen", "accessories", "fitness", "home"];
    assert pills[0][0] != pills[4][0] && pills[1][1] != pills[5][1] && pills[3][0] != pills[5][0];
    LabelPatternFour(labels, pills[0], pills[1], pills[2], pills[3], pills[4], pills[5], pills[6]);
    LabelPatternEight(labels, pills[0], pills[1], pills[2], pills[3], pills[4], pills[5], pills[6]);
    LabelPatternTwelve(labels, pills[0], pills[1], pills[2], pills[3], pills[4], pills[5], pills[6]);
    assert labels[..12] == labels;
  }

  /**
    The sample catalogue's pattern of labels over seven distinct labels: the
    Set receives them as e, f, e, c, e, k, a, e, k, t, e, h.
   */
  ghost predicate SamplePattern<T>(labels: seq<T>, e: T, f: T, c: T, k: T, a: T, t: T, h: T) {
    && e != f && e != c && e != k && e != a && e != t && e != h
    && f != c && f != k && f != a && f != t && f != h
    && c != k && c != a && c != t && c != h
    && k != a && k != t && k != h
    && a != t && a != h && t != h
    && |labels| == 12
    && labels[0] == e && labels[1] == f && labels[2] == e && labels[3] == c
    && labels[4] == e && labels[5] == k && labels[6] == a && labels[7] == e
    && labels[8] == k && labels[9] == t && labels[10] == e && labels[11] == h
  }

  /** The Set after the first four labels of the pattern. */
  lemma LabelPatternFour<T>(labels: seq<T>, e: T, f: T, c: T, k: T, a: T, t: T, h: T)
    requires SamplePattern(labels, e, f, c, k, a, t, h)
    ensures Dedup(labels[..4]) == [e, f, c]
  {
    LabelPatternTwo(labels, e, f, c, k, a, t, h);
    DedupPrefixStep(labels, 2);
    assert Dedup(labels[..3]) == [e, f];
    DedupPrefixStep(labels, 3);
  }

  /** The Set after the first two labels of the pattern. */
  lemma LabelPatternTwo<T>(labels: seq<T>, e: T, f: T, c: T, k: T, a: T, t: T, h: T)
    requires SamplePattern(labels, e, f, c, k, a, t, h)
    ensures Dedup(labels[..2]) == [e, f]
  {
    assert labels[..0] == [];
    DedupPrefixStep(labels, 0);
    assert Dedup(labels[..1]) == [e];
    DedupPrefixStep(labels, 1);
  }

  /** The Set after the first eight labels of the pattern. */
  lemma LabelPatternEight<T>(labels: seq<T>, e: T, f: T, c: T, k: T, a: T, t: T, h: T)
    requires SamplePattern(labels, e, f, c, k, a, t, h)
    requires Dedup(labels[..4]) == [e, f, c]
    ensures Dedup(labels[..8]) == [e, f, c, k, a]
  {
    DedupPrefixStep(labels, 4);
    assert Dedup(labels[..5]) == [e, f, c];
    DedupPrefixStep(labels, 5);
    assert Dedup(labels[..6]) == [e, f, c, k];
    DedupPrefixStep(labels, 6);
    assert Dedup(labels[..7]) == [e, f, c, k, a];
    DedupPrefixStep(labels, 7);
  }

  /** The Set after all twelve labels of the pattern. */
  lemma LabelPatternTwelve<T>(labels: seq<T>, e: T, f: T, c: T, k: T, a: T, t: T, h: T)
    requires SamplePattern(labels, e, f, c, k, a, t, h)
    requires Dedup(labels[..8]) == [e, f, c, k, a]
    ensures Dedup(labels[..12]) == [e, f, c, k, a, t, h]
  {
    DedupPrefixStep(labels, 8);
    assert Dedup(labels[..9]) == [e, f, c, k, a];
    DedupPrefixStep(labels, 9);
    assert Dedup(labels[..10]) == [e, f, c, k, a, t];
    DedupPrefixStep(labels, 10);
    assert Dedup(labels[..11]) == [e, f, c, k, a, t];
    DedupPrefixStep(labels, 11);
  }

  /** The two layouts of the listing. */
  datatype ViewMode = Grid | List

  /** How the one product fetch settles: with the catalogue, or with an error. */
  datatype FetchResult = Fetched(data: seq<Product>) | FetchFailed(error: string)

  /** The state of one mounted products page. */
  class ProductsPage {
    var products: seq<Product>
    var isLoading: bool
    var viewMode: ViewMode
    var showFilters: bool
    var activeCategory: Option<string>
    var searchQuery: string

    /** Mounting: nothing loaded yet, the loading skeleton shown, grid layout, filters hidden, no filter set. */
    constructor ()
      ensures products == [] && isLoading
      ensures viewMode == Grid && !showFilters
      ensures activeCategory == None && searchQuery == ""
    {
      products := [];
      isLoading := true;
      viewMode := Grid;
      showFilters := false;
      activeCategory := None;
      searchQuery := "";
    }

    /** The products the page lists under the current filters. */
    function Shown(): (r: seq<Product>)
      reads this
      ensures IsSubsequence(r, products)
      ensures forall p :: p in r <==>
        p in products && MatchesCategory(p, activeCategory) && MatchesSearch(p, searchQuery)
    {
      FilteredProducts(products, activeCategory, searchQuery)
    }

    /** The category pills under the current product list. */
    function Pills(): (r: seq<string>)
      reads this
      ensures Distinct(r)
      ensures forall c :: c in r <==> exists p :: p in products && p.category == c
    {
      Categories(products)
    }

    /**
      `loadProducts`: raise the loading flag, store the fetched list if the
      fetch succeeded (a failure is only logged), and lower the flag whichever
      way the fetch settled.
     */
    method LoadProducts(fetched: FetchResult)
      modifies this
      ensures !isLoading
      ensures products == if fetched.Fetched? then fetched.data else old(products)
      ensures viewMode == old(viewMode) && showFilters == old(showFilters)
      ensures activeCategory == old(activeCategory) && searchQuery == old(searchQuery)
    {
      isLoading := true;
      match fetched {
        case Fetched(data) =>
          products := data;
        case FetchFailed(_) =>
      }
      isLoading := false;
    }

    /** The search box's change handler. */
    method SetSearchQuery(text: string)
      modifies this
      ensures searchQuery == text
      ensures products == old(products) && isLoading == old(isLoading) && viewMode == old(viewMode)
      ensures showFilters == old(showFilters) && activeCategory == old(activeCategory)
    {
      searchQuery := text;
    }

    /** The Filters button: show the sidebar if hidden, hide it if shown. */
    method ToggleFilters()
      modifies this
      ensures showFilters == !old(showFilters)
      ensures products == old(products) && isLoading == old(isLoading) && viewMode == old(viewMode)
      ensures activeCategory == old(activeCategory) && searchQuery == old(searchQuery)
    {
      showFilters := !showFilters;
    }

    /** The grid and list buttons. */
    method SetViewMode(mode: ViewMode)
      modifies this
      ensures viewMode == mode
      ensures products == old(products) && isLoading == old(isLoading) && showFilters == old(showFilters)
      ensures activeCategory == old(activeCategory) && searchQuery == old(searchQuery)
    {
      viewMode := mode;
    }

    /** The category pills ("All" passes no category) and the sidebar's category radios. */
    method SetActiveCategory(category: Option<string>)
      modifies this
      ensures activeCategory == category
      ensures products == old(products) && isLoading == old(isLoading) && viewMode == old(viewMode)
      ensures showFilters == old(showFilters) && searchQuery == old(searchQuery)
    {
      activeCategory := category;
    }
  }

  /** Mount, let the fetch fail, then set any filters: nothing is listed and the skeleton is gone. */
  method MountWithFailedFetch(category: Option<string>, query: string) returns (shown: seq<Product>, loading: bool)
    ensures shown == [] && !loading
  {
    var page := new ProductsPage();
    page.LoadProducts(FetchFailed("network error"));
    page.SetActiveCategory(category);
    page.SetSearchQuery(query);
    shown, loading := page.Shown(), page.isLoading;
  }

  /** Mount, load the sample catalogue, pick "electronics" twice: products 1, 3, 5, 8 and 11 are listed. */
  method MountAndPickElectronics() returns (ids: seq<int>, pills: seq<string>)
    ensures ids == [1, 3, 5, 8, 11]
    ensures pills == ["electronics", "furniture", "clothing", "kitchen", "accessories", "fitness", "home"]
  {
    var page := new ProductsPage();
    page.LoadProducts(Fetched(FetchProducts()));
    page.SetActiveCategory(Some("electronics"));
    page.SetActiveCategory(Some("electronics"));
    ElectronicsPill();
    SamplePills();
    ids := Ids(page.Shown());
    pills := page.Pills();
  }
}
