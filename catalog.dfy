/**
  The in-memory product source: the fixed twelve-item catalogue and the two
  lookups over it. The simulated network latency of the original (a timer
  before each promise resolves) is not modelled; each lookup is the value the
  promise resolves to.
 */
module Catalog {
  import opened Wrappers
  import opened Sequences

  /**
    A catalogue entry. Prices and ratings are decimal numbers in the original;
    they are kept exactly here as whole cents and tenths of a star. The image
    URL, which is only ever rendered, is not kept.
   */
  datatype Product = Product(
    id: int,
    name: string,
    description: string,
    priceCents: int,
    discount: int,
    category: string,
    ratingTenths: int,
    inStock: bool)

  /** The fixed sample catalogue, in declaration order. */
  const MockProducts: seq<Product> := [
    Product(
      id := 1,
      name := "Premium Wireless Headphones",
      description := "Experience crystal-clear sound with our premium wireless headphones. Features noise cancellation and 30-hour battery life.",
      priceCents := 24999,
      discount := 15,
      category := "electronics",
      ratingTenths := 48,
      inStock := true),
    Product(
      id := 2,
      name := "Ergonomic Office Chair",
      description := "Work in comfort with this ergonomic office chair. Adjustable height, lumbar support, and breathable mesh back.",
      priceCents := 19999,
      discount := 0,
      category := "furniture",
      ratingTenths := 45,
      inStock := true),
    Product(
      id := 3,
      name := "Smart Fitness Watch",
      description := "Track your fitness goals with this advanced smartwatch. Features heart rate monitoring, GPS, and water resistance.",
      priceCents := 17999,
      discount := 10,
      category := "electronics",
      ratingTenths := 46,
      inStock := true),
    Product(
      id := 4,
      name := "Organic Cotton T-Shirt",
      description := "Stay comfortable with this 100% organic cotton t-shirt. Eco-friendly, soft, and available in multiple colors.",
      priceCents := 2999,
      discount := 0,
      category := "clothing",
      ratingTenths := 43,
      inStock := true),
    Product(
      id := 5,
      name := "Professional DSLR Camera",
      description := "Capture stunning photos with this professional DSLR camera. 24.1 megapixels, 4K video recording, and interchangeable lenses.",
      priceCents := 89999,
      discount := 5,
      category := "electronics",
      ratingTenths := 49,
      inStock := false),
    Product(
      id := 6,
      name := "Stainless Steel Water Bottle",
      description := "Stay hydrated with this insulated stainless steel water bottle. Keeps drinks cold for 24 hours or hot for 12 hours.",
      priceCents := 3499,
      discount := 0,
      category := "kitchen",
      ratingTenths := 47,
      inStock := true),
    Product(
      id := 7,
      name := "Leather Messenger Bag",
      description := "Carry your essentials in style with this genuine leather messenger bag. Multiple compartments and adjustable strap.",
      priceCents := 14999,
      discount := 20,
      category := "accessories",
      ratingTenths := 44,
      inStock := true),
    Product(
      id := 8,
      name := "Smart Home Speaker",
      description := "Transform your home with this smart speaker. Voice control, premium sound quality, and smart home integration.",
      priceCents := 12999,
      discount := 15,
      category := "electronics",
      ratingTenths := 45,
      inStock := true),
    Product(
      id := 9,
      name := "Ceramic Coffee Mug Set",
      description := "Enjoy your morning coffee with this set of 4 ceramic mugs. Microwave and dishwasher safe.",
      priceCents := 3999,
      discount := 0,
      category := "kitchen",
      ratingTenths := 42,
      inStock := true),
    Product(
      id := 10,
      name := "Yoga Mat",
      description := "Practice yoga comfortably with this non-slip, eco-friendly yoga mat. 6mm thickness for joint protection.",
      priceCents := 4999,
      discount := 10,
      category := "fitness",
      ratingTenths := 46,
      inStock := true),
    Product(
      id := 11,
      name := "Mechanical Keyboard",
      description := "Enhance your typing experience with this mechanical keyboard. Customizable RGB lighting and tactile key switches.",
      priceCents := 8999,
      discount := 0,
      category := "electronics",
      ratingTenths := 47,
      inStock := true),
    Product(
      id := 12,
      name := "Scented Candle Set",
      description := "Create a relaxing atmosphere with this set of 3 scented candles. Made with natural soy wax and essential oils.",
      priceCents := 2499,
      discount := 0,
      category := "home",
      ratingTenths := 44,
      inStock := true)
  ]

  /** The ids of `ps`, in order. */
  function Ids(ps: seq<Product>): (r: seq<int>)
    ensures |r| == |ps| && forall i :: 0 <= i < |ps| ==> r[i] == ps[i].id
  {
    seq(|ps|, i requires 0 <= i < |ps| => ps[i].id)
  }

  /** `p` is the first product of `ps` whose id is `id`. */
  ghost predicate IsFirstWithId(ps: seq<Product>, id: int, p: Product) {
    exists k :: 0 <= k < |ps| && ps[k] == p && p.id == id && forall j :: 0 <= j < k ==> ps[j].id != id
  }

  /** `ps.find(p => p.id === id)`: the first product carrying `id`, or none. */
  function FindById(ps: seq<Product>, id: int): (r: Option<Product>)
    ensures r.None? <==> forall p :: p in ps ==> p.id != id
    ensures r.Some? ==> IsFirstWithId(ps, id, r.value)
    decreases |ps|
  {
    if ps == [] then None
    else if ps[0].id == id then Some(ps[0])
    else
      var r := FindById(ps[1..], id);
      assert ps == [ps[0]] + ps[1..];
      if r.Some? then FirstWithIdSkip(ps, id, r.value); r else r
  }

  /** Skipping a head whose id differs keeps `p` the first product with `id`. */
  lemma FirstWithIdSkip(ps: seq<Product>, id: int, p: Product)
    requires ps != [] && ps[0].id != id
    requires IsFirstWithId(ps[1..], id, p)
    ensures IsFirstWithId(ps, id, p)
  {
    var k :| 0 <= k < |ps[1..]| && ps[1..][k] == p && p.id == id
             && forall j :: 0 <= j < k ==> ps[1..][j].id != id;
    assert ps[k + 1] == p;
    forall j | 0 <= j < k + 1 ensures ps[j].id != id {
      if j > 0 { assert ps[j] == ps[1..][j - 1]; }
    }
  }

  /** The test `p => p.category === category`. */
  function HasCategory(category: string): Product -> bool {
    (p: Product) => p.category == category
  }

  /** `ps.filter(p => p.category === category)`. */
  function InCategory(ps: seq<Product>, category: string): (r: seq<Product>)
    ensures IsSubsequence(r, ps)
    ensures forall p :: p in r <==> p in ps && p.category == category
  {
    FilterIsSubsequence(ps, HasCategory(category));
    FilterMembership(ps, HasCategory(category));
    Filter(ps, HasCategory(category))
  }

  /** `fetchProducts()`: the whole catalogue. */
  function FetchProducts(): seq<Product> {
    MockProducts
  }

  /** `fetchProductById(id)`: the first catalogue product carrying `id`, or none. */
  function FetchProductById(id: int): (r: Option<Product>)
    ensures r.None? <==> forall p :: p in FetchProducts() ==> p.id != id
    ensures r.Some? ==> IsFirstWithId(FetchProducts(), id, r.value)
  {
    FindById(MockProducts, id)
  }

  /** `fetchProductsByCategory(category)`: the catalogue products with that category, in catalogue order. */
  function FetchProductsByCategory(category: string): (r: seq<Product>)
    ensures IsSubsequence(r, FetchProducts())
    ensures forall p :: p in r <==> p in FetchProducts() && p.category == category
  {
    InCategory(MockProducts, category)
  }

  /** The sample catalogue holds twelve products whose ids are 1 to 12 in order. */
  lemma MockIdsAreOneToTwelve()
    ensures Ids(FetchProducts()) == [1, 2, 3, 4, 5, 6, 7, 8, 9, 10, 11, 12]
  {
  }

  /** No two sample products share an id. */
  lemma MockIdsDistinct()
    ensures Distinct(Ids(FetchProducts()))
  {
    MockIdsAreOneToTwelve();
    NumberedByPosition(FetchProducts());
    NumberedIdsDistinct(FetchProducts());
  }

  /** A list numbered 1, 2, 3, ... by position has no repeated id. */
  lemma NumberedIdsDistinct(ps: seq<Product>)
    requires forall i :: 0 <= i < |ps| ==> ps[i].id == i + 1
    ensures Distinct(Ids(ps))
  {
  }

  /**
    In a list numbered 1, 2, 3, ... by position, looking up an id in range
    yields the product at that position, and any other id yields nothing.
   */
  lemma FindByIdNumbered(ps: seq<Product>, id: int)
    requires forall i :: 0 <= i < |ps| ==> ps[i].id == i + 1
    ensures 1 <= id <= |ps| ==> FindById(ps, id) == Some(ps[id - 1])
    ensures !(1 <= id <= |ps|) ==> FindById(ps, id) == None
  {
    var r := FindById(ps, id);
    if 1 <= id <= |ps| {
      assert ps[id - 1].id == id;
      var k :| 0 <= k < |ps| && ps[k] == r.value && r.value.id == id && forall j :: 0 <= j < k ==> ps[j].id != id;
      assert k == id - 1;
    } else {
      forall p | p in ps ensures p.id != id {
        var i :| 0 <= i < |ps| && ps[i] == p;
      }
    }
  }

  /** Looking up an id of the catalogue yields the product at that position; any other id yields nothing. */
  lemma FetchProductByIdExact(id: int)
    ensures 1 <= id <= 12 ==> FetchProductById(id) == Some(FetchProducts()[id - 1])
    ensures !(1 <= id <= 12) ==> FetchProductById(id) == None
  {
    MockIdsAreOneToTwelve();
    NumberedByPosition(FetchProducts());
    FindByIdNumbered(FetchProducts(), id);
  }

  /** A list whose ids read 1 to 12 is numbered by position. */
  lemma NumberedByPosition(ps: seq<Product>)
    requires Ids(ps) == [1, 2, 3, 4, 5, 6, 7, 8, 9, 10, 11, 12]
    ensures |ps| == 12 && forall i :: 0 <= i < |ps| ==> ps[i].id == i + 1
  {
    forall i | 0 <= i < |ps| ensures ps[i].id == i + 1 {
      assert Ids(ps)[i] == ps[i].id;
    }
  }

  /** One step of a filter over the catalogue, seen through the ids it keeps. */
  lemma IdsOfFilterStep(ps: seq<Product>, k: nat, keep: Product -> bool)
    requires k < |ps|
    ensures Ids(Filter(ps[k..], keep)) == (if keep(ps[k]) then [ps[k].id] else []) + Ids(Filter(ps[k + 1..], keep))
  {
    FilterSuffixStep(ps, k, keep);
    var head := if keep(ps[k]) then [ps[k]] else [];
    var rest := Filter(ps[k + 1..], keep);
    assert Ids(head + rest) == Ids(head) + Ids(rest);
  }

  /** The category labels of `ps`, in order. */
  function Labels(ps: seq<Product>): (r: seq<string>)
    ensures |r| == |ps| && forall i :: 0 <= i < |ps| ==> r[i] == ps[i].category
  {
    seq(|ps|, i requires 0 <= i < |ps| => ps[i].category)
  }

  /** The sample catalogue's category labels, in order. */
  lemma MockLabels()
    ensures Labels(FetchProducts()) == [
      "electronics", "furniture", "electronics", "clothing", "electronics", "kitchen",
      "accessories", "electronics", "kitchen", "fitness", "electronics", "home"]
  {
  }

  /** The tenth sample product is the yoga mat. */
  lemma MockYogaMat()
    ensures |FetchProducts()| == 12 && FetchProducts()[9].id == 10 && FetchProducts()[9].name == "Yoga Mat"
  {
  }

  /** Filtering the catalogue by "electronics" yields products 1, 3, 5, 8 and 11, in that order. */
  lemma ElectronicsScenario()
    ensures Ids(FetchProductsByCategory("electronics")) == [1, 3, 5, 8, 11]
  {
    MockElectronicsPattern();
    PatternIds(MockProducts, HasCategory("electronics"));
  }

  /**
    Products numbered 1 to 12 by position, of which exactly those at
    positions 0, 2, 4, 7 and 10 pass `keep`, as the electronics ones do in
    the sample catalogue.
   */
  ghost predicate ElectronicsPattern(ps: seq<Product>, keep: Product -> bool) {
    |ps| == 12
    && (forall i :: 0 <= i < 12 ==> ps[i].id == i + 1)
    && (forall i :: 0 <= i < 12 ==> (keep(ps[i]) <==> i == 0 || i == 2 || i == 4 || i == 7 || i == 10))
  }

  /** The filter over the last four products of the pattern. */
  lemma PatternFromEight(ps: seq<Product>, keep: Product -> bool)
    requires ElectronicsPattern(ps, keep)
    ensures Ids(Filter(ps[8..], keep)) == [11]
  {
    assert ps[12..] == [];
    IdsOfFilterStep(ps, 11, keep);
    IdsOfFilterStep(ps, 10, keep);
    IdsOfFilterStep(ps, 9, keep);
    IdsOfFilterStep(ps, 8, keep);
  }

  /** The same over the last eight. */
  lemma PatternFromFour(ps: seq<Product>, keep: Product -> bool)
    requires ElectronicsPattern(ps, keep)
    ensures Ids(Filter(ps[4..], keep)) == [5, 8, 11]
  {
    PatternFromEight(ps, keep);
    IdsOfFilterStep(ps, 7, keep);
    IdsOfFilterStep(ps, 6, keep);
    IdsOfFilterStep(ps, 5, keep);
    IdsOfFilterStep(ps, 4, keep);
  }

  /** The same over all twelve. */
  lemma PatternIds(ps: seq<Product>, keep: Product -> bool)
    requires ElectronicsPattern(ps, keep)
    ensures Ids(Filter(ps, keep)) == [1, 3, 5, 8, 11]
  {
    PatternFromFour(ps, keep);
    IdsOfFilterStep(ps, 3, keep);
    IdsOfFilterStep(ps, 2, keep);
    IdsOfFilterStep(ps, 1, keep);
    IdsOfFilterStep(ps, 0, keep);
    assert ps[0..] == ps;
  }

  /** The sample catalogue follows the pattern for the electronics test. */
  lemma MockElectronicsPattern()
    ensures ElectronicsPattern(FetchProducts(), HasCategory("electronics"))
  {
    MockIdsAreOneToTwelve();
    NumberedByPosition(MockProducts);
    MockLabels();
    var labels := Labels(MockProducts);
    assert "accessories"[0] != "electronics"[0];
    forall i | 0 <= i < 12
      ensures HasCategory("electronics")(MockProducts[i]) <==> i == 0 || i == 2 || i == 4 || i == 7 || i == 10
    {
      assert MockProducts[i].category == labels[i];
    }
  }
}
