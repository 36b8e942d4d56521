/** The hotel dashboard's computed figures: the number of active products, the five top-rated
    products (taken after sorting the shared catalog array in place by rating), and per health
    category the products in it, their average suitability and the number of high matches. */
module Dashboard {
  import opened Options
  import opened Storefront
  import opened Ranking

  const TopLimit: nat := 5

  /** The "High Match" figure counts scores from this value upwards. */
  const HighMatchFrom: int := 80

  function RatingKey(p: Product): real {
    p.rating
  }

  function Min(a: nat, b: nat): nat {
    if a < b then a else b
  }

  /** `products.sort((a, b) => b.rating - a.rating).slice(0, 5)`: the catalog array itself is
      reordered by non-increasing rating (stable), and its first five products are returned. */
  method TopProducts(catalog: array<Product>) returns (top: seq<Product>)
    modifies catalog
    ensures catalog[..] == SortDesc(old(catalog[..]), RatingKey)
    ensures top == catalog[..Min(catalog.Length, TopLimit)]
  {
    var sorted := SortDesc(catalog[..], RatingKey);
    for i := 0 to catalog.Length
      invariant forall k :: 0 <= k < i ==> catalog[k] == sorted[k]
    {
      catalog[i] := sorted[i];
    }
    assert catalog[..] == sorted;
    top := catalog[..Min(catalog.Length, TopLimit)];
  }

  /** The top list has at most five products, by non-increasing rating, all from the catalog,
      and none of the products left out is rated higher than one of those shown. */
  lemma TopProductsAreTopRated(catalog: seq<Product>)
    ensures var sorted := SortDesc(catalog, RatingKey);
      var top := sorted[..Min(|catalog|, TopLimit)];
      && |top| <= TopLimit
      && SortedDesc(top, RatingKey)
      && (forall p :: p in top ==> p in catalog)
      && (forall i, j :: 0 <= i < |top| && |top| <= j < |sorted| ==> sorted[j].rating <= top[i].rating)
  {
    var sorted := SortDesc(catalog, RatingKey);
    SortDescSorted(catalog, RatingKey);
    SortedPrefix(sorted, RatingKey, Min(|catalog|, TopLimit));
    SortDescPrefixMembers(catalog, RatingKey, Min(|catalog|, TopLimit));
  }

  /** `products.filter(p => p.categories.includes(slug))`. */
  function CatProducts(catalog: seq<Product>, slug: string): (r: seq<Product>)
    ensures |r| <= |catalog|
    ensures forall p :: p in r <==> p in catalog && slug in p.categories
  {
    if catalog == [] then []
    else (if slug in catalog[0].categories then [catalog[0]] else []) + CatProducts(catalog[1..], slug)
  }

  /** The filter keeps catalog order: filtering a concatenation concatenates the filtered parts. */
  lemma {:induction false} CatProductsConcat(a: seq<Product>, b: seq<Product>, slug: string)
    ensures CatProducts(a + b, slug) == CatProducts(a, slug) + CatProducts(b, slug)
    decreases |a|
  {
    if a == [] {
      assert a + b == b;
    } else {
      CatProductsConcat(a[1..], b, slug);
      assert (a + b)[1..] == a[1..] + b;
    }
  }

  /** `catProducts.reduce((sum, p) => sum + (p.suitability[slug] || 0), 0)`. */
  function SuitabilityTotal(ps: seq<Product>, slug: string): int {
    if ps == [] then 0 else SuitabilityFor(ps[0], slug) + SuitabilityTotal(ps[1..], slug)
  }

  function HighMatches(ps: seq<Product>, slug: string): (r: seq<Product>)
    ensures |r| <= |ps|
  {
    if ps == [] then []
    else (if SuitabilityFor(ps[0], slug) >= HighMatchFrom then [ps[0]] else []) + HighMatches(ps[1..], slug)
  }

  /** One category panel: product count, average suitability (absent when the category is empty,
      where the source divides zero by zero), and the high-match count. */
  datatype CategoryStats = CategoryStats(count: nat, avgSuitability: Option<real>, highMatch: nat)

  function Stats(catalog: seq<Product>, slug: string): (r: CategoryStats)
    ensures r.count <= |catalog|
    ensures r.avgSuitability.None? <==> r.count == 0
    ensures r.highMatch <= r.count
  {
    var cat := CatProducts(catalog, slug);
    CategoryStats(
      |cat|,
      if |cat| == 0 then None else Some(SuitabilityTotal(cat, slug) as real / |cat| as real),
      |HighMatches(cat, slug)|)
  }

  datatype DashboardView = DashboardView(activeProducts: nat, top: seq<Product>, stats: seq<CategoryStats>)

  /** The page in source order: the product count, then the in-place sort for the top list, then
      the category panels, which therefore read the re-ordered catalog. */
  method RenderDashboard(catalog: array<Product>, slugs: seq<string>) returns (view: DashboardView)
    modifies catalog
    ensures catalog[..] == SortDesc(old(catalog[..]), RatingKey)
    ensures view.activeProducts == catalog.Length
    ensures view.top == catalog[..Min(catalog.Length, TopLimit)]
    ensures |view.stats| == |slugs|
    ensures forall i :: 0 <= i < |slugs| ==> view.stats[i] == Stats(catalog[..], slugs[i])
  {
    var active := catalog.Length;
    var top := TopProducts(catalog);
    var stats := CategoryPanels(catalog[..], slugs);
    view := DashboardView(active, top, stats);
  }

  /** `categories.map(cat => ...)`: one panel per category, in the order of the categories. */
  method CategoryPanels(catalog: seq<Product>, slugs: seq<string>) returns (stats: seq<CategoryStats>)
    ensures |stats| == |slugs|
    ensures forall i :: 0 <= i < |slugs| ==> stats[i] == Stats(catalog, slugs[i])
  {
    stats := [];
    for i := 0 to |slugs|
      invariant |stats| == i
      invariant forall k :: 0 <= k < i ==> stats[k] == Stats(catalog, slugs[k])
    {
      stats := stats + [Stats(catalog, slugs[i])];
    }
  }

  // ---------------------------------------------------------------------------------------
  // The category figures do not depend on the catalog's order
  // ---------------------------------------------------------------------------------------

  function InCategory(p: Product, slug: string): int {
    if slug in p.categories then 1 else 0
  }

  function CategoryScore(p: Product, slug: string): int {
    if slug in p.categories then SuitabilityFor(p, slug) else 0
  }

  function CategoryHigh(p: Product, slug: string): int {
    if slug in p.categories && SuitabilityFor(p, slug) >= HighMatchFrom then 1 else 0
  }

  function SumBy(ps: seq<Product>, slug: string, f: (Product, string) -> int): int {
    if ps == [] then 0 else f(ps[0], slug) + SumBy(ps[1..], slug, f)
  }

  lemma {:induction false} SumByConcat(a: seq<Product>, b: seq<Product>, slug: string, f: (Product, string) -> int)
    ensures SumBy(a + b, slug, f) == SumBy(a, slug, f) + SumBy(b, slug, f)
    decreases |a|
  {
    if a == [] {
      assert a + b == b;
    } else {
      SumByConcat(a[1..], b, slug, f);
      assert (a + b)[1..] == a[1..] + b;
    }
  }

  lemma SumByRemove(b: seq<Product>, k: nat, slug: string, f: (Product, string) -> int)
    requires k < |b|
    ensures SumBy(b, slug, f) == f(b[k], slug) + SumBy(b[..k] + b[k + 1..], slug, f)
  {
    assert b == b[..k] + [b[k]] + b[k + 1..];
    SumByConcat(b[..k] + [b[k]], b[k + 1..], slug, f);
    SumByConcat(b[..k], [b[k]], slug, f);
    SumByConcat(b[..k], b[k + 1..], slug, f);
    assert SumBy([b[k]], slug, f) == f(b[k], slug) + SumBy([], slug, f);
  }

  lemma MultisetRemove(a: seq<Product>, b: seq<Product>, k: nat)
    requires multiset(a) == multiset(b) && a != [] && k < |b| && b[k] == a[0]
    ensures multiset(a[1..]) == multiset(b[..k] + b[k + 1..])
  {
    assert b == b[..k] + [b[k]] + b[k + 1..];
    assert a == [a[0]] + a[1..];
    assert multiset(b[..k] + b[k + 1..]) == multiset(b) - multiset{a[0]};
  }

  /** A sum over the products depends only on which products there are, not on their order. */
  lemma {:induction false} SumByPermutation(a: seq<Product>, b: seq<Product>, slug: string, f: (Product, string) -> int)
    requires multiset(a) == multiset(b)
    ensures SumBy(a, slug, f) == SumBy(b, slug, f)
    decreases |a|
  {
    if a == [] {
      assert |b| == |multiset(b)| == 0;
    } else {
      assert a[0] in multiset(b);
      var k :| 0 <= k < |b| && b[k] == a[0];
      MultisetRemove(a, b, k);
      SumByPermutation(a[1..], b[..k] + b[k + 1..], slug, f);
      SumByRemove(b, k, slug, f);
    }
  }

  lemma {:induction false} StatsAsSums(ps: seq<Product>, slug: string)
    ensures |CatProducts(ps, slug)| == SumBy(ps, slug, InCategory)
    ensures SuitabilityTotal(CatProducts(ps, slug), slug) == SumBy(ps, slug, CategoryScore)
    ensures |HighMatches(CatProducts(ps, slug), slug)| == SumBy(ps, slug, CategoryHigh)
    decreases |ps|
  {
    if ps != [] {
      StatsAsSums(ps[1..], slug);
      var head := if slug in ps[0].categories then [ps[0]] else [];
      var cat := CatProducts(ps, slug);
      assert cat == head + CatProducts(ps[1..], slug);
      if slug in ps[0].categories {
        assert cat[0] == ps[0] && cat[1..] == CatProducts(ps[1..], slug);
      } else {
        assert cat == CatProducts(ps[1..], slug);
      }
    }
  }

  /** Sorting the catalog in place before the category panels are computed does not change any
      of their figures: they agree with those of the catalog in its original order. */
  lemma StatsIgnoreOrder(a: seq<Product>, b: seq<Product>, slug: string)
    requires multiset(a) == multiset(b)
    ensures Stats(a, slug) == Stats(b, slug)
  {
    StatsAsSums(a, slug);
    StatsAsSums(b, slug);
    SumByPermutation(a, b, slug, InCategory);
    SumByPermutation(a, b, slug, CategoryScore);
    SumByPermutation(a, b, slug, CategoryHigh);
  }

  /** The figures of the rendered page are those of the catalog as it was before the sort. */
  lemma DashboardStatsMatchOriginal(original: seq<Product>, slug: string)
    ensures Stats(SortDesc(original, RatingKey), slug) == Stats(original, slug)
  {
    StatsIgnoreOrder(SortDesc(original, RatingKey), original, slug);
  }

  /** A score of exactly 80 counts as a high match although the panel's caption reads "> 80%". */
  lemma HighMatchIncludesEighty(p: Product, slug: string)
    requires slug in p.categories && SuitabilityFor(p, slug) == HighMatchFrom
    ensures Stats([p], slug).highMatch == 1
    ensures Stats([p], slug).avgSuitability == Some(80.0)
  {
    assert CatProducts([p], slug) == [p];
    assert HighMatches([p], slug) == [p];
    assert [p][1..] == [];
    assert SuitabilityTotal([p], slug) == 80;
  }

  /** When every product of a category scores between `lo` and `hi`, so does the category's
      average; an empty category has no average, and the high matches are among its products. */
  lemma AverageWithinScores(catalog: seq<Product>, slug: string, lo: int, hi: int)
    requires forall p :: p in catalog && slug in p.categories ==> lo <= SuitabilityFor(p, slug) <= hi
    ensures var st := Stats(catalog, slug);
      && (st.avgSuitability.None? <==> forall p :: p in catalog ==> slug !in p.categories)
      && (st.avgSuitability.Some? ==> lo as real <= st.avgSuitability.value <= hi as real)
      && st.highMatch <= st.count
  {
    var cat := CatProducts(catalog, slug);
    if cat != [] {
      assert cat[0] in cat;
    }
    TotalWithin(cat, slug, lo, hi);
    HighMatchesFewer(cat, slug);
    if |cat| > 0 {
      DivideWithin(SuitabilityTotal(cat, slug), |cat|, lo, hi);
    }
  }

  lemma {:induction false} TotalWithin(ps: seq<Product>, slug: string, lo: int, hi: int)
    requires forall p :: p in ps ==> lo <= SuitabilityFor(p, slug) <= hi
    ensures lo * |ps| <= SuitabilityTotal(ps, slug) <= hi * |ps|
    decreases |ps|
  {
    if ps != [] {
      var rest := ps[1..];
      assert ps[0] in ps;
      forall p | p in rest ensures lo <= SuitabilityFor(p, slug) <= hi {
        assert p in ps;
      }
      TotalWithin(rest, slug, lo, hi);
      MulSucc(lo, |rest|);
      MulSucc(hi, |rest|);
    }
  }

  lemma MulSucc(x: int, n: nat)
    ensures x * (n + 1) == x * n + x
  {
  }

  lemma {:induction false} HighMatchesFewer(ps: seq<Product>, slug: string)
    ensures |HighMatches(ps, slug)| <= |ps|
    decreases |ps|
  {
    if ps != [] {
      HighMatchesFewer(ps[1..], slug);
    }
  }

  lemma DivideWithin(total: int, n: nat, lo: int, hi: int)
    requires n > 0 && lo * n <= total <= hi * n
    ensures lo as real <= total as real / n as real <= hi as real
  {
    var q := total as real / n as real;
    assert q * n as real == total as real;
    assert (lo as real) * (n as real) <= q * (n as real);
    assert q * (n as real) <= (hi as real) * (n as real);
  }
}
