/** What the Shop, Category and Hot Deals pages share: the filter options
    (src/types/index.ts, with the `tags` field the pages use), the merge of
    a partial update into them, the per-product tests of the filter
    predicate, `sortProducts`, and the catalogue's price bounds. */
module Listing {
  import opened Wrappers
  import opened Catalog
  import Seqs
  import Sorting

  datatype SortOption = Newest | PriceLow | PriceHigh

  /** `FilterOptions`; `tags` may be undefined. */
  datatype FilterOptions = FilterOptions(
    minPrice: real, maxPrice: real, categories: seq<string>,
    tags: Option<seq<string>>, onSaleOnly: bool, sortBy: SortOption)

  /** `Partial<FilterOptions>`: None for a key the update does not carry. */
  datatype FilterPatch = FilterPatch(
    minPrice: Option<real>, maxPrice: Option<real>, categories: Option<seq<string>>,
    tags: Option<seq<string>>, onSaleOnly: Option<bool>, sortBy: Option<SortOption>)

  const NoChange: FilterPatch := FilterPatch(None, None, None, None, None, None)

  function Pick<T>(update: Option<T>, current: T): T {
    if update.Some? then update.value else current
  }

  /** Every key the update carries already holds the update's value. */
  predicate Carries(f: FilterOptions, patch: FilterPatch) {
    (patch.minPrice.Some? ==> f.minPrice == patch.minPrice.value)
    && (patch.maxPrice.Some? ==> f.maxPrice == patch.maxPrice.value)
    && (patch.categories.Some? ==> f.categories == patch.categories.value)
    && (patch.tags.Some? ==> f.tags == patch.tags)
    && (patch.onSaleOnly.Some? ==> f.onSaleOnly == patch.onSaleOnly.value)
    && (patch.sortBy.Some? ==> f.sortBy == patch.sortBy.value)
  }

  /** `{ ...prevFilters, ...newFilters }`: afterwards every key of the
      update holds its value, and filters that already agree with the
      update are left as they are. */
  function Merge(f: FilterOptions, patch: FilterPatch): (r: FilterOptions)
    ensures Carries(r, patch)
    ensures Carries(f, patch) ==> r == f
  {
    FilterOptions(
      Pick(patch.minPrice, f.minPrice), Pick(patch.maxPrice, f.maxPrice),
      Pick(patch.categories, f.categories),
      if patch.tags.Some? then patch.tags else f.tags,
      Pick(patch.onSaleOnly, f.onSaleOnly), Pick(patch.sortBy, f.sortBy))
  }

  /** The keys of `q` override those of `p`: spreading p and then q. */
  function Then(p: FilterPatch, q: FilterPatch): FilterPatch {
    FilterPatch(
      if q.minPrice.Some? then q.minPrice else p.minPrice,
      if q.maxPrice.Some? then q.maxPrice else p.maxPrice,
      if q.categories.Some? then q.categories else p.categories,
      if q.tags.Some? then q.tags else p.tags,
      if q.onSaleOnly.Some? then q.onSaleOnly else p.onSaleOnly,
      if q.sortBy.Some? then q.sortBy else p.sortBy)
  }

  /** The merge overwrites exactly the supplied keys: every key the update
      carries takes its value and every other key keeps the old one. */
  lemma MergeLaws(f: FilterOptions, p: FilterPatch)
    ensures var r := Merge(f, p);
            && (p.minPrice.Some? ==> r.minPrice == p.minPrice.value)
            && (p.minPrice.None? ==> r.minPrice == f.minPrice)
            && (p.maxPrice.Some? ==> r.maxPrice == p.maxPrice.value)
            && (p.maxPrice.None? ==> r.maxPrice == f.maxPrice)
            && (p.categories.Some? ==> r.categories == p.categories.value)
            && (p.categories.None? ==> r.categories == f.categories)
            && (p.tags.Some? ==> r.tags == p.tags)
            && (p.tags.None? ==> r.tags == f.tags)
            && (p.onSaleOnly.Some? ==> r.onSaleOnly == p.onSaleOnly.value)
            && (p.onSaleOnly.None? ==> r.onSaleOnly == f.onSaleOnly)
            && (p.sortBy.Some? ==> r.sortBy == p.sortBy.value)
            && (p.sortBy.None? ==> r.sortBy == f.sortBy)
  {
  }

  /** An empty update changes nothing, repeating an update changes nothing
      more, and two updates in a row act as one combined update. */
  lemma MergeComposes(f: FilterOptions, p: FilterPatch, q: FilterPatch)
    ensures Merge(f, NoChange) == f
    ensures Merge(Merge(f, p), p) == Merge(f, p)
    ensures Merge(Merge(f, p), q) == Merge(f, Then(p, q))
  {
  }

  /** `productPrice < minPrice || productPrice > maxPrice` rejects. */
  predicate PriceMatches(f: FilterOptions, p: Product) {
    !(EffectivePrice(p) < f.minPrice || EffectivePrice(p) > f.maxPrice)
  }

  /** The category test applies only to a non-empty list. */
  predicate CategoryMatches(f: FilterOptions, p: Product) {
    |f.categories| == 0 || p.category in f.categories
  }

  /** The tag test applies only to a defined, non-empty list, and then
      needs one shared tag. */
  predicate TagsMatch(f: FilterOptions, p: Product) {
    f.tags.None? || |f.tags.value| == 0 ||
    exists t :: t in f.tags.value && t in p.tags
  }

  predicate SaleMatches(f: FilterOptions, p: Product) {
    !f.onSaleOnly || p.isSale
  }

  function PriceKey(p: Product): real { EffectivePrice(p) }

  function NegatedPriceKey(p: Product): real { -EffectivePrice(p) }

  /** `sortProducts`: a copy, sorted by the stable engine sort with
      `priceA - priceB` or `priceB - priceA`. */
  function SortProducts(products: seq<Product>, sortBy: SortOption): (r: seq<Product>)
    ensures multiset(r) == multiset(products) && |r| == |products|
  {
    match sortBy
    case Newest => products
    case PriceLow =>
      Sorting.SortByPermutation(products, PriceKey);
      Sorting.SortBy(products, PriceKey)
    case PriceHigh =>
      Sorting.SortByPermutation(products, NegatedPriceKey);
      Sorting.SortBy(products, NegatedPriceKey)
  }

  /** 'newest' keeps the order; the price options give a permutation in
      ascending or descending effective price. */
  lemma SortProductsSpec(products: seq<Product>, sortBy: SortOption)
    ensures var r := SortProducts(products, sortBy);
            && multiset(r) == multiset(products) && |r| == |products|
            && (sortBy == Newest ==> r == products)
            && (sortBy == PriceLow ==>
                  forall i, j :: 0 <= i < j < |r| ==> EffectivePrice(r[i]) <= EffectivePrice(r[j]))
            && (sortBy == PriceHigh ==>
                  forall i, j :: 0 <= i < j < |r| ==> EffectivePrice(r[i]) >= EffectivePrice(r[j]))
  {
    match sortBy
    case Newest =>
    case PriceLow =>
      Sorting.SortBySorted(products, PriceKey);
      Sorting.SortByPermutation(products, PriceKey);
    case PriceHigh =>
      var r := Sorting.SortBy(products, NegatedPriceKey);
      Sorting.SortBySorted(products, NegatedPriceKey);
      Sorting.SortByPermutation(products, NegatedPriceKey);
      forall i, j | 0 <= i < j < |r| ensures EffectivePrice(r[i]) >= EffectivePrice(r[j]) {
        assert NegatedPriceKey(r[i]) <= NegatedPriceKey(r[j]);
      }
  }

  /** Products of equal effective price keep their catalogue order, in
      either direction of the price sort. */
  lemma SortProductsStable(products: seq<Product>, sortBy: SortOption, price: real)
    ensures sortBy == PriceLow ==>
              Seqs.Filter(Sorting.KeyIs(PriceKey, price), SortProducts(products, sortBy))
              == Seqs.Filter(Sorting.KeyIs(PriceKey, price), products)
    ensures sortBy == PriceHigh ==>
              Seqs.Filter(Sorting.KeyIs(NegatedPriceKey, -price), SortProducts(products, sortBy))
              == Seqs.Filter(Sorting.KeyIs(NegatedPriceKey, -price), products)
  {
    if sortBy == PriceLow {
      AscendingStable(products, price);
    } else if sortBy == PriceHigh {
      DescendingStable(products, -price);
    }
  }

  lemma AscendingStable(products: seq<Product>, price: real)
    ensures Seqs.Filter(Sorting.KeyIs(PriceKey, price), SortProducts(products, PriceLow))
            == Seqs.Filter(Sorting.KeyIs(PriceKey, price), products)
  {
    var sorted := Sorting.SortBy(products, PriceKey);
    Sorting.SortByStable(products, PriceKey, price);
    assert SortProducts(products, PriceLow) == sorted;
  }

  lemma DescendingStable(products: seq<Product>, negated: real)
    ensures Seqs.Filter(Sorting.KeyIs(NegatedPriceKey, negated), SortProducts(products, PriceHigh))
            == Seqs.Filter(Sorting.KeyIs(NegatedPriceKey, negated), products)
  {
    var sorted := Sorting.SortBy(products, NegatedPriceKey);
    Sorting.SortByStable(products, NegatedPriceKey, negated);
    assert SortProducts(products, PriceHigh) == sorted;
  }

  /** The effective prices of a list of products. */
  function Prices(products: seq<Product>): (r: seq<real>)
    ensures |r| == |products|
    ensures forall i :: 0 <= i < |products| ==> r[i] == EffectivePrice(products[i])
  {
    seq(|products|, i requires 0 <= i < |products| => EffectivePrice(products[i]))
  }

  /** `Math.min(...xs)` of a non-empty list. */
  function MinOf(xs: seq<real>): (m: real)
    requires |xs| > 0
    ensures forall i :: 0 <= i < |xs| ==> m <= xs[i]
    ensures exists i :: 0 <= i < |xs| && m == xs[i]
    decreases |xs|
  {
    if |xs| == 1 then xs[0]
    else
      var m := MinOf(xs[..|xs| - 1]);
      assert forall i :: 0 <= i < |xs| - 1 ==> xs[..|xs| - 1][i] == xs[i];
      if xs[|xs| - 1] < m then xs[|xs| - 1] else m
  }

  /** `Math.max(...xs)` of a non-empty list. */
  function MaxOf(xs: seq<real>): (m: real)
    requires |xs| > 0
    ensures forall i :: 0 <= i < |xs| ==> xs[i] <= m
    ensures exists i :: 0 <= i < |xs| && m == xs[i]
    decreases |xs|
  {
    if |xs| == 1 then xs[0]
    else
      var m := MaxOf(xs[..|xs| - 1]);
      assert forall i :: 0 <= i < |xs| - 1 ==> xs[..|xs| - 1][i] == xs[i];
      if xs[|xs| - 1] > m then xs[|xs| - 1] else m
  }

  /** The page's price bounds: the least and greatest effective price, or
      0 and 1000 for no products. */
  function PriceBounds(products: seq<Product>): (bounds: (real, real))
    ensures |products| == 0 ==> bounds == (0.0, 1000.0)
    ensures forall i :: 0 <= i < |products| ==>
              bounds.0 <= EffectivePrice(products[i]) <= bounds.1
    ensures |products| > 0 ==>
              (exists i :: 0 <= i < |products| && bounds.0 == EffectivePrice(products[i])) &&
              (exists i :: 0 <= i < |products| && bounds.1 == EffectivePrice(products[i]))
  {
    var prices := Prices(products);
    if |prices| > 0 then (MinOf(prices), MaxOf(prices)) else (0.0, 1000.0)
  }
}
