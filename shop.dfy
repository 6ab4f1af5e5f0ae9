/** The Shop page (src/pages/Shop.tsx): the whole catalogue, filtered by
    price, category, tag and sale flag, then sorted. */
module Shop {
  import opened Wrappers
  import opened Catalog
  import opened Listing
  import Seqs

  /** The page's filter predicate, every test applied. */
  predicate Matches(f: FilterOptions, p: Product) {
    PriceMatches(f, p) && CategoryMatches(f, p) && TagsMatch(f, p) && SaleMatches(f, p)
  }

  function Matcher(f: FilterOptions): Product -> bool {
    p => Matches(f, p)
  }

  /** `filteredProducts` for the current filters: the catalogue's
      products that pass every test, and only those. */
  function Shown(products: seq<Product>, f: FilterOptions): (r: seq<Product>)
    ensures forall i :: 0 <= i < |r| ==> r[i] in products && Matches(f, r[i])
    ensures forall i :: 0 <= i < |products| && Matches(f, products[i]) ==> products[i] in r
    ensures |r| <= |products|
  {
    var kept := Seqs.Filter(Matcher(f), products);
    var r := SortProducts(kept, f.sortBy);
    Seqs.PermutedFilterMembers(Matcher(f), products, r);
    r
  }

  /** Every product shown passes every test of the predicate: an effective
      price within the bounds, a listed category when a category is
      chosen, a shared tag when tags are chosen, and the sale flag when
      only sales are asked for; every product of the catalogue that passes
      is shown; and the list is a permutation of the passing products in
      catalogue order, which 'newest' keeps as it is. */
  lemma ShownSpec(products: seq<Product>, f: FilterOptions)
    ensures var r := Shown(products, f);
            && (forall i :: 0 <= i < |r| ==>
                  r[i] in products
                  && f.minPrice <= EffectivePrice(r[i]) <= f.maxPrice
                  && (|f.categories| > 0 ==> r[i].category in f.categories)
                  && (f.tags.Some? && |f.tags.value| > 0 ==>
                        exists t :: t in f.tags.value && t in r[i].tags)
                  && (f.onSaleOnly ==> r[i].isSale))
            && (forall i :: 0 <= i < |products| && Matches(f, products[i]) ==> products[i] in r)
            && multiset(r) == multiset(Seqs.Filter(Matcher(f), products))
            && (f.sortBy == Newest ==> Seqs.IsSubsequence(r, products))
  {
    var kept := Seqs.Filter(Matcher(f), products);
    SortProductsSpec(kept, f.sortBy);
    Seqs.FilterIsSubsequence(Matcher(f), products);
    var r := Shown(products, f);
    forall i | 0 <= i < |r| ensures r[i] in kept {
      assert r[i] in multiset(r);
    }
    forall i | 0 <= i < |products| && Matches(f, products[i]) ensures products[i] in r {
      assert products[i] in multiset(kept);
    }
  }

  /** The filters the page starts from: the catalogue's price bounds, no
      category, no tag, every product and the 'newest' order. */
  function InitialFilters(products: seq<Product>): (f: FilterOptions)
    ensures f.categories == [] && f.tags == Some([]) && !f.onSaleOnly && f.sortBy == Newest
    ensures (f.minPrice, f.maxPrice) == PriceBounds(products)
  {
    var bounds := PriceBounds(products);
    FilterOptions(bounds.0, bounds.1, [], Some([]), false, Newest)
  }

  /** Before any change, the page shows the whole catalogue in its own
      order. */
  lemma InitiallyAllShown(products: seq<Product>)
    ensures Shown(products, InitialFilters(products)) == products
  {
    var f := InitialFilters(products);
    forall x | x in products ensures Matcher(f)(x) {
      var i :| 0 <= i < |products| && products[i] == x;
      assert PriceMatches(f, x);
    }
    Seqs.FilterAll(Matcher(f), products);
  }

  /** The page's state: the loaded catalogue and the current filters. */
  class ShopPage {
    var products: seq<Product>
    var filters: FilterOptions

    constructor (products: seq<Product>)
      ensures this.products == products && filters == InitialFilters(products)
    {
      this.products := products;
      filters := InitialFilters(products);
    }

    /** The list the page renders. */
    function ShownProducts(): seq<Product>
      reads this
    {
      Shown(products, filters)
    }

    /** The effect run when the catalogue arrives: a non-empty catalogue
        replaces the price bounds by its own, an empty one changes
        nothing. */
    method ProductsLoaded(loaded: seq<Product>)
      modifies this
      ensures products == loaded
      ensures |loaded| > 0 ==>
                filters == Merge(old(filters), FilterPatch(Some(PriceBounds(loaded).0),
                  Some(PriceBounds(loaded).1), None, None, None, None))
      ensures |loaded| == 0 ==> filters == old(filters)
    {
      products := loaded;
      if |loaded| > 0 {
        var bounds := PriceBounds(loaded);
        filters := Merge(filters, FilterPatch(Some(bounds.0), Some(bounds.1), None, None, None, None));
      }
    }

    /** `handleFilterChange`: the supplied keys replace the current ones. */
    method HandleFilterChange(patch: FilterPatch)
      modifies this
      ensures products == old(products)
      ensures filters == Merge(old(filters), patch)
    {
      filters := Merge(filters, patch);
    }
  }
}
