/** The Hot Deals page (src/pages/HotDeals.tsx): the products on sale,
    filtered by price, category and tag, then sorted; the sale flag of the
    filters stays set. */
module HotDeals {
  import opened Wrappers
  import opened Catalog
  import opened Listing
  import Seqs

  function OnSale(): Product -> bool {
    (p: Product) => p.isSale
  }

  /** `saleProducts` */
  function SaleProducts(all: seq<Product>): seq<Product> {
    Seqs.Filter(OnSale(), all)
  }

  /** The page's predicate: price, category and tags, without the sale
      test, which the restriction to sale products already makes. */
  predicate Matches(f: FilterOptions, p: Product) {
    PriceMatches(f, p) && CategoryMatches(f, p) && TagsMatch(f, p)
  }

  function Matcher(f: FilterOptions): Product -> bool {
    (p: Product) => Matches(f, p)
  }

  /** `filteredProducts`: sale products that pass the price, category and
      tag tests, and only those. */
  function Shown(all: seq<Product>, f: FilterOptions): (r: seq<Product>)
    ensures forall i :: 0 <= i < |r| ==> r[i] in all && r[i].isSale && Matches(f, r[i])
    ensures |r| <= |all|
  {
    var sale := SaleProducts(all);
    var kept := Seqs.Filter(Matcher(f), sale);
    var r := SortProducts(kept, f.sortBy);
    Seqs.PermutedFilterMembers(Matcher(f), sale, r);
    Seqs.FilterMembers(OnSale(), all);
    r
  }

  /** A product is shown exactly when it is in the catalogue, on sale and
      passes the page's predicate. */
  lemma ShownMembers(all: seq<Product>, f: FilterOptions)
    ensures forall x :: x in Shown(all, f) <==> x in all && x.isSale && Matches(f, x)
  {
    var sale := SaleProducts(all);
    var kept := Seqs.Filter(Matcher(f), sale);
    SortProductsSpec(kept, f.sortBy);
    var r := Shown(all, f);
    forall x ensures x in r <==> x in kept {
      assert x in r <==> x in multiset(r);
      assert x in kept <==> x in multiset(kept);
    }
    forall x | x in kept ensures x in sale && Matches(f, x) {
      var i :| 0 <= i < |kept| && kept[i] == x;
    }
    forall x | x in sale ensures x in all && x.isSale {
      var i :| 0 <= i < |sale| && sale[i] == x;
      assert OnSale()(sale[i]);
    }
    forall x | x in all && x.isSale && Matches(f, x) ensures x in kept {
      var i :| 0 <= i < |all| && all[i] == x;
      assert OnSale()(all[i]);
      assert x in sale;
      var j :| 0 <= j < |sale| && sale[j] == x;
      assert Matcher(f)(sale[j]);
    }
  }

  /** Every product shown is on sale and passes the price, category and
      tag tests; every such product is shown; and 'newest' keeps catalogue
      order. */
  lemma ShownSpec(all: seq<Product>, f: FilterOptions)
    ensures var r := Shown(all, f);
            && (forall i :: 0 <= i < |r| ==>
                  r[i] in all && r[i].isSale
                  && f.minPrice <= EffectivePrice(r[i]) <= f.maxPrice
                  && (|f.categories| > 0 ==> r[i].category in f.categories)
                  && (f.tags.Some? && |f.tags.value| > 0 ==>
                        exists t :: t in f.tags.value && t in r[i].tags))
            && (forall i :: 0 <= i < |all| && all[i].isSale && Matches(f, all[i]) ==> all[i] in r)
            && (f.sortBy == Newest ==> Seqs.IsSubsequence(r, all))
  {
    ShownMembers(all, f);
    var r := Shown(all, f);
    forall i | 0 <= i < |r| ensures r[i] in all && r[i].isSale && Matches(f, r[i]) {
      assert r[i] in r;
    }
    if f.sortBy == Newest {
      var sale := SaleProducts(all);
      var kept := Seqs.Filter(Matcher(f), sale);
      Seqs.FilterIsSubsequence(Matcher(f), sale);
      Seqs.FilterIsSubsequence(OnSale(), all);
      Seqs.SubsequenceTransitive(kept, sale, all);
    }
  }

  /** The update as the page applies it: a supplied sale flag is replaced
      by true. */
  function ForcedOnSale(patch: FilterPatch): (r: FilterPatch)
    ensures r.onSaleOnly.Some? <==> patch.onSaleOnly.Some?
    ensures r.onSaleOnly.Some? ==> r.onSaleOnly.value
    ensures r.(onSaleOnly := patch.onSaleOnly) == patch
  {
    if patch.onSaleOnly.Some? then patch.(onSaleOnly := Some(true)) else patch
  }

  /** The page's state: the catalogue and the filters. */
  class HotDealsView {
    var all: seq<Product>
    var filters: FilterOptions

    /** Only sales are ever asked for. */
    predicate Valid()
      reads this
    {
      filters.onSaleOnly
    }

    constructor (all: seq<Product>)
      ensures Valid() && this.all == all
      ensures filters == FilterOptions(PriceBounds(SaleProducts(all)).0,
                PriceBounds(SaleProducts(all)).1, [], Some([]), true, Newest)
    {
      this.all := all;
      var bounds := PriceBounds(SaleProducts(all));
      filters := FilterOptions(bounds.0, bounds.1, [], Some([]), true, Newest);
    }

    /** The effect run when the sale products arrive. */
    method ProductsLoaded(loaded: seq<Product>)
      requires Valid()
      modifies this
      ensures Valid() && all == loaded
      ensures var sale := SaleProducts(loaded);
              if |sale| > 0 then
                filters == old(filters).(minPrice := PriceBounds(sale).0,
                  maxPrice := PriceBounds(sale).1)
              else filters == old(filters)
    {
      all := loaded;
      var sale := SaleProducts(loaded);
      if |sale| > 0 {
        var bounds := PriceBounds(sale);
        filters := Merge(filters, FilterPatch(Some(bounds.0), Some(bounds.1), None, None, None, None));
      }
    }

    /** `handleFilterChange`: the update's sale flag, when it has one, is
        set to true before the supplied keys replace the current ones. */
    method HandleFilterChange(patch: FilterPatch)
      requires Valid()
      modifies this
      ensures Valid() && all == old(all)
      ensures filters == Merge(old(filters), ForcedOnSale(patch))
    {
      var update := patch;
      if update.onSaleOnly.Some? {
        update := update.(onSaleOnly := Some(true));
      }
      filters := Merge(filters, update);
    }
  }
}
