/** The Category page (src/pages/Category.tsx): the products of the
    category named by the route, filtered by price, tag and sale flag, then
    sorted; the category list in the filters is kept but never consulted. */
module CategoryPage {
  import opened Wrappers
  import opened Catalog
  import opened Listing
  import Seqs

  /** `category || ''`: the route parameter, or the empty string when the
      route has none. */
  function RouteCategory(param: Option<string>): string {
    if param.Some? then param.value else ""
  }

  function InCategory(param: Option<string>): Product -> bool {
    (p: Product) => param.Some? && p.category == param.value
  }

  /** `categoryProducts`: the products whose category is the route's. */
  function CategoryProducts(all: seq<Product>, param: Option<string>): seq<Product> {
    Seqs.Filter(InCategory(param), all)
  }

  /** The page's predicate: price, tags and sale flag, without the category
      test. */
  predicate Matches(f: FilterOptions, p: Product) {
    PriceMatches(f, p) && TagsMatch(f, p) && SaleMatches(f, p)
  }

  function Matcher(f: FilterOptions): Product -> bool {
    (p: Product) => Matches(f, p)
  }

  /** `filteredProducts`: the products of the route's category that pass
      the price, tag and sale tests, and only those. */
  function Shown(all: seq<Product>, param: Option<string>, f: FilterOptions): (r: seq<Product>)
    ensures forall i :: 0 <= i < |r| ==> r[i] in all && param == Some(r[i].category) && Matches(f, r[i])
    ensures |r| <= |all|
  {
    var inCat := CategoryProducts(all, param);
    var kept := Seqs.Filter(Matcher(f), inCat);
    var r := SortProducts(kept, f.sortBy);
    Seqs.PermutedFilterMembers(Matcher(f), inCat, r);
    Seqs.FilterMembers(InCategory(param), all);
    r
  }

  /** Every product shown belongs to the route's category and passes the
      price, tag and sale tests; every such product is shown; the list is a
      permutation of those products in catalogue order, kept as it is by
      'newest'. */
  lemma ShownSpec(all: seq<Product>, param: Option<string>, f: FilterOptions)
    ensures var r := Shown(all, param, f);
            && (forall i :: 0 <= i < |r| ==>
                  r[i] in all && param == Some(r[i].category)
                  && f.minPrice <= EffectivePrice(r[i]) <= f.maxPrice
                  && (f.tags.Some? && |f.tags.value| > 0 ==>
                        exists t :: t in f.tags.value && t in r[i].tags)
                  && (f.onSaleOnly ==> r[i].isSale))
            && (forall i :: 0 <= i < |all| && param == Some(all[i].category) && Matches(f, all[i]) ==>
                  all[i] in r)
            && (f.sortBy == Newest ==> Seqs.IsSubsequence(r, all))
  {
    ShownMembers(all, param, f);
    var r := Shown(all, param, f);
    forall i | 0 <= i < |r| ensures r[i] in all && param == Some(r[i].category) && Matches(f, r[i]) {
      assert r[i] in r;
    }
    forall i | 0 <= i < |all| && param == Some(all[i].category) && Matches(f, all[i])
      ensures all[i] in r
    {
      assert all[i] in all;
    }
    if f.sortBy == Newest {
      var inCat := CategoryProducts(all, param);
      var kept := Seqs.Filter(Matcher(f), inCat);
      SortProductsSpec(kept, f.sortBy);
      Seqs.FilterIsSubsequence(Matcher(f), inCat);
      Seqs.FilterIsSubsequence(InCategory(param), all);
      Seqs.SubsequenceTransitive(kept, inCat, all);
    }
  }

  /** A product is shown exactly when it is in the catalogue, in the
      route's category and passes the filters. */
  lemma ShownMembers(all: seq<Product>, param: Option<string>, f: FilterOptions)
    ensures forall x :: x in Shown(all, param, f) <==> x in all && param == Some(x.category) && Matches(f, x)
  {
    var inCat := CategoryProducts(all, param);
    var kept := Seqs.Filter(Matcher(f), inCat);
    SortProductsSpec(kept, f.sortBy);
    var r := Shown(all, param, f);
    forall x ensures x in r <==> x in kept {
      assert x in r <==> x in multiset(r);
      assert x in kept <==> x in multiset(kept);
    }
    Seqs.FilterMembers(Matcher(f), inCat);
    Seqs.FilterMembers(InCategory(param), all);
  }

  /** The filters' category list plays no part in what is shown. */
  lemma ShownIgnoresCategories(all: seq<Product>, param: Option<string>, f: FilterOptions,
                               otherCategories: seq<string>)
    ensures Shown(all, param, f) == Shown(all, param, f.(categories := otherCategories))
  {
    var g := f.(categories := otherCategories);
    Seqs.FilterCongruent(Matcher(f), Matcher(g), CategoryProducts(all, param));
  }

  /** The category list an update ends up carrying: one that lacks the
      route's category gets it appended. */
  function WithRouteCategory(categories: seq<string>, param: Option<string>): (r: seq<string>)
    ensures RouteCategory(param) in r
    ensures RouteCategory(param) in categories ==> r == categories
    ensures RouteCategory(param) !in categories ==> r == categories + [RouteCategory(param)]
  {
    if RouteCategory(param) in categories then categories
    else categories + [RouteCategory(param)]
  }

  /** The page's state: the catalogue, the route parameter and the
      filters. */
  class CategoryView {
    var all: seq<Product>
    const param: Option<string>
    var filters: FilterOptions

    /** The route's category is always among the filters' categories. */
    predicate Valid()
      reads this
    {
      RouteCategory(param) in filters.categories
    }

    constructor (all: seq<Product>, param: Option<string>)
      ensures Valid()
      ensures this.all == all && this.param == param
      ensures filters == FilterOptions(PriceBounds(CategoryProducts(all, param)).0,
                PriceBounds(CategoryProducts(all, param)).1,
                [RouteCategory(param)], Some([]), false, Newest)
    {
      this.all := all;
      this.param := param;
      var bounds := PriceBounds(CategoryProducts(all, param));
      filters := FilterOptions(bounds.0, bounds.1, [RouteCategory(param)], Some([]), false, Newest);
    }

    /** The effect run when the category's products arrive: a non-empty
        category replaces the price bounds by its own and the category list
        by the route's category alone. */
    method ProductsLoaded(loaded: seq<Product>)
      requires Valid()
      modifies this
      ensures Valid()
      ensures all == loaded
      ensures var inCat := CategoryProducts(loaded, param);
              if |inCat| > 0 then
                filters == old(filters).(minPrice := PriceBounds(inCat).0,
                  maxPrice := PriceBounds(inCat).1, categories := [RouteCategory(param)])
              else filters == old(filters)
    {
      all := loaded;
      var inCat := CategoryProducts(loaded, param);
      if |inCat| > 0 {
        var bounds := PriceBounds(inCat);
        filters := Merge(filters, FilterPatch(Some(bounds.0), Some(bounds.1),
          Some([RouteCategory(param)]), None, None, None));
      }
    }

    /** `handleFilterChange`: a supplied category list is first completed
        with the route's category, then the supplied keys replace the
        current ones. */
    method HandleFilterChange(patch: FilterPatch)
      requires Valid()
      modifies this
      ensures Valid()
      ensures all == old(all)
      ensures var completed :=
                if patch.categories.Some?
                then patch.(categories := Some(WithRouteCategory(patch.categories.value, param)))
                else patch;
              filters == Merge(old(filters), completed)
    {
      var update := patch;
      if update.categories.Some? {
        if RouteCategory(param) !in update.categories.value {
          update := update.(categories := Some(update.categories.value + [RouteCategory(param)]));
        }
      }
      filters := Merge(filters, update);
    }
  }
}
