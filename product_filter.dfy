/** The filter panel (src/components/ProductFilter.tsx): the toggles and
    the reset, each of which hands an update of the filters to its page,
    the lists of categories and tags it offers, and the price range it
    holds while the slider moves. */
module ProductFilter {
  import opened Wrappers
  import opened Catalog
  import opened Listing
  import Seqs

  function IsNot(v: string): string -> bool {
    (c: string) => c != v
  }

  /** A list with `v` toggled: every occurrence removed when it is there,
      `v` appended at the end otherwise. */
  function Toggled(list: seq<string>, v: string): seq<string> {
    if v in list then Seqs.Filter(IsNot(v), list) else list + [v]
  }

  /** Toggling flips the membership of `v` and of nothing else; removing
      keeps the other values in order, and a value that was absent ends up
      last. */
  lemma ToggledSpec(list: seq<string>, v: string)
    ensures v in Toggled(list, v) <==> v !in list
    ensures forall w :: w != v ==> (w in Toggled(list, v) <==> w in list)
    ensures v in list ==> Seqs.IsSubsequence(Toggled(list, v), list)
    ensures v !in list ==> Toggled(list, v) == list + [v]
  {
    if v in list {
      Seqs.FilterIsSubsequence(IsNot(v), list);
      forall w | w != v && w in list ensures w in Toggled(list, v) {
        var i :| 0 <= i < |list| && list[i] == w;
      }
    }
  }

  /** Toggling an absent value twice gives back the list. */
  lemma ToggleTwiceRestores(list: seq<string>, v: string)
    requires v !in list
    ensures Toggled(Toggled(list, v), v) == list
  {
    Seqs.FilterAppend(IsNot(v), list, [v]);
    Seqs.FilterAll(IsNot(v), list);
    assert Seqs.Filter(IsNot(v), [v]) == [] by {
      assert [v][..0] == [];
    }
  }

  /** `handleCategoryToggle`: the update carries the category list alone,
      in which exactly the toggled category has changed membership. */
  function CategoryToggle(current: FilterOptions, category: string): (patch: FilterPatch)
    ensures patch == NoChange.(categories := Some(Toggled(current.categories, category)))
    ensures patch.minPrice.None? && patch.maxPrice.None? && patch.tags.None?
            && patch.onSaleOnly.None? && patch.sortBy.None? && patch.categories.Some?
    ensures forall c :: c in patch.categories.value <==> ((c in current.categories) != (c == category))
  {
    ToggledSpec(current.categories, category);
    NoChange.(categories := Some(Toggled(current.categories, category)))
  }

  /** `handleTagToggle`: undefined tags count as no tags; the update
      carries the tag list alone, in which exactly the toggled tag has
      changed membership. */
  function TagToggle(current: FilterOptions, tag: string): (patch: FilterPatch)
    ensures patch == NoChange.(tags := Some(Toggled(current.tags.GetOr([]), tag)))
    ensures patch.minPrice.None? && patch.maxPrice.None? && patch.categories.None?
            && patch.onSaleOnly.None? && patch.sortBy.None? && patch.tags.Some?
    ensures forall t :: t in patch.tags.value <==>
              ((current.tags.Some? && t in current.tags.value) != (t == tag))
  {
    var tags := if current.tags.Some? then current.tags.value else [];
    ToggledSpec(tags, tag);
    NoChange.(tags := Some(Toggled(tags, tag)))
  }

  /** `handleSaleToggle`: merged into the filters it was made from, the
      update flips the sale flag and changes nothing else. */
  function SaleToggle(current: FilterOptions): (patch: FilterPatch)
    ensures Merge(current, patch) == current.(onSaleOnly := !current.onSaleOnly)
    ensures Merge(Merge(current, patch), patch) == Merge(current, patch)
  {
    NoChange.(onSaleOnly := Some(!current.onSaleOnly))
  }

  /** `handleSortChange`: merged into any filters, the update sets the
      order and changes nothing else. */
  function SortChange(sortBy: SortOption): (patch: FilterPatch)
    ensures forall f :: Merge(f, patch) == f.(sortBy := sortBy)
  {
    NoChange.(sortBy := Some(sortBy))
  }

  /** The updates the slider and the order menu hand on: merged into any
      filters, a committed range replaces exactly the two price bounds and
      a new order exactly the order, whatever the filters were. */
  lemma CommittedUpdatesOnMergedFilters(f: FilterOptions, g: FilterOptions, lo: real, hi: real, sortBy: SortOption)
    ensures var patch := NoChange.(minPrice := Some(lo), maxPrice := Some(hi));
            && Merge(f, patch) == f.(minPrice := lo, maxPrice := hi)
            && (Merge(f, patch) == Merge(g, patch) <==> f.(minPrice := lo, maxPrice := hi) == g.(minPrice := lo, maxPrice := hi))
    ensures Merge(f, SortChange(sortBy)).sortBy == sortBy
    ensures Merge(f, SortChange(sortBy)) == Merge(g, SortChange(sortBy)) <==>
              f.(sortBy := sortBy) == g.(sortBy := sortBy)
  {
  }

  /** Applied by a page that merges updates, a tag toggle flips the tag's
      membership whether the tags were defined or not, and toggling an
      absent category or tag twice, or the sale flag twice, gives back the
      filters. */
  lemma TogglesOnMergedFilters(f: FilterOptions, category: string, tag: string)
    ensures var g := Merge(f, TagToggle(f, tag));
            g.tags.Some? && (tag in g.tags.value <==> !(f.tags.Some? && tag in f.tags.value))
    ensures category !in f.categories ==>
              var g := Merge(f, CategoryToggle(f, category));
              Merge(g, CategoryToggle(g, category)) == f
    ensures f.tags.Some? && tag !in f.tags.value ==>
              var g := Merge(f, TagToggle(f, tag));
              Merge(g, TagToggle(g, tag)) == f
    ensures Merge(Merge(f, SaleToggle(f)), SaleToggle(Merge(f, SaleToggle(f)))) == f
    ensures Merge(f, SaleToggle(f)).onSaleOnly == !f.onSaleOnly
  {
    if category !in f.categories {
      CategoryToggleTwice(f, category);
    }
    if f.tags.Some? && tag !in f.tags.value {
      TagToggleTwice(f, tag);
    }
  }

  lemma CategoryToggleTwice(f: FilterOptions, category: string)
    requires category !in f.categories
    ensures var g := Merge(f, CategoryToggle(f, category));
            Merge(g, CategoryToggle(g, category)) == f
  {
    var g := Merge(f, CategoryToggle(f, category));
    assert g == f.(categories := Toggled(f.categories, category));
    ToggleTwiceRestores(f.categories, category);
    assert Merge(g, CategoryToggle(g, category)) == g.(categories := Toggled(g.categories, category));
  }

  lemma TagToggleTwice(f: FilterOptions, tag: string)
    requires f.tags.Some? && tag !in f.tags.value
    ensures var g := Merge(f, TagToggle(f, tag));
            Merge(g, TagToggle(g, tag)) == f
  {
    var g := Merge(f, TagToggle(f, tag));
    assert g == f.(tags := Some(Toggled(f.tags.value, tag)));
    ToggleTwiceRestores(f.tags.value, tag);
    assert Merge(g, TagToggle(g, tag)) == g.(tags := Some(Toggled(g.tags.value, tag)));
  }

  function Category(p: Product): string { p.category }

  function Categories(catalogue: seq<Product>): (r: seq<string>)
    ensures |r| == |catalogue|
    ensures forall i :: 0 <= i < |r| ==> r[i] == catalogue[i].category
  {
    seq(|catalogue|, i requires 0 <= i < |catalogue| => catalogue[i].category)
  }

  function TagLists(catalogue: seq<Product>): (r: seq<seq<string>>)
    ensures |r| == |catalogue|
    ensures forall i :: 0 <= i < |r| ==> r[i] == catalogue[i].tags
  {
    seq(|catalogue|, i requires 0 <= i < |catalogue| => catalogue[i].tags)
  }

  /** The categories offered: each category of the catalogue once, in order
      of first occurrence. */
  function UniqueCategories(catalogue: seq<Product>): (r: seq<string>)
    ensures Seqs.NoDuplicates(r)
    ensures forall c :: c in r <==> exists i :: 0 <= i < |catalogue| && catalogue[i].category == c
  {
    var cats := Categories(catalogue);
    var r := Seqs.Dedup(cats);
    assert forall i :: 0 <= i < |catalogue| ==> cats[i] == catalogue[i].category;
    r
  }

  /** The tags offered: each tag of any product once, in order of first
      occurrence. */
  function UniqueTags(catalogue: seq<Product>): (r: seq<string>)
    ensures Seqs.NoDuplicates(r)
    ensures forall t :: t in r <==> exists i :: 0 <= i < |catalogue| && t in catalogue[i].tags
  {
    var tags := Seqs.Flatten(TagLists(catalogue));
    var r := Seqs.Dedup(tags);
    assert forall t :: t in r <==> t in tags;
    r
  }

  /** Both offered lists keep the order in which their values first occur. */
  lemma UniqueListsOrder(catalogue: seq<Product>)
    ensures forall i, j :: 0 <= i < j < |UniqueCategories(catalogue)| ==>
              Seqs.FirstIndex(Categories(catalogue), UniqueCategories(catalogue)[i])
              < Seqs.FirstIndex(Categories(catalogue), UniqueCategories(catalogue)[j])
    ensures forall i, j :: 0 <= i < j < |UniqueTags(catalogue)| ==>
              Seqs.FirstIndex(Seqs.Flatten(TagLists(catalogue)), UniqueTags(catalogue)[i])
              < Seqs.FirstIndex(Seqs.Flatten(TagLists(catalogue)), UniqueTags(catalogue)[j])
  {
    Seqs.DedupFirstOccurrenceOrder(Categories(catalogue));
    Seqs.DedupFirstOccurrenceOrder(Seqs.Flatten(TagLists(catalogue)));
  }

  /** `resetFilters`' update: the catalogue's price bounds, no category, no
      tag, every product and the 'newest' order. */
  function ResetPatch(catalogue: seq<Product>): (patch: FilterPatch)
    requires |catalogue| > 0
    ensures patch.minPrice.Some? && patch.maxPrice.Some?
    ensures patch.categories == Some([]) && patch.tags == Some([])
    ensures patch.onSaleOnly == Some(false) && patch.sortBy == Some(Newest)
    ensures forall i :: 0 <= i < |catalogue| ==>
              patch.minPrice.value <= EffectivePrice(catalogue[i]) <= patch.maxPrice.value
    ensures (exists i :: 0 <= i < |catalogue| && patch.minPrice.value == EffectivePrice(catalogue[i]))
            && (exists i :: 0 <= i < |catalogue| && patch.maxPrice.value == EffectivePrice(catalogue[i]))
  {
    var bounds := PriceBounds(catalogue);
    FilterPatch(Some(bounds.0), Some(bounds.1), Some([]), Some([]), Some(false), Some(Newest))
  }

  /** Whatever the filters were, the reset replaces every key: afterwards
      the whole catalogue passes the price test and no other test is
      active. */
  lemma ResetReplacesEverything(catalogue: seq<Product>, f: FilterOptions, g: FilterOptions)
    requires |catalogue| > 0
    ensures Merge(f, ResetPatch(catalogue)) == Merge(g, ResetPatch(catalogue))
    ensures var r := Merge(f, ResetPatch(catalogue));
            && r.categories == [] && r.tags == Some([]) && !r.onSaleOnly && r.sortBy == Newest
            && forall i :: 0 <= i < |catalogue| ==> PriceMatches(r, catalogue[i])
  {
  }

  /** The panel's own state: the price range the slider shows, and the
      static catalogue it takes its lists and bounds from. */
  class FilterPanel {
    const catalogue: seq<Product>
    var priceRange: (real, real)

    constructor (catalogue: seq<Product>, current: FilterOptions)
      ensures this.catalogue == catalogue
      ensures priceRange == (current.minPrice, current.maxPrice)
    {
      this.catalogue := catalogue;
      priceRange := (current.minPrice, current.maxPrice);
    }

    /** `handlePriceChange`: the slider moves, the filters stay. */
    method HandlePriceChange(values: (real, real))
      modifies this
      ensures priceRange == values
    {
      priceRange := values;
    }

    /** `handlePriceChangeCommitted`: the range becomes the update. */
    method HandlePriceChangeCommitted() returns (patch: FilterPatch)
      ensures patch == NoChange.(minPrice := Some(priceRange.0), maxPrice := Some(priceRange.1))
      ensures forall f :: Merge(f, patch) == f.(minPrice := priceRange.0, maxPrice := priceRange.1)
    {
      patch := NoChange.(minPrice := Some(priceRange.0), maxPrice := Some(priceRange.1));
    }

    /** `resetFilters`: the slider goes back to the catalogue's bounds and
        the reset update is handed on. */
    method ResetFilters() returns (patch: FilterPatch)
      requires |catalogue| > 0
      modifies this
      ensures patch == ResetPatch(catalogue)
      ensures priceRange == (patch.minPrice.value, patch.maxPrice.value)
    {
      var bounds := PriceBounds(catalogue);
      priceRange := bounds;
      patch := FilterPatch(Some(bounds.0), Some(bounds.1), Some([]), Some([]), Some(false), Some(Newest));
    }
  }
}
