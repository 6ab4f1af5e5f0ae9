/** The charm customizer (src/components/CharmCustomizer.tsx): one base
    chain, up to `maxCharmsPerCategory` distinct charms in each of the four
    categories, and a preview object that names, for each category with a
    selection, the charm selected last. */
module CharmCustomizer {
  import opened Wrappers
  import opened Charms
  import Seqs

  /** The `previewCharms` object as its entries in insertion order, the
      order `Object.entries` lists them in. */
  type Preview = seq<(CharmCategory, string)>

  /** `preview[category]`, or None when the key is absent. */
  function Lookup(p: Preview, category: CharmCategory): Option<string> {
    if |p| == 0 then None
    else if p[0].0 == category then Some(p[0].1)
    else Lookup(p[1..], category)
  }

  /** `preview[category] = id`: an existing key keeps its place, a new one
      goes last. */
  function Put(p: Preview, category: CharmCategory, id: string): Preview {
    if |p| == 0 then [(category, id)]
    else if p[0].0 == category then [(category, id)] + p[1..]
    else [p[0]] + Put(p[1..], category, id)
  }

  /** `delete preview[category]` */
  function Delete(p: Preview, category: CharmCategory): Preview {
    if |p| == 0 then []
    else (if p[0].0 == category then [] else [p[0]]) + Delete(p[1..], category)
  }

  function Keys(p: Preview): seq<CharmCategory> {
    if |p| == 0 then [] else [p[0].0] + Keys(p[1..])
  }

  /** An object has each key once. */
  predicate DistinctKeys(p: Preview) {
    Seqs.NoDuplicates(Keys(p))
  }

  lemma NoDuplicatesCons(x: CharmCategory, s: seq<CharmCategory>)
    ensures Seqs.NoDuplicates([x] + s) <==> x !in s && Seqs.NoDuplicates(s)
  {
    var t := [x] + s;
    if Seqs.NoDuplicates(t) {
      forall i, j | 0 <= i < j < |s| ensures s[i] != s[j] {
        assert s[i] == t[i + 1] && s[j] == t[j + 1];
      }
      forall k | 0 <= k < |s| ensures s[k] != x {
        assert t[0] == x && t[k + 1] == s[k];
      }
    }
    if x !in s && Seqs.NoDuplicates(s) {
      forall i, j | 0 <= i < j < |t| ensures t[i] != t[j] {
        assert t[j] == s[j - 1];
        if i > 0 { assert t[i] == s[i - 1]; }
      }
    }
  }

  /** Assignment sets the one key and keeps the others, an existing key
      in its place and a new one at the end, and keeps every key once. */
  lemma {:induction false} PutLaws(p: Preview, category: CharmCategory, id: string)
    ensures Lookup(Put(p, category, id), category) == Some(id)
    ensures forall other :: other != category ==> Lookup(Put(p, category, id), other) == Lookup(p, other)
    ensures Keys(Put(p, category, id)) ==
              if category in Keys(p) then Keys(p) else Keys(p) + [category]
    ensures DistinctKeys(p) ==> DistinctKeys(Put(p, category, id))
    decreases |p|
  {
    if |p| > 0 {
      PutLaws(p[1..], category, id);
      if p[0].0 != category {
        assert Keys(Put(p, category, id)) == [p[0].0] + Keys(Put(p[1..], category, id));
        assert category in Keys(p) <==> category in Keys(p[1..]);
        if category !in Keys(p[1..]) {
          assert [p[0].0] + (Keys(p[1..]) + [category]) == Keys(p) + [category];
        }
      }
    }
    var keys := Keys(p);
    if DistinctKeys(p) && category !in keys {
      forall i, j | 0 <= i < j < |keys + [category]| ensures (keys + [category])[i] != (keys + [category])[j] {
        if j < |keys| {
          assert (keys + [category])[i] == keys[i] && (keys + [category])[j] == keys[j];
        } else {
          assert (keys + [category])[i] == keys[i];
        }
      }
    }
  }

  /** Deletion removes the one key, keeps the others and keeps every key
      once. */
  lemma {:induction false} DeleteLaws(p: Preview, category: CharmCategory)
    ensures Lookup(Delete(p, category), category) == None
    ensures forall other :: other != category ==> Lookup(Delete(p, category), other) == Lookup(p, other)
    ensures forall c :: c in Keys(Delete(p, category)) ==> c in Keys(p) && c != category
    ensures DistinctKeys(p) ==> DistinctKeys(Delete(p, category))
    decreases |p|
  {
    if |p| > 0 {
      DeleteLaws(p[1..], category);
      var rest := Delete(p[1..], category);
      NoDuplicatesCons(p[0].0, Keys(p[1..]));
      if p[0].0 != category {
        assert Delete(p, category) == [p[0]] + rest;
        assert Keys(Delete(p, category)) == [p[0].0] + Keys(rest);
        NoDuplicatesCons(p[0].0, Keys(rest));
      } else {
        assert Delete(p, category) == rest;
      }
    }
  }

  /** The last element of a list, or None for an empty one. */
  function Last(ids: seq<string>): Option<string> {
    if |ids| == 0 then None else Some(ids[|ids| - 1])
  }

  /** The customizer's invariant: every category holds distinct ids, at
      most `max` of them; the preview has each key once, and its entry for
      a category is the category's last selected id, absent when the
      category has none. */
  predicate Consistent(sel: SelectedCharms, preview: Preview, max: int) {
    (forall c :: Seqs.NoDuplicates(sel.Get(c)) && (|sel.Get(c)| == 0 || |sel.Get(c)| <= max))
    && DistinctKeys(preview)
    && (forall c :: Lookup(preview, c) == Last(sel.Get(c)))
  }

  /** The preview once a category's list has become `ids`: an entry for
      the list's last id, or none when the list is empty. */
  function Follow(p: Preview, category: CharmCategory, ids: seq<string>): Preview {
    if |ids| > 0 then Put(p, category, ids[|ids| - 1]) else Delete(p, category)
  }

  /** Replacing one category's list by another that keeps the limit and
      has no repeats, with the preview following it, keeps the invariant. */
  lemma FollowKeepsConsistent(sel: SelectedCharms, p: Preview, max: int,
                              category: CharmCategory, ids: seq<string>)
    requires Consistent(sel, p, max)
    requires Seqs.NoDuplicates(ids) && (|ids| == 0 || |ids| <= max)
    ensures Consistent(sel.With(category, ids), Follow(p, category, ids), max)
  {
    if |ids| > 0 {
      PutLaws(p, category, ids[|ids| - 1]);
    } else {
      DeleteLaws(p, category);
    }
  }

  /** What `getPreviewCharmsData` lists: the previewed charm of each
      preview entry that the catalogue holds, in entry order. */
  function PreviewCharmsData(p: Preview): (r: seq<Charm>)
    ensures |r| <= |p|
    ensures forall x :: x in r ==> exists e :: e in p && FindCharm(CharmData(e.0), e.1) == Some(x)
  {
    if |p| == 0 then []
    else
      var c := FindCharm(CharmData(p[0].0), p[0].1);
      var rest := PreviewCharmsData(p[1..]);
      assert forall e :: e in p[1..] ==> e in p;
      (if c.Some? then [c.value] else []) + rest
  }

  /** Each charm of the catalogue is the one its id finds in its own
      category's list, and has that category. */
  lemma CatalogueIdsResolve(category: CharmCategory, i: nat)
    requires i < |CharmData(category)|
    ensures FindCharm(CharmData(category), CharmData(category)[i].id) == Some(CharmData(category)[i])
    ensures CharmData(category)[i].category == category
  {
    CatalogueDistinctIds(category);
    FindDistinct(CharmData(category), i);
  }

  /** No two charms of one category's list share an id. */
  lemma CatalogueDistinctIds(category: CharmCategory)
    ensures forall a, b :: 0 <= a < b < |CharmData(category)| ==> CharmData(category)[a].id != CharmData(category)[b].id
    ensures forall a :: 0 <= a < |CharmData(category)| ==> CharmData(category)[a].category == category
  {
    match category
    case Symbols =>
    case Initials =>
    case Zodiac =>
    case Birthstones =>
  }

  /** In a list without repeated ids, each charm is the one its id finds. */
  lemma FindDistinct(list: seq<Charm>, i: nat)
    requires i < |list|
    requires forall a, b :: 0 <= a < b < |list| ==> list[a].id != list[b].id
    ensures FindCharm(list, list[i].id) == Some(list[i])
  {
    var r := FindCharm(list, list[i].id);
    var k :| 0 <= k < |list| && list[k] == r.value && forall j :: 0 <= j < k ==> list[j].id != list[i].id;
    assert k <= i;
  }

  /** Appending a catalogue charm's id to its category adds exactly that
      charm's price to the selection's price. */
  lemma AppendAddsPrice(sel: SelectedCharms, category: CharmCategory, i: nat)
    requires i < |CharmData(category)|
    ensures var charm := CharmData(category)[i];
            SelectionPrice(CharmData, sel.With(category, sel.Get(category) + [charm.id]))
            == SelectionPrice(CharmData, sel) + charm.price
  {
    var charm := CharmData(category)[i];
    var ids := sel.Get(category);
    var sel' := sel.With(category, ids + [charm.id]);
    CatalogueIdsResolve(category, i);
    IdsPriceAppend(CharmData, category, ids, [charm.id]);
    assert IdsPrice(CharmData, category, [charm.id]) == charm.price by {
      assert [charm.id][..0] == [];
    }
    SelectionPriceSplit(CharmData, sel);
    SelectionPriceSplit(CharmData, sel');
  }

  /** The inner loop of `getTotalPrice`: each id of one category whose
      charm the category's list holds adds that charm's price. */
  method AddCategoryPrices(data: CharmCategory -> seq<Charm>, category: CharmCategory,
                           ids: seq<string>, acc: real) returns (total: real)
    ensures total == acc + IdsPrice(data, category, ids)
  {
    total := acc;
    var j := 0;
    while j < |ids|
      invariant 0 <= j <= |ids|
      invariant total == acc + IdsPrice(data, category, ids[..j])
    {
      var charm := FindCharm(data(category), ids[j]);
      if charm.Some? {
        total := total + charm.value.price;
      }
      assert ids[..j + 1][..j] == ids[..j];
      j := j + 1;
    }
    assert ids[..j] == ids;
  }

  /** The customizer's state. */
  class Customizer {
    var selectedBase: BaseProduct
    var selectedCharms: SelectedCharms
    var activeCategory: CharmCategory
    var previewCharms: Preview
    const maxCharmsPerCategory: int

    predicate Valid()
      reads this
    {
      Consistent(selectedCharms, previewCharms, maxCharmsPerCategory)
    }

    /** The first base, no charms, the symbols tab and an empty preview. */
    constructor (maxCharmsPerCategory: int)
      ensures Valid()
      ensures selectedBase == BaseProducts[0] && selectedCharms == NoCharms
      ensures activeCategory == Symbols && previewCharms == []
      ensures this.maxCharmsPerCategory == maxCharmsPerCategory
    {
      selectedBase := BaseProducts[0];
      selectedCharms := NoCharms;
      activeCategory := Symbols;
      previewCharms := [];
      this.maxCharmsPerCategory := maxCharmsPerCategory;
    }

    /** `selectBase`: the new base, and every charm and preview entry
        cleared. */
    method SelectBase(base: BaseProduct)
      modifies this
      ensures Valid()
      ensures selectedBase == base && selectedCharms == NoCharms && previewCharms == []
      ensures activeCategory == old(activeCategory)
    {
      selectedBase := base;
      selectedCharms := NoCharms;
      previewCharms := [];
    }

    /** `setActiveCategory` from the category tabs. */
    method SetActiveCategory(category: CharmCategory)
      modifies this
      ensures activeCategory == category
      ensures selectedBase == old(selectedBase) && selectedCharms == old(selectedCharms)
      ensures previewCharms == old(previewCharms)
    {
      activeCategory := category;
    }

    /** `selectCharm`: a charm that does not fit the base changes nothing;
        a selected charm is removed from its category; any other is
        appended while its category is under the limit, and changes
        nothing at the limit. The preview follows the category's list. */
    method SelectCharm(charm: Charm)
      requires Valid()
      modifies this
      ensures Valid()
      ensures selectedBase == old(selectedBase) && activeCategory == old(activeCategory)
      ensures var ids := old(selectedCharms.Get(charm.category));
              if !Compatible(charm, selectedBase) then
                selectedCharms == old(selectedCharms) && previewCharms == old(previewCharms)
              else if charm.id in ids then
                && selectedCharms == old(selectedCharms).With(charm.category, Seqs.Without(ids, charm.id))
                && charm.id !in selectedCharms.Get(charm.category)
                && previewCharms == Follow(old(previewCharms), charm.category, selectedCharms.Get(charm.category))
              else if |ids| < maxCharmsPerCategory then
                && selectedCharms == old(selectedCharms).With(charm.category, ids + [charm.id])
                && previewCharms == Put(old(previewCharms), charm.category, charm.id)
              else
                selectedCharms == old(selectedCharms) && previewCharms == old(previewCharms)
    {
      if !(selectedBase.id in charm.compatibleBases) {
        return;
      }
      var category := charm.category;
      var current := selectedCharms.Get(category);
      if charm.id in current {
        var newSelected := Seqs.Without(current, charm.id);
        Seqs.WithoutSpec(current, charm.id);
        FollowKeepsConsistent(selectedCharms, previewCharms, maxCharmsPerCategory, category, newSelected);
        selectedCharms := selectedCharms.With(category, newSelected);
        if |newSelected| > 0 {
          previewCharms := Put(previewCharms, category, newSelected[|newSelected| - 1]);
        } else {
          previewCharms := Delete(previewCharms, category);
        }
      } else if |current| < maxCharmsPerCategory {
        var newSelected := current + [charm.id];
        assert Seqs.NoDuplicates(newSelected) by {
          forall i, j | 0 <= i < j < |newSelected| ensures newSelected[i] != newSelected[j] {
            if j == |current| { assert newSelected[i] == current[i]; }
          }
        }
        FollowKeepsConsistent(selectedCharms, previewCharms, maxCharmsPerCategory, category, newSelected);
        selectedCharms := selectedCharms.With(category, newSelected);
        previewCharms := Put(previewCharms, category, charm.id);
      }
    }

    /** `removeCharmFromCategory`: the id leaves the category's list, and
        the preview follows the list. */
    method RemoveCharmFromCategory(category: CharmCategory, charmId: string)
      requires Valid()
      modifies this
      ensures Valid()
      ensures selectedBase == old(selectedBase) && activeCategory == old(activeCategory)
      ensures selectedCharms ==
                old(selectedCharms).With(category, Seqs.Without(old(selectedCharms.Get(category)), charmId))
      ensures charmId !in selectedCharms.Get(category)
      ensures previewCharms == Follow(old(previewCharms), category, selectedCharms.Get(category))
    {
      var current := selectedCharms.Get(category);
      var newSelected := Seqs.Without(current, charmId);
      Seqs.WithoutSpec(current, charmId);
      FollowKeepsConsistent(selectedCharms, previewCharms, maxCharmsPerCategory, category, newSelected);
      selectedCharms := selectedCharms.With(category, newSelected);
      if |newSelected| > 0 {
        previewCharms := Put(previewCharms, category, newSelected[|newSelected| - 1]);
      } else {
        previewCharms := Delete(previewCharms, category);
      }
    }

    /** `clearAllCharms`: every category and the preview emptied, the base
        kept. */
    method ClearAllCharms()
      modifies this
      ensures Valid()
      ensures selectedCharms == NoCharms && previewCharms == []
      ensures selectedBase == old(selectedBase) && activeCategory == old(activeCategory)
    {
      selectedCharms := NoCharms;
      previewCharms := [];
    }

    /** `getTotalPrice`: the base price plus the price of every selected id
        that its category's catalogue list holds, the categories in key
        order and the ids in selection order. */
    method GetTotalPrice() returns (total: real)
      ensures total == selectedBase.price + SelectionPrice(CharmData, selectedCharms)
    {
      total := selectedBase.price;
      var k := 0;
      while k < |CategoryOrder|
        invariant 0 <= k <= |CategoryOrder|
        invariant total == selectedBase.price + CategoriesPrice(CharmData, selectedCharms, CategoryOrder[..k])
      {
        var category := CategoryOrder[k];
        total := AddCategoryPrices(CharmData, category, selectedCharms.Get(category), total);
        assert CategoryOrder[..k + 1][..k] == CategoryOrder[..k];
        k := k + 1;
      }
      assert CategoryOrder[..k] == CategoryOrder;
    }

    /** `getTotalCharmCount`: the number of selected ids, at most the limit
        times the four categories. */
    function TotalCharmCount(): (n: nat)
      reads this
      ensures n == |selectedCharms.zodiac| + |selectedCharms.initials|
                   + |selectedCharms.symbols| + |selectedCharms.birthstones|
      ensures n == 0 <==> selectedCharms == NoCharms
      ensures Valid() && maxCharmsPerCategory >= 0 ==> n <= 4 * maxCharmsPerCategory
    {
      assert Valid() ==> |selectedCharms.Get(Zodiac)| == 0 || |selectedCharms.Get(Zodiac)| <= maxCharmsPerCategory;
      assert Valid() ==> |selectedCharms.Get(Initials)| == 0 || |selectedCharms.Get(Initials)| <= maxCharmsPerCategory;
      assert Valid() ==> |selectedCharms.Get(Symbols)| == 0 || |selectedCharms.Get(Symbols)| <= maxCharmsPerCategory;
      assert Valid() ==> |selectedCharms.Get(Birthstones)| == 0 || |selectedCharms.Get(Birthstones)| <= maxCharmsPerCategory;
      SelectionCount(selectedCharms)
    }
  }
}
