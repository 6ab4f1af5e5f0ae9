/** The necklace-charm catalogue that the charm customizers share
    (src/components/CharmCustomizer.tsx and
    src/components/DragDropCharmCustomizer.tsx carry identical copies):
    the base chains, the charms of each category with the bases they fit,
    and the four per-category id lists of a selection. */
module Charms {
  import opened Wrappers
  import Seqs

  datatype CharmCategory = Zodiac | Initials | Symbols | Birthstones

  /** The key order of a `SelectedCharms` object, which `Object.entries`
      follows: the order of the keys in its literal. */
  const CategoryOrder: seq<CharmCategory> := [Zodiac, Initials, Symbols, Birthstones]

  datatype Metal = Gold | Silver | RoseGold

  /** `BaseProduct`; the image is left out. */
  datatype BaseProduct = BaseProduct(id: string, name: string, price: real, metal: Metal)

  /** `Charm`; the image is left out. */
  datatype Charm = Charm(id: string, name: string, category: CharmCategory, price: real,
                         compatibleBases: seq<string>)

  /** `SelectedCharms`: the chosen charm ids of each category. */
  datatype SelectedCharms = SelectedCharms(zodiac: seq<string>, initials: seq<string>,
                                           symbols: seq<string>, birthstones: seq<string>)
  {
    /** `selectedCharms[category]` */
    function Get(category: CharmCategory): seq<string> {
      match category
      case Zodiac => zodiac
      case Initials => initials
      case Symbols => symbols
      case Birthstones => birthstones
    }

    /** `{ ...selectedCharms, [category]: ids }` */
    function With(category: CharmCategory, ids: seq<string>): (r: SelectedCharms)
      ensures r.Get(category) == ids
      ensures forall c :: c != category ==> r.Get(c) == Get(c)
    {
      match category
      case Zodiac => this.(zodiac := ids)
      case Initials => this.(initials := ids)
      case Symbols => this.(symbols := ids)
      case Birthstones => this.(birthstones := ids)
    }
  }

  /** Replacing one category's ids changes the count by the difference in
      length. */
  lemma SelectionCountWith(sel: SelectedCharms, category: CharmCategory, ids: seq<string>)
    ensures SelectionCount(sel.With(category, ids)) + |sel.Get(category)| == SelectionCount(sel) + |ids|
  {
    match category
    case Zodiac =>
    case Initials =>
    case Symbols =>
    case Birthstones =>
  }

  const NoCharms: SelectedCharms := SelectedCharms([], [], [], [])

  const GoldChain: BaseProduct := BaseProduct("gold-chain", "Gold Chain Necklace", 450.0, Gold)
  const SilverChain: BaseProduct := BaseProduct("silver-chain", "Silver Chain Necklace", 350.0, Silver)
  const RoseGoldChain: BaseProduct :=
    BaseProduct("rose-gold-chain", "Rose Gold Chain Necklace", 500.0, RoseGold)

  /** `baseProducts`; the first one is selected initially. */
  const BaseProducts: seq<BaseProduct> := [GoldChain, SilverChain, RoseGoldChain]

  const AllBases: seq<string> := ["gold-chain", "silver-chain", "rose-gold-chain"]

  const LemonSlice: Charm := Charm("lemon-slice", "Lemon Slice", Symbols, 75.0, AllBases)

  /** `charmData`: the charms of each category, in catalogue order. */
  function CharmData(category: CharmCategory): seq<Charm> {
    match category
    case Symbols => [
      LemonSlice,
      Charm("starfish", "Starfish", Symbols, 85.0, ["gold-chain", "silver-chain"]),
      Charm("celestial", "Celestial Night", Symbols, 95.0, ["gold-chain", "rose-gold-chain"])]
    case Initials => [
      Charm("letter-a", "Letter A", Initials, 65.0, AllBases),
      Charm("letter-b", "Letter B", Initials, 65.0, ["gold-chain", "silver-chain"])]
    case Zodiac => [
      Charm("leo", "Leo", Zodiac, 85.0, ["gold-chain", "rose-gold-chain"]),
      Charm("taurus", "Taurus", Zodiac, 85.0, ["silver-chain", "gold-chain"])]
    case Birthstones => [
      Charm("ruby", "Ruby", Birthstones, 95.0, AllBases)]
  }

  /** `charm.compatibleBases.includes(base.id)` */
  predicate Compatible(charm: Charm, base: BaseProduct) {
    base.id in charm.compatibleBases
  }

  function FitsBase(base: BaseProduct): Charm -> bool {
    (c: Charm) => Compatible(c, base)
  }

  /** `getCompatibleCharms`: exactly the charms of the active category
      that fit the base, in catalogue order. */
  function CompatibleCharms(activeCategory: CharmCategory, base: BaseProduct): (r: seq<Charm>)
    ensures forall c :: c in r <==> c in CharmData(activeCategory) && Compatible(c, base)
    ensures Seqs.IsSubsequence(r, CharmData(activeCategory))
  {
    var list := CharmData(activeCategory);
    Seqs.FilterIsSubsequence(FitsBase(base), list);
    Seqs.SubsequenceMembers(Seqs.Filter(FitsBase(base), list), list);
    Seqs.Filter(FitsBase(base), list)
  }

  /** `list.find(c => c.id === id)`: the first charm with that id. */
  function FindCharm(list: seq<Charm>, id: string): (r: Option<Charm>)
    ensures r.Some? <==> exists c :: c in list && c.id == id
    ensures r.Some? ==> r.value in list && r.value.id == id
    ensures r.Some? ==> exists k :: 0 <= k < |list| && list[k] == r.value &&
                          forall j :: 0 <= j < k ==> list[j].id != id
  {
    if |list| == 0 then None
    else if list[0].id == id then Some(list[0])
    else
      var r := FindCharm(list[1..], id);
      assert forall c :: c in list[1..] ==> c in list;
      assert forall c :: c in list && c.id == id ==> c in list[1..];
      if r.Some? then
        var k :| 0 <= k < |list[1..]| && list[1..][k] == r.value &&
                 forall j :: 0 <= j < k ==> list[1..][j].id != id;
        assert list[k + 1] == r.value;
        assert forall j :: 0 <= j < k + 1 ==> list[j].id != id by {
          forall j | 0 <= j < k + 1 ensures list[j].id != id {
            if j > 0 { assert list[j] == list[1..][j - 1]; }
          }
        }
        r
      else r
  }

  /** The price of a charm id of a category: its charm's price, or 0 for
      an id the category's list does not hold. */
  function IdPrice(data: CharmCategory -> seq<Charm>, category: CharmCategory, id: string): real {
    var c := FindCharm(data(category), id);
    if c.Some? then c.value.price else 0.0
  }

  /** The summed prices of a list of ids of one category. */
  function IdsPrice(data: CharmCategory -> seq<Charm>, category: CharmCategory, ids: seq<string>): real
    decreases |ids|
  {
    if |ids| == 0 then 0.0
    else IdsPrice(data, category, ids[..|ids| - 1]) + IdPrice(data, category, ids[|ids| - 1])
  }

  /** The summed prices of the categories of `order`, in that order. */
  function CategoriesPrice(data: CharmCategory -> seq<Charm>, sel: SelectedCharms,
                           order: seq<CharmCategory>): real
    decreases |order|
  {
    if |order| == 0 then 0.0
    else CategoriesPrice(data, sel, order[..|order| - 1])
         + IdsPrice(data, order[|order| - 1], sel.Get(order[|order| - 1]))
  }

  /** The price of every selected charm, the four categories in key
      order. */
  function SelectionPrice(data: CharmCategory -> seq<Charm>, sel: SelectedCharms): real {
    CategoriesPrice(data, sel, CategoryOrder)
  }

  /** Prices add up over a split list of ids. */
  lemma {:induction false} IdsPriceAppend(data: CharmCategory -> seq<Charm>, category: CharmCategory,
                                          a: seq<string>, b: seq<string>)
    ensures IdsPrice(data, category, a + b) == IdsPrice(data, category, a) + IdsPrice(data, category, b)
    decreases |b|
  {
    if |b| == 0 {
      assert a + b == a;
    } else {
      assert (a + b)[..|a + b| - 1] == a + b[..|b| - 1];
      IdsPriceAppend(data, category, a, b[..|b| - 1]);
    }
  }

  /** The selection price of the four categories is the sum of their
      four list prices. */
  lemma SelectionPriceSplit(data: CharmCategory -> seq<Charm>, sel: SelectedCharms)
    ensures SelectionPrice(data, sel) ==
              IdsPrice(data, Zodiac, sel.zodiac) + IdsPrice(data, Initials, sel.initials)
              + IdsPrice(data, Symbols, sel.symbols) + IdsPrice(data, Birthstones, sel.birthstones)
  {
    var o1, o2, o3 := [Zodiac], [Zodiac, Initials], [Zodiac, Initials, Symbols];
    assert o1[..0] == [] && o2[..1] == o1 && o3[..2] == o2 && CategoryOrder[..3] == o3;
    assert CategoriesPrice(data, sel, o1) == IdsPrice(data, Zodiac, sel.zodiac);
    assert CategoriesPrice(data, sel, o2) == CategoriesPrice(data, sel, o1) + IdsPrice(data, Initials, sel.initials);
    assert CategoriesPrice(data, sel, o3) == CategoriesPrice(data, sel, o2) + IdsPrice(data, Symbols, sel.symbols);
  }

  /** The number of ids of the categories of `order`. */
  function CategoriesCount(sel: SelectedCharms, order: seq<CharmCategory>): nat
    decreases |order|
  {
    if |order| == 0 then 0
    else CategoriesCount(sel, order[..|order| - 1]) + |sel.Get(order[|order| - 1])|
  }

  /** `Object.values(selectedCharms).flat().length` */
  function SelectionCount(sel: SelectedCharms): (n: nat)
    ensures n == |sel.zodiac| + |sel.initials| + |sel.symbols| + |sel.birthstones|
    ensures n == 0 <==> sel == NoCharms
  {
    var o1, o2, o3 := [Zodiac], [Zodiac, Initials], [Zodiac, Initials, Symbols];
    assert o1[..0] == [] && o2[..1] == o1 && o3[..2] == o2 && CategoryOrder[..3] == o3;
    assert CategoriesCount(sel, o1) == |sel.zodiac|;
    assert CategoriesCount(sel, o2) == CategoriesCount(sel, o1) + |sel.initials|;
    assert CategoriesCount(sel, o3) == CategoriesCount(sel, o2) + |sel.symbols|;
    CategoriesCount(sel, CategoryOrder)
  }
}
