/** The drag-and-drop charm customizer
    (src/components/DragDropCharmCustomizer.tsx): charms dropped onto the
    necklace at percentage coordinates, repeats allowed, every placed charm
    fitting the current base. */
module DragDropCustomizer {
  import opened Wrappers
  import opened Charms
  import Seqs

  /** `PlacedCharm`: a charm, its drop position in percent of the
      necklace area, and its placement id. */
  datatype PlacedCharm = PlacedCharm(charm: Charm, x: real, y: real, id: string)

  /** The necklace area's `getBoundingClientRect()`. */
  datatype Rect = Rect(left: real, top: real, width: real, height: real)

  /** `((client - start) / size) * 100`: a cursor coordinate as a
      percentage of the area, 0 at its start edge and 100 at its end
      edge. */
  function Percent(client: real, start: real, size: real): (r: real)
    requires size > 0.0
    ensures start <= client <= start + size ==> 0.0 <= r <= 100.0
    ensures client == start ==> r == 0.0
    ensures client == start + size ==> r == 100.0
    ensures client < start <==> r < 0.0
  {
    var f := (client - start) / size;
    assert f * size == client - start;
    f * 100.0
  }

  function FitsPlacement(base: BaseProduct): PlacedCharm -> bool {
    (pc: PlacedCharm) => Compatible(pc.charm, base)
  }

  function IdIsNot(placementId: string): PlacedCharm -> bool {
    (pc: PlacedCharm) => pc.id != placementId
  }

  /** `placedCharms.reduce((total, pc) => total + pc.charm.price, 0)` */
  function PlacedPrice(placed: seq<PlacedCharm>): real
    decreases |placed|
  {
    if |placed| == 0 then 0.0
    else PlacedPrice(placed[..|placed| - 1]) + placed[|placed| - 1].charm.price
  }

  /** The charms' price adds up over a split list, so every placement
      counts, repeats included, and a new placement adds its own charm's
      price. */
  lemma {:induction false} PlacedPriceAppend(a: seq<PlacedCharm>, b: seq<PlacedCharm>)
    ensures PlacedPrice(a + b) == PlacedPrice(a) + PlacedPrice(b)
    decreases |b|
  {
    if |b| == 0 {
      assert a + b == a;
    } else {
      assert (a + b)[..|a + b| - 1] == a + b[..|b| - 1];
      PlacedPriceAppend(a, b[..|b| - 1]);
    }
  }

  /** The charm ids of a list of placements, in order. */
  function CharmIds(placed: seq<PlacedCharm>): (r: seq<string>)
    ensures |r| == |placed|
    decreases |placed|
  {
    if |placed| == 0 then []
    else CharmIds(placed[..|placed| - 1]) + [placed[|placed| - 1].charm.id]
  }

  function InCategory(category: CharmCategory): PlacedCharm -> bool {
    (pc: PlacedCharm) => pc.charm.category == category
  }

  /** What `getSelectedCharmsForCallback` builds: each placement's charm
      id pushed onto its charm's category list. */
  function Grouped(placed: seq<PlacedCharm>): SelectedCharms
    decreases |placed|
  {
    if |placed| == 0 then NoCharms
    else
      var g := Grouped(placed[..|placed| - 1]);
      var last := placed[|placed| - 1];
      g.With(last.charm.category, g.Get(last.charm.category) + [last.charm.id])
  }

  /** Each category's list holds the charm ids of exactly the placements
      of that category, in placement order, so there is one id per
      placement. */
  lemma {:induction false} GroupedSpec(placed: seq<PlacedCharm>)
    ensures forall c :: Grouped(placed).Get(c) == CharmIds(Seqs.Filter(InCategory(c), placed))
    ensures SelectionCount(Grouped(placed)) == |placed|
    decreases |placed|
  {
    if |placed| > 0 {
      GroupedSpec(placed[..|placed| - 1]);
      forall c ensures Grouped(placed).Get(c) == CharmIds(Seqs.Filter(InCategory(c), placed)) {
        GroupedStep(placed, c);
      }
      GroupedCountStep(placed);
    }
  }

  /** One placement more: its category's list gains its charm id, the
      others are as before. */
  lemma GroupedStep(placed: seq<PlacedCharm>, c: CharmCategory)
    requires |placed| > 0
    requires Grouped(placed[..|placed| - 1]).Get(c) == CharmIds(Seqs.Filter(InCategory(c), placed[..|placed| - 1]))
    ensures Grouped(placed).Get(c) == CharmIds(Seqs.Filter(InCategory(c), placed))
  {
    var front := placed[..|placed| - 1];
    var last := placed[|placed| - 1];
    var g := Grouped(front);
    assert Grouped(placed) == g.With(last.charm.category, g.Get(last.charm.category) + [last.charm.id]);
    var kept := Seqs.Filter(InCategory(c), front);
    if last.charm.category == c {
      assert Seqs.Filter(InCategory(c), placed) == kept + [last];
      CharmIdsSnoc(kept, last);
    } else {
      assert Seqs.Filter(InCategory(c), placed) == kept;
    }
  }

  lemma GroupedCountStep(placed: seq<PlacedCharm>)
    requires |placed| > 0
    ensures SelectionCount(Grouped(placed)) == SelectionCount(Grouped(placed[..|placed| - 1])) + 1
  {
    var g := Grouped(placed[..|placed| - 1]);
    var last := placed[|placed| - 1];
    SelectionCountWith(g, last.charm.category, g.Get(last.charm.category) + [last.charm.id]);
  }

  lemma CharmIdsSnoc(a: seq<PlacedCharm>, x: PlacedCharm)
    ensures CharmIds(a + [x]) == CharmIds(a) + [x.charm.id]
  {
    assert (a + [x])[..|a + [x]| - 1] == a;
  }

  /** The customizer's state. */
  class Customizer {
    var selectedBase: BaseProduct
    var placedCharms: seq<PlacedCharm>
    var activeCategory: CharmCategory
    var draggedCharm: Option<Charm>
    var isDragOver: bool

    /** Every placed charm fits the base. */
    predicate Valid()
      reads this
    {
      forall i :: 0 <= i < |placedCharms| ==> Compatible(placedCharms[i].charm, selectedBase)
    }

    constructor ()
      ensures Valid()
      ensures selectedBase == BaseProducts[0] && placedCharms == [] && activeCategory == Symbols
      ensures draggedCharm == None && !isDragOver
    {
      selectedBase := BaseProducts[0];
      placedCharms := [];
      activeCategory := Symbols;
      draggedCharm := None;
      isDragOver := false;
    }

    /** `selectBase`: the new base, and the placements that fit it, in
        their order. */
    method SelectBase(base: BaseProduct)
      modifies this
      ensures Valid()
      ensures selectedBase == base
      ensures placedCharms == Seqs.Filter(FitsPlacement(base), old(placedCharms))
      ensures Seqs.IsSubsequence(placedCharms, old(placedCharms))
      ensures forall i :: 0 <= i < |old(placedCharms)| && Compatible(old(placedCharms)[i].charm, base) ==>
                old(placedCharms)[i] in placedCharms
      ensures activeCategory == old(activeCategory) && draggedCharm == old(draggedCharm)
      ensures isDragOver == old(isDragOver)
    {
      Seqs.FilterIsSubsequence(FitsPlacement(base), placedCharms);
      selectedBase := base;
      placedCharms := Seqs.Filter(FitsPlacement(base), placedCharms);
    }

    /** `handleDragStart` */
    method HandleDragStart(charm: Charm)
      requires Valid()
      modifies this
      ensures Valid() && draggedCharm == Some(charm)
      ensures selectedBase == old(selectedBase) && placedCharms == old(placedCharms)
      ensures activeCategory == old(activeCategory) && isDragOver == old(isDragOver)
    {
      draggedCharm := Some(charm);
    }

    /** `handleDragOver` (`over` true) and `handleDragLeave` (false). */
    method SetDragOver(over: bool)
      requires Valid()
      modifies this
      ensures Valid() && isDragOver == over
      ensures selectedBase == old(selectedBase) && placedCharms == old(placedCharms)
      ensures activeCategory == old(activeCategory) && draggedCharm == old(draggedCharm)
    {
      isDragOver := over;
    }

    /** `handleDrop` at cursor (`clientX`, `clientY`) over the necklace
        area `target` (None when it is not mounted), `stamp` being the
        text of `Date.now()`: without a dragged charm or an area nothing is
        placed; a charm that does not fit the base is refused and stays
        dragged; any other is placed once, at the cursor's percentage
        position, and is no longer dragged. */
    method HandleDrop(clientX: real, clientY: real, target: Option<Rect>, stamp: string)
      requires Valid()
      requires target.Some? ==> target.value.width > 0.0 && target.value.height > 0.0
      modifies this
      ensures Valid() && !isDragOver
      ensures selectedBase == old(selectedBase) && activeCategory == old(activeCategory)
      ensures if old(draggedCharm).None? || target.None? || !Compatible(old(draggedCharm).value, selectedBase)
              then placedCharms == old(placedCharms) && draggedCharm == old(draggedCharm)
              else
                var charm, rect := old(draggedCharm).value, target.value;
                && placedCharms == old(placedCharms) + [PlacedCharm(charm,
                     Percent(clientX, rect.left, rect.width), Percent(clientY, rect.top, rect.height),
                     charm.id + "-" + stamp)]
                && draggedCharm == None
    {
      isDragOver := false;
      if draggedCharm.None? || target.None? {
        return;
      }
      var charm := draggedCharm.value;
      var rect := target.value;
      var x := ((clientX - rect.left) / rect.width) * 100.0;
      var y := ((clientY - rect.top) / rect.height) * 100.0;
      if !(selectedBase.id in charm.compatibleBases) {
        return;
      }
      placedCharms := placedCharms + [PlacedCharm(charm, x, y, charm.id + "-" + stamp)];
      draggedCharm := None;
    }

    /** `removePlacedCharm`: the placements with that placement id go, the
        others stay in their order. */
    method RemovePlacedCharm(placementId: string)
      requires Valid()
      modifies this
      ensures Valid()
      ensures placedCharms == Seqs.Filter(IdIsNot(placementId), old(placedCharms))
      ensures forall i :: 0 <= i < |placedCharms| ==> placedCharms[i].id != placementId
      ensures forall i :: 0 <= i < |old(placedCharms)| && old(placedCharms)[i].id != placementId ==>
                old(placedCharms)[i] in placedCharms
      ensures Seqs.IsSubsequence(placedCharms, old(placedCharms))
      ensures selectedBase == old(selectedBase) && activeCategory == old(activeCategory)
      ensures draggedCharm == old(draggedCharm) && isDragOver == old(isDragOver)
    {
      Seqs.FilterIsSubsequence(IdIsNot(placementId), placedCharms);
      placedCharms := Seqs.Filter(IdIsNot(placementId), placedCharms);
    }

    /** `clearAllCharms` */
    method ClearAllCharms()
      modifies this
      ensures Valid() && placedCharms == []
      ensures selectedBase == old(selectedBase) && activeCategory == old(activeCategory)
      ensures draggedCharm == old(draggedCharm) && isDragOver == old(isDragOver)
    {
      placedCharms := [];
    }

    /** `getTotalPrice`: the base price plus every placed charm's price. */
    function TotalPrice(): real
      reads this
    {
      selectedBase.price + PlacedPrice(placedCharms)
    }

    /** `getSelectedCharmsForCallback`: the placed charms' ids grouped by
        category. */
    method GetSelectedCharmsForCallback() returns (selected: SelectedCharms)
      ensures selected == Grouped(placedCharms)
      ensures forall c :: selected.Get(c) == CharmIds(Seqs.Filter(InCategory(c), placedCharms))
      ensures SelectionCount(selected) == |placedCharms|
    {
      selected := NoCharms;
      var i := 0;
      while i < |placedCharms|
        invariant 0 <= i <= |placedCharms|
        invariant selected == Grouped(placedCharms[..i])
      {
        var pc := placedCharms[i];
        selected := selected.With(pc.charm.category, selected.Get(pc.charm.category) + [pc.charm.id]);
        assert placedCharms[..i + 1][..i] == placedCharms[..i];
        i := i + 1;
      }
      assert placedCharms[..i] == placedCharms;
      GroupedSpec(placedCharms);
    }
  }

  /** A drop that places a charm raises the total by that charm's price. */
  lemma DropRaisesTotal(base: BaseProduct, placed: seq<PlacedCharm>, pc: PlacedCharm)
    ensures base.price + PlacedPrice(placed + [pc]) == base.price + PlacedPrice(placed) + pc.charm.price
  {
    PlacedPriceAppend(placed, [pc]);
    assert [pc][..0] == [];
  }
}
