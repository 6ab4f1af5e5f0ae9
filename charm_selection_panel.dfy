/** The selected-charms panel (src/components/CharmSelectionPanel.tsx):
    the charms of a selection listed category by category, a message when
    nothing is selected, and the charms' subtotal. */
module SelectionPanel {
  import opened Wrappers
  import opened Charms

  /** The entries listed for one category's ids: the charm each id finds
      in the category's list, tagged with the category; ids that find
      none are skipped. */
  function ListedIds(data: CharmCategory -> seq<Charm>, category: CharmCategory, ids: seq<string>): seq<Charm>
    decreases |ids|
  {
    if |ids| == 0 then []
    else
      var c := FindCharm(data(category), ids[|ids| - 1]);
      ListedIds(data, category, ids[..|ids| - 1]) + (if c.Some? then [c.value.(category := category)] else [])
  }

  /** The entries of the categories of `order`, in that order. */
  function Listed(data: CharmCategory -> seq<Charm>, sel: SelectedCharms, order: seq<CharmCategory>): seq<Charm>
    decreases |order|
  {
    if |order| == 0 then []
    else Listed(data, sel, order[..|order| - 1])
         + ListedIds(data, order[|order| - 1], sel.Get(order[|order| - 1]))
  }

  /** What `getAllSelectedCharms` returns. */
  function AllSelected(data: CharmCategory -> seq<Charm>, sel: SelectedCharms): seq<Charm> {
    Listed(data, sel, CategoryOrder)
  }

  /** The summed prices of listed charms. */
  function ListedPrice(charms: seq<Charm>): real
    decreases |charms|
  {
    if |charms| == 0 then 0.0 else ListedPrice(charms[..|charms| - 1]) + charms[|charms| - 1].price
  }

  lemma {:induction false} ListedPriceAppend(a: seq<Charm>, b: seq<Charm>)
    ensures ListedPrice(a + b) == ListedPrice(a) + ListedPrice(b)
    decreases |b|
  {
    if |b| == 0 {
      assert a + b == a;
    } else {
      assert (a + b)[..|a + b| - 1] == a + b[..|b| - 1];
      ListedPriceAppend(a, b[..|b| - 1]);
    }
  }

  /** Every id found in the category's list gives one entry, in id order,
      with the charm's id and price and the category as its category; ids
      not found give none; and the entries cost what the ids cost. */
  lemma {:induction false} ListedIdsSpec(data: CharmCategory -> seq<Charm>, category: CharmCategory, ids: seq<string>)
    ensures var r := ListedIds(data, category, ids);
            && |r| <= |ids|
            && (forall i :: 0 <= i < |r| ==>
                  r[i].category == category && r[i].id in ids
                  && exists c :: c in data(category) && c.(category := category) == r[i])
            && ((forall id :: id in ids ==> FindCharm(data(category), id).Some?) ==> |r| == |ids|)
            && ListedPrice(r) == IdsPrice(data, category, ids)
    decreases |ids|
  {
    if |ids| > 0 {
      var front := ids[..|ids| - 1];
      ListedIdsSpec(data, category, front);
      var before := ListedIds(data, category, front);
      var c := FindCharm(data(category), ids[|ids| - 1]);
      var extra := if c.Some? then [c.value.(category := category)] else [];
      ListedPriceAppend(before, extra);
      if c.Some? {
        assert extra[..0] == [];
      }
      assert forall id :: id in front ==> id in ids;
      var r := ListedIds(data, category, ids);
      forall i | 0 <= i < |r|
        ensures r[i].category == category && r[i].id in ids
        ensures exists c :: c in data(category) && c.(category := category) == r[i]
      {
        if i < |before| {
          assert r[i] == before[i];
        } else {
          assert r[i] == c.value.(category := category);
        }
      }
    }
  }

  /** The list visits the categories in key order, zodiac, initials,
      symbols and birthstones. */
  lemma AllSelectedOrder(data: CharmCategory -> seq<Charm>, sel: SelectedCharms)
    ensures AllSelected(data, sel) ==
              ListedIds(data, Zodiac, sel.zodiac) + ListedIds(data, Initials, sel.initials)
              + ListedIds(data, Symbols, sel.symbols) + ListedIds(data, Birthstones, sel.birthstones)
  {
    var o1, o2, o3 := [Zodiac], [Zodiac, Initials], [Zodiac, Initials, Symbols];
    assert o1[..0] == [] && o2[..1] == o1 && o3[..2] == o2 && CategoryOrder[..3] == o3;
    assert Listed(data, sel, o1) == ListedIds(data, Zodiac, sel.zodiac);
  }

  /** Every entry is a charm of its category's list, for an id selected
      in that category. */
  predicate Resolved(data: CharmCategory -> seq<Charm>, sel: SelectedCharms, r: seq<Charm>) {
    forall i :: 0 <= i < |r| ==>
      r[i].id in sel.Get(r[i].category)
      && exists c :: c in data(r[i].category) && c.(category := r[i].category) == r[i]
  }

  lemma ResolvedAppend(data: CharmCategory -> seq<Charm>, sel: SelectedCharms, a: seq<Charm>, b: seq<Charm>)
    requires Resolved(data, sel, a) && Resolved(data, sel, b)
    ensures Resolved(data, sel, a + b)
  {
    forall i | 0 <= i < |a + b|
      ensures (a + b)[i].id in sel.Get((a + b)[i].category)
      ensures exists c :: c in data((a + b)[i].category) && c.(category := (a + b)[i].category) == (a + b)[i]
    {
      if i < |a| {
        assert (a + b)[i] == a[i];
      } else {
        assert (a + b)[i] == b[i - |a|];
      }
    }
  }

  lemma ListedIdsResolved(data: CharmCategory -> seq<Charm>, sel: SelectedCharms, category: CharmCategory)
    ensures Resolved(data, sel, ListedIds(data, category, sel.Get(category)))
  {
    ListedIdsSpec(data, category, sel.Get(category));
  }

  /** Each entry is a charm of its category's list, for an id selected in
      that category; there are at most as many entries as selected ids,
      exactly as many when every id is found; and the entries cost what
      the selection costs. */
  lemma AllSelectedSpec(data: CharmCategory -> seq<Charm>, sel: SelectedCharms)
    ensures var r := AllSelected(data, sel);
            && |r| <= SelectionCount(sel)
            && Resolved(data, sel, r)
            && ((forall cat, id :: id in sel.Get(cat) ==> FindCharm(data(cat), id).Some?) ==>
                  |r| == SelectionCount(sel))
            && ListedPrice(r) == SelectionPrice(data, sel)
  {
    AllSelectedOrder(data, sel);
    var z := ListedIds(data, Zodiac, sel.zodiac);
    var n := ListedIds(data, Initials, sel.initials);
    var s := ListedIds(data, Symbols, sel.symbols);
    var b := ListedIds(data, Birthstones, sel.birthstones);
    AllSelectedCount(data, sel, z, n, s, b);
    AllSelectedPrice(data, sel, z, n, s, b);
    ListedIdsResolved(data, sel, Zodiac);
    ListedIdsResolved(data, sel, Initials);
    ListedIdsResolved(data, sel, Symbols);
    ListedIdsResolved(data, sel, Birthstones);
    ResolvedAppend(data, sel, z, n);
    ResolvedAppend(data, sel, z + n, s);
    ResolvedAppend(data, sel, z + n + s, b);
  }

  lemma AllSelectedCount(data: CharmCategory -> seq<Charm>, sel: SelectedCharms,
                         z: seq<Charm>, n: seq<Charm>, s: seq<Charm>, b: seq<Charm>)
    requires z == ListedIds(data, Zodiac, sel.zodiac) && n == ListedIds(data, Initials, sel.initials)
    requires s == ListedIds(data, Symbols, sel.symbols) && b == ListedIds(data, Birthstones, sel.birthstones)
    ensures |z + n + s + b| <= SelectionCount(sel)
    ensures (forall cat, id :: id in sel.Get(cat) ==> FindCharm(data(cat), id).Some?) ==>
              |z + n + s + b| == SelectionCount(sel)
  {
    ListedIdsSpec(data, Zodiac, sel.zodiac);
    ListedIdsSpec(data, Initials, sel.initials);
    ListedIdsSpec(data, Symbols, sel.symbols);
    ListedIdsSpec(data, Birthstones, sel.birthstones);
    if forall cat, id :: id in sel.Get(cat) ==> FindCharm(data(cat), id).Some? {
      assert forall id :: id in sel.zodiac ==> FindCharm(data(Zodiac), id).Some?;
      assert forall id :: id in sel.initials ==> FindCharm(data(Initials), id).Some?;
      assert forall id :: id in sel.symbols ==> FindCharm(data(Symbols), id).Some?;
      assert forall id :: id in sel.birthstones ==> FindCharm(data(Birthstones), id).Some?;
    }
  }

  lemma AllSelectedPrice(data: CharmCategory -> seq<Charm>, sel: SelectedCharms,
                         z: seq<Charm>, n: seq<Charm>, s: seq<Charm>, b: seq<Charm>)
    requires z == ListedIds(data, Zodiac, sel.zodiac) && n == ListedIds(data, Initials, sel.initials)
    requires s == ListedIds(data, Symbols, sel.symbols) && b == ListedIds(data, Birthstones, sel.birthstones)
    ensures ListedPrice(z + n + s + b) == SelectionPrice(data, sel)
  {
    SelectionPriceSplit(data, sel);
    ListedIdsSpec(data, Zodiac, sel.zodiac);
    ListedIdsSpec(data, Initials, sel.initials);
    ListedIdsSpec(data, Symbols, sel.symbols);
    ListedIdsSpec(data, Birthstones, sel.birthstones);
    ListedPriceAppend(z + n + s, b);
    ListedPriceAppend(z + n, s);
    ListedPriceAppend(z, n);
  }

  /** `getAllSelectedCharms`, with its nested `forEach` loops. */
  method GetAllSelectedCharms(sel: SelectedCharms, data: CharmCategory -> seq<Charm>) returns (all: seq<Charm>)
    ensures all == AllSelected(data, sel)
  {
    all := [];
    var k := 0;
    while k < |CategoryOrder|
      invariant 0 <= k <= |CategoryOrder|
      invariant all == Listed(data, sel, CategoryOrder[..k])
    {
      var category := CategoryOrder[k];
      var ids := sel.Get(category);
      var j := 0;
      while j < |ids|
        invariant 0 <= j <= |ids|
        invariant all == Listed(data, sel, CategoryOrder[..k]) + ListedIds(data, category, ids[..j])
      {
        var charm := FindCharm(data(category), ids[j]);
        if charm.Some? {
          all := all + [charm.value.(category := category)];
        }
        assert ids[..j + 1][..j] == ids[..j];
        j := j + 1;
      }
      assert ids[..j] == ids;
      assert CategoryOrder[..k + 1][..k] == CategoryOrder[..k];
      k := k + 1;
    }
    assert CategoryOrder[..k] == CategoryOrder;
  }

  /** The subtotal line as written: `totalPrice - (selectedCharms ? 450 :
      0)`, where the selection object is always truthy. */
  function DisplayedSubtotalAsWritten(totalPrice: real): real {
    totalPrice - 450.0
  }

  /** The charms' subtotal: the total less the price of the chosen base. */
  function CharmSubtotal(totalPrice: real, base: BaseProduct): real {
    totalPrice - base.price
  }

  /** For the total the customizer reports, the charms' subtotal is the
      summed price of the charms the panel lists, whatever the base. */
  lemma CharmSubtotalIsListedPrice(base: BaseProduct, sel: SelectedCharms)
    ensures CharmSubtotal(base.price + SelectionPrice(CharmData, sel), base)
            == ListedPrice(AllSelected(CharmData, sel))
  {
    AllSelectedSpec(CharmData, sel);
  }

  /** The as-written panel agrees with the charms' price only on a base of
      price 450: on the silver chain with one lemon slice it shows a
      subtotal of -25 beside a listed charm that costs 75. */
  lemma AsWrittenSubtotalWrongOffGold()
    ensures var sel := NoCharms.With(Symbols, ["lemon-slice"]);
            var total := SilverChain.price + SelectionPrice(CharmData, sel);
            && total == 425.0
            && DisplayedSubtotalAsWritten(total) == -25.0
            && View(sel, CharmData, 1, total).subtotal == -25.0
            && View(sel, CharmData, 1, total).charms == [LemonSlice]
            && ListedPrice(AllSelected(CharmData, sel)) == 75.0
  {
    var sel := NoCharms.With(Symbols, ["lemon-slice"]);
    SelectionPriceSplit(CharmData, sel);
    assert FindCharm(CharmData(Symbols), "lemon-slice") == Some(LemonSlice);
    assert ["lemon-slice"][..0] == [];
    AllSelectedSpec(CharmData, sel);
  }

  /** What the panel renders. */
  datatype PanelView =
    | NothingSelected
    | Selection(count: int, subtotal: real, charms: seq<Charm>)

  /** The panel as written: the "No charms selected" message when the
      count is 0; otherwise the count, the listed charms and the subtotal
      line, which takes 450 off the total whatever base was chosen. */
  function View(sel: SelectedCharms, data: CharmCategory -> seq<Charm>, totalCharmCount: int,
                totalPrice: real): (v: PanelView)
    ensures v.NothingSelected? <==> totalCharmCount == 0
    ensures v.Selection? ==> v.count == totalCharmCount && v.charms == AllSelected(data, sel)
                             && v.subtotal == totalPrice - 450.0
  {
    if totalCharmCount == 0 then NothingSelected
    else Selection(totalCharmCount, DisplayedSubtotalAsWritten(totalPrice), AllSelected(data, sel))
  }

  /** The panel as intended: the same, with the subtotal line showing the
      total less the chosen base's price. */
  function CorrectedView(sel: SelectedCharms, data: CharmCategory -> seq<Charm>, totalCharmCount: int,
                         totalPrice: real, base: BaseProduct): (v: PanelView)
    ensures v.NothingSelected? <==> totalCharmCount == 0
    ensures v.Selection? ==> v.count == totalCharmCount && v.charms == AllSelected(data, sel)
                             && v.subtotal + base.price == totalPrice
  {
    if totalCharmCount == 0 then NothingSelected
    else Selection(totalCharmCount, CharmSubtotal(totalPrice, base), AllSelected(data, sel))
  }

  /** For the total the customizer reports, the intended panel's subtotal
      is the summed price of the charms it lists, on every base. */
  lemma CorrectedViewShowsListedPrice(base: BaseProduct, sel: SelectedCharms, totalCharmCount: int)
    requires totalCharmCount != 0
    ensures var v := CorrectedView(sel, CharmData, totalCharmCount,
                                   base.price + SelectionPrice(CharmData, sel), base);
            v.Selection? && v.subtotal == ListedPrice(v.charms)
  {
    CharmSubtotalIsListedPrice(base, sel);
  }
}
