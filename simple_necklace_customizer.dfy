/** The simple necklace customizer
    (src/components/SimpleNecklaceCustomizer.tsx): an optional base chain
    and at most five distinct charms, each drawn at one of five fixed spots
    on the necklace; every change reports the base, the charms and the
    total to the parent. */
module SimpleNecklace {
  import opened Wrappers
  import Seqs
  import Charms

  datatype Category = Letters | Symbols | Birthstones | Zodiac

  /** This component's own `Charm`; the image is left out. */
  datatype Charm = Charm(id: string, name: string, price: real, category: Category)

  /** `BaseNecklace`; the image is left out. */
  datatype BaseNecklace = BaseNecklace(id: string, name: string, price: real, metal: Charms.Metal)

  /** The most charms a necklace carries. */
  const CharmLimit: nat := 5

  const BaseNecklaces: seq<BaseNecklace> := [
    BaseNecklace("gold-chain", "Gold Chain", 395.0, Charms.Gold),
    BaseNecklace("silver-chain", "Silver Chain", 345.0, Charms.Silver),
    BaseNecklace("rose-gold-chain", "Rose Gold Chain", 425.0, Charms.RoseGold)]

  /** `charms`, in catalogue order. */
  const AllCharms: seq<Charm> := [
    Charm("letter-A", "A", 65.0, Letters), Charm("letter-B", "B", 65.0, Letters),
    Charm("letter-C", "C", 65.0, Letters), Charm("letter-D", "D", 65.0, Letters),
    Charm("letter-E", "E", 65.0, Letters),
    Charm("heart", "Heart", 75.0, Symbols), Charm("star", "Star", 75.0, Symbols),
    Charm("moon", "Moon", 75.0, Symbols), Charm("sun", "Sun", 75.0, Symbols),
    Charm("ruby", "Ruby", 95.0, Birthstones), Charm("emerald", "Emerald", 95.0, Birthstones),
    Charm("sapphire", "Sapphire", 95.0, Birthstones),
    Charm("aries", "Aries", 85.0, Zodiac), Charm("taurus", "Taurus", 85.0, Zodiac),
    Charm("gemini", "Gemini", 85.0, Zodiac)]

  function OfCategory(category: Category): Charm -> bool {
    (c: Charm) => c.category == category
  }

  /** `filteredCharms`: exactly the catalogue's charms of the active
      category, in catalogue order. */
  function FilteredCharms(activeCategory: Category): (r: seq<Charm>)
    ensures forall c :: c in r <==> c in AllCharms && c.category == activeCategory
    ensures Seqs.IsSubsequence(r, AllCharms)
  {
    Seqs.FilterIsSubsequence(OfCategory(activeCategory), AllCharms);
    Seqs.SubsequenceMembers(Seqs.Filter(OfCategory(activeCategory), AllCharms), AllCharms);
    Seqs.Filter(OfCategory(activeCategory), AllCharms)
  }

  /** `charms.reduce((total, charm) => total + charm.price, 0)` */
  function CharmsPrice(charms: seq<Charm>): real
    decreases |charms|
  {
    if |charms| == 0 then 0.0 else CharmsPrice(charms[..|charms| - 1]) + charms[|charms| - 1].price
  }

  /** `updateCustomization`'s total: the base's price, or 0 without a
      base, plus the charms' prices. */
  function TotalPrice(base: Option<BaseNecklace>, charms: seq<Charm>): real {
    (if base.Some? then base.value.price else 0.0) + CharmsPrice(charms)
  }

  /** What `onCustomizationChange` receives. */
  datatype Customization = Customization(base: Option<BaseNecklace>, charms: seq<Charm>, totalPrice: real)

  function Report(base: Option<BaseNecklace>, charms: seq<Charm>): Customization {
    Customization(base, charms, TotalPrice(base, charms))
  }

  predicate DistinctIds(charms: seq<Charm>) {
    forall i, j :: 0 <= i < j < |charms| ==> charms[i].id != charms[j].id
  }

  predicate HasId(charms: seq<Charm>, id: string) {
    exists i :: 0 <= i < |charms| && charms[i].id == id
  }

  function IdIsNot(id: string): Charm -> bool {
    (c: Charm) => c.id != id
  }

  /** Adding a charm adds its price. */
  lemma AppendAddsPrice(base: Option<BaseNecklace>, charms: seq<Charm>, charm: Charm)
    ensures TotalPrice(base, charms + [charm]) == TotalPrice(base, charms) + charm.price
  {
    assert (charms + [charm])[..|charms|] == charms;
  }

  /** Removing a charm by id from a list with distinct ids takes off
      exactly that charm's price. */
  lemma {:induction false} RemoveSubtractsPrice(charms: seq<Charm>, k: nat)
    requires DistinctIds(charms) && k < |charms|
    ensures CharmsPrice(Seqs.Filter(IdIsNot(charms[k].id), charms)) == CharmsPrice(charms) - charms[k].price
    decreases |charms|
  {
    var front := charms[..|charms| - 1];
    var last := charms[|charms| - 1];
    var id := charms[k].id;
    DistinctFront(charms);
    if k == |charms| - 1 {
      Seqs.FilterAll(IdIsNot(id), front);
      assert Seqs.Filter(IdIsNot(id), charms) == front;
    } else {
      assert front[k] == charms[k];
      RemoveSubtractsPrice(front, k);
      var kept := Seqs.Filter(IdIsNot(id), front);
      assert Seqs.Filter(IdIsNot(id), charms) == kept + [last];
      assert (kept + [last])[..|kept + [last]| - 1] == kept;
    }
  }

  /** Dropping the last charm of a list with distinct ids leaves distinct
      ids, none of them the last charm's. */
  lemma DistinctFront(charms: seq<Charm>)
    requires DistinctIds(charms) && |charms| > 0
    ensures DistinctIds(charms[..|charms| - 1])
    ensures forall c :: c in charms[..|charms| - 1] ==> c.id != charms[|charms| - 1].id
  {
    var front := charms[..|charms| - 1];
    forall i, j | 0 <= i < j < |front| ensures front[i].id != front[j].id {
      assert front[i] == charms[i] && front[j] == charms[j];
    }
    forall c | c in front ensures c.id != charms[|charms| - 1].id {
      var i :| 0 <= i < |front| && front[i] == c;
      assert charms[i] == c;
    }
  }

  /** `{ top, left }` of a charm's spot, in percent. */
  datatype Position = Position(top: int, left: int)

  /** The five spots: centre, top left, top right, bottom left, bottom
      right. */
  const Positions: seq<Position> := [
    Position(45, 50), Position(35, 40), Position(35, 60), Position(55, 35), Position(55, 65)]

  /** `positions[index] || positions[0]` */
  function PositionOf(index: nat): Position {
    if index < |Positions| then Positions[index] else Positions[0]
  }

  /** The charm at a place past the table falls back to the centre, and
      the charms of a necklace within the limit all sit at their own table
      spot, no two at the same one. */
  lemma PositionsSpec(charms: seq<Charm>)
    requires |charms| <= CharmLimit
    ensures forall i :: 0 <= i < |charms| ==> PositionOf(i) == Positions[i]
    ensures forall i, j :: 0 <= i < j < |charms| ==> PositionOf(i) != PositionOf(j)
    ensures forall i: nat :: i >= |Positions| ==> PositionOf(i) == Position(45, 50)
  {
  }

  /** The component's state. */
  class Customizer {
    var selectedBase: Option<BaseNecklace>
    var selectedCharms: seq<Charm>
    var activeCategory: Category

    /** At most five charms, no id twice. */
    predicate Valid()
      reads this
    {
      |selectedCharms| <= CharmLimit && DistinctIds(selectedCharms)
    }

    /** No base, no charms, the letters tab. */
    constructor ()
      ensures Valid()
      ensures selectedBase == None && selectedCharms == [] && activeCategory == Letters
    {
      selectedBase := None;
      selectedCharms := [];
      activeCategory := Letters;
    }

    /** `handleBaseSelect`: the new base, reported with the current
        charms. */
    method HandleBaseSelect(base: BaseNecklace) returns (notice: Customization)
      requires Valid()
      modifies this
      ensures Valid()
      ensures selectedBase == Some(base) && selectedCharms == old(selectedCharms)
      ensures activeCategory == old(activeCategory)
      ensures notice == Report(Some(base), selectedCharms)
    {
      selectedBase := Some(base);
      notice := Report(selectedBase, selectedCharms);
    }

    /** `handleCharmSelect`: a charm whose id is selected is removed; any
        other is appended below the limit; either change is reported. At
        the limit nothing changes and nothing is reported. */
    method HandleCharmSelect(charm: Charm) returns (notice: Option<Customization>)
      requires Valid()
      modifies this
      ensures Valid()
      ensures selectedBase == old(selectedBase) && activeCategory == old(activeCategory)
      ensures HasId(old(selectedCharms), charm.id) ==>
                && selectedCharms == Seqs.Filter(IdIsNot(charm.id), old(selectedCharms))
                && !HasId(selectedCharms, charm.id)
                && Seqs.IsSubsequence(selectedCharms, old(selectedCharms))
      ensures !HasId(old(selectedCharms), charm.id) && |old(selectedCharms)| < CharmLimit ==>
                selectedCharms == old(selectedCharms) + [charm]
      ensures !HasId(old(selectedCharms), charm.id) && |old(selectedCharms)| >= CharmLimit ==>
                selectedCharms == old(selectedCharms) && notice == None
      ensures notice.Some? <==> HasId(old(selectedCharms), charm.id) || |old(selectedCharms)| < CharmLimit
      ensures notice.Some? ==> notice.value == Report(selectedBase, selectedCharms)
    {
      var found := Find(selectedCharms, charm.id);
      var newCharms: seq<Charm>;
      if found.Some? {
        newCharms := Seqs.Filter(IdIsNot(charm.id), selectedCharms);
        Seqs.FilterIsSubsequence(IdIsNot(charm.id), selectedCharms);
        Seqs.SubsequenceMembers(newCharms, selectedCharms);
        forall i, j | 0 <= i < j < |newCharms| ensures newCharms[i].id != newCharms[j].id {
          SubsequenceDistinct(newCharms, selectedCharms);
        }
      } else {
        if |selectedCharms| < CharmLimit {
          newCharms := selectedCharms + [charm];
          assert !HasId(selectedCharms, charm.id);
          forall i, j | 0 <= i < j < |newCharms| ensures newCharms[i].id != newCharms[j].id {
            if j == |selectedCharms| {
              assert newCharms[i] == selectedCharms[i];
            }
          }
        } else {
          return None;
        }
      }
      selectedCharms := newCharms;
      notice := Some(Report(selectedBase, newCharms));
    }
  }

  /** `charms.find(c => c.id === id)` */
  function Find(charms: seq<Charm>, id: string): (r: Option<Charm>)
    ensures r.Some? <==> HasId(charms, id)
    decreases |charms|
  {
    if |charms| == 0 then None
    else if charms[0].id == id then Some(charms[0])
    else
      var r := Find(charms[1..], id);
      assert HasId(charms[1..], id) ==> HasId(charms, id) by {
        if HasId(charms[1..], id) {
          var i :| 0 <= i < |charms[1..]| && charms[1..][i].id == id;
          assert charms[i + 1].id == id;
        }
      }
      assert HasId(charms, id) ==> HasId(charms[1..], id) by {
        if HasId(charms, id) {
          var i :| 0 <= i < |charms| && charms[i].id == id;
          assert charms[1..][i - 1].id == id;
        }
      }
      r
  }

  /** A subsequence of a list with distinct ids has distinct ids. */
  lemma {:induction false} SubsequenceDistinct(a: seq<Charm>, b: seq<Charm>)
    requires Seqs.IsSubsequence(a, b) && DistinctIds(b)
    ensures DistinctIds(a)
    decreases |b|
  {
    if a != [] && b != [] {
      var b' := b[..|b| - 1];
      assert DistinctIds(b') by {
        forall i, j | 0 <= i < j < |b'| ensures b'[i] == b[i] && b'[j] == b[j] { }
      }
      if a[|a| - 1] == b[|b| - 1] {
        var a' := a[..|a| - 1];
        SubsequenceDistinct(a', b');
        Seqs.SubsequenceMembers(a', b');
        forall i | 0 <= i < |a| - 1 ensures a[i].id != a[|a| - 1].id {
          assert a[i] == a'[i];
          var k :| 0 <= k < |b'| && b'[k] == a[i];
          assert b[k] == a[i];
        }
      } else {
        SubsequenceDistinct(a, b');
      }
    }
  }
}
