/** The bag-charm customizer (src/components/BagCharmCustomizer.tsx): one
    of seven charm tabs is open, at most one charm and one chain are
    chosen, and a quantity of at least one is ordered. */
module BagCharm {
  import opened Wrappers
  import Seqs

  /** `Charm` of this component; the image is left out. */
  datatype BagCharm = BagCharm(id: string, name: string, price: real)

  /** `ChainBase`; the image is left out. */
  datatype ChainBase = ChainBase(id: string, name: string, price: real)

  /** `charmTabs` */
  const Tabs: seq<string> := ["CHARM 1", "CHARM 2", "CHARM 3", "CHARM 4", "CHARM 5", "CHARM 6", "CHARM 7"]

  /** `charms[tab] ?? []`: only the first three tabs hold charms. */
  function TabCharms(tab: string): seq<BagCharm> {
    if tab == "CHARM 1" then
      [BagCharm("a", "A", 25.0), BagCharm("b", "B", 25.0), BagCharm("c", "C", 25.0),
       BagCharm("d", "D", 25.0), BagCharm("e", "E", 25.0)]
    else if tab == "CHARM 2" then [BagCharm("f", "F", 25.0), BagCharm("g", "G", 25.0)]
    else if tab == "CHARM 3" then [BagCharm("h", "H", 25.0), BagCharm("i", "I", 25.0)]
    else []
  }

  /** `chainBases`; the first is chosen initially. */
  const ChainBases: seq<ChainBase> := [ChainBase("gold", "Gold Chain", 120.0), ChainBase("silver", "Silver Chain", 100.0)]

  /** The price of one piece: the charm's price, or 0 without a charm,
      plus the chain's. */
  function UnitPrice(charm: Option<BagCharm>, chain: ChainBase): real {
    (if charm.Some? then charm.value.price else 0.0) + chain.price
  }

  /** `getTotalPrice`: the charm, if any, and the chain, each paid once
      per piece. */
  function TotalPrice(charm: Option<BagCharm>, chain: ChainBase, quantity: int): (t: real)
    ensures charm.None? ==> t == chain.price * quantity as real
    ensures charm.Some? ==> t == charm.value.price * quantity as real + chain.price * quantity as real
  {
    UnitPrice(charm, chain) * quantity as real
  }

  /** Each extra piece adds one piece's price, and one piece costs one
      piece's price. */
  lemma TotalPerPiece(charm: Option<BagCharm>, chain: ChainBase, quantity: int)
    ensures TotalPrice(charm, chain, quantity + 1) == TotalPrice(charm, chain, quantity) + UnitPrice(charm, chain)
    ensures TotalPrice(charm, chain, 1) == UnitPrice(charm, chain)
  {
  }

  /** Every tab name is found at its own position. */
  lemma TabIndices()
    ensures forall k :: 0 <= k < |Tabs| ==> Seqs.IndexOf(Tabs, Tabs[k]) == k
  {
    assert Seqs.NoDuplicates(Tabs);
    forall k | 0 <= k < |Tabs| ensures Seqs.IndexOf(Tabs, Tabs[k]) == k {
      Seqs.IndexOfDistinct(Tabs, k);
    }
  }

  /** The component's state. */
  class Customizer {
    var activeTab: string
    var selectedCharm: Option<BagCharm>
    var quantity: int
    var selectedChain: ChainBase

    /** The open tab is one of the seven, and at least one piece is
        ordered. */
    predicate Valid()
      reads this
    {
      activeTab in Tabs && quantity >= 1
    }

    /** The index of the open tab. */
    function TabIndex(): (k: int)
      reads this
      ensures Valid() ==> 0 <= k < |Tabs| && Tabs[k] == activeTab
    {
      Seqs.IndexOf(Tabs, activeTab)
    }

    /** The first tab, no charm, one piece, the gold chain. */
    constructor ()
      ensures Valid()
      ensures activeTab == Tabs[0] && selectedCharm == None && quantity == 1 && selectedChain == ChainBases[0]
    {
      activeTab := Tabs[0];
      selectedCharm := None;
      quantity := 1;
      selectedChain := ChainBases[0];
    }

    /** `handleQuantityChange`: one more piece, or one fewer only while
        more than one is ordered. */
    method HandleQuantityChange(increment: bool)
      requires Valid()
      modifies this
      ensures Valid()
      ensures increment ==> quantity == old(quantity) + 1
      ensures !increment ==> quantity == if old(quantity) > 1 then old(quantity) - 1 else old(quantity)
      ensures activeTab == old(activeTab) && selectedCharm == old(selectedCharm)
      ensures selectedChain == old(selectedChain)
    {
      if increment {
        quantity := quantity + 1;
      } else if quantity > 1 {
        quantity := quantity - 1;
      }
    }

    /** `handleNextTab`: the following tab, the last one staying open. */
    method HandleNextTab()
      requires Valid()
      modifies this
      ensures Valid()
      ensures TabIndex() == if old(TabIndex()) < |Tabs| - 1 then old(TabIndex()) + 1 else old(TabIndex())
      ensures selectedCharm == old(selectedCharm) && quantity == old(quantity)
      ensures selectedChain == old(selectedChain)
    {
      TabIndices();
      var currentIndex := Seqs.IndexOf(Tabs, activeTab);
      if currentIndex < |Tabs| - 1 {
        activeTab := Tabs[currentIndex + 1];
      }
    }

    /** `handlePreviousTab`: the preceding tab, the first one staying
        open. */
    method HandlePreviousTab()
      requires Valid()
      modifies this
      ensures Valid()
      ensures TabIndex() == if old(TabIndex()) > 0 then old(TabIndex()) - 1 else old(TabIndex())
      ensures selectedCharm == old(selectedCharm) && quantity == old(quantity)
      ensures selectedChain == old(selectedChain)
    {
      TabIndices();
      var currentIndex := Seqs.IndexOf(Tabs, activeTab);
      if currentIndex > 0 {
        activeTab := Tabs[currentIndex - 1];
      }
    }

    /** A tab button: that tab opens. */
    method SelectTab(tab: string)
      requires Valid() && tab in Tabs
      modifies this
      ensures Valid() && activeTab == tab
      ensures selectedCharm == old(selectedCharm) && quantity == old(quantity)
      ensures selectedChain == old(selectedChain)
    {
      activeTab := tab;
    }

    /** A charm button: the chosen charm is let go, any other is
        chosen. */
    method ToggleCharm(charm: BagCharm)
      requires Valid()
      modifies this
      ensures Valid()
      ensures old(selectedCharm).Some? && old(selectedCharm).value.id == charm.id ==> selectedCharm == None
      ensures !(old(selectedCharm).Some? && old(selectedCharm).value.id == charm.id) ==> selectedCharm == Some(charm)
      ensures activeTab == old(activeTab) && quantity == old(quantity) && selectedChain == old(selectedChain)
    {
      if selectedCharm.Some? && selectedCharm.value.id == charm.id {
        selectedCharm := None;
      } else {
        selectedCharm := Some(charm);
      }
    }

    /** A chain button: that chain is chosen. */
    method SelectChain(chain: ChainBase)
      requires Valid()
      modifies this
      ensures Valid() && selectedChain == chain
      ensures activeTab == old(activeTab) && selectedCharm == old(selectedCharm) && quantity == old(quantity)
    {
      selectedChain := chain;
    }
  }
}
