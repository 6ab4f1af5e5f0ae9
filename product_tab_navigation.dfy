/** The previous / next product links (src/components/ProductTabNavigation.tsx). */
module ProductTabNavigation {
  import opened Wrappers
  import opened Catalog
  import Seqs

  function Ids(products: seq<Product>): (ids: seq<int>)
    ensures |ids| == |products|
    ensures forall i :: 0 <= i < |ids| ==> ids[i] == products[i].id
  {
    seq(|products|, i requires 0 <= i < |products| => products[i].id)
  }

  /** The product at position k is the first with the given id. */
  predicate FirstWithId(products: seq<Product>, k: int, id: int) {
    0 <= k < |products| && products[k].id == id && forall j :: 0 <= j < k ==> products[j].id != id
  }

  /** `prevProductId`: the id of the product before the first one with
      the current id; none for the first product or an unknown id. */
  function PrevId(products: seq<Product>, current: int): (r: Option<int>)
    ensures r.Some? ==> exists k :: 1 <= k < |products| && FirstWithId(products, k, current)
                                    && r.value == products[k - 1].id
    ensures r.None? <==> (forall j :: 0 <= j < |products| ==> products[j].id != current)
                         || FirstWithId(products, 0, current)
  {
    var ids := Ids(products);
    var index := Seqs.IndexOf(ids, current);
    FirstIndexOfIds(products, current);
    if index > 0 then Some(ids[index - 1]) else None
  }

  /** `nextProductId`: the id of the product after the first one with the
      current id, or of the first product for an unknown id; none after
      the last. */
  function NextId(products: seq<Product>, current: int): (r: Option<int>)
    ensures r.Some? ==> (exists k :: 0 <= k < |products| - 1 && FirstWithId(products, k, current)
                                     && r.value == products[k + 1].id)
                        || ((forall j :: 0 <= j < |products| ==> products[j].id != current)
                            && |products| > 0 && r.value == products[0].id)
    ensures r.None? <==> |products| == 0 || FirstWithId(products, |products| - 1, current)
  {
    var ids := Ids(products);
    var index := Seqs.IndexOf(ids, current);
    FirstIndexOfIds(products, current);
    if index < |ids| - 1 then Some(ids[index + 1]) else None
  }

  /** What `indexOf` finds among the ids: -1 for an unknown id, otherwise
      the position of the first product with that id. */
  lemma FirstIndexOfIds(products: seq<Product>, current: int)
    ensures var index := Seqs.IndexOf(Ids(products), current);
            && (index == -1 <==> forall j :: 0 <= j < |products| ==> products[j].id != current)
            && (index >= 0 ==> FirstWithId(products, index, current))
            && forall k :: FirstWithId(products, k, current) ==> k == index
  {
    var ids := Ids(products);
    var index := Seqs.IndexOf(ids, current);
    if index >= 0 {
      forall j | 0 <= j < index ensures products[j].id != current {
        assert ids[..index][j] == ids[j];
      }
    } else {
      forall j | 0 <= j < |products| ensures products[j].id != current {
        assert ids[j] in ids;
      }
    }
    forall k | FirstWithId(products, k, current) ensures k == index {
      IndexOfFirst(ids, current, k);
    }
  }

  /** The first position holding `x` is what `indexOf` finds. */
  lemma IndexOfFirst(s: seq<int>, x: int, k: nat)
    requires k < |s| && s[k] == x && forall j :: 0 <= j < k ==> s[j] != x
    ensures Seqs.IndexOf(s, x) == k
  {
    assert s[k] in s;
  }

  /** For the product at position k, the first with its id, previous is
      the product before it and next the one after it, with none before
      the first and none after the last. */
  lemma NavigationAt(products: seq<Product>, k: nat)
    requires k < |products| && forall j :: 0 <= j < k ==> products[j].id != products[k].id
    ensures PrevId(products, products[k].id) == if k > 0 then Some(products[k - 1].id) else None
    ensures NextId(products, products[k].id) ==
              if k < |products| - 1 then Some(products[k + 1].id) else None
  {
    IndexOfFirst(Ids(products), products[k].id, k);
  }

  /** An unknown id has no previous, and its next is the first product. */
  lemma NavigationUnknown(products: seq<Product>, current: int)
    requires forall j :: 0 <= j < |products| ==> products[j].id != current
    ensures PrevId(products, current) == None
    ensures NextId(products, current) == if |products| > 0 then Some(products[0].id) else None
  {
    assert current !in Ids(products);
  }
}
