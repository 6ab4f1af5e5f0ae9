/** The product page (src/pages/Product.tsx): which product the route
    names and which others it suggests. */
module ProductPage {
  import opened Wrappers
  import opened Catalog
  import Seqs

  const RelatedLimit: nat := 3

  /** `products.find(p => p.id === Number(id))`, with `Number(id)` given as
      `routeId` (None when the parameter is not a number). */
  function FindProduct(products: seq<Product>, routeId: Option<int>): (r: Option<nat>)
    ensures r.Some? ==> routeId.Some? && r.value < |products| && products[r.value].id == routeId.value
    ensures r.Some? ==> forall j :: 0 <= j < r.value ==> products[j].id != routeId.value
    ensures r.None? <==> routeId.None? || forall j :: 0 <= j < |products| ==> products[j].id != routeId.value
  {
    if routeId.None? || |products| == 0 then None
    else if products[0].id == routeId.value then Some(0)
    else
      var rest := FindProduct(products[1..], routeId);
      assert forall j :: 1 <= j < |products| ==> products[j] == products[1..][j - 1];
      if rest.Some? then Some(rest.value + 1) else None
  }

  /** Another product of the same category. */
  predicate IsRelatedTo(current: Product, p: Product) {
    p.category == current.category && p.id != current.id
  }

  function IsRelated(current: Product): Product -> bool {
    (p: Product) => IsRelatedTo(current, p)
  }

  /** `relatedProducts`: up to three others of the same category. */
  function RelatedProducts(products: seq<Product>, current: Product): (r: seq<Product>)
    ensures |r| <= RelatedLimit
    ensures forall i :: 0 <= i < |r| ==>
              r[i] in products && r[i].category == current.category && r[i].id != current.id
    ensures |r| < RelatedLimit ==>
              forall j :: 0 <= j < |products| && IsRelatedTo(current, products[j]) ==> products[j] in r
  {
    var related := Seqs.Filter(IsRelated(current), products);
    assert forall j :: 0 <= j < |products| && IsRelatedTo(current, products[j]) ==> IsRelated(current)(products[j]);
    if |related| <= RelatedLimit then related else related[..RelatedLimit]
  }

  /** What the page renders: "not found", or the product with its related
      section, which is left out when there is nothing to suggest. */
  datatype ProductView =
    | NotFound
    | Found(product: Product, related: Option<seq<Product>>)

  function View(products: seq<Product>, routeId: Option<int>): (v: ProductView)
    ensures v.NotFound? <==> routeId.None? || forall j :: 0 <= j < |products| ==> products[j].id != routeId.value
    ensures v.Found? ==> v.product in products && v.product.id == routeId.value
    ensures v.Found? && v.related.Some? ==> 0 < |v.related.value| <= RelatedLimit
  {
    match FindProduct(products, routeId)
    case None => NotFound
    case Some(k) =>
      var related := RelatedProducts(products, products[k]);
      Found(products[k], if |related| > 0 then Some(related) else None)
  }

  /** Related products share the category of the shown product, never are
      it (nor another product with its id), and keep catalogue order; of the
      m related products they are the first min(3, m), so none is shown
      exactly when none is related. */
  lemma RelatedSpec(products: seq<Product>, current: Product)
    ensures var r := RelatedProducts(products, current);
            var related := Seqs.Filter(IsRelated(current), products);
            && |r| <= 3
            && |r| == (if |related| < 3 then |related| else 3)
            && r == related[..|r|]
            && (forall i :: 0 <= i < |r| ==>
                  r[i].category == current.category && r[i].id != current.id && r[i] != current)
            && Seqs.IsSubsequence(r, products)
    ensures RelatedProducts(products, current) == [] <==>
              forall j :: 0 <= j < |products| ==> !IsRelatedTo(current, products[j])
  {
    var related := Seqs.Filter(IsRelated(current), products);
    var r := RelatedProducts(products, current);
    Seqs.FilterIsSubsequence(IsRelated(current), products);
    if |related| <= RelatedLimit {
      assert related[..|related|] == related;
    }
    if |related| > RelatedLimit {
      Seqs.PrefixIsSubsequence(related, RelatedLimit);
      Seqs.SubsequenceTransitive(r, related, products);
    }
    forall i | 0 <= i < |r| ensures r[i].category == current.category && r[i].id != current.id {
      assert r[i] == related[i];
      assert IsRelated(current)(related[i]);
    }
  }

  /** The page shows "not found" exactly when no product has the route's
      id; otherwise the first product with that id, and a related section
      only when something is related. */
  lemma ViewSpec(products: seq<Product>, routeId: Option<int>)
    ensures View(products, routeId).NotFound? <==>
              routeId.None? || forall j :: 0 <= j < |products| ==> products[j].id != routeId.value
    ensures View(products, routeId).Found? ==>
              exists k :: 0 <= k < |products| && products[k] == View(products, routeId).product
                && products[k].id == routeId.value
                && (forall j :: 0 <= j < k ==> products[j].id != routeId.value)
    ensures View(products, routeId).Found? ==>
              (View(products, routeId).related.None? <==>
                 RelatedProducts(products, View(products, routeId).product) == [])
  {
  }
}
