/** The home page's featured products (src/pages/Home.tsx). */
module Home {
  import opened Catalog
  import Seqs

  const FeaturedLimit: nat := 6

  /** On sale, new, or with a Buy-X-Get-Y promotion. */
  predicate Featurable(p: Product) {
    p.isSale || p.isNew || |p.buyXGetY| > 0
  }

  function FeaturableTest(): Product -> bool {
    (p: Product) => Featurable(p)
  }

  /** `filter(...).slice(0, 6)`: at most six products of the catalogue,
      each on sale, new or promoted. */
  function FeaturedProducts(products: seq<Product>): (r: seq<Product>)
    ensures |r| <= FeaturedLimit
    ensures forall i :: 0 <= i < |r| ==> r[i] in products && Featurable(r[i])
  {
    var matching := Seqs.Filter(FeaturableTest(), products);
    if |matching| <= FeaturedLimit then matching else matching[..FeaturedLimit]
  }

  /** What the section shows: the products, or the "no featured products"
      notice. */
  datatype FeaturedSection = NoFeatured | Featured(products: seq<Product>)

  function Section(products: seq<Product>): FeaturedSection {
    var featured := FeaturedProducts(products);
    if |featured| > 0 then Featured(featured) else NoFeatured
  }

  /** At most six products are featured, each on sale, new or promoted;
      they are the first min(6, m) of the m such products, in catalogue
      order; and the notice shows exactly when no product qualifies. */
  lemma FeaturedSpec(products: seq<Product>)
    ensures var f := FeaturedProducts(products);
            var matching := Seqs.Filter(FeaturableTest(), products);
            && |f| <= 6
            && |f| == (if |matching| < 6 then |matching| else 6)
            && f == matching[..|f|]
            && (forall i :: 0 <= i < |f| ==> Featurable(f[i]) && f[i] in products)
            && Seqs.IsSubsequence(f, products)
    ensures Section(products).NoFeatured? <==> forall i :: 0 <= i < |products| ==> !Featurable(products[i])
  {
    var matching := Seqs.Filter(FeaturableTest(), products);
    var f := FeaturedProducts(products);
    Seqs.FilterIsSubsequence(FeaturableTest(), products);
    if |matching| > FeaturedLimit {
      Seqs.PrefixIsSubsequence(matching, FeaturedLimit);
      Seqs.SubsequenceTransitive(f, matching, products);
    } else {
      assert matching[..|matching|] == matching;
    }
    forall i | 0 <= i < |f| ensures Featurable(f[i]) && f[i] in products {
      assert f[i] == matching[i];
      assert FeaturableTest()(matching[i]);
    }
    if forall i :: 0 <= i < |products| ==> !Featurable(products[i]) {
      Seqs.FilterNone(FeaturableTest(), products);
    }
  }
}
