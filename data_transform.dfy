/** The conversions from the shop API's records to the storefront's
    (src/utils/dataTransform.ts). */
module DataTransform {
  import opened Wrappers
  import opened Catalog
  import Text
  import Seqs

  const StoragePrefix: string := "https://test.kogear.store/storage/"
  const DefaultImageUrl: string :=
    "https://images.unsplash.com/photo-1599643478518-a784e5dc4c8f?ixlib=rb-4.0.3&auto=format&fit=crop&w=600&q=80"

  /** The fields of an API product the conversion reads; an absent
      `PriceAfterDiscount` is None. */
  datatype ApiProduct = ApiProduct(
    id: int, name: string, price: string, priceAfterDiscount: Option<string>,
    tagId: string, categoryTitle: string, imagePaths: seq<string>)

  datatype ApiTag = ApiTag(name: string)

  datatype ApiSlider = ApiSlider(id: int, title: string, description: string, image: string, isActive: string)

  datatype HeroSlide = HeroSlide(id: int, imageUrl: string, title: string, subtitle: string, ctaText: string)

  /** `transformApiProduct`, with `parseFloat` given as `parse` (None for
      NaN).  The base price is taken to parse. */
  function TransformApiProduct(api: ApiProduct, parse: string -> Option<real>): (p: Product)
    requires parse(api.price).Some?
    ensures p.id == api.id && p.name == api.name && p.price == parse(api.price).value
    ensures p.salePrice ==
              (if api.priceAfterDiscount.Some? && api.priceAfterDiscount.value != ""
               then parse(api.priceAfterDiscount.value) else None)
    ensures p.isSale <==> HasSalePrice(p)
    ensures p.isSale <==> api.priceAfterDiscount.Some? && api.priceAfterDiscount.value != ""
                          && parse(api.priceAfterDiscount.value).Some?
                          && parse(api.priceAfterDiscount.value).value != 0.0
    ensures p.tags == (if api.tagId != "" then [api.tagId] else [])
    ensures |api.imagePaths| > 0 && api.imagePaths[0] != "" ==>
              p.imageUrl == StoragePrefix + api.imagePaths[0]
    ensures !(|api.imagePaths| > 0 && api.imagePaths[0] != "") ==> p.imageUrl == DefaultImageUrl
    ensures p.category == Text.Lower(api.categoryTitle)
    ensures !p.isNew
    ensures p.variant.None? && p.charms.None? && p.buyXGetY == []
  {
    var salePrice :=
      if api.priceAfterDiscount.Some? && api.priceAfterDiscount.value != ""
      then parse(api.priceAfterDiscount.value) else None;
    var imageUrl :=
      if |api.imagePaths| > 0 && api.imagePaths[0] != "" then StoragePrefix + api.imagePaths[0]
      else DefaultImageUrl;
    Product(api.id, api.name, parse(api.price).value, salePrice, imageUrl,
      Text.Lower(api.categoryTitle), false,
      salePrice.Some? && salePrice.value != 0.0,
      if api.tagId != "" then [api.tagId] else [],
      None, None, [])
  }

  /** `transformApiSlider` */
  function TransformApiSlider(api: ApiSlider): (slide: HeroSlide)
    ensures slide.id == api.id && slide.title == api.title && slide.subtitle == api.description
    ensures |slide.imageUrl| == |StoragePrefix| + |api.image|
    ensures slide.imageUrl[..|StoragePrefix|] == StoragePrefix
    ensures slide.imageUrl[|StoragePrefix|..] == api.image
    ensures slide.ctaText == "Shop Now"
  {
    HeroSlide(api.id, StoragePrefix + api.image, api.title, api.description, "Shop Now")
  }

  /** `transformCategoryName`: the category's title lowered, ready to be
      compared with the lowered categories of the products. The name keeps
      the title's length, has no upper-case letter, and is a fixed point of
      lowering, so converting a converted name changes nothing. */
  function TransformCategoryName(title: string): (r: string)
    ensures |r| == |title|
    ensures forall i :: 0 <= i < |r| ==> !Text.IsUpper(r[i])
    ensures Text.Lower(r) == r
  {
    Text.LowerLaws(title, []);
    Text.Lower(title)
  }

  /** `transformApiTags`: every tag's name, lowered, in order. */
  function TransformApiTags(tags: seq<ApiTag>): (r: seq<string>)
    ensures |r| == |tags|
    ensures forall i :: 0 <= i < |tags| ==> r[i] == Text.Lower(tags[i].name)
    ensures forall i, j :: 0 <= i < |r| && 0 <= j < |r[i]| ==> !Text.IsUpper(r[i][j])
  {
    seq(|tags|, i requires 0 <= i < |tags| => Text.Lower(tags[i].name))
  }

  /** Tags come out lower-case, so converting the converted tags again
      changes nothing, and tags whose names differ only in letter case
      convert alike. */
  lemma TransformApiTagsLaws(tags: seq<ApiTag>, others: seq<ApiTag>)
    ensures var r := TransformApiTags(tags);
            TransformApiTags(seq(|r|, i requires 0 <= i < |r| => ApiTag(r[i]))) == r
    ensures |others| == |tags| &&
            (forall i :: 0 <= i < |tags| ==> Text.Lower(others[i].name) == Text.Lower(tags[i].name)) ==>
              TransformApiTags(others) == TransformApiTags(tags)
  {
    var r := TransformApiTags(tags);
    var again := seq(|r|, i requires 0 <= i < |r| => ApiTag(r[i]));
    forall i | 0 <= i < |r| ensures TransformApiTags(again)[i] == r[i] {
      Text.LowerLaws(tags[i].name, []);
    }
  }

  /** The slide keeps everything it reads: two sliders give the same slide
      exactly when they agree on id, title, description and image. */
  lemma SliderConversionInjective(a: ApiSlider, b: ApiSlider)
    ensures TransformApiSlider(a) == TransformApiSlider(b) <==>
              a.id == b.id && a.title == b.title && a.description == b.description && a.image == b.image
  {
    if TransformApiSlider(a) == TransformApiSlider(b) {
      assert a.image == TransformApiSlider(a).imageUrl[|StoragePrefix|..];
    }
  }

  function CategoryNames(products: seq<ApiProduct>): (r: seq<string>)
    ensures |r| == |products|
    ensures forall i :: 0 <= i < |products| ==> r[i] == Text.Lower(products[i].categoryTitle)
  {
    seq(|products|, i requires 0 <= i < |products| => Text.Lower(products[i].categoryTitle))
  }

  /** `getUniqueCategories`: each lowered category title once, in order of
      first occurrence. */
  function UniqueCategories(products: seq<ApiProduct>): (r: seq<string>)
    ensures Seqs.NoDuplicates(r)
    ensures forall c :: c in r <==>
              exists i :: 0 <= i < |products| && Text.Lower(products[i].categoryTitle) == c
    ensures forall i :: 0 <= i < |r| ==> r[i] in CategoryNames(products)
    ensures forall i, j :: 0 <= i < j < |r| ==>
              Seqs.FirstIndex(CategoryNames(products), r[i]) < Seqs.FirstIndex(CategoryNames(products), r[j])
  {
    var names := CategoryNames(products);
    Seqs.DedupFirstOccurrenceOrder(names);
    Seqs.Dedup(names)
  }

  /** The non-empty `tag_id`s, in product order: what `getAllTags` pushes. */
  function TagIds(products: seq<ApiProduct>): (r: seq<string>)
    ensures forall t :: t in r <==> exists i :: 0 <= i < |products| && products[i].tagId == t && t != ""
    decreases |products|
  {
    if products == [] then []
    else
      var front := products[..|products| - 1];
      var last := products[|products| - 1];
      assert forall i :: 0 <= i < |front| ==> front[i] == products[i];
      TagIds(front) + (if last.tagId != "" then [last.tagId] else [])
  }

  /** `getAllTags`: one pass over the products collecting each non-empty
      `tag_id`, then the duplicates dropped. */
  method GetAllTags(products: seq<ApiProduct>) returns (tags: seq<string>)
    ensures tags == Seqs.Dedup(TagIds(products))
    ensures Seqs.NoDuplicates(tags)
    ensures forall t :: t in tags <==> exists i :: 0 <= i < |products| && products[i].tagId == t && t != ""
  {
    var allTags: seq<string> := [];
    var i := 0;
    while i < |products|
      invariant 0 <= i <= |products|
      invariant allTags == TagIds(products[..i])
    {
      assert products[..i + 1][..i] == products[..i];
      if products[i].tagId != "" {
        allTags := allTags + [products[i].tagId];
      }
      i := i + 1;
    }
    assert products[..i] == products;
    tags := Seqs.Dedup(allTags);
    assert forall t :: t in tags <==> t in allTags;
  }
}
