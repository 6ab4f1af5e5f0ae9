/** A product card's promotion badge and price (src/components/ProductCard.tsx). */
module ProductCard {
  import opened Wrappers
  import opened Catalog

  /** `hasActivePromotion`, with the clock read as `now`. */
  predicate HasActivePromotion(p: Product, now: int) {
    |p.buyXGetY| > 0 && exists k :: 0 <= k < |p.buyXGetY| && Unexpired(p.buyXGetY[k], now)
  }

  /** `find`: the first unexpired promotion. */
  function FirstUnexpired(promos: seq<Promotion>, now: int): (r: Option<Promotion>)
    ensures r.Some? ==> exists k :: 0 <= k < |promos| && promos[k] == r.value
                          && Unexpired(promos[k], now)
                          && forall j :: 0 <= j < k ==> !Unexpired(promos[j], now)
    ensures r.None? <==> forall k :: 0 <= k < |promos| ==> !Unexpired(promos[k], now)
  {
    if promos == [] then None
    else if Unexpired(promos[0], now) then Some(promos[0])
    else
      var rest := FirstUnexpired(promos[1..], now);
      assert forall j :: 1 <= j < |promos| ==> promos[j] == promos[1..][j - 1];
      rest
  }

  /** `activePromotion` */
  function ActivePromotion(p: Product, now: int): (r: Option<Promotion>)
    ensures r.Some? <==> exists k :: 0 <= k < |p.buyXGetY| && Unexpired(p.buyXGetY[k], now)
    ensures r.Some? ==> r.value in p.buyXGetY && Unexpired(r.value, now)
  {
    if HasActivePromotion(p, now) then FirstUnexpired(p.buyXGetY, now) else None
  }

  /** There is an active promotion exactly when some promotion of the
      product is unexpired, and it is the first such one. */
  lemma ActivePromotionSpec(p: Product, now: int)
    ensures ActivePromotion(p, now).Some? <==> HasActivePromotion(p, now)
    ensures HasActivePromotion(p, now) <==>
              exists k :: 0 <= k < |p.buyXGetY| && Unexpired(p.buyXGetY[k], now)
    ensures ActivePromotion(p, now).Some? ==>
              exists k :: 0 <= k < |p.buyXGetY| && p.buyXGetY[k] == ActivePromotion(p, now).value
                && Unexpired(p.buyXGetY[k], now)
                && forall j :: 0 <= j < k ==> !Unexpired(p.buyXGetY[j], now)
  {
  }

  /** The prices the card shows: the sale price with the struck-through
      base price when the sale price is truthy, the base price alone
      otherwise. */
  datatype PriceDisplay = Discounted(sale: real, was: real) | Regular(price: real)

  function Display(p: Product): (d: PriceDisplay)
    ensures d.Discounted? <==> HasSalePrice(p)
    ensures d.Discounted? ==> d.sale == EffectivePrice(p) && d.was == p.price
    ensures d.Regular? ==> d.price == EffectivePrice(p) && d.price == p.price
  {
    if p.salePrice.Some? && p.salePrice.value != 0.0 then Discounted(p.salePrice.value, p.price)
    else Regular(p.price)
  }
}
