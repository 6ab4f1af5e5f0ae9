/** The product record shared by the cart, the listing pages and the
    product card (src/types/index.ts, extended by the fields the pages read:
    `tags` and `buyXGetY`). */
module Catalog {
  import opened Wrappers

  /** A Buy-X-Get-Y promotion.  `x` and `y` are what `parseInt` makes of
      the `X` and `Y` strings (None for NaN); `expiration` is the time
      `new Date(expiration)` denotes in milliseconds (None for an invalid
      date, which compares false with everything). */
  datatype Promotion = Promotion(x: Option<int>, y: Option<int>, expiration: Option<int>)

  /** `new Date(promo.expiration) > new Date()` with the clock read as `now`. */
  predicate Unexpired(promo: Promotion, now: int) {
    promo.expiration.Some? && promo.expiration.value > now
  }

  /** A product.  Optional fields the source leaves undefined are None;
      `salePrice` is None also when parsing gave NaN; missing `tags` or
      `buyXGetY` are the empty list, which the source treats alike. */
  datatype Product = Product(
    id: int,
    name: string,
    price: real,
    salePrice: Option<real>,
    imageUrl: string,
    category: string,
    isNew: bool,
    isSale: bool,
    tags: seq<string>,
    variant: Option<string>,
    charms: Option<int>,
    buyXGetY: seq<Promotion>)

  /** `salePrice` is truthy: present, not NaN and not zero. */
  predicate HasSalePrice(p: Product) {
    p.salePrice.Some? && p.salePrice.value != 0.0
  }

  /** `product.salePrice || product.price`, the price every page shows,
      sorts and filters by. */
  function EffectivePrice(p: Product): real {
    if HasSalePrice(p) then p.salePrice.value else p.price
  }
}
