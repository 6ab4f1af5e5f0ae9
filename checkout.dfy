/** The checkout page's order summary (src/pages/Checkout.tsx). */
module Checkout {
  import Cart
  import Seqs

  const FreeShippingOver: real := 50.0
  const ShippingFee: real := 5.99
  const TaxRate: real := 0.08

  datatype Summary = Summary(subtotal: real, shipping: real, tax: real, total: real)

  /** What the page shows: the empty-cart notice, or the form with its
      summary. */
  datatype View = EmptyCart | OrderForm(summary: Summary)

  /** The summary of a subtotal: free shipping only above 50, and a total
      that adds shipping and tax to the subtotal. */
  function CheckoutSummary(subtotal: real): (s: Summary)
    ensures s.subtotal == subtotal
    ensures s.shipping == 0.0 <==> subtotal > FreeShippingOver
    ensures subtotal >= 0.0 ==> s.total >= subtotal + s.shipping
  {
    var shipping := if subtotal > FreeShippingOver then 0.0 else ShippingFee;
    var tax := subtotal * TaxRate;
    Summary(subtotal, shipping, tax, subtotal + shipping + tax)
  }

  /** The empty-cart notice for an empty cart; otherwise the summary of
      what the paid lines cost. */
  function CheckoutView(items: seq<Cart.CartItem>): (v: View)
    ensures v.EmptyCart? <==> |items| == 0
    ensures v.OrderForm? ==> v.summary.subtotal == Cart.CartTotal(Seqs.Filter(Cart.NotBonus, items))
  {
    Cart.CartTotalSkipsBonus(items);
    if |items| == 0 then EmptyCart else OrderForm(CheckoutSummary(Cart.CartTotal(items)))
  }

  /** Shipping is free exactly above 50 and 5.99 otherwise; tax is 8% of
      the subtotal; the total is their sum and never below a non-negative
      subtotal. */
  lemma SummarySpec(subtotal: real)
    ensures var s := CheckoutSummary(subtotal);
            && (s.shipping == 0.0 <==> subtotal > 50.0)
            && (s.shipping == 5.99 <==> subtotal <= 50.0)
            && s.tax == 0.08 * subtotal
            && s.total == s.subtotal + s.shipping + s.tax
            && (subtotal >= 0.0 ==> s.total >= subtotal)
  {
  }

  /** An empty cart shows the notice; any other cart the summary of its
      total, in which bonus lines cost nothing. */
  lemma ViewSpec(items: seq<Cart.CartItem>)
    ensures CheckoutView(items).EmptyCart? <==> |items| == 0
    ensures |items| > 0 ==>
              CheckoutView(items).summary.subtotal == Cart.CartTotal(Seqs.Filter(Cart.NotBonus, items))
  {
    Cart.CartTotalSkipsBonus(items);
  }

  /** `handleSubmit`, without the toast and the navigation: the cart is
      emptied. */
  method HandleSubmit(cart: Cart.CartState)
    modifies cart
    ensures cart.cartItems == [] && cart.Valid() && cart.Total() == 0.0
  {
    cart.ClearCartAction();
  }
}
