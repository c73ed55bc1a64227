/** The checkout page, pages/Checkout.tsx: the prices it shows for the cart,
    which follow their own rule rather than the order route's, and the submit
    step. Money is in rupees; the page's unrounded tax is a real. */
module Checkout {
  import opened Basics
  import opened Storefront
  import OrderRoutes

  /** Free shipping only above ₹5000, otherwise ₹200. */
  function ClientShipping(cartTotal: int): (r: int)
    ensures r == 0 <==> cartTotal > 5000
    ensures r == 0 || r == 200
  {
    if cartTotal > 5000 then 0 else 200
  }

  /** 18% of the cart total, not rounded. */
  function ClientTax(cartTotal: int): (r: real)
    ensures 100.0 * r == 18.0 * cartTotal as real
  {
    cartTotal as real * 0.18
  }

  /** The total the page shows: the cart total, shipping and tax. */
  function ClientFinalTotal(cartTotal: int): (r: real)
    ensures r == 1.18 * cartTotal as real + ClientShipping(cartTotal) as real
  {
    cartTotal as real + ClientShipping(cartTotal) as real + ClientTax(cartTotal)
  }

  /** Where the page and the order route part ways: they agree on shipping only
      above ₹5000, and between ₹2000 and ₹5000 the page shows ₹200 of shipping
      the server does not charge, so its total is at least ₹199.50 higher. */
  lemma ClientServerShipping(cartTotal: int)
    requires cartTotal >= 0
    ensures ClientShipping(cartTotal) == OrderRoutes.ShippingFee(cartTotal) <==> cartTotal > 5000
    ensures 2000 <= cartTotal <= 5000 ==>
      ClientFinalTotal(cartTotal) >= OrderRoutes.PricingOf(cartTotal).total as real + 199.5
  {
    var tax := OrderRoutes.Tax(cartTotal);
    assert 100 * tax - 50 <= 18 * cartTotal < 100 * tax + 50;
    assert (100 * tax) as real - 50.0 <= (18 * cartTotal) as real;
  }

  /** The three-thousand-rupee cart: the page shows ₹200 shipping and ₹540 tax,
      a total of ₹3740, while the server charges ₹3540. */
  lemma ThreeThousandExample()
    ensures ClientShipping(3000) == 200 && ClientTax(3000) == 540.0 && ClientFinalTotal(3000) == 3740.0
    ensures OrderRoutes.PricingOf(3000).shipping == 0 && OrderRoutes.PricingOf(3000).total == 3540
  {
  }

  /** The page's state: the shared cart and the page's own completion flag. */
  datatype CheckoutState = CheckoutState(cart: seq<CartItem>, orderComplete: bool)

  /** What the page renders: the empty-cart notice, the confirmation, or the form
      with its prices. When some price does not parse the cart total is NaN: tax
      and total are NaN too (`None`), while `NaN > 5000` is false and the page
      shows ₹200 of shipping. */
  datatype CheckoutView =
    | EmptyCartView
    | ConfirmedView
    | FormView(shipping: Option<int>, tax: Option<real>, finalTotal: Option<real>)

  function View(s: CheckoutState): (r: CheckoutView)
    ensures r == EmptyCartView <==> s.cart == [] && !s.orderComplete
    ensures r == ConfirmedView <==> s.orderComplete
    ensures r.FormView? && CartTotal(s.cart).Some? ==>
      var t := CartTotal(s.cart).value;
      r == FormView(Some(ClientShipping(t)), Some(ClientTax(t)), Some(ClientFinalTotal(t)))
    ensures r.FormView? && CartTotal(s.cart).None? ==> r == FormView(Some(200), None, None)
  {
    if s.cart == [] && !s.orderComplete then EmptyCartView
    else if s.orderComplete then ConfirmedView
    else match CartTotal(s.cart)
      case Some(t) => FormView(Some(ClientShipping(t)), Some(ClientTax(t)), Some(ClientFinalTotal(t)))
      case None => FormView(Some(200), None, None)
  }

  /** `handleSubmit`: no payment is taken; the order is marked complete and the
      cart emptied. */
  function Submit(s: CheckoutState): (r: CheckoutState)
    ensures r.orderComplete && r.cart == [] && CartCount(r.cart) == 0
  {
    CheckoutState(ClearCart(s.cart), true)
  }

  /** After a submit the page shows the confirmation, never the empty-cart notice,
      even though the cart is now empty; a second submit changes nothing. */
  lemma SubmitShowsConfirmation(s: CheckoutState)
    ensures View(Submit(s)) == ConfirmedView
    ensures Submit(Submit(s)) == Submit(s)
  {
  }
}
