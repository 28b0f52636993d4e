/** The payment step of the multi-step checkout (src/pages/checkout/PaymentPage.jsx):
    the gate on the shipping draft, the empty-cart redirect, and the submit handler that
    clears the cart and moves on to the confirmation step. */
module PaymentPage {
  import opened Base
  import opened CartStore
  import opened CheckoutDraft

  const ConfirmationRoute := "/checkout/confirmation"
  const CartRoute := "/cart"

  /** `Object.values(shippingInfo).every(value => value.trim() !== '')` */
  predicate IsFormValid(shippingInfo: Record)
  {
    forall k :: k in shippingInfo ==> Trim(shippingInfo[k]) != ""
  }

  /** The gate lets the draft through exactly when no shipping value is empty or only
      white space. */
  lemma FormValidIffNoBlankValue(shippingInfo: Record)
    ensures IsFormValid(shippingInfo) <==> forall k :: k in shippingInfo ==> !Blank(shippingInfo[k])
  {
    forall k | k in shippingInfo {
      TrimEmptyIffBlank(shippingInfo[k]);
    }
  }

  /** The draft as it starts (eight empty fields) does not pass the gate. */
  lemma InitialDraftBlocksSubmit()
    ensures !IsFormValid(InitialShipping())
  {
    assert "firstName" in InitialShipping();
    assert Trim(InitialShipping()["firstName"]) == "";
  }

  /** What the page shows: nothing, while the redirect to the cart happens, or the payment
      form, whose submit button is enabled or not. */
  datatype View = RedirectToCart | PaymentForm(submitEnabled: bool)

  function Render(cartCount: int, shippingInfo: Record): (v: View)
    ensures v == RedirectToCart <==> cartCount == 0
    ensures v.PaymentForm? ==> (v.submitEnabled <==> forall k :: k in shippingInfo ==> !Blank(shippingInfo[k]))
  {
    FormValidIffNoBlankValue(shippingInfo);
    if cartCount == 0 then RedirectToCart else PaymentForm(IsFormValid(shippingInfo))
  }

  /** `handleSubmit`: the cart is emptied first, then the confirmation route is opened. No
      payment is taken and no order is recorded here. */
  method HandleSubmit(cart: Cart) returns (route: string)
    modifies cart
    ensures cart.lines == [] && cart.total == Some(0) && cart.count == 0
    ensures route == ConfirmationRoute
  {
    cart.ClearCart();
    route := ConfirmationRoute;
  }
}
