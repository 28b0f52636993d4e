/** The multi-step checkout taken end to end: the payment step's submit followed by the
    confirmation step's mount. The payment step empties the cart before the confirmation
    step reads it, so the recorded order has no items and a zero total. */
module CheckoutFlow {
  import opened Base
  import opened Orders
  import opened CartStore
  import opened Auth
  import opened CheckoutDraft
  import PaymentPage
  import ConfirmationPage

  /** The flow as written: PaymentPage's `handleSubmit` clears the cart and opens the
      confirmation route, whose mount effect then builds the order from the emptied cart. */
  method PayThenConfirm(draft: Draft, ledger: OrderLedger, cart: Cart, user: Option<User>,
                        draw: nat, date: string) returns (order: Order)
    requires draw < 900000
    requires ledger.Valid()
    requires cart.count != 0 && PaymentPage.IsFormValid(draft.shippingInfo)
    modifies cart, ledger`orders
    ensures order == ConfirmationPage.ConfirmationOrder(draft.shippingInfo, draft.paymentMethod, [], Some(0), user, draw, date)
    ensures order.items == Some([]) && order.total == Some(0)
    ensures old(cart.lines) != [] ==> order.items != Some(ConfirmationPage.ConfirmationItems(old(cart.lines)))
    ensures ledger.orders == Added(old(ledger.orders), order)
    ensures cart.lines == [] && cart.count == 0
  {
    var route := PaymentPage.HandleSubmit(cart);
    order := ConfirmationPage.Mount(ledger, draft.shippingInfo, draft.paymentMethod, cart, user, draw, date);
  }

  /** The flow as it is meant to work: the order is recorded from the cart as the customer
      left it, and only then is the cart cleared. */
  method ConfirmThenClear(draft: Draft, ledger: OrderLedger, cart: Cart, user: Option<User>,
                          draw: nat, date: string) returns (order: Order)
    requires draw < 900000
    requires ledger.Valid()
    requires cart.count != 0 && PaymentPage.IsFormValid(draft.shippingInfo)
    modifies cart, ledger`orders
    ensures order == ConfirmationPage.ConfirmationOrder(draft.shippingInfo, draft.paymentMethod,
                                                        old(cart.lines), old(cart.total), user, draw, date)
    ensures order.items == Some(ConfirmationPage.ConfirmationItems(old(cart.lines))) && order.total == old(cart.total)
    ensures ledger.orders == Added(old(ledger.orders), order)
    ensures IsValidOrder(order) && !HasId(old(ledger.orders), order.id) ==> ledger.orders[0] == order
    ensures cart.lines == [] && cart.count == 0
  {
    order := ConfirmationPage.Mount(ledger, draft.shippingInfo, draft.paymentMethod, cart, user, draw, date);
    cart.ClearCart();
  }
}
