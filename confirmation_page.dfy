/** The confirmation step of the multi-step checkout (src/pages/checkout/ConfirmationPage.jsx):
    the order record it builds from the draft, the cart and the signed-in user, and the
    single `addOrder` it makes when it mounts. It never clears the cart. */
module ConfirmationPage {
  import opened Base
  import opened Orders
  import opened CartStore
  import opened Auth

  /** `ORDER-${Math.floor(100000 + Math.random() * 900000)}`; `draw` is the integer part
      of `Math.random() * 900000`. */
  function OrderNumber(draw: nat): string
    requires draw < 900000
  {
    "ORDER-" + Digits(100000 + draw)
  }

  /** The order number is "ORDER-" followed by six digits that read as a number in
      [100000, 999999]. */
  lemma OrderNumberShape(draw: nat)
    requires draw < 900000
    ensures |OrderNumber(draw)| == 12 && OrderNumber(draw)[..6] == "ORDER-"
    ensures forall i :: 6 <= i < 12 ==> IsDigit(OrderNumber(draw)[i])
    ensures 100000 <= ParseDigits(OrderNumber(draw)[6..]) <= 999999
  {
    assert Pow10(5) == 100000 && Pow10(6) == 1000000;
    DigitsLength(100000 + draw, 6);
    assert OrderNumber(draw)[6..] == Digits(100000 + draw);
    DigitsRoundTrip(100000 + draw);
  }

  /** Distinct draws give distinct order numbers; equal draws collide. */
  lemma OrderNumbersDistinct(a: nat, b: nat)
    requires a < 900000 && b < 900000
    ensures OrderNumber(a) == OrderNumber(b) <==> a == b
  {
    if OrderNumber(a) == OrderNumber(b) {
      assert Digits(100000 + a) == OrderNumber(a)[6..] && Digits(100000 + b) == OrderNumber(b)[6..];
      DigitsInjective(100000 + a, 100000 + b);
    }
  }

  /** `cart.map(item => ({ id, title, price, quantity, thumbnail, productId: item.id }))` */
  function ConfirmationItems(lines: seq<CartLine>): (r: seq<OrderItem>)
    ensures |r| == |lines|
    ensures forall i :: 0 <= i < |lines| ==>
      r[i].id == lines[i].id && r[i].title == lines[i].title && r[i].price == lines[i].price &&
      r[i].quantity == lines[i].quantity && r[i].picture == Thumbnail(lines[i].thumbnail)
    ensures forall i :: 0 <= i < |r| ==> r[i].productId == Some(r[i].id)
  {
    seq(|lines|, i requires 0 <= i < |lines| =>
      OrderItem(lines[i].id, lines[i].title, lines[i].price, lines[i].quantity,
        Thumbnail(lines[i].thumbnail), Some(lines[i].id)))
  }

  /** `{ ...shippingInfo, email: user?.email || shippingInfo.email }`. When neither is set
      the key holds `undefined`, which the stored copy drops, so the key is absent. */
  function ConfirmationShipping(draft: Record, user: Option<User>): (r: Record)
    ensures r.Keys == draft.Keys + (if UserEmailOf(user).Some? then {"email"} else {})
    ensures forall k :: k in draft && k != "email" ==> r[k] == draft[k]
    ensures Field(r, "email") == if UserEmailOf(user).Some? then UserEmailOf(user).value else Field(draft, "email")
  {
    match UserEmailOf(user)
    case Some(email) => draft["email" := email]
    case None => draft
  }

  /** The order the page records. `date` is `new Date().toISOString()`. */
  function ConfirmationOrder(draft: Record, paymentMethod: string, lines: seq<CartLine>, cartTotal: Option<int>,
                             user: Option<User>, draw: nat, date: string): (o: Order)
    requires draw < 900000
    ensures IsValidOrder(o) <==> date != "" && cartTotal.Some?
    ensures o.items == Some(ConfirmationItems(lines)) && o.total == cartTotal
    ensures o.status == "processing" && o.paymentStatus.None? && o.trackingNumber.None?
    ensures o.owner == UserId(UserIdOf(user))
    ensures o.shippingInfo == ConfirmationShipping(draft, user) && o.paymentMethod == paymentMethod
  {
    Order(
      id := OrderNumber(draw),
      date := date,
      items := Some(ConfirmationItems(lines)),
      total := cartTotal,
      status := "processing",
      shippingInfo := ConfirmationShipping(draft, user),
      paymentMethod := paymentMethod,
      paymentStatus := None,
      trackingNumber := None,
      owner := UserId(UserIdOf(user)))
  }

  /** The mount effect: one `addOrder` with the order built from what the page sees; its
      result is not looked at, and the cart is left as it is. */
  method Mount(ledger: OrderLedger, draft: Record, paymentMethod: string, cart: Cart,
               user: Option<User>, draw: nat, date: string) returns (order: Order)
    requires draw < 900000
    requires ledger.Valid()
    modifies ledger`orders
    ensures ledger.Valid()
    ensures order == ConfirmationOrder(draft, paymentMethod, cart.lines, cart.total, user, draw, date)
    ensures ledger.orders == Added(old(ledger.orders), order)
  {
    order := ConfirmationOrder(draft, paymentMethod, cart.lines, cart.total, user, draw, date);
    var _ := ledger.AddOrder(order);
  }
}
