/** The order details page of src/pages/account/OrderDetailsPage.jsx: the lookup by id
    with its not-found view, the three progress steps derived from the order's status,
    the status icon, and the fields the page reads from a stored order. */
module OrderDetailsPage {
  import opened Base
  import opened Orders
  import opened CartStore
  import opened Auth
  import CheckoutPage
  import ConfirmationPage

  datatype Step = Step(id: string, name: string, status: string)

  const StepIds: seq<string> := ["processing", "shipped", "delivered"]
  const StepNames: seq<string> := ["Processing", "Shipped", "Delivered"]

  /** What one step shows for an order status, step by step: processing is always done;
      a cancelled order cancels the other two; shipped is done once the order has shipped
      or arrived, delivered once it has arrived; anything else is pending. */
  function StepStatus(stepId: string, status: string): string
  {
    if stepId == "processing" then "complete"
    else if status == "cancelled" then "cancelled"
    else if stepId == "shipped" then (if status == "shipped" || status == "delivered" then "complete" else "pending")
    else if status == "delivered" then "complete"
    else "pending"
  }

  /** The steps the page draws for an order status. */
  function StatusSteps(status: string): (r: seq<Step>)
    ensures |r| == 3
    ensures forall i :: 0 <= i < 3 ==> r[i].id == StepIds[i] && r[i].name == StepNames[i]
    ensures r[0].status == "complete"
    ensures r[1].status == "complete" <==> status == "shipped" || status == "delivered"
    ensures r[2].status == "complete" <==> status == "delivered"
    ensures status == "cancelled" <==> r[1].status == "cancelled" && r[2].status == "cancelled"
    ensures forall i :: 0 <= i < 3 && r[i].status != "complete" && r[i].status != "cancelled" ==> r[i].status == "pending"
    ensures forall i, j :: 0 <= i < j < 3 && r[j].status == "complete" ==> r[i].status == "complete"
  {
    seq(3, i requires 0 <= i < 3 => Step(StepIds[i], StepNames[i], StepStatus(StepIds[i], status)))
  }

  /** `getStatusSteps`: three step records, then, for a cancelled order, every step but
      processing has its status overwritten in place. */
  method GetStatusSteps(status: string) returns (steps: seq<Step>)
    ensures steps == StatusSteps(status)
  {
    var a := new Step[3];
    a[0] := Step("processing", "Processing", "complete");
    a[1] := Step("shipped", "Shipped",
      if status == "processing" then "pending"
      else if status == "shipped" || status == "delivered" then "complete"
      else "pending");
    a[2] := Step("delivered", "Delivered", if status == "delivered" then "complete" else "pending");
    if status == "cancelled" {
      ghost var built := a[..];
      var i := 0;
      while i < a.Length
        invariant 0 <= i <= a.Length
        invariant forall k :: 0 <= k < i ==> a[k] == StatusSteps(status)[k]
        invariant forall k :: i <= k < a.Length ==> a[k] == built[k]
      {
        if a[i].id != "processing" {
          a[i] := a[i].(status := "cancelled");
        }
        i := i + 1;
      }
    }
    steps := a[..];
  }

  datatype Icon = Truck | CheckCircle | XCircle | Clock

  /** `getStatusIcon` */
  function StatusIcon(status: string): Icon
  {
    match status
    case "shipped" => Truck
    case "delivered" => CheckCircle
    case "cancelled" => XCircle
    case _ => Clock
  }

  /** The icon agrees with the steps: a check when every step is done, a cross when a step
      is cancelled, a truck when exactly the first two are done, a clock otherwise. */
  lemma IconAgreesWithSteps(status: string)
    ensures StatusIcon(status) == CheckCircle <==> forall i :: 0 <= i < 3 ==> StatusSteps(status)[i].status == "complete"
    ensures StatusIcon(status) == XCircle <==> exists i :: 0 <= i < 3 && StatusSteps(status)[i].status == "cancelled"
    ensures StatusIcon(status) == Truck <==>
      StatusSteps(status)[1].status == "complete" && StatusSteps(status)[2].status != "complete"
  {
    var r := StatusSteps(status);
    if forall i :: 0 <= i < 3 ==> r[i].status == "complete" {
      assert r[2].status == "complete";
    }
    if exists i :: 0 <= i < 3 && r[i].status == "cancelled" {
      var i :| 0 <= i < 3 && r[i].status == "cancelled";
      assert i != 0;
    }
  }

  // ---------------------------------------------------------------------------
  // The page
  // ---------------------------------------------------------------------------

  datatype View = NotFound | Details(order: Order, steps: seq<Step>)

  /** An unknown id shows "Order Not Found"; a known one shows the first order with that
      id and the steps for its status. */
  function Render(orders: seq<Order>, orderId: string): (v: View)
    ensures v.NotFound? <==> !HasId(orders, orderId)
    ensures v.Details? ==> v.order in orders && v.order.id == orderId && v.steps == StatusSteps(v.order.status)
  {
    match FindOrder(orders, orderId)
    case None => NotFound
    case Some(order) => Details(order, StatusSteps(order.status))
  }

  /** The name line `{firstName} {lastName}`: a missing field renders as nothing. */
  function NameLine(order: Order): string
  {
    Field(order.shippingInfo, "firstName") + " " + Field(order.shippingInfo, "lastName")
  }

  /** The `{city}, {state} {zipCode}` line. */
  function CityLine(order: Order): string
  {
    Field(order.shippingInfo, "city") + ", " + Field(order.shippingInfo, "state") + " " + Field(order.shippingInfo, "zipCode")
  }

  /** The picture the page shows for an item: `item.thumbnail`. */
  function ItemThumbnail(item: OrderItem): Option<string>
  {
    match item.picture
    case Thumbnail(t) => t
    case Image(_) => None
  }

  /** An order placed on the single-page checkout stores `name` and `postalCode` and item
      `image`s, none of which this page reads: the name line is blank, the state and zip
      code are missing and no item has a picture. */
  lemma CheckoutOrderShowsNoNameOrPictures(form: Record, lines: seq<CartLine>, cartTotal: Option<int>,
                                           user: Option<User>, now: nat, date: string, trackingDraw: nat)
    requires trackingDraw < 900000000
    ensures var o := CheckoutPage.CheckoutOrder(form, lines, cartTotal, user, now, date, trackingDraw);
      NameLine(o) == " " && CityLine(o) == Field(form, "city") + ",  " &&
      forall i :: 0 <= i < |lines| ==> ItemThumbnail(o.items.value[i]).None?
  {
    var o := CheckoutPage.CheckoutOrder(form, lines, cartTotal, user, now, date, trackingDraw);
    assert o.shippingInfo == CheckoutPage.CheckoutShipping(form);
    assert "firstName" !in o.shippingInfo && "lastName" !in o.shippingInfo;
    assert "state" !in o.shippingInfo && "zipCode" !in o.shippingInfo;
  }

  /** An order placed on the multi-step checkout keeps the draft's keys, so the page shows
      the draft's name, city, state and zip code and the items' thumbnails. */
  lemma ConfirmationOrderShowsDraft(draft: Record, paymentMethod: string, lines: seq<CartLine>,
                                    cartTotal: Option<int>, user: Option<User>, draw: nat, date: string)
    requires draw < 900000
    ensures var o := ConfirmationPage.ConfirmationOrder(draft, paymentMethod, lines, cartTotal, user, draw, date);
      NameLine(o) == Field(draft, "firstName") + " " + Field(draft, "lastName") &&
      CityLine(o) == Field(draft, "city") + ", " + Field(draft, "state") + " " + Field(draft, "zipCode") &&
      forall i :: 0 <= i < |lines| ==> ItemThumbnail(o.items.value[i]) == lines[i].thumbnail
  {
  }
}
