/** The single-page checkout of src/pages/CheckoutPage.jsx: the form, its validation,
    the order it builds from the cart, and the submission that records the order in the
    ledger and then clears the cart. */
module CheckoutPage {
  import opened Base
  import opened Orders
  import opened CartStore
  import opened Auth

  const RequiredFields: seq<string> :=
    ["firstName", "lastName", "address", "city", "country", "postalCode", "phone", "email"]
  const CardFields: seq<string> := ["cardNumber", "cardName", "expiryDate", "cvv"]

  const RequiredMessage := "This field is required"
  const EmailMessage := "Please enter a valid email address"
  const CardMessage := "Required"
  const FailureMessage := "Failed to process your order. Please try again."

  // ---------------------------------------------------------------------------
  // The e-mail shape /^[^\s@]+@[^\s@]+\.[^\s@]+$/
  // ---------------------------------------------------------------------------

  /** One `[^\s@]+` run. */
  predicate EmailPart(s: string)
  {
    |s| > 0 && forall i :: 0 <= i < |s| ==> !IsSpace(s[i]) && s[i] != '@'
  }

  /** What the pattern means: the text splits as A@B.C with three non-empty runs free of
      white space and '@' (B and C may contain further dots). */
  predicate MatchesEmailPattern(s: string)
  {
    exists k, d :: 0 <= k < d < |s| && s[k] == '@' && s[d] == '.' &&
      EmailPart(s[..k]) && EmailPart(s[k + 1..d]) && EmailPart(s[d + 1..])
  }

  /** The check as the form applies it: no white space, exactly one '@', not first, and a
      '.' at least two places after it that is not the last character. */
  predicate IsEmailAddress(s: string)
  {
    (forall i :: 0 <= i < |s| ==> !IsSpace(s[i])) &&
    exists k :: 0 < k < |s| && s[k] == '@' &&
      (forall j :: 0 <= j < |s| && s[j] == '@' ==> j == k) &&
      exists d :: k + 1 < d < |s| - 1 && s[d] == '.'
  }

  /** A slice whose every character is neither white space nor '@' is one run. */
  lemma RunIsPart(s: string, lo: nat, hi: nat)
    requires lo < hi <= |s|
    requires forall i :: lo <= i < hi ==> !IsSpace(s[i]) && s[i] != '@'
    ensures EmailPart(s[lo..hi])
  {
    var t := s[lo..hi];
    forall i | 0 <= i < |t| ensures !IsSpace(t[i]) && t[i] != '@' {
      assert t[i] == s[lo + i];
    }
  }

  /** And the characters of a run are neither white space nor '@'. */
  lemma PartIsRun(s: string, lo: nat, hi: nat)
    requires lo <= hi <= |s| && EmailPart(s[lo..hi])
    ensures forall i :: lo <= i < hi ==> !IsSpace(s[i]) && s[i] != '@'
  {
    var t := s[lo..hi];
    forall i | lo <= i < hi ensures !IsSpace(s[i]) && s[i] != '@' {
      assert s[i] == t[i - lo];
    }
  }

  /** The form's check accepts exactly the strings the pattern matches. */
  lemma EmailCheckMatchesPattern(s: string)
    ensures IsEmailAddress(s) <==> MatchesEmailPattern(s)
  {
    if IsEmailAddress(s) {
      EmailCheckSound(s);
    }
    if MatchesEmailPattern(s) {
      EmailCheckComplete(s);
    }
  }

  lemma EmailCheckSound(s: string)
    requires IsEmailAddress(s)
    ensures MatchesEmailPattern(s)
  {
    {
      var k :| 0 < k < |s| && s[k] == '@' &&
        (forall j :: 0 <= j < |s| && s[j] == '@' ==> j == k) &&
        exists d :: k + 1 < d < |s| - 1 && s[d] == '.';
      var d :| k + 1 < d < |s| - 1 && s[d] == '.';
      RunIsPart(s, 0, k);
      RunIsPart(s, k + 1, d);
      RunIsPart(s, d + 1, |s|);
      assert s[..k] == s[0..k] && s[d + 1..] == s[d + 1..|s|];
    }
  }

  lemma EmailCheckComplete(s: string)
    requires MatchesEmailPattern(s)
    ensures IsEmailAddress(s)
  {
    {
      var k, d :| 0 <= k < d < |s| && s[k] == '@' && s[d] == '.' &&
        EmailPart(s[..k]) && EmailPart(s[k + 1..d]) && EmailPart(s[d + 1..]);
      assert s[..k] == s[0..k] && s[d + 1..] == s[d + 1..|s|];
      PartIsRun(s, 0, k);
      PartIsRun(s, k + 1, d);
      PartIsRun(s, d + 1, |s|);
      assert forall i :: 0 <= i < |s| ==> !IsSpace(s[i]) && (s[i] == '@' ==> i == k);
    }
  }

  // ---------------------------------------------------------------------------
  // Validation
  // ---------------------------------------------------------------------------

  /** The error map `validateForm` builds: "This field is required" for every empty
      required field, the e-mail message for a non-empty e-mail of the wrong shape, and
      "Required" for every empty card field when paying by credit card. */
  function FormErrors(form: Record): Record
  {
    var required := Flagged(map[], form, RequiredFields, RequiredMessage);
    var email := Field(form, "email");
    var withEmail := if email != "" && !IsEmailAddress(email) then required["email" := EmailMessage] else required;
    if Field(form, "paymentMethod") == "creditCard" then
      Flag(Flag(Flag(Flag(withEmail, form, "cardNumber", CardMessage), form, "cardName", CardMessage),
        form, "expiryDate", CardMessage), form, "cvv", CardMessage)
    else
      withEmail
  }

  /** `errors` with `message` added for `field` when the form leaves it empty. */
  function Flag(errors: Record, form: Record, field: string, message: string): Record
  {
    if Field(form, field) == "" then errors[field := message] else errors
  }

  /** `errors` with the message added for every empty field among `fields`, one field
      after the other. */
  function Flagged(errors: Record, form: Record, fields: seq<string>, message: string): Record
  {
    if fields == [] then errors
    else Flag(Flagged(errors, form, fields[..|fields| - 1], message), form, fields[|fields| - 1], message)
  }

  lemma {:induction false} FlaggedMeaning(errors: Record, form: Record, fields: seq<string>, message: string, f: string)
    ensures f in Flagged(errors, form, fields, message) <==> f in errors || (f in fields && Field(form, f) == "")
    ensures f in Flagged(errors, form, fields, message) ==>
      Flagged(errors, form, fields, message)[f] == (if f in fields && Field(form, f) == "" then message else errors[f])
  {
    if fields != [] {
      var last := fields[|fields| - 1];
      FlaggedMeaning(errors, form, fields[..|fields| - 1], message, f);
      assert fields == fields[..|fields| - 1] + [last];
      assert f in fields <==> f in fields[..|fields| - 1] || f == last;
    }
  }

  /** `validateForm`'s error collection, field by field as the source does it. */
  method CollectErrors(form: Record) returns (errors: Record)
    ensures errors == FormErrors(form)
  {
    errors := map[];
    var i := 0;
    while i < |RequiredFields|
      invariant 0 <= i <= |RequiredFields|
      invariant errors == Flagged(map[], form, RequiredFields[..i], RequiredMessage)
    {
      var field := RequiredFields[i];
      if Field(form, field) == "" {
        errors := errors[field := RequiredMessage];
      }
      assert RequiredFields[..i + 1][..i] == RequiredFields[..i];
      i := i + 1;
    }
    assert RequiredFields[..i] == RequiredFields;
    var email := Field(form, "email");
    if email != "" && !IsEmailAddress(email) {
      errors := errors["email" := EmailMessage];
    }
    if Field(form, "paymentMethod") == "creditCard" {
      if Field(form, "cardNumber") == "" { errors := errors["cardNumber" := CardMessage]; }
      if Field(form, "cardName") == "" { errors := errors["cardName" := CardMessage]; }
      if Field(form, "expiryDate") == "" { errors := errors["expiryDate" := CardMessage]; }
      if Field(form, "cvv") == "" { errors := errors["cvv" := CardMessage]; }
    }
  }

  /** The four card checks of `validateForm` flag the card fields one after the other. */
  lemma CardChecksAreFlagged(errors: Record, form: Record)
    ensures Flag(Flag(Flag(Flag(errors, form, "cardNumber", CardMessage), form, "cardName", CardMessage),
              form, "expiryDate", CardMessage), form, "cvv", CardMessage)
            == Flagged(errors, form, CardFields, CardMessage)
  {
    var one := Flag(errors, form, "cardNumber", CardMessage);
    var two := Flag(one, form, "cardName", CardMessage);
    var three := Flag(two, form, "expiryDate", CardMessage);
    assert ["cardNumber"][..0] == [];
    assert Flagged(errors, form, ["cardNumber"], CardMessage) == one;
    assert ["cardNumber", "cardName"][..1] == ["cardNumber"];
    assert Flagged(errors, form, ["cardNumber", "cardName"], CardMessage) == two;
    assert ["cardNumber", "cardName", "expiryDate"][..2] == ["cardNumber", "cardName"];
    assert Flagged(errors, form, ["cardNumber", "cardName", "expiryDate"], CardMessage) == three;
    assert CardFields[..3] == ["cardNumber", "cardName", "expiryDate"];
  }

  /** Which fields end up in the error map, and with which message. */
  lemma FormErrorsMeaning(form: Record, f: string)
    ensures f in FormErrors(form) <==>
      (f in RequiredFields && Field(form, f) == "") ||
      (f == "email" && Field(form, f) != "" && !IsEmailAddress(Field(form, f))) ||
      (f in CardFields && Field(form, "paymentMethod") == "creditCard" && Field(form, f) == "")
    ensures f in FormErrors(form) ==>
      FormErrors(form)[f] ==
        (if f in CardFields && Field(form, "paymentMethod") == "creditCard" && Field(form, f) == "" then CardMessage
         else if f == "email" && Field(form, f) != "" then EmailMessage
         else RequiredMessage)
  {
    var required := Flagged(map[], form, RequiredFields, RequiredMessage);
    var email := Field(form, "email");
    var withEmail := if email != "" && !IsEmailAddress(email) then required["email" := EmailMessage] else required;
    FlaggedMeaning(map[], form, RequiredFields, RequiredMessage, f);
    assert "email" in RequiredFields;
    if Field(form, "paymentMethod") == "creditCard" {
      CardChecksAreFlagged(withEmail, form);
      FlaggedMeaning(withEmail, form, CardFields, CardMessage, f);
    }
  }

  /** Each required field gets "This field is required" exactly when it is empty, and no
      other field ever gets that message. */
  lemma RequiredFieldErrors(form: Record, f: string)
    ensures f in RequiredFields ==>
      (f in FormErrors(form) && FormErrors(form)[f] == RequiredMessage <==> Field(form, f) == "")
    ensures f in FormErrors(form) && FormErrors(form)[f] == RequiredMessage ==>
      f in RequiredFields && Field(form, f) == ""
  {
    FormErrorsMeaning(form, f);
    assert f in RequiredFields ==> f !in CardFields;
  }

  /** A non-empty e-mail gets the e-mail message exactly when it is not of the shape A@B.C. */
  lemma EmailFieldError(form: Record)
    ensures ("email" in FormErrors(form) && FormErrors(form)["email"] == EmailMessage) <==>
      (Field(form, "email") != "" && !MatchesEmailPattern(Field(form, "email")))
  {
    FormErrorsMeaning(form, "email");
    EmailCheckMatchesPattern(Field(form, "email"));
  }

  /** Card fields are checked only when the payment method is "creditCard". */
  lemma CardFieldErrors(form: Record, f: string)
    requires f in CardFields
    ensures f in FormErrors(form) <==> Field(form, "paymentMethod") == "creditCard" && Field(form, f) == ""
    ensures f in FormErrors(form) ==> FormErrors(form)[f] == CardMessage
  {
    FormErrorsMeaning(form, f);
    assert f !in RequiredFields && f != "email";
  }

  /** The form is valid (the error map is empty) exactly when every required field is
      filled, the e-mail has the shape A@B.C, and, for card payment, every card field is filled. */
  lemma FormValidIff(form: Record)
    ensures FormErrors(form) == map[] <==>
      (forall f :: f in RequiredFields ==> Field(form, f) != "") &&
      MatchesEmailPattern(Field(form, "email")) &&
      (Field(form, "paymentMethod") == "creditCard" ==> forall f :: f in CardFields ==> Field(form, f) != "")
  {
    var errs := FormErrors(form);
    EmailCheckMatchesPattern(Field(form, "email"));
    if errs == map[] {
      forall f | f in RequiredFields ensures Field(form, f) != "" {
        RequiredFieldErrors(form, f);
      }
      assert Field(form, "email") != "";
      EmailFieldError(form);
      if Field(form, "paymentMethod") == "creditCard" {
        forall f | f in CardFields ensures Field(form, f) != "" {
          CardFieldErrors(form, f);
        }
      }
    } else {
      var f :| f in errs;
      FormErrorsMeaning(form, f);
    }
  }

  // ---------------------------------------------------------------------------
  // The order record
  // ---------------------------------------------------------------------------

  /** `s.split(' ')[0]` */
  function FirstWord(s: string): (r: string)
    ensures |r| <= |s| && r == s[..|r|] && ' ' !in r
    ensures |r| < |s| ==> s[|r|] == ' '
  {
    if s == [] || s[0] == ' ' then "" else [s[0]] + FirstWord(s[1..])
  }

  /** `s.split(' ')[1] || ''`: the text between the first and the second space (or the end),
      and "" when there is no space. */
  function SecondWord(s: string): (r: string)
    ensures ' ' !in s ==> r == ""
    ensures ' ' in s ==>
      var k := |FirstWord(s)|;
      k < |s| && s[k] == ' ' && (forall j :: 0 <= j < k ==> s[j] != ' ') &&
      k + 1 + |r| <= |s| && r == s[k + 1..k + 1 + |r|] && ' ' !in r &&
      (k + 1 + |r| < |s| ==> s[k + 1 + |r|] == ' ')
  {
    var first := FirstWord(s);
    if |first| < |s| then
      assert forall j :: 0 <= j < |first| ==> s[j] == first[j];
      FirstWord(s[|first| + 1..])
    else
      assert s == first;
      ""
  }

  /** The signed-in user's `name`, or "" (`user?.name`, where undefined splits to nothing). */
  function UserName(user: Option<User>): string
  {
    if user.Some? then Field(user.value, "name") else ""
  }

  /** The fields of the form that always start empty. */
  const BlankFields: set<string> :=
    {"address", "city", "country", "postalCode", "phone", "cardNumber", "cardName", "expiryDate", "cvv"}

  /** The value a field of the form starts with. */
  function InitialValue(user: Option<User>, field: string): string
  {
    if field == "firstName" then FirstWord(UserName(user))
    else if field == "lastName" then SecondWord(UserName(user))
    else if field == "email" then (if UserEmailOf(user).Some? then UserEmailOf(user).value else "")
    else if field == "paymentMethod" then "creditCard"
    else ""
  }

  /** The form's initial state (`useState({...})`). */
  function InitialForm(user: Option<User>): Record
  {
    map f | f in BlankFields + {"firstName", "lastName", "email", "paymentMethod"} :: InitialValue(user, f)
  }

  /** The initial form has exactly the fields of the page, and every field that does not
      come from the user or the payment default starts empty. */
  lemma InitialFormBlank(user: Option<User>)
    ensures InitialForm(user).Keys == BlankFields + {"firstName", "lastName", "email", "paymentMethod"}
    ensures forall f :: f in BlankFields ==> f in InitialForm(user) && InitialForm(user)[f] == ""
  {
    forall f | f in BlankFields ensures InitialValue(user, f) == "" {
      assert f != "firstName" && f != "lastName" && f != "email" && f != "paymentMethod";
    }
  }

  /** The initial form holds the signed-in user's name split at spaces and e-mail, and
      credit card as payment method. */
  lemma InitialFormFields(user: Option<User>)
    ensures Field(InitialForm(user), "firstName") == FirstWord(UserName(user))
    ensures Field(InitialForm(user), "lastName") == SecondWord(UserName(user))
    ensures Field(InitialForm(user), "email") == (if UserEmailOf(user).Some? then UserEmailOf(user).value else "")
    ensures Field(InitialForm(user), "paymentMethod") == "creditCard"
  {
    var m := InitialForm(user);
    assert "firstName" in m && m["firstName"] == InitialValue(user, "firstName");
    assert "lastName" in m && m["lastName"] == InitialValue(user, "lastName");
    assert "email" in m && m["email"] == InitialValue(user, "email");
    assert "paymentMethod" in m && m["paymentMethod"] == InitialValue(user, "paymentMethod");
  }

  /** A freshly opened form never passes validation, whoever is signed in: the address and
      the card fields start empty. */
  lemma InitialFormHasErrors(user: Option<User>)
    ensures "address" in FormErrors(InitialForm(user))
    ensures "cardNumber" in FormErrors(InitialForm(user))
    ensures FormErrors(InitialForm(user)) != map[]
  {
    InitialFormBlank(user);
    FormErrorsMeaning(InitialForm(user), "address");
    FormErrorsMeaning(InitialForm(user), "cardNumber");
  }

  /** `cart.map(item => ({ id, title, price, quantity, image }))` */
  function CheckoutItems(lines: seq<CartLine>): (r: seq<OrderItem>)
    ensures |r| == |lines|
    ensures forall i :: 0 <= i < |lines| ==>
      r[i].id == lines[i].id && r[i].title == lines[i].title && r[i].price == lines[i].price &&
      r[i].quantity == lines[i].quantity && r[i].picture == Image(lines[i].image) && r[i].productId.None?
  {
    seq(|lines|, i requires 0 <= i < |lines| =>
      OrderItem(lines[i].id, lines[i].title, lines[i].price, lines[i].quantity, Image(lines[i].image), None))
  }

  /** The shipping block of the order: one `name` from first and last name, and `postalCode`. */
  function CheckoutShipping(form: Record): Record
  {
    map[
      "name" := Field(form, "firstName") + " " + Field(form, "lastName"),
      "address" := Field(form, "address"), "city" := Field(form, "city"),
      "country" := Field(form, "country"), "postalCode" := Field(form, "postalCode"),
      "phone" := Field(form, "phone"), "email" := Field(form, "email")]
  }

  function OrderId(now: nat): string
  {
    "ORD-" + Digits(now)
  }

  function TrackingNumber(draw: nat): string
    requires draw < 900000000
  {
    "TRK" + Digits(100000000 + draw)
  }

  /** The order `handleSubmit` builds. `now` is `Date.now()`, `date` the ISO timestamp and
      `trackingDraw` the integer part of `Math.random() * 900000000`. */
  function CheckoutOrder(form: Record, lines: seq<CartLine>, cartTotal: Option<int>, user: Option<User>,
                         now: nat, date: string, trackingDraw: nat): (o: Order)
    requires trackingDraw < 900000000
    ensures IsValidOrder(o) <==> date != "" && cartTotal.Some?
    ensures o.items == Some(CheckoutItems(lines)) && o.total == cartTotal
    ensures o.status == "processing" && o.paymentStatus == Some("pending")
    ensures o.owner == CustomerId(UserIdOf(user))
    ensures Field(o.shippingInfo, "name") == Field(form, "firstName") + " " + Field(form, "lastName")
    ensures o.paymentMethod == Field(form, "paymentMethod")
  {
    Order(
      id := OrderId(now),
      date := date,
      items := Some(CheckoutItems(lines)),
      total := cartTotal,
      status := "processing",
      shippingInfo := CheckoutShipping(form),
      paymentMethod := Field(form, "paymentMethod"),
      paymentStatus := Some("pending"),
      trackingNumber := Some(TrackingNumber(trackingDraw)),
      owner := CustomerId(UserIdOf(user)))
  }

  /** Orders placed at different milliseconds have different ids; two submissions in the
      same millisecond collide, and the ledger keeps only the first. */
  lemma OrderIdsDistinct(a: nat, b: nat)
    ensures OrderId(a) == OrderId(b) <==> a == b
  {
    if OrderId(a) == OrderId(b) {
      assert Digits(a) == OrderId(a)[4..] && Digits(b) == OrderId(b)[4..];
      DigitsInjective(a, b);
    }
  }

  /** The tracking number is "TRK" followed by nine digits. */
  lemma TrackingNumberShape(draw: nat)
    requires draw < 900000000
    ensures |TrackingNumber(draw)| == 12 && TrackingNumber(draw)[..3] == "TRK"
    ensures 100000000 <= ParseDigits(TrackingNumber(draw)[3..]) <= 999999999
  {
    assert Pow10(8) == 100000000 && Pow10(9) == 1000000000;
    DigitsLength(100000000 + draw, 9);
    assert TrackingNumber(draw)[3..] == Digits(100000000 + draw);
    DigitsRoundTrip(100000000 + draw);
  }

  // ---------------------------------------------------------------------------
  // The page
  // ---------------------------------------------------------------------------

  /** Where submission ends: not at all (the form was invalid), on the confirmation page
      with the order, or on the confirmation page with the failure message. */
  datatype Outcome = NotSubmitted | Confirmed(order: Order) | Failed(message: string)

  /** The effects of one submission, in the order they happen. */
  datatype Event = SubmittingSet(on: bool) | OrderAdded(order: Order, accepted: bool) | CartCleared | Navigated(outcome: Outcome)

  /** The `try` block of `handleSubmit` once the order is built: `addOrder`, then
      `clearCart` (`clearCartRaises` says whether it throws, taken to happen before changing the
      cart), then the navigation; a throw lands in `catch` with the failure message. The
      value `addOrder` returns is not looked at. */
  method PlaceOrder(ledger: OrderLedger, cart: Cart, order: Order, clearCartRaises: bool)
    returns (outcome: Outcome, ghost trace: seq<Event>)
    requires ledger.Valid()
    modifies ledger`orders, cart
    ensures ledger.Valid() && ledger.orders == Added(old(ledger.orders), order)
    ensures clearCartRaises ==>
      outcome == Failed(FailureMessage) &&
      cart.lines == old(cart.lines) && cart.total == old(cart.total) && cart.count == old(cart.count) &&
      trace == [OrderAdded(order, IsValidOrder(order)), Navigated(outcome)]
    ensures !clearCartRaises ==>
      outcome == Confirmed(order) && cart.lines == [] && cart.count == 0 &&
      trace == [OrderAdded(order, IsValidOrder(order)), CartCleared, Navigated(outcome)]
  {
    var accepted := ledger.AddOrder(order);
    trace := [OrderAdded(order, accepted)];
    if clearCartRaises {
      outcome := Failed(FailureMessage);
    } else {
      cart.ClearCart();
      trace := trace + [CartCleared];
      outcome := Confirmed(order);
    }
    trace := trace + [Navigated(outcome)];
  }

  class Page {
    var formData: Record
    var errors: Record
    var isSubmitting: bool
    ghost var events: seq<Event>

    constructor (user: Option<User>)
      ensures formData == InitialForm(user) && errors == map[] && !isSubmitting && events == []
    {
      formData := InitialForm(user);
      errors := map[];
      isSubmitting := false;
      events := [];
    }

    /** `handleChange`: one field takes the typed value. */
    method HandleChange(name: string, value: string)
      modifies this`formData
      ensures formData == old(formData)[name := value]
    {
      formData := formData[name := value];
    }

    /** The "Place Order" button is enabled only while not submitting and with a non-empty cart. */
    function SubmitEnabled(cart: Cart): (enabled: bool)
      reads this, cart
      ensures enabled ==> !isSubmitting && cart.lines != []
      ensures isSubmitting || cart.lines == [] ==> !enabled
    {
      !isSubmitting && |cart.lines| != 0
    }

    /** `validateForm`: records the error map and reports whether it is empty. */
    method ValidateForm() returns (ok: bool)
      modifies this`errors
      ensures errors == FormErrors(formData)
      ensures ok <==> errors == map[]
    {
      errors := CollectErrors(formData);
      ok := |errors| == 0;
      assert ok <==> errors == map[] by {
        if errors != map[] {
          var k :| k in errors;
        }
      }
    }

    /** `handleSubmit`. `clearCartRaises` says whether the cart store's clearCart throws
        (taken to throw before changing the cart); addOrder never throws. The value
        addOrder returns is not looked at, nor whether the ledger took the order: the cart
        is cleared and the confirmation shown even when the ledger kept an older order
        under the same id. */
    method HandleSubmit(ledger: OrderLedger, cart: Cart, user: Option<User>,
                        now: nat, date: string, trackingDraw: nat, clearCartRaises: bool)
      returns (outcome: Outcome)
      requires trackingDraw < 900000000
      requires ledger.Valid()
      modifies this, ledger`orders, cart
      ensures ledger.Valid()
      ensures formData == old(formData) && errors == FormErrors(formData)
      ensures errors != map[] ==>
        outcome == NotSubmitted && events == old(events) && isSubmitting == old(isSubmitting) &&
        ledger.orders == old(ledger.orders) &&
        cart.lines == old(cart.lines) && cart.total == old(cart.total) && cart.count == old(cart.count)
      ensures errors == map[] ==>
        var o := CheckoutOrder(formData, old(cart.lines), old(cart.total), user, now, date, trackingDraw);
        ledger.orders == Added(old(ledger.orders), o) && !isSubmitting &&
        if clearCartRaises then
          outcome == Failed(FailureMessage) &&
          cart.lines == old(cart.lines) && cart.total == old(cart.total) && cart.count == old(cart.count) &&
          events == old(events) + [SubmittingSet(true), OrderAdded(o, IsValidOrder(o)), Navigated(outcome), SubmittingSet(false)]
        else
          outcome == Confirmed(o) && cart.lines == [] && cart.count == 0 &&
          events == old(events) + [SubmittingSet(true), OrderAdded(o, IsValidOrder(o)), CartCleared, Navigated(outcome), SubmittingSet(false)]
    {
      var valid := ValidateForm();
      if !valid {
        return NotSubmitted;
      }
      isSubmitting := true;
      var order := CheckoutOrder(formData, cart.lines, cart.total, user, now, date, trackingDraw);
      ghost var trace;
      outcome, trace := PlaceOrder(ledger, cart, order, clearCartRaises);
      isSubmitting := false;
      events := events + [SubmittingSet(true)] + trace + [SubmittingSet(false)];
    }

    /** `handleSubmit` as the checkout is meant to behave: the cart is cleared only when
        the ledger holds the order afterwards; otherwise the failure message is shown and
        the cart is kept. */
    method HandleSubmitChecked(ledger: OrderLedger, cart: Cart, user: Option<User>,
                               now: nat, date: string, trackingDraw: nat)
      returns (outcome: Outcome)
      requires trackingDraw < 900000000
      requires ledger.Valid()
      modifies this, ledger`orders, cart
      ensures ledger.Valid()
      ensures formData == old(formData) && errors == FormErrors(formData)
      ensures errors != map[] ==>
        outcome == NotSubmitted && ledger.orders == old(ledger.orders) && cart.lines == old(cart.lines)
      ensures errors == map[] ==>
        var o := CheckoutOrder(formData, old(cart.lines), old(cart.total), user, now, date, trackingDraw);
        ledger.orders == Added(old(ledger.orders), o) && !isSubmitting &&
        (cart.lines == [] <==> FindOrder(ledger.orders, o.id) == Some(o) || old(cart.lines) == []) &&
        (outcome == Confirmed(o) <==> FindOrder(ledger.orders, o.id) == Some(o)) &&
        (outcome != Confirmed(o) ==>
          (outcome == Failed(FailureMessage) &&
           cart.lines == old(cart.lines) && cart.total == old(cart.total) && cart.count == old(cart.count)))
    {
      var valid := ValidateForm();
      if !valid {
        return NotSubmitted;
      }
      isSubmitting := true;
      ghost var trace := [SubmittingSet(true)];
      var order := CheckoutOrder(formData, cart.lines, cart.total, user, now, date, trackingDraw);
      var accepted := ledger.AddOrder(order);
      trace := trace + [OrderAdded(order, accepted)];
      if accepted && FindOrder(ledger.orders, order.id) == Some(order) {
        cart.ClearCart();
        trace := trace + [CartCleared];
        outcome := Confirmed(order);
      } else {
        outcome := Failed(FailureMessage);
      }
      trace := trace + [Navigated(outcome)];
      isSubmitting := false;
      events := events + trace + [SubmittingSet(false)];
    }
  }

  /** A filled-in form submitted at a millisecond `now` for which the ledger already holds
      an order (`ORD-<now>` again, after the clock was set back or two submissions fell
      within one millisecond), carrying a different order: the ledger keeps the older
      one, yet the cart is emptied and the new order is shown as confirmed. */
  method DuplicateOrderStillClearsCart(page: Page, ledger: OrderLedger, cart: Cart, user: Option<User>,
                                       now: nat, date: string, trackingDraw: nat)
    returns (outcome: Outcome)
    requires trackingDraw < 900000000
    requires ledger.Valid() && FormErrors(page.formData) == map[]
    requires cart.total.Some? && date != "" && cart.lines != []
    requires HasId(ledger.orders, OrderId(now))
    requires FindOrder(ledger.orders, OrderId(now)) != Some(CheckoutOrder(page.formData, cart.lines, cart.total, user, now, date, trackingDraw))
    modifies page, ledger`orders, cart
    ensures ledger.orders == old(ledger.orders)
    ensures old(cart.lines) != [] && cart.lines == []
    ensures outcome.Confirmed? && IsValidOrder(outcome.order)
    ensures FindOrder(ledger.orders, outcome.order.id) != Some(outcome.order)
  {
    outcome := page.HandleSubmit(ledger, cart, user, now, date, trackingDraw, false);
  }

  /** The same submission with the checked handler: the failure message is shown and the
      cart keeps its lines. */
  method DuplicateOrderKeepsCart(page: Page, ledger: OrderLedger, cart: Cart, user: Option<User>,
                                 now: nat, date: string, trackingDraw: nat)
    returns (outcome: Outcome)
    requires trackingDraw < 900000000
    requires ledger.Valid() && FormErrors(page.formData) == map[]
    requires cart.total.Some? && date != "" && cart.lines != []
    requires HasId(ledger.orders, OrderId(now))
    requires FindOrder(ledger.orders, OrderId(now)) != Some(CheckoutOrder(page.formData, cart.lines, cart.total, user, now, date, trackingDraw))
    modifies page, ledger`orders, cart
    ensures ledger.orders == old(ledger.orders)
    ensures cart.lines == old(cart.lines) && cart.lines != []
    ensures outcome == Failed(FailureMessage)
  {
    outcome := page.HandleSubmitChecked(ledger, cart, user, now, date, trackingDraw);
  }
}
