/** The multi-step checkout draft of src/context/CheckoutContext.jsx: shipping fields,
    payment method and order notes, gathered across the shipping and payment steps. */
module CheckoutDraft {
  import opened Base

  /** The eight shipping fields the draft starts with. */
  const ShippingKeys: set<string> :=
    {"firstName", "lastName", "address", "city", "state", "zipCode", "country", "phone"}

  function InitialShipping(): (r: Record)
    ensures r.Keys == ShippingKeys
    ensures forall k :: k in r ==> r[k] == ""
  {
    map k | k in ShippingKeys :: ""
  }

  /** `{ ...prev, ...data }` */
  function Merged(prev: Record, data: Record): (r: Record)
    ensures r.Keys == prev.Keys + data.Keys
    ensures forall k :: k in data ==> r[k] == data[k]
    ensures forall k :: k in prev && k !in data ==> r[k] == prev[k]
  {
    prev + data
  }

  /** Merging the same data twice is merging it once. */
  lemma MergedIdempotent(prev: Record, data: Record)
    ensures Merged(Merged(prev, data), data) == Merged(prev, data)
  {
  }

  class Draft {
    var shippingInfo: Record
    var paymentMethod: string
    var orderNotes: string

    /** Every shipping field is present: true from the start, and no operation removes one. */
    ghost predicate HasShippingKeys()
      reads this
    {
      ShippingKeys <= shippingInfo.Keys
    }

    constructor ()
      ensures HasShippingKeys()
      ensures shippingInfo == InitialShipping() && paymentMethod == "creditCard" && orderNotes == ""
    {
      shippingInfo := InitialShipping();
      paymentMethod := "creditCard";
      orderNotes := "";
    }

    /** `updateShippingInfo(data)`: the keys of `data` are overwritten, every other key kept. */
    method UpdateShippingInfo(data: Record)
      modifies this`shippingInfo
      ensures shippingInfo == Merged(old(shippingInfo), data)
      ensures old(HasShippingKeys()) ==> HasShippingKeys()
    {
      shippingInfo := Merged(shippingInfo, data);
    }

    /** `setPaymentMethod` */
    method SetPaymentMethod(choice: string)
      modifies this`paymentMethod
      ensures paymentMethod == choice
    {
      paymentMethod := choice;
    }

    /** `setOrderNotes` */
    method SetOrderNotes(notes: string)
      modifies this`orderNotes
      ensures orderNotes == notes
    {
      orderNotes := notes;
    }
  }
}
