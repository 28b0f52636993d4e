/** The order ledger of src/context/OrdersContext.jsx: the customer's order history,
    newest first, kept in memory and mirrored to browser storage under the key 'orders'. */
module Orders {
  import opened Base

  /** The picture reference of an order line, under the key its producer wrote:
      the single-page checkout writes `image`, the multi-step confirmation writes `thumbnail`.
      None stands for `undefined` (the cart line did not carry that key). */
  datatype Picture = Image(image: Option<string>) | Thumbnail(thumbnail: Option<string>)

  /** One order line. Prices are whole cents. `productId` is written by the multi-step flow only. */
  datatype OrderItem = OrderItem(
    id: string, title: string, price: int, quantity: int,
    picture: Picture, productId: Option<string>)

  /** Who placed the order, under the key its producer wrote (`customerId` or `userId`);
      None is the JSON `null` of a guest order. */
  datatype Owner = CustomerId(customer: Option<string>) | UserId(user: Option<string>)

  /** An order record. `items` is None when the value stored there is not an array and
      `total` is None when it is not a number: both can happen for records that come back
      from storage or from a cart store this model does not see. */
  datatype Order = Order(
    id: string,
    date: string,
    items: Option<seq<OrderItem>>,
    total: Option<int>,
    status: string,
    shippingInfo: Record,
    paymentMethod: string,
    paymentStatus: Option<string>,
    trackingNumber: Option<string>,
    owner: Owner)

  /** One element of the stored JSON array: an object, or some other JSON value. */
  datatype Entry = OrderRecord(order: Order) | NonRecord

  /** What `localStorage.getItem('orders')` holds, once parsed: nothing (null or the empty
      string), text that JSON.parse rejects, a JSON value that is not an array, or an array. */
  datatype Stored = Missing | Unparseable | NonArray | Entries(entries: seq<Entry>)

  /** `isValidOrder`: an object with a truthy id and date, an array of items and a numeric total. */
  predicate IsValidEntry(e: Entry)
  {
    e.OrderRecord? && IsValidOrder(e.order)
  }

  predicate IsValidOrder(o: Order)
  {
    o.id != "" && o.date != "" && o.items.Some? && o.total.Some?
  }

  predicate AllValid(os: seq<Order>)
  {
    forall i :: 0 <= i < |os| ==> IsValidOrder(os[i])
  }

  predicate HasId(os: seq<Order>, id: string)
  {
    exists i :: 0 <= i < |os| && os[i].id == id
  }

  /** No two orders of the ledger share an id. */
  predicate UniqueIds(os: seq<Order>)
  {
    forall i, j :: 0 <= i < j < |os| ==> os[i].id != os[j].id
  }

  /** The JSON array the save effect writes: `JSON.stringify(orders)`. */
  function Snapshot(os: seq<Order>): (r: Stored)
    ensures r.Entries? && |r.entries| == |os|
    ensures forall i :: 0 <= i < |os| ==> r.entries[i] == OrderRecord(os[i])
  {
    Entries(seq(|os|, i requires 0 <= i < |os| => OrderRecord(os[i])))
  }

  /** The load effect: the orders it adopts and what storage holds afterwards.
      A stored array is adopted only when every entry is valid; an array with an invalid
      entry, or a value that is not an array, is discarded whole and the key removed;
      text that does not parse is reported and left in place (until the save effect,
      see `MountedStorage`). */
  function LoadOrders(saved: Stored): (r: (seq<Order>, Stored))
    ensures AllValid(r.0)
    ensures r.0 == [] || Snapshot(r.0) == saved
    ensures saved.Entries? && (forall i :: 0 <= i < |saved.entries| ==> IsValidEntry(saved.entries[i]))
            ==> Snapshot(r.0) == saved && r.1 == saved
    ensures saved.NonArray? ==> r == ([], Missing)
    ensures saved.Entries? && (exists i :: 0 <= i < |saved.entries| && !IsValidEntry(saved.entries[i]))
            ==> r == ([], Missing)
    ensures saved.Missing? || saved.Unparseable? ==> r == ([], saved)
  {
    match saved
    case Missing => ([], Missing)
    case Unparseable => ([], Unparseable)
    case NonArray => ([], Missing)
    case Entries(es) =>
      if forall i :: 0 <= i < |es| ==> IsValidEntry(es[i]) then
        var os := seq(|es|, i requires 0 <= i < |es| && IsValidEntry(es[i]) => es[i].order);
        assert Snapshot(os).entries == es;
        (os, saved)
      else
        ([], Missing)
  }

  /** What the save effect writes, the load effect reads back unchanged. */
  lemma PersistLoadRoundTrip(os: seq<Order>)
    requires AllValid(os)
    ensures LoadOrders(Snapshot(os)) == (os, Snapshot(os))
  {
    var r := LoadOrders(Snapshot(os));
    assert forall i :: 0 <= i < |Snapshot(os).entries| ==> IsValidEntry(Snapshot(os).entries[i]);
    assert |r.0| == |os|;
    forall i | 0 <= i < |os| ensures r.0[i] == os[i] {
      assert Snapshot(r.0).entries[i] == Snapshot(os).entries[i];
    }
    assert r.0 == os;
  }

  /** Once the provider has mounted, the save effect has overwritten whatever the load
      effect left: storage holds the adopted ledger, which is the stored array itself when
      every entry was valid and the empty array in every other case, text that did not
      parse included. */
  lemma MountedStorage(saved: Stored)
    ensures saved.Entries? && (forall i :: 0 <= i < |saved.entries| ==> IsValidEntry(saved.entries[i]))
            ==> Snapshot(LoadOrders(saved).0) == saved
    ensures !(saved.Entries? && (forall i :: 0 <= i < |saved.entries| ==> IsValidEntry(saved.entries[i])))
            ==> LoadOrders(saved).0 == [] && Snapshot(LoadOrders(saved).0) == Entries([])
  {
    if !(saved.Entries? && (forall i :: 0 <= i < |saved.entries| ==> IsValidEntry(saved.entries[i]))) {
      assert LoadOrders(saved).0 == [];
      assert Snapshot([]).entries == [];
    }
  }

  /** The state update of `addOrder`: an invalid order or one whose id is already present
      leaves the ledger as it was; any other order goes in front. */
  function Added(os: seq<Order>, o: Order): seq<Order>
  {
    if !IsValidOrder(o) || HasId(os, o.id) then os else [o] + os
  }

  /** `orders.find(o => o.id === orderId)`: the first order with that id. */
  function FindOrder(os: seq<Order>, id: string): (r: Option<Order>)
    ensures r.None? <==> !HasId(os, id)
    ensures r.Some? ==> exists i :: 0 <= i < |os| && os[i] == r.value && r.value.id == id &&
                                    forall j :: 0 <= j < i ==> os[j].id != id
  {
    if os == [] then None
    else if os[0].id == id then Some(os[0])
    else
      var r := FindOrder(os[1..], id);
      assert HasId(os, id) ==> HasId(os[1..], id) by {
        if HasId(os, id) {
          var i :| 0 <= i < |os| && os[i].id == id;
          assert os[1..][i - 1].id == id;
        }
      }
      assert r.Some? ==> exists i :: 0 <= i < |os| && os[i] == r.value && r.value.id == id &&
                                     forall j :: 0 <= j < i ==> os[j].id != id by {
        if r.Some? {
          var i :| 0 <= i < |os[1..]| && os[1..][i] == r.value && r.value.id == id &&
                   forall j :: 0 <= j < i ==> os[1..][j].id != id;
          assert os[i + 1] == r.value;
          forall j | 0 <= j < i + 1 ensures os[j].id != id {
            if j > 0 { assert os[j] == os[1..][j - 1]; }
          }
        }
      }
      r
  }

  /** With unique ids, the order found is the only one with that id. */
  lemma FindUnique(os: seq<Order>, i: nat)
    requires UniqueIds(os) && i < |os|
    ensures FindOrder(os, os[i].id) == Some(os[i])
  {
    var r := FindOrder(os, os[i].id);
    assert HasId(os, os[i].id);
    var k :| 0 <= k < |os| && os[k] == r.value && r.value.id == os[i].id &&
             forall j :: 0 <= j < k ==> os[j].id != os[i].id;
    assert k == i;
  }

  /** `addOrder` keeps the ledger free of duplicate ids. */
  lemma AddedKeepsUniqueIds(os: seq<Order>, o: Order)
    requires UniqueIds(os)
    ensures UniqueIds(Added(os, o))
  {
    if IsValidOrder(o) && !HasId(os, o.id) {
      var r := [o] + os;
      forall i, j | 0 <= i < j < |r| ensures r[i].id != r[j].id {
        if i == 0 {
          assert r[j] == os[j - 1];
        } else {
          assert r[i] == os[i - 1] && r[j] == os[j - 1];
        }
      }
    }
  }

  /** Adding a second order under an id already taken keeps the first: looking the id up
      afterwards returns the order added first. */
  lemma DuplicateAddKeepsFirst(os: seq<Order>, first: Order, second: Order)
    requires IsValidOrder(first) && !HasId(os, first.id) && second.id == first.id
    ensures Added(Added(os, first), second) == [first] + os
    ensures FindOrder(Added(Added(os, first), second), first.id) == Some(first)
  {
    assert ([first] + os)[0] == first;
    assert HasId([first] + os, first.id);
  }

  /** The order with its status replaced when its id matches. */
  function Retagged(o: Order, id: string, status: string): Order
  {
    if o.id == id then o.(status := status) else o
  }

  /** The state update of `updateOrderStatus` (`prev.map(...)`). */
  function WithStatus(os: seq<Order>, id: string, status: string): seq<Order>
  {
    if os == [] then [] else [Retagged(os[0], id, status)] + WithStatus(os[1..], id, status)
  }

  /** Updating a status changes nothing but the `status` of the orders with that id:
      same length, same order, every other field as before. */
  lemma {:induction false} WithStatusOnlyStatus(os: seq<Order>, id: string, status: string)
    ensures |WithStatus(os, id, status)| == |os|
    ensures forall i :: 0 <= i < |os| ==>
      WithStatus(os, id, status)[i].(status := os[i].status) == os[i] &&
      WithStatus(os, id, status)[i].status == (if os[i].id == id then status else os[i].status)
  {
    if os != [] {
      WithStatusOnlyStatus(os[1..], id, status);
      var r := WithStatus(os, id, status);
      forall i | 0 < i < |os|
        ensures r[i] == WithStatus(os[1..], id, status)[i - 1] && os[i] == os[1..][i - 1]
      {
      }
    }
  }

  /** Status updates keep ids (hence uniqueness), validity, and make the lookup see the new status. */
  lemma WithStatusKeepsInvariants(os: seq<Order>, id: string, status: string)
    requires UniqueIds(os) && AllValid(os)
    ensures UniqueIds(WithStatus(os, id, status)) && AllValid(WithStatus(os, id, status))
    ensures FindOrder(WithStatus(os, id, status), id) ==
            (match FindOrder(os, id) case None => None case Some(o) => Some(o.(status := status)))
  {
    var r := WithStatus(os, id, status);
    WithStatusOnlyStatus(os, id, status);
    assert forall i :: 0 <= i < |os| ==>
      (r[i].id == os[i].id && r[i].date == os[i].date && r[i].items == os[i].items && r[i].total == os[i].total) by {
      forall i | 0 <= i < |os| ensures r[i].id == os[i].id {
        assert r[i].(status := os[i].status) == os[i];
      }
    }
    if HasId(os, id) {
      var k :| 0 <= k < |os| && os[k].id == id;
      FindUnique(os, k);
      FindUnique(r, k);
    } else {
      assert !HasId(r, id);
    }
  }

  class OrderLedger {
    var orders: seq<Order>
    var loading: bool
    /** The value under the storage key 'orders'. */
    var stored: Stored

    ghost predicate Valid()
      reads this
    {
      AllValid(orders)
    }

    /** The provider's initial state: no orders yet, loading, storage as the browser holds it. */
    constructor (saved: Stored)
      ensures Valid() && orders == [] && loading && stored == saved
    {
      orders := [];
      loading := true;
      stored := saved;
    }

    /** The load effect, run once on mount. */
    method LoadOnStart()
      modifies this
      ensures Valid()
      ensures (orders, stored) == LoadOrders(old(stored))
      ensures !loading
    {
      var r := LoadOrders(stored);
      orders, stored := r.0, r.1;
      loading := false;
    }

    /** The save effect, run after every change of `orders`: nothing while loading,
        otherwise the whole ledger overwrites the stored copy. */
    method Persist()
      modifies this`stored
      ensures stored == if loading then old(stored) else Snapshot(orders)
    {
      if !loading {
        stored := Snapshot(orders);
      }
    }

    /** Mounting the provider: the load effect, then the save effect on the render after
        `loading` turns false. */
    method Mount()
      modifies this
      ensures Valid() && !loading
      ensures orders == LoadOrders(old(stored)).0
      ensures stored == Snapshot(orders)
    {
      LoadOnStart();
      Persist();
    }

    /** `addOrder`: false for an invalid order (caught inside, never thrown), true otherwise,
        including when an order with the same id is already present and nothing is added. */
    method AddOrder(o: Order) returns (ok: bool)
      requires Valid()
      modifies this`orders
      ensures Valid()
      ensures ok <==> IsValidOrder(o)
      ensures orders == Added(old(orders), o)
      ensures !ok ==> orders == old(orders)
      ensures ok && HasId(old(orders), o.id) ==> orders == old(orders)
      ensures ok && !HasId(old(orders), o.id) ==> orders == [o] + old(orders) && orders[1..] == old(orders)
      ensures old(UniqueIds(orders)) ==> UniqueIds(orders)
    {
      if UniqueIds(orders) {
        AddedKeepsUniqueIds(orders, o);
      }
      if !IsValidOrder(o) {
        return false;
      }
      if !HasId(orders, o.id) {
        orders := [o] + orders;
        assert orders[1..] == old(orders);
      }
      return true;
    }

    /** `getOrderById`: the first order with that id, None (`undefined`) when there is none. */
    function GetOrderById(id: string): (r: Option<Order>)
      reads this
      ensures r.None? <==> !HasId(orders, id)
      ensures r.Some? ==> r.value in orders && r.value.id == id
      ensures Valid() && r.Some? ==> IsValidOrder(r.value)
    {
      FindOrder(orders, id)
    }

    /** `updateOrderStatus`: any status may be written; no transition is checked. */
    method UpdateOrderStatus(id: string, status: string)
      requires Valid()
      modifies this`orders
      ensures Valid()
      ensures orders == WithStatus(old(orders), id, status)
      ensures old(UniqueIds(orders)) ==> UniqueIds(orders)
    {
      WithStatusOnlyStatus(orders, id, status);
      if UniqueIds(orders) {
        WithStatusKeepsInvariants(orders, id, status);
      }
      orders := WithStatus(orders, id, status);
    }

    /** `cancelOrder`: the same update with the status "cancelled". */
    method CancelOrder(id: string)
      requires Valid()
      modifies this`orders
      ensures Valid()
      ensures orders == WithStatus(old(orders), id, "cancelled")
      ensures old(UniqueIds(orders)) ==> UniqueIds(orders)
    {
      UpdateOrderStatus(id, "cancelled");
    }

    /** `clearOrders`: empties the ledger and removes the stored key. */
    method ClearOrders()
      modifies this`orders, this`stored
      ensures Valid()
      ensures orders == [] && stored == Missing
    {
      orders := [];
      stored := Missing;
    }
  }
}
