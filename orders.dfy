/** The order container (frontend/src/context/OrderContext.js): the
    customer's order list, newest first, persisted to 'restaurant-orders',
    and the order last placed or selected. */
module Orders {
  import opened Common
  import opened Seqs
  import opened Text

  /** One line of an order as the checkout page writes it. */
  datatype OrderLine = OrderLine(id: int, name: string, quantity: int, price: int)

  /** What the checkout page hands to addOrder. `orderId` is the
      "#NNNNN" display number and `id` a copy of it; `total` is the cart's
      running total; `tableNumber` is None when the object has no such
      field. */
  datatype OrderData = OrderData(
    orderId: string, id: string, items: seq<OrderLine>, paymentMethod: string,
    waiter: string, total: int, customerName: string, timestamp: string, tableNumber: Option<string>)

  /** A placed order: the data, with `id` replaced by the clock reading,
      plus the status and the placement fields addOrder adds. */
  datatype Order = Order(
    orderId: string, id: string, items: seq<OrderLine>, paymentMethod: string,
    waiter: string, total: int, customerName: string, timestamp: string, tableNumber: Option<string>,
    status: string, placedAt: string, estimatedTime: int)

  const InitialStatus: string := "Pending"
  const EstimatedMinutes: int := 20

  /** The OrderData fields of an order. */
  function DataOf(o: Order): OrderData {
    OrderData(o.orderId, o.id, o.items, o.paymentMethod, o.waiter, o.total, o.customerName, o.timestamp, o.tableNumber)
  }

  /** `{...orderData, id: Date.now().toString(), status: 'Pending',
      placedAt, estimatedTime: 20}` with the clock (`now`, milliseconds) and
      the ISO time text as parameters. */
  function Stamp(data: OrderData, now: nat, placedAt: string): (o: Order)
    ensures DataOf(o) == data.(id := DecimalString(now))
    ensures ParseInt(o.id) == Some(now)
    ensures o.status == InitialStatus && o.placedAt == placedAt && o.estimatedTime == EstimatedMinutes
  {
    ParseDecimal(now);
    Order(data.orderId, DecimalString(now), data.items, data.paymentMethod, data.waiter, data.total,
          data.customerName, data.timestamp, data.tableNumber, InitialStatus, placedAt, EstimatedMinutes)
  }

  /** Orders stamped at different milliseconds have different ids. */
  lemma StampIdsDiffer(d1: OrderData, n1: nat, p1: string, d2: OrderData, n2: nat, p2: string)
    requires n1 != n2
    ensures Stamp(d1, n1, p1).id != Stamp(d2, n2, p2).id
  {
    if Stamp(d1, n1, p1).id == Stamp(d2, n2, p2).id {
      DecimalInjective(n1, n2);
    }
  }

  /** The `map` of updateOrderStatus. */
  function SetStatus(orders: seq<Order>, id: string, status: string): seq<Order> {
    if orders == [] then []
    else [if orders[0].id == id then orders[0].(status := status) else orders[0]] + SetStatus(orders[1..], id, status)
  }

  /** getOrderById: nothing when no order has the id, else the first order
      that has it. */
  function FindOrder(orders: seq<Order>, id: string): (r: Option<Order>)
    ensures r.None? <==> forall j :: 0 <= j < |orders| ==> orders[j].id != id
    ensures r.Some? ==>
      r.value.id == id
      && exists i :: 0 <= i < |orders| && orders[i] == r.value && forall j :: 0 <= j < i ==> orders[j].id != id
  {
    Find(orders, (o: Order) => o.id == id)
  }

  /** getOrdersByStatus: exactly the orders with that status, in their
      order. */
  function OrdersWithStatus(orders: seq<Order>, status: string): (r: seq<Order>)
    ensures forall o :: o in r <==> o in orders && o.status == status
    ensures IsSubsequence(r, orders)
  {
    Filter(orders, (o: Order) => o.status == status)
  }

  predicate UniqueIds(orders: seq<Order>) {
    forall i, j :: 0 <= i < j < |orders| ==> orders[i].id != orders[j].id
  }

  /** Every order's id is a clock reading taken before `now`. */
  predicate StampedBefore(orders: seq<Order>, now: nat) {
    forall i :: 0 <= i < |orders| ==> ParseInt(orders[i].id).Some? && 0 <= ParseInt(orders[i].id).value < now
  }

  /** The mount-time load: the parsed list, else the empty list. */
  function Restore(slot: Slot<seq<Order>>): (orders: seq<Order>)
    ensures slot.Stored? ==> orders == slot.value
    ensures !slot.Stored? ==> orders == []
  {
    if slot.Stored? then slot.value else []
  }

  // ------------------------------------------------------------ lemmas

  /** updateOrderStatus keeps the list's length and order and changes only
      the status of the orders with that id. */
  lemma {:induction false} SetStatusShape(orders: seq<Order>, id: string, status: string)
    ensures |SetStatus(orders, id, status)| == |orders|
    ensures forall i :: 0 <= i < |orders| ==>
      SetStatus(orders, id, status)[i] == if orders[i].id == id then orders[i].(status := status) else orders[i]
  {
    if orders != [] {
      SetStatusShape(orders[1..], id, status);
    }
  }

  /** Setting the same status twice is setting it once. */
  lemma SetStatusIdempotent(orders: seq<Order>, id: string, status: string)
    ensures SetStatus(SetStatus(orders, id, status), id, status) == SetStatus(orders, id, status)
  {
    SetStatusShape(orders, id, status);
    SetStatusShape(SetStatus(orders, id, status), id, status);
  }

  /** After updateOrderStatus, getOrderById finds the same order with the new
      status, and still nothing when the id is absent. */
  lemma FindAfterSetStatus(orders: seq<Order>, id: string, status: string)
    ensures FindOrder(SetStatus(orders, id, status), id) ==
      match FindOrder(orders, id)
      case None => None
      case Some(o) => Some(o.(status := status))
  {
    var r := SetStatus(orders, id, status);
    SetStatusShape(orders, id, status);
    var p := (o: Order) => o.id == id;
    assert forall i :: 0 <= i < |orders| ==> (p(r[i]) <==> p(orders[i]));
  }

  /** The order addOrder prepends is the one getOrderById returns for its
      id. */
  lemma FindAfterAdd(o: Order, orders: seq<Order>)
    ensures FindOrder([o] + orders, o.id) == Some(o)
  {
  }

  /** A new order is listed first among the "Pending" orders, ahead of the
      earlier ones in their order. */
  lemma PendingAfterAdd(data: OrderData, now: nat, placedAt: string, orders: seq<Order>)
    ensures OrdersWithStatus([Stamp(data, now, placedAt)] + orders, InitialStatus)
      == [Stamp(data, now, placedAt)] + OrdersWithStatus(orders, InitialStatus)
  {
    var s := [Stamp(data, now, placedAt)] + orders;
    assert s[1..] == orders;
  }

  /** An order stamped at `now` goes ahead of orders stamped before it: its
      id is none of theirs, and all of them are stamped before `now + 1`. */
  lemma StampedBeforeCons(o: Order, orders: seq<Order>, now: nat)
    requires StampedBefore(orders, now) && ParseInt(o.id) == Some(now)
    ensures forall j :: 0 <= j < |orders| ==> orders[j].id != o.id
    ensures StampedBefore([o] + orders, now + 1)
  {
    var s := [o] + orders;
    forall i | 0 <= i < |s| ensures ParseInt(s[i].id).Some? && 0 <= ParseInt(s[i].id).value < now + 1 {
      if i > 0 {
        assert s[i] == orders[i - 1];
      }
    }
  }

  lemma UniqueCons(o: Order, orders: seq<Order>)
    requires UniqueIds(orders) && forall j :: 0 <= j < |orders| ==> orders[j].id != o.id
    ensures UniqueIds([o] + orders)
  {
    var s := [o] + orders;
    forall i, j | 0 <= i < j < |s| ensures s[i].id != s[j].id {
      assert s[j] == orders[j - 1];
      if i > 0 {
        assert s[i] == orders[i - 1];
      }
    }
  }

  /** With a clock that moves forward, addOrder keeps the ids unique. */
  lemma AddKeepsIdsUnique(data: OrderData, now: nat, placedAt: string, orders: seq<Order>)
    requires UniqueIds(orders) && StampedBefore(orders, now)
    ensures UniqueIds([Stamp(data, now, placedAt)] + orders)
    ensures StampedBefore([Stamp(data, now, placedAt)] + orders, now + 1)
  {
    var o := Stamp(data, now, placedAt);
    StampedBeforeCons(o, orders, now);
    UniqueCons(o, orders);
  }

  // ------------------------------------------------------------ the container

  class OrderStore {
    var orders: seq<Order>
    var currentOrder: Option<Order>
    /** The 'restaurant-orders' slot; the current order is not persisted. */
    var saved: Slot<seq<Order>>

    ghost predicate Valid()
      reads this
    {
      saved == Stored(orders)
    }

    /** Mount: restore the list (a corrupt slot leaves it empty), then the
        save effect writes it back. */
    constructor Load(stored: Slot<seq<Order>>)
      ensures Valid()
      ensures orders == Restore(stored) && currentOrder == None
    {
      orders := Restore(stored);
      currentOrder := None;
      saved := Stored(Restore(stored));
    }

    method AddOrder(data: OrderData, now: nat, placedAt: string) returns (placed: Order)
      requires Valid()
      modifies this
      ensures Valid()
      ensures placed == Stamp(data, now, placedAt)
      ensures orders == [placed] + old(orders) && currentOrder == Some(placed)
    {
      placed := Stamp(data, now, placedAt);
      orders := [placed] + orders;
      currentOrder := Some(placed);
      saved := Stored(orders);
    }

    method UpdateOrderStatus(id: string, status: string)
      requires Valid()
      modifies this
      ensures Valid()
      ensures orders == SetStatus(old(orders), id, status)
      ensures old(currentOrder).Some? && old(currentOrder).value.id == id ==>
        currentOrder == Some(old(currentOrder).value.(status := status))
      ensures !(old(currentOrder).Some? && old(currentOrder).value.id == id) ==> currentOrder == old(currentOrder)
    {
      orders := SetStatus(orders, id, status);
      saved := Stored(orders);
      if currentOrder.Some? && currentOrder.value.id == id {
        currentOrder := Some(currentOrder.value.(status := status));
      }
    }

    method SetCurrentOrder(o: Option<Order>)
      requires Valid()
      modifies this
      ensures Valid()
      ensures currentOrder == o && orders == old(orders)
    {
      currentOrder := o;
    }

    method ClearOrders()
      requires Valid()
      modifies this
      ensures Valid()
      ensures orders == [] && currentOrder == None
    {
      orders := [];
      currentOrder := None;
      saved := Stored(orders);
    }
  }
}
