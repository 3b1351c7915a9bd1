/** The cart page's two handlers (frontend/src/pages/CartPage.jsx): a
    quantity change, and the order confirmation that records the order in
    the order container, forwards it to the admin service and empties the
    cart. */
module Checkout {
  import opened Common
  import opened Text
  import opened Cart
  import opened Orders
  import opened OrderApi
  import opened Auth

  const PaymentMethods: seq<string> := ["Cash", "Card", "UPI", "Online"]
  const Waiter: string := "Sophia"
  const DefaultCustomer: string := "Guest"
  const NoPaymentAlert: string := "Please select a payment method"
  const SyncWarning: string := "Order placed! But there was an issue syncing with admin system."
  const SyncWarningDelayMs: int := 1000

  /** `Math.floor(Math.random() * 90000 + 10000)` for a draw in [0, 1). */
  function OrderNumber(draw: real): (n: int)
    requires 0.0 <= draw < 1.0
    ensures 10000 <= n <= 99999
  {
    (draw * 90000.0 + 10000.0).Floor
  }

  /** `"#" + n`. */
  function DisplayId(n: int): string {
    "#" + IntegerString(n)
  }

  /** The number reads back from its display id. */
  lemma DisplayIdRoundTrip(n: int)
    ensures DisplayId(n)[0] == '#' && ParseInt(DisplayId(n)[1..]) == Some(n)
  {
    assert DisplayId(n)[1..] == IntegerString(n);
    ParseInteger(n);
  }

  /** `items.map(item => ({ id, name, quantity, price }))`. */
  function OrderLines(lines: seq<CartLine>): (r: seq<OrderLine>)
    ensures |r| == |lines|
    ensures forall i :: 0 <= i < |lines| ==>
      r[i] == OrderLine(lines[i].id, lines[i].name, lines[i].quantity, lines[i].price)
  {
    seq(|lines|, i requires 0 <= i < |lines| => OrderLine(lines[i].id, lines[i].name, lines[i].quantity, lines[i].price))
  }

  lemma {:induction false} OrderLinesSubtotal(lines: seq<CartLine>)
    ensures ItemsSubtotal(OrderLines(lines)) == Cart.Subtotal(lines)
  {
    if lines != [] {
      OrderLinesSubtotal(lines[1..]);
      assert OrderLines(lines)[1..] == OrderLines(lines[1..]);
    }
  }

  /** The order object as written: it carries no table number. */
  function OrderSnapshotAsWritten(cart: CartState, customerName: string, n: int, timestamp: string): OrderData {
    OrderData(DisplayId(n), DisplayId(n), OrderLines(cart.items), cart.paymentMethod, Waiter, cart.totalPrice,
              OrElse(customerName, DefaultCustomer), timestamp, None)
  }

  /** The order object with the cart's table number, which the admin
      hand-off reads. */
  function OrderSnapshot(cart: CartState, customerName: string, n: int, timestamp: string): (d: OrderData)
    ensures d.tableNumber == Some(cart.tableNumber)
    ensures d.(tableNumber := None) == OrderSnapshotAsWritten(cart, customerName, n, timestamp)
  {
    OrderSnapshotAsWritten(cart, customerName, n, timestamp).(tableNumber := Some(cart.tableNumber))
  }

  /** As written, the admin service receives table "1" whatever table the
      cart was for. */
  lemma AdminTableAsWritten(cart: CartState, customerName: string, n: int, timestamp: string,
                            now: nat, placedAt: string, savedUser: Slot<Customer>)
    ensures AdminOrderFor(Stamp(OrderSnapshotAsWritten(cart, customerName, n, timestamp), now, placedAt), savedUser).tableNumber
      == DefaultTable
  {
  }

  /** With the table number passed on, a cart for "Table 7" reaches the
      admin service as table "7". */
  lemma AdminTableFromCart(cart: CartState, customerName: string, n: int, timestamp: string,
                           now: nat, placedAt: string, savedUser: Slot<Customer>, rest: string)
    requires cart.tableNumber == TablePrefix + rest && rest != ""
    ensures AdminOrderFor(Stamp(OrderSnapshot(cart, customerName, n, timestamp), now, placedAt), savedUser).tableNumber == rest
  {
    TableNumberStripsPrefix(rest);
  }

  /** What the admin service is sent for a consistent cart: the cart's
      lines, the customer name the page shows (never the 'user' slot's, as
      the page always supplies one) and an amount of 1.05 × the cart total
      plus 12. */
  lemma AdminOrderForCart(cart: CartState, customerName: string, n: int, timestamp: string,
                          now: nat, placedAt: string, savedUser: Slot<Customer>)
    requires Consistent(cart)
    ensures var a := AdminOrderFor(Stamp(OrderSnapshotAsWritten(cart, customerName, n, timestamp), now, placedAt), savedUser);
      a.customerName == OrElse(customerName, DefaultCustomer)
      && a.totalAmount == cart.totalPrice as real * 1.05 + 12.0
      && |a.items| == |cart.items|
  {
    var o := Stamp(OrderSnapshotAsWritten(cart, customerName, n, timestamp), now, placedAt);
    OrderLinesSubtotal(cart.items);
    AdminTotals(o, savedUser);
  }

  /** A failed hand-off records the order a second time: same display
      number, a different id when the clock has moved on. */
  lemma RetryRecordsTwice(data: OrderData, n1: nat, p1: string, n2: nat, p2: string)
    requires n1 != n2
    ensures Stamp(data, n1, p1).orderId == Stamp(data, n2, p2).orderId
    ensures Stamp(data, n1, p1).id != Stamp(data, n2, p2).id
  {
    StampIdsDiffer(data, n1, p1, data, n2, p2);
  }

  /** The order the confirmation records for a cart, stamped with one clock
      reading: the object as written, so it has no table number. */
  function PlacedOrder(cart: CartState, customerName: string, draw: real, timestamp: string, now: nat, placedAt: string): (o: Order)
    requires 0.0 <= draw < 1.0
    ensures DataOf(o) == OrderSnapshotAsWritten(cart, customerName, OrderNumber(draw), timestamp).(id := DecimalString(now))
    ensures o.tableNumber == None && o.total == cart.totalPrice && |o.items| == |cart.items|
  {
    Stamp(OrderSnapshotAsWritten(cart, customerName, OrderNumber(draw), timestamp), now, placedAt)
  }

  /** A quantity change: 0 removes the line, anything else sets it. */
  method HandleQuantityChange(cart: CartStore, itemId: int, newQty: int)
    requires cart.Valid()
    modifies cart
    ensures cart.Valid()
    ensures cart.State() == AfterUpdate(old(cart.State()), itemId, newQty)
  {
    if newQty == 0 {
      cart.RemoveFromCart(itemId);
    } else {
      cart.UpdateQuantity(itemId, newQty);
    }
  }

  /** The recording part of the confirmation: the order is added once,
      and once more when the hand-off failed (`synced` false). */
  method RecordOrder(orders: OrderStore, data: OrderData, now1: nat, placed1: string, now2: nat, placed2: string,
                     synced: bool)
    returns (first: Order)
    requires orders.Valid()
    modifies orders
    ensures orders.Valid() && first == Stamp(data, now1, placed1)
    ensures synced ==> orders.orders == [first] + old(orders.orders) && orders.currentOrder == Some(first)
    ensures !synced ==>
      orders.orders == [Stamp(data, now2, placed2), first] + old(orders.orders)
      && orders.currentOrder == Some(Stamp(data, now2, placed2))
  {
    first := orders.AddOrder(data, now1, placed1);
    if !synced {
      var again := orders.AddOrder(data, now2, placed2);
    }
  }

  /** The confirmation once a payment method is set: the order is recorded
      and posted, and the cart emptied; a failed hand-off records it again
      and warns. */
  method ConfirmPaid(cart: CartStore, orders: OrderStore, customerName: string, draw: real, timestamp: string,
                     now1: nat, placed1: string, now2: nat, placed2: string,
                     savedUser: Slot<Customer>, response: Reply<AdminResponse>)
    returns (posted: AdminOrder, alertText: string)
    requires cart.Valid() && orders.Valid() && 0.0 <= draw < 1.0 && cart.paymentMethod != ""
    modifies cart, orders
    ensures cart.Valid() && orders.Valid()
    ensures var first := PlacedOrder(old(cart.State()), customerName, draw, timestamp, now1, placed1);
      posted == AdminOrderFor(first, savedUser) && posted.tableNumber == DefaultTable
      && cart.State() == AfterClear(old(cart.State()))
      && (SubmitResult(response).Some? ==>
            orders.orders == [first] + old(orders.orders) && orders.currentOrder == Some(first) && alertText == "")
    ensures SubmitResult(response).None? ==>
      var first := PlacedOrder(old(cart.State()), customerName, draw, timestamp, now1, placed1);
      var second := PlacedOrder(old(cart.State()), customerName, draw, timestamp, now2, placed2);
      orders.orders == [second, first] + old(orders.orders) && orders.currentOrder == Some(second)
      && alertText == SyncWarning
  {
    var data := OrderSnapshotAsWritten(cart.State(), customerName, OrderNumber(draw), timestamp);
    var synced := SubmitResult(response).Some?;
    var saved := RecordOrder(orders, data, now1, placed1, now2, placed2, synced);
    posted := AdminOrderFor(saved, savedUser);
    alertText := if synced then "" else SyncWarning;
    cart.ClearCart();
  }

  /** The confirmation. `draw` is Math.random(); `now1`/`placed1` and
      `now2`/`placed2` are the clock readings of the first and, after a
      failed hand-off, the second addOrder; `response` is the admin
      service's answer to the body returned as `posted`. */
  method HandleConfirmOrder(cart: CartStore, orders: OrderStore, customerName: string, draw: real, timestamp: string,
                            now1: nat, placed1: string, now2: nat, placed2: string,
                            savedUser: Slot<Customer>, response: Reply<AdminResponse>)
    returns (posted: Option<AdminOrder>, alertText: string, toOrders: bool)
    requires cart.Valid() && orders.Valid() && 0.0 <= draw < 1.0
    modifies cart, orders
    ensures cart.Valid() && orders.Valid()
    ensures old(cart.paymentMethod) == "" ==>
      posted == None && alertText == NoPaymentAlert && !toOrders && unchanged(cart) && unchanged(orders)
    ensures old(cart.paymentMethod) != "" ==>
      var first := PlacedOrder(old(cart.State()), customerName, draw, timestamp, now1, placed1);
      var second := PlacedOrder(old(cart.State()), customerName, draw, timestamp, now2, placed2);
      posted == Some(AdminOrderFor(first, savedUser)) && posted.value.tableNumber == DefaultTable
      && toOrders && cart.State() == AfterClear(old(cart.State()))
      && (SubmitResult(response).Some? ==>
            orders.orders == [first] + old(orders.orders) && orders.currentOrder == Some(first) && alertText == "")
      && (SubmitResult(response).None? ==>
            orders.orders == [second, first] + old(orders.orders) && orders.currentOrder == Some(second)
            && alertText == SyncWarning)
  {
    if cart.paymentMethod == "" {
      posted, alertText, toOrders := None, NoPaymentAlert, false;
      return;
    }
    var sent;
    sent, alertText := ConfirmPaid(cart, orders, customerName, draw, timestamp, now1, placed1, now2, placed2, savedUser, response);
    posted, toOrders := Some(sent), true;
  }
}
