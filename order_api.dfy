/** The hand-off of a placed order to the admin service
    (frontend/src/api/orderApi.js, submitOrderToAdmin and its two price
    helpers): the order is reshaped into the admin format, with a 5% tax and
    a fixed service fee of 12 on top of the line subtotal. */
module OrderApi {
  import opened Common
  import opened Text
  import opened Orders
  import opened Auth

  /** One admin order line; `total` is price × quantity. */
  datatype AdminItem = AdminItem(itemId: int, name: string, quantity: int, price: int, total: int)

  /** The body posted to the admin service. */
  datatype AdminOrder = AdminOrder(
    tableNumber: string, customerName: string, orderType: string, items: seq<AdminItem>, tax: real, totalAmount: real)

  /** The admin service's reply body `{ success, order }`. */
  datatype AdminResponse = AdminResponse(success: bool, order: AdminOrder)

  const FallbackCustomer: string := "Customer App"
  const DefaultTable: string := "1"
  const TablePrefix: string := "Table "
  const OrderType: string := "Customer"
  const TaxRate: real := 0.05
  const ServiceFee: real := 12.0

  /** The order's customer name, else the name of the customer in the
      'user' slot, else "Customer App"; a slot that does not parse also
      gives "Customer App". */
  function CustomerNameFor(orderName: string, savedUser: Slot<Customer>): (n: string)
    ensures n != ""
    ensures orderName != "" ==> n == orderName
    ensures orderName == "" && savedUser.Stored? && savedUser.value.name != "" ==> n == savedUser.value.name
    ensures orderName == "" && !(savedUser.Stored? && savedUser.value.name != "") ==> n == FallbackCustomer
  {
    if orderName != "" then orderName
    else if savedUser.Stored? then OrElse(savedUser.value.name, FallbackCustomer)
    else FallbackCustomer
  }

  /** `orderData.tableNumber?.replace('Table ', '') || '1'`. */
  function TableNumberFor(tableNumber: Option<string>): (t: string)
    ensures t != ""
    ensures tableNumber.None? ==> t == DefaultTable
  {
    if tableNumber.None? then DefaultTable else OrElse(ReplaceFirst(tableNumber.value, TablePrefix, ""), DefaultTable)
  }

  /** "Table 7" is sent as "7"; a bare "Table " as the default "1". */
  lemma TableNumberStripsPrefix(rest: string)
    ensures rest != "" ==> TableNumberFor(Some(TablePrefix + rest)) == rest
    ensures TableNumberFor(Some(TablePrefix)) == DefaultTable
  {
    ReplaceLeading(TablePrefix, rest, "");
    ReplaceLeading(TablePrefix, "", "");
    assert TablePrefix + "" == TablePrefix;
  }

  /** A table number without the prefix is sent unchanged. */
  lemma TableNumberWithoutPrefix(t: string)
    requires t != "" && !Contains(t, TablePrefix)
    ensures TableNumberFor(Some(t)) == t
  {
    ReplaceAbsent(t, TablePrefix, "");
  }

  function AdminItemFor(l: OrderLine): AdminItem {
    AdminItem(l.id, l.name, l.quantity, l.price, l.price * l.quantity)
  }

  function AdminItems(items: seq<OrderLine>): (r: seq<AdminItem>)
    ensures |r| == |items|
    ensures forall i :: 0 <= i < |items| ==> r[i] == AdminItemFor(items[i])
  {
    seq(|items|, i requires 0 <= i < |items| => AdminItemFor(items[i]))
  }

  /** The `reduce` of the two helpers: Σ price × quantity. */
  function ItemsSubtotal(items: seq<OrderLine>): int {
    if items == [] then 0 else items[0].price * items[0].quantity + ItemsSubtotal(items[1..])
  }

  /** Σ of the admin lines' totals. */
  function AdminLinesTotal(items: seq<AdminItem>): int {
    if items == [] then 0 else items[0].total + AdminLinesTotal(items[1..])
  }

  /** calculateTax: a twentieth of the subtotal, never negative on a
      non-negative subtotal. */
  function Tax(items: seq<OrderLine>): (tax: real)
    ensures tax == ItemsSubtotal(items) as real / 20.0
    ensures ItemsSubtotal(items) >= 0 ==> tax >= 0.0
  {
    ItemsSubtotal(items) as real * TaxRate
  }

  /** calculateTotal: the subtotal, its tax and the service fee. */
  function TotalAmount(items: seq<OrderLine>): (amount: real)
    ensures amount == ItemsSubtotal(items) as real + Tax(items) + ServiceFee
    ensures ItemsSubtotal(items) >= 0 ==> amount >= ServiceFee
  {
    var subtotal := ItemsSubtotal(items) as real;
    subtotal + subtotal * TaxRate + ServiceFee
  }

  /** The admin body for a placed order: one admin line per order line,
      carrying its id, quantity and line total, a table number and a
      customer name that are never empty, and "1" when the order has no
      table number. */
  function AdminOrderFor(order: Order, savedUser: Slot<Customer>): (a: AdminOrder)
    ensures a.tableNumber != "" && a.customerName != "" && a.orderType == OrderType
    ensures order.tableNumber.None? ==> a.tableNumber == DefaultTable
    ensures |a.items| == |order.items|
    ensures forall i :: 0 <= i < |order.items| ==>
      a.items[i].itemId == order.items[i].id && a.items[i].quantity == order.items[i].quantity
      && a.items[i].total == order.items[i].price * order.items[i].quantity
  {
    AdminOrder(TableNumberFor(order.tableNumber), CustomerNameFor(order.customerName, savedUser), OrderType,
               AdminItems(order.items), Tax(order.items), TotalAmount(order.items))
  }

  lemma {:induction false} AdminLinesSum(items: seq<OrderLine>)
    ensures AdminLinesTotal(AdminItems(items)) == ItemsSubtotal(items)
  {
    if items != [] {
      AdminLinesSum(items[1..]);
      assert AdminItems(items)[1..] == AdminItems(items[1..]);
    }
  }

  /** The admin body's lines add up to the subtotal, the tax is a
      twentieth of it and the amount is the subtotal, the tax and the fee of
      12; the lines are the order's lines, one for one. */
  lemma AdminTotals(order: Order, savedUser: Slot<Customer>)
    ensures var a := AdminOrderFor(order, savedUser);
      AdminLinesTotal(a.items) == ItemsSubtotal(order.items)
      && a.tax == ItemsSubtotal(order.items) as real / 20.0
      && a.totalAmount == ItemsSubtotal(order.items) as real * 1.05 + 12.0
      && a.totalAmount == AdminLinesTotal(a.items) as real + a.tax + ServiceFee
      && |a.items| == |order.items|
      && a.orderType == "Customer"
  {
    AdminLinesSum(order.items);
  }

  /** submitOrderToAdmin resolves with the created order only when the
      call succeeds and the reply says `success`; otherwise it throws
      (None). */
  function SubmitResult(response: Reply<AdminResponse>): (r: Option<AdminOrder>)
    ensures r.Some? <==> response.Ok? && response.body.success
    ensures r.Some? ==> r.value == response.body.order
  {
    if response.Ok? && response.body.success then Some(response.body.order) else None
  }
}
