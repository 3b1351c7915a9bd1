/** The staff order page (frontend/src/pages/AddOrder.jsx): a local cart
    kept apart from the cart container, a search over the fetched menu, an
    optional table choice and the post of the order to the order service.
    The page's cart lines `{ item_id, name, price, quantity }` are the
    cart container's lines with `item_id` as `id`, and its add and remove
    are the container's line updates without the running total (the page
    sums the lines where it needs a total). */
module AddOrder {
  import opened Common
  import opened Seqs
  import opened Text
  import opened Catalog
  import opened Cart
  import opened Auth

  const EmptyCartAlert: string := "Please add items to your order."
  const PlaceFailedAlert: string := "Failed to place order. Try again."
  const DefaultCustomer: string := "Guest"
  const OrderType: string := "Customer"
  const PlacedStatus: string := "Placed"
  /** The table select offers "" (no table) and "1" … "10". */
  const TableCount: int := 10

  /** The body posted to the order service. */
  datatype OrderRequest = OrderRequest(
    customerName: string, tableNumber: Option<int>, items: seq<CartLine>, totalAmount: int,
    orderType: string, status: string)

  /** The created order in the reply (`response.data.order`), which the
      confirmation modal shows. */
  datatype CreatedOrder = CreatedOrder(id: int, customerName: string, tableNumber: Option<int>, totalAmount: int, status: string)

  /** One name matches the search term: `name.toLowerCase().includes(term.toLowerCase())`. */
  predicate NameMatches(item: MenuItem, term: string) {
    Contains(Lower(item.name), Lower(term))
  }

  /** `filteredItems`. */
  function FilteredItems(menu: seq<MenuItem>, term: string): (r: seq<MenuItem>)
    ensures forall x :: x in r <==> x in menu && NameMatches(x, term)
    ensures IsSubsequence(r, menu)
  {
    Filter(menu, (item: MenuItem) => NameMatches(item, term))
  }

  /** An empty search term lists the whole menu, in order. */
  lemma EmptyTermListsAll(menu: seq<MenuItem>)
    ensures FilteredItems(menu, "") == menu
  {
    forall i | 0 <= i < |menu| ensures NameMatches(menu[i], "") {
      ContainsPrefix(Lower(menu[i].name), Lower(""));
    }
    FilterKeepsAll(menu, (item: MenuItem) => NameMatches(item, ""));
  }

  /** The search ignores the case of the term (for ASCII letters). */
  lemma SearchIgnoresCase(menu: seq<MenuItem>, term: string)
    ensures FilteredItems(menu, Lower(term)) == FilteredItems(menu, term)
  {
    LowerIdempotent(term);
    FilterSame(menu, (item: MenuItem) => NameMatches(item, Lower(term)), (item: MenuItem) => NameMatches(item, term));
  }

  /** `tableNumber ? parseInt(tableNumber, 10) : null`; a value that does
      not parse is NaN, which the request serialises as null too. */
  function TableField(tableNumber: string): (t: Option<int>)
    ensures tableNumber == "" ==> t == None
    ensures tableNumber != "" ==> t == ParseInt(tableNumber)
  {
    if tableNumber == "" then None else ParseInt(tableNumber)
  }

  /** Choosing "Table k" in the select sends table k; the blank choice sends
      no table. */
  lemma TableChoice(k: int)
    requires 1 <= k <= TableCount
    ensures TableField(IntegerString(k)) == Some(k)
    ensures TableField("") == None
  {
    ParseInteger(k);
  }

  /** `lines.reduce((sum, i) => sum + i.price * i.quantity, acc)`, left to
      right from the accumulator. */
  function ReduceSum(acc: int, lines: seq<CartLine>): int
    decreases |lines|
  {
    if lines == [] then acc else ReduceSum(acc + lines[0].price * lines[0].quantity, lines[1..])
  }

  /** The left-to-right `reduce` from `acc` is `acc` plus the line sum. */
  lemma {:induction false} ReduceSumIsSubtotal(acc: int, lines: seq<CartLine>)
    ensures ReduceSum(acc, lines) == acc + Subtotal(lines)
    decreases |lines|
  {
    if lines != [] {
      ReduceSumIsSubtotal(acc + lines[0].price * lines[0].quantity, lines[1..]);
    }
  }

  /** The body placeOrder posts for a non-empty cart. */
  function RequestFor(user: Option<Customer>, tableNumber: string, cart: seq<CartLine>): (r: OrderRequest)
    ensures r.totalAmount == Subtotal(r.items) && r.items == cart
    ensures r.customerName != ""
    ensures user.Some? && user.value.name != "" ==> r.customerName == user.value.name
    ensures !(user.Some? && user.value.name != "") ==> r.customerName == DefaultCustomer
    ensures r.tableNumber == TableField(tableNumber)
    ensures r.orderType == OrderType && r.status == PlacedStatus
  {
    var name := if user.Some? then OrElse(user.value.name, DefaultCustomer) else DefaultCustomer;
    OrderRequest(name, TableField(tableNumber), cart, Subtotal(cart), OrderType, PlacedStatus)
  }

  /** The item's "Add" on the page: the line total rises by the item's
      price, the item's count by one, and the ids stay unique. */
  lemma AddItemRaisesTotal(cart: seq<CartLine>, item: MenuItem)
    requires UniqueIds(cart) && PriceAgrees(cart, item)
    ensures Subtotal(WithLineAdded(cart, item)) == Subtotal(cart) + item.price
    ensures ItemQuantity(WithLineAdded(cart, item), item.id) == ItemQuantity(cart, item.id) + 1
    ensures UniqueIds(WithLineAdded(cart, item))
  {
    AddSubtotal(cart, item);
    AddItemQuantity(cart, item);
    AddKeepsUnique(cart, item);
  }

  /** The remove button: the item's line goes, the others stay, and the line
      total drops by the removed line's value; an item not in the cart
      changes nothing. */
  lemma RemoveItemLowersTotal(cart: seq<CartLine>, itemId: int)
    requires UniqueIds(cart)
    ensures !HasId(WithoutLine(cart, itemId), itemId) && UniqueIds(WithoutLine(cart, itemId))
    ensures forall l :: l in WithoutLine(cart, itemId) <==> l in cart && l.id != itemId
    ensures forall k :: 0 <= k < |cart| && cart[k].id == itemId ==>
      Subtotal(WithoutLine(cart, itemId)) == Subtotal(cart) - LineValue(cart[k])
    ensures !HasId(cart, itemId) ==> WithoutLine(cart, itemId) == cart
  {
    WithoutKeepsUnique(cart, itemId);
    forall k | 0 <= k < |cart| && cart[k].id == itemId
      ensures Subtotal(WithoutLine(cart, itemId)) == Subtotal(cart) - LineValue(cart[k])
    {
      RemoveSubtotal(cart, itemId, k);
    }
    if !HasId(cart, itemId) {
      RemoveAbsent(cart, itemId);
    }
  }

  class AddOrderPage {
    var menuItems: seq<MenuItem>
    var searchTerm: string
    var cart: seq<CartLine>
    var tableNumber: string
    var newOrder: Option<CreatedOrder>
    var showModal: bool

    /** Add and remove keep one line per menu item. */
    ghost predicate Valid()
      reads this
    {
      UniqueIds(cart)
    }

    constructor ()
      ensures Valid()
      ensures menuItems == [] && searchTerm == "" && cart == [] && tableNumber == ""
      ensures newOrder == None && !showModal
    {
      menuItems, searchTerm, cart, tableNumber := [], "", [], "";
      newOrder, showModal := None, false;
    }

    /** The mount effect: the fetched menu replaces the empty list; a failed
        fetch leaves it empty. */
    method MenuFetched(reply: Reply<seq<MenuItem>>)
      requires Valid()
      modifies this
      ensures Valid()
      ensures menuItems == (if reply.Ok? then reply.body else old(menuItems))
      ensures cart == old(cart) && searchTerm == old(searchTerm) && tableNumber == old(tableNumber)
      ensures newOrder == old(newOrder) && showModal == old(showModal)
    {
      if reply.Ok? {
        menuItems := reply.body;
      }
    }

    /** What the page lists under the search box. */
    function Shown(): seq<MenuItem>
      reads this
    {
      FilteredItems(menuItems, searchTerm)
    }

    /** `cartTotal`, the `reduce` over the page's cart: the sum of the
        line values. */
    function CartTotal(): (total: int)
      reads this
      ensures total == Subtotal(cart)
    {
      ReduceSumIsSubtotal(0, cart);
      ReduceSum(0, cart)
    }

    method SetSearchTerm(term: string)
      requires Valid()
      modifies this
      ensures Valid()
      ensures searchTerm == term && menuItems == old(menuItems) && cart == old(cart) && tableNumber == old(tableNumber)
      ensures newOrder == old(newOrder) && showModal == old(showModal)
    {
      searchTerm := term;
    }

    method SetTableNumber(t: string)
      requires Valid()
      modifies this
      ensures Valid()
      ensures tableNumber == t && menuItems == old(menuItems) && cart == old(cart) && searchTerm == old(searchTerm)
      ensures newOrder == old(newOrder) && showModal == old(showModal)
    {
      tableNumber := t;
    }

    method HandleAddItem(item: MenuItem)
      requires Valid()
      modifies this
      ensures Valid()
      ensures cart == WithLineAdded(old(cart), item)
      ensures menuItems == old(menuItems) && searchTerm == old(searchTerm) && tableNumber == old(tableNumber)
      ensures newOrder == old(newOrder) && showModal == old(showModal)
    {
      AddKeepsUnique(cart, item);
      cart := WithLineAdded(cart, item);
    }

    method HandleRemoveItem(itemId: int)
      requires Valid()
      modifies this
      ensures Valid()
      ensures cart == WithoutLine(old(cart), itemId)
      ensures menuItems == old(menuItems) && searchTerm == old(searchTerm) && tableNumber == old(tableNumber)
      ensures newOrder == old(newOrder) && showModal == old(showModal)
    {
      WithoutKeepsUnique(cart, itemId);
      cart := WithoutLine(cart, itemId);
    }

    /** placeOrder: an empty cart is refused with an alert and nothing is
        posted; otherwise the request is posted (`posted`) and `reply` is
        the service's answer. Success opens the modal on the created order
        and empties the cart and the table choice; failure alerts and keeps
        everything. */
    method PlaceOrder(user: Option<Customer>, reply: Reply<CreatedOrder>)
      returns (posted: Option<OrderRequest>, alertText: string)
      requires Valid()
      modifies this
      ensures Valid()
      ensures menuItems == old(menuItems) && searchTerm == old(searchTerm)
      ensures old(cart) == [] ==>
        posted == None && alertText == EmptyCartAlert && cart == [] && tableNumber == old(tableNumber)
        && newOrder == old(newOrder) && showModal == old(showModal)
      ensures old(cart) != [] ==> posted == Some(RequestFor(user, old(tableNumber), old(cart)))
      ensures old(cart) != [] && reply.Ok? ==>
        alertText == "" && newOrder == Some(reply.body) && showModal && cart == [] && tableNumber == ""
      ensures old(cart) != [] && reply.Failed? ==>
        alertText == PlaceFailedAlert && cart == old(cart) && tableNumber == old(tableNumber)
        && newOrder == old(newOrder) && showModal == old(showModal)
    {
      posted := None;
      alertText := "";
      if |cart| == 0 {
        alertText := EmptyCartAlert;
        return;
      }
      posted := Some(RequestFor(user, tableNumber, cart));
      if reply.Ok? {
        newOrder := Some(reply.body);
        showModal := true;
        cart := [];
        tableNumber := "";
      } else {
        alertText := PlaceFailedAlert;
      }
    }

    /** The modal's close button. */
    method CloseModal()
      requires Valid()
      modifies this
      ensures Valid()
      ensures !showModal && newOrder == old(newOrder)
      ensures menuItems == old(menuItems) && searchTerm == old(searchTerm) && cart == old(cart) && tableNumber == old(tableNumber)
    {
      showModal := false;
    }
  }
}
