/** The cart container (frontend/src/context/CartContext.js): the cart lines,
    a running total kept up to date incrementally, the table number and the
    payment method, written through to the 'restaurant-cart' slot after every
    change and restored from it at start-up. */
module Cart {
  import opened Common
  import opened Seqs
  import opened Catalog

  /** One cart line: a menu item's fields plus how many of it. */
  datatype CartLine = CartLine(id: int, name: string, price: int, quantity: int)

  /** The parsed 'restaurant-cart' slot. `cartItems` is None when the stored
      object carries no item list; a missing table number or payment method
      reads as "". */
  datatype CartSnapshot = CartSnapshot(cartItems: Option<seq<CartLine>>, tableNumber: string, paymentMethod: string)

  /** The four state cells of the container. */
  datatype CartState = CartState(items: seq<CartLine>, totalPrice: int, tableNumber: string, paymentMethod: string)

  const DefaultPaymentMethod: string := "Cash"

  // ------------------------------------------------------------ derived reads

  function LineValue(l: CartLine): int {
    l.price * l.quantity
  }

  /** Σ price × quantity over the lines (the `reduce` of the load path). */
  function Subtotal(lines: seq<CartLine>): int {
    if lines == [] then 0 else LineValue(lines[0]) + Subtotal(lines[1..])
  }

  /** `getTotalItems`: Σ quantity. Each line counts at least once when
      every quantity is positive. */
  function TotalItems(lines: seq<CartLine>): (n: int)
    ensures (forall i :: 0 <= i < |lines| ==> lines[i].quantity >= 1) ==> n >= |lines|
  {
    if lines == [] then 0
    else
      assert forall i :: 0 <= i < |lines| - 1 ==> lines[1..][i] == lines[i + 1];
      lines[0].quantity + TotalItems(lines[1..])
  }

  predicate HasId(lines: seq<CartLine>, id: int) {
    exists i :: 0 <= i < |lines| && lines[i].id == id
  }

  predicate UniqueIds(lines: seq<CartLine>) {
    forall i, j :: 0 <= i < j < |lines| ==> lines[i].id != lines[j].id
  }

  /** `prevItems.find(item => item.id === id)`. */
  function FindLine(lines: seq<CartLine>, id: int): Option<CartLine> {
    Find(lines, (l: CartLine) => l.id == id)
  }

  /** `getItemQuantity`: the quantity of the first line with that id, else 0. */
  function ItemQuantity(lines: seq<CartLine>, id: int): (q: int)
    ensures !HasId(lines, id) ==> q == 0
    ensures HasId(lines, id) ==>
      exists i :: 0 <= i < |lines| && lines[i].id == id && q == lines[i].quantity
        && forall j :: 0 <= j < i ==> lines[j].id != id
  {
    match FindLine(lines, id)
    case None => 0
    case Some(l) => l.quantity
  }

  // ------------------------------------------------------------ line updates

  /** The `map` of addToCart: every line with that id gains one unit. */
  function IncrementLine(lines: seq<CartLine>, id: int): seq<CartLine> {
    if lines == [] then []
    else [if lines[0].id == id then lines[0].(quantity := lines[0].quantity + 1) else lines[0]]
         + IncrementLine(lines[1..], id)
  }

  /** `{...item, quantity: 1}`: the item's id, name and price with quantity 1. */
  function NewLine(item: MenuItem): CartLine {
    CartLine(item.id, item.name, item.price, 1)
  }

  /** The item list after addToCart. */
  function WithLineAdded(lines: seq<CartLine>, item: MenuItem): seq<CartLine> {
    if FindLine(lines, item.id).Some? then IncrementLine(lines, item.id) else lines + [NewLine(item)]
  }

  /** The `filter` of removeFromCart. */
  function WithoutLine(lines: seq<CartLine>, id: int): seq<CartLine> {
    Filter(lines, (l: CartLine) => l.id != id)
  }

  /** The `map` of updateQuantity. */
  function SetQuantityOf(lines: seq<CartLine>, id: int, q: int): seq<CartLine> {
    if lines == [] then []
    else [if lines[0].id == id then lines[0].(quantity := q) else lines[0]] + SetQuantityOf(lines[1..], id, q)
  }

  /** What updateQuantity adds to the total: one `(new - old) × price` per
      matching line, as the `map` calls setTotalPrice once per match. */
  function QuantityDelta(lines: seq<CartLine>, id: int, q: int): int {
    if lines == [] then 0
    else (if lines[0].id == id then (q - lines[0].quantity) * lines[0].price else 0) + QuantityDelta(lines[1..], id, q)
  }

  /** Every line already in the cart under the item's id has the item's price. */
  predicate PriceAgrees(lines: seq<CartLine>, item: MenuItem) {
    forall i :: 0 <= i < |lines| && lines[i].id == item.id ==> lines[i].price == item.price
  }

  // ------------------------------------------------------------ state transitions

  /** addToCart: the item is in the cart afterwards, with one more line
      only when it was not there before; the table and payment are kept. */
  function AfterAdd(st: CartState, item: MenuItem): (r: CartState)
    ensures r.tableNumber == st.tableNumber && r.paymentMethod == st.paymentMethod
    ensures HasId(r.items, item.id)
    ensures |r.items| == |st.items| + (if HasId(st.items, item.id) then 0 else 1)
  {
    IncrementShape(st.items, item.id);
    var r := st.(items := WithLineAdded(st.items, item), totalPrice := st.totalPrice + item.price);
    assert HasId(r.items, item.id) by {
      if FindLine(st.items, item.id).Some? {
        var k :| 0 <= k < |st.items| && st.items[k].id == item.id;
        assert r.items[k].id == item.id;
      } else {
        assert r.items[|st.items|].id == item.id;
      }
    }
    r
  }

  /** removeFromCart: no line with the id is left; an absent id changes
      nothing; the table and payment are kept. */
  function AfterRemove(st: CartState, id: int): (r: CartState)
    ensures r.tableNumber == st.tableNumber && r.paymentMethod == st.paymentMethod
    ensures !HasId(r.items, id)
    ensures !HasId(st.items, id) ==> r == st
  {
    match FindLine(st.items, id)
    case None => st
    case Some(l) =>
      var w := WithoutLine(st.items, id);
      assert forall i :: 0 <= i < |w| ==> w[i] in w;
      st.(items := w, totalPrice := st.totalPrice - LineValue(l))
  }

  /** updateQuantity: 0 removes the line; any other quantity keeps every
      line and gives the item that quantity. */
  function AfterUpdate(st: CartState, id: int, q: int): (r: CartState)
    ensures r.tableNumber == st.tableNumber && r.paymentMethod == st.paymentMethod
    ensures q == 0 ==> !HasId(r.items, id)
    ensures q != 0 ==> |r.items| == |st.items| && (HasId(st.items, id) ==> ItemQuantity(r.items, id) == q)
  {
    if q == 0 then AfterRemove(st, id)
    else
      SetQuantityShape(st.items, id, q);
      var r := st.(items := SetQuantityOf(st.items, id, q), totalPrice := st.totalPrice + QuantityDelta(st.items, id, q));
      assert HasId(st.items, id) ==> HasId(r.items, id) by {
        if HasId(st.items, id) {
          var k :| 0 <= k < |st.items| && st.items[k].id == id;
          assert r.items[k].id == id;
        }
      }
      r
  }

  /** clearCart: an empty cart, which is consistent. */
  function AfterClear(st: CartState): (r: CartState)
    ensures r.items == [] && Consistent(r)
  {
    st.(items := [], totalPrice := 0)
  }

  /** The container's invariant: the running total is the sum of the line
      values and no two lines share an id. */
  predicate Consistent(st: CartState) {
    st.totalPrice == Subtotal(st.items) && UniqueIds(st.items)
  }

  // ------------------------------------------------------------ persistence

  /** The object the save effect writes: no total. */
  function Snapshot(st: CartState): CartSnapshot {
    CartSnapshot(Some(st.items), st.tableNumber, st.paymentMethod)
  }

  /** The mount-time load: defaults unless the slot parsed, the total
      recomputed from the restored lines. */
  function Restore(slot: Slot<CartSnapshot>): (st: CartState)
    ensures st.totalPrice == Subtotal(st.items)
    ensures st.paymentMethod != ""
    ensures !slot.Stored? ==> st == CartState([], 0, "", DefaultPaymentMethod)
    ensures slot.Stored? ==> st.items == slot.value.cartItems.GetOr([]) && st.tableNumber == slot.value.tableNumber
    ensures slot.Stored? && slot.value.paymentMethod != "" ==> st.paymentMethod == slot.value.paymentMethod
    ensures slot.Stored? && slot.value.paymentMethod == "" ==> st.paymentMethod == DefaultPaymentMethod
  {
    match slot
    case Stored(snap) =>
      var items := snap.cartItems.GetOr([]);
      CartState(items, Subtotal(items), snap.tableNumber, OrElse(snap.paymentMethod, DefaultPaymentMethod))
    case _ => CartState([], 0, "", DefaultPaymentMethod)
  }

  /** Saving and reloading gives back the same state, provided the total
      agreed with the lines (only the lines are saved) and a payment method
      was chosen (an empty one reloads as "Cash"). */
  lemma SaveLoadRoundTrip(st: CartState)
    requires st.totalPrice == Subtotal(st.items)
    ensures Restore(Stored(Snapshot(st))).items == st.items
    ensures Restore(Stored(Snapshot(st))).tableNumber == st.tableNumber
    ensures Restore(Stored(Snapshot(st))).totalPrice == st.totalPrice
    ensures Restore(Stored(Snapshot(st))).paymentMethod == OrElse(st.paymentMethod, DefaultPaymentMethod)
    ensures st.paymentMethod != "" ==> Restore(Stored(Snapshot(st))) == st
  {
  }

  /** The snapshot does not depend on the running total. */
  lemma SnapshotOmitsTotal(a: CartState, b: CartState)
    requires a.items == b.items && a.tableNumber == b.tableNumber && a.paymentMethod == b.paymentMethod
    ensures Snapshot(a) == Snapshot(b)
  {
  }

  // ------------------------------------------------------------ lemmas: add

  lemma {:induction false} IncrementShape(lines: seq<CartLine>, id: int)
    ensures |IncrementLine(lines, id)| == |lines|
    ensures forall i :: 0 <= i < |lines| ==>
      IncrementLine(lines, id)[i] == if lines[i].id == id then lines[i].(quantity := lines[i].quantity + 1) else lines[i]
  {
    if lines != [] {
      IncrementShape(lines[1..], id);
    }
  }

  lemma {:induction false} IncrementAbsent(lines: seq<CartLine>, id: int)
    requires !HasId(lines, id)
    ensures IncrementLine(lines, id) == lines
  {
    if lines != [] {
      assert lines[0].id != id;
      assert !HasId(lines[1..], id) by {
        forall i | 0 <= i < |lines| - 1 ensures lines[1..][i].id != id {
          assert lines[1..][i] == lines[i + 1];
        }
      }
      IncrementAbsent(lines[1..], id);
    }
  }

  /** addToCart on an id already in the cart adds one unit to the lines with
      that id, leaves every other line as it was and adds no line. */
  lemma AddToExistingLine(lines: seq<CartLine>, item: MenuItem)
    requires HasId(lines, item.id)
    ensures |WithLineAdded(lines, item)| == |lines|
    ensures forall i :: 0 <= i < |lines| ==>
      WithLineAdded(lines, item)[i] ==
        if lines[i].id == item.id then lines[i].(quantity := lines[i].quantity + 1) else lines[i]
  {
    IncrementShape(lines, item.id);
  }

  /** addToCart on a new id appends a line with the item's id, name and
      price and quantity 1 at the end, and keeps the ids unique. */
  lemma AddToNewLine(lines: seq<CartLine>, item: MenuItem)
    requires !HasId(lines, item.id)
    ensures WithLineAdded(lines, item) == lines + [NewLine(item)]
    ensures UniqueIds(lines) ==> UniqueIds(WithLineAdded(lines, item))
  {
  }

  lemma {:induction false} IncrementSubtotal(lines: seq<CartLine>, id: int, price: int)
    requires UniqueIds(lines) && HasId(lines, id)
    requires forall i :: 0 <= i < |lines| && lines[i].id == id ==> lines[i].price == price
    ensures Subtotal(IncrementLine(lines, id)) == Subtotal(lines) + price
  {
    var rest := lines[1..];
    assert UniqueIds(rest) by {
      forall i, j | 0 <= i < j < |rest| ensures rest[i].id != rest[j].id {
        assert rest[i] == lines[i + 1] && rest[j] == lines[j + 1];
      }
    }
    if lines[0].id == id {
      assert !HasId(rest, id) by {
        forall i | 0 <= i < |rest| ensures rest[i].id != id {
          assert rest[i] == lines[i + 1];
        }
      }
      IncrementAbsent(rest, id);
      var l := lines[0];
      assert LineValue(l.(quantity := l.quantity + 1)) == LineValue(l) + price;
    } else {
      var k :| 0 <= k < |lines| && lines[k].id == id;
      assert rest[k - 1] == lines[k];
      forall i | 0 <= i < |rest| && rest[i].id == id ensures rest[i].price == price {
        assert rest[i] == lines[i + 1];
      }
      IncrementSubtotal(rest, id, price);
    }
  }

  /** With unique ids and a matching price, addToCart raises the line sum by
      exactly the item's price, which is what the running total adds. */
  lemma AddSubtotal(lines: seq<CartLine>, item: MenuItem)
    requires UniqueIds(lines) && PriceAgrees(lines, item)
    ensures Subtotal(WithLineAdded(lines, item)) == Subtotal(lines) + item.price
  {
    if HasId(lines, item.id) {
      IncrementSubtotal(lines, item.id, item.price);
    } else {
      SubtotalAppend(lines, [NewLine(item)]);
    }
  }

  lemma AddKeepsUnique(lines: seq<CartLine>, item: MenuItem)
    requires UniqueIds(lines)
    ensures UniqueIds(WithLineAdded(lines, item))
  {
    if HasId(lines, item.id) {
      IncrementShape(lines, item.id);
    }
  }

  lemma {:induction false} IncrementCounts(lines: seq<CartLine>, id: int)
    requires UniqueIds(lines) && HasId(lines, id)
    ensures TotalItems(IncrementLine(lines, id)) == TotalItems(lines) + 1
  {
    var rest := lines[1..];
    assert UniqueIds(rest) by {
      forall i, j | 0 <= i < j < |rest| ensures rest[i].id != rest[j].id {
        assert rest[i] == lines[i + 1] && rest[j] == lines[j + 1];
      }
    }
    if lines[0].id == id {
      assert !HasId(rest, id) by {
        forall i | 0 <= i < |rest| ensures rest[i].id != id {
          assert rest[i] == lines[i + 1];
        }
      }
      IncrementAbsent(rest, id);
    } else {
      var k :| 0 <= k < |lines| && lines[k].id == id;
      assert rest[k - 1] == lines[k];
      IncrementCounts(rest, id);
    }
  }

  lemma {:induction false} TotalItemsAppend(a: seq<CartLine>, b: seq<CartLine>)
    ensures TotalItems(a + b) == TotalItems(a) + TotalItems(b)
  {
    if a != [] {
      assert (a + b)[0] == a[0];
      assert (a + b)[1..] == a[1..] + b;
      TotalItemsAppend(a[1..], b);
    } else {
      assert a + b == b;
    }
  }

  /** In a list with unique ids, getItemQuantity reads the one matching line. */
  lemma ItemQuantityAt(lines: seq<CartLine>, id: int, k: nat)
    requires UniqueIds(lines) && k < |lines| && lines[k].id == id
    ensures ItemQuantity(lines, id) == lines[k].quantity
  {
    var q := ItemQuantity(lines, id);
    var j :| 0 <= j < |lines| && lines[j].id == id && q == lines[j].quantity;
    assert j == k;
  }

  /** addToCart raises getTotalItems by one (ids unique). */
  lemma AddTotalItems(lines: seq<CartLine>, item: MenuItem)
    requires UniqueIds(lines)
    ensures TotalItems(WithLineAdded(lines, item)) == TotalItems(lines) + 1
  {
    if HasId(lines, item.id) {
      IncrementCounts(lines, item.id);
    } else {
      TotalItemsAppend(lines, [NewLine(item)]);
    }
  }

  /** addToCart raises the item's getItemQuantity by one (ids unique). */
  lemma AddItemQuantity(lines: seq<CartLine>, item: MenuItem)
    requires UniqueIds(lines)
    ensures ItemQuantity(WithLineAdded(lines, item), item.id) == ItemQuantity(lines, item.id) + 1
  {
    var r := WithLineAdded(lines, item);
    AddKeepsUnique(lines, item);
    if HasId(lines, item.id) {
      IncrementShape(lines, item.id);
      var i :| 0 <= i < |lines| && lines[i].id == item.id;
      ItemQuantityAt(lines, item.id, i);
      ItemQuantityAt(r, item.id, i);
    } else {
      ItemQuantityAt(r, item.id, |lines|);
    }
  }

  // ------------------------------------------------------------ lemmas: remove

  lemma {:induction false} SubtotalAppend(a: seq<CartLine>, b: seq<CartLine>)
    ensures Subtotal(a + b) == Subtotal(a) + Subtotal(b)
  {
    if a != [] {
      assert (a + b)[0] == a[0];
      assert (a + b)[1..] == a[1..] + b;
      SubtotalAppend(a[1..], b);
    } else {
      assert a + b == b;
    }
  }

  /** removeFromCart of an absent id keeps the lines as they were. */
  lemma RemoveAbsent(lines: seq<CartLine>, id: int)
    requires !HasId(lines, id)
    ensures WithoutLine(lines, id) == lines
    ensures FindLine(lines, id).None?
  {
    FilterKeepsAll(lines, (l: CartLine) => l.id != id);
  }

  /** The tail of a list with unique ids has unique ids and lacks the head's id. */
  lemma UniqueTail(lines: seq<CartLine>)
    requires UniqueIds(lines) && lines != []
    ensures UniqueIds(lines[1..]) && !HasId(lines[1..], lines[0].id)
  {
    var rest := lines[1..];
    forall i, j | 0 <= i < j < |rest| ensures rest[i].id != rest[j].id {
      assert rest[i] == lines[i + 1] && rest[j] == lines[j + 1];
    }
    forall i | 0 <= i < |rest| ensures rest[i].id != lines[0].id {
      assert rest[i] == lines[i + 1];
    }
  }

  lemma WithoutLineCons(lines: seq<CartLine>, id: int)
    requires lines != []
    ensures WithoutLine(lines, id) ==
      if lines[0].id != id then [lines[0]] + WithoutLine(lines[1..], id) else WithoutLine(lines[1..], id)
  {
  }

  /** removeFromCart removes the id entirely and keeps the ids unique. */
  lemma {:induction false} WithoutKeepsUnique(lines: seq<CartLine>, id: int)
    requires UniqueIds(lines)
    ensures UniqueIds(WithoutLine(lines, id)) && !HasId(WithoutLine(lines, id), id)
  {
    if lines != [] {
      var rest := lines[1..];
      UniqueTail(lines);
      WithoutKeepsUnique(rest, id);
      WithoutLineCons(lines, id);
      var w := WithoutLine(rest, id);
      if lines[0].id != id {
        assert !HasId(w, lines[0].id) by {
          forall j | 0 <= j < |w| ensures w[j].id != lines[0].id {
            assert w[j] in rest;
          }
        }
        ConsUnique(lines[0], w, id);
      }
    }
  }

  lemma ConsUnique(l: CartLine, w: seq<CartLine>, id: int)
    requires UniqueIds(w) && !HasId(w, l.id)
    ensures UniqueIds([l] + w)
    ensures !HasId(w, id) && id != l.id ==> !HasId([l] + w, id)
  {
    var r := [l] + w;
    forall i, j | 0 <= i < j < |r| ensures r[i].id != r[j].id {
      assert r[j] == w[j - 1];
      if i > 0 {
        assert r[i] == w[i - 1];
      }
    }
    if !HasId(w, id) && id != l.id {
      forall i | 0 <= i < |r| ensures r[i].id != id {
        if i > 0 {
          assert r[i] == w[i - 1];
        }
      }
    }
  }

  /** With unique ids, removing the line at `k` lowers the line sum by that
      line's value, which is what the running total subtracts. */
  lemma {:induction false} RemoveSubtotal(lines: seq<CartLine>, id: int, k: nat)
    requires UniqueIds(lines) && k < |lines| && lines[k].id == id
    ensures Subtotal(WithoutLine(lines, id)) == Subtotal(lines) - LineValue(lines[k])
  {
    if k == 0 {
      UniqueTail(lines);
      WithoutLineCons(lines, id);
      RemoveAbsent(lines[1..], id);
    } else {
      var rest := lines[1..];
      assert lines[0].id != id;
      UniqueTail(lines);
      assert rest[k - 1] == lines[k];
      RemoveSubtotal(rest, id, k - 1);
      var w := WithoutLine(rest, id);
      WithoutLineCons(lines, id);
      assert WithoutLine(lines, id) == [lines[0]] + w;
      SubtotalCons(lines[0], w);
    }
  }

  lemma SubtotalCons(l: CartLine, w: seq<CartLine>)
    ensures Subtotal([l] + w) == LineValue(l) + Subtotal(w)
  {
    assert ([l] + w)[1..] == w;
  }

  lemma FindLineAt(lines: seq<CartLine>, id: int) returns (k: nat)
    requires FindLine(lines, id).Some?
    ensures k < |lines| && lines[k] == FindLine(lines, id).value && lines[k].id == id
  {
    var p := (l: CartLine) => l.id == id;
    var i :| 0 <= i < |lines| && lines[i] == FindLine(lines, id).value && p(lines[i]);
    k := i;
  }

  // ------------------------------------------------------------ lemmas: update quantity

  /** updateQuantity with a present id changes only the quantity of the lines
      with that id; every other line is kept. */
  lemma {:induction false} SetQuantityShape(lines: seq<CartLine>, id: int, q: int)
    ensures |SetQuantityOf(lines, id, q)| == |lines|
    ensures forall i :: 0 <= i < |lines| ==>
      SetQuantityOf(lines, id, q)[i] == if lines[i].id == id then lines[i].(quantity := q) else lines[i]
  {
    if lines != [] {
      SetQuantityShape(lines[1..], id, q);
    }
  }

  /** The total adjustments of updateQuantity sum to the change in the line
      sum, whatever the ids. */
  lemma {:induction false} SetQuantitySubtotal(lines: seq<CartLine>, id: int, q: int)
    ensures Subtotal(SetQuantityOf(lines, id, q)) == Subtotal(lines) + QuantityDelta(lines, id, q)
  {
    if lines != [] {
      SetQuantitySubtotal(lines[1..], id, q);
      var l := lines[0];
      if l.id == id {
        assert LineValue(l.(quantity := q)) == LineValue(l) + (q - l.quantity) * l.price by {
          assert l.price * q == l.price * l.quantity + (q - l.quantity) * l.price;
        }
      }
    }
  }

  /** updateQuantity with an absent id changes neither the lines nor the total. */
  lemma {:induction false} SetQuantityAbsent(lines: seq<CartLine>, id: int, q: int)
    requires !HasId(lines, id)
    ensures SetQuantityOf(lines, id, q) == lines
    ensures QuantityDelta(lines, id, q) == 0
  {
    if lines != [] {
      assert lines[0].id != id;
      assert !HasId(lines[1..], id) by {
        forall i | 0 <= i < |lines| - 1 ensures lines[1..][i].id != id {
          assert lines[1..][i] == lines[i + 1];
        }
      }
      SetQuantityAbsent(lines[1..], id, q);
    }
  }

  /** With unique ids the adjustment is the signed `(new - old) × price` of
      the one matching line. */
  lemma {:induction false} QuantityDeltaSingle(lines: seq<CartLine>, id: int, q: int, k: nat)
    requires UniqueIds(lines) && k < |lines| && lines[k].id == id
    ensures QuantityDelta(lines, id, q) == (q - lines[k].quantity) * lines[k].price
  {
    var rest := lines[1..];
    assert UniqueIds(rest) by {
      forall i, j | 0 <= i < j < |rest| ensures rest[i].id != rest[j].id {
        assert rest[i] == lines[i + 1] && rest[j] == lines[j + 1];
      }
    }
    if k == 0 {
      assert !HasId(rest, id) by {
        forall i | 0 <= i < |rest| ensures rest[i].id != id {
          assert rest[i] == lines[i + 1];
        }
      }
      SetQuantityAbsent(rest, id, q);
    } else {
      assert rest[k - 1] == lines[k];
      QuantityDeltaSingle(rest, id, q, k - 1);
    }
  }

  // ------------------------------------------------------------ lemmas: the invariant

  /** addToCart keeps the invariant when the item's price agrees with the
      line already in the cart. */
  lemma AddPreservesConsistency(st: CartState, item: MenuItem)
    requires Consistent(st) && PriceAgrees(st.items, item)
    ensures Consistent(AfterAdd(st, item))
  {
    AddSubtotal(st.items, item);
    AddKeepsUnique(st.items, item);
  }

  /** removeFromCart keeps the invariant; an absent id changes nothing. */
  lemma RemovePreservesConsistency(st: CartState, id: int)
    requires Consistent(st)
    ensures Consistent(AfterRemove(st, id))
    ensures !HasId(st.items, id) ==> AfterRemove(st, id) == st
  {
    if FindLine(st.items, id).Some? {
      var k := FindLineAt(st.items, id);
      RemoveSubtotal(st.items, id, k);
      WithoutKeepsUnique(st.items, id);
    } else {
      assert !HasId(st.items, id);
    }
  }

  /** updateQuantity keeps the invariant; an absent id changes nothing. */
  lemma UpdatePreservesConsistency(st: CartState, id: int, q: int)
    requires Consistent(st)
    ensures Consistent(AfterUpdate(st, id, q))
    ensures !HasId(st.items, id) ==> AfterUpdate(st, id, q) == st
  {
    if q == 0 {
      RemovePreservesConsistency(st, id);
    } else {
      SetQuantitySubtotal(st.items, id, q);
      SetQuantityShape(st.items, id, q);
      if !HasId(st.items, id) {
        SetQuantityAbsent(st.items, id, q);
      }
    }
  }

  /** clearCart empties the lines and the total and keeps the table number
      and the payment method. */
  lemma ClearKeepsTableAndPayment(st: CartState)
    ensures Consistent(AfterClear(st))
    ensures AfterClear(st).tableNumber == st.tableNumber && AfterClear(st).paymentMethod == st.paymentMethod
  {
  }

  /** One mutating call on the container. */
  datatype CartOp = Add(item: MenuItem) | Remove(id: int) | Update(id: int, quantity: int) | Clear

  function Apply(st: CartState, op: CartOp): CartState {
    match op
    case Add(item) => AfterAdd(st, item)
    case Remove(id) => AfterRemove(st, id)
    case Update(id, q) => AfterUpdate(st, id, q)
    case Clear => AfterClear(st)
  }

  function Run(st: CartState, ops: seq<CartOp>): CartState
    decreases |ops|
  {
    if ops == [] then st else Run(Apply(st, ops[0]), ops[1..])
  }

  /** Every line and every added item is priced by one price list. */
  predicate LinesPriced(lines: seq<CartLine>, prices: map<int, int>) {
    forall i :: 0 <= i < |lines| ==> lines[i].id in prices && prices[lines[i].id] == lines[i].price
  }

  predicate OpsPriced(ops: seq<CartOp>, prices: map<int, int>) {
    forall k :: 0 <= k < |ops| && ops[k].Add? ==> ops[k].item.id in prices && prices[ops[k].item.id] == ops[k].item.price
  }

  lemma AddKeepsPriced(lines: seq<CartLine>, item: MenuItem, prices: map<int, int>)
    requires LinesPriced(lines, prices) && item.id in prices && prices[item.id] == item.price
    ensures LinesPriced(WithLineAdded(lines, item), prices)
  {
    if HasId(lines, item.id) {
      IncrementShape(lines, item.id);
    }
  }

  lemma WithoutKeepsPriced(lines: seq<CartLine>, id: int, prices: map<int, int>)
    requires LinesPriced(lines, prices)
    ensures LinesPriced(WithoutLine(lines, id), prices)
  {
    var w := WithoutLine(lines, id);
    forall i | 0 <= i < |w| ensures w[i].id in prices && prices[w[i].id] == w[i].price {
      assert w[i] in lines;
    }
  }

  lemma SetQuantityKeepsPriced(lines: seq<CartLine>, id: int, q: int, prices: map<int, int>)
    requires LinesPriced(lines, prices)
    ensures LinesPriced(SetQuantityOf(lines, id, q), prices)
  {
    SetQuantityShape(lines, id, q);
  }

  lemma ApplyKeepsPriced(st: CartState, op: CartOp, prices: map<int, int>)
    requires LinesPriced(st.items, prices)
    requires op.Add? ==> op.item.id in prices && prices[op.item.id] == op.item.price
    ensures LinesPriced(Apply(st, op).items, prices)
  {
    match op
    case Add(item) => AddKeepsPriced(st.items, item, prices);
    case Remove(id) => WithoutKeepsPriced(st.items, id, prices);
    case Update(id, q) =>
      WithoutKeepsPriced(st.items, id, prices);
      SetQuantityKeepsPriced(st.items, id, q, prices);
    case Clear =>
  }

  /** For every sequence of addToCart / removeFromCart / updateQuantity /
      clearCart calls whose items come from one price list, the running
      total stays equal to Σ price × quantity and the ids stay unique. */
  lemma {:induction false} RunKeepsTotal(st: CartState, ops: seq<CartOp>, prices: map<int, int>)
    requires Consistent(st) && LinesPriced(st.items, prices) && OpsPriced(ops, prices)
    ensures Consistent(Run(st, ops))
    decreases |ops|
  {
    if ops != [] {
      var next := Apply(st, ops[0]);
      match ops[0] {
        case Add(item) =>
          assert PriceAgrees(st.items, item);
          AddPreservesConsistency(st, item);
        case Remove(id) => RemovePreservesConsistency(st, id);
        case Update(id, q) => UpdatePreservesConsistency(st, id, q);
        case Clear =>
      }
      ApplyKeepsPriced(st, ops[0], prices);
      assert OpsPriced(ops[1..], prices) by {
        forall k | 0 <= k < |ops| - 1 && ops[1..][k].Add?
          ensures ops[1..][k].item.id in prices && prices[ops[1..][k].item.id] == ops[1..][k].item.price
        {
          assert ops[1..][k] == ops[k + 1];
        }
      }
      RunKeepsTotal(next, ops[1..], prices);
    }
  }

  // ------------------------------------------------------------ the container

  class CartStore {
    var cartItems: seq<CartLine>
    var totalPrice: int
    var tableNumber: string
    var paymentMethod: string
    /** The 'restaurant-cart' slot. */
    var saved: Slot<CartSnapshot>

    function State(): CartState
      reads this
    {
      CartState(cartItems, totalPrice, tableNumber, paymentMethod)
    }

    /** Write-through persistence: the slot always holds the snapshot of
        the current state. */
    ghost predicate Valid()
      reads this
    {
      saved == Stored(Snapshot(State()))
    }

    /** Mount: restore from the slot, then the save effect writes the
        restored state back (replacing a corrupt slot by the defaults). */
    constructor Load(stored: Slot<CartSnapshot>)
      ensures Valid()
      ensures State() == Restore(stored)
    {
      var st := Restore(stored);
      cartItems, totalPrice, tableNumber, paymentMethod := st.items, st.totalPrice, st.tableNumber, st.paymentMethod;
      saved := Stored(Snapshot(st));
    }

    method AddToCart(item: MenuItem)
      requires Valid()
      modifies this
      ensures Valid()
      ensures State() == AfterAdd(old(State()), item)
    {
      cartItems := WithLineAdded(cartItems, item);
      totalPrice := totalPrice + item.price;
      saved := Stored(Snapshot(State()));
    }

    method RemoveFromCart(id: int)
      requires Valid()
      modifies this
      ensures Valid()
      ensures State() == AfterRemove(old(State()), id)
    {
      var found := FindLine(cartItems, id);
      if found.None? {
        return;
      }
      ghost var before := State();
      totalPrice := totalPrice - LineValue(found.value);
      cartItems := WithoutLine(cartItems, id);
      assert State() == AfterRemove(before, id);
      saved := Stored(Snapshot(State()));
    }

    method UpdateQuantity(id: int, newQuantity: int)
      requires Valid()
      modifies this
      ensures Valid()
      ensures State() == AfterUpdate(old(State()), id, newQuantity)
      ensures newQuantity == 0 ==> State() == AfterRemove(old(State()), id)
    {
      if newQuantity == 0 {
        RemoveFromCart(id);
        return;
      }
      totalPrice := totalPrice + QuantityDelta(cartItems, id, newQuantity);
      cartItems := SetQuantityOf(cartItems, id, newQuantity);
      saved := Stored(Snapshot(State()));
    }

    method ClearCart()
      requires Valid()
      modifies this
      ensures Valid()
      ensures State() == AfterClear(old(State()))
    {
      cartItems := [];
      totalPrice := 0;
      saved := Stored(Snapshot(State()));
    }

    method SetTableNumber(t: string)
      requires Valid()
      modifies this
      ensures Valid()
      ensures State() == old(State()).(tableNumber := t)
    {
      tableNumber := t;
      saved := Stored(Snapshot(State()));
    }

    method SetPaymentMethod(p: string)
      requires Valid()
      modifies this
      ensures Valid()
      ensures State() == old(State()).(paymentMethod := p)
    {
      paymentMethod := p;
      saved := Stored(Snapshot(State()));
    }
  }
}
