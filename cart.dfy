/** The cart store (lib/store/cart.ts): its lines, its running total and its
    delivery address, the state transitions performed by each `set` call, the
    invariant `totalAmount == Σ subtotal`, and which transitions keep it.

    Every transition is written as the source computes it: the total is
    adjusted incrementally, never recomputed from the lines. */
module Cart {
  import opened Seqs

  /** One cart line. Monetary amounts are exact reals. */
  datatype CartItem = CartItem(foodId: string, name: string, price: real, quantity: int, subtotal: real)

  /** The argument of `addItem`: a line without quantity and subtotal. */
  datatype ItemInput = ItemInput(foodId: string, name: string, price: real)

  /** The data fields of the store. */
  datatype CartState = CartState(items: seq<CartItem>, totalAmount: real, deliveryAddress: Option<string>)

  /** Freshly created store: no lines, zero total, no address. */
  const Initial := CartState([], 0.0, None)

  // ---------------------------------------------------------------------
  // The invariant

  /** Σ subtotal over the lines. */
  function Sum(items: seq<CartItem>): real
  {
    if items == [] then 0.0 else items[0].subtotal + Sum(items[1..])
  }

  /** No two lines share a `foodId`. */
  predicate UniqueIds(items: seq<CartItem>)
  {
    forall i, j :: 0 <= i < j < |items| ==> items[i].foodId != items[j].foodId
  }

  /** quantity · price */
  function Cost(quantity: int, price: real): real
  {
    (quantity as real) * price
  }

  lemma {:induction false} CostStep(quantity: int, price: real)
    ensures Cost(quantity + 1, price) == Cost(quantity, price) + price
  {
    assert ((quantity + 1) as real) == (quantity as real) + 1.0;
  }

  predicate LineConsistent(line: CartItem)
  {
    line.subtotal == Cost(line.quantity, line.price)
  }

  predicate LinesConsistent(items: seq<CartItem>)
  {
    forall i :: 0 <= i < |items| ==> LineConsistent(items[i])
  }

  /** Unique ids, `subtotal == quantity * price` on every line, and the
      running total equal to the sum of the subtotals. */
  predicate Invariant(s: CartState)
  {
    UniqueIds(s.items) && LinesConsistent(s.items) && s.totalAmount == Sum(s.items)
  }

  /** Every stored line for the argument's id has the argument's price. */
  predicate PriceAgrees(items: seq<CartItem>, item: ItemInput)
  {
    forall i :: 0 <= i < |items| && items[i].foodId == item.foodId ==> items[i].price == item.price
  }

  // ---------------------------------------------------------------------
  // The callbacks handed to `find`, `map` and `filter`

  function HasId(id: string): CartItem -> bool
  {
    (line: CartItem) => line.foodId == id
  }

  function OtherId(id: string): CartItem -> bool
  {
    (line: CartItem) => line.foodId != id
  }

  /** A line with one more unit, its subtotal recomputed from its own price. */
  function Bumped(line: CartItem): CartItem
  {
    line.(quantity := line.quantity + 1, subtotal := Cost(line.quantity + 1, line.price))
  }

  function Increment(id: string): CartItem -> CartItem
  {
    (line: CartItem) => if line.foodId == id then Bumped(line) else line
  }

  /** A line with quantity `q`, its subtotal recomputed from its own price. */
  function WithQuantity(line: CartItem, q: int): CartItem
  {
    line.(quantity := q, subtotal := Cost(q, line.price))
  }

  function SetQuantity(id: string, q: int): CartItem -> CartItem
  {
    (line: CartItem) => if line.foodId == id then WithQuantity(line, q) else line
  }

  function NewLine(item: ItemInput): CartItem
  {
    CartItem(item.foodId, item.name, item.price, 1, item.price)
  }

  // ---------------------------------------------------------------------
  // The transitions

  /** `addItem`: bump the line(s) with the id, or append a new line; either
      way the total grows by the ARGUMENT's price. */
  function AddItem(s: CartState, item: ItemInput): (r: CartState)
    ensures r.totalAmount == s.totalAmount + item.price
    ensures r.deliveryAddress == s.deliveryAddress
  {
    match Find(s.items, HasId(item.foodId))
    case Some(_) =>
      s.(items := Map(s.items, Increment(item.foodId)), totalAmount := s.totalAmount + item.price)
    case None =>
      s.(items := s.items + [NewLine(item)], totalAmount := s.totalAmount + item.price)
  }

  /** `removeItem`: drop every line with the id and subtract the subtotal of
      the first one found; the state itself when no line has the id. */
  function RemoveItem(s: CartState, id: string): (r: CartState)
    ensures r.deliveryAddress == s.deliveryAddress
    ensures forall i :: 0 <= i < |r.items| ==> r.items[i].foodId != id
  {
    match Find(s.items, HasId(id))
    case None => s
    case Some(line) =>
      s.(items := Filter(s.items, OtherId(id)), totalAmount := s.totalAmount - line.subtotal)
  }

  /** `updateQuantity`: any quantity, also zero or negative, is stored. */
  function UpdateQuantity(s: CartState, id: string, quantity: int): (r: CartState)
    ensures r.deliveryAddress == s.deliveryAddress
    ensures |r.items| == |s.items|
  {
    match Find(s.items, HasId(id))
    case None => s
    case Some(line) =>
      s.(items := Map(s.items, SetQuantity(id, quantity)),
         totalAmount := s.totalAmount - line.subtotal + Cost(quantity, line.price))
  }

  /** `clearCart`: the prior state is not consulted. */
  function ClearCart(s: CartState): (r: CartState)
    ensures r.items == [] && r.totalAmount == 0.0 && r.deliveryAddress == None
  {
    Initial
  }

  /** `getTotal`: the stored total, which under the invariant is the sum of
      the line subtotals. */
  function GetTotal(s: CartState): (r: real)
    ensures r == s.totalAmount
    ensures Invariant(s) ==> r == Sum(s.items)
  {
    s.totalAmount
  }

  /** The cart page's reconciliation: `items` is overwritten wholesale with
      `setState` (the page first sets it to the empty list and then to the
      fetched lines; only the second value remains), while `totalAmount` and
      `deliveryAddress` are left as they were. */
  function ReplaceItems(s: CartState, lines: seq<CartItem>): (r: CartState)
    ensures r.items == lines
    ensures r.totalAmount == s.totalAmount && r.deliveryAddress == s.deliveryAddress
  {
    s.(items := lines)
  }

  // ---------------------------------------------------------------------
  // Facts about Sum

  lemma {:induction false} SumAppend(a: seq<CartItem>, b: seq<CartItem>)
    ensures Sum(a + b) == Sum(a) + Sum(b)
  {
    if a == [] {
      assert a + b == b;
    } else {
      assert (a + b)[1..] == a[1..] + b;
      SumAppend(a[1..], b);
    }
  }

  lemma {:induction false} SumUpdate(items: seq<CartItem>, k: nat, line: CartItem)
    requires k < |items|
    ensures Sum(items[k := line]) == Sum(items) - items[k].subtotal + line.subtotal
  {
    if k > 0 {
      assert items[k := line][1..] == items[1..][k - 1 := line];
      SumUpdate(items[1..], k - 1, line);
    }
  }

  lemma {:induction false} SumRemoveAt(items: seq<CartItem>, k: nat)
    requires k < |items|
    ensures Sum(items[..k] + items[k + 1..]) == Sum(items) - items[k].subtotal
  {
    assert items == items[..k] + ([items[k]] + items[k + 1..]);
    SumAppend(items[..k], [items[k]] + items[k + 1..]);
    SumAppend([items[k]], items[k + 1..]);
    SumAppend(items[..k], items[k + 1..]);
  }

  // ---------------------------------------------------------------------
  // Lookup under unique ids

  /** With unique ids, the line `find` returns is the one at the id's index. */
  lemma {:induction false} FindUnique(items: seq<CartItem>, k: nat)
    requires UniqueIds(items) && k < |items|
    ensures Find(items, HasId(items[k].foodId)) == Some(items[k])
  {
    var r := Find(items, HasId(items[k].foodId));
    assert HasId(items[k].foodId)(items[k]);
    var m :| 0 <= m < |items| && items[m] == r.value;
    assert items[m].foodId == items[k].foodId;
  }

  /** With unique ids, mapping a callback that only touches lines with the
      id at index `k` rewrites just that index. */
  lemma {:induction false} MapTouchesOne(items: seq<CartItem>, k: nat, f: CartItem -> CartItem)
    requires UniqueIds(items) && k < |items|
    requires forall i :: 0 <= i < |items| && items[i].foodId != items[k].foodId ==> f(items[i]) == items[i]
    ensures Map(items, f) == items[k := f(items[k])]
  {
  }

  // ---------------------------------------------------------------------
  // addItem

  /** An id already present: only that line changes, by one unit, its
      subtotal recomputed from the stored price; order is kept. */
  lemma {:induction false} AddItemExisting(s: CartState, item: ItemInput, k: nat)
    requires UniqueIds(s.items) && k < |s.items| && s.items[k].foodId == item.foodId
    ensures AddItem(s, item).items == s.items[k := Bumped(s.items[k])]
    ensures AddItem(s, item).items[k].quantity == s.items[k].quantity + 1
    ensures AddItem(s, item).items[k].subtotal == Cost(s.items[k].quantity + 1, s.items[k].price)
  {
    FindUnique(s.items, k);
    MapTouchesOne(s.items, k, Increment(item.foodId));
  }

  /** A new id: exactly one line is appended, with quantity 1. */
  lemma {:induction false} AddItemNew(s: CartState, item: ItemInput)
    requires forall i :: 0 <= i < |s.items| ==> s.items[i].foodId != item.foodId
    ensures AddItem(s, item).items == s.items + [CartItem(item.foodId, item.name, item.price, 1, item.price)]
  {
    assert Find(s.items, HasId(item.foodId)).None? by {
      forall i | 0 <= i < |s.items| ensures !HasId(item.foodId)(s.items[i]) { }
    }
  }

  /** `addItem` never creates a second line for an id. */
  lemma {:induction false} AddItemKeepsIdsUnique(s: CartState, item: ItemInput)
    requires UniqueIds(s.items)
    ensures UniqueIds(AddItem(s, item).items)
  {
    var r := AddItem(s, item);
    match Find(s.items, HasId(item.foodId))
    case Some(_) =>
      forall i | 0 <= i < |s.items| ensures r.items[i].foodId == s.items[i].foodId { }
    case None =>
      forall i | 0 <= i < |s.items| ensures s.items[i].foodId != item.foodId {
        assert !HasId(item.foodId)(s.items[i]);
      }
  }

  /** `addItem` keeps `subtotal == quantity * price` on every line. */
  lemma {:induction false} AddItemKeepsLinesConsistent(s: CartState, item: ItemInput)
    requires LinesConsistent(s.items)
    ensures LinesConsistent(AddItem(s, item).items)
  {
    var r := AddItem(s, item);
    match Find(s.items, HasId(item.foodId))
    case Some(_) =>
      forall i | 0 <= i < |r.items| ensures LineConsistent(r.items[i]) {
        assert r.items[i] == Increment(item.foodId)(s.items[i]);
        if s.items[i].foodId == item.foodId {
          BumpedConsistent(s.items[i]);
        }
      }
    case None =>
      assert LineConsistent(NewLine(item));
      forall i | 0 <= i < |r.items| ensures LineConsistent(r.items[i]) {
        if i < |s.items| {
          assert r.items[i] == s.items[i];
        }
      }
  }

  lemma {:induction false} BumpedConsistent(line: CartItem)
    ensures LineConsistent(Bumped(line))
  {
    var q := line.quantity + 1;
    assert Bumped(line).quantity == q;
    assert Bumped(line).subtotal == Cost(q, line.price);
  }

  /** The line sum grows by the stored price of the bumped line. */
  lemma {:induction false} BumpedSubtotal(line: CartItem)
    requires LineConsistent(line)
    ensures Bumped(line).subtotal == line.subtotal + line.price
  {
    CostStep(line.quantity, line.price);
  }

  /** From a consistent cart, `addItem` keeps the invariant exactly when
      every stored line for the id has the argument's price: the total grows
      by the argument's price, the line sum by the stored one. */
  lemma {:induction false} AddItemInvariant(s: CartState, item: ItemInput)
    requires Invariant(s)
    ensures Invariant(AddItem(s, item)) <==> PriceAgrees(s.items, item)
  {
    var r := AddItem(s, item);
    AddItemKeepsIdsUnique(s, item);
    AddItemKeepsLinesConsistent(s, item);
    match Find(s.items, HasId(item.foodId))
    case Some(line) =>
      var m :| 0 <= m < |s.items| && s.items[m] == line;
      AddItemExisting(s, item, m);
      SumUpdate(s.items, m, Bumped(s.items[m]));
      BumpedSubtotal(s.items[m]);
      assert Sum(r.items) == Sum(s.items) + s.items[m].price;
      if !PriceAgrees(s.items, item) {
        var i :| 0 <= i < |s.items| && s.items[i].foodId == item.foodId && s.items[i].price != item.price;
        assert i == m;
      }
    case None =>
      SumAppend(s.items, [NewLine(item)]);
      assert Sum([NewLine(item)]) == item.price;
      forall i | 0 <= i < |s.items| ensures s.items[i].foodId != item.foodId {
        assert !HasId(item.foodId)(s.items[i]);
      }
  }

  /** Two adds of the same item at two different prices: the total drifts
      away from the sum of the subtotals. */
  lemma {:induction false} AddItemPriceChangeDrifts()
    ensures var once := AddItem(Initial, ItemInput("p1", "Pizza", 10.0));
            var twice := AddItem(once, ItemInput("p1", "Pizza", 12.0));
            Invariant(once) && twice.totalAmount == 22.0 && Sum(twice.items) == 20.0
  {
    var once := AddItem(Initial, ItemInput("p1", "Pizza", 10.0));
    AddItemNew(Initial, ItemInput("p1", "Pizza", 10.0));
    AddItemExisting(once, ItemInput("p1", "Pizza", 12.0), 0);
  }

  /** The line `n` adds of `item` build up. */
  function RepeatedLine(item: ItemInput, n: nat): CartItem
  {
    CartItem(item.foodId, item.name, item.price, n, Cost(n, item.price))
  }

  lemma {:induction false} BumpedRepeatedLine(item: ItemInput, n: nat)
    ensures Bumped(RepeatedLine(item, n)) == RepeatedLine(item, n + 1)
  {
    CostStep(n, item.price);
  }

  /** One more add of the item whose line sits last, after lines without its id. */
  lemma {:induction false} AddItemOnLastLine(t: CartState, a: seq<CartItem>, item: ItemInput, n: nat)
    requires UniqueIds(a) && t.items == a + [RepeatedLine(item, n)]
    requires forall i :: 0 <= i < |a| ==> a[i].foodId != item.foodId
    ensures AddItem(t, item).items == a + [RepeatedLine(item, n + 1)]
  {
    var k := |a|;
    assert t.items[k] == RepeatedLine(item, n);
    assert UniqueIds(t.items) by {
      forall i, j | 0 <= i < j < |t.items| ensures t.items[i].foodId != t.items[j].foodId {
        if j < k {
          assert t.items[i] == a[i] && t.items[j] == a[j];
        } else {
          assert t.items[i] == a[i];
        }
      }
    }
    AddItemExisting(t, item, k);
    BumpedRepeatedLine(item, n);
    assert t.items[k := RepeatedLine(item, n + 1)] == a + [RepeatedLine(item, n + 1)];
  }

  /** The state `k` adds of an item whose id is not in `s` should give. */
  function AfterAdds(s: CartState, item: ItemInput, k: nat): CartState
  {
    CartState(s.items + [RepeatedLine(item, k)], s.totalAmount + Cost(k, item.price), s.deliveryAddress)
  }

  /** One more add on the state after `k` adds. */
  lemma {:induction false} AddOnRepeatedLine(s: CartState, item: ItemInput, k: nat)
    requires UniqueIds(s.items)
    requires forall i :: 0 <= i < |s.items| ==> s.items[i].foodId != item.foodId
    ensures AddItem(AfterAdds(s, item, k), item) == AfterAdds(s, item, k + 1)
  {
    AddItemOnLastLine(AfterAdds(s, item, k), s.items, item, k);
    CostStep(k, item.price);
  }

  /** Appending a consistent line with a fresh id, and adding its subtotal to
      the total, keeps the invariant. */
  lemma {:induction false} AppendFreshLine(s: CartState, line: CartItem)
    requires Invariant(s) && LineConsistent(line)
    requires forall i :: 0 <= i < |s.items| ==> s.items[i].foodId != line.foodId
    ensures Invariant(CartState(s.items + [line], s.totalAmount + line.subtotal, s.deliveryAddress))
  {
    var items := s.items + [line];
    forall i, j | 0 <= i < j < |items| ensures items[i].foodId != items[j].foodId {
      assert items[i] == s.items[i];
    }
    forall i | 0 <= i < |items| ensures LineConsistent(items[i]) {
      if i < |s.items| {
        assert items[i] == s.items[i];
      }
    }
    SumAppend(s.items, [line]);
    assert Sum([line]) == line.subtotal;
  }

  /** The state after `k` adds of an item new to `s` is consistent. */
  lemma {:induction false} AfterAddsInvariant(s: CartState, item: ItemInput, k: nat)
    requires Invariant(s)
    requires forall i :: 0 <= i < |s.items| ==> s.items[i].foodId != item.foodId
    ensures Invariant(AfterAdds(s, item, k))
  {
    AppendFreshLine(s, RepeatedLine(item, k));
  }

  /** The first add of an item new to the cart gives the state after one add. */
  lemma {:induction false} AddFirst(s: CartState, item: ItemInput)
    requires forall i :: 0 <= i < |s.items| ==> s.items[i].foodId != item.foodId
    ensures AddItem(s, item) == AfterAdds(s, item, 1)
  {
    assert RepeatedLine(item, 1) == NewLine(item);
    AddItemNew(s, item);
  }

  // ---------------------------------------------------------------------
  // removeItem

  /** Removing an absent id changes nothing. */
  lemma {:induction false} RemoveItemAbsent(s: CartState, id: string)
    requires forall i :: 0 <= i < |s.items| ==> s.items[i].foodId != id
    ensures RemoveItem(s, id) == s
  {
    assert Find(s.items, HasId(id)).None? by {
      forall i | 0 <= i < |s.items| ensures !HasId(id)(s.items[i]) { }
    }
  }

  /** Removing the same id twice is removing it once. */
  lemma {:induction false} RemoveItemIdempotent(s: CartState, id: string)
    ensures RemoveItem(RemoveItem(s, id), id) == RemoveItem(s, id)
  {
    RemoveItemAbsent(RemoveItem(s, id), id);
  }

  /** `removeItem` keeps the other lines, in order, and only them. */
  lemma {:induction false} RemoveItemKeepsOthers(s: CartState, id: string)
    ensures IsSubsequence(RemoveItem(s, id).items, s.items)
    ensures forall i :: 0 <= i < |s.items| && s.items[i].foodId != id ==> s.items[i] in RemoveItem(s, id).items
  {
    match Find(s.items, HasId(id))
    case None =>
      FilterAll(s.items, OtherId(id));
      FilterIsSubsequence(s.items, OtherId(id));
    case Some(_) =>
      FilterIsSubsequence(s.items, OtherId(id));
      forall i | 0 <= i < |s.items| && s.items[i].foodId != id
        ensures s.items[i] in RemoveItem(s, id).items
      {
        assert OtherId(id)(s.items[i]);
      }
  }

  /** A present id with unique ids: exactly its line goes, the total drops
      by that line's subtotal. */
  lemma {:induction false} RemoveItemPresent(s: CartState, k: nat)
    requires UniqueIds(s.items) && k < |s.items|
    ensures RemoveItem(s, s.items[k].foodId).items == s.items[..k] + s.items[k + 1..]
    ensures RemoveItem(s, s.items[k].foodId).totalAmount == s.totalAmount - s.items[k].subtotal
  {
    var id := s.items[k].foodId;
    FindUnique(s.items, k);
    FilterDropsOne(s.items, k, OtherId(id));
  }

  /** Deleting one line keeps ids unique and lines consistent. */
  lemma {:induction false} RemoveAtKeepsLines(items: seq<CartItem>, k: nat)
    requires k < |items|
    ensures UniqueIds(items) ==> UniqueIds(items[..k] + items[k + 1..])
    ensures LinesConsistent(items) ==> LinesConsistent(items[..k] + items[k + 1..])
  {
    var rest := items[..k] + items[k + 1..];
    forall i | 0 <= i < |rest| ensures rest[i] == items[if i < k then i else i + 1] { }
  }

  /** `removeItem` keeps the invariant. */
  lemma {:induction false} RemoveItemInvariant(s: CartState, id: string)
    requires Invariant(s)
    ensures Invariant(RemoveItem(s, id))
  {
    match Find(s.items, HasId(id))
    case None =>
    case Some(line) =>
      var k :| 0 <= k < |s.items| && s.items[k] == line;
      RemoveItemPresent(s, k);
      SumRemoveAt(s.items, k);
      RemoveAtKeepsLines(s.items, k);
  }

  // ---------------------------------------------------------------------
  // updateQuantity

  lemma {:induction false} UpdateQuantityAbsent(s: CartState, id: string, quantity: int)
    requires forall i :: 0 <= i < |s.items| ==> s.items[i].foodId != id
    ensures UpdateQuantity(s, id, quantity) == s
  {
    assert Find(s.items, HasId(id)).None? by {
      forall i | 0 <= i < |s.items| ensures !HasId(id)(s.items[i]) { }
    }
  }

  /** A present id with unique ids: only its line changes, to the given
      quantity (not checked to be positive) and the matching subtotal. */
  lemma {:induction false} UpdateQuantityPresent(s: CartState, k: nat, quantity: int)
    requires UniqueIds(s.items) && k < |s.items|
    ensures UpdateQuantity(s, s.items[k].foodId, quantity).items == s.items[k := WithQuantity(s.items[k], quantity)]
    ensures UpdateQuantity(s, s.items[k].foodId, quantity).totalAmount
         == s.totalAmount - s.items[k].subtotal + Cost(quantity, s.items[k].price)
  {
    var line := s.items[k];
    var id := line.foodId;
    FindUnique(s.items, k);
    assert Find(s.items, HasId(id)) == Some(line);
    var newTotal := s.totalAmount - line.subtotal + Cost(quantity, line.price);
    assert UpdateQuantity(s, id, quantity) == s.(items := Map(s.items, SetQuantity(id, quantity)), totalAmount := newTotal);
    MapTouchesOne(s.items, k, SetQuantity(id, quantity));
  }

  lemma {:induction false} WithQuantityConsistent(line: CartItem, q: int)
    ensures LineConsistent(WithQuantity(line, q))
  {
  }

  /** Rewriting one line in place, keeping its id, with a consistent line
      keeps ids unique and lines consistent. */
  lemma {:induction false} UpdateAtKeepsLines(items: seq<CartItem>, k: nat, line: CartItem)
    requires k < |items| && line.foodId == items[k].foodId && LineConsistent(line)
    ensures UniqueIds(items) ==> UniqueIds(items[k := line])
    ensures LinesConsistent(items) ==> LinesConsistent(items[k := line])
  {
  }

  /** `updateQuantity` keeps the invariant, for every quantity. */
  lemma {:induction false} UpdateQuantityInvariant(s: CartState, id: string, quantity: int)
    requires Invariant(s)
    ensures Invariant(UpdateQuantity(s, id, quantity))
  {
    match Find(s.items, HasId(id))
    case None =>
    case Some(line) =>
      var k :| 0 <= k < |s.items| && s.items[k] == line;
      UpdateQuantityPresent(s, k, quantity);
      WithQuantityConsistent(line, quantity);
      UpdateAtKeepsLines(s.items, k, WithQuantity(line, quantity));
      SumUpdate(s.items, k, WithQuantity(line, quantity));
  }

  // ---------------------------------------------------------------------
  // clearCart, getTotal, reconciliation

  lemma {:induction false} ClearCartInvariant(s: CartState)
    ensures Invariant(ClearCart(s))
  {
  }

  /** The reconciled cart is consistent exactly when the new lines are and
      happen to add up to the old total. */
  lemma {:induction false} ReplaceItemsInvariant(s: CartState, lines: seq<CartItem>)
    ensures Invariant(ReplaceItems(s, lines))
        <==> UniqueIds(lines) && LinesConsistent(lines) && Sum(lines) == s.totalAmount
  {
  }

  /** Reconciling an empty cart with one remote line leaves the total at 0. */
  lemma {:induction false} ReplaceItemsDrifts()
    ensures var r := ReplaceItems(Initial, [CartItem("p1", "Pizza", 10.0, 1, 10.0)]);
            Invariant(Initial) && !Invariant(r) && r.totalAmount == 0.0 && Sum(r.items) == 10.0
  {
  }

  // ---------------------------------------------------------------------
  // Scenarios

  /** Two adds of one item give one line of quantity 2. */
  lemma {:induction false} ScenarioRepeatedAdd()
    ensures AddItem(AddItem(Initial, ItemInput("p1", "Pizza", 10.0)), ItemInput("p1", "Pizza", 10.0))
         == CartState([CartItem("p1", "Pizza", 10.0, 2, 20.0)], 20.0, None)
  {
    var once := AddItem(Initial, ItemInput("p1", "Pizza", 10.0));
    AddItemNew(Initial, ItemInput("p1", "Pizza", 10.0));
    AddItemExisting(once, ItemInput("p1", "Pizza", 10.0), 0);
  }

  /** Add two items, remove the first: the second alone remains. */
  lemma {:induction false} ScenarioAddAddRemove()
    ensures RemoveItem(AddItem(AddItem(Initial, ItemInput("p1", "Pizza", 10.0)), ItemInput("p2", "Salad", 5.0)), "p1")
         == CartState([CartItem("p2", "Salad", 5.0, 1, 5.0)], 5.0, None)
  {
    var one := AddItem(Initial, ItemInput("p1", "Pizza", 10.0));
    AddItemNew(Initial, ItemInput("p1", "Pizza", 10.0));
    var two := AddItem(one, ItemInput("p2", "Salad", 5.0));
    AddItemNew(one, ItemInput("p2", "Salad", 5.0));
    RemoveItemPresent(two, 0);
  }
}

/** The store object: its three fields are overwritten by each `set`. */
module Store {
  import opened Seqs
  import Cart

  class CartStore {
    var items: seq<Cart.CartItem>
    var totalAmount: real
    var deliveryAddress: Option<string>

    function State(): Cart.CartState
      reads this
    {
      Cart.CartState(items, totalAmount, deliveryAddress)
    }

    ghost predicate Valid()
      reads this
    {
      Cart.Invariant(State())
    }

    constructor ()
      ensures State() == Cart.Initial && Valid()
    {
      items, totalAmount, deliveryAddress := [], 0.0, None;
    }

    /** Replace all three fields by the next state, as `set` does. */
    method Commit(next: Cart.CartState)
      modifies this
      ensures State() == next
    {
      items, totalAmount, deliveryAddress := next.items, next.totalAmount, next.deliveryAddress;
    }

    method AddItem(item: Cart.ItemInput)
      modifies this
      ensures State() == Cart.AddItem(old(State()), item)
      ensures old(Valid()) ==> (Valid() <==> Cart.PriceAgrees(old(items), item))
    {
      if Valid() {
        Cart.AddItemInvariant(State(), item);
      }
      Commit(Cart.AddItem(State(), item));
    }

    method RemoveItem(id: string)
      modifies this
      ensures State() == Cart.RemoveItem(old(State()), id)
      ensures old(Valid()) ==> Valid()
    {
      if Valid() {
        Cart.RemoveItemInvariant(State(), id);
      }
      Commit(Cart.RemoveItem(State(), id));
    }

    method UpdateQuantity(id: string, quantity: int)
      modifies this
      ensures State() == Cart.UpdateQuantity(old(State()), id, quantity)
      ensures old(Valid()) ==> Valid()
    {
      if Valid() {
        Cart.UpdateQuantityInvariant(State(), id, quantity);
      }
      Commit(Cart.UpdateQuantity(State(), id, quantity));
    }

    method ClearCart()
      modifies this
      ensures State() == Cart.Initial && Valid()
    {
      Commit(Cart.ClearCart(State()));
    }

    /** Reads the stored total; when the store is consistent it is the sum. */
    method GetTotal() returns (total: real)
      ensures total == totalAmount
      ensures Valid() ==> total == Cart.Sum(items)
    {
      total := Cart.GetTotal(State());
    }

    method ReplaceItems(lines: seq<Cart.CartItem>)
      modifies this
      ensures State() == Cart.ReplaceItems(old(State()), lines)
    {
      Commit(Cart.ReplaceItems(State(), lines));
    }
  }

  /** Add a pizza and a salad, remove the pizza: the total read is the
      salad's price, from the store's contracts alone. */
  method PizzaSaladScenario() returns (total: real)
    ensures total == 5.0
  {
    var store := new CartStore();
    store.AddItem(Cart.ItemInput("p1", "Pizza", 10.0));
    Cart.AddItemNew(Cart.Initial, Cart.ItemInput("p1", "Pizza", 10.0));
    store.AddItem(Cart.ItemInput("p2", "Salad", 5.0));
    store.RemoveItem("p1");
    total := store.GetTotal();
  }
}
