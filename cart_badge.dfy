/** The header's cart button (components/cart-button.tsx): the number of
    units in the cart, obtained by `reduce` over the lines, and the badge that
    shows it only when it is positive. */
module CartBadge {
  import opened Seqs
  import Cart

  /** The `reduce` callback: running total plus the line's quantity. */
  function AddQuantity(total: int, line: Cart.CartItem): int
  {
    total + line.quantity
  }

  /** Σ quantity, recursively: the reference the fold is compared with. */
  function QuantitySum(items: seq<Cart.CartItem>): int
  {
    if items == [] then 0 else items[0].quantity + QuantitySum(items[1..])
  }

  lemma {:induction false} FoldIsQuantitySum(items: seq<Cart.CartItem>, acc: int)
    ensures FoldLeft(items, acc, AddQuantity) == acc + QuantitySum(items)
  {
    if items != [] {
      FoldIsQuantitySum(items[1..], AddQuantity(acc, items[0]));
    }
  }

  /** `items.reduce((total, item) => total + item.quantity, 0)`: the sum of
      the quantities, 0 for an empty cart. */
  function TotalItems(items: seq<Cart.CartItem>): (n: int)
    ensures n == QuantitySum(items)
    ensures items == [] ==> n == 0
  {
    FoldIsQuantitySum(items, 0);
    FoldLeft(items, 0, AddQuantity)
  }

  /** The badge is rendered when `totalItems > 0`. */
  predicate ShowsBadge(items: seq<Cart.CartItem>)
    ensures ShowsBadge(items) <==> QuantitySum(items) > 0
    ensures items == [] ==> !ShowsBadge(items)
  {
    TotalItems(items) > 0
  }

  lemma {:induction false} QuantitySumNonNegative(items: seq<Cart.CartItem>)
    requires forall i :: 0 <= i < |items| ==> items[i].quantity >= 0
    ensures QuantitySum(items) >= 0
  {
    if items != [] {
      QuantitySumNonNegative(items[1..]);
    }
  }

  /** Non-negative quantities give a non-negative badge count. */
  lemma {:induction false} TotalItemsNonNegative(items: seq<Cart.CartItem>)
    requires forall i :: 0 <= i < |items| ==> items[i].quantity >= 0
    ensures TotalItems(items) >= 0
  {
    QuantitySumNonNegative(items);
  }

  lemma {:induction false} QuantitySumAppend(a: seq<Cart.CartItem>, b: seq<Cart.CartItem>)
    ensures QuantitySum(a + b) == QuantitySum(a) + QuantitySum(b)
  {
    if a == [] {
      assert a + b == b;
    } else {
      assert (a + b)[1..] == a[1..] + b;
      QuantitySumAppend(a[1..], b);
    }
  }

  lemma {:induction false} QuantitySumUpdate(items: seq<Cart.CartItem>, k: nat, line: Cart.CartItem)
    requires k < |items|
    ensures QuantitySum(items[k := line]) == QuantitySum(items) - items[k].quantity + line.quantity
  {
    if k > 0 {
      assert items[k := line][1..] == items[1..][k - 1 := line];
      QuantitySumUpdate(items[1..], k - 1, line);
    }
  }

  lemma {:induction false} QuantitySumRemoveAt(items: seq<Cart.CartItem>, k: nat)
    requires k < |items|
    ensures QuantitySum(items[..k] + items[k + 1..]) == QuantitySum(items) - items[k].quantity
  {
    assert items == items[..k] + ([items[k]] + items[k + 1..]);
    QuantitySumAppend(items[..k], [items[k]] + items[k + 1..]);
    QuantitySumAppend([items[k]], items[k + 1..]);
    QuantitySumAppend(items[..k], items[k + 1..]);
  }

  /** With unique ids, one `addItem` raises the badge count by exactly one. */
  lemma {:induction false} AddItemRaisesCount(s: Cart.CartState, item: Cart.ItemInput)
    requires Cart.UniqueIds(s.items)
    ensures TotalItems(Cart.AddItem(s, item).items) == TotalItems(s.items) + 1
  {
    var r := Cart.AddItem(s, item);
    if k :| 0 <= k < |s.items| && s.items[k].foodId == item.foodId {
      Cart.AddItemExisting(s, item, k);
      QuantitySumUpdate(s.items, k, Cart.Bumped(s.items[k]));
    } else {
      Cart.AddItemNew(s, item);
      QuantitySumAppend(s.items, [Cart.NewLine(item)]);
      assert QuantitySum([Cart.NewLine(item)]) == 1;
    }
  }

  /** With unique ids, removing a present line lowers the count by its quantity. */
  lemma {:induction false} RemoveItemLowersCount(s: Cart.CartState, k: nat)
    requires Cart.UniqueIds(s.items) && k < |s.items|
    ensures TotalItems(Cart.RemoveItem(s, s.items[k].foodId).items) == TotalItems(s.items) - s.items[k].quantity
  {
    var items := s.items;
    Cart.RemoveItemPresent(s, k);
    QuantitySumRemoveAt(items, k);
  }

  /** After an add to a cart with non-negative quantities the badge shows. */
  lemma {:induction false} AddItemShowsBadge(s: Cart.CartState, item: Cart.ItemInput)
    requires Cart.UniqueIds(s.items)
    requires forall i :: 0 <= i < |s.items| ==> s.items[i].quantity >= 0
    ensures ShowsBadge(Cart.AddItem(s, item).items)
  {
    AddItemRaisesCount(s, item);
    TotalItemsNonNegative(s.items);
  }

  /** A cleared cart shows no badge. */
  lemma {:induction false} ClearCartHidesBadge(s: Cart.CartState)
    ensures !ShowsBadge(Cart.ClearCart(s).items)
  {
  }
}
