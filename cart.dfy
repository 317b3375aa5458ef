/**
 * The cart ledger (content/CartContext.tsx): an ordered list of line items
 * with append, update-quantity-or-remove, remove and clear, and the two
 * totals derived from it.  Prices are in cents; `finalPrice` is read as a
 * per-unit price, as the cart's type says.
 */
module Cart {
  import opened Wrappers
  import opened JsArray
  import opened ProductTypes
  import opened Calendar

  datatype CartItem = CartItem(
    id: string,
    productName: string,
    productSlug: string,
    quantity: int,
    unitPrice: int,
    finalPrice: int,
    isCustom: bool,
    selections: Option<Selections>,
    schedule: Option<Timestamp>)

  /** `items.reduce((sum, item) => sum + item.quantity, 0)`. */
  function TotalItems(items: seq<CartItem>): int {
    if items == [] then 0 else TotalItems(items[..|items| - 1]) + items[|items| - 1].quantity
  }

  /** `items.reduce((sum, item) => sum + item.finalPrice * item.quantity, 0)`. */
  function FinalTotal(items: seq<CartItem>): int {
    if items == [] then 0
    else FinalTotal(items[..|items| - 1]) + items[|items| - 1].finalPrice * items[|items| - 1].quantity
  }

  /** Both totals add up over a concatenation of carts. */
  lemma {:induction false} TotalsAppend(a: seq<CartItem>, b: seq<CartItem>)
    ensures TotalItems(a + b) == TotalItems(a) + TotalItems(b)
    ensures FinalTotal(a + b) == FinalTotal(a) + FinalTotal(b)
    decreases |b|
  {
    if b == [] {
      assert a + b == a;
    } else {
      var b' := b[..|b| - 1];
      assert (a + b)[..|a + b| - 1] == a + b';
      TotalsAppend(a, b');
    }
  }

  /** The item count as a plain sum from the front. */
  function QuantitySum(items: seq<CartItem>): int {
    if items == [] then 0 else items[0].quantity + QuantitySum(items[1..])
  }

  /** The cart value as a plain sum of line totals from the front. */
  function LineSum(items: seq<CartItem>): int {
    if items == [] then 0 else items[0].finalPrice * items[0].quantity + LineSum(items[1..])
  }

  /** The `reduce` folds are the plain sums: quantities, and unit price times quantity per line. */
  lemma {:induction false} TotalsAreSums(items: seq<CartItem>)
    ensures TotalItems(items) == QuantitySum(items)
    ensures FinalTotal(items) == LineSum(items)
    decreases |items|
  {
    if items != [] {
      assert items == [items[0]] + items[1..];
      TotalsAppend([items[0]], items[1..]);
      TotalsAreSums(items[1..]);
    }
  }

  /** `items.filter(item => item.id !== id)`. */
  function WithoutId(items: seq<CartItem>, id: string): seq<CartItem> {
    Filter(items, (item: CartItem) => item.id != id)
  }

  /** `items.map(item => item.id === id ? { ...item, quantity } : item)`. */
  function WithQuantity(items: seq<CartItem>, id: string, quantity: int): seq<CartItem> {
    Map(items, (item: CartItem) => if item.id == id then item.(quantity := quantity) else item)
  }

  /** The ids of the cart are pairwise distinct. */
  predicate UniqueIds(items: seq<CartItem>) {
    forall i, j :: 0 <= i < j < |items| ==> items[i].id != items[j].id
  }

  predicate HasId(items: seq<CartItem>, id: string) {
    exists i :: 0 <= i < |items| && items[i].id == id
  }

  /** Removal keeps exactly the items with another id. */
  lemma RemoveKeepsOthers(items: seq<CartItem>, id: string)
    ensures forall i :: 0 <= i < |WithoutId(items, id)| ==> WithoutId(items, id)[i].id != id
    ensures forall i :: 0 <= i < |WithoutId(items, id)| ==> WithoutId(items, id)[i] in items
    ensures forall i :: 0 <= i < |items| && items[i].id != id ==> items[i] in WithoutId(items, id)
    ensures !HasId(WithoutId(items, id), id)
  {
  }

  /** Removing an id that is not in the cart leaves it unchanged. */
  lemma RemoveUnknownId(items: seq<CartItem>, id: string)
    requires !HasId(items, id)
    ensures WithoutId(items, id) == items
  {
    FilterKeepsAll(items, (item: CartItem) => item.id != id);
  }

  /**
   * Removal keeps the remaining items in their order: it distributes over
   * any split of the cart, and a part without the id is kept whole.
   */
  lemma {:induction false} RemoveKeepsOrder(items: seq<CartItem>, id: string, kept: seq<CartItem>)
    ensures WithoutId(items + kept, id) == WithoutId(items, id) + WithoutId(kept, id)
    ensures !HasId(kept, id) ==> WithoutId(items + kept, id) == WithoutId(items, id) + kept
  {
    FilterAppend(items, kept, (item: CartItem) => item.id != id);
    if !HasId(kept, id) {
      RemoveUnknownId(kept, id);
    }
  }

  /**
   * Setting a quantity keeps the length, the order and every field except the
   * quantity, and changes the quantity only of the items with that id.
   */
  lemma UpdateChangesOnlyQuantity(items: seq<CartItem>, id: string, quantity: int)
    ensures |WithQuantity(items, id, quantity)| == |items|
    ensures forall i :: 0 <= i < |items| ==>
      WithQuantity(items, id, quantity)[i] == if items[i].id == id then items[i].(quantity := quantity) else items[i]
  {
    forall i | 0 <= i < |items|
      ensures WithQuantity(items, id, quantity)[i] == if items[i].id == id then items[i].(quantity := quantity) else items[i]
    {
      MapAt(items, (item: CartItem) => if item.id == id then item.(quantity := quantity) else item, i);
    }
  }

  /** Updating an id that is not in the cart leaves it unchanged. */
  lemma UpdateUnknownId(items: seq<CartItem>, id: string, quantity: int)
    requires !HasId(items, id)
    ensures WithQuantity(items, id, quantity) == items
  {
    UpdateChangesOnlyQuantity(items, id, quantity);
  }

  /** Adding with an id not yet in the cart, then removing that id, gives back the cart. */
  lemma AddThenRemove(items: seq<CartItem>, item: CartItem, freshId: string)
    requires !HasId(items, freshId)
    ensures WithoutId(items + [item.(id := freshId)], freshId) == items
  {
    var p := (it: CartItem) => it.id != freshId;
    FilterAppend(items, [item.(id := freshId)], p);
    FilterCons(item.(id := freshId), [], p);
    RemoveUnknownId(items, freshId);
  }

  /** An add with a fresh id keeps the ids distinct. */
  lemma AddKeepsUniqueIds(items: seq<CartItem>, item: CartItem, freshId: string)
    requires UniqueIds(items) && !HasId(items, freshId)
    ensures UniqueIds(items + [item.(id := freshId)])
  {
  }

  class Ledger {
    var cartItems: seq<CartItem>

    constructor()
      ensures cartItems == []
    {
      cartItems := [];
    }

    function ItemCount(): int
      reads this
    {
      TotalItems(cartItems)
    }

    function Total(): int
      reads this
    {
      FinalTotal(cartItems)
    }

    /**
     * `addToCart`: one copy of the item, under the supplied fresh id, at the
     * end; earlier items are untouched and an identical item is not merged.
     */
    method AddToCart(item: CartItem, freshId: string)
      modifies this
      ensures cartItems == old(cartItems) + [item.(id := freshId)]
      ensures ItemCount() == old(ItemCount()) + item.quantity
      ensures Total() == old(Total()) + item.finalPrice * item.quantity
    {
      TotalsAppend(cartItems, [item.(id := freshId)]);
      cartItems := cartItems + [item.(id := freshId)];
    }

    /** `removeItem`. */
    method RemoveItem(itemId: string)
      modifies this
      ensures cartItems == WithoutId(old(cartItems), itemId)
    {
      cartItems := WithoutId(cartItems, itemId);
    }

    /** `updateQuantity`: a quantity of 0 or less removes the item, any other sets it. */
    method UpdateQuantity(itemId: string, newQuantity: int)
      modifies this
      ensures newQuantity <= 0 ==> cartItems == WithoutId(old(cartItems), itemId)
      ensures newQuantity > 0 ==> cartItems == WithQuantity(old(cartItems), itemId, newQuantity)
    {
      if newQuantity <= 0 {
        RemoveItem(itemId);
        return;
      }
      cartItems := WithQuantity(cartItems, itemId, newQuantity);
    }

    /** `clearCart`: nothing left, both totals 0. */
    method ClearCart()
      modifies this
      ensures cartItems == [] && ItemCount() == 0 && Total() == 0
    {
      cartItems := [];
    }
  }
}
