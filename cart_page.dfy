/**
 * The cart page (app/cart/page.tsx): the order total, the first scheduled
 * item, the quantity-input coercion and the mock update and remove handlers,
 * which only log.
 */
module CartPage {
  import opened Wrappers
  import opened JsText
  import opened JsArray
  import opened Calendar
  import opened Cart

  /**
   * `cartItems.find(item => item.schedule)?.schedule`: every `Date` is
   * truthy, an invalid one included, so this is the first item with a schedule.
   */
  function FirstScheduled(items: seq<CartItem>): (r: Option<Timestamp>)
    ensures r.None? <==> forall i :: 0 <= i < |items| ==> items[i].schedule.None?
  {
    var item := Find(items, (item: CartItem) => item.schedule.Some?);
    if item.Some? then item.value.schedule else None
  }

  /** The schedule shown is that of the first item that has one. */
  lemma FirstScheduledIsFirst(items: seq<CartItem>, k: nat)
    requires k < |items| && items[k].schedule.Some?
    requires forall j :: 0 <= j < k ==> items[j].schedule.None?
    ensures FirstScheduled(items) == items[k].schedule
  {
    FindFirst(items, (item: CartItem) => item.schedule.Some?, k);
  }

  /** `parseInt(e.target.value) || 1`: zero and NaN become 1, anything else is passed on, negatives included. */
  function QuantityEntry(value: string): (q: int)
    ensures q != 0
    ensures ParseInt(value).None? || ParseInt(value) == Some(0) ==> q == 1
    ensures ParseInt(value).Some? && ParseInt(value).value != 0 ==> q == ParseInt(value).value
  {
    IntOr(ParseInt(value), 1)
  }

  /** Typing the decimal form of `n` enters `n`, except that 0 enters 1. */
  lemma QuantityEntryOfDecimal(n: int)
    ensures QuantityEntry(Decimal(n)) == if n == 0 then 1 else n
  {
    ParseIntOfDecimal(n);
  }

  /** What a mock handler logs. */
  datatype MockLog = LogRemove(itemId: string) | LogUpdate(itemId: string, quantity: int)

  /** `handleUpdateQuantity`: the remove branch iff the quantity is 0 or less; the cart is not touched. */
  method HandleUpdateQuantity(cart: Ledger, itemId: string, newQuantity: int) returns (log: MockLog)
    ensures log.itemId == itemId
    ensures log.LogRemove? <==> newQuantity <= 0
    ensures log.LogUpdate? ==> log.quantity == newQuantity
  {
    if newQuantity <= 0 {
      log := LogRemove(itemId);
    } else {
      log := LogUpdate(itemId, newQuantity);
    }
  }

  /** `handleRemoveItem`: logs the id; the cart is not touched. */
  method HandleRemoveItem(cart: Ledger, itemId: string) returns (log: MockLog)
    ensures log == LogRemove(itemId)
  {
    log := LogRemove(itemId);
  }

  /**
   * Through the input, the remove branch is reached only by a negative entry:
   * a zero, empty or non-numeric entry is coerced to 1 first.
   */
  lemma EntryReachesRemoveIffNegative(value: string)
    ensures QuantityEntry(value) <= 0 <==> ParseInt(value).Some? && ParseInt(value).value < 0
  {
  }

  /** What the page renders. */
  datatype CartView =
    | EmptyCartView
    | OrderView(itemCount: int, total: int, scheduledDate: Option<Timestamp>)

  /**
   * The empty view for an empty cart; otherwise the order with the item
   * count, the total of unit price times quantity, and the first schedule.
   */
  function View(items: seq<CartItem>): (v: CartView)
    ensures v.EmptyCartView? <==> |items| == 0
    ensures v.OrderView? ==> v.itemCount == QuantitySum(items) && v.total == LineSum(items)
    ensures v.OrderView? ==> v.scheduledDate == FirstScheduled(items)
  {
    TotalsAreSums(items);
    if |items| == 0 then EmptyCartView else OrderView(TotalItems(items), FinalTotal(items), FirstScheduled(items))
  }
}
