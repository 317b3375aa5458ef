/**
 * The confirmation step (components/checkout/CustomizationForm.tsx): the
 * subtotal, the delivery fee, the grand total and the schedule it shows.
 * Money is in cents.
 */
module Confirmation {
  import opened Wrappers
  import opened CheckoutTypes
  import opened Calendar
  import opened Cart
  import CartPage

  /**
   * `items.reduce((sum, item) => sum + (item.finalPrice || 0), 0)`: one
   * `finalPrice` per line, whatever the quantity (`|| 0` changes nothing on
   * an integer price).
   */
  function Subtotal(items: seq<CartItem>): int {
    if items == [] then 0 else Subtotal(items[..|items| - 1]) + items[|items| - 1].finalPrice
  }

  /** 5.00 for delivery, nothing for pickup. */
  function DeliveryFee(m: DeliveryMethod): (fee: int)
    ensures fee == 500 <==> m == Delivery
    ensures fee == 0 <==> m == Pickup
  {
    match m
    case Delivery => 500
    case Pickup => 0
  }

  function GrandTotal(items: seq<CartItem>, delivery: DeliveryData): (total: int)
    ensures total >= Subtotal(items)
    ensures total - Subtotal(items) == DeliveryFee(delivery.deliveryMethod)
  {
    Subtotal(items) + DeliveryFee(delivery.deliveryMethod)
  }

  /** What the cart's total counts beyond one unit per line. */
  function ExtraUnits(items: seq<CartItem>): int {
    if items == [] then 0
    else ExtraUnits(items[..|items| - 1]) + items[|items| - 1].finalPrice * (items[|items| - 1].quantity - 1)
  }

  /** The cart's total is the confirmation subtotal plus every unit beyond the first of each line. */
  lemma {:induction false} SubtotalGap(items: seq<CartItem>)
    ensures FinalTotal(items) == Subtotal(items) + ExtraUnits(items)
    decreases |items|
  {
    if items != [] {
      SubtotalGap(items[..|items| - 1]);
      var last := items[|items| - 1];
      assert last.finalPrice * last.quantity == last.finalPrice + last.finalPrice * (last.quantity - 1);
    }
  }

  /** With one unit per line the subtotal and the cart total agree. */
  lemma {:induction false} SingleUnitsAgree(items: seq<CartItem>)
    requires forall i :: 0 <= i < |items| ==> items[i].quantity == 1
    ensures Subtotal(items) == FinalTotal(items)
    decreases |items|
  {
    SubtotalGap(items);
    if items != [] {
      SingleUnitsAgree(items[..|items| - 1]);
      SubtotalGap(items[..|items| - 1]);
    }
  }

  /** A single line with a positive price and more than one unit shows a subtotal below the cart total. */
  lemma QuantityIgnored(item: CartItem)
    requires item.finalPrice > 0 && item.quantity > 1
    ensures Subtotal([item]) == item.finalPrice
    ensures Subtotal([item]) < FinalTotal([item])
  {
    assert [item][..0] == [];
    SubtotalGap([item]);
    assert ExtraUnits([item]) == item.finalPrice * (item.quantity - 1);
    assert item.finalPrice * (item.quantity - 1) > 0 by {
      var k := item.quantity - 1;
      assert item.finalPrice * k >= item.finalPrice * 1 by { MulMonotone(item.finalPrice, 1, k); }
    }
  }

  lemma MulMonotone(a: nat, b: int, c: int)
    requires b <= c
    ensures a * b <= a * c
  {
  }

  /**
   * `new Date(items[0].schedule)`: the first line's schedule, read even when
   * that line has none (then an invalid date); the source reads `items[0]`,
   * so an empty list is outside it.
   */
  function ScheduleShown(items: seq<CartItem>): (t: Timestamp)
    requires |items| > 0
    ensures items[0].schedule.Some? ==> t == items[0].schedule.value
    ensures items[0].schedule.None? ==> t == InvalidDate
  {
    items[0].schedule.GetOr(InvalidDate)
  }

  /**
   * The confirmation step and the cart page can show different schedules:
   * when only the second line is scheduled, the cart page shows it and the
   * confirmation shows an invalid date.
   */
  lemma ScheduleDiffersFromCartPage(a: CartItem, b: CartItem, t: Timestamp)
    requires a.schedule.None? && b.schedule == Some(t) && t != InvalidDate
    ensures CartPage.FirstScheduled([a, b]) == Some(t)
    ensures ScheduleShown([a, b]) == InvalidDate
  {
    CartPage.FirstScheduledIsFirst([a, b], 1);
  }

  /**
   * Each summary line is labelled `item.variant || item.selections.size`.
   * A cart line has no `variant`, so a line without selections makes that
   * read throw and the step fails to render.
   */
  predicate HasUnlabelledLine(items: seq<CartItem>) {
    exists i :: 0 <= i < |items| && items[i].selections.None?
  }

  /** The figures the step shows. */
  datatype Summary = Summary(lineCount: int, subtotal: int, deliveryFee: int, grandTotal: int, schedule: Timestamp)

  function SummaryOf(items: seq<CartItem>, delivery: DeliveryData): (s: Summary)
    requires |items| > 0
    ensures s.lineCount == |items| && s.subtotal == Subtotal(items)
    ensures s.grandTotal == s.subtotal + s.deliveryFee && s.deliveryFee == DeliveryFee(delivery.deliveryMethod)
    ensures s.schedule == ScheduleShown(items)
  {
    Summary(|items|, Subtotal(items), DeliveryFee(delivery.deliveryMethod), GrandTotal(items, delivery),
            ScheduleShown(items))
  }
}
