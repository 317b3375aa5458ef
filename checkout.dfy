/**
 * The three-step checkout (app/checkout/page.tsx): the step counter with its
 * unbounded next and back handlers, the two submit handlers, the payment
 * panel's continue guard (components/checkout/PaymentMethod.tsx), and the
 * render guards that pick what the page shows.
 */
module Checkout {
  import opened Wrappers
  import opened CheckoutTypes
  import opened Cart
  import Confirmation

  /** `STEPS`. */
  const DELIVERY := 1
  const PAYMENT := 2
  const CONFIRMATION := 3

  /** The step content the page renders. */
  datatype StepPanel =
    | DeliveryPanel(initialData: Option<DeliveryData>)
    | PaymentPanel
    | ConfirmationPanel(summary: Confirmation.Summary, payment: PaymentMethodType)
    | ConfirmationError
    | NoPanel

  datatype CheckoutView = EmptyCheckout | StepView(panel: StepPanel)

  /**
   * An empty cart shows the empty view whatever the step; otherwise step 1
   * shows the delivery form with the stored data, step 2 the payment panel,
   * step 3 the confirmation only once both the delivery data and the payment
   * method are set (and a render error when a line has no label), and any
   * other step nothing.
   */
  function Render(items: seq<CartItem>, step: int, delivery: Option<DeliveryData>,
                  payment: Option<PaymentMethodType>): (v: CheckoutView)
    ensures v == EmptyCheckout <==> |items| == 0
    ensures v.StepView? && v.panel.ConfirmationPanel? <==>
      |items| > 0 && step == CONFIRMATION && delivery.Some? && payment.Some? && !Confirmation.HasUnlabelledLine(items)
    ensures v.StepView? && v.panel.ConfirmationError? <==>
      |items| > 0 && step == CONFIRMATION && delivery.Some? && payment.Some? && Confirmation.HasUnlabelledLine(items)
    ensures v.StepView? && v.panel.ConfirmationPanel? ==>
      v.panel.summary == Confirmation.SummaryOf(items, delivery.value) && v.panel.payment == payment.value
    ensures v.StepView? && v.panel.DeliveryPanel? <==> |items| > 0 && step == DELIVERY
    ensures v.StepView? && v.panel.DeliveryPanel? ==> v.panel.initialData == delivery
    ensures v.StepView? && v.panel.PaymentPanel? <==> |items| > 0 && step == PAYMENT
  {
    if |items| == 0 then EmptyCheckout
    else if step == DELIVERY then StepView(DeliveryPanel(delivery))
    else if step == PAYMENT then StepView(PaymentPanel)
    else if step == CONFIRMATION && delivery.Some? && payment.Some? then
      if Confirmation.HasUnlabelledLine(items) then StepView(ConfirmationError)
      else StepView(ConfirmationPanel(Confirmation.SummaryOf(items, delivery.value), payment.value))
    else StepView(NoPanel)
  }

  /** Outside steps 1 to 3 a non-empty cart renders no step content at all. */
  lemma OutOfRangeStepIsBlank(items: seq<CartItem>, step: int, delivery: Option<DeliveryData>,
                              payment: Option<PaymentMethodType>)
    requires |items| > 0 && (step < DELIVERY || step > CONFIRMATION)
    ensures Render(items, step, delivery, payment) == StepView(NoPanel)
  {
  }

  /** What the final-order handler logs; it clears nothing. */
  datatype OrderRecord = OrderRecord(items: seq<CartItem>, delivery: Option<DeliveryData>,
                                     payment: Option<PaymentMethodType>)

  class Controller {
    var currentStep: int
    var deliveryData: Option<DeliveryData>
    var paymentMethod: Option<PaymentMethodType>

    /**
     * The states the page's own buttons can lead to: a step from 1 to 3, the
     * delivery data set from step 2 on, and the payment method set at step 3.
     */
    ghost predicate Reachable()
      reads this
    {
      DELIVERY <= currentStep <= CONFIRMATION
      && (currentStep >= PAYMENT ==> deliveryData.Some?)
      && (currentStep == CONFIRMATION ==> paymentMethod.Some?)
    }

    constructor()
      ensures currentStep == DELIVERY && deliveryData == None && paymentMethod == None
      ensures Reachable()
    {
      currentStep := DELIVERY;
      deliveryData := None;
      paymentMethod := None;
    }

    function View(items: seq<CartItem>): CheckoutView
      reads this
    {
      Render(items, currentStep, deliveryData, paymentMethod)
    }

    /** `handleNextStep`: one step forward, with no upper bound. */
    method NextStep()
      modifies this
      ensures currentStep == old(currentStep) + 1
      ensures deliveryData == old(deliveryData) && paymentMethod == old(paymentMethod)
    {
      currentStep := currentStep + 1;
    }

    /** `handlePrevStep`: one step back, with no lower bound. */
    method PrevStep()
      modifies this
      ensures currentStep == old(currentStep) - 1
      ensures deliveryData == old(deliveryData) && paymentMethod == old(paymentMethod)
      ensures old(Reachable()) && old(currentStep) > DELIVERY ==> Reachable()
    {
      currentStep := currentStep - 1;
    }

    /** `handleDeliverySubmit`: store the data, then one step forward. */
    method DeliverySubmit(data: DeliveryData)
      modifies this
      ensures deliveryData == Some(data) && currentStep == old(currentStep) + 1
      ensures paymentMethod == old(paymentMethod)
      ensures old(Reachable()) && old(currentStep) == DELIVERY ==> Reachable() && currentStep == PAYMENT
    {
      deliveryData := Some(data);
      NextStep();
    }

    /** `handlePaymentSubmit`: store the method, then one step forward. */
    method PaymentSubmit(m: PaymentMethodType)
      modifies this
      ensures paymentMethod == Some(m) && currentStep == old(currentStep) + 1
      ensures deliveryData == old(deliveryData)
      ensures old(Reachable()) && old(currentStep) == PAYMENT ==> Reachable() && currentStep == CONFIRMATION
    {
      paymentMethod := Some(m);
      NextStep();
    }

    /** The payment panel's continue button: nothing happens until a method is chosen. */
    method PaymentContinue(selected: Option<PaymentMethodType>)
      modifies this
      ensures selected.None? ==> currentStep == old(currentStep) && paymentMethod == old(paymentMethod)
      ensures selected.Some? ==> paymentMethod == selected && currentStep == old(currentStep) + 1
      ensures deliveryData == old(deliveryData)
    {
      if selected.Some? {
        PaymentSubmit(selected.value);
      }
    }

    /** `handleFinalOrder`: logs the order; the cart and the step are left as they are. */
    method FinalOrder(items: seq<CartItem>) returns (record: OrderRecord)
      ensures record.items == items
      ensures record.delivery == deliveryData && record.payment == paymentMethod
    {
      record := OrderRecord(items, deliveryData, paymentMethod);
    }
  }

  /**
   * In a state the buttons can reach, a non-empty cart always shows one of
   * the three panels, or the confirmation's render error.
   */
  lemma ReachableShowsAPanel(items: seq<CartItem>, step: int, delivery: Option<DeliveryData>,
                             payment: Option<PaymentMethodType>)
    requires |items| > 0 && DELIVERY <= step <= CONFIRMATION
    requires step >= PAYMENT ==> delivery.Some?
    requires step == CONFIRMATION ==> payment.Some?
    ensures Render(items, step, delivery, payment).StepView?
    ensures !Render(items, step, delivery, payment).panel.NoPanel?
  {
  }

  /**
   * A line with neither a `variant` nor selections makes the confirmation
   * step fail to render.
   */
  lemma UnlabelledLineBreaksConfirmation(item: CartItem, delivery: DeliveryData, payment: PaymentMethodType)
    requires item.selections.None?
    ensures Render([item], CONFIRMATION, Some(delivery), Some(payment)) == StepView(ConfirmationError)
  {
    assert [item][0].selections.None?;
  }
}
