/** What the checkout collects: delivery or pickup details and a payment method. */
module CheckoutTypes {

  datatype DeliveryMethod = Pickup | Delivery

  datatype PaymentMethodType = Card | Transfer

  datatype DeliveryData = DeliveryData(
    deliveryMethod: DeliveryMethod,
    firstName: string,
    lastName: string,
    email: string,
    phone: string,
    address: string,
    city: string,
    zipCode: string)
}
