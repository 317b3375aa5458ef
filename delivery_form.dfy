/**
 * The delivery-details form (components/checkout/DeliveryDetailsForm.tsx):
 * its initial state, the field and method handlers, and the two checks its
 * submit handler makes before passing the data up.
 */
module DeliveryForm {
  import opened Wrappers
  import opened CheckoutTypes

  /** Pickup, every text field empty. */
  function InitialFormState(): (d: DeliveryData)
    ensures d.deliveryMethod == Pickup
    ensures d.firstName == d.lastName == d.email == d.phone == d.address == d.city == d.zipCode == ""
  {
    DeliveryData(Pickup, "", "", "", "", "", "", "")
  }

  /** `initialData || initialFormState`. */
  function StartState(initialData: Option<DeliveryData>): (d: DeliveryData)
    ensures initialData.Some? ==> d == initialData.value
    ensures initialData.None? ==> d == InitialFormState()
  {
    initialData.GetOr(InitialFormState())
  }

  /** The `name` of each text input. */
  datatype FieldName = FirstName | LastName | Email | Phone | Address | City | ZipCode

  function GetField(d: DeliveryData, name: FieldName): string {
    match name
    case FirstName => d.firstName
    case LastName => d.lastName
    case Email => d.email
    case Phone => d.phone
    case Address => d.address
    case City => d.city
    case ZipCode => d.zipCode
  }

  /** `{ ...prev, [name]: value }`. */
  function WithField(d: DeliveryData, name: FieldName, value: string): DeliveryData {
    match name
    case FirstName => d.(firstName := value)
    case LastName => d.(lastName := value)
    case Email => d.(email := value)
    case Phone => d.(phone := value)
    case Address => d.(address := value)
    case City => d.(city := value)
    case ZipCode => d.(zipCode := value)
  }

  /** The named field takes the value; every other field and the method are unchanged. */
  lemma WithFieldChangesOnlyThatField(d: DeliveryData, name: FieldName, value: string)
    ensures GetField(WithField(d, name, value), name) == value
    ensures forall other :: other != name ==> GetField(WithField(d, name, value), other) == GetField(d, other)
    ensures WithField(d, name, value).deliveryMethod == d.deliveryMethod
  {
  }

  /** Writing back a field's current value changes nothing. */
  lemma WithFieldOwnValue(d: DeliveryData, name: FieldName)
    ensures WithField(d, name, GetField(d, name)) == d
  {
  }

  /** The outcome of the submit handler. */
  datatype SubmitOutcome = ContactMissing | AddressMissing | Submitted(data: DeliveryData)

  /** The contact fields are all non-empty (`!formData.x` is true for the empty string only). */
  predicate ContactComplete(d: DeliveryData) {
    d.firstName != "" && d.email != "" && d.phone != ""
  }

  /** Pickup needs no address; delivery needs a street and a city. */
  predicate AddressComplete(d: DeliveryData) {
    d.deliveryMethod == Delivery ==> d.address != "" && d.city != ""
  }

  /** `handleSubmit`: the contact check first, then the address check, then `onSubmit(formData)`. */
  function ValidateDelivery(d: DeliveryData): (r: SubmitOutcome)
    ensures r.Submitted? <==> ContactComplete(d) && AddressComplete(d)
    ensures r.Submitted? ==> r.data == d
    ensures r == ContactMissing <==> !ContactComplete(d)
    ensures r == AddressMissing <==> ContactComplete(d) && !AddressComplete(d)
  {
    if d.firstName == "" || d.email == "" || d.phone == "" then ContactMissing
    else if d.deliveryMethod == Delivery && (d.address == "" || d.city == "") then AddressMissing
    else Submitted(d)
  }

  /** The last name and the zip code never affect the submit handler's decision; the browser's `required` check is separate. */
  lemma UncheckedFieldsIgnored(d: DeliveryData, lastName: string, zipCode: string)
    ensures ValidateDelivery(d.(lastName := lastName, zipCode := zipCode)).Submitted?
        <==> ValidateDelivery(d).Submitted?
  {
  }

  /** For pickup the address fields are never checked. */
  lemma PickupIgnoresAddress(d: DeliveryData, address: string, city: string)
    requires d.deliveryMethod == Pickup
    ensures ValidateDelivery(d.(address := address, city := city)).Submitted? <==> ContactComplete(d)
  {
  }

  /** The blank starting form never submits. */
  lemma InitialFormRejected()
    ensures ValidateDelivery(InitialFormState()) == ContactMissing
  {
  }

  class Form {
    var formData: DeliveryData

    constructor(initialData: Option<DeliveryData>)
      ensures formData == StartState(initialData)
    {
      formData := StartState(initialData);
    }

    /** `handleChange`. */
    method Change(name: FieldName, value: string)
      modifies this
      ensures formData == WithField(old(formData), name, value)
    {
      formData := WithField(formData, name, value);
    }

    /** `handleMethodChange`: only the method changes. */
    method MethodChange(m: DeliveryMethod)
      modifies this
      ensures formData == old(formData).(deliveryMethod := m)
    {
      formData := formData.(deliveryMethod := m);
    }

    /** `handleSubmit`: the form data is passed up unchanged iff both checks pass. */
    method Submit() returns (outcome: SubmitOutcome)
      ensures outcome == ValidateDelivery(formData)
      ensures outcome.Submitted? <==> ContactComplete(formData) && AddressComplete(formData)
    {
      if formData.firstName == "" || formData.email == "" || formData.phone == "" {
        return ContactMissing;
      }
      if formData.deliveryMethod == Delivery && (formData.address == "" || formData.city == "") {
        return AddressMissing;
      }
      outcome := Submitted(formData);
    }
  }
}
