/** The checkout page of src/pages/Checkout.js: the totals handed over to
    the payment page and the shipping-form validator. */
module Checkout {
  import opened Wrappers
  import opened Text
  import opened Records
  import CartContext

  /** The navigation state handed to the payment page. */
  datatype PaymentState = PaymentState(
    shippingAddress: Address,
    subtotal: int,
    tax: real,
    total: int,
    originalTotal: real)

  /** The keys of the form's error object. */
  datatype Field = NameField | PhoneField | AddressField | CityField | PincodeField

  /** What submitting the page leads to. */
  datatype CheckoutStep =
    | RedirectToCart
    | ShowErrors(errors: map<Field, string>)
    | ToPayment(state: PaymentState)

  const NameRequired: string := "Name is required"
  const PhoneRequired: string := "Phone number is required"
  const PhoneInvalid: string := "Please enter a valid 10-digit phone number"
  const AddressRequired: string := "Address is required"
  const CityRequired: string := "City is required"
  const PincodeRequired: string := "Pincode is required"
  const PincodeInvalid: string := "Please enter a valid 6-digit pincode"

  /** The form starts with the signed-in user's name, everything else empty. */
  function InitialAddress(user: Option<User>): (a: Address)
    ensures a.phone == "" && a.address == "" && a.city == "" && a.pincode == ""
    ensures a.name == (if user.Some? then user.value.name else "")
  {
    Address(if user.Some? then user.value.name else "", "", "", "", "")
  }

  /** The totals: the charged total is the subtotal itself; a tenth of it is
      shown as tax and `originalTotal` is what it would have been with tax. */
  function Handover(a: Address, items: seq<CartItem>): (s: PaymentState)
    ensures s.shippingAddress == a && s.total == CartContext.CartTotal(items)
  {
    var subtotal := CartContext.CartTotal(items);
    var tax := subtotal as real * 0.1;
    PaymentState(a, subtotal, tax, subtotal, subtotal as real + tax)
  }

  /** Tax is recorded, never charged. */
  lemma HandoverTotals(a: Address, items: seq<CartItem>)
    ensures Handover(a, items).total == Handover(a, items).subtotal == CartContext.CartTotal(items)
    ensures Handover(a, items).tax * 10.0 == Handover(a, items).subtotal as real
    ensures Handover(a, items).originalTotal == Handover(a, items).total as real * 1.1
    ensures Handover(a, items).shippingAddress == a
  {
  }

  predicate ValidPhone(phone: string)
    ensures ValidPhone(phone) ==> 10 <= |phone|
  {
    var d := RemoveSpaces(phone);
    |d| == 10 && AllDigits(d)
  }

  predicate ValidPincode(pincode: string)
    ensures ValidPincode(pincode) ==> NoSpaces(pincode)
  {
    |pincode| == 6 && AllDigits(pincode)
  }

  /** `validateForm`: the error object built field by field. A test
      `!s.trim()` is written `IsBlank(s)` (see `Text.TrimEmptyIffBlank`). */
  function ShippingErrors(a: Address): (errs: map<Field, string>)
    ensures errs.Keys <= {NameField, PhoneField, AddressField, CityField, PincodeField}
  {
    var e0: map<Field, string> := map[];
    var e1 := Note(e0, IsBlank(a.name), NameField, NameRequired);
    var e2 := if IsBlank(a.phone) then e1[PhoneField := PhoneRequired]
              else Note(e1, !ValidPhone(a.phone), PhoneField, PhoneInvalid);
    var e3 := Note(e2, IsBlank(a.address), AddressField, AddressRequired);
    var e4 := Note(e3, IsBlank(a.city), CityField, CityRequired);
    if IsBlank(a.pincode) then e4[PincodeField := PincodeRequired]
    else Note(e4, !ValidPincode(a.pincode), PincodeField, PincodeInvalid)
  }

  /** Which fields fail and with which message: name, address and city must
      not be blank; the phone must be ten ASCII digits once all white space is
      removed; the pincode must be exactly six ASCII digits as typed. */
  lemma ShippingErrorsSpec(a: Address)
    ensures NameField in ShippingErrors(a) <==> IsBlank(a.name)
    ensures AddressField in ShippingErrors(a) <==> IsBlank(a.address)
    ensures CityField in ShippingErrors(a) <==> IsBlank(a.city)
    ensures PhoneField in ShippingErrors(a) <==> !ValidPhone(a.phone)
    ensures PincodeField in ShippingErrors(a) <==> !ValidPincode(a.pincode)
    ensures NameField in ShippingErrors(a) ==> ShippingErrors(a)[NameField] == NameRequired
    ensures AddressField in ShippingErrors(a) ==> ShippingErrors(a)[AddressField] == AddressRequired
    ensures CityField in ShippingErrors(a) ==> ShippingErrors(a)[CityField] == CityRequired
    ensures PhoneField in ShippingErrors(a) ==>
      ShippingErrors(a)[PhoneField] == if IsBlank(a.phone) then PhoneRequired else PhoneInvalid
    ensures PincodeField in ShippingErrors(a) ==>
      ShippingErrors(a)[PincodeField] == if IsBlank(a.pincode) then PincodeRequired else PincodeInvalid
  {
    if IsBlank(a.phone) {
      RemoveSpacesOfBlank(a.phone);
    }
    if IsBlank(a.pincode) && a.pincode != [] {
      BlankIsNotDigits(a.pincode);
    }
  }

  /** The form is valid exactly when every field passes. */
  lemma ShippingValidIff(a: Address)
    ensures ShippingErrors(a) == map[] <==>
      !IsBlank(a.name) && !IsBlank(a.address) && !IsBlank(a.city)
      && ValidPhone(a.phone) && ValidPincode(a.pincode)
  {
    ShippingErrorsSpec(a);
    if ShippingErrors(a) != map[] {
      var k :| k in ShippingErrors(a);
    }
  }

  /** `handleSubmit` behind the empty-cart guard: an empty cart sends the
      visitor back to the cart; an invalid form shows its errors; otherwise
      the payment page receives the address and the totals. */
  function Submit(items: seq<CartItem>, a: Address): (step: CheckoutStep)
    ensures items == [] ==> step == RedirectToCart
    ensures step.ToPayment? <==> items != [] && ShippingErrors(a) == map[]
    ensures step.ShowErrors? ==> step.errors == ShippingErrors(a) && step.errors != map[]
    ensures step.ToPayment? ==> step.state == Handover(a, items) && step.state.total == CartContext.CartTotal(items)
  {
    if items == [] then RedirectToCart
    else if ShippingErrors(a) != map[] then ShowErrors(ShippingErrors(a))
    else ToPayment(Handover(a, items))
  }

  /** Ten digits typed without spaces are a valid phone number. */
  lemma DigitPhoneValid(phone: string)
    requires |phone| == 10 && AllDigits(phone)
    ensures ValidPhone(phone)
  {
    DigitsHaveNoSpaces(phone);
    RemoveSpacesOfNoSpaces(phone);
  }

  /** The pincode is checked as typed: a leading space makes it invalid. */
  lemma SamplePincodeWithSpace(a: Address)
    requires a.pincode == " 411001"
    ensures PincodeField in ShippingErrors(a) && ShippingErrors(a)[PincodeField] == PincodeInvalid
  {
    ShippingErrorsSpec(a);
    assert !IsDigit(a.pincode[0]);
    assert !IsSpace(a.pincode[1]);
  }
}
