/** `onPaymentDataChangedGooglePay`: the callback Google Pay calls when the
    shopper picks a courier or changes the address, and the update it
    answers with. Nothing escapes it: a failure comes back as the update's
    `error`. */
module GoogleRouting {
  import opened CheckoutTypes
  import opened Text
  import opened ProviderShapes

  /** What the address path answers with: the new total as text and the
      courier options for the new address. */
  datatype GoogleContactResult = GoogleContactResult(totalPrice: string, shippingOptions: GoogleShippingOptions)

  /** The address Google Pay reports; `countryCode` is `None` when absent. */
  datatype ShippingAddress = ShippingAddress(countryCode: Option<string>)

  /** The callback's argument: `shippingAddress` is `None` when null or
      absent, `shippingOptionId` is `None` when there is no
      `shippingOptionData` to read it from. */
  datatype IntermediatePaymentData =
    IntermediatePaymentData(shippingAddress: Option<ShippingAddress>, callbackTrigger: string, shippingOptionId: Option<string>)

  const ShippingOptionTrigger: string := "SHIPPING_OPTION"

  /** The courier path is taken without an address or when the shopper
      picked an option; every other call takes the address path. */
  predicate CourierPath(input: IntermediatePaymentData) {
    input.shippingAddress.None? || input.callbackTrigger == ShippingOptionTrigger
  }

  /** `error.message` of a thrown value: the message of a coded error, the
      engine's own text for an engine error, `undefined` for a bare
      string. */
  datatype ErrorMessage = Message(text: string) | Undefined | EngineMessage(kind: EngineErrorKind)

  function MessageOf(t: Thrown): (m: ErrorMessage)
    ensures t.Coded? <==> m.Message?
    ensures t.Coded? ==> m.text == t.message
    ensures t.Text? <==> m.Undefined?
  {
    match t
    case Coded(_, msg) => Message(msg)
    case Text(_) => Undefined
    case EngineError(k) => EngineMessage(k)
  }

  /** A named string property of a thrown value: a coded error has
      `errorType` and `message`, an engine error its `name`, a bare string
      none. */
  function Property(t: Thrown, name: string): (p: Option<string>)
    ensures p.Some? ==> name == "errorType" || name == "message" || name == "name"
  {
    match t
    case Coded(errorType, msg) =>
      if name == "errorType" then Some(errorType) else if name == "message" then Some(msg) else None
    case Text(_) => None
    case EngineError(k) => if name == "name" then Some(if k == TypeError then "TypeError" else "SyntaxError") else None
  }

  /** `error.type` of a thrown value: no thrown value has it, so it is
      always `undefined`. */
  function TypeProperty(t: Thrown): (p: Option<string>)
    ensures p.None?
  {
    Property(t, "type")
  }

  datatype Reason = ShippingOptionInvalid | OtherError
  datatype Intent = ShippingOptionIntent | ShippingAddressIntent

  datatype PaymentDataError = PaymentDataError(reason: Reason, intent: Intent, message: ErrorMessage)

  datatype UpdateData = NewTransactionInfo(totalPrice: string) | ContactData(result: GoogleContactResult)

  /** The `{data, error}` object the callback resolves to. */
  datatype PaymentDataUpdate = PaymentDataUpdate(data: Option<UpdateData>, error: Option<PaymentDataError>)

  /** The reason the courier path reports for a failed `deliveryChanged`:
      invalid option when the error's `type` names it, any other error
      otherwise. As no thrown value has a `type`, it is always the other
      error, even for `SelectedDeliveryInvalid`. */
  function OptionReason(t: Thrown): (r: Reason)
    ensures r == OtherError
  {
    if TypeProperty(t) == Some("selectedDeliveryInvalid") then ShippingOptionInvalid else OtherError
  }

  /** The update of the courier path, given how `deliveryChanged` ended:
      the new total as text, or the error with the option intent. */
  function CourierUpdate(c: Completion<int>): (u: PaymentDataUpdate)
    ensures u.data.Some? <==> c.Normal?
    ensures u.error.Some? <==> c.Abrupt?
    ensures c.Normal? ==> u.data.value == NewTransactionInfo(AmountToString(c.value))
    ensures c.Abrupt? ==> u.error.value.intent == ShippingOptionIntent && u.error.value.message == MessageOf(c.thrown)
  {
    match c
    case Normal(total) => PaymentDataUpdate(Some(NewTransactionInfo(AmountToString(total))), None)
    case Abrupt(t) => PaymentDataUpdate(None, Some(PaymentDataError(OptionReason(t), ShippingOptionIntent, MessageOf(t))))
  }

  /** The update of the address path, given how the contact change ended. */
  function AddressUpdate(c: Completion<GoogleContactResult>): (u: PaymentDataUpdate)
    ensures u.data.Some? <==> c.Normal?
    ensures u.error.Some? <==> c.Abrupt?
    ensures c.Normal? ==> u.data.value == ContactData(c.value)
    ensures c.Abrupt? ==> u.error.value == PaymentDataError(OtherError, ShippingAddressIntent, MessageOf(c.thrown))
  {
    match c
    case Normal(res) => PaymentDataUpdate(Some(ContactData(res)), None)
    case Abrupt(t) => PaymentDataUpdate(None, Some(PaymentDataError(OtherError, ShippingAddressIntent, MessageOf(t))))
  }

  /** Whatever `deliveryChanged` throws, the courier path reports
      `OTHER_ERROR`: an unknown courier is not reported as an invalid
      option, because the reason is read from `type` while the error
      carries `errorType`. */
  lemma CourierErrorsAreOther(c: Completion<int>)
    requires c.Abrupt?
    ensures CourierUpdate(c).error.value.reason == OtherError
    ensures c.thrown == SelectedDeliveryInvalid ==>
              CourierUpdate(c).error.value.message == Message("Can't find selected deliverier from external COP")
    ensures Property(SelectedDeliveryInvalid, "errorType") == Some("selectedDeliveryInvalid")
  {
  }
}
