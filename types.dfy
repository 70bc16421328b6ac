/** Values shared by every part of the express-checkout model: backend replies,
    thrown JavaScript values and the record of calls the handlers make. */
module CheckoutTypes {

  datatype Option<+T> = None | Some(value: T)

  /** The three payment systems (`expressCheckoutSystemsNames`). */
  datatype System = ApplePay | PayPal | GooglePay

  /** `availableModes`: buy one product, or the whole basket. */
  datatype Mode = Product | Basket

  /** One entry of the backend's shipping list. `cost` is in minor units
      (cents); `prepaid` is `None` when the entry has no such field, as in
      the placeholder courier. */
  datatype Shipping = Shipping(courierId: int, courierName: string, prepaid: Option<string>, cost: int)

  /** A country of the shop's catalogue: its region id and ISO code. */
  datatype Region = Region(id: int, iso: string)

  /** `countries.data.shop.countries`; `available` and `current` are `None`
      where the backend answers null. */
  datatype Catalog = Catalog(available: Option<seq<Region>>, current: Option<Region>)

  /** The reply of `getAvailableCountries`; `data` is `None` when the reply
      has no `data` field. */
  datatype CountriesReply = CountriesReply(data: Option<Catalog>)

  /** What the code reads of a fetched basket: its gross worth, in cents. */
  datatype BasketSnapshot = BasketSnapshot(gross: int)

  /** The fields of `paymentSystemInitialData` that the core reads. */
  datatype InitData = InitData(currencyFromSession: string, currencySign: string,
                               freeShippingLabel: string, mid: string, merchantLabel: string)

  /** The answer of `createPayment` for Google Pay: an error number and the
      initial data. */
  datatype PaymentSystemData = PaymentSystemData(errno: int, init: InitData)

  /** The kinds of error the JavaScript engine itself raises here. */
  datatype EngineErrorKind = TypeError | SyntaxError

  /** A thrown JavaScript value: an object literal `{errorType, message}`,
      a bare string, or an error raised by the engine (reading a property
      of null or undefined, parsing text that is not JSON). */
  datatype Thrown =
    | Coded(errorType: string, message: string)
    | Text(text: string)
    | EngineError(kind: EngineErrorKind)

  /** How a call ends: normally with a value, or by throwing. */
  datatype Completion<+T> = Normal(value: T) | Abrupt(thrown: Thrown)

  /** A call from the core to the backend, to a collaborator or to the
      page's error display, in the order it is made. */
  datatype Effect =
    | FetchInitData(system: System)
    | CreatePayment(system: System)
    | AddProductToBasket
    | GetBasket
    | GetCountries
    | DeleteCourier
    | GetDeliveries(region: int)
    | SaveCourier(courierId: int, system: System, amount: Option<int>, currency: Option<string>)
    | UpdateOrderParams(region: int, options: seq<Shipping>)
    | DisplayError

  const SuccessStatus: string := "success"

  /** The courier `setDefaultDeliverie` installs before any address is known. */
  const Placeholder: Shipping := Shipping(1, "...", None, 0)

  const SelectedDeliveryInvalid: Thrown :=
    Coded("selectedDeliveryInvalid", "Can't find selected deliverier from external COP")

  const SaveFailed: Thrown := Coded("unknown", "Can't save selected deliverier")
}
