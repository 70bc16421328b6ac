/** The checkout session: the object `expressCheckoutApi` keeps between
    the callbacks of Apple Pay and Google Pay. Backend answers are
    parameters of the operations; the calls made to the backend and to the
    error display are recorded, in order, in `trace`. */
module Session {
  import opened CheckoutTypes
  import opened Text
  import opened DeliveryCatalog
  import opened RegionResolver
  import opened ProviderShapes
  import opened Cookies
  import opened InitCache
  import opened GoogleRouting

  /** The text thrown when Apple Pay's contact change cannot save the
      courier. */
  const SaveFailedText: string := "Can't save selected deliverier"

  /** The text thrown when Google Pay's initial data reports an error. */
  const InitErrorText: string := "Init error"

  // Pieces shared by the two contact changes

  /** The calls of the lazy basket fetch: adding the product first in
      product mode, then reading the basket; none once the flag is off. */
  function BasketFetchEffects(first: bool, mode: Option<Mode>): (e: seq<Effect>)
    ensures GetBasket in e <==> first
    ensures AddProductToBasket in e <==> first && mode == Some(Product)
    ensures first && mode == Some(Product) ==> e == [AddProductToBasket, GetBasket]
    ensures first && mode != Some(Product) ==> e == [GetBasket]
  {
    if first then (if mode == Some(Product) then [AddProductToBasket] else []) + [GetBasket] else []
  }

  /** The basket after the lazy fetch. */
  function BasketAfter(first: bool, basket: Option<BasketSnapshot>, reply: Option<BasketSnapshot>): Option<BasketSnapshot> {
    if first then reply else basket
  }

  /** The total of a contact change: basket gross plus the first courier. */
  function ContactWorth(basket: Option<BasketSnapshot>, shaped: seq<Shipping>): Option<int> {
    if basket.Some? && shaped != [] then Some(basket.value.gross + shaped[0].cost) else None
  }

  // deliveryChanged

  /** How `deliveryChanged` ends for the session's deliveries, basket and
      initial data. */
  function DeliveryChangeOutcome(deliveries: Option<seq<Shipping>>, basket: Option<BasketSnapshot>,
                                 init: Option<InitData>, selectedId: string, saveStatus: string): (r: Completion<int>)
    ensures r == Abrupt(SelectedDeliveryInvalid) <==>
              deliveries.Some? && FirstWithId(deliveries.value, selectedId).None?
    ensures r == Abrupt(SaveFailed) <==>
              deliveries.Some? && FirstWithId(deliveries.value, selectedId).Some? &&
              basket.Some? && init.Some? && saveStatus != SuccessStatus
    ensures r.Normal? <==>
              deliveries.Some? && FirstWithId(deliveries.value, selectedId).Some? &&
              basket.Some? && init.Some? && saveStatus == SuccessStatus
    ensures r.Normal? ==>
              r.value == basket.value.gross + deliveries.value[FirstWithId(deliveries.value, selectedId).value].cost
  {
    if deliveries.None? then Abrupt(EngineError(TypeError))
    else
      var k := FirstWithId(deliveries.value, selectedId);
      if k.None? then Abrupt(SelectedDeliveryInvalid)
      else if basket.None? || init.None? then Abrupt(EngineError(TypeError))
      else if saveStatus != SuccessStatus then Abrupt(SaveFailed)
      else Normal(basket.value.gross + deliveries.value[k.value].cost)
  }

  /** The total `deliveryChanged` stores, once it has found the courier
      and read the basket. */
  function DeliveryChangeWorth(deliveries: Option<seq<Shipping>>, basket: Option<BasketSnapshot>, selectedId: string): Option<int> {
    if deliveries.None? || basket.None? then None
    else
      var k := FirstWithId(deliveries.value, selectedId);
      if k.None? then None else Some(basket.value.gross + deliveries.value[k.value].cost)
  }

  /** The calls of `deliveryChanged`: the save of the found courier, with
      the new total and the session's currency. */
  function DeliveryChangeEffects(deliveries: Option<seq<Shipping>>, basket: Option<BasketSnapshot>,
                                 init: Option<InitData>, selectedId: string, system: System): seq<Effect> {
    var worth := DeliveryChangeWorth(deliveries, basket, selectedId);
    if worth.None? || init.None? then []
    else [SaveCourier(deliveries.value[FirstWithId(deliveries.value, selectedId).value].courierId, system, worth,
                      Some(init.value.currencyFromSession))]
  }

  /** Picking the courier the list offers first, once the session has a
      basket and initial data and the save succeeds, costs the basket plus
      that courier. */
  lemma PickingFirstCourier(d: seq<Shipping>, basket: BasketSnapshot, init: InitData)
    requires d != []
    ensures DeliveryChangeOutcome(Some(d), Some(basket), Some(init), IntToString(d[0].courierId), SuccessStatus)
            == Normal(basket.gross + d[0].cost)
  {
  }

  /** A basket of 99.99 with a free courier 1 and courier 2 at 9.99: the
      free courier already leads, so the list stands; picking courier 2
      totals 109.98, which Google Pay is told as "109.98". */
  lemma PickingSecondCourierExample(init: InitData)
    ensures var d := [Shipping(1, "A", Some("prepaid"), 0), Shipping(2, "B", Some("prepaid"), 999)];
            Shaped(d) == d &&
            DeliveryChangeOutcome(Some(Shaped(d)), Some(BasketSnapshot(9999)), Some(init), "2", SuccessStatus) == Normal(10998) &&
            AmountToString(10998) == "109.98"
  {
    ExampleListStands();
    ExampleSecondPicked(init);
    ExampleTotalText();
  }

  lemma ExampleListStands()
    ensures var d := [Shipping(1, "A", Some("prepaid"), 0), Shipping(2, "B", Some("prepaid"), 999)];
            Shaped(d) == d
  {
    var a := Shipping(1, "A", Some("prepaid"), 0);
    var b := Shipping(2, "B", Some("prepaid"), 999);
    var d := [a, b];
    assert d[..1] == [a] && [a][..0] == [];
    assert Keep([a]) == [a];
    assert Keep(d) == d;
    assert CheapestIndex(d) == 0;
  }

  lemma ExampleSecondPicked(init: InitData)
    ensures var d := [Shipping(1, "A", Some("prepaid"), 0), Shipping(2, "B", Some("prepaid"), 999)];
            DeliveryChangeOutcome(Some(d), Some(BasketSnapshot(9999)), Some(init), "2", SuccessStatus) == Normal(10998)
  {
    var d := [Shipping(1, "A", Some("prepaid"), 0), Shipping(2, "B", Some("prepaid"), 999)];
    assert IntToString(1) == "1" && IntToString(2) == "2";
    assert FirstWithId(d[1..], "2") == Some(0);
    assert FirstWithId(d, "2") == Some(1);
  }

  lemma ExampleTotalText()
    ensures AmountToString(10998) == "109.98"
  {
    assert NatToString(109) == "109" by {
      assert NatToString(10) == "10";
    }
    assert TwoDigits(98) == "98";
  }

  /** The answer of `deliveryChangedApplePay`: the new total, or the
      message it throws. */
  datatype AppleOptionAnswer = NewTotal(amount: int) | Failed(message: ErrorMessage)

  // The Apple Pay contact change

  /** The answer of Apple Pay's contact change: the new total and the
      couriers, or the `shippingContactInvalid` rejection with the last
      known total. */
  datatype AppleContactResult =
    | AppleAccepted(total: int, methods: seq<AppleShippingMethod>)
    | AppleRejected(lastTotal: Option<int>)

  /** How Apple Pay's contact change ends, for the basket after the lazy
      fetch, the resolved region and the fetched deliveries. */
  function AppleContactOutcome(basket: Option<BasketSnapshot>, lastWorth: Option<int>, init: Option<InitData>,
                               region: Completion<int>, shaped: seq<Shipping>, saveStatus: string): (r: Completion<AppleContactResult>)
    ensures region == Normal(0) ==> r == Normal(AppleRejected(lastWorth))
    ensures region.Abrupt? ==> r == Abrupt(region.thrown)
    ensures r.Normal? && r.value.AppleAccepted? <==>
              region.Normal? && region.value != 0 && shaped != [] &&
              basket.Some? && init.Some? && saveStatus == SuccessStatus
    ensures r.Normal? && r.value.AppleAccepted? ==>
              r.value.total == basket.value.gross + shaped[0].cost &&
              Some(r.value.methods) == AppleShippingMethods(Some(shaped))
    ensures region.Normal? ==>
              (r == Abrupt(Text(SaveFailedText)) <==>
               region.value != 0 && shaped != [] && basket.Some? && init.Some? && saveStatus != SuccessStatus)
  {
    if region.Abrupt? then Abrupt(region.thrown)
    else if region.value == 0 then Normal(AppleRejected(lastWorth))
    else
      if shaped == [] || basket.None? || init.None? then Abrupt(EngineError(TypeError))
      else if saveStatus != SuccessStatus then Abrupt(Text(SaveFailedText))
      else Normal(AppleAccepted(basket.value.gross + shaped[0].cost, AppleShippingMethods(Some(shaped)).value))
  }

  /** The calls both contact changes make once they have a region: the
      courier fetch, then, when the first courier, the basket and the
      initial data are there, its save, and the error display when the
      save fails. */
  function SaveFirstEffects(system: System, basket: Option<BasketSnapshot>, init: Option<InitData>,
                            region: int, shaped: seq<Shipping>, saveStatus: string): (e: seq<Effect>)
    ensures |e| > 0 && e[0] == GetDeliveries(region)
    ensures (exists k :: 0 <= k < |e| && e[k].SaveCourier?) <==> shaped != [] && basket.Some? && init.Some?
    ensures shaped != [] && basket.Some? && init.Some? ==>
              e[1] == SaveCourier(shaped[0].courierId, system, Some(basket.value.gross + shaped[0].cost),
                                  Some(init.value.currencyFromSession)) &&
              (saveStatus == SuccessStatus ==> |e| == 2) &&
              (saveStatus != SuccessStatus ==> |e| == 3 && e[2] == DisplayError)
  {
    var e := [GetDeliveries(region)] +
      if shaped == [] || basket.None? || init.None? then []
      else
        [SaveCourier(shaped[0].courierId, system, Some(basket.value.gross + shaped[0].cost), Some(init.value.currencyFromSession))] +
        (if saveStatus != SuccessStatus then [DisplayError] else []);
    assert shaped != [] && basket.Some? && init.Some? ==> e[1].SaveCourier?;
    e
  }

  /** The calls of Apple Pay's contact change after the lazy basket
      fetch: the countries are read first. */
  function AppleContactEffects(basket: Option<BasketSnapshot>, init: Option<InitData>,
                               region: Completion<int>, shaped: seq<Shipping>, saveStatus: string): (e: seq<Effect>)
    ensures |e| > 0 && e[0] == GetCountries
    ensures (exists rg :: GetDeliveries(rg) in e) <==> region.Normal? && region.value != 0
  {
    var e := [GetCountries] + AppleRegionEffects(basket, init, region, shaped, saveStatus);
    assert region.Normal? && region.value != 0 ==> e[1] == GetDeliveries(region.value);
    e
  }

  /** The calls of Apple Pay's contact change once the region is known:
      none for an unsupported country. */
  function AppleRegionEffects(basket: Option<BasketSnapshot>, init: Option<InitData>,
                              region: Completion<int>, shaped: seq<Shipping>, saveStatus: string): seq<Effect> {
    if region.Abrupt? || region.value == 0 then []
    else SaveFirstEffects(ApplePay, basket, init, region.value, shaped, saveStatus)
  }

  /** An unsupported country stops Apple Pay's contact change after the
      countries are read: no courier is fetched or saved. */
  lemma AppleRegionZeroStops(basket: Option<BasketSnapshot>, init: Option<InitData>,
                             shaped: seq<Shipping>, saveStatus: string)
    ensures AppleContactEffects(basket, init, Normal(0), shaped, saveStatus) == [GetCountries]
  {
  }

  /** When the shop offers couriers with distinct ids, the total an
      accepted contact change quotes is the basket plus the cheapest
      offerable courier, and that courier is the one saved. */
  lemma ContactQuotesCheapest(basket: BasketSnapshot, deliveriesReply: seq<Shipping>)
    requires Keep(deliveriesReply) != []
    requires forall i, j :: 0 <= i < j < |Keep(deliveriesReply)| ==>
               Keep(deliveriesReply)[i].courierId != Keep(deliveriesReply)[j].courierId
    ensures ContactWorth(Some(basket), Shaped(deliveriesReply)).Some?
    ensures Offerable(Shaped(deliveriesReply)[0])
    ensures forall e :: e in Keep(deliveriesReply) ==>
              ContactWorth(Some(basket), Shaped(deliveriesReply)).value <= basket.gross + e.cost
  {
    ShapedCheapestFirst(deliveriesReply);
    ShapedIsOfferable(deliveriesReply);
    var shaped := Shaped(deliveriesReply);
    assert |shaped| > 0 by {
      assert |Keep(deliveriesReply)| > 0;
    }
    assert shaped[0] in shaped;
  }

  // The Google Pay contact change

  /** The region Google Pay's contact change resolves from the stored
      countries reply (reading `data` of a missing reply throws). */
  function GoogleRegion(countries: Option<CountriesReply>, address: ShippingAddress): Completion<int> {
    if countries.None? then Abrupt(EngineError(TypeError))
    else RegionOf(countries.value.data, address.countryCode, AvailableOnly)
  }

  /** How Google Pay's contact change ends. */
  function GoogleContactOutcome(basket: Option<BasketSnapshot>, init: Option<InitData>,
                                region: Completion<int>, shaped: seq<Shipping>, saveStatus: string): (r: Completion<GoogleContactResult>)
    ensures region.Abrupt? ==> r == Abrupt(region.thrown)
    ensures r.Normal? <==>
              region.Normal? && shaped != [] && basket.Some? && init.Some? && saveStatus == SuccessStatus
    ensures r.Normal? ==>
              r.value.totalPrice == AmountToString(basket.value.gross + shaped[0].cost) &&
              Normal(Some(r.value.shippingOptions)) == GoogleShippingOptionsOf(Some(shaped), init)
    ensures region.Normal? ==>
              (r == Abrupt(SaveFailed) <==>
               shaped != [] && basket.Some? && init.Some? && saveStatus != SuccessStatus)
  {
    if region.Abrupt? then Abrupt(region.thrown)
    else
      var options := GoogleShippingOptionsOf(Some(shaped), init);
      if options.Abrupt? then Abrupt(options.thrown)
      else if basket.None? then Abrupt(EngineError(TypeError))
      else if saveStatus != SuccessStatus then Abrupt(SaveFailed)
      else Normal(GoogleContactResult(AmountToString(basket.value.gross + shaped[0].cost), options.value.value))
  }

  /** The calls of Google Pay's contact change after the lazy basket
      fetch: the stored countries are used, so none are fetched. */
  function GoogleContactEffects(basket: Option<BasketSnapshot>, init: Option<InitData>,
                                region: Completion<int>, shaped: seq<Shipping>, saveStatus: string): (e: seq<Effect>)
    ensures GetCountries !in e
    ensures region.Normal? ==> |e| > 0 && e[0] == GetDeliveries(region.value)
  {
    if region.Abrupt? then []
    else SaveFirstEffects(GooglePay, basket, init, region.value, shaped, saveStatus)
  }

  /** Unlike the other providers, Google Pay does not stop on an
      unsupported country: it fetches couriers for region 0 and goes on. */
  lemma GoogleRegionZeroGoesOn(basket: BasketSnapshot, init: InitData, shaped: seq<Shipping>)
    requires shaped != []
    ensures GoogleContactEffects(Some(basket), Some(init), Normal(0), shaped, SuccessStatus)[0] == GetDeliveries(0)
    ensures GoogleContactOutcome(Some(basket), Some(init), Normal(0), shaped, SuccessStatus).Normal?
  {
  }

  // Google Pay's initial data

  /** What `initGooglePay` returns: the placeholder courier as the default
      option, the countries Google Pay may offer and the transaction. */
  datatype GoogleInitResult = GoogleInitResult(defaultShippingOptions: GoogleShippingOptions,
                                               shippingAddressParameters: ShippingAddressParameters,
                                               currencyCode: string, totalPrice: int, mid: string, title: string)

  /** What Apple Pay's session is started with: the couriers, the
      currency and the merchant label. */
  datatype AppleInitResult = AppleInitResult(methods: seq<AppleShippingMethod>, currency: string, title: string)

  /** The scan of `deliveryChanged`: the index of the first courier whose
      id, as text, is the selected one. */
  method FindCourier(shipping: seq<Shipping>, selectedId: string) returns (selected: Option<nat>)
    ensures selected == FirstWithId(shipping, selectedId)
  {
    selected := None;
    var i := 0;
    while i < |shipping|
      invariant 0 <= i <= |shipping|
      invariant forall j :: 0 <= j < i ==> !Selects(shipping[j], selectedId)
    {
      if Selects(shipping[i], selectedId) {
        FirstSelected(shipping, selectedId, i);
        return Some(i);
      }
      i := i + 1;
    }
  }

  class CheckoutSession {
    var mode: Option<Mode>
    var paymentSystemInitialData: Option<InitData>
    var availableCountries: Option<CountriesReply>
    var deliveries: Option<seq<Shipping>>
    var basket: Option<BasketSnapshot>
    var lastBasketWorth: Option<int>
    var firstDeliveryContactChange: bool
    ghost var trace: seq<Effect>

    /** A fresh session: every field empty, the flag off. */
    constructor()
      ensures mode.None? && paymentSystemInitialData.None? && availableCountries.None?
      ensures deliveries.None? && basket.None? && lastBasketWorth.None?
      ensures !firstDeliveryContactChange && trace == []
    {
      mode := None;
      paymentSystemInitialData := None;
      availableCountries := None;
      deliveries := None;
      basket := None;
      lastBasketWorth := None;
      firstDeliveryContactChange := false;
      trace := [];
    }

    /** `renderApplePayButton`: remembers the mode and fetches the initial
        data before any click. */
    method RenderApplePayButton(m: Mode, fetched: Option<InitData>)
      modifies this
      ensures mode == Some(m) && paymentSystemInitialData == fetched
      ensures trace == old(trace) + [FetchInitData(ApplePay)]
      ensures availableCountries == old(availableCountries) && deliveries == old(deliveries)
      ensures basket == old(basket) && lastBasketWorth == old(lastBasketWorth)
      ensures firstDeliveryContactChange == old(firstDeliveryContactChange)
    {
      mode := Some(m);
      trace := trace + [FetchInitData(ApplePay)];
      paymentSystemInitialData := fetched;
    }

    /** `renderGooglePayButton`: remembers the mode. */
    method RenderGooglePayButton(m: Mode)
      modifies this
      ensures mode == Some(m)
      ensures paymentSystemInitialData == old(paymentSystemInitialData) && availableCountries == old(availableCountries)
      ensures deliveries == old(deliveries) && basket == old(basket) && lastBasketWorth == old(lastBasketWorth)
      ensures firstDeliveryContactChange == old(firstDeliveryContactChange) && trace == old(trace)
    {
      mode := Some(m);
    }

    /** `setDefaultDeliverie`: the placeholder courier, alone. */
    method SetDefaultDeliverie()
      modifies this
      ensures deliveries == Some([Placeholder])
      ensures mode == old(mode) && paymentSystemInitialData == old(paymentSystemInitialData)
      ensures availableCountries == old(availableCountries) && basket == old(basket)
      ensures lastBasketWorth == old(lastBasketWorth)
      ensures firstDeliveryContactChange == old(firstDeliveryContactChange) && trace == old(trace)
    {
      deliveries := Some([Placeholder]);
    }

    /** `getBasketWorth`: the basket plus the courier, kept as the last
        known total. */
    method GetBasketWorth(basketWorth: int, deliveryWorth: int) returns (worth: int)
      modifies this
      ensures worth == basketWorth + deliveryWorth && lastBasketWorth == Some(worth)
      ensures mode == old(mode) && paymentSystemInitialData == old(paymentSystemInitialData)
      ensures availableCountries == old(availableCountries) && deliveries == old(deliveries) && basket == old(basket)
      ensures firstDeliveryContactChange == old(firstDeliveryContactChange) && trace == old(trace)
    {
      worth := basketWorth + deliveryWorth;
      lastBasketWorth := Some(worth);
    }

    /** `deliveryChanged`: finds the picked courier by its id's text,
        stores the new total and saves the courier. */
    method DeliveryChanged(selectedId: string, system: System, saveStatus: string) returns (r: Completion<int>)
      modifies this
      ensures mode == old(mode) && paymentSystemInitialData == old(paymentSystemInitialData)
      ensures availableCountries == old(availableCountries) && deliveries == old(deliveries) && basket == old(basket)
      ensures firstDeliveryContactChange == old(firstDeliveryContactChange)
      ensures r == DeliveryChangeOutcome(deliveries, basket, paymentSystemInitialData, selectedId, saveStatus)
      ensures r.Normal? ==> lastBasketWorth == Some(r.value)
      ensures lastBasketWorth == (if DeliveryChangeWorth(deliveries, basket, selectedId).Some?
                                  then DeliveryChangeWorth(deliveries, basket, selectedId) else old(lastBasketWorth))
      ensures trace == old(trace) + DeliveryChangeEffects(deliveries, basket, paymentSystemInitialData, selectedId, system)
    {
      ghost var ds, b, init := deliveries, basket, paymentSystemInitialData;
      if deliveries.None? {
        assert DeliveryChangeEffects(ds, b, init, selectedId, system) == [];
        return Abrupt(EngineError(TypeError));
      }
      var shipping := deliveries.value;
      var selected := FindCourier(shipping, selectedId);
      if selected.None? {
        assert DeliveryChangeOutcome(ds, b, init, selectedId, saveStatus) == Abrupt(SelectedDeliveryInvalid);
        assert DeliveryChangeWorth(ds, b, selectedId).None?;
        assert DeliveryChangeEffects(ds, b, init, selectedId, system) == [];
        return Abrupt(SelectedDeliveryInvalid);
      }
      if basket.None? {
        assert DeliveryChangeOutcome(ds, b, init, selectedId, saveStatus) == Abrupt(EngineError(TypeError));
        assert DeliveryChangeWorth(ds, b, selectedId).None?;
        assert DeliveryChangeEffects(ds, b, init, selectedId, system) == [];
        return Abrupt(EngineError(TypeError));
      }
      var courier := shipping[selected.value];
      assert DeliveryChangeWorth(ds, b, selectedId) == Some(b.value.gross + courier.cost);
      r := SaveFoundCourier(courier, system, saveStatus);
      assert deliveries == ds && basket == b && paymentSystemInitialData == init;
    }

    /** The end of `deliveryChanged` once the courier is found and the
        basket read: the new total is stored, then the courier saved. */
    method SaveFoundCourier(courier: Shipping, system: System, saveStatus: string) returns (r: Completion<int>)
      requires basket.Some?
      modifies this
      ensures mode == old(mode) && paymentSystemInitialData == old(paymentSystemInitialData)
      ensures availableCountries == old(availableCountries) && deliveries == old(deliveries) && basket == old(basket)
      ensures firstDeliveryContactChange == old(firstDeliveryContactChange)
      ensures lastBasketWorth == Some(basket.value.gross + courier.cost)
      ensures paymentSystemInitialData.None? ==> r == Abrupt(EngineError(TypeError)) && trace == old(trace)
      ensures paymentSystemInitialData.Some? ==>
                trace == old(trace) + [SaveCourier(courier.courierId, system, lastBasketWorth,
                                                   Some(paymentSystemInitialData.value.currencyFromSession))] &&
                r == (if saveStatus == SuccessStatus then Normal(lastBasketWorth.value) else Abrupt(SaveFailed))
    {
      var worth := GetBasketWorth(basket.value.gross, courier.cost);
      if paymentSystemInitialData.None? {
        return Abrupt(EngineError(TypeError));
      }
      trace := trace + [SaveCourier(courier.courierId, system, Some(worth), Some(paymentSystemInitialData.value.currencyFromSession))];
      if saveStatus != SuccessStatus {
        return Abrupt(SaveFailed);
      }
      r := Normal(worth);
    }

    /** `deliveryChangedApplePay`: `deliveryChanged` for Apple Pay; a
        failure shows the error and is passed on as its message. */
    method DeliveryChangedApplePay(identifier: string, saveStatus: string) returns (r: AppleOptionAnswer)
      modifies this
      ensures mode == old(mode) && paymentSystemInitialData == old(paymentSystemInitialData)
      ensures availableCountries == old(availableCountries) && deliveries == old(deliveries) && basket == old(basket)
      ensures firstDeliveryContactChange == old(firstDeliveryContactChange)
      ensures var c := DeliveryChangeOutcome(deliveries, basket, paymentSystemInitialData, identifier, saveStatus);
              r == (if c.Normal? then NewTotal(c.value) else Failed(MessageOf(c.thrown))) &&
              trace == old(trace) + DeliveryChangeEffects(deliveries, basket, paymentSystemInitialData, identifier, ApplePay) +
                       (if c.Abrupt? then [DisplayError] else [])
      ensures r.NewTotal? ==> lastBasketWorth == Some(r.amount)
      ensures lastBasketWorth == (if DeliveryChangeWorth(deliveries, basket, identifier).Some?
                                  then DeliveryChangeWorth(deliveries, basket, identifier) else old(lastBasketWorth))
    {
      var c := DeliveryChanged(identifier, ApplePay, saveStatus);
      if c.Abrupt? {
        trace := trace + [DisplayError];
        return Failed(MessageOf(c.thrown));
      }
      r := NewTotal(c.value);
    }

    /** The lazy basket fetch of both contact changes: only while the flag
        is on, which it then turns off. */
    method FetchBasketOnFirstChange(basketReply: Option<BasketSnapshot>)
      modifies this
      ensures !firstDeliveryContactChange
      ensures basket == BasketAfter(old(firstDeliveryContactChange), old(basket), basketReply)
      ensures trace == old(trace) + BasketFetchEffects(old(firstDeliveryContactChange), mode)
      ensures mode == old(mode) && paymentSystemInitialData == old(paymentSystemInitialData)
      ensures availableCountries == old(availableCountries) && deliveries == old(deliveries)
      ensures lastBasketWorth == old(lastBasketWorth)
    {
      if firstDeliveryContactChange {
        if mode == Some(Product) {
          trace := trace + [AddProductToBasket];
        }
        trace := trace + [GetBasket];
        basket := basketReply;
        firstDeliveryContactChange := false;
      }
    }

    /** `initApplePay`: starts the merchant check, and without initial
        data shows the error and stops; otherwise arms the lazy basket
        fetch and offers the placeholder courier. */
    method InitApplePay() returns (r: Option<AppleInitResult>)
      modifies this
      ensures mode == old(mode) && paymentSystemInitialData == old(paymentSystemInitialData)
      ensures availableCountries == old(availableCountries) && basket == old(basket)
      ensures lastBasketWorth == old(lastBasketWorth)
      ensures r.Some? <==> old(paymentSystemInitialData).Some?
      ensures r.None? ==> trace == old(trace) + [CreatePayment(ApplePay), DisplayError] &&
                          deliveries == old(deliveries) && firstDeliveryContactChange == old(firstDeliveryContactChange)
      ensures r.Some? ==> trace == old(trace) + [CreatePayment(ApplePay)] &&
                          firstDeliveryContactChange && deliveries == Some([Placeholder]) &&
                          r.value == AppleInitResult(AppleShippingMethods(deliveries).value,
                                                     paymentSystemInitialData.value.currencyFromSession,
                                                     paymentSystemInitialData.value.merchantLabel)
    {
      trace := trace + [CreatePayment(ApplePay)];
      if paymentSystemInitialData.None? {
        trace := trace + [DisplayError];
        return None;
      }
      firstDeliveryContactChange := true;
      SetDefaultDeliverie();
      var methods := AppleShippingMethods(deliveries);
      r := Some(AppleInitResult(methods.value, paymentSystemInitialData.value.currencyFromSession,
                                paymentSystemInitialData.value.merchantLabel));
    }

    /** `initGooglePay`: uses the cached initial data while it is fresh;
        otherwise purges every cached entry, asks the backend, and caches
        the answer with its creation second. Then it arms the lazy basket
        fetch and offers the placeholder courier. */
    method InitGooglePay(store: Store, now: int, cookie: string, created: PaymentSystemData, countriesReply: CountriesReply)
      returns (r: Completion<GoogleInitResult>, newStore: Store)
      modifies this
      ensures var key := CacheKey(cookie);
              match LookUp(store, key, now)
              case Unparsable =>
                r == Abrupt(EngineError(SyntaxError)) && newStore == store && trace == old(trace) &&
                paymentSystemInitialData == old(paymentSystemInitialData) && deliveries == old(deliveries) &&
                availableCountries == old(availableCountries) && firstDeliveryContactChange == old(firstDeliveryContactChange)
              case Miss =>
                if created.errno != 0 then
                  r == Abrupt(Text(InitErrorText)) && newStore == Purge(store) &&
                  trace == old(trace) + [CreatePayment(GooglePay), DisplayError] &&
                  paymentSystemInitialData == old(paymentSystemInitialData) && deliveries == old(deliveries) &&
                  availableCountries == old(availableCountries) && firstDeliveryContactChange == old(firstDeliveryContactChange)
                else
                  newStore == Purge(store)[key := InitSnapshot(created, countriesReply, now)] &&
                  trace == old(trace) + [CreatePayment(GooglePay), GetCountries] &&
                  availableCountries == Some(countriesReply) && paymentSystemInitialData == Some(created.init) &&
                  firstDeliveryContactChange && deliveries == Some([Placeholder])
              case Hit(snap) =>
                newStore == store && trace == old(trace) &&
                availableCountries == Some(snap.countries) && paymentSystemInitialData == Some(snap.paymentSystemData.init) &&
                firstDeliveryContactChange && deliveries == Some([Placeholder])
      ensures r.Normal? ==>
                availableCountries.Some? && paymentSystemInitialData.Some? &&
                Normal(Some(r.value.defaultShippingOptions)) == GoogleShippingOptionsOf(deliveries, paymentSystemInitialData) &&
                Normal(r.value.shippingAddressParameters) == AllowedCountries(availableCountries.value.data) &&
                r.value.currencyCode == paymentSystemInitialData.value.currencyFromSession &&
                r.value.totalPrice == 0 && r.value.mid == paymentSystemInitialData.value.mid &&
                r.value.title == paymentSystemInitialData.value.merchantLabel
      ensures r.Abrupt? && LookUp(store, CacheKey(cookie), now) != Unparsable &&
              (LookUp(store, CacheKey(cookie), now).Hit? || created.errno == 0) ==>
                r == Abrupt(EngineError(TypeError)) && availableCountries.Some? && availableCountries.value.data.None?
      ensures mode == old(mode) && basket == old(basket) && lastBasketWorth == old(lastBasketWorth)
    {
      var key := CacheKey(cookie);
      var look := LookUp(store, key, now);
      newStore := store;
      var snap: StoredValue;
      if look.Unparsable? {
        r := Abrupt(EngineError(SyntaxError));
        return;
      } else if look.Hit? {
        snap := look.snapshot;
      } else {
        if key in newStore {
          newStore := newStore - {key};
        }
        newStore := Purge(newStore);
        assert newStore == Purge(store);
        trace := trace + [CreatePayment(GooglePay)];
        if created.errno != 0 {
          trace := trace + [DisplayError];
          r := Abrupt(Text(InitErrorText));
          return;
        }
        trace := trace + [GetCountries];
        snap := InitSnapshot(created, countriesReply, now);
        newStore := newStore[key := snap];
      }
      availableCountries := Some(snap.countries);
      paymentSystemInitialData := Some(snap.paymentSystemData.init);
      firstDeliveryContactChange := true;
      SetDefaultDeliverie();
      var options := GoogleShippingOptionsOf(deliveries, paymentSystemInitialData);
      var parameters := AllowedCountries(snap.countries.data);
      if parameters.Abrupt? {
        r := Abrupt(parameters.thrown);
        return;
      }
      var init := paymentSystemInitialData.value;
      r := Normal(GoogleInitResult(options.value.value, parameters.value, init.currencyFromSession, 0, init.mid, init.merchantLabel));
    }

    /** `deliveryContactChangedApplePay`: the lazy basket fetch, the region
        of the new address (an unsupported one is rejected with the last
        total), the new couriers, and the first of them saved. */
    method DeliveryContactChangedApplePay(countryCode: Option<string>, countries: CountriesReply,
                                          basketReply: Option<BasketSnapshot>, deliveriesReply: seq<Shipping>, saveStatus: string)
      returns (r: Completion<AppleContactResult>)
      modifies this
      ensures mode == old(mode) && paymentSystemInitialData == old(paymentSystemInitialData)
      ensures availableCountries == old(availableCountries)
      ensures !firstDeliveryContactChange
      ensures basket == BasketAfter(old(firstDeliveryContactChange), old(basket), basketReply)
      ensures r == AppleContactOutcome(basket, old(lastBasketWorth), paymentSystemInitialData,
                                       RegionOf(countries.data, countryCode, AvailableOrCurrentIso), Shaped(deliveriesReply), saveStatus)
      ensures trace == old(trace) + BasketFetchEffects(old(firstDeliveryContactChange), mode) +
                       AppleContactEffects(basket, paymentSystemInitialData,
                                           RegionOf(countries.data, countryCode, AvailableOrCurrentIso), Shaped(deliveriesReply), saveStatus)
      ensures var region := RegionOf(countries.data, countryCode, AvailableOrCurrentIso);
              region.Normal? && region.value != 0 ==>
                deliveries == Some(Shaped(deliveriesReply)) &&
                lastBasketWorth == (if ContactWorth(basket, Shaped(deliveriesReply)).Some?
                                    then ContactWorth(basket, Shaped(deliveriesReply)) else old(lastBasketWorth))
      ensures var region := RegionOf(countries.data, countryCode, AvailableOrCurrentIso);
              !(region.Normal? && region.value != 0) ==>
                deliveries == old(deliveries) && lastBasketWorth == old(lastBasketWorth)
    {
      ghost var t0, fe := trace, BasketFetchEffects(firstDeliveryContactChange, mode);
      FetchBasketOnFirstChange(basketReply);
      ghost var fetched := trace;
      assert fetched == t0 + fe;
      trace := trace + [GetCountries];
      var region := ResolveRegion(countries.data, countryCode, AvailableOrCurrentIso);
      r := AnswerAppleRegion(region, deliveriesReply, saveStatus);
      ghost var rest := AppleRegionEffects(basket, paymentSystemInitialData, region, Shaped(deliveriesReply), saveStatus);
      assert trace == fetched + ([GetCountries] + rest);
      assert AppleContactEffects(basket, paymentSystemInitialData, region, Shaped(deliveriesReply), saveStatus)
          == [GetCountries] + rest;
      assert trace == t0 + fe + ([GetCountries] + rest);
    }

    /** Apple Pay's contact change once the region is resolved: a failure
        is passed on, an unsupported country is rejected with the last
        total, a supported one gets the new couriers. */
    method AnswerAppleRegion(region: Completion<int>, deliveriesReply: seq<Shipping>, saveStatus: string)
      returns (r: Completion<AppleContactResult>)
      modifies this
      ensures mode == old(mode) && paymentSystemInitialData == old(paymentSystemInitialData)
      ensures availableCountries == old(availableCountries) && basket == old(basket)
      ensures firstDeliveryContactChange == old(firstDeliveryContactChange)
      ensures r == AppleContactOutcome(basket, old(lastBasketWorth), paymentSystemInitialData, region,
                                       Shaped(deliveriesReply), saveStatus)
      ensures trace == old(trace) + AppleRegionEffects(basket, paymentSystemInitialData, region, Shaped(deliveriesReply), saveStatus)
      ensures region.Normal? && region.value != 0 ==>
                deliveries == Some(Shaped(deliveriesReply)) &&
                lastBasketWorth == (if ContactWorth(basket, Shaped(deliveriesReply)).Some?
                                    then ContactWorth(basket, Shaped(deliveriesReply)) else old(lastBasketWorth))
      ensures !(region.Normal? && region.value != 0) ==>
                deliveries == old(deliveries) && lastBasketWorth == old(lastBasketWorth)
    {
      if region.Abrupt? {
        return Abrupt(region.thrown);
      }
      if region.value == 0 {
        return Normal(AppleRejected(lastBasketWorth));
      }
      var shaped := ShapeDeliveries(deliveriesReply);
      r := ApplyAppleRegion(region.value, shaped, saveStatus);
    }

    /** The part of Apple Pay's contact change past a supported region. */
    method ApplyAppleRegion(region: int, shaped: seq<Shipping>, saveStatus: string)
      returns (r: Completion<AppleContactResult>)
      requires region != 0
      modifies this
      ensures mode == old(mode) && paymentSystemInitialData == old(paymentSystemInitialData)
      ensures availableCountries == old(availableCountries) && basket == old(basket)
      ensures firstDeliveryContactChange == old(firstDeliveryContactChange)
      ensures deliveries == Some(shaped)
      ensures lastBasketWorth == (if ContactWorth(basket, shaped).Some?
                                  then ContactWorth(basket, shaped) else old(lastBasketWorth))
      ensures trace == old(trace) + SaveFirstEffects(ApplePay, basket, paymentSystemInitialData, region,
                                                     shaped, saveStatus)
      ensures r == AppleContactOutcome(basket, old(lastBasketWorth), paymentSystemInitialData, Normal(region),
                                       shaped, saveStatus)
    {
      trace := trace + [GetDeliveries(region)];
      deliveries := Some(shaped);
      var methods := AppleShippingMethods(deliveries);
      if basket.None? || |methods.value| == 0 {
        assert ContactWorth(basket, shaped).None?;
        return Abrupt(EngineError(TypeError));
      }
      assert methods.value[0].amount == shaped[0].cost;
      assert ContactWorth(basket, shaped) == Some(basket.value.gross + shaped[0].cost);
      var worth := GetBasketWorth(basket.value.gross, methods.value[0].amount);
      if paymentSystemInitialData.None? {
        return Abrupt(EngineError(TypeError));
      }
      trace := trace + [SaveCourier(shaped[0].courierId, ApplePay, Some(worth), Some(paymentSystemInitialData.value.currencyFromSession))];
      if saveStatus != SuccessStatus {
        trace := trace + [DisplayError];
        return Abrupt(Text(SaveFailedText));
      }
      r := Normal(AppleAccepted(worth, methods.value));
    }

    /** `deliveryContactChangedGooglePay`: the lazy basket fetch, the region
        from the stored countries (0 is not rejected), the new couriers, and
        the first of them saved. */
    method DeliveryContactChangedGooglePay(address: ShippingAddress, basketReply: Option<BasketSnapshot>,
                                           deliveriesReply: seq<Shipping>, saveStatus: string)
      returns (r: Completion<GoogleContactResult>)
      modifies this
      ensures mode == old(mode) && paymentSystemInitialData == old(paymentSystemInitialData)
      ensures availableCountries == old(availableCountries)
      ensures !firstDeliveryContactChange
      ensures basket == BasketAfter(old(firstDeliveryContactChange), old(basket), basketReply)
      ensures r == GoogleContactOutcome(basket, paymentSystemInitialData, GoogleRegion(availableCountries, address),
                                        Shaped(deliveriesReply), saveStatus)
      ensures trace == old(trace) + BasketFetchEffects(old(firstDeliveryContactChange), mode) +
                       GoogleContactEffects(basket, paymentSystemInitialData, GoogleRegion(availableCountries, address),
                                            Shaped(deliveriesReply), saveStatus)
      ensures GoogleRegion(availableCountries, address).Normal? ==>
                deliveries == Some(Shaped(deliveriesReply)) &&
                lastBasketWorth == (if paymentSystemInitialData.Some? && ContactWorth(basket, Shaped(deliveriesReply)).Some?
                                    then ContactWorth(basket, Shaped(deliveriesReply)) else old(lastBasketWorth))
      ensures GoogleRegion(availableCountries, address).Abrupt? ==>
                deliveries == old(deliveries) && lastBasketWorth == old(lastBasketWorth)
    {
      FetchBasketOnFirstChange(basketReply);
      if availableCountries.None? {
        return Abrupt(EngineError(TypeError));
      }
      var region := ResolveRegion(availableCountries.value.data, address.countryCode, AvailableOnly);
      if region.Abrupt? {
        return Abrupt(region.thrown);
      }
      var shaped := ShapeDeliveries(deliveriesReply);
      r := ApplyGoogleRegion(region.value, shaped, saveStatus);
    }

    /** The part of Google Pay's contact change past the region, whatever
        it is. */
    method ApplyGoogleRegion(region: int, shaped: seq<Shipping>, saveStatus: string)
      returns (r: Completion<GoogleContactResult>)
      modifies this
      ensures mode == old(mode) && paymentSystemInitialData == old(paymentSystemInitialData)
      ensures availableCountries == old(availableCountries) && basket == old(basket)
      ensures firstDeliveryContactChange == old(firstDeliveryContactChange)
      ensures deliveries == Some(shaped)
      ensures lastBasketWorth == (if paymentSystemInitialData.Some? && ContactWorth(basket, shaped).Some?
                                  then ContactWorth(basket, shaped) else old(lastBasketWorth))
      ensures trace == old(trace) + SaveFirstEffects(GooglePay, basket, paymentSystemInitialData, region,
                                                     shaped, saveStatus)
      ensures r == GoogleContactOutcome(basket, paymentSystemInitialData, Normal(region), shaped, saveStatus)
    {
      trace := trace + [GetDeliveries(region)];
      deliveries := Some(shaped);
      var options := GoogleShippingOptionsOf(deliveries, paymentSystemInitialData);
      if options.Abrupt? {
        return Abrupt(options.thrown);
      }
      if basket.None? {
        return Abrupt(EngineError(TypeError));
      }
      var worth := GetBasketWorth(basket.value.gross, shaped[0].cost);
      trace := trace + [SaveCourier(shaped[0].courierId, GooglePay, Some(worth), Some(paymentSystemInitialData.value.currencyFromSession))];
      if saveStatus != SuccessStatus {
        trace := trace + [DisplayError];
        return Abrupt(SaveFailed);
      }
      r := Normal(GoogleContactResult(AmountToString(worth), options.value.value));
    }

    /** `onPaymentDataChangedGooglePay`: the courier path runs
        `deliveryChanged` on the picked option, the address path the
        contact change; either way the outcome comes back as an update. */
    method OnPaymentDataChangedGooglePay(input: IntermediatePaymentData, basketReply: Option<BasketSnapshot>,
                                         deliveriesReply: seq<Shipping>, saveStatus: string)
      returns (u: PaymentDataUpdate)
      modifies this
      ensures u.data.Some? != u.error.Some?
      ensures CourierPath(input) ==>
                deliveries == old(deliveries) && basket == old(basket) &&
                firstDeliveryContactChange == old(firstDeliveryContactChange)
      ensures CourierPath(input) && input.shippingOptionId.None? ==>
                u == CourierUpdate(Abrupt(EngineError(TypeError))) && trace == old(trace) &&
                lastBasketWorth == old(lastBasketWorth)
      ensures CourierPath(input) && input.shippingOptionId.Some? ==>
                var id := input.shippingOptionId.value;
                u == CourierUpdate(DeliveryChangeOutcome(deliveries, basket, paymentSystemInitialData, id, saveStatus)) &&
                lastBasketWorth == (if DeliveryChangeWorth(deliveries, basket, id).Some?
                                    then DeliveryChangeWorth(deliveries, basket, id) else old(lastBasketWorth)) &&
                trace == old(trace) + DeliveryChangeEffects(deliveries, basket, paymentSystemInitialData, id, GooglePay)
      ensures !CourierPath(input) ==>
                var region := GoogleRegion(availableCountries, input.shippingAddress.value);
                u == AddressUpdate(GoogleContactOutcome(basket, paymentSystemInitialData, region,
                                                        Shaped(deliveriesReply), saveStatus)) &&
                !firstDeliveryContactChange &&
                basket == BasketAfter(old(firstDeliveryContactChange), old(basket), basketReply) &&
                trace == old(trace) + BasketFetchEffects(old(firstDeliveryContactChange), mode) +
                         GoogleContactEffects(basket, paymentSystemInitialData, region, Shaped(deliveriesReply), saveStatus) &&
                (region.Normal? ==>
                   deliveries == Some(Shaped(deliveriesReply)) &&
                   lastBasketWorth == (if paymentSystemInitialData.Some? && ContactWorth(basket, Shaped(deliveriesReply)).Some?
                                       then ContactWorth(basket, Shaped(deliveriesReply)) else old(lastBasketWorth))) &&
                (region.Abrupt? ==> deliveries == old(deliveries) && lastBasketWorth == old(lastBasketWorth))
      ensures mode == old(mode) && paymentSystemInitialData == old(paymentSystemInitialData)
      ensures availableCountries == old(availableCountries)
    {
      if CourierPath(input) {
        if input.shippingOptionId.None? {
          u := CourierUpdate(Abrupt(EngineError(TypeError)));
        } else {
          var c := DeliveryChanged(input.shippingOptionId.value, GooglePay, saveStatus);
          u := CourierUpdate(c);
        }
      } else {
        var c := DeliveryContactChangedGooglePay(input.shippingAddress.value, basketReply, deliveriesReply, saveStatus);
        u := AddressUpdate(c);
      }
    }
  }
}
