/** PayPal's `onShippingChange`: the address or option a buyer changes in
    PayPal's window, answered by rejecting the address or by patching the
    order with the new couriers. It keeps no session state; its calls to
    the backend and the error display are returned in order. */
module PayPalShipping {
  import opened CheckoutTypes
  import opened DeliveryCatalog
  import opened RegionResolver

  /** `data.selected_shipping_option`: absent, present without an id, or
      with the id (as a number). */
  datatype SelectedOption = NoOption | OptionWithoutId | OptionId(id: int)

  datatype ShippingChange = ShippingChange(countryCode: Option<string>, selected: SelectedOption)

  /** `actions.reject()`, or the order patched with the couriers of the
      region. */
  datatype PayPalAnswer = Rejected | Patched(region: int, options: seq<Shipping>)

  /** The first position of the list holding the courier, if any. */
  function IndexOfCourier(shipping: seq<Shipping>, id: int): (k: Option<nat>)
    ensures k.Some? ==> k.value < |shipping| && shipping[k.value].courierId == id
    ensures k.None? <==> forall j :: 0 <= j < |shipping| ==> shipping[j].courierId != id
    decreases |shipping|
  {
    if shipping == [] then None
    else if shipping[0].courierId == id then Some(0)
    else
      var k := IndexOfCourier(shipping[1..], id);
      assert forall j :: 1 <= j < |shipping| ==> shipping[j] == shipping[1..][j - 1];
      if k.None? then None else Some(k.value + 1)
  }

  /** How the handler ends. */
  function PayPalOutcome(change: ShippingChange, countries: CountriesReply, deliveriesReply: seq<Shipping>): (r: Completion<PayPalAnswer>)
    ensures RegionOf(countries.data, change.countryCode, AvailableOrCurrentIso) == Normal(0) ==> r == Normal(Rejected)
    ensures r.Normal? && r.value.Patched? ==>
              RegionOf(countries.data, change.countryCode, AvailableOrCurrentIso) == Normal(r.value.region) &&
              r.value.region != 0 && r.value.options == Shaped(deliveriesReply)
    ensures var region := RegionOf(countries.data, change.countryCode, AvailableOrCurrentIso);
            region.Abrupt? ==> r == Abrupt(region.thrown)
    ensures var region := RegionOf(countries.data, change.countryCode, AvailableOrCurrentIso);
            region.Normal? && region.value != 0 ==>
              r == (if change.selected == NoOption then Abrupt(EngineError(TypeError))
                    else Normal(Patched(region.value, Shaped(deliveriesReply))))
  {
    var region := RegionOf(countries.data, change.countryCode, AvailableOrCurrentIso);
    if region.Abrupt? then Abrupt(region.thrown)
    else if region.value == 0 then Normal(Rejected)
    else if change.selected == NoOption then Abrupt(EngineError(TypeError))
    else Normal(Patched(region.value, Shaped(deliveriesReply)))
  }

  /** The calls the handler makes, in order. */
  function PayPalEffects(change: ShippingChange, countries: CountriesReply, deleteStatus: string,
                         deliveriesReply: seq<Shipping>, saveStatus: string): seq<Effect>
  {
    var region := RegionOf(countries.data, change.countryCode, AvailableOrCurrentIso);
    [GetCountries] +
    if region.Abrupt? || region.value == 0 then []
    else PatchEffects(region.value, change.selected, deleteStatus, Shaped(deliveriesReply), saveStatus)
  }

  /** The calls for a supported region: the saved courier cleared, the
      couriers fetched, the buyer's option saved and the order patched. */
  function PatchEffects(region: int, selected: SelectedOption, deleteStatus: string,
                        shipping: seq<Shipping>, saveStatus: string): seq<Effect> {
    [DeleteCourier] + (if deleteStatus != SuccessStatus then [DisplayError] else []) +
    [GetDeliveries(region)] +
    if selected == NoOption then []
    else SaveChoiceEffects(selected, shipping, saveStatus) + [UpdateOrderParams(region, shipping)]
  }

  /** The save of the buyer's option, made only when the new list has it,
      and the error display when the save fails. */
  function SaveChoiceEffects(selected: SelectedOption, shipping: seq<Shipping>, saveStatus: string): seq<Effect> {
    if selected.OptionId? && IndexOfCourier(shipping, selected.id).Some? then
      [SaveCourier(selected.id, PayPal, None, None)] + (if saveStatus != SuccessStatus then [DisplayError] else [])
    else []
  }

  /** `onShippingChange`: resolves the region (rejecting an unsupported
      one before anything else), clears the saved courier, fetches the
      couriers, saves the buyer's option only when the new list has it,
      and patches the order. */
  method OnShippingChange(change: ShippingChange, countries: CountriesReply, deleteStatus: string,
                          deliveriesReply: seq<Shipping>, saveStatus: string)
    returns (r: Completion<PayPalAnswer>, effects: seq<Effect>)
    ensures r == PayPalOutcome(change, countries, deliveriesReply)
    ensures effects == PayPalEffects(change, countries, deleteStatus, deliveriesReply, saveStatus)
  {
    effects := [GetCountries];
    var region := ResolveRegion(countries.data, change.countryCode, AvailableOrCurrentIso);
    if region.Abrupt? {
      return Abrupt(region.thrown), effects;
    }
    if region.value == 0 {
      return Normal(Rejected), effects;
    }
    var shipping := ShapeDeliveries(deliveriesReply);
    var tail;
    r, tail := PatchOrder(region.value, change.selected, deleteStatus, shipping, saveStatus);
    effects := effects + tail;
  }

  /** The handler past a supported region. */
  method PatchOrder(region: int, selected: SelectedOption, deleteStatus: string,
                    shipping: seq<Shipping>, saveStatus: string)
    returns (r: Completion<PayPalAnswer>, effects: seq<Effect>)
    ensures r == (if selected == NoOption then Abrupt(EngineError(TypeError)) else Normal(Patched(region, shipping)))
    ensures effects == PatchEffects(region, selected, deleteStatus, shipping, saveStatus)
  {
    effects := [DeleteCourier];
    if deleteStatus != SuccessStatus {
      effects := effects + [DisplayError];
    }
    effects := effects + [GetDeliveries(region)];
    if selected == NoOption {
      return Abrupt(EngineError(TypeError)), effects;
    }
    ghost var before := effects;
    if selected.OptionId? {
      var allowCourier := HasCourier(shipping, selected.id);
      if allowCourier {
        effects := effects + [SaveCourier(selected.id, PayPal, None, None)];
        if saveStatus != SuccessStatus {
          effects := effects + [DisplayError];
        }
      }
    }
    assert effects == before + SaveChoiceEffects(selected, shipping, saveStatus);
    effects := effects + [UpdateOrderParams(region, shipping)];
    r := Normal(Patched(region, shipping));
  }

  /** The loop that looks for the buyer's option in the new list. */
  method HasCourier(shipping: seq<Shipping>, id: int) returns (allowCourier: bool)
    ensures allowCourier <==> IndexOfCourier(shipping, id).Some?
  {
    allowCourier := false;
    var i := 0;
    while i < |shipping|
      invariant 0 <= i <= |shipping|
      invariant forall j :: 0 <= j < i ==> shipping[j].courierId != id
    {
      if shipping[i].courierId == id {
        allowCourier := true;
        break;
      }
      i := i + 1;
    }
  }

  /** An unsupported country is rejected after reading the countries
      only: the saved courier is not cleared and no courier is fetched. */
  lemma RejectBeforeAnyChange(change: ShippingChange, countries: CountriesReply, deleteStatus: string,
                              deliveriesReply: seq<Shipping>, saveStatus: string)
    requires RegionOf(countries.data, change.countryCode, AvailableOrCurrentIso) == Normal(0)
    ensures PayPalOutcome(change, countries, deliveriesReply) == Normal(Rejected)
    ensures PayPalEffects(change, countries, deleteStatus, deliveriesReply, saveStatus) == [GetCountries]
  {
  }

  /** Only a courier of the freshly fetched list is ever saved, and only
      the one the buyer picked. */
  lemma SavesOnlyListedCourier(change: ShippingChange, countries: CountriesReply, deleteStatus: string,
                               deliveriesReply: seq<Shipping>, saveStatus: string, k: nat)
    requires var e := PayPalEffects(change, countries, deleteStatus, deliveriesReply, saveStatus);
             k < |e| && e[k].SaveCourier?
    ensures var e := PayPalEffects(change, countries, deleteStatus, deliveriesReply, saveStatus);
            change.selected.OptionId? && e[k].courierId == change.selected.id &&
            exists j :: 0 <= j < |Shaped(deliveriesReply)| && Shaped(deliveriesReply)[j].courierId == e[k].courierId
  {
    var e := PayPalEffects(change, countries, deleteStatus, deliveriesReply, saveStatus);
    var region := RegionOf(countries.data, change.countryCode, AvailableOrCurrentIso);
    var shaped := Shaped(deliveriesReply);
    if region.Normal? && region.value != 0 {
      var tail := PatchEffects(region.value, change.selected, deleteStatus, shaped, saveStatus);
      assert e == [GetCountries] + tail;
      assert k > 0 && e[k] == tail[k - 1];
      PatchSavesOnlyListed(region.value, change.selected, deleteStatus, shaped, saveStatus, k - 1);
      var j := IndexOfCourier(shaped, change.selected.id).value;
      assert shaped[j].courierId == e[k].courierId;
    }
  }

  /** Past the region, a save is of the buyer's option and only when the
      list has it. */
  lemma PatchSavesOnlyListed(region: int, selected: SelectedOption, deleteStatus: string,
                             shipping: seq<Shipping>, saveStatus: string, k: nat)
    requires var e := PatchEffects(region, selected, deleteStatus, shipping, saveStatus);
             k < |e| && e[k].SaveCourier?
    ensures selected.OptionId? && IndexOfCourier(shipping, selected.id).Some?
    ensures PatchEffects(region, selected, deleteStatus, shipping, saveStatus)[k] == SaveCourier(selected.id, PayPal, None, None)
  {
    var e := PatchEffects(region, selected, deleteStatus, shipping, saveStatus);
    var before := [DeleteCourier] + (if deleteStatus != SuccessStatus then [DisplayError] else []) +
                  [GetDeliveries(region)];
    assert forall j :: 0 <= j < |before| ==> !before[j].SaveCourier?;
    if selected != NoOption {
      var save := SaveChoiceEffects(selected, shipping, saveStatus);
      assert e == before + save + [UpdateOrderParams(region, shipping)];
      assert |before| <= k < |before| + |save|;
      assert e[k] == save[k - |before|];
    }
  }
}
