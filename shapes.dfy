/** The courier list in the shapes Apple Pay and Google Pay expect, and the
    lookup `deliveryChanged` uses to find the courier a shopper picked. */
module ProviderShapes {
  import opened CheckoutTypes
  import opened Text

  /** The test of `deliveryChanged`: the entry's courier id, rendered by
      `toString()`, is the selected id. */
  predicate Selects(e: Shipping, selected: string) {
    IntToString(e.courierId) == selected
  }

  /** The scan of `deliveryChanged`: the first entry whose courier id,
      rendered by `toString()`, is the selected id. */
  function FirstWithId(d: seq<Shipping>, selected: string): (k: Option<nat>)
    ensures k.Some? ==> k.value < |d| && Selects(d[k.value], selected)
    ensures k.Some? ==> forall j :: 0 <= j < k.value ==> !Selects(d[j], selected)
    ensures k.None? <==> forall j :: 0 <= j < |d| ==> !Selects(d[j], selected)
    decreases |d|
  {
    if d == [] then None
    else if Selects(d[0], selected) then Some(0)
    else
      var k := FirstWithId(d[1..], selected);
      assert forall j :: 1 <= j < |d| ==> d[j] == d[1..][j - 1];
      if k.None? then None else Some(k.value + 1)
  }

  /** The lookup stops at the first entry that the id selects. */
  lemma {:induction false} FirstSelected(d: seq<Shipping>, selected: string, i: nat)
    requires i < |d| && Selects(d[i], selected)
    requires forall j :: 0 <= j < i ==> !Selects(d[j], selected)
    ensures FirstWithId(d, selected) == Some(i)
    decreases i
  {
    if i > 0 {
      assert !Selects(d[0], selected);
      assert d[1..][i - 1] == d[i];
      assert forall j :: 0 <= j < i - 1 ==> d[1..][j] == d[j + 1];
      FirstSelected(d[1..], selected, i - 1);
    }
  }

  /** Picking the id of any listed courier finds an entry of that courier,
      never a later one. */
  lemma ListedCourierIsFound(d: seq<Shipping>, i: nat)
    requires i < |d|
    ensures FirstWithId(d, IntToString(d[i].courierId)).Some?
    ensures var k := FirstWithId(d, IntToString(d[i].courierId)).value;
            k <= i && d[k].courierId == d[i].courierId
  {
    var k := FirstWithId(d, IntToString(d[i].courierId));
    IntToStringInjective(d[k.value].courierId, d[i].courierId);
  }

  /** One entry of `getAvailableDeliveriesForApplePay`. */
  datatype AppleShippingMethod = AppleShippingMethod(identifier: int, title: string, amount: int, detail: string)

  /** `getAvailableDeliveriesForApplePay`: one method per courier, in the
      list's order; `None` (after showing the error) when there is no
      deliveries data. */
  function AppleShippingMethods(deliveries: Option<seq<Shipping>>): (r: Option<seq<AppleShippingMethod>>)
    ensures r.Some? <==> deliveries.Some?
    ensures r.Some? ==> |r.value| == |deliveries.value|
    ensures r.Some? ==> forall i :: 0 <= i < |r.value| ==>
              r.value[i].identifier == deliveries.value[i].courierId &&
              r.value[i].amount == deliveries.value[i].cost &&
              r.value[i].title == r.value[i].detail == deliveries.value[i].courierName
  {
    match deliveries
    case None => None
    case Some(d) =>
      Some(seq(|d|, i requires 0 <= i < |d| =>
        AppleShippingMethod(d[i].courierId, d[i].courierName, d[i].cost, d[i].courierName)))
  }

  /** Every method Apple Pay offers can be picked again: its identifier,
      as text, finds an entry of the same courier. */
  lemma AppleMethodsSelectable(d: seq<Shipping>)
    ensures var methods := AppleShippingMethods(Some(d)).value;
            forall i :: 0 <= i < |methods| ==>
              FirstWithId(d, IntToString(methods[i].identifier)).Some? &&
              d[FirstWithId(d, IntToString(methods[i].identifier)).value].courierId == methods[i].identifier
  {
    var methods := AppleShippingMethods(Some(d)).value;
    forall i | 0 <= i < |methods|
      ensures FirstWithId(d, IntToString(methods[i].identifier)).Some? &&
              d[FirstWithId(d, IntToString(methods[i].identifier)).value].courierId == methods[i].identifier
    {
      ListedCourierIsFound(d, i);
    }
  }

  /** One entry of `getAvailableDeliveriesForGooglePay`. */
  datatype GoogleShippingOption = GoogleShippingOption(id: string, title: string, description: string)

  datatype GoogleShippingOptions = GoogleShippingOptions(defaultSelectedOptionId: string, shippingOptions: seq<GoogleShippingOption>)

  /** The label Google Pay shows: the shop's free-shipping text for a free
      courier, else the cost with two decimals and the currency sign; then
      the courier's name. */
  function GoogleLabel(e: Shipping, init: InitData): string {
    (if e.cost == 0 then init.freeShippingLabel else Fixed2(e.cost) + " " + init.currencySign) + ": " + e.courierName
  }

  /** `getAvailableDeliveriesForGooglePay`: `None` (after showing the
      error) without deliveries data; an empty list, or a list without
      initial data to label it, throws. */
  function GoogleShippingOptionsOf(deliveries: Option<seq<Shipping>>, init: Option<InitData>): (r: Completion<Option<GoogleShippingOptions>>)
    ensures r == Normal(None) <==> deliveries.None?
    ensures r.Abrupt? <==> deliveries.Some? && (deliveries.value == [] || init.None?)
    ensures r.Normal? && r.value.Some? ==>
              var opts := r.value.value.shippingOptions;
              |opts| == |deliveries.value| &&
              r.value.value.defaultSelectedOptionId == opts[0].id &&
              forall i :: 0 <= i < |opts| ==>
                opts[i].id == IntToString(deliveries.value[i].courierId) &&
                opts[i].description == deliveries.value[i].courierName &&
                (deliveries.value[i].cost == 0 ==> opts[i].title == init.value.freeShippingLabel + ": " + deliveries.value[i].courierName) &&
                (deliveries.value[i].cost != 0 ==>
                   opts[i].title == Fixed2(deliveries.value[i].cost) + " " + init.value.currencySign + ": " + deliveries.value[i].courierName)
  {
    match deliveries
    case None => Normal(None)
    case Some(d) =>
      if d == [] || init.None? then Abrupt(EngineError(TypeError))
      else
        var opts := seq(|d|, i requires 0 <= i < |d| =>
          GoogleShippingOption(IntToString(d[i].courierId), GoogleLabel(d[i], init.value), d[i].courierName));
        Normal(Some(GoogleShippingOptions(opts[0].id, opts)))
  }

  /** Google Pay's preselected option is the first courier of the list,
      the one the contact change saves; every option it offers can be
      picked again by its id. */
  lemma GoogleOptionsSelectable(d: seq<Shipping>, init: InitData)
    requires d != []
    ensures var r := GoogleShippingOptionsOf(Some(d), Some(init));
            r.Normal? && r.value.Some? &&
            FirstWithId(d, r.value.value.defaultSelectedOptionId) == Some(0)
    ensures var opts := GoogleShippingOptionsOf(Some(d), Some(init)).value.value.shippingOptions;
            forall i :: 0 <= i < |opts| ==>
              FirstWithId(d, opts[i].id).Some? && d[FirstWithId(d, opts[i].id).value].courierId == d[i].courierId
  {
    var opts := GoogleShippingOptionsOf(Some(d), Some(init)).value.value.shippingOptions;
    forall i | 0 <= i < |opts|
      ensures FirstWithId(d, opts[i].id).Some? && d[FirstWithId(d, opts[i].id).value].courierId == d[i].courierId
    {
      ListedCourierIsFound(d, i);
    }
  }
}
