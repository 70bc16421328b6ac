/** Region resolution: the loop the three providers share to turn a
    shopper's country code into a region id of the shop (0: unsupported),
    and the list of country codes offered to Google Pay. */
module RegionResolver {
  import opened CheckoutTypes
  import opened Text

  /** The two guards the copies of the loop use: PayPal and Apple Pay go on
      when `available` or `current.iso` is set, Google Pay only when
      `available` is. */
  datatype Guard = AvailableOrCurrentIso | AvailableOnly

  /** The region id of the first available country whose ISO code equals
      `iso`, or 0. */
  function FirstIsoMatch(available: seq<Region>, iso: string): (id: int)
    ensures (exists i :: 0 <= i < |available| && available[i].iso == iso) ==>
              exists i :: 0 <= i < |available| && available[i].iso == iso && id == available[i].id &&
                forall j :: 0 <= j < i ==> available[j].iso != iso
    ensures (forall i :: 0 <= i < |available| ==> available[i].iso != iso) ==> id == 0
    decreases |available|
  {
    if available == [] then 0
    else if available[0].iso == iso then available[0].id
    else
      var id := FirstIsoMatch(available[1..], iso);
      assert forall i :: 1 <= i < |available| ==> available[i] == available[1..][i - 1];
      id
  }

  /** The outcome of the resolution loop for a countries reply `data` and
      a country code (`None`: undefined). Reading `current.iso` or
      `available.length` where the backend answered null throws. */
  function RegionOf(data: Option<Catalog>, code: Option<string>, guard: Guard): Completion<int> {
    match data
    case None => Normal(0)
    case Some(cat) =>
      if guard == AvailableOrCurrentIso && cat.available.None? && cat.current.None? then
        Abrupt(EngineError(TypeError))
      else if !(cat.available.Some? || (guard == AvailableOrCurrentIso && cat.current.value.iso != "")) then
        Normal(0)
      else if code.None? then Normal(0)
      else if cat.current.None? then Abrupt(EngineError(TypeError))
      else if Lower(code.value) == Lower(cat.current.value.iso) then Normal(cat.current.value.id)
      else if cat.available.None? then Abrupt(EngineError(TypeError))
      else Normal(FirstIsoMatch(cat.available.value, Lower(code.value)))
  }

  /** The resolution loop (PayPal `onShippingChange`, Apple Pay and Google
      Pay contact changes). */
  method ResolveRegion(data: Option<Catalog>, code: Option<string>, guard: Guard) returns (r: Completion<int>)
    ensures r == RegionOf(data, code, guard)
  {
    if data.None? {
      return Normal(0);
    }
    var cat := data.value;
    var pass: bool;
    if cat.available.Some? {
      pass := true;
    } else if guard == AvailableOnly {
      pass := false;
    } else if cat.current.None? {
      return Abrupt(EngineError(TypeError));
    } else {
      pass := cat.current.value.iso != "";
    }
    if !pass || code.None? {
      return Normal(0);
    }
    if cat.current.None? {
      return Abrupt(EngineError(TypeError));
    }
    var lowered := Lower(code.value);
    if lowered == Lower(cat.current.value.iso) {
      return Normal(cat.current.value.id);
    }
    if cat.available.None? {
      return Abrupt(EngineError(TypeError));
    }
    var available := cat.available.value;
    var selected := 0;
    var i := 0;
    while i < |available|
      invariant 0 <= i <= |available|
      invariant forall j :: 0 <= j < i ==> available[j].iso != lowered
    {
      if available[i].iso == lowered {
        selected := available[i].id;
        break;
      }
      i := i + 1;
    }
    r := Normal(selected);
  }

  /** True when the guard of the loop lets the code through to the
      comparisons. */
  predicate Reaches(cat: Catalog, code: Option<string>, guard: Guard) {
    code.Some? && cat.current.Some? &&
    (cat.available.Some? || (guard == AvailableOrCurrentIso && cat.current.value.iso != ""))
  }

  /** Past the guard, the code matches the current country regardless of
      case, or else the first available country whose code equals the
      lower-cased code, or else nothing (0). */
  lemma RegionCases(cat: Catalog, code: Option<string>, guard: Guard)
    requires Reaches(cat, code, guard)
    ensures Lower(code.value) == Lower(cat.current.value.iso) ==>
              RegionOf(Some(cat), code, guard) == Normal(cat.current.value.id)
    ensures Lower(code.value) != Lower(cat.current.value.iso) && cat.available.Some? ==>
              forall i ::
                (0 <= i < |cat.available.value| && cat.available.value[i].iso == Lower(code.value) &&
                 (forall j :: 0 <= j < i ==> cat.available.value[j].iso != Lower(code.value))) ==>
                RegionOf(Some(cat), code, guard) == Normal(cat.available.value[i].id)
    ensures Lower(code.value) != Lower(cat.current.value.iso) && cat.available.Some? &&
            (forall i :: 0 <= i < |cat.available.value| ==> cat.available.value[i].iso != Lower(code.value)) ==>
              RegionOf(Some(cat), code, guard) == Normal(0)
  {
    if Lower(code.value) != Lower(cat.current.value.iso) && cat.available.Some? {
      var av := cat.available.value;
      var lc := Lower(code.value);
      forall i | 0 <= i < |av| && av[i].iso == lc && (forall j :: 0 <= j < i ==> av[j].iso != lc)
        ensures RegionOf(Some(cat), code, guard) == Normal(av[i].id)
      {
        var i' :| 0 <= i' < |av| && av[i'].iso == lc && FirstIsoMatch(av, lc) == av[i'].id &&
                  forall j :: 0 <= j < i' ==> av[j].iso != lc;
        assert i' == i;
      }
    }
  }

  /** An available country whose code has an upper-case letter is never
      chosen by the scan, whatever the shopper's code. */
  lemma UpperIsoNeverMatches(available: seq<Region>, i: nat, code: string)
    requires i < |available| && HasUpper(available[i].iso)
    ensures available[i].iso != Lower(code)
  {
    LowerHasNoUpper(code);
  }

  /** Neither copy of the loop resolves a code the catalogue does not
      know: the result is 0 or an id of the catalogue. */
  lemma RegionFromCatalog(cat: Catalog, code: Option<string>, guard: Guard)
    requires RegionOf(Some(cat), code, guard).Normal?
    ensures var id := RegionOf(Some(cat), code, guard).value;
            id == 0 || (cat.current.Some? && id == cat.current.value.id) ||
            (cat.available.Some? && exists i :: 0 <= i < |cat.available.value| && id == cat.available.value[i].id)
  {
  }

  /** The parameters `getGoogleShippingAddressParameters` returns. */
  datatype ShippingAddressParameters = ShippingAddressParameters(allowedCountryCodes: seq<string>, phoneNumberRequired: bool)

  /** `getGoogleShippingAddressParameters` on the stored countries reply:
      the available codes upper-cased, then the current one. A reply
      without `data` throws. */
  function AllowedCountries(data: Option<Catalog>): (r: Completion<ShippingAddressParameters>)
    ensures r.Normal? <==> data.Some?
    ensures r.Normal? ==> r.value.phoneNumberRequired
    ensures r.Normal? ==>
      |r.value.allowedCountryCodes| ==
        (if data.value.available.Some? then |data.value.available.value| else 0) + (if data.value.current.Some? then 1 else 0)
    ensures r.Normal? && data.value.available.Some? ==>
      forall k :: 0 <= k < |data.value.available.value| ==>
        r.value.allowedCountryCodes[k] == Upper(data.value.available.value[k].iso)
    ensures r.Normal? && data.value.current.Some? ==>
      r.value.allowedCountryCodes[|r.value.allowedCountryCodes| - 1] == Upper(data.value.current.value.iso)
  {
    match data
    case None => Abrupt(EngineError(TypeError))
    case Some(cat) =>
      var fromAvailable := if cat.available.Some? then UpperCodes(cat.available.value) else [];
      var codes := fromAvailable + (if cat.current.Some? then [Upper(cat.current.value.iso)] else []);
      Normal(ShippingAddressParameters(codes, true))
  }

  function UpperCodes(available: seq<Region>): (codes: seq<string>)
    ensures |codes| == |available|
    ensures forall k :: 0 <= k < |available| ==> codes[k] == Upper(available[k].iso)
  {
    seq(|available|, k requires 0 <= k < |available| => Upper(available[k].iso))
  }

  /** Every code Google Pay is allowed to offer resolves to a supported
      region, provided the shop's codes are lower case, the current country
      is set and no region id is 0. */
  lemma AllowedCodesResolve(cat: Catalog, code: string)
    requires cat.available.Some? && cat.current.Some?
    requires forall i :: 0 <= i < |cat.available.value| ==> Lower(cat.available.value[i].iso) == cat.available.value[i].iso
    requires cat.current.value.id != 0
    requires forall i :: 0 <= i < |cat.available.value| ==> cat.available.value[i].id != 0
    requires AllowedCountries(Some(cat)).Normal? && code in AllowedCountries(Some(cat)).value.allowedCountryCodes
    ensures RegionOf(Some(cat), Some(code), AvailableOnly).Normal?
    ensures RegionOf(Some(cat), Some(code), AvailableOnly).value != 0
  {
    var av := cat.available.value;
    var codes := AllowedCountries(Some(cat)).value.allowedCountryCodes;
    var k :| 0 <= k < |codes| && codes[k] == code;
    if k < |av| {
      assert code == Upper(av[k].iso);
      LowerOfUpper(av[k].iso);
      if Lower(code) != Lower(cat.current.value.iso) {
        assert av[k].iso == Lower(code);
      }
    } else {
      assert code == Upper(cat.current.value.iso);
      LowerOfUpper(cat.current.value.iso);
    }
  }

  /** A shop in Poland that also sells to Germany (region 7). */
  lemma PolandGermanyExample(polandId: int)
    ensures var cat := Catalog(Some([Region(7, "de")]), Some(Region(polandId, "pl")));
            RegionOf(Some(cat), Some("PL"), AvailableOrCurrentIso) == Normal(polandId) &&
            RegionOf(Some(cat), Some("de"), AvailableOrCurrentIso) == Normal(7) &&
            RegionOf(Some(cat), Some("fr"), AvailableOrCurrentIso) == Normal(0)
  {
    var cat := Catalog(Some([Region(7, "de")]), Some(Region(polandId, "pl")));
    assert Lower("PL") == "pl";
    assert Lower("de") == "de";
    assert Lower("fr") == "fr";
  }
}
