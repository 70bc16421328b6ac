# Express checkout: a verified model of the shipping and amount core

`expressCheckout.js` drives the PayPal, Apple Pay and Google Pay express
checkouts of a shop. Around its SDK calls and GraphQL requests it keeps one
session object, `expressCheckoutApi`, that shapes the shop's courier list,
resolves the shopper's country to a shop region, fetches the basket once
per payment sheet, saves the courier the shopper picks and computes the new
total. This project models that core in Dafny and proves what it promises.

- Every backend answer (countries, couriers, basket, save status, initial
  data, the Google Pay cache, the current second, the cookie text) is a
  parameter of the operation that reads it.
- Amounts are integer cents, so `getBasketWorth`'s `toFixed(2)` of a sum is
  the sum itself. `Fixed2` renders a label with two decimals and
  `AmountToString` the shortest decimal, as `Number.toString` does.
- A thrown value is a `Completion`: `Normal(value)` or `Abrupt(thrown)`. A
  thrown value is a coded error (`errorType`, `message`), a bare string, or
  an engine `TypeError`/`SyntaxError` (reading a field of `null`, parsing
  text that is not JSON).
- The calls to the backend and to the error display are recorded in order:
  in the session's ghost `trace`, and as the `effects` out-parameter of
  PayPal's handler, which keeps no state.

Modules, one per concern of the file:

| file | module | what |
|---|---|---|
| types.dfy | `CheckoutTypes` | couriers, regions, basket, initial data, thrown values, effects |
| text.dfy | `Text` | case mapping, `trim`, `split`/`join`, number rendering |
| deliveries.dfy | `DeliveryCatalog` | `getAvailableDeliveries`'s list shaping, and the sort comparator |
| regions.dfy | `RegionResolver` | the country-to-region loop (three copies), `getGoogleShippingAddressParameters` |
| shapes.dfy | `ProviderShapes` | the Apple Pay and Google Pay shapes of the courier list, and the courier lookup |
| cookies.dfy | `Cookies` | `getCookie` |
| init_cache.dfy | `InitCache` | the Google Pay initial-data cache: its key, expiry and purge |
| routing.dfy | `GoogleRouting` | the updates `onPaymentDataChangedGooglePay` answers with |
| session.dfy | `Session` | the session class: init, courier change, contact changes, Google's callback |
| paypal.dfy | `PayPalShipping` | PayPal's `onShippingChange` |
| decisions.dfy | `PaymentDecisions` | redirect-or-error, Google's transaction state, the settlement target, `setBasket`'s request |

Behaviours of the code worth noting:

- On a cost tie the cheapest courier is the LATER entry: the `reduce` keeps
  the earlier one only when it is strictly cheaper.
- When no courier is prepaid and named, the backend's list is handed on
  unfiltered, not emptied.
- Google Pay's contact change does not stop on an unsupported country: it
  fetches couriers for region 0 and goes on.
- A courier id that is not in the list is reported to Google Pay as
  `OTHER_ERROR`, not as an invalid shipping option. The callback reads
  `error.type`, but the coded errors carry `errorType`, so the test never
  holds (`GoogleRouting.CourierErrorsAreOther`).

## Model

| member | source | states |
|---|---|---|
| DeliveryCatalog.ShapeDeliveries | expressCheckout.js:119-144 | the filter loop, the cheapest-courier scan, the conditional promotion and the cut to ten produce exactly `Shaped(reply)` |
| DeliveryCatalog.KeepOfferable | expressCheckout.js:121-126 | the push loop keeps exactly `Keep(reply)`: the prepaid entries with a named courier, in their order |
| DeliveryCatalog.FindCheapest | expressCheckout.js:128-130 | the scan ends on `CheapestIndex`, the position of a cheapest entry and the last of equally cheap ones |
| DeliveryCatalog.CheapestIndex | expressCheckout.js:128-130 | the courier the `reduce` settles on costs no more than any entry, and every later entry costs strictly more, so a tie goes to the later entry |
| DeliveryCatalog.KeepMembers | expressCheckout.js:121-126 | every kept entry is prepaid, has a named courier, and comes from the backend's list |
| DeliveryCatalog.KeepEmpty | expressCheckout.js:121-126 | the filter keeps nothing exactly when no entry is prepaid and named |
| DeliveryCatalog.KeepHolds | expressCheckout.js:121-126 | every prepaid, named entry is kept |
| DeliveryCatalog.PartsOfPromote | expressCheckout.js:131-135 | the entries of the promoted courier and the other entries split the list, with nothing lost or added |
| DeliveryCatalog.PromoteIsPermutation | expressCheckout.js:131-135 | promoting the cheapest courier only reorders: same entries, same length, the others after it in their old order |
| DeliveryCatalog.PromoteUnique | expressCheckout.js:131-135 | with distinct courier ids, promotion moves exactly the cheapest entry to the front and leaves the rest in order |
| DeliveryCatalog.ShapedIsOfferable | expressCheckout.js:121-137 | when some courier survives the filter, at most ten entries are handed on, each prepaid, named and taken from the backend's list |
| DeliveryCatalog.ShapedKeepsUnusableReply | expressCheckout.js:140-144 | when no courier survives the filter, the backend's list is handed on exactly as it came |
| DeliveryCatalog.ShapedCheapestFirst | expressCheckout.js:128-137 | when the kept couriers have distinct ids, the first courier offered is a cheapest kept one; the list is reordered only when its cost differs from the first entry's, and then the rest keep their order |
| DeliveryCatalog.CompareAsWrittenInconsistent | expressCheckout.js:132-134 | the comparator as written says the cheapest courier goes first but not that the other goes after it, so it is not antisymmetric |
| DeliveryCatalog.CompareIntendedConsistent | expressCheckout.js:132-134 | the corrected comparator (cheapest courier first, all else equal) is antisymmetric and transitive |
| DeliveryCatalog.SortAsWrittenKeepsOrder | expressCheckout.js:131-135 | with the comparator as written the order is engine-defined; an insertion sort that compares (earlier, later) leaves a list whose cheapest courier is second unchanged |
| DeliveryCatalog.StableSortPromotes | expressCheckout.js:131-135 | with the corrected comparator, a stable sort is exactly the promotion of the cheapest courier |
| RegionResolver.FirstIsoMatch | expressCheckout.js:467-474 | the scan of `available` returns the id of the first entry with the given code, and 0 when none has it |
| RegionResolver.ResolveRegion | expressCheckout.js:463-475 | the loop with its `break` computes `RegionOf`, for both guards of its three copies |
| RegionResolver.RegionCases | expressCheckout.js:463-475 | a code equal to the current country's, case aside, gives the current id; otherwise the first `available` entry equal to the lower-cased code wins; otherwise 0 |
| RegionResolver.UpperIsoNeverMatches | expressCheckout.js:468 | an `available` code holding an upper-case letter never equals a lower-cased code |
| RegionResolver.RegionFromCatalog | expressCheckout.js:463-475 | a resolved region is 0, the current region's id, or the id of an `available` entry |
| RegionResolver.PolandGermanyExample | expressCheckout.js:463-475 | with current "pl" and available "de" (7): "PL" gives the current id, "de" gives 7, "fr" gives 0 |
| RegionResolver.AllowedCountries | expressCheckout.js:993-1009 | position by position, the allowed codes are the upper-cased `available` codes in their order, then the upper-cased current one last, and nothing else; a phone number is always required; missing data throws |
| RegionResolver.AllowedCodesResolve | expressCheckout.js:1057-1069 | every code Google Pay is allowed to offer resolves to a supported region, when `available` and the current country are both set, the shop's codes are lower case and its ids non-zero (with `available` unset the current code is offered but resolves to 0) |
| Text.LowerHasNoUpper | expressCheckout.js:464-468 | a lower-cased code holds no upper-case letter |
| Text.LowerOfUpper | expressCheckout.js:997-1002 | lower-casing an upper-cased code gives the lower-cased code back |
| Text.SplitJoin | expressCheckout.js:1482-1483 | splitting on a separator gives separator-free pieces that join back to the text |
| Text.JoinSplit | expressCheckout.js:1482-1483 | joining separator-free pieces and splitting again gives the same pieces |
| Text.NatToStringRoundTrip | expressCheckout.js:577 | a rendered number is a non-empty string of digits that reads back as the same number |
| Text.IntToStringInjective | expressCheckout.js:577 | two integers render the same exactly when they are equal |
| ProviderShapes.FirstWithId | expressCheckout.js:576-582 | the lookup finds the first entry whose id, as text, is the selected one, and finds nothing exactly when no entry's does |
| ProviderShapes.ListedCourierIsFound | expressCheckout.js:577 | picking any listed courier's id finds an entry of that courier, never a later one |
| ProviderShapes.AppleShippingMethods | expressCheckout.js:673-690 | one Apple Pay method per courier in list order, with its id, name and cost; nothing without deliveries data |
| ProviderShapes.AppleMethodsSelectable | expressCheckout.js:680-685 | every Apple Pay method's identifier, as text, finds an entry of the same courier |
| ProviderShapes.GoogleShippingOptionsOf | expressCheckout.js:1017-1037 | one Google Pay option per courier with its id as text, its name as description, and as label the free-shipping text for a free courier or else the cost with two decimals and the currency sign, then `: ` and the name; the first is the default; an empty list or missing initial data throws; nothing without deliveries data |
| ProviderShapes.GoogleOptionsSelectable | expressCheckout.js:1033-1036 | the default option is the list's first courier, and every option's id finds an entry of its courier |
| Cookies.FindCookie | expressCheckout.js:1480-1492 | a value other than "0" comes from an entry whose trimmed key is the name |
| Cookies.CookieValueIsBare | expressCheckout.js:1483 | a value read from the cookie text holds neither `=` nor `;` |
| Cookies.CookieRoundTrip | expressCheckout.js:1480-1492 | over a cookie text built from plain entries, the first entry named gives its value, and "0" comes back when none is named |
| InitCache.CacheKey | expressCheckout.js:926 | the cache key starts with the cache prefix |
| InitCache.LookUp | expressCheckout.js:931-938 | a stored snapshot is used only when at most an hour old; an older one or none is a miss; text that is not JSON fails |
| InitCache.Purge | expressCheckout.js:940-946 | the purge removes exactly the keys with the cache prefix and keeps every other entry |
| InitCache.RefillKeepsOneEntry | expressCheckout.js:940-962 | after a refill, the new entry is the only one with the cache prefix |
| InitCache.RefilledEntryAge | expressCheckout.js:935-961 | a refilled entry is a hit within the hour and a miss after it |
| GoogleRouting.MessageOf | expressCheckout.js:1116-1122 | a coded error's message is passed on; a thrown string has none |
| GoogleRouting.TypeProperty | expressCheckout.js:1112 | no thrown value has a `type` property (coded errors carry `errorType`), so `error.type` is always `undefined` |
| GoogleRouting.OptionReason | expressCheckout.js:1112-1124 | the reason tested on `error.type` is always `OTHER_ERROR`, whatever was thrown |
| GoogleRouting.CourierUpdate | expressCheckout.js:1103-1127 | the courier path answers with either the new total as text or the error with the option intent, never both |
| GoogleRouting.AddressUpdate | expressCheckout.js:1128-1139 | the address path answers with either the contact data or an `OTHER_ERROR` with the address intent, never both |
| GoogleRouting.CourierErrorsAreOther | expressCheckout.js:1111-1124 | every failure of the courier path is reported as `OTHER_ERROR`, an unknown courier included |
| Session.BasketFetchEffects | expressCheckout.js:718-725 | with the flag on, the calls are exactly the product added then the basket read in product mode, and the basket read alone otherwise; with the flag off there is no read |
| Session.DeliveryChangeOutcome | expressCheckout.js:574-602 | `deliveryChanged` throws `selectedDeliveryInvalid` exactly when no courier has the id, throws `unknown` exactly when the save fails, and else returns the basket plus the found courier |
| Session.PickingFirstCourier | expressCheckout.js:577-591 | picking the first listed courier, with a successful save, totals the basket plus that courier |
| Session.PickingSecondCourierExample | expressCheckout.js:574-602 | a 99.99 basket with couriers at 0 and 9.99 keeps its order, and picking the second totals 109.98, rendered "109.98" |
| Session.FindCourier | expressCheckout.js:576-582 | the scan returns the first index whose courier id, as text, is the selected one |
| Session.AppleContactOutcome | expressCheckout.js:741-766 | region 0 rejects with the last total; a supported region with couriers, basket, initial data and a successful save accepts with the basket plus the first courier and the couriers in Apple's shape; a failed save throws its text |
| Session.SaveFirstEffects | expressCheckout.js:1071-1088 | after a region, couriers are fetched first; a courier is saved exactly when there are couriers, a basket and initial data, and it is then the first courier, saved with basket plus its cost and the session's currency, followed by the error display exactly when the save fails |
| Session.AppleContactEffects | expressCheckout.js:741-766 | the countries are read first, and couriers are fetched exactly when the region is supported |
| Session.AppleRegionZeroStops | expressCheckout.js:742-752 | an unsupported country stops Apple Pay's contact change after reading the countries |
| Session.ContactQuotesCheapest | expressCheckout.js:753-755 | when the offerable couriers have distinct ids, an accepted contact change quotes the basket plus a cheapest prepaid, named courier |
| Session.GoogleContactOutcome | expressCheckout.js:1071-1088 | Google's contact change succeeds exactly with couriers, basket, initial data and a successful save, with the total as text and the couriers in Google's shape; a failed save throws `unknown` |
| Session.GoogleContactEffects | expressCheckout.js:1071-1088 | Google's contact change fetches no countries, and fetches couriers first once it has a region |
| Session.GoogleRegionZeroGoesOn | expressCheckout.js:1055-1072 | an unsupported country does not stop Google Pay: couriers for region 0 are fetched and the change can succeed |
| Session.CheckoutSession.constructor | expressCheckout.js:12-49 | a fresh session has every field empty and the first-contact flag off |
| Session.CheckoutSession.RenderApplePayButton | expressCheckout.js:610-627 | the mode is stored and the initial data fetched before any click |
| Session.CheckoutSession.RenderGooglePayButton | expressCheckout.js:801-812 | only the mode is stored |
| Session.CheckoutSession.SetDefaultDeliverie | expressCheckout.js:1425-1443 | the deliveries become the placeholder courier alone (id 1, name "...", cost 0), nothing else changes |
| Session.CheckoutSession.GetBasketWorth | expressCheckout.js:559-563 | the total is basket plus courier and becomes the last known total |
| Session.CheckoutSession.DeliveryChanged | expressCheckout.js:574-602 | the outcome is `DeliveryChangeOutcome`; on success the last known total is the returned one; only the found courier is saved, with that total and the session's currency |
| Session.CheckoutSession.DeliveryChangedApplePay | expressCheckout.js:697-709 | Apple Pay gets the new total, or the error is shown and its message passed on; the last known total becomes the found courier's total whenever the courier is found and the basket read, even when the save then fails, and is kept otherwise |
| Session.CheckoutSession.FetchBasketOnFirstChange | expressCheckout.js:718-725 | the basket is fetched only while the flag is on, and the flag is off afterwards |
| Session.CheckoutSession.InitApplePay | expressCheckout.js:629-666 | without initial data the error is shown; with it the flag is set, the placeholder courier offered, and the currency and label passed on |
| Session.CheckoutSession.InitGooglePay | expressCheckout.js:925-985 | a fresh cached snapshot is used as is; otherwise the cache is purged, refilled with the backend's answer and its second, or the error shown on a failed answer; the flag is set and the placeholder offered with the allowed countries; on unparsable cached text and on a failed answer the countries, initial data, deliveries and flag stay as they were |
| Session.CheckoutSession.DeliveryContactChangedApplePay | expressCheckout.js:717-767 | lazy basket fetch, then `AppleContactOutcome` of the resolved region, with the deliveries and last total updated only past a supported region |
| Session.CheckoutSession.AnswerAppleRegion | expressCheckout.js:742-767 | once the region is resolved: a failure is passed on, an unsupported country gets the rejection with the last total and nothing changes, a supported one gets `AppleContactOutcome` with the deliveries replaced by the shaped list |
| Session.CheckoutSession.ApplyAppleRegion | expressCheckout.js:753-767 | past a supported region the deliveries become the shaped list and the first courier is saved with the new total |
| Session.CheckoutSession.DeliveryContactChangedGooglePay | expressCheckout.js:1045-1088 | lazy basket fetch, then `GoogleContactOutcome` of the region from the stored countries |
| Session.CheckoutSession.ApplyGoogleRegion | expressCheckout.js:1071-1088 | whatever the region, the deliveries become the shaped list and the first courier is saved with the new total |
| Session.CheckoutSession.OnPaymentDataChangedGooglePay | expressCheckout.js:1097-1146 | exactly one of data and error is set; the courier path answers `deliveryChanged`'s outcome, keeps the deliveries, basket and flag, stores the found courier's total and records its save; the address path answers the contact change's outcome with its lazy basket fetch, new deliveries, last total and calls |
| PayPalShipping.IndexOfCourier | expressCheckout.js:485-498 | the courier is found exactly when some listed entry has its id |
| PayPalShipping.PayPalOutcome | expressCheckout.js:460-513 | a failed resolution passes its throw on; region 0 rejects; past a supported region, a missing option throws a type error and otherwise the order is patched with that region and the shaped courier list, and a patch happens only so |
| PayPalShipping.OnShippingChange | expressCheckout.js:460-513 | the handler's answer and calls are `PayPalOutcome` and `PayPalEffects` |
| PayPalShipping.PatchOrder | expressCheckout.js:478-511 | past a supported region the calls are `PatchEffects` (clear the saved courier, show an error when that fails, fetch the couriers, save the buyer's option when listed, patch the order); without a selected option the handler fails with a type error, otherwise it patches the order with the shaped list |
| PayPalShipping.HasCourier | expressCheckout.js:488-494 | the loop raises `allowCourier` exactly when some entry of the new list has the buyer's courier id |
| PayPalShipping.RejectBeforeAnyChange | expressCheckout.js:476-479 | an unsupported country is rejected after reading the countries only: no courier is deleted, fetched or saved |
| PayPalShipping.SavesOnlyListedCourier | expressCheckout.js:485-498 | only the buyer's option is ever saved, and only when the freshly fetched list has that courier |
| PayPalShipping.PatchSavesOnlyListed | expressCheckout.js:487-498 | past the region, any save in the calls is of the buyer's option, and the new list holds that courier |
| PaymentDecisions.RedirectDecision | expressCheckout.js:1383-1389 | the shopper is sent to the URL exactly when it is a non-empty string; otherwise the error is shown |
| PaymentDecisions.MissingDataShowsError | expressCheckout.js:516-530 | an answer without `data` ends on the error |
| PaymentDecisions.GoogleTransactionState | expressCheckout.js:1162-1173 | the state is SUCCESS exactly when there is a URL to go to |
| PaymentDecisions.SettlementTargetOf | expressCheckout.js:1319-1345 | a 3-D Secure challenge posts its details to the challenge URL, a rejection goes to the error page, any other status to the pending page, any failure to the error page |
| PaymentDecisions.BasketRequestOf | expressCheckout.js:1398-1410 | a form with a second product goes to the multi-product path; the body is the form marked as an express checkout; without a form nothing is sent |

## Left out

- Case mapping is ASCII only: `toLowerCase`/`toUpperCase` of letters outside A-Z are not modelled, as Unicode case tables are outside this core.
- Floating point: amounts are integer cents, so the rounding of `toFixed(2)` on doubles is not modelled.
- The GraphQL requests, `fetch`, JSON encoding of requests and replies, and `escape`/`unescape`: every reply is an input value.
- The PayPal, Apple Pay and Google Pay SDKs (`actions.order.patch`, merchant validation, `ApplePayError`, the Google Pay frame): their answers are the model's results, their behaviour is not visible.
- `googlePayListener` and `requestGooglePayJSApi`: cross-frame asynchronous messaging.
- The race between a cancelled sheet and a request still in flight: the model runs each handler to completion.
- DOM work (buttons, loaders, the hidden 3-D Secure form) and `window.location`: only the chosen target is modelled.
- `b64EncodeUnicode`: a wrapper over the browser's UTF-8 and base64 encoders.
- `Date.now()`, `localStorage` and `document.cookie` are passed in as values; a cached entry is either a snapshot or text that is not JSON, and JSON of another shape is not modelled.
- Session.CheckoutSession.InitApplePay: the merchant check runs asynchronously; only its `createPayment` call is recorded, and its failure path is not modelled.
- PayPalShipping.OnShippingChange: the option id is taken as a number, so the loose `==` between a string id and a number is not modelled.
- The storage of the Apple and Google Pay tokens before the payment is proceeded, and `proceedPayment`/`acceptPayment` requests themselves: only the decision on their answers is modelled.
- A deliveries reply without `data` or `shipping`, on which `getAvailableDeliveries` throws, and one whose `shipping.shipping` is undefined, which it returns unchanged and its callers then fail on (`shipping[0]`, the mappers' loops): the shipping list is an input value here.
- DeliveryCatalog.ShapeDeliveries: the in-place `sort` is taken to give the intended promotion of the cheapest courier (`StableSortPromotes`); with the comparator as written its result is engine-defined (see Findings).
- `restoreBasket`, `basketCheckout`, `initCheckout`, `setRegion` and `prepareInitDataBeforeClick`: request plumbing around the core.

## Findings

| source | as written | input that shows it | evidently intended | confidence | as-written member | corrected member |
|---|---|---|---|---|---|---|
| expressCheckout.js:133 | the sort comparator answers 1 when `y` equals the cheapest courier's id, but `y` is a whole entry and never equals a number, so it never says that an entry goes after the cheapest one | couriers [id 1 at 5.00, id 2 at 3.00], cheapest id 2: the comparator says id 2 goes before id 1 but not that id 1 goes after id 2, so the order is engine-defined; an engine that compares (earlier, later), as `InsertionSort` here, leaves id 2 second | the cheapest courier sorts before every other entry, the rest keep their order | not executed | DeliveryCatalog.SortAsWrittenKeepsOrder | DeliveryCatalog.StableSortPromotes |
