/** The small decisions around a payment: where to send the shopper once
    a provider has answered, the transaction state reported to Google Pay,
    where a settlement result leads, and the request that fills the basket
    for an express checkout. */
module PaymentDecisions {
  import opened CheckoutTypes

  /** A value that may or may not be a string (`typeof url == 'string'`). */
  datatype JsValue = Str(s: string) | NotAString

  /** What a handler does with the URL the backend answered with. */
  datatype Navigation = Redirect(url: string) | ShowError

  /** `redirectOrder`, and the same test in PayPal's `onApprove` and the
      Apple Pay and Google Pay payment handlers: go to the URL when it is a
      non-empty string, show the error otherwise. */
  function RedirectDecision(url: JsValue): (n: Navigation)
    ensures n.Redirect? <==> url.Str? && url.s != ""
    ensures n.Redirect? ==> n.url == url.s
  {
    if url.Str? && url.s != "" then Redirect(url.s) else ShowError
  }

  /** The URL the payment handlers test: the backend's `data` when its
      answer has one, the empty string otherwise. */
  function ProceededUrl(data: Option<JsValue>): JsValue {
    if data.Some? then data.value else Str("")
  }

  /** An answer without `data` always ends on the error. */
  lemma MissingDataShowsError()
    ensures RedirectDecision(ProceededUrl(None)) == ShowError
  {
  }

  datatype TransactionState = Success | Error

  /** `proceedPaymentGooglePay`'s state: SUCCESS exactly when there is a
      URL to go to; ERROR comes with the error display. */
  function GoogleTransactionState(url: JsValue): (st: TransactionState)
    ensures st == Success <==> RedirectDecision(url).Redirect?
  {
    if url.Str? && url.s != "" then Success else Error
  }

  /** What `acceptPaymentGooglePay` learns from the payment frame: its
      status and, for a 3-D Secure challenge, the parsed challenge data
      (`None` when it does not parse). `None` as a whole: an earlier step
      threw. */
  datatype ThreeDsData = ThreeDsData(url: string, details: seq<(string, string)>)

  datatype SettlementReply = SettlementReply(status: string, threeDs: Option<ThreeDsData>)

  /** Where the shopper ends up. */
  datatype SettlementTarget =
    | PostChallenge(action: string, fields: seq<(string, string)>)
    | ErrorPage
    | PendingPage

  /** The settlement `switch`: a challenge posts a hidden form to the
      challenge URL, a rejection leads to the error page, anything else
      (pending included) to the pending page; any failure on the way to the
      error page. */
  function SettlementTargetOf(reply: Option<SettlementReply>): (t: SettlementTarget)
    ensures t.PostChallenge? <==> reply.Some? && reply.value.status == "3ds_required" && reply.value.threeDs.Some?
    ensures t.PostChallenge? ==> t.action == reply.value.threeDs.value.url && t.fields == reply.value.threeDs.value.details
    ensures t == PendingPage <==> reply.Some? && reply.value.status != "3ds_required" && reply.value.status != "rejected"
  {
    match reply
    case None => ErrorPage
    case Some(SettlementReply(status, threeDs)) =>
      if status == "3ds_required" then
        (if threeDs.Some? then PostChallenge(threeDs.value.url, threeDs.value.details) else ErrorPage)
      else if status == "rejected" then ErrorPage
      else PendingPage
  }

  /** The form `setBasket` sends: `keys` are the form's field names and
      `text` its encoded body. */
  datatype SerializedForm = SerializedForm(keys: seq<string>, text: string)

  datatype BasketRequest = BasketRequest(path: string, body: string)

  const BasketChangePath: string := "/basketchange.php"
  const MultiproductSuffix: string := "?type=multiproduct"
  const ExpressCheckoutField: string := "&expressCheckout=1"

  /** `setBasket`'s request: a form with a second product goes to the
      multi-product variant; the body is the form marked as an express
      checkout. Without a form it shows the error and sends nothing. */
  function BasketRequestOf(form: Option<SerializedForm>): (r: Option<BasketRequest>)
    ensures r.Some? <==> form.Some?
    ensures r.Some? ==>
              (r.value.path == BasketChangePath + MultiproductSuffix <==> "product[1]" in form.value.keys) &&
              (r.value.path == BasketChangePath <==> "product[1]" !in form.value.keys)
    ensures r.Some? ==> r.value.body == form.value.text + ExpressCheckoutField
  {
    match form
    case None => None
    case Some(f) =>
      var suffix := if "product[1]" in f.keys then MultiproductSuffix else "";
      assert BasketChangePath + MultiproductSuffix != BasketChangePath by {
        assert |BasketChangePath + MultiproductSuffix| != |BasketChangePath|;
      }
      Some(BasketRequest(BasketChangePath + suffix, f.text + ExpressCheckoutField))
  }
}
