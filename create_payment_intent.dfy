/** `POST` of src/app/api/create-payment-intent/route.js: a payment intent
    of at least 100 cents in usd, whose metadata records the account and the
    billing details of the request, each detail defaulting to the empty
    string. The handler never writes to the store. */
module CreatePaymentIntent {
  import opened Common
  import opened Gateway
  import opened Http
  import opened Amounts

  /** The optional `billingInfo` object of the request body; a field that is
      absent is None. */
  datatype BillingInfo = BillingInfo(
    name: Option<string>,
    email: Option<string>,
    address: Option<string>,
    city: Option<string>,
    zipCode: Option<string>)

  /** The response with the gateway as the request left it. */
  datatype IntentOutcome = IntentOutcome(response: Response, gateway: GatewayState)

  const Failed := Response(500, ErrorBody("Failed to create payment intent"))

  /** `billingInfo?.<field> || ''`: the field when the object and the field
      are present, the empty string otherwise. */
  function Detail(info: Option<BillingInfo>, field: BillingInfo -> Option<string>): (d: string)
    ensures info.None? ==> d == ""
    ensures info.Some? && field(info.value).Some? ==> d == field(info.value).value
    ensures info.Some? && field(info.value).None? ==> d == ""
  {
    if info.Some? && field(info.value).Some? then field(info.value).value else ""
  }

  /** The metadata of the intent: exactly seven keys, the session's id and
      email, and each billing detail as given or, when it or the whole
      object is absent, the empty string. */
  function IntentMetadata(auth: AuthSession, info: Option<BillingInfo>): (m: map<string, string>)
    ensures m.Keys == {"userId", "userEmail", "billingName", "billingEmail", "billingAddress", "billingCity", "billingZip"}
    ensures m["userId"] == auth.userId && m["userEmail"] == auth.email
    ensures m["billingName"] == (if info.Some? && info.value.name.Some? then info.value.name.value else "")
    ensures m["billingEmail"] == (if info.Some? && info.value.email.Some? then info.value.email.value else "")
    ensures m["billingAddress"] == (if info.Some? && info.value.address.Some? then info.value.address.value else "")
    ensures m["billingCity"] == (if info.Some? && info.value.city.Some? then info.value.city.value else "")
    ensures m["billingZip"] == (if info.Some? && info.value.zipCode.Some? then info.value.zipCode.value else "")
  {
    map[
      "userId" := auth.userId,
      "userEmail" := auth.email,
      "billingName" := Detail(info, (b: BillingInfo) => b.name),
      "billingEmail" := Detail(info, (b: BillingInfo) => b.email),
      "billingAddress" := Detail(info, (b: BillingInfo) => b.address),
      "billingCity" := Detail(info, (b: BillingInfo) => b.city),
      "billingZip" := Detail(info, (b: BillingInfo) => b.zipCode)]
  }

  /** The answer is 401, 400, 500 or the client secret of the one intent the
      request created; only an accepted request with a working create
      changes the gateway. */
  function PostOutcome(g: GatewayState, auth: Option<AuthSession>, amount: Option<int>, info: Option<BillingInfo>): (out: IntentOutcome)
    ensures out.response in {NotAuthenticated, InvalidAmount, Failed, Response(200, ClientSecretBody(g.nextId))}
    ensures out.response.status == 200 <==> auth.Some? && !RejectsCents(amount) && IntentsCreate !in g.faults
    ensures out.response.status != 200 ==> out.gateway == g
    ensures out.response.status == 200 ==>
      out.gateway == g.(paymentIntents := [PaymentIntent(g.nextId, amount.value, "usd", IntentMetadata(auth.value, info))] + g.paymentIntents,
                        nextId := g.nextId + 1)
  {
    if auth.None? then IntentOutcome(NotAuthenticated, g)
    else if RejectsCents(amount) then IntentOutcome(InvalidAmount, g)
    else
      var created := g.CreatePaymentIntent(amount.value, "usd", IntentMetadata(auth.value, info));
      match created.result
      case Failure(_) => IntentOutcome(Failed, g)
      case Success(id) => IntentOutcome(Response(200, ClientSecretBody(id)), created.state)
  }

  /** A request without a session gets 401, and one whose amount is missing,
      zero or below 100 gets 400 "Invalid amount"; neither creates an
      intent. The 400 answer is given exactly in the second case. */
  lemma RejectedRequestCreatesNothing(g: GatewayState, auth: Option<AuthSession>, amount: Option<int>, info: Option<BillingInfo>)
    ensures auth.None? ==> PostOutcome(g, auth, amount, info) == IntentOutcome(NotAuthenticated, g)
    ensures auth.Some? && RejectsCents(amount) ==> PostOutcome(g, auth, amount, info) == IntentOutcome(InvalidAmount, g)
    ensures PostOutcome(g, auth, amount, info).response == InvalidAmount <==> auth.Some? && RejectsCents(amount)
  {
  }

  /** Without billing details every billing entry is empty. */
  lemma NoBillingInfoAllEmpty(auth: AuthSession)
    ensures var m := IntentMetadata(auth, None);
      m["billingName"] == m["billingEmail"] == m["billingAddress"] == m["billingCity"] == m["billingZip"] == ""
  {
  }

  /** An accepted request creates exactly one intent, for the amount
      unchanged, in usd, with exactly that metadata, and answers 200 with its
      client secret; a failing create answers 500 and changes nothing. */
  lemma AcceptedRequestCreatesOneIntent(g: GatewayState, a: AuthSession, amount: int, info: Option<BillingInfo>)
    requires amount >= 100
    ensures IntentsCreate !in g.faults ==>
      PostOutcome(g, Some(a), Some(amount), info) ==
        IntentOutcome(Response(200, ClientSecretBody(g.nextId)),
                      g.(paymentIntents := [PaymentIntent(g.nextId, amount, "usd", IntentMetadata(a, info))] + g.paymentIntents,
                         nextId := g.nextId + 1))
    ensures IntentsCreate in g.faults ==> PostOutcome(g, Some(a), Some(amount), info) == IntentOutcome(Failed, g)
  {
  }

  /** Only payment intents change at the gateway. */
  lemma OnlyIntentsChange(g: GatewayState, auth: Option<AuthSession>, amount: Option<int>, info: Option<BillingInfo>)
    ensures var out := PostOutcome(g, auth, amount, info).gateway;
      out == g.(paymentIntents := out.paymentIntents, nextId := out.nextId)
      && |out.paymentIntents| <= |g.paymentIntents| + 1
  {
  }
}
