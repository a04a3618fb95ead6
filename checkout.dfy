/** `POST` of src/app/api/checkout/route.js: a one-off payment-mode checkout
    session for the requested amount, which is not validated, followed at
    once by a payment row for the signed-in user naming that session. The
    handler catches nothing: any failing call ends the request with the
    framework's 500. */
module Checkout {
  import opened Common
  import opened Store
  import opened Gateway
  import opened Http

  /** The parameters of the session: no customer, one unit of an inline usd
      price of `amount` cents with no recurrence, payment mode, no
      metadata. */
  function PaymentSession(amount: Option<int>): (p: SessionParams)
    ensures p.customer.None? && p.mode == PaymentMode && p.metadata == map[] && p.subscriptionMetadata == map[]
    ensures |p.lineItems| == 1 && p.lineItems[0].quantity == 1
    ensures p.lineItems[0].price == InlinePrice("usd", amount, None)
  {
    SessionParams(None, [LineItem(InlinePrice("usd", amount, None), 1)], PaymentMode, map[], map[])
  }

  /** The answer is 401, the framework's 500, or the URL of the one session
      the request created. The user table never changes; a payment row is
      added only with a 200 answer, and a session exists whenever the create
      worked, even when the request then fails. */
  function PostOutcome(s: StoreState, g: GatewayState, auth: Option<AuthSession>, amount: Option<int>): (out: Outcome)
    ensures out.response in {NotAuthenticated, UnhandledError, Response(200, UrlBody(CheckoutUrl(g.nextId)))}
    ensures out.store.users == s.users
    ensures out.response.status != 200 ==> out.store == s
    ensures out.response.status == 200 ==> |out.store.payments| == |s.payments| + 1
    ensures out.gateway == g
            || out.gateway == g.(checkoutSessions := [CheckoutSession(g.nextId, PaymentSession(amount))] + g.checkoutSessions,
                                 nextId := g.nextId + 1)
  {
    if auth.None? then Outcome(NotAuthenticated, s, g)
    else
      var created := g.CreateCheckoutSession(PaymentSession(amount));
      match created.result
      case Failure(_) => Outcome(UnhandledError, s, g)
      case Success(id) =>
        match s.FindUserByEmail(auth.value.email)
        case Failure(_) => Outcome(UnhandledError, s, created.state)
        case Success(None) => Outcome(UnhandledError, s, created.state)
        case Success(Some(u)) =>
          var inserted := s.InsertPayment(u.id, amount, id);
          if inserted.result.Failure? then Outcome(UnhandledError, s, created.state)
          else Outcome(Response(200, UrlBody(CheckoutUrl(id))), inserted.state, created.state)
  }

  method Post(store: UserStore, stripe: StripeGateway, auth: Option<AuthSession>, amount: Option<int>) returns (response: Response)
    modifies store, stripe
    ensures Outcome(response, store.State(), stripe.State()) == PostOutcome(old(store.State()), old(stripe.State()), auth, amount)
  {
    if auth.None? {
      return NotAuthenticated;
    }
    var session := stripe.CreateCheckoutSession(PaymentSession(amount));
    if session.Failure? {
      return UnhandledError;
    }
    var user := store.FindUserByEmail(auth.value.email);
    if user.Failure? || user.value.None? {
      return UnhandledError;
    }
    var inserted := store.InsertPayment(user.value.value.id, amount, session.value);
    if inserted.Failure? {
      return UnhandledError;
    }
    response := Response(200, UrlBody(CheckoutUrl(session.value)));
  }

  /** A request without a session gets 401 and changes nothing. */
  lemma NoSessionChangesNothing(s: StoreState, g: GatewayState, amount: Option<int>)
    ensures PostOutcome(s, g, None, amount) == Outcome(NotAuthenticated, s, g)
  {
  }

  /** Whatever the amount (missing, zero, negative), a signed-in request
      creates the session with that amount unchanged as its unit amount, in
      payment mode, quantity 1; the amount is never the reason for a
      failure. */
  lemma AmountNotValidated(s: StoreState, g: GatewayState, a: AuthSession, amount: Option<int>)
    requires SessionsCreate !in g.faults
    ensures var out := PostOutcome(s, g, Some(a), amount);
      && out.gateway == g.(checkoutSessions := [CheckoutSession(g.nextId, PaymentSession(amount))] + g.checkoutSessions,
                           nextId := g.nextId + 1)
      && out.gateway.checkoutSessions[0].params.lineItems == [LineItem(InlinePrice("usd", amount, None), 1)]
      && out.gateway.checkoutSessions[0].params.mode == PaymentMode
      && out.response != InvalidAmount
  {
  }

  /** With a user row for the session's email, the answer is 200 with the
      session's URL and exactly one payment is appended: for that user, with
      the requested amount, naming the session (not a payment) as its
      gateway id. It is recorded although no charge or payment intent
      exists. */
  lemma {:induction false} RecordsPaymentAtSessionCreation(s: StoreState, g: GatewayState, a: AuthSession, amount: int, u: User)
    requires s.faults.Keys !! {FindUser, CreatePayment} && SessionsCreate !in g.faults
    requires s.FindUserByEmail(a.email) == Success(Some(u))
    ensures var out := PostOutcome(s, g, Some(a), Some(amount));
      && out.response == Response(200, UrlBody(CheckoutUrl(g.nextId)))
      && out.store == s.(payments := s.payments + [Payment(s.nextPaymentId, u.id, amount, g.nextId)],
                         nextPaymentId := s.nextPaymentId + 1)
      && out.gateway.checkoutSessions[0].id == g.nextId
      && out.gateway.charges == g.charges && out.gateway.paymentIntents == g.paymentIntents
  {
    var k :| 0 <= k < |s.users| && s.users[k] == u;
    assert s.users[k].id == u.id;
  }

  /** Every 200 answer comes with exactly one new session and exactly one
      new payment naming it; users are never changed. */
  lemma SuccessPairsSessionAndPayment(s: StoreState, g: GatewayState, auth: Option<AuthSession>, amount: Option<int>)
    ensures PostOutcome(s, g, auth, amount).store.users == s.users
    ensures var out := PostOutcome(s, g, auth, amount);
      out.response.status == 200 ==>
        && amount.Some?
        && out.gateway.checkoutSessions == [CheckoutSession(g.nextId, PaymentSession(amount))] + g.checkoutSessions
        && out.store.payments == s.payments + [Payment(s.nextPaymentId, out.store.payments[|s.payments|].userId, amount.value, g.nextId)]
        && out.response.body == UrlBody(CheckoutUrl(g.nextId))
  {
  }

  /** With no user row for the session's email the session is still
      created, no payment is recorded, and the framework answers 500. */
  lemma MissingUserLeavesSession(s: StoreState, g: GatewayState, a: AuthSession, amount: Option<int>)
    requires SessionsCreate !in g.faults
    requires s.FindUserByEmail(a.email) == Success(None)
    ensures var out := PostOutcome(s, g, Some(a), amount);
      && out.response == UnhandledError
      && out.store == s
      && |out.gateway.checkoutSessions| == |g.checkoutSessions| + 1
  {
  }

  /** The handler keeps the store's and the gateway's invariants. */
  lemma PostPreservesValid(s: StoreState, g: GatewayState, auth: Option<AuthSession>, amount: Option<int>)
    requires s.Valid() && g.Valid()
    ensures PostOutcome(s, g, auth, amount).store.Valid()
    ensures PostOutcome(s, g, auth, amount).gateway.Valid()
  {
  }
}
