/** `POST` of src/app/api/create-checkout-session/route.js: a recurring
    monthly checkout session for an amount in cents. The request needs a
    session and an amount of at least 100; the user's gateway customer is
    found or created; the session carries the account id and email as
    metadata on the session and on the subscription it will start. */
module CreateCheckoutSession {
  import opened Common
  import opened Store
  import opened Gateway
  import opened Http
  import opened Amounts
  import opened CustomerResolver

  /** The answer to every error the handler catches. */
  const Failed := Response(500, ErrorBody("Failed to create checkout session"))

  /** `{ userId, userEmail }`, given both to the session and to its
      subscription. */
  function AccountMetadata(auth: AuthSession): (m: map<string, string>)
    ensures m.Keys == {"userId", "userEmail"} && m["userId"] == auth.userId && m["userEmail"] == auth.email
  {
    map["userId" := auth.userId, "userEmail" := auth.email]
  }

  /** The session asked for sells one unit of a monthly usd price of
      `amount` cents to `customer`, in subscription mode, and carries the
      account's `userId` and `userEmail`, and nothing else, both as session
      and as subscription metadata. */
  function SubscriptionSession(customer: GatewayId, amount: int, auth: AuthSession): (p: SessionParams)
    ensures p.customer == Some(customer) && p.mode == SubscriptionMode
    ensures p.lineItems == [LineItem(InlinePrice("usd", Some(amount), Some("month")), 1)]
    ensures p.metadata == p.subscriptionMetadata
    ensures p.metadata.Keys == {"userId", "userEmail"}
    ensures p.metadata["userId"] == auth.userId && p.metadata["userEmail"] == auth.email
  {
    SessionParams(
      Some(customer),
      [LineItem(InlinePrice("usd", Some(amount), Some("month")), 1)],
      SubscriptionMode,
      AccountMetadata(auth),
      AccountMetadata(auth))
  }

  /** The answer is 401, 400, 500 "Failed to create checkout session" or the
      URL of the one session the request created, which follows an accepted
      amount. The payment table never changes, and neither do the products,
      prices and portal sessions. */
  function PostOutcome(s: StoreState, g: GatewayState, auth: Option<AuthSession>, amount: Option<int>): (out: Outcome)
    ensures out.response in {NotAuthenticated, InvalidAmount, Failed} || out.response.body.UrlBody?
    ensures out.response.status == 200 ==>
      auth.Some? && !RejectsCents(amount) && |out.gateway.checkoutSessions| == |g.checkoutSessions| + 1
    ensures out.response.status != 200 ==> out.gateway.checkoutSessions == g.checkoutSessions
    ensures out.store.payments == s.payments
    ensures out.gateway.products == g.products && out.gateway.prices == g.prices && out.gateway.portalSessions == g.portalSessions
  {
    if auth.None? then Outcome(NotAuthenticated, s, g)
    else if RejectsCents(amount) then Outcome(InvalidAmount, s, g)
    else
      var a := auth.value;
      match s.FindUserByEmail(a.email)
      case Failure(_) => Outcome(Failed, s, g)
      case Success(user) =>
        var r := Resolve(s, g, user, a.email, UserIdMetadata(a));
        match r.customer
        case Failure(_) => Outcome(Failed, r.store, r.gateway)
        case Success(c) =>
          var created := r.gateway.CreateCheckoutSession(SubscriptionSession(c, amount.value, a));
          match created.result
          case Failure(_) => Outcome(Failed, r.store, created.state)
          case Success(id) => Outcome(Response(200, UrlBody(CheckoutUrl(id))), r.store, created.state)
  }

  method Post(store: UserStore, stripe: StripeGateway, auth: Option<AuthSession>, amount: Option<int>) returns (response: Response)
    modifies store, stripe
    ensures Outcome(response, store.State(), stripe.State()) == PostOutcome(old(store.State()), old(stripe.State()), auth, amount)
  {
    if auth.None? {
      return NotAuthenticated;
    }
    if RejectsCents(amount) {
      return InvalidAmount;
    }
    var a := auth.value;
    var user := store.FindUserByEmail(a.email);
    if user.Failure? {
      return Failed;
    }
    var customer := ResolveCustomer(store, stripe, user.value, a.email, UserIdMetadata(a));
    if customer.Failure? {
      return Failed;
    }
    var session := stripe.CreateCheckoutSession(SubscriptionSession(customer.value, amount.value, a));
    if session.Failure? {
      return Failed;
    }
    response := Response(200, UrlBody(CheckoutUrl(session.value)));
  }

  /** A request without a session gets 401, and one whose amount is missing,
      zero or below 100 gets 400 "Invalid amount"; neither touches the store
      or the gateway. The 400 answer is given exactly in the second case. */
  lemma RejectedRequestChangesNothing(s: StoreState, g: GatewayState, auth: Option<AuthSession>, amount: Option<int>)
    ensures auth.None? ==> PostOutcome(s, g, auth, amount) == Outcome(NotAuthenticated, s, g)
    ensures auth.Some? && RejectsCents(amount) ==> PostOutcome(s, g, auth, amount) == Outcome(InvalidAmount, s, g)
    ensures PostOutcome(s, g, auth, amount).response == InvalidAmount <==> auth.Some? && RejectsCents(amount)
  {
  }

  /** A user who already has a customer id keeps it: no customer is created,
      the store is untouched, and the one new session uses that id. */
  lemma ExistingCustomerReused(s: StoreState, g: GatewayState, a: AuthSession, amount: int, u: User)
    requires amount >= 100
    requires s.FindUserByEmail(a.email) == Success(Some(u)) && u.customerId.Some?
    requires SessionsCreate !in g.faults
    ensures PostOutcome(s, g, Some(a), Some(amount)) ==
      Outcome(Response(200, UrlBody(CheckoutUrl(g.nextId))), s,
              g.(checkoutSessions := [CheckoutSession(g.nextId, SubscriptionSession(u.customerId.value, amount, a))] + g.checkoutSessions,
                 nextId := g.nextId + 1))
  {
  }

  /** A user without a customer id gets exactly one new customer, with the
      session's email and `userId` metadata; its id is written onto that user
      only, and the session uses it. */
  lemma {:induction false} MissingCustomerCreatedOnce(s: StoreState, g: GatewayState, a: AuthSession, amount: int, u: User)
    requires s.Valid() && g.Valid()
    requires amount >= 100
    requires s.FindUserByEmail(a.email) == Success(Some(u)) && u.customerId.None?
    requires CustomersCreate !in g.faults && SessionsCreate !in g.faults && UpdateUser !in s.faults
    ensures var out := PostOutcome(s, g, Some(a), Some(amount));
      && out.response == Response(200, UrlBody(CheckoutUrl(g.nextId + 1)))
      && out.gateway.customers == [Customer(g.nextId, a.email, UserIdMetadata(a), g.now)] + g.customers
      && out.gateway.checkoutSessions ==
           [CheckoutSession(g.nextId + 1, SubscriptionSession(g.nextId, amount, a))] + g.checkoutSessions
      && out.store.payments == s.payments && |out.store.users| == |s.users|
      && (forall i :: 0 <= i < |s.users| ==>
            out.store.users[i] == if s.users[i].id == u.id then u.(customerId := Some(g.nextId)) else s.users[i])
  {
    CreatesOneCustomer(s, g, u, a.email, UserIdMetadata(a));
  }

  /** Every 200 answer follows an accepted amount and is the URL of one new
      session, asked for with the customer id now stored on the requesting
      user. */
  lemma {:induction false} SessionMatchesStoredCustomer(s: StoreState, g: GatewayState, a: AuthSession, amount: Option<int>)
    requires s.Valid()
    requires PostOutcome(s, g, Some(a), amount).response.status == 200
    ensures var out := PostOutcome(s, g, Some(a), amount);
      && amount.Some? && amount.value >= 100
      && |out.gateway.checkoutSessions| == |g.checkoutSessions| + 1
      && out.gateway.checkoutSessions[1..] == g.checkoutSessions
      && var session := out.gateway.checkoutSessions[0];
      && out.response.body == UrlBody(CheckoutUrl(session.id))
      && exists u: User :: out.store.FindUserByEmail(a.email) == Success(Some(u)) && u.customerId.Some?
           && session.params == SubscriptionSession(u.customerId.value, amount.value, a)
  {
    var out := PostOutcome(s, g, Some(a), amount);
    var u := s.FindUserByEmail(a.email).value.value;
    var r := Resolve(s, g, Some(u), a.email, UserIdMetadata(a));
    var c := r.customer.value;
    var session := CheckoutSession(r.gateway.nextId, SubscriptionSession(c, amount.value, a));
    assert out == Outcome(Response(200, UrlBody(CheckoutUrl(session.id))), r.store,
                          r.gateway.(checkoutSessions := [session] + r.gateway.checkoutSessions, nextId := r.gateway.nextId + 1));
    assert r.gateway.checkoutSessions == g.checkoutSessions;
    ResolvedIdIsStored(s, g, u, a.email, UserIdMetadata(a));
    assert out.store.FindUserByEmail(a.email) == Success(Some(u.(customerId := Some(c))));
  }

  /** With no row for the session's email, a customer is still created
      before the handler fails with 500, leaving a gateway customer that no
      user refers to; no session is created and the store is untouched. */
  lemma MissingUserOrphansCustomer(s: StoreState, g: GatewayState, a: AuthSession, amount: int)
    requires amount >= 100
    requires s.FindUserByEmail(a.email) == Success(None)
    requires CustomersCreate !in g.faults
    ensures var out := PostOutcome(s, g, Some(a), Some(amount));
      && out.response == Failed
      && out.store == s
      && out.gateway.customers == [Customer(g.nextId, a.email, UserIdMetadata(a), g.now)] + g.customers
      && out.gateway.checkoutSessions == g.checkoutSessions
  {
  }

  /** Two successful requests by the same account create at most one
      customer between them, and both sessions name the same customer. */
  lemma {:induction false} TwiceCreatesAtMostOneCustomer(s: StoreState, g: GatewayState, a: AuthSession, amount1: Option<int>, amount2: Option<int>)
    requires s.Valid()
    requires PostOutcome(s, g, Some(a), amount1).response.status == 200
    requires var out1 := PostOutcome(s, g, Some(a), amount1);
      PostOutcome(out1.store, out1.gateway, Some(a), amount2).response.status == 200
    ensures var out1 := PostOutcome(s, g, Some(a), amount1);
      var out2 := PostOutcome(out1.store, out1.gateway, Some(a), amount2);
      && |out2.gateway.customers| <= |g.customers| + 1
      && out2.gateway.checkoutSessions[0].params.customer == out1.gateway.checkoutSessions[0].params.customer
  {
    var out1 := PostOutcome(s, g, Some(a), amount1);
    var u := s.FindUserByEmail(a.email).value.value;
    var r1 := Resolve(s, g, Some(u), a.email, UserIdMetadata(a));
    ResolveTwiceCreatesAtMostOne(s, g, u, a.email, UserIdMetadata(a));
    assert out1.store == r1.store;
  }

  /** Every failure after validation answers 500 "Failed to create checkout
      session" and creates no session; a failing user lookup changes
      nothing. */
  lemma FailuresAnswer500(s: StoreState, g: GatewayState, a: AuthSession, amount: Option<int>)
    requires !RejectsCents(amount)
    ensures var out := PostOutcome(s, g, Some(a), amount);
      && (out.response.status != 200 ==> out.response == Failed && out.gateway.checkoutSessions == g.checkoutSessions)
      && (FindUser in s.faults ==> out == Outcome(Failed, s, g))
  {
  }

  /** The handler keeps the store's and the gateway's invariants. */
  lemma PostPreservesValid(s: StoreState, g: GatewayState, auth: Option<AuthSession>, amount: Option<int>)
    requires s.Valid() && g.Valid()
    ensures PostOutcome(s, g, auth, amount).store.Valid()
    ensures PostOutcome(s, g, auth, amount).gateway.Valid()
  {
    if auth.Some? && s.FindUserByEmail(auth.value.email).Success? {
      var a := auth.value;
      ResolvePreservesValid(s, g, s.FindUserByEmail(a.email).value, a.email, UserIdMetadata(a));
    }
  }
}
