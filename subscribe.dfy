/** `POST` of src/app/api/subscribe/route.js: a monthly subscription for a
    whole number of dollars between 1 and 100, sold through a product and a
    price that are found or created per amount. The handler catches nothing:
    any failing call, and a session email without a user row, end the request
    with the framework's 500, keeping whatever was created before. */
module Subscribe {
  import opened Common
  import opened Store
  import opened Gateway
  import opened Http
  import opened Amounts
  import opened CustomerResolver
  import opened Catalogue

  /** The parameters of the checkout session: the stored customer, one unit
      of the chosen price, subscription mode, no metadata. */
  function SubscriptionSession(customer: GatewayId, price: GatewayId): (p: SessionParams)
    ensures p.customer == Some(customer) && p.mode == SubscriptionMode && p.metadata == map[] && p.subscriptionMetadata == map[]
    ensures |p.lineItems| == 1 && p.lineItems[0].quantity == 1 && p.lineItems[0].price == PriceRef(price)
  {
    SessionParams(Some(customer), [LineItem(PriceRef(price), 1)], SubscriptionMode, map[], map[])
  }

  /** Lines 34-53, once the price is chosen: the user row, its customer,
      and the session. */
  function SubscribeUser(s: StoreState, g: GatewayState, a: AuthSession, price: GatewayId): (out: Outcome)
    ensures out.gateway.products == g.products && out.gateway.prices == g.prices && out.gateway.faults == g.faults
    ensures out.response.status != 200 ==> out.response == UnhandledError && out.gateway.checkoutSessions == g.checkoutSessions
    ensures out.response.status == 200 ==> |out.gateway.checkoutSessions| == |g.checkoutSessions| + 1
  {
    match s.FindUserByEmail(a.email)
    case Failure(_) => Outcome(UnhandledError, s, g)
    case Success(None) => Outcome(UnhandledError, s, g)
    case Success(Some(u)) =>
      var r := Resolve(s, g, Some(u), u.email, map[]);
      match r.customer
      case Failure(_) => Outcome(UnhandledError, r.store, r.gateway)
      case Success(c) =>
        var created := r.gateway.CreateCheckoutSession(SubscriptionSession(c, price));
        match created.result
        case Failure(_) => Outcome(UnhandledError, r.store, created.state)
        case Success(id) => Outcome(Response(200, UrlBody(CheckoutUrl(id))), r.store, created.state)
  }

  /** The answer is 401, 400, the framework's 500 or a checkout URL; a 200
      answer follows an accepted amount and adds exactly one session. The
      payment table never changes. */
  function PostOutcome(s: StoreState, g: GatewayState, auth: Option<AuthSession>, amount: Option<int>): (out: Outcome)
    ensures out.response in {NotAuthenticated, InvalidAmount, UnhandledError} || out.response.body.UrlBody?
    ensures out.response.status == 200 ==>
      auth.Some? && !RejectsDollars(amount) && |out.gateway.checkoutSessions| == |g.checkoutSessions| + 1
    ensures out.response.status != 200 ==> out.gateway.checkoutSessions == g.checkoutSessions
    ensures out.store.payments == s.payments
  {
    if auth.None? then Outcome(NotAuthenticated, s, g)
    else if RejectsDollars(amount) then Outcome(InvalidAmount, s, g)
    else
      var catalogue := FindOrCreate(g, amount.value);
      match catalogue.result
      case Failure(_) => Outcome(UnhandledError, s, catalogue.state)
      case Success(chosen) => SubscribeUser(s, catalogue.state, auth.value, chosen.price)
  }

  method Post(store: UserStore, stripe: StripeGateway, auth: Option<AuthSession>, amount: Option<int>) returns (response: Response)
    modifies store, stripe
    ensures Outcome(response, store.State(), stripe.State()) == PostOutcome(old(store.State()), old(stripe.State()), auth, amount)
  {
    if auth.None? {
      return NotAuthenticated;
    }
    if RejectsDollars(amount) {
      return InvalidAmount;
    }
    var a := auth.value;
    var chosen := FindOrCreateCatalogue(stripe, amount.value);
    if chosen.Failure? {
      return UnhandledError;
    }
    var user := store.FindUserByEmail(a.email);
    if user.Failure? || user.value.None? {
      return UnhandledError;
    }
    var u := user.value.value;
    var customer := ResolveCustomer(store, stripe, Some(u), u.email, map[]);
    if customer.Failure? {
      return UnhandledError;
    }
    var session := stripe.CreateCheckoutSession(SubscriptionSession(customer.value, chosen.value.price));
    if session.Failure? {
      return UnhandledError;
    }
    response := Response(200, UrlBody(CheckoutUrl(session.value)));
  }

  /** A request without a session gets 401, and one whose amount is missing
      or outside 1 to 100 dollars gets 400 "Invalid amount"; neither changes
      anything. The 400 answer is given exactly in the second case. */
  lemma RejectedRequestChangesNothing(s: StoreState, g: GatewayState, auth: Option<AuthSession>, amount: Option<int>)
    ensures auth.None? ==> PostOutcome(s, g, auth, amount) == Outcome(NotAuthenticated, s, g)
    ensures auth.Some? && RejectsDollars(amount) ==> PostOutcome(s, g, auth, amount) == Outcome(InvalidAmount, s, g)
    ensures PostOutcome(s, g, auth, amount).response == InvalidAmount <==> auth.Some? && RejectsDollars(amount)
  {
  }

  /** Unlike the other three handlers that find or create a customer, this
      one creates it with the row's email and no metadata. A user without a
      customer id gets exactly one such customer, written onto that user
      only, and the one new session sells the chosen price to it. */
  lemma {:induction false} MissingCustomerCreatedOnce(s: StoreState, g: GatewayState, a: AuthSession, price: GatewayId, u: User)
    requires s.Valid() && g.Valid()
    requires s.FindUserByEmail(a.email) == Success(Some(u)) && u.customerId.None?
    requires CustomersCreate !in g.faults && SessionsCreate !in g.faults && UpdateUser !in s.faults
    ensures var out := SubscribeUser(s, g, a, price);
      && out.response == Response(200, UrlBody(CheckoutUrl(g.nextId + 1)))
      && out.gateway.customers == [Customer(g.nextId, u.email, map[], g.now)] + g.customers
      && out.gateway.checkoutSessions ==
           [CheckoutSession(g.nextId + 1, SubscriptionSession(g.nextId, price))] + g.checkoutSessions
      && out.store.payments == s.payments && |out.store.users| == |s.users|
      && (forall i :: 0 <= i < |s.users| ==>
            out.store.users[i] == if s.users[i].id == u.id then u.(customerId := Some(g.nextId)) else s.users[i])
  {
    CreatesOneCustomer(s, g, u, u.email, map[]);
  }

  /** A user who already has a customer id keeps it: no customer is created,
      the store is untouched, and the one new session sells the chosen price
      to that customer. */
  lemma ExistingCustomerReused(s: StoreState, g: GatewayState, a: AuthSession, price: GatewayId, u: User)
    requires s.FindUserByEmail(a.email) == Success(Some(u)) && u.customerId.Some?
    requires SessionsCreate !in g.faults
    ensures SubscribeUser(s, g, a, price) ==
      Outcome(Response(200, UrlBody(CheckoutUrl(g.nextId))), s,
              g.(checkoutSessions := [CheckoutSession(g.nextId, SubscriptionSession(u.customerId.value, price))] + g.checkoutSessions,
                 nextId := g.nextId + 1))
  {
  }

  /** Once the price is chosen, a 200 answer is the URL of one new session
      selling one unit of it to the customer now stored on the user. */
  lemma {:induction false} SubscribeUserSellsPrice(s: StoreState, g: GatewayState, a: AuthSession, price: GatewayId)
    requires s.Valid()
    requires SubscribeUser(s, g, a, price).response.status == 200
    ensures var out := SubscribeUser(s, g, a, price);
      && out.gateway.checkoutSessions[1..] == g.checkoutSessions
      && out.response.body == UrlBody(CheckoutUrl(out.gateway.checkoutSessions[0].id))
      && exists u: User :: out.store.FindUserByEmail(a.email) == Success(Some(u)) && u.customerId.Some?
           && out.gateway.checkoutSessions[0].params == SubscriptionSession(u.customerId.value, price)
  {
    var out := SubscribeUser(s, g, a, price);
    var u := s.FindUserByEmail(a.email).value.value;
    assert u.email == a.email;
    var r := Resolve(s, g, Some(u), u.email, map[]);
    var c := r.customer.value;
    var session := CheckoutSession(r.gateway.nextId, SubscriptionSession(c, price));
    assert out == Outcome(Response(200, UrlBody(CheckoutUrl(session.id))), r.store,
                          r.gateway.(checkoutSessions := [session] + r.gateway.checkoutSessions, nextId := r.gateway.nextId + 1));
    assert r.gateway.checkoutSessions == g.checkoutSessions;
    ResolvedIdIsStored(s, g, u, u.email, map[]);
    assert out.store.FindUserByEmail(a.email) == Success(Some(u.(customerId := Some(c))));
  }

  /** Every 200 answer follows an amount of 1 to 100 dollars and is the URL
      of one new session, which sells one unit of a monthly price of
      `amount * 100` cents to the customer now stored on the requesting user;
      that price and the product named for the amount it belongs to are both
      present at the gateway. */
  lemma {:induction false} SessionSellsMatchingPrice(s: StoreState, g: GatewayState, a: AuthSession, amount: Option<int>)
    requires s.Valid()
    requires g.faults.Keys !! CatalogueCalls
    requires PostOutcome(s, g, Some(a), amount).response.status == 200
    ensures var out := PostOutcome(s, g, Some(a), amount);
      && amount.Some? && 1 <= amount.value <= 100
      && |out.gateway.checkoutSessions| == |g.checkoutSessions| + 1
      && out.gateway.checkoutSessions[1..] == g.checkoutSessions
      && var session := out.gateway.checkoutSessions[0];
      && out.response.body == UrlBody(CheckoutUrl(session.id))
      && exists price :: price in out.gateway.prices && MonthlyAt(amount.value * 100)(price)
           && Product(price.product, ProductName(amount.value)) in out.gateway.products
           && exists u: User :: out.store.FindUserByEmail(a.email) == Success(Some(u)) && u.customerId.Some?
                && session.params == SubscriptionSession(u.customerId.value, price.id)
  {
    var out := PostOutcome(s, g, Some(a), amount);
    var dollars: nat := amount.value;
    var catalogue := FindOrCreate(g, dollars);
    FindOrCreateChoosesMatching(g, dollars);
    var chosen := catalogue.result.value;
    var g1 := catalogue.state;
    assert out == SubscribeUser(s, g1, a, chosen.price);
    SubscribeUserSellsPrice(s, g1, a, chosen.price);
    var i :| 0 <= i < |g1.prices| && g1.prices[i].id == chosen.price && g1.prices[i].product == chosen.product
             && MonthlyAt(dollars * 100)(g1.prices[i]);
    var price := g1.prices[i];
    assert price in out.gateway.prices;
    assert Product(price.product, ProductName(dollars)) in out.gateway.products;
    var u: User :| out.store.FindUserByEmail(a.email) == Success(Some(u)) && u.customerId.Some?
                   && out.gateway.checkoutSessions[0].params == SubscriptionSession(u.customerId.value, chosen.price);
  }

  /** Subscribing twice with the same amount, the second time on what the
      first request left, creates no second product, price or customer: the
      second session sells the same price to the same customer. */
  lemma {:induction false} RepeatReusesEverything(s: StoreState, g: GatewayState, a: AuthSession, amount: Option<int>)
    requires s.Valid()
    requires g.faults.Keys !! CatalogueCalls
    requires PostOutcome(s, g, Some(a), amount).response.status == 200
    ensures var out1 := PostOutcome(s, g, Some(a), amount);
      var out2 := PostOutcome(out1.store, out1.gateway, Some(a), amount);
      && out2.gateway.products == out1.gateway.products
      && out2.gateway.prices == out1.gateway.prices
      && out2.gateway.customers == out1.gateway.customers
      && out2.store == out1.store
      && (out2.response.status == 200 ==>
            out2.gateway.checkoutSessions[0].params == out1.gateway.checkoutSessions[0].params)
  {
    var out1 := PostOutcome(s, g, Some(a), amount);
    var dollars: nat := amount.value;
    var catalogue := FindOrCreate(g, dollars);
    var g1 := catalogue.state;
    var u := s.FindUserByEmail(a.email).value.value;
    assert u.email == a.email;
    var r := Resolve(s, g1, Some(u), u.email, map[]);
    ResolveTwiceCreatesAtMostOne(s, g1, u, u.email, map[]);
    var u1 := u.(customerId := Some(r.customer.value));
    assert out1.store == r.store;
    // the second find-or-create reuses the first one's product and price
    assert out1.gateway.products == g1.products && out1.gateway.prices == g1.prices;
    assert out1.gateway.faults == g.faults;
    RepeatReusesCatalogue(g, out1.gateway, dollars);
    // and the second resolver the stored customer
    assert out1.store.FindUserByEmail(a.email) == Success(Some(u1));
    ReusesStoredCustomer(out1.store, out1.gateway, u1, u1.email, map[]);
  }

  /** A session email without a user row fails with the framework's 500
      after the product and price were found or created; the store is
      untouched and no customer or session is created. */
  lemma MissingUserKeepsCatalogue(s: StoreState, g: GatewayState, a: AuthSession, dollars: int)
    requires 1 <= dollars <= 100
    requires s.FindUserByEmail(a.email) == Success(None)
    ensures var out := PostOutcome(s, g, Some(a), Some(dollars));
      && out.response == UnhandledError
      && out.store == s
      && out.gateway == FindOrCreate(g, dollars).state
      && out.gateway.customers == g.customers && out.gateway.checkoutSessions == g.checkoutSessions
  {
  }

  /** Every answer other than 200, 401 and 400 is the framework's 500, and
      after one no checkout session has been created. */
  lemma FailuresAreUnhandled(s: StoreState, g: GatewayState, a: AuthSession, amount: Option<int>)
    ensures var out := PostOutcome(s, g, Some(a), amount);
      out.response.status != 200 && out.response != InvalidAmount ==>
        out.response == UnhandledError && out.gateway.checkoutSessions == g.checkoutSessions
  {
  }

  /** Lines 34-53 keep the store's and the gateway's invariants. */
  lemma SubscribeUserPreservesValid(s: StoreState, g: GatewayState, a: AuthSession, price: GatewayId)
    requires s.Valid() && g.Valid()
    ensures SubscribeUser(s, g, a, price).store.Valid()
    ensures SubscribeUser(s, g, a, price).gateway.Valid()
  {
    if s.FindUserByEmail(a.email).Success? && s.FindUserByEmail(a.email).value.Some? {
      var u := s.FindUserByEmail(a.email).value.value;
      ResolvePreservesValid(s, g, Some(u), u.email, map[]);
    }
  }

  /** The handler keeps the store's and the gateway's invariants. */
  lemma PostPreservesValid(s: StoreState, g: GatewayState, auth: Option<AuthSession>, amount: Option<int>)
    requires s.Valid() && g.Valid()
    ensures PostOutcome(s, g, auth, amount).store.Valid()
    ensures PostOutcome(s, g, auth, amount).gateway.Valid()
  {
    if auth.Some? && !RejectsDollars(amount) {
      FindOrCreatePreservesValid(g, amount.value);
      var catalogue := FindOrCreate(g, amount.value);
      if catalogue.result.Success? {
        SubscribeUserPreservesValid(s, catalogue.state, auth.value, catalogue.result.value.price);
      }
    }
  }
}
