/** `POST` of src/app/api/create-customer-portal-session/route.js: a
    billing-portal session for the signed-in user's gateway customer, which
    is found or created first. After the session is created the handler reads
    the customer and its last ten charges back (for its log only); a failure
    of either read still fails the request. */
module CreateCustomerPortalSession {
  import opened Common
  import opened Store
  import opened Gateway
  import opened Http
  import opened CustomerResolver

  /** How many charges the handler reads back. */
  const ChargeReadLimit: nat := 10

  /** The answer to an error the handler catches, with that error's message. */
  function Failed(message: string): Response {
    Response(500, ErrorWithDetails("Failed to create customer portal session", message))
  }

  /** The portal session for customer `c`, then the read-back of the
      customer and of its charges; the id is the session's. Only the session
      changes the gateway. */
  function OpenPortal(g: GatewayState, c: GatewayId): (st: Step<GatewayId, GatewayState>)
    ensures st.state == g || st.state == g.(portalSessions := [PortalSession(g.nextId, c)] + g.portalSessions, nextId := g.nextId + 1)
    ensures st.result.Success? ==> st.result.value == g.nextId && st.state != g
  {
    var portal := g.CreatePortalSession(c);
    match portal.result
    case Failure(e) => portal
    case Success(id) =>
      match portal.state.RetrieveCustomer(c)
      case Failure(e) => Step(Failure(e), portal.state)
      case Success(_) =>
        match portal.state.ListCharges(c, ChargeReadLimit)
        case Failure(e) => Step(Failure(e), portal.state)
        case Success(_) => portal
  }

  /** The answer is 401, 404, a 500 with the handler's fixed error, or the
      URL of the one portal session the request created. The payment table
      never changes, and neither do the products, prices and checkout
      sessions. */
  function PostOutcome(s: StoreState, g: GatewayState, auth: Option<AuthSession>): (out: Outcome)
    ensures out.response in {NotAuthenticated, UserNotFound} || out.response.status in {200, 500}
    ensures out.response.status == 200 ==>
      out.response.body.UrlBody? && |out.gateway.portalSessions| == |g.portalSessions| + 1
    ensures out.response.status == 500 ==>
      out.response.body.ErrorWithDetails? && out.response.body.error == "Failed to create customer portal session"
    ensures out.store.payments == s.payments
    ensures out.gateway.products == g.products && out.gateway.prices == g.prices
            && out.gateway.checkoutSessions == g.checkoutSessions
  {
    if auth.None? then Outcome(NotAuthenticated, s, g)
    else
      var a := auth.value;
      match s.FindUserByEmail(a.email)
      case Failure(e) => Outcome(Failed(e), s, g)
      case Success(None) => Outcome(UserNotFound, s, g)
      case Success(Some(u)) =>
        var r := Resolve(s, g, Some(u), a.email, UserIdMetadata(a));
        match r.customer
        case Failure(e) => Outcome(Failed(e), r.store, r.gateway)
        case Success(c) =>
          var portal := OpenPortal(r.gateway, c);
          match portal.result
          case Failure(e) => Outcome(Failed(e), r.store, portal.state)
          case Success(id) => Outcome(Response(200, UrlBody(PortalUrl(id))), r.store, portal.state)
  }

  method Post(store: UserStore, stripe: StripeGateway, auth: Option<AuthSession>) returns (response: Response)
    modifies store, stripe
    ensures Outcome(response, store.State(), stripe.State()) == PostOutcome(old(store.State()), old(stripe.State()), auth)
  {
    if auth.None? {
      return NotAuthenticated;
    }
    var a := auth.value;
    var user := store.FindUserByEmail(a.email);
    if user.Failure? {
      return Failed(user.error);
    }
    if user.value.None? {
      return UserNotFound;
    }
    var customer := ResolveCustomer(store, stripe, user.value, a.email, UserIdMetadata(a));
    if customer.Failure? {
      return Failed(customer.error);
    }
    var portal := stripe.CreatePortalSession(customer.value);
    if portal.Failure? {
      return Failed(portal.error);
    }
    var details := stripe.RetrieveCustomer(customer.value);
    if details.Failure? {
      return Failed(details.error);
    }
    var charges := stripe.ListCharges(customer.value, ChargeReadLimit);
    if charges.Failure? {
      return Failed(charges.error);
    }
    response := Response(200, UrlBody(PortalUrl(portal.value)));
  }

  /** A request without a session gets 401, and a session whose email has no
      user row gets 404 "User not found"; neither changes anything. The 404
      answer is given exactly when the lookup finds no row. */
  lemma RejectedRequestChangesNothing(s: StoreState, g: GatewayState, auth: Option<AuthSession>)
    ensures auth.None? ==> PostOutcome(s, g, auth) == Outcome(NotAuthenticated, s, g)
    ensures auth.Some? && s.FindUserByEmail(auth.value.email) == Success(None) ==> PostOutcome(s, g, auth) == Outcome(UserNotFound, s, g)
    ensures PostOutcome(s, g, auth).response == UserNotFound <==> auth.Some? && s.FindUserByEmail(auth.value.email) == Success(None)
  {
  }

  /** A user whose customer exists at the gateway gets a portal session for
      that customer; no customer is created and the store is untouched. */
  lemma ExistingCustomerReused(s: StoreState, g: GatewayState, a: AuthSession, u: User)
    requires s.FindUserByEmail(a.email) == Success(Some(u)) && u.customerId.Some?
    requires exists i :: 0 <= i < |g.customers| && g.customers[i].id == u.customerId.value
    requires g.faults.Keys !! {PortalSessionsCreate, CustomersRetrieve, ChargesList}
    ensures PostOutcome(s, g, Some(a)) ==
      Outcome(Response(200, UrlBody(PortalUrl(g.nextId))), s,
              g.(portalSessions := [PortalSession(g.nextId, u.customerId.value)] + g.portalSessions, nextId := g.nextId + 1))
  {
  }

  /** A user without a customer id gets exactly one new customer, with the
      session's email and `userId` metadata, written onto that user only;
      the portal session is for it. */
  lemma {:induction false} MissingCustomerCreatedOnce(s: StoreState, g: GatewayState, a: AuthSession, u: User)
    requires s.Valid() && g.Valid()
    requires s.FindUserByEmail(a.email) == Success(Some(u)) && u.customerId.None?
    requires g.faults.Keys !! {CustomersCreate, PortalSessionsCreate, CustomersRetrieve, ChargesList}
    requires UpdateUser !in s.faults
    ensures var out := PostOutcome(s, g, Some(a));
      && out.response == Response(200, UrlBody(PortalUrl(g.nextId + 1)))
      && out.gateway.customers == [Customer(g.nextId, a.email, UserIdMetadata(a), g.now)] + g.customers
      && out.gateway.portalSessions == [PortalSession(g.nextId + 1, g.nextId)] + g.portalSessions
      && out.store.payments == s.payments && |out.store.users| == |s.users|
      && (forall i :: 0 <= i < |s.users| ==>
            out.store.users[i] == if s.users[i].id == u.id then u.(customerId := Some(g.nextId)) else s.users[i])
  {
    CreatesOneCustomer(s, g, u, a.email, UserIdMetadata(a));
    var g1 := Resolve(s, g, Some(u), a.email, UserIdMetadata(a)).gateway;
    assert g1.customers[0].id == g.nextId;
  }

  /** Every 200 answer is the URL of one new portal session, and that session
      is for the customer now stored on the requesting user. */
  lemma {:induction false} SessionForStoredCustomer(s: StoreState, g: GatewayState, a: AuthSession)
    requires s.Valid()
    requires PostOutcome(s, g, Some(a)).response.status == 200
    ensures var out := PostOutcome(s, g, Some(a));
      && out.gateway.portalSessions == [out.gateway.portalSessions[0]] + g.portalSessions
      && out.response.body == UrlBody(PortalUrl(out.gateway.portalSessions[0].id))
      && exists u: User :: out.store.FindUserByEmail(a.email) == Success(Some(u))
           && u.customerId == Some(out.gateway.portalSessions[0].customer)
  {
    var out := PostOutcome(s, g, Some(a));
    var u := s.FindUserByEmail(a.email).value.value;
    var r := Resolve(s, g, Some(u), a.email, UserIdMetadata(a));
    ResolvedIdIsStored(s, g, u, a.email, UserIdMetadata(a));
    assert out.store.FindUserByEmail(a.email) == Success(Some(u.(customerId := Some(r.customer.value))));
  }

  /** Every other 500 carries the failing call's message: of the lookup, the
      customer create, the write of its id, the portal session, the read-back
      of the customer or of its charges. A failing lookup, customer create or
      portal session changes nothing; when a read-back fails, the portal
      session has nevertheless been created. */
  lemma FailuresAnswer500(s: StoreState, g: GatewayState, a: AuthSession, u: User)
    ensures var out := PostOutcome(s, g, Some(a));
      && (out.response.status != 200 && out.response != UserNotFound ==>
            out.response.status == 500 && out.response.body.ErrorWithDetails?
            && out.response.body.error == "Failed to create customer portal session")
      && (FindUser in s.faults ==> out == Outcome(Failed(s.faults[FindUser]), s, g))
    ensures s.FindUserByEmail(a.email) == Success(Some(u)) && u.customerId.None? && CustomersCreate in g.faults ==>
      PostOutcome(s, g, Some(a)) == Outcome(Failed(g.faults[CustomersCreate]), s, g)
    ensures s.FindUserByEmail(a.email) == Success(Some(u)) && u.customerId.None?
            && CustomersCreate !in g.faults && UpdateUser in s.faults ==>
      PostOutcome(s, g, Some(a)).response == Failed(s.faults[UpdateUser])
    ensures s.FindUserByEmail(a.email) == Success(Some(u)) && u.customerId.Some? && PortalSessionsCreate in g.faults ==>
      PostOutcome(s, g, Some(a)) == Outcome(Failed(g.faults[PortalSessionsCreate]), s, g)
    ensures s.FindUserByEmail(a.email) == Success(Some(u)) && u.customerId.Some?
            && PortalSessionsCreate !in g.faults && CustomersRetrieve in g.faults ==>
      var out := PostOutcome(s, g, Some(a));
      && out.response == Failed(g.faults[CustomersRetrieve])
      && out.gateway.portalSessions == [PortalSession(g.nextId, u.customerId.value)] + g.portalSessions
    ensures s.FindUserByEmail(a.email) == Success(Some(u)) && u.customerId.Some?
            && (exists i :: 0 <= i < |g.customers| && g.customers[i].id == u.customerId.value)
            && PortalSessionsCreate !in g.faults && CustomersRetrieve !in g.faults && ChargesList in g.faults ==>
      var out := PostOutcome(s, g, Some(a));
      && out.response == Failed(g.faults[ChargesList])
      && out.gateway.portalSessions == [PortalSession(g.nextId, u.customerId.value)] + g.portalSessions
  {
  }

  /** Two successful requests by the same account create at most one
      customer, and both portal sessions are for the same customer. */
  lemma {:induction false} TwiceCreatesAtMostOneCustomer(s: StoreState, g: GatewayState, a: AuthSession)
    requires s.Valid()
    requires PostOutcome(s, g, Some(a)).response.status == 200
    requires var out1 := PostOutcome(s, g, Some(a));
      PostOutcome(out1.store, out1.gateway, Some(a)).response.status == 200
    ensures var out1 := PostOutcome(s, g, Some(a));
      var out2 := PostOutcome(out1.store, out1.gateway, Some(a));
      && |out2.gateway.customers| <= |g.customers| + 1
      && out2.gateway.portalSessions[0].customer == out1.gateway.portalSessions[0].customer
  {
    var out1 := PostOutcome(s, g, Some(a));
    var u := s.FindUserByEmail(a.email).value.value;
    var r1 := Resolve(s, g, Some(u), a.email, UserIdMetadata(a));
    ResolveTwiceCreatesAtMostOne(s, g, u, a.email, UserIdMetadata(a));
    assert out1.store == r1.store;
  }

  /** The handler keeps the store's and the gateway's invariants. */
  lemma PostPreservesValid(s: StoreState, g: GatewayState, auth: Option<AuthSession>)
    requires s.Valid() && g.Valid()
    ensures PostOutcome(s, g, auth).store.Valid()
    ensures PostOutcome(s, g, auth).gateway.Valid()
  {
    if auth.Some? && s.FindUserByEmail(auth.value.email).Success? {
      var a := auth.value;
      var user := s.FindUserByEmail(a.email).value;
      ResolvePreservesValid(s, g, user, a.email, UserIdMetadata(a));
      var r := Resolve(s, g, user, a.email, UserIdMetadata(a));
      if user.Some? && r.customer.Success? {
        var portal := r.gateway.CreatePortalSession(r.customer.value);
        assert OpenPortal(r.gateway, r.customer.value).state == portal.state || OpenPortal(r.gateway, r.customer.value).state == r.gateway;
      }
    }
  }
}
