/** `GET` of src/app/api/test-customer/route.js: the signed-in user's
    gateway customer, found or created, reported with its ten most recent
    charges, each projected to id, amount, status and creation time. */
module TestCustomer {
  import opened Common
  import opened Store
  import opened Gateway
  import opened Http
  import opened CustomerResolver

  /** How many charges are listed. */
  const ChargeLimit: nat := 10

  /** The answer to an error the handler catches: its message. */
  function Failed(message: string): Response {
    Response(500, ErrorBody(message))
  }

  /** `charges.data.map(charge => ({ id, amount, status, created }))`. */
  function Project(charges: seq<Charge>): (r: seq<ChargeSummary>)
    ensures |r| == |charges|
    ensures forall i :: 0 <= i < |charges| ==>
      r[i] == ChargeSummary(charges[i].id, charges[i].amount, charges[i].status, charges[i].created)
  {
    if |charges| == 0 then []
    else [ChargeSummary(charges[0].id, charges[0].amount, charges[0].status, charges[0].created)] + Project(charges[1..])
  }

  /** Lines 45-66: the customer read back and its charges listed, as the
      body of the answer. It succeeds exactly when neither call fails and the
      customer exists, and then lists at most ten charges, all of it. */
  function Report(g: GatewayState, c: GatewayId): (r: Result<Body>)
    ensures r.Success? <==>
      CustomersRetrieve !in g.faults && ChargesList !in g.faults && exists i :: 0 <= i < |g.customers| && g.customers[i].id == c
    ensures r.Success? ==> r.value.CustomerReport? && r.value.customer.id == c && |r.value.charges| <= ChargeLimit
    ensures r.Failure? && CustomersRetrieve in g.faults ==> r.error == g.faults[CustomersRetrieve]
    ensures (r.Failure? && CustomersRetrieve !in g.faults && ChargesList in g.faults
             && exists i :: 0 <= i < |g.customers| && g.customers[i].id == c) ==>
      r.error == g.faults[ChargesList]
  {
    match g.RetrieveCustomer(c)
    case Failure(e) => Failure(e)
    case Success(customer) =>
      match g.ListCharges(c, ChargeLimit)
      case Failure(e) => Failure(e)
      case Success(charges) =>
        Success(CustomerReport(CustomerSummary(customer.id, customer.email, customer.created), Project(charges)))
  }

  /** The answer is 401, 404, a 500 with the failing call's message, or the
      report of one customer and at most ten of its charges. The payment
      table never changes, and at the gateway at most a customer is
      added. */
  function GetOutcome(s: StoreState, g: GatewayState, auth: Option<AuthSession>): (out: Outcome)
    ensures out.response in {NotAuthenticated, UserNotFound} || out.response.status in {200, 500}
    ensures out.response.status == 200 ==>
      out.response.body.CustomerReport? && |out.response.body.charges| <= ChargeLimit
    ensures out.response.status == 500 ==> out.response.body.ErrorBody?
    ensures out.store.payments == s.payments
    ensures out.gateway == g.(customers := out.gateway.customers, nextId := out.gateway.nextId)
    ensures out.gateway == g
            || (auth.Some? && out.gateway == g.(customers := [Customer(g.nextId, auth.value.email, UserIdMetadata(auth.value), g.now)] + g.customers,
                                                nextId := g.nextId + 1))
  {
    if auth.None? then Outcome(NotAuthenticated, s, g)
    else
      var a := auth.value;
      match s.FindUserByEmail(a.email)
      case Failure(e) => Outcome(Failed(e), s, g)
      case Success(None) => Outcome(UserNotFound, s, g)
      case Success(Some(u)) =>
        var r := Resolve(s, g, Some(u), a.email, UserIdMetadata(a));
        match r.customer
        case Failure(e) => Outcome(Failed(e), r.store, r.gateway)
        case Success(c) =>
          match Report(r.gateway, c)
          case Failure(e) => Outcome(Failed(e), r.store, r.gateway)
          case Success(body) => Outcome(Response(200, body), r.store, r.gateway)
  }

  method Get(store: UserStore, stripe: StripeGateway, auth: Option<AuthSession>) returns (response: Response)
    modifies store, stripe
    ensures Outcome(response, store.State(), stripe.State()) == GetOutcome(old(store.State()), old(stripe.State()), auth)
  {
    if auth.None? {
      return NotAuthenticated;
    }
    var a := auth.value;
    var user := store.FindUserByEmail(a.email);
    if user.Failure? {
      return Failed(user.error);
    }
    if user.value.None? {
      return UserNotFound;
    }
    var customerId := ResolveCustomer(store, stripe, user.value, a.email, UserIdMetadata(a));
    if customerId.Failure? {
      return Failed(customerId.error);
    }
    var customer := stripe.RetrieveCustomer(customerId.value);
    if customer.Failure? {
      return Failed(customer.error);
    }
    var charges := stripe.ListCharges(customerId.value, ChargeLimit);
    if charges.Failure? {
      return Failed(charges.error);
    }
    var c := customer.value;
    response := Response(200, CustomerReport(CustomerSummary(c.id, c.email, c.created), Project(charges.value)));
  }

  /** The projection keeps the order and the four fields: projecting a
      concatenation projects each part. */
  lemma {:induction false} ProjectAppend(a: seq<Charge>, b: seq<Charge>)
    ensures Project(a + b) == Project(a) + Project(b)
  {
    var l, r := Project(a + b), Project(a) + Project(b);
    assert |l| == |r|;
    forall i | 0 <= i < |l| ensures l[i] == r[i] {
      if i >= |a| {
        assert (a + b)[i] == b[i - |a|];
      }
    }
  }

  /** A request without a session gets 401, and a session email with no user
      row 404 "User not found"; neither changes anything. The 404 answer is
      given exactly when the lookup finds no row. */
  lemma RejectedRequestChangesNothing(s: StoreState, g: GatewayState, auth: Option<AuthSession>)
    ensures auth.None? ==> GetOutcome(s, g, auth) == Outcome(NotAuthenticated, s, g)
    ensures auth.Some? && s.FindUserByEmail(auth.value.email) == Success(None) ==> GetOutcome(s, g, auth) == Outcome(UserNotFound, s, g)
    ensures GetOutcome(s, g, auth).response == UserNotFound <==> auth.Some? && s.FindUserByEmail(auth.value.email) == Success(None)
  {
  }

  /** A user whose stored customer id names a customer at the gateway gets
      the report of the first customer listed with that id, which the
      retrieve returns, and of its first ten listed charges, projected in
      order; nothing changes. */
  lemma ExistingCustomerReported(s: StoreState, g: GatewayState, a: AuthSession, u: User, c: Customer)
    requires s.FindUserByEmail(a.email) == Success(Some(u)) && u.customerId == Some(c.id)
    requires g.faults.Keys !! {CustomersRetrieve, ChargesList}
    requires First(g.customers, IsCustomer(c.id)) == Some(c)
    ensures GetOutcome(s, g, Some(a)) ==
      Outcome(Response(200, CustomerReport(CustomerSummary(c.id, c.email, c.created),
                                           Project(Page(Filter(g.charges, ForCustomer(c.id)), ChargeLimit)))), s, g)
  {
  }

  /** A user without a customer id gets exactly one new customer, with the
      session's email and `userId` metadata, written onto that user only;
      the report is of that customer, which has no charges yet. */
  lemma {:induction false} MissingCustomerCreatedOnce(s: StoreState, g: GatewayState, a: AuthSession, u: User)
    requires s.Valid() && g.Valid()
    requires s.FindUserByEmail(a.email) == Success(Some(u)) && u.customerId.None?
    requires g.faults.Keys !! {CustomersCreate, CustomersRetrieve, ChargesList}
    requires UpdateUser !in s.faults
    ensures var out := GetOutcome(s, g, Some(a));
      && out.response == Response(200, CustomerReport(CustomerSummary(g.nextId, a.email, g.now), []))
      && out.gateway.customers == [Customer(g.nextId, a.email, UserIdMetadata(a), g.now)] + g.customers
      && out.store.payments == s.payments && |out.store.users| == |s.users|
      && (forall i :: 0 <= i < |s.users| ==>
            out.store.users[i] == if s.users[i].id == u.id then u.(customerId := Some(g.nextId)) else s.users[i])
  {
    CreatesOneCustomer(s, g, u, a.email, UserIdMetadata(a));
    var g1 := Resolve(s, g, Some(u), a.email, UserIdMetadata(a)).gateway;
    var created := Customer(g.nextId, a.email, UserIdMetadata(a), g.now);
    FirstOfPrepended(created, g.customers, IsCustomer(g.nextId));
    assert g1.charges == g.charges;
    FilterNoneKept(g.charges, ForCustomer(g.nextId));
  }

  /** Every 200 answer reports the customer now stored on the requesting
      user, with at most ten charges, each the projection of a charge of that
      customer at the gateway. */
  lemma {:induction false} ReportIsOfStoredCustomer(s: StoreState, g: GatewayState, a: AuthSession)
    requires s.Valid()
    requires GetOutcome(s, g, Some(a)).response.status == 200
    ensures var out := GetOutcome(s, g, Some(a));
      && out.response.body.CustomerReport?
      && var report := out.response.body;
      && |report.charges| <= ChargeLimit
      && (exists u: User :: out.store.FindUserByEmail(a.email) == Success(Some(u)) && u.customerId == Some(report.customer.id))
      && (forall i :: 0 <= i < |report.charges| ==>
            exists ch :: ch in out.gateway.charges && ch.customer == report.customer.id
              && report.charges[i] == ChargeSummary(ch.id, ch.amount, ch.status, ch.created))
  {
    var out := GetOutcome(s, g, Some(a));
    var u := s.FindUserByEmail(a.email).value.value;
    var r := Resolve(s, g, Some(u), a.email, UserIdMetadata(a));
    var c := r.customer.value;
    ResolvedIdIsStored(s, g, u, a.email, UserIdMetadata(a));
    assert out.store.FindUserByEmail(a.email) == Success(Some(u.(customerId := Some(c))));
    var listed := Page(Filter(r.gateway.charges, ForCustomer(c)), ChargeLimit);
    var report := out.response.body;
    assert report.charges == Project(listed);
    forall i | 0 <= i < |report.charges|
      ensures exists ch :: ch in out.gateway.charges && ch.customer == report.customer.id
                && report.charges[i] == ChargeSummary(ch.id, ch.amount, ch.status, ch.created)
    {
      var ch := listed[i];
      assert ch == Filter(r.gateway.charges, ForCustomer(c))[i];
      assert ch in out.gateway.charges && ForCustomer(c)(ch);
    }
  }

  /** Every error after the lookup is answered 500 with the failing call's
      message; a failing lookup changes nothing. */
  lemma FailuresCarryMessage(s: StoreState, g: GatewayState, a: AuthSession, u: User)
    ensures var out := GetOutcome(s, g, Some(a));
      out.response.status != 200 && out.response != UserNotFound ==>
        out.response.status == 500 && out.response.body.ErrorBody?
    ensures FindUser in s.faults ==> GetOutcome(s, g, Some(a)) == Outcome(Failed(s.faults[FindUser]), s, g)
    ensures s.FindUserByEmail(a.email) == Success(Some(u)) && u.customerId.None? && CustomersCreate in g.faults ==>
      GetOutcome(s, g, Some(a)) == Outcome(Failed(g.faults[CustomersCreate]), s, g)
    ensures s.FindUserByEmail(a.email) == Success(Some(u)) && u.customerId.None?
            && CustomersCreate !in g.faults && UpdateUser in s.faults ==>
      GetOutcome(s, g, Some(a)).response == Failed(s.faults[UpdateUser])
    ensures s.FindUserByEmail(a.email) == Success(Some(u)) && u.customerId.Some? && CustomersRetrieve in g.faults ==>
      GetOutcome(s, g, Some(a)) == Outcome(Failed(g.faults[CustomersRetrieve]), s, g)
    ensures s.FindUserByEmail(a.email) == Success(Some(u)) && u.customerId.Some?
            && (exists i :: 0 <= i < |g.customers| && g.customers[i].id == u.customerId.value)
            && CustomersRetrieve !in g.faults && ChargesList in g.faults ==>
      GetOutcome(s, g, Some(a)) == Outcome(Failed(g.faults[ChargesList]), s, g)
  {
  }

  /** The handler keeps the store's and the gateway's invariants. */
  lemma GetPreservesValid(s: StoreState, g: GatewayState, auth: Option<AuthSession>)
    requires s.Valid() && g.Valid()
    ensures GetOutcome(s, g, auth).store.Valid()
    ensures GetOutcome(s, g, auth).gateway.Valid()
  {
    var out := GetOutcome(s, g, auth);
    if auth.Some? && s.FindUserByEmail(auth.value.email).Success? && s.FindUserByEmail(auth.value.email).value.Some? {
      var a := auth.value;
      var user := s.FindUserByEmail(a.email).value;
      ResolvePreservesValid(s, g, user, a.email, UserIdMetadata(a));
      var r := Resolve(s, g, user, a.email, UserIdMetadata(a));
      assert out.store == r.store;
      assert out.gateway == r.gateway;
    }
  }
}
