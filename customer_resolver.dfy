/** The find-or-create of a gateway customer that four handlers repeat:
    create-checkout-session (lines 27-44), create-customer-portal-session
    (22-37), subscribe (35-40) and test-customer (26-42). The stored customer
    id is reused when present; otherwise one customer is created and its id
    written onto the user. The handlers differ only in the email and metadata
    they give the new customer, and in whether the user row may be missing
    when the resolver runs (only create-checkout-session lets it be). */
module CustomerResolver {
  import opened Common
  import opened Store
  import opened Gateway

  /** The error that reading `user.id` of a missing user row raises. */
  const NullUser := "Cannot read properties of null (reading 'id')"

  /** The customer id (or the error), with the store and the gateway as the
      resolver left them. */
  datatype Resolution = Resolution(customer: Result<GatewayId>, store: StoreState, gateway: GatewayState)

  function Resolve(s: StoreState, g: GatewayState, user: Option<User>, email: string, metadata: map<string, string>): (r: Resolution)
    ensures r.customer.Success? <==>
      user.Some? && (user.value.customerId.Some?
                     || (CustomersCreate !in g.faults && UpdateUser !in s.faults
                         && exists i :: 0 <= i < |s.users| && s.users[i].id == user.value.id))
    ensures r.customer.Success? ==>
      r.customer.value == if user.value.customerId.Some? then user.value.customerId.value else g.nextId
    ensures (r.gateway != g <==> (user.None? || user.value.customerId.None?) && CustomersCreate !in g.faults)
    ensures r.gateway == g
            || r.gateway == g.(customers := [Customer(g.nextId, email, metadata, g.now)] + g.customers, nextId := g.nextId + 1)
    ensures r.store == s || (r.customer.Success? && r.store == s.(users := r.store.users))
  {
    if user.Some? && user.value.customerId.Some? then
      Resolution(Success(user.value.customerId.value), s, g)
    else
      var created := g.CreateCustomer(email, metadata);
      match created.result
      case Failure(e) => Resolution(Failure(e), s, created.state)
      case Success(c) =>
        if user.None? then Resolution(Failure(NullUser), s, created.state)
        else
          var written := s.SetCustomerId(user.value.id, c);
          var result := if written.result.Success? then Success(c) else Failure(written.result.error);
          Resolution(result, written.state, created.state)
  }

  /** The resolver as the handlers run it, one call after the other. */
  method ResolveCustomer(store: UserStore, stripe: StripeGateway, user: Option<User>, email: string, metadata: map<string, string>)
    returns (r: Result<GatewayId>)
    modifies store, stripe
    ensures Resolution(r, store.State(), stripe.State()) == Resolve(old(store.State()), old(stripe.State()), user, email, metadata)
  {
    var customerId := if user.Some? then user.value.customerId else None;
    if customerId.Some? {
      return Success(customerId.value);
    }
    var created := stripe.CreateCustomer(email, metadata);
    if created.Failure? {
      return Failure(created.error);
    }
    if user.None? {
      return Failure(NullUser);
    }
    var written := store.SetCustomerId(user.value.id, created.value);
    r := if written.Success? then Success(created.value) else Failure(written.error);
  }

  /** The resolver keeps the store's and the gateway's invariants. */
  lemma ResolvePreservesValid(s: StoreState, g: GatewayState, user: Option<User>, email: string, metadata: map<string, string>)
    requires s.Valid() && g.Valid()
    ensures Resolve(s, g, user, email, metadata).store.Valid()
    ensures Resolve(s, g, user, email, metadata).gateway.Valid()
  {
  }

  /** A stored customer id is returned as it is, and neither the store nor
      the gateway is touched. */
  lemma ReusesStoredCustomer(s: StoreState, g: GatewayState, u: User, email: string, metadata: map<string, string>)
    requires u.customerId.Some?
    ensures Resolve(s, g, Some(u), email, metadata) == Resolution(Success(u.customerId.value), s, g)
  {
  }

  /** A user found by email without a customer id gets exactly one new
      customer, carrying `email` and `metadata`, whose fresh id is written
      onto that user and onto no other row; a later lookup by the same email
      finds the id. */
  lemma {:induction false} CreatesOneCustomer(s: StoreState, g: GatewayState, u: User, email: string, metadata: map<string, string>)
    requires s.Valid() && g.Valid()
    requires CustomersCreate !in g.faults && UpdateUser !in s.faults
    requires s.FindUserByEmail(u.email) == Success(Some(u))
    requires u.customerId.None?
    ensures var r := Resolve(s, g, Some(u), email, metadata);
      && r.customer == Success(g.nextId)
      && r.gateway.customers == [Customer(g.nextId, email, metadata, g.now)] + g.customers
      && (forall i :: 0 <= i < |g.customers| ==> g.customers[i].id != g.nextId)
      && r.gateway == g.(customers := r.gateway.customers, nextId := g.nextId + 1)
      && r.store.payments == s.payments && |r.store.users| == |s.users|
      && (forall i :: 0 <= i < |s.users| ==>
            r.store.users[i] == if s.users[i].id == u.id then u.(customerId := Some(g.nextId)) else s.users[i])
      && r.store.FindUserByEmail(u.email) == Success(Some(u.(customerId := Some(g.nextId))))
  {
    var g1 := g.(customers := [Customer(g.nextId, email, metadata, g.now)] + g.customers, nextId := g.nextId + 1);
    assert g.CreateCustomer(email, metadata) == Step(Success(g.nextId), g1);
    FindAfterCustomerSet(s, u, g.nextId);
    var written := s.SetCustomerId(u.id, g.nextId);
    assert Resolve(s, g, Some(u), email, metadata) == Resolution(Success(g.nextId), written.state, g1);
  }

  /** When the resolver succeeds for a user found by email, that user's row
      afterwards holds the returned customer id. */
  lemma {:induction false} ResolvedIdIsStored(s: StoreState, g: GatewayState, u: User, email: string, metadata: map<string, string>)
    requires s.Valid()
    requires s.FindUserByEmail(u.email) == Success(Some(u))
    requires Resolve(s, g, Some(u), email, metadata).customer.Success?
    ensures var r := Resolve(s, g, Some(u), email, metadata);
      r.store.FindUserByEmail(u.email) == Success(Some(u.(customerId := Some(r.customer.value))))
  {
    if u.customerId.None? {
      FindAfterCustomerSet(s, u, g.nextId);
    } else {
      assert u.(customerId := u.customerId) == u;
    }
  }

  /** Resolving twice for the same user, the second time with the row the
      first call left, creates at most one customer in all and yields the
      same id both times. */
  lemma {:induction false} ResolveTwiceCreatesAtMostOne(s: StoreState, g: GatewayState, u: User, email: string, metadata: map<string, string>)
    requires s.Valid()
    requires s.FindUserByEmail(u.email) == Success(Some(u))
    requires Resolve(s, g, Some(u), email, metadata).customer.Success?
    ensures var r1 := Resolve(s, g, Some(u), email, metadata);
      var u1 := u.(customerId := Some(r1.customer.value));
      && r1.store.FindUserByEmail(u.email) == Success(Some(u1))
      && Resolve(r1.store, r1.gateway, Some(u1), email, metadata) == Resolution(r1.customer, r1.store, r1.gateway)
      && |r1.gateway.customers| <= |g.customers| + 1
  {
    ResolvedIdIsStored(s, g, u, email, metadata);
  }

  /** With no user row the resolver still creates the customer before it
      fails, leaving a customer that no row refers to; the store is
      untouched. */
  lemma MissingRowOrphansCustomer(s: StoreState, g: GatewayState, email: string, metadata: map<string, string>)
    requires CustomersCreate !in g.faults
    ensures var r := Resolve(s, g, None, email, metadata);
      && r.customer == Failure(NullUser)
      && r.store == s
      && r.gateway.customers == [Customer(g.nextId, email, metadata, g.now)] + g.customers
  {
  }

  /** When the customer create fails, nothing changes anywhere. */
  lemma GatewayFailureChangesNothing(s: StoreState, g: GatewayState, user: Option<User>, email: string, metadata: map<string, string>)
    requires CustomersCreate in g.faults
    ensures var r := Resolve(s, g, user, email, metadata);
      && r.store == s && r.gateway == g
      && (r.customer.Failure? ==> r.customer.error == g.faults[CustomersCreate])
  {
  }
}
