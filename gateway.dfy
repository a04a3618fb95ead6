/** The payment gateway as the handlers see it through its SDK: customers,
    products, prices, checkout sessions, billing-portal sessions, payment
    intents and charges. Every create call hands out the next id of one
    counter. Every list call returns its objects newest first, as the gateway
    documents, so a create puts the new object in front of its list. */
module Gateway {
  import opened Common

  datatype Customer = Customer(id: GatewayId, email: string, metadata: map<string, string>, created: nat)

  datatype Product = Product(id: GatewayId, name: string)

  /** A price; `interval` is the `recurring.interval`, None for a one-off
      price. */
  datatype Price = Price(id: GatewayId, product: GatewayId, unitAmount: int, currency: string, interval: Option<string>)

  /** A line item's price: given inline (`price_data`) or by the id of an
      existing price. */
  datatype PriceSpec =
    | InlinePrice(currency: string, unitAmount: Option<int>, interval: Option<string>)
    | PriceRef(price: GatewayId)

  datatype LineItem = LineItem(price: PriceSpec, quantity: nat)

  datatype Mode = PaymentMode | SubscriptionMode

  /** The parameters of `checkout.sessions.create` that the model keeps. */
  datatype SessionParams = SessionParams(
    customer: Option<GatewayId>,
    lineItems: seq<LineItem>,
    mode: Mode,
    metadata: map<string, string>,
    subscriptionMetadata: map<string, string>)

  datatype CheckoutSession = CheckoutSession(id: GatewayId, params: SessionParams)

  datatype PortalSession = PortalSession(id: GatewayId, customer: GatewayId)

  datatype PaymentIntent = PaymentIntent(id: GatewayId, amount: int, currency: string, metadata: map<string, string>)

  datatype Charge = Charge(
    id: GatewayId,
    customer: GatewayId,
    amount: int,
    currency: string,
    status: string,
    created: nat,
    description: string)

  /** The error the gateway raises for an unknown customer id. */
  const NoSuchCustomer := "No such customer"

  function ForProduct(product: GatewayId): Price -> bool {
    (p: Price) => p.product == product
  }

  function ForCustomer(customer: GatewayId): Charge -> bool {
    (c: Charge) => c.customer == customer
  }

  function IsCustomer(id: GatewayId): Customer -> bool {
    (c: Customer) => c.id == id
  }

  /** The SDK calls the handlers make. */
  datatype GatewayCall =
    | CustomersCreate | CustomersRetrieve | ProductsList | ProductsCreate | PricesList | PricesCreate
    | SessionsCreate | PortalSessionsCreate | IntentsCreate | ChargesList

  /** The gateway as a value. `now` is its clock, read for creation times;
      `faults` maps each call that currently fails to the error it raises
      (the gateway is unreachable, rejects the request, or the key lacks the
      permission for that call). */
  datatype GatewayState = GatewayState(
    customers: seq<Customer>,
    products: seq<Product>,
    prices: seq<Price>,
    checkoutSessions: seq<CheckoutSession>,
    portalSessions: seq<PortalSession>,
    paymentIntents: seq<PaymentIntent>,
    charges: seq<Charge>,
    nextId: GatewayId,
    now: nat,
    faults: map<GatewayCall, string>)
  {
    /** Every object the gateway created carries an id below the counter, and
        every charge belongs to a customer id the gateway handed out. */
    ghost predicate Valid() {
      && (forall i :: 0 <= i < |customers| ==> customers[i].id < nextId)
      && (forall i :: 0 <= i < |products| ==> products[i].id < nextId)
      && (forall i :: 0 <= i < |prices| ==> prices[i].id < nextId)
      && (forall i :: 0 <= i < |checkoutSessions| ==> checkoutSessions[i].id < nextId)
      && (forall i :: 0 <= i < |portalSessions| ==> portalSessions[i].id < nextId)
      && (forall i :: 0 <= i < |paymentIntents| ==> paymentIntents[i].id < nextId)
      && (forall i :: 0 <= i < |charges| ==> charges[i].customer < nextId)
    }

    /** `customers.create({ email, metadata })`. */
    function CreateCustomer(email: string, metadata: map<string, string>): (st: Step<GatewayId, GatewayState>)
      ensures st.result.Failure? <==> CustomersCreate in faults
      ensures st.result.Failure? ==> st.state == this
      ensures st.result.Success? ==>
        && st.result.value == nextId
        && st.state == this.(customers := [Customer(nextId, email, metadata, now)] + customers, nextId := nextId + 1)
      ensures st.result.Success? && Valid() ==> forall i :: 0 <= i < |customers| ==> customers[i].id != st.result.value
      ensures Valid() ==> st.state.Valid()
    {
      if CustomersCreate in faults then Step(Failure(faults[CustomersCreate]), this)
      else Step(Success(nextId), this.(customers := [Customer(nextId, email, metadata, now)] + customers,
                                       nextId := nextId + 1))
    }

    /** `customers.retrieve(id)`. */
    function RetrieveCustomer(id: GatewayId): (r: Result<Customer>)
      ensures r.Success? ==> r.value in customers && r.value.id == id
      ensures r.Failure? <==> CustomersRetrieve in faults || forall i :: 0 <= i < |customers| ==> customers[i].id != id
    {
      if CustomersRetrieve in faults then Failure(faults[CustomersRetrieve])
      else match First(customers, IsCustomer(id))
        case None => Failure(NoSuchCustomer)
        case Some(c) => Success(c)
    }

    /** `products.list({ limit })`. */
    function ListProducts(limit: nat): Result<seq<Product>> {
      if ProductsList in faults then Failure(faults[ProductsList]) else Success(Page(products, limit))
    }

    /** `products.create({ name })`. */
    function CreateProduct(name: string): (st: Step<GatewayId, GatewayState>)
      ensures st.result.Failure? <==> ProductsCreate in faults
      ensures st.result.Failure? ==> st.state == this
      ensures st.result.Success? ==>
        && st.result.value == nextId
        && st.state == this.(products := [Product(nextId, name)] + products, nextId := nextId + 1)
      ensures Valid() ==> st.state.Valid()
    {
      if ProductsCreate in faults then Step(Failure(faults[ProductsCreate]), this)
      else Step(Success(nextId), this.(products := [Product(nextId, name)] + products, nextId := nextId + 1))
    }

    /** `prices.list({ product, limit })`. */
    function ListPrices(product: GatewayId, limit: nat): Result<seq<Price>> {
      if PricesList in faults then Failure(faults[PricesList]) else Success(Page(Filter(prices, ForProduct(product)), limit))
    }

    /** `prices.create({ product, unit_amount, currency, recurring })`. */
    function CreatePrice(product: GatewayId, unitAmount: int, currency: string, interval: Option<string>): (st: Step<GatewayId, GatewayState>)
      ensures st.result.Failure? <==> PricesCreate in faults
      ensures st.result.Failure? ==> st.state == this
      ensures st.result.Success? ==>
        && st.result.value == nextId
        && st.state == this.(prices := [Price(nextId, product, unitAmount, currency, interval)] + prices, nextId := nextId + 1)
      ensures Valid() ==> st.state.Valid()
    {
      if PricesCreate in faults then Step(Failure(faults[PricesCreate]), this)
      else Step(Success(nextId), this.(prices := [Price(nextId, product, unitAmount, currency, interval)] + prices,
                                       nextId := nextId + 1))
    }

    /** `checkout.sessions.create(params)`. */
    function CreateCheckoutSession(params: SessionParams): (st: Step<GatewayId, GatewayState>)
      ensures st.result.Failure? <==> SessionsCreate in faults
      ensures st.result.Failure? ==> st.state == this
      ensures st.result.Success? ==>
        && st.result.value == nextId
        && st.state == this.(checkoutSessions := [CheckoutSession(nextId, params)] + checkoutSessions, nextId := nextId + 1)
      ensures Valid() ==> st.state.Valid()
    {
      if SessionsCreate in faults then Step(Failure(faults[SessionsCreate]), this)
      else Step(Success(nextId), this.(checkoutSessions := [CheckoutSession(nextId, params)] + checkoutSessions,
                                       nextId := nextId + 1))
    }

    /** `billingPortal.sessions.create({ customer })`. */
    function CreatePortalSession(customer: GatewayId): (st: Step<GatewayId, GatewayState>)
      ensures st.result.Failure? <==> PortalSessionsCreate in faults
      ensures st.result.Failure? ==> st.state == this
      ensures st.result.Success? ==>
        && st.result.value == nextId
        && st.state == this.(portalSessions := [PortalSession(nextId, customer)] + portalSessions, nextId := nextId + 1)
      ensures Valid() ==> st.state.Valid()
    {
      if PortalSessionsCreate in faults then Step(Failure(faults[PortalSessionsCreate]), this)
      else Step(Success(nextId), this.(portalSessions := [PortalSession(nextId, customer)] + portalSessions,
                                       nextId := nextId + 1))
    }

    /** `paymentIntents.create({ amount, currency, metadata })`. */
    function CreatePaymentIntent(amount: int, currency: string, metadata: map<string, string>): (st: Step<GatewayId, GatewayState>)
      ensures st.result.Failure? <==> IntentsCreate in faults
      ensures st.result.Failure? ==> st.state == this
      ensures st.result.Success? ==>
        && st.result.value == nextId
        && st.state == this.(paymentIntents := [PaymentIntent(nextId, amount, currency, metadata)] + paymentIntents, nextId := nextId + 1)
      ensures Valid() ==> st.state.Valid()
    {
      if IntentsCreate in faults then Step(Failure(faults[IntentsCreate]), this)
      else Step(Success(nextId), this.(paymentIntents := [PaymentIntent(nextId, amount, currency, metadata)] + paymentIntents,
                                       nextId := nextId + 1))
    }

    /** `charges.list({ customer, limit })`. */
    function ListCharges(customer: GatewayId, limit: nat): Result<seq<Charge>> {
      if ChargesList in faults then Failure(faults[ChargesList]) else Success(Page(Filter(charges, ForCustomer(customer)), limit))
    }
  }

  /** The gateway client: each collection is a field that the calls reassign. */
  class StripeGateway {
    var customers: seq<Customer>
    var products: seq<Product>
    var prices: seq<Price>
    var checkoutSessions: seq<CheckoutSession>
    var portalSessions: seq<PortalSession>
    var paymentIntents: seq<PaymentIntent>
    var charges: seq<Charge>
    var nextId: GatewayId
    var now: nat
    var faults: map<GatewayCall, string>

    function State(): GatewayState
      reads this
    {
      GatewayState(customers, products, prices, checkoutSessions, portalSessions, paymentIntents,
                   charges, nextId, now, faults)
    }

    constructor (initial: GatewayState)
      ensures State() == initial
    {
      customers, products, prices := initial.customers, initial.products, initial.prices;
      checkoutSessions, portalSessions := initial.checkoutSessions, initial.portalSessions;
      paymentIntents, charges := initial.paymentIntents, initial.charges;
      nextId, now, faults := initial.nextId, initial.now, initial.faults;
    }

    method CreateCustomer(email: string, metadata: map<string, string>) returns (r: Result<GatewayId>)
      modifies this
      ensures Step(r, State()) == old(State()).CreateCustomer(email, metadata)
    {
      if CustomersCreate in faults {
        return Failure(faults[CustomersCreate]);
      }
      customers := [Customer(nextId, email, metadata, now)] + customers;
      r := Success(nextId);
      nextId := nextId + 1;
    }

    method RetrieveCustomer(id: GatewayId) returns (r: Result<Customer>)
      ensures r == State().RetrieveCustomer(id)
    {
      if CustomersRetrieve in faults {
        return Failure(faults[CustomersRetrieve]);
      }
      var c := First(customers, IsCustomer(id));
      r := if c.Some? then Success(c.value) else Failure(NoSuchCustomer);
    }

    method ListProducts(limit: nat) returns (r: Result<seq<Product>>)
      ensures r == State().ListProducts(limit)
    {
      if ProductsList in faults {
        return Failure(faults[ProductsList]);
      }
      r := Success(Page(products, limit));
    }

    method CreateProduct(name: string) returns (r: Result<GatewayId>)
      modifies this
      ensures Step(r, State()) == old(State()).CreateProduct(name)
    {
      if ProductsCreate in faults {
        return Failure(faults[ProductsCreate]);
      }
      products := [Product(nextId, name)] + products;
      r := Success(nextId);
      nextId := nextId + 1;
    }

    method ListPrices(product: GatewayId, limit: nat) returns (r: Result<seq<Price>>)
      ensures r == State().ListPrices(product, limit)
    {
      if PricesList in faults {
        return Failure(faults[PricesList]);
      }
      r := Success(Page(Filter(prices, ForProduct(product)), limit));
    }

    method CreatePrice(product: GatewayId, unitAmount: int, currency: string, interval: Option<string>) returns (r: Result<GatewayId>)
      modifies this
      ensures Step(r, State()) == old(State()).CreatePrice(product, unitAmount, currency, interval)
    {
      if PricesCreate in faults {
        return Failure(faults[PricesCreate]);
      }
      prices := [Price(nextId, product, unitAmount, currency, interval)] + prices;
      r := Success(nextId);
      nextId := nextId + 1;
    }

    method CreateCheckoutSession(params: SessionParams) returns (r: Result<GatewayId>)
      modifies this
      ensures Step(r, State()) == old(State()).CreateCheckoutSession(params)
    {
      if SessionsCreate in faults {
        return Failure(faults[SessionsCreate]);
      }
      checkoutSessions := [CheckoutSession(nextId, params)] + checkoutSessions;
      r := Success(nextId);
      nextId := nextId + 1;
    }

    method CreatePortalSession(customer: GatewayId) returns (r: Result<GatewayId>)
      modifies this
      ensures Step(r, State()) == old(State()).CreatePortalSession(customer)
    {
      if PortalSessionsCreate in faults {
        return Failure(faults[PortalSessionsCreate]);
      }
      portalSessions := [PortalSession(nextId, customer)] + portalSessions;
      r := Success(nextId);
      nextId := nextId + 1;
    }

    method CreatePaymentIntent(amount: int, currency: string, metadata: map<string, string>) returns (r: Result<GatewayId>)
      modifies this
      ensures Step(r, State()) == old(State()).CreatePaymentIntent(amount, currency, metadata)
    {
      if IntentsCreate in faults {
        return Failure(faults[IntentsCreate]);
      }
      paymentIntents := [PaymentIntent(nextId, amount, currency, metadata)] + paymentIntents;
      r := Success(nextId);
      nextId := nextId + 1;
    }

    method ListCharges(customer: GatewayId, limit: nat) returns (r: Result<seq<Charge>>)
      ensures r == State().ListCharges(customer, limit)
    {
      if ChargesList in faults {
        return Failure(faults[ChargesList]);
      }
      r := Success(Page(Filter(charges, ForCustomer(customer)), limit));
    }
  }
}
