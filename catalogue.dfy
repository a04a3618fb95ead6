/** The product and price find-or-create of subscribe/route.js (lines 19-32):
    the product named `Monthly Subscription $<amount>` among the first 100
    listed products, created when none matches; then the monthly price of
    `amount * 100` cents among the first 100 listed prices of that product,
    created (in usd) when none matches. */
module Catalogue {
  import opened Common
  import opened Gateway

  /** The `limit` of both list calls. */
  const ListLimit: nat := 100

  /** The character of a decimal digit. */
  function Digit(d: nat): (c: char)
    requires d < 10
    ensures '0' <= c <= '9'
  {
    ('0' as int + d) as char
  }

  /** How a whole number is written into a template string: its decimal
      digits, without leading zeros. */
  function DecimalText(n: nat): (t: string)
    ensures n < 10 <==> |t| == 1
    ensures forall i :: 0 <= i < |t| ==> '0' <= t[i] <= '9'
  {
    if n < 10 then [Digit(n)] else DecimalText(n / 10) + [Digit(n % 10)]
  }

  /** Different numbers are written differently. */
  lemma {:induction false} DecimalTextInjective(a: nat, b: nat)
    requires DecimalText(a) == DecimalText(b)
    ensures a == b
  {
    if a >= 10 {
      var t := DecimalText(a);
      assert t == DecimalText(a / 10) + [Digit(a % 10)];
      assert t == DecimalText(b / 10) + [Digit(b % 10)];
      assert t[..|t| - 1] == DecimalText(a / 10) && t[..|t| - 1] == DecimalText(b / 10);
      DecimalTextInjective(a / 10, b / 10);
    }
  }

  /** `Monthly Subscription $${amount}`: the fixed prefix, then nothing but
      the amount's digits. */
  function ProductName(dollars: nat): (name: string)
    ensures |name| > |"Monthly Subscription $"| && name[..|"Monthly Subscription $"|] == "Monthly Subscription $"
    ensures forall i :: |"Monthly Subscription $"| <= i < |name| ==> '0' <= name[i] <= '9'
  {
    "Monthly Subscription $" + DecimalText(dollars)
  }

  /** Two different amounts never share a product: their names differ. */
  lemma {:induction false} ProductNamesDistinct(a: nat, b: nat)
    requires a != b
    ensures ProductName(a) != ProductName(b)
  {
    var prefix := "Monthly Subscription $";
    if ProductName(a) == ProductName(b) {
      assert DecimalText(a) == ProductName(a)[|prefix|..];
      assert DecimalText(b) == ProductName(b)[|prefix|..];
      DecimalTextInjective(a, b);
    }
  }

  /** `p => p.name === productName`. */
  function Named(name: string): Product -> bool {
    (p: Product) => p.name == name
  }

  /** `p => p.unit_amount === amount * 100 && p.recurring?.interval === 'month'`.
      The currency is not compared. */
  function MonthlyAt(cents: int): Price -> bool {
    (p: Price) => p.unitAmount == cents && p.interval == Some("month")
  }

  /** The calls of the find-or-create. */
  const CatalogueCalls := {ProductsList, ProductsCreate, PricesList, PricesCreate}

  /** The product and the price a subscription is sold with. */
  datatype Chosen = Chosen(product: GatewayId, price: GatewayId)

  /** Only products, prices and the id counter change. */
  function FindOrCreate(g: GatewayState, dollars: nat): (st: Step<Chosen, GatewayState>)
    ensures st.state == g.(products := st.state.products, prices := st.state.prices, nextId := st.state.nextId)
  {
    var name := ProductName(dollars);
    match g.ListProducts(ListLimit)
    case Failure(e) => Step(Failure(e), g)
    case Success(products) =>
      var found := First(products, Named(name));
      var p := if found.Some? then Step(Success(found.value.id), g) else g.CreateProduct(name);
      match p.result
      case Failure(e) => Step(Failure(e), p.state)
      case Success(pid) =>
        match p.state.ListPrices(pid, ListLimit)
        case Failure(e) => Step(Failure(e), p.state)
        case Success(prices) =>
          var price := First(prices, MonthlyAt(dollars * 100));
          var q := if price.Some? then Step(Success(price.value.id), p.state)
                   else p.state.CreatePrice(pid, dollars * 100, "usd", Some("month"));
          match q.result
          case Failure(e) => Step(Failure(e), q.state)
          case Success(qid) => Step(Success(Chosen(pid, qid)), q.state)
  }

  /** The find-or-create keeps the gateway's invariant. */
  lemma FindOrCreatePreservesValid(g: GatewayState, dollars: nat)
    requires g.Valid()
    ensures FindOrCreate(g, dollars).state.Valid()
  {
  }

  /** `items.find(matches)`: a linear search from the front. */
  method Find<T>(items: seq<T>, matches: T -> bool) returns (found: Option<T>)
    ensures found == First(items, matches)
  {
    var i := 0;
    while i < |items|
      invariant 0 <= i <= |items|
      invariant forall j :: 0 <= j < i ==> !matches(items[j])
    {
      if matches(items[i]) {
        return Some(items[i]);
      }
      i := i + 1;
    }
    found := None;
  }

  /** Lines 19-32 of subscribe/route.js, call by call. */
  method FindOrCreateCatalogue(stripe: StripeGateway, dollars: nat) returns (r: Result<Chosen>)
    modifies stripe
    ensures Step(r, stripe.State()) == FindOrCreate(old(stripe.State()), dollars)
  {
    var name := ProductName(dollars);
    var products := stripe.ListProducts(ListLimit);
    if products.Failure? {
      return Failure(products.error);
    }
    var product := Find(products.value, Named(name));
    var pid: GatewayId;
    if product.Some? {
      pid := product.value.id;
    } else {
      var created := stripe.CreateProduct(name);
      if created.Failure? {
        return Failure(created.error);
      }
      pid := created.value;
    }
    var prices := stripe.ListPrices(pid, ListLimit);
    if prices.Failure? {
      return Failure(prices.error);
    }
    var price := Find(prices.value, MonthlyAt(dollars * 100));
    var qid: GatewayId;
    if price.Some? {
      qid := price.value.id;
    } else {
      var created := stripe.CreatePrice(pid, dollars * 100, "usd", Some("month"));
      if created.Failure? {
        return Failure(created.error);
      }
      qid := created.value;
    }
    r := Success(Chosen(pid, qid));
  }

  /** What a successful find-or-create yields: a product with the amount's
      name and a monthly price of that product for `amount * 100` cents, both
      present in the gateway afterwards. A product is created exactly when
      none of the first 100 listed products has that name, and a usd monthly
      price of `amount * 100` cents exactly when none of the first 100 listed
      prices of the product is monthly at that amount; otherwise the products
      (or the prices) are untouched. */
  lemma {:induction false} FindOrCreateChoosesMatching(g: GatewayState, dollars: nat)
    requires g.faults.Keys !! CatalogueCalls
    ensures var st := FindOrCreate(g, dollars);
      && st.result.Success?
      && (exists i :: 0 <= i < |st.state.products| && st.state.products[i] == Product(st.result.value.product, ProductName(dollars)))
      && (exists i :: 0 <= i < |st.state.prices| && st.state.prices[i].id == st.result.value.price
            && st.state.prices[i].product == st.result.value.product
            && MonthlyAt(dollars * 100)(st.state.prices[i]))
      && ((forall i :: 0 <= i < |Page(g.products, ListLimit)| ==> Page(g.products, ListLimit)[i].name != ProductName(dollars))
          <==> st.state.products == [Product(g.nextId, ProductName(dollars))] + g.products)
      && (st.state.products == g.products || st.state.products == [Product(g.nextId, ProductName(dollars))] + g.products)
      && var listed := Page(Filter(g.prices, ForProduct(st.result.value.product)), ListLimit);
      && ((exists i :: 0 <= i < |listed| && MonthlyAt(dollars * 100)(listed[i])) <==> st.state.prices == g.prices)
      && (st.state.prices == g.prices
          || st.state.prices == [Price(st.result.value.price, st.result.value.product, dollars * 100, "usd", Some("month"))] + g.prices)
  {
    var name := ProductName(dollars);
    var page := Page(g.products, ListLimit);
    var found := First(page, Named(name));
    var p := if found.Some? then Step(Success(found.value.id), g) else g.CreateProduct(name);
    var pid := p.result.value;
    var g1 := p.state;
    var listed := Page(Filter(g1.prices, ForProduct(pid)), ListLimit);
    var price := First(listed, MonthlyAt(dollars * 100));
    var q := if price.Some? then Step(Success(price.value.id), g1)
             else g1.CreatePrice(pid, dollars * 100, "usd", Some("month"));
    var st := FindOrCreate(g, dollars);
    assert st == Step(Success(Chosen(pid, q.result.value)), q.state);
    // the product
    if found.Some? {
      var j :| 0 <= j < |page| && page[j] == found.value && Named(name)(found.value);
      assert q.state.products == g.products && g.products[j] == found.value;
      assert page[j].name == name;
    } else {
      assert q.state.products[0] == Product(g.nextId, name);
      assert q.state.products != g.products by {
        assert |q.state.products| == |g.products| + 1;
      }
    }
    // the price
    assert g1.prices == g.prices;
    if price.Some? {
      var j :| 0 <= j < |listed| && listed[j] == price.value && MonthlyAt(dollars * 100)(price.value);
      assert listed[j] in Filter(g1.prices, ForProduct(pid));
      assert q.state.prices == g1.prices;
      assert price.value in q.state.prices;
    } else {
      assert q.state.prices[0] == Price(g1.nextId, pid, dollars * 100, "usd", Some("month"));
      assert q.state.prices != g.prices by {
        assert |q.state.prices| == |g.prices| + 1;
      }
    }
  }

  /** Repeating the find-or-create with the same amount, on a gateway whose
      products and prices are those the first call left, finds the same
      product and price and creates nothing. */
  lemma {:induction false} RepeatReusesCatalogue(g: GatewayState, g2: GatewayState, dollars: nat)
    requires g.faults.Keys !! CatalogueCalls && g2.faults.Keys !! CatalogueCalls
    requires FindOrCreate(g, dollars).result.Success?
    requires g2.products == FindOrCreate(g, dollars).state.products
    requires g2.prices == FindOrCreate(g, dollars).state.prices
    ensures FindOrCreate(g2, dollars) == Step(FindOrCreate(g, dollars).result, g2)
  {
    var name := ProductName(dollars);
    var cents := dollars * 100;
    var page := Page(g.products, ListLimit);
    var found := First(page, Named(name));
    var p := if found.Some? then Step(Success(found.value.id), g) else g.CreateProduct(name);
    var pid := p.result.value;
    var g1 := p.state;
    var listed := Page(Filter(g1.prices, ForProduct(pid)), ListLimit);
    var price := First(listed, MonthlyAt(cents));
    var q := if price.Some? then Step(Success(price.value.id), g1)
             else g1.CreatePrice(pid, cents, "usd", Some("month"));
    assert FindOrCreate(g, dollars) == Step(Success(Chosen(pid, q.result.value)), q.state);
    // the second search of products finds the same product
    var page2 := Page(g2.products, ListLimit);
    if found.Some? {
      assert g2.products == g.products;
    } else {
      var np := Product(g.nextId, name);
      assert g2.products == [np] + g.products;
      PageOfPrepended(np, g.products, ListLimit);
      FirstOfPrepended(np, Page(g.products, ListLimit - 1), Named(name));
    }
    assert First(page2, Named(name)).Some? && First(page2, Named(name)).value.id == pid;
    // the second search of prices finds the same price
    var listed2 := Page(Filter(g2.prices, ForProduct(pid)), ListLimit);
    if price.Some? {
      assert g2.prices == g1.prices;
    } else {
      var np := Price(g1.nextId, pid, cents, "usd", Some("month"));
      assert g2.prices == [np] + g1.prices;
      FilterOfPrepended(np, g1.prices, ForProduct(pid));
      PageOfPrepended(np, Filter(g1.prices, ForProduct(pid)), ListLimit);
      FirstOfPrepended(np, Page(Filter(g1.prices, ForProduct(pid)), ListLimit - 1), MonthlyAt(cents));
    }
    assert First(listed2, MonthlyAt(cents)).Some? && First(listed2, MonthlyAt(cents)).value.id == q.result.value;
  }

  /** Only the first 100 products are searched: when none of them has the
      name, a product of that name further down the list is not found, and a
      second product with the same name is created. */
  lemma {:induction false} MatchBeyondFirstPageMissed(g: GatewayState, dollars: nat, k: nat)
    requires g.faults.Keys !! CatalogueCalls
    requires ListLimit <= k < |g.products| && g.products[k].name == ProductName(dollars)
    requires forall i :: 0 <= i < ListLimit ==> g.products[i].name != ProductName(dollars)
    ensures var st := FindOrCreate(g, dollars);
      && st.result.Success? && st.result.value.product == g.nextId
      && st.state.products == [Product(g.nextId, ProductName(dollars))] + g.products
  {
    var page := Page(g.products, ListLimit);
    assert forall i :: 0 <= i < |page| ==> page[i] == g.products[i];
    FindOrCreateChoosesMatching(g, dollars);
  }

  /** The same holds for prices: when the product is found and none of the
      first 100 listed prices of it is monthly at `amount * 100` cents, a
      matching price further down the list is not found, and a second one is
      created. */
  lemma {:induction false} PriceBeyondFirstPageMissed(g: GatewayState, dollars: nat, p: Product, k: nat)
    requires g.faults.Keys !! CatalogueCalls
    requires First(Page(g.products, ListLimit), Named(ProductName(dollars))) == Some(p)
    requires var own := Filter(g.prices, ForProduct(p.id));
      && ListLimit <= k < |own| && MonthlyAt(dollars * 100)(own[k])
      && forall i :: 0 <= i < ListLimit ==> !MonthlyAt(dollars * 100)(own[i])
    ensures var st := FindOrCreate(g, dollars);
      && st.result.Success? && st.result.value == Chosen(p.id, g.nextId)
      && st.state.prices == [Price(g.nextId, p.id, dollars * 100, "usd", Some("month"))] + g.prices
  {
    var own := Filter(g.prices, ForProduct(p.id));
    var listed := Page(own, ListLimit);
    assert forall i :: 0 <= i < |listed| ==> listed[i] == own[i];
    FindOrCreateChoosesMatching(g, dollars);
  }
}
