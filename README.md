# Billing route handlers, modelled in Dafny

This project models the server-side billing logic of a Next.js site. The
logic lives in nine API route handlers. They work over two kinds of state:

- the site's own store: a users table and a payments table;
- the payment gateway (Stripe): customers, products, prices, checkout
  sessions, billing-portal sessions, payment intents and charges.

Each of the two is modelled twice:

- as a value (`Store.StoreState`, `Gateway.GatewayState`), with one pure
  function per SDK or database call;
- as a class (`Store.UserStore`, `Gateway.StripeGateway`) whose fields are
  the tables and collections, with one method per call. Each method is
  proved equal to the pure function.

Every create call on the gateway takes the next id of one counter and puts
the new object at the front of its list. Gateway lists are newest first.
A call fails, with a message, when its key is in the state's `faults` map.
That map stands for an unreachable service, a refused request or a database
constraint the model does not spell out.

Each handler is one module with these parts:

- a spec function, `PostOutcome` (or `GetOutcome`), from the states and the
  request to the response and the new states;
- a method, `Post` (or `Get`), that runs the handler call by call against
  the two classes. Its `ensures` ties its result and the new state of both
  objects to the spec function;
- lemmas about the spec function: what a rejected request changes
  (nothing), when customers, sessions and payment rows are created and how
  many, which users are touched, and that each handler keeps the tables'
  invariants.

Shared pieces have their own modules:

- the customer find-or-create that four handlers repeat
  (`CustomerResolver`);
- the three amount rules (`Amounts`);
- the product and price find-or-create of the subscribe route
  (`Catalogue`).

`PaymentFlow` links two handlers. The `userEmail` that create-payment-intent
writes into an intent is the key the payment webhook later uses to find the
user.

The model follows what the handlers do, including their gaps:

- A redelivered `payment_intent.succeeded` event is recorded twice. Nothing
  checks for an earlier row with the same gateway id
  (`WebhookPayment.RedeliveryRecordsTwice`).
- create-checkout-session creates a gateway customer before it reads the
  id of a user row that may be missing. That customer is then referenced by
  no user (`CreateCheckoutSession.MissingUserOrphansCustomer`).
- The checkout route records a payment as soon as the session exists,
  before anything is paid (`Checkout.RecordsPaymentAtSessionCreation`).

The customer id column is called `stripe_customer_id` by the hosted
Postgres client (create-checkout-session, create-customer-portal-session)
and `stripeCustomerId` by the ORM client (subscribe, test-customer). Both
are the single optional field `User.customerId`.

## Model

| member | source | states |
|---|---|---|
| Common.FirstIndex | src/app/api/subscribe/route.js:20 | the index found is that of a matching element with no match before it; None exactly when nothing matches |
| Common.First | src/app/api/subscribe/route.js:20 | `.find` yields an element exactly when some element matches, and what it yields is the first matching element of the list |
| Common.Filter | src/app/api/subscribe/route.js:24 | listing by product or customer keeps every matching element and only matching elements, never more than the list holds |
| Common.Page | src/app/api/subscribe/route.js:20 | a list call with `limit` returns the leading items of the list: all of them when the list is short, exactly `limit` otherwise |
| Store.StoreState.FindUserByEmail | src/lib/supabase.js:39-48 | the lookup fails exactly when the store call fails; otherwise it returns a row with that email, or None exactly when no row has it |
| Store.StoreState.SetCustomerId | src/lib/supabase.js:61-71 | the update succeeds exactly when the call works and a row has the id; then only that row's customer id changes, and the payments, counters and faults stay; on failure nothing changes; it keeps the table invariant |
| Store.StoreState.InsertUser | src/app/api/register/route.js:10-12 | the insert succeeds exactly when an email is given that no row has; then one row is appended with the next id and no customer id; on failure nothing changes |
| Store.StoreState.UpdateUserByEmail | src/app/api/profile/route.js:18 | the update succeeds exactly when the call works, a row has the email, and any new, different email belongs to no row; then only that row gets the new email and hash, each kept when absent, and the payments, counters and faults stay; on failure nothing changes |
| Store.StoreState.InsertPayment | src/app/api/webhook-payment/route.js:55-61 | the insert succeeds exactly when an amount is given and the user exists; then one payment row is appended with the next id; on failure nothing changes |
| Store.FindAfterCustomerSet | src/app/api/create-checkout-session/route.js:44 | setting the customer id of a user found by email changes that row alone, and a later lookup by that email finds the updated row |
| Store.UserStore.FindUserByEmail | src/app/api/subscribe/route.js:34 | the lookup on the table fields returns what the value-level lookup returns |
| Store.UserStore.SetCustomerId | src/app/api/test-customer/route.js:38-41 | the update leaves the fields in the state, and returns the result, of the value-level update |
| Store.UserStore.InsertUser | src/app/api/register/route.js:10-12 | the insert leaves the fields in the state, and returns the result, of the value-level insert |
| Store.UserStore.UpdateUserByEmail | src/app/api/profile/route.js:18 | the update leaves the fields in the state, and returns the result, of the value-level update |
| Store.UserStore.InsertPayment | src/app/api/checkout/route.js:37-43 | the insert leaves the fields in the state, and returns the result, of the value-level insert |
| Gateway.GatewayState.CreateCustomer | src/app/api/create-checkout-session/route.js:33-38 | the create fails exactly when its call fails, and then changes nothing; on success a customer with that email, metadata and the clock's time is put first under the next id, which is returned and differs from every existing customer's; the counter moves by one and nothing else changes; ids stay below the counter |
| Gateway.GatewayState.RetrieveCustomer | src/app/api/test-customer/route.js:45 | a retrieved customer is one of the gateway's, with that id; the call fails exactly when it is refused or no customer has the id |
| Gateway.GatewayState.CreateProduct | src/app/api/subscribe/route.js:22 | the create fails exactly when its call fails, and then changes nothing; on success a product with that name is put first under the next id, which is returned; the counter moves by one and nothing else changes; ids stay below the counter |
| Gateway.GatewayState.CreatePrice | src/app/api/subscribe/route.js:26-31 | the create fails exactly when its call fails, and then changes nothing; on success a price with that product, amount, currency and interval is put first under the next id, which is returned; the counter moves by one and nothing else changes; ids stay below the counter |
| Gateway.GatewayState.CreateCheckoutSession | src/app/api/create-checkout-session/route.js:53-84 | the create fails exactly when its call fails, and then changes nothing; on success a session with those parameters is put first under the next id, which is returned; the counter moves by one and nothing else changes; ids stay below the counter |
| Gateway.GatewayState.CreatePortalSession | src/app/api/create-customer-portal-session/route.js:42-45 | the create fails exactly when its call fails, and then changes nothing; on success a portal session for that customer is put first under the next id, which is returned; the counter moves by one and nothing else changes; ids stay below the counter |
| Gateway.GatewayState.CreatePaymentIntent | src/app/api/create-payment-intent/route.js:32-36 | the create fails exactly when its call fails, and then changes nothing; on success an intent with that amount, currency and metadata is put first under the next id, which is returned; the counter moves by one and nothing else changes; ids stay below the counter |
| Gateway.StripeGateway.CreateCustomer | src/app/api/test-customer/route.js:29-34 | the SDK call leaves the client's collections and counter as the value-level create does, with the same result |
| Gateway.StripeGateway.RetrieveCustomer | src/app/api/test-customer/route.js:45 | the SDK call returns what the value-level retrieve returns |
| Gateway.StripeGateway.ListProducts | src/app/api/subscribe/route.js:20 | the SDK call returns the first page of products, or the call's error |
| Gateway.StripeGateway.CreateProduct | src/app/api/subscribe/route.js:22 | the SDK call leaves the client's collections and counter as the value-level create does, with the same result |
| Gateway.StripeGateway.ListPrices | src/app/api/subscribe/route.js:24 | the SDK call returns the first page of that product's prices, or the call's error |
| Gateway.StripeGateway.CreatePrice | src/app/api/subscribe/route.js:26-31 | the SDK call leaves the client's collections and counter as the value-level create does, with the same result |
| Gateway.StripeGateway.CreateCheckoutSession | src/app/api/subscribe/route.js:42-49 | the SDK call leaves the client's collections and counter as the value-level create does, with the same result |
| Gateway.StripeGateway.CreatePortalSession | src/app/api/create-customer-portal-session/route.js:42-45 | the SDK call leaves the client's collections and counter as the value-level create does, with the same result |
| Gateway.StripeGateway.CreatePaymentIntent | src/app/api/create-payment-intent/route.js:32-36 | the SDK call leaves the client's collections and counter as the value-level create does, with the same result |
| Gateway.StripeGateway.ListCharges | src/app/api/test-customer/route.js:46-49 | the SDK call returns the first page of that customer's charges, or the call's error |
| Amounts.RejectsCents | src/app/api/create-checkout-session/route.js:16 | a request is refused exactly when its amount is missing or below 100 cents; every amount of at least 100 passes |
| Amounts.RejectsDollars | src/app/api/subscribe/route.js:15 | a request is refused exactly when its amount is missing or outside 1 to 100 dollars |
| CustomerResolver.ResolveCustomer | src/app/api/create-checkout-session/route.js:27-44 | the find-or-create, run call by call, returns the id and leaves the store and the gateway as the value-level resolver does |
| CustomerResolver.Resolve | src/app/api/create-customer-portal-session/route.js:22-37 | the find-or-create succeeds exactly when a user is given and it has a customer id, or the create and the write both work on an existing row; the id is the stored one or the new one; the gateway gains one customer exactly when none was stored and the create works; only the users table may change in the store |
| CustomerResolver.ResolvePreservesValid | src/app/api/create-customer-portal-session/route.js:22-37 | the find-or-create keeps the store's table constraints and the gateway's id invariant |
| CustomerResolver.ReusesStoredCustomer | src/app/api/create-checkout-session/route.js:27-29 | a stored customer id is returned as it is, with no create call and no write |
| CustomerResolver.CreatesOneCustomer | src/app/api/create-checkout-session/route.js:29-44 | with no stored id, exactly one customer is created with the given email and metadata; its new id is written onto that user only; a later lookup finds it |
| CustomerResolver.ResolvedIdIsStored | src/app/api/test-customer/route.js:26-42 | whenever the resolver succeeds, the user's row afterwards holds the returned id |
| CustomerResolver.ResolveTwiceCreatesAtMostOne | src/app/api/subscribe/route.js:35-40 | resolving again on what the first call left returns the same id and changes nothing, so at most one customer is created in all |
| CustomerResolver.MissingRowOrphansCustomer | src/app/api/create-checkout-session/route.js:22-44 | with no user row a customer is still created, then the handler fails; the store is untouched |
| CustomerResolver.GatewayFailureChangesNothing | src/app/api/create-checkout-session/route.js:33-38 | a failing customer create leaves the store and the gateway as they were and reports that call's error |
| Catalogue.Digit | src/app/api/subscribe/route.js:19 | a digit below ten is written as a character from '0' to '9' |
| Catalogue.DecimalText | src/app/api/subscribe/route.js:19 | a number is written in decimal digits only, as one digit exactly when it is below ten |
| Catalogue.DecimalTextInjective | src/app/api/subscribe/route.js:19 | two numbers with the same decimal text are equal |
| Catalogue.ProductName | src/app/api/subscribe/route.js:19 | a product name is the text `Monthly Subscription $` followed by nothing but the amount's digits |
| Catalogue.ProductNamesDistinct | src/app/api/subscribe/route.js:19 | different amounts have different product names, so they never share a product |
| Catalogue.FindOrCreate | src/app/api/subscribe/route.js:19-32 | the product and price find-or-create changes only products, prices and the id counter |
| Catalogue.FindOrCreatePreservesValid | src/app/api/subscribe/route.js:19-32 | the find-or-create keeps the gateway's id invariant |
| Catalogue.Find | src/app/api/subscribe/route.js:20 | the linear search returns the first matching element, or None when nothing matches |
| Catalogue.FindOrCreateCatalogue | src/app/api/subscribe/route.js:19-32 | the calls made one after the other return the product and price, and leave the gateway, as the value-level find-or-create does |
| Catalogue.FindOrCreateChoosesMatching | src/app/api/subscribe/route.js:19-32 | it yields a product with the amount's name and a monthly price of `amount * 100` cents for that product, both at the gateway; a product is created exactly when none of the first 100 has the name, and a usd monthly price exactly when none of the first 100 prices of the product is monthly at that amount; otherwise products and prices stay |
| Catalogue.RepeatReusesCatalogue | src/app/api/subscribe/route.js:20-32 | repeating with the same amount on the products and prices the first run left finds the same product and price and creates nothing |
| Catalogue.MatchBeyondFirstPageMissed | src/app/api/subscribe/route.js:20 | a product with the name beyond the first 100 listed is not found, and a duplicate is created |
| Catalogue.PriceBeyondFirstPageMissed | src/app/api/subscribe/route.js:24-31 | a matching price beyond the first 100 listed for the product is not found, and a duplicate price is created |
| CreateCheckoutSession.Post | src/app/api/create-checkout-session/route.js:8-96 | the handler, run call by call, gives the response and leaves the store and the gateway as the spec function says |
| CreateCheckoutSession.PostOutcome | src/app/api/create-checkout-session/route.js:8-96 | the answer is 401, 400, 500 "Failed to create checkout session" or a checkout URL; a 200 follows an accepted amount and adds one session, any other answer none; payments, products, prices and portal sessions never change |
| CreateCheckoutSession.AccountMetadata | src/app/api/create-checkout-session/route.js:75-82 | the metadata holds exactly `userId` and `userEmail`, the session's id and email |
| CreateCheckoutSession.RejectedRequestChangesNothing | src/app/api/create-checkout-session/route.js:9-18 | no session gives 401, and a missing or sub-100 amount 400, with nothing changed; 400 is answered exactly in the second case |
| CreateCheckoutSession.ExistingCustomerReused | src/app/api/create-checkout-session/route.js:27-49 | a user with a customer id gets one new session for that customer; no customer is created and the store is untouched |
| CreateCheckoutSession.MissingCustomerCreatedOnce | src/app/api/create-checkout-session/route.js:29-44 | a user without a customer id gets exactly one customer, with the session's email and `userId`, written onto that user only; the session uses it |
| CreateCheckoutSession.SubscriptionSession | src/app/api/create-checkout-session/route.js:53-84 | the session sells one unit of a monthly usd price of the amount, in subscription mode, to the customer; session and subscription metadata are exactly `userId` and `userEmail` |
| CreateCheckoutSession.SessionMatchesStoredCustomer | src/app/api/create-checkout-session/route.js:53-91 | every 200 follows an accepted amount and returns the URL of one new session, for the customer now stored on the user and the requested amount |
| CreateCheckoutSession.MissingUserOrphansCustomer | src/app/api/create-checkout-session/route.js:22-95 | with no user row, a customer is created and then the answer is 500; no session is created and the store is untouched |
| CreateCheckoutSession.TwiceCreatesAtMostOneCustomer | src/app/api/create-checkout-session/route.js:27-44 | two successful requests in a row create at most one customer, and both sessions name the same customer |
| CreateCheckoutSession.FailuresAnswer500 | src/app/api/create-checkout-session/route.js:92-95 | every failure after validation answers 500 "Failed to create checkout session" with no session; a failing lookup changes nothing |
| CreateCheckoutSession.PostPreservesValid | src/app/api/create-checkout-session/route.js:20-91 | the handler keeps the store's table constraints and the gateway's id invariant |
| CreateCustomerPortalSession.OpenPortal | src/app/api/create-customer-portal-session/route.js:42-60 | only the portal session changes the gateway; on success the id is the new session's |
| CreateCustomerPortalSession.Post | src/app/api/create-customer-portal-session/route.js:8-73 | the handler, run call by call, gives the response and leaves the store and the gateway as the spec function says |
| CreateCustomerPortalSession.PostOutcome | src/app/api/create-customer-portal-session/route.js:8-73 | the answer is 401, 404, a 500 with the fixed `error` and details, or a portal URL with one new portal session; payments, products, prices and checkout sessions never change |
| CreateCustomerPortalSession.RejectedRequestChangesNothing | src/app/api/create-customer-portal-session/route.js:9-20 | no session gives 401 and an unknown email 404, with nothing changed; 404 is answered exactly when the lookup finds no row |
| CreateCustomerPortalSession.ExistingCustomerReused | src/app/api/create-customer-portal-session/route.js:22-45 | a stored customer id gets a portal session for that customer; no customer is created and the store is untouched |
| CreateCustomerPortalSession.MissingCustomerCreatedOnce | src/app/api/create-customer-portal-session/route.js:24-37 | without a customer id, exactly one customer is created and stored on that user only, and the portal session is for it |
| CreateCustomerPortalSession.SessionForStoredCustomer | src/app/api/create-customer-portal-session/route.js:42-65 | every 200 returns the URL of one new portal session, for the customer now stored on the user |
| CreateCustomerPortalSession.FailuresAnswer500 | src/app/api/create-customer-portal-session/route.js:66-72 | every error answers 500 with the fixed `error`; the details are the message of the failing lookup, customer create, id write, portal session, customer read-back or charges read-back; a failing lookup, create or portal session changes nothing, and after a failing read-back the portal session exists anyway |
| CreateCustomerPortalSession.TwiceCreatesAtMostOneCustomer | src/app/api/create-customer-portal-session/route.js:22-37 | two successful requests in a row create at most one customer, and both portal sessions are for the same customer |
| CreateCustomerPortalSession.PostPreservesValid | src/app/api/create-customer-portal-session/route.js:14-65 | the handler keeps the store's table constraints and the gateway's id invariant |
| Subscribe.SubscribeUser | src/app/api/subscribe/route.js:34-53 | after the price is chosen, products and prices stay; a non-200 is the framework's 500 with no session; a 200 adds exactly one session |
| Subscribe.Post | src/app/api/subscribe/route.js:9-54 | the handler, run call by call, gives the response and leaves the store and the gateway as the spec function says |
| Subscribe.PostOutcome | src/app/api/subscribe/route.js:9-54 | the answer is 401, 400, the framework's 500 or a checkout URL; a 200 follows a valid amount and adds exactly one session, any other answer none; the payments never change |
| Subscribe.SubscriptionSession | src/app/api/subscribe/route.js:42-49 | the session sells one unit of the chosen price, by id, to the customer, in subscription mode, with no metadata |
| Subscribe.RejectedRequestChangesNothing | src/app/api/subscribe/route.js:10-17 | no session gives 401, and an amount outside 1 to 100 dollars 400, with nothing changed; 400 is answered exactly in the second case |
| Subscribe.SubscribeUserSellsPrice | src/app/api/subscribe/route.js:42-53 | a 200 returns the URL of one new session, selling one unit of the chosen price to the customer now stored on the user |
| Subscribe.MissingCustomerCreatedOnce | src/app/api/subscribe/route.js:34-49 | a user without a customer id gets exactly one customer, with the row's email and no metadata, written onto that user only; the one new session sells the chosen price to it |
| Subscribe.ExistingCustomerReused | src/app/api/subscribe/route.js:34-49 | a user with a customer id keeps it: no customer is created, the store is untouched, and one new session sells the chosen price to that customer |
| Subscribe.SessionSellsMatchingPrice | src/app/api/subscribe/route.js:15-53 | every 200 follows a valid amount; its one new session sells a monthly price of `amount * 100` cents, whose product has the amount's name, to the stored customer |
| Subscribe.RepeatReusesEverything | src/app/api/subscribe/route.js:20-40 | repeating with the same amount creates no product, price or customer and leaves the store; a second session sells the same price to the same customer |
| Subscribe.MissingUserKeepsCatalogue | src/app/api/subscribe/route.js:19-35 | with no user row the answer is the framework's 500 after the product and price were found or created; no customer or session is created |
| Subscribe.FailuresAreUnhandled | src/app/api/subscribe/route.js:9-54 | every answer but 200 and 400 is the framework's 500, with no session created |
| Subscribe.SubscribeUserPreservesValid | src/app/api/subscribe/route.js:34-49 | the customer and session steps keep both invariants |
| Subscribe.PostPreservesValid | src/app/api/subscribe/route.js:19-49 | the handler keeps the store's table constraints and the gateway's id invariant |
| WebhookPayment.Post | src/app/api/webhook-payment/route.js:7-74 | the handler, run call by call, gives the response and leaves the store as the spec function says |
| WebhookPayment.PostOutcome | src/app/api/webhook-payment/route.js:7-74 | the answer is 200 "Webhook received", 400 "User not found", 500 "Database error" or, for a failed verification, 400 with its message; users never change, and when the store changes it is by one payment with the intent's amount and id under the next payment id, answered 200 |
| WebhookPayment.NamesEmail | src/app/api/webhook-payment/route.js:41 | an event names an email exactly when its metadata has a non-empty `userEmail` |
| WebhookPayment.UnverifiedOrOtherEventsChangeNothing | src/app/api/webhook-payment/route.js:13-25 | a failed signature gives 400 with the verifier's message; any other event type 200 "Webhook received"; neither changes the store |
| WebhookPayment.RecordsOnePayment | src/app/api/webhook-payment/route.js:36-63 | a succeeded event naming a user's email appends exactly one payment for that user, with the intent's amount and id, and answers 200 |
| WebhookPayment.AppendsAtMostOnePayment | src/app/api/webhook-payment/route.js:25-73 | users never change and at most one payment is appended; one is appended exactly on a 200 to a succeeded event naming an email |
| WebhookPayment.UnmatchedEmailRecordsNothing | src/app/api/webhook-payment/route.js:41-66 | an email no user has gives 400 "User not found"; no email gives 200; neither appends a payment |
| WebhookPayment.UserIdIgnored | src/app/api/webhook-payment/route.js:36-45 | events that differ only in the `userId` metadata have the same outcome |
| WebhookPayment.StoreFailureAnswers500 | src/app/api/webhook-payment/route.js:67-70 | a failing store lookup or insert leaves the store as it was; a failing lookup answers 500 "Database error", and so does a failing insert once a user has the email |
| WebhookPayment.RedeliveryRecordsTwice | src/app/api/webhook-payment/route.js:55-61 | the same succeeded event delivered twice appends two payments with the same intent id |
| WebhookPayment.PostPreservesValid | src/app/api/webhook-payment/route.js:55-61 | the handler keeps the store's table constraints |
| Checkout.Post | src/app/api/checkout/route.js:9-49 | the handler, run call by call, gives the response and leaves the store and the gateway as the spec function says |
| Checkout.PostOutcome | src/app/api/checkout/route.js:9-49 | the answer is 401, the framework's 500 or the URL of the one session created; users never change; a payment row is added only with a 200, and the gateway gains at most that one session |
| Checkout.PaymentSession | src/app/api/checkout/route.js:16-33 | the session has no customer and no metadata, is in payment mode, and sells one unit of an inline usd price of the amount as given, with no interval |
| Checkout.NoSessionChangesNothing | src/app/api/checkout/route.js:10-13 | no session gives 401 and changes nothing |
| Checkout.AmountNotValidated | src/app/api/checkout/route.js:14-33 | any amount, even missing or negative, is passed unchanged as the unit amount of a payment-mode session with quantity 1; never 400 |
| Checkout.RecordsPaymentAtSessionCreation | src/app/api/checkout/route.js:35-48 | with a user row, 200 returns the session URL and exactly one payment is appended for that user, naming the session, with no charge or intent existing |
| Checkout.SuccessPairsSessionAndPayment | src/app/api/checkout/route.js:16-48 | users never change; every 200 comes with exactly one new session and one new payment naming it |
| Checkout.MissingUserLeavesSession | src/app/api/checkout/route.js:36-39 | with no user row, the session is still created, no payment is recorded, and the answer is the framework's 500 |
| Checkout.PostPreservesValid | src/app/api/checkout/route.js:16-43 | the handler keeps the store's table constraints and the gateway's id invariant |
| CreatePaymentIntent.Detail | src/app/api/create-payment-intent/route.js:23-27 | a billing detail is the field given, or '' when the field or the whole object is absent |
| CreatePaymentIntent.PostOutcome | src/app/api/create-payment-intent/route.js:6-50 | the answer is 401, 400, 500 "Failed to create payment intent" or 200 with the new intent's secret; 200 exactly for a session with an accepted amount and a working create, which then adds one usd intent for the amount with the request's metadata; any other answer changes nothing |
| CreatePaymentIntent.RejectedRequestCreatesNothing | src/app/api/create-payment-intent/route.js:8-17 | no session gives 401, and a missing or sub-100 amount 400, with no intent; 400 is answered exactly in the second case |
| CreatePaymentIntent.IntentMetadata | src/app/api/create-payment-intent/route.js:20-28 | the metadata has exactly seven keys: the session's id and email, and each billing detail as given or '' |
| CreatePaymentIntent.NoBillingInfoAllEmpty | src/app/api/create-payment-intent/route.js:23-27 | with no billing object every billing entry is '' |
| CreatePaymentIntent.AcceptedRequestCreatesOneIntent | src/app/api/create-payment-intent/route.js:32-49 | an accepted request creates one usd intent for the amount with exactly that metadata and answers 200 with its secret; a failing create answers 500 and changes nothing |
| CreatePaymentIntent.OnlyIntentsChange | src/app/api/create-payment-intent/route.js:32-36 | only payment intents and the counter change at the gateway, by at most one intent |
| PaymentFlow.IntentSuccessRecordsPayment | src/app/api/create-payment-intent/route.js:20-36 | the intent created for an account whose email has a user, once reported succeeded to the webhook, is recorded as one payment for that user with its amount and id |
| TestCustomer.Project | src/app/api/test-customer/route.js:57-62 | the projection keeps the number and order of charges and maps each one to its id, amount, status and creation time |
| TestCustomer.Get | src/app/api/test-customer/route.js:9-71 | the handler, run call by call, gives the response and leaves the store and the gateway as the spec function says |
| TestCustomer.GetOutcome | src/app/api/test-customer/route.js:9-71 | the answer is 401, 404, a 500 with an error message, or a customer report of at most ten charges; payments never change, and the gateway either stays or gains exactly one customer with the session's email and `userId` under the next id |
| TestCustomer.Report | src/app/api/test-customer/route.js:45-66 | the report succeeds exactly when neither call fails and the customer exists, and then is of that customer with at most ten charges; a failure carries the retrieve's message, or the charge list's |
| TestCustomer.ProjectAppend | src/app/api/test-customer/route.js:57-62 | projecting a concatenation projects each part in order |
| TestCustomer.RejectedRequestChangesNothing | src/app/api/test-customer/route.js:10-23 | no session gives 401 and an unknown email 404, with nothing changed; 404 is answered exactly when the lookup finds no row |
| TestCustomer.ExistingCustomerReported | src/app/api/test-customer/route.js:26-66 | a stored customer id is reported as the first gateway customer with that id, with its first ten charges, projected in order, and nothing changes |
| TestCustomer.MissingCustomerCreatedOnce | src/app/api/test-customer/route.js:28-42 | without a customer id, exactly one customer is created and stored on that user only; the report is of it, with no charges |
| TestCustomer.ReportIsOfStoredCustomer | src/app/api/test-customer/route.js:45-66 | every 200 reports the customer stored on the user, with at most ten charges, each the projection of one of that customer's charges |
| TestCustomer.FailuresCarryMessage | src/app/api/test-customer/route.js:67-70 | every other error answers 500 with the message of the failing lookup, customer create, id write, customer retrieve or charge list; a failing lookup or create changes nothing |
| TestCustomer.GetPreservesValid | src/app/api/test-customer/route.js:15-66 | the handler keeps the store's table constraints and the gateway's id invariant |
| Register.Post | src/app/api/register/route.js:6-17 | the handler, run call by call, gives the response and leaves the store as the spec function says |
| Register.PostOutcome | src/app/api/register/route.js:6-17 | the answer is 201, 400 "User already exists" or the framework's 500; only a 201 changes the store, and payments never change |
| Register.SuccessAddsOneUser | src/app/api/register/route.js:8-13 | a new email with a password gives 201 and exactly one new row, with that email, the hash and no customer id |
| Register.GrowsByOneOrNotAtAll | src/app/api/register/route.js:10-16 | 201 is answered exactly when the users grew by one row, with no customer id and the old rows kept; any other answer leaves the store unchanged |
| Register.FailedInsertReportsExistingUser | src/app/api/register/route.js:14-16 | a taken or missing email, or a failing store, answers 400 "User already exists" and changes nothing |
| Register.RegisteredUserIsFound | src/app/api/register/route.js:10-13 | after registering, a lookup by the email finds the new account, without a customer id |
| Register.PostPreservesValid | src/app/api/register/route.js:9-16 | the handler keeps the store's table constraints |
| Profile.NewHash | src/app/api/profile/route.js:15-17 | the password is replaced exactly when a non-empty one is sent |
| Profile.Post | src/app/api/profile/route.js:8-20 | the handler, run call by call, gives the response and leaves the store as the spec function says |
| Profile.PostOutcome | src/app/api/profile/route.js:8-20 | the answer is 200, 401 or the framework's 500; only a 200 changes the store, and then only user rows, never their number, payments or counters |
| Profile.NoSessionChangesNothing | src/app/api/profile/route.js:9-12 | no session gives 401 and changes nothing |
| Profile.UpdatesOnlyTheSessionUser | src/app/api/profile/route.js:13-19 | only the session user's row changes: its email as sent and its hash only for a non-empty password; ids, customer ids, other users and payments stay |
| Profile.SucceedsExactlyWhenRowAndEmailFree | src/app/api/profile/route.js:18-19 | 200 is answered exactly when the session's email has a row and any new email belongs to no other row |
| Profile.OldSessionEmailNotFound | src/app/api/profile/route.js:18 | after an email change, the session's old email finds no row |
| Profile.PostPreservesValid | src/app/api/profile/route.js:18 | the handler keeps the store's table constraints |

## Left out

- The React pages and layout: UI state and rendering, including the floating-point amount dial.
- Webhook signature verification (`constructEvent`) is foreign cryptography. `WebhookPayment.PostOutcome` takes what it returned as a parameter: the event, or the message of the error it raised.
- src/app/api/webhook/route.js is not part of this model. It only verifies and acknowledges.
- Password hashing: the hash is a parameter of register and profile. A missing password makes hashing throw, which is modelled.
- Session reading (`getServerSession`) is a parameter: an optional `AuthSession` with the user id and email. A session whose `user.id` is undefined is not distinguished.
- The product name built with `toFixed(0)` in create-checkout-session and the name "Test Product" in checkout are not kept in the session parameters. Both are float formatting or constant text.
- Success, cancel and return URLs, `payment_method_types` and `Content-Type` headers are not modelled. A URL is modelled by the id of the session it opens, and a client secret by the intent's id.
- Console logging is not modelled. The portal handler's read-back of the customer and its charges (create-customer-portal-session lines 50-60) is modelled, because a failure there turns the answer into 500.
- Read-only routes (test-portal, debug-db, payments, subscription, admin/users, health), test-payment (its id comes from the clock) and scripts/supabase-setup.js are not part of this model.
- Request bodies are modelled only as integer amounts and strings that are present or absent. JSON values of another type (fractions, strings for amounts, null) are not.
- The gateway's own checks on a request are not modelled. It accepts any amount and any customer id for a checkout session, a portal session or an intent. Failures of those calls come only from the `faults` map.
- Creation times of store rows and the gateway's clock beyond a customer's `created` field are not modelled.
- Gateway deletion of customers (a retrieve of a deleted customer returns a deleted object) is not modelled.
- Subscription records, subscription lifecycle events, idempotent upserts keyed by gateway id, and tolerance of reordered events are not modelled. No handler in this core implements them.
- Concurrent requests, and the races on the customer id between them, are not modelled. Every property is about requests handled one after the other.
- Catalogue.FindOrCreateChoosesMatching: states that the chosen product and price match, are present, and when each is created; which of several matches is chosen is stated by `Common.First` and `Catalogue.Find`, not repeated here.
- The payments table schema is not part of this model. The model assumes no unique index on a payment's gateway id, so a redelivered event inserts a second row (`WebhookPayment.RedeliveryRecordsTwice`); with such an index the second insert would fail and be answered 500 "Database error".
- Common.Filter: states which elements are kept, not that their order is kept.
