/** How two handlers meet: the `userEmail` that create-payment-intent writes
    into an intent's metadata is the key webhook-payment later looks the
    user up by when that intent succeeds. */
module PaymentFlow {
  import opened Common
  import opened Store
  import opened Gateway
  import opened Http
  import opened Amounts
  import CreatePaymentIntent
  import WebhookPayment

  /** An intent created for a signed-in account whose email belongs to a
      user, once reported as succeeded, is recorded as one payment for that
      user with the intent's amount and id. */
  lemma {:induction false} IntentSuccessRecordsPayment(
    s: StoreState, g: GatewayState, a: AuthSession, amount: int, info: Option<CreatePaymentIntent.BillingInfo>, u: User)
    requires amount >= 100 && IntentsCreate !in g.faults
    requires a.email != ""
    requires s.Valid() && s.faults.Keys !! {FindUser, CreatePayment}
    requires u in s.users && u.email == a.email
    ensures var created := CreatePaymentIntent.PostOutcome(g, Some(a), Some(amount), info).gateway.paymentIntents[0];
      var event := WebhookPayment.Event(WebhookPayment.PaymentSucceeded,
                                        WebhookPayment.IntentObject(created.id, created.amount, created.metadata));
      WebhookPayment.PostOutcome(s, Success(event)).store.payments ==
        s.payments + [Payment(s.nextPaymentId, u.id, amount, g.nextId)]
  {
    CreatePaymentIntent.AcceptedRequestCreatesOneIntent(g, a, amount, info);
    var created := CreatePaymentIntent.PostOutcome(g, Some(a), Some(amount), info).gateway.paymentIntents[0];
    var intent := WebhookPayment.IntentObject(created.id, created.amount, created.metadata);
    WebhookPayment.RecordsOnePayment(s, intent, u);
  }
}
