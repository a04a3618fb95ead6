/** `POST` of src/app/api/webhook-payment/route.js: the gateway's event
    notification. A verified `payment_intent.succeeded` event is recorded as
    one payment row for the user whose email the intent's metadata names;
    every other verified event is acknowledged and ignored. */
module WebhookPayment {
  import opened Common
  import opened Store
  import opened Gateway
  import opened Http

  /** `event.data.object` of a payment-intent event: the fields the handler
      reads. */
  datatype IntentObject = IntentObject(id: GatewayId, amount: int, metadata: map<string, string>)

  /** A verified event: its `type` and its object. */
  datatype Event = Event(eventType: string, intent: IntentObject)

  const PaymentSucceeded := "payment_intent.succeeded"

  const Received := Response(200, TextBody("Webhook received"))
  const UnknownUser := Response(400, TextBody("User not found"))
  const DatabaseError := Response(500, TextBody("Database error"))

  /** The 400 answer to an event whose signature does not verify. */
  function SignatureRejected(message: string): Response {
    Response(400, TextBody("Webhook Error: " + message))
  }

  /** `if (userEmail)`: the key is present and its value is not empty. */
  function NamesEmail(metadata: map<string, string>): (names: bool)
    ensures names <==> "userEmail" in metadata && |metadata["userEmail"]| > 0
  {
    "userEmail" in metadata && metadata["userEmail"] != ""
  }

  /** `verified` is what the signature check made of the request: the event,
      or the message of the error it raised. */
  function PostOutcome(s: StoreState, verified: Result<Event>): (out: StoreOutcome)
    ensures out.response in {Received, UnknownUser, DatabaseError} || (verified.Failure? && out.response == SignatureRejected(verified.error))
    ensures out.store.users == s.users
    ensures out.store != s ==>
      && out.response == Received && verified.Success? && |out.store.payments| == |s.payments| + 1
      && out.store == s.(payments := s.payments + [Payment(s.nextPaymentId, out.store.payments[|s.payments|].userId,
                                                           verified.value.intent.amount, verified.value.intent.id)],
                         nextPaymentId := s.nextPaymentId + 1)
  {
    match verified
    case Failure(e) => StoreOutcome(SignatureRejected(e), s)
    case Success(event) =>
      if event.eventType != PaymentSucceeded || !NamesEmail(event.intent.metadata) then StoreOutcome(Received, s)
      else
        var intent := event.intent;
        match s.FindUserByEmail(intent.metadata["userEmail"])
        case Failure(_) => StoreOutcome(DatabaseError, s)
        case Success(None) => StoreOutcome(UnknownUser, s)
        case Success(Some(u)) =>
          var inserted := s.InsertPayment(u.id, Some(intent.amount), intent.id);
          if inserted.result.Failure? then StoreOutcome(DatabaseError, s)
          else StoreOutcome(Received, inserted.state)
  }

  method Post(store: UserStore, verified: Result<Event>) returns (response: Response)
    modifies store
    ensures StoreOutcome(response, store.State()) == PostOutcome(old(store.State()), verified)
  {
    if verified.Failure? {
      return SignatureRejected(verified.error);
    }
    var event := verified.value;
    if event.eventType != PaymentSucceeded {
      return Received;
    }
    var intent := event.intent;
    if !NamesEmail(intent.metadata) {
      return Received;
    }
    var user := store.FindUserByEmail(intent.metadata["userEmail"]);
    if user.Failure? {
      return DatabaseError;
    }
    if user.value.None? {
      return UnknownUser;
    }
    var inserted := store.InsertPayment(user.value.value.id, Some(intent.amount), intent.id);
    if inserted.Failure? {
      return DatabaseError;
    }
    response := Received;
  }

  /** An event whose signature fails is answered 400 with the verifier's
      message, and an event of any other type 200 "Webhook received"; neither
      changes the store. */
  lemma UnverifiedOrOtherEventsChangeNothing(s: StoreState, verified: Result<Event>)
    ensures verified.Failure? ==> PostOutcome(s, verified) == StoreOutcome(SignatureRejected(verified.error), s)
    ensures verified.Success? && verified.value.eventType != PaymentSucceeded ==> PostOutcome(s, verified) == StoreOutcome(Received, s)
  {
  }

  /** A succeeded event whose metadata names the email of a user appends
      exactly one payment, for that user, with the intent's amount and the
      intent's id, and answers 200; no user row changes. */
  lemma {:induction false} RecordsOnePayment(s: StoreState, intent: IntentObject, u: User)
    requires s.faults.Keys !! {FindUser, CreatePayment}
    requires NamesEmail(intent.metadata)
    requires u in s.users && u.email == intent.metadata["userEmail"]
    requires s.Valid()
    ensures PostOutcome(s, Success(Event(PaymentSucceeded, intent))) ==
      StoreOutcome(Received, s.(payments := s.payments + [Payment(s.nextPaymentId, u.id, intent.amount, intent.id)],
                                nextPaymentId := s.nextPaymentId + 1))
  {
    var found := s.FindUserByEmail(u.email);
    assert found.Success? && found.value.Some?;
    var v := found.value.value;
    assert v == u by {
      var i :| 0 <= i < |s.users| && s.users[i] == u;
      var j :| 0 <= j < |s.users| && s.users[j] == v;
      assert s.users[i].email == s.users[j].email;
    }
  }

  /** Whatever the event, the users are untouched and at most one payment is
      appended; one is appended exactly when the answer is 200 to a succeeded
      event naming an email. */
  lemma AppendsAtMostOnePayment(s: StoreState, verified: Result<Event>)
    ensures var out := PostOutcome(s, verified);
      && out.store.users == s.users
      && (out.store == s || out.store.payments == s.payments + [out.store.payments[|s.payments|]])
      && (out.store != s <==>
            out.response == Received && verified.Success? && verified.value.eventType == PaymentSucceeded
            && NamesEmail(verified.value.intent.metadata))
  {
  }

  /** A succeeded event naming an email no user has is answered 400 "User
      not found", and one without an email 200; neither appends a payment. */
  lemma UnmatchedEmailRecordsNothing(s: StoreState, intent: IntentObject)
    requires FindUser !in s.faults
    ensures !NamesEmail(intent.metadata) ==>
      PostOutcome(s, Success(Event(PaymentSucceeded, intent))) == StoreOutcome(Received, s)
    ensures NamesEmail(intent.metadata) && (forall i :: 0 <= i < |s.users| ==> s.users[i].email != intent.metadata["userEmail"]) ==>
      PostOutcome(s, Success(Event(PaymentSucceeded, intent))) == StoreOutcome(UnknownUser, s)
  {
  }

  /** The `userId` metadata plays no part: two events that differ only in it
      have the same outcome. */
  lemma UserIdIgnored(s: StoreState, intent: IntentObject, eventType: string, userId: string)
    ensures PostOutcome(s, Success(Event(eventType, intent.(metadata := intent.metadata["userId" := userId])))) ==
            PostOutcome(s, Success(Event(eventType, intent)))
  {
    var m := intent.metadata["userId" := userId];
    assert NamesEmail(m) <==> NamesEmail(intent.metadata);
    assert NamesEmail(m) ==> m["userEmail"] == intent.metadata["userEmail"];
  }

  /** A store failure in the lookup or the insert is answered 500 "Database
      error" and leaves the store as it was. */
  lemma StoreFailureAnswers500(s: StoreState, intent: IntentObject)
    requires NamesEmail(intent.metadata)
    requires FindUser in s.faults || CreatePayment in s.faults
    ensures var out := PostOutcome(s, Success(Event(PaymentSucceeded, intent)));
      out.store == s && (out.response == DatabaseError || out.response == UnknownUser)
    ensures FindUser in s.faults ==> PostOutcome(s, Success(Event(PaymentSucceeded, intent))) == StoreOutcome(DatabaseError, s)
    ensures FindUser !in s.faults && CreatePayment in s.faults
            && (exists i :: 0 <= i < |s.users| && s.users[i].email == intent.metadata["userEmail"]) ==>
      PostOutcome(s, Success(Event(PaymentSucceeded, intent))) == StoreOutcome(DatabaseError, s)
  {
  }

  /** Delivering the same succeeded event twice records two payments with
      the same intent id: nothing looks for an earlier row. */
  lemma {:induction false} RedeliveryRecordsTwice(s: StoreState, intent: IntentObject, u: User)
    requires s.faults.Keys !! {FindUser, CreatePayment}
    requires NamesEmail(intent.metadata)
    requires u in s.users && u.email == intent.metadata["userEmail"]
    requires s.Valid()
    ensures var event := Success(Event(PaymentSucceeded, intent));
      var twice := PostOutcome(PostOutcome(s, event).store, event);
      && twice.response == Received
      && twice.store.payments == s.payments + [Payment(s.nextPaymentId, u.id, intent.amount, intent.id),
                                               Payment(s.nextPaymentId + 1, u.id, intent.amount, intent.id)]
  {
    var event := Success(Event(PaymentSucceeded, intent));
    RecordsOnePayment(s, intent, u);
    var once := PostOutcome(s, event).store;
    assert once.users == s.users;
    RecordsOnePayment(once, intent, u);
  }

  /** The handler keeps the store's invariant. */
  lemma PostPreservesValid(s: StoreState, verified: Result<Event>)
    requires s.Valid()
    ensures PostOutcome(s, verified).store.Valid()
  {
  }
}
