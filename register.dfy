/** `POST` of src/app/api/register/route.js: a new account from an email and
    a password. The password is hashed before the insert and outside its
    error handling; an insert that fails for any reason is reported as an
    existing user. */
module Register {
  import opened Common
  import opened Store
  import opened Http

  const Created := Response(201, SuccessBody)
  const AlreadyExists := Response(400, ErrorBody("User already exists"))

  /** `hashed` is what `bcrypt.hash` made of the password (salted, so not a
      function of it); a missing password makes the hash call throw. */
  function PostOutcome(s: StoreState, email: Option<string>, password: Option<string>, hashed: string): (out: StoreOutcome)
    ensures out.response in {Created, AlreadyExists, UnhandledError}
    ensures out.response == Created || out.store == s
    ensures out.store.payments == s.payments
  {
    if password.None? then StoreOutcome(UnhandledError, s)
    else
      var inserted := s.InsertUser(email, hashed);
      if inserted.result.Failure? then StoreOutcome(AlreadyExists, s)
      else StoreOutcome(Created, inserted.state)
  }

  method Post(store: UserStore, email: Option<string>, password: Option<string>, hashed: string) returns (response: Response)
    modifies store
    ensures StoreOutcome(response, store.State()) == PostOutcome(old(store.State()), email, password, hashed)
  {
    if password.None? {
      return UnhandledError;
    }
    var inserted := store.InsertUser(email, hashed);
    if inserted.Failure? {
      return AlreadyExists;
    }
    response := Created;
  }

  /** A new email with a password gives 201 and exactly one new row, with
      that email and the hash, and no customer id; nothing else changes. */
  lemma SuccessAddsOneUser(s: StoreState, email: string, password: string, hashed: string)
    requires CreateUser !in s.faults
    requires forall i :: 0 <= i < |s.users| ==> s.users[i].email != email
    ensures var out := PostOutcome(s, Some(email), Some(password), hashed);
      && out.response == Created
      && out.store.users == s.users + [User(s.nextUserId, email, hashed, None)]
      && out.store.payments == s.payments
  {
  }

  /** The answer is 201 exactly when the user table grew, by exactly one row
      with no customer id; every other answer leaves the store as it was. */
  lemma GrowsByOneOrNotAtAll(s: StoreState, email: Option<string>, password: Option<string>, hashed: string)
    ensures var out := PostOutcome(s, email, password, hashed);
      && (out.response == Created <==> |out.store.users| == |s.users| + 1)
      && (out.response == Created ==>
            out.store.users[..|s.users|] == s.users && out.store.users[|s.users|].customerId.None?
            && out.store.payments == s.payments)
      && (out.response != Created ==> out.store == s)
  {
  }

  /** An email that is taken, a missing email, or a failing store all give
      400 "User already exists" when a password was sent. */
  lemma FailedInsertReportsExistingUser(s: StoreState, email: Option<string>, password: string, hashed: string)
    requires CreateUser in s.faults || email.None? || exists i :: 0 <= i < |s.users| && s.users[i].email == email.value
    ensures PostOutcome(s, email, Some(password), hashed) == StoreOutcome(AlreadyExists, s)
  {
  }

  /** After a successful registration a lookup by that email finds the new
      account, without a customer id. */
  lemma {:induction false} RegisteredUserIsFound(s: StoreState, email: string, password: string, hashed: string)
    requires s.Valid() && s.faults.Keys !! {CreateUser, FindUser}
    requires forall i :: 0 <= i < |s.users| ==> s.users[i].email != email
    ensures PostOutcome(s, Some(email), Some(password), hashed).store.FindUserByEmail(email) ==
      Success(Some(User(s.nextUserId, email, hashed, None)))
  {
    var t := PostOutcome(s, Some(email), Some(password), hashed).store;
    assert t.users[|s.users|].email == email;
    var found := t.FindUserByEmail(email);
    assert found.value.Some?;
    var k :| 0 <= k < |t.users| && t.users[k] == found.value.value;
    assert k == |s.users|;
  }

  /** The handler keeps the store's invariant. */
  lemma PostPreservesValid(s: StoreState, email: Option<string>, password: Option<string>, hashed: string)
    requires s.Valid()
    ensures PostOutcome(s, email, password, hashed).store.Valid()
  {
  }
}
