/** `POST` of src/app/api/profile/route.js: the signed-in user changes the
    email and, when a non-empty one is sent, the password. The row is found
    by the email of the session; an email field that is absent leaves the
    email as it is. The handler catches nothing. */
module Profile {
  import opened Common
  import opened Store
  import opened Http

  const Updated := Response(200, SuccessBody)

  /** `if (password)`: a password is hashed only when present and not
      empty. */
  function NewHash(password: Option<string>, hashed: string): (h: Option<string>)
    ensures h.Some? <==> password.Some? && password.value != ""
  {
    if password.Some? && password.value != "" then Some(hashed) else None
  }

  /** `hashed` is what `bcrypt.hash` made of the password. */
  function PostOutcome(s: StoreState, auth: Option<AuthSession>, email: Option<string>, password: Option<string>, hashed: string): (out: StoreOutcome)
    ensures out.response in {Updated, NotAuthenticated, UnhandledError}
    ensures out.response == Updated || out.store == s
    ensures out.store == s.(users := out.store.users) && |out.store.users| == |s.users|
  {
    if auth.None? then StoreOutcome(NotAuthenticated, s)
    else
      var updated := s.UpdateUserByEmail(auth.value.email, email, NewHash(password, hashed));
      if updated.result.Failure? then StoreOutcome(UnhandledError, s)
      else StoreOutcome(Updated, updated.state)
  }

  method Post(store: UserStore, auth: Option<AuthSession>, email: Option<string>, password: Option<string>, hashed: string)
    returns (response: Response)
    modifies store
    ensures StoreOutcome(response, store.State()) == PostOutcome(old(store.State()), auth, email, password, hashed)
  {
    if auth.None? {
      return NotAuthenticated;
    }
    var updated := store.UpdateUserByEmail(auth.value.email, email, NewHash(password, hashed));
    if updated.Failure? {
      return UnhandledError;
    }
    response := Updated;
  }

  /** A request without a session gets 401 and changes nothing. */
  lemma NoSessionChangesNothing(s: StoreState, email: Option<string>, password: Option<string>, hashed: string)
    ensures PostOutcome(s, None, email, password, hashed) == StoreOutcome(NotAuthenticated, s)
  {
  }

  /** On success the session's user gets the submitted email (or keeps its
      own when none is sent) and the new hash only for a non-empty password;
      its id and customer id stay, every other user and every payment stays,
      and the answer is 200. Any failure changes nothing. */
  lemma UpdatesOnlyTheSessionUser(s: StoreState, a: AuthSession, email: Option<string>, password: Option<string>, hashed: string)
    requires s.Valid()
    ensures var out := PostOutcome(s, Some(a), email, password, hashed);
      && (out.response == Updated || (out.response == UnhandledError && out.store == s))
      && out.store.payments == s.payments && |out.store.users| == |s.users|
      && forall i :: 0 <= i < |s.users| ==>
           && out.store.users[i].id == s.users[i].id
           && out.store.users[i].customerId == s.users[i].customerId
           && (s.users[i].email != a.email ==> out.store.users[i] == s.users[i])
           && (out.response == Updated && s.users[i].email == a.email ==>
                 out.store.users[i].email == email.GetOr(a.email))
           && (password.None? || password == Some("") ==> out.store.users[i].passwordHash == s.users[i].passwordHash)
           && (out.response == Updated && s.users[i].email == a.email && password.Some? && password.value != "" ==>
                 out.store.users[i].passwordHash == hashed)
  {
  }

  /** The update succeeds exactly when the session's email has a row and the
      new email (if any, and different) is not another row's. */
  lemma SucceedsExactlyWhenRowAndEmailFree(s: StoreState, a: AuthSession, email: Option<string>, password: Option<string>, hashed: string)
    requires UpdateUser !in s.faults
    ensures PostOutcome(s, Some(a), email, password, hashed).response == Updated <==>
      && (exists i :: 0 <= i < |s.users| && s.users[i].email == a.email)
      && (email.Some? && email.value != a.email ==> forall i :: 0 <= i < |s.users| ==> s.users[i].email != email.value)
  {
  }

  /** After the email is changed, the session (which still carries the old
      email) no longer finds its row: every handler that looks the user up by
      the session's email sees no user. */
  lemma {:induction false} OldSessionEmailNotFound(s: StoreState, a: AuthSession, email: string, password: Option<string>, hashed: string)
    requires s.Valid() && FindUser !in s.faults
    requires email != a.email
    requires PostOutcome(s, Some(a), Some(email), password, hashed).response == Updated
    ensures PostOutcome(s, Some(a), Some(email), password, hashed).store.FindUserByEmail(a.email) == Success(None)
  {
    var t := PostOutcome(s, Some(a), Some(email), password, hashed).store;
    forall i | 0 <= i < |t.users| ensures t.users[i].email != a.email {
      if s.users[i].email == a.email {
        assert t.users[i].email == email;
      }
    }
  }

  /** The handler keeps the store's invariant. */
  lemma PostPreservesValid(s: StoreState, auth: Option<AuthSession>, email: Option<string>, password: Option<string>, hashed: string)
    requires s.Valid()
    ensures PostOutcome(s, auth, email, password, hashed).store.Valid()
  {
  }
}
