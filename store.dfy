/** The local data store shared by the route handlers: the users table and the
    payments table. The handlers reach it through two interchangeable clients
    (an ORM client and a hosted Postgres client); both are modelled by one
    store. The gateway customer id column is `stripe_customer_id` under the
    hosted client and `stripeCustomerId` under the ORM; here it is the one
    optional field `User.customerId`. */
module Store {
  import opened Common

  type UserId = nat

  datatype User = User(id: UserId, email: string, passwordHash: string, customerId: Option<GatewayId>)

  /** A row of the payments table; `stripeId` is the id of the gateway object
      the payment was recorded for. */
  datatype Payment = Payment(id: nat, userId: UserId, amount: int, stripeId: GatewayId)

  /** The error the store raises when an update names no row. */
  const RecordNotFound := "Record to update not found."
  /** The error the store raises when an insert or update breaks the unique
      index on `email`. */
  const UniqueEmailViolated := "Unique constraint failed on the fields: (`email`)"
  /** The error the store raises when a required column is missing. */
  const MissingColumn := "Argument is missing."
  /** The error the store raises when a payment names no user. */
  const ForeignKeyViolated := "Foreign key constraint failed on the field: `userId`"

  function HasEmail(email: string): User -> bool {
    (u: User) => u.email == email
  }

  function HasId(id: UserId): User -> bool {
    (u: User) => u.id == id
  }

  /** The calls the handlers make on the store. */
  datatype StoreCall = FindUser | UpdateUser | CreateUser | CreatePayment

  /** The store as a value. `faults` maps each call that currently fails to
      the error it raises (the database is unreachable, or a row-level policy
      refuses that call). */
  datatype StoreState = StoreState(
    users: seq<User>,
    payments: seq<Payment>,
    nextUserId: nat,
    nextPaymentId: nat,
    faults: map<StoreCall, string>)
  {
    /** The table constraints: unique emails, unique ids, ids below the
        sequences that hand them out. */
    ghost predicate Valid() {
      && (forall i, j :: 0 <= i < j < |users| ==> users[i].email != users[j].email)
      && (forall i, j :: 0 <= i < j < |users| ==> users[i].id != users[j].id)
      && (forall i :: 0 <= i < |users| ==> users[i].id < nextUserId)
      && (forall i, j :: 0 <= i < j < |payments| ==> payments[i].id != payments[j].id)
      && (forall i :: 0 <= i < |payments| ==> payments[i].id < nextPaymentId)
    }

    /** `findUnique({ where: { email } })` / `getUserByEmail`: the user with
        that email, None when there is no such row, an error when the store
        fails. */
    function FindUserByEmail(email: string): (r: Result<Option<User>>)
      ensures FindUser in faults <==> r.Failure?
      ensures r.Success? && r.value.Some? ==> r.value.value in users && r.value.value.email == email
      ensures r.Success? && r.value.None? ==> forall i :: 0 <= i < |users| ==> users[i].email != email
    {
      if FindUser in faults then Failure(faults[FindUser])
      else match FirstIndex(users, HasEmail(email))
        case None => Success(None)
        case Some(i) => Success(Some(users[i]))
    }

    /** `updateUser(id, { stripe_customer_id })` /
        `user.update({ where: { id }, data: { stripeCustomerId } })`. Only the
        named user's customer id changes. */
    function SetCustomerId(id: UserId, customer: GatewayId): (st: Step<(), StoreState>)
      ensures st.result.Success? <==> UpdateUser !in faults && exists i :: 0 <= i < |users| && users[i].id == id
      ensures st.result.Failure? ==> st.state == this
      ensures st.result.Success? ==> st.state == this.(users := st.state.users) && |st.state.users| == |users|
      ensures st.result.Success? && Valid() ==> forall i :: 0 <= i < |users| ==>
        st.state.users[i] == if users[i].id == id then users[i].(customerId := Some(customer)) else users[i]
      ensures Valid() ==> st.state.Valid()
    {
      if UpdateUser in faults then Step(Failure(faults[UpdateUser]), this)
      else match FirstIndex(users, HasId(id))
        case None => Step(Failure(RecordNotFound), this)
        case Some(i) =>
          var u := users[i].(customerId := Some(customer));
          Step(Success(()), this.(users := users[i := u]))
    }

    /** `user.create({ data: { email, password } })`: a new row with no
        customer id; fails on a missing email or an email already taken. */
    function InsertUser(email: Option<string>, passwordHash: string): (st: Step<UserId, StoreState>)
      ensures st.result.Success? <==>
        CreateUser !in faults && email.Some? && forall i :: 0 <= i < |users| ==> users[i].email != email.value
      ensures st.result.Failure? ==> st.state == this
      ensures st.result.Success? ==>
        && st.result.value == nextUserId
        && st.state == this.(users := users + [User(nextUserId, email.value, passwordHash, None)],
                             nextUserId := nextUserId + 1)
      ensures Valid() ==> st.state.Valid()
    {
      if CreateUser in faults then Step(Failure(faults[CreateUser]), this)
      else if email.None? then Step(Failure(MissingColumn), this)
      else if FirstIndex(users, HasEmail(email.value)).Some? then Step(Failure(UniqueEmailViolated), this)
      else
        var u := User(nextUserId, email.value, passwordHash, None);
        Step(Success(nextUserId), this.(users := users + [u], nextUserId := nextUserId + 1))
    }

    /** `user.update({ where: { email }, data })`: an absent field of `data`
        leaves the column as it is; fails when no row has `email` or the new
        email belongs to another row. */
    function UpdateUserByEmail(email: string, newEmail: Option<string>, newHash: Option<string>): (st: Step<(), StoreState>)
      ensures st.result.Failure? ==> st.state == this
      ensures st.result.Success? <==>
        && UpdateUser !in faults
        && (exists i :: 0 <= i < |users| && users[i].email == email)
        && (newEmail.Some? && newEmail.value != email ==> forall i :: 0 <= i < |users| ==> users[i].email != newEmail.value)
      ensures st.result.Success? ==> st.state == this.(users := st.state.users) && |st.state.users| == |users|
      ensures st.result.Success? && Valid() ==> forall i :: 0 <= i < |users| ==>
        st.state.users[i] ==
          if users[i].email == email
          then users[i].(email := newEmail.GetOr(users[i].email), passwordHash := newHash.GetOr(users[i].passwordHash))
          else users[i]
      ensures Valid() ==> st.state.Valid()
    {
      if UpdateUser in faults then Step(Failure(faults[UpdateUser]), this)
      else match FirstIndex(users, HasEmail(email))
        case None => Step(Failure(RecordNotFound), this)
        case Some(i) =>
          if newEmail.Some? && newEmail.value != email && FirstIndex(users, HasEmail(newEmail.value)).Some?
          then Step(Failure(UniqueEmailViolated), this)
          else
            var u := users[i].(email := newEmail.GetOr(users[i].email),
                               passwordHash := newHash.GetOr(users[i].passwordHash));
            Step(Success(()), this.(users := users[i := u]))
    }

    /** `payment.create({ data: { userId, amount, stripeId } })`: appends one
        row; fails on a missing amount or a user id with no row. */
    function InsertPayment(userId: UserId, amount: Option<int>, stripeId: GatewayId): (st: Step<nat, StoreState>)
      ensures st.result.Success? <==>
        CreatePayment !in faults && amount.Some? && exists i :: 0 <= i < |users| && users[i].id == userId
      ensures st.result.Failure? ==> st.state == this
      ensures st.result.Success? ==>
        && st.result.value == nextPaymentId
        && st.state == this.(payments := payments + [Payment(nextPaymentId, userId, amount.value, stripeId)],
                             nextPaymentId := nextPaymentId + 1)
      ensures Valid() ==> st.state.Valid()
    {
      if CreatePayment in faults then Step(Failure(faults[CreatePayment]), this)
      else if amount.None? then Step(Failure(MissingColumn), this)
      else if FirstIndex(users, HasId(userId)).None? then Step(Failure(ForeignKeyViolated), this)
      else
        var p := Payment(nextPaymentId, userId, amount.value, stripeId);
        Step(Success(nextPaymentId), this.(payments := payments + [p], nextPaymentId := nextPaymentId + 1))
    }
  }

  /** In a valid store a user found by email is the one row with that email
      and with that id, so setting its customer id changes that row alone,
      and a lookup by the same email afterwards finds the updated row. */
  lemma {:induction false} FindAfterCustomerSet(s: StoreState, u: User, customer: GatewayId)
    requires s.Valid() && UpdateUser !in s.faults
    requires s.FindUserByEmail(u.email) == Success(Some(u))
    ensures s.SetCustomerId(u.id, customer).result.Success?
    ensures forall i :: 0 <= i < |s.users| ==>
      s.SetCustomerId(u.id, customer).state.users[i] ==
        if s.users[i].id == u.id then u.(customerId := Some(customer)) else s.users[i]
    ensures s.SetCustomerId(u.id, customer).state.FindUserByEmail(u.email)
            == Success(Some(u.(customerId := Some(customer))))
  {
    var k :| 0 <= k < |s.users| && s.users[k] == u;
    var t := s.SetCustomerId(u.id, customer).state;
    assert t.users[k] == u.(customerId := Some(customer));
    forall j | 0 <= j < k ensures !HasEmail(u.email)(t.users[j]) {
      assert t.users[j] == s.users[j];
    }
    forall i | 0 <= i < |s.users| && s.users[i].id == u.id ensures s.users[i] == u {
      assert i == k;
    }
  }

  /** The database: its tables are fields that the calls reassign. */
  class UserStore {
    var users: seq<User>
    var payments: seq<Payment>
    var nextUserId: nat
    var nextPaymentId: nat
    var faults: map<StoreCall, string>

    function State(): StoreState
      reads this
    {
      StoreState(users, payments, nextUserId, nextPaymentId, faults)
    }

    constructor (initial: StoreState)
      ensures State() == initial
    {
      users, payments := initial.users, initial.payments;
      nextUserId, nextPaymentId := initial.nextUserId, initial.nextPaymentId;
      faults := initial.faults;
    }

    method FindUserByEmail(email: string) returns (r: Result<Option<User>>)
      ensures r == State().FindUserByEmail(email)
    {
      if FindUser in faults {
        return Failure(faults[FindUser]);
      }
      var i := FirstIndex(users, HasEmail(email));
      r := if i.Some? then Success(Some(users[i.value])) else Success(None);
    }

    method SetCustomerId(id: UserId, customer: GatewayId) returns (r: Result<()>)
      modifies this
      ensures Step(r, State()) == old(State()).SetCustomerId(id, customer)
    {
      if UpdateUser in faults {
        return Failure(faults[UpdateUser]);
      }
      var i := FirstIndex(users, HasId(id));
      if i.None? {
        return Failure(RecordNotFound);
      }
      users := users[i.value := users[i.value].(customerId := Some(customer))];
      r := Success(());
    }

    method InsertUser(email: Option<string>, passwordHash: string) returns (r: Result<UserId>)
      modifies this
      ensures Step(r, State()) == old(State()).InsertUser(email, passwordHash)
    {
      if CreateUser in faults {
        return Failure(faults[CreateUser]);
      }
      if email.None? {
        return Failure(MissingColumn);
      }
      if FirstIndex(users, HasEmail(email.value)).Some? {
        return Failure(UniqueEmailViolated);
      }
      users := users + [User(nextUserId, email.value, passwordHash, None)];
      r := Success(nextUserId);
      nextUserId := nextUserId + 1;
    }

    method UpdateUserByEmail(email: string, newEmail: Option<string>, newHash: Option<string>) returns (r: Result<()>)
      modifies this
      ensures Step(r, State()) == old(State()).UpdateUserByEmail(email, newEmail, newHash)
    {
      if UpdateUser in faults {
        return Failure(faults[UpdateUser]);
      }
      var i := FirstIndex(users, HasEmail(email));
      if i.None? {
        return Failure(RecordNotFound);
      }
      if newEmail.Some? && newEmail.value != email && FirstIndex(users, HasEmail(newEmail.value)).Some? {
        return Failure(UniqueEmailViolated);
      }
      var u := users[i.value];
      users := users[i.value := u.(email := newEmail.GetOr(u.email), passwordHash := newHash.GetOr(u.passwordHash))];
      r := Success(());
    }

    method InsertPayment(userId: UserId, amount: Option<int>, stripeId: GatewayId) returns (r: Result<nat>)
      modifies this
      ensures Step(r, State()) == old(State()).InsertPayment(userId, amount, stripeId)
    {
      if CreatePayment in faults {
        return Failure(faults[CreatePayment]);
      }
      if amount.None? {
        return Failure(MissingColumn);
      }
      if FirstIndex(users, HasId(userId)).None? {
        return Failure(ForeignKeyViolated);
      }
      payments := payments + [Payment(nextPaymentId, userId, amount.value, stripeId)];
      r := Success(nextPaymentId);
      nextPaymentId := nextPaymentId + 1;
    }
  }
}
