/** Account creation (src/pages/SignIn.tsx): the required-field and
    password-confirmation guards, the new user, its save and sign-in, and the
    dashboard the role leads to. */
module SignIn {
  import opened Seqs
  import opened Entities
  import opened LocalStore

  /** The sign-up form, every field as typed (the role comes from a selector
      and is kept as its string). */
  datatype SignUpForm = SignUpForm(name: string, email: string, wallet: string, role: string,
                                   password: string, confirmPassword: string)

  datatype SignUpOutcome = MissingFields | PasswordMismatch | SignedUp(user: User, route: string)

  /** Name, email, role and password are required; the wallet address is optional. */
  predicate Filled(f: SignUpForm)
  {
    f.name != "" && f.email != "" && f.role != "" && f.password != ""
  }

  /** The account a valid form creates, with the given id and creation time. */
  function NewUser(f: SignUpForm, id: string, now: string): (u: User)
    ensures u.id == id && u.createdAt == now
    ensures u.name == f.name && u.email == f.email && u.wallet == Some(f.wallet)
    ensures u.role == f.role && u.password == f.password
  {
    User(id, f.name, f.email, Some(f.wallet), f.role, f.password, now)
  }

  /** `handleSubmit`: a missing required field or a confirmation that differs
      from the password writes nothing; otherwise the new user is saved
      (upserted by id), becomes the current user, and the role picks the route. */
  method HandleSubmit(store: Store, f: SignUpForm, id: string, now: string) returns (outcome: SignUpOutcome)
    modifies store`storedUsers, store`session
    ensures !Filled(f) ==> outcome == MissingFields
    ensures Filled(f) && f.password != f.confirmPassword ==> outcome == PasswordMismatch
    ensures outcome.SignedUp? <==> Filled(f) && f.password == f.confirmPassword
    ensures !outcome.SignedUp? ==> unchanged(store)
    ensures outcome.SignedUp? ==>
      && outcome.user == NewUser(f, id, now)
      && store.GetUsers() == Upsert(old(store.GetUsers()), outcome.user, UserId)
      && store.GetCurrentUser() == Some(outcome.user)
      && outcome.route == DashboardRoute(f.role)
  {
    if !Filled(f) {
      return MissingFields;
    }
    if f.password != f.confirmPassword {
      return PasswordMismatch;
    }
    var user := NewUser(f, id, now);
    store.SaveUser(user);
    store.SetCurrentUser(Some(user));
    outcome := SignedUp(user, DashboardRoute(f.role));
  }

  /** E-mail addresses are not checked for uniqueness: with an id no stored
      user carries, the account is appended even when another user already
      has the same e-mail, and that user stays in place. */
  lemma DuplicateEmailAppends(users: seq<User>, f: SignUpForm, id: string, now: string, k: nat)
    requires !HasId(users, id, UserId)
    requires k < |users| && users[k].email == f.email
    ensures var after := Upsert(users, NewUser(f, id, now), UserId);
      && after == users + [NewUser(f, id, now)]
      && |after| == |users| + 1
      && after[k] == users[k]
      && after[k].email == after[|users|].email
  {
    UpsertNew(users, NewUser(f, id, now), UserId);
  }
}
