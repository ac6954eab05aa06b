/** Signing in (src/pages/Login.tsx): the empty-field guard, the lookup of the
    first stored user with matching e-mail and password, and the current-user
    write with its route. */
module Login {
  import opened Seqs
  import opened Entities
  import opened LocalStore
  import SignIn

  predicate Matches(u: User, email: string, password: string)
  {
    u.email == email && u.password == password
  }

  /** `users.find(u => u.email === email && u.password === password)`:
      the first user in stored order whose e-mail and password both match. */
  function FindUser(users: seq<User>, email: string, password: string): (r: Option<User>)
    ensures r.None? <==> forall i :: 0 <= i < |users| ==> !Matches(users[i], email, password)
    ensures r.Some? ==> Matches(r.value, email, password)
    ensures r.Some? ==>
      exists i :: 0 <= i < |users| && users[i] == r.value && forall j :: 0 <= j < i ==> !Matches(users[j], email, password)
  {
    match FirstIndex(users, (u: User) => Matches(u, email, password))
    case Some(i) => Some(users[i])
    case None => None
  }

  datatype LoginOutcome = EmptyFields | InvalidCredentials | LoggedIn(user: User, route: string)

  /** `handleSubmit`: an empty e-mail or password is refused before any
      lookup; no matching user leaves the current user as it was; a match
      becomes the current user and its role picks the route. */
  method HandleSubmit(store: Store, email: string, password: string) returns (outcome: LoginOutcome)
    modifies store`session
    ensures email == "" || password == "" ==> outcome == EmptyFields
    ensures email != "" && password != "" ==>
      match FindUser(store.GetUsers(), email, password)
      case None => outcome == InvalidCredentials
      case Some(u) => outcome == LoggedIn(u, DashboardRoute(u.role))
    ensures !outcome.LoggedIn? ==> unchanged(store)
    ensures outcome.LoggedIn? ==> store.GetCurrentUser() == Some(outcome.user)
  {
    if email == "" || password == "" {
      return EmptyFields;
    }
    var found := FindUser(store.GetUsers(), email, password);
    if found.None? {
      return InvalidCredentials;
    }
    var user := found.value;
    store.SetCurrentUser(Some(user));
    outcome := LoggedIn(user, DashboardRoute(user.role));
  }

  /** Signing in right after signing up (with a fresh id) finds the new account,
      unless an older account already has the same e-mail and password, in
      which case that older account wins. */
  lemma {:induction false} LoginAfterSignUp(users: seq<User>, f: SignIn.SignUpForm, id: string, now: string)
    requires !HasId(users, id, UserId)
    ensures var after := Upsert(users, SignIn.NewUser(f, id, now), UserId);
      FindUser(after, f.email, f.password) ==
        if FindUser(users, f.email, f.password).Some? then FindUser(users, f.email, f.password)
        else Some(SignIn.NewUser(f, id, now))
  {
    var u := SignIn.NewUser(f, id, now);
    var p := (x: User) => Matches(x, f.email, f.password);
    UpsertNew(users, u, UserId);
    FirstIndexConcat(users, [u], p);
    assert FirstIndex([u], p) == Some(0);
    match FirstIndex(users, p)
    case Some(i) =>
      assert (users + [u])[i] == users[i];
    case None =>
      assert (users + [u])[|users|] == u;
  }
}
