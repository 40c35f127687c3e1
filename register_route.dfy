/** The registration endpoint (app/api/auth/register/route.ts): creates a
    user from a name, an email that no user holds yet and a password, and
    (for now, as the source says) makes every registered user an
    administrator. */
module RegisterRoute {
  import opened Common
  import opened Tokens
  import opened Http
  import opened Database
  import LoginRoute

  /** The bcrypt cost factor of the stored hash. */
  const SaltRounds := 10

  /** The role every registered user gets. */
  const RegisteredRole := "admin"

  /** The failure response, in the handler's order; `None` when the user is
      created. */
  function Rejection(users: seq<User>, name: Option<string>, email: Option<string>, password: Option<string>): (r: Option<Response>)
    ensures r.None? <==> Given(name) && Given(email) && Given(password) && FindByEmail(users, email.value).None?
    ensures !Given(name) || !Given(email) || !Given(password) ==> r == Some(Respond(400, ErrorBody("Missing required fields")))
    ensures Given(name) && Given(email) && Given(password) && FindByEmail(users, email.value).Some? ==>
      r == Some(Respond(409, ErrorBody("User with this email already exists")))
  {
    if !Given(name) || !Given(email) || !Given(password) then Some(Respond(400, ErrorBody("Missing required fields")))
    else if FindByEmail(users, email.value).Some? then Some(Respond(409, ErrorBody("User with this email already exists")))
    else None
  }

  /** The 201 response for a created user. */
  function Created(u: User, message: string): (r: Response)
    ensures r.status == 201 && r.body.JObj? && "user" in r.body.fields
    ensures r.body.fields["user"] == UserJson(u)
  {
    Respond(201, JObj(map["success" := JBool(true), "message" := JStr(message), "user" := UserJson(u)]))
  }

  /** The POST handler. */
  method Post(db: Store, name: Option<string>, email: Option<string>, password: Option<string>) returns (r: Response)
    requires db.Valid()
    modifies db
    ensures db.Valid()
    ensures db.jobs == old(db.jobs) && db.logs == old(db.logs)
    ensures db.tickets == old(db.tickets) && db.stories == old(db.stories)
    ensures var rej := Rejection(old(db.users), name, email, password);
      rej.Some? ==> r == rej.value && db.users == old(db.users) && db.nextId == old(db.nextId)
    ensures Rejection(old(db.users), name, email, password).None? ==>
      var u := User(NewId(old(db.nextId)), name.value, email.value, Hash(password.value, SaltRounds),
                    RegisteredRole, None, None, None, None);
      db.users == old(db.users) + [u] && r == Created(u, "User registered successfully")
  {
    var rej := Rejection(db.users, name, email, password);
    if rej.Some? {
      return rej.value;
    }
    var u := db.AddUser(name.value, email.value, Hash(password.value, SaltRounds), RegisteredRole);
    r := Created(u, "User registered successfully");
  }

  /** A user just added can log in with the password they chose, and with no
      other. */
  lemma {:induction false} RegisteredUserLogsIn(users: seq<User>, u: User, password: string, other: string)
    requires FindByEmail(users, u.email).None?
    requires u.password == Hash(password, SaltRounds) && other != password
    ensures LoginRoute.LoginUser(users + [u], u.email, password) == Some(|users|)
    ensures LoginRoute.LoginUser(users + [u], u.email, other) == None
  {
    FindByEmailAppend(users, u);
    HashMatchesOnly(password, other, SaltRounds);
  }
}
