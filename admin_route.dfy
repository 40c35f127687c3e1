/** The administrator-creation endpoint (app/api/auth/admin/route.ts): an
    authenticated administrator creates another administrator. */
module AdminRoute {
  import opened Common
  import opened Tokens
  import opened Http
  import opened Database
  import opened AuthMiddleware
  import RegisterRoute

  /** The failure response, in the handler's order; `None` when the
      administrator is created. */
  function Rejection(users: seq<User>, token: Option<Token>, env: Env, name: Option<string>,
                     email: Option<string>, password: Option<string>): (r: Option<Response>)
    ensures r.None? <==>
      Authenticate(token, env).Some? && IsAdminClaims(Authenticate(token, env).value) &&
      Given(name) && Given(email) && Given(password) && FindByEmail(users, email.value).None?
    ensures Authenticate(token, env).None? ==> r == Some(Unauthorized())
    ensures Authenticate(token, env).Some? && !IsAdminClaims(Authenticate(token, env).value) ==> r == Some(Forbidden())
    ensures Authenticate(token, env).Some? && IsAdminClaims(Authenticate(token, env).value) ==>
      r == RegisterRoute.Rejection(users, name, email, password)
  {
    var c := Authenticate(token, env);
    if c.None? then Some(Unauthorized())
    else if !IsAdminClaims(c.value) then Some(Forbidden())
    else RegisterRoute.Rejection(users, name, email, password)
  }

  /** The POST handler. */
  method Post(db: Store, token: Option<Token>, env: Env, name: Option<string>, email: Option<string>,
              password: Option<string>) returns (r: Response)
    requires db.Valid()
    modifies db
    ensures db.Valid()
    ensures db.jobs == old(db.jobs) && db.logs == old(db.logs)
    ensures db.tickets == old(db.tickets) && db.stories == old(db.stories)
    ensures var rej := Rejection(old(db.users), token, env, name, email, password);
      rej.Some? ==> r == rej.value && db.users == old(db.users) && db.nextId == old(db.nextId)
    ensures Rejection(old(db.users), token, env, name, email, password).None? ==>
      var u := User(NewId(old(db.nextId)), name.value, email.value, Hash(password.value, RegisterRoute.SaltRounds),
                    "admin", None, None, None, None);
      db.users == old(db.users) + [u] && r == RegisterRoute.Created(u, "Admin user created successfully")
  {
    var req := new AuthRequest(token);
    var authReq := AuthenticateUser(req, env);
    if authReq.None? {
      return Unauthorized();
    }
    if !IsAdmin(authReq.value) {
      return Forbidden();
    }
    var rej := RegisterRoute.Rejection(db.users, name, email, password);
    if rej.Some? {
      return rej.value;
    }
    var u := db.AddUser(name.value, email.value, Hash(password.value, RegisterRoute.SaltRounds), "admin");
    r := RegisterRoute.Created(u, "Admin user created successfully");
  }

  /** Only a session whose role claim is 'admin' can add anyone. */
  lemma NonAdminCannotCreate(users: seq<User>, c: Claims, secret: string, env: Env, name: Option<string>,
                             email: Option<string>, password: Option<string>)
    requires !IsAdminClaims(c)
    ensures Rejection(users, Some(Sign(c, secret)), env, name, email, password).Some?
  {
  }
}
