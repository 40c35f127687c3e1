/** The administrator self-signup endpoint
    (app/api/auth/admin-signup/route.ts): creates an administrator for
    whoever knows the signup code. In production it is closed as soon as
    one administrator exists. */
module AdminSignupRoute {
  import opened Common
  import opened Tokens
  import opened Http
  import opened Database
  import RegisterRoute

  /** `ADMIN_SIGNUP_CODE || 'sunshine_admin_signup'`. */
  function SignupCode(env: Env): (s: string)
    ensures s != ""
  {
    SecretOr(env.adminSignupCode, "sunshine_admin_signup")
  }

  /** The failure response, in the handler's order; `None` when the
      administrator is created. */
  function Rejection(users: seq<User>, env: Env, name: Option<string>, email: Option<string>,
                     password: Option<string>, signupCode: Option<string>): (r: Option<Response>)
    ensures r.None? <==>
      !(env.production && HasRole(users, "admin")) &&
      Given(name) && Given(email) && Given(password) && signupCode == Some(SignupCode(env)) &&
      FindByEmail(users, email.value).None?
    ensures env.production && HasRole(users, "admin") ==>
      r == Some(Respond(403, ErrorBody("Admin signup is disabled in production when admins already exist")))
    ensures !(env.production && HasRole(users, "admin")) && (!Given(name) || !Given(email) || !Given(password)) ==>
      r == Some(Respond(400, ErrorBody("Missing required fields")))
    ensures !(env.production && HasRole(users, "admin")) && Given(name) && Given(email) && Given(password) &&
            signupCode != Some(SignupCode(env)) ==>
      r == Some(Respond(401, ErrorBody("Invalid signup code")))
    ensures !(env.production && HasRole(users, "admin")) && Given(name) && Given(email) && Given(password) &&
            signupCode == Some(SignupCode(env)) && FindByEmail(users, email.value).Some? ==>
      r == Some(Respond(409, ErrorBody("User with this email already exists")))
    ensures r.Some? ==> r.value.status in {400, 401, 403, 409}
  {
    if env.production && HasRole(users, "admin") then
      Some(Respond(403, ErrorBody("Admin signup is disabled in production when admins already exist")))
    else if !Given(name) || !Given(email) || !Given(password) then
      Some(Respond(400, ErrorBody("Missing required fields")))
    else if signupCode != Some(SignupCode(env)) then
      Some(Respond(401, ErrorBody("Invalid signup code")))
    else if FindByEmail(users, email.value).Some? then
      Some(Respond(409, ErrorBody("User with this email already exists")))
    else None
  }

  /** The POST handler. */
  method Post(db: Store, env: Env, name: Option<string>, email: Option<string>, password: Option<string>,
              signupCode: Option<string>) returns (r: Response)
    requires db.Valid()
    modifies db
    ensures db.Valid()
    ensures db.jobs == old(db.jobs) && db.logs == old(db.logs)
    ensures db.tickets == old(db.tickets) && db.stories == old(db.stories)
    ensures var rej := Rejection(old(db.users), env, name, email, password, signupCode);
      rej.Some? ==> r == rej.value && db.users == old(db.users) && db.nextId == old(db.nextId)
    ensures Rejection(old(db.users), env, name, email, password, signupCode).None? ==>
      var u := User(NewId(old(db.nextId)), name.value, email.value, Hash(password.value, RegisterRoute.SaltRounds),
                    "admin", None, None, None, None);
      db.users == old(db.users) + [u] && r == RegisterRoute.Created(u, "Admin user created successfully")
  {
    var rej := Rejection(db.users, env, name, email, password, signupCode);
    if rej.Some? {
      return rej.value;
    }
    var u := db.AddUser(name.value, email.value, Hash(password.value, RegisterRoute.SaltRounds), "admin");
    r := RegisterRoute.Created(u, "Admin user created successfully");
  }

  /** In production, once an administrator exists, every later signup is
      refused whatever it carries; in particular the one that created the
      first administrator cannot be repeated. */
  lemma {:induction false} ClosedAfterFirstAdmin(users: seq<User>, u: User, env: Env, name: Option<string>,
                                                  email: Option<string>, password: Option<string>, code: Option<string>)
    requires env.production && u.role == "admin"
    ensures Rejection(users + [u], env, name, email, password, code).Some?
  {
    assert (users + [u])[|users|] == u;
  }

  /** A signup without the right code never creates anyone. */
  lemma WrongCodeRefused(users: seq<User>, env: Env, name: Option<string>, email: Option<string>,
                         password: Option<string>, code: Option<string>)
    requires code != Some(SignupCode(env))
    ensures Rejection(users, env, name, email, password, code).Some?
  {
  }
}
