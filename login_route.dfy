/** The login endpoint (app/api/auth/login/route.ts): checks the email and
    password against the stored users, and on success sets a one-day session
    cookie holding a token with the user's id, email and role. Every attempt
    is meant to leave an activity log; the two failure logs carry the status
    'failed', which the activity-log schema refuses, so only successful
    logins are ever recorded. */
module LoginRoute {
  import opened Common
  import opened Tokens
  import opened Http
  import opened Database
  import ActivityLogSchema

  /** The claims of the session token. */
  function SessionClaims(u: User): (c: Claims)
    ensures Claim(c, "id") == Some(u.id) && Claim(c, "email") == Some(u.email)
    ensures Claim(c, "role") == Some(u.role) && Claim(c, "userId") == None
  {
    map["id" := u.id, "email" := u.email, "role" := u.role]
  }

  /** The session cookie: HTTP only, secure in production, strict same-site,
      one day, whole site. */
  function SessionCookie(t: Token, env: Env): (c: Cookie)
    ensures c.name == "token" && c.value == t && c.path == "/"
    ensures c.httpOnly && c.sameSite == "strict" && (c.secure <==> env.production)
    ensures c.maxAge == 24 * 60 * 60
  {
    Cookie("token", t, true, env.production, "strict", 86400, "/")
  }

  /** The 200 body. Its `user` carries the id, name, email and role and
      nothing else, each as stored, so never the password hash. */
  function LoginBody(u: User): (b: Json)
    ensures b.JObj? && b.fields.Keys == {"success", "message", "user"}
    ensures b.fields["success"] == JBool(true) && b.fields["message"] == JStr("Login successful")
    ensures var o := b.fields["user"];
      o.JObj? && o.fields.Keys == {"id", "name", "email", "role"} &&
      o.fields["id"] == JStr(u.id) && o.fields["name"] == JStr(u.name) &&
      o.fields["email"] == JStr(u.email) && o.fields["role"] == JStr(u.role)
  {
    JObj(map["success" := JBool(true), "message" := JStr("Login successful"),
             "user" := JObj(map["id" := JStr(u.id), "name" := JStr(u.name),
                                "email" := JStr(u.email), "role" := JStr(u.role)])])
  }

  const Invalid := "Invalid email or password"

  /** The user an attempt logs in as: the one holding the email, provided
      the password matches its hash. */
  function LoginUser(users: seq<User>, email: string, password: string): (r: Option<nat>)
    ensures r.Some? <==> FindByEmail(users, email).Some? && Matches(password, users[FindByEmail(users, email).value].password)
    ensures r.Some? ==> r == FindByEmail(users, email)
  {
    var i := FindByEmail(users, email);
    if i.Some? && Matches(password, users[i.value].password) then i else None
  }

  /** The response to a login attempt with the given body fields. */
  function LoginResponse(users: seq<User>, email: Option<string>, password: Option<string>, env: Env): (r: Response)
    ensures r.status in {200, 400, 401}
    ensures r.status == 400 <==> !Given(email) || !Given(password)
    ensures r.status == 200 <==> Given(email) && Given(password) && LoginUser(users, email.value, password.value).Some?
    ensures r.status == 401 ==> ErrorOf(r) == Some(Invalid)
    ensures r.status == 400 ==> ErrorOf(r) == Some("Email and password are required")
    ensures r.cookie.Some? <==> r.status == 200
    ensures r.status == 200 ==>
      var u := users[LoginUser(users, email.value, password.value).value];
      r.body == LoginBody(u) && r.cookie == Some(SessionCookie(Sign(SessionClaims(u), SessionSecret(env)), env))
  {
    if !Given(email) || !Given(password) then Respond(400, ErrorBody("Email and password are required"))
    else
      var i := LoginUser(users, email.value, password.value);
      if i.None? then Respond(401, ErrorBody(Invalid))
      else
        var u := users[i.value];
        Respond(200, LoginBody(u)).(cookie := Some(SessionCookie(Sign(SessionClaims(u), SessionSecret(env)), env)))
  }

  /** A successful login hands out a token that login's own secret accepts
      and whose `id` claim leads back to the user that logged in. */
  lemma {:induction false} SessionTokenIdentifiesUser(users: seq<User>, email: string, password: string, env: Env)
    requires UniqueIds(users)
    requires LoginResponse(users, Some(email), Some(password), env).status == 200
    ensures var r := LoginResponse(users, Some(email), Some(password), env);
      var c := Verify(Some(SessionSecret(env)), r.cookie.value.value);
      c.Some? && FindById(users, Claim(c.value, "id")) == LoginUser(users, email, password) &&
      users[LoginUser(users, email, password).value].email == email
  {
    var i := LoginUser(users, email, password).value;
    var u := users[i];
    VerifySign(SessionClaims(u), SessionSecret(env));
    FindByIdUnique(users, i);
  }

  /** A wrong password and an unknown email look the same to the client. */
  lemma {:induction false} FailuresIndistinguishable(users: seq<User>, e1: string, p1: string, e2: string, p2: string, env: Env)
    requires e1 != "" && p1 != "" && e2 != "" && p2 != ""
    requires FindByEmail(users, e1).None?
    requires FindByEmail(users, e2).Some? && !Matches(p2, users[FindByEmail(users, e2).value].password)
    ensures LoginResponse(users, Some(e1), Some(p1), env) == LoginResponse(users, Some(e2), Some(p2), env)
  {
  }

  /** The `details` of the log for a successful login. */
  function SuccessDetails(u: User): string {
    "Successful login for " + u.name + " (" + u.email + ")"
  }

  /** The POST handler. The log writes reach the database when `logWriteOk`
      holds; a failed write is swallowed. */
  method Post(db: Store, email: Option<string>, password: Option<string>, h: Headers, env: Env,
              now: Time, logWriteOk: bool) returns (r: Response)
    requires db.Valid()
    modifies db
    ensures db.Valid()
    ensures r == LoginResponse(old(db.users), email, password, env)
    ensures db.users == old(db.users) && db.jobs == old(db.jobs)
    ensures db.tickets == old(db.tickets) && db.stories == old(db.stories)
    ensures r.status != 200 ==> db.logs == old(db.logs) && db.nextId == old(db.nextId)
    ensures r.status == 200 ==>
      var u := old(db.users)[FindByEmail(old(db.users), email.value).value];
      var log := ActivityLogSchema.Cast(
        RequestLog(Some(u.id), "Login", "Authentication", SuccessDetails(u), h, Some(now), "success"),
        NewId(old(db.nextId)), now);
      log.Some? &&
      db.logs == (if logWriteOk then old(db.logs) + [log.value] else old(db.logs))
  {
    if !Given(email) || !Given(password) {
      return Respond(400, ErrorBody("Email and password are required"));
    }
    var i := FindByEmail(db.users, email.value);
    if i.None? {
      var failed := RequestLog(None, "Login Attempt", "Authentication",
        "Failed login attempt for email: " + email.value + " (user not found)", h, Some(now), "failed");
      ActivityLogSchema.RejectedInputs(failed, NewId(db.nextId), now);
      var _ := db.SaveLog(failed, now, logWriteOk);
      return Respond(401, ErrorBody(Invalid));
    }
    var u := db.users[i.value];
    if !Matches(password.value, u.password) {
      var failed := RequestLog(Some(u.id), "Login Attempt", "Authentication",
        "Failed login attempt for email: " + email.value + " (invalid password)", h, Some(now), "failed");
      ActivityLogSchema.RejectedInputs(failed, NewId(db.nextId), now);
      var _ := db.SaveLog(failed, now, logWriteOk);
      return Respond(401, ErrorBody(Invalid));
    }
    var token := Sign(SessionClaims(u), SessionSecret(env));
    r := Respond(200, LoginBody(u)).(cookie := Some(SessionCookie(token, env)));
    assert u.id == db.users[i.value].id;
    var success := RequestLog(Some(u.id), "Login", "Authentication", SuccessDetails(u), h, Some(now), "success");
    var _ := db.SaveLog(success, now, logWriteOk);
  }
}
