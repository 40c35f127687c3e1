/** The logout endpoint (app/api/auth/logout/route.ts): always answers 200
    and overwrites the session cookie with an empty one that expires at
    once. It records an activity log only when the old token verifies with
    the route's own secret and carries a `userId` claim; tokens issued at
    login carry `id` instead, so a logout after a login is never logged. */
module LogoutRoute {
  import opened Common
  import opened Tokens
  import opened Http
  import opened Database
  import ActivityLogSchema
  import LoginRoute

  /** `verifyToken(token)`: the claims, or `null` when verification throws. */
  function VerifyToken(t: Token, env: Env): (r: Option<Claims>)
    ensures r == Verify(Some(RouteVerifySecret(env)), t)
  {
    Verify(Some(RouteVerifySecret(env)), t)
  }

  /** The `userId` and `userEmail` the handler extracts: `null` and
      'unknown' unless the token verifies; then the claims, where a missing
      email claim prints as "undefined". */
  function Subject(token: Option<Token>, env: Env): (s: (Option<string>, string))
    ensures s.0.Some? ==> TokenGiven(token) && VerifyToken(token.value, env).Some? &&
                          Claim(VerifyToken(token.value, env).value, "userId") == s.0
    ensures !TokenGiven(token) || VerifyToken(token.value, env).None? ==> s == (None, "unknown")
  {
    if !TokenGiven(token) then (None, "unknown")
    else
      var decoded := VerifyToken(token.value, env);
      if decoded.None? then (None, "unknown")
      else
        var email := Claim(decoded.value, "email");
        (Claim(decoded.value, "userId"), if email.Some? then email.value else "undefined")
  }

  /** The expired, empty session cookie. */
  function ClearingCookie(env: Env): (c: Cookie)
    ensures c.name == "token" && c.value == Cleared && c.maxAge == 0
    ensures c.httpOnly && c.secure == env.production && c.sameSite == "strict" && c.path == "/"
  {
    Cookie("token", Cleared, true, env.production, "strict", 0, "/")
  }

  /** The POST response, whatever the request. */
  function LogoutResponse(env: Env): (r: Response)
    ensures r.status == 200 && r.cookie == Some(ClearingCookie(env))
    ensures r.body == JObj(map["success" := JBool(true), "message" := JStr("Logged out successfully")])
  {
    Respond(200, JObj(map["success" := JBool(true), "message" := JStr("Logged out successfully")]))
      .(cookie := Some(ClearingCookie(env)))
  }

  /** The POST handler; the log write reaches the database when `logWriteOk`
      holds, and a failure is swallowed. */
  method Post(db: Store, token: Option<Token>, h: Headers, env: Env, now: Time, logWriteOk: bool)
    returns (r: Response)
    requires db.Valid()
    modifies db
    ensures db.Valid()
    ensures r == LogoutResponse(env)
    ensures db.users == old(db.users) && db.jobs == old(db.jobs)
    ensures db.tickets == old(db.tickets) && db.stories == old(db.stories)
    ensures !Given(Subject(token, env).0) ==> db.logs == old(db.logs) && db.nextId == old(db.nextId)
    ensures Given(Subject(token, env).0) ==>
      var s := Subject(token, env);
      var log := ActivityLogSchema.Cast(
        RequestLog(s.0, "Logout", "Authentication", "User logged out: " + s.1, h, Some(now), "success"),
        NewId(old(db.nextId)), now);
      log.Some? && db.logs == (if logWriteOk then old(db.logs) + [log.value] else old(db.logs))
  {
    var userId: Option<string> := None;
    var userEmail := "unknown";
    if TokenGiven(token) {
      var decoded := VerifyToken(token.value, env);
      if decoded.Some? {
        userId := Claim(decoded.value, "userId");
        var email := Claim(decoded.value, "email");
        userEmail := if email.Some? then email.value else "undefined";
      }
    }
    r := LogoutResponse(env);
    if Given(userId) {
      var input := RequestLog(userId, "Logout", "Authentication", "User logged out: " + userEmail, h, Some(now), "success");
      var _ := db.SaveLog(input, now, logWriteOk);
    }
  }

  /** The session token issued at login never yields a subject here: either
      the secrets differ and verification fails, or it verifies and has no
      `userId` claim. So logging out of a real session writes no log. */
  lemma {:induction false} LoginSessionNeverLogged(u: User, env: Env)
    ensures Subject(Some(Sign(LoginRoute.SessionClaims(u), SessionSecret(env))), env).0 == None
  {
    var c := LoginRoute.SessionClaims(u);
    var t := Sign(c, SessionSecret(env));
    assert TokenGiven(Some(t));
    if SessionSecret(env) == RouteVerifySecret(env) {
      VerifySign(c, RouteVerifySecret(env));
    } else {
      VerifyOtherSecret(c, SessionSecret(env), RouteVerifySecret(env));
    }
  }

  /** A token that does carry a `userId` (signed with the route's secret) is
      logged under that id. */
  lemma {:induction false} UserIdTokenLogged(c: Claims, env: Env)
    requires "userId" in c && c["userId"] != ""
    ensures Subject(Some(Sign(c, RouteVerifySecret(env))), env).0 == Some(c["userId"])
  {
    VerifySign(c, RouteVerifySecret(env));
  }

  /** `OPTIONS`: the CORS preflight answer, with an empty body. */
  function Options(): (r: Response)
    ensures r.status == 200 && r.body == JNull && r.cookie == None
    ensures r.headers.Keys == {"Access-Control-Allow-Origin", "Access-Control-Allow-Methods",
                               "Access-Control-Allow-Headers", "Access-Control-Allow-Credentials"}
    ensures r.headers["Access-Control-Allow-Origin"] == "*"
    ensures r.headers["Access-Control-Allow-Credentials"] == "true"
  {
    Response(200, JNull, None, map[
      "Access-Control-Allow-Origin" := "*",
      "Access-Control-Allow-Methods" := "GET, POST, PUT, DELETE, OPTIONS",
      "Access-Control-Allow-Headers" := "Content-Type, Authorization, X-Requested-With",
      "Access-Control-Allow-Credentials" := "true"])
  }
}
