/** The session-check endpoint (app/api/auth/me/route.ts): passes the
    request through the authentication middleware and looks the user up by
    the token's `id` claim. */
module MeRoute {
  import opened Common
  import opened Tokens
  import opened Http
  import opened Database
  import opened AuthMiddleware
  import LoginRoute

  /** The 200 body: the stored user's public fields. */
  function MeBody(u: User): Json {
    JObj(map["authenticated" := JBool(true),
             "user" := JObj(map["id" := JStr(u.id), "name" := JStr(u.name),
                                "email" := JStr(u.email), "role" := JStr(u.role)])])
  }

  /** The GET response. */
  function Get(users: seq<User>, token: Option<Token>, env: Env): (r: Response)
    ensures r.status in {200, 401, 404} && r.cookie == None
    ensures r.status == 401 <==> Authenticate(token, env).None?
    ensures r.status == 200 <==>
      Authenticate(token, env).Some? && FindById(users, Claim(Authenticate(token, env).value, "id")).Some?
    ensures r.status == 200 ==>
      r.body == MeBody(users[FindById(users, Claim(Authenticate(token, env).value, "id")).value])
    ensures r.status != 200 ==> r.body.JObj? && "authenticated" in r.body.fields && r.body.fields["authenticated"] == JBool(false)
  {
    var c := Authenticate(token, env);
    if c.None? then Respond(401, JObj(map["authenticated" := JBool(false)]))
    else
      var i := FindById(users, Claim(c.value, "id"));
      if i.None? then Respond(404, JObj(map["authenticated" := JBool(false), "error" := JStr("User not found")]))
      else Respond(200, MeBody(users[i.value]))
  }

  /** Right after a successful login, the session cookie makes this route
      report the very user that logged in (login and the middleware share
      their secret and its fallback). */
  lemma {:induction false} LoginThenMe(users: seq<User>, email: string, password: string, env: Env)
    requires UniqueIds(users)
    requires LoginRoute.LoginResponse(users, Some(email), Some(password), env).status == 200
    ensures var cookie := LoginRoute.LoginResponse(users, Some(email), Some(password), env).cookie.value;
      var r := Get(users, Some(cookie.value), env);
      r.status == 200 && r.body == MeBody(users[FindByEmail(users, email).value])
  {
    var i := FindByEmail(users, email).value;
    var c := LoginRoute.SessionClaims(users[i]);
    LoginTokenPassesGate(c, SessionSecret(env), env);
    FindByIdUnique(users, i);
  }

  /** After logout the route reports no session. */
  lemma AfterLogout(users: seq<User>, env: Env)
    ensures Get(users, Some(Cleared), env).status == 401
  {
    ClearedCookieRefused(env);
  }
}
