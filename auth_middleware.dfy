/** The shared authentication gate (middleware/auth.ts): reads the `token`
    cookie, verifies it with `JWT_SECRET` or the `fallback_secret` fallback,
    and records the decoded claims on the request object. */
module AuthMiddleware {
  import opened Common
  import opened Tokens
  import opened Http

  /** A request as the middleware sees it: the `token` cookie, and the `user`
      field that `authenticateUser` writes. */
  class AuthRequest {
    const token: Option<Token>
    var user: Option<Claims>

    constructor (token: Option<Token>)
      ensures this.token == token && user == None
    {
      this.token := token;
      user := None;
    }
  }

  /** What `authenticateUser` decides: the claims of a present token that
      verifies, and nothing otherwise (a failed verification is caught and
      turned into `null`, never rethrown). */
  function Authenticate(token: Option<Token>, env: Env): (r: Option<Claims>)
    ensures !TokenGiven(token) ==> r == None
    ensures TokenGiven(token) ==> r == Verify(Some(SessionSecret(env)), token.value)
  {
    if !TokenGiven(token) then None
    else Verify(Some(SessionSecret(env)), token.value)
  }

  /** `authenticateUser(req)`: on success writes the claims to `req.user` and
      returns the same request; otherwise returns `null` and leaves the
      request as it was. */
  method AuthenticateUser(req: AuthRequest, env: Env) returns (r: Option<AuthRequest>)
    modifies req
    ensures Authenticate(req.token, env).None? ==> r == None && req.user == old(req.user)
    ensures Authenticate(req.token, env).Some? ==>
      r == Some(req) && req.user == Authenticate(req.token, env)
  {
    if !TokenGiven(req.token) {
      return None;
    }
    var decoded := Verify(Some(SessionSecret(env)), req.token.value);
    if decoded.None? {
      return None;
    }
    req.user := decoded;
    return Some(req);
  }

  /** `isAdmin(req)`: `req.user?.role === 'admin'`. */
  function IsAdmin(req: AuthRequest): (b: bool)
    reads req
    ensures b <==> req.user.Some? && "role" in req.user.value && req.user.value["role"] == "admin"
  {
    req.user.Some? && IsAdminClaims(req.user.value)
  }

  /** `unauthorized()`. */
  function Unauthorized(): (r: Response)
    ensures r.status == 401 && ErrorOf(r) == Some("Unauthorized") && r.cookie == None
  {
    Respond(401, ErrorBody("Unauthorized"))
  }

  /** `forbidden()`. */
  function Forbidden(): (r: Response)
    ensures r.status == 403 && ErrorOf(r) == Some("Forbidden") && r.cookie == None
  {
    Respond(403, ErrorBody("Forbidden"))
  }

  /** A fresh login token passes the gate exactly when it was signed with the
      middleware's secret, and then yields the claims it was signed with. */
  lemma {:induction false} LoginTokenPassesGate(claims: Claims, secret: string, env: Env)
    requires secret != ""
    ensures Authenticate(Some(Sign(claims, secret)), env) == Some(claims) <==> secret == SessionSecret(env)
  {
    if secret == SessionSecret(env) {
      VerifySign(claims, secret);
    } else {
      VerifyOtherSecret(claims, secret, SessionSecret(env));
    }
  }

  /** The cleared cookie left by logout never authenticates. */
  lemma ClearedCookieRefused(env: Env)
    ensures Authenticate(Some(Cleared), env) == None
    ensures Authenticate(None, env) == None
  {
  }
}
