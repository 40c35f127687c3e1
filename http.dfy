/** Requests and responses as the route handlers see them: the request
    headers they read, the deployment environment, the cookie they set and
    the JSON response they return. */
module Http {
  import opened Common
  import opened Tokens

  /** The request headers the handlers read (`null` when absent). */
  datatype Headers = Headers(forwardedFor: Option<string>, realIp: Option<string>, userAgent: Option<string>)

  /** `x-forwarded-for || x-real-ip || 'unknown'`. */
  function ClientIp(h: Headers): (ip: string)
    ensures ip != ""
    ensures Given(h.forwardedFor) ==> ip == h.forwardedFor.value
    ensures !Given(h.forwardedFor) && Given(h.realIp) ==> ip == h.realIp.value
    ensures !Given(h.forwardedFor) && !Given(h.realIp) ==> ip == "unknown"
  {
    if Given(h.forwardedFor) then h.forwardedFor.value
    else if Given(h.realIp) then h.realIp.value
    else "unknown"
  }

  /** `user-agent || 'unknown'`. */
  function ClientAgent(h: Headers): (ua: string)
    ensures ua != ""
    ensures Given(h.userAgent) ==> ua == h.userAgent.value
  {
    if Given(h.userAgent) then h.userAgent.value else "unknown"
  }

  /** The environment variables the core reads. `production` is
      `NODE_ENV === 'production'`. */
  datatype Env = Env(jwtSecret: Option<string>, production: bool, adminSignupCode: Option<string>)

  /** A `Set-Cookie` written through `response.cookies.set`. */
  datatype Cookie = Cookie(
    name: string, value: Token, httpOnly: bool, secure: bool,
    sameSite: string, maxAge: int, path: string)

  /** A response: status, JSON body (`JNull` for an empty body), the cookie
      set on it, if any, and extra headers. */
  datatype Response = Response(status: int, body: Json, cookie: Option<Cookie>, headers: map<string, string>)

  /** `NextResponse.json(body, { status })`. */
  function Respond(status: int, body: Json): (r: Response)
    ensures r.status == status && r.body == body && r.cookie == None && r.headers == map[]
  {
    Response(status, body, None, map[])
  }

  /** `JWT_SECRET || 'fallback_secret'`: the secret login signs the
      session token with, and the one the authentication middleware
      verifies it with. */
  function SessionSecret(env: Env): (s: string)
    ensures s != ""
    ensures Given(env.jwtSecret) ==> s == env.jwtSecret.value
    ensures !Given(env.jwtSecret) ==> s == FallbackSecret
  {
    SecretOr(env.jwtSecret, FallbackSecret)
  }

  /** `JWT_SECRET || 'your-secret-key'`: the secret of the routes that
      verify the session token themselves instead of going through the
      authentication middleware. */
  function RouteVerifySecret(env: Env): (s: string)
    ensures s != ""
  {
    SecretOr(env.jwtSecret, RouteSecret)
  }

  /** How those routes open: 401 'Authentication required' without a token,
      401 'Invalid token' when it does not verify, the claims otherwise. */
  function DecodeSession(token: Option<Token>, env: Env): (r: Result<Claims, Response>)
    ensures r.Ok? <==> TokenGiven(token) && Verify(Some(RouteVerifySecret(env)), token.value).Some?
    ensures r.Ok? ==> r.value == Verify(Some(RouteVerifySecret(env)), token.value).value
    ensures !TokenGiven(token) ==> r == Err(Respond(401, FailBody("Authentication required")))
    ensures TokenGiven(token) && r.Err? ==> r == Err(Respond(401, FailBody("Invalid token")))
  {
    if !TokenGiven(token) then Err(Respond(401, FailBody("Authentication required")))
    else
      var decoded := Verify(Some(RouteVerifySecret(env)), token.value);
      if decoded.None? then Err(Respond(401, FailBody("Invalid token")))
      else Ok(decoded.value)
  }

  /** The `{ error }` body used by most failures. */
  function ErrorBody(msg: string): Json {
    JObj(map["error" := JStr(msg)])
  }

  /** The `{ success: false, error }` body used by the account routes. */
  function FailBody(msg: string): Json {
    JObj(map["success" := JBool(false), "error" := JStr(msg)])
  }

  /** The error message carried by a failure body of either shape. */
  function ErrorOf(r: Response): Option<string> {
    if r.body.JObj? && "error" in r.body.fields && r.body.fields["error"].JStr? then
      Some(r.body.fields["error"].s)
    else None
  }

  /** Both failure shapes carry their message where clients read it. */
  lemma ErrorOfBodies(status: int, msg: string)
    ensures ErrorOf(Respond(status, ErrorBody(msg))) == Some(msg)
    ensures ErrorOf(Respond(status, FailBody(msg))) == Some(msg)
  {
  }
}
