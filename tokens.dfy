/** Session tokens (JSON Web Tokens, RFC 7519, as issued and checked by the
    `jsonwebtoken` package) and password hashes (`bcrypt`), both idealised:
    a token remembers the claims and the secret it was signed with, and a
    hash remembers the password it was made from. Signatures, salts and
    expiry arithmetic are not modelled. */
module Tokens {
  import opened Common

  /** The decoded payload of a token: claim name to claim value. */
  type Claims = map<string, string>

  /** A cookie value as the server receives it: either a token the server
      signed (and that may since have expired) or any other text. */
  datatype Token =
    | Signed(claims: Claims, secret: string, expired: bool)
    | Raw(text: string)

  /** The cookie value written by logout. */
  const Cleared: Token := Raw("")

  /** `!token` in the route handlers: no cookie, or an empty one. */
  predicate TokenGiven(t: Option<Token>) {
    t.Some? && t.value != Cleared
  }

  /** `jwt.sign(claims, secret, { expiresIn })`: a fresh, unexpired token. */
  function Sign(claims: Claims, secret: string): (t: Token)
    ensures t.Signed? && !t.expired
  {
    Signed(claims, secret, false)
  }

  /** `jwt.verify(token, secret)`: the claims of a token signed with this very
      secret that has not expired; `None` stands for the exception thrown
      otherwise, and also when no secret (or an empty one) is supplied. */
  function Verify(secret: Option<string>, t: Token): (r: Option<Claims>)
    ensures r.Some? ==> Given(secret) && t.Signed? && t.secret == secret.value && !t.expired
    ensures r.Some? ==> r.value == t.claims
  {
    if Given(secret) && t.Signed? && t.secret == secret.value && !t.expired then Some(t.claims)
    else None
  }

  /** `decoded.<name>`: the claim's value, or `None` (undefined) when the
      token does not carry it. */
  function Claim(c: Claims, name: string): (v: Option<string>)
    ensures v.Some? <==> name in c
    ensures v.Some? ==> v.value == c[name]
  {
    if name in c then Some(c[name]) else None
  }

  /** `decoded.role === 'admin'`. */
  predicate IsAdminClaims(c: Claims) {
    Claim(c, "role") == Some("admin")
  }

  /** `process.env.JWT_SECRET || fallback`. */
  function SecretOr(env: Option<string>, fallback: string): (s: string)
    ensures fallback != "" ==> s != ""
    ensures Given(env) ==> s == env.value
  {
    if Given(env) then env.value else fallback
  }

  /** The fallback used by login and by the authentication middleware. */
  const FallbackSecret := "fallback_secret"

  /** The fallback used by the activity, profile, change-password, logout and
      help routes. */
  const RouteSecret := "your-secret-key"

  /** Verification undoes signing, whatever the claims, for any usable secret. */
  lemma VerifySign(claims: Claims, secret: string)
    requires secret != ""
    ensures Verify(Some(secret), Sign(claims, secret)) == Some(claims)
  {
  }

  /** A token signed with one secret never verifies under another. */
  lemma VerifyOtherSecret(claims: Claims, s1: string, s2: string)
    requires s1 != s2
    ensures Verify(Some(s2), Sign(claims, s1)) == None
  {
  }

  /** With `JWT_SECRET` unset, a token issued at login (signed with the
      `fallback_secret` fallback) is refused by every route that falls back to
      `your-secret-key`, and by the success-story routes, which have no
      fallback at all. */
  lemma LoginTokenRefusedWithoutSecret(env: Option<string>, claims: Claims)
    requires !Given(env)
    ensures Verify(Some(SecretOr(env, RouteSecret)), Sign(claims, SecretOr(env, FallbackSecret))) == None
    ensures Verify(env, Sign(claims, SecretOr(env, FallbackSecret))) == None
  {
  }

  /** With `JWT_SECRET` set, every route accepts a fresh login token. */
  lemma LoginTokenAcceptedWithSecret(env: Option<string>, claims: Claims)
    requires Given(env)
    ensures Verify(Some(SecretOr(env, RouteSecret)), Sign(claims, SecretOr(env, FallbackSecret))) == Some(claims)
    ensures Verify(Some(SecretOr(env, FallbackSecret)), Sign(claims, SecretOr(env, FallbackSecret))) == Some(claims)
    ensures Verify(env, Sign(claims, SecretOr(env, FallbackSecret))) == Some(claims)
  {
  }

  // ---------------------------------------------------------------------------
  // Password hashing

  /** A bcrypt hash: the password it was made from and the cost factor. */
  datatype PasswordHash = Bcrypt(plain: string, rounds: nat)

  /** `hash(plain, rounds)`. */
  function Hash(plain: string, rounds: nat): (h: PasswordHash)
    ensures h.rounds == rounds
  {
    Bcrypt(plain, rounds)
  }

  /** `compare(plain, hash)`. */
  predicate Matches(plain: string, h: PasswordHash) {
    h.plain == plain
  }

  /** A hash matches exactly the password it was made from. */
  lemma HashMatchesOnly(p: string, q: string, rounds: nat)
    ensures Matches(q, Hash(p, rounds)) <==> q == p
  {
  }
}
