/** The change-password endpoint (app/api/auth/change-password/route.ts):
    a signed-in user replaces their password after proving the current
    one. The handler checks, in order: a token, a token that verifies with
    the route's secret, both passwords given, a new password of at least
    six characters that differs from the current one, the user named by
    the token's `id` claim, and the current password. */
module ChangePasswordRoute {
  import opened Common
  import opened Tokens
  import opened Http
  import opened Database
  import ActivityLogSchema
  import LoginRoute

  /** The bcrypt cost factor of the new hash. */
  const SaltRounds := 12

  /** The shortest new password accepted. */
  const MinLength := 6

  /** The user whose password changes, when every check passes: `None` is
      a rejection, which `Rejection` spells out. */
  function Target(users: seq<User>, token: Option<Token>, env: Env,
                  current: Option<string>, next: Option<string>): (i: Option<nat>)
    ensures i.Some? <==>
      TokenGiven(token) && Verify(Some(RouteVerifySecret(env)), token.value).Some? &&
      Given(current) && Given(next) && |next.value| >= MinLength && current != next &&
      FindById(users, Claim(Verify(Some(RouteVerifySecret(env)), token.value).value, "id")).Some? &&
      Matches(current.value, users[FindById(users, Claim(Verify(Some(RouteVerifySecret(env)), token.value).value, "id")).value].password)
    ensures i.Some? ==>
      i.value < |users| &&
      i == FindById(users, Claim(Verify(Some(RouteVerifySecret(env)), token.value).value, "id"))
  {
    if !TokenGiven(token) then None
    else
      var decoded := Verify(Some(RouteVerifySecret(env)), token.value);
      if decoded.None? || !Given(current) || !Given(next) || |next.value| < MinLength || current == next then None
      else
        var i := FindById(users, Claim(decoded.value, "id"));
        if i.None? || !Matches(current.value, users[i.value].password) then None
        else i
  }

  /** The failure response, checked in the handler's order; `None` when
      the password is changed. */
  function Rejection(users: seq<User>, token: Option<Token>, env: Env,
                     current: Option<string>, next: Option<string>): (r: Option<Response>)
    ensures r.None? <==> Target(users, token, env, current, next).Some?
    ensures !TokenGiven(token) ==> r == Some(Respond(401, FailBody("Authentication required")))
    ensures TokenGiven(token) && Verify(Some(RouteVerifySecret(env)), token.value).None? ==>
      r == Some(Respond(401, FailBody("Invalid token")))
    ensures TokenGiven(token) && Verify(Some(RouteVerifySecret(env)), token.value).Some? ==>
      (!Given(current) || !Given(next) ==>
         r == Some(Respond(400, FailBody("Current password and new password are required")))) &&
      (Given(current) && Given(next) && |next.value| < MinLength ==>
         r == Some(Respond(400, FailBody("New password must be at least 6 characters long")))) &&
      (Given(current) && Given(next) && |next.value| >= MinLength && current == next ==>
         r == Some(Respond(400, FailBody("New password must be different from current password"))))
    ensures TokenGiven(token) && Verify(Some(RouteVerifySecret(env)), token.value).Some? &&
            Given(current) && Given(next) && |next.value| >= MinLength && current != next ==>
      var i := FindById(users, Claim(Verify(Some(RouteVerifySecret(env)), token.value).value, "id"));
      (i.None? ==> r == Some(Respond(404, FailBody("User not found")))) &&
      (i.Some? && !Matches(current.value, users[i.value].password) ==>
         r == Some(Respond(400, FailBody("Current password is incorrect"))))
    ensures r.Some? ==> r.value.status in {400, 401, 404}
    ensures r.Some? && r.value.status == 404 ==> ErrorOf(r.value) == Some("User not found")
  {
    if !TokenGiven(token) then Some(Respond(401, FailBody("Authentication required")))
    else
      var decoded := Verify(Some(RouteVerifySecret(env)), token.value);
      if decoded.None? then Some(Respond(401, FailBody("Invalid token")))
      else if !Given(current) || !Given(next) then
        Some(Respond(400, FailBody("Current password and new password are required")))
      else if |next.value| < MinLength then
        Some(Respond(400, FailBody("New password must be at least 6 characters long")))
      else if current == next then
        Some(Respond(400, FailBody("New password must be different from current password")))
      else
        var i := FindById(users, Claim(decoded.value, "id"));
        if i.None? then Some(Respond(404, FailBody("User not found")))
        else if !Matches(current.value, users[i.value].password) then
          Some(Respond(400, FailBody("Current password is incorrect")))
        else None
  }

  /** The user after the update: a fresh hash of the new password and the
      update time; nothing else changes. */
  function Updated(u: User, next: string, now: Time): (v: User)
    ensures v.password == Hash(next, SaltRounds) && v.updatedAt == Some(now)
    ensures v.(password := u.password, updatedAt := u.updatedAt) == u
  {
    u.(password := Hash(next, SaltRounds), updatedAt := Some(now))
  }

  const Changed := JObj(map["success" := JBool(true), "message" := JStr("Password changed successfully")])

  /** The PUT handler. `findByIdAndUpdate(..., { new: true })` returns the
      updated document, whose `matchedCount` is undefined, so the second
      'User not found' check never fires. */
  method Put(db: Store, token: Option<Token>, env: Env, current: Option<string>, next: Option<string>,
             h: Headers, now: Time, logWriteOk: bool) returns (r: Response)
    requires db.Valid()
    modifies db
    ensures db.Valid()
    ensures db.jobs == old(db.jobs) && db.tickets == old(db.tickets) && db.stories == old(db.stories)
    ensures var rej := Rejection(old(db.users), token, env, current, next);
      rej.Some? ==> r == rej.value && db.users == old(db.users) && db.logs == old(db.logs) && db.nextId == old(db.nextId)
    ensures var i := Target(old(db.users), token, env, current, next);
      i.Some? ==>
        r == Respond(200, Changed) &&
        db.users == old(db.users)[i.value := Updated(old(db.users)[i.value], next.value, now)] &&
        var log := ActivityLogSchema.Cast(
          RequestLog(Some(old(db.users)[i.value].id), "Password Change", "User Account",
                     "Password changed successfully", h, Some(now), "success"),
          NewId(old(db.nextId)), now);
        log.Some? && db.logs == (if logWriteOk then old(db.logs) + [log.value] else old(db.logs))
  {
    var rej := Rejection(db.users, token, env, current, next);
    if rej.Some? {
      return rej.value;
    }
    var decoded := Verify(Some(RouteVerifySecret(env)), token.value).value;
    var i := Target(db.users, token, env, current, next).value;
    var u := db.users[i];
    db.SetUser(i, Updated(u, next.value, now));
    var input := RequestLog(Claim(decoded, "id"), "Password Change", "User Account",
                            "Password changed successfully", h, Some(now), "success");
    var _ := db.SaveLog(input, now, logWriteOk);
    r := Respond(200, Changed);
  }

  /** After a change, logging in with the new password succeeds and with the
      old one fails: the two routes agree on the hash. */
  lemma {:induction false} NewPasswordLogsIn(users: seq<User>, i: nat, previous: string, next: string, now: Time)
    requires UniqueEmails(users) && i < |users| && previous != next
    ensures var after := users[i := Updated(users[i], next, now)];
      LoginRoute.LoginUser(after, users[i].email, next) == Some(i) &&
      LoginRoute.LoginUser(after, users[i].email, previous) == None
  {
    var after := users[i := Updated(users[i], next, now)];
    assert UniqueEmails(after) by {
      forall a, b | 0 <= a < b < |after| ensures after[a].email != after[b].email {
        assert after[a].email == users[a].email && after[b].email == users[b].email;
      }
    }
    FindByEmailUnique(after, users[i].email, i);
    HashMatchesOnly(next, previous, SaltRounds);
  }

  /** The checks that need no database answer in the handler's order: a
      short password is refused before the current one is looked at. */
  lemma ShortPasswordRefused(users: seq<User>, token: Option<Token>, env: Env, current: string, next: string)
    requires TokenGiven(token) && Verify(Some(RouteVerifySecret(env)), token.value).Some?
    requires current != "" && next != "" && |next| < MinLength
    ensures Rejection(users, token, env, Some(current), Some(next)) ==
      Some(Respond(400, FailBody("New password must be at least 6 characters long")))
  {
  }
}
