/** The profile endpoint (app/api/auth/profile/route.ts): GET returns the
    signed-in user without the password hash; PUT replaces the name, email,
    phone, address and bio, refusing an email of the wrong shape or one
    that another user holds, and logs which fields changed. */
module ProfileRoute {
  import opened Common
  import opened Text
  import opened Tokens
  import opened Http
  import opened Database
  import ActivityLogSchema

  // ---------------------------------------------------------------------------
  // GET

  function Get(users: seq<User>, token: Option<Token>, env: Env): (r: Response)
    ensures r.status in {200, 401, 404}
    ensures r.status == 401 <==> DecodeSession(token, env).Err?
    ensures r.status == 200 <==> DecodeSession(token, env).Ok? && FindById(users, Claim(DecodeSession(token, env).value, "id")).Some?
    ensures r.status == 200 ==>
      var u := users[FindById(users, Claim(DecodeSession(token, env).value, "id")).value];
      r.body == JObj(map["success" := JBool(true), "user" := UserJson(u)])
  {
    var d := DecodeSession(token, env);
    if d.Err? then d.error
    else
      var i := FindById(users, Claim(d.value, "id"));
      if i.None? then Respond(404, FailBody("User not found"))
      else Respond(200, JObj(map["success" := JBool(true), "user" := UserJson(users[i.value])]))
  }

  // ---------------------------------------------------------------------------
  // Email format

  /** A piece of `[^\s@]+`. */
  predicate Piece(t: string) {
    |t| > 0 && forall k :: 0 <= k < |t| ==> !IsSpace(t[k]) && t[k] != '@'
  }

  /** `/^[^\s@]+@[^\s@]+\.[^\s@]+$/.test(s)`: the string splits as
      local part, '@', domain, '.', suffix, none of the three parts empty
      or holding whitespace or '@'. */
  predicate EmailFormatOk(s: string) {
    exists i, j | 0 < i && i + 1 < j && j + 1 < |s| ::
      s[i] == '@' && s[j] == '.' && Piece(s[..i]) && Piece(s[i + 1..j]) && Piece(s[j + 1..])
  }

  /** The same set of strings described character by character. */
  predicate EmailShape(s: string) {
    (forall k :: 0 <= k < |s| ==> !IsSpace(s[k])) &&
    exists p | 0 < p < |s| ::
      s[p] == '@' && (forall k :: 0 <= k < |s| && k != p ==> s[k] != '@') &&
      exists q | p + 1 < q < |s| - 1 :: s[q] == '.'
  }

  /** The pattern accepts exactly the strings without whitespace that hold a
      single '@', not at the start, followed later by a '.' that is neither
      next to the '@' nor last. */
  lemma {:induction false} EmailFormatCharacterised(s: string)
    ensures EmailFormatOk(s) <==> EmailShape(s)
  {
    if EmailFormatOk(s) {
      MatchHasShape(s);
    }
    if EmailShape(s) {
      ShapeMatches(s);
    }
  }

  lemma {:induction false} MatchHasShape(s: string)
    requires EmailFormatOk(s)
    ensures EmailShape(s)
  {
    var i, j :| 0 < i && i + 1 < j && j + 1 < |s| &&
      s[i] == '@' && s[j] == '.' && Piece(s[..i]) && Piece(s[i + 1..j]) && Piece(s[j + 1..]);
    var local, domain, suffix := s[..i], s[i + 1..j], s[j + 1..];
    forall k | 0 <= k < |s| ensures !IsSpace(s[k]) && (k != i ==> s[k] != '@') {
      if k < i { assert s[k] == local[k]; }
      else if i < k < j { assert s[k] == domain[k - i - 1]; }
      else if j < k { assert s[k] == suffix[k - j - 1]; }
    }
    assert s[j] == '.';
  }

  lemma {:induction false} ShapeMatches(s: string)
    requires EmailShape(s)
    ensures EmailFormatOk(s)
  {
    var p :| 0 < p < |s| && s[p] == '@' && (forall k :: 0 <= k < |s| && k != p ==> s[k] != '@') &&
      exists q | p + 1 < q < |s| - 1 :: s[q] == '.';
    var q :| p + 1 < q < |s| - 1 && s[q] == '.';
    var local, domain, suffix := s[..p], s[p + 1..q], s[q + 1..];
    assert Piece(local) by {
      forall k | 0 <= k < |local| ensures !IsSpace(local[k]) && local[k] != '@' { assert local[k] == s[k]; }
    }
    assert Piece(domain) by {
      forall k | 0 <= k < |domain| ensures !IsSpace(domain[k]) && domain[k] != '@' { assert domain[k] == s[p + 1 + k]; }
    }
    assert Piece(suffix) by {
      forall k | 0 <= k < |suffix| ensures !IsSpace(suffix[k]) && suffix[k] != '@' { assert suffix[k] == s[q + 1 + k]; }
    }
    assert s[p] == '@' && s[q] == '.';
  }

  // ---------------------------------------------------------------------------
  // PUT

  /** The body of a PUT (`null` for a missing field). */
  datatype ProfileInput = ProfileInput(name: Option<string>, email: Option<string>, phone: Option<string>,
                                       address: Option<string>, bio: Option<string>)

  /** `value || ''`. */
  function OrEmpty(o: Option<string>): (s: string)
    ensures Given(o) ==> s == o.value
    ensures !Given(o) ==> s == ""
  {
    if Given(o) then o.value else ""
  }

  /** `User.findOne({ email, _id: { $ne: id } })` found someone: another user
      holds the email. An undefined id excludes no one. */
  predicate EmailTaken(users: seq<User>, email: string, id: Option<ObjectId>) {
    exists k | 0 <= k < |users| :: users[k].email == email && (id.None? || users[k].id != id.value)
  }

  /** The stored user after the update. */
  function Apply(u: User, p: ProfileInput, now: Time): (v: User)
    requires Given(p.name) && Given(p.email)
    ensures v.id == u.id && v.password == u.password && v.role == u.role
    ensures v.name == p.name.value && v.email == p.email.value
    ensures v.phone == Some(OrEmpty(p.phone)) && v.address == Some(OrEmpty(p.address)) && v.bio == Some(OrEmpty(p.bio))
    ensures v.updatedAt == Some(now)
  {
    u.(name := p.name.value, email := p.email.value, phone := Some(OrEmpty(p.phone)),
       address := Some(OrEmpty(p.address)), bio := Some(OrEmpty(p.bio)), updatedAt := Some(now))
  }

  const Fields: seq<string> := ["name", "email", "phone", "address", "bio"]

  /** The handler's test for one field: `currentUser.<field> !== value`. */
  predicate Differs(u: User, p: ProfileInput, field: string)
    requires Given(p.name) && Given(p.email)
  {
    match field
    case "name" => u.name != p.name.value
    case "email" => u.email != p.email.value
    case "phone" => u.phone != Some(OrEmpty(p.phone))
    case "address" => u.address != Some(OrEmpty(p.address))
    case "bio" => u.bio != Some(OrEmpty(p.bio))
    case _ => false
  }

  function Differ(u: User, p: ProfileInput): string -> bool
    requires Given(p.name) && Given(p.email)
  {
    f => Differs(u, p, f)
  }

  /** The fields the update changes, in the handler's order. A field the
      stored user never had counts as changed, even to ''. */
  function ChangedFields(u: User, p: ProfileInput): (r: seq<string>)
    requires Given(p.name) && Given(p.email)
    ensures IsSubsequence(r, Fields)
    ensures "name" in r <==> u.name != p.name.value
    ensures "email" in r <==> u.email != p.email.value
    ensures "phone" in r <==> u.phone != Some(OrEmpty(p.phone))
    ensures "address" in r <==> u.address != Some(OrEmpty(p.address))
    ensures "bio" in r <==> u.bio != Some(OrEmpty(p.bio))
  {
    Filter(Fields, Differ(u, p))
  }

  /** Nothing is reported changed exactly when the update leaves the user as
      it was, but for the update time. */
  lemma {:induction false} NoChangeIffSameUser(u: User, p: ProfileInput, now: Time)
    requires Given(p.name) && Given(p.email)
    ensures ChangedFields(u, p) == [] <==> Apply(u, p, now).(updatedAt := u.updatedAt) == u
  {
    var r := ChangedFields(u, p);
    if r != [] {
      assert r[0] in r;
      assert r[0] in Fields by { SubsequenceMembers(r, Fields); }
    }
  }

  /** `array.join(sep)`. */
  function Join(xs: seq<string>, sep: string): (s: string)
    ensures xs == [] ==> s == ""
    ensures |xs| == 1 ==> s == xs[0]
  {
    if xs == [] then ""
    else if |xs| == 1 then xs[0]
    else xs[0] + sep + Join(xs[1..], sep)
  }

  /** Joining one more string adds the separator and that string at the
      end, so the details of a log list every changed field in order,
      separated by ', '. */
  lemma {:induction false} JoinSnoc(xs: seq<string>, x: string, sep: string)
    requires |xs| >= 1
    ensures Join(xs + [x], sep) == Join(xs, sep) + sep + x
    decreases |xs|
  {
    if |xs| == 1 {
      assert (xs + [x])[1..] == [x];
    } else {
      assert (xs + [x])[1..] == xs[1..] + [x];
      JoinSnoc(xs[1..], x, sep);
    }
  }

  /** The failure response of a PUT, checked in the handler's order; `None`
      when the update goes ahead. */
  function Rejection(users: seq<User>, token: Option<Token>, env: Env, p: ProfileInput): (r: Option<Response>)
    ensures DecodeSession(token, env).Err? ==> r == Some(DecodeSession(token, env).error)
    ensures r.None? <==>
      DecodeSession(token, env).Ok? && Given(p.name) && Given(p.email) && EmailFormatOk(p.email.value) &&
      !EmailTaken(users, p.email.value, Claim(DecodeSession(token, env).value, "id")) &&
      FindById(users, Claim(DecodeSession(token, env).value, "id")).Some?
    ensures r.Some? ==> r.value.status in {400, 401, 404}
    ensures DecodeSession(token, env).Ok? && (!Given(p.name) || !Given(p.email)) ==>
      r == Some(Respond(400, FailBody("Name and email are required")))
    ensures DecodeSession(token, env).Ok? && Given(p.name) && Given(p.email) && !EmailFormatOk(p.email.value) ==>
      r == Some(Respond(400, FailBody("Invalid email format")))
    ensures (DecodeSession(token, env).Ok? && Given(p.name) && Given(p.email) && EmailFormatOk(p.email.value) &&
             EmailTaken(users, p.email.value, Claim(DecodeSession(token, env).value, "id"))) ==>
      r == Some(Respond(400, FailBody("Email is already taken")))
    ensures (DecodeSession(token, env).Ok? && Given(p.name) && Given(p.email) && EmailFormatOk(p.email.value) &&
             !EmailTaken(users, p.email.value, Claim(DecodeSession(token, env).value, "id")) &&
             FindById(users, Claim(DecodeSession(token, env).value, "id")).None?) ==>
      r == Some(Respond(404, FailBody("User not found")))
  {
    var d := DecodeSession(token, env);
    if d.Err? then Some(d.error)
    else if !Given(p.name) || !Given(p.email) then Some(Respond(400, FailBody("Name and email are required")))
    else if !EmailFormatOk(p.email.value) then Some(Respond(400, FailBody("Invalid email format")))
    else if EmailTaken(users, p.email.value, Claim(d.value, "id")) then
      Some(Respond(400, FailBody("Email is already taken")))
    else if FindById(users, Claim(d.value, "id")).None? then Some(Respond(404, FailBody("User not found")))
    else None
  }

  /** The 200 body. */
  function UpdatedBody(v: User): Json {
    JObj(map["success" := JBool(true), "message" := JStr("Profile updated successfully"), "user" := UserJson(v)])
  }

  /** The PUT handler. */
  method Put(db: Store, token: Option<Token>, env: Env, p: ProfileInput, h: Headers, now: Time, logWriteOk: bool)
    returns (r: Response)
    requires db.Valid()
    modifies db
    ensures db.Valid()
    ensures db.jobs == old(db.jobs) && db.tickets == old(db.tickets) && db.stories == old(db.stories)
    ensures var rej := Rejection(old(db.users), token, env, p);
      rej.Some? ==> r == rej.value && db.users == old(db.users) && db.logs == old(db.logs) && db.nextId == old(db.nextId)
    ensures Rejection(old(db.users), token, env, p).None? ==>
      Updated(db, FindById(old(db.users), Claim(DecodeSession(token, env).value, "id")).value, p, h, now, logWriteOk, r)
  {
    var rej := Rejection(db.users, token, env, p);
    if rej.Some? {
      return rej.value;
    }
    var decoded := DecodeSession(token, env).value;
    var id := Claim(decoded, "id");
    var i := FindById(db.users, id).value;
    var v := Apply(db.users[i], p, now);
    forall k | 0 <= k < |db.users| && k != i ensures db.users[k].email != v.email {
      assert db.users[k].id != id.value;
    }
    IssuedIdNonEmpty(db.users, db.nextId, i);
    r := Update(db, i, p, h, now, logWriteOk);
  }

  /** What updating user `i` does: the user becomes `Apply` of the input,
      the answer is 200 with the updated profile, and when some field
      changed, a valid log document naming the changed fields is appended
      if the log write goes through. */
  twostate predicate Updated(db: Store, i: nat, p: ProfileInput, h: Headers, now: Time, logWriteOk: bool, r: Response)
    reads db
  {
    Given(p.name) && Given(p.email) && i < |old(db.users)| &&
    var u := old(db.users)[i];
    var v := Apply(u, p, now);
    var changed := ChangedFields(u, p);
    r == Respond(200, UpdatedBody(v)) &&
    db.users == old(db.users)[i := v] &&
    (changed == [] ==> db.logs == old(db.logs)) &&
    (changed != [] ==>
      var log := ActivityLogSchema.Cast(
        RequestLog(Some(u.id), "Profile Update", "User Profile", "Updated fields: " + Join(changed, ", "),
                   h, Some(now), "success"),
        NewId(old(db.nextId)), now);
      log.Some? && db.logs == (if logWriteOk then old(db.logs) + [log.value] else old(db.logs)))
  }

  /** The update of user `i`, whose new email no other user holds. */
  method Update(db: Store, i: nat, p: ProfileInput, h: Headers, now: Time, logWriteOk: bool) returns (r: Response)
    requires db.Valid() && i < |db.users| && db.users[i].id != ""
    requires Given(p.name) && Given(p.email)
    requires forall k :: 0 <= k < |db.users| && k != i ==> db.users[k].email != Apply(db.users[i], p, now).email
    modifies db
    ensures db.Valid()
    ensures db.jobs == old(db.jobs) && db.tickets == old(db.tickets) && db.stories == old(db.stories)
    ensures Updated(db, i, p, h, now, logWriteOk, r)
  {
    var u := db.users[i];
    var v := Apply(u, p, now);
    db.SetUser(i, v);
    LogUpdate(db, u, p, h, now, logWriteOk);
    r := Respond(200, UpdatedBody(v));
  }

  /** The log of an update of user `u`, written when some field changed. */
  method LogUpdate(db: Store, u: User, p: ProfileInput, h: Headers, now: Time, logWriteOk: bool)
    requires db.Valid() && u.id != "" && Given(p.name) && Given(p.email)
    modifies db
    ensures db.Valid()
    ensures db.users == old(db.users) && db.jobs == old(db.jobs)
    ensures db.tickets == old(db.tickets) && db.stories == old(db.stories)
    ensures var changed := ChangedFields(u, p);
      (changed == [] ==> db.logs == old(db.logs)) &&
      (changed != [] ==>
        var log := ActivityLogSchema.Cast(
          RequestLog(Some(u.id), "Profile Update", "User Profile", "Updated fields: " + Join(changed, ", "),
                     h, Some(now), "success"),
          NewId(old(db.nextId)), now);
        log.Some? && db.logs == (if logWriteOk then old(db.logs) + [log.value] else old(db.logs)))
  {
    var changed := ChangedFields(u, p);
    if changed != [] {
      var input := RequestLog(Some(u.id), "Profile Update", "User Profile", "Updated fields: " + Join(changed, ", "),
                              h, Some(now), "success");
      var _ := db.SaveLog(input, now, logWriteOk);
    }
  }

  /** An update never takes an email another user holds, so emails stay
      unique, and it never touches the password. */
  lemma {:induction false} UpdateKeepsEmailsUnique(users: seq<User>, token: Option<Token>, env: Env, p: ProfileInput, now: Time)
    requires UniqueEmails(users) && UniqueIds(users)
    requires Rejection(users, token, env, p).None?
    ensures var i := FindById(users, Claim(DecodeSession(token, env).value, "id")).value;
      var after := users[i := Apply(users[i], p, now)];
      UniqueEmails(after) && after[i].password == users[i].password
  {
    var id := Claim(DecodeSession(token, env).value, "id");
    var i := FindById(users, id).value;
    var after := users[i := Apply(users[i], p, now)];
    forall a, b | 0 <= a < b < |after| ensures after[a].email != after[b].email {
      if a == i {
        assert users[b].id != id.value;
      } else if b == i {
        assert users[a].id != id.value;
      }
    }
  }
}
