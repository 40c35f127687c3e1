/** The help-ticket endpoint (app/api/admin/help/route.ts): POST lets an
    administrator file a support ticket, mails it to support and logs it;
    GET lists the caller's tickets one page at a time. Both read the user
    from the token's `userId` claim, which login tokens do not carry (they
    carry `id`). */
module HelpRoute {
  import opened Common
  import opened Tokens
  import opened Http
  import opened Database
  import ActivityLogSchema
  import HelpTicketSchema
  import LoginRoute

  type TicketDoc = HelpTicketSchema.TicketDoc

  /** The checks shared by both handlers: the session, then the admin role. */
  function Gate(token: Option<Token>, env: Env): (r: Result<Claims, Response>)
    ensures r.Ok? <==> DecodeSession(token, env).Ok? && IsAdminClaims(DecodeSession(token, env).value)
    ensures r.Ok? ==> r.value == DecodeSession(token, env).value
    ensures DecodeSession(token, env).Err? ==> r == DecodeSession(token, env)
    ensures DecodeSession(token, env).Ok? && !IsAdminClaims(DecodeSession(token, env).value) ==>
      r == Err(Respond(403, FailBody("Admin access required")))
  {
    var d := DecodeSession(token, env);
    if d.Err? then d
    else if !IsAdminClaims(d.value) then Err(Respond(403, FailBody("Admin access required")))
    else d
  }

  // ---------------------------------------------------------------------------
  // POST

  /** The body of a POST; a missing priority is `None`, which the handler
      replaces by 'medium'. */
  datatype TicketRequest = TicketRequest(problemType: Option<string>, subject: Option<string>,
                                         message: Option<string>, priority: Option<string>)

  /** The failure response before the ticket is saved, or the position of
      the submitting user. */
  function Submitter(users: seq<User>, token: Option<Token>, env: Env, b: TicketRequest): (r: Result<nat, Response>)
    ensures Gate(token, env).Err? ==> r == Err(Gate(token, env).error)
    ensures Gate(token, env).Ok? && (!Given(b.problemType) || !Given(b.subject) || !Given(b.message)) ==>
      r == Err(Respond(400, FailBody("Problem type, subject, and message are required")))
    ensures Gate(token, env).Ok? && Given(b.problemType) && Given(b.subject) && Given(b.message) &&
            FindById(users, Claim(Gate(token, env).value, "userId")).None? ==>
      r == Err(Respond(404, FailBody("User not found")))
    ensures r.Ok? <==>
      Gate(token, env).Ok? && Given(b.problemType) && Given(b.subject) && Given(b.message) &&
      FindById(users, Claim(Gate(token, env).value, "userId")).Some?
    ensures r.Ok? ==> r.value == FindById(users, Claim(Gate(token, env).value, "userId")).value
    ensures r.Err? ==> r.error.status in {400, 401, 403, 404}
  {
    var g := Gate(token, env);
    if g.Err? then Err(g.error)
    else if !Given(b.problemType) || !Given(b.subject) || !Given(b.message) then
      Err(Respond(400, FailBody("Problem type, subject, and message are required")))
    else
      var i := FindById(users, Claim(g.value, "userId"));
      if i.None? then Err(Respond(404, FailBody("User not found"))) else Ok(i.value)
  }

  /** The ticket document the handler builds for user `u`. */
  function NewTicket(u: User, b: TicketRequest): (t: HelpTicketSchema.TicketInput)
    ensures t.userId == Some(u.id) && t.userEmail == Some(u.email) && t.userName == Some(u.name)
    ensures t.problemType == b.problemType && t.subject == b.subject && t.message == b.message
    ensures t.priority == Some(if b.priority.Some? then b.priority.value else "medium")
    ensures t.status == Some("open")
  {
    HelpTicketSchema.TicketInput(Some(u.id), Some(u.email), Some(u.name), b.problemType, b.subject, b.message,
                                 Some(if b.priority.Some? then b.priority.value else "medium"), Some("open"))
  }

  /** The response once the ticket is saved: the full success message when
      the mail went out and the log was written, the warning otherwise. */
  function Submitted(ticketId: ObjectId, notified: bool): (r: Response)
    ensures r.status == 200 && r.body.JObj? && "ticketId" in r.body.fields
    ensures r.body.fields["ticketId"] == JStr(ticketId)
    ensures "warning" in r.body.fields <==> !notified
  {
    if notified then
      Respond(200, JObj(map["success" := JBool(true),
        "message" := JStr("Help ticket submitted successfully. You will receive a response via email."),
        "ticketId" := JStr(ticketId)]))
    else
      Respond(200, JObj(map["success" := JBool(true),
        "message" := JStr("Help ticket submitted successfully, but email notification failed. Please contact support directly if urgent."),
        "ticketId" := JStr(ticketId), "warning" := JStr("Email notification failed")]))
  }

  const ServerError := Respond(500, FailBody("Internal server error"))

  /** The activity log of a filed ticket. */
  function TicketLog(c: Claims, b: TicketRequest, h: Headers, now: Time): (l: ActivityLogSchema.LogInput)
    requires Given(b.problemType) && Given(b.subject)
    ensures l.userId == Claim(c, "userId") && l.status == Some("success") && l.timestamp == Some(now)
    ensures Given(l.action) && Given(l.resource) && Given(l.details)
  {
    RequestLog(Claim(c, "userId"), "Help Ticket Submitted", "Support System",
               "Submitted help ticket for: " + b.problemType.value + " - " + b.subject.value,
               h, Some(now), "success")
  }

  /** What filing a valid request by user `u` does: a ticket the schema
      refuses is a 500 and changes nothing; an accepted one is appended and
      answered with its id, and the ticket's log document, valid, is
      appended exactly when the mail and the log write went through. */
  twostate predicate Filed(db: Store, c: Claims, u: User, b: TicketRequest, h: Headers, now: Time,
                           emailOk: bool, logWriteOk: bool, r: Response)
    reads db
  {
    var t := HelpTicketSchema.Cast(NewTicket(u, b), NewId(old(db.nextId)), now);
    Given(b.problemType) && Given(b.subject) &&
    (t.None? ==> r == ServerError && db.tickets == old(db.tickets) && db.logs == old(db.logs)) &&
    (t.Some? ==>
      db.tickets == old(db.tickets) + [t.value] &&
      r == Submitted(t.value.id, emailOk && logWriteOk) &&
      var l := ActivityLogSchema.Cast(TicketLog(c, b, h, now), NewId(old(db.nextId) + 1), now);
      l.Some? && db.logs == if emailOk && logWriteOk then old(db.logs) + [l.value] else old(db.logs))
  }

  /** The POST handler. A ticket the schema refuses (an unknown priority)
      makes `save()` throw: 500. */
  method Post(db: Store, token: Option<Token>, env: Env, b: TicketRequest, h: Headers, now: Time,
              emailOk: bool, logWriteOk: bool) returns (r: Response)
    requires db.Valid()
    modifies db
    ensures db.Valid()
    ensures db.users == old(db.users) && db.jobs == old(db.jobs) && db.stories == old(db.stories)
    ensures var s := Submitter(old(db.users), token, env, b);
      s.Err? ==> r == s.error && db.tickets == old(db.tickets) && db.logs == old(db.logs) && db.nextId == old(db.nextId)
    ensures var s := Submitter(old(db.users), token, env, b);
      s.Ok? ==> Filed(db, Gate(token, env).value, old(db.users)[s.value], b, h, now, emailOk, logWriteOk, r)
  {
    var s := Submitter(db.users, token, env, b);
    if s.Err? {
      return s.error;
    }
    var decoded := Gate(token, env).value;
    assert s.value < |db.users| && Claim(decoded, "userId") == Some(db.users[s.value].id);
    IssuedIdNonEmpty(db.users, db.nextId, s.value);
    r := File(db, decoded, s.value, b, h, now, emailOk, logWriteOk);
  }

  /** Saving the ticket of user `i`, then mailing and logging it. */
  method File(db: Store, c: Claims, i: nat, b: TicketRequest, h: Headers, now: Time,
              emailOk: bool, logWriteOk: bool) returns (r: Response)
    requires db.Valid() && Given(b.problemType) && Given(b.subject)
    requires i < |db.users| && Claim(c, "userId") == Some(db.users[i].id) && db.users[i].id != ""
    modifies db
    ensures db.Valid()
    ensures db.users == old(db.users) && db.jobs == old(db.jobs) && db.stories == old(db.stories)
    ensures Filed(db, c, old(db.users)[i], b, h, now, emailOk, logWriteOk, r)
  {
    var ticket := db.SaveTicket(NewTicket(db.users[i], b), now);
    if ticket.None? {
      return ServerError;
    }
    var notified := Notify(db, c, b, h, now, emailOk, logWriteOk);
    r := Submitted(ticket.value.id, notified);
  }

  /** The mail-and-log step after the ticket is saved; `notified` tells
      whether it went through. `emailOk` says whether the mail is sent; the
      log is written only after it, inside the same `try`, so a failed log
      write (`logWriteOk` false) also produces the email warning. */
  method Notify(db: Store, c: Claims, b: TicketRequest, h: Headers, now: Time,
                emailOk: bool, logWriteOk: bool) returns (notified: bool)
    requires db.Valid() && Given(b.problemType) && Given(b.subject)
    requires Claim(c, "userId").Some? && Claim(c, "userId").value != ""
    modifies db
    ensures db.Valid()
    ensures db.users == old(db.users) && db.jobs == old(db.jobs) && db.stories == old(db.stories)
    ensures db.tickets == old(db.tickets)
    ensures notified == (emailOk && logWriteOk)
    ensures var l := ActivityLogSchema.Cast(TicketLog(c, b, h, now), NewId(old(db.nextId)), now);
      l.Some? && db.logs == if emailOk && logWriteOk then old(db.logs) + [l.value] else old(db.logs)
  {
    ghost var l := ActivityLogSchema.Cast(TicketLog(c, b, h, now), NewId(db.nextId), now);
    assert l.Some?;
    if !emailOk {
      return false;
    }
    var saved := db.SaveLog(TicketLog(c, b, h, now), now, logWriteOk);
    notified := saved.Some?;
  }

  /** A session from login never gets a ticket filed: its token has no
      `userId` claim, so the user lookup finds nobody and the answer is 404
      (when the token passes the route's checks at all). */
  lemma {:induction false} LoginSessionCannotFile(users: seq<User>, u: User, env: Env, b: TicketRequest)
    requires Given(b.problemType) && Given(b.subject) && Given(b.message)
    ensures var token := Some(Sign(LoginRoute.SessionClaims(u), SessionSecret(env)));
      Submitter(users, token, env, b).Err? &&
      (Gate(token, env).Ok? ==> Submitter(users, token, env, b).error.status == 404)
  {
  }

  // ---------------------------------------------------------------------------
  // GET

  /** The query-string parameters; `page` and `limit` already parsed. */
  datatype TicketParams = TicketParams(page: Option<int>, limit: Option<int>, status: Option<string>)

  function PageOf(p: TicketParams): int { if p.page.Some? then p.page.value else 1 }
  function LimitOf(p: TicketParams): int { if p.limit.Some? then p.limit.value else 10 }

  /** The filter `{ userId, status }`. An undefined `userId` is taken to be
      dropped from the filter when Mongoose casts it (the driver's BSON
      serialiser leaves out `undefined` values by default), so it then
      constrains nothing. */
  predicate Owned(userId: Option<string>, p: TicketParams, t: TicketDoc) {
    (userId.None? || t.userId == userId.value) &&
    (!Given(p.status) || p.status.value == "all" || t.status == p.status.value)
  }

  function Owner(userId: Option<string>, p: TicketParams): TicketDoc -> bool {
    t => Owned(userId, p, t)
  }

  function CreatedAt(t: TicketDoc): int { t.createdAt }

  /** `find(filter).sort({ createdAt: -1 })`. */
  function Matching(tickets: seq<TicketDoc>, userId: Option<string>, p: TicketParams): (r: seq<TicketDoc>)
    ensures forall t :: t in r <==> t in tickets && Owned(userId, p, t)
    ensures multiset(r) == multiset(Filter(tickets, Owner(userId, p)))
    ensures |r| == |Filter(tickets, Owner(userId, p))|
    ensures SortedDesc(r, CreatedAt)
  {
    var found := Filter(tickets, Owner(userId, p));
    var r := SortDesc(found, CreatedAt);
    forall t ensures t in r <==> t in found {
      assert t in r <==> t in multiset(r);
      assert t in found <==> t in multiset(found);
    }
    r
  }

  function TicketJson(t: TicketDoc): Json {
    JObj(map["_id" := JStr(t.id), "userId" := JStr(t.userId), "userEmail" := JStr(t.userEmail),
             "userName" := JStr(t.userName), "problemType" := JStr(t.problemType),
             "subject" := JStr(t.subject), "message" := JStr(t.message), "priority" := JStr(t.priority),
             "status" := JStr(t.status), "createdAt" := JNum(t.createdAt), "updatedAt" := JNum(t.updatedAt)])
  }

  function TicketsJson(ts: seq<TicketDoc>): (j: Json)
    ensures j.JArr? && |j.items| == |ts|
  {
    JArr(seq(|ts|, i requires 0 <= i < |ts| => TicketJson(ts[i])))
  }

  /** The GET response. */
  function Get(tickets: seq<TicketDoc>, token: Option<Token>, env: Env, p: TicketParams): (r: Response)
    ensures r.status in {200, 401, 403, 500}
    ensures Gate(token, env).Err? ==> r == Gate(token, env).error
    ensures r.status == 200 <==>
      Gate(token, env).Ok? && (PageOf(p) - 1) * LimitOf(p) >= 0
    ensures r.status == 200 ==>
      var m := Matching(tickets, Claim(Gate(token, env).value, "userId"), p);
      r.body == JObj(map[
        "success" := JBool(true), "tickets" := TicketsJson(PageWindow(m, PageOf(p), LimitOf(p)).value),
        "total" := JNum(|m|), "page" := JNum(PageOf(p)), "totalPages" := TotalPages(|m|, LimitOf(p))])
  {
    var g := Gate(token, env);
    if g.Err? then g.error
    else
      var m := Matching(tickets, Claim(g.value, "userId"), p);
      var page := PageWindow(m, PageOf(p), LimitOf(p));
      if page.None? then ServerError
      else
        Respond(200, JObj(map[
          "success" := JBool(true), "tickets" := TicketsJson(page.value),
          "total" := JNum(|m|), "page" := JNum(PageOf(p)), "totalPages" := TotalPages(|m|, LimitOf(p))]))
  }

  /** A token with a `userId` claim sees only that user's tickets; a token
      without one (every login token) sees everybody's. */
  lemma {:induction false} GetScope(tickets: seq<TicketDoc>, c: Claims, p: TicketParams, t: TicketDoc)
    requires t in tickets
    ensures "userId" in c && t in Matching(tickets, Claim(c, "userId"), p) ==> t.userId == c["userId"]
    ensures "userId" !in c ==>
      (t in Matching(tickets, Claim(c, "userId"), p) <==> (!Given(p.status) || p.status.value == "all" || t.status == p.status.value))
  {
  }
}
