/** The activity-log endpoint (app/api/admin/activity/route.ts): GET lists
    the stored logs to an administrator, filtered, newest first and one page
    at a time; POST records a log for any signed-in user. */
module ActivityRoute {
  import opened Common
  import opened Text
  import opened Tokens
  import opened Http
  import opened Database
  import ActivityLogSchema

  type LogDoc = ActivityLogSchema.LogDoc

  // ---------------------------------------------------------------------------
  // GET

  /** The query-string parameters; `page` and `limit` are already parsed,
      `None` standing for an absent or empty parameter. */
  datatype ActivityParams = ActivityParams(page: Option<int>, limit: Option<int>, status: Option<string>,
                                           action: Option<string>, search: Option<string>)

  const DefaultPage := 1
  const DefaultLimit := 10

  function PageOf(p: ActivityParams): int { if p.page.Some? then p.page.value else DefaultPage }
  function LimitOf(p: ActivityParams): int { if p.limit.Some? then p.limit.value else DefaultLimit }

  /** One stored log passes the filter: an exact status unless 'all', a
      case-insensitive action fragment unless 'all', and a case-insensitive
      search in the resource or the details. */
  predicate Selected(p: ActivityParams, d: LogDoc) {
    (!Given(p.status) || p.status.value == "all" || d.status == p.status.value) &&
    (!Given(p.action) || p.action.value == "all" || ContainsCI(d.action, p.action.value)) &&
    (!Given(p.search) || ContainsCI(d.resource, p.search.value) || ContainsCI(d.details, p.search.value))
  }

  function Selector(p: ActivityParams): LogDoc -> bool {
    d => Selected(p, d)
  }

  function Timestamp(d: LogDoc): int { d.timestamp }

  /** `find(filter).sort({ timestamp: -1 })`. */
  function Matching(logs: seq<LogDoc>, p: ActivityParams): (r: seq<LogDoc>)
    ensures |r| == |Filter(logs, Selector(p))|
    ensures multiset(r) == multiset(Filter(logs, Selector(p)))
    ensures forall d :: d in r <==> d in logs && Selected(p, d)
    ensures SortedDesc(r, Timestamp)
  {
    var found := Filter(logs, Selector(p));
    var r := SortDesc(found, Timestamp);
    forall d ensures d in r <==> d in found {
      assert d in r <==> d in multiset(r);
      assert d in found <==> d in multiset(found);
    }
    r
  }

  function LogJson(d: LogDoc): Json {
    JObj(map["_id" := JStr(d.id), "userId" := JStr(d.userId), "action" := JStr(d.action),
             "resource" := JStr(d.resource), "details" := JStr(d.details),
             "ipAddress" := OptStr(d.ipAddress), "userAgent" := OptStr(d.userAgent),
             "timestamp" := JNum(d.timestamp), "status" := JStr(d.status)])
  }

  function LogsJson(ds: seq<LogDoc>): (j: Json)
    ensures j.JArr? && |j.items| == |ds|
  {
    JArr(seq(|ds|, i requires 0 <= i < |ds| => LogJson(ds[i])))
  }

  /** The page of logs a GET returns, or `None` for a negative skip. */
  function Page(logs: seq<LogDoc>, p: ActivityParams): Option<seq<LogDoc>> {
    PageWindow(Matching(logs, p), PageOf(p), LimitOf(p))
  }

  /** The GET response. */
  function Get(logs: seq<LogDoc>, token: Option<Token>, env: Env, p: ActivityParams): (r: Response)
    ensures r.status in {200, 401, 403, 500}
    ensures r.status == 401 <==> DecodeSession(token, env).Err?
    ensures r.status == 403 <==> DecodeSession(token, env).Ok? && !IsAdminClaims(DecodeSession(token, env).value)
    ensures r.status == 200 <==>
      DecodeSession(token, env).Ok? && IsAdminClaims(DecodeSession(token, env).value) && Page(logs, p).Some?
    ensures r.status == 200 ==> r.body == JObj(map[
      "success" := JBool(true), "activities" := LogsJson(Page(logs, p).value),
      "total" := JNum(|Matching(logs, p)|), "page" := JNum(PageOf(p)),
      "totalPages" := TotalPages(|Matching(logs, p)|, LimitOf(p))])
  {
    var d := DecodeSession(token, env);
    if d.Err? then d.error
    else if !IsAdminClaims(d.value) then Respond(403, FailBody("Admin access required"))
    else
      var page := Page(logs, p);
      if page.None? then Respond(500, FailBody("Internal server error"))
      else
        var matching := Matching(logs, p);
        Respond(200, JObj(map[
          "success" := JBool(true), "activities" := LogsJson(page.value),
          "total" := JNum(|matching|), "page" := JNum(PageOf(p)),
          "totalPages" := TotalPages(|matching|, LimitOf(p))]))
  }

  /** With a positive limit, the log at position `j` of the sorted matches is
      shown on page `j / limit + 1`, at position `j % limit`; and that page
      is no later than the last page announced. */
  lemma {:induction false} EveryLogOnItsPage(logs: seq<LogDoc>, p: ActivityParams, j: nat)
    requires LimitOf(p) > 0 && j < |Matching(logs, p)|
    ensures var q := p.(page := Some(j / LimitOf(p) + 1));
      Page(logs, q).Some? &&
      j % LimitOf(p) < |Page(logs, q).value| &&
      Page(logs, q).value[j % LimitOf(p)] == Matching(logs, p)[j] &&
      j / LimitOf(p) + 1 <= CeilDiv(|Matching(logs, p)|, LimitOf(p))
  {
    var q := p.(page := Some(j / LimitOf(p) + 1));
    FilterCongruent(logs, Selector(q), Selector(p));
    assert Matching(logs, q) == Matching(logs, p);
    EveryItemOnItsPage(Matching(logs, p), LimitOf(p), j);
  }

  /** The status and action filters switch off for 'all' and for an absent
      or empty parameter. */
  lemma AllMeansNoFilter(logs: seq<LogDoc>, p: ActivityParams)
    ensures Matching(logs, p.(status := Some("all"))) == Matching(logs, p.(status := None))
    ensures Matching(logs, p.(action := Some("all"))) == Matching(logs, p.(action := None))
  {
    FilterCongruent(logs, Selector(p.(status := Some("all"))), Selector(p.(status := None)));
    FilterCongruent(logs, Selector(p.(action := Some("all"))), Selector(p.(action := None)));
  }

  // ---------------------------------------------------------------------------
  // POST

  /** The body of a POST; a missing status is `None`, which the handler
      replaces by 'success'. */
  datatype ActivityInput = ActivityInput(action: Option<string>, resource: Option<string>,
                                         details: Option<string>, status: Option<string>)

  /** The log the handler builds for a request from user `c`. */
  function NewLog(c: Claims, b: ActivityInput, h: Headers, now: Time): (l: ActivityLogSchema.LogInput)
    ensures l.userId == Claim(c, "id") && l.action == b.action && l.resource == b.resource
    ensures l.details == b.details && l.timestamp == Some(now)
    ensures l.status == Some(if b.status.Some? then b.status.value else "success")
  {
    ActivityLogSchema.LogInput(Claim(c, "id"), b.action, b.resource, b.details,
                               Some(ClientIp(h)), Some(ClientAgent(h)), Some(now),
                               Some(if b.status.Some? then b.status.value else "success"))
  }

  /** The failure response before the write; `None` when the log is
      written. */
  function Rejection(token: Option<Token>, env: Env, b: ActivityInput): (r: Option<Response>)
    ensures r.None? <==> DecodeSession(token, env).Ok? && Given(b.action) && Given(b.resource) && Given(b.details)
    ensures DecodeSession(token, env).Err? ==> r == Some(DecodeSession(token, env).error)
    ensures DecodeSession(token, env).Ok? && (!Given(b.action) || !Given(b.resource) || !Given(b.details)) ==>
      r == Some(Respond(400, FailBody("Action, resource, and details are required")))
  {
    var d := DecodeSession(token, env);
    if d.Err? then Some(d.error)
    else if !Given(b.action) || !Given(b.resource) || !Given(b.details) then
      Some(Respond(400, FailBody("Action, resource, and details are required")))
    else None
  }

  const ServerError := Respond(500, FailBody("Internal server error"))

  /** The POST handler. A validation error (a token without an `id` claim,
      a status outside the three allowed) or a failed write (`writeOk`
      false) makes `save()` throw, and the handler answers 500. */
  method Post(db: Store, token: Option<Token>, env: Env, b: ActivityInput, h: Headers, now: Time, writeOk: bool)
    returns (r: Response)
    requires db.Valid()
    modifies db
    ensures db.Valid()
    ensures db.users == old(db.users) && db.jobs == old(db.jobs)
    ensures db.tickets == old(db.tickets) && db.stories == old(db.stories)
    ensures Rejection(token, env, b).Some? ==>
      r == Rejection(token, env, b).value && db.logs == old(db.logs) && db.nextId == old(db.nextId)
    ensures Rejection(token, env, b).None? ==>
      var saved := if writeOk then ActivityLogSchema.Cast(NewLog(DecodeSession(token, env).value, b, h, now), NewId(old(db.nextId)), now)
                   else None;
      (saved.None? ==> r == ServerError && db.logs == old(db.logs)) &&
      (saved.Some? ==>
        db.logs == old(db.logs) + [saved.value] &&
        r == Respond(200, JObj(map["success" := JBool(true), "message" := JStr("Activity logged successfully"),
                                   "activityId" := JStr(saved.value.id)])))
  {
    var rej := Rejection(token, env, b);
    if rej.Some? {
      return rej.value;
    }
    var decoded := DecodeSession(token, env).value;
    var result := db.SaveLog(NewLog(decoded, b, h, now), now, writeOk);
    if result.None? {
      return ServerError;
    }
    r := Respond(200, JObj(map["success" := JBool(true), "message" := JStr("Activity logged successfully"),
                               "activityId" := JStr(result.value.id)]));
  }

  /** A log posted without a status is stored as a success; one posted with
      a status outside 'success', 'error' and 'warning' is never stored. */
  lemma {:induction false} PostedStatus(c: Claims, b: ActivityInput, h: Headers, now: Time, id: ObjectId)
    ensures b.status.None? && ActivityLogSchema.Cast(NewLog(c, b, h, now), id, now).Some? ==>
      ActivityLogSchema.Cast(NewLog(c, b, h, now), id, now).value.status == "success"
    ensures b.status.Some? && b.status.value !in ActivityLogSchema.Statuses ==>
      ActivityLogSchema.Cast(NewLog(c, b, h, now), id, now).None?
  {
  }
}
