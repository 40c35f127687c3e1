/** The jobs endpoint (app/api/jobs/route.ts). GET turns the query-string
    parameters into a database query and lists the matching jobs, newest
    first; POST lets an administrator create a job.

    Both handlers start with `await connectToDatabase()`, imported by name
    from a module that only has a default export: the call throws, and the
    handler's catch-all answers 500. `connectExported` says whether that
    import resolves; as written it does not. The audit log of a created job
    destructures `db` from the connection, which has no such field, so its
    write always throws and is swallowed: POST never writes a log. */
module JobsRoute {
  import opened Common
  import opened Text
  import opened Tokens
  import opened Http
  import opened Database
  import opened AuthMiddleware
  import JobSchema
  import JobCatalogue

  // ---------------------------------------------------------------------------
  // GET

  /** The query-string parameters (`null` when absent). */
  datatype JobParams = JobParams(search: Option<string>, trade: Option<string>,
                                 country: Option<string>, featured: Option<string>)

  /** The query object: `$or` over title, company and location for a search
      term, exact `trade` and `country`, and `featured: true`. `None` and
      `false` are constraints that are not added. */
  datatype JobQuery = JobQuery(search: Option<string>, trade: Option<string>,
                               country: Option<string>, featured: bool)

  /** The conditional assignments that build the query. */
  function BuildQuery(p: JobParams): (q: JobQuery)
    ensures q.search.Some? <==> Given(p.search)
    ensures q.search.Some? ==> q.search == p.search
    ensures q.trade.Some? <==> Given(p.trade) && p.trade.value != JobCatalogue.AllTrades
    ensures q.trade.Some? ==> q.trade == p.trade
    ensures q.country.Some? <==> Given(p.country) && p.country.value != JobCatalogue.AllCountries
    ensures q.country.Some? ==> q.country == p.country
    ensures q.featured <==> p.featured == Some("true")
  {
    JobQuery(
      if Given(p.search) then p.search else None,
      if Given(p.trade) && p.trade.value != "All Trades" then p.trade else None,
      if Given(p.country) && p.country.value != "All Countries" then p.country else None,
      p.featured == Some("true"))
  }

  /** A stored job satisfies the query. The search is a case-insensitive
      match of the literal term. */
  predicate Matches(q: JobQuery, d: JobSchema.JobDoc) {
    (q.search.None? || ContainsCI(d.title, q.search.value) ||
     ContainsCI(d.company, q.search.value) || ContainsCI(d.location, q.search.value)) &&
    (q.trade.None? || d.trade == q.trade.value) &&
    (q.country.None? || d.country == q.country.value) &&
    (!q.featured || d.featured)
  }

  function Matcher(q: JobQuery): JobSchema.JobDoc -> bool {
    d => Matches(q, d)
  }

  /** The stored `date` string, the sort key. */
  function StoredDate(d: JobSchema.JobDoc): string {
    d.date
  }

  /** `Job.find(query).sort({ date: -1 })`: the matching jobs, each as
      often as it is stored, latest `date` string first. MongoDB compares
      the strings themselves, so only `YYYY-MM-DD` dates sort by day.
      MongoDB leaves the order of equal dates open; the model keeps the
      stored order. */
  function FindJobs(jobs: seq<JobSchema.JobDoc>, q: JobQuery): (r: seq<JobSchema.JobDoc>)
    ensures forall d :: d in r <==> d in jobs && Matches(q, d)
    ensures multiset(r) == multiset(Filter(jobs, Matcher(q)))
    ensures |r| == |Filter(jobs, Matcher(q))|
    ensures SortedDescText(r, StoredDate)
  {
    var found := Filter(jobs, Matcher(q));
    var r := SortDescText(found, StoredDate);
    forall d ensures d in r <==> d in found {
      assert d in r <==> d in multiset(r);
      assert d in found <==> d in multiset(found);
    }
    r
  }

  /** A stored job as JSON. */
  function JobJson(d: JobSchema.JobDoc): Json {
    JObj(map[
      "_id" := JStr(d.id), "title" := JStr(d.title), "company" := JStr(d.company),
      "location" := JStr(d.location), "country" := JStr(d.country), "salary" := JStr(d.salary),
      "description" := JStr(d.description), "responsibilities" := StrList(d.responsibilities),
      "requirements" := StrList(d.requirements), "benefits" := StrList(d.benefits),
      "type" := JStr(d.jobType), "experience" := JStr(d.experience), "featured" := JBool(d.featured),
      "date" := JStr(d.date), "trade" := JStr(d.trade), "createdAt" := JNum(d.createdAt),
      "updatedAt" := JNum(d.updatedAt)])
  }

  function JobsJson(ds: seq<JobSchema.JobDoc>): (j: Json)
    ensures j.JArr? && |j.items| == |ds|
  {
    JArr(seq(|ds|, i requires 0 <= i < |ds| => JobJson(ds[i])))
  }

  /** The GET handler over the stored jobs. */
  function Get(jobs: seq<JobSchema.JobDoc>, p: JobParams, connectExported: bool): (r: Response)
    ensures !connectExported ==> r == Respond(500, ErrorBody("Failed to fetch jobs"))
    ensures connectExported ==> r == Respond(200, JObj(map[
      "success" := JBool(true), "jobs" := JobsJson(FindJobs(jobs, BuildQuery(p)))]))
  {
    if !connectExported then Respond(500, ErrorBody("Failed to fetch jobs"))
    else
      var q := BuildQuery(p);
      Respond(200, JObj(map["success" := JBool(true), "jobs" := JobsJson(FindJobs(jobs, q))]))
  }

  /** As written, listing jobs always fails. */
  lemma GetAlwaysFailsAsWritten(jobs: seq<JobSchema.JobDoc>, p: JobParams)
    ensures Get(jobs, p, false).status == 500
    ensures ErrorOf(Get(jobs, p, false)) == Some("Failed to fetch jobs")
  {
  }

  /** The sentinel values switch their constraint off: asking for "All
      Trades" or "All Countries" is asking for nothing. */
  lemma SentinelsIgnored(p: JobParams)
    ensures BuildQuery(p.(trade := Some(JobCatalogue.AllTrades))) == BuildQuery(p.(trade := None))
    ensures BuildQuery(p.(country := Some(JobCatalogue.AllCountries))) == BuildQuery(p.(country := None))
  {
  }

  /** Only the exact string 'true' asks for featured jobs. */
  lemma FeaturedOnlyForTrue(p: JobParams, s: string)
    requires s != "true"
    ensures !BuildQuery(p.(featured := Some(s))).featured
  {
  }

  /** The catalogue's filter and the database query agree on trade and
      country, but the query's search is broader: every job that the
      catalogue keeps for some filters is matched by the query built from
      the same parameters, while a job matching on company or location only
      is matched by the query and dropped by the catalogue. */
  lemma {:induction false} CatalogueFilterNarrower(job: JobCatalogue.Job, d: JobSchema.JobDoc, f: JobCatalogue.JobFilters)
    requires d.title == job.title && d.company == job.company && d.location == job.location
    requires d.trade == job.trade && d.country == job.country
    ensures JobCatalogue.Keep(f, job) ==> Matches(BuildQuery(JobParams(f.search, f.trade, f.country, None)), d)
    ensures Given(f.search) && !ContainsCI(job.title, f.search.value) && ContainsCI(job.company, f.search.value) ==>
      !JobCatalogue.Keep(f, job) &&
      Matches(BuildQuery(JobParams(f.search, None, None, None)), d)
  {
  }

  // ---------------------------------------------------------------------------
  // POST

  /** `{ ...jobData, date: jobData.date || today }`. */
  function WithDate(body: JobSchema.JobInput, today: string): (input: JobSchema.JobInput)
    ensures input.date.Some?
    ensures Given(input.date) <==> Given(body.date) || today != ""
    ensures Given(body.date) ==> input.date == body.date
    ensures !Given(body.date) ==> input.date == Some(today)
  {
    body.(date := if Given(body.date) then body.date else Some(today))
  }

  /** A created job carries the submitted date when there is one and today's
      date otherwise. */
  lemma CreatedDate(body: JobSchema.JobInput, id: ObjectId, now: Time, today: string)
    requires JobSchema.Cast(WithDate(body, today), id, now, today).Some?
    ensures JobSchema.Cast(WithDate(body, today), id, now, today).value.date ==
      if Given(body.date) then body.date.value else today
  {
    JobSchema.CastResult(WithDate(body, today), id, now, today);
  }

  /** The 201 body. */
  function CreatedBody(d: JobSchema.JobDoc): Json {
    JObj(map["success" := JBool(true), "message" := JStr("Job created successfully"), "job" := JobJson(d)])
  }

  /** The POST handler: authenticate, require the admin role, connect,
      create. */
  method Post(db: Store, token: Option<Token>, env: Env, body: JobSchema.JobInput, h: Headers,
              now: Time, today: string, connectExported: bool) returns (r: Response)
    requires db.Valid()
    modifies db
    ensures db.Valid()
    ensures db.users == old(db.users) && db.logs == old(db.logs)
    ensures db.tickets == old(db.tickets) && db.stories == old(db.stories)
    ensures Authenticate(token, env).None? ==>
      r == Unauthorized() && db.jobs == old(db.jobs) && db.nextId == old(db.nextId)
    ensures Authenticate(token, env).Some? && !IsAdminClaims(Authenticate(token, env).value) ==>
      r == Forbidden() && db.jobs == old(db.jobs) && db.nextId == old(db.nextId)
    ensures Authenticate(token, env).Some? && IsAdminClaims(Authenticate(token, env).value) && !connectExported ==>
      r == Respond(500, ErrorBody("Failed to create job")) && db.jobs == old(db.jobs) && db.nextId == old(db.nextId)
    ensures Authenticate(token, env).Some? && IsAdminClaims(Authenticate(token, env).value) && connectExported ==>
      var c := JobSchema.Cast(WithDate(body, today), NewId(old(db.nextId)), now, today);
      (c.None? ==> r == Respond(500, ErrorBody("Failed to create job")) &&
                   db.jobs == old(db.jobs) && db.nextId == old(db.nextId)) &&
      (c.Some? ==> r == Respond(201, CreatedBody(c.value)) && db.jobs == old(db.jobs) + [c.value])
  {
    var req := new AuthRequest(token);
    var authReq := AuthenticateUser(req, env);
    if authReq.None? {
      return Unauthorized();
    }
    if !IsAdmin(authReq.value) {
      return Forbidden();
    }
    if !connectExported {
      return Respond(500, ErrorBody("Failed to create job"));
    }
    var job := db.CreateJob(WithDate(body, today), now, today);
    if job.None? {
      return Respond(500, ErrorBody("Failed to create job"));
    }
    // The audit-log write throws before reaching the database; the error
    // is swallowed.
    r := Respond(201, CreatedBody(job.value));
  }
}
