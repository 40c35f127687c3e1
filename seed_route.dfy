/** The seeding endpoint (app/api/seed/route.ts): refused in production;
    otherwise it seeds the jobs, then the administrator account, and
    reports both outcomes. */
module SeedRoute {
  import opened Common
  import opened Http
  import opened Database
  import opened Seed
  import JobCatalogue

  /** A failed step's error as it appears in the response. The error object
      itself is reduced to the kind of failure. */
  function ErrorJson(e: SeedError): Json {
    match e
    case ConnectionFailed => JStr("connection failed")
    case ValidationFailed => JStr("validation failed")
  }

  /** `result.success ? null : result.error`. */
  function StepError(r: SeedResult): (j: Json)
    ensures j == JNull <==> r == Seeded
  {
    if r.Seeded? then JNull else ErrorJson(r.error)
  }

  /** The response once both steps have run: 200 exactly when both
      succeeded, otherwise 500 naming the failed step(s). */
  function Outcome(jobs: SeedResult, admin: SeedResult): (r: Response)
    ensures r.status == 200 <==> jobs == Seeded && admin == Seeded
    ensures r.status != 200 ==> (
      r.status == 500 && r.body.JObj? &&
      "jobsError" in r.body.fields && "adminError" in r.body.fields &&
      (r.body.fields["jobsError"] == JNull <==> jobs == Seeded) &&
      (r.body.fields["adminError"] == JNull <==> admin == Seeded))
  {
    if jobs.Seeded? && admin.Seeded? then
      Respond(200, JObj(map["success" := JBool(true), "message" := JStr("Database seeded successfully")]))
    else
      Respond(500, JObj(map["success" := JBool(false), "jobsError" := StepError(jobs),
                            "adminError" := StepError(admin)]))
  }

  const NotInProduction := Respond(403, ErrorBody("This route is not available in production"))

  /** The GET handler. Both steps run whatever the first one returns. */
  method Get(db: Store, env: Env, catalogue: seq<JobCatalogue.Job>, now: Time, today: string, connectOk: bool) returns (r: Response)
    requires db.Valid()
    modifies db
    ensures db.Valid()
    ensures db.logs == old(db.logs) && db.tickets == old(db.tickets) && db.stories == old(db.stories)
    ensures env.production ==>
      r == NotInProduction && db.users == old(db.users) && db.jobs == old(db.jobs) && db.nextId == old(db.nextId)
    ensures !env.production && !connectOk ==>
      r == Outcome(SeedFailed(ConnectionFailed), SeedFailed(ConnectionFailed)) &&
      db.users == old(db.users) && db.jobs == old(db.jobs)
    ensures !env.production && connectOk ==>
      db.jobs == JobsAfter(old(db.jobs), catalogue, old(db.nextId), now, today) &&
      FindByEmail(db.users, AdminEmail).Some? &&
      (r.status == 200 <==> |old(db.jobs)| > 0 || CastAll(SampleInputs(catalogue), old(db.nextId), now, today).Some?)
    ensures !env.production && connectOk ==>
      r == Outcome(JobsStep(old(db.jobs), catalogue, old(db.nextId), now, today), Seeded) &&
      db.users == UsersAfter(old(db.users), IdAfterJobs(old(db.jobs), catalogue, old(db.nextId), now, today))
  {
    if env.production {
      return NotInProduction;
    }
    var jobsResult := SeedJobs(db, catalogue, now, today, connectOk);
    var adminResult := SeedAdminUser(db, connectOk);
    r := Outcome(jobsResult, adminResult);
  }
}
