/** Seeding (lib/seed.ts): the sample jobs go into an empty jobs collection,
    and the administrator account admin@sunshine.com is created when no
    user holds that email. Both report failure as a value instead of
    throwing. `connectOk` says whether the database connection succeeds. */
module Seed {
  import opened Common
  import opened Text
  import opened Tokens
  import opened Database
  import JobSchema
  import JobCatalogue

  /** Why a seed step failed: the connection, or a document the schema
      refused. */
  datatype SeedError = ConnectionFailed | ValidationFailed

  /** `{ success: true }` or `{ success: false, error }`. */
  datatype SeedResult = Seeded | SeedFailed(error: SeedError)

  // ---------------------------------------------------------------------------
  // Jobs

  /** A catalogue job with its numeric `id` removed, as passed to
      `insertMany`. */
  function WithoutId(j: JobCatalogue.Job): (input: JobSchema.JobInput)
    ensures input.title == Some(j.title) && input.company == Some(j.company)
    ensures input.trade == Some(j.trade) && input.country == Some(j.country)
    ensures input.featured == Some(j.featured) && input.date == Some(j.date)
  {
    JobSchema.JobInput(Some(j.title), Some(j.company), Some(j.location), Some(j.country),
      Some(j.salary), Some(j.description), Some(j.responsibilities), Some(j.requirements),
      Some(j.benefits), Some(j.jobType), Some(j.experience), Some(j.featured), Some(j.date),
      Some(j.trade))
  }

  /** The documents handed to `insertMany`: one per sample job, in order.
      `catalogue` is the sample list, `JobCatalogue.Jobs` in the source. */
  function SampleInputs(catalogue: seq<JobCatalogue.Job>): (r: seq<JobSchema.JobInput>)
    ensures |r| == |catalogue|
    ensures forall k :: 0 <= k < |r| ==> r[k] == WithoutId(catalogue[k])
  {
    seq(|catalogue|, k requires 0 <= k < |catalogue| => WithoutId(catalogue[k]))
  }

  /** The jobs collection after a seed that reached the database. */
  function JobsAfter(jobs: seq<JobSchema.JobDoc>, catalogue: seq<JobCatalogue.Job>, first: nat, now: Time, today: string): (r: seq<JobSchema.JobDoc>)
    ensures |jobs| > 0 ==> r == jobs
    ensures |jobs| == 0 && CastAll(SampleInputs(catalogue), first, now, today).None? ==> r == jobs
    ensures |jobs| == 0 && CastAll(SampleInputs(catalogue), first, now, today).Some? ==>
      r == CastAll(SampleInputs(catalogue), first, now, today).value && |r| == |catalogue|
  {
    if |jobs| == 0 && CastAll(SampleInputs(catalogue), first, now, today).Some? then
      CastAll(SampleInputs(catalogue), first, now, today).value
    else jobs
  }

  /** What the jobs step reports once the database is reached: success when
      the collection already holds jobs or every sample job casts. */
  function JobsStep(jobs: seq<JobSchema.JobDoc>, catalogue: seq<JobCatalogue.Job>, first: nat, now: Time, today: string): SeedResult {
    if |jobs| > 0 || CastAll(SampleInputs(catalogue), first, now, today).Some? then Seeded
    else SeedFailed(ValidationFailed)
  }

  /** The id counter after the jobs step: one id per inserted sample job. */
  function IdAfterJobs(jobs: seq<JobSchema.JobDoc>, catalogue: seq<JobCatalogue.Job>, first: nat, now: Time, today: string): nat {
    if |jobs| == 0 && CastAll(SampleInputs(catalogue), first, now, today).Some? then first + |catalogue| else first
  }

  /** Seeding jobs twice is seeding them once: the second run finds the
      collection non-empty, or still empty after a refused first run and
      refused again for the same reason, and leaves it as it is. */
  lemma JobsAfterIdempotent(jobs: seq<JobSchema.JobDoc>, catalogue: seq<JobCatalogue.Job>, n: nat, m: nat, now: Time, now2: Time, today: string, today2: string)
    ensures JobsAfter(JobsAfter(jobs, catalogue, n, now, today), catalogue, m, now2, today2) == JobsAfter(jobs, catalogue, n, now, today)
  {
  }

  /** The seeded documents are the sample jobs, in order, with fresh ids in
      place of the numeric ones: titles, trades and countries trimmed,
      featured flags and dates as in the catalogue. */
  lemma {:induction false} SeededFromCatalogue(catalogue: seq<JobCatalogue.Job>, first: nat, now: Time, today: string, k: nat)
    requires CastAll(SampleInputs(catalogue), first, now, today).Some? && k < |catalogue|
    ensures var d := CastAll(SampleInputs(catalogue), first, now, today).value[k];
      var j := catalogue[k];
      d.id == NewId(first + k) && d.title == Trim(j.title) && d.trade == Trim(j.trade) &&
      d.country == Trim(j.country) && d.featured == j.featured && d.date == j.date
  {
    var input := SampleInputs(catalogue)[k];
    assert JobSchema.Accepted(input);
    JobSchema.CastResult(input, NewId(first + k), now, today);
  }

  /** `seedJobs()`. */
  method SeedJobs(db: Store, catalogue: seq<JobCatalogue.Job>, now: Time, today: string, connectOk: bool) returns (r: SeedResult)
    requires db.Valid()
    modifies db
    ensures db.Valid()
    ensures db.users == old(db.users) && db.logs == old(db.logs)
    ensures db.tickets == old(db.tickets) && db.stories == old(db.stories)
    ensures !connectOk ==> r == SeedFailed(ConnectionFailed) && db.jobs == old(db.jobs) && db.nextId == old(db.nextId)
    ensures connectOk ==> db.jobs == JobsAfter(old(db.jobs), catalogue, old(db.nextId), now, today)
    ensures connectOk ==> r == JobsStep(old(db.jobs), catalogue, old(db.nextId), now, today)
    ensures connectOk ==> db.nextId == IdAfterJobs(old(db.jobs), catalogue, old(db.nextId), now, today)
    ensures connectOk && |old(db.jobs)| > 0 ==> r == Seeded && db.nextId == old(db.nextId)
    ensures connectOk && |old(db.jobs)| == 0 ==>
      (r == Seeded <==> CastAll(SampleInputs(catalogue), old(db.nextId), now, today).Some?) &&
      (r != Seeded ==> r == SeedFailed(ValidationFailed) && db.nextId == old(db.nextId))
    ensures r == Seeded && |catalogue| > 0 ==> |db.jobs| > 0
  {
    if !connectOk {
      return SeedFailed(ConnectionFailed);
    }
    if |db.jobs| == 0 {
      var ok := db.InsertJobs(SampleInputs(catalogue), now, today);
      if !ok {
        return SeedFailed(ValidationFailed);
      }
    }
    r := Seeded;
  }

  // ---------------------------------------------------------------------------
  // Administrator account

  const AdminEmail := "admin@sunshine.com"
  const AdminPassword := "password123"
  const AdminSaltRounds := 10

  /** The account created for the `n`-th id. */
  function AdminUser(n: nat): (u: User)
    ensures u.email == AdminEmail && u.role == "admin" && u.name == "Admin"
    ensures Matches(AdminPassword, u.password)
  {
    User(NewId(n), "Admin", AdminEmail, Hash(AdminPassword, AdminSaltRounds), "admin", None, None, None, None)
  }

  /** The users after a seed that reached the database. */
  function UsersAfter(users: seq<User>, n: nat): (r: seq<User>)
    ensures FindByEmail(users, AdminEmail).Some? ==> r == users
    ensures FindByEmail(users, AdminEmail).None? ==> r == users + [AdminUser(n)]
    ensures FindByEmail(r, AdminEmail).Some?
  {
    if FindByEmail(users, AdminEmail).None? then
      FindByEmailAppend(users, AdminUser(n));
      users + [AdminUser(n)]
    else users
  }

  /** Seeding the administrator twice is seeding it once. */
  lemma UsersAfterIdempotent(users: seq<User>, n: nat, m: nat)
    ensures UsersAfter(UsersAfter(users, n), m) == UsersAfter(users, n)
  {
  }

  /** After a seed, whoever logs in as admin@sunshine.com with the seeded
      password gets in, unless that email was already taken. */
  lemma {:induction false} SeededAdminLogsIn(users: seq<User>, n: nat)
    requires FindByEmail(users, AdminEmail).None?
    ensures var r := UsersAfter(users, n);
      var i := FindByEmail(r, AdminEmail);
      i == Some(|users|) && Matches(AdminPassword, r[i.value].password) && r[i.value].role == "admin"
  {
    FindByEmailAppend(users, AdminUser(n));
  }

  /** `seedAdminUser()`. The User schema is not part of this model: its
      validation is taken to accept the account. */
  method SeedAdminUser(db: Store, connectOk: bool) returns (r: SeedResult)
    requires db.Valid()
    modifies db
    ensures db.Valid()
    ensures db.jobs == old(db.jobs) && db.logs == old(db.logs)
    ensures db.tickets == old(db.tickets) && db.stories == old(db.stories)
    ensures !connectOk ==> r == SeedFailed(ConnectionFailed) && db.users == old(db.users) && db.nextId == old(db.nextId)
    ensures connectOk ==> r == Seeded && db.users == UsersAfter(old(db.users), old(db.nextId))
  {
    if !connectOk {
      return SeedFailed(ConnectionFailed);
    }
    if FindByEmail(db.users, AdminEmail).None? {
      var _ := db.AddUser("Admin", AdminEmail, Hash(AdminPassword, AdminSaltRounds), "admin");
    }
    r := Seeded;
  }
}
