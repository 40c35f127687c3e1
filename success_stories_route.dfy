/** The administrators' success-story endpoint
    (app/api/admin/success-stories/route.ts): GET lists every story, newest
    first; POST takes a multipart form with an image, stores the image under
    a name made from the upload time and records the story.

    Unlike the other routes this one verifies tokens with `JWT_SECRET` and
    no fallback, and it answers 401 only when the cookie is missing: a token
    that does not verify is treated like a non-administrator (403). */
module SuccessStoriesRoute {
  import opened Common
  import opened Tokens
  import opened Http
  import opened Database
  import ActivityLogSchema
  import SuccessStorySchema

  type StoryDoc = SuccessStorySchema.StoryDoc

  const AdminRequired := Respond(403, FailBody("Admin access required"))
  const ServerError := Respond(500, FailBody("Internal server error"))

  /** The checks both handlers open with. */
  function Gate(token: Option<Token>, env: Env): (r: Result<Claims, Response>)
    ensures r.Err? && r.error.status == 401 <==> !TokenGiven(token)
    ensures !TokenGiven(token) ==> r == Err(Respond(401, FailBody("Authentication required")))
    ensures r.Ok? <==>
      TokenGiven(token) && Verify(env.jwtSecret, token.value).Some? &&
      IsAdminClaims(Verify(env.jwtSecret, token.value).value)
    ensures r.Ok? ==> r.value == Verify(env.jwtSecret, token.value).value
    ensures TokenGiven(token) && r.Err? ==> r.error == AdminRequired
  {
    if !TokenGiven(token) then Err(Respond(401, FailBody("Authentication required")))
    else
      var decoded := Verify(env.jwtSecret, token.value);
      if decoded.None? || !IsAdminClaims(decoded.value) then Err(AdminRequired)
      else Ok(decoded.value)
  }

  /** Without `JWT_SECRET` no token verifies, so every request that carries
      a cookie is refused as a non-administrator, even a fresh login by an
      administrator. */
  lemma NoSecretLocksOut(token: Option<Token>, env: Env)
    requires !Given(env.jwtSecret) && TokenGiven(token)
    ensures Gate(token, env) == Err(AdminRequired)
  {
  }

  // ---------------------------------------------------------------------------
  // GET

  function CreatedAt(d: StoryDoc): int { d.createdAt }

  function StoryJson(d: StoryDoc): Json {
    JObj(map["_id" := JStr(d.id), "customerName" := JStr(d.customerName),
             "customerImage" := JStr(d.customerImage), "jobTitle" := JStr(d.jobTitle),
             "company" := JStr(d.company), "location" := JStr(d.location),
             "testimonial" := JStr(d.testimonial), "rating" := JNum(d.rating),
             "createdBy" := JStr(d.createdBy), "createdAt" := JNum(d.createdAt),
             "updatedAt" := JNum(d.updatedAt)])
  }

  function StoriesJson(ds: seq<StoryDoc>): (j: Json)
    ensures j.JArr? && |j.items| == |ds|
    ensures forall k :: 0 <= k < |ds| ==> j.items[k] == StoryJson(ds[k])
  {
    JArr(seq(|ds|, k requires 0 <= k < |ds| => StoryJson(ds[k])))
  }

  /** `SuccessStory.find({}).sort({ createdAt: -1 })`: every story, once,
      newest first. */
  function Listing(stories: seq<StoryDoc>): (r: seq<StoryDoc>)
    ensures multiset(r) == multiset(stories)
    ensures SortedDesc(r, CreatedAt)
  {
    SortDesc(stories, CreatedAt)
  }

  /** The GET handler. */
  function Get(stories: seq<StoryDoc>, token: Option<Token>, env: Env): (r: Response)
    ensures r.status in {200, 401, 403}
    ensures Gate(token, env).Err? ==> r == Gate(token, env).error
    ensures r.status == 200 <==> Gate(token, env).Ok?
    ensures r.status == 200 ==>
      r.body == JObj(map["success" := JBool(true), "stories" := StoriesJson(Listing(stories))])
  {
    var g := Gate(token, env);
    if g.Err? then g.error
    else Respond(200, JObj(map["success" := JBool(true), "stories" := StoriesJson(Listing(stories))]))
  }

  // ---------------------------------------------------------------------------
  // POST

  /** The form fields as the handler reads them. `rating` is the result of
      `parseInt`, `None` standing for NaN; `image` is the extension
      (`path.extname`) of the uploaded file's name, `None` when no file was
      sent. */
  datatype StoryForm = StoryForm(
    customerName: Option<string>, jobTitle: Option<string>, company: Option<string>,
    location: Option<string>, testimonial: Option<string>, rating: Option<int>,
    image: Option<string>)

  /** The route's own presence check: every text field non-empty, a rating
      that is neither NaN nor 0, and a file. */
  predicate Complete(f: StoryForm) {
    Given(f.customerName) && Given(f.jobTitle) && Given(f.company) &&
    Given(f.location) && Given(f.testimonial) &&
    f.rating.Some? && f.rating.value != 0 && f.image.Some?
  }

  /** The name the image is written under: `success-story-<ms><ext>`. */
  function FileName(timestamp: nat, extension: string): (name: string)
    ensures |name| == 14 + |Decimal(timestamp)| + |extension|
    ensures name[..14] == "success-story-"
    ensures name[14..|name| - |extension|] == Decimal(timestamp)
    ensures name[|name| - |extension|..] == extension
  {
    "success-story-" + Decimal(timestamp) + extension
  }

  /** The public path stored in the story. */
  function ImagePath(timestamp: nat, extension: string): (path: string)
    ensures |path| == 25 + |FileName(timestamp, extension)|
    ensures path[..25] == "/uploads/success-stories/"
    ensures path[25..] == FileName(timestamp, extension)
  {
    "/uploads/success-stories/" + FileName(timestamp, extension)
  }

  /** Two uploads with the same extension at different milliseconds get
      different files; only uploads in the same millisecond collide. */
  lemma {:induction false} FileNamesDistinct(t1: nat, t2: nat, extension: string)
    requires FileName(t1, extension) == FileName(t2, extension)
    ensures t1 == t2
  {
    var n := FileName(t1, extension);
    assert Decimal(t1) == n[14..|n| - |extension|] == Decimal(t2);
    DecimalInjective(t1, t2);
  }

  /** `new SuccessStory({...})`: the form fields, the image path and the
      token's `id` claim as the creator. */
  function StoryFor(f: StoryForm, c: Claims, timestamp: nat): (input: SuccessStorySchema.StoryInput)
    requires f.image.Some?
    ensures input.customerName == f.customerName && input.jobTitle == f.jobTitle
    ensures input.company == f.company && input.location == f.location
    ensures input.testimonial == f.testimonial && input.rating == f.rating
    ensures input.customerImage == Some(ImagePath(timestamp, f.image.value))
    ensures input.createdBy == Claim(c, "id")
  {
    SuccessStorySchema.StoryInput(f.customerName, Some(ImagePath(timestamp, f.image.value)),
      f.jobTitle, f.company, f.location, f.testimonial, f.rating, Claim(c, "id"))
  }

  /** The activity log of a new story, written with status 'SUCCESS'. */
  function StoryLog(c: Claims, f: StoryForm, h: Headers): (l: ActivityLogSchema.LogInput)
    requires Complete(f)
    ensures l.status == Some("SUCCESS") && l.userId == Claim(c, "id")
  {
    RequestLog(Claim(c, "id"), "CREATE", "Success Story",
      "Added success story for " + f.customerName.value + " - " + f.jobTitle.value + " at " + f.company.value,
      h, None, "SUCCESS")
  }

  function Added(d: StoryDoc): Json {
    JObj(map["success" := JBool(true), "message" := JStr("Success story added successfully"),
             "story" := StoryJson(d)])
  }

  /** The POST handler. `timestamp` is `Date.now()` at upload time and `now`
      the time of the save; `fileWriteOk` says whether creating the upload
      directory and writing the image succeed (a failure throws, and the
      catch-all answers 500 before anything is stored). */
  method Post(db: Store, token: Option<Token>, env: Env, f: StoryForm, h: Headers,
              timestamp: nat, now: Time, fileWriteOk: bool, logWriteOk: bool) returns (r: Response)
    requires db.Valid()
    modifies db
    ensures db.Valid()
    ensures db.users == old(db.users) && db.jobs == old(db.jobs)
    ensures db.logs == old(db.logs) && db.tickets == old(db.tickets)
    ensures Gate(token, env).Err? ==>
      r == Gate(token, env).error && db.stories == old(db.stories) && db.nextId == old(db.nextId)
    ensures Gate(token, env).Ok? && !Complete(f) ==>
      r == Respond(400, FailBody("All fields are required")) &&
      db.stories == old(db.stories) && db.nextId == old(db.nextId)
    ensures Gate(token, env).Ok? && Complete(f) && !fileWriteOk ==>
      r == ServerError && db.stories == old(db.stories) && db.nextId == old(db.nextId)
    ensures Gate(token, env).Ok? && Complete(f) && fileWriteOk ==>
      var s := SuccessStorySchema.Cast(StoryFor(f, Gate(token, env).value, timestamp), NewId(old(db.nextId)), now);
      (s.None? ==> r == ServerError && db.stories == old(db.stories)) &&
      (s.Some? ==> r == Respond(200, Added(s.value)) && db.stories == old(db.stories) + [s.value])
  {
    var g := Gate(token, env);
    if g.Err? {
      return g.error;
    }
    if !Complete(f) {
      return Respond(400, FailBody("All fields are required"));
    }
    if !fileWriteOk {
      return ServerError;
    }
    var saved := db.SaveStory(StoryFor(f, g.value, timestamp), now);
    if saved.None? {
      return ServerError;
    }
    // The log's status is outside the schema's enum: the write is refused
    // and the error swallowed.
    var log := StoryLog(g.value, f, h);
    ActivityLogSchema.RejectedInputs(log, NewId(db.nextId), now);
    var _ := db.SaveLog(log, now, logWriteOk);
    r := Respond(200, Added(saved.value));
  }

  /** A non-zero rating outside 1..5 gets past the route's check, and the
      schema then refuses the story: the answer is 500, not 400. */
  lemma RatingOutOfRangeIsServerError(f: StoryForm, c: Claims, timestamp: nat, id: ObjectId, now: Time)
    requires Complete(f) && (f.rating.value < 0 || f.rating.value > 5)
    ensures SuccessStorySchema.Cast(StoryFor(f, c, timestamp), id, now) == None
  {
  }

  /** A stored story keeps the submitted rating, names the token's `id` as
      its creator and points at the uploaded file. */
  lemma {:induction false} StoredStory(f: StoryForm, c: Claims, timestamp: nat, id: ObjectId, now: Time)
    requires Complete(f)
    requires SuccessStorySchema.Cast(StoryFor(f, c, timestamp), id, now).Some?
    ensures var d := SuccessStorySchema.Cast(StoryFor(f, c, timestamp), id, now).value;
      SuccessStorySchema.Valid(d) && d.rating == f.rating.value && Some(d.createdBy) == Claim(c, "id") &&
      d.customerImage == ImagePath(timestamp, f.image.value)
  {
    var input := StoryFor(f, c, timestamp);
    SuccessStorySchema.CastResult(input, id, now);
  }
}
