/** The database as the route handlers use it: the users, jobs, activity-log,
    help-ticket and success-story collections, in insertion order, and the
    source of fresh document ids. Each collection is a sequence field that
    the operations below replace; every insertion goes through the schema of
    its collection. */
module Database {
  import opened Common
  import opened Tokens
  import Http
  import JobSchema
  import ActivityLogSchema
  import HelpTicketSchema
  import SuccessStorySchema

  /** A user document. The user schema is not part of this model, so a user
      holds exactly the fields the handlers write; the optional profile
      fields are absent until a profile update sets them. */
  datatype User = User(
    id: ObjectId, name: string, email: string, password: PasswordHash, role: string,
    phone: Option<string>, address: Option<string>, bio: Option<string>,
    updatedAt: Option<Time>)

  /** The id given to the `n`-th document created. */
  function NewId(n: nat): ObjectId {
    Decimal(n)
  }

  /** `User.findOne({ email })`: the position of the first user with exactly
      this email. */
  function FindByEmail(users: seq<User>, email: string): (r: Option<nat>)
    ensures r.Some? ==> r.value < |users| && users[r.value].email == email
    ensures r.Some? ==> forall k :: 0 <= k < r.value ==> users[k].email != email
    ensures r.None? ==> forall k :: 0 <= k < |users| ==> users[k].email != email
  {
    if users == [] then None
    else if users[0].email == email then Some(0)
    else
      var r := FindByEmail(users[1..], email);
      if r.Some? then Some(r.value + 1) else None
  }

  /** `User.findById(id)`: the position of the first user with this id; an
      undefined id finds nothing. */
  function FindById(users: seq<User>, id: Option<ObjectId>): (r: Option<nat>)
    ensures r.Some? ==> id.Some? && r.value < |users| && users[r.value].id == id.value
    ensures r.Some? ==> forall k :: 0 <= k < r.value ==> users[k].id != id.value
    ensures r.None? ==> id.None? || forall k :: 0 <= k < |users| ==> users[k].id != id.value
  {
    if id.None? || users == [] then None
    else if users[0].id == id.value then Some(0)
    else
      var r := FindById(users[1..], id);
      if r.Some? then Some(r.value + 1) else None
  }

  /** `User.findOne({ role })` found someone. */
  predicate HasRole(users: seq<User>, role: string) {
    exists k :: 0 <= k < |users| && users[k].role == role
  }

  ghost predicate UniqueEmails(users: seq<User>) {
    forall i, j :: 0 <= i < j < |users| ==> users[i].email != users[j].email
  }

  ghost predicate UniqueIds(users: seq<User>) {
    forall i, j :: 0 <= i < j < |users| ==> users[i].id != users[j].id
  }

  /** `id` was handed out before the counter reached `n`. */
  ghost predicate Issued(id: ObjectId, n: nat) {
    exists k: nat :: k < n && id == NewId(k)
  }

  /** Every user id was handed out before the counter reached `n`. */
  ghost predicate IdsIssued(users: seq<User>, n: nat) {
    forall i :: 0 <= i < |users| ==> Issued(users[i].id, n)
  }

  /** The next id differs from every id already handed out. */
  lemma {:induction false} NewIdFresh(users: seq<User>, n: nat)
    requires IdsIssued(users, n)
    ensures forall i :: 0 <= i < |users| ==> users[i].id != NewId(n)
  {
    forall i | 0 <= i < |users| ensures users[i].id != NewId(n) {
      assert Issued(users[i].id, n);
      var k: nat :| k < n && users[i].id == NewId(k);
      if users[i].id == NewId(n) {
        DecimalInjective(k, n);
      }
    }
  }

  /** Raising the counter keeps every issued id issued. */
  lemma IdsIssuedMonotone(users: seq<User>, n: nat, m: nat)
    requires IdsIssued(users, n) && n <= m
    ensures IdsIssued(users, m)
  {
    forall i | 0 <= i < |users| ensures Issued(users[i].id, m) {
      assert Issued(users[i].id, n);
      var k: nat :| k < n && users[i].id == NewId(k);
      assert k < m;
    }
  }

  /** An issued id is never empty. */
  lemma IssuedIdNonEmpty(users: seq<User>, n: nat, i: nat)
    requires IdsIssued(users, n) && i < |users|
    ensures users[i].id != ""
  {
    assert Issued(users[i].id, n);
    var k: nat :| k < n && users[i].id == NewId(k);
  }

  /** With unique emails, the user found by email is the only one with it. */
  lemma FindByEmailUnique(users: seq<User>, email: string, i: nat)
    requires UniqueEmails(users) && i < |users| && users[i].email == email
    ensures FindByEmail(users, email) == Some(i)
  {
  }

  /** Looking up the email of a user appended after every user without it
      finds the new user. */
  lemma {:induction false} FindByEmailAppend(users: seq<User>, u: User)
    requires FindByEmail(users, u.email).None?
    ensures FindByEmail(users + [u], u.email) == Some(|users|)
  {
    if users != [] {
      assert (users + [u])[1..] == users[1..] + [u];
      FindByEmailAppend(users[1..], u);
    }
  }

  /** With unique ids, the user found by id is the only one with it. */
  lemma FindByIdUnique(users: seq<User>, i: nat)
    requires UniqueIds(users) && i < |users|
    ensures FindById(users, Some(users[i].id)) == Some(i)
  {
  }

  /** Casts every input, the `k`-th with the number `first + k`; nothing
      when any input fails. */
  function CastEach<I, D>(inputs: seq<I>, cast: (I, nat) -> Option<D>, first: nat): (r: Option<seq<D>>)
    ensures r.Some? <==> forall k :: 0 <= k < |inputs| ==> cast(inputs[k], first + k).Some?
    ensures r.Some? ==> |r.value| == |inputs|
    ensures r.Some? ==> forall k :: 0 <= k < |inputs| ==> Some(r.value[k]) == cast(inputs[k], first + k)
  {
    if forall k :: 0 <= k < |inputs| ==> cast(inputs[k], first + k).Some? then
      Some(seq(|inputs|, k requires 0 <= k < |inputs| => cast(inputs[k], first + k).value))
    else None
  }

  /** `insertMany(inputs)` validates every document before inserting any;
      the documents get consecutive ids starting at `first`. */
  function CastAll(inputs: seq<JobSchema.JobInput>, first: nat, now: Time, today: string): (r: Option<seq<JobSchema.JobDoc>>)
    ensures r.Some? <==> forall k :: 0 <= k < |inputs| ==> JobSchema.Accepted(inputs[k])
    ensures r.Some? ==> |r.value| == |inputs|
    ensures r.Some? ==> forall k :: 0 <= k < |inputs| ==>
      Some(r.value[k]) == JobSchema.Cast(inputs[k], NewId(first + k), now, today)
  {
    CastEach(inputs, (input, n) => JobSchema.Cast(input, NewId(n), now, today), first)
  }

  /** The activity-log document a handler builds for a request: the client
      address and agent come from the request headers. */
  function RequestLog(userId: Option<string>, action: string, resource: string, details: string,
                      h: Http.Headers, timestamp: Option<Time>, status: string): (l: ActivityLogSchema.LogInput)
    ensures l.userId == userId && l.action == Some(action) && l.resource == Some(resource)
    ensures l.details == Some(details) && l.status == Some(status) && l.timestamp == timestamp
    ensures l.ipAddress == Some(Http.ClientIp(h)) && l.userAgent == Some(Http.ClientAgent(h))
  {
    ActivityLogSchema.LogInput(userId, Some(action), Some(resource), Some(details),
                               Some(Http.ClientIp(h)), Some(Http.ClientAgent(h)), timestamp, Some(status))
  }

  // ---------------------------------------------------------------------------
  // Paged queries

  /** `.skip(skip).limit(limit)` on a result list: a limit of 0 means no
      limit and a negative one counts as its absolute value. */
  function Window<T>(s: seq<T>, skip: nat, limit: int): (r: seq<T>)
    ensures var rest := if skip <= |s| then |s| - skip else 0;
      var n := if limit < 0 then -limit else limit;
      |r| == if limit == 0 || n > rest then rest else n
    ensures forall k :: 0 <= k < |r| ==> skip + k < |s| && r[k] == s[skip + k]
  {
    var n := if limit < 0 then -limit else limit;
    var a := if skip <= |s| then skip else |s|;
    var b := if limit == 0 || a + n > |s| then |s| else a + n;
    s[a..b]
  }

  /** `Math.ceil(total / limit)` as it reaches the client: `null` when the
      division by zero gives Infinity or NaN, rounded towards +Infinity
      otherwise. */
  function TotalPages(total: nat, limit: int): (r: Json)
    ensures limit == 0 <==> r == JNull
    ensures limit > 0 ==> r == JNum(CeilDiv(total, limit))
    ensures limit < 0 ==> r.JNum? && r.n <= 0
  {
    if limit == 0 then JNull
    else if limit > 0 then JNum(CeilDiv(total, limit))
    else JNum(-(total / -limit))
  }

  /** `.skip((page - 1) * limit).limit(limit)`, or `None` when the skip is
      negative and the database refuses the query. */
  function PageWindow<T>(s: seq<T>, page: int, limit: int): (r: Option<seq<T>>)
    ensures r.Some? <==> (page - 1) * limit >= 0
    ensures r.Some? ==> r.value == Window(s, (page - 1) * limit, limit)
  {
    var skip := (page - 1) * limit;
    if skip < 0 then None else Some(Window(s, skip, limit))
  }

  /** With a positive limit, item `j` is shown on page `j / limit + 1`, at
      position `j % limit`, and that page is within the announced count. */
  lemma {:induction false} EveryItemOnItsPage<T>(s: seq<T>, limit: int, j: nat)
    requires limit > 0 && j < |s|
    ensures var w := PageWindow(s, j / limit + 1, limit);
      w.Some? && j % limit < |w.value| && w.value[j % limit] == s[j] &&
      j / limit + 1 <= CeilDiv(|s|, limit)
  {
    assert (j / limit) * limit + j % limit == j;
    PageWithinTotal(|s|, limit, j);
  }

  /** The page holding element `j` is within the announced page count. */
  lemma PageWithinTotal(total: nat, n: int, j: nat)
    requires n > 0 && j < total
    ensures j / n + 1 <= CeilDiv(total, n)
  {
    var c := CeilDiv(total, n);
    assert (j / n) * n <= j;
    if j / n + 1 > c {
      MulMonotone(c, j / n, n);
    }
  }

  lemma MulMonotone(a: int, b: int, n: int)
    requires n > 0 && a <= b
    ensures a * n <= b * n
  {
  }

  class Store {
    var users: seq<User>
    var jobs: seq<JobSchema.JobDoc>
    var logs: seq<ActivityLogSchema.LogDoc>
    var tickets: seq<HelpTicketSchema.TicketDoc>
    var stories: seq<SuccessStorySchema.StoryDoc>
    /** How many documents have been created so far. */
    var nextId: nat

    /** No two users share an email or an id, and every id was issued. */
    ghost predicate Valid()
      reads this
    {
      UniqueEmails(users) && UniqueIds(users) && IdsIssued(users, nextId)
    }

    constructor ()
      ensures Valid()
      ensures users == [] && jobs == [] && logs == [] && tickets == [] && stories == []
      ensures nextId == 0
    {
      users, jobs, logs, tickets, stories := [], [], [], [], [];
      nextId := 0;
    }

    /** `User.create({ name, email, password, role })` for an email that no
        user has yet. */
    method AddUser(name: string, email: string, password: PasswordHash, role: string) returns (u: User)
      requires Valid()
      requires FindByEmail(users, email) == None
      modifies this
      ensures Valid()
      ensures u == User(NewId(old(nextId)), name, email, password, role, None, None, None, None)
      ensures users == old(users) + [u] && nextId == old(nextId) + 1
      ensures jobs == old(jobs) && logs == old(logs) && tickets == old(tickets) && stories == old(stories)
    {
      NewIdFresh(users, nextId);
      u := User(NewId(nextId), name, email, password, role, None, None, None, None);
      ghost var n := nextId;
      users := users + [u];
      nextId := nextId + 1;
      assert forall i :: 0 <= i < |users| - 1 ==> users[i] == old(users)[i];
      forall i | 0 <= i < |users| ensures Issued(users[i].id, nextId) {
        if i < |users| - 1 {
          assert Issued(old(users)[i].id, n);
          var k: nat :| k < n && old(users)[i].id == NewId(k);
          assert users[i].id == NewId(k);
        } else {
          assert users[i].id == NewId(n);
        }
      }
    }

    /** `findByIdAndUpdate` on the user at position `i`, which keeps its id
        and takes an email no other user has. */
    method SetUser(i: nat, u: User)
      requires Valid()
      requires i < |users| && u.id == users[i].id
      requires forall k :: 0 <= k < |users| && k != i ==> users[k].email != u.email
      modifies this
      ensures Valid()
      ensures users == old(users)[i := u] && nextId == old(nextId)
      ensures jobs == old(jobs) && logs == old(logs) && tickets == old(tickets) && stories == old(stories)
    {
      users := users[i := u];
      forall j | 0 <= j < |users| ensures Issued(users[j].id, nextId) {
        assert users[j].id == old(users)[j].id;
        assert Issued(old(users)[j].id, nextId);
      }
    }

    /** `new ActivityLog(input).save()` inside a `try` whose failure is
        swallowed: the log is stored when the database write goes through
        (`writeOk`) and the schema accepts it. */
    method SaveLog(input: ActivityLogSchema.LogInput, now: Time, writeOk: bool) returns (r: Option<ActivityLogSchema.LogDoc>)
      requires Valid()
      modifies this
      ensures Valid()
      ensures r == (if writeOk then ActivityLogSchema.Cast(input, NewId(old(nextId)), now) else None)
      ensures logs == (if r.Some? then old(logs) + [r.value] else old(logs))
      ensures nextId == (if r.Some? then old(nextId) + 1 else old(nextId))
      ensures users == old(users) && jobs == old(jobs) && tickets == old(tickets) && stories == old(stories)
    {
      r := if writeOk then ActivityLogSchema.Cast(input, NewId(nextId), now) else None;
      if r.Some? {
        logs := logs + [r.value];
        Bump();
      }
    }

    /** Counts one more created document. */
    method Bump()
      requires Valid()
      modifies this
      ensures Valid() && nextId == old(nextId) + 1
      ensures users == old(users) && jobs == old(jobs) && logs == old(logs)
      ensures tickets == old(tickets) && stories == old(stories)
    {
      IdsIssuedMonotone(users, nextId, nextId + 1);
      nextId := nextId + 1;
    }

    /** `Job.create(input)`. */
    method CreateJob(input: JobSchema.JobInput, now: Time, today: string) returns (r: Option<JobSchema.JobDoc>)
      requires Valid()
      modifies this
      ensures Valid()
      ensures r == JobSchema.Cast(input, NewId(old(nextId)), now, today)
      ensures jobs == (if r.Some? then old(jobs) + [r.value] else old(jobs))
      ensures nextId == (if r.Some? then old(nextId) + 1 else old(nextId))
      ensures users == old(users) && logs == old(logs) && tickets == old(tickets) && stories == old(stories)
    {
      r := JobSchema.Cast(input, NewId(nextId), now, today);
      if r.Some? {
        AppendJob(r.value);
      }
    }

    /** Stores one more job document under the next id. */
    method AppendJob(d: JobSchema.JobDoc)
      requires Valid()
      modifies this
      ensures Valid()
      ensures jobs == old(jobs) + [d] && nextId == old(nextId) + 1
      ensures users == old(users) && logs == old(logs) && tickets == old(tickets) && stories == old(stories)
    {
      jobs := jobs + [d];
      Bump();
    }

    /** `Job.insertMany(inputs)`: every document is validated first, and
        either all are inserted or none is. */
    method InsertJobs(inputs: seq<JobSchema.JobInput>, now: Time, today: string) returns (ok: bool)
      requires Valid()
      modifies this
      ensures Valid()
      ensures ok <==> forall k :: 0 <= k < |inputs| ==> JobSchema.Accepted(inputs[k])
      ensures ok ==> jobs == old(jobs) + CastAll(inputs, old(nextId), now, today).value
      ensures ok ==> nextId == old(nextId) + |inputs|
      ensures !ok ==> jobs == old(jobs) && nextId == old(nextId)
      ensures users == old(users) && logs == old(logs) && tickets == old(tickets) && stories == old(stories)
    {
      var docs := CastAll(inputs, nextId, now, today);
      ok := docs.Some?;
      if ok {
        AppendJobs(docs.value);
      }
    }

    /** Stores the documents in order, each under the next id. */
    method AppendJobs(docs: seq<JobSchema.JobDoc>)
      requires Valid()
      modifies this
      ensures Valid()
      ensures jobs == old(jobs) + docs && nextId == old(nextId) + |docs|
      ensures users == old(users) && logs == old(logs) && tickets == old(tickets) && stories == old(stories)
    {
      var i := 0;
      while i < |docs|
        invariant 0 <= i <= |docs|
        invariant Valid()
        invariant jobs == old(jobs) + docs[..i]
        invariant nextId == old(nextId) + i
        invariant users == old(users) && logs == old(logs) && tickets == old(tickets) && stories == old(stories)
      {
        AppendJob(docs[i]);
        assert docs[..i + 1] == docs[..i] + [docs[i]];
        i := i + 1;
      }
      assert docs[..|docs|] == docs;
    }

    /** `new HelpTicket(input).save()`. */
    method SaveTicket(input: HelpTicketSchema.TicketInput, now: Time) returns (r: Option<HelpTicketSchema.TicketDoc>)
      requires Valid()
      modifies this
      ensures Valid()
      ensures r == HelpTicketSchema.Cast(input, NewId(old(nextId)), now)
      ensures tickets == (if r.Some? then old(tickets) + [r.value] else old(tickets))
      ensures nextId == (if r.Some? then old(nextId) + 1 else old(nextId))
      ensures users == old(users) && jobs == old(jobs) && logs == old(logs) && stories == old(stories)
    {
      r := HelpTicketSchema.Cast(input, NewId(nextId), now);
      if r.Some? {
        tickets := tickets + [r.value];
        Bump();
      }
    }

    /** `new SuccessStory(input).save()`. */
    method SaveStory(input: SuccessStorySchema.StoryInput, now: Time) returns (r: Option<SuccessStorySchema.StoryDoc>)
      requires Valid()
      modifies this
      ensures Valid()
      ensures r == SuccessStorySchema.Cast(input, NewId(old(nextId)), now)
      ensures stories == (if r.Some? then old(stories) + [r.value] else old(stories))
      ensures nextId == (if r.Some? then old(nextId) + 1 else old(nextId))
      ensures users == old(users) && jobs == old(jobs) && logs == old(logs) && tickets == old(tickets)
    {
      r := SuccessStorySchema.Cast(input, NewId(nextId), now);
      if r.Some? {
        AppendStory(r.value);
      }
    }

    /** Stores one more success-story document under the next id. */
    method AppendStory(d: SuccessStorySchema.StoryDoc)
      requires Valid()
      modifies this
      ensures Valid()
      ensures stories == old(stories) + [d] && nextId == old(nextId) + 1
      ensures users == old(users) && jobs == old(jobs) && logs == old(logs) && tickets == old(tickets)
    {
      stories := stories + [d];
      Bump();
    }
  }

  /** A user as returned with `select('-password')` or after removing the
      password from `toObject()`: every stored field except the hash. */
  function UserJson(u: User): (j: Json)
    ensures j.JObj? && "password" !in j.fields
    ensures "_id" in j.fields && "name" in j.fields && "email" in j.fields && "role" in j.fields
    ensures j.fields["_id"] == JStr(u.id) && j.fields["email"] == JStr(u.email)
    ensures j.fields["role"] == JStr(u.role) && j.fields["name"] == JStr(u.name)
    ensures j.fields.Keys <= {"_id", "name", "email", "role", "phone", "address", "bio", "updatedAt"}
    ensures ("phone" in j.fields <==> u.phone.Some?) && (u.phone.Some? ==> j.fields["phone"] == JStr(u.phone.value))
    ensures ("address" in j.fields <==> u.address.Some?) && (u.address.Some? ==> j.fields["address"] == JStr(u.address.value))
    ensures ("bio" in j.fields <==> u.bio.Some?) && (u.bio.Some? ==> j.fields["bio"] == JStr(u.bio.value))
    ensures ("updatedAt" in j.fields <==> u.updatedAt.Some?) &&
            (u.updatedAt.Some? ==> j.fields["updatedAt"] == JNum(u.updatedAt.value))
  {
    var base := map["_id" := JStr(u.id), "name" := JStr(u.name), "email" := JStr(u.email), "role" := JStr(u.role)];
    var p := if u.phone.Some? then base["phone" := JStr(u.phone.value)] else base;
    var a := if u.address.Some? then p["address" := JStr(u.address.value)] else p;
    var b := if u.bio.Some? then a["bio" := JStr(u.bio.value)] else a;
    JObj(if u.updatedAt.Some? then b["updatedAt" := JNum(u.updatedAt.value)] else b)
  }
}
