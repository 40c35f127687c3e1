/** The job schema (models/Job.ts): nine required strings that are trimmed
    before validation, three arrays of required strings, `featured`
    defaulting to false, `date` defaulting to today's `YYYY-MM-DD`, and
    automatic `createdAt`/`updatedAt`. */
module JobSchema {
  import opened Common
  import opened Text

  /** What a handler passes to `Job.create` or `insertMany`. */
  datatype JobInput = JobInput(
    title: Option<string>, company: Option<string>, location: Option<string>,
    country: Option<string>, salary: Option<string>, description: Option<string>,
    responsibilities: Option<seq<string>>, requirements: Option<seq<string>>,
    benefits: Option<seq<string>>, jobType: Option<string>, experience: Option<string>,
    featured: Option<bool>, date: Option<string>, trade: Option<string>)

  /** A stored job document. */
  datatype JobDoc = JobDoc(
    id: ObjectId, title: string, company: string, location: string, country: string,
    salary: string, description: string, responsibilities: seq<string>,
    requirements: seq<string>, benefits: seq<string>, jobType: string, experience: string,
    featured: bool, date: string, trade: string, createdAt: Time, updatedAt: Time)

  /** A `required`, `trim` string: present and non-empty once trimmed, that
      is, not made of whitespace only. */
  predicate TrimmedRequired(o: Option<string>) {
    o.Some? && !AllSpace(o.value)
  }

  /** An array of `required` strings: every entry non-empty; the array itself
      may be missing or empty. */
  predicate EntriesPresent(o: Option<seq<string>>) {
    o.None? || forall k :: 0 <= k < |o.value| ==> o.value[k] != ""
  }

  /** A stored required string: non-empty, and already trimmed. */
  predicate Clean(s: string) {
    s != "" && Trim(s) == s
  }

  predicate Valid(d: JobDoc) {
    Clean(d.title) && Clean(d.company) && Clean(d.location) && Clean(d.country) &&
    Clean(d.salary) && Clean(d.description) && Clean(d.jobType) && Clean(d.experience) &&
    Clean(d.trade) &&
    (forall k :: 0 <= k < |d.responsibilities| ==> d.responsibilities[k] != "") &&
    (forall k :: 0 <= k < |d.requirements| ==> d.requirements[k] != "") &&
    (forall k :: 0 <= k < |d.benefits| ==> d.benefits[k] != "")
  }

  predicate Accepted(input: JobInput) {
    TrimmedRequired(input.title) && TrimmedRequired(input.company) &&
    TrimmedRequired(input.location) && TrimmedRequired(input.country) &&
    TrimmedRequired(input.salary) && TrimmedRequired(input.description) &&
    TrimmedRequired(input.jobType) && TrimmedRequired(input.experience) &&
    TrimmedRequired(input.trade) &&
    EntriesPresent(input.responsibilities) && EntriesPresent(input.requirements) &&
    EntriesPresent(input.benefits)
  }

  function OrEmpty(o: Option<seq<string>>): seq<string> {
    if o.Some? then o.value else []
  }

  /** `Job.create(input)` at time `now` on day `today`: trim, fill defaults,
      validate. `None` is the validation error. */
  function Cast(input: JobInput, id: ObjectId, now: Time, today: string): (r: Option<JobDoc>)
    ensures r.Some? <==> Accepted(input)
    ensures r.Some? ==> r.value.id == id && r.value.createdAt == now && r.value.updatedAt == now
  {
    if Accepted(input) then
      Some(JobDoc(
        id, Trim(input.title.value), Trim(input.company.value), Trim(input.location.value),
        Trim(input.country.value), Trim(input.salary.value), Trim(input.description.value),
        OrEmpty(input.responsibilities), OrEmpty(input.requirements), OrEmpty(input.benefits),
        Trim(input.jobType.value), Trim(input.experience.value),
        if input.featured.Some? then input.featured.value else false,
        if input.date.Some? then input.date.value else today,
        Trim(input.trade.value), now, now))
    else None
  }

  /** What an accepted job looks like once stored: valid, with trimmed
      strings, `featured` false unless given, and today's date unless given. */
  lemma {:induction false} CastResult(input: JobInput, id: ObjectId, now: Time, today: string)
    requires Accepted(input)
    ensures Cast(input, id, now, today).Some?
    ensures Valid(Cast(input, id, now, today).value)
    ensures var d := Cast(input, id, now, today).value;
      d.title == Trim(input.title.value) && d.company == Trim(input.company.value) &&
      d.location == Trim(input.location.value) && d.country == Trim(input.country.value) &&
      d.salary == Trim(input.salary.value) && d.description == Trim(input.description.value) &&
      d.jobType == Trim(input.jobType.value) && d.experience == Trim(input.experience.value) &&
      d.trade == Trim(input.trade.value)
    ensures var d := Cast(input, id, now, today).value;
      d.responsibilities == OrEmpty(input.responsibilities) &&
      d.requirements == OrEmpty(input.requirements) && d.benefits == OrEmpty(input.benefits)
    ensures Cast(input, id, now, today).value.featured == (input.featured == Some(true))
    ensures Cast(input, id, now, today).value.date == (if input.date.Some? then input.date.value else today)
  {
    TrimEmptyIff(input.title.value);
    TrimEmptyIff(input.company.value);
    TrimEmptyIff(input.location.value);
    TrimEmptyIff(input.country.value);
    TrimEmptyIff(input.salary.value);
    TrimEmptyIff(input.description.value);
    TrimEmptyIff(input.jobType.value);
    TrimEmptyIff(input.experience.value);
    TrimEmptyIff(input.trade.value);
    TrimIdempotent(input.title.value);
    TrimIdempotent(input.company.value);
    TrimIdempotent(input.location.value);
    TrimIdempotent(input.country.value);
    TrimIdempotent(input.salary.value);
    TrimIdempotent(input.description.value);
    TrimIdempotent(input.jobType.value);
    TrimIdempotent(input.experience.value);
    TrimIdempotent(input.trade.value);
  }

  /** The fields of a stored job, as they would be passed back in. */
  function ToInput(d: JobDoc): JobInput {
    JobInput(Some(d.title), Some(d.company), Some(d.location), Some(d.country),
             Some(d.salary), Some(d.description), Some(d.responsibilities),
             Some(d.requirements), Some(d.benefits), Some(d.jobType), Some(d.experience),
             Some(d.featured), Some(d.date), Some(d.trade))
  }

  /** Saving a valid job's fields again reproduces it (up to id and times). */
  lemma {:induction false} CastRoundTrip(d: JobDoc, now: Time, today: string)
    requires Valid(d)
    ensures Cast(ToInput(d), d.id, now, today) == Some(d.(createdAt := now, updatedAt := now))
  {
    var input := ToInput(d);
    assert Accepted(input) by {
      CleanNotBlank(d.title);
      CleanNotBlank(d.company);
      CleanNotBlank(d.location);
      CleanNotBlank(d.country);
      CleanNotBlank(d.salary);
      CleanNotBlank(d.description);
      CleanNotBlank(d.jobType);
      CleanNotBlank(d.experience);
      CleanNotBlank(d.trade);
    }
    CastResult(input, d.id, now, today);
  }

  lemma CleanNotBlank(s: string)
    requires Clean(s)
    ensures !AllSpace(s)
  {
    TrimEmptyIff(s);
  }

  /** A title of only blanks is refused: it is empty after trimming. */
  lemma {:induction false} BlankTitleRejected(input: JobInput, id: ObjectId, now: Time, today: string)
    requires input.title.Some? && AllSpace(input.title.value)
    ensures Cast(input, id, now, today) == None
  {
    TrimEmptyIff(input.title.value);
  }

  /** Arrays are not required to be non-empty: a job with no
      responsibilities, requirements or benefits at all is accepted. */
  lemma EmptyArraysAccepted(input: JobInput, id: ObjectId, now: Time, today: string)
    requires Accepted(input.(responsibilities := None, requirements := Some([]), benefits := Some([])))
    ensures Cast(input.(responsibilities := None, requirements := Some([]), benefits := Some([])), id, now, today).Some?
  {
  }
}
