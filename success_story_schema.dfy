/** The success-story schema (models/SuccessStory.ts): four trimmed names of
    at most 100 characters, a required image path, a trimmed testimonial of
    at most 1000 characters, a rating from 1 to 5, the creating user, and
    automatic `createdAt`/`updatedAt`. */
module SuccessStorySchema {
  import opened Common
  import opened Text

  datatype StoryInput = StoryInput(
    customerName: Option<string>, customerImage: Option<string>, jobTitle: Option<string>,
    company: Option<string>, location: Option<string>, testimonial: Option<string>,
    rating: Option<int>, createdBy: Option<ObjectId>)

  datatype StoryDoc = StoryDoc(
    id: ObjectId, customerName: string, customerImage: string, jobTitle: string,
    company: string, location: string, testimonial: string, rating: int,
    createdBy: ObjectId, createdAt: Time, updatedAt: Time)

  const NameMax := 100
  const TestimonialMax := 1000

  /** A `required`, `trim`, `maxlength` string, judged after trimming. */
  predicate TrimmedWithin(o: Option<string>, max: nat) {
    o.Some? && Trim(o.value) != "" && |Trim(o.value)| <= max
  }

  predicate CleanWithin(s: string, max: nat) {
    s != "" && Trim(s) == s && |s| <= max
  }

  predicate Valid(d: StoryDoc) {
    CleanWithin(d.customerName, NameMax) && CleanWithin(d.jobTitle, NameMax) &&
    CleanWithin(d.company, NameMax) && CleanWithin(d.location, NameMax) &&
    CleanWithin(d.testimonial, TestimonialMax) && d.customerImage != "" &&
    1 <= d.rating <= 5 && d.createdBy != ""
  }

  predicate Accepted(input: StoryInput) {
    TrimmedWithin(input.customerName, NameMax) && TrimmedWithin(input.jobTitle, NameMax) &&
    TrimmedWithin(input.company, NameMax) && TrimmedWithin(input.location, NameMax) &&
    TrimmedWithin(input.testimonial, TestimonialMax) && Given(input.customerImage) &&
    input.rating.Some? && 1 <= input.rating.value <= 5 && Given(input.createdBy)
  }

  /** `new SuccessStory(input).save()` at time `now`. */
  function Cast(input: StoryInput, id: ObjectId, now: Time): (r: Option<StoryDoc>)
    ensures r.Some? <==> Accepted(input)
    ensures r.Some? ==> r.value.id == id && r.value.createdAt == now && r.value.updatedAt == now
  {
    if Accepted(input) then
      Some(StoryDoc(id, Trim(input.customerName.value), input.customerImage.value,
                    Trim(input.jobTitle.value), Trim(input.company.value),
                    Trim(input.location.value), Trim(input.testimonial.value),
                    input.rating.value, input.createdBy.value, now, now))
    else None
  }

  /** What an accepted story looks like once stored: valid, with trimmed
      names and testimonial, and the given image, rating and creator. */
  lemma {:induction false} CastResult(input: StoryInput, id: ObjectId, now: Time)
    requires Accepted(input)
    ensures Cast(input, id, now).Some?
    ensures Valid(Cast(input, id, now).value)
    ensures var d := Cast(input, id, now).value;
      d.customerName == Trim(input.customerName.value) && d.jobTitle == Trim(input.jobTitle.value) &&
      d.company == Trim(input.company.value) && d.location == Trim(input.location.value) &&
      d.testimonial == Trim(input.testimonial.value)
    ensures Cast(input, id, now).value.customerImage == input.customerImage.value
    ensures Cast(input, id, now).value.rating == input.rating.value
    ensures Cast(input, id, now).value.createdBy == input.createdBy.value
  {
    TrimIdempotent(input.customerName.value);
    TrimIdempotent(input.jobTitle.value);
    TrimIdempotent(input.company.value);
    TrimIdempotent(input.location.value);
    TrimIdempotent(input.testimonial.value);
  }

  function ToInput(d: StoryDoc): StoryInput {
    StoryInput(Some(d.customerName), Some(d.customerImage), Some(d.jobTitle), Some(d.company),
               Some(d.location), Some(d.testimonial), Some(d.rating), Some(d.createdBy))
  }

  /** Saving a valid story's fields again reproduces it (up to the times). */
  lemma {:induction false} CastRoundTrip(d: StoryDoc, now: Time)
    requires Valid(d)
    ensures Cast(ToInput(d), d.id, now) == Some(d.(createdAt := now, updatedAt := now))
  {
    var input := ToInput(d);
    assert Accepted(input);
    CastResult(input, d.id, now);
  }

  /** The length limit applies to the trimmed value: surrounding blanks do
      not count against it. */
  lemma {:induction false} LimitAfterTrim(name: string, id: ObjectId, now: Time, input: StoryInput)
    requires input.customerName == Some(name) && |name| > NameMax
    requires Trim(name) != "" && |Trim(name)| <= NameMax
    requires Accepted(input.(customerName := Some(Trim(name))))
    ensures Cast(input, id, now).Some?
  {
  }

  /** Ratings outside 1..5 are refused. */
  lemma RatingOutOfRange(input: StoryInput, id: ObjectId, now: Time)
    requires input.rating.Some? && (input.rating.value < 1 || input.rating.value > 5)
    ensures Cast(input, id, now) == None
  {
  }
}
