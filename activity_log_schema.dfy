/** The activity-log schema (models/ActivityLog.ts): four required strings,
    two optional ones, a timestamp defaulting to now and a status restricted
    to three values. No automatic `createdAt`/`updatedAt`. */
module ActivityLogSchema {
  import opened Common

  /** What a handler passes to `new ActivityLog({...})`; `None` is a field
      that is left out or set to `null`. */
  datatype LogInput = LogInput(
    userId: Option<string>, action: Option<string>, resource: Option<string>,
    details: Option<string>, ipAddress: Option<string>, userAgent: Option<string>,
    timestamp: Option<Time>, status: Option<string>)

  /** A stored activity-log document. */
  datatype LogDoc = LogDoc(
    id: ObjectId, userId: string, action: string, resource: string, details: string,
    ipAddress: Option<string>, userAgent: Option<string>, timestamp: Time, status: string)

  const Statuses: set<string> := {"success", "error", "warning"}

  /** What the schema guarantees of every stored log. */
  predicate Valid(d: LogDoc) {
    d.userId != "" && d.action != "" && d.resource != "" && d.details != "" &&
    d.status in Statuses
  }

  /** Document construction and validation: defaults for the missing
      timestamp and status, then the `required` and `enum` validators.
      `None` is the validation error that makes `save()` throw. */
  function Cast(input: LogInput, id: ObjectId, now: Time): (r: Option<LogDoc>)
    ensures r.Some? <==>
      Given(input.userId) && Given(input.action) && Given(input.resource) &&
      Given(input.details) && (input.status.None? || input.status.value in Statuses)
    ensures r.Some? ==> Valid(r.value) && r.value.id == id
    ensures r.Some? ==> r.value.timestamp == (if input.timestamp.Some? then input.timestamp.value else now)
    ensures r.Some? ==> r.value.status == (if input.status.Some? then input.status.value else "success")
    ensures r.Some? ==> r.value.details == input.details.value && r.value.action == input.action.value
  {
    var status := if input.status.Some? then input.status.value else "success";
    var timestamp := if input.timestamp.Some? then input.timestamp.value else now;
    if Given(input.userId) && Given(input.action) && Given(input.resource) && Given(input.details)
       && status in Statuses
    then
      Some(LogDoc(id, input.userId.value, input.action.value, input.resource.value,
                  input.details.value, input.ipAddress, input.userAgent, timestamp, status))
    else None
  }

  /** The fields of a stored document, as they would be passed back in. */
  function ToInput(d: LogDoc): LogInput {
    LogInput(Some(d.userId), Some(d.action), Some(d.resource), Some(d.details),
             d.ipAddress, d.userAgent, Some(d.timestamp), Some(d.status))
  }

  /** Every valid document is accepted unchanged: the schema adds nothing to
      a document that already satisfies it. */
  lemma CastRoundTrip(d: LogDoc, now: Time)
    requires Valid(d)
    ensures Cast(ToInput(d), d.id, now) == Some(d)
  {
  }

  /** A log written with status `'failed'` (as on a failed login) or
      `'SUCCESS'` (as on a new success story) is refused, whatever else it
      holds; so is one with a null user. */
  lemma RejectedInputs(input: LogInput, id: ObjectId, now: Time)
    ensures input.status == Some("failed") ==> Cast(input, id, now) == None
    ensures input.status == Some("SUCCESS") ==> Cast(input, id, now) == None
    ensures input.userId == None ==> Cast(input, id, now) == None
  {
  }

  /** An accepted log without an explicit status or time records `'success'`
      at the moment of saving. */
  lemma Defaults(input: LogInput, id: ObjectId, now: Time)
    requires input.status == None && input.timestamp == None
    requires Cast(input, id, now).Some?
    ensures Cast(input, id, now).value.status == "success"
    ensures Cast(input, id, now).value.timestamp == now
  {
  }
}
