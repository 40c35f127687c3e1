/** The help-ticket schema (models/HelpTicket.ts): six required strings, a
    priority and a status each restricted to four values with a default, and
    automatic `createdAt`/`updatedAt`. */
module HelpTicketSchema {
  import opened Common

  datatype TicketInput = TicketInput(
    userId: Option<string>, userEmail: Option<string>, userName: Option<string>,
    problemType: Option<string>, subject: Option<string>, message: Option<string>,
    priority: Option<string>, status: Option<string>)

  datatype TicketDoc = TicketDoc(
    id: ObjectId, userId: string, userEmail: string, userName: string,
    problemType: string, subject: string, message: string,
    priority: string, status: string, createdAt: Time, updatedAt: Time)

  const Priorities: set<string> := {"low", "medium", "high", "urgent"}
  const TicketStatuses: set<string> := {"open", "in-progress", "resolved", "closed"}

  predicate Valid(d: TicketDoc) {
    d.userId != "" && d.userEmail != "" && d.userName != "" && d.problemType != "" &&
    d.subject != "" && d.message != "" && d.priority in Priorities && d.status in TicketStatuses
  }

  /** `new HelpTicket(input).save()` at time `now`. */
  function Cast(input: TicketInput, id: ObjectId, now: Time): (r: Option<TicketDoc>)
    ensures r.Some? <==>
      Given(input.userId) && Given(input.userEmail) && Given(input.userName) &&
      Given(input.problemType) && Given(input.subject) && Given(input.message) &&
      (input.priority.None? || input.priority.value in Priorities) &&
      (input.status.None? || input.status.value in TicketStatuses)
    ensures r.Some? ==> Valid(r.value) && r.value.id == id
    ensures r.Some? ==> r.value.priority == (if input.priority.Some? then input.priority.value else "medium")
    ensures r.Some? ==> r.value.status == (if input.status.Some? then input.status.value else "open")
    ensures r.Some? ==> r.value.createdAt == now && r.value.updatedAt == now
  {
    var priority := if input.priority.Some? then input.priority.value else "medium";
    var status := if input.status.Some? then input.status.value else "open";
    if Given(input.userId) && Given(input.userEmail) && Given(input.userName) &&
       Given(input.problemType) && Given(input.subject) && Given(input.message) &&
       priority in Priorities && status in TicketStatuses
    then
      Some(TicketDoc(id, input.userId.value, input.userEmail.value, input.userName.value,
                     input.problemType.value, input.subject.value, input.message.value,
                     priority, status, now, now))
    else None
  }

  function ToInput(d: TicketDoc): TicketInput {
    TicketInput(Some(d.userId), Some(d.userEmail), Some(d.userName), Some(d.problemType),
                Some(d.subject), Some(d.message), Some(d.priority), Some(d.status))
  }

  /** Saving a valid ticket's fields again reproduces it (up to the times). */
  lemma CastRoundTrip(d: TicketDoc, now: Time)
    requires Valid(d)
    ensures Cast(ToInput(d), d.id, now) == Some(d.(createdAt := now, updatedAt := now))
  {
  }

  /** An unknown priority is refused rather than replaced by the default. */
  lemma UnknownPriorityRejected(input: TicketInput, id: ObjectId, now: Time)
    requires input.priority.Some? && input.priority.value !in Priorities
    ensures Cast(input, id, now) == None
  {
  }
}
