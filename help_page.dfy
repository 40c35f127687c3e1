/** The administrators' help page (app/admin/help/page.tsx): the FAQ list
    filtered by a search box and a category, and the support-ticket form
    that posts to the help-ticket endpoint. */
module HelpPage {
  import opened Common
  import opened Text
  import opened Tokens
  import opened Http
  import opened Database
  import HelpRoute

  // ---------------------------------------------------------------------------
  // FAQ filter

  datatype Faq = Faq(id: string, question: string, answer: string, category: string)

  /** The category value that selects every FAQ. */
  const AllCategories := "all"

  /** The filter's test: the question or the answer contains the search
      ignoring case, and the category is 'all' or the FAQ's own. */
  predicate Shown(search: string, category: string, f: Faq) {
    (ContainsCI(f.question, search) || ContainsCI(f.answer, search)) &&
    (category == AllCategories || f.category == category)
  }

  function Shows(search: string, category: string): Faq -> bool {
    f => Shown(search, category, f)
  }

  /** `filteredFAQs`. */
  function FilteredFaqs(faqs: seq<Faq>, search: string, category: string): (r: seq<Faq>)
    ensures IsSubsequence(r, faqs)
    ensures forall f :: f in r <==> f in faqs && Shown(search, category, f)
  {
    Filter(faqs, Shows(search, category))
  }

  /** With an empty search and every category, every FAQ is shown, in
      order. */
  lemma {:induction false} NoFilterShowsAll(faqs: seq<Faq>)
    ensures FilteredFaqs(faqs, "", AllCategories) == faqs
  {
    forall f | f in faqs ensures Shows("", AllCategories)(f) {
      ContainsEmpty(Lower(f.question));
    }
    FilterKeepsAll(faqs, Shows("", AllCategories));
  }

  /** Choosing a category only ever hides FAQs of other categories. */
  lemma CategoryNarrows(faqs: seq<Faq>, search: string, category: string, f: Faq)
    requires f in FilteredFaqs(faqs, search, category)
    ensures f in FilteredFaqs(faqs, search, AllCategories)
    ensures category != AllCategories ==> f.category == category
  {
  }

  // ---------------------------------------------------------------------------
  // Support ticket

  /** The form's fields. */
  datatype TicketForm = TicketForm(subject: string, message: string, priority: string)

  /** The form as it starts, and as a successful submit leaves it. */
  const EmptyTicket := TicketForm("", "", "medium")

  /** The body the form posts: subject, message and priority, and no
      problem type. */
  function Payload(t: TicketForm): (b: HelpRoute.TicketRequest)
    ensures b.problemType == None
    ensures b.subject == Some(t.subject) && b.message == Some(t.message) && b.priority == Some(t.priority)
  {
    HelpRoute.TicketRequest(None, Some(t.subject), Some(t.message), Some(t.priority))
  }

  /** `data.success` of an answer. */
  predicate Succeeded(r: Response) {
    r.body.JObj? && "success" in r.body.fields && r.body.fields["success"] == JBool(true)
  }

  /** The page never gets a ticket filed: its body lacks the problem type
      the endpoint requires, so an administrator's request is refused with
      400 and every answer reports failure. */
  lemma PagePayloadRefused(users: seq<User>, token: Option<Token>, env: Env, t: TicketForm)
    ensures var s := HelpRoute.Submitter(users, token, env, Payload(t));
      s.Err? && !Succeeded(s.error) &&
      (HelpRoute.Gate(token, env).Ok? ==> s.error.status == 400)
  {
  }

  /** The page's state around the ticket form. */
  class HelpPageState {
    var ticket: TicketForm
    var showContactForm: bool
    var submitting: bool

    constructor ()
      ensures ticket == EmptyTicket && !showContactForm && !submitting
    {
      ticket := EmptyTicket;
      showContactForm := false;
      submitting := false;
    }

    /** Typing in the form. */
    method Edit(t: TicketForm)
      modifies this
      ensures ticket == t && showContactForm == old(showContactForm) && submitting == old(submitting)
    {
      ticket := t;
    }

    /** `handleContactSubmit` with the server's answer, `None` when the
        request fails. Only a successful answer clears and closes the
        form. */
    method Submit(answer: Option<Response>)
      modifies this
      ensures !submitting
      ensures answer.Some? && Succeeded(answer.value) ==> ticket == EmptyTicket && !showContactForm
      ensures !(answer.Some? && Succeeded(answer.value)) ==>
        ticket == old(ticket) && showContactForm == old(showContactForm)
    {
      submitting := true;
      if answer.Some? && Succeeded(answer.value) {
        ticket := EmptyTicket;
        showContactForm := false;
      }
      submitting := false;
    }
  }
}
