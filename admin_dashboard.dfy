/** The administrators' job dashboard (app/admin/page.tsx): the job form's
    validation schema, the helpers that add and remove entries of the
    form's three lists, the search box that narrows the displayed list, and
    the state changes after a submit or a deletion. Network calls are
    inputs: a fetch's outcome is `Some(jobs)` when the server answered with
    `success`, `None` otherwise. */
module AdminDashboard {
  import opened Common
  import opened Text
  import JobSchema

  type JobDoc = JobSchema.JobDoc

  // ---------------------------------------------------------------------------
  // The job form

  /** The form's values (`type` is `jobType`). */
  datatype JobForm = JobForm(
    title: string, company: string, location: string, country: string, salary: string,
    description: string, responsibilities: seq<string>, requirements: seq<string>,
    benefits: seq<string>, jobType: string, experience: string, featured: bool,
    date: string, trade: string)

  /** The empty form, dated `today`. */
  function EmptyForm(today: string): (f: JobForm)
    ensures f.title == "" && f.responsibilities == [] && f.date == today && !f.featured
  {
    JobForm("", "", "", "", "", "", [], [], [], "", "", false, today, "")
  }

  /** The values of a stored job, as loaded into the form for editing. */
  function FormOf(d: JobDoc): (f: JobForm)
    ensures f.title == d.title && f.responsibilities == d.responsibilities && f.date == d.date
  {
    JobForm(d.title, d.company, d.location, d.country, d.salary, d.description,
            d.responsibilities, d.requirements, d.benefits, d.jobType, d.experience,
            d.featured, d.date, d.trade)
  }

  /** `jobFormSchema`: eight strings of at least 2 characters, a description
      of at least 10, and at least one entry in each list. Lengths count
      characters; nothing is trimmed. */
  predicate FormValid(f: JobForm) {
    |f.title| >= 2 && |f.company| >= 2 && |f.location| >= 2 && |f.country| >= 2 &&
    |f.salary| >= 2 && |f.description| >= 10 &&
    |f.responsibilities| >= 1 && |f.requirements| >= 1 && |f.benefits| >= 1 &&
    |f.jobType| >= 2 && |f.experience| >= 2 && |f.trade| >= 2
  }

  /** The body the form posts, as the job schema receives it. */
  function Payload(f: JobForm): (input: JobSchema.JobInput)
    ensures input.title == Some(f.title) && input.responsibilities == Some(f.responsibilities)
  {
    JobSchema.JobInput(Some(f.title), Some(f.company), Some(f.location), Some(f.country),
      Some(f.salary), Some(f.description), Some(f.responsibilities), Some(f.requirements),
      Some(f.benefits), Some(f.jobType), Some(f.experience), Some(f.featured), Some(f.date),
      Some(f.trade))
  }

  /** The form and the schema disagree both ways: a title of two blanks
      passes the form and is refused by the schema, which trims first; a job
      with no responsibilities is refused by the form and accepted by the
      schema. */
  lemma {:induction false} FormAndSchemaDisagree(f: JobForm)
    requires FormValid(f)
    ensures !JobSchema.Accepted(Payload(f.(title := "  ")))
    ensures FormValid(f.(title := "  "))
    ensures JobSchema.Accepted(Payload(f)) ==> JobSchema.Accepted(Payload(f.(responsibilities := [])))
    ensures !FormValid(f.(responsibilities := []))
  {
    assert AllSpace("  ") by {
      assert IsSpace("  "[0]) && IsSpace("  "[1]);
    }
  }

  // ---------------------------------------------------------------------------
  // List entries

  /** Every entry is non-blank and already trimmed: what the add helpers
      put in a list. */
  predicate CleanEntries(items: seq<string>) {
    forall k :: 0 <= k < |items| ==> JobSchema.Clean(items[k])
  }

  /** A list and its text box after an add. */
  datatype Entry = Entry(items: seq<string>, input: string)

  /** `addResponsibility` and its two twins: a non-blank input is appended
      trimmed and the box cleared; a blank one changes nothing. */
  function AddEntry(items: seq<string>, input: string): (r: Entry)
    ensures |items| <= |r.items| <= |items| + 1
    ensures Trim(input) != "" <==> |r.items| == |items| + 1
    ensures r.items[..|items|] == items
    ensures Trim(input) != "" ==> r.items[|items|] == Trim(input) && r.input == ""
    ensures Trim(input) == "" ==> r == Entry(items, input)
    ensures CleanEntries(items) ==> CleanEntries(r.items)
  {
    var t := Trim(input);
    if t != "" then
      TrimIdempotent(input);
      assert JobSchema.Clean(t);
      var next := items + [t];
      assert next[..|items|] == items;
      AppendClean(items, t);
      Entry(next, "")
    else
      assert items[..|items|] == items;
      Entry(items, input)
  }

  /** Appending a clean entry keeps a list clean. */
  lemma {:induction false} AppendClean(items: seq<string>, t: string)
    requires JobSchema.Clean(t)
    ensures CleanEntries(items) ==> CleanEntries(items + [t])
  {
    var next := items + [t];
    if CleanEntries(items) {
      forall k | 0 <= k < |next| ensures JobSchema.Clean(next[k]) {
        if k < |items| {
          assert next[k] == items[k];
        }
      }
    }
  }

  /** `removeResponsibility(index)` and its twins:
      `items.filter((_, i) => i !== index)`. */
  function RemoveEntry(items: seq<string>, index: int): (r: seq<string>)
    ensures 0 <= index < |items| ==> |r| == |items| - 1
    ensures !(0 <= index < |items|) ==> r == items
    ensures forall k :: 0 <= k < |r| && k < index ==> r[k] == items[k]
    ensures forall k :: 0 <= index <= k < |r| ==> r[k] == items[k + 1]
  {
    if 0 <= index < |items| then items[..index] + items[index + 1..] else items
  }

  /** Removing keeps the entries clean. */
  lemma {:induction false} RemoveKeepsClean(items: seq<string>, index: int)
    requires CleanEntries(items)
    ensures CleanEntries(RemoveEntry(items, index))
  {
    var r := RemoveEntry(items, index);
    forall k | 0 <= k < |r| ensures JobSchema.Clean(r[k]) {
      if k < index || index < 0 {
        assert r[k] == items[k];
      } else {
        assert r[k] == items[k + 1];
      }
    }
  }

  /** Removing the entry just added gives the list back. */
  lemma {:induction false} RemoveUndoesAdd(items: seq<string>, input: string)
    requires Trim(input) != ""
    ensures RemoveEntry(AddEntry(items, input).items, |items|) == items
  {
    var added := AddEntry(items, input).items;
    assert added[..|items|] == items;
  }

  /** Lists built by the helpers always pass the job schema's check on
      array entries. */
  lemma {:induction false} CleanEntriesPresent(items: seq<string>)
    requires CleanEntries(items)
    ensures JobSchema.EntriesPresent(Some(items))
  {
  }

  // ---------------------------------------------------------------------------
  // Search

  /** The search effect's test: title, company or location contains the
      term, ignoring case. */
  predicate SearchHit(term: string, d: JobDoc) {
    ContainsCI(d.title, term) || ContainsCI(d.company, term) || ContainsCI(d.location, term)
  }

  function Hit(term: string): JobDoc -> bool {
    d => SearchHit(term, d)
  }

  /** `jobList.filter(...)` for a term. */
  function Narrow(jobs: seq<JobDoc>, term: string): (r: seq<JobDoc>)
    ensures IsSubsequence(r, jobs)
    ensures forall d :: d in r <==> d in jobs && SearchHit(term, d)
  {
    Filter(jobs, Hit(term))
  }

  /** A job that matches a longer term matches every term inside it. */
  lemma {:induction false} HitWeakens(longer: string, shorter: string, d: JobDoc)
    requires ContainsCI(longer, shorter) && SearchHit(longer, d)
    ensures SearchHit(shorter, d)
  {
    if ContainsCI(d.title, longer) {
      ContainsCITransitive(d.title, longer, shorter);
    } else if ContainsCI(d.company, longer) {
      ContainsCITransitive(d.company, longer, shorter);
    } else {
      ContainsCITransitive(d.location, longer, shorter);
    }
  }

  /** Typing on: narrowing the narrowed list by a longer term is narrowing
      the original list by it. */
  lemma {:induction false} TypingNarrowsCumulatively(jobs: seq<JobDoc>, shorter: string, longer: string)
    requires ContainsCI(longer, shorter)
    ensures Narrow(Narrow(jobs, shorter), longer) == Narrow(jobs, longer)
  {
    forall d ensures Hit(longer)(d) == (Hit(shorter)(d) && Hit(longer)(d)) {
      if SearchHit(longer, d) {
        HitWeakens(longer, shorter, d);
      }
    }
    FilterTwice(jobs, Hit(shorter), Hit(longer), Hit(longer));
  }

  /** Deleting characters does not bring jobs back: narrowing by a shorter
      term after a longer one leaves the list as the longer term left it,
      until the box is cleared and the list refetched. */
  lemma {:induction false} BackspaceKeepsNarrowList(jobs: seq<JobDoc>, shorter: string, longer: string)
    requires ContainsCI(longer, shorter)
    ensures Narrow(Narrow(jobs, longer), shorter) == Narrow(jobs, longer)
  {
    forall d ensures Hit(longer)(d) == (Hit(longer)(d) && Hit(shorter)(d)) {
      if SearchHit(longer, d) {
        HitWeakens(longer, shorter, d);
      }
    }
    FilterTwice(jobs, Hit(longer), Hit(shorter), Hit(longer));
  }

  // ---------------------------------------------------------------------------
  // Page state

  /** The form's three lists. */
  datatype ListField = Responsibilities | Requirements | Benefits

  function ItemsOf(f: JobForm, which: ListField): seq<string> {
    match which
    case Responsibilities => f.responsibilities
    case Requirements => f.requirements
    case Benefits => f.benefits
  }

  function WithItems(f: JobForm, which: ListField, items: seq<string>): (g: JobForm)
    ensures ItemsOf(g, which) == items
    ensures forall other :: other != which ==> ItemsOf(g, other) == ItemsOf(f, other)
  {
    match which
    case Responsibilities => f.(responsibilities := items)
    case Requirements => f.(requirements := items)
    case Benefits => f.(benefits := items)
  }

  /** The dashboard component's state. `defaults` is what `form.reset()`
      restores: the mount-time defaults, or the values of the last job
      loaded for editing (react-hook-form's `reset(values)` makes them the
      new defaults). */
  class Dashboard {
    var jobList: seq<JobDoc>
    var searchTerm: string
    var isLoading: bool
    var addOpen: bool
    var editOpen: bool
    var deleteOpen: bool
    var selectedJob: Option<JobDoc>
    var inputs: map<ListField, string>
    var form: JobForm
    var defaults: JobForm

    /** Each list has its text box. */
    ghost predicate Valid()
      reads this
    {
      Responsibilities in inputs && Requirements in inputs && Benefits in inputs
    }

    /** The state at mount, with the first fetch's outcome. */
    constructor (today: string, fetched: Option<seq<JobDoc>>)
      ensures Valid()
      ensures jobList == (if fetched.Some? then fetched.value else [])
      ensures searchTerm == "" && !isLoading && !addOpen && !editOpen && !deleteOpen
      ensures selectedJob == None && form == EmptyForm(today) && defaults == EmptyForm(today)
      ensures inputs == map[Responsibilities := "", Requirements := "", Benefits := ""]
    {
      jobList := if fetched.Some? then fetched.value else [];
      searchTerm := "";
      isLoading := false;
      addOpen, editOpen, deleteOpen := false, false, false;
      selectedJob := None;
      inputs := map[Responsibilities := "", Requirements := "", Benefits := ""];
      form := EmptyForm(today);
      defaults := EmptyForm(today);
    }

    /** `fetchJobs()`: the list is replaced only when the server answered
        with `success`. */
    method Fetch(fetched: Option<seq<JobDoc>>)
      modifies this
      ensures jobList == (if fetched.Some? then fetched.value else old(jobList))
      ensures !isLoading
      ensures searchTerm == old(searchTerm) && form == old(form) && defaults == old(defaults)
      ensures inputs == old(inputs) && selectedJob == old(selectedJob)
      ensures addOpen == old(addOpen) && editOpen == old(editOpen) && deleteOpen == old(deleteOpen)
    {
      isLoading := true;
      if fetched.Some? {
        jobList := fetched.value;
      }
      isLoading := false;
    }

    /** The `+` button next to one of the lists. */
    method AddItem(which: ListField)
      requires Valid()
      modifies this
      ensures Valid()
      ensures var e := AddEntry(ItemsOf(old(form), which), old(inputs)[which]);
        form == WithItems(old(form), which, e.items) && inputs == old(inputs)[which := e.input]
      ensures jobList == old(jobList) && searchTerm == old(searchTerm) && defaults == old(defaults)
      ensures selectedJob == old(selectedJob) && isLoading == old(isLoading)
      ensures addOpen == old(addOpen) && editOpen == old(editOpen) && deleteOpen == old(deleteOpen)
    {
      var e := AddEntry(ItemsOf(form, which), inputs[which]);
      form := WithItems(form, which, e.items);
      inputs := inputs[which := e.input];
    }

    /** The remove button of entry `index` of one of the lists. */
    method RemoveItem(which: ListField, index: int)
      requires Valid()
      modifies this
      ensures Valid()
      ensures form == WithItems(old(form), which, RemoveEntry(ItemsOf(old(form), which), index))
      ensures jobList == old(jobList) && searchTerm == old(searchTerm) && defaults == old(defaults)
      ensures inputs == old(inputs) && selectedJob == old(selectedJob) && isLoading == old(isLoading)
      ensures addOpen == old(addOpen) && editOpen == old(editOpen) && deleteOpen == old(deleteOpen)
    {
      form := WithItems(form, which, RemoveEntry(ItemsOf(form, which), index));
    }

    /** Typing in the search box. A non-empty term narrows the list that is
        displayed; an empty one refetches it. Nothing happens while a fetch
        is in flight. */
    method Search(term: string, fetched: Option<seq<JobDoc>>)
      modifies this
      ensures searchTerm == term
      ensures old(isLoading) ==> jobList == old(jobList)
      ensures !old(isLoading) && term != "" ==> jobList == Narrow(old(jobList), term)
      ensures !old(isLoading) && term == "" ==>
        jobList == (if fetched.Some? then fetched.value else old(jobList))
      ensures form == old(form) && defaults == old(defaults) && inputs == old(inputs)
      ensures selectedJob == old(selectedJob) && isLoading == old(isLoading)
      ensures addOpen == old(addOpen) && editOpen == old(editOpen) && deleteOpen == old(deleteOpen)
    {
      searchTerm := term;
      if term != "" && !isLoading {
        jobList := Narrow(jobList, term);
      } else if term == "" && !isLoading {
        Fetch(fetched);
      }
    }

    /** The edit button of a row. */
    method EditJob(d: JobDoc)
      requires Valid()
      modifies this
      ensures Valid()
      ensures selectedJob == Some(d) && form == FormOf(d) && defaults == FormOf(d) && editOpen
      ensures jobList == old(jobList) && searchTerm == old(searchTerm) && inputs == old(inputs)
      ensures isLoading == old(isLoading) && addOpen == old(addOpen) && deleteOpen == old(deleteOpen)
    {
      selectedJob := Some(d);
      form := FormOf(d);
      defaults := FormOf(d);
      editOpen := true;
    }

    /** A submit of the form (`onSubmit`). `serverOk` is the `success` of the
        POST or PUT answer; `throws` is a network failure, after which only
        the toast appears. Otherwise the form is reset and both dialogs are
        closed whatever the server said, and the list is refetched when it
        said yes. */
    method Submit(serverOk: bool, throws: bool, fetched: Option<seq<JobDoc>>)
      requires Valid()
      modifies this
      ensures Valid()
      ensures throws ==>
        form == old(form) && selectedJob == old(selectedJob) && jobList == old(jobList) &&
        addOpen == old(addOpen) && editOpen == old(editOpen)
      ensures !throws ==> form == old(defaults) && selectedJob == None && !addOpen && !editOpen
      ensures !throws && serverOk && fetched.Some? ==> jobList == fetched.value
      ensures !throws && !(serverOk && fetched.Some?) ==> jobList == old(jobList)
      ensures isLoading == if !throws && serverOk then false else old(isLoading)
      ensures defaults == old(defaults) && inputs == old(inputs) && searchTerm == old(searchTerm)
      ensures deleteOpen == old(deleteOpen)
    {
      if throws {
        return;
      }
      if serverOk {
        Fetch(fetched);
      }
      form := defaults;
      addOpen := false;
      editOpen := false;
      selectedJob := None;
    }

    /** The delete button of a row. */
    method DeleteJobClick(d: JobDoc)
      modifies this
      ensures selectedJob == Some(d) && deleteOpen
      ensures jobList == old(jobList) && searchTerm == old(searchTerm) && inputs == old(inputs)
      ensures form == old(form) && defaults == old(defaults) && isLoading == old(isLoading)
      ensures addOpen == old(addOpen) && editOpen == old(editOpen)
    {
      selectedJob := Some(d);
      deleteOpen := true;
    }

    /** Confirming a deletion (`handleDeleteJob`): nothing without a
        selected job; after an answer the dialog closes and the selection is
        cleared whatever the server said. */
    method DeleteJob(serverOk: bool, throws: bool, fetched: Option<seq<JobDoc>>)
      modifies this
      ensures old(selectedJob).None? || throws ==>
        selectedJob == old(selectedJob) && deleteOpen == old(deleteOpen) && jobList == old(jobList)
      ensures old(selectedJob).Some? && !throws ==> selectedJob == None && !deleteOpen
      ensures old(selectedJob).Some? && !throws && serverOk && fetched.Some? ==> jobList == fetched.value
      ensures !(old(selectedJob).Some? && !throws && serverOk && fetched.Some?) ==> jobList == old(jobList)
      ensures isLoading == if old(selectedJob).Some? && !throws && serverOk then false else old(isLoading)
      ensures form == old(form) && defaults == old(defaults) && inputs == old(inputs)
      ensures searchTerm == old(searchTerm) && addOpen == old(addOpen) && editOpen == old(editOpen)
    {
      if selectedJob.None? || throws {
        return;
      }
      if serverOk {
        Fetch(fetched);
      }
      deleteOpen := false;
      selectedJob := None;
    }
  }
}
