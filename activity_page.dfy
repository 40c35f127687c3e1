/** The administrators' activity page (app/admin/activity/page.tsx): it
    turns the filters into the query of the activity endpoint, pages
    through the answer ten logs at a time with clamped Previous/Next
    buttons, and labels each log by status and device. */
module ActivityPage {
  import opened Common
  import opened Text
  import opened Http
  import opened Database
  import ActivityLogSchema
  import ActivityRoute

  type LogDoc = ActivityLogSchema.LogDoc

  const ItemsPerPage := 10

  /** The filter controls. */
  datatype Filters = Filters(page: int, status: string, action: string, search: string)

  /** The query string: page and limit always, status and action unless
      'all', search unless empty. */
  function QueryParams(f: Filters): (p: ActivityRoute.ActivityParams)
    ensures p.page == Some(f.page) && p.limit == Some(ItemsPerPage)
    ensures p.status.Some? <==> f.status != "all"
    ensures p.action.Some? <==> f.action != "all"
    ensures p.search.Some? <==> f.search != ""
    ensures p.status.Some? ==> p.status.value == f.status
    ensures p.action.Some? ==> p.action.value == f.action
    ensures p.search.Some? ==> p.search.value == f.search
  {
    ActivityRoute.ActivityParams(
      Some(f.page), Some(ItemsPerPage),
      if f.status != "all" then Some(f.status) else None,
      if f.action != "all" then Some(f.action) else None,
      if f.search != "" then Some(f.search) else None)
  }

  /** Leaving out an 'all' or an empty parameter selects the same logs as
      sending it: the endpoint ignores those values too. */
  lemma {:induction false} OmittedParamsIgnored(f: Filters, d: LogDoc)
    ensures ActivityRoute.Selected(QueryParams(f), d) ==
      ActivityRoute.Selected(ActivityRoute.ActivityParams(Some(f.page), Some(ItemsPerPage),
        Some(f.status), Some(f.action), Some(f.search)), d)
  {
  }

  /** A page number from the buttons (never below 1) never makes the
      endpoint's skip negative. */
  lemma PageRequestsAreServed(logs: seq<LogDoc>, f: Filters)
    requires f.page >= 1
    ensures ActivityRoute.Page(logs, QueryParams(f)).Some?
  {
  }

  /** `Math.ceil(total / itemsPerPage)`. */
  function PageCount(total: nat): (n: nat)
    ensures total <= n * ItemsPerPage
    ensures n > 0 ==> (n - 1) * ItemsPerPage < total
  {
    CeilDiv(total, ItemsPerPage)
  }

  /** The page's count of pages is the one the endpoint announces. */
  lemma TotalPagesAgree(total: nat)
    ensures JNum(PageCount(total)) == TotalPages(total, ItemsPerPage)
  {
  }

  /** The Previous button. */
  function Previous(page: int): (r: int)
    ensures r >= 1 && r <= if page > 1 then page else 1
    ensures page > 1 ==> r == page - 1
  {
    if page - 1 > 1 then page - 1 else 1
  }

  /** The Next button. */
  function Next(page: int, totalPages: int): (r: int)
    ensures r <= totalPages && r <= page + 1
    ensures page + 1 <= totalPages ==> r == page + 1
  {
    if page + 1 < totalPages then page + 1 else totalPages
  }

  /** From any page in range, both buttons stay in range, and each undoes
      the other away from the ends. */
  lemma {:induction false} ButtonsStayInRange(page: int, totalPages: int)
    requires 1 <= page <= totalPages
    ensures 1 <= Previous(page) <= totalPages && 1 <= Next(page, totalPages) <= totalPages
    ensures page < totalPages ==> Previous(Next(page, totalPages)) == page
    ensures page > 1 ==> Next(Previous(page), totalPages) == page
  {
  }

  // ---------------------------------------------------------------------------
  // Labels

  const GreenClass := "bg-green-100 text-green-800 dark:bg-green-900 dark:text-green-200"
  const RedClass := "bg-red-100 text-red-800 dark:bg-red-900 dark:text-red-200"
  const YellowClass := "bg-yellow-100 text-yellow-800 dark:bg-yellow-900 dark:text-yellow-200"
  const GreyClass := "bg-gray-100 text-gray-800 dark:bg-gray-900 dark:text-gray-200"

  /** `getStatusColor`. */
  function StatusColor(status: string): (c: string)
    ensures c == GreenClass <==> status == "success"
    ensures c == RedClass <==> status == "failed"
    ensures c == YellowClass <==> status == "warning"
    ensures c == GreyClass <==> status !in {"success", "failed", "warning"}
  {
    match status
    case "success" => GreenClass
    case "failed" => RedClass
    case "warning" => YellowClass
    case _ => GreyClass
  }

  /** Stored logs never show red: 'failed' is not a status the schema
      accepts, while its 'error' status is shown grey, like an unknown
      one. */
  lemma StoredLogsNeverRed(d: LogDoc)
    requires ActivityLogSchema.Valid(d)
    ensures StatusColor(d.status) != RedClass
    ensures d.status == "error" ==> StatusColor(d.status) == GreyClass
  {
  }

  /** The device label. */
  function DeviceLabel(userAgent: string): (device: string)
    ensures device == "Mobile" <==> Contains(userAgent, "Mobile")
    ensures device == "Desktop" <==> !Contains(userAgent, "Mobile")
  {
    if Contains(userAgent, "Mobile") then "Mobile" else "Desktop"
  }

  /** What the list shows: the fetched logs, or the demonstration list
      when there are none. */
  function Displayed(activities: seq<LogDoc>, mock: seq<LogDoc>): (r: seq<LogDoc>)
    ensures |activities| > 0 ==> r == activities
    ensures |activities| == 0 ==> r == mock
  {
    if |activities| > 0 then activities else mock
  }

  // ---------------------------------------------------------------------------
  // Page state

  /** An answer of the endpoint with `success`: the logs and the total. */
  datatype Answer = Answer(activities: seq<LogDoc>, total: nat)

  class ActivityPageState {
    var activities: seq<LogDoc>
    var filters: Filters
    var totalPages: int
    var loading: bool

    /** The current page never drops below 1. */
    ghost predicate Valid()
      reads this
    {
      filters.page >= 1
    }

    constructor ()
      ensures Valid()
      ensures activities == [] && filters == Filters(1, "all", "all", "") && totalPages == 1 && loading
    {
      activities := [];
      filters := Filters(1, "all", "all", "");
      totalPages := 1;
      loading := true;
    }

    /** `fetchActivities()`: an answer with `success` replaces the logs and
        the page count; anything else leaves them. */
    method Fetch(answer: Option<Answer>)
      modifies this
      ensures !loading && filters == old(filters)
      ensures answer.Some? ==>
        activities == answer.value.activities && totalPages == PageCount(answer.value.total)
      ensures answer.None? ==> activities == old(activities) && totalPages == old(totalPages)
    {
      loading := true;
      if answer.Some? {
        activities := answer.value.activities;
        totalPages := PageCount(answer.value.total);
      }
      loading := false;
    }

    /** Changing a filter. The current page is kept as it is. */
    method SetFilters(status: string, action: string, search: string)
      requires Valid()
      modifies this
      ensures Valid()
      ensures filters == Filters(old(filters.page), status, action, search)
      ensures activities == old(activities) && totalPages == old(totalPages) && loading == old(loading)
    {
      filters := Filters(filters.page, status, action, search);
    }

    /** The Previous button; shown only when there is more than one page. */
    method PreviousPage()
      requires Valid() && totalPages > 1
      modifies this
      ensures Valid()
      ensures filters == old(filters).(page := Previous(old(filters.page)))
      ensures activities == old(activities) && totalPages == old(totalPages) && loading == old(loading)
    {
      filters := filters.(page := Previous(filters.page));
    }

    /** The Next button; shown only when there is more than one page. */
    method NextPage()
      requires Valid() && totalPages > 1
      modifies this
      ensures Valid()
      ensures filters == old(filters).(page := Next(old(filters.page), old(totalPages)))
      ensures activities == old(activities) && totalPages == old(totalPages) && loading == old(loading)
    {
      filters := filters.(page := Next(filters.page, totalPages));
    }
  }
}
