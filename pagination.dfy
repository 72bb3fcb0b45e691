/** The paged lists of the organizer dashboard and of the admin's user management page:
    the page state and its Previous/Next controls, which both pages define identically, the
    query arguments each page builds, and which content a page shows for the query's state. */
module Pagination {
  import opened Wrappers
  import opened JsStrings

  /** `pagination?.totalPages || 0`: a missing or zero count becomes 0. */
  function TotalPagesOf(reported: Option<int>): (n: int)
    ensures reported.Some? && reported.value != 0 ==> n == reported.value
    ensures reported.None? || reported.value == 0 ==> n == 0
  {
    if reported.Some? && reported.value != 0 then reported.value else 0
  }

  /** The controls render only for more than one page. */
  predicate ControlsShown(totalPages: int) {
    totalPages > 1
  }

  predicate PreviousDisabled(currentPage: int, isFetching: bool) {
    currentPage == 1 || isFetching
  }

  predicate NextDisabled(currentPage: int, totalPages: int, isFetching: bool) {
    currentPage == totalPages || isFetching
  }

  /** The page after a click on Previous: the click reaches the handler only when the
      controls are shown and the button is enabled, and the handler moves back one page
      only from a page after the first. */
  function AfterPrevious(currentPage: int, totalPages: int, isFetching: bool): (p: int)
    ensures p == currentPage || p == currentPage - 1
    ensures p == currentPage - 1 <==> ControlsShown(totalPages) && !isFetching && currentPage > 1
  {
    if ControlsShown(totalPages) && !PreviousDisabled(currentPage, isFetching) && currentPage > 1
    then currentPage - 1 else currentPage
  }

  /** The page after a click on Next, moving forward one page only before the last. */
  function AfterNext(currentPage: int, totalPages: int, isFetching: bool): (p: int)
    ensures p == currentPage || p == currentPage + 1
    ensures p == currentPage + 1 <==> ControlsShown(totalPages) && !isFetching && currentPage < totalPages
  {
    if ControlsShown(totalPages) && !NextDisabled(currentPage, totalPages, isFetching) && currentPage < totalPages
    then currentPage + 1 else currentPage
  }

  function Max(a: int, b: int): int { if a < b then b else a }

  /** The pages a user can be on for a given count: 1 up to the count, or just 1. */
  predicate InRange(page: int, totalPages: int) {
    1 <= page <= Max(1, totalPages)
  }

  datatype Click = Previous | Next

  /** The page after a sequence of clicks under a fixed page count. */
  function AfterClicks(page: int, totalPages: int, isFetching: bool, clicks: seq<Click>): int
    decreases |clicks|
  {
    if clicks == [] then page
    else
      var p := if clicks[0].Previous? then AfterPrevious(page, totalPages, isFetching)
               else AfterNext(page, totalPages, isFetching);
      AfterClicks(p, totalPages, isFetching, clicks[1..])
  }

  /** Starting anywhere in range, and in particular on page 1, no sequence of clicks leaves
      the range. */
  lemma {:induction false} ClicksStayInRange(page: int, totalPages: int, isFetching: bool, clicks: seq<Click>)
    requires InRange(page, totalPages)
    ensures InRange(AfterClicks(page, totalPages, isFetching, clicks), totalPages)
    decreases |clicks|
  {
    if clicks != [] {
      var p := if clicks[0].Previous? then AfterPrevious(page, totalPages, isFetching)
               else AfterNext(page, totalPages, isFetching);
      ClicksStayInRange(p, totalPages, isFetching, clicks[1..]);
    }
  }

  /** Every page of the range is reachable from page 1 by clicking Next. */
  lemma {:induction false} NextReachesEveryPage(totalPages: int, k: nat)
    requires 1 + k <= totalPages
    ensures AfterClicks(1, totalPages, false, seq(k, i => Next)) == 1 + k
    decreases k
  {
    if k > 0 {
      NextFrom(1, totalPages, k);
    }
  }

  lemma {:induction false} NextFrom(page: int, totalPages: int, k: nat)
    requires 1 <= page && page + k <= totalPages
    ensures AfterClicks(page, totalPages, false, seq(k, i => Next)) == page + k
    decreases k
  {
    if k > 0 {
      var cs := seq(k, i => Next);
      assert cs[0] == Next && cs[1..] == seq(k - 1, i => Next);
      NextFrom(page + 1, totalPages, k - 1);
    }
  }

  /** The list query of a page. */
  datatype Query = Query(page: int, limit: nat, sortBy: string, order: string)

  function OrganizerQuery(page: int): (q: Query)
    ensures q.page == page && q.limit == 5 && q.sortBy == "startTime" && q.order == "desc"
  {
    Query(page, 5, "startTime", "desc")
  }

  function AdminQuery(page: int): (q: Query)
    ensures q.page == page && q.limit == 10 && q.sortBy == "createdAt" && q.order == "asc"
  {
    Query(page, 10, "createdAt", "asc")
  }

  /** The texts one page uses for its list. */
  datatype Texts = Texts(errorFallback: string, emptyNote: string, fallbackNote: string)

  const OrganizerTexts := Texts("Failed to fetch your events.", "You haven't created any events yet.", "Could not load your events.")
  const AdminTexts := Texts("Failed to fetch users", "No users found.", "Could not load users.")

  /** The state of the list query, with `data?.data?.<items> || []` already applied. */
  datatype QueryState<T> = QueryState(
    isLoading: bool,
    isError: bool,
    errorMessage: Option<string>,
    isSuccess: bool,
    items: seq<T>,
    totalPages: int)

  datatype Content<T> = Spinner | ErrorBox(message: string) | EmptyNote(text: string) | Table(rows: seq<T>) | FallbackNote(text: string)

  /** The content branch: loading, then error, then empty, then the table, then the note. */
  function ContentOf<T>(q: QueryState<T>, texts: Texts): (c: Content<T>)
    ensures c.Spinner? <==> q.isLoading
    ensures c.ErrorBox? <==> !q.isLoading && q.isError
    ensures c.ErrorBox? ==> c.message == MessageOr(q.errorMessage, texts.errorFallback)
    ensures c.EmptyNote? <==> !q.isLoading && !q.isError && q.isSuccess && q.items == []
    ensures c.Table? <==> !q.isLoading && !q.isError && q.isSuccess && q.items != []
    ensures c.Table? ==> c.rows == q.items
    ensures c.FallbackNote? <==> !q.isLoading && !q.isError && !q.isSuccess
    ensures c.EmptyNote? ==> c.text == texts.emptyNote
    ensures c.FallbackNote? ==> c.text == texts.fallbackNote
  {
    if q.isLoading then Spinner
    else if q.isError then ErrorBox(MessageOr(q.errorMessage, texts.errorFallback))
    else if q.isSuccess && |q.items| == 0 then EmptyNote(texts.emptyNote)
    else if q.isSuccess && |q.items| > 0 then Table(q.items)
    else FallbackNote(texts.fallbackNote)
  }

  /** The controls appear below a successful, non-empty list with more than one page. */
  predicate PaginationVisible<T>(q: QueryState<T>) {
    q.isSuccess && |q.items| > 0 && ControlsShown(q.totalPages)
  }

  /** For a query that is neither loading nor failed, the controls appear only beside the
      table, never beside an empty note or the fallback note. */
  lemma PaginationOnlyBesideTable<T>(q: QueryState<T>, texts: Texts)
    requires PaginationVisible(q) && !q.isLoading && !q.isError
    ensures ContentOf(q, texts).Table?
  {
  }

  /** The dashboard's statistics: `stats?.<field> ?? 0`, so a reported 0 stays 0 and only a
      missing value defaults. */
  datatype Stats = Stats(
    totalEvents: Option<int>,
    upcomingEvents: Option<int>,
    pastEvents: Option<int>,
    liveEvents: Option<int>,
    totalRegistrations: Option<int>)

  function StatValues(s: Option<Stats>): (v: seq<int>)
    ensures |v| == 5
    ensures s.None? ==> v == [0, 0, 0, 0, 0]
    ensures s.Some? ==> v[0] == s.value.totalEvents.GetOr(0) && v[1] == s.value.upcomingEvents.GetOr(0) &&
                        v[2] == s.value.pastEvents.GetOr(0) && v[3] == s.value.liveEvents.GetOr(0) &&
                        v[4] == s.value.totalRegistrations.GetOr(0)
  {
    if s.None? then [0, 0, 0, 0, 0]
    else
      var x := s.value;
      [x.totalEvents.GetOr(0), x.upcomingEvents.GetOr(0), x.pastEvents.GetOr(0),
       x.liveEvents.GetOr(0), x.totalRegistrations.GetOr(0)]
  }

  /** The page state: `useState(1)`, changed only by the controls' handler. */
  class Pager {
    var currentPage: int

    constructor ()
      ensures currentPage == 1
    {
      currentPage := 1;
    }

    method ClickPrevious(totalPages: int, isFetching: bool)
      requires ControlsShown(totalPages)
      modifies this
      ensures currentPage == AfterPrevious(old(currentPage), totalPages, isFetching)
      ensures InRange(old(currentPage), totalPages) ==> InRange(currentPage, totalPages)
    {
      if ControlsShown(totalPages) && !PreviousDisabled(currentPage, isFetching) && currentPage > 1 {
        currentPage := currentPage - 1;
      }
    }

    method ClickNext(totalPages: int, isFetching: bool)
      requires ControlsShown(totalPages)
      modifies this
      ensures currentPage == AfterNext(old(currentPage), totalPages, isFetching)
      ensures InRange(old(currentPage), totalPages) ==> InRange(currentPage, totalPages)
    {
      if ControlsShown(totalPages) && !NextDisabled(currentPage, totalPages, isFetching) && currentPage < totalPages {
        currentPage := currentPage + 1;
      }
    }
  }
}
