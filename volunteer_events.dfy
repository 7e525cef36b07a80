/** The volunteer's list of available events (src/components/VolunteerEvents.js):
    the load keeps upcoming events and sets the page count, the shown list
    is filtered by application status and search and sorted by date, an
    application marks the event optimistically and settles the mark by the
    outcome, and the pager clamps to the page range. */
module VolunteerEvents {
  import opened Base
  import opened Strings
  import opened Events
  import Seqs

  const PageSize := 20
  const LoadError := "Failed to fetch events."
  const AlreadyApplied := "You have already applied for this event"

  /** What `GET /events` answers: no data at all, a bare array, or an object
      with an optional `events` array and an optional `total`. */
  datatype EventsPayload =
    | NoData
    | Plain(list: seq<Event>)
    | Paged(events: Option<seq<Event>>, total: Option<int>)

  /** The query string of the request: page, limit and, when set, the date. */
  datatype Query = Query(page: int, limit: int, date: Option<string>)

  /** What a load writes: the loaded events, the page count and the error. */
  datatype Listing = Listing(events: seq<Event>, totalPages: int, error: string)

  /** Which of the two filter controls changed. */
  datatype FilterName = DateFilter | StatusFilter

  // ---------------------------------------------------------------------
  // Loading

  /** `Math.ceil(total / 20)`. */
  function PageCount(total: int): (r: int)
    ensures PageSize * (r - 1) < total <= PageSize * r
  {
    (total + PageSize - 1) / PageSize
  }

  /** The events array of a payload (`data.events || []` for an object). */
  function Received(p: EventsPayload): seq<Event> {
    match p
    case NoData => []
    case Plain(list) => list
    case Paged(events, _) => if events.Some? then events.value else []
  }

  /** The total the page count is computed from: the array's length for a
      bare array, otherwise `data.total || length`. */
  function Total(p: EventsPayload): int {
    match p
    case Paged(_, Some(t)) => if t != 0 then t else |Received(p)|
    case _ => |Received(p)|
  }

  /** The events whose date is not before `now`. */
  function Upcoming(events: seq<Event>, now: int): seq<Event> {
    Seqs.Filter((e: Event) => e.date >= now, events)
  }

  /** `loadEvents`, given the clock and the outcome. A failure empties the
      list and keeps the page count. */
  function Loaded(totalPages: int, now: int, outcome: Response<EventsPayload>): Listing {
    match outcome
    case Failed(e) => Listing([], totalPages, OrDefault(e.body.message, LoadError))
    case Ok(p) =>
      if p.NoData? || |Received(p)| == 0 then Listing([], 1, "")
      else Listing(Upcoming(Received(p), now), PageCount(Total(p)), "")
  }

  // ---------------------------------------------------------------------
  // The shown list

  /** The application-status filter: 'all' keeps everything, 'applied' the
      events applied for, any other value the others. */
  predicate StatusMatches(e: Event, status: string) {
    status == "all" || (if status == "applied" then e.hasApplied else !e.hasApplied)
  }

  function ByStatus(events: seq<Event>, status: string): seq<Event> {
    if status == "all" then events else Seqs.Filter(e => StatusMatches(e, status), events)
  }

  function DateOf(e: Event): int {
    e.date
  }

  /** `filteredEvents`: status filter, then search when the term is
      non-empty, then sort by date. */
  function Visible(all: seq<Event>, status: string, term: string): seq<Event> {
    var byStatus := ByStatus(all, status);
    var searched := if term != "" then Search(byStatus, term) else byStatus;
    Seqs.SortBy(DateOf, searched)
  }

  // ---------------------------------------------------------------------
  // Applying

  /** Whether the event stays marked as applied once the request settles:
      a 2xx answer, the 'already applied' error and a 500 keep the mark; any
      other answer or failure removes it. */
  predicate StaysApplied(outcome: Response<int>) {
    match outcome
    case Ok(status) => 200 <= status < 300
    case Failed(e) => e.body.error == Some(AlreadyApplied) || e.status == Some(500)
  }

  /** The optimistic update: the target is marked applied and applying. */
  function BeginApply(events: seq<Event>, id: Id): seq<Event> {
    seq(|events|, i requires 0 <= i < |events| =>
      if events[i].id == id then events[i].(hasApplied := true, isApplying := true) else events[i])
  }

  /** The settling update, once the outcome is known. */
  function FinishApply(events: seq<Event>, id: Id, outcome: Response<int>): seq<Event> {
    seq(|events|, i requires 0 <= i < |events| =>
      if events[i].id == id then events[i].(hasApplied := StaysApplied(outcome), isApplying := false)
      else events[i])
  }

  // ---------------------------------------------------------------------
  // Paging

  /** Previous: `Math.max(page - 1, 1)`. */
  function Previous(page: int): int {
    if page - 1 > 1 then page - 1 else 1
  }

  /** Next: `Math.min(page + 1, totalPages)`. */
  function Next(page: int, totalPages: int): int {
    if page + 1 < totalPages then page + 1 else totalPages
  }

  // ---------------------------------------------------------------------
  // The screen

  class VolunteerEventsPage {
    var allEvents: seq<Event>
    var loading: bool
    var error: string
    var page: int
    var totalPages: int
    var searchTerm: string
    var dateFilter: string
    var statusFilter: string

    constructor ()
      ensures allEvents == [] && loading && error == ""
      ensures page == 1 && totalPages == 1
      ensures searchTerm == "" && dateFilter == "" && statusFilter == "all"
    {
      allEvents, loading, error := [], true, "";
      page, totalPages := 1, 1;
      searchTerm, dateFilter, statusFilter := "", "", "all";
    }

    /** The list on screen. */
    function Shown(): seq<Event>
      reads this
    {
      Visible(allEvents, statusFilter, searchTerm)
    }

    /** `loadEvents` for the current page and date filter; returns the query. */
    method LoadEvents(now: int, outcome: Response<EventsPayload>) returns (query: Query)
      modifies this
      ensures query == Query(old(page), PageSize, if old(dateFilter) != "" then Some(old(dateFilter)) else None)
      ensures Listing(allEvents, totalPages, error) == Loaded(old(totalPages), now, outcome)
      ensures !loading
      ensures page == old(page) && searchTerm == old(searchTerm)
      ensures dateFilter == old(dateFilter) && statusFilter == old(statusFilter)
    {
      loading := true;
      error := "";
      query := Query(page, PageSize, if dateFilter != "" then Some(dateFilter) else None);
      match outcome {
        case Failed(e) =>
          error := OrDefault(e.body.message, LoadError);
          allEvents := [];
        case Ok(p) =>
          if p.NoData? {
            allEvents := [];
            totalPages := 1;
          } else {
            var list := Received(p);
            if |list| > 0 {
              allEvents := Upcoming(list, now);
              totalPages := PageCount(Total(p));
            } else {
              allEvents := [];
              totalPages := 1;
            }
          }
      }
      loading := false;
    }

    /** `handleApply`: marks the event, sends `POST /events/:id/apply` and
      settles the mark by its outcome. */
    method HandleApply(id: Id, outcome: Response<int>) returns (request: Id)
      modifies this
      ensures request == id
      ensures allEvents == FinishApply(BeginApply(old(allEvents), id), id, outcome)
      ensures page == old(page) && totalPages == old(totalPages) && error == old(error)
      ensures searchTerm == old(searchTerm) && dateFilter == old(dateFilter)
      ensures statusFilter == old(statusFilter) && loading == old(loading)
    {
      allEvents := BeginApply(allEvents, id);
      request := id;
      allEvents := FinishApply(allEvents, id, outcome);
    }

    /** `handleFilterChange`. */
    method HandleFilterChange(name: FilterName, value: string)
      modifies this
      ensures page == 1
      ensures name.DateFilter? ==> dateFilter == value && statusFilter == old(statusFilter)
      ensures name.StatusFilter? ==> statusFilter == value && dateFilter == old(dateFilter)
      ensures allEvents == old(allEvents) && searchTerm == old(searchTerm)
      ensures totalPages == old(totalPages) && loading == old(loading) && error == old(error)
    {
      if name.DateFilter? {
        dateFilter := value;
      } else {
        statusFilter := value;
      }
      page := 1;
    }

    /** `handleSearch`. */
    method HandleSearch(term: string)
      modifies this
      ensures searchTerm == term && page == 1
      ensures allEvents == old(allEvents) && dateFilter == old(dateFilter)
      ensures statusFilter == old(statusFilter) && totalPages == old(totalPages)
      ensures loading == old(loading) && error == old(error)
    {
      searchTerm := term;
      page := 1;
    }

    method PreviousPage()
      modifies this`page
      ensures page == Previous(old(page))
    {
      page := Previous(page);
    }

    method NextPage()
      modifies this`page
      ensures page == Next(old(page), totalPages)
    {
      page := Next(page, totalPages);
    }
  }

  // ---------------------------------------------------------------------
  // Properties

  /** The page count covers the total: exactly enough pages of 20, and at
      least one whenever there is anything to count. */
  lemma PageCountCovers(total: int)
    requires total > 0
    ensures PageCount(total) >= 1
    ensures PageCount(total) == 1 <==> total <= PageSize
  {
  }

  /** A load shows only events from `now` on; a successful load that brings
      at least one event, with no explicit total or a positive one, gives at
      least one page, and one that brings none gives exactly one page. */
  lemma LoadOutcomes(totalPages: int, now: int, outcome: Response<EventsPayload>)
    ensures forall e :: e in Loaded(totalPages, now, outcome).events ==> e.date >= now
    ensures outcome.Ok? && |Received(outcome.data)| == 0 ==> Loaded(totalPages, now, outcome).totalPages == 1
    ensures outcome.Ok? && Total(outcome.data) > 0 ==> Loaded(totalPages, now, outcome).totalPages >= 1
    ensures outcome.Ok? ==> Loaded(totalPages, now, outcome).error == ""
    ensures outcome.Failed? ==>
      && Loaded(totalPages, now, outcome).events == []
      && Loaded(totalPages, now, outcome).totalPages == totalPages
      && Loaded(totalPages, now, outcome).error != ""
  {
    if outcome.Ok? && !outcome.data.NoData? && |Received(outcome.data)| > 0 && Total(outcome.data) > 0 {
      PageCountCovers(Total(outcome.data));
    }
  }

  /** The shown list is sorted by date and holds exactly the loaded events
      that pass the status filter and the search, each no more often than
      it was loaded. */
  lemma {:induction false} VisibleSpec(all: seq<Event>, status: string, term: string)
    ensures Seqs.SortedBy(DateOf, Visible(all, status, term))
    ensures multiset(Visible(all, status, term)) <= multiset(all)
    ensures forall e :: e in Visible(all, status, term) <==> e in all && StatusMatches(e, status) && MatchesSearch(e, term)
    ensures forall e :: StatusMatches(e, status) && MatchesSearch(e, term) ==>
      multiset(Visible(all, status, term))[e] == multiset(all)[e]
  {
    var byStatus := ByStatus(all, status);
    if status != "all" {
      Seqs.FilterSubMultiset(e => StatusMatches(e, status), all);
      Seqs.FilterCount(e => StatusMatches(e, status), all);
    }
    assert multiset(byStatus) <= multiset(all);
    assert forall e :: e in byStatus <==> e in all && StatusMatches(e, status);
    assert forall e :: StatusMatches(e, status) ==> multiset(byStatus)[e] == multiset(all)[e];
    var searched := if term != "" then Search(byStatus, term) else byStatus;
    if term == "" {
      forall e | e in all ensures MatchesSearch(e, "") {
        EmptyTermMatches(e.title);
      }
    }
    assert multiset(searched) <= multiset(all);
    var r := Visible(all, status, term);
    assert multiset(r) == multiset(searched);
    forall e ensures e in r <==> e in searched {
      assert e in r <==> e in multiset(r);
      assert e in searched <==> e in multiset(searched);
    }
  }

  /** With the status filter at 'all' and no search term, every loaded event
      is shown, in date order. */
  lemma ShowsAllUnfiltered(all: seq<Event>)
    ensures multiset(Visible(all, "all", "")) == multiset(all)
    ensures Seqs.SortedBy(DateOf, Visible(all, "all", ""))
  {
  }

  /** The optimistic update marks exactly the target events as applied and
      applying, which disables their buttons while the request runs. */
  lemma BeginApplyMarksTarget(events: seq<Event>, id: Id)
    ensures |BeginApply(events, id)| == |events|
    ensures forall i :: 0 <= i < |events| && events[i].id == id ==>
      BeginApply(events, id)[i].hasApplied && BeginApply(events, id)[i].isApplying
    ensures forall i :: 0 <= i < |events| && events[i].id != id ==> BeginApply(events, id)[i] == events[i]
  {
  }

  /** Once the request settles, no event is left applying; the target keeps
      its mark exactly when the outcome says so, every other event is as
      before, and the order and length of the list are kept. */
  lemma ApplySettles(events: seq<Event>, id: Id, outcome: Response<int>)
    ensures |FinishApply(BeginApply(events, id), id, outcome)| == |events|
    ensures forall i :: 0 <= i < |events| && events[i].id == id ==>
      FinishApply(BeginApply(events, id), id, outcome)[i]
        == events[i].(hasApplied := StaysApplied(outcome), isApplying := false)
    ensures forall i :: 0 <= i < |events| && events[i].id != id ==>
      FinishApply(BeginApply(events, id), id, outcome)[i] == events[i]
  {
  }

  /** The three outcomes that keep the mark, and one that removes it. */
  lemma ApplyOutcomeCases(status: int, body: ErrorBody)
    ensures StaysApplied(Ok(status)) <==> 200 <= status < 300
    ensures StaysApplied(Failed(HttpError(Some(500), body)))
    ensures forall st, m :: StaysApplied(Failed(HttpError(st, ErrorBody(Some(AlreadyApplied), m))))
    ensures !StaysApplied(Failed(NoResponse))
  {
  }

  /** Previous never goes below page 1 and Next never beyond the last
      page; within the range both stay within it. */
  lemma PagingClamps(page: int, totalPages: int)
    ensures Previous(page) >= 1
    ensures Next(page, totalPages) <= totalPages
    ensures 1 <= page <= totalPages ==> 1 <= Previous(page) <= totalPages
    ensures 1 <= page <= totalPages ==> 1 <= Next(page, totalPages) <= totalPages
  {
  }

  /** Away from the ends, Next and Previous undo each other. */
  lemma PagingInverse(page: int, totalPages: int)
    ensures 1 <= page < totalPages ==> Previous(Next(page, totalPages)) == page
    ensures 1 < page <= totalPages ==> Next(Previous(page), totalPages) == page
  {
  }
}
