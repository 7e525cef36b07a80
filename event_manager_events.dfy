/** The event manager's own events (src/components/EventManagerEvents.js):
    the load takes the `events` field or nothing, delete asks for
    confirmation and removes the event on success, the search narrows the
    list, and each card labels the event's status. */
module EventManagerEvents {
  import opened Base
  import opened Strings
  import opened Events
  import Seqs

  const LoadError := "Failed to load events"
  const DefaultStatus := "Pending"

  /** The ASCII lower-case letters map to upper case; every other character
      is kept. */
  function UpperChar(c: char): char {
    if 'a' <= c <= 'z' then (c as int - 32) as char else c
  }

  /** The status label: the status with its first letter upper-cased, or
      'Pending' when the status is missing or empty (both make the
      concatenation falsy). */
  function StatusLabel(status: Option<string>): (r: string)
    ensures r != ""
  {
    if status.None? || status.value == "" then DefaultStatus
    else [UpperChar(status.value[0])] + status.value[1..]
  }

  /** The events except those with `id`, in order. */
  function Without(events: seq<Event>, id: Id): seq<Event> {
    Seqs.Filter((e: Event) => e.id != id, events)
  }

  class EventManagerEventsPage {
    var events: seq<Event>
    var loading: bool
    var error: string
    var searchTerm: string

    constructor ()
      ensures events == [] && loading && error == "" && searchTerm == ""
    {
      events, loading, error, searchTerm := [], true, "", "";
    }

    /** `filteredEvents`: the search is applied even to the empty term. */
    function Shown(): seq<Event>
      reads this
    {
      Search(events, searchTerm)
    }

    /** The mount effect: `GET /events` answers with an optional `events`
      field (`data.events || []`). */
    method LoadEvents(outcome: Response<Option<seq<Event>>>)
      modifies this
      ensures outcome.Ok? ==> events == (if outcome.data.Some? then outcome.data.value else [])
      ensures outcome.Ok? ==> error == old(error)
      ensures outcome.Failed? ==> events == old(events) && error == OrDefault(outcome.failure.body.message, LoadError)
      ensures !loading && searchTerm == old(searchTerm)
    {
      loading := true;
      match outcome {
        case Ok(field) =>
          events := if field.Some? then field.value else [];
        case Failed(e) =>
          error := OrDefault(e.body.message, LoadError);
      }
      loading := false;
    }

    /** `handleDeleteEvent`: nothing happens unless confirmed; then
      `DELETE /events/:id` is sent and on success the event leaves the
      list. A failure is only reported (by an alert, not modelled). */
    method HandleDeleteEvent(id: Id, confirmed: bool, outcome: Response<()>) returns (request: Option<Id>)
      modifies this`events
      ensures request == (if confirmed then Some(id) else None)
      ensures events == (if confirmed && outcome.Ok? then Without(old(events), id) else old(events))
    {
      if !confirmed {
        return None;
      }
      request := Some(id);
      if outcome.Ok? {
        events := Without(events, id);
      }
    }

    method SetSearchTerm(term: string)
      modifies this`searchTerm
      ensures searchTerm == term
    {
      searchTerm := term;
    }
  }

  // ---------------------------------------------------------------------
  // Properties

  /** Deleting removes exactly the events with that id and keeps the others
      in their order, each as often as before. */
  lemma {:induction false} WithoutRemovesOnlyThatId(events: seq<Event>, id: Id)
    ensures forall e :: e in Without(events, id) <==> e in events && e.id != id
    ensures Seqs.IsSubsequence(Without(events, id), events)
    ensures forall e: Event :: e.id != id ==> multiset(Without(events, id))[e] == multiset(events)[e]
    decreases |events|
  {
    if events != [] {
      WithoutRemovesOnlyThatId(events[1..], id);
      assert events == [events[0]] + events[1..];
    }
  }

  /** Deleting an id that is not in the list changes nothing, and deleting
      twice is deleting once. */
  lemma WithoutIdempotent(events: seq<Event>, id: Id)
    ensures Without(Without(events, id), id) == Without(events, id)
    ensures (forall e :: e in events ==> e.id != id) ==> Without(events, id) == events
  {
    Seqs.FilterKeepsAll((e: Event) => e.id != id, Without(events, id));
    if forall e :: e in events ==> e.id != id {
      Seqs.FilterKeepsAll((e: Event) => e.id != id, events);
    }
  }

  /** The label agrees with the status apart from the case of its first
      letter: same length, same rest, and the same text once lower-cased. */
  lemma StatusLabelKeepsStatus(status: string)
    requires status != ""
    ensures |StatusLabel(Some(status))| == |status|
    ensures StatusLabel(Some(status))[1..] == status[1..]
    ensures ToLower(StatusLabel(Some(status))) == ToLower(status)
    ensures !('a' <= StatusLabel(Some(status))[0] <= 'z')
  {
    var r := StatusLabel(Some(status));
    assert LowerChar(r[0]) == LowerChar(status[0]);
    forall i | 0 <= i < |status| ensures ToLower(r)[i] == ToLower(status)[i] {
    }
  }

  /** A label is its own label, and a missing or empty status is 'Pending'. */
  lemma StatusLabelIdempotent(status: Option<string>)
    ensures StatusLabel(Some(StatusLabel(status))) == StatusLabel(status)
    ensures status.None? || status == Some("") ==> StatusLabel(status) == "Pending"
  {
  }
}
