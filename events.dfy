/** The event record the event lists show, and the search both lists offer:
    a case-insensitive substring match over title, description and
    location. */
module Events {
  import opened Base
  import opened Strings
  import Seqs

  /** An event as the lists receive it. `date` is the event's instant as an
      integer key; `status` is absent on events the server has not rated;
      `hasApplied` and `isApplying` are the volunteer list's per-event flags
      (a missing flag reads as false). */
  datatype Event = Event(
    id: Id,
    title: string,
    description: string,
    location: string,
    date: int,
    status: Option<string>,
    hasApplied: bool,
    isApplying: bool)

  /** The lower-cased title, description or location includes the
      lower-cased term. */
  predicate MatchesSearch(e: Event, term: string) {
    || ContainsIgnoringCase(e.title, term)
    || ContainsIgnoringCase(e.description, term)
    || ContainsIgnoringCase(e.location, term)
  }

  /** The events that match `term`, in list order. */
  function Search(events: seq<Event>, term: string): (r: seq<Event>)
    ensures forall e :: e in r <==> e in events && MatchesSearch(e, term)
    ensures Seqs.IsSubsequence(r, events)
    ensures multiset(r) <= multiset(events)
    ensures forall e :: MatchesSearch(e, term) ==> multiset(r)[e] == multiset(events)[e]
  {
    Seqs.FilterSubMultiset(e => MatchesSearch(e, term), events);
    Seqs.FilterCount(e => MatchesSearch(e, term), events);
    Seqs.Filter(e => MatchesSearch(e, term), events)
  }

  /** The empty term keeps every event, in order. */
  lemma EmptySearchKeepsAll(events: seq<Event>)
    ensures Search(events, "") == events
  {
    forall e | e in events ensures MatchesSearch(e, "") {
      EmptyTermMatches(e.title);
    }
    Seqs.FilterKeepsAll(e => MatchesSearch(e, ""), events);
  }

  /** Searching the result again with the same term changes nothing. */
  lemma SearchIdempotent(events: seq<Event>, term: string)
    ensures Search(Search(events, term), term) == Search(events, term)
  {
    Seqs.FilterKeepsAll(e => MatchesSearch(e, term), Search(events, term));
  }

  /** The case of the term does not matter: searching for its lower-cased
      form finds the same events. */
  lemma SearchIgnoresTermCase(events: seq<Event>, term: string)
    ensures Search(events, ToLower(term)) == Search(events, term)
  {
    ToLowerIdempotent(term);
    Seqs.FilterCongruent(e => MatchesSearch(e, ToLower(term)), e => MatchesSearch(e, term), events);
  }
}
