/** The manager's broadcast form (src/components/SendMessages.js): pick one
    of the events they created, tick volunteers of that event (one by one or
    all at once) and post one message to all of them. */
module SendMessages {
  import opened Base
  import opened Strings
  import Seqs
  import Session

  datatype EventRef = EventRef(id: Id, title: string)
  datatype Volunteer = Volunteer(id: Id, name: string)

  /** The body of `POST /chat/send`. `senderId` is the stored `userId`. */
  datatype Payload = Payload(eventId: Id, recipients: seq<Id>, message: string, senderId: Option<string>)

  const UserIdKey := "userId"

  const LoadEventsError := "Failed to load events"
  const LoadVolunteersError := "Failed to load volunteers"
  const NotLoggedIn := "You must be logged in to send messages"
  const Incomplete := "Please select an event, at least one volunteer, and enter a message"
  const BadRequestDefault := "Invalid message format. Please try again."
  const UnauthorizedText := "You are not authorized to send messages. Please log in again."
  const ServerErrorText := "Server error occurred. Please try again later."
  const SendDefault := "Failed to send message. Please try again."

  /** The form's state. `selectedEvent` is '' while no event is chosen. */
  datatype FormState = FormState(
    events: seq<EventRef>,
    selectedEvent: Id,
    volunteers: seq<Volunteer>,
    selection: seq<Id>,
    selectAll: bool,
    message: string,
    loading: bool,
    error: string)

  /** `volunteers.map(v => v._id)`. */
  function Ids(vs: seq<Volunteer>): (r: seq<Id>)
    ensures |r| == |vs|
    ensures forall i :: 0 <= i < |vs| ==> r[i] == vs[i].id
  {
    if vs == [] then [] else [vs[0].id] + Ids(vs[1..])
  }

  /** `handleVolunteerSelection`'s new list: the id is removed (every copy of
      it) when present and appended otherwise. */
  function Toggled(selection: seq<Id>, id: Id): seq<Id> {
    if id in selection then Seqs.Filter((x: Id) => x != id, selection) else selection + [id]
  }

  /** The well-formedness the handlers keep: only listed volunteers are
      selected; when the listed ids are distinct so is the selection, and,
      for a non-empty list, the select-all flag is on exactly when every
      listed volunteer is selected. */
  predicate Consistent(s: FormState) {
    && Seqs.Elems(s.selection) <= Seqs.Elems(Ids(s.volunteers))
    && (Seqs.NoDup(Ids(s.volunteers)) ==> Seqs.NoDup(s.selection))
    && (Seqs.NoDup(Ids(s.volunteers)) && |s.volunteers| > 0 ==>
         (s.selectAll <==> Seqs.Elems(s.selection) == Seqs.Elems(Ids(s.volunteers))))
  }

  /** The first check of `handleSendMessage` and the second, in that order;
      None when the form may be sent. */
  function Validate(token: Option<string>, s: FormState): Option<string> {
    Check(token, s.selectedEvent, s.selection, s.message)
  }

  function Check(token: Option<string>, selectedEvent: Id, selection: seq<Id>, message: string): Option<string> {
    if !Truthy(token) then Some(NotLoggedIn)
    else if selectedEvent == "" || |selection| == 0 || IsBlank(message) then Some(Incomplete)
    else None
  }

  /** What is posted once the checks pass. */
  function PayloadOf(s: FormState, userId: Option<string>): Payload {
    Payload(s.selectedEvent, s.selection, Trim(s.message), userId)
  }

  /** The message shown for a failed send, by status: 400 shows the server's
      message or a format hint, 401 and 500 fixed texts, anything else the
      server's message or a generic text. */
  function SendErrorText(e: HttpError): (r: string)
    ensures r != ""
  {
    if e.status == Some(400) then OrDefault(e.body.message, BadRequestDefault)
    else if e.status == Some(401) then UnauthorizedText
    else if e.status == Some(500) then ServerErrorText
    else OrDefault(e.body.message, SendDefault)
  }

  /** The state once the post was made: `answered` is whether the
      successful response carried a body; without one the handler throws and
      reports like a failure without a response. */
  function Answered(s: FormState, outcome: Response<bool>): FormState {
    match outcome
    case Ok(answered) =>
      if answered then s.(message := "", selection := [], selectAll := false, error := "", loading := false)
      else s.(error := SendErrorText(NoResponse), loading := false)
    case Failed(e) => s.(error := SendErrorText(e), loading := false)
  }

  /** The state after `handleSendMessage`: a failed check only shows its
      error; otherwise the form is posted and the answer applied. */
  function Sent(s: FormState, token: Option<string>, outcome: Response<bool>): FormState {
    match Validate(token, s)
    case Some(msg) => s.(error := msg)
    case None => Answered(s, outcome)
  }

  /** The send button's `disabled`. */
  predicate SendDisabled(s: FormState) {
    s.loading || IsBlank(s.message) || |s.selection| == 0
  }

  class SendMessagesPage {
    var events: seq<EventRef>
    var selectedEvent: Id
    var volunteers: seq<Volunteer>
    var selection: seq<Id>
    var selectAll: bool
    var message: string
    var loading: bool
    var error: string

    ghost function Model(): FormState
      reads this
    {
      FormState(events, selectedEvent, volunteers, selection, selectAll, message, loading, error)
    }

    constructor ()
      ensures Model() == FormState([], "", [], [], false, "", false, "")
      ensures Consistent(Model())
    {
      events, selectedEvent, volunteers, selection := [], "", [], [];
      selectAll, message, loading, error := false, "", false, "";
    }

    /** `loadEvents`; a body that is not an array arrives as `Ok(None)`. */
    method LoadEvents(outcome: Response<Option<seq<EventRef>>>)
      requires Consistent(Model())
      modifies this
      ensures Consistent(Model())
      ensures outcome.Ok? && outcome.data.Some? ==> Model() == old(Model()).(events := outcome.data.value, error := "")
      ensures !(outcome.Ok? && outcome.data.Some?) ==> Model() == old(Model()).(error := LoadEventsError)
    {
      error := "";
      if outcome.Ok? && outcome.data.Some? {
        events := outcome.data.value;
      } else {
        error := LoadEventsError;
      }
    }

    /** Choosing an event in the drop-down; choosing none clears the
        volunteers, the selection and the flag. */
    method SelectEvent(ev: Id)
      requires Consistent(Model())
      modifies this
      ensures Consistent(Model())
      ensures ev == "" ==> Model() == old(Model()).(selectedEvent := ev, volunteers := [], selection := [], selectAll := false)
      ensures ev != "" ==> Model() == old(Model()).(selectedEvent := ev)
    {
      selectedEvent := ev;
      if ev == "" {
        volunteers := [];
        selection := [];
        selectAll := false;
      }
    }

    /** `loadVolunteers` for the chosen event; a fresh list starts with
        nothing selected. */
    method LoadVolunteers(outcome: Response<Option<seq<Volunteer>>>)
      requires Consistent(Model())
      modifies this
      ensures Consistent(Model())
      ensures old(selectedEvent) == "" ==> Model() == old(Model())
      ensures old(selectedEvent) != "" && outcome.Ok? && outcome.data.Some? ==>
        Model() == old(Model()).(volunteers := outcome.data.value, selection := [], selectAll := false, error := "")
      ensures old(selectedEvent) != "" && !(outcome.Ok? && outcome.data.Some?) ==>
        Model() == old(Model()).(error := LoadVolunteersError)
    {
      if selectedEvent != "" {
        error := "";
        if outcome.Ok? && outcome.data.Some? {
          volunteers := outcome.data.value;
          selection := [];
          selectAll := false;
          ClearedSelectionIsConsistent(Model());
        } else {
          error := LoadVolunteersError;
        }
      }
    }

    /** `handleSelectAll`: all listed volunteers, in list order, or none;
        the flag always flips. */
    method HandleSelectAll()
      requires Consistent(Model())
      modifies this
      ensures Consistent(Model())
      ensures old(selectAll) ==> selection == []
      ensures !old(selectAll) ==> selection == Ids(volunteers)
      ensures Model() == old(Model()).(selection := selection, selectAll := !old(selectAll))
    {
      SelectAllKeepsConsistent(Model());
      if selectAll {
        selection := [];
      } else {
        selection := Ids(volunteers);
      }
      selectAll := !selectAll;
    }

    /** `handleVolunteerSelection`, for a volunteer of the list. */
    method HandleVolunteerSelection(id: Id)
      requires Consistent(Model())
      requires id in Ids(volunteers)
      modifies this
      ensures Consistent(Model())
      ensures Model() == old(Model()).(selection := Toggled(old(selection), id), selectAll := |selection| == |volunteers|)
    {
      ToggleKeepsConsistent(Model(), id);
      selection := Toggled(selection, id);
      selectAll := |selection| == |volunteers|;
    }

    /** A click on a volunteer's check box as the page is written: the box's
        `onChange` and, as the click bubbles, the row's `onClick` both run
        the toggle, so the click undoes itself. */
    method CheckboxClickAsWritten(id: Id)
      requires Consistent(Model())
      requires id in Ids(volunteers)
      modifies this
      ensures Consistent(Model())
      ensures Model() == old(Model()).(selection := selection, selectAll := selectAll)
      ensures Seqs.Elems(selection) == Seqs.Elems(old(selection))
      ensures id !in old(selection) ==> selection == old(selection)
    {
      HandleVolunteerSelection(id);
      HandleVolunteerSelection(id);
      ToggleTwice(old(selection), id);
    }

    /** The click as intended: the toggle runs once, so the clicked volunteer
        changes state and no other does. */
    method CheckboxClick(id: Id)
      requires Consistent(Model())
      requires id in Ids(volunteers)
      modifies this
      ensures Consistent(Model())
      ensures Model() == old(Model()).(selection := Toggled(old(selection), id), selectAll := |selection| == |volunteers|)
      ensures id in selection <==> id !in old(selection)
      ensures forall x :: x != id ==> (x in selection <==> x in old(selection))
    {
      HandleVolunteerSelection(id);
      ToggleFlipsOnlyThatId(old(selection), id);
    }

    method EditMessage(text: string)
      requires Consistent(Model())
      modifies this
      ensures Consistent(Model())
      ensures Model() == old(Model()).(message := text)
    {
      message := text;
    }

    /** The `try` block of `handleSendMessage`, reached once the checks have
      passed: posts the form and applies the answer. */
    method Post(userId: Option<string>, outcome: Response<bool>) returns (request: Payload)
      modifies this
      ensures request == PayloadOf(old(Model()), userId)
      ensures Model() == Answered(old(Model()), outcome)
    {
      loading := true;
      error := "";
      request := Payload(selectedEvent, selection, Trim(message), userId);
      match outcome {
        case Ok(answered) =>
          if answered {
            message := "";
            selection := [];
            selectAll := false;
          } else {
            error := SendErrorText(NoResponse);
          }
        case Failed(e) =>
          error := SendErrorText(e);
      }
      loading := false;
    }

    /** `handleSendMessage`: returns the request it posts, if any. */
    method HandleSendMessage(store: Session.LocalStorage, outcome: Response<bool>) returns (request: Option<Payload>)
      requires Consistent(Model())
      modifies this, store
      ensures Consistent(Model())
      ensures request == (if Validate(Session.Lookup(old(store.items), Session.TokenKey), old(Model())).Some? then None
                          else Some(PayloadOf(old(Model()), Session.Lookup(old(store.items), UserIdKey))))
      ensures Model() == Sent(old(Model()), Session.Lookup(old(store.items), Session.TokenKey), outcome)
      ensures store.items == (if request.None? then old(store.items) else Session.AfterResponse(old(store.items), outcome))
    {
      ghost var before := Model();
      var token := store.GetItem(Session.TokenKey);
      var rejection := Check(token, selectedEvent, selection, message);
      if rejection.Some? {
        error := rejection.value;
        request := None;
      } else {
        var userId := store.GetItem(UserIdKey);
        var answer := Session.InterceptResponse(store, outcome);
        var payload := Post(userId, answer);
        request := Some(payload);
      }
      SentKeepsConsistent(before, token, outcome);
    }
  }

  // ---------------------------------------------------------------------
  // Properties

  /** A toggled id ends up selected exactly when it was not selected before;
      every other id keeps its state. */
  lemma ToggleFlipsOnlyThatId(selection: seq<Id>, id: Id)
    ensures id in Toggled(selection, id) <==> id !in selection
    ensures forall x :: x != id ==> (x in Toggled(selection, id) <==> x in selection)
  {
  }

  /** Toggling the same id twice restores the selected set, and the list
      itself when the id was not selected (a deselect-reselect moves it to
      the end). */
  lemma ToggleTwice(selection: seq<Id>, id: Id)
    ensures Seqs.Elems(Toggled(Toggled(selection, id), id)) == Seqs.Elems(selection)
    ensures id !in selection ==> Toggled(Toggled(selection, id), id) == selection
  {
    if id !in selection {
      var p := (x: Id) => x != id;
      Seqs.FilterAppend(p, selection, id);
      Seqs.FilterKeepsAll(p, selection);
    }
  }

  /** Toggling keeps the form consistent: a duplicate-free selection stays
      duplicate-free and inside the list, and the new flag, set by comparing
      lengths, is on exactly when every listed volunteer is selected. */
  lemma ToggleKeepsConsistent(s: FormState, id: Id)
    requires Consistent(s)
    requires id in Ids(s.volunteers)
    ensures Consistent(s.(selection := Toggled(s.selection, id), selectAll := |Toggled(s.selection, id)| == |s.volunteers|))
  {
    var ids := Ids(s.volunteers);
    var r := Toggled(s.selection, id);
    assert Seqs.Elems(r) <= Seqs.Elems(ids);
    if Seqs.NoDup(ids) {
      if id in s.selection {
        Seqs.FilterNoDup((x: Id) => x != id, s.selection);
      }
      assert Seqs.NoDup(r);
      if |r| == |ids| {
        Seqs.SameLengthSubsetIsAll(r, ids);
      }
      if Seqs.Elems(r) == Seqs.Elems(ids) {
        Seqs.NoDupCard(r);
        Seqs.NoDupCard(ids);
      }
    }
  }

  /** Consistency depends on the list, the selection and the flag only. */
  lemma SameSelectionConsistent(s: FormState, t: FormState)
    requires Consistent(s)
    requires t.volunteers == s.volunteers && t.selection == s.selection && t.selectAll == s.selectAll
    ensures Consistent(t)
  {
  }

  /** With a non-empty list, the empty selection is not "everyone". */
  lemma EmptySelectionIsNotAll(vs: seq<Volunteer>)
    requires |vs| > 0
    ensures Seqs.Elems([]) != Seqs.Elems(Ids(vs))
  {
    assert Ids(vs)[0] in Seqs.Elems(Ids(vs));
  }

  /** Any form whose selection is empty and flag off is consistent; this is
      where a new list, a cleared event and a successful send leave it. */
  lemma ClearedSelectionIsConsistent(s: FormState)
    requires s.selection == [] && !s.selectAll
    ensures Consistent(s)
  {
    if |s.volunteers| > 0 {
      EmptySelectionIsNotAll(s.volunteers);
    }
  }

  /** Select-all keeps the form consistent whichever way it flips. */
  lemma SelectAllKeepsConsistent(s: FormState)
    requires Consistent(s)
    ensures Consistent(s.(selection := if s.selectAll then [] else Ids(s.volunteers), selectAll := !s.selectAll))
  {
    if s.selectAll && |s.volunteers| > 0 {
      EmptySelectionIsNotAll(s.volunteers);
    }
  }

  /** Sending, whatever its outcome, keeps the form consistent. */
  lemma SentKeepsConsistent(s: FormState, token: Option<string>, outcome: Response<bool>)
    requires Consistent(s)
    ensures Consistent(Sent(s, token, outcome))
  {
    if Validate(token, s).None? && outcome == Ok(true) {
      ClearedSelectionIsConsistent(Sent(s, token, outcome));
    } else {
      SameSelectionConsistent(s, Sent(s, token, outcome));
    }
  }

  /** A rejected send posts nothing and only sets the error: without a
      token 'You must be logged in …', otherwise the incomplete-form text. */
  lemma RejectedSendOnlySetsError(s: FormState, token: Option<string>, outcome: Response<bool>)
    requires Validate(token, s).Some?
    ensures Sent(s, token, outcome) == s.(error := Validate(token, s).value)
    ensures !Truthy(token) ==> Validate(token, s) == Some(NotLoggedIn)
    ensures Truthy(token) ==> Validate(token, s) == Some(Incomplete)
  {
  }

  /** The post carries the chosen event, the selection as it stands and the
      trimmed message, which is never blank: the handler's own re-check of
      the trimmed message can never fire. */
  lemma PayloadIsWellFormed(s: FormState, token: Option<string>, userId: Option<string>)
    requires Validate(token, s).None?
    ensures PayloadOf(s, userId).eventId == s.selectedEvent != ""
    ensures PayloadOf(s, userId).recipients == s.selection && |s.selection| > 0
    ensures !IsBlank(PayloadOf(s, userId).message) && PayloadOf(s, userId).message != ""
  {
    var t := Trim(s.message);
    TrimIdempotent(s.message);
    assert t != "";
  }

  /** A send the server answers resets the message, the selection and the
      flag, and keeps the chosen event and its volunteers. */
  lemma SuccessResetsForm(s: FormState, token: Option<string>)
    requires Validate(token, s).None?
    ensures var t := Sent(s, token, Ok(true));
      && t.message == "" && t.selection == [] && !t.selectAll && t.error == ""
      && t.selectedEvent == s.selectedEvent && t.volunteers == s.volunteers
  {
  }

  /** A failed send keeps the form as typed and shows a non-empty message:
      the server's own for a 400 that has one, fixed texts for 401 and 500. */
  lemma FailureKeepsForm(s: FormState, token: Option<string>, e: HttpError)
    requires Validate(token, s).None?
    ensures var t := Sent(s, token, Failed(e));
      && t.message == s.message && t.selection == s.selection && t.selectAll == s.selectAll
      && t.error != ""
    ensures e.status == Some(401) ==> Sent(s, token, Failed(e)).error == UnauthorizedText
    ensures e.status == Some(500) ==> Sent(s, token, Failed(e)).error == ServerErrorText
    ensures e.status != Some(401) && e.status != Some(500) && Truthy(e.body.message) ==>
      Sent(s, token, Failed(e)).error == e.body.message.value
  {
  }

  /** The button and the handler agree: a form the button lets through, with
      an event chosen and a signed-in user, always passes validation; a blank
      message or an empty selection, which disable the button, always fail
      it. */
  lemma ButtonMatchesValidation(s: FormState, token: Option<string>)
    ensures !SendDisabled(s) && Truthy(token) && s.selectedEvent != "" ==> Validate(token, s).None?
    ensures IsBlank(s.message) || |s.selection| == 0 ==> Validate(token, s).Some?
  {
  }
}
