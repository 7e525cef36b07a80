/** The volunteer's chat screen (src/components/VolunteerChat.js): the list
    of event managers who wrote, the open thread, the per-sender unread
    counters and the composer. */
module VolunteerChat {
  import opened Base
  import opened Strings
  import opened ChatThread
  import Seqs

  /** A conversation partner in the side list. */
  datatype Sender = Sender(id: Id, name: string)

  /** The screen's state: `senders`, `selectedSender` (by id), `messages`,
      `unreadMessages`, `newMessage`, `isLoading` and `error`. */
  datatype ChatState = ChatState(
    senders: seq<Sender>,
    selected: Option<Id>,
    thread: seq<Message>,
    unread: map<Id, nat>,
    draft: string,
    loading: bool,
    error: string)

  const Initial := ChatState([], None, [], map[], "", false, "")

  const LoadSendersError := "Failed to load conversations"
  const LoadMessagesError := "Failed to load messages"
  const SendError := "Failed to send message"

  /** `unreadMessages[id] || 0`. */
  function UnreadOf(unread: map<Id, nat>, id: Id): nat {
    if id in unread then unread[id] else 0
  }

  /** Whether the sender's row shows a badge. */
  predicate ShowsBadge(s: ChatState, id: Id) {
    UnreadOf(s.unread, id) > 0
  }

  // ---------------------------------------------------------------------
  // The transitions, as functions of the state

  /** `handleNewMessage`: a message from the open conversation joins the
      thread; any other one is counted against its sender. */
  function Receive(s: ChatState, m: Message): ChatState {
    if FromSelected(s.selected, m) then s.(thread := s.thread + [m])
    else s.(unread := s.unread[m.sender := UnreadOf(s.unread, m.sender) + 1])
  }

  /** A run of incoming messages, handled one after another. */
  function ReceiveAll(s: ChatState, ms: seq<Message>): ChatState
    decreases |ms|
  {
    if ms == [] then s else ReceiveAll(Receive(s, ms[0]), ms[1..])
  }

  /** `loadSenders`: the error is cleared, then the list replaced or the
      error set. */
  function SendersLoaded(s: ChatState, outcome: Response<seq<Sender>>): ChatState {
    match outcome
    case Ok(list) => s.(senders := list, error := "")
    case Failed(_) => s.(error := LoadSendersError)
  }

  /** The history-load effect that runs whenever a sender is selected. With
      nothing selected it does nothing. */
  function HistoryLoaded(s: ChatState, outcome: Response<seq<Message>>): ChatState {
    if s.selected.None? then s
    else match outcome
      case Ok(history) => s.(thread := history, unread := s.unread[s.selected.value := 0], loading := false)
      case Failed(_) => s.(error := LoadMessagesError, loading := false)
  }

  /** `handleSendMessage`, given what `POST /chat/reply` answers. */
  function Sent(s: ChatState, outcome: Response<Message>): ChatState {
    if IsBlank(s.draft) || s.selected.None? then s
    else match outcome
      case Ok(m) => s.(thread := s.thread + [m], draft := "", loading := false)
      case Failed(_) => s.(error := SendError, loading := false)
  }

  // ---------------------------------------------------------------------
  // The screen

  class VolunteerChatPage {
    var senders: seq<Sender>
    var selected: Option<Id>
    var thread: seq<Message>
    var unread: map<Id, nat>
    var draft: string
    var loading: bool
    var error: string

    ghost function Model(): ChatState
      reads this
    {
      ChatState(senders, selected, thread, unread, draft, loading, error)
    }

    constructor ()
      ensures Model() == Initial
    {
      senders, selected, thread, unread := [], None, [], map[];
      draft, loading, error := "", false, "";
    }

    /** `loadSenders`, run once on mount. */
    method LoadSenders(outcome: Response<seq<Sender>>)
      modifies this
      ensures Model() == SendersLoaded(old(Model()), outcome)
    {
      error := "";
      if outcome.Ok? {
        senders := outcome.data;
      } else {
        error := LoadSendersError;
      }
    }

    /** A click on a sender's row. */
    method SelectSender(id: Id)
      modifies this
      ensures Model() == old(Model()).(selected := Some(id))
    {
      selected := Some(id);
    }

    /** Typing in the composer. */
    method EditDraft(text: string)
      modifies this
      ensures Model() == old(Model()).(draft := text)
    {
      draft := text;
    }

    /** The `receiveMessage` socket event. */
    method HandleNewMessage(m: Message)
      modifies this
      ensures Model() == Receive(old(Model()), m)
    {
      if selected.Some? && m.sender == selected.value {
        thread := thread + [m];
      } else {
        var count := if m.sender in unread then unread[m.sender] else 0;
        unread := unread[m.sender := count + 1];
      }
    }

    /** `loadMessages`, at completion of `GET /chat/messages/<id>`. */
    method LoadMessages(outcome: Response<seq<Message>>)
      modifies this
      ensures Model() == HistoryLoaded(old(Model()), outcome)
    {
      if selected.Some? {
        loading := true;
        match outcome {
          case Ok(history) =>
            thread := history;
            unread := unread[selected.value := 0];
          case Failed(_) =>
            error := LoadMessagesError;
        }
        loading := false;
      }
    }

    /** `handleSendMessage`: returns the request it posts, if any. */
    method HandleSendMessage(outcome: Response<Message>) returns (request: Option<Reply>)
      modifies this
      ensures request == ComposeReply(old(selected), old(draft))
      ensures Model() == Sent(old(Model()), outcome)
    {
      ghost var before := Model();
      request := ComposeReply(selected, draft);
      if request.Some? {
        loading := true;
        if outcome.Ok? {
          thread := thread + [outcome.data];
          draft := "";
        } else {
          error := SendError;
        }
        loading := false;
        assert Model() == Sent(before, outcome);
      }
    }
  }

  // ---------------------------------------------------------------------
  // Properties

  /** A message from the open conversation is appended to the thread and no
      counter moves. */
  lemma ReceiveFromSelectedAppends(s: ChatState, m: Message)
    requires s.selected == Some(m.sender)
    ensures Receive(s, m).thread == s.thread + [m]
    ensures Receive(s, m).unread == s.unread
    ensures Receive(s, m).draft == s.draft && Receive(s, m).selected == s.selected
  {
  }

  /** Any other message, also one arriving with nothing selected, raises its
      sender's counter by one (from 0 when absent); the thread and every other
      counter stay as they were. */
  lemma ReceiveFromOtherCounts(s: ChatState, m: Message)
    requires s.selected != Some(m.sender)
    ensures Receive(s, m).thread == s.thread
    ensures UnreadOf(Receive(s, m).unread, m.sender) == UnreadOf(s.unread, m.sender) + 1
    ensures forall id :: id != m.sender ==> UnreadOf(Receive(s, m).unread, id) == UnreadOf(s.unread, id)
  {
  }

  /** How many messages of `ms` come from `id`. */
  function SentBy(ms: seq<Message>, id: Id): nat {
    |Seqs.Filter((m: Message) => m.sender == id, ms)|
  }

  lemma SentByCons(ms: seq<Message>, id: Id)
    requires ms != []
    ensures SentBy(ms, id) == (if ms[0].sender == id then 1 else 0) + SentBy(ms[1..], id)
  {
  }

  lemma FromSelectedOnlyCons(selected: Option<Id>, ms: seq<Message>)
    requires ms != []
    ensures FromSelectedOnly(selected, ms)
      == (if FromSelected(selected, ms[0]) then [ms[0]] else []) + FromSelectedOnly(selected, ms[1..])
  {
  }

  /** A run of messages never changes the selection, and the thread grows by
      exactly the ones from the open conversation, in arrival order. */
  lemma {:induction false} ReceiveAllThread(s: ChatState, ms: seq<Message>)
    ensures ReceiveAll(s, ms).selected == s.selected
    ensures ReceiveAll(s, ms).thread == s.thread + FromSelectedOnly(s.selected, ms)
    decreases |ms|
  {
    if ms == [] {
      assert FromSelectedOnly(s.selected, ms) == [];
    } else {
      var next := Receive(s, ms[0]);
      assert ReceiveAll(s, ms) == ReceiveAll(next, ms[1..]);
      var head := if FromSelected(s.selected, ms[0]) then [ms[0]] else [];
      assert next.selected == s.selected && next.thread == s.thread + head;
      var rest := FromSelectedOnly(s.selected, ms[1..]);
      ReceiveAllThread(next, ms[1..]);
      FromSelectedOnlyCons(s.selected, ms);
      assert s.thread + head + rest == s.thread + (head + rest);
    }
  }

  /** A run of messages raises the counter of a sender that is not open by
      the number of messages it sent. */
  lemma {:induction false} ReceiveAllCounts(s: ChatState, ms: seq<Message>, id: Id)
    requires Some(id) != s.selected
    ensures UnreadOf(ReceiveAll(s, ms).unread, id) == UnreadOf(s.unread, id) + SentBy(ms, id)
    decreases |ms|
  {
    if ms != [] {
      var next := Receive(s, ms[0]);
      assert next.selected == s.selected;
      ReceiveAllCounts(next, ms[1..], id);
      SentByCons(ms, id);
    }
  }

  /** Whatever run of messages arrives while one conversation is open, the
      thread grows by exactly the ones from that sender, in arrival order, and
      every other sender's counter grows by the number of messages it sent. */
  lemma ReceiveAllSplits(s: ChatState, ms: seq<Message>)
    ensures ReceiveAll(s, ms).selected == s.selected
    ensures ReceiveAll(s, ms).thread == s.thread + FromSelectedOnly(s.selected, ms)
    ensures forall id :: Some(id) != s.selected ==>
      UnreadOf(ReceiveAll(s, ms).unread, id) == UnreadOf(s.unread, id) + SentBy(ms, id)
  {
    ReceiveAllThread(s, ms);
    forall id | Some(id) != s.selected
      ensures UnreadOf(ReceiveAll(s, ms).unread, id) == UnreadOf(s.unread, id) + SentBy(ms, id)
    {
      ReceiveAllCounts(s, ms, id);
    }
  }

  /** The open conversation's counter never rises: once its history has
      loaded it reads 0 and stays 0 whatever arrives. */
  lemma {:induction false} SelectedStaysRead(s: ChatState, ms: seq<Message>)
    requires s.selected.Some? && UnreadOf(s.unread, s.selected.value) == 0
    ensures UnreadOf(ReceiveAll(s, ms).unread, s.selected.value) == 0
    ensures !ShowsBadge(ReceiveAll(s, ms), s.selected.value)
    decreases |ms|
  {
    if ms != [] {
      SelectedStaysRead(Receive(s, ms[0]), ms[1..]);
    }
  }

  /** A successful history load replaces the thread and marks the sender
      read; a failed one leaves the thread and sets the error. Either way the
      screen stops loading. */
  lemma HistoryLoadOutcomes(s: ChatState, outcome: Response<seq<Message>>)
    requires s.selected.Some?
    ensures outcome.Ok? ==>
      && HistoryLoaded(s, outcome).thread == outcome.data
      && UnreadOf(HistoryLoaded(s, outcome).unread, s.selected.value) == 0
      && !ShowsBadge(HistoryLoaded(s, outcome), s.selected.value)
    ensures outcome.Failed? ==>
      && HistoryLoaded(s, outcome).thread == s.thread
      && HistoryLoaded(s, outcome).error == LoadMessagesError
    ensures !HistoryLoaded(s, outcome).loading
  {
  }

  /** A blank draft or no open conversation: no request, no change at all. */
  lemma SendGuardIsNoOp(s: ChatState, outcome: Response<Message>)
    requires IsBlank(s.draft) || s.selected.None?
    ensures ComposeReply(s.selected, s.draft) == None
    ensures Sent(s, outcome) == s
  {
  }

  /** A successful send posts the trimmed draft to the open conversation,
      appends exactly the server's message and empties the composer. */
  lemma SuccessfulSend(s: ChatState, m: Message)
    requires !IsBlank(s.draft) && s.selected.Some?
    ensures ComposeReply(s.selected, s.draft) == Some(Reply(s.selected.value, Trim(s.draft)))
    ensures Sent(s, Ok(m)).thread == s.thread + [m]
    ensures Sent(s, Ok(m)).draft == ""
    ensures Sent(s, Ok(m)).unread == s.unread
  {
  }

  /** After a successful send the composer is empty, so sending again
      posts nothing. */
  lemma NoSecondSend(s: ChatState, m: Message, again: Response<Message>)
    requires !IsBlank(s.draft) && s.selected.Some?
    ensures ComposeReply(Sent(s, Ok(m)).selected, Sent(s, Ok(m)).draft) == None
    ensures Sent(Sent(s, Ok(m)), again) == Sent(s, Ok(m))
  {
    assert IsBlank("");
  }

  /** A failed send keeps the draft word for word, leaves the thread and
      sets the send error. */
  lemma FailedSendKeepsDraft(s: ChatState, e: HttpError)
    requires !IsBlank(s.draft) && s.selected.Some?
    ensures Sent(s, Failed(e)).draft == s.draft
    ensures Sent(s, Failed(e)).thread == s.thread
    ensures Sent(s, Failed(e)).error == SendError
  {
  }
}
