/** The event manager's chat screen (src/components/EventManagerChat.js). It
    differs from the volunteer's screen in three ways: messages from anyone
    but the open conversation are dropped, the unread badge is the count the
    server sent with the sender list, and loading history clears the error. */
module EventManagerChat {
  import opened Base
  import opened Strings
  import opened ChatThread

  /** A volunteer in the side list, with the server's unread count. */
  datatype Sender = Sender(id: Id, name: string, unreadCount: int)

  datatype ChatState = ChatState(
    senders: seq<Sender>,
    selected: Option<Id>,
    thread: seq<Message>,
    draft: string,
    loading: bool,
    error: string)

  const Initial := ChatState([], None, [], "", false, "")

  const LoadSendersError := "Failed to load conversations"
  const LoadMessagesError := "Failed to load messages"
  const SendError := "Could not send message"

  /** Whether the sender's row shows a badge, and with it the count. */
  predicate ShowsBadge(sender: Sender) {
    sender.unreadCount > 0
  }

  // ---------------------------------------------------------------------
  // The transitions, as functions of the state

  /** The `receiveMessage` listener. */
  function Receive(s: ChatState, m: Message): ChatState {
    if FromSelected(s.selected, m) then s.(thread := s.thread + [m]) else s
  }

  function ReceiveAll(s: ChatState, ms: seq<Message>): ChatState
    decreases |ms|
  {
    if ms == [] then s else ReceiveAll(Receive(s, ms[0]), ms[1..])
  }

  /** `getSenders`. */
  function SendersLoaded(s: ChatState, outcome: Response<seq<Sender>>): ChatState {
    match outcome
    case Ok(list) => s.(senders := list, error := "")
    case Failed(_) => s.(error := LoadSendersError)
  }

  /** The history-load effect: clears the error before asking. */
  function HistoryLoaded(s: ChatState, outcome: Response<seq<Message>>): ChatState {
    if s.selected.None? then s
    else match outcome
      case Ok(history) => s.(thread := history, error := "", loading := false)
      case Failed(_) => s.(error := LoadMessagesError, loading := false)
  }

  /** `handleSendMessage`, given what `POST /chat/reply` answers. */
  function Sent(s: ChatState, outcome: Response<Message>): ChatState {
    if IsBlank(s.draft) || s.selected.None? then s
    else match outcome
      case Ok(m) => s.(thread := s.thread + [m], draft := "", loading := false)
      case Failed(_) => s.(error := SendError, loading := false)
  }

  // ---------------------------------------------------------------------
  // The screen

  class EventManagerChatPage {
    var senders: seq<Sender>
    var selected: Option<Id>
    var thread: seq<Message>
    var draft: string
    var loading: bool
    var error: string

    ghost function Model(): ChatState
      reads this
    {
      ChatState(senders, selected, thread, draft, loading, error)
    }

    constructor ()
      ensures Model() == Initial
    {
      senders, selected, thread := [], None, [];
      draft, loading, error := "", false, "";
    }

    method GetSenders(outcome: Response<seq<Sender>>)
      modifies this
      ensures Model() == SendersLoaded(old(Model()), outcome)
    {
      error := "";
      if outcome.Ok? {
        senders := outcome.data;
      } else {
        error := LoadSendersError;
      }
    }

    method SelectSender(id: Id)
      modifies this
      ensures Model() == old(Model()).(selected := Some(id))
    {
      selected := Some(id);
    }

    method EditDraft(text: string)
      modifies this
      ensures Model() == old(Model()).(draft := text)
    {
      draft := text;
    }

    method ReceiveMessage(m: Message)
      modifies this
      ensures Model() == Receive(old(Model()), m)
    {
      if selected.Some? && m.sender == selected.value {
        thread := thread + [m];
      }
    }

    method LoadMessages(outcome: Response<seq<Message>>)
      modifies this
      ensures Model() == HistoryLoaded(old(Model()), outcome)
    {
      if selected.Some? {
        loading := true;
        error := "";
        match outcome {
          case Ok(history) =>
            thread := history;
          case Failed(_) =>
            error := LoadMessagesError;
        }
        loading := false;
      }
    }

    method HandleSendMessage(outcome: Response<Message>) returns (request: Option<Reply>)
      modifies this
      ensures request == ComposeReply(old(selected), old(draft))
      ensures Model() == Sent(old(Model()), outcome)
    {
      request := ComposeReply(selected, draft);
      if request.Some? {
        loading := true;
        match outcome {
          case Ok(m) =>
            thread := thread + [m];
            draft := "";
          case Failed(_) =>
            error := SendError;
        }
        loading := false;
      }
    }
  }

  // ---------------------------------------------------------------------
  // Properties

  /** A message from the open conversation is appended; any other one, or
      one arriving with nothing open, changes nothing at all. */
  lemma ReceiveAppendsOrDrops(s: ChatState, m: Message)
    ensures FromSelected(s.selected, m) ==> Receive(s, m).thread == s.thread + [m]
    ensures !FromSelected(s.selected, m) ==> Receive(s, m) == s
  {
  }

  /** Over any run of arrivals the thread grows by exactly the messages from
      the open conversation, in arrival order, and nothing else changes. */
  lemma {:induction false} ReceiveAllKeepsOnlySelected(s: ChatState, ms: seq<Message>)
    ensures ReceiveAll(s, ms) == s.(thread := s.thread + FromSelectedOnly(s.selected, ms))
    decreases |ms|
  {
    if ms != [] {
      ReceiveAllKeepsOnlySelected(Receive(s, ms[0]), ms[1..]);
      assert FromSelectedOnly(s.selected, ms)
        == (if FromSelected(s.selected, ms[0]) then [ms[0]] else []) + FromSelectedOnly(s.selected, ms[1..]);
    }
  }

  /** A history load clears the error first: success replaces the thread and
      leaves no error, failure keeps the thread and reports. */
  lemma HistoryLoadOutcomes(s: ChatState, outcome: Response<seq<Message>>)
    requires s.selected.Some?
    ensures outcome.Ok? ==> HistoryLoaded(s, outcome).thread == outcome.data && HistoryLoaded(s, outcome).error == ""
    ensures outcome.Failed? ==>
      && HistoryLoaded(s, outcome).thread == s.thread
      && HistoryLoaded(s, outcome).error == LoadMessagesError
    ensures !HistoryLoaded(s, outcome).loading
  {
  }

  lemma SendGuardIsNoOp(s: ChatState, outcome: Response<Message>)
    requires IsBlank(s.draft) || s.selected.None?
    ensures ComposeReply(s.selected, s.draft) == None
    ensures Sent(s, outcome) == s
  {
  }

  /** Success appends the server's message and clears the draft; failure
      keeps the draft and the thread and sets 'Could not send message'. */
  lemma SendOutcomes(s: ChatState, outcome: Response<Message>)
    requires !IsBlank(s.draft) && s.selected.Some?
    ensures outcome.Ok? ==> Sent(s, outcome).thread == s.thread + [outcome.data] && Sent(s, outcome).draft == ""
    ensures outcome.Failed? ==>
      && Sent(s, outcome).draft == s.draft
      && Sent(s, outcome).thread == s.thread
      && Sent(s, outcome).error == SendError
  {
  }

  /** Nothing but the sender-list load writes the list: receiving, loading a
      history and sending all keep it, so the badges keep the server's
      counts. */
  lemma SendersOnlyFromServer(s: ChatState, m: Message, h: Response<seq<Message>>, o: Response<Message>)
    ensures Receive(s, m).senders == s.senders
    ensures HistoryLoaded(s, h).senders == s.senders
    ensures Sent(s, o).senders == s.senders
  {
  }

  /** The badge is the server's count and nothing else: however many
      messages arrive, from the open conversation or any other, every
      sender's badge shows exactly when the fetched count is positive. */
  lemma {:induction false} BadgesStayUntilRefetch(s: ChatState, ms: seq<Message>)
    ensures ReceiveAll(s, ms).senders == s.senders
    ensures forall i :: 0 <= i < |s.senders| ==>
      (ShowsBadge(ReceiveAll(s, ms).senders[i]) <==> s.senders[i].unreadCount > 0)
    decreases |ms|
  {
    if ms != [] {
      BadgesStayUntilRefetch(Receive(s, ms[0]), ms[1..]);
    }
  }
}
