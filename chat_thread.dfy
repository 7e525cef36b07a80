/** What the two chat screens (src/components/VolunteerChat.js and
    src/components/EventManagerChat.js) share: the message record, the reply
    the composer posts, the date separators of a thread and the media kinds. */
module ChatThread {
  import opened Base
  import opened Strings
  import Seqs

  /** An attachment: `media.type` and `media.url`. */
  datatype Media = Media(kind: string, url: string)

  /** A message as the server sends it. `createdAt` is an instant; the
      calendar day it falls on is given separately by the viewer's locale. */
  datatype Message = Message(id: Id, sender: Id, text: string, createdAt: int, media: Option<Media>)

  /** The body of `POST /chat/reply`. */
  datatype Reply = Reply(recipientId: Id, message: string)

  /** `API.defaults.baseURL` (src/api.js). */
  const ApiBaseUrl := "https://vms-be-bwb0.onrender.com/api"

  /** Whether `m` was sent by the selected counterpart. */
  predicate FromSelected(selected: Option<Id>, m: Message) {
    selected == Some(m.sender)
  }

  /** The messages of `ms` the open thread takes in, in arrival order. */
  function FromSelectedOnly(selected: Option<Id>, ms: seq<Message>): seq<Message> {
    Seqs.Filter((m: Message) => FromSelected(selected, m), ms)
  }

  /** The request `handleSendMessage` makes, if any: none when the draft is
      blank or no counterpart is selected; otherwise the selected id with the
      trimmed draft. */
  function ComposeReply(selected: Option<Id>, draft: string): (r: Option<Reply>)
    ensures r.None? <==> IsBlank(draft) || selected.None?
    ensures r.Some? ==> r.value.recipientId == selected.value && r.value.message == Trim(draft)
  {
    if IsBlank(draft) || selected.None? then None
    else Some(Reply(selected.value, Trim(draft)))
  }

  /** What is posted is never blank, and is already trimmed. */
  lemma ReplyNeverBlank(selected: Option<Id>, draft: string)
    requires ComposeReply(selected, draft).Some?
    ensures !IsBlank(ComposeReply(selected, draft).value.message)
    ensures Trim(ComposeReply(selected, draft).value.message) == ComposeReply(selected, draft).value.message
  {
    TrimIdempotent(draft);
  }

  // ---------------------------------------------------------------------
  // Date separators

  /** Whether each message is preceded by a date separator, walking the thread
      as `messages.map` does: a message gets one when its day differs from the
      previous message's (`prev` is None before the first message, whose
      empty previous label never equals a date). */
  function SeparatorsAfter(prev: Option<int>, thread: seq<Message>, dayOf: int -> int): (r: seq<bool>)
    ensures |r| == |thread|
    decreases |thread|
  {
    if thread == [] then []
    else
      var day := dayOf(thread[0].createdAt);
      [prev != Some(day)] + SeparatorsAfter(Some(day), thread[1..], dayOf)
  }

  function Separators(thread: seq<Message>, dayOf: int -> int): (r: seq<bool>)
    ensures |r| == |thread|
  {
    SeparatorsAfter(None, thread, dayOf)
  }

  /** The day of message `i`. */
  function DayAt(thread: seq<Message>, dayOf: int -> int, i: int): int
    requires 0 <= i < |thread|
  {
    dayOf(thread[i].createdAt)
  }

  lemma {:induction false} SeparatorsAfterAt(prev: Option<int>, thread: seq<Message>, dayOf: int -> int)
    ensures |SeparatorsAfter(prev, thread, dayOf)| == |thread|
    ensures forall i :: 0 <= i < |thread| ==>
      (SeparatorsAfter(prev, thread, dayOf)[i] <==>
        if i == 0 then prev != Some(DayAt(thread, dayOf, 0))
        else DayAt(thread, dayOf, i) != DayAt(thread, dayOf, i - 1))
    decreases |thread|
  {
    if thread != [] {
      var rest := thread[1..];
      SeparatorsAfterAt(Some(DayAt(thread, dayOf, 0)), rest, dayOf);
      forall i | 1 <= i < |thread|
        ensures SeparatorsAfter(prev, thread, dayOf)[i] <==> DayAt(thread, dayOf, i) != DayAt(thread, dayOf, i - 1)
      {
        assert DayAt(rest, dayOf, i - 1) == DayAt(thread, dayOf, i);
        if i > 1 {
          assert DayAt(rest, dayOf, i - 2) == DayAt(thread, dayOf, i - 1);
        }
      }
    }
  }

  /** A separator precedes message i exactly when i is 0 or its day differs
      from the day of message i - 1. */
  lemma SeparatorRule(thread: seq<Message>, dayOf: int -> int)
    ensures |Separators(thread, dayOf)| == |thread|
    ensures forall i :: 0 <= i < |thread| ==>
      (Separators(thread, dayOf)[i] <==> i == 0 || DayAt(thread, dayOf, i) != DayAt(thread, dayOf, i - 1))
  {
    SeparatorsAfterAt(None, thread, dayOf);
  }

  /** The thread is in day order (as the server's history is). */
  predicate DaysAscending(thread: seq<Message>, dayOf: int -> int) {
    forall i, j :: 0 <= i < j < |thread| ==> DayAt(thread, dayOf, i) <= DayAt(thread, dayOf, j)
  }

  /** The first index from `k` downwards that still has the day of `k`. */
  lemma {:induction false} FirstOfDay(thread: seq<Message>, dayOf: int -> int, k: int) returns (i: int)
    requires 0 <= k < |thread|
    ensures 0 <= i <= k && DayAt(thread, dayOf, i) == DayAt(thread, dayOf, k)
    ensures i == 0 || DayAt(thread, dayOf, i - 1) != DayAt(thread, dayOf, k)
    decreases k
  {
    if k == 0 || DayAt(thread, dayOf, k - 1) != DayAt(thread, dayOf, k) {
      i := k;
    } else {
      i := FirstOfDay(thread, dayOf, k - 1);
    }
  }

  /** In a thread ordered by day, every day that occurs gets exactly one
      separator, placed before its first message. */
  lemma OneSeparatorPerDay(thread: seq<Message>, dayOf: int -> int, k: int)
    requires DaysAscending(thread, dayOf)
    requires 0 <= k < |thread|
    ensures exists i :: 0 <= i <= k && Separators(thread, dayOf)[i] && DayAt(thread, dayOf, i) == DayAt(thread, dayOf, k)
    ensures forall i, j :: 0 <= i < j < |thread| && Separators(thread, dayOf)[i] && Separators(thread, dayOf)[j] ==>
      DayAt(thread, dayOf, i) != DayAt(thread, dayOf, j)
  {
    SeparatorRule(thread, dayOf);
    var i := FirstOfDay(thread, dayOf, k);
    assert Separators(thread, dayOf)[i];
    forall i, j | 0 <= i < j < |thread| && Separators(thread, dayOf)[i] && Separators(thread, dayOf)[j]
      ensures DayAt(thread, dayOf, i) != DayAt(thread, dayOf, j)
    {
      assert DayAt(thread, dayOf, i) <= DayAt(thread, dayOf, j - 1) < DayAt(thread, dayOf, j);
    }
  }

  /** The three-message thread of 10:00 and 15:00 on one day and 09:00 on the
      next (instants in minutes, days of 1440 minutes) shows two separators,
      before the first and the third message. */
  lemma TwoDaysTwoSeparators()
    ensures var day := (t: int) => t / 1440;
      var thread := [Message("a", "x", "", 600, None), Message("b", "x", "", 900, None),
                     Message("c", "x", "", 1440 + 540, None)];
      Separators(thread, day) == [true, false, true]
  {
  }

  // ---------------------------------------------------------------------
  // Media

  /** What a message's attachment renders as. */
  datatype MediaView = NoMedia | Image(src: string) | Video(src: string)

  /** `renderMediaContent` / `renderMedia`: a photo becomes an image and a
      video a player, both pointing at the base URL followed by the media
      path; no media, or any other kind, renders nothing. */
  function RenderMedia(m: Message): (v: MediaView)
    ensures v.NoMedia? <==> m.media.None? || (m.media.value.kind != "photo" && m.media.value.kind != "video")
    ensures v.Image? <==> m.media.Some? && m.media.value.kind == "photo"
    ensures !v.NoMedia? ==> v.src == ApiBaseUrl + m.media.value.url
  {
    match m.media
    case None => NoMedia
    case Some(media) =>
      var url := ApiBaseUrl + media.url;
      if media.kind == "photo" then Image(url)
      else if media.kind == "video" then Video(url)
      else NoMedia
  }
}
