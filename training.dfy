/** The training-video page (src/components/Training.js): the manager's
    list of uploaded videos, filtered by event, reordered one step at a
    time, and the upload form. */
module Training {
  import opened Base
  import opened Strings
  import Seqs

  /** A training video; `eventId` is the id of its populated event. A
      missing `order` is JavaScript's undefined. */
  datatype Video = Video(id: Id, eventId: Id, title: string, order: Option<int>, videoUrl: string)

  datatype EventOption = EventOption(id: Id, title: string)

  /** The body of `PUT /training/order/<eventId>`. */
  datatype OrderRequest = OrderRequest(eventId: Id, trainingId: Id, newOrder: int)

  /** The parts of `POST /training/upload`. */
  datatype UploadRequest = UploadRequest(eventId: Id, title: string, video: File)

  const SelectEventError := "Please select an event"
  const TitleError := "Please enter a title"
  const FileError := "Please select a video file"
  const UploadError := "Failed to upload training video"
  const ReorderError := "Failed to reorder training video"
  const DeleteError := "Failed to delete training video"
  const LoadVideosError := "Failed to load training videos"
  const LoadEventsError := "Failed to load events"
  const DefaultApiUrl := "https://vms-be-bwb0.onrender.com"

  // ---------------------------------------------------------------------
  // The event filter

  /** `filteredVideos`: everything for the empty filter, otherwise the
      videos of that event in list order. */
  function Shown(videos: seq<Video>, filterEvent: Id): seq<Video> {
    if filterEvent == "" then videos else Seqs.Filter((v: Video) => v.eventId == filterEvent, videos)
  }

  /** The empty filter shows every video; any other shows exactly the
      videos of that event, as an order-preserving sub-list. */
  lemma ShownIsTheEventsVideos(videos: seq<Video>, filterEvent: Id)
    ensures filterEvent == "" ==> Shown(videos, filterEvent) == videos
    ensures filterEvent != "" ==>
      && (forall v :: v in Shown(videos, filterEvent) <==> v in videos && v.eventId == filterEvent)
      && Seqs.IsSubsequence(Shown(videos, filterEvent), videos)
  {
  }

  // ---------------------------------------------------------------------
  // Reordering

  /** `video.order || 0`. */
  function OrderOf(v: Video): int {
    if v.order.Some? then v.order.value else 0
  }

  /** `findIndex(v => v._id === id)` (and `find`, which picks the same one). */
  function FindIndex(videos: seq<Video>, id: Id): (r: Option<nat>)
    ensures r.Some? ==>
      && r.value < |videos| && videos[r.value].id == id
      && forall k :: 0 <= k < r.value ==> videos[k].id != id
    ensures r.None? ==> forall k :: 0 <= k < |videos| ==> videos[k].id != id
  {
    if videos == [] then None
    else if videos[0].id == id then Some(0)
    else match FindIndex(videos[1..], id)
      case None => None
      case Some(k) => Some(k + 1)
  }

  /** The order the server is asked to give the video. */
  function NewOrder(v: Video, up: bool): int {
    if up then OrderOf(v) - 1 else OrderOf(v) + 1
  }

  /** Whether the client even asks: the video is listed and the new order
      lies in [0, number of videos). The bound is on the order field, not on
      the video's place in the list. */
  predicate Asks(videos: seq<Video>, id: Id, up: bool) {
    var i := FindIndex(videos, id);
    i.Some? && 0 <= NewOrder(videos[i.value], up) < |videos|
  }

  /** The list with the `order` fields of places i and j exchanged. */
  function SwapOrders(videos: seq<Video>, i: nat, j: nat): (r: seq<Video>)
    requires i < |videos| && j < |videos| && i != j
    ensures |r| == |videos|
    ensures r[i].order == videos[j].order && r[j].order == videos[i].order
    ensures forall k :: 0 <= k < |videos| ==> r[k] == videos[k].(order := r[k].order)
    ensures forall k :: 0 <= k < |videos| && k != i && k != j ==> r[k] == videos[k]
  {
    videos[i := videos[i].(order := videos[j].order)][j := videos[j].(order := videos[i].order)]
  }

  /** The neighbour `handleReorder` swaps with: the place before for 'up',
      after otherwise. It may lie outside the list. */
  function Neighbour(i: nat, up: bool): int {
    if up then i - 1 else i + 1
  }

  /** What a reorder ends in, once the request was made. */
  datatype ReorderResult = Reordered(videos: seq<Video>) | ReorderFailed

  /** The local update after the server accepted (`answered`) or refused the
      new order: swap with the neighbour and sort by order; a refused request
      or a neighbour outside the list (the swap reads `undefined.order` and
      throws) ends in the error instead. */
  function AfterReorder(videos: seq<Video>, i: nat, up: bool, accepted: bool): ReorderResult
    requires i < |videos|
  {
    var j := Neighbour(i, up);
    if !accepted || j < 0 || j >= |videos| then ReorderFailed
    else Reordered(Seqs.SortBy(OrderOf, SwapOrders(videos, i, j)))
  }

  /** A successful reorder yields a list sorted by order that holds the same
      videos, only the moved video and its neighbour having exchanged their
      order fields. */
  lemma ReorderPermutes(videos: seq<Video>, i: nat, up: bool)
    requires i < |videos|
    requires AfterReorder(videos, i, up, true).Reordered?
    ensures var j := Neighbour(i, up);
      && 0 <= j < |videos|
      && var r := AfterReorder(videos, i, up, true).videos;
      && Seqs.SortedBy(OrderOf, r)
      && multiset(r) == multiset(SwapOrders(videos, i, j))
      && |r| == |videos|
  {
  }

  /** The swap itself changes nothing but the two order fields: every
      video keeps its id, event, title and URL, so the ids of the list are a
      permutation of the ids before. */
  lemma {:induction false} SwapKeepsIds(videos: seq<Video>, i: nat, j: nat)
    requires i < |videos| && j < |videos| && i != j
    ensures multiset(IdsOf(SwapOrders(videos, i, j))) == multiset(IdsOf(videos))
  {
    assert IdsOf(SwapOrders(videos, i, j)) == IdsOf(videos);
  }

  function IdsOf(videos: seq<Video>): (r: seq<Id>)
    ensures |r| == |videos|
    ensures forall k :: 0 <= k < |videos| ==> r[k] == videos[k].id
  {
    if videos == [] then [] else [videos[0].id] + IdsOf(videos[1..])
  }

  /** Taking out place k of a list takes its id out of the list of ids. */
  lemma IdsWithout(b: seq<Video>, k: nat)
    requires k < |b|
    ensures multiset(IdsOf(b)) == multiset(IdsOf(b[..k] + b[k + 1..])) + multiset{b[k].id}
  {
    var ids := IdsOf(b);
    var c := b[..k] + b[k + 1..];
    var d := ids[..k] + ids[k + 1..];
    assert |IdsOf(c)| == |d|;
    forall i | 0 <= i < |d| ensures IdsOf(c)[i] == d[i] {
      if i < k {
        assert c[i] == b[i];
      } else {
        assert c[i] == b[i + 1];
      }
    }
    assert IdsOf(c) == d;
    Seqs.MultisetWithout(ids, k);
  }

  /** Lists holding the same videos hold the same ids. */
  lemma {:induction false} IdsOfMultiset(a: seq<Video>, b: seq<Video>)
    requires multiset(a) == multiset(b)
    ensures multiset(IdsOf(a)) == multiset(IdsOf(b))
    decreases |a|
  {
    if a != [] {
      assert a[0] in multiset(b);
      var k :| 0 <= k < |b| && b[k] == a[0];
      var rest := b[..k] + b[k + 1..];
      Seqs.RemoveCommon(a, b, 0, k);
      assert a[..0] + a[1..] == a[1..];
      IdsOfMultiset(a[1..], rest);
      IdsWithout(a, 0);
      IdsWithout(b, k);
    }
  }

  /** After a successful reorder the page lists exactly the same videos (by
      id, with multiplicity) as before. */
  lemma ReorderKeepsVideos(videos: seq<Video>, i: nat, up: bool)
    requires i < |videos|
    requires AfterReorder(videos, i, up, true).Reordered?
    ensures multiset(IdsOf(AfterReorder(videos, i, up, true).videos)) == multiset(IdsOf(videos))
  {
    var j := Neighbour(i, up);
    var swapped := SwapOrders(videos, i, j);
    IdsOfMultiset(Seqs.SortBy(OrderOf, swapped), swapped);
    SwapKeepsIds(videos, i, j);
  }

  // ---------------------------------------------------------------------
  // Video URLs

  /** `videoUrl.replace(/^undefined/, '')`. */
  function StripUndefined(s: string): string {
    if StartsWith(s, "undefined") then s[9..] else s
  }

  /** `getVideoUrl`, given `REACT_APP_API_URL` as `env`. */
  function VideoUrl(url: Option<string>, env: Option<string>): (r: string)
    ensures !Truthy(url) ==> r == ""
    ensures Truthy(url) && StartsWith(url.value, "http") ==> r == url.value
    ensures Truthy(url) && !StartsWith(url.value, "http") ==>
      r == OrDefault(env, DefaultApiUrl) + StripUndefined(url.value)
  {
    if !Truthy(url) then ""
    else if StartsWith(url.value, "http") then url.value
    else OrDefault(env, DefaultApiUrl) + StripUndefined(url.value)
  }

  /** A relative path is resolved against the API's origin (by default the
      hosted back end) once and for all: with a base starting with 'http',
      resolving the resolved URL again changes nothing. */
  lemma VideoUrlIdempotent(url: Option<string>, env: Option<string>)
    requires Truthy(url)
    requires StartsWith(OrDefault(env, DefaultApiUrl), "http")
    ensures VideoUrl(Some(VideoUrl(url, env)), env) == VideoUrl(url, env)
  {
    var r := VideoUrl(url, env);
    var base := OrDefault(env, DefaultApiUrl);
    if !StartsWith(url.value, "http") {
      assert r[..4] == base[..4];
    }
  }

  /** The default base begins with 'http', so without the variable every
      resolved URL is absolute. */
  lemma DefaultBaseIsAbsolute()
    ensures StartsWith(DefaultApiUrl, "http")
  {
  }

  // ---------------------------------------------------------------------
  // Uploading

  /** The checks of `handleUpload`, in order. */
  function UploadCheck(selectedEvent: Id, title: string, video: Option<File>): Option<string> {
    if selectedEvent == "" then Some(SelectEventError)
    else if IsBlank(title) then Some(TitleError)
    else if video.None? then Some(FileError)
    else None
  }

  /** A checked form posts the trimmed title, which is never blank. */
  lemma UploadTitleIsTrimmed(selectedEvent: Id, title: string, video: Option<File>)
    requires UploadCheck(selectedEvent, title, video).None?
    ensures selectedEvent != "" && video.Some?
    ensures !IsBlank(Trim(title)) && Trim(title) != ""
  {
    TrimIdempotent(title);
  }

  // ---------------------------------------------------------------------
  // The page

  /** The page's state: `trainingVideos`, `events`, `filterEvent`,
      `selectedEvent`, `uploadData`'s title and video, `showUploadModal`,
      `isLoading` and `error`. */
  datatype PageState = PageState(
    videos: seq<Video>,
    events: seq<EventOption>,
    filterEvent: Id,
    selectedEvent: Id,
    title: string,
    video: Option<File>,
    showUpload: bool,
    loading: bool,
    error: string)

  class TrainingPage {
    var videos: seq<Video>
    var events: seq<EventOption>
    var filterEvent: Id
    var selectedEvent: Id
    var title: string
    var video: Option<File>
    var showUpload: bool
    var loading: bool
    var error: string

    ghost function Model(): PageState
      reads this
    {
      PageState(videos, events, filterEvent, selectedEvent, title, video, showUpload, loading, error)
    }

    constructor ()
      ensures Model() == PageState([], [], "", "", "", None, false, false, "")
    {
      videos, events, filterEvent, selectedEvent := [], [], "", "";
      title, video, showUpload, loading, error := "", None, false, false, "";
    }

    /** What the list shows. */
    function Filtered(): seq<Video>
      reads this
    {
      Shown(videos, filterEvent)
    }

    /** `loadEvents`, at completion of `GET /events/created`. */
    method LoadEvents(outcome: Response<seq<EventOption>>)
      modifies this
      ensures outcome.Ok? ==> Model() == old(Model()).(events := outcome.data)
      ensures outcome.Failed? ==> Model() == old(Model()).(error := LoadEventsError)
    {
      if outcome.Ok? {
        events := outcome.data;
      } else {
        error := LoadEventsError;
      }
    }

    /** `loadTrainingVideos`, at completion of `GET /training/user`. */
    method LoadTrainingVideos(outcome: Response<seq<Video>>)
      modifies this
      ensures outcome.Ok? ==> Model() == old(Model()).(videos := outcome.data, loading := false)
      ensures outcome.Failed? ==> Model() == old(Model()).(error := LoadVideosError, loading := false)
    {
      loading := true;
      if outcome.Ok? {
        videos := outcome.data;
      } else {
        error := LoadVideosError;
      }
      loading := false;
    }

    /** The filter selector; the list shown follows it. */
    method SetFilter(ev: Id)
      modifies this
      ensures Model() == old(Model()).(filterEvent := ev)
      ensures Filtered() == Shown(old(videos), ev)
    {
      filterEvent := ev;
    }

    /** The upload button opens the dialog. */
    method OpenUpload()
      modifies this
      ensures Model() == old(Model()).(showUpload := true)
    {
      showUpload := true;
    }

    /** Cancel in the dialog closes it and keeps what was typed. */
    method CancelUpload()
      modifies this
      ensures Model() == old(Model()).(showUpload := false)
    {
      showUpload := false;
    }

    /** The upload form's inputs: the event selector, the title and the file
        picker (`handleFileChange` keeps the old file when none is picked). */
    method EditUpload(ev: Id, newTitle: string, chosen: Option<File>)
      modifies this
      ensures Model() == old(Model()).(selectedEvent := ev, title := newTitle,
                                       video := if chosen.Some? then chosen else old(video))
    {
      selectedEvent := ev;
      title := newTitle;
      if chosen.Some? {
        video := chosen;
      }
    }

    /** `handleUpload`: returns the upload it posts, if any, and whether
        the list is to be reloaded. A success closes the dialog, resets the
        form and asks for the reload, which is the next `LoadTrainingVideos`. */
    method HandleUpload(outcome: Response<bool>) returns (request: Option<UploadRequest>, reload: bool)
      modifies this
      ensures reload <==> request.Some? && outcome.Ok?
      ensures var check := UploadCheck(old(selectedEvent), old(title), old(video));
        check.Some? ==> request.None? && Model() == old(Model()).(error := check.value, loading := false)
      ensures UploadCheck(old(selectedEvent), old(title), old(video)).None? ==>
        request == Some(UploadRequest(old(selectedEvent), Trim(old(title)), old(video).value))
      ensures UploadCheck(old(selectedEvent), old(title), old(video)).None? && outcome.Ok? ==>
        Model() == old(Model()).(showUpload := false, title := "", video := None, error := "", loading := false)
      ensures UploadCheck(old(selectedEvent), old(title), old(video)).None? && outcome.Failed? ==>
        Model() == old(Model()).(error := OrDefault(outcome.failure.body.message, UploadError), loading := false)
    {
      loading := true;
      error := "";
      request, reload := None, false;
      if selectedEvent == "" {
        error := SelectEventError;
      } else if IsBlank(title) {
        error := TitleError;
      } else if video.None? {
        error := FileError;
      } else {
        request := Some(UploadRequest(selectedEvent, Trim(title), video.value));
        if outcome.Ok? {
          showUpload := false;
          title := "";
          video := None;
          reload := true;
        } else {
          error := OrDefault(outcome.failure.body.message, UploadError);
        }
      }
      loading := false;
    }

    /** `handleDelete`: asks only after confirmation; a success asks for
        the list to be reloaded, which is the next `LoadTrainingVideos`. */
    method HandleDelete(id: Id, confirmed: bool, outcome: Response<bool>) returns (request: Option<Id>, reload: bool)
      modifies this
      ensures request == (if confirmed then Some(id) else None)
      ensures reload <==> confirmed && outcome.Ok?
      ensures confirmed && outcome.Failed? ==> Model() == old(Model()).(error := DeleteError)
      ensures !(confirmed && outcome.Failed?) ==> Model() == old(Model())
    {
      request, reload := None, false;
      if confirmed {
        request := Some(id);
        if outcome.Failed? {
          error := DeleteError;
        } else {
          reload := true;
        }
      }
    }

    /** `handleReorder(id, up ? 'up' : 'down')`, given the server's answer to
        the order update. The list is copied into an array, the order fields
        of the video and its neighbour are exchanged in place and the array
        is sorted by order. */
    method HandleReorder(id: Id, up: bool, accepted: bool) returns (request: Option<OrderRequest>)
      modifies this
      ensures !Asks(old(videos), id, up) ==> request.None? && Model() == old(Model())
      ensures Asks(old(videos), id, up) ==>
        var i := FindIndex(old(videos), id).value;
        && request == Some(OrderRequest(old(videos)[i].eventId, id, NewOrder(old(videos)[i], up)))
        && match AfterReorder(old(videos), i, up, accepted)
           case Reordered(r) => Model() == old(Model()).(videos := r)
           case ReorderFailed => Model() == old(Model()).(error := ReorderError)
    {
      request := None;
      var found := FindIndex(videos, id);
      if found.None? {
        return;
      }
      var i := found.value;
      var newOrder := NewOrder(videos[i], up);
      if newOrder < 0 || newOrder >= |videos| {
        return;
      }
      request := Some(OrderRequest(videos[i].eventId, id, newOrder));
      if !accepted {
        error := ReorderError;
        return;
      }
      var j := Neighbour(i, up);
      if j < 0 || j >= |videos| {
        error := ReorderError;
        return;
      }
      var current := videos;
      var updated := new Video[|current|](k requires 0 <= k < |current| => current[k]);
      assert updated[..] == current;
      var mine, theirs := updated[i].order, updated[j].order;
      updated[i] := updated[i].(order := theirs);
      updated[j] := updated[j].(order := mine);
      assert updated[..] == SwapOrders(current, i, j);
      videos := Seqs.SortBy(OrderOf, updated[..]);
    }
  }
}
