/** Rating the volunteers of a completed event
    (src/components/EventCompletionPage.js): the star rows, the rating
    dialog and its submission, which is guarded by a selection and a stored
    token and on success rewrites only the rated volunteer. */
module EventCompletion {
  import opened Base
  import Session

  /** An accepted volunteer with the rating and feedback given so far
      (a missing or zero rating means not rated yet). */
  datatype Volunteer = Volunteer(id: Id, name: string, rating: Option<int>, feedback: Option<string>)

  /** `POST /events/:eventId/rate`. */
  datatype RateRequest = RateRequest(eventId: Id, volunteerId: Id, rating: int, feedback: string)

  /** The dialog's starting values for a volunteer. */
  datatype Dialog = Dialog(tempRating: int, feedback: string)

  /** `rating || 0`. */
  function RatingOrZero(r: Option<int>): int {
    if r.Some? && r.value != 0 then r.value else 0
  }

  /** In the rating input, star `k` (1 to 5) is filled up to the rating. */
  predicate InputStarFilled(k: int, rating: int) {
    k <= rating
  }

  /** In a volunteer's card, star `i` (0 to 4) is filled below the rating. */
  predicate CardStarFilled(i: int, rating: int) {
    i < rating
  }

  /** `handleRateVolunteer`: the dialog opens on the volunteer's rating, or
      0, and feedback, or ''. */
  function Opened(v: Volunteer): Dialog {
    Dialog(RatingOrZero(v.rating), OrDefault(v.feedback, ""))
  }

  /** The volunteers with `id` given the submitted rating and feedback. */
  function Rated(vs: seq<Volunteer>, id: Id, rating: int, feedback: string): seq<Volunteer> {
    seq(|vs|, i requires 0 <= i < |vs| =>
      if vs[i].id == id then vs[i].(rating := Some(rating), feedback := Some(feedback)) else vs[i])
  }

  class EventCompletionPage {
    const eventId: Id
    var volunteers: seq<Volunteer>
    var selected: Option<Volunteer>
    var showRatingModal: bool
    var tempRating: int
    var feedback: string

    constructor (id: Id, accepted: seq<Volunteer>)
      ensures eventId == id && volunteers == accepted
      ensures selected == None && !showRatingModal && tempRating == 0 && feedback == ""
    {
      eventId, volunteers := id, accepted;
      selected, showRatingModal, tempRating, feedback := None, false, 0, "";
    }

    /** The submit button is disabled while no star is chosen. */
    predicate SubmitDisabled()
      reads this
    {
      tempRating == 0
    }

    method HandleRateVolunteer(v: Volunteer)
      modifies this
      ensures selected == Some(v) && showRatingModal
      ensures Dialog(tempRating, feedback) == Opened(v)
      ensures (v.rating.None? || v.rating == Some(0)) <==> SubmitDisabled()
      ensures volunteers == old(volunteers)
    {
      selected := Some(v);
      tempRating := RatingOrZero(v.rating);
      feedback := OrDefault(v.feedback, "");
      showRatingModal := true;
    }

    /** A click on star `star` of the rating input. */
    method ChooseStar(star: int)
      requires 1 <= star <= 5
      modifies this`tempRating
      ensures tempRating == star && !SubmitDisabled()
      ensures forall k :: 1 <= k <= 5 ==> (InputStarFilled(k, tempRating) <==> k <= star)
    {
      tempRating := star;
    }

    method EditFeedback(text: string)
      modifies this`feedback
      ensures feedback == text
    {
      feedback := text;
    }

    /** Cancel, or closing the dialog. */
    method CloseDialog()
      modifies this
      ensures !showRatingModal && selected == None
      ensures volunteers == old(volunteers) && tempRating == old(tempRating) && feedback == old(feedback)
    {
      showRatingModal := false;
      selected := None;
    }

    /** `handleRatingSubmit` with the dialog's values: nothing is sent
      without a selected volunteer or a stored token; on success only that
      volunteer is rewritten and the dialog closes; a failure changes
      nothing (it is reported by a toast). */
    method HandleRatingSubmit(store: Session.LocalStorage, outcome: Response<()>) returns (request: Option<RateRequest>)
      modifies this, store
      ensures var token := Session.Lookup(old(store.items), Session.TokenKey);
        request == (if old(selected).None? || old(selected).value.id == "" || !Truthy(token) then None
                    else Some(RateRequest(eventId, old(selected).value.id, old(tempRating), old(feedback))))
      ensures request.Some? && outcome.Ok? ==>
        && volunteers == Rated(old(volunteers), request.value.volunteerId, old(tempRating), old(feedback))
        && !showRatingModal
        && selected == None
      ensures request.None? || outcome.Failed? ==>
        volunteers == old(volunteers) && selected == old(selected) && showRatingModal == old(showRatingModal)
      ensures tempRating == old(tempRating) && feedback == old(feedback)
      ensures store.items == (if request.None? then old(store.items) else Session.AfterResponse(old(store.items), outcome))
    {
      if selected.None? || selected.value.id == "" {
        return None;
      }
      var token := store.GetItem(Session.TokenKey);
      if !Truthy(token) {
        return None;
      }
      var id := selected.value.id;
      request := Some(RateRequest(eventId, id, tempRating, feedback));
      var answer := Session.InterceptResponse(store, outcome);
      if answer.Ok? {
        volunteers := Rated(volunteers, id, tempRating, feedback);
        showRatingModal := false;
        selected := None;
      }
    }
  }

  // ---------------------------------------------------------------------
  // Properties

  /** How many of the input's stars 1 to `n` are filled. */
  function FilledStars(n: nat, rating: int): nat {
    if n == 0 then 0 else FilledStars(n - 1, rating) + (if InputStarFilled(n, rating) then 1 else 0)
  }

  /** Of the first `n` stars, as many are filled as the rating says,
      clamped to 0 and `n`. */
  lemma {:induction false} FilledStarsClamp(n: nat, rating: int)
    ensures FilledStars(n, rating) == if rating < 0 then 0 else if rating < n then rating else n
  {
    if n > 0 {
      FilledStarsClamp(n - 1, rating);
    }
  }

  /** The card and the input draw the same rating: card star i is filled
      exactly when input star i + 1 is, and a row of five fills as many
      stars as the rating, up to five. */
  lemma StarRowsAgree(rating: int)
    ensures forall i :: 0 <= i < 5 ==> (CardStarFilled(i, rating) <==> InputStarFilled(i + 1, rating))
    ensures 0 <= rating <= 5 ==> FilledStars(5, rating) == rating
    ensures rating > 5 ==> FilledStars(5, rating) == 5
  {
    FilledStarsClamp(5, rating);
  }

  /** An unrated volunteer opens the dialog with no star, which keeps the
      submit button disabled. */
  lemma UnratedOpensEmpty(v: Volunteer)
    ensures v.rating.None? || v.rating == Some(0) ==> Opened(v).tempRating == 0
    ensures v.feedback.None? ==> Opened(v).feedback == ""
  {
  }

  /** A submission rewrites exactly the rated volunteer and keeps the
      others, the order and the length. */
  lemma RatedChangesOnlyTarget(vs: seq<Volunteer>, id: Id, rating: int, feedback: string)
    ensures |Rated(vs, id, rating, feedback)| == |vs|
    ensures forall i :: 0 <= i < |vs| && vs[i].id != id ==> Rated(vs, id, rating, feedback)[i] == vs[i]
    ensures forall i :: 0 <= i < |vs| && vs[i].id == id ==>
      Rated(vs, id, rating, feedback)[i] == vs[i].(rating := Some(rating), feedback := Some(feedback))
  {
  }

  /** Reopening the dialog for a volunteer just rated shows the rating and
      feedback that were submitted. */
  lemma ReopenShowsSubmitted(vs: seq<Volunteer>, id: Id, rating: int, feedback: string, i: int)
    requires 0 <= i < |vs| && vs[i].id == id
    ensures Opened(Rated(vs, id, rating, feedback)[i]) == Dialog(rating, feedback)
  {
  }
}
