/** The event manager's review of the applications to one event
    (src/components/ManageApplications.js): the load checks the route's
    event id and the answer's shape, an accepted or rejected status is
    sent lower-cased and applied to that application only on a 200, and the
    two actions are offered only while an application is pending. */
module ManageApplications {
  import opened Base
  import opened Strings

  const MissingIdError := "Event ID is missing"
  const LoadError := "Failed to load applications"
  const Pending := "Pending"

  /** An application: its id and its status as displayed ('Pending',
      'Accepted', 'Rejected'). */
  datatype Application = Application(id: Id, status: string)

  /** `PUT /events/:id/applications/:applicationId` with its status body. */
  datatype StatusRequest = StatusRequest(eventId: Option<Id>, applicationId: Id, status: string)

  /** The two decisions the cards offer. */
  datatype Decision = Accept | Reject

  function StatusOf(d: Decision): string {
    match d
    case Accept => "Accepted"
    case Reject => "Rejected"
  }

  /** The decisions a card offers: both while the status is exactly
      'Pending', none otherwise. */
  function Offered(a: Application): seq<Decision> {
    if a.status == Pending then [Accept, Reject] else []
  }

  /** The list with the application `id` given `status`. */
  function WithStatus(apps: seq<Application>, id: Id, status: string): seq<Application> {
    seq(|apps|, i requires 0 <= i < |apps| => if apps[i].id == id then apps[i].(status := status) else apps[i])
  }

  function Ids(apps: seq<Application>): seq<Id> {
    seq(|apps|, i requires 0 <= i < |apps| => apps[i].id)
  }

  datatype LoadResult = Loaded(list: seq<Application>) | LoadFailed(error: string)

  /** The result of the load: the applications on success, else the error. */
  function LoadedApplications(outcome: Response<Option<seq<Application>>>): LoadResult {
    match outcome
    case Ok(Some(list)) => Loaded(list)
    case Ok(None) => LoadFailed(LoadError)
    case Failed(e) => LoadFailed(OrDefault(e.body.error, LoadError))
  }

  class ManageApplicationsPage {
    const eventId: Option<Id>
    var applications: seq<Application>
    var isLoading: bool
    var errorMessage: string

    constructor (id: Option<Id>)
      ensures eventId == id && applications == [] && isLoading && errorMessage == ""
    {
      eventId := id;
      applications, isLoading, errorMessage := [], true, "";
    }

    /** `getApplications`: without an event id no request is made. */
    method GetApplications(outcome: Response<Option<seq<Application>>>) returns (request: Option<Id>)
      modifies this
      ensures !Truthy(eventId) ==> request == None && errorMessage == MissingIdError && applications == old(applications)
      ensures Truthy(eventId) ==> request == eventId
      ensures Truthy(eventId) && LoadedApplications(outcome).Loaded? ==>
        applications == LoadedApplications(outcome).list && errorMessage == old(errorMessage)
      ensures Truthy(eventId) && LoadedApplications(outcome).LoadFailed? ==>
        applications == old(applications) && errorMessage == LoadedApplications(outcome).error
      ensures !isLoading
    {
      if !Truthy(eventId) {
        errorMessage := MissingIdError;
        isLoading := false;
        return None;
      }
      request := eventId;
      match outcome {
        case Ok(applicants) =>
          if applicants.Some? {
            applications := applicants.value;
          } else {
            errorMessage := LoadError;
          }
        case Failed(e) =>
          errorMessage := OrDefault(e.body.error, LoadError);
      }
      isLoading := false;
    }

    /** `handleStatusUpdate`: sends the lower-cased status; only a 200
      answer changes the list (other answers and failures are reported by
      an alert). */
    method HandleStatusUpdate(applicationId: Id, newStatus: string, outcome: Response<int>) returns (request: StatusRequest)
      modifies this`applications
      ensures request == StatusRequest(eventId, applicationId, ToLower(newStatus))
      ensures applications == (if outcome == Ok(200) then WithStatus(old(applications), applicationId, newStatus) else old(applications))
    {
      request := StatusRequest(eventId, applicationId, ToLower(newStatus));
      if outcome.Ok? && outcome.data == 200 {
        applications := WithStatus(applications, applicationId, newStatus);
      }
    }
  }

  // ---------------------------------------------------------------------
  // Properties

  /** The answer must carry `applicants`; otherwise the server's `error` or
      'Failed to load applications' is shown. */
  lemma LoadOutcomes(outcome: Response<Option<seq<Application>>>)
    ensures LoadedApplications(outcome).Loaded? <==> outcome.Ok? && outcome.data.Some?
    ensures LoadedApplications(outcome).LoadFailed? ==> LoadedApplications(outcome).error != ""
    ensures outcome == Ok(None) ==> LoadedApplications(outcome) == LoadFailed("Failed to load applications")
  {
  }

  /** An update rewrites the status of the matching application only: the
      length, the order, the ids and every other entry are kept. */
  lemma WithStatusChangesOnlyTarget(apps: seq<Application>, id: Id, status: string)
    ensures |WithStatus(apps, id, status)| == |apps|
    ensures Ids(WithStatus(apps, id, status)) == Ids(apps)
    ensures forall i :: 0 <= i < |apps| && apps[i].id != id ==> WithStatus(apps, id, status)[i] == apps[i]
    ensures forall i :: 0 <= i < |apps| && apps[i].id == id ==> WithStatus(apps, id, status)[i].status == status
  {
  }

  /** Applying the same update twice is applying it once, and an update for
      an id not in the list changes nothing. */
  lemma WithStatusIdempotent(apps: seq<Application>, id: Id, status: string)
    ensures WithStatus(WithStatus(apps, id, status), id, status) == WithStatus(apps, id, status)
    ensures id !in Ids(apps) ==> WithStatus(apps, id, status) == apps
  {
    if id !in Ids(apps) {
      forall i | 0 <= i < |apps| ensures apps[i].id != id {
        assert Ids(apps)[i] == apps[i].id;
      }
    }
  }

  /** The decisions are sent as 'accepted' and 'rejected'. */
  lemma DecisionsSentLowerCase()
    ensures ToLower(StatusOf(Accept)) == "accepted"
    ensures ToLower(StatusOf(Reject)) == "rejected"
  {
    assert LowerChar('A') == 'a';
    assert LowerChar('R') == 'r';
  }

  /** Only a pending application offers actions, and once a decision has
      been applied it offers none. */
  lemma DecidedOffersNothing(apps: seq<Application>, id: Id, d: Decision, i: int)
    requires 0 <= i < |apps| && apps[i].id == id
    ensures |Offered(apps[i])| > 0 <==> apps[i].status == "Pending"
    ensures Offered(WithStatus(apps, id, StatusOf(d))[i]) == []
  {
  }
}
