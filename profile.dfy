/** The volunteer profile page (src/components/Profile.js): which profile the
    route asks for, how a failed fetch is reported (a 401 also signs the
    user out), the picture check, the skill and experience editors, and
    the payload of a save with its defaults. */
module Profile {
  import opened Base
  import opened Strings
  import Seqs
  import Session

  const DefaultApiUrl := "http://localhost:5000"
  const MaxImageSize := 5 * 1024 * 1024
  const SizeError := "File size should be less than 5MB"
  const TypeError := "Please upload an image file"
  const ExperienceError := "Please fill in at least the title and organization fields."
  const FetchPrefix := "Error fetching profile: "
  const NoDataText := "No data received from server"
  const NoResponseText := "No response from server. Please check your internet connection."
  const UnauthorizedText := "You are not authorized to view this profile. Please log in again."

  datatype Experience = Experience(title: string, organization: string, duration: string, description: string)

  const BlankExperience := Experience("", "", "", "")

  datatype Availability = Availability(weekdays: bool, weekends: bool, specificDays: seq<string>)

  const DefaultAvailability := Availability(true, true, [])

  /** The profile as the server sends it; any field may be missing. */
  datatype ProfileData = ProfileData(
    name: string,
    bio: Option<string>,
    profileImage: Option<string>,
    keySkills: Option<seq<string>>,
    experience: Option<seq<Experience>>,
    availability: Option<Availability>,
    preferredEventTypes: Option<seq<string>>,
    achievements: Option<seq<string>>,
    certifications: Option<seq<string>>)

  /** The page's starting profile, with every field present. */
  const InitialProfile := ProfileData("", Some(""), Some(""), Some([]), Some([]), Some(DefaultAvailability), Some([]), Some([]), Some([]))

  /** The body of `PUT /users/profile`: every field present. */
  datatype UpdateData = UpdateData(
    name: string,
    bio: string,
    profileImage: Option<string>,
    keySkills: seq<string>,
    experience: seq<Experience>,
    availability: Availability,
    preferredEventTypes: seq<string>,
    achievements: seq<string>,
    certifications: seq<string>)

  // ---------------------------------------------------------------------
  // Addresses

  /** `getFullImageUrl`, given `REACT_APP_API_URL` as `env`: nothing for a
      falsy path, an absolute URL as it is, otherwise the base followed by
      the path. */
  function FullImageUrl(imageUrl: Option<string>, env: Option<string>): (r: Option<string>)
    ensures r.None? <==> !Truthy(imageUrl)
    ensures r.Some? ==> |r.value| >= |imageUrl.value| && r.value[|r.value| - |imageUrl.value|..] == imageUrl.value
  {
    if !Truthy(imageUrl) then None
    else if StartsWith(imageUrl.value, "http") then imageUrl
    else
      var r := OrDefault(env, DefaultApiUrl) + imageUrl.value;
      assert r[|r| - |imageUrl.value|..] == imageUrl.value;
      Some(r)
  }

  /** Whose profile the route names. */
  datatype Route = ByUsername(username: string) | ById(id: string) | Own

  /** The username wins over the id; with neither the page shows the
      signed-in user's own profile. */
  function RouteFor(id: Option<string>, username: Option<string>): Route {
    if Truthy(username) then ByUsername(username.value)
    else if Truthy(id) then ById(id.value)
    else Own
  }

  function PathOf(r: Route): string {
    match r
    case ByUsername(u) => "/users/volunteer/" + u
    case ById(i) => "/users/profile/" + i
    case Own => "/users/profile"
  }

  /** The text shown when the fetch fails with `e`; `axiosMessage` is the
      client library's own message for the failure. */
  function FetchErrorText(r: Route, e: HttpError, axiosMessage: string): string {
    FetchPrefix + (
      match e.status
      case None => NoResponseText
      case Some(404) =>
        (match r
         case ByUsername(u) => "Volunteer \"" + u + "\" not found"
         case ById(i) => "User with ID \"" + i + "\" not found"
         case Own => "Profile not found")
      case Some(401) => UnauthorizedText
      case Some(400) => OrDefault(e.body.error, "Invalid request")
      case Some(_) => if Truthy(e.body.error) then e.body.error.value else OrDefault(e.body.message, axiosMessage))
  }

  // ---------------------------------------------------------------------
  // The picture

  /** `handleFileChange`'s checks, size first: the rejection text, or None
      when the file is accepted. */
  function FileCheck(f: File): Option<string> {
    if f.size > MaxImageSize then Some(SizeError)
    else if !StartsWith(f.mimeType, "image/") then Some(TypeError)
    else None
  }

  // ---------------------------------------------------------------------
  // Skills and experience

  function ListOr<T>(o: Option<seq<T>>): seq<T> {
    if o.Some? then o.value else []
  }

  /** `handleAddSkill`'s condition: the trimmed input is non-empty and not
      already a skill (a missing list holds nothing). */
  predicate CanAddSkill(skills: Option<seq<string>>, input: string) {
    !IsBlank(input) && !(skills.Some? && Trim(input) in skills.value)
  }

  function WithSkill(skills: Option<seq<string>>, input: string): seq<string> {
    ListOr(skills) + [Trim(input)]
  }

  /** `handleRemoveSkill`: every copy of the skill is dropped, every other
      skill stays with all its copies, and the order is kept. */
  function WithoutSkill(skills: Option<seq<string>>, skill: string): (r: seq<string>)
    ensures skill !in r
    ensures forall s :: s != skill ==> (s in r <==> s in ListOr(skills))
    ensures Seqs.IsSubsequence(r, ListOr(skills))
    ensures forall s :: s != skill ==> multiset(r)[s] == multiset(ListOr(skills))[s]
  {
    Seqs.FilterCount((s: string) => s != skill, ListOr(skills));
    Seqs.Filter((s: string) => s != skill, ListOr(skills))
  }

  /** What `handleAddExperience` does with the draft. */
  datatype ExperienceStep = Added(list: seq<Experience>) | Rejected(error: string)

  function AddExperience(experience: Option<seq<Experience>>, draft: Experience): (r: ExperienceStep)
    ensures r.Added? <==> draft.title != "" && draft.organization != ""
    ensures r.Added? ==> |r.list| == |ListOr(experience)| + 1 && r.list[|ListOr(experience)|] == draft
    ensures r.Added? ==> r.list[..|ListOr(experience)|] == ListOr(experience)
    ensures r.Rejected? ==> r.error == ExperienceError
  {
    if draft.title != "" && draft.organization != "" then Added(ListOr(experience) + [draft])
    else Rejected(ExperienceError)
  }

  // ---------------------------------------------------------------------
  // Saving

  /** `updateData`: missing fields become their defaults. */
  function UpdateDataOf(p: ProfileData, profileImage: Option<string>): UpdateData {
    UpdateData(
      p.name,
      OrDefault(p.bio, ""),
      profileImage,
      ListOr(p.keySkills),
      ListOr(p.experience),
      if p.availability.Some? then p.availability.value else DefaultAvailability,
      ListOr(p.preferredEventTypes),
      ListOr(p.achievements),
      ListOr(p.certifications))
  }

  /** A payload read back as a profile with every field present. */
  function AsProfile(u: UpdateData): ProfileData {
    ProfileData(u.name, Some(u.bio), u.profileImage, Some(u.keySkills), Some(u.experience),
      Some(u.availability), Some(u.preferredEventTypes), Some(u.achievements), Some(u.certifications))
  }

  // ---------------------------------------------------------------------
  // The page

  /** The page's state: `isOwnProfile`, `profile`, `selectedFile`,
      `previewUrl`, `loading`, `isEditing`, `error`, `newSkill` and
      `newExperience`. */
  datatype PageState = PageState(
    isOwnProfile: bool,
    profile: ProfileData,
    selectedFile: Option<File>,
    previewUrl: Option<string>,
    loading: bool,
    isEditing: bool,
    error: string,
    newSkill: string,
    newExperience: Experience)

  class ProfilePage {
    const routeId: Option<string>
    const routeUsername: Option<string>
    var isOwnProfile: bool
    var profile: ProfileData
    var selectedFile: Option<File>
    var previewUrl: Option<string>
    var loading: bool
    var isEditing: bool
    var error: string
    var newSkill: string
    var newExperience: Experience

    ghost function Model(): PageState
      reads this
    {
      PageState(isOwnProfile, profile, selectedFile, previewUrl, loading, isEditing, error, newSkill, newExperience)
    }

    constructor (id: Option<string>, username: Option<string>)
      ensures routeId == id && routeUsername == username
      ensures Model() == PageState(true, InitialProfile, None, None, false, false, "", "", BlankExperience)
    {
      routeId, routeUsername := id, username;
      isOwnProfile, profile := true, InitialProfile;
      selectedFile, previewUrl := None, None;
      loading, isEditing, error := false, false, "";
      newSkill, newExperience := "", BlankExperience;
    }

    /** `fetchProfile`: asks for the routed profile; returns the path. A
      falsy body is reported like a thrown error; a 401 also signs the user
      out. */
    method FetchProfile(store: Session.LocalStorage, outcome: Response<Option<ProfileData>>, env: Option<string>, axiosMessage: string)
      returns (path: string)
      modifies this, store
      ensures path == PathOf(RouteFor(routeId, routeUsername))
      ensures outcome == Ok(None) ==>
        Model() == old(Model()).(isOwnProfile := RouteFor(routeId, routeUsername).Own?,
                                 error := FetchPrefix + NoDataText, loading := false)
      ensures outcome.Ok? && outcome.data.Some? ==>
        var data := outcome.data.value;
        Model() == old(Model()).(isOwnProfile := RouteFor(routeId, routeUsername).Own?,
                                 profile := data, error := "", loading := false,
                                 previewUrl := if Truthy(data.profileImage) then FullImageUrl(data.profileImage, env)
                                               else old(previewUrl))
      ensures outcome.Failed? ==>
        Model() == old(Model()).(error := FetchErrorText(RouteFor(routeId, routeUsername), outcome.failure, axiosMessage),
                                 loading := false)
      ensures store.items == Session.AfterResponse(old(store.items), outcome)
    {
      loading := true;
      error := "";
      var route := RouteFor(routeId, routeUsername);
      path := PathOf(route);
      match outcome {
        case Ok(data) =>
          isOwnProfile := route.Own?;
          if data.None? {
            error := FetchPrefix + NoDataText;
          } else {
            profile := data.value;
            if Truthy(profile.profileImage) {
              previewUrl := FullImageUrl(profile.profileImage, env);
            }
          }
        case Failed(e) =>
          if e.status == Some(401) {
            store.RemoveItem(Session.TokenKey);
            store.RemoveItem(Session.UserKey);
          }
          error := FetchErrorText(route, e, axiosMessage);
      }
      loading := false;
    }

    /** `handleFileChange`, with `dataUrl` the preview the file reader
      produces: no file or a rejected file changes nothing; an accepted one
      is kept for the next save, previewed, and clears the error. */
    method HandleFileChange(file: Option<File>, dataUrl: string) returns (rejection: Option<string>)
      modifies this
      ensures rejection == (if file.Some? then FileCheck(file.value) else None)
      ensures file.Some? && rejection.None? ==>
        Model() == old(Model()).(selectedFile := file, error := "", previewUrl := Some(dataUrl))
      ensures file.None? || rejection.Some? ==> Model() == old(Model())
    {
      rejection := None;
      if file.Some? {
        var f := file.value;
        if f.size > MaxImageSize {
          return Some(SizeError);
        }
        if !StartsWith(f.mimeType, "image/") {
          return Some(TypeError);
        }
        selectedFile := file;
        error := "";
        previewUrl := Some(dataUrl);
      }
    }

    /** `handleSaveChanges`: uploads the picked picture first, if any; a
      failed upload stops the save. The update carries the defaults and,
      on success, its answer becomes the profile. Failures are reported by
      toasts only. */
    method HandleSaveChanges(uploadOutcome: Response<Option<string>>, updateOutcome: Response<Option<ProfileData>>, env: Option<string>)
      returns (upload: Option<File>, update: Option<UpdateData>)
      modifies this
      ensures upload == old(selectedFile)
      ensures var uploaded := uploadOutcome.Ok? && Truthy(uploadOutcome.data);
        && (old(selectedFile).Some? && !uploaded ==> update == None)
        && (old(selectedFile).Some? && uploaded ==> update == Some(UpdateDataOf(old(profile), uploadOutcome.data)))
      ensures old(selectedFile).None? ==> update == Some(UpdateDataOf(old(profile), old(profile).profileImage))
      ensures update.Some? && updateOutcome.Ok? && updateOutcome.data.Some? ==>
        var saved := updateOutcome.data.value;
        Model() == old(Model()).(profile := saved, previewUrl := FullImageUrl(saved.profileImage, env),
                                 isEditing := false, error := "", loading := false)
      ensures update.None? || !(updateOutcome.Ok? && updateOutcome.data.Some?) ==>
        Model() == old(Model()).(error := "", loading := false)
    {
      loading := true;
      error := "";
      upload := selectedFile;
      var imageUrl := profile.profileImage;
      if selectedFile.Some? {
        if uploadOutcome.Ok? && Truthy(uploadOutcome.data) {
          imageUrl := uploadOutcome.data;
        } else {
          loading := false;
          return upload, None;
        }
      }
      var body := UpdateDataOf(profile, imageUrl);
      update := Some(body);
      if updateOutcome.Ok? && updateOutcome.data.Some? {
        profile := updateOutcome.data.value;
        previewUrl := FullImageUrl(profile.profileImage, env);
        isEditing := false;
      }
      loading := false;
    }

    /** The Edit/Save button beside the name flips the editing mode. */
    method ToggleEditing()
      modifies this
      ensures Model() == old(Model()).(isEditing := !old(isEditing))
    {
      isEditing := !isEditing;
    }

    /** Cancel in the editing form: leaves editing, drops the picked file
      and shows the stored picture again. */
    method CancelEditing(env: Option<string>)
      modifies this
      ensures Model() == old(Model()).(isEditing := false, selectedFile := None,
                                       previewUrl := FullImageUrl(old(profile).profileImage, env), error := "")
    {
      isEditing := false;
      selectedFile := None;
      previewUrl := FullImageUrl(profile.profileImage, env);
      error := "";
    }

    /** Typing in the skill input. */
    method EditNewSkill(text: string)
      modifies this
      ensures Model() == old(Model()).(newSkill := text)
    {
      newSkill := text;
    }

    /** Typing in the experience form. */
    method EditNewExperience(draft: Experience)
      modifies this
      ensures Model() == old(Model()).(newExperience := draft)
    {
      newExperience := draft;
    }

    /** `handleAddSkill`. */
    method HandleAddSkill()
      modifies this
      ensures CanAddSkill(old(profile).keySkills, old(newSkill)) ==>
        Model() == old(Model()).(profile := old(profile).(keySkills := Some(WithSkill(old(profile).keySkills, old(newSkill)))),
                                 newSkill := "")
      ensures !CanAddSkill(old(profile).keySkills, old(newSkill)) ==> Model() == old(Model())
    {
      if CanAddSkill(profile.keySkills, newSkill) {
        profile := profile.(keySkills := Some(WithSkill(profile.keySkills, newSkill)));
        newSkill := "";
      }
    }

    /** `handleRemoveSkill`. */
    method HandleRemoveSkill(skill: string)
      modifies this
      ensures Model() == old(Model()).(profile := old(profile).(keySkills := Some(WithoutSkill(old(profile).keySkills, skill))))
    {
      profile := profile.(keySkills := Some(WithoutSkill(profile.keySkills, skill)));
    }

    /** `handleAddExperience`. */
    method HandleAddExperience()
      modifies this
      ensures match AddExperience(old(profile).experience, old(newExperience))
        case Added(list) => Model() == old(Model()).(profile := old(profile).(experience := Some(list)),
                                                    newExperience := BlankExperience)
        case Rejected(e) => Model() == old(Model()).(error := e)
    {
      match AddExperience(profile.experience, newExperience) {
        case Added(list) =>
          profile := profile.(experience := Some(list));
          newExperience := BlankExperience;
        case Rejected(e) =>
          error := e;
      }
    }
  }

  // ---------------------------------------------------------------------
  // Properties

  /** An absolute address is kept, and with a base starting with 'http'
      resolving twice is resolving once. */
  lemma FullImageUrlResolves(imageUrl: string, env: Option<string>)
    requires imageUrl != ""
    ensures StartsWith(imageUrl, "http") ==> FullImageUrl(Some(imageUrl), env) == Some(imageUrl)
    ensures StartsWith(OrDefault(env, DefaultApiUrl), "http") ==>
      FullImageUrl(FullImageUrl(Some(imageUrl), env), env) == FullImageUrl(Some(imageUrl), env)
  {
    var base := OrDefault(env, DefaultApiUrl);
    if !StartsWith(imageUrl, "http") {
      var r := base + imageUrl;
      if StartsWith(base, "http") {
        assert r[..4] == base[..4];
      }
    }
  }

  /** A missing or empty picture has no address. */
  lemma NoImageNoUrl(env: Option<string>)
    ensures FullImageUrl(None, env) == None && FullImageUrl(Some(""), env) == None
  {
  }

  /** The page shows the own profile exactly when the route names neither a
      username nor an id, and a username is preferred to an id. */
  lemma RouteChoice(id: Option<string>, username: Option<string>)
    ensures RouteFor(id, username).Own? <==> !Truthy(username) && !Truthy(id)
    ensures Truthy(username) ==> PathOf(RouteFor(id, username)) == "/users/volunteer/" + username.value
    ensures !Truthy(username) && Truthy(id) ==> PathOf(RouteFor(id, username)) == "/users/profile/" + id.value
    ensures RouteFor(id, username).Own? ==> PathOf(RouteFor(id, username)) == "/users/profile"
  {
  }

  /** Every fetch error is reported behind the same prefix, and a 404 names
      what the route asked for. */
  lemma FetchErrorsArePrefixed(r: Route, e: HttpError, axiosMessage: string)
    ensures StartsWith(FetchErrorText(r, e, axiosMessage), FetchPrefix)
    ensures e.status == Some(404) && r.Own? ==> FetchErrorText(r, e, axiosMessage) == FetchPrefix + "Profile not found"
    ensures e.status == Some(404) && r.ByUsername? ==>
      FetchErrorText(r, e, axiosMessage) == FetchPrefix + "Volunteer \"" + r.username + "\" not found"
  {
    var t := FetchErrorText(r, e, axiosMessage);
    assert t[..|FetchPrefix|] == FetchPrefix;
  }

  /** A file is accepted exactly when it is at most 5 MiB and its type
      starts with 'image/'; an oversized file is reported as such whatever
      its type. */
  lemma FileCheckAccepts(f: File)
    ensures FileCheck(f).None? <==> f.size <= 5 * 1024 * 1024 && StartsWith(f.mimeType, "image/")
    ensures f.size > 5 * 1024 * 1024 ==> FileCheck(f) == Some(SizeError)
    ensures f.size <= 5 * 1024 * 1024 && !StartsWith(f.mimeType, "image/") ==> FileCheck(f) == Some(TypeError)
  {
  }

  /** A picture of exactly 5 MiB passes although the message asks for less
      than 5MB. */
  lemma ExactlyFiveMegabytesPasses()
    ensures FileCheck(File("a.png", 5242880, "image/png")) == None
  {
    assert StartsWith("image/png", "image/") by {
      assert "image/png"[..6] == "image/";
    }
  }

  /** Adding keeps the skill list free of duplicates, and an added skill
      cannot be added a second time. */
  lemma AddSkillKeepsDistinct(skills: Option<seq<string>>, input: string)
    requires Seqs.NoDup(ListOr(skills))
    requires CanAddSkill(skills, input)
    ensures Seqs.NoDup(WithSkill(skills, input))
    ensures !CanAddSkill(Some(WithSkill(skills, input)), input)
  {
    var old_ := ListOr(skills);
    var r := WithSkill(skills, input);
    assert Trim(input) !in old_;
    forall i, j | 0 <= i < j < |r| ensures r[i] != r[j] {
      if j == |old_| {
        assert r[i] == old_[i];
      } else {
        assert r[i] == old_[i] && r[j] == old_[j];
      }
    }
    assert r[|old_|] == Trim(input);
  }

  /** Removing a skill just added restores the list. */
  lemma {:induction false} RemoveUndoesAdd(skills: Option<seq<string>>, input: string)
    requires CanAddSkill(skills, input)
    ensures WithoutSkill(Some(WithSkill(skills, input)), Trim(input)) == ListOr(skills)
  {
    var t := Trim(input);
    var p := (s: string) => s != t;
    Seqs.FilterAppend(p, ListOr(skills), t);
    Seqs.FilterKeepsAll(p, ListOr(skills));
  }

  /** A rejected draft leaves the list alone; an accepted one keeps every
      earlier entry and adds the draft once. */
  lemma AddExperienceKeepsEntries(experience: Option<seq<Experience>>, draft: Experience)
    ensures AddExperience(experience, draft).Added? ==>
      multiset(AddExperience(experience, draft).list) == multiset(ListOr(experience)) + multiset{draft}
  {
  }

  /** The payload fills in defaults: an empty bio, empty lists and full
      availability; and a profile with every field present is sent as it
      is, so sending the payload back yields the same payload. */
  lemma UpdateDataDefaults(p: ProfileData, image: Option<string>, u: UpdateData)
    ensures p.bio.None? ==> UpdateDataOf(p, image).bio == ""
    ensures p.keySkills.None? ==> UpdateDataOf(p, image).keySkills == []
    ensures p.experience.None? ==> UpdateDataOf(p, image).experience == []
    ensures p.availability.None? ==> UpdateDataOf(p, image).availability == Availability(true, true, [])
    ensures p.preferredEventTypes.None? ==> UpdateDataOf(p, image).preferredEventTypes == []
    ensures p.achievements.None? ==> UpdateDataOf(p, image).achievements == []
    ensures p.certifications.None? ==> UpdateDataOf(p, image).certifications == []
    ensures UpdateDataOf(AsProfile(u), u.profileImage) == u
  {
  }
}
