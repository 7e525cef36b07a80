/** The in-app user guide (src/components/UserGuide.js): feature cards that
    expand and collapse one by one, a role switch between the manager's and
    the volunteer's guide, and a search through titles, section subtitles
    and details. The guide's text itself is a parameter. */
module UserGuide {
  import opened Base
  import opened Strings
  import Seqs

  const ManagerRole := "event_manager"
  const DefaultRole := "volunteer"

  datatype Section = Section(subtitle: string, details: seq<string>)

  datatype Feature = Feature(id: string, title: string, content: seq<Section>)

  /** Whether a card is open: a card never toggled is closed. */
  predicate Expanded(sections: map<string, bool>, id: string) {
    id in sections && sections[id]
  }

  /** `toggleSection`. */
  function Toggle(sections: map<string, bool>, id: string): map<string, bool> {
    sections[id := !Expanded(sections, id)]
  }

  /** The manager's guide for 'event_manager', the volunteer's for any
      other role. */
  function FeaturesFor(role: string, manager: seq<Feature>, volunteer: seq<Feature>): seq<Feature> {
    if role == ManagerRole then manager else volunteer
  }

  predicate SectionMatches(s: Section, term: string) {
    || ContainsIgnoringCase(s.subtitle, term)
    || exists i :: 0 <= i < |s.details| && ContainsIgnoringCase(s.details[i], term)
  }

  /** The term occurs, ignoring case, in the title, in some subtitle or in
      some detail. */
  predicate FeatureMatches(f: Feature, term: string) {
    || ContainsIgnoringCase(f.title, term)
    || exists i :: 0 <= i < |f.content| && SectionMatches(f.content[i], term)
  }

  /** `filteredFeatures`. */
  function Filtered(role: string, term: string, manager: seq<Feature>, volunteer: seq<Feature>): seq<Feature> {
    Seqs.Filter((f: Feature) => FeatureMatches(f, term), FeaturesFor(role, manager, volunteer))
  }

  class UserGuidePage {
    const managerFeatures: seq<Feature>
    const volunteerFeatures: seq<Feature>
    var searchTerm: string
    var expandedSections: map<string, bool>
    var selectedRole: string

    /** The page opens on the user's role, or on the volunteer's guide. */
    constructor (userRole: Option<string>, manager: seq<Feature>, volunteer: seq<Feature>)
      ensures managerFeatures == manager && volunteerFeatures == volunteer
      ensures searchTerm == "" && expandedSections == map[]
      ensures selectedRole == OrDefault(userRole, DefaultRole)
    {
      managerFeatures, volunteerFeatures := manager, volunteer;
      searchTerm, expandedSections := "", map[];
      selectedRole := OrDefault(userRole, DefaultRole);
    }

    function Shown(): seq<Feature>
      reads this
    {
      Filtered(selectedRole, searchTerm, managerFeatures, volunteerFeatures)
    }

    method ToggleSection(id: string)
      modifies this`expandedSections
      ensures expandedSections == Toggle(old(expandedSections), id)
    {
      expandedSections := Toggle(expandedSections, id);
    }

    method SelectRole(role: string)
      modifies this`selectedRole
      ensures selectedRole == role
    {
      selectedRole := role;
    }

    method SetSearchTerm(term: string)
      modifies this`searchTerm
      ensures searchTerm == term
    {
      searchTerm := term;
    }
  }

  // ---------------------------------------------------------------------
  // Properties

  /** Toggling flips exactly that card and leaves every other card as it
      was; toggling twice restores whether the card is open. */
  lemma ToggleFlipsOnlyThatCard(sections: map<string, bool>, id: string, other: string)
    requires other != id
    ensures Expanded(Toggle(sections, id), id) == !Expanded(sections, id)
    ensures Expanded(Toggle(sections, id), other) == Expanded(sections, other)
    ensures Expanded(Toggle(Toggle(sections, id), id), id) == Expanded(sections, id)
  {
  }

  /** Without a user role the volunteer's guide is shown; only
      'event_manager' selects the manager's. */
  lemma RoleChoosesGuide(userRole: Option<string>, manager: seq<Feature>, volunteer: seq<Feature>)
    ensures !Truthy(userRole) ==> FeaturesFor(OrDefault(userRole, DefaultRole), manager, volunteer) == volunteer
    ensures FeaturesFor(OrDefault(userRole, DefaultRole), manager, volunteer) == manager
      <== userRole == Some("event_manager")
  {
  }

  /** The shown cards are an order-preserving sub-list of the role's guide
      and are exactly its cards that match. */
  lemma FilteredIsMatchingSublist(role: string, term: string, manager: seq<Feature>, volunteer: seq<Feature>)
    ensures Seqs.IsSubsequence(Filtered(role, term, manager, volunteer), FeaturesFor(role, manager, volunteer))
    ensures forall f :: f in Filtered(role, term, manager, volunteer) <==>
      f in FeaturesFor(role, manager, volunteer) && FeatureMatches(f, term)
    ensures forall f :: FeatureMatches(f, term) ==>
      multiset(Filtered(role, term, manager, volunteer))[f] == multiset(FeaturesFor(role, manager, volunteer))[f]
  {
    Seqs.FilterCount((f: Feature) => FeatureMatches(f, term), FeaturesFor(role, manager, volunteer));
  }

  /** An empty search keeps every card of the guide. */
  lemma EmptySearchKeepsGuide(role: string, manager: seq<Feature>, volunteer: seq<Feature>)
    ensures Filtered(role, "", manager, volunteer) == FeaturesFor(role, manager, volunteer)
  {
    forall f | f in FeaturesFor(role, manager, volunteer) ensures FeatureMatches(f, "") {
      EmptyTermMatches(f.title);
    }
    Seqs.FilterKeepsAll((f: Feature) => FeatureMatches(f, ""), FeaturesFor(role, manager, volunteer));
  }

  /** A card is found by any one of its details. */
  lemma DetailFindsCard(f: Feature, i: int, j: int)
    requires 0 <= i < |f.content| && 0 <= j < |f.content[i].details|
    ensures FeatureMatches(f, f.content[i].details[j])
  {
    var d := f.content[i].details[j];
    ContainsSelf(ToLower(d));
    assert ContainsIgnoringCase(d, d);
    assert SectionMatches(f.content[i], d);
  }
}
