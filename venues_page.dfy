/**
 * The Venues page: the search and category-tab filter, and the venue form an
 * ADMIN uses to add a venue or edit one (reset, edit prefill, equipment
 * toggle and the record the submit builds).
 */
module VenuesPage {
  import opened Wrappers
  import opened Strings
  import opened Seqs
  import opened Types
  import opened Constants
  import opened Gateway
  import AppState

  // ---------------------------------------------------------------------------
  // Search and tabs
  // ---------------------------------------------------------------------------

  /** The tabs 'ALL', 'ACADEMIC', 'HALL' and 'SPORTS'. */
  datatype Tab = AllTab | CategoryTab(category: VenueCategory)

  /** `name.toLowerCase().includes(term.toLowerCase())`. */
  predicate MatchesSearch(name: string, term: string) {
    Contains(Lower(name), Lower(term))
  }

  /** `tab === 'ALL' || v.category === tab`. */
  predicate MatchesTab(v: Venue, tab: Tab) {
    tab == AllTab || v.category == tab.category
  }

  /** The test of the venue filter, as a function value. */
  function VenueShown(term: string, tab: Tab): Venue -> bool {
    (v: Venue) => MatchesSearch(v.name, term) && MatchesTab(v, tab)
  }

  /**
   * `filteredVenues`: the venues, in their order, whose lower-cased name holds
   * the lower-cased term and whose category the tab admits.
   */
  function FilteredVenues(venues: seq<Venue>, term: string, tab: Tab): (r: seq<Venue>)
    ensures SubsequenceOf(r, venues)
    ensures forall k :: 0 <= k < |r| ==> MatchesSearch(r[k].name, term) && MatchesTab(r[k], tab)
    ensures forall k :: 0 <= k < |venues| ==>
      (venues[k] in r <==> MatchesSearch(venues[k].name, term) && MatchesTab(venues[k], tab))
  {
    FilterIsSubsequence(venues, VenueShown(term, tab));
    FilterMembers(venues, VenueShown(term, tab));
    Filter(venues, VenueShown(term, tab))
  }

  /** The empty term on the ALL tab shows every venue. */
  lemma EmptySearchShowsAll(venues: seq<Venue>)
    ensures FilteredVenues(venues, "", AllTab) == venues
  {
    forall k | 0 <= k < |venues| ensures VenueShown("", AllTab)(venues[k]) {
      assert Lower("") == [];
    }
    FilterAll(venues, VenueShown("", AllTab));
  }

  /** A category tab with the empty term shows exactly the venues of that category. */
  lemma CategoryTabShowsCategory(venues: seq<Venue>, c: VenueCategory)
    ensures var r := FilteredVenues(venues, "", CategoryTab(c));
      && (forall k :: 0 <= k < |r| ==> r[k].category == c)
      && (forall k :: 0 <= k < |venues| ==> (venues[k] in r <==> venues[k].category == c))
  {
    assert Lower("") == [];
  }

  // ---------------------------------------------------------------------------
  // The venue form
  // ---------------------------------------------------------------------------

  /** The form fields (`formData`); `kind` is the free-text `type`. */
  datatype VenueFormData = VenueFormData(
    name: string,
    category: VenueCategory,
    capacity: int,
    location: string,
    kind: string,
    equipment: seq<string>)

  /** The form as `resetForm` leaves it. */
  const EMPTY_FORM: VenueFormData := VenueFormData("", Academic, 60, "", "", [])

  /** The equipment buttons of the venue form. */
  const VENUE_EQUIPMENT_CHOICES: seq<string> := ["Projector", "Smart Board", "Audio System", "AC", "WiFi", "PCs", "Stage", "Lighting"]

  /** The form filled from an existing venue. */
  function FormOf(v: Venue): (f: VenueFormData)
    ensures f.name == v.name && f.category == v.category && f.capacity == v.capacity
    ensures f.location == v.location && f.kind == v.kind && f.equipment == v.equipment
  {
    VenueFormData(v.name, v.category, v.capacity, v.location, v.kind, v.equipment)
  }

  /** `newVenueImage || DEFAULT_IMAGE`: no image and the empty string both give the default. */
  function ImageOrDefault(image: Option<string>): (url: string)
    ensures image.Some? && image.value != "" ==> url == image.value
    ensures image.None? || image.value == "" ==> url == DEFAULT_VENUE_IMAGE
  {
    if image.Some? && image.value != "" then image.value else DEFAULT_VENUE_IMAGE
  }

  /** The record a submit sends: the form's fields, the image or the default, and never blocked. */
  function BuildVenue(id: string, f: VenueFormData, image: Option<string>): (v: Venue)
    ensures v.id == id && FormOf(v) == f
    ensures v.image == ImageOrDefault(image) && v.isBlocked == Some(false)
  {
    Venue(id, f.name, f.category, f.capacity, f.location, f.kind, ImageOrDefault(image), f.equipment, Some(false))
  }

  /**
   * Editing a venue and submitting the form unchanged sends the same venue,
   * except that it is no longer blocked.
   */
  lemma EditRoundTrip(v: Venue)
    requires v.image != ""
    ensures BuildVenue(v.id, FormOf(v), Some(v.image)) == v.(isBlocked := Some(false))
  {
  }

  /** What a submit asks of `App`: an update of the venue being edited, or an addition. */
  datatype VenueAction = Update(venue: Venue) | Add(venue: Venue)

  class VenueForm {
    var searchTerm: string
    var activeTab: Tab
    var isAddModalOpen: bool
    var isEditMode: bool
    var editingId: Option<string>
    var newVenueImage: Option<string>
    var formData: VenueFormData

    /** The page opens on the ALL tab, with an empty search and the form closed and empty. */
    constructor ()
      ensures searchTerm == "" && activeTab == AllTab
      ensures !isAddModalOpen && !isEditMode && editingId == None && newVenueImage == None
      ensures formData == EMPTY_FORM
    {
      searchTerm, activeTab := "", AllTab;
      isAddModalOpen, isEditMode, editingId, newVenueImage := false, false, None, None;
      formData := EMPTY_FORM;
    }

    /** The venues the page lists. */
    function Listed(venues: seq<Venue>): (r: seq<Venue>)
      reads this
      ensures SubsequenceOf(r, venues)
      ensures forall k :: 0 <= k < |venues| ==>
        (venues[k] in r <==> MatchesSearch(venues[k].name, searchTerm) && MatchesTab(venues[k], activeTab))
    {
      FilteredVenues(venues, searchTerm, activeTab)
    }

    method SetSearch(term: string)
      modifies this
      ensures searchTerm == term && activeTab == old(activeTab)
      ensures isAddModalOpen == old(isAddModalOpen) && isEditMode == old(isEditMode)
      ensures editingId == old(editingId) && newVenueImage == old(newVenueImage) && formData == old(formData)
    {
      searchTerm := term;
    }

    method SetTab(tab: Tab)
      modifies this
      ensures activeTab == tab && searchTerm == old(searchTerm)
      ensures isAddModalOpen == old(isAddModalOpen) && isEditMode == old(isEditMode)
      ensures editingId == old(editingId) && newVenueImage == old(newVenueImage) && formData == old(formData)
    {
      activeTab := tab;
    }

    /** `resetForm`: the empty form, no image, and out of edit mode. */
    method ResetForm()
      modifies this
      ensures formData == EMPTY_FORM && newVenueImage == None && !isEditMode && editingId == None
      ensures isAddModalOpen == old(isAddModalOpen)
      ensures searchTerm == old(searchTerm) && activeTab == old(activeTab)
    {
      formData, newVenueImage, isEditMode, editingId := EMPTY_FORM, None, false, None;
    }

    /** The Add Venue button, which only an ADMIN sees: an empty form, opened. */
    method OpenAddForm(role: UserRole)
      requires role == Admin
      modifies this
      ensures formData == EMPTY_FORM && newVenueImage == None && !isEditMode && editingId == None
      ensures isAddModalOpen
      ensures searchTerm == old(searchTerm) && activeTab == old(activeTab)
    {
      ResetForm();
      isAddModalOpen := true;
    }

    /** `handleEditClick`, on the edit button only an ADMIN sees: the venue's fields and image, in edit mode. */
    method EditClick(role: UserRole, v: Venue)
      requires role == Admin
      modifies this
      ensures formData == FormOf(v) && newVenueImage == Some(v.image)
      ensures editingId == Some(v.id) && isEditMode && isAddModalOpen
      ensures searchTerm == old(searchTerm) && activeTab == old(activeTab)
    {
      formData := FormOf(v);
      newVenueImage := Some(v.image);
      editingId := Some(v.id);
      isEditMode := true;
      isAddModalOpen := true;
    }

    /** `toggleEquipment`, called by one of the `VENUE_EQUIPMENT_CHOICES` buttons. */
    method ToggleEquipment(tag: string)
      requires tag in VENUE_EQUIPMENT_CHOICES
      modifies this
      ensures formData == old(formData).(equipment := Toggle(old(formData).equipment, tag))
      ensures isAddModalOpen == old(isAddModalOpen) && isEditMode == old(isEditMode)
      ensures editingId == old(editingId) && newVenueImage == old(newVenueImage)
      ensures searchTerm == old(searchTerm) && activeTab == old(activeTab)
    {
      formData := formData.(equipment := Toggle(formData.equipment, tag));
    }

    /** The close button: the dialog closes and the form is reset. */
    method Close()
      modifies this
      ensures !isAddModalOpen
      ensures formData == EMPTY_FORM && newVenueImage == None && !isEditMode && editingId == None
      ensures searchTerm == old(searchTerm) && activeTab == old(activeTab)
    {
      isAddModalOpen := false;
      ResetForm();
    }

    /** The image remove button. */
    method ClearImage()
      modifies this
      ensures newVenueImage == None && formData == old(formData)
      ensures isAddModalOpen == old(isAddModalOpen) && isEditMode == old(isEditMode) && editingId == old(editingId)
      ensures searchTerm == old(searchTerm) && activeTab == old(activeTab)
    {
      newVenueImage := None;
    }

    /**
     * `handleAddVenueSubmit`: in edit mode with a non-empty id, an update of
     * that id; otherwise an addition with the empty id. Either way the record
     * is unblocked, the dialog closes and the form is reset, whatever the
     * server answers.
     */
    method Submit(app: AppState.App, reply: Reply<Venue>) returns (action: VenueAction)
      modifies this, app
      ensures old(isEditMode) && old(editingId).Some? && old(editingId).value != "" ==>
        action == Update(BuildVenue(old(editingId).value, old(formData), old(newVenueImage)))
      ensures !(old(isEditMode) && old(editingId).Some? && old(editingId).value != "") ==>
        action == Add(BuildVenue("", old(formData), old(newVenueImage)))
      ensures action.Add? && reply.Ok? ==> app.venues == [reply.data] + old(app.venues)
      ensures action.Update? && reply.Ok? ==>
        && |app.venues| == |old(app.venues)|
        && forall k :: 0 <= k < |app.venues| ==>
             app.venues[k] == (if old(app.venues)[k].id == action.venue.id then reply.data else old(app.venues)[k])
      ensures reply.Failed? ==> app.venues == old(app.venues)
      ensures app.bookings == old(app.bookings) && app.users == old(app.users)
      ensures !isAddModalOpen && formData == EMPTY_FORM && newVenueImage == None && !isEditMode && editingId == None
      ensures searchTerm == old(searchTerm) && activeTab == old(activeTab)
    {
      if isEditMode && editingId.Some? && editingId.value != "" {
        var updated := BuildVenue(editingId.value, formData, newVenueImage);
        action := Update(updated);
        var _ := app.UpdateVenue(updated, reply);
      } else {
        var added := BuildVenue("", formData, newVenueImage);
        action := Add(added);
        var _ := app.AddVenue(added, reply);
      }
      isAddModalOpen := false;
      ResetForm();
    }
  }
}
