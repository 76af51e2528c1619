/**
 * The booking form of the Bookings page: the form state, the slot click that
 * opens it, the start, end and equipment inputs, the submit handler that
 * builds the request handed to `addBooking`, and the reset.
 */
module BookingsPage {
  import opened Wrappers
  import opened Strings
  import opened Seqs
  import opened Types
  import opened Constants
  import opened Availability
  import opened Gateway
  import AppState

  /** The form fields (`formData`); the poster file is not part of this model. */
  datatype FormData = FormData(
    title: string,
    description: string,
    startTime: string,
    endTime: string,
    isFullDay: bool,
    attendees: int,
    equipment: seq<string>)

  /** The form as it starts and as `resetForm` leaves it. */
  const INITIAL_FORM: FormData := FormData("", "", "09:00", "10:00", false, 50, [])

  /** The equipment tags the form offers. */
  const EQUIPMENT_CHOICES: seq<string> := ["Projector", "Microphone", "Sound System", "AC", "Whiteboard", "PC", "Lab Kits"]

  /** The initial end time is one of the options the initial start time offers. */
  lemma InitialEndIsOffered()
    ensures INITIAL_FORM.endTime in EndTimeOptions(INITIAL_FORM.startTime)
  {
    TimeSlotsShape();
    assert TIME_SLOTS[1] == "09:00";
    EndTimeOptionsAfterSlot(1);
    assert TIME_SLOTS[2] == "10:00";
  }

  /**
   * The request `handleBookingSubmit` builds: the selected venue's id, the
   * selected date and the form's fields as they are; no id, status or user.
   */
  function Draft(venue: Venue, date: string, f: FormData): (d: BookingDraft)
    ensures d.venueId == venue.id && d.date == date
    ensures d.title == f.title && d.description == f.description
    ensures d.startTime == f.startTime && d.endTime == f.endTime && d.isFullDay == f.isFullDay
    ensures d.equipmentRequired == f.equipment && d.attendees == f.attendees
  {
    BookingDraft(venue.id, f.title, f.description, date, f.startTime, f.endTime, f.isFullDay, f.equipment, f.attendees)
  }

  /**
   * A submitted form for a venue with a numeric id reaches the server with
   * that venue, the selected date, the full-day flag and the form's times
   * with seconds added.
   */
  lemma SubmittedPayload(venue: Venue, n: nat, date: string, f: FormData)
    requires venue.id == NatToString(n)
    ensures var p := ToPayload(Draft(venue, date, f));
      && p.venue == Some(ServerRef(n)) && p.bookingDate == date && p.fullDay == f.isFullDay
      && p.startTime == PadSeconds(f.startTime) && p.endTime == PadSeconds(f.endTime)
      && p.title == f.title && p.equipmentRequired == f.equipment && p.attendees == f.attendees
  {
    ParseDecimalOfNatToString(n);
  }

  // ---------------------------------------------------------------------------
  // Choosing a start time
  // ---------------------------------------------------------------------------

  /** As written: a new start time replaces the old one and the end time stays as it was. */
  function StartChosenAsWritten(f: FormData, t: string): (r: FormData)
    ensures r.startTime == t
    ensures r.(startTime := f.startTime) == f
  {
    f.(startTime := t)
  }

  /**
   * Clicking the free 12:00 slot on a fresh form leaves the end time at 10:00:
   * a value the End Time list does not offer, earlier than the start, and the
   * one the request carries unless the user changes it.
   */
  lemma StaleEndTimeAfterSlotClick()
    ensures var f := StartChosenAsWritten(INITIAL_FORM, "12:00");
      && f.endTime == "10:00"
      && f.endTime !in EndTimeOptions(f.startTime)
      && StrLt(f.endTime, f.startTime)
  {
    TimeSlotsShape();
    assert TIME_SLOTS[4] == "12:00";
    EndTimeOptionsAfterSlot(4);
    assert "10:00" !in TIME_SLOTS[5..];
  }

  /**
   * Corrected: a new start time keeps the end time while the End Time list
   * still offers it, and otherwise moves it to the first offered option.
   */
  function StartChosen(f: FormData, t: string): (r: FormData)
    ensures r.startTime == t
    ensures EndTimeOptions(t) != [] ==> r.endTime in EndTimeOptions(t) && StrLt(t, r.endTime)
    ensures f.endTime in EndTimeOptions(t) ==> r.endTime == f.endTime
    ensures r.(startTime := f.startTime, endTime := f.endTime) == f
  {
    var options := EndTimeOptions(t);
    if f.endTime in options || options == [] then f.(startTime := t)
    else f.(startTime := t, endTime := options[0])
  }

  /** With the correction, any slot but the last leaves an end time later than the start. */
  lemma StartChosenOffersEnd(f: FormData, k: nat)
    requires k + 1 < |TIME_SLOTS|
    ensures var r := StartChosen(f, TIME_SLOTS[k]);
      r.endTime in TIME_SLOTS[k + 1..] && StrLt(r.startTime, r.endTime)
  {
    EndTimeOptionsAfterSlot(k);
  }

  // ---------------------------------------------------------------------------
  // The page state
  // ---------------------------------------------------------------------------

  class BookingForm {
    var selectedDate: string
    var formData: FormData
    var isModalOpen: bool
    var showSuccessModal: bool
    var selectedVenue: Option<Venue>

    /** The page opens on `today`, with the initial form and no dialog. */
    constructor (today: string)
      ensures selectedDate == today && formData == INITIAL_FORM
      ensures !isModalOpen && !showSuccessModal && selectedVenue == None
    {
      selectedDate, formData := today, INITIAL_FORM;
      isModalOpen, showSuccessModal, selectedVenue := false, false, None;
    }

    /** The date navigation and the date input; the new date is computed by the caller. */
    method SelectDate(date: string)
      modifies this
      ensures selectedDate == date
      ensures formData == old(formData) && isModalOpen == old(isModalOpen)
      ensures showSuccessModal == old(showSuccessModal) && selectedVenue == old(selectedVenue)
    {
      selectedDate := date;
    }

    /** A click on a free slot of the grid selects its venue and time and opens the form. */
    method PickSlot(row: VenueRow, i: nat)
      requires i < |row.slots| && row.slots[i].isAvailable
      modifies this
      ensures selectedVenue == Some(row.venue) && isModalOpen
      ensures formData == StartChosenAsWritten(old(formData), row.slots[i].time)
      ensures selectedDate == old(selectedDate) && showSuccessModal == old(showSuccessModal)
    {
      selectedVenue := Some(row.venue);
      formData := StartChosenAsWritten(formData, row.slots[i].time);
      isModalOpen := true;
    }

    /** The Start Time list, whose options are `TIME_SLOTS`. */
    method ChooseStart(t: string)
      requires t in TIME_SLOTS
      modifies this
      ensures formData == StartChosenAsWritten(old(formData), t)
      ensures selectedDate == old(selectedDate) && isModalOpen == old(isModalOpen)
      ensures showSuccessModal == old(showSuccessModal) && selectedVenue == old(selectedVenue)
    {
      formData := StartChosenAsWritten(formData, t);
    }

    /** The End Time list, whose options are `EndTimeOptions(startTime)`. */
    method ChooseEnd(t: string)
      requires t in EndTimeOptions(formData.startTime)
      modifies this
      ensures formData == old(formData).(endTime := t)
      ensures StrLt(formData.startTime, formData.endTime)
      ensures selectedDate == old(selectedDate) && isModalOpen == old(isModalOpen)
      ensures showSuccessModal == old(showSuccessModal) && selectedVenue == old(selectedVenue)
    {
      formData := formData.(endTime := t);
    }

    /** The full-day checkbox. */
    method SetFullDay(flag: bool)
      modifies this
      ensures formData == old(formData).(isFullDay := flag)
      ensures selectedDate == old(selectedDate) && isModalOpen == old(isModalOpen)
      ensures showSuccessModal == old(showSuccessModal) && selectedVenue == old(selectedVenue)
    {
      formData := formData.(isFullDay := flag);
    }

    /** The title, description and attendees inputs; the number is parsed by the caller. */
    method SetDetails(title: string, description: string, attendees: int)
      modifies this
      ensures formData == old(formData).(title := title, description := description, attendees := attendees)
      ensures selectedDate == old(selectedDate) && isModalOpen == old(isModalOpen)
      ensures showSuccessModal == old(showSuccessModal) && selectedVenue == old(selectedVenue)
    {
      formData := formData.(title := title, description := description, attendees := attendees);
    }

    /** The button of the confirmation dialog. */
    method DismissSuccess()
      modifies this
      ensures !showSuccessModal
      ensures formData == old(formData) && selectedDate == old(selectedDate)
      ensures isModalOpen == old(isModalOpen) && selectedVenue == old(selectedVenue)
    {
      showSuccessModal := false;
    }

    /** An equipment button, one per `EQUIPMENT_CHOICES`: the tag is added if absent and removed if present. */
    method ToggleEquipment(tag: string)
      requires tag in EQUIPMENT_CHOICES
      modifies this
      ensures formData == old(formData).(equipment := Toggle(old(formData).equipment, tag))
      ensures selectedDate == old(selectedDate) && isModalOpen == old(isModalOpen)
      ensures showSuccessModal == old(showSuccessModal) && selectedVenue == old(selectedVenue)
    {
      formData := formData.(equipment := Toggle(formData.equipment, tag));
    }

    /** `resetForm`: the initial form again. */
    method ResetForm()
      modifies this
      ensures formData == INITIAL_FORM
      ensures selectedDate == old(selectedDate) && isModalOpen == old(isModalOpen)
      ensures showSuccessModal == old(showSuccessModal) && selectedVenue == old(selectedVenue)
    {
      formData := INITIAL_FORM;
    }

    /** The close button: the dialog closes and the form is reset. */
    method Cancel()
      modifies this
      ensures formData == INITIAL_FORM && !isModalOpen
      ensures selectedDate == old(selectedDate)
      ensures showSuccessModal == old(showSuccessModal) && selectedVenue == old(selectedVenue)
    {
      isModalOpen := false;
      ResetForm();
    }

    /**
     * `handleBookingSubmit`: without a selected venue nothing happens.
     * Otherwise the draft goes to `addBooking`; on success the dialog closes,
     * a non-admin sees the confirmation and the form is reset; on failure the
     * page stays as it was.
     */
    method Submit(app: AppState.App, role: UserRole, reply: Reply<ServerBooking>) returns (sent: Option<BookingDraft>)
      modifies this, app
      ensures old(selectedVenue).None? ==> sent.None? && app.bookings == old(app.bookings)
      ensures old(selectedVenue).Some? ==>
        sent == Some(Draft(old(selectedVenue).value, old(selectedDate), old(formData)))
      ensures old(selectedVenue).Some? && reply.Ok? ==>
        && app.bookings == old(app.bookings) + [FromServer(reply.data)]
        && !isModalOpen && formData == INITIAL_FORM
        && showSuccessModal == (old(showSuccessModal) || role != Admin)
      ensures !(old(selectedVenue).Some? && reply.Ok?) ==>
        && app.bookings == old(app.bookings)
        && isModalOpen == old(isModalOpen) && formData == old(formData)
        && showSuccessModal == old(showSuccessModal)
      ensures app.venues == old(app.venues) && app.users == old(app.users)
      ensures selectedDate == old(selectedDate) && selectedVenue == old(selectedVenue)
    {
      sent := None;
      if selectedVenue.Some? {
        var draft := Draft(selectedVenue.value, selectedDate, formData);
        sent := Some(draft);
        var _, rethrown := app.AddBooking(draft, reply);
        if !rethrown {
          isModalOpen := false;
          if role != Admin {
            showSuccessModal := true;
          }
          ResetForm();
        }
      }
    }
  }
}
