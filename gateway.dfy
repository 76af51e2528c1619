/**
 * The translation between the front end's records and the server's, as the
 * handlers of App.tsx do it before and after each call: the booking request
 * sent by `addBooking`, and the booking records received from `fetchBookings`
 * and `addBooking`.
 *
 * The server itself is not part of this model. A call is represented by the
 * request it sends and the `Reply` it gets, which the caller supplies: either
 * a value or a failure.
 */
module Gateway {
  import opened Wrappers
  import opened Strings
  import opened Types
  import Availability

  /** The outcome of one server call: the response body, or a failure (any thrown error). */
  datatype Reply<T> = Ok(data: T) | Failed

  /** The request line of a server call and the body it sends. */
  datatype Request = Get(path: string) | Post(path: string, body: Body) | Put(path: string, body: Body)

  /** A reference to a server entity by its numeric id, as in `venue: { id }`. */
  datatype ServerRef = ServerRef(id: nat)

  /** The user a server booking carries: `user.id` and `user.name`. */
  datatype ServerUser = ServerUser(id: nat, name: string)

  /**
   * A booking as the server returns it. Besides the renamed and nested fields
   * it carries the other booking fields under the names the front end reads.
   */
  datatype ServerBooking = ServerBooking(
    id: nat,
    venue: ServerRef,
    user: ServerUser,
    bookingDate: string,
    startTime: string,
    endTime: string,
    isFullDay: bool,
    title: string,
    description: string,
    status: BookingStatus,
    posterUrl: Option<string>,
    equipmentRequired: seq<string>,
    attendees: int,
    timestamp: int)

  /** The JSON body of a request: none, a venue record, or a booking payload. */
  datatype Body = NoBody | VenueBody(venue: Venue) | BookingBody(payload: BookingPayload)

  /** The booking the Bookings page hands to `addBooking`: no id, no status, no user. */
  datatype BookingDraft = BookingDraft(
    venueId: string,
    title: string,
    description: string,
    date: string,
    startTime: string,
    endTime: string,
    isFullDay: bool,
    equipmentRequired: seq<string>,
    attendees: int)

  /** The body of `POST /bookings`. `venue` is `None` where `parseInt` gives NaN. */
  datatype BookingPayload = BookingPayload(
    venue: Option<ServerRef>,
    bookingDate: string,
    startTime: string,
    endTime: string,
    fullDay: bool,
    title: string,
    description: string,
    attendees: int,
    equipmentRequired: seq<string>)

  // ---------------------------------------------------------------------------
  // Outgoing
  // ---------------------------------------------------------------------------

  /** `t.length === 5 ? t + ":00" : t`. */
  function PadSeconds(t: string): (r: string)
    ensures |t| == 5 ==> r == t + ":00"
    ensures |t| != 5 ==> r == t
  {
    if |t| == 5 then t + ":00" else t
  }

  /** A zero-padded `HH:MM` becomes the `HH:MM:SS` of the same minute. */
  lemma PadSecondsOfClockTime(t: string)
    requires IsHhmm(t)
    ensures IsHhmmss(PadSeconds(t)) && PadSeconds(t)[..5] == t
  {
    assert PadSeconds(t)[..5] == t;
  }

  /** `parseInt` of a client-side id. */
  function ParseRef(id: string): (r: Option<ServerRef>)
    ensures r.Some? <==> id != [] && AllDigits(id)
  {
    match ParseDecimal(id)
    case None => None
    case Some(n) => Some(ServerRef(n))
  }

  /** The request body `addBooking` builds from a draft. */
  function ToPayload(d: BookingDraft): (p: BookingPayload)
    ensures p.venue == ParseRef(d.venueId)
    ensures p.bookingDate == d.date && p.fullDay == d.isFullDay
    ensures p.startTime == PadSeconds(d.startTime) && p.endTime == PadSeconds(d.endTime)
    ensures p.title == d.title && p.description == d.description
    ensures p.attendees == d.attendees && p.equipmentRequired == d.equipmentRequired
  {
    BookingPayload(
      ParseRef(d.venueId), d.date, PadSeconds(d.startTime), PadSeconds(d.endTime),
      d.isFullDay, d.title, d.description, d.attendees, d.equipmentRequired)
  }

  // ---------------------------------------------------------------------------
  // Incoming
  // ---------------------------------------------------------------------------

  /**
   * `{ ...b, date: b.bookingDate, venueId: b.venue.id.toString(),
   * userId: b.user.id.toString(), userName: b.user.name }`: every other
   * field is kept as it came, the times included.
   */
  function FromServer(b: ServerBooking): (r: Booking)
    ensures r.id == NatToString(b.id) && r.date == b.bookingDate
    ensures r.venueId == NatToString(b.venue.id) && r.userId == NatToString(b.user.id)
    ensures r.userName == b.user.name
    ensures r.startTime == b.startTime && r.endTime == b.endTime
    ensures r.isFullDay == b.isFullDay && r.status == b.status
    ensures r.title == b.title && r.description == b.description && r.posterUrl == b.posterUrl
    ensures r.equipmentRequired == b.equipmentRequired
    ensures r.attendees == b.attendees && r.timestamp == b.timestamp
  {
    Booking(
      NatToString(b.id), NatToString(b.venue.id), NatToString(b.user.id), b.user.name,
      b.title, b.description, b.bookingDate, b.startTime, b.endTime, b.isFullDay,
      b.status, b.posterUrl, b.equipmentRequired, b.attendees, b.timestamp)
  }

  /** Corrected, not in the source: an eight-character `HH:MM:SS` value without its seconds; any other value unchanged. */
  function TrimSeconds(t: string): (r: string)
    ensures |t| == 8 ==> r == t[..5]
    ensures |t| != 8 ==> r == t
  {
    if |t| == 8 then t[..5] else t
  }

  /** Trimming undoes the padding of a five-character time. */
  lemma TrimUndoesPad(t: string)
    requires |t| == 5
    ensures TrimSeconds(PadSeconds(t)) == t
  {
  }

  /**
   * Corrected, not in the source: `FromServer` with the times brought back to
   * `HH:MM`. A stored `HH:MM:SS` comes back as its hour and minute, and every
   * other field as `FromServer` gives it.
   */
  function FromServerTrimmed(b: ServerBooking): (r: Booking)
    ensures IsHhmmss(b.startTime) ==> IsHhmm(r.startTime) && r.startTime == b.startTime[..5]
    ensures IsHhmmss(b.endTime) ==> IsHhmm(r.endTime) && r.endTime == b.endTime[..5]
    ensures IsHhmm(b.startTime) ==> r.startTime == b.startTime
    ensures IsHhmm(b.endTime) ==> r.endTime == b.endTime
    ensures r.(startTime := b.startTime, endTime := b.endTime) == FromServer(b)
  {
    FromServer(b).(startTime := TrimSeconds(b.startTime), endTime := TrimSeconds(b.endTime))
  }

  /** `response.data.map(...)` in `fetchBookings`: every record translated, in order. */
  function AllFromServer(bs: seq<ServerBooking>): (r: seq<Booking>)
    ensures |r| == |bs|
    ensures forall k :: 0 <= k < |bs| ==> r[k] == FromServer(bs[k])
  {
    seq(|bs|, k requires 0 <= k < |bs| => FromServer(bs[k]))
  }

  // ---------------------------------------------------------------------------
  // A server that stores a request as it was sent
  // ---------------------------------------------------------------------------

  /**
   * The record of a server that keeps every field of the request as sent and
   * adds the id, the requester, the status and the creation time it chooses.
   */
  function Stored(p: BookingPayload, id: nat, user: ServerUser, status: BookingStatus, stamp: int): (b: ServerBooking)
    requires p.venue.Some?
    ensures b.venue == p.venue.value && b.bookingDate == p.bookingDate
    ensures b.startTime == p.startTime && b.endTime == p.endTime && b.isFullDay == p.fullDay
  {
    ServerBooking(
      id, p.venue.value, user, p.bookingDate, p.startTime, p.endTime, p.fullDay,
      p.title, p.description, status, None, p.equipmentRequired, p.attendees, stamp)
  }

  /**
   * A draft for a venue with a numeric id that the server stores as sent comes
   * back, through the translation as written, with the draft's venue, date,
   * flag, text, equipment and attendees, and with its times as they were sent:
   * padded with seconds when they had five characters.
   */
  lemma DraftRoundTrip(d: BookingDraft, venue: nat, id: nat, user: ServerUser, status: BookingStatus, stamp: int)
    requires d.venueId == NatToString(venue)
    ensures ToPayload(d).venue == Some(ServerRef(venue))
    ensures var b := FromServer(Stored(ToPayload(d), id, user, status, stamp));
      && b.venueId == d.venueId && b.date == d.date && b.isFullDay == d.isFullDay
      && b.startTime == PadSeconds(d.startTime) && b.endTime == PadSeconds(d.endTime)
      && b.title == d.title && b.description == d.description
      && b.equipmentRequired == d.equipmentRequired && b.attendees == d.attendees
      && b.id == NatToString(id) && b.userName == user.name && b.status == status
    ensures IsHhmm(d.startTime) ==>
      FromServer(Stored(ToPayload(d), id, user, status, stamp)).startTime == d.startTime + ":00"
  {
    ParseDecimalOfNatToString(venue);
  }

  /**
   * Corrected: through the trimming translation, a stored draft with `HH:MM`
   * times comes back with exactly its own times, and every other field as
   * the translation as written gives it.
   */
  lemma TrimmedDraftRoundTrip(d: BookingDraft, venue: nat, id: nat, user: ServerUser, status: BookingStatus, stamp: int)
    requires d.venueId == NatToString(venue)
    requires IsHhmm(d.startTime) && IsHhmm(d.endTime)
    ensures var stored := Stored(ToPayload(d), id, user, status, stamp);
      FromServerTrimmed(stored) == FromServer(stored).(startTime := d.startTime, endTime := d.endTime)
  {
    ParseDecimalOfNatToString(venue);
    PadSecondsOfClockTime(d.startTime);
    PadSecondsOfClockTime(d.endTime);
  }

  // ---------------------------------------------------------------------------
  // The padded times in the availability grid
  // ---------------------------------------------------------------------------

  /** A 09:00-11:00 request for venue 3 on 2025-01-15. */
  function SampleDraft(): (d: BookingDraft)
    ensures d.venueId == "3" && d.startTime == "09:00" && d.endTime == "11:00" && !d.isFullDay
  {
    BookingDraft("3", "Seminar", "", "2025-01-15", "09:00", "11:00", false, [], 50)
  }

  /**
   * As written: once the server echoes the padded times, the untrimmed record
   * leaves the 09:00 slot free and blocks the 10:00 and 11:00 slots, one slot
   * later than the booked hours.
   */
  lemma PaddedTimesShiftTheGrid(user: ServerUser, stamp: int)
    ensures var b := FromServer(Stored(ToPayload(SampleDraft()), 1, user, Approved, stamp));
      && b.startTime == "09:00:00" && b.endTime == "11:00:00"
      && !Availability.Occupies(b, "3", "2025-01-15", "09:00")
      && Availability.Occupies(b, "3", "2025-01-15", "10:00")
      && Availability.Occupies(b, "3", "2025-01-15", "11:00")
  {
    var d := SampleDraft();
    ParseDecimalOfNatToString(3);
    assert NatToString(3) == "3";
    var b := FromServer(Stored(ToPayload(d), 1, user, Approved, stamp));
    assert b.startTime == "09:00" + ":00" == "09:00:00";
    assert b.endTime == "11:00" + ":00" == "11:00:00";
    assert StrLt("09:00", "09:00:00");
    assert !StrLt("10:00", "09:00:00") && StrLt("10:00", "11:00:00");
    assert !StrLt("11:00", "09:00:00") && StrLt("11:00", "11:00:00");
  }

  /**
   * Corrected: with the times trimmed on receipt, a stored request with
   * `HH:MM` times occupies exactly the slots whose clock time lies in its
   * half-open range, on its venue and date, once it is APPROVED.
   */
  lemma TrimmedTimesKeepTheGrid(d: BookingDraft, venue: nat, id: nat, user: ServerUser, stamp: int, time: string)
    requires d.venueId == NatToString(venue)
    requires IsHhmm(d.startTime) && IsHhmm(d.endTime) && IsHhmm(time)
    ensures var b := FromServerTrimmed(Stored(ToPayload(d), id, user, Approved, stamp));
      Availability.Occupies(b, d.venueId, d.date, time) <==>
        d.isFullDay || Minutes(d.startTime) <= Minutes(time) < Minutes(d.endTime)
  {
    DraftRoundTrip(d, venue, id, user, Approved, stamp);
    TrimmedDraftRoundTrip(d, venue, id, user, Approved, stamp);
    var b := FromServerTrimmed(Stored(ToPayload(d), id, user, Approved, stamp));
    Availability.OccupiesIsClockInterval(b, d.venueId, d.date, time);
  }
}
