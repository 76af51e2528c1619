/**
 * The slot-availability grid of the Bookings page (`venueSlots`) and the filter
 * that offers end times after the chosen start time.
 */
module Availability {
  import opened Wrappers
  import opened Strings
  import opened Seqs
  import opened Types
  import opened Constants

  /**
   * Booking `b` occupies the slot at `time` of venue `venueId` on `date`: it is
   * an APPROVED booking of that venue and date that is full-day or whose
   * half-open range [startTime, endTime) holds `time`, the times compared as strings.
   */
  predicate Occupies(b: Booking, venueId: string, date: string, time: string) {
    && b.venueId == venueId
    && b.date == date
    && b.status == Approved
    && (b.isFullDay || (StrGe(time, b.startTime) && StrLt(time, b.endTime)))
  }

  /** `j` is the first index of `bookings` whose booking occupies the slot. */
  ghost predicate IsFirstOccupant(bookings: seq<Booking>, j: int, venueId: string, date: string, time: string) {
    && 0 <= j < |bookings|
    && Occupies(bookings[j], venueId, date, time)
    && forall k :: 0 <= k < j ==> !Occupies(bookings[k], venueId, date, time)
  }

  /** The position of the booking that `bookings.find` returns for the slot, if any. */
  function FirstOccupant(bookings: seq<Booking>, venueId: string, date: string, time: string): (r: Option<nat>)
    ensures r.Some? ==> IsFirstOccupant(bookings, r.value, venueId, date, time)
    ensures r.None? <==> forall j :: 0 <= j < |bookings| ==> !Occupies(bookings[j], venueId, date, time)
    decreases |bookings|
  {
    if bookings == [] then None
    else if Occupies(bookings[0], venueId, date, time) then Some(0)
    else match FirstOccupant(bookings[1..], venueId, date, time)
      case None => None
      case Some(k) => Some(k + 1)
  }

  /** The slot at `time` for one venue and date: `{ time, isAvailable: !booking, booking }`. */
  function SlotAt(bookings: seq<Booking>, venueId: string, date: string, time: string): (s: Slot)
    ensures s.time == time
    ensures s.isAvailable <==> s.booking.None?
    ensures s.isAvailable <==> forall j :: 0 <= j < |bookings| ==> !Occupies(bookings[j], venueId, date, time)
    ensures s.booking.Some? ==>
      exists j :: IsFirstOccupant(bookings, j, venueId, date, time) && bookings[j] == s.booking.value
  {
    match FirstOccupant(bookings, venueId, date, time)
    case None => Slot(time, true, None)
    case Some(j) => Slot(time, false, Some(bookings[j]))
  }

  /** One row of the grid: a venue and its slots. */
  datatype VenueRow = VenueRow(venue: Venue, slots: seq<Slot>)

  /** The slots of one venue on `date`, one per entry of `TIME_SLOTS`. */
  function RowSlots(bookings: seq<Booking>, venueId: string, date: string): (r: seq<Slot>)
    ensures |r| == |TIME_SLOTS|
    ensures forall i :: 0 <= i < |TIME_SLOTS| ==> r[i].time == TIME_SLOTS[i]
  {
    seq(|TIME_SLOTS|, i requires 0 <= i < |TIME_SLOTS| => SlotAt(bookings, venueId, date, TIME_SLOTS[i]))
  }

  /**
   * `venueSlots`: one row per venue in venue order, each with one slot per
   * `TIME_SLOTS` entry in that order; a slot is unavailable exactly when some
   * booking occupies it, and then it reports the first such booking in list order.
   */
  function VenueSlots(venues: seq<Venue>, bookings: seq<Booking>, selectedDate: string): (grid: seq<VenueRow>)
    ensures |grid| == |venues|
    ensures forall k :: 0 <= k < |venues| ==> grid[k].venue == venues[k] && |grid[k].slots| == |TIME_SLOTS|
    ensures forall k, i :: 0 <= k < |venues| && 0 <= i < |TIME_SLOTS| ==>
      var slot := grid[k].slots[i];
      && slot.time == TIME_SLOTS[i]
      && (slot.isAvailable <==> slot.booking.None?)
      && (slot.isAvailable <==>
            forall j :: 0 <= j < |bookings| ==> !Occupies(bookings[j], venues[k].id, selectedDate, TIME_SLOTS[i]))
      && (slot.booking.Some? ==>
            exists j :: IsFirstOccupant(bookings, j, venues[k].id, selectedDate, TIME_SLOTS[i]) && bookings[j] == slot.booking.value)
  {
    seq(|venues|, k requires 0 <= k < |venues| => VenueRow(venues[k], RowSlots(bookings, venues[k].id, selectedDate)))
  }

  /** An APPROVED full-day booking makes every slot of its venue and date unavailable, whatever its start and end. */
  lemma FullDayBlocksEverySlot(venues: seq<Venue>, bookings: seq<Booking>, date: string, k: nat, j: nat)
    requires k < |venues| && j < |bookings|
    requires bookings[j].venueId == venues[k].id && bookings[j].date == date
    requires bookings[j].status == Approved && bookings[j].isFullDay
    ensures forall i :: 0 <= i < |TIME_SLOTS| ==> !VenueSlots(venues, bookings, date)[k].slots[i].isAvailable
  {
  }

  /**
   * Half-open ranges: a booking occupies the slot whose time equals its start
   * time and does not occupy the slot whose time equals its end time.
   */
  lemma {:induction false} HalfOpenBoundary(b: Booking)
    requires b.status == Approved && !b.isFullDay && StrLt(b.startTime, b.endTime)
    ensures Occupies(b, b.venueId, b.date, b.startTime)
    ensures !Occupies(b, b.venueId, b.date, b.endTime)
  {
    StrLtIrreflexive(b.startTime);
    StrLtIrreflexive(b.endTime);
  }

  /** A timed booking whose end is not later than its start occupies no slot at all. */
  lemma InvertedRangeBlocksNothing(b: Booking, venueId: string, date: string, time: string)
    requires !b.isFullDay && !StrLt(b.startTime, b.endTime)
    ensures !Occupies(b, venueId, date, time)
  {
    if StrGe(time, b.startTime) && StrLt(time, b.endTime) {
      StrLtTotal(time, b.startTime);
      if StrLt(b.startTime, time) {
        StrLtTransitive(b.startTime, time, b.endTime);
      }
      assert false;
    }
  }

  /**
   * While the slot time and the booking's times are all zero-padded `HH:MM`,
   * the string test is the clock test: start <= time < end in minutes.
   */
  lemma {:induction false} OccupiesIsClockInterval(b: Booking, venueId: string, date: string, time: string)
    requires IsHhmm(time) && IsHhmm(b.startTime) && IsHhmm(b.endTime)
    ensures Occupies(b, venueId, date, time) <==>
      && b.venueId == venueId && b.date == date && b.status == Approved
      && (b.isFullDay || Minutes(b.startTime) <= Minutes(time) < Minutes(b.endTime))
  {
    StrLtIsClockOrder(time, b.startTime);
    StrLtIsClockOrder(time, b.endTime);
  }

  /** A venue's slots on a date with no APPROVED booking of that venue and date are all available. */
  lemma NoApprovedBookingMeansAllFree(venues: seq<Venue>, bookings: seq<Booking>, date: string, k: nat)
    requires k < |venues|
    requires forall j :: 0 <= j < |bookings| ==>
      !(bookings[j].venueId == venues[k].id && bookings[j].date == date && bookings[j].status == Approved)
    ensures forall i :: 0 <= i < |TIME_SLOTS| ==> VenueSlots(venues, bookings, date)[k].slots[i].isAvailable
  {
  }

  /** Dropping the PENDING and REJECTED bookings does not change which booking `find` reports. */
  lemma {:induction false} FirstOccupantIgnoresInactive(bookings: seq<Booking>, venueId: string, date: string, time: string)
    ensures var all, active := FirstOccupant(bookings, venueId, date, time),
                              FirstOccupant(Filter(bookings, IsApproved), venueId, date, time);
      && (all.None? <==> active.None?)
      && (all.Some? ==> bookings[all.value] == Filter(bookings, IsApproved)[active.value])
    decreases |bookings|
  {
    if bookings != [] {
      var b, rest := bookings[0], bookings[1..];
      var active, activeRest := Filter(bookings, IsApproved), Filter(rest, IsApproved);
      FirstOccupantIgnoresInactive(rest, venueId, date, time);
      if IsApproved(b) {
        assert active == [b] + activeRest;
        assert active[0] == b && active[1..] == activeRest;
      } else {
        assert active == activeRest;
        assert !Occupies(b, venueId, date, time);
      }
    }
  }

  /**
   * PENDING and REJECTED bookings never affect the grid: it is the same grid
   * as the one computed from the APPROVED bookings alone.
   */
  lemma OnlyApprovedBookingsMatter(venues: seq<Venue>, bookings: seq<Booking>, date: string)
    ensures VenueSlots(venues, Filter(bookings, IsApproved), date) == VenueSlots(venues, bookings, date)
  {
    var active := Filter(bookings, IsApproved);
    forall k | 0 <= k < |venues|
      ensures RowSlots(active, venues[k].id, date) == RowSlots(bookings, venues[k].id, date)
    {
      forall i | 0 <= i < |TIME_SLOTS|
        ensures SlotAt(active, venues[k].id, date, TIME_SLOTS[i]) == SlotAt(bookings, venues[k].id, date, TIME_SLOTS[i])
      {
        FirstOccupantIgnoresInactive(bookings, venues[k].id, date, TIME_SLOTS[i]);
      }
    }
  }

  // ---------------------------------------------------------------------------
  // End-time options (the End Time select)
  // ---------------------------------------------------------------------------

  /** The test `t > start` of the End Time filter, as a function value. */
  function LaterThan(start: string): string -> bool {
    t => StrLt(start, t)
  }

  /** `TIME_SLOTS.filter(t => t > startTime)`. */
  function EndTimeOptions(startTime: string): (r: seq<string>)
    ensures forall k :: 0 <= k < |r| ==> StrLt(startTime, r[k])
    ensures forall t :: t in TIME_SLOTS ==> (t in r <==> StrLt(startTime, t))
  {
    FilterMembers(TIME_SLOTS, LaterThan(startTime));
    Filter(TIME_SLOTS, LaterThan(startTime))
  }

  /** The options keep the order of `TIME_SLOTS`. */
  lemma EndTimeOptionsInOrder(startTime: string)
    ensures SubsequenceOf(EndTimeOptions(startTime), TIME_SLOTS)
  {
    FilterIsSubsequence(TIME_SLOTS, LaterThan(startTime));
  }

  /** In a strictly increasing list, the entries after the `k`-th one are exactly the later ones. */
  lemma LaterOfIncreasing(slots: seq<string>, k: nat)
    requires k < |slots|
    requires forall i, j :: 0 <= i < j < |slots| ==> StrLt(slots[i], slots[j])
    ensures Filter(slots, LaterThan(slots[k])) == slots[k + 1..]
  {
    var later := LaterThan(slots[k]);
    var before, after := slots[..k + 1], slots[k + 1..];
    forall i | 0 <= i < |before| ensures !later(before[i]) {
      if i == k {
        StrLtIrreflexive(slots[k]);
      } else {
        StrLtAsymmetric(slots[i], slots[k]);
      }
    }
    forall i | 0 <= i < |after| ensures later(after[i]) {
      assert after[i] == slots[k + 1 + i];
    }
    FilterNone(before, later);
    FilterAll(after, later);
    FilterAppend(before, after, later);
    assert slots == before + after;
  }

  /** From the `k`-th slot time the options are exactly the later slot times, in order. */
  lemma EndTimeOptionsAfterSlot(k: nat)
    requires k < |TIME_SLOTS|
    ensures EndTimeOptions(TIME_SLOTS[k]) == TIME_SLOTS[k + 1..]
  {
    TimeSlotsIncreasing();
    LaterOfIncreasing(TIME_SLOTS, k);
  }

  /** The last slot time, 20:00, offers no end time at all. */
  lemma NoEndTimeAfterLastSlot()
    ensures EndTimeOptions("20:00") == []
  {
    TimeSlotsShape();
    EndTimeOptionsAfterSlot(12);
  }
}
