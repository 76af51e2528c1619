/**
 * The figures the Dashboard derives from the booking and venue lists: the
 * summary statistics, the per-day series, the per-category usage, the
 * pending-approval table and the rows of the report. Dates are opaque
 * `YYYY-MM-DD` keys passed in by the caller (today, and the days to chart).
 */
module Dashboard {
  import opened Wrappers
  import opened Strings
  import opened Seqs
  import opened Types

  // ---------------------------------------------------------------------------
  // Summary statistics
  // ---------------------------------------------------------------------------

  /**
   * `Math.round(approved / (total || 1) * 100)` in exact arithmetic: the
   * integer nearest to 100 * approved / max(total, 1), halves rounded up.
   */
  function ApprovedRate(approved: nat, total: nat): (rate: nat)
    ensures var d := if total == 0 then 1 else total;
      2 * rate * d <= 200 * approved + d < 2 * (rate + 1) * d
  {
    var d := if total == 0 then 1 else total;
    (200 * approved + d) / (2 * d)
  }

  lemma MulMonotone(a: int, b: int, m: int)
    requires a <= b && m >= 0
    ensures a * m <= b * m
  {
  }

  /** The rate is 0 for an empty list and a percentage whenever the approved bookings are among all. */
  lemma ApprovedRateBounds(approved: nat, total: nat)
    ensures total == 0 && approved == 0 ==> ApprovedRate(approved, total) == 0
    ensures approved <= total ==> ApprovedRate(approved, total) <= 100
    ensures approved == total && total > 0 ==> ApprovedRate(approved, total) == 100
  {
    var rate, d := ApprovedRate(approved, total), if total == 0 then 1 else total;
    if approved <= total && rate > 100 {
      MulMonotone(101, rate, 2 * d);
    }
    if approved == total && total > 0 && rate < 100 {
      MulMonotone(rate + 1, 100, 2 * d);
    }
  }

  datatype Stats = Stats(
    totalVenues: nat,
    totalBookings: nat,
    todayBookings: nat,
    pendingApprovals: nat,
    approvedRate: nat)

  /** The test `b.date === today`, as a function value. */
  function OnDate(date: string): Booking -> bool {
    (b: Booking) => b.date == date
  }

  /** `stats`, with `today` given. */
  function ComputeStats(venues: seq<Venue>, bookings: seq<Booking>, today: string): (s: Stats)
    ensures s.totalVenues == |venues| && s.totalBookings == |bookings|
    ensures s.todayBookings == |Filter(bookings, OnDate(today))| <= |bookings|
    ensures s.pendingApprovals == |Filter(bookings, IsPending)| <= |bookings|
    ensures s.approvedRate == ApprovedRate(|Filter(bookings, IsApproved)|, |bookings|) <= 100
    ensures bookings == [] ==> s.approvedRate == 0
  {
    var approved := |Filter(bookings, IsApproved)|;
    ApprovedRateBounds(approved, |bookings|);
    Stats(|venues|, |bookings|, |Filter(bookings, OnDate(today))|, |Filter(bookings, IsPending)|,
      ApprovedRate(approved, |bookings|))
  }

  // ---------------------------------------------------------------------------
  // Per-day series
  // ---------------------------------------------------------------------------

  /** One day to chart: its date key and its display name. */
  datatype Day = Day(dateStr: string, dayName: string)

  /** One point of the series. */
  datatype DayPoint = DayPoint(name: string, bookings: nat, attendance: int)

  /** `bs.reduce((sum, b) => sum + b.attendees, 0)`. */
  function SumAttendees(bs: seq<Booking>): (total: int)
    ensures (forall k :: 0 <= k < |bs| ==> bs[k].attendees >= 0) ==> total >= 0
  {
    if bs == [] then 0 else SumAttendees(bs[..|bs| - 1]) + bs[|bs| - 1].attendees
  }

  lemma {:induction false} SumAttendeesAppend(s: seq<Booking>, t: seq<Booking>)
    ensures SumAttendees(s + t) == SumAttendees(s) + SumAttendees(t)
    decreases |t|
  {
    if t != [] {
      assert (s + t)[..|s + t| - 1] == s + t[..|t| - 1];
      SumAttendeesAppend(s, t[..|t| - 1]);
    } else {
      assert s + t == s;
    }
  }

  /** The point of one day: its bookings and their attendees. */
  function PointFor(bookings: seq<Booking>, day: Day): (p: DayPoint)
    ensures p.name == day.dayName
    ensures p.bookings == |Filter(bookings, OnDate(day.dateStr))|
    ensures p.attendance == SumAttendees(Filter(bookings, OnDate(day.dateStr)))
  {
    var dayBookings := Filter(bookings, OnDate(day.dateStr));
    DayPoint(day.dayName, |dayBookings|, SumAttendees(dayBookings))
  }

  /** `chartData`: one point per given day, in the order given. */
  function ChartData(bookings: seq<Booking>, days: seq<Day>): (points: seq<DayPoint>)
    ensures |points| == |days|
    ensures forall i :: 0 <= i < |days| ==> points[i] == PointFor(bookings, days[i])
  {
    seq(|days|, i requires 0 <= i < |days| => PointFor(bookings, days[i]))
  }

  /**
   * One more booking adds one to the count and its attendees to the
   * attendance of the days with its date, and leaves every other day alone.
   */
  lemma ChartDataAppend(bookings: seq<Booking>, b: Booking, days: seq<Day>)
    ensures forall i :: 0 <= i < |days| ==>
      var before, after := ChartData(bookings, days)[i], ChartData(bookings + [b], days)[i];
      if b.date == days[i].dateStr then
        after.bookings == before.bookings + 1 && after.attendance == before.attendance + b.attendees
      else
        after == before
  {
    forall i | 0 <= i < |days|
      ensures var p := OnDate(days[i].dateStr);
        && Filter(bookings + [b], p) == Filter(bookings, p) + Filter([b], p)
        && SumAttendees(Filter(bookings + [b], p)) == SumAttendees(Filter(bookings, p)) + SumAttendees(Filter([b], p))
    {
      var p := OnDate(days[i].dateStr);
      FilterAppend(bookings, [b], p);
      SumAttendeesAppend(Filter(bookings, p), Filter([b], p));
      assert Filter([b], p) == if p(b) then [b] else [];
    }
  }

  // ---------------------------------------------------------------------------
  // Usage per category
  // ---------------------------------------------------------------------------

  /** `venues.find(v => v.id === id)`. */
  function FindVenue(venues: seq<Venue>, id: string): (r: Option<Venue>)
    ensures r.Some? ==> exists k :: FirstWithId(venues, id, k) && venues[k] == r.value
    ensures r.None? <==> forall k :: 0 <= k < |venues| ==> venues[k].id != id
  {
    if venues == [] then None
    else if venues[0].id == id then
      assert FirstWithId(venues, id, 0);
      Some(venues[0])
    else
      var r := FindVenue(venues[1..], id);
      if r.Some? then
        var k :| FirstWithId(venues[1..], id, k) && venues[1..][k] == r.value;
        assert FirstWithId(venues, id, k + 1);
        r
      else r
  }

  /** `k` is the first position of a venue with that id. */
  predicate FirstWithId(venues: seq<Venue>, id: string, k: int) {
    && 0 <= k < |venues|
    && venues[k].id == id
    && forall j :: 0 <= j < k ==> venues[j].id != id
  }

  /** `cat.charAt(0) + cat.slice(1).toLowerCase()` on a category code. */
  function CategoryLabel(c: VenueCategory): (text: string)
    ensures text == (match c case Academic => "Academic" case Hall => "Hall" case Sports => "Sports")
  {
    var code := CategoryCode(c);
    [code[0]] + Lower(code[1..])
  }

  /** The test "the booking's venue, found by id, has category `c`", as a function value. */
  function InCategory(venues: seq<Venue>, c: VenueCategory): Booking -> bool {
    (b: Booking) => match FindVenue(venues, b.venueId)
      case Some(v) => v.category == c
      case None => false
  }

  /** One slice of the usage chart. */
  datatype Usage = Usage(name: string, value: nat)

  /** `venues.map(v => v.category)`. */
  function VenueCategories(venues: seq<Venue>): (cats: seq<VenueCategory>)
    ensures |cats| == |venues|
    ensures forall k :: 0 <= k < |venues| ==> cats[k] == venues[k].category
  {
    seq(|venues|, k requires 0 <= k < |venues| => venues[k].category)
  }

  /** The categories of the venues, each once, in order of first appearance. */
  function Categories(venues: seq<Venue>): (cats: seq<VenueCategory>)
    ensures IsDistinctOf(cats, VenueCategories(venues))
  {
    Distinct(VenueCategories(venues))
  }

  /** A category's slice before the zero-valued ones are dropped. */
  function UsageOf(venues: seq<Venue>, bookings: seq<Booking>, c: VenueCategory): (u: Usage)
    ensures u.name == CategoryLabel(c)
    ensures u.value == |Filter(bookings, InCategory(venues, c))| <= |bookings|
  {
    Usage(CategoryLabel(c), |Filter(bookings, InCategory(venues, c))|)
  }

  /** One slice per distinct category, zero-valued ones included. */
  function CategoryUsage(venues: seq<Venue>, bookings: seq<Booking>): (all: seq<Usage>)
    ensures |all| == |Categories(venues)|
    ensures forall k :: 0 <= k < |all| ==> all[k] == UsageOf(venues, bookings, Categories(venues)[k])
  {
    var cats := Categories(venues);
    seq(|cats|, k requires 0 <= k < |cats| => UsageOf(venues, bookings, cats[k]))
  }

  function HasValue(u: Usage): bool {
    u.value > 0
  }

  /**
   * `venueUsage`: one slice per distinct category of the venues, in order of
   * first appearance, valued by the bookings whose venue has that category,
   * with the zero-valued slices dropped.
   */
  function VenueUsage(venues: seq<Venue>, bookings: seq<Booking>): (usage: seq<Usage>)
    ensures forall k :: 0 <= k < |usage| ==> usage[k].value > 0
    ensures SubsequenceOf(usage, CategoryUsage(venues, bookings))
  {
    var all := CategoryUsage(venues, bookings);
    FilterIsSubsequence(all, HasValue);
    Filter(all, HasValue)
  }

  /**
   * A booking whose venue is found gives that venue's category a slice,
   * with the value of that category.
   */
  lemma BookedCategoryHasSlice(venues: seq<Venue>, bookings: seq<Booking>, j: nat)
    requires j < |bookings| && FindVenue(venues, bookings[j].venueId).Some?
    ensures var c := FindVenue(venues, bookings[j].venueId).value.category;
      UsageOf(venues, bookings, c) in VenueUsage(venues, bookings)
  {
    var v := FindVenue(venues, bookings[j].venueId).value;
    var c := v.category;
    var k :| FirstWithId(venues, bookings[j].venueId, k) && venues[k] == v;
    var codes := VenueCategories(venues);
    assert codes[k] == c;
    var cats := Categories(venues);
    assert c in cats;
    var i :| 0 <= i < |cats| && cats[i] == c;
    var all := CategoryUsage(venues, bookings);
    FilterMembers(bookings, InCategory(venues, c));
    assert bookings[j] in Filter(bookings, InCategory(venues, c));
    assert all[i] == UsageOf(venues, bookings, c) && HasValue(all[i]);
    FilterMembers(all, HasValue);
  }

  // ---------------------------------------------------------------------------
  // The pending table and the report
  // ---------------------------------------------------------------------------

  /** `bookings.filter(b => b.status === 'PENDING').slice(0, 5)`. */
  function PendingBookings(bookings: seq<Booking>): (r: seq<Booking>)
    ensures var pending := Filter(bookings, IsPending);
      |r| == (if |pending| < 5 then |pending| else 5) && r == pending[..|r|]
    ensures forall k :: 0 <= k < |r| ==> r[k].status == Pending
  {
    var pending := Filter(bookings, IsPending);
    if |pending| < 5 then pending else pending[..5]
  }

  /** One row of the report: ID, event title, venue, user, date, status. */
  datatype ReportRow = ReportRow(id: string, title: string, venue: string, user: string, date: string, status: string)

  /** `venues.find(...)?.name || 'Unknown'`: a missing venue and an empty name both read 'Unknown'. */
  function VenueName(venues: seq<Venue>, id: string): (name: string)
    ensures name == "Unknown" <==> (FindVenue(venues, id).None? || FindVenue(venues, id).value.name in {"", "Unknown"})
    ensures FindVenue(venues, id).Some? && FindVenue(venues, id).value.name != "" ==> name == FindVenue(venues, id).value.name
  {
    match FindVenue(venues, id)
    case None => "Unknown"
    case Some(v) => if v.name == "" then "Unknown" else v.name
  }

  /** The report rows: the first 50 bookings in list order, one row each. */
  function ReportRows(venues: seq<Venue>, bookings: seq<Booking>): (rows: seq<ReportRow>)
    ensures |rows| == if |bookings| < 50 then |bookings| else 50
    ensures forall k :: 0 <= k < |rows| ==>
      rows[k] == ReportRow(bookings[k].id, bookings[k].title, VenueName(venues, bookings[k].venueId),
        bookings[k].userName, bookings[k].date, BookingStatusCode(bookings[k].status))
  {
    var n := if |bookings| < 50 then |bookings| else 50;
    seq(n, k requires 0 <= k < n =>
      ReportRow(bookings[k].id, bookings[k].title, VenueName(venues, bookings[k].venueId),
        bookings[k].userName, bookings[k].date, BookingStatusCode(bookings[k].status)))
  }
}
