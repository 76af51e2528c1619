/**
 * The Requests page: the list of booking requests, filtered by the
 * PENDING / ALL toggle and sorted newest first, the actions offered on each
 * request and the empty-state panel.
 */
module Requests {
  import opened Seqs
  import opened Types
  import AppState

  /** The toggle: 'PENDING' (the initial value) or 'ALL'. */
  datatype Mode = PendingOnly | All

  /** The test of the filter for `mode`, as a function value. */
  function Shown(mode: Mode): Booking -> bool {
    (b: Booking) => mode == All || b.status == Pending
  }

  /** Newest first: no booking is followed by one with a larger timestamp. */
  predicate NewestFirst(r: seq<Booking>) {
    forall i, j :: 0 <= i < j < |r| ==> r[i].timestamp >= r[j].timestamp
  }

  /**
   * Where `x` goes in the newest-first list `r`: after every booking whose
   * timestamp is at least its own, before the older ones.
   */
  function InsertionPoint(r: seq<Booking>, x: Booking): (i: nat)
    requires NewestFirst(r)
    ensures i <= |r|
    ensures forall k :: 0 <= k < i ==> r[k].timestamp >= x.timestamp
    ensures forall k :: i <= k < |r| ==> r[k].timestamp < x.timestamp
    decreases |r|
  {
    if r == [] || r[|r| - 1].timestamp >= x.timestamp then |r|
    else InsertionPoint(r[..|r| - 1], x)
  }

  /** `x` placed into the newest-first list `r` at its insertion point. */
  function Insert(r: seq<Booking>, x: Booking): (result: seq<Booking>)
    requires NewestFirst(r)
    ensures NewestFirst(result)
    ensures multiset(result) == multiset(r) + multiset{x}
  {
    var i := InsertionPoint(r, x);
    var result := r[..i] + [x] + r[i..];
    assert r == r[..i] + r[i..];
    assert forall k :: 0 <= k < i ==> result[k] == r[k];
    assert forall k :: i < k < |result| ==> result[k] == r[k - 1];
    result
  }

  /**
   * `sort((a, b) => b.timestamp - a.timestamp)`, which is stable: an insertion
   * sort that takes the bookings in list order.
   */
  function SortNewestFirst(s: seq<Booking>): (r: seq<Booking>)
    ensures NewestFirst(r)
    ensures multiset(r) == multiset(s)
    decreases |s|
  {
    if s == [] then []
    else
      assert s == s[..|s| - 1] + [s[|s| - 1]];
      Insert(SortNewestFirst(s[..|s| - 1]), s[|s| - 1])
  }

  /** The test `b.timestamp === t`, as a function value. */
  function WithTimestamp(t: int): Booking -> bool {
    (b: Booking) => b.timestamp == t
  }

  /** Inserting `x` leaves the bookings of each timestamp in order, with `x` after those of its own. */
  lemma InsertIsStable(r: seq<Booking>, x: Booking, t: int)
    requires NewestFirst(r)
    ensures Filter(Insert(r, x), WithTimestamp(t)) ==
      Filter(r, WithTimestamp(t)) + (if x.timestamp == t then [x] else [])
  {
    var p, i := WithTimestamp(t), InsertionPoint(r, x);
    var before, after := r[..i], r[i..];
    assert r == before + after;
    FilterAppend(before + [x], after, p);
    FilterAppend(before, [x], p);
    FilterAppend(before, after, p);
    assert Filter([x], p) == if p(x) then [x] else [];
    if x.timestamp == t {
      FilterNone(after, p);
    }
  }

  /**
   * The sort is stable: the bookings of any one timestamp come out in the
   * order they went in.
   */
  lemma {:induction false} SortIsStable(s: seq<Booking>, t: int)
    ensures Filter(SortNewestFirst(s), WithTimestamp(t)) == Filter(s, WithTimestamp(t))
    decreases |s|
  {
    if s != [] {
      var init, last := s[..|s| - 1], s[|s| - 1];
      SortIsStable(init, t);
      InsertIsStable(SortNewestFirst(init), last, t);
      assert s == init + [last];
      FilterAppend(init, [last], WithTimestamp(t));
      assert Filter([last], WithTimestamp(t)) == if last.timestamp == t then [last] else [];
    }
  }

  /** `filteredBookings`. */
  function FilteredBookings(bookings: seq<Booking>, mode: Mode): (r: seq<Booking>)
    ensures NewestFirst(r)
    ensures multiset(r) == multiset(Filter(bookings, Shown(mode)))
  {
    SortNewestFirst(Filter(bookings, Shown(mode)))
  }

  /** In PENDING mode the list holds the PENDING bookings, each as often as in the input, and nothing else. */
  lemma PendingModeShowsPending(bookings: seq<Booking>)
    ensures var r := FilteredBookings(bookings, PendingOnly);
      && (forall k :: 0 <= k < |r| ==> r[k].status == Pending)
      && (forall k :: 0 <= k < |bookings| && bookings[k].status == Pending ==> bookings[k] in r)
      && (forall b :: multiset(r)[b] == if b.status == Pending then multiset(bookings)[b] else 0)
  {
    var r := FilteredBookings(bookings, PendingOnly);
    var kept := Filter(bookings, Shown(PendingOnly));
    FilterMembers(bookings, Shown(PendingOnly));
    FilterCounts(bookings, Shown(PendingOnly));
    forall k | 0 <= k < |r| ensures r[k].status == Pending {
      assert r[k] in multiset(kept);
      var i :| 0 <= i < |kept| && kept[i] == r[k];
    }
    forall k | 0 <= k < |bookings| && bookings[k].status == Pending ensures bookings[k] in r {
      assert bookings[k] in multiset(kept);
    }
  }

  /** In ALL mode the list is a permutation of all bookings. */
  lemma AllModeIsPermutation(bookings: seq<Booking>)
    ensures multiset(FilteredBookings(bookings, All)) == multiset(bookings)
    ensures |FilteredBookings(bookings, All)| == |bookings|
  {
    FilterAll(bookings, Shown(All));
    assert |FilteredBookings(bookings, All)| == |multiset(FilteredBookings(bookings, All))|;
  }

  /** The empty-state panel shows exactly when no booking passes the filter. */
  lemma EmptyStateIff(bookings: seq<Booking>, mode: Mode)
    ensures FilteredBookings(bookings, mode) == [] <==>
      forall k :: 0 <= k < |bookings| ==> !(mode == All || bookings[k].status == Pending)
  {
    var kept := Filter(bookings, Shown(mode));
    FilterMembers(bookings, Shown(mode));
    var r := FilteredBookings(bookings, mode);
    assert |r| == |multiset(r)| == |multiset(kept)| == |kept|;
    if kept != [] {
      assert kept[0] in multiset(kept);
    }
  }

  /** The actions of a request: Reject then Approve for a PENDING one, none for any other. */
  function Actions(b: Booking): (acts: seq<AppState.Decision>)
    ensures acts != [] <==> b.status == Pending
    ensures acts != [] ==> acts == [AppState.Reject, AppState.Approve]
  {
    if b.status == Pending then [AppState.Reject, AppState.Approve] else []
  }
}
