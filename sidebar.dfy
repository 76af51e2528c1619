/** The sidebar: the pending-request count and the navigation links each role sees. */
module Sidebar {
  import opened Wrappers
  import opened Seqs
  import opened Types

  /** `bookings.filter(b => b.status === 'PENDING').length`. */
  function PendingCount(bookings: seq<Booking>): (n: nat)
    ensures n <= |bookings|
    ensures n == 0 <==> forall k :: 0 <= k < |bookings| ==> bookings[k].status != Pending
    ensures n == |set k | 0 <= k < |bookings| && bookings[k].status == Pending|
  {
    FilterMembers(bookings, IsPending);
    PendingPositions(bookings);
    var pending := Filter(bookings, IsPending);
    if pending == [] then 0
    else
      assert pending[0] in bookings;
      |pending|
  }

  /** The pending bookings kept by the filter are as many as the positions holding one. */
  lemma PendingPositions(bookings: seq<Booking>)
    ensures |Filter(bookings, IsPending)| == |set k | 0 <= k < |bookings| && bookings[k].status == Pending|
  {
    FilterLengthCountsPositions(bookings, IsPending);
    assert Positions(bookings, IsPending) == set k | 0 <= k < |bookings| && bookings[k].status == Pending;
  }

  /** One navigation link; only the Requests link has a badge. */
  datatype NavLink = NavLink(to: string, name: string, badge: Option<nat>)

  /** The links every role sees. */
  const COMMON_LINKS: seq<NavLink> := [
    NavLink("/dashboard", "Dashboard", None),
    NavLink("/bookings", "My Bookings", None),
    NavLink("/venues", "Venues", None)
  ]

  /** `links`: the three common links, and for an ADMIN two more pushed after them. */
  method Links(role: UserRole, bookings: seq<Booking>) returns (links: seq<NavLink>)
    ensures role != Admin ==> links == COMMON_LINKS
    ensures role == Admin ==> links == COMMON_LINKS + [
      NavLink("/requests", "Requests", Some(PendingCount(bookings))),
      NavLink("/users", "Manage Users", None)]
  {
    links := COMMON_LINKS;
    if role == Admin {
      links := links + [NavLink("/requests", "Requests", Some(PendingCount(bookings)))];
      links := links + [NavLink("/users", "Manage Users", None)];
    }
  }

  /** `link.badge !== undefined && link.badge > 0`. */
  predicate BadgeShown(link: NavLink) {
    link.badge.Some? && link.badge.value > 0
  }

  /**
   * Of the links the sidebar lists, the one that shows a badge is the Requests
   * link of an ADMIN, and only while some booking is PENDING.
   */
  lemma BadgeMeansPending(role: UserRole, bookings: seq<Booking>, links: seq<NavLink>, k: nat)
    requires role != Admin ==> links == COMMON_LINKS
    requires role == Admin ==> links == COMMON_LINKS + [
      NavLink("/requests", "Requests", Some(PendingCount(bookings))),
      NavLink("/users", "Manage Users", None)]
    requires k < |links|
    ensures BadgeShown(links[k]) <==>
      role == Admin && links[k].to == "/requests" && exists j :: 0 <= j < |bookings| && bookings[j].status == Pending
  {
  }
}
