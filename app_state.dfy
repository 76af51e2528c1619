/**
 * The client-side state of App.tsx: the `bookings`, `venues` and `users`
 * lists and the handlers that rewrite them after a server call. Each handler
 * is one sequential step: it issues its request, receives the `Reply` the
 * caller supplies, and replaces a list only when the reply is a success.
 */
module AppState {
  import opened Wrappers
  import opened Seqs
  import opened Types
  import opened Gateway

  /** The two decisions `updateBookingStatus` accepts: 'APPROVED' or 'REJECTED'. */
  datatype Decision = Approve | Reject

  /** The request `updateBookingStatus` issues for booking `id`. */
  function DecisionRequest(id: string, d: Decision): (r: Request)
    ensures r.Put? && r.body == NoBody
    ensures d == Approve ==> r.path == "/bookings/" + id + "/approve"
    ensures d == Reject ==> r.path == "/bookings/" + id + "/reject"
  {
    Put("/bookings/" + id + (if d == Approve then "/approve" else "/reject"), NoBody)
  }

  /**
   * `prev.map(b => b.id === id ? { ...b, status } : b)`: bookings with the
   * matching id get the new status and nothing else changes.
   */
  function WithStatus(bookings: seq<Booking>, id: string, status: BookingStatus): (r: seq<Booking>)
    ensures |r| == |bookings|
    ensures forall k :: 0 <= k < |r| ==> r[k].(status := bookings[k].status) == bookings[k]
    ensures forall k :: 0 <= k < |r| && bookings[k].id == id ==> r[k].status == status
    ensures forall k :: 0 <= k < |r| && bookings[k].id != id ==> r[k] == bookings[k]
  {
    seq(|bookings|, k requires 0 <= k < |bookings| =>
      if bookings[k].id == id then bookings[k].(status := status) else bookings[k])
  }

  /**
   * A decision the server answers with APPROVED or REJECTED never adds a
   * PENDING booking, and it removes one when a PENDING booking has that id.
   */
  lemma DecisionRemovesPending(bookings: seq<Booking>, id: string, status: BookingStatus)
    requires status != Pending
    ensures |Filter(WithStatus(bookings, id, status), IsPending)| <= |Filter(bookings, IsPending)|
    ensures (exists k :: 0 <= k < |bookings| && bookings[k].id == id && IsPending(bookings[k])) ==>
      |Filter(WithStatus(bookings, id, status), IsPending)| < |Filter(bookings, IsPending)|
  {
    var after := WithStatus(bookings, id, status);
    FilterLengthMonotone(bookings, after, IsPending);
  }

  /** The page the router shows for `path`, given the signed-in user's role (`None` when signed out). */
  datatype Page = LoginPage | DashboardPage | BookingsPage | VenuesPage | RequestsPage | UsersPage

  function PageFor(role: Option<UserRole>, path: string): (page: Page)
    ensures role.None? <==> page == LoginPage
    ensures page == RequestsPage <==> role == Some(Admin) && path == "/requests"
    ensures page == UsersPage <==> role == Some(Admin) && path == "/users"
  {
    if role.None? then LoginPage
    else if path == "/bookings" then BookingsPage
    else if path == "/venues" then VenuesPage
    else if path == "/requests" && role.value == Admin then RequestsPage
    else if path == "/users" && role.value == Admin then UsersPage
    else DashboardPage
  }

  /** A signed-in non-admin never reaches the Requests or Users page, whatever the path. */
  lemma AdminPagesNeedAdmin(role: UserRole, path: string)
    requires role != Admin
    ensures PageFor(Some(role), path) !in {RequestsPage, UsersPage, LoginPage}
  {
  }

  class App {
    var bookings: seq<Booking>
    var venues: seq<Venue>
    var users: seq<User>

    /** All three lists start empty and are filled by the fetches. */
    constructor ()
      ensures bookings == [] && venues == [] && users == []
    {
      bookings, venues, users := [], [], [];
    }

    /** `fetchVenues`: the list becomes the server's; a failure keeps it. */
    method FetchVenues(reply: Reply<seq<Venue>>) returns (req: Request)
      modifies this
      ensures req == Get("/venues")
      ensures reply.Ok? ==> venues == reply.data
      ensures reply.Failed? ==> venues == old(venues)
      ensures bookings == old(bookings) && users == old(users)
    {
      req := Get("/venues");
      if reply.Ok? {
        venues := reply.data;
      }
    }

    /** `fetchBookings`: the list becomes the server's records, translated; a failure keeps it. */
    method FetchBookings(reply: Reply<seq<ServerBooking>>) returns (req: Request)
      modifies this
      ensures req == Get("/bookings")
      ensures reply.Ok? ==> bookings == AllFromServer(reply.data)
      ensures reply.Failed? ==> bookings == old(bookings)
      ensures venues == old(venues) && users == old(users)
    {
      req := Get("/bookings");
      if reply.Ok? {
        bookings := AllFromServer(reply.data);
      }
    }

    /** `fetchUsers`, which runs only while an ADMIN is signed in; `req` is `None` when no call is made. */
    method FetchUsers(role: Option<UserRole>, reply: Reply<seq<User>>) returns (req: Option<Request>)
      modifies this
      ensures req.Some? <==> role == Some(Admin)
      ensures req.Some? ==> req.value == Get("/users")
      ensures role == Some(Admin) && reply.Ok? ==> users == reply.data
      ensures !(role == Some(Admin) && reply.Ok?) ==> users == old(users)
      ensures bookings == old(bookings) && venues == old(venues)
    {
      req := None;
      if role == Some(Admin) {
        req := Some(Get("/users"));
        if reply.Ok? {
          users := reply.data;
        }
      }
    }

    /**
     * `addBooking`: sends the translated request; on success appends the
     * returned record at the end, on failure keeps the list and rethrows.
     */
    method AddBooking(draft: BookingDraft, reply: Reply<ServerBooking>) returns (req: Request, rethrown: bool)
      modifies this
      ensures req == Post("/bookings", BookingBody(ToPayload(draft)))
      ensures rethrown <==> reply.Failed?
      ensures reply.Ok? ==> bookings == old(bookings) + [FromServer(reply.data)]
      ensures reply.Failed? ==> bookings == old(bookings)
      ensures venues == old(venues) && users == old(users)
    {
      req := Post("/bookings", BookingBody(ToPayload(draft)));
      rethrown := reply.Failed?;
      if reply.Ok? {
        bookings := bookings + [FromServer(reply.data)];
      }
    }

    /** `addVenue`: the returned venue goes first; a failure keeps the list. */
    method AddVenue(v: Venue, reply: Reply<Venue>) returns (req: Request)
      modifies this
      ensures req == Post("/venues", VenueBody(v))
      ensures reply.Ok? ==> venues == [reply.data] + old(venues)
      ensures reply.Failed? ==> venues == old(venues)
      ensures bookings == old(bookings) && users == old(users)
    {
      req := Post("/venues", VenueBody(v));
      if reply.Ok? {
        venues := [reply.data] + venues;
      }
    }

    /** `updateVenue`: every venue with the sent id is replaced by the returned one; a failure keeps the list. */
    method UpdateVenue(v: Venue, reply: Reply<Venue>) returns (req: Request)
      modifies this
      ensures req == Put("/venues/" + v.id, VenueBody(v))
      ensures |venues| == |old(venues)|
      ensures reply.Ok? ==> forall k :: 0 <= k < |venues| ==>
        venues[k] == (if old(venues)[k].id == v.id then reply.data else old(venues)[k])
      ensures reply.Failed? ==> venues == old(venues)
      ensures bookings == old(bookings) && users == old(users)
    {
      req := Put("/venues/" + v.id, VenueBody(v));
      if reply.Ok? {
        venues := ReplaceWhere(venues, (x: Venue) => x.id == v.id, reply.data);
      }
    }

    /** `toggleUserBlock`: every user with that id is replaced by the returned one; a failure keeps the list. */
    method ToggleUserBlock(id: string, reply: Reply<User>) returns (req: Request)
      modifies this
      ensures req == Put("/users/" + id + "/block", NoBody)
      ensures |users| == |old(users)|
      ensures reply.Ok? ==> forall k :: 0 <= k < |users| ==>
        users[k] == (if old(users)[k].id == id then reply.data else old(users)[k])
      ensures reply.Failed? ==> users == old(users)
      ensures bookings == old(bookings) && venues == old(venues)
    {
      req := Put("/users/" + id + "/block", NoBody);
      if reply.Ok? {
        users := ReplaceWhere(users, (u: User) => u.id == id, reply.data);
      }
    }

    /** `addUser`: a local append, with no server call. */
    method AddUser(u: User)
      modifies this
      ensures users == old(users) + [u]
      ensures bookings == old(bookings) && venues == old(venues)
    {
      users := users + [u];
    }

    /**
     * `updateBookingStatus`: on success every booking with that id takes the
     * status of the returned record and nothing else; a failure keeps the list.
     */
    method UpdateBookingStatus(id: string, decision: Decision, reply: Reply<ServerBooking>) returns (req: Request)
      modifies this
      ensures req == DecisionRequest(id, decision)
      ensures reply.Ok? ==> bookings == WithStatus(old(bookings), id, reply.data.status)
      ensures reply.Failed? ==> bookings == old(bookings)
      ensures venues == old(venues) && users == old(users)
    {
      req := DecisionRequest(id, decision);
      if reply.Ok? {
        bookings := WithStatus(bookings, id, reply.data.status);
      }
    }
  }
}
