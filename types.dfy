/**
 * The entities of the booking front end. The string-valued enumerations of the
 * source are closed datatypes here, each with the exact string the source uses
 * for it; all other text fields are plain strings.
 */
module Types {
  import opened Wrappers

  datatype UserRole = Admin | Faculty | Coordinator

  datatype UserStatus = Active | Blocked

  datatype VenueCategory = Academic | Hall | Sports

  datatype BookingStatus = Pending | Approved | Rejected

  function RoleCode(r: UserRole): (code: string)
    ensures code == "ADMIN" || code == "FACULTY" || code == "COORDINATOR"
  {
    match r
    case Admin => "ADMIN"
    case Faculty => "FACULTY"
    case Coordinator => "COORDINATOR"
  }

  function UserStatusCode(s: UserStatus): (code: string)
    ensures code == "ACTIVE" || code == "BLOCKED"
  {
    match s
    case Active => "ACTIVE"
    case Blocked => "BLOCKED"
  }

  function CategoryCode(c: VenueCategory): (code: string)
    ensures code == "ACADEMIC" || code == "HALL" || code == "SPORTS"
  {
    match c
    case Academic => "ACADEMIC"
    case Hall => "HALL"
    case Sports => "SPORTS"
  }

  function BookingStatusCode(s: BookingStatus): (code: string)
    ensures code == "PENDING" || code == "APPROVED" || code == "REJECTED"
  {
    match s
    case Pending => "PENDING"
    case Approved => "APPROVED"
    case Rejected => "REJECTED"
  }

  /** Distinct values of each enumeration have distinct strings. */
  lemma CodesAreInjective(r1: UserRole, r2: UserRole, c1: VenueCategory, c2: VenueCategory, s1: BookingStatus, s2: BookingStatus)
    ensures RoleCode(r1) == RoleCode(r2) ==> r1 == r2
    ensures CategoryCode(c1) == CategoryCode(c2) ==> c1 == c2
    ensures BookingStatusCode(s1) == BookingStatusCode(s2) ==> s1 == s2
  {
  }

  /**
   * A user. `department` is optional; `status` is `None` when the record has no
   * status field at all, which is what a user created on the Users page gets.
   */
  datatype User = User(
    id: string,
    name: string,
    email: string,
    role: UserRole,
    department: Option<string>,
    status: Option<UserStatus>)

  /** A venue; `kind` is the source's free-text `type` field. */
  datatype Venue = Venue(
    id: string,
    name: string,
    category: VenueCategory,
    capacity: int,
    location: string,
    kind: string,
    image: string,
    equipment: seq<string>,
    isBlocked: Option<bool>)

  /** A booking. `date` is an opaque `YYYY-MM-DD` key; the times are meant to be `HH:MM`. */
  datatype Booking = Booking(
    id: string,
    venueId: string,
    userId: string,
    userName: string,
    title: string,
    description: string,
    date: string,
    startTime: string,
    endTime: string,
    isFullDay: bool,
    status: BookingStatus,
    posterUrl: Option<string>,
    equipmentRequired: seq<string>,
    attendees: int,
    timestamp: int)

  /** One cell of the availability grid. */
  datatype Slot = Slot(time: string, isAvailable: bool, booking: Option<Booking>)

  predicate IsPending(b: Booking) {
    b.status == Pending
  }

  predicate IsApproved(b: Booking) {
    b.status == Approved
  }
}
