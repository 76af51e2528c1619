# Campus venue booking front end, modelled in Dafny

This project models the client core of a campus venue-booking web application.
Faculty members and student coordinators request venues by the hour or for a
full day. An administrator approves or rejects the requests, maintains the
venues and manages the user accounts. The server is not part of the model.
Each gateway call is represented by the request it sends and a `Reply` supplied
by the caller, which is either a value or a failure.

It contains:

- **Types** and **Constants**: the entities, the closed enumerations with their
  string codes, the thirteen hourly `TIME_SLOTS`, the `ROLE_PERMISSIONS` table
  and the seed venues.
- **Availability**: the slot grid of the Bookings page. For each venue and the
  selected date there is one slot per slot time. A slot is taken by the first
  APPROVED booking of that venue and date that is full-day or whose half-open
  range holds the slot time. The times are compared as strings.
  - The module also holds the End Time option filter.
- **Gateway**: the field-by-field translation between client and server
  booking records.
  - Outgoing, the times are padded to `HH:MM:SS`.
  - Incoming, `bookingDate` is renamed and the nested venue and user are
    flattened.
- **AppState**: the class `App`. It holds the `bookings`, `venues` and `users`
  lists and the handlers that replace them once a call succeeds. It also covers
  the role-gated routing.
- **BookingsPage**, **VenuesPage**, **UsersPage**: the page form state as
  classes, and the pure views (filters, record construction).
- **Dashboard**, **Requests**, **Sidebar**: the derived views.
  - Dashboard: the statistics, the per-day series, the per-category usage,
    the pending table and the report rows.
  - Requests: the status filter and the stable newest-first sort.
  - Sidebar: the pending badge and the role-dependent links.
- **Strings**, **Seqs**, **Wrappers**: helpers.
  - Strings: JavaScript string order, ASCII lower-casing, `includes`, and
    decimal `toString`/`parseInt`.
  - Seqs: `filter`, the tag toggle, `map`-replace and `Array.from(new Set(..))`.
  - Wrappers: `Option`.

No page consults `ROLE_PERMISSIONS`, so the model states it only as a table
and as the relation it describes. Approval and rejection are plain `PUT`
requests without a body. Any check by category, and any conflict check on
approval, belongs to the server, which is not part of the model.

The classes follow the handlers as written. Where the code looks wrong (see
## Findings), the as-written behaviour is what the classes do. The corrected
behaviour is stated beside it as separate members with their own proofs.

## Model

| member | source | states |
|---|---|---|
| Types.RoleCode | types.ts:2-6 | a role has one of the three codes ADMIN, FACULTY, COORDINATOR |
| Types.CategoryCode | types.ts:18 | a category is one of ACADEMIC, HALL, SPORTS |
| Types.BookingStatusCode | types.ts:43 | a booking status is one of PENDING, APPROVED, REJECTED |
| Types.UserStatusCode | types.ts:14 | a user status is ACTIVE or BLOCKED |
| Types.CodesAreInjective | types.ts:2-6 | distinct enumeration values have distinct codes, so a code comparison is a value comparison |
| Constants.TimeSlotsShape | constants.ts:14-16 | thirteen zero-padded `HH:MM` slots, 08:00 to 20:00, the i-th one at 8+i o'clock |
| Constants.TimeSlotsIncreasing | constants.ts:14-16 | the slots are strictly increasing in string order |
| Constants.RolePermissions | constants.ts:18-22 | every role has a non-empty entry |
| Constants.MayRequest | constants.ts:18-22 | the table read as a relation, the sentinel 'ALL' standing for every category; its meaning is the next row |
| Constants.RolePermissionsMeaning | constants.ts:18-22 | ADMIN may request any category through the 'ALL' sentinel, FACULTY exactly ACADEMIC and SPORTS, COORDINATOR exactly HALL and SPORTS; every entry is the sentinel or a category code |
| Constants.SentinelIsNotACategory | constants.ts:19 | 'ALL' is not the code of any category |
| Constants.SeedVenuesWellFormed | constants.ts:4-12 | seven seed venues with pairwise distinct ids and positive capacities |
| Strings.StrLtIsClockOrder | pages/Bookings.tsx:55 | on zero-padded `HH:MM` values, string order is the order of minutes since midnight |
| Strings.StrLtIrreflexive | pages/Bookings.tsx:55 | no string is smaller than itself, so a slot equal to a booking's end is not covered |
| Strings.StrLtAsymmetric | pages/Bookings.tsx:55 | `a < b` and `b < a` never both hold |
| Strings.StrLtTransitive | pages/Bookings.tsx:55 | string `<` is transitive |
| Strings.StrLtTotal | pages/Bookings.tsx:55 | any two strings are equal or one is smaller, so `>=` is `>` or `==` |
| Strings.ContainsIff | pages/Venues.tsx:45 | `includes` holds iff the term occurs at some position |
| Strings.ParseDecimalOfNatToString | App.tsx:54 | `parseInt` of the decimal `toString` of an id gives the id back (also App.tsx:122) |
| Strings.NatToStringInjective | App.tsx:54 | distinct server ids give distinct client ids |
| Availability.Occupies | pages/Bookings.tsx:52-55 | the `find` test: same venue id and date, APPROVED, and full-day or start <= time < end as strings |
| Availability.FirstOccupant | pages/Bookings.tsx:51-56 | the position `find` returns is the first booking that occupies the slot; none iff no booking occupies it |
| Availability.SlotAt | pages/Bookings.tsx:50-57 | the slot carries its time; it is available iff it carries no booking iff no booking occupies it; a carried booking is the first occupant |
| Availability.RowSlots | pages/Bookings.tsx:50 | one slot per `TIME_SLOTS` entry, in that order |
| Availability.VenueSlots | pages/Bookings.tsx:48-61 | one row per venue in venue order, each with one slot per slot time; unavailable exactly when an APPROVED booking of that venue and date is full-day or covers the time; the first such booking is reported |
| Availability.FullDayBlocksEverySlot | pages/Bookings.tsx:55 | an APPROVED full-day booking blocks every slot of its venue and date, whatever its times |
| Availability.HalfOpenBoundary | pages/Bookings.tsx:55 | a booking blocks the slot equal to its start time and not the slot equal to its end time |
| Availability.InvertedRangeBlocksNothing | pages/Bookings.tsx:55 | a timed booking whose end is not after its start occupies no slot |
| Availability.OccupiesIsClockInterval | pages/Bookings.tsx:55 | with `HH:MM` values, the string test is start <= time < end in clock minutes |
| Availability.NoApprovedBookingMeansAllFree | pages/Bookings.tsx:51-57 | without an APPROVED booking of that venue and date, every slot is available |
| Availability.FirstOccupantIgnoresInactive | pages/Bookings.tsx:54 | dropping the non-APPROVED bookings does not change which booking (by value) occupies a slot |
| Availability.OnlyApprovedBookingsMatter | pages/Bookings.tsx:54 | PENDING and REJECTED bookings never affect the grid |
| Availability.EndTimeOptions | pages/Bookings.tsx:350 | the options are exactly the slot times strictly later than the start |
| Availability.EndTimeOptionsInOrder | pages/Bookings.tsx:350 | the options keep the `TIME_SLOTS` order |
| Availability.LaterOfIncreasing | pages/Bookings.tsx:350 | in a strictly increasing list, the entries later than the k-th are exactly those after it |
| Availability.EndTimeOptionsAfterSlot | pages/Bookings.tsx:350 | from the k-th slot time the options are the slot times after it |
| Availability.NoEndTimeAfterLastSlot | pages/Bookings.tsx:350 | from 20:00 there is no option |
| Seqs.Filter | pages/Dashboard.tsx:37-38 | `filter` keeps only passing elements and never lengthens the list; FilterCounts gives the exact multiplicities |
| Seqs.FilterMembers | pages/Requests.tsx:15-16 | an element is in the filtered list iff it is in the list and passes |
| Seqs.FilterCounts | pages/Requests.tsx:15-16 | every passing element occurs in the result exactly as often as in the input; a failing one does not occur |
| Seqs.FilterLengthCountsPositions | components/Sidebar.tsx:22 | the filtered length is the number of positions whose element passes |
| Seqs.FilterOtherCounts | pages/Bookings.tsx:375 | filtering out one value removes all its occurrences and keeps every other value's count (also pages/Venues.tsx:123) |
| Seqs.FilterIsSubsequence | pages/Venues.tsx:44 | `filter` keeps the order: an order-preserving subsequence |
| Seqs.Toggle | pages/Bookings.tsx:374-376 | an absent tag is appended at the end; a present one loses every occurrence, the others stay in order and keep their counts (also pages/Venues.tsx:122-124) |
| Seqs.ToggleTwiceRestores | pages/Bookings.tsx:374-376 | toggling an absent tag twice restores the list |
| Seqs.ReplaceWhere | App.tsx:165 | `map` replaces every matching entry and keeps the others and the length (also App.tsx:175) |
| Seqs.Distinct | pages/Dashboard.tsx:67 | `Array.from(new Set(s))`: each element once, in order of first appearance |
| Gateway.PadSeconds | App.tsx:124-125 | ':00' is appended iff the time has five characters |
| Gateway.PadSecondsOfClockTime | App.tsx:124 | a padded `HH:MM` is the `HH:MM:SS` of the same minute |
| Gateway.ParseRef | App.tsx:122 | a reference is formed iff the id is a non-empty digit string |
| Gateway.ToPayload | App.tsx:121-131 | `date` goes to `bookingDate`, `isFullDay` to `fullDay`, the times are padded, title, description, attendees and equipment are copied |
| Gateway.FromServer | App.tsx:51-58 | `date` comes from `bookingDate`, `venueId` and `userId` from the nested ids as decimal strings, `userName` from `user.name`; every other field, the times included, is kept as received (also App.tsx:136-142) |
| Gateway.TrimSeconds | App.tsx:124-125 | corrected, not in the source: an eight-character time loses its seconds, any other is kept; the inverse of the padding |
| Gateway.TrimUndoesPad | App.tsx:124-125 | corrected: trimming undoes the padding of a five-character time |
| Gateway.FromServerTrimmed | App.tsx:51-58 | corrected, not used by the classes: as `FromServer`, with an `HH:MM:SS` time brought back to its `HH:MM` (also App.tsx:136-142) |
| Gateway.AllFromServer | App.tsx:51-58 | one record per server record, in order, each translated as written by `FromServer` |
| Gateway.Stored | App.tsx:133 | a stand-in for a server that stores the payload as sent: venue, date, times and flag are those of the payload, plus the id, user, status and time it chooses |
| Gateway.DraftRoundTrip | App.tsx:121-142 | as written: a draft stored as sent comes back with its venue, date, flag, text, equipment and attendees, and with its times padded as they were sent; an `HH:MM` start comes back with ':00' |
| Gateway.TrimmedDraftRoundTrip | App.tsx:136-142 | corrected: with trimming, a stored `HH:MM` draft comes back with exactly its own times and otherwise as `FromServer` gives it |
| Gateway.PaddedTimesShiftTheGrid | App.tsx:124-125 | as written: an approved 09:00-11:00 booking echoed with seconds leaves the 09:00 slot free and blocks 10:00 and 11:00 (also App.tsx:51-58, pages/Bookings.tsx:55) |
| Gateway.TrimmedTimesKeepTheGrid | pages/Bookings.tsx:55 | corrected: a stored `HH:MM` request blocks exactly the slots in its clock interval, or all of them when full-day (also App.tsx:136-142) |
| AppState.DecisionRequest | App.tsx:189-193 | approval sends `PUT /bookings/{id}/approve`, rejection `PUT /bookings/{id}/reject`, both without a body |
| AppState.WithStatus | App.tsx:196-201 | same length; matching bookings take the new status and change nothing else; others are unchanged |
| AppState.DecisionRemovesPending | App.tsx:196-201 | a non-PENDING reply never increases the pending count and decreases it when a PENDING booking has that id (also components/Sidebar.tsx:22) |
| AppState.PageFor | App.tsx:211-232 | signed out always gives the login page; the Requests and Users pages are reached iff an ADMIN asks for their path |
| AppState.AdminPagesNeedAdmin | App.tsx:230-231 | a signed-in non-admin never reaches the Requests, Users or login page |
| AppState.App.constructor | App.tsx:23 | all three lists start empty (also App.tsx:40, App.tsx:65) |
| AppState.App.FetchVenues | App.tsx:29-38 | `GET /venues`; the list becomes the reply, or is kept on failure |
| AppState.App.FetchBookings | App.tsx:46-63 | `GET /bookings`; the list becomes the reply translated by `FromServer`, times as received, or is kept on failure |
| AppState.App.FetchUsers | App.tsx:67-80 | the call is made iff an ADMIN is signed in; the list becomes the reply, or is kept |
| AppState.App.AddBooking | App.tsx:118-150 | `POST /bookings` whose body is the translated draft; success appends the reply translated by `FromServer` at the end, failure keeps the list and rethrows |
| AppState.App.AddVenue | App.tsx:152-160 | `POST /venues` whose body is the venue; success puts the returned venue first; failure keeps the list |
| AppState.App.UpdateVenue | App.tsx:162-170 | `PUT /venues/{id}` whose body is the venue; success replaces every venue with that id and keeps the length; failure keeps the list |
| AppState.App.ToggleUserBlock | App.tsx:172-180 | `PUT /users/{id}/block` without a body; success replaces every user with that id; failure keeps the list |
| AppState.App.AddUser | App.tsx:182-184 | a local append |
| AppState.App.UpdateBookingStatus | App.tsx:186-206 | success gives matching bookings the returned status; failure keeps the list |
| BookingsPage.InitialEndIsOffered | pages/Bookings.tsx:37-46 | the initial end time is one of the options of the initial start time (also pages/Bookings.tsx:350) |
| BookingsPage.Draft | pages/Bookings.tsx:77-87 | the request carries the selected venue's id, the selected date and the form fields unchanged |
| BookingsPage.SubmittedPayload | pages/Bookings.tsx:77-87 | for a numeric venue id, the server gets that venue, the date, the flag and the padded times (also App.tsx:121-131) |
| BookingsPage.StartChosenAsWritten | pages/Bookings.tsx:184 | as written: a new start time leaves every other field, the end time included, as it was (also pages/Bookings.tsx:338) |
| BookingsPage.StaleEndTimeAfterSlotClick | pages/Bookings.tsx:182-185 | as written: clicking the 12:00 slot on a fresh form keeps end 10:00, which is not offered and is earlier than the start (also pages/Bookings.tsx:347-350) |
| BookingsPage.StartChosen | pages/Bookings.tsx:184 | corrected: the end time is kept while offered, otherwise moved to the first option; it is offered and later whenever any option exists (also pages/Bookings.tsx:338) |
| BookingsPage.StartChosenOffersEnd | pages/Bookings.tsx:350 | corrected: any slot but the last yields an end time among the later slots |
| BookingsPage.BookingForm.constructor | pages/Bookings.tsx:29-46 | the page opens on the given date with the initial form and no dialog |
| BookingsPage.BookingForm.SelectDate | pages/Bookings.tsx:143 | only the selected date changes; the date arithmetic of the arrows is the caller's (also pages/Bookings.tsx:134, pages/Bookings.tsx:150) |
| BookingsPage.BookingForm.PickSlot | pages/Bookings.tsx:180-186 | as written: a free slot selects its venue, replaces only the start time and opens the form |
| BookingsPage.BookingForm.ChooseStart | pages/Bookings.tsx:338-340 | as written: a slot time replaces only the start time; the end time stays |
| BookingsPage.BookingForm.ChooseEnd | pages/Bookings.tsx:348-350 | an offered end time, which is later than the start |
| BookingsPage.BookingForm.SetFullDay | pages/Bookings.tsx:359 | only the full-day flag changes |
| BookingsPage.BookingForm.SetDetails | pages/Bookings.tsx:307 | only the title, description and attendees change (also pages/Bookings.tsx:316, pages/Bookings.tsx:328) |
| BookingsPage.BookingForm.DismissSuccess | pages/Bookings.tsx:224 | the confirmation closes |
| BookingsPage.BookingForm.ToggleEquipment | pages/Bookings.tsx:373-377 | one of the seven offered tags; only the equipment changes, by the toggle (also pages/Bookings.tsx:369) |
| BookingsPage.BookingForm.ResetForm | pages/Bookings.tsx:101-113 | the initial form again |
| BookingsPage.BookingForm.Cancel | pages/Bookings.tsx:248 | the dialog closes and the form is reset |
| BookingsPage.BookingForm.Submit | pages/Bookings.tsx:72-99 | without a venue nothing happens; otherwise the draft is sent; a success appends the reply as `FromServer` gives it, closes the dialog, shows the confirmation to non-admins and resets; a failure keeps the page |
| Dashboard.ApprovedRate | pages/Dashboard.tsx:39 | the integer nearest to 100·approved/max(total,1), halves up |
| Dashboard.ApprovedRateBounds | pages/Dashboard.tsx:39 | 0 for an empty list, at most 100, and 100 when every booking is approved |
| Dashboard.ComputeStats | pages/Dashboard.tsx:32-41 | the venue and booking totals, today's and pending counts, and a rate within 0..100 |
| Dashboard.SumAttendees | pages/Dashboard.tsx:60 | non-negative attendees give a non-negative sum |
| Dashboard.SumAttendeesAppend | pages/Dashboard.tsx:60 | the sum splits over concatenation |
| Dashboard.PointFor | pages/Dashboard.tsx:55-61 | a day's point has its name, the count of its bookings and their attendance |
| Dashboard.ChartData | pages/Dashboard.tsx:55-62 | one point per day, in the order given |
| Dashboard.ChartDataAppend | pages/Dashboard.tsx:55-62 | one more booking adds one and its attendees to its own day and leaves the other days alone |
| Dashboard.FindVenue | pages/Dashboard.tsx:70 | `find` gives the first venue with the id; none iff no venue has it (also pages/Dashboard.tsx:105) |
| Dashboard.CategoryLabel | pages/Dashboard.tsx:69 | the labels Academic, Hall and Sports |
| Dashboard.Categories | pages/Dashboard.tsx:67 | the venues' categories, each once, in order of first appearance |
| Dashboard.UsageOf | pages/Dashboard.tsx:68-70 | a slice is named by its label and valued by the bookings whose venue has that category |
| Dashboard.CategoryUsage | pages/Dashboard.tsx:67-70 | one slice per distinct category |
| Dashboard.VenueUsage | pages/Dashboard.tsx:65-72 | only positive slices, in category order |
| Dashboard.BookedCategoryHasSlice | pages/Dashboard.tsx:65-72 | a booking whose venue is found gives that category its slice |
| Dashboard.PendingBookings | pages/Dashboard.tsx:75 | the first at most five PENDING bookings in list order |
| Dashboard.VenueName | pages/Dashboard.tsx:105 | the venue's name, or 'Unknown' when the venue is missing or its name is empty |
| Dashboard.ReportRows | pages/Dashboard.tsx:102-109 | the first at most fifty bookings, one row each, with ID, title, venue name, user, date and status |
| Requests.InsertionPoint | pages/Requests.tsx:17 | the place a booking takes in a newest-first list |
| Requests.Insert | pages/Requests.tsx:17 | insertion keeps the list newest first and adds exactly that booking |
| Requests.SortNewestFirst | pages/Requests.tsx:17 | the result is a permutation ordered by non-increasing timestamp |
| Requests.InsertIsStable | pages/Requests.tsx:17 | insertion keeps the order of equal timestamps and puts the new booking after them |
| Requests.SortIsStable | pages/Requests.tsx:17 | the bookings of any timestamp come out in input order |
| Requests.FilteredBookings | pages/Requests.tsx:15-17 | newest first, and a permutation of the bookings the mode admits |
| Requests.PendingModeShowsPending | pages/Requests.tsx:15-16 | PENDING mode lists only PENDING bookings, each exactly as often as it occurs in the input |
| Requests.AllModeIsPermutation | pages/Requests.tsx:16 | ALL mode lists a permutation of all bookings |
| Requests.EmptyStateIff | pages/Requests.tsx:51 | the empty panel appears iff no booking passes the filter |
| Requests.Actions | pages/Requests.tsx:98-114 | Reject and Approve are offered iff the booking is PENDING |
| VenuesPage.FilteredVenues | pages/Venues.tsx:44-48 | an order-preserving subsequence; a venue is kept iff its lower-cased name holds the lower-cased term and the tab admits its category |
| VenuesPage.EmptySearchShowsAll | pages/Venues.tsx:45-46 | the empty term on the ALL tab keeps every venue |
| VenuesPage.CategoryTabShowsCategory | pages/Venues.tsx:46 | a category tab keeps exactly the venues of that category |
| VenuesPage.FormOf | pages/Venues.tsx:80-87 | the edit form holds the venue's fields |
| VenuesPage.ImageOrDefault | pages/Venues.tsx:101 | the uploaded image, or the default when there is none or it is empty (also pages/Venues.tsx:109) |
| VenuesPage.BuildVenue | pages/Venues.tsx:98-111 | the given id, the form's fields, the image or default, and never blocked |
| VenuesPage.EditRoundTrip | pages/Venues.tsx:79-104 | editing and submitting unchanged sends the same venue, unblocked |
| VenuesPage.VenueForm.constructor | pages/Venues.tsx:28-42 | ALL tab, empty search, closed empty form |
| VenuesPage.VenueForm.Listed | pages/Venues.tsx:44-48 | the listed venues are the filter under the current term and tab |
| VenuesPage.VenueForm.SetSearch | pages/Venues.tsx:156 | only the term changes |
| VenuesPage.VenueForm.SetTab | pages/Venues.tsx:163 | only the tab changes |
| VenuesPage.VenueForm.ResetForm | pages/Venues.tsx:65-77 | empty form with ACADEMIC and capacity 60, no image, out of edit mode |
| VenuesPage.VenueForm.OpenAddForm | pages/Venues.tsx:135-137 | an ADMIN gets the reset form, opened |
| VenuesPage.VenueForm.EditClick | pages/Venues.tsx:79-92 | the venue's fields and image, the id, edit mode, opened |
| VenuesPage.VenueForm.ToggleEquipment | pages/Venues.tsx:119-126 | one of the eight offered tags; only the equipment changes, by the toggle (also pages/Venues.tsx:328) |
| VenuesPage.VenueForm.Close | pages/Venues.tsx:264 | the dialog closes and the form is reset |
| VenuesPage.VenueForm.ClearImage | pages/Venues.tsx:277 | only the image is dropped |
| VenuesPage.VenueForm.Submit | pages/Venues.tsx:94-117 | edit mode with an id updates that id; otherwise an addition with id ''; either way unblocked, then closed and reset |
| UsersPage.FilteredUsers | pages/Users.tsx:22-25 | an order-preserving subsequence; a user is kept iff the lower-cased name or email holds the lower-cased term |
| UsersPage.EmptySearchShowsAll | pages/Users.tsx:22-25 | the empty term keeps every user |
| UsersPage.NameOccurrenceIsListed | pages/Users.tsx:23 | a user whose name holds the term is listed |
| UsersPage.CanToggleBlock | pages/Users.tsx:109 | the block button is enabled exactly for non-ADMIN users |
| UsersPage.StatusLabel | pages/Users.tsx:105-112 | 'Blocked' iff the status is BLOCKED, 'Active' otherwise |
| UsersPage.RoleChoicesExcludeAdmin | pages/Users.tsx:15-20 | the form offers FACULTY and COORDINATOR only and starts on FACULTY (also pages/Users.tsx:159-160) |
| UsersPage.NewUser | pages/Users.tsx:29-32 | id "u-" and the clock reading, the form's name, email, role and department, no status |
| UsersPage.NewUserIdsDiffer | pages/Users.tsx:30 | users created at different clock readings get different ids |
| UsersPage.NewUserIsActive | pages/Users.tsx:29-32 | a created user reads 'Active' and can be blocked when its role came from the form's choices (also pages/Users.tsx:109-112) |
| UsersPage.UserForm.constructor | pages/Users.tsx:13-20 | empty search, closed dialog, the default form |
| UsersPage.UserForm.SetSearch | pages/Users.tsx:63 | only the term changes |
| UsersPage.UserForm.Open | pages/Users.tsx:45-47 | the dialog opens |
| UsersPage.UserForm.Close | pages/Users.tsx:126 | the dialog closes; the term and the typed form stay |
| UsersPage.UserForm.ChooseRole | pages/Users.tsx:156-160 | only the role changes, and never to ADMIN |
| UsersPage.UserForm.Submit | pages/Users.tsx:27-36 | the new user is appended, the dialog closes and the form is reset |
| Sidebar.PendingCount | components/Sidebar.tsx:22 | the number of positions holding a PENDING booking, at most the list length, zero iff none is PENDING |
| Sidebar.PendingPositions | components/Sidebar.tsx:22 | the filtered length equals the number of PENDING positions |
| Sidebar.Links | components/Sidebar.tsx:25-34 | Dashboard, My Bookings, Venues; an ADMIN also gets Requests with the pending badge, then Manage Users |
| Sidebar.BadgeMeansPending | components/Sidebar.tsx:32 | a badge is shown only on an ADMIN's Requests link, and exactly while some booking is PENDING (also components/Sidebar.tsx:60) |

## Left out

- Rendering: JSX, CSS, icons, charts, the PDF document and the login page are not modelled. The report rows are built, but not their layout.
- The server: persistence, what it answers and its conflict check on approval. Each call is a parameter `Reply` (a value or a failure).
- Concurrency: a handler's `await` and the unawaited calls of the Venues page are single steps, so interleavings are not modelled.
- The AI slot suggestions (geminiService.ts) are not modelled: they are an external service call.
- Clock and dates: `Date.now()`, today's date, the seven-day window and the date navigation are not modelled. Dates are given as opaque strings, and the clock reading as a number.
- localStorage, dark mode and the Header component are not modelled.
- File upload and `FileReader` are not modelled. The image is an optional string; the poster file is left out.
- Dashboard.ApprovedRate: computes the rate in exact rationals. The source uses floating point, which can differ at a half. For example, 29 of 200 approved gives 14.499999999999998 in IEEE arithmetic, which rounds to 14; the model gives 15.
- Strings.Lower: lower-cases ASCII letters only. JavaScript `toLowerCase` uses Unicode case mapping.
- Gateway.ParseRef: handles only ids that consist entirely of digits. For `"12a"` or `" 12"`, JavaScript `parseInt` returns 12; the model gives no reference.
- BookingsPage.BookingForm.SetDetails: takes the attendees as a number. A NaN from `parseInt` on an empty input, and the `|| 0` in the attendance sum that absorbs it, are not modelled.
- VenuesPage.FormOf: copies `equipment` as given. The `|| []` for a venue without equipment has no counterpart, because the declared type always has the field.
- Ids are modelled with their declared string types. A server that sends numeric `id`s in venue or user records would break the `===` comparisons at pages/Bookings.tsx:52 and pages/Dashboard.tsx:70 and 105, since those compare against `venueId` strings; that case is not modelled.
- Gateway.FromServer: stores the nested ids as `NatToString(id)`. The spread at App.tsx:52 keeps the record's own numeric `id`, which the model writes as its decimal string; every later comparison goes through `toString`, so the two agree there.
- Gateway.FromServer: assumes the server returns every other booking field under the client's names, `isFullDay` included. The payload calls it `fullDay`, and the model does not follow what a server might rename.
- `ROLE_PERMISSIONS` is stated only as a table. No page consults it, so the model does not claim any check by category.
- Routing is modelled only as `AppState.PageFor` (which page a role and path show), not as navigation history.

## Findings

| source | as written | input that shows it | evidently intended | confidence | as-written member | corrected member |
|---|---|---|---|---|---|---|
| App.tsx:124-125, App.tsx:51-58, App.tsx:136-142, pages/Bookings.tsx:55 | times are sent as `HH:MM:SS` and read back without trimming; the grid compares them as strings with `HH:MM` slot times | an approved request 09:00-11:00 that the server echoes as 09:00:00-11:00:00: the 09:00 slot shows free and 10:00 and 11:00 show taken | a booking blocks exactly the slots of its own hours | low, not executed; depends on the server echoing the padded form | Gateway.PaddedTimesShiftTheGrid | Gateway.TrimmedTimesKeepTheGrid |
| pages/Bookings.tsx:182-185, pages/Bookings.tsx:338, pages/Bookings.tsx:347-350 | choosing a start time by slot click or by the Start list leaves `endTime` unchanged, even when the End list no longer offers it | on a fresh form, click the 12:00 slot: the end time stays 10:00, earlier than the start, and is sent unless the user changes it; approved, such a booking blocks no slot (Availability.InvertedRangeBlocksNothing) | the end time is one of the offered options, later than the start | medium, not executed | BookingsPage.StaleEndTimeAfterSlotClick | BookingsPage.StartChosenOffersEnd |

In both rows the classes keep the code as written. `App.FetchBookings`,
`App.AddBooking` and `BookingForm.Submit` translate with `FromServer`, and
`BookingForm.PickSlot` and `BookingForm.ChooseStart` apply
`StartChosenAsWritten`. The corrected members `FromServerTrimmed`,
`TrimmedDraftRoundTrip`, `StartChosen` and `StartChosenOffersEnd` state the
intended behaviour beside them.
