/** The fixed tables of the front end: the slot times, the role permission table and the seed venues. */
module Constants {
  import opened Wrappers
  import opened Strings
  import opened Types

  /** The hourly slot times shown as grid columns and offered as start and end times. */
  const TIME_SLOTS: seq<string> := [
    "08:00", "09:00", "10:00", "11:00", "12:00", "13:00", "14:00",
    "15:00", "16:00", "17:00", "18:00", "19:00", "20:00"
  ]

  /** Thirteen hourly slots from 08:00 to 20:00, all zero-padded `HH:MM`. */
  lemma TimeSlotsShape()
    ensures |TIME_SLOTS| == 13
    ensures TIME_SLOTS[0] == "08:00" && TIME_SLOTS[|TIME_SLOTS| - 1] == "20:00"
    ensures forall i :: 0 <= i < |TIME_SLOTS| ==> IsHhmm(TIME_SLOTS[i]) && Minutes(TIME_SLOTS[i]) == (8 + i) * 60
  {
  }

  /** The slot times are strictly increasing in string order, so string order agrees with clock order on them. */
  lemma TimeSlotsIncreasing()
    ensures forall i, j :: 0 <= i < j < |TIME_SLOTS| ==> StrLt(TIME_SLOTS[i], TIME_SLOTS[j])
  {
    TimeSlotsShape();
    forall i, j | 0 <= i < j < |TIME_SLOTS| ensures StrLt(TIME_SLOTS[i], TIME_SLOTS[j]) {
      StrLtIsClockOrder(TIME_SLOTS[i], TIME_SLOTS[j]);
    }
  }

  /** The sentinel that `ROLE_PERMISSIONS` uses for "every category". */
  const ALL_CATEGORIES: string := "ALL"

  /** `ROLE_PERMISSIONS`: the category codes each role may request; every role has an entry. */
  function RolePermissions(role: UserRole): (codes: seq<string>)
    ensures codes != []
  {
    match role
    case Admin => [ALL_CATEGORIES]
    case Faculty => ["ACADEMIC", "SPORTS"]
    case Coordinator => ["HALL", "SPORTS"]
  }

  /** Whether the table lets `role` request a venue of category `c`, reading the sentinel as every category. */
  predicate MayRequest(role: UserRole, c: VenueCategory) {
    ALL_CATEGORIES in RolePermissions(role) || CategoryCode(c) in RolePermissions(role)
  }

  /** The table read as a relation: ADMIN any category, FACULTY ACADEMIC and SPORTS, COORDINATOR HALL and SPORTS. */
  lemma RolePermissionsMeaning(role: UserRole, c: VenueCategory)
    ensures MayRequest(role, c) <==> match role
      case Admin => true
      case Faculty => c == Academic || c == Sports
      case Coordinator => c == Hall || c == Sports
    ensures forall code :: code in RolePermissions(role) ==> code == ALL_CATEGORIES || exists c' :: CategoryCode(c') == code
  {
    assert CategoryCode(Academic) == "ACADEMIC" && CategoryCode(Hall) == "HALL" && CategoryCode(Sports) == "SPORTS";
  }

  /** The sentinel is not the code of any category. */
  lemma SentinelIsNotACategory(c: VenueCategory)
    ensures CategoryCode(c) != ALL_CATEGORIES
  {
  }

  /** The default image a venue gets when none was uploaded. */
  const DEFAULT_VENUE_IMAGE: string := "https://images.unsplash.com/photo-1497366216548-37526070297c?auto=format&fit=crop&q=80&w=800"

  /** `VENUES`: the seed table (no longer loaded by the app, which fetches venues from the server). */
  const VENUES: seq<Venue> := [
    Venue("v1", "Main Auditorium", Hall, 1000, "Block A", "Auditorium",
      "https://images.unsplash.com/photo-1501281668745-f7f57925c3b4?auto=format&fit=crop&q=80&w=800",
      ["Projector", "PA System", "Stage Lighting"], None),
    Venue("v2", "Smart Classroom 201", Academic, 60, "Academic Block", "Smart Classroom",
      "https://images.unsplash.com/photo-1523050854058-8df90110c9f1?auto=format&fit=crop&q=80&w=800",
      ["Projector", "Smart Board"], None),
    Venue("v3", "Computer Lab 1", Academic, 40, "Science Wing", "Laboratory",
      "https://images.unsplash.com/photo-1517245386807-bb43f82c33c4?auto=format&fit=crop&q=80&w=800",
      ["PCs", "LAN", "AC"], None),
    Venue("v4", "Football Ground", Sports, 5000, "East Campus", "Ground",
      "https://images.unsplash.com/photo-1529900748604-07564a03e7a6?auto=format&fit=crop&q=80&w=800",
      ["Goal Posts", "Floodlights"], None),
    Venue("v5", "Basketball Court", Sports, 100, "Sports Complex", "Court",
      "https://images.unsplash.com/photo-1546519638-68e109498ffc?auto=format&fit=crop&q=80&w=800",
      ["Hoops", "Scoreboard"], None),
    Venue("v6", "Seminar Hall B", Academic, 150, "Block B", "Seminar Hall",
      "https://images.unsplash.com/photo-1431540015161-0bf868a2d407?auto=format&fit=crop&q=80&w=800",
      ["Mic", "Speakers", "Podium"], None),
    Venue("v7", "Gallery Hall", Hall, 250, "Arts Wing", "Gallery Hall",
      "https://images.unsplash.com/photo-1554907984-15263bfd63bd?auto=format&fit=crop&q=80&w=800",
      ["Spotlights", "Gallery Hanging System"], None)
  ]

  /** The seed venues have pairwise distinct ids and positive capacities. */
  lemma SeedVenuesWellFormed()
    ensures |VENUES| == 7
    ensures forall i, j :: 0 <= i < j < |VENUES| ==> VENUES[i].id != VENUES[j].id
    ensures forall i :: 0 <= i < |VENUES| ==> VENUES[i].capacity > 0
  {
  }
}
