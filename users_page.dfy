/**
 * The Users page: the name-or-email search, the block toggle and its status
 * label, and the Create Account form that adds a user to the local list.
 */
module UsersPage {
  import opened Wrappers
  import opened Strings
  import opened Seqs
  import opened Types
  import AppState

  /** `name.toLowerCase().includes(t) || email.toLowerCase().includes(t)` with `t` the lower-cased term. */
  predicate UserMatches(u: User, term: string) {
    Contains(Lower(u.name), Lower(term)) || Contains(Lower(u.email), Lower(term))
  }

  /** The test of the user filter, as a function value. */
  function UserShown(term: string): User -> bool {
    (u: User) => UserMatches(u, term)
  }

  /** `filteredUsers`: the users, in their order, whose name or email holds the term, letter case aside. */
  function FilteredUsers(users: seq<User>, term: string): (r: seq<User>)
    ensures SubsequenceOf(r, users)
    ensures forall k :: 0 <= k < |r| ==> UserMatches(r[k], term)
    ensures forall k :: 0 <= k < |users| ==> (users[k] in r <==> UserMatches(users[k], term))
  {
    FilterIsSubsequence(users, UserShown(term));
    FilterMembers(users, UserShown(term));
    Filter(users, UserShown(term))
  }

  /** The empty term lists every user. */
  lemma EmptySearchShowsAll(users: seq<User>)
    ensures FilteredUsers(users, "") == users
  {
    assert Lower("") == [];
    FilterAll(users, UserShown(""));
  }

  /** A user is listed when the term occurs, letter case aside, at some position of the name. */
  lemma NameOccurrenceIsListed(users: seq<User>, term: string, k: nat, i: nat)
    requires k < |users| && OccursAt(Lower(users[k].name), Lower(term), i)
    ensures users[k] in FilteredUsers(users, term)
  {
    ContainsIff(Lower(users[k].name), Lower(term));
  }

  /** The block toggle is disabled for ADMIN users. */
  predicate CanToggleBlock(u: User) {
    u.role != Admin
  }

  /** The label of the toggle: 'Blocked' for a BLOCKED user, 'Active' otherwise, a missing status included. */
  function StatusLabel(u: User): (text: string)
    ensures text == "Blocked" <==> u.status == Some(Blocked)
    ensures text != "Blocked" ==> text == "Active"
  {
    if u.status == Some(Blocked) then "Blocked" else "Active"
  }

  /** The roles the form offers. */
  const ROLE_CHOICES: seq<UserRole> := [Faculty, Coordinator]

  /** The form fields (`newUserData`). */
  datatype NewUserData = NewUserData(name: string, email: string, role: UserRole, department: string)

  /** The form as it starts and as a submit leaves it. */
  const EMPTY_USER_FORM: NewUserData := NewUserData("", "", Faculty, "")

  /** The form never offers ADMIN, and starts on one of its choices. */
  lemma RoleChoicesExcludeAdmin()
    ensures Admin !in ROLE_CHOICES && EMPTY_USER_FORM.role in ROLE_CHOICES
  {
  }

  /**
   * The user `handleSubmit` builds: id `u-` and the clock reading, the form's
   * fields, and no status field at all.
   */
  function NewUser(f: NewUserData, now: nat): (u: User)
    ensures u.id == "u-" + NatToString(now) && u.id[..2] == "u-"
    ensures u.name == f.name && u.email == f.email && u.role == f.role
    ensures u.department == Some(f.department) && u.status == None
  {
    User("u-" + NatToString(now), f.name, f.email, f.role, Some(f.department), None)
  }

  /** Users created at different times get different ids. */
  lemma NewUserIdsDiffer(f: NewUserData, g: NewUserData, now1: nat, now2: nat)
    requires now1 != now2
    ensures NewUser(f, now1).id != NewUser(g, now2).id
  {
    NatToStringInjective(now1, now2);
    assert NewUser(f, now1).id[2..] == NatToString(now1);
    assert NewUser(g, now2).id[2..] == NatToString(now2);
  }

  /** A created user reads 'Active' and can be blocked unless the form was given ADMIN. */
  lemma NewUserIsActive(f: NewUserData, now: nat)
    ensures StatusLabel(NewUser(f, now)) == "Active"
    ensures f.role in ROLE_CHOICES ==> CanToggleBlock(NewUser(f, now))
  {
  }

  class UserForm {
    var searchTerm: string
    var isModalOpen: bool
    var newUserData: NewUserData

    constructor ()
      ensures searchTerm == "" && !isModalOpen && newUserData == EMPTY_USER_FORM
    {
      searchTerm, isModalOpen, newUserData := "", false, EMPTY_USER_FORM;
    }

    method SetSearch(term: string)
      modifies this
      ensures searchTerm == term && isModalOpen == old(isModalOpen) && newUserData == old(newUserData)
    {
      searchTerm := term;
    }

    /** The Create Account button. */
    method Open()
      modifies this
      ensures isModalOpen && searchTerm == old(searchTerm) && newUserData == old(newUserData)
    {
      isModalOpen := true;
    }

    /** The dialog's close button: it closes and keeps what was typed. */
    method Close()
      modifies this
      ensures !isModalOpen && searchTerm == old(searchTerm) && newUserData == old(newUserData)
    {
      isModalOpen := false;
    }

    /** The role list, whose options are `ROLE_CHOICES`. */
    method ChooseRole(role: UserRole)
      requires role in ROLE_CHOICES
      modifies this
      ensures newUserData == old(newUserData).(role := role) && newUserData.role != Admin
      ensures searchTerm == old(searchTerm) && isModalOpen == old(isModalOpen)
    {
      newUserData := newUserData.(role := role);
    }

    /** `handleSubmit` at clock reading `now`: the user is added, the dialog closes and the form is reset. */
    method Submit(app: AppState.App, now: nat) returns (u: User)
      modifies this, app
      ensures u == NewUser(old(newUserData), now)
      ensures app.users == old(app.users) + [u]
      ensures app.bookings == old(app.bookings) && app.venues == old(app.venues)
      ensures !isModalOpen && newUserData == EMPTY_USER_FORM && searchTerm == old(searchTerm)
    {
      u := NewUser(newUserData, now);
      app.AddUser(u);
      isModalOpen := false;
      newUserData := EMPTY_USER_FORM;
    }
  }
}
