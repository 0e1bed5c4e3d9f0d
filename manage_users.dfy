/** `src/pages/admin/ManageUsers.tsx`: the admin's user list, its search and
    filters, and the activate / deactivate action. */
module ManageUsers {
  import opened Common
  import opened Text
  import opened Lists

  datatype UserRow = UserRow(
    id: nat, name: string, email: string, role: string, status: string,
    enrolledCourses: nat, joinDate: string, lastActive: string)

  const InitialUsers: seq<UserRow> := [
    UserRow(1, "John Smith", "john.smith@example.com", "student", "active", 3, "Jan 12, 2023", "2 hours ago"),
    UserRow(2, "Emily Johnson", "emily.johnson@example.com", "student", "active", 2, "Feb 5, 2023", "1 day ago"),
    UserRow(3, "David Rodriguez", "david.rodriguez@example.com", "instructor", "active", 0, "Dec 10, 2022", "5 minutes ago"),
    UserRow(4, "Sarah Williams", "sarah.williams@example.com", "student", "inactive", 1, "Mar 18, 2023", "2 weeks ago")
  ]

  /** The predicate of `filteredUsers`. */
  predicate UserMatches(u: UserRow, searchTerm: string, selectedRole: Option<string>, selectedStatus: Option<string>)
  {
    (MatchesSearch(u.name, searchTerm) || MatchesSearch(u.email, searchTerm)) &&
    PassesFilter(selectedRole, u.role) &&
    PassesFilter(selectedStatus, u.status)
  }

  function KeepUser(searchTerm: string, selectedRole: Option<string>, selectedStatus: Option<string>): UserRow -> bool
  {
    u => UserMatches(u, searchTerm, selectedRole, selectedStatus)
  }

  /** `filteredUsers`: the users that match, in their original order, each
      kept as often as it occurs. */
  function FilteredUsers(users: seq<UserRow>, searchTerm: string, selectedRole: Option<string>, selectedStatus: Option<string>): (r: seq<UserRow>)
    ensures IsSubsequence(r, users)
    ensures forall u :: u in r <==> u in users && UserMatches(u, searchTerm, selectedRole, selectedStatus)
    ensures forall u :: multiset(r)[u] == if UserMatches(u, searchTerm, selectedRole, selectedStatus) then multiset(users)[u] else 0
  {
    var p := KeepUser(searchTerm, selectedRole, selectedStatus);
    FilterIsSubsequence(users, p);
    FilterMembership(users, p);
    FilterCounts(users, p);
    Filter(users, p)
  }

  /** With an empty search term and no role or status filter the list is
      shown whole. */
  lemma EmptySearchKeepsAll(users: seq<UserRow>, selectedRole: Option<string>, selectedStatus: Option<string>)
    requires Unset(selectedRole) && Unset(selectedStatus)
    ensures FilteredUsers(users, "", selectedRole, selectedStatus) == users
  {
    var p := KeepUser("", selectedRole, selectedStatus);
    forall i | 0 <= i < |users| ensures p(users[i]) {
      IncludesEmpty(Lower(users[i].name));
    }
    FilterKeepsAll(users, p);
  }

  /** The status after one toggle. */
  function ToggledStatus(status: string): string
  {
    if status == "active" then "inactive" else "active"
  }

  function ToggleOne(userId: nat): UserRow -> UserRow
  {
    (u: UserRow) => if u.id == userId then u.(status := ToggledStatus(u.status)) else u
  }

  /** The new `users` value of `handleToggleUserStatus`: every row with the
      id gets the other status, every other row and every other field is
      kept, in the same order. */
  function ToggleUserStatus(users: seq<UserRow>, userId: nat): (r: seq<UserRow>)
    ensures |r| == |users|
    ensures forall i :: 0 <= i < |users| && users[i].id != userId ==> r[i] == users[i]
    ensures forall i :: 0 <= i < |users| && users[i].id == userId ==>
              r[i] == users[i].(status := if users[i].status == "active" then "inactive" else "active")
  {
    Map(users, ToggleOne(userId))
  }

  /** Toggling an id that no row has changes nothing. */
  lemma ToggleAbsentId(users: seq<UserRow>, userId: nat)
    requires forall i :: 0 <= i < |users| ==> users[i].id != userId
    ensures ToggleUserStatus(users, userId) == users
  {
  }

  /** Toggling twice restores every row whose status was "active" or
      "inactive". */
  lemma ToggleTwice(users: seq<UserRow>, userId: nat)
    requires forall i :: 0 <= i < |users| && users[i].id == userId ==>
               users[i].status == "active" || users[i].status == "inactive"
    ensures ToggleUserStatus(ToggleUserStatus(users, userId), userId) == users
  {
  }

  /** A status outside the two values does not come back: two toggles turn
      it into "inactive". */
  lemma ToggleTwiceOtherStatus(u: UserRow)
    requires u.status != "active" && u.status != "inactive"
    ensures ToggleUserStatus(ToggleUserStatus([u], u.id), u.id) == [u.(status := "inactive")]
  {
  }

  /** The page's state that its handlers change. */
  class ManageUsersPage {
    var users: seq<UserRow>
    var isAddUserDialogOpen: bool

    constructor()
      ensures users == InitialUsers && !isAddUserDialogOpen
    {
      users := InitialUsers;
      isAddUserDialogOpen := false;
    }

    /** `handleToggleUserStatus` (the toast is left out). */
    method HandleToggleUserStatus(userId: nat)
      modifies this
      ensures users == ToggleUserStatus(old(users), userId)
      ensures isAddUserDialogOpen == old(isAddUserDialogOpen)
    {
      users := Map(users, ToggleOne(userId));
    }

    /** `handleAddUser`: only closes the dialog; the list is not touched. */
    method HandleAddUser()
      modifies this
      ensures users == old(users)
      ensures !isAddUserDialogOpen
    {
      isAddUserDialogOpen := false;
    }
  }
}
