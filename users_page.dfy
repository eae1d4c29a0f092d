/** The staff user-management page, app/seller/users/page.jsx: the search
    and role filter, the per-role counts, which role control each row
    gets, and the local update after a role change. */
module UsersPage {
  import opened Common

  /** A user as `/api/admin/users` lists it; name and email may be missing. */
  datatype ListedUser = ListedUser(id: string, name: Option<string>, email: Option<string>, role: string)

  /** `field?.toLowerCase().includes(term.toLowerCase())`; a missing field never matches. */
  predicate FieldMatches(field: Option<string>, term: string) {
    field.Some? && Contains(ToLower(field.value), ToLower(term))
  }

  /** The filter of `filteredUsers`. */
  function Shown(term: string, filterRole: string): ListedUser -> bool {
    (u: ListedUser) =>
      (FieldMatches(u.name, term) || FieldMatches(u.email, term)) &&
      (filterRole == "all" || u.role == filterRole)
  }

  function FilteredUsers(users: seq<ListedUser>, term: string, filterRole: string): seq<ListedUser> {
    Filter(users, Shown(term, filterRole))
  }

  /** A user is listed iff the name or email contains the term, ignoring
      case, and the role filter is "all" or names the user's role; the list
      keeps the page's order. */
  lemma FilteredUsersSpec(users: seq<ListedUser>, term: string, filterRole: string)
    ensures forall u :: u in FilteredUsers(users, term, filterRole) <==>
      u in users &&
      (FieldMatches(u.name, term) || FieldMatches(u.email, term)) &&
      (filterRole == "all" || u.role == filterRole)
    ensures Subsequence(FilteredUsers(users, term, filterRole), users)
  {
    FilterMembers(users, Shown(term, filterRole));
    FilterSubsequence(users, Shown(term, filterRole));
  }

  /** An empty search term matches every user that has a name or an email. */
  lemma EmptyTermMatchesNamed(u: ListedUser)
    requires u.name.Some?
    ensures Shown("", "all")(u)
  {
    assert OccursAt(ToLower(u.name.value), ToLower(""), 0);
    ContainsIff(ToLower(u.name.value), ToLower(""));
  }

  function HasRole(role: string): ListedUser -> bool {
    (u: ListedUser) => u.role == role
  }

  /** `users.filter(u => u.role === role).length`. */
  function RoleCount(users: seq<ListedUser>, role: string): (n: nat)
    ensures n <= |users|
  {
    Count(users, HasRole(role))
  }

  /** When every user holds one of the three roles, the three counts add
      up to the total shown beside them. */
  lemma {:induction false} RoleCountsPartition(users: seq<ListedUser>)
    requires forall k :: 0 <= k < |users| ==> users[k].role in Roles
    ensures RoleCount(users, "customer") + RoleCount(users, "seller") + RoleCount(users, "admin") == |users|
  {
    if users != [] {
      RoleCountsPartition(users[1..]);
    }
  }

  /** What the "Change Role" cell shows. */
  datatype RoleControl = CurrentUser | NoPermission | Editable

  function RoleControlFor(rowId: string, session: Session): (c: RoleControl)
    ensures c == CurrentUser <==> session.id == Some(rowId)
    ensures c == NoPermission <==> session.id != Some(rowId) && session.role == Some("seller")
  {
    if session.id == Some(rowId) then CurrentUser
    else if session.role == Some("seller") then NoPermission
    else Editable
  }

  /** On the page, which renders only for staff, an editable control is
      offered exactly where the role route's admin and self-change checks
      both pass. */
  lemma EditableMatchesRoute(rowId: string, session: Session)
    requires IsStaff(session.role)
    ensures RoleControlFor(rowId, session) == Editable <==>
      session.role == Some("admin") && session.id != Some(rowId)
  {
  }

  /** `users.map(u => u._id === userId ? {...u, role} : u)`. */
  function Relabelled(users: seq<ListedUser>, userId: string, role: string): (r: seq<ListedUser>)
    ensures |r| == |users|
    ensures forall k :: 0 <= k < |r| ==>
      r[k] == if users[k].id == userId then users[k].(role := role) else users[k]
  {
    if users == [] then []
    else [if users[0].id == userId then users[0].(role := role) else users[0]] + Relabelled(users[1..], userId, role)
  }

  /** The relabelled list names the new role on every row of that user and
      leaves the other rows' counts alone. */
  lemma {:induction false} RelabelMovesCount(users: seq<ListedUser>, userId: string, role: string, other: string)
    requires other != role
    ensures RoleCount(Relabelled(users, userId, role), other) <= RoleCount(users, other)
    ensures forall k :: 0 <= k < |users| && users[k].id == userId ==> Relabelled(users, userId, role)[k].role == role
  {
    if users != [] {
      RelabelMovesCount(users[1..], userId, role, other);
      assert Relabelled(users, userId, role)[1..] == Relabelled(users[1..], userId, role);
    }
  }

  /** The page's list of users and the id whose change is in flight. */
  class UserList {
    var users: seq<ListedUser>
    var updating: Option<string>

    constructor (fetched: seq<ListedUser>)
      ensures users == fetched && updating == None
    {
      users := fetched;
      updating := None;
    }

    /** `handleRoleChange`: nothing is sent unless the confirmation is
        accepted; only a successful reply relabels the user locally.
        `confirmed` and `replyOk` stand for the dialog and the request. */
    method HandleRoleChange(userId: string, newRole: string, confirmed: bool, replyOk: bool)
      returns (sent: bool)
      modifies this
      ensures sent == confirmed
      ensures !confirmed ==> users == old(users) && updating == old(updating)
      ensures confirmed ==> updating == None
      ensures confirmed && !replyOk ==> users == old(users)
      ensures confirmed && replyOk ==> users == Relabelled(old(users), userId, newRole)
    {
      if !confirmed {
        return false;
      }
      updating := Some(userId);
      sent := true;
      if replyOk {
        users := Relabelled(users, userId, newRole);
      }
      updating := None;
    }
  }
}
