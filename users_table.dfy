/**
 * The admin users table: the filtered user list and the selection handlers.
 * A filter value of "" stands for an unset (falsy) filter. A user's
 * `department` is None when the key is absent, `Some(None)` when the key is
 * present with a null value, and `Some(Some(d))` for a department `d`.
 */
module UsersTable {
  import opened Wrappers
  import opened Text
  import opened ListOps

  datatype User = User(
    id: string, name: Option<string>, email: Option<string>,
    role: string, status: string, department: Option<Option<string>>)

  datatype Filters = Filters(search: string, role: string, status: string, department: string)

  /** `u.name?.toLowerCase().includes(s) || u.email?.toLowerCase().includes(s)`. */
  predicate SearchMatch(u: User, searchLower: string) {
    (u.name.Some? && Contains(ToLower(u.name.value), searchLower))
    || (u.email.Some? && Contains(ToLower(u.email.value), searchLower))
  }

  function BySearch(users: seq<User>, f: Filters): seq<User> {
    if f.search != "" then Filter(users, u => SearchMatch(u, ToLower(f.search))) else users
  }

  function ByRole(users: seq<User>, f: Filters): seq<User> {
    if f.role != "" then Filter(users, (u: User) => u.role == f.role) else users
  }

  function ByStatus(users: seq<User>, f: Filters): seq<User> {
    if f.status != "" then Filter(users, (u: User) => u.status == f.status) else users
  }

  /** The list after the search, role and status filters, applied in that order. */
  function Intermediate(users: Option<seq<User>>, f: Filters): seq<User> {
    ByStatus(ByRole(BySearch(if users.Some? then users.value else [], f), f), f)
  }

  function ByDepartment(users: seq<User>, f: Filters): seq<User> {
    Filter(users, (u: User) => u.department == Some(Some(f.department)))
  }

  /**
   * `filteredUsers` as written: the department filter applies only when the
   * first remaining user has a `department` key, and `'department' in
   * result[0]` throws (None) when no user remains.
   */
  function FilteredUsers(users: Option<seq<User>>, f: Filters): (r: Option<seq<User>>)
    ensures r.None? <==> f.department != "" && Intermediate(users, f) == []
  {
    var m := Intermediate(users, f);
    if f.department == "" then Some(m)
    else if m == [] then None
    else if m[0].department.Some? then Some(ByDepartment(m, f))
    else Some(m)
  }

  /** `filteredUsers` with the key test guarded by a length check: an empty list stays empty. */
  function FilteredUsersGuarded(users: Option<seq<User>>, f: Filters): (r: seq<User>)
  {
    var m := Intermediate(users, f);
    if f.department != "" && m != [] && m[0].department.Some? then ByDepartment(m, f) else m
  }

  /** Whether the department filter takes effect. */
  predicate DepartmentApplies(users: Option<seq<User>>, f: Filters) {
    var m := Intermediate(users, f);
    f.department != "" && m != [] && m[0].department.Some?
  }

  /** The conjunction of the filters a user must pass. */
  predicate Passes(u: User, f: Filters, department: bool) {
    (f.search == "" || SearchMatch(u, ToLower(f.search)))
    && (f.role == "" || u.role == f.role)
    && (f.status == "" || u.status == f.status)
    && (!department || u.department == Some(Some(f.department)))
  }

  /** The three leading filters keep exactly the passing users, in order. */
  lemma IntermediateExact(users: Option<seq<User>>, f: Filters, u: User)
    ensures multiset(Intermediate(users, f))[u] ==
      if Passes(u, f, false) then multiset(if users.Some? then users.value else [])[u] else 0
    ensures IsSubsequence(Intermediate(users, f), if users.Some? then users.value else [])
  {
    var all := if users.Some? then users.value else [];
    var a := BySearch(all, f);
    var b := ByRole(a, f);
    var c := ByStatus(b, f);
    if f.search != "" {
      FilterCount(all, u => SearchMatch(u, ToLower(f.search)), u);
      FilterIsSubsequence(all, u => SearchMatch(u, ToLower(f.search)));
    } else {
      SubsequenceRefl(all);
    }
    if f.role != "" {
      FilterCount(a, (u: User) => u.role == f.role, u);
      FilterIsSubsequence(a, (u: User) => u.role == f.role);
    } else {
      SubsequenceRefl(a);
    }
    if f.status != "" {
      FilterCount(b, (u: User) => u.status == f.status, u);
      FilterIsSubsequence(b, (u: User) => u.status == f.status);
    } else {
      SubsequenceRefl(b);
    }
    SubsequenceTrans(b, a, all);
    SubsequenceTrans(c, b, all);
  }

  /**
   * When the as-written filter does not throw, it keeps exactly the users
   * passing every applied filter, as often as they occur, in their order; a
   * non-array users value yields an empty list.
   */
  lemma FilteredUsersExact(users: Option<seq<User>>, f: Filters, u: User)
    requires FilteredUsers(users, f).Some?
    ensures var r := FilteredUsers(users, f).value;
      && multiset(r)[u] == (if Passes(u, f, DepartmentApplies(users, f)) then multiset(if users.Some? then users.value else [])[u] else 0)
      && IsSubsequence(r, if users.Some? then users.value else [])
      && (users.None? ==> r == [])
  {
    var all := if users.Some? then users.value else [];
    var m := Intermediate(users, f);
    IntermediateExact(users, f, u);
    if DepartmentApplies(users, f) {
      FilterCount(m, (x: User) => x.department == Some(Some(f.department)), u);
      FilterIsSubsequence(m, (x: User) => x.department == Some(Some(f.department)));
      SubsequenceTrans(ByDepartment(m, f), m, all);
    }
  }

  /**
   * A `department` key holding null still counts as present: the filter then
   * applies and drops that user.
   */
  lemma NullDepartmentKeyApplies(a: User, b: User, f: Filters)
    requires f == Filters("", "", "", "Sales")
    requires a.department == Some(None) && b.department == Some(Some("Sales"))
    ensures FilteredUsers(Some([a, b]), f) == Some([b])
  {
    var m := [a, b];
    assert Intermediate(Some(m), f) == m;
    assert m[..1] == [a] && [a][..0] == [];
    assert ByDepartment([a], f) == [];
    assert ByDepartment(m, f) == [b];
  }

  /** The throw the key test raises on an empty list: no users and a department filter. */
  lemma EmptyListThrows()
    ensures FilteredUsers(Some([]), Filters("", "", "", "Sales")).None?
    ensures FilteredUsers(None, Filters("", "", "", "Sales")).None?
  {
  }

  /**
   * The guarded filter never fails, keeps exactly the passing users in their
   * order, and agrees with the as-written filter wherever that one does not
   * throw.
   */
  lemma FilteredUsersGuardedExact(users: Option<seq<User>>, f: Filters, u: User)
    ensures var r := FilteredUsersGuarded(users, f);
      && multiset(r)[u] == (if Passes(u, f, DepartmentApplies(users, f)) then multiset(if users.Some? then users.value else [])[u] else 0)
      && IsSubsequence(r, if users.Some? then users.value else [])
      && (users.None? ==> r == [])
    ensures FilteredUsers(users, f).Some? ==> FilteredUsers(users, f).value == FilteredUsersGuarded(users, f)
    ensures FilteredUsers(users, f).None? ==> FilteredUsersGuarded(users, f) == []
  {
    var all := if users.Some? then users.value else [];
    var m := Intermediate(users, f);
    IntermediateExact(users, f, u);
    if DepartmentApplies(users, f) {
      FilterCount(m, (x: User) => x.department == Some(Some(f.department)), u);
      FilterIsSubsequence(m, (x: User) => x.department == Some(Some(f.department)));
      SubsequenceTrans(ByDepartment(m, f), m, all);
    }
  }

  /** `handleSelectUser`: a copy of the selection with exactly that id added or removed. */
  function SelectUser(selection: set<string>, userId: string, selected: bool): (r: set<string>)
    ensures userId in r <==> selected
    ensures forall id :: id != userId ==> (id in r <==> id in selection)
  {
    if selected then selection + {userId} else selection - {userId}
  }

  /** The ids of a list of users. */
  function UserIds(users: seq<User>): (ids: set<string>)
    ensures forall id :: id in ids <==> exists i :: 0 <= i < |users| && users[i].id == id
  {
    set i | 0 <= i < |users| :: users[i].id
  }

  /** `handleSelectAll`: exactly the filtered ids, or nothing; clearing also gives nothing. */
  function SelectAll(users: Option<seq<User>>, f: Filters, selected: bool): (r: set<string>)
    ensures !selected ==> r == {}
    ensures selected ==> forall id :: id in r <==>
      exists i :: 0 <= i < |FilteredUsersGuarded(users, f)| && FilteredUsersGuarded(users, f)[i].id == id
  {
    if selected then UserIds(FilteredUsersGuarded(users, f)) else {}
  }

  /** Selecting then deselecting a user that was not selected restores the selection. */
  lemma SelectDeselect(selection: set<string>, userId: string)
    requires userId !in selection
    ensures SelectUser(SelectUser(selection, userId, true), userId, false) == selection
  {
  }

  /** Select-all picks only users that pass the filters. */
  lemma SelectAllPasses(users: Option<seq<User>>, f: Filters, id: string)
    requires id in SelectAll(users, f, true)
    ensures var all := if users.Some? then users.value else [];
      exists j :: 0 <= j < |all| && all[j].id == id && Passes(all[j], f, DepartmentApplies(users, f))
  {
    var all := if users.Some? then users.value else [];
    var r := FilteredUsersGuarded(users, f);
    var i :| 0 <= i < |r| && r[i].id == id;
    FilteredUsersGuardedExact(users, f, r[i]);
    assert r[i] in multiset(r);
    assert r[i] in multiset(all);
    var j :| 0 <= j < |all| && all[j] == r[i];
  }
}
