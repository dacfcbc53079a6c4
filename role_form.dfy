/**
 * The admin role form: the form data and its validation, permission and
 * category toggles, the permissions grouped by category, the category and
 * permission search, and the submit target. The permission list the form
 * loads and the submit response are inputs.
 */
module RoleForm {
  import opened Wrappers
  import opened Text
  import opened ListOps
  import opened Grouping

  datatype Permission = Permission(id: string, name: string, description: Option<string>, category: string)

  datatype RoleFormData = RoleFormData(name: string, description: string, permissions: seq<string>)

  /** The optional `initialData` prop. */
  datatype InitialData = InitialData(
    name: Option<string>, description: Option<string>, permissions: Option<seq<string>>, id: Option<string>)

  datatype Mode = Create | Edit

  /** One `handleChange(field, value)` call. */
  datatype FieldChange = NameChange(name: string) | DescriptionChange(description: string) | PermissionsChange(permissions: seq<string>)

  /** `{ name: initialData?.name || '', description: ... || '', permissions: ... || [] }`. */
  function InitialForm(init: Option<InitialData>): (f: RoleFormData)
    ensures init.None? ==> f == RoleFormData("", "", [])
    ensures init.Some? ==> (f.name == init.value.name.GetOr("") && f.description == init.value.description.GetOr("")
      && f.permissions == init.value.permissions.GetOr([]))
  {
    if init.None? then RoleFormData("", "", [])
    else RoleFormData(init.value.name.GetOr(""), init.value.description.GetOr(""), init.value.permissions.GetOr([]))
  }

  /** `perm.category || 'Other'`. */
  function CategoryOf(p: Permission): string {
    if p.category == "" then "Other" else p.category
  }

  /** The search match on an already lower-cased query. */
  predicate PermMatches(p: Permission, query: string) {
    Contains(ToLower(p.name), query) || (p.description.Some? && Contains(ToLower(p.description.value), query))
  }

  /** `permissions.some(p => ...)`. */
  predicate AnyMatches(ps: seq<Permission>, query: string)
    decreases |ps|
  {
    ps != [] && (PermMatches(ps[0], query) || AnyMatches(ps[1..], query))
  }

  lemma {:induction false} AnyMatchesMembership(ps: seq<Permission>, query: string)
    ensures AnyMatches(ps, query) <==> exists i :: 0 <= i < |ps| && PermMatches(ps[i], query)
    decreases |ps|
  {
    if ps != [] {
      AnyMatchesMembership(ps[1..], query);
      assert forall i :: 1 <= i < |ps| ==> ps[i] == ps[1..][i - 1];
      if exists i :: 0 <= i < |ps| && PermMatches(ps[i], query) {
        var i :| 0 <= i < |ps| && PermMatches(ps[i], query);
        if i > 0 {
          assert PermMatches(ps[1..][i - 1], query);
        }
      }
    }
  }

  /** `permissionsByCategory`: the `reduce` that pushes each permission into its category's list. */
  method PermissionsByCategory(perms: seq<Permission>) returns (categories: seq<string>, groups: map<string, seq<Permission>>)
    ensures categories == FirstKeys(perms, CategoryOf)
    ensures forall c :: c in groups <==> c in categories
    ensures forall c :: c in groups ==> groups[c] == Select(perms, CategoryOf, c)
  {
    categories, groups := GroupBy(perms, CategoryOf);
  }

  /** `permissionsByCategory[category].some(...)` on a lower-cased query. */
  predicate CategoryHasMatch(perms: seq<Permission>, query: string, c: string) {
    AnyMatches(Select(perms, CategoryOf, c), query)
  }

  /** A category has a match iff some permission of that category matches. */
  lemma CategoryHasMatchExact(perms: seq<Permission>, query: string, c: string)
    ensures CategoryHasMatch(perms, query, c) <==>
      exists i :: 0 <= i < |perms| && CategoryOf(perms[i]) == c && PermMatches(perms[i], query)
  {
    var g := Select(perms, CategoryOf, c);
    AnyMatchesMembership(g, query);
    if exists i :: 0 <= i < |perms| && CategoryOf(perms[i]) == c && PermMatches(perms[i], query) {
      var i :| 0 <= i < |perms| && CategoryOf(perms[i]) == c && PermMatches(perms[i], query);
      GroupCount(perms, CategoryOf, c, perms[i]);
      assert perms[i] in multiset(g);
      var j :| 0 <= j < |g| && g[j] == perms[i];
      assert PermMatches(g[j], query);
    }
    if AnyMatches(g, query) {
      var j :| 0 <= j < |g| && PermMatches(g[j], query);
      GroupCount(perms, CategoryOf, c, g[j]);
      assert g[j] in multiset(perms);
      var i :| 0 <= i < |perms| && perms[i] == g[j];
      assert CategoryOf(perms[i]) == c;
    }
  }

  /** `filteredCategories`: every category for a blank query, else those with a matching permission. */
  function FilteredCategories(perms: seq<Permission>, searchQuery: string): (cs: seq<string>)
    ensures IsBlank(searchQuery) ==> cs == FirstKeys(perms, CategoryOf)
  {
    if IsBlank(searchQuery) then FirstKeys(perms, CategoryOf)
    else Filter(FirstKeys(perms, CategoryOf), c => CategoryHasMatch(perms, ToLower(searchQuery), c))
  }

  /** `filteredPerms` of one category group. */
  function FilteredPerms(groupPerms: seq<Permission>, searchQuery: string): (r: seq<Permission>)
    ensures IsBlank(searchQuery) ==> r == groupPerms
  {
    if IsBlank(searchQuery) then groupPerms else Filter(groupPerms, p => PermMatches(p, ToLower(searchQuery)))
  }

  /**
   * With a non-blank query, a category is listed iff some permission of that
   * category matches the query.
   */
  lemma FilteredCategoriesExact(perms: seq<Permission>, searchQuery: string, c: string)
    requires !IsBlank(searchQuery)
    ensures c in FilteredCategories(perms, searchQuery) <==>
      exists i :: 0 <= i < |perms| && CategoryOf(perms[i]) == c && PermMatches(perms[i], ToLower(searchQuery))
  {
    var q := ToLower(searchQuery);
    FilterCount(FirstKeys(perms, CategoryOf), c' => CategoryHasMatch(perms, q, c'), c);
    FirstKeysMembership(perms, CategoryOf, c);
    CategoryHasMatchExact(perms, q, c);
  }

  /** A listed category's group never renders empty: search and group filter agree. */
  lemma ListedCategoryRenders(perms: seq<Permission>, searchQuery: string, c: string)
    requires !IsBlank(searchQuery) && c in FilteredCategories(perms, searchQuery)
    ensures FilteredPerms(Select(perms, CategoryOf, c), searchQuery) != []
  {
    var q := ToLower(searchQuery);
    var g := Select(perms, CategoryOf, c);
    FilteredCategoriesExact(perms, searchQuery, c);
    var i :| 0 <= i < |perms| && CategoryOf(perms[i]) == c && PermMatches(perms[i], q);
    GroupCount(perms, CategoryOf, c, perms[i]);
    FilterCount(g, p => PermMatches(p, q), perms[i]);
    assert perms[i] in multiset(FilteredPerms(g, searchQuery));
  }

  /** The request `handleSubmit` sends: POST to the collection or PATCH to the role. */
  function SubmitTarget(mode: Mode, roleId: Option<string>): (t: (string, string))
    ensures mode == Create ==> t == ("POST", "/api/admin/roles")
    ensures mode == Edit ==> t == ("PATCH", "/api/admin/roles/" + roleId.GetOr("undefined"))
  {
    if mode == Create then ("POST", "/api/admin/roles")
    else ("PATCH", "/api/admin/roles/" + roleId.GetOr("undefined"))
  }

  /** How the submit request settles. */
  datatype SubmitOutcome =
    | SubmitOk(roleId: string)
    | SubmitNotOk(message: Option<string>)   // `errorData.message`, absent when missing or empty
    | SubmitThrew(message: Option<string>)   // the Error's message, if an Error

  /** The message of a failed response that carries none. */
  function DefaultFailure(mode: Mode): string {
    if mode == Create then "Failed to create role" else "Failed to update role"
  }

  /**
   * The real-time sync event a successful submit emits on the global event
   * emitter: 'role:created' with the id the server returned, or
   * 'role:updated' with the edited role's id, and the submitted form.
   */
  datatype RoleEvent = RoleEvent(topic: string, roleId: Option<string>, data: RoleFormData)

  /** The event `handleSubmit` emits after a successful request. */
  function SyncEvent(mode: Mode, initialId: Option<string>, resultId: string, data: RoleFormData): (e: RoleEvent)
    ensures e.data == data
    ensures mode == Create ==> e.topic == "role:created" && e.roleId == Some(resultId)
    ensures mode == Edit ==> e.topic == "role:updated" && e.roleId == initialId
  {
    if mode == Create then RoleEvent("role:created", Some(resultId), data)
    else RoleEvent("role:updated", initialId, data)
  }

  /** The fallback list used when the permissions cannot be loaded. */
  const FallbackPermissions: seq<Permission> := [
    Permission("users.view", "View Users", Some("View user information"), "Users"),
    Permission("users.create", "Create Users", Some("Create new users"), "Users"),
    Permission("users.edit", "Edit Users", Some("Edit user information"), "Users"),
    Permission("users.delete", "Delete Users", Some("Delete users"), "Users"),
    Permission("roles.view", "View Roles", Some("View role information"), "Roles"),
    Permission("roles.create", "Create Roles", Some("Create new roles"), "Roles"),
    Permission("roles.edit", "Edit Roles", Some("Edit role information"), "Roles"),
    Permission("roles.delete", "Delete Roles", Some("Delete roles"), "Roles"),
    Permission("permissions.manage", "Manage Permissions", Some("Manage system permissions"), "Permissions")
  ]

  /** The raw categories of the permissions, distinct, in first-occurrence order. */
  function RawCategory(p: Permission): string {
    p.category
  }

  /** The validation failures, in the order `validateForm` checks them. */
  datatype FormError = NameRequired | DescriptionRequired | PermissionRequired {
    function Message(): string {
      match this
      case NameRequired => "Role name is required"
      case DescriptionRequired => "Role description is required"
      case PermissionRequired => "At least one permission must be assigned"
    }
  }

  /** What `validateForm` accepts: a non-blank name and description and at least one permission. */
  predicate FormValid(d: RoleFormData) {
    !IsBlank(d.name) && !IsBlank(d.description) && d.permissions != []
  }

  /** The first check `validateForm` fails, if any. */
  function FormCheck(d: RoleFormData): (e: Option<FormError>)
    ensures e == Some(NameRequired) <==> IsBlank(d.name)
    ensures e == Some(DescriptionRequired) <==> !IsBlank(d.name) && IsBlank(d.description)
    ensures e == Some(PermissionRequired) <==> !IsBlank(d.name) && !IsBlank(d.description) && d.permissions == []
    ensures e.None? <==> FormValid(d)
  {
    if IsBlank(d.name) then Some(NameRequired)
    else if IsBlank(d.description) then Some(DescriptionRequired)
    else if d.permissions == [] then Some(PermissionRequired)
    else None
  }

  class RoleFormState {
    var formData: RoleFormData
    var error: Option<string>
    var permissions: seq<Permission>
    var expandedCategories: set<string>
    var searchQuery: string
    var isSubmitting: bool
    /** The events emitted on the global event emitter. */
    var events: seq<RoleEvent>
    /** The ids passed to `onSuccess`. */
    var successIds: seq<string>

    constructor(init: Option<InitialData>)
      ensures formData == InitialForm(init) && error.None? && permissions == []
      ensures expandedCategories == {} && searchQuery == "" && !isSubmitting
      ensures events == [] && successIds == []
    {
      formData := InitialForm(init);
      error := None;
      permissions := [];
      expandedCategories := {};
      searchQuery := "";
      isSubmitting := false;
      events := [];
      successIds := [];
    }

    /**
     * The load effect: the loaded list with its first three categories
     * expanded, or the fallback list with Users and Roles expanded.
     */
    method LoadPermissions(loaded: Option<seq<Permission>>)
      modifies this
      ensures loaded.Some? ==> (permissions == loaded.value
        && expandedCategories == set k | k in Prefix3(FirstKeys(loaded.value, RawCategory)))
      ensures loaded.None? ==> permissions == FallbackPermissions && expandedCategories == {"Users", "Roles"}
      ensures formData == old(formData) && error == old(error) && searchQuery == old(searchQuery)
      ensures isSubmitting == old(isSubmitting) && events == old(events) && successIds == old(successIds)
    {
      if loaded.Some? {
        permissions := loaded.value;
        expandedCategories := set k | k in Prefix3(FirstKeys(loaded.value, RawCategory));
      } else {
        permissions := FallbackPermissions;
        expandedCategories := {"Users", "Roles"};
      }
    }

    /** The auto-expand effect: while searching, exactly the listed categories are expanded. */
    method SearchEffect()
      modifies this
      ensures !IsBlank(searchQuery) ==> expandedCategories == set c | c in FilteredCategories(permissions, searchQuery)
      ensures IsBlank(searchQuery) ==> expandedCategories == old(expandedCategories)
      ensures formData == old(formData) && error == old(error) && permissions == old(permissions)
      ensures searchQuery == old(searchQuery) && isSubmitting == old(isSubmitting)
      ensures events == old(events) && successIds == old(successIds)
    {
      if !IsBlank(searchQuery) {
        expandedCategories := set c | c in FilteredCategories(permissions, searchQuery);
      }
    }

    /**
     * The search box: typing sets the query, and the clear button sets it to
     * ''. The auto-expand effect then runs as `SearchEffect`.
     */
    method SetSearchQuery(query: string)
      modifies this
      ensures searchQuery == query
      ensures formData == old(formData) && error == old(error) && permissions == old(permissions)
      ensures expandedCategories == old(expandedCategories) && isSubmitting == old(isSubmitting)
      ensures events == old(events) && successIds == old(successIds)
    {
      searchQuery := query;
    }

    /** `handleChange`: replaces exactly one field and clears the error. */
    method HandleChange(change: FieldChange)
      modifies this
      ensures error.None?
      ensures change.NameChange? ==> formData == old(formData).(name := change.name)
      ensures change.DescriptionChange? ==> formData == old(formData).(description := change.description)
      ensures change.PermissionsChange? ==> formData == old(formData).(permissions := change.permissions)
      ensures permissions == old(permissions) && expandedCategories == old(expandedCategories)
      ensures searchQuery == old(searchQuery) && isSubmitting == old(isSubmitting)
      ensures events == old(events) && successIds == old(successIds)
    {
      match change {
        case NameChange(n) => formData := formData.(name := n);
        case DescriptionChange(d) => formData := formData.(description := d);
        case PermissionsChange(ps) => formData := formData.(permissions := ps);
      }
      error := None;
    }

    /** `togglePermission`: removes every occurrence of a selected id, otherwise appends it. */
    method TogglePermission(permissionId: string)
      modifies this
      ensures formData == old(formData).(permissions := Toggle(old(formData).permissions, permissionId))
      ensures error == old(error) && permissions == old(permissions) && expandedCategories == old(expandedCategories)
      ensures searchQuery == old(searchQuery) && isSubmitting == old(isSubmitting)
      ensures events == old(events) && successIds == old(successIds)
    {
      formData := formData.(permissions := Toggle(formData.permissions, permissionId));
    }

    /** `toggleCategory`: flips one category's membership in a copy of the expanded set. */
    method ToggleCategory(category: string)
      modifies this
      ensures category in expandedCategories <==> category !in old(expandedCategories)
      ensures forall c :: c != category ==> (c in expandedCategories <==> c in old(expandedCategories))
      ensures formData == old(formData) && error == old(error) && permissions == old(permissions)
      ensures searchQuery == old(searchQuery) && isSubmitting == old(isSubmitting)
      ensures events == old(events) && successIds == old(successIds)
    {
      var next := expandedCategories;
      if category in next {
        next := next - {category};
      } else {
        next := next + {category};
      }
      expandedCategories := next;
    }

    /** `validateForm`: records the message of the first failed check; the form passes when none fails. */
    method ValidateForm() returns (ok: bool)
      modifies this
      ensures ok <==> FormCheck(old(formData)).None?
      ensures !ok ==> error == Some(FormCheck(old(formData)).value.Message())
      ensures ok ==> error == old(error)
      ensures unchanged(this`formData, this`permissions, this`expandedCategories, this`searchQuery, this`isSubmitting)
      ensures unchanged(this`events, this`successIds)
    {
      var data := formData;
      var check := FormCheck(data);
      ok := check.None?;
      if !ok {
        error := Some(check.value.Message());
      }
    }

    /**
     * `handleSubmit`: nothing is sent when validation fails, and the failed
     * check's message is the error. Otherwise the outcome decides: a success
     * emits the sync event, passes the returned id to `onSuccess` when the
     * parent gave one (`onSuccess?.(result.id)`) and closes the form, leaving
     * the error as it was; a failure records the server's message or the
     * fallback.
     */
    method Submit(mode: Mode, initialId: Option<string>, hasOnSuccess: bool, outcome: SubmitOutcome)
      returns (sent: bool, closed: bool)
      modifies this
      ensures sent <==> FormCheck(old(formData)).None?
      ensures !sent ==> error == Some(FormCheck(old(formData)).value.Message())
      ensures closed <==> sent && outcome.SubmitOk?
      ensures closed ==> error == old(error)
      ensures sent && outcome.SubmitNotOk? ==>
        error == Some(outcome.message.GetOr(DefaultFailure(mode)))
      ensures sent && outcome.SubmitThrew? ==> error == Some(outcome.message.GetOr("An error occurred"))
      ensures events == old(events) + (if closed then [SyncEvent(mode, initialId, outcome.roleId, old(formData))] else [])
      ensures successIds == old(successIds) + (if closed && hasOnSuccess then [outcome.roleId] else [])
      ensures !isSubmitting && unchanged(this`formData, this`permissions, this`expandedCategories, this`searchQuery)
    {
      sent := ValidateForm();
      closed := false;
      if sent {
        isSubmitting := true;
        match outcome {
          case SubmitOk(id) =>
            events := events + [SyncEvent(mode, initialId, id, formData)];
            if hasOnSuccess {
              successIds := successIds + [id];
            }
            closed := true;
          case SubmitNotOk(m) =>
            error := Some(m.GetOr(DefaultFailure(mode)));
          case SubmitThrew(m) =>
            error := Some(m.GetOr("An error occurred"));
        }
      }
      isSubmitting := false;
    }
  }

  /** `categories.slice(0, 3)`. */
  function Prefix3(cs: seq<string>): (r: seq<string>)
    ensures |r| <= 3 && (|cs| >= 3 ==> |r| == 3) && (|cs| < 3 ==> r == cs)
    ensures forall i :: 0 <= i < |r| ==> r[i] == cs[i]
  {
    if |cs| <= 3 then cs else cs[..3]
  }
}
