/** The users list page: its search and role filters and the queries they send, the
    Add User button under the plan's user limit, the role badges, the user form (its
    fields by mode and the roles value it submits) and the row actions. */
module UserList {
  import opened Wrappers
  import opened Strings
  import opened JsValues
  import opened ListControls

  /** The role select's "every role" choice. */
  const AllRoles: string := "all"

  datatype Filters = Filters(search: string, role: string)

  /** The filters the page starts with: `search || ''` and `role || 'all'`. */
  function InitialFilters(search: Value, role: Value): (f: Filters)
    ensures !Truthy(search) ==> f.search == ""
    ensures Truthy(search) ==> f.search == ToJsString(search)
    ensures !Truthy(role) ==> f.role == AllRoles
    ensures Truthy(role) ==> f.role == ToJsString(role)
  {
    Filters(if Truthy(search) then ToJsString(search) else "", if Truthy(role) then ToJsString(role) else AllRoles)
  }

  const Cleared: Filters := Filters("", AllRoles)

  predicate HasActiveFilters(f: Filters) {
    f.role != AllRoles || f.search != ""
  }

  function ActiveFilterCount(f: Filters): (n: nat)
    ensures n <= 2
  {
    (if f.role != AllRoles then 1 else 0) + (if f.search != "" then 1 else 0)
  }

  lemma ActiveIffCounted(f: Filters)
    ensures HasActiveFilters(f) <==> ActiveFilterCount(f) > 0
    ensures f == Cleared ==> ActiveFilterCount(f) == 0
  {
  }

  // ---------------------------------------------------------------------------
  // Queries.

  /** `{ page: 1 }` plus the search when non-empty, the role unless `all`, and the page
      size when set. */
  function FilterQuery(f: Filters, perPage: Value): (q: map<string, Value>)
    ensures "page" in q && q["page"] == Num(1)
    ensures "search" in q <==> f.search != ""
    ensures "role" in q <==> f.role != AllRoles
    ensures "per_page" in q <==> Truthy(perPage)
    ensures "per_page" in q ==> q["per_page"] == perPage
    ensures q.Keys <= {"page", "search", "role", "per_page"}
    ensures "search" in q ==> q["search"] == Str(f.search)
    ensures "role" in q ==> q["role"] == Str(f.role)
  {
    var q0 := map["page" := Num(1)];
    var q1 := if f.search != "" then q0["search" := Str(f.search)] else q0;
    var q2 := if f.role != AllRoles then q1["role" := Str(f.role)] else q1;
    if Truthy(perPage) then q2["per_page" := perPage] else q2
  }

  /** The filters the query carries are exactly the active ones. */
  lemma QueryCountsActive(f: Filters, perPage: Value)
    ensures |FilterQuery(f, perPage).Keys * {"search", "role"}| == ActiveFilterCount(f)
  {
    var q := FilterQuery(f, perPage);
    var carried := q.Keys * {"search", "role"};
    if f.search != "" && f.role != AllRoles {
      assert carried == {"search", "role"};
    } else if f.search != "" {
      assert carried == {"search"};
    } else if f.role != AllRoles {
      assert carried == {"role"};
    } else {
      assert carried == {};
    }
  }

  /** A header click: the filter query plus the field and the toggled direction. */
  function SortQuery(f: Filters, perPage: Value, sortField: Option<string>, sortDirection: Option<string>, field: string): (q: map<string, Value>)
    ensures "sort_field" in q && q["sort_field"] == Str(field)
    ensures "sort_direction" in q && q["sort_direction"] == Str(NextSortDirection(sortField, sortDirection, field).Name())
    ensures q.Keys == FilterQuery(f, perPage).Keys + {"sort_field", "sort_direction"}
    ensures forall k :: k in FilterQuery(f, perPage) ==> q[k] == FilterQuery(f, perPage)[k]
  {
    FilterQuery(f, perPage)["sort_field" := Str(field)]
      ["sort_direction" := Str(NextSortDirection(sortField, sortDirection, field).Name())]
  }

  /** The reset query passes the page size through as it is, so only `undefined` drops it. */
  function ResetQuery(perPage: Value): (q: map<string, Value>)
    ensures "page" in q && q["page"] == Num(1)
    ensures "per_page" in q <==> perPage != Undefined
    ensures "per_page" in q ==> q["per_page"] == perPage
    ensures q.Keys <= {"page", "per_page"}
  {
    if perPage != Undefined then map["page" := Num(1), "per_page" := perPage] else map["page" := Num(1)]
  }

  /** Reset and filtering with cleared filters send the same query, except that a defined
      but falsy page size (`null`, `0`, `''`, `false`) is sent by reset and left out by the
      filter. */
  lemma ResetAgreesWithClearedFilter(perPage: Value)
    ensures ResetQuery(perPage) == FilterQuery(Cleared, perPage) <==> Truthy(perPage) || perPage == Undefined
    ensures !Truthy(perPage) && perPage != Undefined ==>
      "per_page" in ResetQuery(perPage) && "per_page" !in FilterQuery(Cleared, perPage)
  {
  }

  // ---------------------------------------------------------------------------
  // The Add User button.

  datatype PlanLimits = PlanLimits(canCreate: Value, currentUsers: Value, maxUsers: Value)

  datatype PageAction = PageAction(caption: string, enabled: bool)

  /** `!planLimits || planLimits.can_create`. */
  predicate CanCreate(limits: Option<PlanLimits>) {
    limits.None? || Truthy(limits.value.canCreate)
  }

  function LimitReachedCaption(l: PlanLimits): string {
    "User Limit Reached (" + ToJsString(l.currentUsers) + "/" + ToJsString(l.maxUsers) + ")"
  }

  /** The Add User page action: only with the `create-users` permission; enabled unless
      the plan's limit is reached, in which case it carries the limit text. */
  function AddUserAction(permissions: set<string>, limits: Option<PlanLimits>): (r: Option<PageAction>)
    ensures r.Some? <==> "create-users" in permissions
    ensures r.Some? ==> (r.value.enabled <==> limits.None? || Truthy(limits.value.canCreate))
    ensures r.Some? && !r.value.enabled ==> limits.Some? && r.value.caption == LimitReachedCaption(limits.value)
    ensures r.Some? && r.value.enabled ==> r.value.caption == "Add User"
  {
    if "create-users" !in permissions then None
    else if limits.Some? && !CanCreate(limits) then Some(PageAction(LimitReachedCaption(limits.value), false))
    else Some(PageAction("Add User", true))
  }

  // ---------------------------------------------------------------------------
  // Role badges.

  datatype BadgeColour = Violet | Pink | Blue | Grey

  /** The badge colour of a role: admin or manager first, then hr, then employee, matched as
      substrings of the lower-cased name. */
  function RoleBadge(name: string): (c: BadgeColour)
    ensures c == Violet <==> Contains(ToLower(name), "admin") || Contains(ToLower(name), "manager")
    ensures c == Pink <==> !Contains(ToLower(name), "admin") && !Contains(ToLower(name), "manager") && Contains(ToLower(name), "hr")
    ensures c == Blue <==> !Contains(ToLower(name), "admin") && !Contains(ToLower(name), "manager") &&
                           !Contains(ToLower(name), "hr") && Contains(ToLower(name), "employee")
    ensures c == Grey <==> !Contains(ToLower(name), "admin") && !Contains(ToLower(name), "manager") &&
                           !Contains(ToLower(name), "hr") && !Contains(ToLower(name), "employee")
  {
    var n := ToLower(name);
    if Contains(n, "admin") || Contains(n, "manager") then Violet
    else if Contains(n, "hr") then Pink
    else if Contains(n, "employee") then Blue
    else Grey
  }

  /** Matching is on the lower-cased name: `Manager` anywhere in a name gives the
      admin/manager colour. */
  lemma ManagerAnywhere(prefix: string, suffix: string)
    ensures RoleBadge(prefix + "Manager" + suffix) == Violet
  {
    var s := prefix + "Manager" + suffix;
    var n := ToLower(s);
    assert n[|prefix|..|prefix| + 7] == "manager";
    ContainsAt(n, "manager", |prefix|);
  }

  /** Precedence: an HR manager's badge is the manager colour, not the HR one. */
  lemma HrManagerIsManager()
    ensures Contains(ToLower("HR Manager"), "hr")
    ensures RoleBadge("HR Manager") == Violet
  {
    ManagerAnywhere("HR ", "");
    assert "HR " + "Manager" + "" == "HR Manager";
    assert ToLower("HR Manager")[0..2] == "hr";
    ContainsAt(ToLower("HR Manager"), "hr", 0);
  }

  datatype Role = Role(id: nat, name: string, caption: Value)

  /** The role column: "No role" for a missing or empty list, otherwise one badge per role
      showing its label (its name when it has none) in its colour. */
  datatype RoleCell = NoRole | Badges(badges: seq<(string, BadgeColour)>)

  function RolesCell(roles: Option<seq<Role>>): (r: RoleCell)
    ensures r.NoRole? <==> roles.None? || roles.value == []
    ensures r.Badges? ==> |r.badges| == |roles.value|
    ensures r.Badges? ==> forall i :: 0 <= i < |r.badges| ==>
      r.badges[i].1 == RoleBadge(roles.value[i].name) &&
      r.badges[i].0 == (if Truthy(roles.value[i].caption) then ToJsString(roles.value[i].caption) else roles.value[i].name)
  {
    if roles.None? || roles.value == [] then NoRole
    else Badges(seq(|roles.value|, i requires 0 <= i < |roles.value| =>
      (if Truthy(roles.value[i].caption) then ToJsString(roles.value[i].caption) else roles.value[i].name,
       RoleBadge(roles.value[i].name))))
  }

  // ---------------------------------------------------------------------------
  // The user form.

  datatype FormMode = Create | Edit | View

  /** A form's `roles` value: a single role id, or the list a multi-select produces. */
  datatype RolesValue = Single(v: Value) | Many(items: seq<Value>)

  /** `if (roles && Array.isArray(roles)) roles = roles[0]`: a list (even an empty one, which
      is truthy) becomes its first element, `undefined` when empty. */
  function NormalizeRoles(roles: RolesValue): (r: RolesValue)
    ensures r.Single?
    ensures roles.Single? ==> r == roles
    ensures roles.Many? && roles.items != [] ==> r.v == roles.items[0]
    ensures roles.Many? && roles.items == [] ==> r.v == Undefined
  {
    match roles
    case Single(_) => roles
    case Many(items) => Single(if items == [] then Undefined else items[0])
  }

  lemma NormalizeRolesIdempotent(roles: RolesValue)
    ensures NormalizeRoles(NormalizeRoles(roles)) == NormalizeRoles(roles)
  {
  }

  /** The fields of the user form: password and its confirmation only when creating. */
  function FormFields(mode: FormMode): (r: seq<string>)
    ensures "password" in r <==> mode == Create
    ensures "password_confirmation" in r <==> mode == Create
    ensures |r| >= 3 && r[..2] == ["name", "email"] && r[|r| - 1] == "roles"
    ensures |r| == (if mode == Create then 5 else 3)
    ensures mode == Create ==> r[2..4] == ["password", "password_confirmation"]
  {
    ["name", "email"] + (if mode == Create then ["password", "password_confirmation"] else []) + ["roles"]
  }

  /** The data the user form submits: the fields of its mode (the password fields are
      `undefined` outside create mode) and the roles value. */
  datatype UserForm = UserForm(name: Value, email: Value, password: Value, passwordConfirmation: Value, roles: RolesValue)

  /** The request the user form sends: the submitted data, posted to the store route or
      put to the update route of a user. */
  datatype UserRequest =
    | StoreUser(body: UserForm)
    | UpdateUser(userId: nat, body: UserForm)

  /** Submitting the form: create stores, edit updates the current user, view sends nothing.
      The data goes out as submitted except that the roles value is normalised. */
  function SubmitRequest(mode: FormMode, currentId: Option<nat>, form: UserForm): (r: Option<UserRequest>)
    requires mode == Edit ==> currentId.Some?
    ensures r.None? <==> mode == View
    ensures r.Some? ==> r.value.body.roles == NormalizeRoles(form.roles) && r.value.body.roles.Single?
    ensures r.Some? ==> r.value.body.(roles := form.roles) == form
    ensures mode == Create ==> r.Some? && r.value.StoreUser?
    ensures mode == Edit ==> r.Some? && r.value.UpdateUser? && r.value.userId == currentId.value
  {
    var body := form.(roles := NormalizeRoles(form.roles));
    match mode
    case Create => Some(StoreUser(body))
    case Edit => Some(UpdateUser(currentId.value, body))
    case View => None
  }

  /** A create submission carries the name, the email and both password fields as typed. */
  lemma CreateSendsCredentials(form: UserForm)
    ensures var r := SubmitRequest(Create, None, form);
      r.Some? && r.value.body.name == form.name && r.value.body.email == form.email &&
      r.value.body.password == form.password && r.value.body.passwordConfirmation == form.passwordConfirmation
  {
  }

  // ---------------------------------------------------------------------------
  // The page's state.

  datatype User = User(id: nat, name: string, status: string)

  /** A status toggle sent for a user, with the status the page announces. */
  datatype ToggleRequest = ToggleRequest(userId: nat, predicted: string)

  class UsersPage {
    var filters: Filters
    var showFilters: bool
    var currentItem: Option<User>
    var formMode: FormMode
    var formModalOpen: bool
    var deleteModalOpen: bool
    var resetPasswordModalOpen: bool
    const perPage: Value

    constructor (search: Value, role: Value, pageSize: Value)
      ensures filters == InitialFilters(search, role) && perPage == pageSize
      ensures !showFilters && currentItem.None? && formMode == Create
      ensures !formModalOpen && !deleteModalOpen && !resetPasswordModalOpen
    {
      filters := InitialFilters(search, role);
      perPage := pageSize;
      showFilters := false;
      currentItem := None;
      formMode := Create;
      formModalOpen := false;
      deleteModalOpen := false;
      resetPasswordModalOpen := false;
    }

    /** Choosing a role: the role is kept and the list reloads with it. */
    method HandleRoleFilter(role: string) returns (query: map<string, Value>)
      modifies this
      ensures filters == old(filters).(role := role)
      ensures query == FilterQuery(filters, perPage)
      ensures ("role" in query <==> role != AllRoles) && query["page"] == Num(1)
      ensures showFilters == old(showFilters) && currentItem == old(currentItem) && formMode == old(formMode)
      ensures formModalOpen == old(formModalOpen) && deleteModalOpen == old(deleteModalOpen)
      ensures resetPasswordModalOpen == old(resetPasswordModalOpen)
    {
      filters := filters.(role := role);
      query := FilterQuery(filters, perPage);
    }

    /** Reset: every filter cleared, the filter panel closed, the list reloaded. */
    method ResetFilters() returns (query: map<string, Value>)
      modifies this
      ensures filters == Cleared && ActiveFilterCount(filters) == 0 && !showFilters
      ensures query == ResetQuery(perPage)
      ensures currentItem == old(currentItem) && formMode == old(formMode)
      ensures formModalOpen == old(formModalOpen) && deleteModalOpen == old(deleteModalOpen)
      ensures resetPasswordModalOpen == old(resetPasswordModalOpen)
    {
      filters := filters.(role := AllRoles);
      filters := filters.(search := "");
      showFilters := false;
      query := ResetQuery(perPage);
    }

    /** Add User: an empty form in create mode. */
    method HandleAddNew()
      modifies this
      ensures currentItem.None? && formMode == Create && formModalOpen
      ensures filters == old(filters) && showFilters == old(showFilters)
      ensures deleteModalOpen == old(deleteModalOpen) && resetPasswordModalOpen == old(resetPasswordModalOpen)
    {
      currentItem := None;
      formMode := Create;
      formModalOpen := true;
    }

    /** A row action on `item`; toggle-status sends the toggle and announces the status the
        user is expected to get. */
    method HandleAction(action: string, item: User) returns (toggle: Option<ToggleRequest>)
      modifies this
      ensures currentItem == Some(item) && filters == old(filters) && showFilters == old(showFilters)
      ensures formMode == (if action == "view" then View else if action == "edit" then Edit else old(formMode))
      ensures formModalOpen == (action == "view" || action == "edit" || old(formModalOpen))
      ensures deleteModalOpen == (action == "delete" || old(deleteModalOpen))
      ensures resetPasswordModalOpen == (action == "reset-password" || old(resetPasswordModalOpen))
      ensures toggle.Some? <==> action == "toggle-status"
      ensures toggle.Some? ==> toggle.value == ToggleRequest(item.id, ToggledStatus(item.status))
    {
      currentItem := Some(item);
      toggle := None;
      if action == "view" {
        formMode := View;
        formModalOpen := true;
      } else if action == "edit" {
        formMode := Edit;
        formModalOpen := true;
      } else if action == "delete" {
        deleteModalOpen := true;
      } else if action == "reset-password" {
        resetPasswordModalOpen := true;
      } else if action == "toggle-status" {
        toggle := Some(ToggleRequest(item.id, ToggledStatus(item.status)));
      }
    }

    /** Submit the user form in the current mode; once the server accepts the request
        (`succeeded`) the form dialog closes. */
    method SubmitForm(form: UserForm, succeeded: bool) returns (request: Option<UserRequest>)
      requires formMode == Edit ==> currentItem.Some?
      modifies this
      ensures filters == old(filters) && showFilters == old(showFilters) && currentItem == old(currentItem)
      ensures formMode == old(formMode) && deleteModalOpen == old(deleteModalOpen)
      ensures resetPasswordModalOpen == old(resetPasswordModalOpen)
      ensures request == SubmitRequest(formMode, if currentItem.Some? then Some(currentItem.value.id) else None, form)
      ensures request.Some? ==> request.value.body.roles.Single?
      ensures formModalOpen == (old(formModalOpen) && !(request.Some? && succeeded))
    {
      var id := if currentItem.Some? then Some(currentItem.value.id) else None;
      request := SubmitRequest(formMode, id, form);
      if request.Some? && succeeded {
        formModalOpen := false;
      }
    }
  }
}
