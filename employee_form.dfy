/** The employee create and edit forms: the form state as a dictionary of field values,
    the per-field validation errors, the change handler (which also resets the position
    when the department changes), the positions offered for the chosen department, the
    generated employee id of the create form, and the multipart payload sent on submit. */
module EmployeeForm {
  import opened Wrappers
  import opened JsValues

  /** `obj[k]`: a missing key reads `undefined`. */
  function Get(m: map<string, Value>, k: string): Value {
    if k in m then m[k] else Undefined
  }

  // ---------------------------------------------------------------------------
  // Initial state.

  /** The fields of the create form (one field, `password`, only there). */
  const CreateFields: set<string> := {
    "name", "employee_id", "biometric_emp_id", "employee_status", "gender", "blood_group",
    "department_id", "designation_id", "branch_id", "salary", "shift_id", "attendance_policy_id",
    "password", "process", "date_of_birth", "date_of_joining", "date_of_exit", "personal_email",
    "email", "phone", "emergency_contact_name", "emergency_contact_number", "qualification",
    "address_line_1", "adhar_no", "pan_no", "uan", "account_number", "bank_identifier_code"
  }

  /** The fields of the edit form. */
  const EditFields: set<string> := {
    "name", "employee_id", "biometric_emp_id", "email", "personal_email", "date_of_birth",
    "gender", "blood_group", "qualification", "employee_status", "department_id",
    "designation_id", "process", "date_of_joining", "date_of_exit", "phone", "address_line_1",
    "emergency_contact_name", "emergency_contact_number", "adhar_no", "pan_no", "uan",
    "account_number", "bank_identifier_code", "branch_id", "salary", "shift_id",
    "attendance_policy_id"
  }

  /** Fields holding the id of a related record, kept in the form as strings. */
  const IdFields: set<string> := {"department_id", "designation_id", "branch_id", "shift_id", "attendance_policy_id"}

  /** Fields the edit form takes from the user account rather than the employee record. */
  const UserFields: set<string> := {"name", "email"}

  /** The create form's initial value of a field: status `active`, joining date today,
      everything else empty. */
  function CreateValue(k: string, today: string): Value {
    if k == "employee_status" then Str("active")
    else if k == "date_of_joining" then Str(today)
    else Str("")
  }

  function CreateDefaults(today: string): (f: map<string, Value>)
    ensures f.Keys == CreateFields
  {
    map k | k in CreateFields :: CreateValue(k, today)
  }

  /** The record value an edit-form field starts from: the user's for name and email, the
      employee's base salary for salary, the employee's own field otherwise; `undefined`
      when the user has no employee record. */
  function SourceValue(k: string, user: map<string, Value>, employee: Option<map<string, Value>>): Value {
    if k in UserFields then Get(user, k)
    else if employee.None? then Undefined
    else if k == "salary" then Get(employee.value, "base_salary")
    else Get(employee.value, k)
  }

  /** The edit form's initial value of a field: ids as strings, status defaulting to
      `active`, everything else the record's value or empty. */
  function EditValue(k: string, user: map<string, Value>, employee: Option<map<string, Value>>): Value {
    var v := SourceValue(k, user, employee);
    if k in IdFields then (if Truthy(v) then Str(ToJsString(v)) else Str(""))
    else if k == "employee_status" then Or(v, Str("active"))
    else Or(v, Str(""))
  }

  function EditDefaults(user: map<string, Value>, employee: Option<map<string, Value>>): (f: map<string, Value>)
    ensures f.Keys == EditFields
  {
    map k | k in EditFields :: EditValue(k, user, employee)
  }

  /** The create form starts with status `active`, the given day as joining date, an empty
      string in every other field. */
  lemma CreateDefaultsFacts(today: string)
    ensures var f := CreateDefaults(today);
      f["employee_status"] == Str("active") && f["date_of_joining"] == Str(today) &&
      forall k :: k in f && k != "employee_status" && k != "date_of_joining" ==> f[k] == Str("")
  {
  }

  /** An edit-form field whose record value is missing or falsy starts empty, except the
      status, which starts `active`; a present value is kept, an id in its string form. */
  lemma EditDefaultsFacts(user: map<string, Value>, employee: Option<map<string, Value>>, k: string)
    requires k in EditFields
    ensures var f, v := EditDefaults(user, employee), SourceValue(k, user, employee);
      (!Truthy(v) ==> f[k] == if k == "employee_status" then Str("active") else Str("")) &&
      (Truthy(v) && k in IdFields ==> f[k] == Str(ToJsString(v))) &&
      (Truthy(v) && k !in IdFields ==> f[k] == v)
  {
    assert EditDefaults(user, employee)[k] == EditValue(k, user, employee);
    EditValueFacts(k, SourceValue(k, user, employee));
  }

  /** The value conversions of `EditValue`, on the record value `v` of field `k`. */
  lemma EditValueFacts(k: string, v: Value)
    ensures !Truthy(v) && k in IdFields ==> Str("") == (if k == "employee_status" then Str("active") else Str(""))
    ensures !Truthy(v) && k !in IdFields && k == "employee_status" ==> Or(v, Str("active")) == Str("active")
    ensures !Truthy(v) && k !in IdFields && k != "employee_status" ==> Or(v, Str("")) == Str("")
    ensures Truthy(v) && k !in IdFields ==> Or(v, Str("active")) == v && Or(v, Str("")) == v
  {
  }

  /** Without an employee record every edit field but name, email and status is empty. */
  lemma EditWithoutEmployee(user: map<string, Value>)
    ensures var f := EditDefaults(user, None);
      f["employee_status"] == Str("active") &&
      forall k :: k in f && k !in UserFields && k != "employee_status" ==> f[k] == Str("")
  {
  }

  // ---------------------------------------------------------------------------
  // Changing a field.

  /** The form after `handleChange(name, value)`: the field set and, for the department,
      the position cleared. */
  function Changed(f: map<string, Value>, name: string, value: Value): (r: map<string, Value>)
    ensures name != "department_id" ==> r.Keys == f.Keys + {name}
    ensures name == "department_id" ==> r.Keys == f.Keys + {name, "designation_id"}
    ensures name != "department_id" ==> r[name] == value
    ensures name == "department_id" ==> r[name] == value && r["designation_id"] == Str("")
    ensures forall k :: k in f && k != name && !(name == "department_id" && k == "designation_id") ==> r[k] == f[k]
  {
    var set1 := f[name := value];
    if name == "department_id" then set1["department_id" := value]["designation_id" := Str("")] else set1
  }

  /** The errors after `handleChange(name, ...)`: that field's message dropped when it has
      one; an empty message, being falsy, stays. */
  function ClearedErrors(errors: map<string, string>, name: string): (r: map<string, string>)
    ensures name !in r || (name in errors && errors[name] == "" && r[name] == "")
    ensures forall k :: k != name ==> (k in r <==> k in errors)
    ensures forall k :: k in r && k != name ==> r[k] == errors[k]
  {
    if name in errors && errors[name] != "" then errors - {name} else errors
  }

  /** Two changes to different ordinary fields commute. */
  lemma ChangesCommute(f: map<string, Value>, a: string, va: Value, b: string, vb: Value)
    requires a != b && a != "department_id" && b != "department_id"
    ensures Changed(Changed(f, a, va), b, vb) == Changed(Changed(f, b, vb), a, va)
  {
  }

  /** Choosing a position after a department keeps both; choosing a department after a
      position clears the position. */
  lemma DepartmentThenPosition(f: map<string, Value>, dept: Value, pos: Value)
    ensures var r := Changed(Changed(f, "department_id", dept), "designation_id", pos);
            r["department_id"] == dept && r["designation_id"] == pos
    ensures var r := Changed(Changed(f, "designation_id", pos), "department_id", dept);
            r["department_id"] == dept && r["designation_id"] == Str("")
  {
  }

  // ---------------------------------------------------------------------------
  // Positions for the chosen department.

  datatype Designation = Designation(id: Value, departmentId: Value, name: string)

  /** `String(d.department_id) === String(department)`: ids compare as strings. */
  predicate OfDepartment(d: Designation, department: Value) {
    ToJsString(d.departmentId) == ToJsString(department)
  }

  /** `designations.filter(d => String(d.department_id) === String(department))`. */
  function InDepartment(designations: seq<Designation>, department: Value): (r: seq<Designation>)
    ensures |r| <= |designations|
  {
    if designations == [] then []
    else
      (if OfDepartment(designations[0], department) then [designations[0]] else [])
      + InDepartment(designations[1..], department)
  }

  /** The filter keeps exactly the positions of the department. */
  lemma {:induction false} InDepartmentMembers(designations: seq<Designation>, department: Value)
    ensures forall d :: d in InDepartment(designations, department) <==> d in designations && OfDepartment(d, department)
  {
    if designations != [] {
      InDepartmentMembers(designations[1..], department);
      assert designations == [designations[0]] + designations[1..];
    }
  }

  /** The positions offered: those of the chosen department, or all of them when none is
      chosen; none when the page received no list. */
  function FilteredDesignations(designations: Option<seq<Designation>>, department: Value): (r: seq<Designation>)
    ensures designations.None? ==> r == []
    ensures designations.Some? && !Truthy(department) ==> r == designations.value
    ensures designations.Some? && Truthy(department) ==>
      forall d :: d in r <==> d in designations.value && OfDepartment(d, department)
  {
    match designations
    case None => []
    case Some(ds) => if Truthy(department) then InDepartmentMembers(ds, department); InDepartment(ds, department) else ds
  }

  /** Filtering twice is filtering once. */
  lemma {:induction false} InDepartmentIdempotent(designations: seq<Designation>, department: Value)
    ensures InDepartment(InDepartment(designations, department), department) == InDepartment(designations, department)
  {
    if designations != [] {
      var rest := InDepartment(designations[1..], department);
      InDepartmentIdempotent(designations[1..], department);
      if OfDepartment(designations[0], department) {
        var kept := [designations[0]] + rest;
        assert InDepartment(designations, department) == kept;
        assert kept[0] == designations[0] && kept[1..] == rest;
      } else {
        assert InDepartment(designations, department) == rest;
      }
    }
  }

  /** The position select is disabled while no department is chosen. */
  predicate DesignationLocked(f: map<string, Value>) {
    !Truthy(Get(f, "department_id"))
  }

  /** A form opens with the position locked on create; choosing a department unlocks the
      position exactly for a real choice, and either way leaves it empty to be chosen. */
  lemma DepartmentGatesPosition(f: map<string, Value>, today: string, dept: Value)
    ensures DesignationLocked(CreateDefaults(today))
    ensures var r := Changed(f, "department_id", dept);
      (DesignationLocked(r) <==> !Truthy(dept)) && r["designation_id"] == Str("")
  {
    assert CreateDefaults(today)["department_id"] == Str("");
  }

  // ---------------------------------------------------------------------------
  // Submitting.

  /** The fields worth sending: every field whose value is not null, undefined or ''. */
  function NonEmptyFields(f: map<string, Value>): (r: map<string, Value>)
    ensures forall k :: k in r <==> k in f && Present(f[k])
    ensures forall k :: k in r ==> r[k] == f[k]
  {
    map k | k in f && Present(f[k]) :: f[k]
  }

  /** The multipart payload: on the edit form the `_method=PUT` override first, then the
      fields worth sending, a later entry under the same name winning on the server. */
  function Payload(f: map<string, Value>, editing: bool): map<string, Value> {
    (if editing then map["_method" := Str("PUT")] else map[]) + NonEmptyFields(f)
  }

  /** What the payload holds: the method override exactly on the edit form (unless a field
      of that name overrides it), and each field exactly when it is not empty, with its
      value; so nothing empty is ever sent. */
  lemma PayloadContents(f: map<string, Value>, editing: bool)
    ensures var p := Payload(f, editing);
      (forall k :: k in p <==> (editing && k == "_method") || (k in f && Present(f[k]))) &&
      (forall k :: k in f && Present(f[k]) ==> p[k] == f[k]) &&
      (editing && ("_method" !in f || !Present(f["_method"])) ==> p["_method"] == Str("PUT")) &&
      (forall k :: k in p ==> Present(p[k]))
  {
  }

  /** A form that is all defaults sends the status (and on create the joining date) only. */
  lemma FreshCreateSends(today: string)
    requires today != ""
    ensures Payload(CreateDefaults(today), false) ==
      map["employee_status" := Str("active"), "date_of_joining" := Str(today)]
  {
    var f := CreateDefaults(today);
    var p := Payload(f, false);
    var expected := map["employee_status" := Str("active"), "date_of_joining" := Str(today)];
    PayloadContents(f, false);
    assert p.Keys == expected.Keys;
  }

  // ---------------------------------------------------------------------------
  // The form as the page holds it.

  class EmployeeFormState {
    var formData: map<string, Value>
    var errors: map<string, string>
    /** The edit page (true) or the create page (false). */
    const editing: bool

    constructor ForCreate(today: string)
      ensures formData == CreateDefaults(today) && errors == map[] && !editing
    {
      formData := CreateDefaults(today);
      errors := map[];
      editing := false;
    }

    constructor ForEdit(user: map<string, Value>, employee: Option<map<string, Value>>)
      ensures formData == EditDefaults(user, employee) && errors == map[] && editing
    {
      formData := EditDefaults(user, employee);
      errors := map[];
      editing := true;
    }

    /** Record the server's validation messages. */
    method SetErrors(messages: map<string, string>)
      modifies this
      ensures errors == messages && formData == old(formData)
    {
      errors := messages;
    }

    /** `handleChange(name, value)`. */
    method HandleChange(name: string, value: Value)
      modifies this
      ensures formData == Changed(old(formData), name, value)
      ensures errors == ClearedErrors(old(errors), name)
    {
      formData := formData[name := value];
      if name in errors && errors[name] != "" {
        errors := errors - {name};
      }
      if name == "department_id" {
        formData := formData["department_id" := value]["designation_id" := Str("")];
      }
    }

    /** The create page's effect run with the server's generated id: an empty employee id
        becomes the generated one, and so does the biometric id; otherwise nothing changes. */
    method ApplyGeneratedId(generated: Value)
      requires !editing
      modifies this
      ensures Truthy(generated) && !Truthy(Get(old(formData), "employee_id")) ==>
        formData == old(formData)["employee_id" := generated]["biometric_emp_id" := generated] &&
        formData["employee_id"] == formData["biometric_emp_id"] == generated
      ensures !(Truthy(generated) && !Truthy(Get(old(formData), "employee_id"))) ==> formData == old(formData)
      ensures errors == old(errors)
    {
      if Truthy(generated) && !Truthy(Get(formData, "employee_id")) {
        formData := formData["employee_id" := generated]["biometric_emp_id" := generated];
      }
    }

    /** Build the multipart payload, field by field as `Object.entries(...).forEach` does. */
    method Submit() returns (payload: map<string, Value>)
      ensures payload == Payload(formData, editing)
    {
      var base: map<string, Value> := if editing then map["_method" := Str("PUT")] else map[];
      payload := base;
      var todo := formData.Keys;
      ghost var done: set<string> := {};
      while todo != {}
        invariant todo + done == formData.Keys && todo !! done
        invariant payload == base + SentAmong(formData, done)
        decreases |todo|
      {
        var k :| k in todo;
        SentAmongStep(formData, done, k);
        if Present(formData[k]) {
          OverrideThenSet(base, SentAmong(formData, done), k, formData[k]);
          payload := payload[k := formData[k]];
        }
        todo := todo - {k};
        done := done + {k};
      }
      SentAmongAll(formData, done);
    }
  }

  /** The fields among `done` worth sending. */
  ghost function SentAmong(f: map<string, Value>, done: set<string>): map<string, Value> {
    map k | k in done && k in f && Present(f[k]) :: f[k]
  }

  lemma SentAmongStep(f: map<string, Value>, done: set<string>, k: string)
    requires k in f
    ensures SentAmong(f, done + {k}) == if Present(f[k]) then SentAmong(f, done)[k := f[k]] else SentAmong(f, done)
  {
  }

  lemma SentAmongAll(f: map<string, Value>, done: set<string>)
    requires done == f.Keys
    ensures SentAmong(f, done) == NonEmptyFields(f)
  {
  }

  lemma OverrideThenSet(base: map<string, Value>, m: map<string, Value>, k: string, v: Value)
    ensures base + m[k := v] == (base + m)[k := v]
  {
  }
}
