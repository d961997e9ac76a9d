/** The "Add New Employee" screen: a department choice narrows the designation selector,
    the three special designations reveal one extra field, and submitting creates the
    employee and then, for a special designation, its Driver, Accountant or Supervisor
    record. */
module AddEmployee {
  import opened Common
  import opened JsText
  import opened Designations
  import opened EmployeeRecords

  /** The form's `formData`: the base fields and the three special-field values. */
  datatype Draft = Draft(base: EmployeeFields, licenseNo: string, domain: string, officeNo: string)
  {
    /** The value of the field that belongs to subtype `t`. */
    function Special(t: Subtype): string {
      match t
      case Driver => licenseNo
      case Accountant => domain
      case Supervisor => officeNo
    }

    function PutSpecial(t: Subtype, v: string): (r: Draft)
      ensures r.Special(t) == v && r.base == base
      ensures forall u :: u != t ==> r.Special(u) == Special(u)
    {
      match t
      case Driver => this.(licenseNo := v)
      case Accountant => this.(domain := v)
      case Supervisor => this.(officeNo := v)
    }
  }

  const InitialDraft := Draft(BlankFields, "", "", "")

  /** The `name` of the input whose change reaches `handleChange`: the department
      selector (`dept_id`), a base input, or a special input (`licenseNo`, `domain`,
      `officeNo`). */
  datatype InputName = DeptSelect | BaseInput(field: BaseField) | SpecialInput(kind: Subtype)

  /** The state `handleChange` works on. */
  datatype FormState = FormState(formData: Draft, availableDesignations: seq<string>, showSpecialFields: bool)

  const InitialState := FormState(InitialDraft, [], false)

  /** The designations offered after the department selector changed to `value`: the
      catalog entry of the first fetched department whose id is `parseInt(value)`, and
      the empty list when there is none or its name is not in the catalog. */
  function DesignationsForValue(departments: seq<Department>, value: string): seq<string> {
    match FindDept(departments, ParseInt(value))
    case Some(d) => CatalogEntry(d)
    case None => []
  }

  /** `handleChange` as a transition of the form state. */
  function Changed(s: FormState, departments: seq<Department>, name: InputName, value: string): FormState {
    match name
    case DeptSelect =>
      s.(formData := s.formData.(base := SelectDepartment(s.formData.base, value)),
         availableDesignations := DesignationsForValue(departments, value))
    case BaseInput(f) =>
      var s' := s.(formData := s.formData.(base := s.formData.base.Put(f, value)));
      if f == Designation then s'.(showSpecialFields := SubtypeOf(value).Some?) else s'
    case SpecialInput(t) =>
      s.(formData := s.formData.PutSpecial(t, value))
  }

  /** `renderSpecialFields`: the subtype whose input is on screen, if any. */
  function RenderedSpecialField(s: FormState): Option<Subtype> {
    if s.showSpecialFields then SubtypeOf(s.formData.base.designation) else None
  }

  /** Holds in every reachable state: a special designation always has its field shown.
      (The flag may stay on while the designation is not special.) */
  predicate Consistent(s: FormState) {
    SubtypeOf(s.formData.base.designation).Some? ==> s.showSpecialFields
  }

  /** A department change stores the parsed id and clears the designation; every other
      base field, the three special values and the special-field flag are left as they were. */
  lemma DeptChangeKeepsOtherFields(s: FormState, departments: seq<Department>, value: string)
    ensures var r := Changed(s, departments, DeptSelect, value);
      && r.formData.base.deptId == ParseDeptValue(value)
      && r.formData.base.designation == ""
      && (forall g :: g != Designation ==> r.formData.base.Get(g) == s.formData.base.Get(g))
      && (forall t :: r.formData.Special(t) == s.formData.Special(t))
      && r.showSpecialFields == s.showSpecialFields
  {
    var r := Changed(s, departments, DeptSelect, value);
    assert r.formData == s.formData.(base := SelectDepartment(s.formData.base, value));
  }

  /** After a department change the offered designations are the catalog entry of the
      matched department, and empty when no department matches or its name is unknown. */
  lemma DeptChangeDesignations(s: FormState, departments: seq<Department>, value: string)
    ensures var r := Changed(s, departments, DeptSelect, value);
      var found := FindDept(departments, ParseInt(value));
      && (found.None? ==> r.availableDesignations == [])
      && (found.Some? && found.value.name !in Catalog ==> r.availableDesignations == [])
      && (found.Some? && found.value.name in Catalog ==> r.availableDesignations == Catalog[found.value.name])
  {
  }

  /** Choosing a department's option offers exactly that department's catalog entry
      (the fetched department ids being unique). */
  lemma ChoosingDepartment(s: FormState, departments: seq<Department>, d: Department)
    requires UniqueIds(departments) && d in departments
    ensures var r := Changed(s, departments, DeptSelect, OptionValue(d));
      r.formData.base.deptId == Num(d.deptId) && r.availableDesignations == CatalogEntry(d)
  {
    ParseOptionValue(d);
    ParseIntOfIntToString(d.deptId);
    FindDeptById(departments, d);
  }

  /** Choosing an option whose value `parseInt` reads as `NaN` stores `NaN` and offers
      nothing. The "Select Department" option is one: its value is "" (`ParseIntOfNonNumbers`). */
  lemma ChoosingNoDepartment(s: FormState, departments: seq<Department>, value: string)
    requires ParseInt(value) == None
    ensures var r := Changed(s, departments, DeptSelect, value);
      r.formData.base.deptId == NaN && r.availableDesignations == []
  {
  }

  /** Choosing a designation turns the special-field flag on exactly for the three exact
      names "Driver", "Accountant" and "Supervisor". */
  lemma DesignationSetsFlag(s: FormState, departments: seq<Department>, value: string)
    ensures var r := Changed(s, departments, BaseInput(Designation), value);
      && r.formData.base.designation == value
      && (r.showSpecialFields <==> value == "Driver" || value == "Accountant" || value == "Supervisor")
  {
  }

  /** Every change keeps a special designation's field shown. */
  lemma ChangePreservesConsistent(s: FormState, departments: seq<Department>, name: InputName, value: string)
    requires Consistent(s)
    ensures Consistent(Changed(s, departments, name, value))
  {
  }

  /** In a reachable state the field on screen is exactly the one whose value a submit
      sends: the field of the designation's subtype, and none for any other designation. */
  lemma RenderedFieldIsSubmittedField(s: FormState)
    requires Consistent(s)
    ensures RenderedSpecialField(s) == SubtypeOf(s.formData.base.designation)
  {
  }

  /** Right after a department change no special field is on screen. */
  lemma NoSpecialFieldAfterDeptChange(s: FormState, departments: seq<Department>, value: string)
    ensures RenderedSpecialField(Changed(s, departments, DeptSelect, value)) == None
  {
  }

  /** The body of `POST /api/employees`. */
  datatype EmployeePayload = EmployeePayload(
    firstName: string, lastName: string, dateOfBirth: string, cnic: string, email: string,
    designation: string, address: string, gender: string, deptId: Option<int>,
    absences: int, leaves: int)

  /** The body of the subtype create: `{ employee: { employee_id }, <field>: value }`,
      where the field is `licenseNo`, `domain` or `officeNo` according to `kind`. */
  datatype SubtypePayload = SubtypePayload(employeeId: int, kind: Subtype, value: string)

  datatype Payload = NewEmployee(employee: EmployeePayload) | NewSubtype(record: SubtypePayload)

  /** The `employeeData` object built by `handleSubmit`. Its department id is
      `parseInt(formData.department.dept_id)`, which is the number the stored value
      denotes (`ReparsedDeptIdOfValue`). */
  function EmployeePayloadOf(d: Draft): (p: EmployeePayload)
    ensures p.absences == 0 && p.leaves == 21
    ensures |p.gender| == |d.base.gender| && HasNoUpper(p.gender)
  {
    var b := d.base;
    EmployeePayload(b.firstName, b.lastName, b.dateOfBirth, b.cnic, b.email, b.designation,
                    b.address, ToLower(b.gender), DeptIdOf(b.deptId), 0, 21)
  }

  /** The payload copies the base fields, sends the stored department id as an integer
      (`NaN` when none was chosen), and leaves a lower-case gender such as "male" as it is. */
  lemma EmployeePayloadCopies(d: Draft)
    ensures var p := EmployeePayloadOf(d);
      && p.firstName == d.base.firstName && p.lastName == d.base.lastName
      && p.dateOfBirth == d.base.dateOfBirth && p.cnic == d.base.cnic && p.email == d.base.email
      && p.designation == d.base.designation && p.address == d.base.address
      && p.deptId == ReparsedDeptId(d.base.deptId)
      && p.deptId == (if d.base.deptId.Num? then Some(d.base.deptId.n) else None)
      && (HasNoUpper(d.base.gender) ==> p.gender == d.base.gender)
  {
    ReparsedDeptIdOfValue(d.base.deptId);
    if HasNoUpper(d.base.gender) {
      ToLowerKeepsLower(d.base.gender);
    }
  }

  /** The endpoint that creates each subtype record. */
  function Endpoint(t: Subtype): string {
    match t
    case Driver => "/api/drivers"
    case Accountant => "/api/accountants"
    case Supervisor => "/api/supervisors"
  }

  const SuccessText := "Employee added successfully!"
  const ErrorPrefix := "Error adding employee"
  const EmployeeListPath := "/hr/employees"

  /** The alert shown when a create fails: the server's response data when it sent a
      non-empty one, otherwise a generic message. */
  function ErrorText(errorData: Option<string>): string {
    ErrorPrefix +
    if errorData.Some? && errorData.value != "" then ": " + errorData.value
    else ". Please check your input."
  }

  function BaseCreate(d: Draft): Request<Payload> {
    Request(Post, "/api/employees", Some(NewEmployee(EmployeePayloadOf(d))))
  }

  function SubtypeCreate(d: Draft, employeeId: int, t: Subtype): Request<Payload> {
    Request(Post, Endpoint(t), Some(NewSubtype(SubtypePayload(employeeId, t, d.Special(t)))))
  }

  /** How a submit ends after its last request: the success alert and the navigation to
      the employee list, or the error alert. */
  function Finished<T>(last: Response<T>): seq<Effect<Payload>> {
    if last.Ok? then [Alert(SuccessText), Navigate(EmployeeListPath)] else [Alert(ErrorText(last.errorData))]
  }

  /** `handleSubmit`: the effects of one submit, given the outcome of the employee create
      (the new `employee_id` on success) and of the subtype create, if one is made. */
  function Submitted(d: Draft, created: Response<int>, subtypeCreated: Response<()>): seq<Effect<Payload>> {
    [Send(BaseCreate(d))] +
    match created
    case Failed(_) => Finished(created)
    case Ok(id) =>
      match SubtypeOf(d.base.designation)
      case None => Finished(created)
      case Some(t) => [Send(SubtypeCreate(d, id, t))] + Finished(subtypeCreated)
  }

  /** The alerts and the navigation that end a submit issue no request. */
  lemma FinishedSendsNothing<T>(last: Response<T>)
    ensures Requests(Finished(last)) == []
  {
    var f := Finished(last);
    assert !f[0].Send? && Requests(f) == Requests(f[1..]);
    if last.Ok? {
      assert !f[1].Send? && Requests(f[1..]) == Requests(f[2..]);
    }
  }

  /** The employee create is issued first; a subtype create follows only when that
      succeeded and the designation is exactly one of the three special names, and it
      carries the returned `employee_id` and only the value of that subtype's field. */
  lemma SubmitRequests(d: Draft, created: Response<int>, subtypeCreated: Response<()>)
    ensures Requests(Submitted(d, created, subtypeCreated)) ==
      [BaseCreate(d)] +
      (if created.Ok? && SubtypeOf(d.base.designation).Some?
       then [SubtypeCreate(d, created.data, SubtypeOf(d.base.designation).value)]
       else [])
  {
    var first := BaseCreate(d);
    var kind := SubtypeOf(d.base.designation);
    if created.Ok? && kind.Some? {
      var second := SubtypeCreate(d, created.data, kind.value);
      assert Submitted(d, created, subtypeCreated) == [Send(first)] + ([Send(second)] + Finished(subtypeCreated));
      RequestsOfSend(first, [Send(second)] + Finished(subtypeCreated));
      RequestsOfSend(second, Finished(subtypeCreated));
      FinishedSendsNothing(subtypeCreated);
    } else {
      assert Submitted(d, created, subtypeCreated) == [Send(first)] + Finished(created);
      RequestsOfSend(first, Finished(created));
      FinishedSendsNothing(created);
    }
  }

  /** No error alert reads like the success alert. */
  lemma ErrorTextIsNotSuccess(errorData: Option<string>)
    ensures ErrorText(errorData) != SuccessText
  {
    assert SuccessText[1] == 'm' && ErrorPrefix[1] == 'r';
    assert ErrorText(errorData)[1] == ErrorPrefix[1];
  }

  /** Whether every request a submit issues succeeds. */
  predicate AllCreated(d: Draft, created: Response<int>, subtypeCreated: Response<()>) {
    created.Ok? && (SubtypeOf(d.base.designation).Some? ==> subtypeCreated.Ok?)
  }

  /** When every issued request succeeded the submit ends with the success alert followed
      by the navigation to the employee list. */
  lemma SubmitSucceeds(d: Draft, created: Response<int>, subtypeCreated: Response<()>)
    requires AllCreated(d, created, subtypeCreated)
    ensures var effects := Submitted(d, created, subtypeCreated);
      |effects| >= 3 && effects[|effects| - 2..] == [Alert(SuccessText), Navigate(EmployeeListPath)]
  {
  }

  /** The effects of a submit whose subtype create failed, written out. */
  lemma SubtypeFailureEffects(d: Draft, id: int, t: Subtype, errorData: Option<string>)
    requires SubtypeOf(d.base.designation) == Some(t)
    ensures Submitted(d, Ok(id), Failed(errorData)) ==
      [Send(BaseCreate(d)), Send(SubtypeCreate(d, id, t))] + [Alert(ErrorText(errorData))]
  {
    assert Submitted(d, Ok(id), Failed(errorData)) ==
      [Send(BaseCreate(d))] + ([Send(SubtypeCreate(d, id, t))] + [Alert(ErrorText(errorData))]);
  }

  /** When a create fails the submit ends with an error alert, shows no success alert and
      does not leave the page; nothing created before the failure is deleted, since every
      request the submit issues is a POST. */
  lemma SubmitFails(d: Draft, created: Response<int>, subtypeCreated: Response<()>)
    requires !AllCreated(d, created, subtypeCreated)
    ensures var effects := Submitted(d, created, subtypeCreated);
      && effects[|effects| - 1].Alert? && effects[|effects| - 1].text != SuccessText
      && Alert(SuccessText) !in effects
      && Navigate(EmployeeListPath) !in effects
  {
    var first := Send(BaseCreate(d));
    if created.Failed? {
      var e := created.errorData;
      ErrorTextIsNotSuccess(e);
      assert Submitted(d, created, subtypeCreated) == [first] + [Alert(ErrorText(e))];
      AlertAfterSends([first], ErrorText(e), SuccessText, EmployeeListPath);
    } else {
      var t := SubtypeOf(d.base.designation).value;
      var e := subtypeCreated.errorData;
      assert created == Ok(created.data) && subtypeCreated == Failed(e);
      SubtypeFailureEffects(d, created.data, t, e);
      ErrorTextIsNotSuccess(e);
      AlertAfterSends([first, Send(SubtypeCreate(d, created.data, t))], ErrorText(e), SuccessText, EmployeeListPath);
    }
  }

  /** Every request of a submit is a POST. */
  lemma SubmitOnlyPosts(d: Draft, created: Response<int>, subtypeCreated: Response<()>)
    ensures forall r :: r in Requests(Submitted(d, created, subtypeCreated)) ==> r.verb == Post
  {
    SubmitRequests(d, created, subtypeCreated);
  }

  /** The Logistics walk-through, first step: choosing Logistics offers exactly its three
      designations, "Driver" first. */
  lemma LogisticsScenario(departments: seq<Department>, logistics: Department)
    requires UniqueIds(departments) && logistics in departments && logistics.name == "Logistics"
    ensures var s1 := Changed(InitialState, departments, DeptSelect, OptionValue(logistics));
      && s1.formData.base.deptId == Num(logistics.deptId)
      && s1.availableDesignations == ["Driver", "Delivery Supervisor", "Vehicle Maintenance Coordinator"]
  {
    ChoosingDepartment(InitialState, departments, logistics);
  }

  /** The Logistics walk-through, second step: choosing "Driver" shows the license-number
      field, and a successful submit posts the employee and then a driver record with the
      returned id and the entered license number. */
  lemma DriverScenario(s: FormState, departments: seq<Department>, id: int)
    ensures var s2 := Changed(s, departments, BaseInput(Designation), "Driver");
      var s3 := Changed(s2, departments, SpecialInput(Driver), "LIC-001");
      && RenderedSpecialField(s2) == Some(Driver)
      && Requests(Submitted(s3.formData, Ok(id), Ok(()))) ==
         [BaseCreate(s3.formData),
          Request(Post, "/api/drivers", Some(NewSubtype(SubtypePayload(id, Driver, "LIC-001"))))]
  {
    var s2 := Changed(s, departments, BaseInput(Designation), "Driver");
    var s3 := Changed(s2, departments, SpecialInput(Driver), "LIC-001");
    var d := s3.formData;
    assert SubtypeOf(d.base.designation) == Some(Driver) && d.Special(Driver) == "LIC-001";
    assert SubtypeCreate(d, id, Driver) ==
           Request(Post, "/api/drivers", Some(NewSubtype(SubtypePayload(id, Driver, "LIC-001"))));
    SubmitRequests(d, Ok(id), Ok(()));
  }

  /** The Warehouse/"Inventory Supervisor" walk-through: no special field is shown and a
      submit issues the employee create alone. */
  lemma InventorySupervisorScenario(s: FormState, departments: seq<Department>, id: int, any: Response<()>)
    ensures var s1 := Changed(s, departments, BaseInput(Designation), "Inventory Supervisor");
      && RenderedSpecialField(s1) == None
      && Requests(Submitted(s1.formData, Ok(id), any)) == [BaseCreate(s1.formData)]
  {
    var s1 := Changed(s, departments, BaseInput(Designation), "Inventory Supervisor");
    LookAlikesSelectNothing();
    assert SubtypeOf(s1.formData.base.designation) == None;
    SubmitRequests(s1.formData, Ok(id), any);
  }

  /** The component: its `useState` variables, and a log of what it made visible outside. */
  class AddEmployeeForm {
    var formData: Draft
    var departments: seq<Department>
    var availableDesignations: seq<string>
    var showSpecialFields: bool
    ghost var effects: seq<Effect<Payload>>

    function Snapshot(): FormState
      reads this`formData, this`availableDesignations, this`showSpecialFields
    {
      FormState(formData, availableDesignations, showSpecialFields)
    }

    ghost predicate Valid()
      reads this`formData, this`availableDesignations, this`showSpecialFields
    {
      Consistent(Snapshot())
    }

    constructor ()
      ensures Valid() && Snapshot() == InitialState
      ensures departments == [] && effects == []
    {
      formData := InitialDraft;
      departments := [];
      availableDesignations := [];
      showSpecialFields := false;
      effects := [];
    }

    /** The mount effect: `GET /api/departments`; a failure is only logged to the console. */
    method LoadDepartments(response: Response<seq<Department>>)
      requires Valid()
      modifies this
      ensures Valid() && Snapshot() == old(Snapshot())
      ensures departments == (if response.Ok? then response.data else old(departments))
      ensures effects == old(effects) + [Send(Request(Get, "/api/departments", None))]
    {
      effects := effects + [Send(Request(Get, "/api/departments", None))];
      if response.Ok? {
        departments := response.data;
      }
    }

    method HandleChange(name: InputName, value: string)
      requires Valid()
      modifies this
      ensures Valid()
      ensures Snapshot() == Changed(old(Snapshot()), departments, name, value)
      ensures departments == old(departments) && effects == old(effects)
    {
      match name
      case DeptSelect =>
        formData := formData.(base := SelectDepartment(formData.base, value));
        var selected := FindDept(departments, ParseInt(value));
        if selected.Some? {
          var designations := DesignationsOf(selected.value.name);
          if designations.Some? {
            availableDesignations := designations.value;
          } else {
            availableDesignations := [];
          }
        } else {
          availableDesignations := [];
        }
      case BaseInput(f) =>
        formData := formData.(base := formData.base.Put(f, value));
        if f == Designation {
          showSpecialFields := value == "Driver" || value == "Accountant" || value == "Supervisor";
        }
      case SpecialInput(t) =>
        formData := formData.PutSpecial(t, value);
    }

    method HandleSubmit(created: Response<int>, subtypeCreated: Response<()>)
      requires Valid()
      modifies this`effects
      ensures Valid()
      ensures effects == old(effects) + Submitted(formData, created, subtypeCreated)
    {
      var draft := formData;
      ghost var rest: seq<Effect<Payload>>;
      if created.Failed? {
        rest := Finished(created);
      } else {
        var kind := SubtypeOf(draft.base.designation);
        if kind.None? {
          rest := Finished(created);
        } else {
          rest := [Send(SubtypeCreate(draft, created.data, kind.value))] + Finished(subtypeCreated);
        }
      }
      effects := effects + ([Send(BaseCreate(draft))] + rest);
    }
  }
}
