/** The "Update Employee" screen: the stored employee is loaded into the form, a
    department change resets the designation, an effect recomputes the designations on
    offer (keeping the previous list when no department matches), and submitting sends
    the whole form in one PUT. */
module UpdateEmployee {
  import opened Common
  import opened JsText
  import opened Designations
  import opened EmployeeRecords

  /** The employee as `GET /api/employees/<id>` returns it; `departmentId` is
      `department?.dept_id`, `None` when the employee has no department. */
  datatype FetchedEmployee = FetchedEmployee(
    firstName: string, lastName: string, dateOfBirth: string, cnic: string, email: string,
    designation: string, address: string, gender: string, departmentId: Option<int>)
  {
    function Get(f: BaseField): string {
      match f
      case FirstName => firstName
      case LastName => lastName
      case DateOfBirth => dateOfBirth
      case Cnic => cnic
      case Email => email
      case Designation => designation
      case Address => address
      case Gender => gender
    }
  }

  /** The `formData` the load sets: the fetched fields, and `dept_id || ""`, so that a
      missing department and the falsy id 0 both become the empty string. */
  function LoadedFields(e: FetchedEmployee): EmployeeFields {
    EmployeeFields(e.firstName, e.lastName, e.dateOfBirth, e.cnic, e.email, e.designation,
                   e.address, e.gender,
                   if e.departmentId.Some? && e.departmentId.value != 0 then Num(e.departmentId.value) else Blank)
  }

  /** The load copies every field of the fetched employee, keeps a non-zero department
      id, and stores "" for no department (and for id 0). */
  lemma LoadCopiesFields(e: FetchedEmployee)
    ensures forall g :: LoadedFields(e).Get(g) == e.Get(g)
    ensures e.departmentId.Some? && e.departmentId.value != 0 ==> LoadedFields(e).deptId == Num(e.departmentId.value)
    ensures e.departmentId.None? ==> LoadedFields(e).deptId == Blank
    ensures e.departmentId == Some(0) ==> LoadedFields(e).deptId == Blank
  {
    forall g: BaseField ensures LoadedFields(e).Get(g) == e.Get(g) {
      match g
      case FirstName =>
      case LastName =>
      case DateOfBirth =>
      case Cnic =>
      case Email =>
      case Designation =>
      case Address =>
      case Gender =>
    }
  }

  /** What the recompute effect reads back from a loaded employee: its department id,
      and `NaN` for no department or id 0. */
  lemma LoadedDeptIdReparsed(e: FetchedEmployee)
    ensures ReparsedDeptId(LoadedFields(e).deptId) ==
            (if e.departmentId.Some? && e.departmentId.value != 0 then e.departmentId else None)
  {
    ReparsedDeptIdOfValue(LoadedFields(e).deptId);
  }

  /** The `name` of the input whose change reaches `handleChange`. */
  datatype InputName = DeptSelect | BaseInput(field: BaseField)

  /** `handleChange` on `formData`: the department branch, or `{ ...formData, [name]: value }`. */
  function Edited(f: EmployeeFields, name: InputName, value: string): EmployeeFields {
    match name
    case DeptSelect => SelectDepartment(f, value)
    case BaseInput(g) => f.Put(g, value)
  }

  /** The designation-recompute effect: the catalog entry of the first department whose
      id is `parseInt(dept_id)` (the empty list for a name not in the catalog), and the
      previous list when no department matches. `parseInt` reads back the number the stored
      value denotes (`ReparsedDeptIdOfValue`), so the lookup is by `DeptIdOf`. */
  function Recomputed(departments: seq<Department>, deptId: DeptValue, previous: seq<string>): seq<string> {
    match FindDept(departments, DeptIdOf(deptId))
    case Some(d) => CatalogEntry(d)
    case None => previous
  }

  /** The state of the screen. `loaded` is the corrected loading gate (see `ShowsPlaceholder`). */
  datatype Screen = Screen(formData: EmployeeFields, departments: seq<Department>,
                           availableDesignations: seq<string>, loaded: bool)

  const InitialScreen := Screen(BlankFields, [], [], false)

  /** The screen after the effect has run. */
  function Settle(s: Screen): Screen {
    s.(availableDesignations := Recomputed(s.departments, s.formData.deptId, s.availableDesignations))
  }

  /** The effect has nothing left to change. React runs it only when `dept_id` or
      `departments` changed; in a settled screen running it after every handler gives the
      same result, which is how the model schedules it. */
  predicate Settled(s: Screen) {
    Recomputed(s.departments, s.formData.deptId, s.availableDesignations) == s.availableDesignations
  }

  /** Running the effect twice is running it once. */
  lemma RecomputedIdempotent(departments: seq<Department>, deptId: DeptValue, previous: seq<string>)
    ensures var once := Recomputed(departments, deptId, previous);
      Recomputed(departments, deptId, once) == once
  {
  }

  lemma SettleSettles(s: Screen)
    ensures Settled(Settle(s))
    ensures Settle(s).formData == s.formData && Settle(s).departments == s.departments
  {
    RecomputedIdempotent(s.departments, s.formData.deptId, s.availableDesignations);
  }

  lemma InitialScreenSettled()
    ensures Settled(InitialScreen) && InitialScreen.formData.deptId == Blank
  {
  }

  /** `handleChange` followed by the effect. */
  function Changed(s: Screen, name: InputName, value: string): Screen {
    Settle(s.(formData := Edited(s.formData, name, value)))
  }

  /** A department change stores the parsed id and clears the designation, leaving every
      other field as it was. */
  lemma DeptChangeKeepsOtherFields(s: Screen, value: string)
    ensures var r := Changed(s, DeptSelect, value);
      && r.formData.deptId == ParseDeptValue(value) && r.formData.designation == ""
      && (forall g :: g != Designation ==> r.formData.Get(g) == s.formData.Get(g))
      && r.loaded == s.loaded && r.departments == s.departments
  {
  }

  /** Any other edit, the designation included, changes only its own field: the department
      and the designations on offer stay, and nothing else reacts. */
  lemma FieldEditChangesOnlyThatField(s: Screen, f: BaseField, value: string)
    requires Settled(s)
    ensures var r := Changed(s, BaseInput(f), value);
      && r.formData.Get(f) == value
      && (forall g :: g != f ==> r.formData.Get(g) == s.formData.Get(g))
      && r.formData.deptId == s.formData.deptId
      && r.availableDesignations == s.availableDesignations
      && r.loaded == s.loaded && r.departments == s.departments
  {
  }

  /** Choosing a department's option offers exactly its catalog entry (the fetched
      department ids being unique). */
  lemma ChoosingDepartmentOffersItsDesignations(s: Screen, d: Department)
    requires UniqueIds(s.departments) && d in s.departments
    ensures var r := Changed(s, DeptSelect, OptionValue(d));
      r.formData.deptId == Num(d.deptId) && r.availableDesignations == CatalogEntry(d)
  {
    ParseOptionValue(d);
    FindDeptById(s.departments, d);
  }

  /** Choosing an option whose value `parseInt` reads as `NaN`, such as "Select Department"
      with its value "" (`ParseIntOfNonNumbers`), stores `NaN`, which matches no department,
      so the designations on offer stay what they were (where the add form empties them). */
  lemma ChoosingNoDepartmentKeepsDesignations(s: Screen, value: string)
    requires ParseInt(value) == None
    ensures var r := Changed(s, DeptSelect, value);
      r.formData.deptId == NaN && r.formData.designation == ""
      && r.availableDesignations == s.availableDesignations
  {
  }

  /** When no fetched department has the stored id the previous list is kept; when one
      has, its catalog entry replaces the list. */
  lemma RecomputedMatches(departments: seq<Department>, deptId: DeptValue, previous: seq<string>)
    ensures (forall i :: 0 <= i < |departments| ==> deptId != Num(departments[i].deptId)) ==>
              Recomputed(departments, deptId, previous) == previous
    ensures deptId.Blank? || deptId.NaN? ==> Recomputed(departments, deptId, previous) == previous
    ensures forall d :: d in departments && deptId == Num(d.deptId) && UniqueIds(departments) ==>
              Recomputed(departments, deptId, previous) == CatalogEntry(d)
  {
    forall d | d in departments && deptId == Num(d.deptId) && UniqueIds(departments)
      ensures Recomputed(departments, deptId, previous) == CatalogEntry(d)
    {
      FindDeptById(departments, d);
    }
  }

  /** Every edit keeps the screen settled. */
  lemma ChangePreservesSettled(s: Screen, name: InputName, value: string)
    ensures Settled(Changed(s, name, value))
  {
    SettleSettles(s.(formData := Edited(s.formData, name, value)));
  }

  /** The request that loads the employee. */
  function LoadRequest(employeeId: string): Request<EmployeeFields> {
    Request(Get, "/api/employees/" + employeeId, None)
  }

  const LoadFailedText := "Failed to fetch employee data."

  /** The employee load followed by the effect: on success the form holds the fetched
      employee, otherwise an alert is shown and the form stays as it was. */
  function EmployeeLoaded(s: Screen, employeeId: string, response: Response<FetchedEmployee>): Step<Screen, EmployeeFields> {
    match response
    case Ok(e) => Step(Settle(s.(formData := LoadedFields(e), loaded := true)), [Send(LoadRequest(employeeId))])
    case Failed(_) => Step(s, [Send(LoadRequest(employeeId)), Alert(LoadFailedText)])
  }

  /** The departments load followed by the effect; a failure is only logged to the console. */
  function DepartmentsLoaded(s: Screen, response: Response<seq<Department>>): Screen {
    if response.Ok? then Settle(s.(departments := response.data)) else s
  }

  /** A successful load copies the employee in, makes the form visible and leaves the
      screen settled; it issues the one GET. */
  lemma LoadSucceeds(s: Screen, employeeId: string, e: FetchedEmployee)
    ensures var step := EmployeeLoaded(s, employeeId, Ok(e));
      && Settled(step.state) && step.state.loaded
      && step.state.formData == LoadedFields(e) && step.state.departments == s.departments
      && step.effects == [Send(LoadRequest(employeeId))]
  {
    SettleSettles(s.(formData := LoadedFields(e), loaded := true));
  }

  /** A failed load alerts after its GET and changes nothing. */
  lemma LoadFails(s: Screen, employeeId: string, errorData: Option<string>)
    ensures var step := EmployeeLoaded(s, employeeId, Failed(errorData));
      && step.state == s
      && Requests(step.effects) == [LoadRequest(employeeId)]
      && step.effects[|step.effects| - 1] == Alert(LoadFailedText)
  {
    var step := EmployeeLoaded(s, employeeId, Failed(errorData));
    assert step.effects == [Send(LoadRequest(employeeId))] + [Alert(LoadFailedText)];
    RequestsOfConcat([Send(LoadRequest(employeeId))], [Alert(LoadFailedText)]);
  }

  lemma DepartmentsLoadedSettled(s: Screen, response: Response<seq<Department>>)
    requires Settled(s)
    ensures Settled(DepartmentsLoaded(s, response))
    ensures DepartmentsLoaded(s, response).formData == s.formData
    ensures response.Ok? ==> DepartmentsLoaded(s, response).departments == response.data
  {
    if response.Ok? {
      SettleSettles(s.(departments := response.data));
    }
  }

  const UpdatedText := "Employee updated successfully!"
  const UpdateFailedText := "Failed to update employee."
  const EmployeeListPath := "/hr/employees"

  /** `handleSubmit`: `PUT /api/employees/<id>` with `formData` as it stands; success
      alerts and leaves for the employee list, failure only alerts. */
  function Submitted(employeeId: string, f: EmployeeFields, response: Response<()>): seq<Effect<EmployeeFields>> {
    [Send(Request(Put, "/api/employees/" + employeeId, Some(f)))] +
    if response.Ok? then [Alert(UpdatedText), Navigate(EmployeeListPath)] else [Alert(UpdateFailedText)]
  }

  /** One request, carrying the form unchanged; the navigation happens exactly on success. */
  lemma SubmitSendsFormOnce(employeeId: string, f: EmployeeFields, response: Response<()>)
    ensures var effects := Submitted(employeeId, f, response);
      && Requests(effects) == [Request(Put, "/api/employees/" + employeeId, Some(f))]
      && (Navigate(EmployeeListPath) in effects <==> response.Ok?)
      && (Alert(UpdatedText) in effects <==> response.Ok?)
      && (response.Failed? ==> effects[|effects| - 1] == Alert(UpdateFailedText))
  {
    var first: seq<Effect<EmployeeFields>> := [Send(Request(Put, "/api/employees/" + employeeId, Some(f)))];
    var rest: seq<Effect<EmployeeFields>> :=
      if response.Ok? then [Alert(UpdatedText), Navigate(EmployeeListPath)] else [Alert(UpdateFailedText)];
    RequestsOfConcat(first, rest);
    assert UpdatedText != UpdateFailedText by { assert UpdatedText[0] != UpdateFailedText[0]; }
  }

  /** The loading gate as written: the placeholder replaces the form while `first_name` is
      empty. */
  predicate PlaceholderAsWritten(s: Screen) {
    s.formData.firstName == ""
  }

  /** Clearing the first-name input of a loaded form replaces the whole form by the loading
      placeholder; with the inputs gone no further edit can bring it back. */
  lemma ClearingFirstNameShowsPlaceholder(s: Screen)
    ensures PlaceholderAsWritten(Changed(s, BaseInput(FirstName), ""))
  {
  }

  /** An employee stored with an empty first name is never shown for editing. */
  lemma UnnamedEmployeeNeverShown(s: Screen, employeeId: string, e: FetchedEmployee)
    requires e.firstName == ""
    ensures PlaceholderAsWritten(EmployeeLoaded(s, employeeId, Ok(e)).state)
  {
  }

  /** The corrected gate: the placeholder is shown until the employee has been loaded. */
  predicate ShowsPlaceholder(s: Screen) {
    !s.loaded
  }

  /** With the corrected gate the form appears exactly when the employee load succeeds,
      whatever the stored first name, a failed load keeps the placeholder, and no edit,
      departments load or submit hides the form again. */
  lemma LoadingGateCorrected(s: Screen, employeeId: string, response: Response<FetchedEmployee>,
                             name: InputName, value: string, departments: Response<seq<Department>>)
    ensures ShowsPlaceholder(InitialScreen)
    ensures !ShowsPlaceholder(EmployeeLoaded(s, employeeId, response).state) <==> response.Ok? || s.loaded
    ensures ShowsPlaceholder(Changed(s, name, value)) == ShowsPlaceholder(s)
    ensures ShowsPlaceholder(DepartmentsLoaded(s, departments)) == ShowsPlaceholder(s)
  {
  }

  /** The component: its `useState` variables (with the corrected `loaded` flag), the
      route's `employee_id`, and a log of what it made visible outside. */
  class UpdateEmployeeForm {
    const employeeId: string
    var formData: EmployeeFields
    var departments: seq<Department>
    var availableDesignations: seq<string>
    var loaded: bool
    ghost var effects: seq<Effect<EmployeeFields>>

    function Snapshot(): Screen
      reads this`formData, this`departments, this`availableDesignations, this`loaded
    {
      Screen(formData, departments, availableDesignations, loaded)
    }

    ghost predicate Valid()
      reads this`formData, this`departments, this`availableDesignations, this`loaded
    {
      Settled(Snapshot())
    }

    constructor (employeeId: string)
      ensures this.employeeId == employeeId
      ensures Valid() && Snapshot() == InitialScreen && effects == []
    {
      this.employeeId := employeeId;
      formData := BlankFields;
      departments := [];
      availableDesignations := [];
      loaded := false;
      effects := [];
    }

    /** The body of the designation-recompute effect. */
    method Recompute()
      modifies this`availableDesignations
      ensures Snapshot() == Settle(old(Snapshot()))
    {
      var dept := FindDept(departments, DeptIdOf(formData.deptId));
      if dept.Some? {
        var designations := DesignationsOf(dept.value.name);
        availableDesignations := if designations.Some? then designations.value else [];
      }
    }

    /** The employee load of the mount effect, then the recompute effect. */
    method LoadEmployee(response: Response<FetchedEmployee>)
      requires Valid()
      modifies this`formData, this`availableDesignations, this`loaded, this`effects
      ensures Valid()
      ensures Snapshot() == EmployeeLoaded(old(Snapshot()), employeeId, response).state
      ensures effects == old(effects) + EmployeeLoaded(old(Snapshot()), employeeId, response).effects
    {
      match response
      case Ok(e) =>
        formData := LoadedFields(e);
        loaded := true;
        ghost var fetched := Snapshot();
        assert fetched == old(Snapshot()).(formData := LoadedFields(e), loaded := true);
        Recompute();
        effects := effects + [Send(LoadRequest(employeeId))];
        SettleSettles(fetched);
      case Failed(_) =>
        effects := effects + [Send(LoadRequest(employeeId)), Alert(LoadFailedText)];
    }

    /** The departments load of the mount effect, then the recompute effect. */
    method LoadDepartments(response: Response<seq<Department>>)
      requires Valid()
      modifies this`departments, this`availableDesignations, this`effects
      ensures Valid()
      ensures Snapshot() == DepartmentsLoaded(old(Snapshot()), response)
      ensures effects == old(effects) + [Send(Request(Get, "/api/departments", None))]
    {
      effects := effects + [Send(Request(Get, "/api/departments", None))];
      if response.Ok? {
        departments := response.data;
        Recompute();
      }
      DepartmentsLoadedSettled(old(Snapshot()), response);
    }

    /** `handleChange`, then the recompute effect. */
    method HandleChange(name: InputName, value: string)
      requires Valid()
      modifies this`formData, this`availableDesignations
      ensures Valid()
      ensures Snapshot() == Changed(old(Snapshot()), name, value)
    {
      match name {
        case DeptSelect =>
          formData := formData.(deptId := ParseDeptValue(value), designation := "");
        case BaseInput(f) =>
          formData := formData.Put(f, value);
      }
      Recompute();
      ChangePreservesSettled(old(Snapshot()), name, value);
    }

    method HandleSubmit(response: Response<()>)
      requires Valid()
      modifies this`effects
      ensures Valid()
      ensures effects == old(effects) + Submitted(employeeId, formData, response)
    {
      var request := Request(Put, "/api/employees/" + employeeId, Some(formData));
      ghost var outcome: seq<Effect<EmployeeFields>>;
      if response.Ok? {
        outcome := [Alert(UpdatedText), Navigate(EmployeeListPath)];
      } else {
        outcome := [Alert(UpdateFailedText)];
      }
      effects := effects + ([Send(request)] + outcome);
    }
  }
}
