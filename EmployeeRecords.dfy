/** What the two employee forms share: the departments fetched from the backend, the
    value the department selector stores, the base employee fields, and the
    department lookup behind the designation selector. */
module EmployeeRecords {
  import opened Common
  import opened JsText
  import opened Designations

  /** A department as `GET /api/departments` returns it. */
  datatype Department = Department(deptId: int, name: string)

  /** The JavaScript value held in `formData.department.dept_id`: the empty string the
      form starts with, a number produced by `parseInt`, or `NaN`. */
  datatype DeptValue = Blank | Num(n: int) | NaN

  /** `parseInt(value)` applied to the department selector's value. */
  function ParseDeptValue(value: string): (v: DeptValue)
    ensures v != Blank
  {
    match ParseInt(value)
    case Some(n) => Num(n)
    case None => NaN
  }

  /** The text of the selector option for a department: `String(dept.dept_id)`. */
  function OptionValue(d: Department): string {
    IntToString(d.deptId)
  }

  /** Choosing a department's option stores exactly that department's id. */
  lemma ParseOptionValue(d: Department)
    ensures ParseDeptValue(OptionValue(d)) == Num(d.deptId)
  {
    ParseIntOfIntToString(d.deptId);
  }

  /** `String(v)`: the text `parseInt` sees when it is given the stored value again. */
  function DeptValueText(v: DeptValue): string {
    match v
    case Blank => ""
    case Num(n) => IntToString(n)
    case NaN => "NaN"
  }

  /** `parseInt(formData.department.dept_id)`; `None` is `NaN`. */
  function ReparsedDeptId(v: DeptValue): Option<int> {
    ParseInt(DeptValueText(v))
  }

  /** The number a stored value denotes; `None` is `NaN`. */
  function DeptIdOf(v: DeptValue): Option<int> {
    if v.Num? then Some(v.n) else None
  }

  /** Parsing the stored value again gives back the number, and `NaN` for the empty
      string and for `NaN`. */
  lemma ReparsedDeptIdOfValue(v: DeptValue)
    ensures ReparsedDeptId(v) == DeptIdOf(v)
  {
    ParseIntOfNonNumbers();
    if v.Num? {
      ParseIntOfIntToString(v.n);
    }
  }

  /** `departments.find(d => d.dept_id === id)`, where `None` (`NaN`) equals nothing. */
  function FindDept(departments: seq<Department>, id: Option<int>): (r: Option<Department>)
    ensures r.Some? ==> r.value in departments && id == Some(r.value.deptId)
    ensures r.None? <==> forall i :: 0 <= i < |departments| ==> id != Some(departments[i].deptId)
    ensures r.Some? ==> exists i :: 0 <= i < |departments| && departments[i] == r.value
                          && forall j :: 0 <= j < i ==> id != Some(departments[j].deptId)
  {
    if departments == [] then None
    else if id == Some(departments[0].deptId) then Some(departments[0])
    else FindDept(departments[1..], id)
  }

  predicate UniqueIds(departments: seq<Department>) {
    forall i, j :: 0 <= i < j < |departments| ==> departments[i].deptId != departments[j].deptId
  }

  /** When the fetched ids are unique, looking a department up by its own id finds it. */
  lemma {:induction false} FindDeptById(departments: seq<Department>, d: Department)
    requires UniqueIds(departments) && d in departments
    ensures FindDept(departments, Some(d.deptId)) == Some(d)
  {
    if departments[0] != d {
      assert departments[0].deptId != d.deptId by {
        var k :| 0 <= k < |departments| && departments[k] == d;
      }
      assert d in departments[1..];
      FindDeptById(departments[1..], d);
    }
  }

  /** `departmentDesignations[dept.name]`, or the empty list for a name not in the catalog. */
  function CatalogEntry(d: Department): seq<string> {
    match DesignationsOf(d.name)
    case Some(ds) => ds
    case None => []
  }

  /** The inputs both forms render for an employee's own fields. */
  datatype BaseField = FirstName | LastName | DateOfBirth | Cnic | Email | Designation | Address | Gender

  /** The employee fields of a form's `formData`; `deptId` is `department.dept_id`. */
  datatype EmployeeFields = EmployeeFields(
    firstName: string, lastName: string, dateOfBirth: string, cnic: string, email: string,
    designation: string, address: string, gender: string, deptId: DeptValue)
  {
    function Get(f: BaseField): string {
      match f
      case FirstName => firstName
      case LastName => lastName
      case DateOfBirth => dateOfBirth
      case Cnic => cnic
      case Email => email
      case Designation => designation
      case Address => address
      case Gender => gender
    }

    /** `{ ...formData, [name]: value }` for one of the base inputs. */
    function Put(f: BaseField, v: string): (r: EmployeeFields)
      ensures r.Get(f) == v && r.deptId == deptId
      ensures forall g :: g != f ==> r.Get(g) == Get(g)
    {
      match f
      case FirstName => this.(firstName := v)
      case LastName => this.(lastName := v)
      case DateOfBirth => this.(dateOfBirth := v)
      case Cnic => this.(cnic := v)
      case Email => this.(email := v)
      case Designation => this.(designation := v)
      case Address => this.(address := v)
      case Gender => this.(gender := v)
    }
  }

  /** The initial `formData` of both forms: empty fields, gender "male", no department. */
  const BlankFields := EmployeeFields("", "", "", "", "", "", "", "male", Blank)

  /** The department branch of `handleChange`: the parsed id is stored and the designation
      is reset to "", every other field is kept. */
  function SelectDepartment(f: EmployeeFields, value: string): (r: EmployeeFields)
    ensures r.deptId == ParseDeptValue(value) && r.designation == ""
    ensures forall g :: g != Designation ==> r.Get(g) == f.Get(g)
  {
    f.(deptId := ParseDeptValue(value), designation := "")
  }
}
