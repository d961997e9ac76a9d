/** The static department -> designation catalog that both employee forms use, and the
    three designations that make an employee a Driver, an Accountant or a Supervisor. */
module Designations {
  import opened Common

  /** The designations allowed in each department, in the order the selector lists them.
      AddEmployee.jsx and UpdateEmployee.jsx each declare an identical copy of this table;
      the model declares it once. */
  const Catalog: map<string, seq<string>> := map[
    "HR" := ["HR Officer", "Training and Development Officer", "Attendance Supervisor"],
    "Warehouse" := ["Inventory Supervisor", "Dispatch Officer"],
    "Production" := ["Supervisor", "Machine Operator", "Quality Inspector", "Process Technician"],
    "Finance" := ["Accountant", "Billing Officer", "Audit Officer", "Financial Analyst"],
    "Sales" := ["Sales Representative", "Customer Relations Officer", "Marketing Assistant"],
    "Logistics" := ["Driver", "Delivery Supervisor", "Vehicle Maintenance Coordinator"]
  ]

  /** `departmentDesignations[name]`, with an unknown name giving `None` (`undefined`). */
  function DesignationsOf(name: string): (r: Option<seq<string>>)
    ensures r.Some? <==> name in Catalog
    ensures r.Some? ==> r.value == Catalog[name] && |r.value| >= 2
  {
    if name in Catalog then Some(Catalog[name]) else None
  }

  /** The employee subtypes that carry one extra field and a record of their own. */
  datatype Subtype = Driver | Accountant | Supervisor

  /** The one designation that selects each subtype. */
  function SpecialName(t: Subtype): string {
    match t
    case Driver => "Driver"
    case Accountant => "Accountant"
    case Supervisor => "Supervisor"
  }

  /** The subtype a designation selects; the comparison is exact string equality. */
  function SubtypeOf(designation: string): (r: Option<Subtype>)
    ensures r.Some? ==> SpecialName(r.value) == designation
    ensures r.None? ==> forall t: Subtype :: SpecialName(t) != designation
  {
    if designation == "Driver" then Some(Driver)
    else if designation == "Accountant" then Some(Accountant)
    else if designation == "Supervisor" then Some(Supervisor)
    else None
  }

  lemma SubtypeOfSpecialName(t: Subtype)
    ensures SubtypeOf(SpecialName(t)) == Some(t)
  {
  }

  /** The department whose list holds each special designation. */
  function HomeDepartment(t: Subtype): string {
    match t
    case Driver => "Logistics"
    case Accountant => "Finance"
    case Supervisor => "Production"
  }

  lemma CatalogDepartments()
    ensures Catalog.Keys == {"HR", "Warehouse", "Production", "Finance", "Sales", "Logistics"}
  {
  }

  /** No designation is listed under two departments. */
  lemma CatalogDisjoint(a: string, b: string, d: string)
    requires a in Catalog && b in Catalog
    requires d in Catalog[a] && d in Catalog[b]
    ensures a == b
  {
  }

  /** "Driver" is listed only under Logistics, "Accountant" only under Finance and
      "Supervisor" only under Production. */
  lemma SpecialNameAtHome(t: Subtype, dept: string)
    requires dept in Catalog
    ensures SpecialName(t) in Catalog[dept] <==> dept == HomeDepartment(t)
  {
  }

  /** Every catalog designation that contains the word "Supervisor" but is not exactly
      "Supervisor" selects no subtype. */
  lemma LookAlikesSelectNothing()
    ensures SubtypeOf("Delivery Supervisor") == None
    ensures SubtypeOf("Inventory Supervisor") == None
    ensures SubtypeOf("Attendance Supervisor") == None
  {
  }

  /** A designation chosen from a department's list selects a subtype only in that
      subtype's home department. */
  lemma CatalogSubtypes(dept: string, d: string)
    requires dept in Catalog && d in Catalog[dept]
    ensures SubtypeOf(d).Some? ==> dept == HomeDepartment(SubtypeOf(d).value)
  {
    if SubtypeOf(d).Some? {
      SpecialNameAtHome(SubtypeOf(d).value, dept);
    }
  }
}
