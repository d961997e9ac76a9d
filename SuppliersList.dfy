/** The warehouse "Suppliers" screen: a form that adds a supplier and a list whose entries
    can be deleted; the list changes only after the server accepted the change. */
module SuppliersList {
  import opened Common
  import opened JsText

  /** A supplier as `/api/suppliers` returns it. */
  datatype Supplier = Supplier(supplierId: int, name: string, phone: string, email: string, address: string, city: string)

  /** The inputs of the add form. */
  datatype SupplierField = Name | Phone | Email | Address | City

  /** The form's `newSupplier`. */
  datatype SupplierDraft = SupplierDraft(name: string, phone: string, email: string, address: string, city: string)
  {
    function Get(f: SupplierField): string {
      match f
      case Name => name
      case Phone => phone
      case Email => email
      case Address => address
      case City => city
    }

    /** `{ ...prev, [name]: value }`. */
    function Put(f: SupplierField, v: string): (r: SupplierDraft)
      ensures r.Get(f) == v
      ensures forall g :: g != f ==> r.Get(g) == Get(g)
    {
      match f
      case Name => this.(name := v)
      case Phone => this.(phone := v)
      case Email => this.(email := v)
      case Address => this.(address := v)
      case City => this.(city := v)
    }
  }

  const EmptyDraft := SupplierDraft("", "", "", "", "")

  /** `suppliers.filter(s => s.supplier_id !== id)`. */
  function WithoutId(ss: seq<Supplier>, id: int): (r: seq<Supplier>)
    ensures |r| <= |ss|
    ensures forall i :: 0 <= i < |r| ==> r[i] in ss && r[i].supplierId != id
  {
    if ss == [] then []
    else (if ss[0].supplierId != id then [ss[0]] else []) + WithoutId(ss[1..], id)
  }

  /** How many entries carry the id `id`. */
  function CountId(ss: seq<Supplier>, id: int): nat {
    if ss == [] then 0 else (if ss[0].supplierId == id then 1 else 0) + CountId(ss[1..], id)
  }

  /** The filter drops exactly the entries that carry the id. */
  lemma {:induction false} WithoutIdLength(ss: seq<Supplier>, id: int)
    ensures |WithoutId(ss, id)| == |ss| - CountId(ss, id)
  {
    if ss != [] {
      WithoutIdLength(ss[1..], id);
    }
  }

  lemma {:induction false} WithoutIdMembers(ss: seq<Supplier>, id: int, s: Supplier)
    ensures s in WithoutId(ss, id) <==> s in ss && s.supplierId != id
  {
    if ss != [] {
      WithoutIdMembers(ss[1..], id, s);
      assert ss == [ss[0]] + ss[1..];
    }
  }

  /** The filter works entry by entry, so it keeps the order of what remains. */
  lemma {:induction false} WithoutIdConcat(a: seq<Supplier>, b: seq<Supplier>, id: int)
    ensures WithoutId(a + b, id) == WithoutId(a, id) + WithoutId(b, id)
  {
    if a == [] {
      assert a + b == b;
    } else {
      assert (a + b)[1..] == a[1..] + b;
      WithoutIdConcat(a[1..], b, id);
    }
  }

  /** A list without the id is left exactly as it was. */
  lemma {:induction false} WithoutAbsentId(ss: seq<Supplier>, id: int)
    requires CountId(ss, id) == 0
    ensures WithoutId(ss, id) == ss
  {
    if ss != [] {
      WithoutAbsentId(ss[1..], id);
      assert ss == [ss[0]] + ss[1..];
    }
  }

  lemma {:induction false} CountIdAbsent(ss: seq<Supplier>, id: int)
    ensures CountId(ss, id) == 0 <==> forall i :: 0 <= i < |ss| ==> ss[i].supplierId != id
  {
    if ss != [] {
      CountIdAbsent(ss[1..], id);
      assert forall i :: 1 <= i < |ss| ==> ss[i] == ss[1..][i - 1];
    }
  }

  /** The list and the add form. */
  datatype Roster = Roster(suppliers: seq<Supplier>, newSupplier: SupplierDraft)

  const InitialRoster := Roster([], EmptyDraft)

  const LoadFailedText := "Failed to load suppliers."
  const AddFailedText := "Failed to add supplier."
  const DeleteFailedText := "Failed to delete supplier."

  function ListRequest(): Request<SupplierDraft> {
    Request(Get, "/api/suppliers", None)
  }

  function DeleteRequest(id: int): Request<SupplierDraft> {
    Request(Delete, "/api/suppliers/" + IntToString(id), None)
  }

  /** `fetchSuppliers`. */
  function Fetched(r: Roster, response: Response<seq<Supplier>>): Step<Roster, SupplierDraft> {
    match response
    case Ok(data) => Step(r.(suppliers := data), [Send(ListRequest())])
    case Failed(_) => Step(r, [Send(ListRequest()), Alert(LoadFailedText)])
  }

  function InputChanged(r: Roster, f: SupplierField, v: string): Roster {
    r.(newSupplier := r.newSupplier.Put(f, v))
  }

  /** `handleAddSupplier`, given the record the server returns for the new supplier. */
  function Added(r: Roster, response: Response<Supplier>): Step<Roster, SupplierDraft> {
    var post := Send(Request(Post, "/api/suppliers", Some(r.newSupplier)));
    match response
    case Ok(created) => Step(Roster(r.suppliers + [created], EmptyDraft), [post])
    case Failed(_) => Step(r, [post, Alert(AddFailedText)])
  }

  /** `handleDeleteSupplier`, given the answer to the confirmation and the outcome of the
      delete. */
  function Removed(r: Roster, id: int, confirmed: bool, response: Response<()>): Step<Roster, SupplierDraft> {
    if !confirmed then Step(r, [])
    else match response
      case Ok(_) => Step(r.(suppliers := WithoutId(r.suppliers, id)), [Send(DeleteRequest(id))])
      case Failed(_) => Step(r, [Send(DeleteRequest(id)), Alert(DeleteFailedText)])
  }

  lemma FetchOutcome(r: Roster, response: Response<seq<Supplier>>)
    ensures var step := Fetched(r, response);
      && step.effects[0] == Send(ListRequest())
      && (response.Ok? ==> step == Step(Roster(response.data, r.newSupplier), [Send(ListRequest())]))
      && (response.Failed? ==> step.state == r && step.effects[1..] == [Alert(LoadFailedText)])
  {
  }

  /** An input changes its own field of the form alone. */
  lemma InputChangeOnlyThatField(r: Roster, f: SupplierField, v: string)
    ensures var q := InputChanged(r, f, v);
      && q.newSupplier.Get(f) == v
      && (forall g :: g != f ==> q.newSupplier.Get(g) == r.newSupplier.Get(g))
      && q.suppliers == r.suppliers
  {
  }

  /** A successful add appends the server's record after the earlier entries, which stay
      in order, and empties the form; a failed add alerts and changes nothing. Either way
      the one request is the POST of the form. */
  lemma AddOutcome(r: Roster, response: Response<Supplier>)
    ensures var step := Added(r, response);
      && Requests(step.effects) == [Request(Post, "/api/suppliers", Some(r.newSupplier))]
      && (response.Ok? ==>
            && |step.state.suppliers| == |r.suppliers| + 1
            && step.state.suppliers[..|r.suppliers|] == r.suppliers
            && step.state.suppliers[|r.suppliers|] == response.data
            && step.state.newSupplier == EmptyDraft)
      && (response.Failed? ==> step.state == r && step.effects[|step.effects| - 1] == Alert(AddFailedText))
  {
    var post: Effect<SupplierDraft> := Send(Request(Post, "/api/suppliers", Some(r.newSupplier)));
    RequestsOfConcat([post], [Alert(AddFailedText)]);
    assert [post, Alert(AddFailedText)] == [post] + [Alert(AddFailedText)];
  }

  /** A declined confirmation sends nothing and changes nothing. */
  lemma DeclinedRemoveChangesNothing(r: Roster, id: int, response: Response<()>)
    ensures Removed(r, id, false, response) == Step(r, [])
  {
  }

  /** A successful delete removes exactly the entries with that id and keeps the rest in
      order; a failed one alerts and keeps the list. */
  lemma RemoveOutcome(r: Roster, id: int, response: Response<()>)
    ensures var step := Removed(r, id, true, response);
      && Requests(step.effects) == [DeleteRequest(id)]
      && step.state.newSupplier == r.newSupplier
      && (response.Ok? ==>
            && |step.state.suppliers| == |r.suppliers| - CountId(r.suppliers, id)
            && (forall s :: s in step.state.suppliers <==> s in r.suppliers && s.supplierId != id)
            && step.state.suppliers == WithoutId(r.suppliers, id))
      && (response.Failed? ==> step.state == r && step.effects[1] == Alert(DeleteFailedText))
  {
    WithoutIdLength(r.suppliers, id);
    forall s ensures s in WithoutId(r.suppliers, id) <==> s in r.suppliers && s.supplierId != id {
      WithoutIdMembers(r.suppliers, id, s);
    }
    var delete: Effect<SupplierDraft> := Send(DeleteRequest(id));
    RequestsOfConcat([delete], [Alert(DeleteFailedText)]);
    assert [delete, Alert(DeleteFailedText)] == [delete] + [Alert(DeleteFailedText)];
  }

  /** Adding a supplier whose new id was not yet listed and then deleting it gives back
      the list as it was before the add. */
  lemma AddThenRemove(r: Roster, created: Supplier)
    requires forall i :: 0 <= i < |r.suppliers| ==> r.suppliers[i].supplierId != created.supplierId
    ensures var added := Added(r, Ok(created)).state;
      Removed(added, created.supplierId, true, Ok(())).state.suppliers == r.suppliers
  {
    var id := created.supplierId;
    WithoutIdConcat(r.suppliers, [created], id);
    CountIdAbsent(r.suppliers, id);
    WithoutAbsentId(r.suppliers, id);
    assert WithoutId([created], id) == [];
  }

  /** The component: its `useState` variables and a log of what it made visible outside. */
  class SupplierRoster {
    var suppliers: seq<Supplier>
    var newSupplier: SupplierDraft
    ghost var effects: seq<Effect<SupplierDraft>>

    function Snapshot(): Roster
      reads this`suppliers, this`newSupplier
    {
      Roster(suppliers, newSupplier)
    }

    constructor ()
      ensures Snapshot() == InitialRoster && effects == []
    {
      suppliers := [];
      newSupplier := EmptyDraft;
      effects := [];
    }

    method FetchSuppliers(response: Response<seq<Supplier>>)
      modifies this`suppliers, this`effects
      ensures Snapshot() == Fetched(old(Snapshot()), response).state
      ensures effects == old(effects) + Fetched(old(Snapshot()), response).effects
    {
      match response {
        case Ok(data) =>
          suppliers := data;
          effects := effects + [Send(ListRequest())];
        case Failed(_) =>
          effects := effects + [Send(ListRequest()), Alert(LoadFailedText)];
      }
    }

    method HandleInputChange(f: SupplierField, v: string)
      modifies this`newSupplier
      ensures Snapshot() == InputChanged(old(Snapshot()), f, v)
    {
      newSupplier := newSupplier.Put(f, v);
    }

    method HandleAddSupplier(response: Response<Supplier>)
      modifies this`suppliers, this`newSupplier, this`effects
      ensures Snapshot() == Added(old(Snapshot()), response).state
      ensures effects == old(effects) + Added(old(Snapshot()), response).effects
    {
      var post := Send(Request(Post, "/api/suppliers", Some(newSupplier)));
      match response {
        case Ok(created) =>
          suppliers := suppliers + [created];
          newSupplier := EmptyDraft;
          effects := effects + [post];
        case Failed(_) =>
          effects := effects + [post, Alert(AddFailedText)];
      }
    }

    method HandleDeleteSupplier(id: int, confirmed: bool, response: Response<()>)
      modifies this`suppliers, this`effects
      ensures Snapshot() == Removed(old(Snapshot()), id, confirmed, response).state
      ensures effects == old(effects) + Removed(old(Snapshot()), id, confirmed, response).effects
    {
      if !confirmed {
        return;
      }
      match response {
        case Ok(_) =>
          suppliers := WithoutId(suppliers, id);
          effects := effects + [Send(DeleteRequest(id))];
        case Failed(_) =>
          effects := effects + [Send(DeleteRequest(id)), Alert(DeleteFailedText)];
      }
    }
  }
}
