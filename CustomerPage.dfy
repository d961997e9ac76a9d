/** The "Customer Management" screen: the customer list, and one form that adds a new
    customer or edits an existing one, shown and hidden by Add New, Edit, Cancel and a
    successful save. */
module CustomerPage {
  import opened Common
  import opened JsText

  /** A customer as the customer endpoint lists it. */
  datatype Customer = Customer(customerId: int, customerName: string, email: string, phone: string, address: string)

  /** The inputs of the form. */
  datatype CustomerField = CustomerName | Email | Phone | Address

  /** The form's `formData`. It holds a `customer_id` only after Edit, which copies the
      whole customer into the form; the empty form has the four inputs alone. */
  datatype CustomerDraft = CustomerDraft(customerId: Option<int>, customerName: string, email: string, phone: string, address: string)
  {
    function Get(f: CustomerField): string {
      match f
      case CustomerName => customerName
      case Email => email
      case Phone => phone
      case Address => address
    }

    /** `{ ...formData, [e.target.name]: e.target.value }`. */
    function Put(f: CustomerField, v: string): (r: CustomerDraft)
      ensures r.Get(f) == v && r.customerId == customerId
      ensures forall g :: g != f ==> r.Get(g) == Get(g)
    {
      match f
      case CustomerName => this.(customerName := v)
      case Email => this.(email := v)
      case Phone => this.(phone := v)
      case Address => this.(address := v)
    }
  }

  const EmptyDraft := CustomerDraft(None, "", "", "", "")

  function DraftOf(c: Customer): CustomerDraft {
    CustomerDraft(Some(c.customerId), c.customerName, c.email, c.phone, c.address)
  }

  /** The state of the screen; `editId` is `None` while it holds `null`. */
  datatype Page = Page(customers: seq<Customer>, formData: CustomerDraft, editMode: bool,
                       editId: Option<int>, isFormVisible: bool)

  const InitialPage := Page([], EmptyDraft, false, None, false)

  /** Holds in every reachable state: edit mode always has a customer to update. */
  predicate Consistent(p: Page) {
    p.editMode ==> p.editId.Some?
  }

  function Changed(p: Page, f: CustomerField, v: string): Page {
    p.(formData := p.formData.Put(f, v))
  }

  /** `handleEdit`. */
  function Edited(p: Page, c: Customer): Page {
    p.(formData := DraftOf(c), editMode := true, editId := Some(c.customerId), isFormVisible := true)
  }

  /** The "Add New Customer" button. */
  function AddNewOpened(p: Page): Page {
    p.(isFormVisible := true, editMode := false, formData := EmptyDraft)
  }

  /** The Cancel button. */
  function Cancelled(p: Page): Page {
    p.(isFormVisible := false)
  }

  function ListRequest(): Request<CustomerDraft> {
    Request(Get, "", None)
  }

  /** `fetchCustomers`: the list is replaced on success; a failure is only logged. */
  function Fetched(p: Page, response: Response<seq<Customer>>): Step<Page, CustomerDraft> {
    Step(if response.Ok? then p.(customers := response.data) else p, [Send(ListRequest())])
  }

  /** `${BASE_URL}/${id}` for an id that may be `null`. */
  function IdPath(id: Option<int>): string {
    "/" + if id.Some? then IntToString(id.value) else "null"
  }

  /** The one write of a submit: a PUT of the form to the customer being edited in edit
      mode, a POST of the form otherwise. */
  function WriteRequest(p: Page): Request<CustomerDraft> {
    if p.editMode then Request(Put, IdPath(p.editId), Some(p.formData))
    else Request(Post, "", Some(p.formData))
  }

  /** `handleSubmit`, given the outcome of the write and of the refetch that follows a
      successful one; a failed write is only logged. */
  function Submitted(p: Page, response: Response<()>, reload: Response<seq<Customer>>): Step<Page, CustomerDraft> {
    match response
    case Ok(_) =>
      var refetch := Fetched(p.(formData := EmptyDraft, editMode := false, isFormVisible := false), reload);
      Step(refetch.state, [Send(WriteRequest(p))] + refetch.effects)
    case Failed(_) => Step(p, [Send(WriteRequest(p))])
  }

  /** `handleDelete`, given the answer to the confirmation, the outcome of the delete and
      of the refetch that follows a successful one. */
  function Deleted(p: Page, id: int, confirmed: bool, response: Response<()>, reload: Response<seq<Customer>>): Step<Page, CustomerDraft> {
    if !confirmed then Step(p, [])
    else
      var delete := Send(Request(Delete, IdPath(Some(id)), None));
      match response
      case Ok(_) => Step(Fetched(p, reload).state, [delete, Send(ListRequest())])
      case Failed(_) => Step(p, [delete])
  }

  /** An edit of an input changes that input alone. */
  lemma ChangeOnlyThatField(p: Page, f: CustomerField, v: string)
    ensures var r := Changed(p, f, v);
      && r.formData.Get(f) == v
      && (forall g :: g != f ==> r.formData.Get(g) == p.formData.Get(g))
      && r.formData.customerId == p.formData.customerId
      && r == p.(formData := r.formData)
  {
  }

  /** Edit loads the customer into the form, enters edit mode for that customer and shows
      the form. */
  lemma EditLoadsCustomer(p: Page, c: Customer)
    ensures var r := Edited(p, c);
      && r.formData.customerId == Some(c.customerId)
      && r.formData.Get(CustomerName) == c.customerName && r.formData.Get(Email) == c.email
      && r.formData.Get(Phone) == c.phone && r.formData.Get(Address) == c.address
      && r.editMode && r.editId == Some(c.customerId) && r.isFormVisible
      && r.customers == p.customers
  {
  }

  /** "Add New Customer" shows an empty form in add mode; `editId` is left as it was. */
  lemma AddNewShowsEmptyForm(p: Page)
    ensures var r := AddNewOpened(p);
      r.isFormVisible && !r.editMode && r.formData == EmptyDraft
      && r.editId == p.editId && r.customers == p.customers
  {
  }

  /** Cancel only hides the form. */
  lemma CancelOnlyHides(p: Page)
    ensures Cancelled(p) == p.(isFormVisible := false)
    ensures !Cancelled(p).isFormVisible && Cancelled(p).editMode == p.editMode
    ensures Cancelled(p).editId == p.editId && Cancelled(p).formData == p.formData
  {
  }

  /** A submit issues exactly one write, followed by the refetch when it succeeded. The
      write is a PUT to the customer being edited in edit mode and a POST otherwise, and
      it carries the form as it stands. */
  lemma SubmitIssuesOneWrite(p: Page, response: Response<()>, reload: Response<seq<Customer>>)
    requires Consistent(p)
    ensures var step := Submitted(p, response, reload);
      && Requests(step.effects) == [WriteRequest(p)] + (if response.Ok? then [ListRequest()] else [])
      && (p.editMode ==> WriteRequest(p) == Request(Put, "/" + IntToString(p.editId.value), Some(p.formData)))
      && (!p.editMode ==> WriteRequest(p) == Request(Post, "", Some(p.formData)))
  {
    if response.Ok? {
      RequestsOfConcat([Send(WriteRequest(p))], [Send(ListRequest())]);
    }
  }

  /** A successful write empties and hides the form and leaves edit mode; a failed one
      changes nothing. */
  lemma SubmitOutcome(p: Page, response: Response<()>, reload: Response<seq<Customer>>)
    ensures var r := Submitted(p, response, reload).state;
      && (response.Ok? ==> r.formData == EmptyDraft && !r.editMode && !r.isFormVisible && r.editId == p.editId)
      && (response.Ok? && reload.Ok? ==> r.customers == reload.data)
      && (response.Ok? && reload.Failed? ==> r.customers == p.customers)
      && (response.Failed? ==> r == p)
  {
  }

  /** The path of the PUT names the customer being edited: reading the id back from it
      gives that customer's id. */
  lemma PutPathNamesCustomer(p: Page, c: Customer)
    ensures var w := WriteRequest(Edited(p, c));
      w.verb == Put && |w.path| >= 2 && ParseInt(w.path[1..]) == Some(c.customerId)
  {
    var w := WriteRequest(Edited(p, c));
    assert w.path[1..] == IntToString(c.customerId);
    ParseIntOfIntToString(c.customerId);
    assert |IntToString(c.customerId)| >= 1;
  }

  /** Editing a customer and saving sends that customer, with any edits, to its own PUT. */
  lemma EditThenSave(p: Page, c: Customer, email: string, reload: Response<seq<Customer>>)
    ensures var edited := Changed(Edited(p, c), Email, email);
      Requests(Submitted(edited, Ok(()), reload).effects) ==
        [Request(Put, "/" + IntToString(c.customerId), Some(DraftOf(c).(email := email))), ListRequest()]
  {
    var edited := Changed(Edited(p, c), Email, email);
    SubmitIssuesOneWrite(edited, Ok(()), reload);
  }

  /** Opening an edit, cancelling it and choosing "Add New Customer" posts a new customer
      rather than updating the one that was being edited. */
  lemma CancelledEditThenAddPosts(p: Page, c: Customer, reload: Response<seq<Customer>>)
    ensures var q := AddNewOpened(Cancelled(Edited(p, c)));
      Requests(Submitted(q, Ok(()), reload).effects) == [Request(Post, "", Some(EmptyDraft)), ListRequest()]
  {
    var q := AddNewOpened(Cancelled(Edited(p, c)));
    SubmitIssuesOneWrite(q, Ok(()), reload);
  }

  /** Declining the confirmation sends nothing; a confirmed delete sends the DELETE and,
      when it succeeds, refetches the list, leaving the form as it was. */
  lemma DeleteOutcome(p: Page, id: int, confirmed: bool, response: Response<()>, reload: Response<seq<Customer>>)
    ensures var step := Deleted(p, id, confirmed, response, reload);
      && (!confirmed ==> step == Step(p, []))
      && (confirmed ==>
            Requests(step.effects) ==
            [Request(Delete, "/" + IntToString(id), None)] + (if response.Ok? then [ListRequest()] else []))
      && step.state == p.(customers := step.state.customers)
      && (confirmed && response.Ok? && reload.Ok? ==> step.state.customers == reload.data)
  {
    var delete: Effect<CustomerDraft> := Send(Request(Delete, IdPath(Some(id)), None));
    RequestsOfConcat([delete], [Send(ListRequest())]);
    assert [delete, Send(ListRequest())] == [delete] + [Send(ListRequest())];
  }

  /** Every transition keeps edit mode tied to a customer. */
  lemma TransitionsKeepConsistent(p: Page, c: Customer, f: CustomerField, v: string, id: int, confirmed: bool,
                                  response: Response<()>, reload: Response<seq<Customer>>)
    requires Consistent(p)
    ensures Consistent(Changed(p, f, v)) && Consistent(Edited(p, c)) && Consistent(AddNewOpened(p))
    ensures Consistent(Cancelled(p)) && Consistent(Fetched(p, reload).state)
    ensures Consistent(Submitted(p, response, reload).state)
    ensures Consistent(Deleted(p, id, confirmed, response, reload).state)
  {
  }

  /** The component: its `useState` variables and a log of what it made visible outside. */
  class CustomerManager {
    var customers: seq<Customer>
    var formData: CustomerDraft
    var editMode: bool
    var editId: Option<int>
    var isFormVisible: bool
    ghost var effects: seq<Effect<CustomerDraft>>

    function Snapshot(): Page
      reads this`customers, this`formData, this`editMode, this`editId, this`isFormVisible
    {
      Page(customers, formData, editMode, editId, isFormVisible)
    }

    ghost predicate Valid()
      reads this`customers, this`formData, this`editMode, this`editId, this`isFormVisible
    {
      Consistent(Snapshot())
    }

    constructor ()
      ensures Valid() && Snapshot() == InitialPage && effects == []
    {
      customers := [];
      formData := EmptyDraft;
      editMode := false;
      editId := None;
      isFormVisible := false;
      effects := [];
    }

    /** `fetchCustomers`, run on mount and after each successful write or delete. */
    method FetchCustomers(response: Response<seq<Customer>>)
      modifies this`customers, this`effects
      ensures Snapshot() == Fetched(old(Snapshot()), response).state
      ensures effects == old(effects) + Fetched(old(Snapshot()), response).effects
    {
      effects := effects + [Send(ListRequest())];
      if response.Ok? {
        customers := response.data;
      }
    }

    method HandleChange(f: CustomerField, v: string)
      requires Valid()
      modifies this`formData
      ensures Valid() && Snapshot() == Changed(old(Snapshot()), f, v)
    {
      formData := formData.Put(f, v);
    }

    method HandleEdit(c: Customer)
      modifies this`formData, this`editMode, this`editId, this`isFormVisible
      ensures Valid() && Snapshot() == Edited(old(Snapshot()), c)
    {
      formData := DraftOf(c);
      editMode := true;
      editId := Some(c.customerId);
      isFormVisible := true;
    }

    method OpenAddNew()
      requires Valid()
      modifies this`formData, this`editMode, this`isFormVisible
      ensures Valid() && Snapshot() == AddNewOpened(old(Snapshot()))
    {
      isFormVisible := true;
      editMode := false;
      formData := EmptyDraft;
    }

    method Cancel()
      requires Valid()
      modifies this`isFormVisible
      ensures Valid() && Snapshot() == Cancelled(old(Snapshot()))
    {
      isFormVisible := false;
    }

    method HandleSubmit(response: Response<()>, reload: Response<seq<Customer>>)
      requires Valid()
      modifies this`customers, this`formData, this`editMode, this`isFormVisible, this`effects
      ensures Valid()
      ensures Snapshot() == Submitted(old(Snapshot()), response, reload).state
      ensures effects == old(effects) + Submitted(old(Snapshot()), response, reload).effects
    {
      var write;
      if editMode {
        write := Request(Put, "/" + IntToString(editId.value), Some(formData));
      } else {
        write := Request(Post, "", Some(formData));
      }
      effects := effects + [Send(write)];
      if response.Ok? {
        formData := EmptyDraft;
        editMode := false;
        isFormVisible := false;
        FetchCustomers(reload);
      }
    }

    method HandleDelete(id: int, confirmed: bool, response: Response<()>, reload: Response<seq<Customer>>)
      requires Valid()
      modifies this`customers, this`effects
      ensures Valid()
      ensures Snapshot() == Deleted(old(Snapshot()), id, confirmed, response, reload).state
      ensures effects == old(effects) + Deleted(old(Snapshot()), id, confirmed, response, reload).effects
    {
      if !confirmed {
        return;
      }
      effects := effects + [Send(Request(Delete, "/" + IntToString(id), None))];
      if response.Ok? {
        FetchCustomers(reload);
      }
    }
  }
}
