/** The billing page's bill/estimate dialog: its form record with a nested
    new-customer record, the input handler that routes dotted names into the
    nested record, the new-customer toggle, the dialog reset, and what a
    submit sends: the optional customer creation, the bill payload with its
    customer id resolved, and PUT for an edited bill versus POST for a new
    one. Network calls are parameters saying how they end. */
module Billing {
  import opened Wrappers
  import opened Js
  import AppointmentModels

  /** The `new_customer` sub-record. */
  datatype NewCustomer = NewCustomer(firstName: Value, lastName: Value, email: Value, phone: Value, address: Value)

  /** `formData`. The due date is the day the picker holds, or None for null. */
  datatype BillingForm = BillingForm(
    billType: Value,
    customerId: Value,
    amount: Value,
    description: Value,
    notes: Value,
    dueDate: Option<AppointmentModels.Date>,
    newCustomer: NewCustomer,
    isNewCustomer: bool)

  function BlankNewCustomer(): NewCustomer
  {
    NewCustomer(Str(""), Str(""), Str(""), Str(""), Str(""))
  }

  /** The form the page starts with and the one a new bill opens with. */
  function BlankForm(): (f: BillingForm)
    ensures f.billType == Str("bill") && f.dueDate == None && !f.isNewCustomer
    ensures f.customerId == Str("") && f.amount == Str("") && f.description == Str("") && f.notes == Str("")
    ensures f.newCustomer == NewCustomer(Str(""), Str(""), Str(""), Str(""), Str(""))
  {
    BillingForm(Str("bill"), Str(""), Str(""), Str(""), Str(""), None, BlankNewCustomer(), false)
  }

  // ----- handleInputChange -----

  /** The five top-level text inputs. */
  datatype TopField = TypeInput | CustomerIdInput | AmountInput | DescriptionInput | NotesInput

  function TopFieldName(f: TopField): string
  {
    match f
    case TypeInput => "type"
    case CustomerIdInput => "customer_id"
    case AmountInput => "amount"
    case DescriptionInput => "description"
    case NotesInput => "notes"
  }

  function TopFieldNamed(name: string): (r: Option<TopField>)
    ensures r.Some? ==> TopFieldName(r.value) == name
    ensures r.None? ==> forall f: TopField :: TopFieldName(f) != name
  {
    if name == "type" then Some(TypeInput)
    else if name == "customer_id" then Some(CustomerIdInput)
    else if name == "amount" then Some(AmountInput)
    else if name == "description" then Some(DescriptionInput)
    else if name == "notes" then Some(NotesInput)
    else None
  }

  function GetTop(form: BillingForm, f: TopField): Value
  {
    match f
    case TypeInput => form.billType
    case CustomerIdInput => form.customerId
    case AmountInput => form.amount
    case DescriptionInput => form.description
    case NotesInput => form.notes
  }

  function SetTop(form: BillingForm, f: TopField, v: Value): BillingForm
  {
    match f
    case TypeInput => form.(billType := v)
    case CustomerIdInput => form.(customerId := v)
    case AmountInput => form.(amount := v)
    case DescriptionInput => form.(description := v)
    case NotesInput => form.(notes := v)
  }

  /** The five inputs of the new-customer record. */
  datatype CustomerField = FirstName | LastName | Email | Phone | Address

  function CustomerFieldName(f: CustomerField): string
  {
    match f
    case FirstName => "first_name"
    case LastName => "last_name"
    case Email => "email"
    case Phone => "phone"
    case Address => "address"
  }

  function CustomerFieldNamed(name: string): (r: Option<CustomerField>)
    ensures r.Some? ==> CustomerFieldName(r.value) == name
    ensures r.None? ==> forall f: CustomerField :: CustomerFieldName(f) != name
  {
    if name == "first_name" then Some(FirstName)
    else if name == "last_name" then Some(LastName)
    else if name == "email" then Some(Email)
    else if name == "phone" then Some(Phone)
    else if name == "address" then Some(Address)
    else None
  }

  function GetCustomer(c: NewCustomer, f: CustomerField): Value
  {
    match f
    case FirstName => c.firstName
    case LastName => c.lastName
    case Email => c.email
    case Phone => c.phone
    case Address => c.address
  }

  function SetCustomer(c: NewCustomer, f: CustomerField, v: Value): NewCustomer
  {
    match f
    case FirstName => c.(firstName := v)
    case LastName => c.(lastName := v)
    case Email => c.(email := v)
    case Phone => c.(phone := v)
    case Address => c.(address := v)
  }

  const NestedPrefix: string := "new_customer."

  /** The text up to (not including) the first '.'. */
  function UpToDot(s: string): (r: string)
    ensures |r| <= |s| && r == s[..|r|] && '.' !in r
    ensures |r| < |s| ==> s[|r|] == '.'
  {
    if s == [] || s[0] == '.' then []
    else [s[0]] + UpToDot(s[1..])
  }

  /** `name.split('.')[1]` for a name that starts with "new_customer.". */
  function NestedSegment(name: string): string
    requires StartsWith(name, NestedPrefix)
  {
    UpToDot(name[|NestedPrefix|..])
  }

  /** A field name without dots is its own segment. */
  lemma {:induction false} UpToDotOfDotless(s: string)
    requires '.' !in s
    ensures UpToDot(s) == s
    decreases |s|
  {
    if s != [] {
      assert s[0] != '.' && '.' !in s[1..];
      UpToDotOfDotless(s[1..]);
    }
  }

  /** `handleInputChange`. A name starting with "new_customer." sets the
      nested field named by the segment after the dot and changes nothing
      else; any other name sets the top-level field of that name and leaves
      the nested record, due date and toggle alone. */
  function HandleInputChange(form: BillingForm, name: string, value: Value): (r: BillingForm)
    ensures StartsWith(name, NestedPrefix) ==>
      && (forall f: CustomerField :: GetCustomer(r.newCustomer, f) ==
            (if CustomerFieldName(f) == NestedSegment(name) then value else GetCustomer(form.newCustomer, f)))
      && r == form.(newCustomer := r.newCustomer)
    ensures !StartsWith(name, NestedPrefix) ==>
      && (forall f: TopField :: GetTop(r, f) == (if TopFieldName(f) == name then value else GetTop(form, f)))
      && r.newCustomer == form.newCustomer && r.dueDate == form.dueDate && r.isNewCustomer == form.isNewCustomer
  {
    if StartsWith(name, NestedPrefix) then
      match CustomerFieldNamed(NestedSegment(name))
      case Some(f) => form.(newCustomer := SetCustomer(form.newCustomer, f, value))
      case None => form
    else
      match TopFieldNamed(name)
      case Some(f) => SetTop(form, f, value)
      case None => form
  }

  /** The rendered nested inputs ("new_customer.first_name", ...) each reach
      exactly their own nested field. */
  lemma NestedInputReachesField(form: BillingForm, f: CustomerField, value: Value)
    ensures HandleInputChange(form, NestedPrefix + CustomerFieldName(f), value)
         == form.(newCustomer := SetCustomer(form.newCustomer, f, value))
  {
    var name := NestedPrefix + CustomerFieldName(f);
    assert name[..|NestedPrefix|] == NestedPrefix;
    assert name[|NestedPrefix|..] == CustomerFieldName(f);
    UpToDotOfDotless(CustomerFieldName(f));
    assert CustomerFieldNamed(CustomerFieldName(f)) == Some(f) by {
      match f
      case FirstName =>
      case LastName =>
      case Email =>
      case Phone =>
      case Address =>
    }
  }

  /** The top-level inputs reach exactly their own field and never touch the
      nested record. */
  lemma TopInputReachesField(form: BillingForm, g: TopField, value: Value)
    ensures HandleInputChange(form, TopFieldName(g), value) == SetTop(form, g, value)
  {
    assert |TopFieldName(g)| < |NestedPrefix|;
    assert TopFieldNamed(TopFieldName(g)) == Some(g) by {
      match g
      case TypeInput =>
      case CustomerIdInput =>
      case AmountInput =>
      case DescriptionInput =>
      case NotesInput =>
    }
  }

  // ----- the new-customer toggle -----

  /** The button's `setFormData(prev => ({...prev, is_new_customer: !prev.is_new_customer}))`. */
  function ToggleNewCustomer(form: BillingForm): (r: BillingForm)
    ensures r.isNewCustomer == !form.isNewCustomer
    ensures r.(isNewCustomer := form.isNewCustomer) == form
  {
    form.(isNewCustomer := !form.isNewCustomer)
  }

  /** Pressing the toggle twice gives back the form as it was. */
  lemma ToggleTwice(form: BillingForm)
    ensures ToggleNewCustomer(ToggleNewCustomer(form)) == form
  {
  }

  // ----- handleOpenDialog -----

  /** A bill as listed by the API; `dueDate` is its day, None when the API's
      due_date is null or empty. */
  datatype ListedBill = ListedBill(
    id: Value,
    billType: Value,
    customerId: Value,
    amount: Value,
    description: Value,
    notes: Value,
    dueDate: Option<AppointmentModels.Date>)

  datatype Dialog = Dialog(open: bool, editing: Option<ListedBill>, form: BillingForm)

  /** `handleOpenDialog(bill)`: the dialog opens; an edited bill's fields are
      copied into the form with a blank new-customer record and the toggle
      off; without a bill the form is reset to the blank form. */
  function OpenDialog(bill: Option<ListedBill>): (d: Dialog)
    ensures d.open && d.editing == bill
    ensures !d.form.isNewCustomer && d.form.newCustomer == BlankNewCustomer()
    ensures bill.None? ==> d.form == BlankForm()
    ensures bill.Some? ==>
      && d.form.billType == bill.value.billType && d.form.customerId == bill.value.customerId
      && d.form.amount == bill.value.amount && d.form.description == bill.value.description
      && d.form.notes == bill.value.notes && d.form.dueDate == bill.value.dueDate
  {
    match bill
    case None => Dialog(true, None, BlankForm())
    case Some(b) =>
      Dialog(true, bill, BillingForm(b.billType, b.customerId, b.amount, b.description, b.notes, b.dueDate,
                                     BlankNewCustomer(), false))
  }

  // ----- handleSubmit -----

  /** Whether the submit first creates a customer: the toggle is on and the
      new customer's first name is truthy. */
  predicate CreatesCustomer(form: BillingForm)
  {
    form.isNewCustomer && Truthy(form.newCustomer.firstName)
  }

  /** `customerId`: the created customer's id when one is created, the
      form's customer otherwise. */
  function ResolvedCustomerId(form: BillingForm, createdId: Value): Value
  {
    if CreatesCustomer(form) then createdId else form.customerId
  }

  /** `billData`. */
  datatype BillData = BillData(
    billType: Value,
    customerId: Value,
    amount: Value,
    description: Value,
    notes: Value,
    dueDate: Option<AppointmentModels.Date>)

  /** The payload: the form's fields, the resolved customer id or null when
      it is falsy (a cash or walk-in bill), and the due date or null. */
  function MakeBillData(form: BillingForm, customerId: Value): (r: BillData)
    ensures Truthy(customerId) ==> r.customerId == customerId
    ensures !Truthy(customerId) ==> r.customerId == Null
    ensures r.billType == form.billType && r.amount == form.amount && r.description == form.description
    ensures r.notes == form.notes && r.dueDate == form.dueDate
  {
    BillData(form.billType, Or(customerId, Null), form.amount, form.description, form.notes, form.dueDate)
  }

  datatype Verb = Get | Post | Put | Delete
  datatype Payload = CustomerPayload(customer: NewCustomer) | BillPayload(bill: BillData)
  datatype Request = Request(verb: Verb, path: string, body: Payload)

  /** Where the bill goes: PUT to the edited bill's own path, POST to the list. */
  function BillRequest(editing: Option<ListedBill>, data: BillData): (r: Request)
    ensures editing.Some? ==> r.verb == Put && r.path == "/bills/" + ToText(editing.value.id) + "/"
    ensures editing.None? ==> r.verb == Post && r.path == "/bills/"
    ensures r.body == BillPayload(data)
  {
    match editing
    case Some(b) => Request(Put, "/bills/" + ToText(b.id) + "/", BillPayload(data))
    case None => Request(Post, "/bills/", BillPayload(data))
  }

  /** Two edited bills with different numeric ids are sent to different paths. */
  lemma EditPathsDistinct(m: int, n: int, data: BillData)
    requires m != n
    ensures BillRequest(Some(ListedBill(Num(m), Null, Null, Null, Null, Null, None)), data).path
         != BillRequest(Some(ListedBill(Num(n), Null, Null, Null, Null, Null, None)), data).path
  {
    var p := "/bills/" + IntToString(m) + "/";
    var q := "/bills/" + IntToString(n) + "/";
    if p == q {
      assert p[7..|p| - 1] == IntToString(m);
      assert q[7..|q| - 1] == IntToString(n);
      IntToStringInjective(m, n);
    }
  }

  /** What a submit does: the requests sent, in order, and whether the bill
      list is refetched and the dialog closed. */
  datatype SubmitOutcome = SubmitOutcome(requests: seq<Request>, refetch: bool, closed: bool)

  /** `handleSubmit`. `createdId` is the id the customer creation answers with;
      `customerSucceeds` and `billSucceeds` say whether the two requests
      succeed. A failed request ends the submit with the dialog left open. */
  function Submit(form: BillingForm, editing: Option<ListedBill>, createdId: Value,
                  customerSucceeds: bool, billSucceeds: bool): (r: SubmitOutcome)
    ensures CreatesCustomer(form) ==> |r.requests| >= 1 && r.requests[0] == Request(Post, "/customers/", CustomerPayload(form.newCustomer))
    ensures !CreatesCustomer(form) ==> |r.requests| == 1
    ensures CreatesCustomer(form) && customerSucceeds ==> |r.requests| == 2
    ensures CreatesCustomer(form) && !customerSucceeds ==> |r.requests| == 1 && !r.refetch && !r.closed
    ensures (!CreatesCustomer(form) || customerSucceeds) ==>
      && r.requests[|r.requests| - 1] == BillRequest(editing, MakeBillData(form, ResolvedCustomerId(form, createdId)))
      && r.refetch == billSucceeds && r.closed == billSucceeds
  {
    if CreatesCustomer(form) && !customerSucceeds then
      SubmitOutcome([Request(Post, "/customers/", CustomerPayload(form.newCustomer))], false, false)
    else
      var bill := BillRequest(editing, MakeBillData(form, ResolvedCustomerId(form, createdId)));
      var first := if CreatesCustomer(form) then [Request(Post, "/customers/", CustomerPayload(form.newCustomer))] else [];
      SubmitOutcome(first + [bill], billSucceeds, billSucceeds)
  }

  /** The bill's customer id is the created customer's when the toggle is on
      and a first name is typed; otherwise it is the selected customer, and
      an unselected customer ('' from the Cash/Walk-in option) is sent as null. */
  lemma SubmittedCustomerId(form: BillingForm, editing: Option<ListedBill>, createdId: Value, billSucceeds: bool)
    ensures var r := Submit(form, editing, createdId, true, billSucceeds);
      var sent := r.requests[|r.requests| - 1].body.bill.customerId;
      && (CreatesCustomer(form) && Truthy(createdId) ==> sent == createdId)
      && (!CreatesCustomer(form) && Truthy(form.customerId) ==> sent == form.customerId)
      && (!CreatesCustomer(form) && form.customerId == Str("") ==> sent == Null)
      && (form.isNewCustomer && form.newCustomer.firstName == Str("") ==> sent == Or(form.customerId, Null))
  {
  }

  /** With the toggle on but no first name, no customer is created and the
      bill is the only request. */
  lemma NoNameNoCustomer(form: BillingForm, editing: Option<ListedBill>, createdId: Value, ok1: bool, ok2: bool)
    requires form.isNewCustomer && form.newCustomer.firstName == Str("")
    ensures var r := Submit(form, editing, createdId, ok1, ok2);
      |r.requests| == 1 && r.requests[0].body.BillPayload?
  {
  }
}
