/** The bill detail page: its form state, the form built from a fetched bill,
    the field-by-field input handler, and the line-item table with its footer
    total. */
module BillDetail {
  import opened Wrappers
  import opened Js
  import opened BillLineItems

  /** The page's form state. The eight scalar fields hold whatever the inputs
      or the server gave them; line items are the server's records. */
  datatype BillForm = BillForm(
    customer: Value,
    appointment: Value,
    billType: Value,
    status: Value,
    description: Value,
    notes: Value,
    dueDate: Value,
    employeeName: Value,
    lineItems: seq<LineItem>)

  /** The form before any bill is fetched. */
  function InitialForm(): (f: BillForm)
    ensures f.lineItems == [] && f.billType == Str("bill") && f.status == Str("draft")
    ensures f.customer == Str("") && f.appointment == Str("")
    ensures f.description == Str("") && f.notes == Str("") && f.dueDate == Str("") && f.employeeName == Str("")
  {
    BillForm(Str(""), Str(""), Str("bill"), Str("draft"), Str(""), Str(""), Str(""), Str(""), [])
  }

  /** A bill as the API returns it. A related customer or appointment is
      either absent (null) or carries an id. */
  datatype FetchedBill = FetchedBill(
    customerId: Option<Value>,
    appointmentId: Option<Value>,
    billType: Value,
    status: Value,
    description: Value,
    notes: Value,
    dueDate: Value,
    employeeName: Value,
    lineItems: seq<LineItem>)

  /** `related?.id || ''`. */
  function IdOrBlank(related: Option<Value>): Value
  {
    if related.Some? then Or(related.value, Str("")) else Str("")
  }

  /** The form filled from a fetched bill. */
  function FormFromBill(b: FetchedBill): BillForm
  {
    BillForm(IdOrBlank(b.customerId), IdOrBlank(b.appointmentId), b.billType, b.status,
             b.description, b.notes, b.dueDate, b.employeeName, b.lineItems)
  }

  /** The fetched form holds '' where no customer or appointment is related
      (or its id is falsy), otherwise the related id itself; every other
      field, the line items included, is copied unchanged. */
  lemma FormFromBillFields(b: FetchedBill)
    ensures var f := FormFromBill(b);
      && (b.customerId.None? ==> f.customer == Str(""))
      && (b.appointmentId.None? ==> f.appointment == Str(""))
      && (b.customerId.Some? && Truthy(b.customerId.value) ==> f.customer == b.customerId.value)
      && (b.customerId.Some? && !Truthy(b.customerId.value) ==> f.customer == Str(""))
      && (b.appointmentId.Some? && Truthy(b.appointmentId.value) ==> f.appointment == b.appointmentId.value)
      && (b.appointmentId.Some? && !Truthy(b.appointmentId.value) ==> f.appointment == Str(""))
      && (f.customer == Str("") || Truthy(f.customer))
      && (f.appointment == Str("") || Truthy(f.appointment))
      && f.billType == b.billType && f.status == b.status && f.description == b.description
      && f.notes == b.notes && f.dueDate == b.dueDate && f.employeeName == b.employeeName
      && f.lineItems == b.lineItems
  {
  }

  /** The eight inputs of the form, each bound to the field of its name. */
  datatype Field = Customer | Appointment | Type | Status | Description | Notes | DueDate | EmployeeName

  function FieldName(f: Field): string
  {
    match f
    case Customer => "customer"
    case Appointment => "appointment"
    case Type => "type"
    case Status => "status"
    case Description => "description"
    case Notes => "notes"
    case DueDate => "due_date"
    case EmployeeName => "employee_name"
  }

  /** The input field a name attribute denotes, if any. */
  function FieldNamed(name: string): (r: Option<Field>)
    ensures r.Some? ==> FieldName(r.value) == name
    ensures r.None? ==> forall f: Field :: FieldName(f) != name
  {
    if name == "customer" then Some(Customer)
    else if name == "appointment" then Some(Appointment)
    else if name == "type" then Some(Type)
    else if name == "status" then Some(Status)
    else if name == "description" then Some(Description)
    else if name == "notes" then Some(Notes)
    else if name == "due_date" then Some(DueDate)
    else if name == "employee_name" then Some(EmployeeName)
    else None
  }

  function Get(form: BillForm, f: Field): Value
  {
    match f
    case Customer => form.customer
    case Appointment => form.appointment
    case Type => form.billType
    case Status => form.status
    case Description => form.description
    case Notes => form.notes
    case DueDate => form.dueDate
    case EmployeeName => form.employeeName
  }

  function Set(form: BillForm, f: Field, v: Value): BillForm
  {
    match f
    case Customer => form.(customer := v)
    case Appointment => form.(appointment := v)
    case Type => form.(billType := v)
    case Status => form.(status := v)
    case Description => form.(description := v)
    case Notes => form.(notes := v)
    case DueDate => form.(dueDate := v)
    case EmployeeName => form.(employeeName := v)
  }

  /** `setFormData(prev => ({...prev, [name]: value}))`: the field whose name
      the input carries takes the value and nothing else changes, the line
      items included. A name that is not one of the form's inputs changes no
      field the page reads. */
  function HandleInputChange(form: BillForm, name: string, value: Value): (r: BillForm)
    ensures forall f: Field :: Get(r, f) == (if FieldName(f) == name then value else Get(form, f))
    ensures r.lineItems == form.lineItems
  {
    match FieldNamed(name)
    case Some(f) => Set(form, f, value)
    case None => form
  }

  /** Typing the same value twice is the same as typing it once, and a later
      change of the same field overrides an earlier one. */
  lemma HandleInputChangeLastWins(form: BillForm, name: string, v1: Value, v2: Value)
    ensures HandleInputChange(HandleInputChange(form, name, v1), name, v2) == HandleInputChange(form, name, v2)
  {
    var r1 := HandleInputChange(form, name, v1);
    var r2 := HandleInputChange(r1, name, v2);
    var r := HandleInputChange(form, name, v2);
    forall f: Field ensures Get(r2, f) == Get(r, f) {}
    assert Get(r2, Customer) == Get(r, Customer);
    assert Get(r2, Appointment) == Get(r, Appointment);
    assert Get(r2, Type) == Get(r, Type);
    assert Get(r2, Status) == Get(r, Status);
    assert Get(r2, Description) == Get(r, Description);
    assert Get(r2, Notes) == Get(r, Notes);
    assert Get(r2, DueDate) == Get(r, DueDate);
    assert Get(r2, EmployeeName) == Get(r, EmployeeName);
  }

  /** One row of the line-item table. */
  datatype Row = Row(description: string, quantity: int, unitPrice: int, amount: int)

  /** `line_items.map(...)`: one row per line item, in order, each showing
      quantity × unit price of its own item. */
  function Rows(form: BillForm): (r: seq<Row>)
    ensures |r| == |form.lineItems|
    ensures forall i :: 0 <= i < |r| ==>
      var item := form.lineItems[i];
      r[i] == Row(item.description, item.quantity, item.unitPrice, item.quantity * item.unitPrice)
  {
    seq(|form.lineItems|, i requires 0 <= i < |form.lineItems| =>
      var item := form.lineItems[i];
      Row(item.description, item.quantity, item.unitPrice, Amount(item)))
  }

  function RowAmounts(rows: seq<Row>): (r: seq<int>)
    ensures |r| == |rows| && forall i :: 0 <= i < |rows| ==> r[i] == rows[i].amount
  {
    seq(|rows|, i requires 0 <= i < |rows| => rows[i].amount)
  }

  /** The footer: the reduce over the line items. */
  function FooterTotal(form: BillForm): int
  {
    Total(form.lineItems)
  }

  /** The footer total is the sum of the amounts shown in the rows above it; an
      empty table totals 0. */
  lemma FooterIsSumOfRows(form: BillForm)
    ensures FooterTotal(form) == Sum(RowAmounts(Rows(form)))
    ensures form.lineItems == [] ==> FooterTotal(form) == 0
  {
    TotalIsSumOfAmounts(form.lineItems);
    assert RowAmounts(Rows(form)) == Amounts(form.lineItems);
  }

  /** Editing a scalar field never changes the total. */
  lemma FooterUnchangedByInput(form: BillForm, name: string, value: Value)
    ensures FooterTotal(HandleInputChange(form, name, value)) == FooterTotal(form)
  {
  }
}
