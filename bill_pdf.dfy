/** The printable bill: customer and appointment captions found by id in the
    lists the page holds, one table row per line item with its Part/Employee
    # cell, and the total. */
module BillPdf {
  import opened Wrappers
  import opened Js
  import opened BillLineItems
  import BillDetail

  datatype CustomerOption = CustomerOption(id: Value, firstName: string, lastName: string)
  datatype AppointmentOption = AppointmentOption(id: Value, description: string)

  /** `s.find(p)`, as the index of the first element that satisfies p. */
  function FindIndex<T>(s: seq<T>, p: T -> bool): (r: Option<nat>)
    ensures r.Some? ==> r.value < |s| && p(s[r.value]) && forall j :: 0 <= j < r.value ==> !p(s[j])
    ensures r.None? ==> forall j :: 0 <= j < |s| ==> !p(s[j])
  {
    if s == [] then None
    else if p(s[0]) then Some(0)
    else
      match FindIndex(s[1..], p)
      case Some(i) => Some(i + 1)
      case None => None
  }

  /** `getCustomerName`: "first last" of the first customer whose id is
      strictly equal to the form's customer, or '' when none is. */
  function CustomerName(customers: seq<CustomerOption>, formCustomer: Value): (r: string)
    ensures (forall j :: 0 <= j < |customers| ==> customers[j].id != formCustomer) ==> r == ""
    ensures forall i :: 0 <= i < |customers| && customers[i].id == formCustomer
                        && (forall j :: 0 <= j < i ==> customers[j].id != formCustomer)
                        ==> r == customers[i].firstName + " " + customers[i].lastName
  {
    match FindIndex(customers, (c: CustomerOption) => c.id == formCustomer)
    case Some(i) => customers[i].firstName + " " + customers[i].lastName
    case None => ""
  }

  /** `getAppointmentDesc`: "#id - description" of the first appointment whose
      id is strictly equal to the form's appointment, or '' when none is. */
  function AppointmentDescription(appointments: seq<AppointmentOption>, formAppointment: Value): (r: string)
    ensures (forall j :: 0 <= j < |appointments| ==> appointments[j].id != formAppointment) ==> r == ""
    ensures forall i :: 0 <= i < |appointments| && appointments[i].id == formAppointment
                        && (forall j :: 0 <= j < i ==> appointments[j].id != formAppointment)
                        ==> r == "#" + ToText(appointments[i].id) + " - " + appointments[i].description
  {
    match FindIndex(appointments, (a: AppointmentOption) => a.id == formAppointment)
    case Some(i) => "#" + ToText(appointments[i].id) + " - " + appointments[i].description
    case None => ""
  }

  /** Strict equality: when every customer id is a number, a form customer
      held as text (as a select input delivers it) names nobody. */
  lemma TextCustomerNamesNobody(customers: seq<CustomerOption>, text: string)
    requires forall j :: 0 <= j < |customers| ==> customers[j].id.Num?
    ensures CustomerName(customers, Str(text)) == ""
  {
  }

  /** A matching appointment's caption starts with '#' followed by its numeric id. */
  lemma AppointmentCaptionShape(appointments: seq<AppointmentOption>, formAppointment: Value, n: int)
    requires formAppointment == Num(n)
    requires exists i :: 0 <= i < |appointments| && appointments[i].id == formAppointment
    ensures var r := AppointmentDescription(appointments, formAppointment);
      StartsWith(r, "#" + IntToString(n) + " - ")
  {
    var k := FindIndex(appointments, (a: AppointmentOption) => a.id == formAppointment);
    assert k.Some?;
    var r := AppointmentDescription(appointments, formAppointment);
    var prefix := "#" + IntToString(n) + " - ";
    assert r == prefix + appointments[k.value].description;
    assert r[..|prefix|] == prefix;
  }

  /** The Part/Employee # cell: the employee number of a labour item, and the
      item's part_number otherwise. The line-item record has no part_number
      column, so that read is always undefined and the cell empty. */
  function ReferenceCell(item: LineItem): Option<string>
  {
    if item.isLabor then item.employeeNumber else None
  }

  datatype PdfRow = PdfRow(description: string, reference: Option<string>, quantity: int, unitPrice: int, total: int)

  /** One table row per line item, in the same order. */
  function Rows(items: seq<LineItem>): (r: seq<PdfRow>)
    ensures |r| == |items|
    ensures forall i :: 0 <= i < |items| ==>
      var item := items[i];
      && r[i].description == item.description
      && r[i].quantity == item.quantity && r[i].unitPrice == item.unitPrice
      && r[i].total == item.quantity * item.unitPrice
      && (item.isLabor ==> r[i].reference == item.employeeNumber)
      && (!item.isLabor ==> r[i].reference == None)
  {
    seq(|items|, i requires 0 <= i < |items| =>
      var item := items[i];
      PdfRow(item.description, ReferenceCell(item), item.quantity, item.unitPrice, Amount(item)))
  }

  function RowTotals(rows: seq<PdfRow>): (r: seq<int>)
    ensures |r| == |rows| && forall i :: 0 <= i < |rows| ==> r[i] == rows[i].total
  {
    seq(|rows|, i requires 0 <= i < |rows| => rows[i].total)
  }

  /** `total`: the reduce over the form's line items. */
  function DocumentTotal(form: BillDetail.BillForm): int
  {
    Total(form.lineItems)
  }

  /** The printed total is the sum of the printed row totals (0 for no rows)
      and equals the footer the detail page shows for the same form. */
  lemma DocumentTotalIsSumOfRows(form: BillDetail.BillForm)
    ensures DocumentTotal(form) == Sum(RowTotals(Rows(form.lineItems)))
    ensures form.lineItems == [] ==> DocumentTotal(form) == 0
    ensures DocumentTotal(form) == BillDetail.FooterTotal(form)
  {
    TotalIsSumOfAmounts(form.lineItems);
    assert RowTotals(Rows(form.lineItems)) == Amounts(form.lineItems);
  }
}
