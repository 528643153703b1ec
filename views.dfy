/** The list endpoints' `get_queryset`: each optional query parameter that is
    present and non-empty narrows the rows to those whose column equals it,
    after the parameter is converted to the column's type as the ORM does
    (an integer for a foreign key, a date for a date column). A parameter the
    ORM cannot convert fails the request. */
module AppointmentViews {
  import opened Wrappers
  import opened Js
  import opened AppointmentModels

  /** `queryset.filter(...)` over rows in the table's order. */
  function Where<T>(rows: seq<T>, keep: T -> bool): (r: seq<T>)
    ensures |r| <= |rows|
  {
    if rows == [] then []
    else if keep(rows[0]) then [rows[0]] + Where(rows[1..], keep)
    else Where(rows[1..], keep)
  }

  /** A filtered row is a row that passes; the rows that pass all survive,
      as often as they occur. */
  lemma {:induction false} WhereContents<T>(rows: seq<T>, keep: T -> bool)
    ensures forall x :: x in Where(rows, keep) <==> x in rows && keep(x)
    ensures multiset(Where(rows, keep)) <= multiset(rows)
    ensures forall x :: multiset(Where(rows, keep))[x] == if keep(x) then multiset(rows)[x] else 0
    decreases |rows|
  {
    if rows != [] {
      WhereContents(rows[1..], keep);
      assert rows == [rows[0]] + rows[1..];
      assert multiset(rows) == multiset{rows[0]} + multiset(rows[1..]);
    }
  }

  /** Two filters in a row are one filter on their conjunction. */
  lemma {:induction false} WhereWhere<T>(rows: seq<T>, p: T -> bool, q: T -> bool, both: T -> bool)
    requires forall x :: both(x) == (p(x) && q(x))
    ensures Where(Where(rows, p), q) == Where(rows, both)
    decreases |rows|
  {
    if rows != [] {
      WhereWhere(rows[1..], p, q, both);
      if p(rows[0]) {
        assert Where(rows, p) == [rows[0]] + Where(rows[1..], p);
        assert Where(rows, p)[1..] == Where(rows[1..], p);
      }
    }
  }

  /** The same filters applied in the other order give the same rows. */
  lemma FiltersCommute<T>(rows: seq<T>, p: T -> bool, q: T -> bool)
    ensures Where(Where(rows, p), q) == Where(Where(rows, q), p)
  {
    var both := x => p(x) && q(x);
    WhereWhere(rows, p, q, both);
    WhereWhere(rows, q, p, both);
  }

  /** A filter every row passes keeps all rows. */
  lemma {:induction false} WhereAll<T>(rows: seq<T>, keep: T -> bool)
    requires forall x :: keep(x)
    ensures Where(rows, keep) == rows
    decreases |rows|
  {
    if rows != [] {
      WhereAll(rows[1..], keep);
    }
  }

  /** Python truthiness of `query_params.get(name, None)`: present and non-empty. */
  predicate Given(param: Option<string>)
  {
    param.Some? && param.value != ""
  }

  // ----- integers as a ForeignKey lookup converts them -----

  /** Python's int() on a str, for an optional sign followed by ASCII digits;
      any other text is a ValueError, here None. */
  function ParseInt(s: string): Option<int>
  {
    if |s| > 0 && AllDigits(s) then Some(DigitsValue(s))
    else if |s| > 1 && s[0] == '-' && AllDigits(s[1..]) then Some(0 - DigitsValue(s[1..]) as int)
    else if |s| > 1 && s[0] == '+' && AllDigits(s[1..]) then Some(DigitsValue(s[1..]))
    else None
  }

  /** Reading back the text of any integer gives that integer. */
  lemma {:induction false} ParseIntOfIntToString(n: int)
    ensures ParseInt(IntToString(n)) == Some(n)
  {
    if n < 0 {
      var d := NatToString(-n);
      assert ("-" + d)[0] == '-' && !IsDigit('-');
      assert ("-" + d)[1..] == d;
    }
  }

  /** A parsed integer is never read from text containing anything but a sign and digits. */
  lemma {:induction false} ParseIntShape(s: string)
    requires ParseInt(s).Some?
    ensures |s| > 0
    ensures forall i :: 0 <= i < |s| && (i > 0 || !(s[0] in "+-")) ==> IsDigit(s[i])
  {
    if !AllDigits(s) {
      assert |s| > 1 && s[0] in "+-" && AllDigits(s[1..]);
      forall i | 0 < i < |s| ensures IsDigit(s[i]) {
        assert s[i] == s[1..][i - 1];
      }
    }
  }

  // ----- dates as DateField converts them -----

  predicate IsLeapYear(y: int)
  {
    (y % 4 == 0 && y % 100 != 0) || y % 400 == 0
  }

  function DaysInMonth(y: int, m: int): int
    requires 1 <= m <= 12
  {
    if m == 2 then (if IsLeapYear(y) then 29 else 28)
    else if m == 4 || m == 6 || m == 9 || m == 11 then 30
    else 31
  }

  /** What `datetime.date(y, m, d)` accepts. */
  predicate IsCalendarDate(y: int, m: int, d: int)
  {
    1 <= y <= 9999 && 1 <= m <= 12 && 1 <= d <= DaysInMonth(y, m)
  }

  /** The day part: one or two digits ending the text. */
  function DayPart(y: int, m: int, t: string): Option<Date>
  {
    if 1 <= |t| <= 2 && AllDigits(t) && IsCalendarDate(y, m, DigitsValue(t)) then Some(Date(y, m, DigitsValue(t)))
    else None
  }

  /** Parsing a date parameter: four digits, '-', one or two digits, '-',
      one or two digits, and a valid calendar date; anything else is None. */
  function ParseDate(s: string): (r: Option<Date>)
    ensures r.Some? ==> IsCalendarDate(r.value.year, r.value.month, r.value.day)
  {
    if |s| < 8 || !AllDigits(s[..4]) || s[4] != '-' then None
    else
      var y := DigitsValue(s[..4]);
      var rest := s[5..];
      if IsDigit(rest[0]) && rest[1] == '-' then DayPart(y, DigitsValue(rest[..1]), rest[2..])
      else if |rest| >= 3 && IsDigit(rest[0]) && IsDigit(rest[1]) && rest[2] == '-' then
        DayPart(y, DigitsValue(rest[..2]), rest[3..])
      else None
  }

  function Pow10(k: nat): nat
  {
    if k == 0 then 1 else 10 * Pow10(k - 1)
  }

  /** The last `width` decimal digits of n, zero-padded on the left. */
  function PadDigits(n: nat, width: nat): (s: string)
    ensures |s| == width && AllDigits(s)
    ensures n < Pow10(width) ==> DigitsValue(s) == n
  {
    if width == 0 then ""
    else
      var prefix := PadDigits(n / 10, width - 1);
      var s := prefix + [DigitChar(n % 10)];
      assert s[..|s| - 1] == prefix;
      s
  }

  /** A date in ISO form (YYYY-MM-DD), as the frontend sends it. */
  function IsoDate(d: Date): string
    requires IsCalendarDate(d.year, d.month, d.day)
  {
    PadDigits(d.year, 4) + "-" + PadDigits(d.month, 2) + "-" + PadDigits(d.day, 2)
  }

  /** Every valid date written in ISO form is read back as that date. */
  lemma ParseIsoDate(d: Date)
    requires IsCalendarDate(d.year, d.month, d.day)
    ensures ParseDate(IsoDate(d)) == Some(d)
  {
    var y, m, dd := PadDigits(d.year, 4), PadDigits(d.month, 2), PadDigits(d.day, 2);
    var s := IsoDate(d);
    assert s[..4] == y;
    assert s[4] == '-';
    var rest := s[5..];
    assert rest == m + "-" + dd;
    assert rest[1] == m[1] && rest[2] == '-';
    assert rest[..2] == m && rest[3..] == dd;
  }

  /** A date parameter naming no calendar day is refused. */
  lemma ParseDateRefusesFebruary29Of2023()
    ensures ParseDate("2023-02-29") == None
  {
    var s := "2023-02-29";
    if ParseDate(s).Some? {
      assert s[5..][..2] == "02";
      assert s[5..][3..] == "29";
      assert DigitsValue("02") == 2;
      assert DigitsValue("29") == 29;
      assert s[..4] == "2023";
      assert DigitsValue("2023") == 2023 by {
        assert "2023"[..3] == "202";
        assert "202"[..2] == "20";
        assert "20"[..1] == "2";
      }
      assert false;
    }
  }

  datatype QueryError = InvalidNumber(text: string) | InvalidDate(text: string)

  /** The converted status or type filter, when the parameter is given. */
  function ActiveText(param: Option<string>): Option<string>
  {
    if Given(param) then param else None
  }

  // ----- AppointmentViewSet -----

  datatype AppointmentParams = AppointmentParams(status: Option<string>, technician: Option<string>, date: Option<string>)

  predicate StatusMatches(a: Appointment, status: Option<string>)
  {
    status.Some? ==> a.status == status.value
  }

  predicate TechnicianMatches(a: Appointment, technician: Option<int>)
  {
    technician.Some? ==> a.technician.Some? && a.technician.value == technician.value
  }

  predicate DateMatches(a: Appointment, date: Option<Date>)
  {
    date.Some? ==> a.appointmentDate == date.value
  }

  /** Whether an appointment passes the given status, technician id and date
      filters; a filter that is None imposes nothing. */
  function AppointmentFilter(status: Option<string>, technician: Option<int>, date: Option<Date>): Appointment -> bool
  {
    a => StatusMatches(a, status) && TechnicianMatches(a, technician) && DateMatches(a, date)
  }

  /** `AppointmentViewSet.get_queryset`: status, then technician, then date. */
  function AppointmentQueryset(all: seq<Appointment>, q: AppointmentParams): (r: Result<seq<Appointment>, QueryError>)
    ensures r.Err? <==> (Given(q.technician) && ParseInt(q.technician.value).None?)
                        || (Given(q.date) && ParseDate(q.date.value).None?)
    ensures r.Ok? ==>
      var technician := if Given(q.technician) then ParseInt(q.technician.value) else None;
      var date := if Given(q.date) then ParseDate(q.date.value) else None;
      r.value == Where(all, AppointmentFilter(ActiveText(q.status), technician, date))
  {
    var status := ActiveText(q.status);
    var byStatus := (a: Appointment) => StatusMatches(a, status);
    var s1 := Where(all, byStatus);
    if Given(q.technician) && ParseInt(q.technician.value).None? then Err(InvalidNumber(q.technician.value))
    else
      var technician := if Given(q.technician) then ParseInt(q.technician.value) else None;
      var byTechnician := (a: Appointment) => TechnicianMatches(a, technician);
      var s2 := Where(s1, byTechnician);
      if Given(q.date) && ParseDate(q.date.value).None? then Err(InvalidDate(q.date.value))
      else
        var date := if Given(q.date) then ParseDate(q.date.value) else None;
        var byDate := (a: Appointment) => DateMatches(a, date);
        var s3 := Where(s2, byDate);
        var firstTwo := (a: Appointment) => byStatus(a) && byTechnician(a);
        WhereWhere(all, byStatus, byTechnician, firstTwo);
        WhereWhere(all, firstTwo, byDate, AppointmentFilter(status, technician, date));
        Ok(s3)
  }

  /** Every returned appointment is a stored one with the requested status,
      technician and date; every stored one that has them is returned; and no
      row is returned more often than it is stored. */
  lemma AppointmentQuerysetContents(all: seq<Appointment>, q: AppointmentParams)
    requires AppointmentQueryset(all, q).Ok?
    ensures var r := AppointmentQueryset(all, q).value;
      && multiset(r) <= multiset(all)
      && forall a :: a in r <==>
           && a in all
           && (Given(q.status) ==> a.status == q.status.value)
           && (Given(q.technician) ==> a.technician.Some? && a.technician.value == ParseInt(q.technician.value).value)
           && (Given(q.date) ==> a.appointmentDate == ParseDate(q.date.value).value)
  {
    var technician := if Given(q.technician) then ParseInt(q.technician.value) else None;
    var date := if Given(q.date) then ParseDate(q.date.value) else None;
    WhereContents(all, AppointmentFilter(ActiveText(q.status), technician, date));
  }

  /** Absent or empty parameters restrict nothing: every appointment is listed. */
  lemma NoAppointmentParamsListsAll(all: seq<Appointment>, q: AppointmentParams)
    requires !Given(q.status) && !Given(q.technician) && !Given(q.date)
    ensures AppointmentQueryset(all, q) == Ok(all)
  {
    WhereAll(all, AppointmentFilter(None, None, None));
  }

  // ----- BillViewSet -----

  datatype BillParams = BillParams(customer: Option<string>, billType: Option<string>, status: Option<string>)

  predicate CustomerMatches(b: Bill, customer: Option<int>)
  {
    customer.Some? ==> b.customer == customer.value
  }

  predicate TypeMatches(b: Bill, billType: Option<string>)
  {
    billType.Some? ==> b.billType == billType.value
  }

  predicate BillStatusMatches(b: Bill, status: Option<string>)
  {
    status.Some? ==> b.status == status.value
  }

  function BillFilter(customer: Option<int>, billType: Option<string>, status: Option<string>): Bill -> bool
  {
    b => CustomerMatches(b, customer) && TypeMatches(b, billType) && BillStatusMatches(b, status)
  }

  /** `BillViewSet.get_queryset`: customer, then type, then status. */
  function BillQueryset(all: seq<Bill>, q: BillParams): (r: Result<seq<Bill>, QueryError>)
    ensures r.Err? <==> Given(q.customer) && ParseInt(q.customer.value).None?
    ensures r.Ok? ==>
      var customer := if Given(q.customer) then ParseInt(q.customer.value) else None;
      r.value == Where(all, BillFilter(customer, ActiveText(q.billType), ActiveText(q.status)))
  {
    if Given(q.customer) && ParseInt(q.customer.value).None? then Err(InvalidNumber(q.customer.value))
    else
      var customer := if Given(q.customer) then ParseInt(q.customer.value) else None;
      var billType := ActiveText(q.billType);
      var status := ActiveText(q.status);
      var byCustomer := (b: Bill) => CustomerMatches(b, customer);
      var byType := (b: Bill) => TypeMatches(b, billType);
      var byStatus := (b: Bill) => BillStatusMatches(b, status);
      var s3 := Where(Where(Where(all, byCustomer), byType), byStatus);
      var firstTwo := (b: Bill) => byCustomer(b) && byType(b);
      WhereWhere(all, byCustomer, byType, firstTwo);
      WhereWhere(all, firstTwo, byStatus, BillFilter(customer, billType, status));
      Ok(s3)
  }

  /** Every returned bill is a stored one of the requested customer, type and
      status, and every stored one that matches is returned. */
  lemma BillQuerysetContents(all: seq<Bill>, q: BillParams)
    requires BillQueryset(all, q).Ok?
    ensures var r := BillQueryset(all, q).value;
      && multiset(r) <= multiset(all)
      && forall b :: b in r <==>
           && b in all
           && (Given(q.customer) ==> b.customer == ParseInt(q.customer.value).value)
           && (Given(q.billType) ==> b.billType == q.billType.value)
           && (Given(q.status) ==> b.status == q.status.value)
  {
    var customer := if Given(q.customer) then ParseInt(q.customer.value) else None;
    WhereContents(all, BillFilter(customer, ActiveText(q.billType), ActiveText(q.status)));
  }

  /** Absent or empty parameters restrict nothing: every bill is listed. */
  lemma NoBillParamsListsAll(all: seq<Bill>, q: BillParams)
    requires !Given(q.customer) && !Given(q.billType) && !Given(q.status)
    ensures BillQueryset(all, q) == Ok(all)
  {
    WhereAll(all, BillFilter(None, None, None));
  }
}
