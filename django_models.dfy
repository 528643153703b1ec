/** The Django models of the appointments app: the customer phone validator,
    the customer's display text, the field defaults of appointments and
    bills, and the save of an appointment that opens a draft bill for it the
    first time. The database is a store of rows keyed by primary key. */
module AppointmentModels {
  import opened Wrappers
  import opened Js

  // ----- Customer -----

  /** The phone's max_length. */
  const PhoneMaxLength: nat := 17

  const PhoneMessage: string :=
    "Phone number must be entered in the format: '+999999999'. Up to 15 digits allowed."

  /** One way the pattern `^\+?1?\d{9,15}$` can consume all of s: p plus signs
      and o leading ones (each present or absent), then 9 to 15 digits. */
  predicate MatchesWith(s: string, p: nat, o: nat)
  {
    && p <= 1 && o <= 1 && p + o <= |s|
    && (p == 1 ==> s[0] == '+')
    && (o == 1 ==> s[p] == '1')
    && AllDigits(s[p + o..])
    && 9 <= |s| - p - o <= 15
  }

  /** The regular expression, read as the union of its four shapes. */
  predicate PhonePatternMatches(s: string)
  {
    MatchesWith(s, 0, 0) || MatchesWith(s, 0, 1) || MatchesWith(s, 1, 0) || MatchesWith(s, 1, 1)
  }

  /** The digits after an optional leading '+'. */
  function AfterPlus(s: string): string
  {
    if |s| > 0 && s[0] == '+' then s[1..] else s
  }

  /** The validator's direct test: an optional '+' then a digit string d that
      has 9 to 15 digits, or 16 digits of which the first is a '1'. */
  predicate IsValidPhone(s: string)
  {
    var d := AfterPlus(s);
    AllDigits(d) && (9 <= |d| <= 15 || (|d| == 16 && d[0] == '1'))
  }

  /** The direct test accepts exactly what the pattern matches. */
  lemma PhoneCharacterization(s: string)
    ensures PhonePatternMatches(s) <==> IsValidPhone(s)
  {
    var d := AfterPlus(s);
    if PhonePatternMatches(s) {
      if MatchesWith(s, 0, 1) && !MatchesWith(s, 0, 0) {
        assert s[1..] == s[0 + 1..];
        assert d == s;
        forall i | 0 <= i < |s| ensures IsDigit(s[i]) {
          if i > 0 { assert s[i] == s[1..][i - 1]; }
        }
      } else if MatchesWith(s, 1, 1) && !MatchesWith(s, 1, 0) {
        assert d == s[1..];
        forall i | 0 <= i < |d| ensures IsDigit(d[i]) {
          if i > 0 { assert d[i] == s[2..][i - 1]; }
        }
      }
    }
    if IsValidPhone(s) {
      if |s| > 0 && s[0] == '+' {
        if |d| <= 15 {
          assert MatchesWith(s, 1, 0);
        } else {
          assert s[2..] == d[1..];
          assert MatchesWith(s, 1, 1);
        }
      } else {
        if |d| <= 15 {
          assert s[0..] == s;
          assert MatchesWith(s, 0, 0);
        } else {
          assert MatchesWith(s, 0, 1);
        }
      }
    }
  }

  /** Every accepted phone is 9 to 17 characters long, so it always fits the
      column's max_length of 17. */
  lemma AcceptedPhoneFitsColumn(s: string)
    requires PhonePatternMatches(s)
    ensures 9 <= |s| <= PhoneMaxLength
  {
  }

  /** The RegexValidator: its message for a phone the pattern does not match. */
  function ValidatePhone(s: string): (r: Option<string>)
    ensures r.None? <==> PhonePatternMatches(s)
    ensures r.Some? ==> r.value == PhoneMessage
  {
    PhoneCharacterization(s);
    if IsValidPhone(s) then None else Some(PhoneMessage)
  }

  /** '+999999999' (the validator message's own example) is accepted. */
  lemma PhoneExampleAccepted()
    ensures ValidatePhone("+999999999") == None
  {
    var d := AfterPlus("+999999999");
    assert d == "999999999";
    assert AllDigits(d);
  }

  /** A dashed number is refused. */
  lemma PhoneExampleDashed()
    ensures ValidatePhone("123-456-7890") == Some(PhoneMessage)
  {
    var d := AfterPlus("123-456-7890");
    assert d[3] == '-' && !IsDigit('-');
  }

  datatype Customer = Customer(firstName: string, lastName: string, email: string, phone: string, address: string)

  /** `Customer.__str__`. */
  function CustomerText(c: Customer): string
  {
    c.firstName + " " + c.lastName
  }

  /** The display text is the first name, one space, then the last name: both
      names can be read back from it at the position of the first name's end. */
  lemma CustomerTextParts(c: Customer)
    ensures var t := CustomerText(c);
      && |t| == |c.firstName| + 1 + |c.lastName|
      && t[..|c.firstName|] == c.firstName
      && t[|c.firstName|] == ' '
      && t[|c.firstName| + 1..] == c.lastName
  {
  }

  lemma CustomerTextExample()
    ensures CustomerText(Customer("John", "Doe", "", "", "")) == "John Doe"
  {
  }

  // ----- Appointment and Bill -----

  datatype Date = Date(year: int, month: int, day: int)

  const AppointmentStatuses: seq<string> := ["scheduled", "in_progress", "completed", "cancelled"]
  const Priorities: seq<string> := ["low", "medium", "high", "emergency"]
  const BillTypes: seq<string> := ["bill", "estimate"]
  const BillStatuses: seq<string> := ["draft", "sent", "paid", "cancelled"]

  /** An appointment row; `pk` is None until the row is first saved. */
  datatype Appointment = Appointment(
    pk: Option<nat>,
    customer: nat,
    technician: Option<nat>,
    appointmentDate: Date,
    startTime: string,
    endTime: string,
    description: string,
    status: string,
    priority: string,
    notes: string)

  /** A bill row. */
  datatype Bill = Bill(
    customer: nat,
    appointment: Option<nat>,
    billType: string,
    status: string,
    amount: int,
    description: string,
    notes: string,
    dueDate: Option<Date>)

  /** An unsaved appointment with only its required fields: status
      'scheduled', priority 'medium', no technician and blank notes. */
  function NewAppointment(customer: nat, date: Date, startTime: string, endTime: string, description: string): (a: Appointment)
    ensures a.pk == None && a.technician == None && a.notes == ""
    ensures a.status == "scheduled" && a.status in AppointmentStatuses
    ensures a.priority == "medium" && a.priority in Priorities
  {
    Appointment(None, customer, None, date, startTime, endTime, description, "scheduled", "medium", "")
  }

  /** A bill with only customer, appointment and type given: status 'draft',
      amount 0, blank texts and no due date. */
  function NewBill(customer: nat, appointment: Option<nat>, billType: string): (b: Bill)
    ensures b.customer == customer && b.appointment == appointment && b.billType == billType
    ensures b.status == "draft" && b.status in BillStatuses
    ensures b.amount == 0 && b.description == "" && b.notes == "" && b.dueDate == None
  {
    Bill(customer, appointment, billType, "draft", 0, "", "", None)
  }

  /** The bill opened for a newly saved appointment. */
  function DraftBillFor(a: Appointment): Bill
  {
    NewBill(a.customer, a.pk, "bill")
  }

  /** 'overdue', which the bill detail page offers, is not a bill status choice. */
  lemma OverdueIsNotABillStatus()
    ensures "overdue" !in BillStatuses
  {
  }

  /** The keys of the bills that point at appointment a. */
  ghost function BillsPointingAt(bills: map<nat, Bill>, a: nat): set<nat>
  {
    set k | k in bills && bills[k].appointment == Some(a)
  }

  /** Inserting bill b under a fresh key adds that key to the bills pointing
      at b's appointment and to no other appointment's bills. */
  lemma BillsAfterInsert(bills: map<nat, Bill>, k: nat, b: Bill, a: nat)
    requires k !in bills
    ensures BillsPointingAt(bills[k := b], a)
         == BillsPointingAt(bills, a) + (if b.appointment == Some(a) then {k} else {})
  {
  }

  /** The database: appointment and bill tables keyed by primary key, with the
      next key each auto-increment column hands out. */
  class Store {
    var appointments: map<nat, Appointment>
    var bills: map<nat, Bill>
    var nextAppointmentPk: nat
    var nextBillPk: nat
    /** The appointments that were inserted by a save without a primary key. */
    ghost var firstSaved: set<nat>

    /** Keys are below the next key handed out, every stored appointment
        carries its own key, every bill points at a stored appointment (or
        none), and each appointment inserted by a first save has exactly one
        bill. */
    ghost predicate Valid()
      reads this
    {
      && (forall k :: k in appointments ==> k < nextAppointmentPk && appointments[k].pk == Some(k))
      && (forall k :: k in bills ==> k < nextBillPk)
      && (forall k :: k in bills && bills[k].appointment.Some? ==> bills[k].appointment.value in appointments)
      && firstSaved <= appointments.Keys
      && (forall a :: a in firstSaved ==> |BillsPointingAt(bills, a)| == 1)
    }

    constructor ()
      ensures Valid()
      ensures appointments == map[] && bills == map[]
    {
      appointments := map[];
      bills := map[];
      nextAppointmentPk := 1;
      nextBillPk := 1;
      firstSaved := {};
    }

    /** `Appointment.save`. Without a primary key the row is inserted under a
        fresh key and exactly one bill, a draft of type 'bill' for the same
        customer and linked to the new appointment, is created. With a primary
        key the row is written under it (an update, or an insert of that key)
        and no bill is created. */
    method SaveAppointment(a: Appointment) returns (saved: Appointment)
      requires Valid()
      modifies this
      ensures Valid()
      ensures a.pk.None? ==>
        && old(nextAppointmentPk) !in old(appointments)
        && saved == a.(pk := Some(old(nextAppointmentPk)))
        && appointments == old(appointments)[old(nextAppointmentPk) := saved]
        && old(nextBillPk) !in old(bills)
        && bills == old(bills)[old(nextBillPk) := DraftBillFor(saved)]
        && |bills| == |old(bills)| + 1
        && BillsPointingAt(bills, old(nextAppointmentPk)) == {old(nextBillPk)}
      ensures a.pk.Some? ==>
        && saved == a
        && appointments == old(appointments)[a.pk.value := a]
        && bills == old(bills)
    {
      if a.pk.None? {
        saved := InsertNew(a);
      } else {
        saved := a;
        WriteWithKey(a);
      }
    }

    /** The first save: a fresh key for the appointment, and its draft bill. */
    method InsertNew(a: Appointment) returns (saved: Appointment)
      requires Valid() && a.pk.None?
      modifies this
      ensures Valid()
      ensures old(nextAppointmentPk) !in old(appointments)
      ensures saved == a.(pk := Some(old(nextAppointmentPk)))
      ensures appointments == old(appointments)[old(nextAppointmentPk) := saved]
      ensures old(nextBillPk) !in old(bills)
      ensures bills == old(bills)[old(nextBillPk) := DraftBillFor(saved)]
      ensures |bills| == |old(bills)| + 1
      ensures BillsPointingAt(bills, old(nextAppointmentPk)) == {old(nextBillPk)}
    {
      var pk := nextAppointmentPk;
      var billPk := nextBillPk;
      assert pk !in appointments && billPk !in bills;
      saved := a.(pk := Some(pk));
      var bill := DraftBillFor(saved);
      assert BillsPointingAt(bills, pk) == {} by {
        forall k | k in bills ensures bills[k].appointment != Some(pk) {
          if bills[k].appointment.Some? {
            assert bills[k].appointment.value in appointments;
          }
        }
      }
      BillsAfterInsert(bills, billPk, bill, pk);
      forall x | x in firstSaved
        ensures BillsPointingAt(bills[billPk := bill], x) == BillsPointingAt(bills, x)
      {
        BillsAfterInsert(bills, billPk, bill, x);
      }
      appointments := appointments[pk := saved];
      bills := bills[billPk := bill];
      nextAppointmentPk := pk + 1;
      nextBillPk := billPk + 1;
      firstSaved := firstSaved + {pk};
    }

    /** A save with a primary key: the row is written under that key. */
    method WriteWithKey(a: Appointment)
      requires Valid() && a.pk.Some?
      modifies this
      ensures Valid()
      ensures appointments == old(appointments)[a.pk.value := a]
      ensures bills == old(bills)
    {
      var pk := a.pk.value;
      appointments := appointments[pk := a];
      if nextAppointmentPk <= pk {
        nextAppointmentPk := pk + 1;
      }
    }
  }
}
