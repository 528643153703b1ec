/** The dashboard page: appointment counts by status, one calendar event per
    appointment, and the event colour chosen from its status. */
module Dashboard {
  import opened Wrappers
  import AppointmentModels

  datatype CustomerSummary = CustomerSummary(firstName: string, lastName: string)

  /** An appointment as the API lists it. */
  datatype Appointment = Appointment(
    id: int,
    customer: CustomerSummary,
    appointmentDate: string,
    startTime: string,
    endTime: string,
    status: string,
    priority: string)

  datatype Stats = Stats(total: nat, scheduled: nat, inProgress: nat, completed: nat, cancelled: nat)

  /** `appointments.filter(a => a.status === status)`. */
  function WithStatus(appointments: seq<Appointment>, status: string): (r: seq<Appointment>)
    ensures |r| <= |appointments|
    ensures forall a :: a in r ==> a in appointments && a.status == status
    ensures forall a :: a in appointments && a.status == status ==> a in r
  {
    if appointments == [] then []
    else if appointments[0].status == status then [appointments[0]] + WithStatus(appointments[1..], status)
    else WithStatus(appointments[1..], status)
  }

  function CountStatus(appointments: seq<Appointment>, status: string): nat
  {
    |WithStatus(appointments, status)|
  }

  /** The statuses of the appointments, in order. */
  function Statuses(appointments: seq<Appointment>): (r: seq<string>)
    ensures |r| == |appointments| && forall i :: 0 <= i < |r| ==> r[i] == appointments[i].status
  {
    seq(|appointments|, i requires 0 <= i < |appointments| => appointments[i].status)
  }

  /** The stats object computed once the list arrives. */
  function ComputeStats(appointments: seq<Appointment>): Stats
  {
    Stats(
      |appointments|,
      CountStatus(appointments, "scheduled"),
      CountStatus(appointments, "in_progress"),
      CountStatus(appointments, "completed"),
      CountStatus(appointments, "cancelled"))
  }

  /** Each status count is the number of appointments with exactly that
      status: its multiplicity among the appointments' statuses. */
  lemma {:induction false} CountIsMultiplicity(appointments: seq<Appointment>, status: string)
    ensures CountStatus(appointments, status) == multiset(Statuses(appointments))[status]
    decreases |appointments|
  {
    if appointments != [] {
      var rest := appointments[1..];
      CountIsMultiplicity(rest, status);
      assert Statuses(appointments) == [appointments[0].status] + Statuses(rest);
    }
  }

  /** The four counts together: at most the total, and exactly the total when
      every status is one of the four model choices. */
  lemma {:induction false} CountsBoundedByTotal(appointments: seq<Appointment>)
    ensures var s := ComputeStats(appointments);
      s.scheduled + s.inProgress + s.completed + s.cancelled <= s.total
    ensures (forall i :: 0 <= i < |appointments| ==> appointments[i].status in AppointmentModels.AppointmentStatuses)
            ==> var s := ComputeStats(appointments);
                s.scheduled + s.inProgress + s.completed + s.cancelled == s.total
    decreases |appointments|
  {
    if appointments != [] {
      var rest := appointments[1..];
      CountsBoundedByTotal(rest);
      assert forall i :: 0 <= i < |rest| ==> rest[i] == appointments[i + 1];
    }
  }

  /** Every count is at most the total, and `stats.total` is the list's length. */
  lemma StatsBounds(appointments: seq<Appointment>)
    ensures var s := ComputeStats(appointments);
      && s.total == |appointments|
      && s.scheduled <= s.total && s.inProgress <= s.total
      && s.completed <= s.total && s.cancelled <= s.total
  {
  }

  /** What the page holds after the list request. */
  datatype PageState = PageState(loading: bool, error: Option<string>, appointments: seq<Appointment>, stats: Stats)

  function InitialState(): PageState
  {
    PageState(true, None, [], Stats(0, 0, 0, 0, 0))
  }

  /** The effect: on an answer the list and its stats are stored; on an error
      its message is; loading ends either way. */
  function AfterFetch(response: Result<seq<Appointment>, string>): (r: PageState)
    ensures !r.loading
    ensures response.Ok? ==> r.error == None && r.appointments == response.value
                             && r.stats == ComputeStats(response.value) && r.stats.total == |response.value|
    ensures response.Err? ==> r.error == Some(response.error) && r.appointments == []
                              && r.stats == Stats(0, 0, 0, 0, 0)
  {
    match response
    case Ok(list) => PageState(false, None, list, ComputeStats(list))
    case Err(message) => InitialState().(loading := false, error := Some(message))
  }

  /** A calendar event. `start` and `end` are the texts handed to `new Date`. */
  datatype Event = Event(id: int, title: string, start: string, end: string, status: string, priority: string)

  function ToEvent(a: Appointment): Event
  {
    Event(a.id, a.customer.firstName + " " + a.customer.lastName,
          a.appointmentDate + "T" + a.startTime, a.appointmentDate + "T" + a.endTime,
          a.status, a.priority)
  }

  /** One event per appointment, in order, carrying its id, status and
      priority and titled with the customer's name. */
  function Events(appointments: seq<Appointment>): (r: seq<Event>)
    ensures |r| == |appointments|
    ensures forall i :: 0 <= i < |r| ==>
      && r[i].id == appointments[i].id
      && r[i].status == appointments[i].status
      && r[i].priority == appointments[i].priority
      && r[i].title == appointments[i].customer.firstName + " " + appointments[i].customer.lastName
  {
    seq(|appointments|, i requires 0 <= i < |appointments| => ToEvent(appointments[i]))
  }

  const DefaultColor: string := "#3174ad"
  const CompletedColor: string := "#28a745"
  const CancelledColor: string := "#dc3545"
  const InProgressColor: string := "#ffc107"

  /** `eventStyleGetter`'s choice of background colour. */
  function EventColor(status: string): string
  {
    if status == "completed" then CompletedColor
    else if status == "cancelled" then CancelledColor
    else if status == "in_progress" then InProgressColor
    else DefaultColor
  }

  /** Completed is green, cancelled red, in progress amber, and everything
      else (scheduled, or any other text) the default blue; the four colours
      are distinct, so the colour tells the three named statuses apart. */
  lemma EventColorMapping(status: string)
    ensures status == "completed" <==> EventColor(status) == "#28a745"
    ensures status == "cancelled" <==> EventColor(status) == "#dc3545"
    ensures status == "in_progress" <==> EventColor(status) == "#ffc107"
    ensures status !in ["completed", "cancelled", "in_progress"] <==> EventColor(status) == "#3174ad"
  {
  }

  datatype Style = Style(backgroundColor: string, borderRadius: string, opacity: real, color: string, border: string, display: string)

  function EventStyle(e: Event): (r: Style)
    ensures r.backgroundColor == EventColor(e.status)
    ensures r.opacity == 0.8 && r.color == "white" && r.display == "block"
  {
    Style(EventColor(e.status), "0px", 0.8, "white", "0px", "block")
  }
}
