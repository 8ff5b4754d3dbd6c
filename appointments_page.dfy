/**
 * The appointments page: the fixed catalog of bookable time-of-day
 * labels, the page state the booking modal works on, the request sent
 * when a booking is confirmed, the per-status counters and the status
 * colours.  The page sends a booking request; what the server does with
 * it is not part of this module.
 */
module AppointmentsPage {

  import opened Common
  import opened PatientSchema

  /** The twelve slots offered for booking, in display order. */
  const AvailableSlots: seq<string> := [
    "09:00 AM", "09:30 AM", "10:00 AM", "10:30 AM", "11:00 AM", "11:30 AM",
    "02:00 PM", "02:30 PM", "03:00 PM", "03:30 PM", "04:00 PM", "04:30 PM"
  ]

  // ---------------------------------------------------------------------
  // Reading a name back as a time of day

  function DigitValue(c: char): int
  {
    c as int - '0' as int
  }

  /** Minutes after midnight named by a name of the form "hh:mm AM" or "hh:mm PM". */
  function LabelMinutes(name: string): int
    requires |name| == 8
  {
    var h := DigitValue(name[0]) * 10 + DigitValue(name[1]);
    var m := DigitValue(name[3]) * 10 + DigitValue(name[4]);
    var h24 := if name[6] == 'P' && h != 12 then h + 12 else if name[6] == 'A' && h == 12 then 0 else h;
    h24 * 60 + m
  }

  /** Morning slots start at 09:00, afternoon slots at 14:00, each block in half-hour steps. */
  function SlotStart(k: nat): int
  {
    if k < 6 then 9 * 60 + 30 * k else 14 * 60 + 30 * (k - 6)
  }

  lemma MorningSlots()
    ensures forall k :: 0 <= k < 6 ==> |AvailableSlots[k]| == 8 && LabelMinutes(AvailableSlots[k]) == SlotStart(k)
  {
  }

  lemma AfternoonSlots()
    ensures forall k :: 6 <= k < 12 ==> |AvailableSlots[k]| == 8 && LabelMinutes(AvailableSlots[k]) == SlotStart(k)
  {
  }

  /**
   * The catalog is twelve labels, 09:00 AM to 11:30 AM and then 02:00 PM
   * to 04:30 PM in half-hour steps; so the labels are pairwise distinct and
   * in increasing time order.
   */
  lemma CatalogIsHalfHourSteps()
    ensures |AvailableSlots| == 12
    ensures forall k :: 0 <= k < 12 ==> |AvailableSlots[k]| == 8 && LabelMinutes(AvailableSlots[k]) == SlotStart(k)
    ensures forall i, j :: 0 <= i < j < 12 ==> LabelMinutes(AvailableSlots[i]) < LabelMinutes(AvailableSlots[j])
    ensures forall i, j :: 0 <= i < j < 12 ==> AvailableSlots[i] != AvailableSlots[j]
  {
    MorningSlots();
    AfternoonSlots();
  }

  // ---------------------------------------------------------------------
  // The booking request

  /** `PATCH /api/patient/<target>` with body `{appointmentStatus, appointmentDate}`. */
  datatype PatchRequest = PatchRequest(target: nat, appointmentStatus: Status, appointmentDate: string)

  /** Booking is offered only on records still awaiting a slot. */
  predicate BookingOffered(r: Record)
    ensures BookingOffered(r) <==> StatusLabel(r.appointmentStatus) == "Pending"
  {
    r.appointmentStatus == Pending
  }

  /**
   * The request `handleBookSlot` sends for the current selection: none
   * without a chosen slot or a chosen record.
   */
  function BookingRequest(selected: Option<Record>, slot: string): (r: Option<PatchRequest>)
    ensures r.Some? <==> slot != "" && selected.Some?
    ensures r.Some? ==> r.value.target == selected.value.id
    ensures r.Some? ==> r.value.appointmentStatus == Scheduled && r.value.appointmentDate == slot
  {
    if slot == "" || selected.None? then None
    else Some(PatchRequest(selected.value.id, Scheduled, slot))
  }

  /** A booking request always names a catalog slot and a record that was offered booking. */
  lemma RequestNamesCatalogSlot(selected: Option<Record>, slot: string)
    requires slot == "" || slot in AvailableSlots
    requires selected.Some? ==> BookingOffered(selected.value)
    ensures BookingRequest(selected, slot).Some? ==>
      && BookingRequest(selected, slot).value.appointmentDate in AvailableSlots
      && selected.value.appointmentStatus == Pending
  {
  }

  // ---------------------------------------------------------------------
  // Counters and colours

  /**
   * `appointments.filter(a => a.appointmentStatus === s)`: every record of
   * status `s`, as often as it occurs, and no other record.
   */
  function WithStatus(apps: seq<Record>, s: Status): (r: seq<Record>)
    ensures forall x :: multiset(r)[x] == if x.appointmentStatus == s then multiset(apps)[x] else 0
    ensures |r| <= |apps|
  {
    if apps == [] then []
    else
      var rest := WithStatus(apps[1..], s);
      assert apps == [apps[0]] + apps[1..];
      if apps[0].appointmentStatus == s then [apps[0]] + rest else rest
  }

  /** The length of that filter: the number of records of status `s`. */
  function CountStatus(apps: seq<Record>, s: Status): (n: nat)
    ensures n == |WithStatus(apps, s)| && n <= |apps|
    ensures n == 0 <==> forall x :: x in apps ==> x.appointmentStatus != s
  {
    var r := WithStatus(apps, s);
    assert forall x :: x in r <==> x in multiset(r);
    |r|
  }

  /** Counting one record at a time. */
  lemma CountStep(apps: seq<Record>, s: Status)
    requires apps != []
    ensures CountStatus(apps, s) == (if apps[0].appointmentStatus == s then 1 else 0) + CountStatus(apps[1..], s)
  {
  }

  /** Every record has exactly one of the four statuses, so the four counts add up to the total. */
  lemma {:induction false} CountsPartition(apps: seq<Record>)
    ensures CountStatus(apps, Pending) + CountStatus(apps, Scheduled)
          + CountStatus(apps, Completed) + CountStatus(apps, Cancelled) == |apps|
  {
    if apps != [] {
      CountsPartition(apps[1..]);
      CountStep(apps, Pending);
      CountStep(apps, Scheduled);
      CountStep(apps, Completed);
      CountStep(apps, Cancelled);
    }
  }

  /** The three counters the page shows; Cancelled records are not counted. */
  datatype Counters = Counters(pending: nat, scheduled: nat, completed: nat)

  function ShownCounters(apps: seq<Record>): (c: Counters)
    ensures c == Counters(CountStatus(apps, Pending), CountStatus(apps, Scheduled), CountStatus(apps, Completed))
    ensures c.pending + c.scheduled + c.completed == |apps| - CountStatus(apps, Cancelled)
    ensures c.pending + c.scheduled + c.completed <= |apps|
  {
    CountsPartition(apps);
    Counters(CountStatus(apps, Pending), CountStatus(apps, Scheduled), CountStatus(apps, Completed))
  }

  const Gray: string := "#6b7280"

  /** `getStatusColor`: the accent colour of a status name, gray for anything else. */
  function StatusColor(name: string): (c: string)
    ensures name !in StatusLabels <==> c == Gray
  {
    if name == "Pending" then "#f59e0b"
    else if name == "Scheduled" then "#3b82f6"
    else if name == "Completed" then "#10b981"
    else if name == "Cancelled" then "#ef4444"
    else Gray
  }

  datatype Badge = Badge(bg: string, text: string)

  function BadgeOf(s: Status): Badge
  {
    match s
    case Pending => Badge("#fef3c7", "#92400e")
    case Scheduled => Badge("#dbeafe", "#1e40af")
    case Completed => Badge("#d1fae5", "#065f46")
    case Cancelled => Badge("#fee2e2", "#7f1d1d")
  }

  /**
   * The names a plain JavaScript object literal answers although they are
   * not its own keys: the properties inherited from `Object.prototype`.
   * Looking one of them up in the badge table yields a truthy non-badge,
   * whose `bg` and `text` are undefined.
   */
  const InheritedNames: seq<string> := [
    "constructor", "hasOwnProperty", "isPrototypeOf", "propertyIsEnumerable",
    "toLocaleString", "toString", "valueOf", "__proto__",
    "__defineGetter__", "__defineSetter__", "__lookupGetter__", "__lookupSetter__"
  ]

  /**
   * `getStatusBadge`: `colors[status] || colors.Pending`.  `None` is the
   * unstyled badge an inherited name produces.
   */
  function StatusBadge(name: string): (b: Option<Badge>)
    ensures forall s :: name == StatusLabel(s) ==> b == Some(BadgeOf(s))
    ensures name !in StatusLabels && name !in InheritedNames ==> b == Some(BadgeOf(Pending))
    ensures b.None? <==> name in InheritedNames
  {
    match ParseStatus(name)
    case Some(s) => Some(BadgeOf(s))
    case None => if name in InheritedNames then None else Some(BadgeOf(Pending))
  }

  /**
   * The four statuses get four different colours and badges; any other
   * name that is not inherited looks like Pending in its badge but not in
   * its accent colour.
   */
  lemma ColoursDistinguishStatuses(s: Status, t: Status, name: string)
    requires s != t && name !in StatusLabels && name !in InheritedNames
    ensures StatusColor(StatusLabel(s)) != StatusColor(StatusLabel(t))
    ensures StatusBadge(StatusLabel(s)) != StatusBadge(StatusLabel(t))
    ensures StatusBadge(name) == StatusBadge("Pending")
    ensures StatusColor(name) != StatusColor("Pending")
  {
    StatusRoundTrip(s);
    StatusRoundTrip(t);
  }

  /** A status read from a stored record always gets its own badge. */
  lemma StoredStatusHasBadge(r: Record)
    ensures StatusBadge(StatusLabel(r.appointmentStatus)) == Some(BadgeOf(r.appointmentStatus))
  {
    StatusRoundTrip(r.appointmentStatus);
  }

  // ---------------------------------------------------------------------
  // Page state

  /** What `fetchAppointments` gets back. */
  datatype FetchOutcome =
    | Fetched(patients: seq<Record>)
    | FetchRejected(error: string)
    | FetchThrew

  /** What the PATCH call of `handleBookSlot` gets back. */
  datatype BookingOutcome = BookingOk | BookingRejected | BookingThrew

  /** The error text `fetchAppointments` leaves, given the old one. */
  function FetchError(outcome: FetchOutcome, old_error: string): (e: string)
    ensures outcome.Fetched? ==> e == old_error
    ensures !outcome.Fetched? ==> e != ""
    ensures outcome.FetchRejected? && outcome.error != "" ==> e == outcome.error
  {
    match outcome
    case Fetched(_) => old_error
    case FetchRejected(e) => if e != "" then e else "Failed to fetch appointments"
    case FetchThrew => "Error fetching appointments"
  }

  class Page {
    var userId: string
    var appointments: seq<Record>
    var loading: bool
    var error: string
    var selectedAppointment: Option<Record>
    var showSlotBooking: bool
    var selectedSlot: string

    /** The selected slot is empty or a catalog name; only a Pending record is ever selected. */
    ghost predicate Valid()
      reads this
    {
      && (selectedSlot == "" || selectedSlot in AvailableSlots)
      && (selectedAppointment.Some? ==> BookingOffered(selectedAppointment.value))
    }

    constructor (userId: string)
      ensures Valid()
      ensures this.userId == userId && appointments == [] && loading && error == ""
      ensures selectedAppointment == None && !showSlotBooking && selectedSlot == ""
    {
      this.userId := userId;
      appointments := [];
      loading := true;
      error := "";
      selectedAppointment := None;
      showSlotBooking := false;
      selectedSlot := "";
    }

    /** `fetchAppointments(userId)` with the call's outcome given. */
    method FetchAppointments(outcome: FetchOutcome)
      requires Valid()
      modifies this
      ensures Valid()
      ensures appointments == (if outcome.Fetched? then outcome.patients else old(appointments))
      ensures error == FetchError(outcome, old(error))
      ensures !loading
      ensures userId == old(userId) && selectedAppointment == old(selectedAppointment)
      ensures showSlotBooking == old(showSlotBooking) && selectedSlot == old(selectedSlot)
    {
      loading := true;
      match outcome {
        case Fetched(patients) =>
          appointments := patients;
        case FetchRejected(e) =>
          error := if e != "" then e else "Failed to fetch appointments";
        case FetchThrew =>
          error := "Error fetching appointments";
      }
      loading := false;
    }

    /** The "Book Slot" button of a listed Pending record. */
    method OpenSlotBooking(r: Record)
      requires Valid()
      requires r in appointments && BookingOffered(r)
      modifies this
      ensures Valid()
      ensures selectedAppointment == Some(r) && showSlotBooking
      ensures userId == old(userId) && appointments == old(appointments) && loading == old(loading)
      ensures error == old(error) && selectedSlot == old(selectedSlot)
    {
      selectedAppointment := Some(r);
      showSlotBooking := true;
    }

    /** A slot button of the open modal. */
    method SelectSlot(slot: string)
      requires Valid()
      requires showSlotBooking && selectedAppointment.Some? && slot in AvailableSlots
      modifies this
      ensures Valid()
      ensures selectedSlot == slot
      ensures userId == old(userId) && appointments == old(appointments) && loading == old(loading)
      ensures error == old(error) && selectedAppointment == old(selectedAppointment)
      ensures showSlotBooking == old(showSlotBooking)
    {
      selectedSlot := slot;
    }

    /** The modal's Cancel button. */
    method CancelSlotBooking()
      requires Valid()
      modifies this
      ensures Valid()
      ensures !showSlotBooking && selectedSlot == ""
      ensures userId == old(userId) && appointments == old(appointments) && loading == old(loading)
      ensures error == old(error) && selectedAppointment == old(selectedAppointment)
    {
      showSlotBooking := false;
      selectedSlot := "";
    }

    /**
     * `handleBookSlot`, with the outcome of the PATCH call and of the
     * refetch that follows a success given.  Returns the request sent.
     */
    method BookSlot(outcome: BookingOutcome, refetch: FetchOutcome) returns (sent: Option<PatchRequest>)
      requires Valid()
      modifies this
      ensures Valid()
      ensures sent == BookingRequest(old(selectedAppointment), old(selectedSlot))
      ensures sent.Some? ==> sent.value.appointmentDate in AvailableSlots
      ensures sent.None? || outcome != BookingOk ==>
        && appointments == old(appointments) && error == old(error) && loading == old(loading)
        && showSlotBooking == old(showSlotBooking) && selectedSlot == old(selectedSlot)
      ensures sent.Some? && outcome == BookingOk ==>
        && !showSlotBooking && selectedSlot == "" && !loading
        && appointments == (if refetch.Fetched? then refetch.patients else old(appointments))
        && error == FetchError(refetch, old(error))
      ensures userId == old(userId) && selectedAppointment == old(selectedAppointment)
    {
      sent := BookingRequest(selectedAppointment, selectedSlot);
      if sent.None? {
        return;
      }
      if outcome != BookingOk {
        return;
      }
      showSlotBooking := false;
      selectedSlot := "";
      FetchAppointments(refetch);
    }
  }

}
