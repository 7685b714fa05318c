/**
 * The staff forms of the bookings app (bookings_app/forms.py): the table
 * form's capacity choices and number, and the checks `TimeSlotAdminForm.clean`
 * runs before a time slot is saved.
 */
module BookingForms {
  import opened Wrappers
  import opened Queries
  import opened Bookings

  // ---------------------------------------------------------------------
  // Tables
  // ---------------------------------------------------------------------

  /** `TableAdminForm.CAPACITY_CHOICES`. */
  const CapacityChoices: set<int> := {1, 2, 4, 6, 8}

  /** The capacity field: a value outside the choices is refused. */
  function CleanCapacity(value: int): (r: Option<int>)
    ensures r.Some? <==> value in CapacityChoices
    ensures r.Some? ==> r.value == value && 1 <= r.value <= 8 && (r.value == 1 || r.value % 2 == 0)
  {
    if value in CapacityChoices then Some(value) else None
  }

  /**
   * `TableAdminForm.clean_number`: the number the form was initialised with,
   * or else the instance's own; the submitted value plays no part.
   */
  function CleanNumber(initial: Option<int>, instanceNumber: int, submitted: int): (r: int)
    ensures initial.Some? ==> r == initial.value
    ensures initial.None? ==> r == instanceNumber
  {
    if initial.Some? then initial.value else instanceNumber
  }

  /** Whatever number is submitted, the cleaned number is the same. */
  lemma SubmittedNumberIgnored(initial: Option<int>, instanceNumber: int, a: int, b: int)
    ensures CleanNumber(initial, instanceNumber, a) == CleanNumber(initial, instanceNumber, b)
  {
  }

  /**
   * A table has an active reservation: an approved booking that holds it
   * and has not started yet. Pending bookings (approved, no approval date)
   * count; rejected ones do not.
   */
  predicate HasActiveBooking(bookings: seq<Booking>, table: int, c: Clock)
  {
    exists b :: b in bookings && b.approved && table in b.tables && StartsLater(b, c)
  }

  /** The active reservations of a table, in booking order (their codes go into the error messages). */
  function ActiveBookings(bookings: seq<Booking>, table: int, c: Clock): (r: seq<Booking>)
    ensures forall b :: b in r <==> b in bookings && b.approved && table in b.tables && StartsLater(b, c)
    ensures r != [] <==> HasActiveBooking(bookings, table, c)
  {
    var r := Filter(bookings, (b: Booking) => b.approved && table in b.tables && StartsLater(b, c));
    assert r != [] ==> r[0] in r;
    r
  }

  /**
   * The guard the slot form writes for a table it is about to lose, AS
   * WRITTEN: `tables.filter(booking__approved=True).filter(Q(booking__date…))`
   * spans the table's bookings twice, so the approval and the date may be
   * met by two different bookings.
   */
  predicate HasActiveBookingAsWritten(bookings: seq<Booking>, table: int, c: Clock)
  {
    (exists b :: b in bookings && b.approved && table in b.tables) &&
    (exists b :: b in bookings && table in b.tables && StartsLater(b, c))
  }

  /** Every table the intended guard blocks, the written one blocks too. */
  lemma ActiveBookingAsWrittenWeaker(bookings: seq<Booking>, table: int, c: Clock)
    requires HasActiveBooking(bookings, table, c)
    ensures HasActiveBookingAsWritten(bookings, table, c)
  {
    var b :| b in bookings && b.approved && table in b.tables && StartsLater(b, c);
    assert b.approved && table in b.tables;
  }

  /**
   * A table with a past approved booking and a future rejected one is
   * blocked by the written guard, although it has no active reservation.
   */
  lemma ActiveBookingAsWrittenOverblocks(slot: SlotTimes)
    ensures var past := Booking(1, "PASTBOOKN", 9, slot, {7}, 1, true, Some(8), "", 8);
      var rejected := Booking(2, "REJECTEDB", 11, slot, {7}, 2, false, Some(10), "", 9);
      var c := Clock(10, 600);
      HasActiveBookingAsWritten([past, rejected], 7, c) && !HasActiveBooking([past, rejected], 7, c)
  {
    var past := Booking(1, "PASTBOOKN", 9, slot, {7}, 1, true, Some(8), "", 8);
    var rejected := Booking(2, "REJECTEDB", 11, slot, {7}, 2, false, Some(10), "", 9);
    assert past in [past, rejected] && rejected in [past, rejected];
  }

  // ---------------------------------------------------------------------
  // Time slots
  // ---------------------------------------------------------------------

  /** The cleaned fields of the slot form; a field that failed its own validation is None. */
  datatype SlotForm = SlotForm(name: Option<string>, startTime: Option<int>, endTime: Option<int>, tables: Option<set<int>>)

  /** The first check that failed, with what its message names. */
  datatype SlotError =
    | NameTaken(name: string)              // "Ya existe una franja horaria con el nombre '…'."
    | StartNotBeforeEnd                    // "La hora de inicio debe ser anterior a la hora de fin …"
    | Overlaps(names: seq<string>)         // "El horario se superpone con las siguientes franjas: …"
    | NoTables                             // "Debe asignar al menos una mesa a la franja horaria."
    | UnassignBlocked(tables: set<int>)    // "No se pueden desasignar las siguientes mesas …"

  /** Every slot but the one being edited (`exclude(pk=instance.pk)`). */
  function OtherThan(instance: Option<int>): TimeSlot -> bool
  {
    (s: TimeSlot) => instance.None? || s.id != instance.value
  }

  /** `start_time__lt=end, end_time__gt=start`: the half-open intervals share a minute. */
  function OverlapWith(start: int, end: int): TimeSlot -> bool
  {
    (s: TimeSlot) => s.startTime < end && s.endTime > start
  }

  function NamesOf(slots: seq<TimeSlot>): (r: seq<string>)
    ensures |r| == |slots| && forall i :: 0 <= i < |slots| ==> r[i] == slots[i].name
  {
    seq(|slots|, i requires 0 <= i < |slots| => slots[i].name)
  }

  /** Another slot already has the name. */
  predicate NameIsTaken(slots: seq<TimeSlot>, instance: Option<int>, name: string)
  {
    exists s :: s in slots && OtherThan(instance)(s) && s.name == name
  }

  /** The other slots the times overlap, in order. */
  function Overlapping(slots: seq<TimeSlot>, instance: Option<int>, start: int, end: int): (r: seq<TimeSlot>)
    ensures forall s :: s in r <==> s in slots && OtherThan(instance)(s) && s.startTime < end && s.endTime > start
  {
    Filter(Filter(slots, OverlapWith(start, end)), OtherThan(instance))
  }

  /** The tables taken off the slot that have an active reservation. */
  function UnassignConflicts(current: set<int>, selected: set<int>, bookings: seq<Booking>, c: Clock): (r: set<int>)
    ensures forall t :: t in r <==> t in current && t !in selected && HasActiveBooking(bookings, t, c)
  {
    set t | t in current - selected && HasActiveBooking(bookings, t, c)
  }

  /** The name check applies: a non-empty name another slot has. */
  predicate NameFails(f: SlotForm, slots: seq<TimeSlot>, instance: Option<TimeSlot>)
  {
    f.name.Some? && f.name.value != "" && NameIsTaken(slots, IdOf(instance), f.name.value)
  }

  /** The times check applies: both times given and the start not before the end. */
  predicate TimesFail(f: SlotForm)
  {
    f.startTime.Some? && f.endTime.Some? && f.startTime.value >= f.endTime.value
  }

  /** The overlap check applies: both times given and some other slot overlaps them. */
  predicate OverlapFails(f: SlotForm, slots: seq<TimeSlot>, instance: Option<TimeSlot>)
  {
    f.startTime.Some? && f.endTime.Some? && Overlapping(slots, IdOf(instance), f.startTime.value, f.endTime.value) != []
  }

  /** The tables check applies: no valid selection or an empty one. */
  predicate TablesFail(f: SlotForm)
  {
    f.tables.None? || f.tables.value == {}
  }

  /** The un-assignment check applies: an edited slot loses a table that has an active reservation. */
  predicate UnassignFails(f: SlotForm, instance: Option<TimeSlot>, bookings: seq<Booking>, c: Clock)
  {
    instance.Some? && f.tables.Some? && UnassignConflicts(instance.value.tables, f.tables.value, bookings, c) != {}
  }

  function IdOf(instance: Option<TimeSlot>): Option<int>
  {
    if instance.Some? then Some(instance.value.id) else None
  }

  /**
   * `TimeSlotAdminForm.clean`: the checks run in order (name, times,
   * overlap, tables, un-assignment) and the first that fails is the error
   * reported; None when the slot may be saved. `instance` is the slot being
   * edited, None when adding.
   */
  function TimeSlotClean(f: SlotForm, instance: Option<TimeSlot>, slots: seq<TimeSlot>, bookings: seq<Booking>, c: Clock)
    : (r: Option<SlotError>)
    ensures NameFails(f, slots, instance) ==> r == Some(NameTaken(f.name.value))
    ensures !NameFails(f, slots, instance) && TimesFail(f) ==> r == Some(StartNotBeforeEnd)
    ensures !NameFails(f, slots, instance) && !TimesFail(f) && OverlapFails(f, slots, instance) ==>
      r == Some(Overlaps(NamesOf(Overlapping(slots, IdOf(instance), f.startTime.value, f.endTime.value))))
    ensures !NameFails(f, slots, instance) && !TimesFail(f) && !OverlapFails(f, slots, instance) && TablesFail(f) ==>
      r == Some(NoTables)
    ensures (!NameFails(f, slots, instance) && !TimesFail(f) && !OverlapFails(f, slots, instance) && !TablesFail(f) &&
      UnassignFails(f, instance, bookings, c)) ==>
      r == Some(UnassignBlocked(UnassignConflicts(instance.value.tables, f.tables.value, bookings, c)))
    ensures r.None? <==>
      !NameFails(f, slots, instance) && !TimesFail(f) && !OverlapFails(f, slots, instance) && !TablesFail(f) &&
      !UnassignFails(f, instance, bookings, c)
  {
    var id := IdOf(instance);
    if f.name.Some? && f.name.value != "" && NameIsTaken(slots, id, f.name.value) then Some(NameTaken(f.name.value))
    else if f.startTime.Some? && f.endTime.Some? && f.startTime.value >= f.endTime.value then Some(StartNotBeforeEnd)
    else if f.startTime.Some? && f.endTime.Some? && Overlapping(slots, id, f.startTime.value, f.endTime.value) != [] then
      Some(Overlaps(NamesOf(Overlapping(slots, id, f.startTime.value, f.endTime.value))))
    else if f.tables.None? || f.tables.value == {} then Some(NoTables)
    else if instance.Some? && UnassignConflicts(instance.value.tables, f.tables.value, bookings, c) != {} then
      Some(UnassignBlocked(UnassignConflicts(instance.value.tables, f.tables.value, bookings, c)))
    else None
  }

  /** Two slots share no minute: one ends no later than the other starts. */
  predicate Disjoint(a: TimeSlot, b: TimeSlot)
  {
    a.endTime <= b.startTime || b.endTime <= a.startTime
  }

  /** The slots the form keeps: distinct ids and names, each a proper interval, no two overlapping. */
  predicate WellFormedSlots(slots: seq<TimeSlot>)
  {
    (forall s :: s in slots ==> s.startTime < s.endTime) &&
    (forall i, j :: 0 <= i < j < |slots| ==>
      slots[i].id != slots[j].id && slots[i].name != slots[j].name && Disjoint(slots[i], slots[j]))
  }

  /**
   * A slot added through a form that passed the checks, with a name and
   * both times, keeps the slots well formed: a fresh id, a name no other
   * slot has, start before end and no overlap. Slots that only touch are
   * allowed.
   */
  lemma CleanAddKeepsSlotsWellFormed(slots: seq<TimeSlot>, f: SlotForm, bookings: seq<Booking>, c: Clock, id: int)
    requires WellFormedSlots(slots)
    requires forall s :: s in slots ==> s.id != id
    requires f.name.Some? && f.name.value != "" && f.startTime.Some? && f.endTime.Some? && f.tables.Some?
    requires TimeSlotClean(f, None, slots, bookings, c).None?
    ensures WellFormedSlots(slots + [TimeSlot(id, f.name.value, f.startTime.value, f.endTime.value, f.tables.value)])
  {
    var n := TimeSlot(id, f.name.value, f.startTime.value, f.endTime.value, f.tables.value);
    var r := slots + [n];
    forall s | s in slots ensures s.name != n.name && Disjoint(s, n) {
      assert OtherThan(None)(s);
      assert s !in Overlapping(slots, None, n.startTime, n.endTime);
    }
    forall i, j | 0 <= i < j < |r| ensures r[i].id != r[j].id && r[i].name != r[j].name && Disjoint(r[i], r[j]) {
      assert r[i] == slots[i];
      if j == |slots| { assert slots[i] in slots; } else { assert r[j] == slots[j]; }
    }
  }

  /** Two slots that only touch (one ends when the other starts) pass the overlap check. */
  lemma TouchingSlotsDoNotOverlap(slots: seq<TimeSlot>, start: int, end: int)
    requires forall s :: s in slots ==> s.endTime == start || s.startTime == end
    ensures Overlapping(slots, None, start, end) == []
  {
  }

  /** Editing a slot without renaming it or moving its times never clashes with the slot itself. */
  lemma EditDoesNotClashWithItself(slots: seq<TimeSlot>, s: TimeSlot)
    requires s.startTime < s.endTime
    requires forall o :: o in slots && o.id != s.id ==> o.name != s.name && Disjoint(o, s)
    ensures !NameIsTaken(slots, Some(s.id), s.name)
    ensures forall o :: o !in Overlapping(slots, Some(s.id), s.startTime, s.endTime)
  {
  }
}
