/**
 * The booking domain's records and the read-only queries over them
 * (bookings_app/managers.py): the classification of bookings by their
 * approval flags and by the clock, the next booking, the time slots still
 * open on a date and the tables still free for a date and a slot.
 *
 * A queryset is a sequence of records; a filter keeps the records that
 * satisfy a predicate, in their order; `order_by` is a sort by key.
 * Dates are day numbers and times are minutes since midnight, so that
 * comparing them is comparing integers.
 */
module Bookings {
  import opened Wrappers
  import opened Queries

  /** The local date and time, read once per request and compared against by every filter. */
  datatype Clock = Clock(today: int, now: int)

  /** A named daily window and the tables assigned to it. */
  datatype TimeSlot = TimeSlot(id: int, name: string, startTime: int, endTime: int, tables: set<int>)

  /** A physical table: its row id, its display number and its number of seats. */
  datatype Table = Table(id: int, number: int, capacity: int, description: string)

  /** A booking's slot as the `time_slot__…` lookups read it through the join. */
  datatype SlotTimes = SlotTimes(id: int, startTime: int, endTime: int)

  /**
   * A booking. `approved` with no `approvalDate` is a request awaiting the
   * staff's decision; `approvalDate` is set when staff accept or reject.
   */
  datatype Booking = Booking(
    id: int,
    code: string,
    date: int,
    slot: SlotTimes,
    tables: set<int>,
    user: int,
    approved: bool,
    approvalDate: Option<int>,
    observations: string,
    issueDate: int)

  function TimesOf(ts: TimeSlot): SlotTimes
  {
    SlotTimes(ts.id, ts.startTime, ts.endTime)
  }

  // ---------------------------------------------------------------------
  // Classification predicates
  // ---------------------------------------------------------------------

  /** `aprobadas`: approved and decided by staff. */
  predicate IsApproved(b: Booking)
  {
    b.approved && b.approvalDate.Some?
  }

  /** `pendientes`: requested and awaiting the staff's decision. */
  predicate IsPending(b: Booking)
  {
    b.approved && b.approvalDate.None?
  }

  /** `rechazadas`: the approved flag is off, whatever the approval date. */
  predicate IsRejected(b: Booking)
  {
    !b.approved
  }

  /** `sin_confirmar`: undecided and its slot has started (the start, not the end, is compared). */
  predicate IsUnconfirmed(b: Booking, c: Clock)
  {
    b.approvalDate.None? &&
    (b.date < c.today || (b.date == c.today && b.slot.startTime < c.now))
  }

  /** The slot of b has not started yet. */
  predicate StartsLater(b: Booking, c: Clock)
  {
    b.date > c.today || (b.date == c.today && b.slot.startTime > c.now)
  }

  /** `futuras`: approved and not yet started. */
  predicate IsFuture(b: Booking, c: Clock)
  {
    IsApproved(b) && StartsLater(b, c)
  }

  /** The slot of b has not ended yet (its end time counts as not ended). */
  predicate EndsLater(b: Booking, c: Clock)
  {
    b.date > c.today || (b.date == c.today && b.slot.endTime >= c.now)
  }

  /** The slot of b has ended. */
  predicate Ended(b: Booking, c: Clock)
  {
    b.date < c.today || (b.date == c.today && b.slot.endTime < c.now)
  }

  function EndsLaterAt(c: Clock): Booking -> bool
  {
    b => EndsLater(b, c)
  }

  function EndedAt(c: Clock): Booking -> bool
  {
    b => Ended(b, c)
  }

  /** The `proxima` filter: approved and its slot has not ended yet. */
  predicate IsUpcoming(b: Booking, c: Clock)
  {
    IsApproved(b) && EndsLater(b, c)
  }

  /** `historial_aprobadas`: approved and its slot has ended. */
  predicate IsHistory(b: Booking, c: Clock)
  {
    IsApproved(b) && Ended(b, c)
  }

  // ---------------------------------------------------------------------
  // The queries of BookingQuerySet
  // ---------------------------------------------------------------------

  function DelUsuario(qs: seq<Booking>, user: int): (r: seq<Booking>)
    ensures forall b :: b in r <==> b in qs && b.user == user
  {
    Filter(qs, (b: Booking) => b.user == user)
  }

  function Aprobadas(qs: seq<Booking>): (r: seq<Booking>)
    ensures forall b :: b in r <==> b in qs && b.approved && b.approvalDate.Some?
  {
    Filter(qs, IsApproved)
  }

  function Pendientes(qs: seq<Booking>): (r: seq<Booking>)
    ensures forall b :: b in r <==> b in qs && b.approved && b.approvalDate.None?
  {
    Filter(qs, IsPending)
  }

  function Rechazadas(qs: seq<Booking>): (r: seq<Booking>)
    ensures forall b :: b in r <==> b in qs && !b.approved
  {
    Filter(qs, IsRejected)
  }

  function SinConfirmar(qs: seq<Booking>, c: Clock): (r: seq<Booking>)
    ensures forall b :: b in r <==>
      b in qs && b.approvalDate.None? && (b.date < c.today || (b.date == c.today && b.slot.startTime < c.now))
  {
    Filter(qs, (b: Booking) => IsUnconfirmed(b, c))
  }

  function Futuras(qs: seq<Booking>, c: Clock): (r: seq<Booking>)
    ensures forall b :: b in r ==> b in Aprobadas(qs)
    ensures forall b :: b in r <==>
      b in qs && IsApproved(b) && (b.date > c.today || (b.date == c.today && b.slot.startTime > c.now))
  {
    Filter(Aprobadas(qs), (b: Booking) => StartsLater(b, c))
  }

  /** Ascending by (date, start time). */
  function AscKey(b: Booking): (int, int)
  {
    (b.date, b.slot.startTime)
  }

  /** Descending by (date, start time). */
  function DescKey(b: Booking): (int, int)
  {
    (-b.date, -b.slot.startTime)
  }

  /** The queryset behind `proxima`: upcoming approved bookings, earliest first. */
  function ProximaQs(qs: seq<Booking>, c: Clock): (r: seq<Booking>)
    ensures forall b :: b in r <==> b in qs && IsUpcoming(b, c)
    ensures SortedBy(r, AscKey)
  {
    var f := Filter(Aprobadas(qs), EndsLaterAt(c));
    var r := SortBy(f, AscKey);
    assert forall b :: b in r <==> b in f by {
      forall b ensures b in r <==> b in f { SortByMembership(f, AscKey, b); }
    }
    r
  }

  /** `historial_aprobadas`: approved bookings whose slot has ended, latest first. */
  function HistorialAprobadas(qs: seq<Booking>, c: Clock): (r: seq<Booking>)
    ensures forall b :: b in r <==> b in qs && IsHistory(b, c)
    ensures SortedBy(r, DescKey)
  {
    var f := Filter(Aprobadas(qs), EndedAt(c));
    var r := SortBy(f, DescKey);
    assert forall b :: b in r <==> b in f by {
      forall b ensures b in r <==> b in f { SortByMembership(f, DescKey, b); }
    }
    r
  }

  function PendientesPorUsuario(qs: seq<Booking>, user: int): (r: seq<Booking>)
    ensures forall b :: b in r <==> b in qs && b.user == user && IsPending(b)
  {
    Pendientes(DelUsuario(qs, user))
  }

  /**
   * `BookingManager.proxima`: the first booking of the `proxima` queryset.
   * It is the upcoming approved booking that is least by (date, start time),
   * and there is none exactly when no booking is upcoming.
   */
  function Proxima(qs: seq<Booking>, c: Clock): (r: Option<Booking>)
    ensures r.None? <==> forall b :: b in qs ==> !IsUpcoming(b, c)
    ensures r.Some? ==> r.value in qs && IsUpcoming(r.value, c)
    ensures r.Some? ==> forall b :: b in qs && IsUpcoming(b, c) ==> KeyLeq(AscKey(r.value), AscKey(b))
  {
    var s := ProximaQs(qs, c);
    if s == [] then None
    else
      assert s[0] in s;
      SortedHeadLeast(s, AscKey);
      Some(s[0])
  }

  // ---------------------------------------------------------------------
  // Properties of the classification
  // ---------------------------------------------------------------------

  /** Every booking is pending, approved or rejected, and only one of them. */
  lemma ClassificationExclusive(b: Booking)
    ensures (IsPending(b) && !IsApproved(b) && !IsRejected(b)) ||
            (!IsPending(b) && IsApproved(b) && !IsRejected(b)) ||
            (!IsPending(b) && !IsApproved(b) && IsRejected(b))
  {
  }

  /** The three lists `pendientes`, `aprobadas` and `rechazadas` split any queryset without loss or overlap. */
  lemma {:induction false} ClassificationPartition(qs: seq<Booking>)
    ensures multiset(Pendientes(qs)) + multiset(Aprobadas(qs)) + multiset(Rechazadas(qs)) == multiset(qs)
  {
    if qs != [] {
      assert qs == [qs[0]] + qs[1..];
      ClassificationPartition(qs[1..]);
      ClassificationExclusive(qs[0]);
      assert Pendientes(qs) == if IsPending(qs[0]) then [qs[0]] + Pendientes(qs[1..]) else Pendientes(qs[1..]);
      assert Aprobadas(qs) == if IsApproved(qs[0]) then [qs[0]] + Aprobadas(qs[1..]) else Aprobadas(qs[1..]);
      assert Rechazadas(qs) == if IsRejected(qs[0]) then [qs[0]] + Rechazadas(qs[1..]) else Rechazadas(qs[1..]);
    }
  }

  /** An approved booking is either still upcoming (the `proxima` filter) or history, never both. */
  lemma UpcomingOrHistory(b: Booking, c: Clock)
    requires IsApproved(b)
    ensures IsUpcoming(b, c) != IsHistory(b, c)
  {
  }

  /** The upcoming list and the history list split the approved bookings without loss or overlap. */
  lemma UpcomingHistoryPartition(qs: seq<Booking>, c: Clock)
    ensures multiset(ProximaQs(qs, c)) + multiset(HistorialAprobadas(qs, c)) == multiset(Aprobadas(qs))
  {
    var a := Aprobadas(qs);
    FilterSplit(a, EndsLaterAt(c), EndedAt(c));
    assert ProximaQs(qs, c) == SortBy(Filter(a, EndsLaterAt(c)), AscKey);
    assert HistorialAprobadas(qs, c) == SortBy(Filter(a, EndedAt(c)), DescKey);
  }

  /** With a well-formed slot (start before end), a future booking also passes the `proxima` filter. */
  lemma FutureIsUpcoming(b: Booking, c: Clock)
    requires b.slot.startTime < b.slot.endTime
    requires IsFuture(b, c)
    ensures IsUpcoming(b, c)
  {
  }

  /** So `proxima` returns some booking whenever `futuras` is not empty (slots well formed). */
  lemma FuturasNonEmptyGivesProxima(qs: seq<Booking>, c: Clock)
    requires forall b :: b in qs ==> b.slot.startTime < b.slot.endTime
    requires Futuras(qs, c) != []
    ensures Proxima(qs, c).Some?
    ensures KeyLeq(AscKey(Proxima(qs, c).value), AscKey(Futuras(qs, c)[0]))
  {
    var f := Futuras(qs, c)[0];
    assert f in Futuras(qs, c);
    FutureIsUpcoming(f, c);
  }

  // ---------------------------------------------------------------------
  // TimeSlotQuerySet and table availability
  // ---------------------------------------------------------------------

  /** `disponibles_para_fecha`: on today's date only the slots that have not started; every slot otherwise. */
  function DisponiblesParaFecha(slots: seq<TimeSlot>, fecha: int, c: Clock): (r: seq<TimeSlot>)
    ensures fecha == c.today ==> forall s :: s in r <==> s in slots && s.startTime > c.now
    ensures fecha != c.today ==> r == slots
  {
    if fecha == c.today then Filter(slots, (s: TimeSlot) => s.startTime > c.now) else slots
  }

  /** Ids of the tables held by bookings with approved=True for the date and slot: pending requests hold tables, rejected ones do not. */
  function ReservedTables(bookings: seq<Booking>, fecha: int, slotId: int): (r: set<int>)
    ensures forall t :: t in r <==> exists b :: b in bookings && b.date == fecha && b.slot.id == slotId && b.approved && t in b.tables
  {
    set b, t | b in bookings && b.date == fecha && b.slot.id == slotId && b.approved && t in b.tables :: t
  }

  /** Ids of the tables assigned to the slot with the given id. */
  function TablesOfSlot(slots: seq<TimeSlot>, slotId: int): (r: set<int>)
    ensures forall t :: t in r <==> exists s :: s in slots && s.id == slotId && t in s.tables
  {
    set s, t | s in slots && s.id == slotId && t in s.tables :: t
  }

  /** `TableQuerySet.disponibles_para_fecha_y_timeslot`: the slot's tables not held for that date and slot. */
  function DisponiblesQs(tables: seq<Table>, slots: seq<TimeSlot>, bookings: seq<Booking>, fecha: int, slotId: Option<int>): (r: seq<Table>)
    ensures slotId.None? ==> r == []
    ensures slotId.Some? ==> forall t :: t in r <==>
      t in tables && t.id in TablesOfSlot(slots, slotId.value) && t.id !in ReservedTables(bookings, fecha, slotId.value)
  {
    match slotId
    case None => []
    case Some(id) =>
      var inSlot := TablesOfSlot(slots, id);
      var held := ReservedTables(bookings, fecha, id);
      Filter(tables, (t: Table) => t.id in inSlot && t.id !in held)
  }

  /** `TableManager.disponibles_para_fecha_y_timeslot`: every table not held for that date and slot, assigned to the slot or not. */
  function Disponibles(tables: seq<Table>, bookings: seq<Booking>, fecha: int, slotId: Option<int>): (r: seq<Table>)
    ensures slotId.None? ==> r == []
    ensures slotId.Some? ==> forall t :: t in r <==> t in tables && t.id !in ReservedTables(bookings, fecha, slotId.value)
  {
    match slotId
    case None => []
    case Some(id) =>
      var held := ReservedTables(bookings, fecha, id);
      Filter(tables, (t: Table) => t.id !in held)
  }

  /** A table held by a booking with approved=True for the date and slot is offered by neither version. */
  lemma BookedTableExcluded(tables: seq<Table>, slots: seq<TimeSlot>, bookings: seq<Booking>, b: Booking, t: Table)
    requires b in bookings && b.approved && t.id in b.tables
    ensures t !in Disponibles(tables, bookings, b.date, Some(b.slot.id))
    ensures t !in DisponiblesQs(tables, slots, bookings, b.date, Some(b.slot.id))
  {
    assert t.id in ReservedTables(bookings, b.date, b.slot.id);
  }

  /** A table that no booking with approved=True holds for that date and slot stays available, whatever other slots or rejected bookings hold. */
  lemma UnheldTableAvailable(tables: seq<Table>, bookings: seq<Booking>, fecha: int, slotId: int, t: Table)
    requires t in tables
    requires forall b :: b in bookings && t.id in b.tables && b.date == fecha && b.slot.id == slotId ==> !b.approved
    ensures t in Disponibles(tables, bookings, fecha, Some(slotId))
  {
  }

  /** The queryset version offers a subset of what the manager version offers. */
  lemma QsWithinManager(tables: seq<Table>, slots: seq<TimeSlot>, bookings: seq<Booking>, fecha: int, slotId: Option<int>)
    ensures forall t :: t in DisponiblesQs(tables, slots, bookings, fecha, slotId) ==> t in Disponibles(tables, bookings, fecha, slotId)
  {
  }
}
