/**
 * The staff side of the bookings app (bookings_app/admin.py): table
 * numbering and the guards that keep tables with active reservations,
 * the time-slot permissions, the booking list filters, and accepting or
 * rejecting a booking then offering the next pending one.
 *
 * Group membership (Administrador, Cajero) is given as booleans; the
 * messages and redirects are not modelled.
 */
module BookingAdmin {
  import opened Wrappers
  import opened Queries
  import opened Bookings
  import opened BookingRecords
  import opened BookingForms

  // ---------------------------------------------------------------------
  // Table numbering
  // ---------------------------------------------------------------------

  /** `max(existing_numbers) if existing_numbers else 0`. */
  function MaxNumber(numbers: seq<int>): (r: int)
    ensures numbers == [] ==> r == 0
    ensures numbers != [] ==> r in numbers && forall x :: x in numbers ==> x <= r
  {
    if numbers == [] then 0
    else if |numbers| == 1 then numbers[0]
    else
      var m := MaxNumber(numbers[1..]);
      assert numbers == [numbers[0]] + numbers[1..];
      if numbers[0] >= m then numbers[0] else m
  }

  /** n is the smallest positive number not in use. */
  predicate SmallestUnused(numbers: seq<int>, n: int)
  {
    n >= 1 && n !in numbers && forall k :: 1 <= k < n ==> k in numbers
  }

  /** At most one number is the smallest unused one. */
  lemma SmallestUnusedUnique(numbers: seq<int>, a: int, b: int)
    requires SmallestUnused(numbers, a) && SmallestUnused(numbers, b)
    ensures a == b
  {
  }

  /**
   * The `for … else` of `get_changeform_initial_data` and `save_model`: the
   * first of 1..max not in use, else max + 1. With no negative numbers in
   * use it is the smallest unused positive number (1 for no tables).
   */
  method NextTableNumber(numbers: seq<int>) returns (n: int)
    ensures n !in numbers
    ensures forall k :: 1 <= k < n ==> k in numbers
    ensures (forall x :: x in numbers ==> x >= 0) ==> SmallestUnused(numbers, n)
    ensures numbers == [] ==> n == 1
  {
    var maxNumber := MaxNumber(numbers);
    var num := 1;
    while num <= maxNumber
      invariant 1 <= num && (num <= maxNumber + 1 || num == 1)
      invariant forall k :: 1 <= k < num ==> k in numbers
    {
      if num !in numbers {
        return num;
      }
      num := num + 1;
    }
    n := maxNumber + 1;
  }

  function NumbersOf(tables: seq<Table>): (r: seq<int>)
    ensures |r| == |tables| && forall i :: 0 <= i < |tables| ==> r[i] == tables[i].number
  {
    seq(|tables|, i requires 0 <= i < |tables| => tables[i].number)
  }

  function TableIdsOf(tables: seq<Table>): (r: seq<int>)
    ensures |r| == |tables| && forall i :: 0 <= i < |tables| ==> r[i] == tables[i].id
  {
    seq(|tables|, i requires 0 <= i < |tables| => tables[i].id)
  }

  lemma NumbersOfAppend(tables: seq<Table>, t: Table)
    ensures NumbersOf(tables + [t]) == NumbersOf(tables) + [t.number]
  {
  }

  lemma TableIdsOfAppend(tables: seq<Table>, t: Table)
    ensures TableIdsOf(tables + [t]) == TableIdsOf(tables) + [t.id]
  {
  }

  /** `Table.objects.filter(id__in=ids).delete()` keeps the others. */
  function IdNotIn(ids: seq<int>): Table -> bool
  {
    (t: Table) => t.id !in ids
  }

  // ---------------------------------------------------------------------
  // Guards against deleting tables in use
  // ---------------------------------------------------------------------

  /** The guard of the action and of `delete_model`: an active reservation (see HasActiveBooking). */
  function ActiveAt(bookings: seq<Booking>, c: Clock): Table -> bool
  {
    (t: Table) => HasActiveBooking(bookings, t.id, c)
  }

  /** The guard of `delete_queryset`: an approved booking dated today or later, started or not. */
  predicate HasBookingFromToday(bookings: seq<Booking>, table: int, today: int)
  {
    exists b :: b in bookings && b.approved && table in b.tables && b.date >= today
  }

  function BookedFromToday(bookings: seq<Booking>, today: int): Table -> bool
  {
    (t: Table) => HasBookingFromToday(bookings, t.id, today)
  }

  /** The bulk delete's guard blocks every table the other guards block. */
  lemma ActiveIsBookedFromToday(bookings: seq<Booking>, table: int, c: Clock)
    requires HasActiveBooking(bookings, table, c)
    ensures HasBookingFromToday(bookings, table, c.today)
  {
    var b :| b in bookings && b.approved && table in b.tables && StartsLater(b, c);
    assert b.date >= c.today;
  }

  /** A booking for today whose slot has already started blocks the bulk delete but not the action. */
  lemma StartedTodayBlocksOnlyBulkDelete(slot: SlotTimes, c: Clock)
    requires slot.startTime <= c.now
    ensures var b := Booking(1, "TODAYBOOK", c.today, slot, {3}, 1, true, Some(c.today), "", c.today);
      HasBookingFromToday([b], 3, c.today) && !HasActiveBooking([b], 3, c)
  {
    var b := Booking(1, "TODAYBOOK", c.today, slot, {3}, 1, true, Some(c.today), "", c.today);
    assert b in [b];
  }

  /** The numbers of the tables `blocks` holds, in selection order, built from the back. */
  function BlockedNumbers(selection: seq<Table>, blocks: Table -> bool): seq<int>
  {
    if selection == [] then []
    else
      var t := selection[|selection| - 1];
      BlockedNumbers(selection[..|selection| - 1], blocks) + (if blocks(t) then [t.number] else [])
  }

  /** The ids of the tables `blocks` lets through, in selection order, built from the back. */
  function PermittedIds(selection: seq<Table>, blocks: Table -> bool): seq<int>
  {
    if selection == [] then []
    else
      var t := selection[|selection| - 1];
      PermittedIds(selection[..|selection| - 1], blocks) + (if blocks(t) then [] else [t.id])
  }

  /** The numbers built from the back are those of the blocked tables, the ids those of the others. */
  lemma {:induction false} PartitionIsFilter(selection: seq<Table>, blocks: Table -> bool)
    ensures BlockedNumbers(selection, blocks) == NumbersOf(Filter(selection, blocks))
    ensures PermittedIds(selection, blocks) == TableIdsOf(Filter(selection, Not(blocks)))
  {
    if selection != [] {
      var prefix, t := selection[..|selection| - 1], selection[|selection| - 1];
      assert selection == prefix + [t];
      PartitionIsFilter(prefix, blocks);
      FilterAppend(prefix, t, blocks);
      FilterAppend(prefix, t, Not(blocks));
      NumbersOfAppend(Filter(prefix, blocks), t);
      TableIdsOfAppend(Filter(prefix, Not(blocks)), t);
    }
  }

  /**
   * The loop of `eliminar_mesas_controladas` and `delete_queryset`: the
   * numbers of the selected tables the guard blocks, and the ids of the
   * others, in selection order.
   */
  method PartitionSelection(selection: seq<Table>, blocks: Table -> bool) returns (blocked: seq<int>, permitted: seq<int>)
    ensures blocked == NumbersOf(Filter(selection, blocks))
    ensures permitted == TableIdsOf(Filter(selection, Not(blocks)))
  {
    blocked, permitted := [], [];
    var i := 0;
    while i < |selection|
      invariant 0 <= i <= |selection|
      invariant blocked == BlockedNumbers(selection[..i], blocks)
      invariant permitted == PermittedIds(selection[..i], blocks)
    {
      var t := selection[i];
      assert selection[..i + 1][..i] == selection[..i];
      if blocks(t) {
        blocked := blocked + [t.number];
      } else {
        permitted := permitted + [t.id];
      }
      i := i + 1;
    }
    assert selection[..i] == selection;
    PartitionIsFilter(selection, blocks);
  }

  /** Every selected table is either blocked or permitted, never both. */
  lemma PartitionCovers(selection: seq<Table>, blocks: Table -> bool)
    ensures multiset(Filter(selection, blocks)) + multiset(Filter(selection, Not(blocks))) == multiset(selection)
    ensures forall t :: !(t in Filter(selection, blocks) && t in Filter(selection, Not(blocks)))
  {
    FilterSplit(selection, blocks, Not(blocks));
  }

  /** No two tables share an id or a number. */
  predicate DistinctTables(tables: seq<Table>)
  {
    forall i, j :: 0 <= i < j < |tables| ==> tables[i].id != tables[j].id && tables[i].number != tables[j].number
  }

  /** The first table shares no id or number with the rest, which stay distinct. */
  lemma DistinctHead(tables: seq<Table>)
    requires DistinctTables(tables) && tables != []
    ensures DistinctTables(tables[1..])
    ensures forall y :: y in tables[1..] ==> y.id != tables[0].id && y.number != tables[0].number
  {
    var rest := tables[1..];
    forall i, j | 0 <= i < j < |rest| ensures rest[i].id != rest[j].id && rest[i].number != rest[j].number {
      assert rest[i] == tables[i + 1] && rest[j] == tables[j + 1];
    }
    forall y | y in rest ensures y.id != tables[0].id && y.number != tables[0].number {
      var k :| 0 <= k < |rest| && rest[k] == y;
      assert tables[k + 1] == y;
    }
  }

  /** A table sharing no id or number with distinct tables can go in front of them. */
  lemma ConsDistinct(x: Table, r: seq<Table>)
    requires DistinctTables(r)
    requires forall y :: y in r ==> y.id != x.id && y.number != x.number
    ensures DistinctTables([x] + r)
  {
    var s := [x] + r;
    forall i, j | 0 <= i < j < |s| ensures s[i].id != s[j].id && s[i].number != s[j].number {
      if i == 0 { assert s[j] == r[j - 1] && s[j] in r; } else { assert s[i] == r[i - 1] && s[j] == r[j - 1]; }
    }
  }

  /** Deleting some tables keeps the others distinct. */
  lemma {:induction false} FilterKeepsDistinct(tables: seq<Table>, p: Table -> bool)
    requires DistinctTables(tables)
    ensures DistinctTables(Filter(tables, p))
  {
    if tables != [] {
      var rest := tables[1..];
      DistinctHead(tables);
      FilterKeepsDistinct(rest, p);
      if p(tables[0]) {
        assert Filter(tables, p) == [tables[0]] + Filter(rest, p);
        ConsDistinct(tables[0], Filter(rest, p));
      } else {
        assert Filter(tables, p) == Filter(rest, p);
      }
    }
  }

  /** The table rows: distinct ids and numbers, every number positive. */
  class TableRegistry {
    var tables: seq<Table>
    var nextId: int

    ghost predicate Valid()
      reads this
    {
      DistinctTables(tables) && forall t :: t in tables ==> t.id < nextId && t.number >= 1
    }

    constructor ()
      ensures Valid() && tables == []
    {
      tables := [];
      nextId := 1;
    }

    /**
     * `save_model` when adding: the form's number is replaced by the
     * smallest positive number no table has.
     */
    method Add(capacity: int, description: string) returns (t: Table)
      requires Valid()
      modifies this
      ensures Valid()
      ensures tables == old(tables) + [t]
      ensures t == Table(old(nextId), t.number, capacity, description)
      ensures SmallestUnused(NumbersOf(old(tables)), t.number)
    {
      var n := NextTableNumber(NumbersOf(tables));
      t := Table(nextId, n, capacity, description);
      forall x | x in NumbersOf(tables) ensures x >= 0 {
        var k :| 0 <= k < |tables| && NumbersOf(tables)[k] == x;
        assert tables[k] in tables;
      }
      ghost var before := tables;
      tables := tables + [t];
      nextId := nextId + 1;
      forall i, j | 0 <= i < j < |tables| ensures tables[i].id != tables[j].id && tables[i].number != tables[j].number {
        if j == |before| {
          assert tables[i] in before;
          assert NumbersOf(before)[i] == tables[i].number;
        }
      }
    }

    /**
     * `save_model` when editing the table at index i: a table with an
     * active reservation cannot change capacity (the error names the codes
     * of those reservations and nothing is saved); otherwise capacity and
     * description are saved. The number stays, as `clean_number` returns
     * the initial one.
     */
    method Change(i: nat, capacity: int, description: string, bookings: seq<Booking>, c: Clock)
      returns (error: Option<seq<string>>)
      requires Valid() && i < |tables|
      modifies this
      ensures Valid() && nextId == old(nextId)
      ensures var t := old(tables)[i];
        error.Some? <==> HasActiveBooking(bookings, t.id, c) && t.capacity != capacity
      ensures error.Some? ==> error.value == CodesOfBookings(ActiveBookings(bookings, old(tables)[i].id, c)) && tables == old(tables)
      ensures error.None? ==> tables == old(tables)[i := old(tables)[i].(capacity := capacity, description := description)]
    {
      var t := tables[i];
      var active := ActiveBookings(bookings, t.id, c);
      if active != [] && t.capacity != capacity {
        return Some(CodesOfBookings(active));
      }
      tables := tables[i := t.(capacity := capacity, description := description)];
      forall a, b | 0 <= a < b < |tables| ensures tables[a].id != tables[b].id && tables[a].number != tables[b].number {
        assert tables[a].id == old(tables)[a].id && tables[b].id == old(tables)[b].id;
        assert tables[a].number == old(tables)[a].number && tables[b].number == old(tables)[b].number;
      }
      forall x | x in tables ensures x.id < nextId && x.number >= 1 {
        var k :| 0 <= k < |tables| && tables[k] == x;
        assert old(tables)[k] in old(tables);
      }
      error := None;
    }

    /** `delete_model`: the table at index i is deleted unless it has an active reservation. */
    method Delete(i: nat, bookings: seq<Booking>, c: Clock) returns (deleted: bool)
      requires Valid() && i < |tables|
      modifies this
      ensures Valid() && nextId == old(nextId)
      ensures deleted <==> !HasActiveBooking(bookings, old(tables)[i].id, c)
      ensures !deleted ==> tables == old(tables)
      ensures deleted ==> tables == old(tables)[..i] + old(tables)[i + 1..]
    {
      if ActiveBookings(bookings, tables[i].id, c) != [] {
        return false;
      }
      var before := tables;
      tables := tables[..i] + tables[i + 1..];
      forall a, b | 0 <= a < b < |tables| ensures tables[a].id != tables[b].id && tables[a].number != tables[b].number {
        var a' := if a < i then a else a + 1;
        var b' := if b < i then b else b + 1;
        assert tables[a] == before[a'] && tables[b] == before[b'];
      }
      forall x | x in tables ensures x.id < nextId && x.number >= 1 {
        var k :| 0 <= k < |tables| && tables[k] == x;
        assert x == before[if k < i then k else k + 1];
      }
      deleted := true;
    }

    /** Deletes the rows whose id is listed. */
    method DeleteIds(ids: seq<int>)
      requires Valid()
      modifies this
      ensures Valid() && nextId == old(nextId)
      ensures tables == Filter(old(tables), IdNotIn(ids))
    {
      FilterKeepsDistinct(tables, IdNotIn(ids));
      tables := Filter(tables, IdNotIn(ids));
    }

    /**
     * The action `eliminar_mesas_controladas`: the selected tables with an
     * active reservation are kept and reported by number; the others are
     * deleted.
     */
    method EliminarMesasControladas(selection: seq<Table>, bookings: seq<Booking>, c: Clock)
      returns (blocked: seq<int>, permitted: seq<int>)
      requires Valid()
      modifies this
      ensures Valid() && nextId == old(nextId)
      ensures blocked == NumbersOf(Filter(selection, ActiveAt(bookings, c)))
      ensures permitted == TableIdsOf(Filter(selection, Not(ActiveAt(bookings, c))))
      ensures tables == Filter(old(tables), IdNotIn(permitted))
      ensures forall t :: t in old(tables) && HasActiveBooking(bookings, t.id, c) ==> t in tables
      ensures forall t :: t in selection && !HasActiveBooking(bookings, t.id, c) ==> t !in tables
    {
      blocked, permitted := PartitionSelection(selection, ActiveAt(bookings, c));
      DeleteIds(permitted);
      GuardedTablesKept(old(tables), selection, ActiveAt(bookings, c));
    }

    /**
     * `delete_queryset`: as the action, but the guard is any approved
     * booking dated today or later.
     */
    method DeleteQueryset(selection: seq<Table>, bookings: seq<Booking>, today: int)
      returns (blocked: seq<int>, permitted: seq<int>)
      requires Valid()
      modifies this
      ensures Valid() && nextId == old(nextId)
      ensures blocked == NumbersOf(Filter(selection, BookedFromToday(bookings, today)))
      ensures permitted == TableIdsOf(Filter(selection, Not(BookedFromToday(bookings, today))))
      ensures tables == Filter(old(tables), IdNotIn(permitted))
      ensures forall t :: t in old(tables) && HasBookingFromToday(bookings, t.id, today) ==> t in tables
      ensures forall t :: t in selection && !HasBookingFromToday(bookings, t.id, today) ==> t !in tables
    {
      blocked, permitted := PartitionSelection(selection, BookedFromToday(bookings, today));
      DeleteIds(permitted);
      GuardedTablesKept(old(tables), selection, BookedFromToday(bookings, today));
    }
  }

  /** The codes of the bookings, in order (the error message lists them). */
  function CodesOfBookings(bookings: seq<Booking>): (r: seq<string>)
    ensures |r| == |bookings| && forall i :: 0 <= i < |bookings| ==> r[i] == bookings[i].code
  {
    seq(|bookings|, i requires 0 <= i < |bookings| => bookings[i].code)
  }

  /**
   * Deleting the ids the partition permits keeps every table the guard
   * blocks (the guard depends on the id only) and removes every selected
   * table it does not block.
   */
  lemma GuardedTablesKept(tables: seq<Table>, selection: seq<Table>, blocks: Table -> bool)
    requires forall t: Table, u: Table :: t.id == u.id ==> blocks(t) == blocks(u)
    ensures forall t :: t in tables && blocks(t) ==> t in Filter(tables, IdNotIn(TableIdsOf(Filter(selection, Not(blocks)))))
    ensures forall t :: t in selection && !blocks(t) ==> t !in Filter(tables, IdNotIn(TableIdsOf(Filter(selection, Not(blocks)))))
  {
    var permitted := Filter(selection, Not(blocks));
    var ids := TableIdsOf(permitted);
    forall t, k | t in tables && blocks(t) && 0 <= k < |ids| ensures ids[k] != t.id {
      assert permitted[k] in permitted;
    }
    forall t | t in selection && !blocks(t) ensures t.id in ids {
      assert t in permitted;
      var k :| 0 <= k < |permitted| && permitted[k] == t;
      assert ids[k] == t.id;
    }
  }

  // ---------------------------------------------------------------------
  // Time slots
  // ---------------------------------------------------------------------

  /**
   * `reservas_futuras` of the slot admin AS WRITTEN:
   * `obj.tables.filter(booking__approved=True, booking__time_slot=obj).filter(Q(booking__date…))`
   * spans the bookings of a table twice, so "approved and in this slot" and
   * "not started yet" may be met by two different bookings.
   */
  predicate SlotHasFutureBookingsAsWritten(slot: TimeSlot, bookings: seq<Booking>, c: Clock)
  {
    exists t :: t in slot.tables &&
      (exists b :: b in bookings && b.approved && b.slot.id == slot.id && t in b.tables) &&
      (exists b :: b in bookings && t in b.tables && StartsLater(b, c))
  }

  /** The intended guard: one of the slot's tables has an approved booking in this slot that has not started. */
  predicate SlotHasFutureBookings(slot: TimeSlot, bookings: seq<Booking>, c: Clock)
  {
    exists t, b :: t in slot.tables && b in bookings && b.approved && b.slot.id == slot.id && t in b.tables && StartsLater(b, c)
  }

  /** Every slot the intended guard protects, the written one protects too. */
  lemma SlotGuardAsWrittenWeaker(slot: TimeSlot, bookings: seq<Booking>, c: Clock)
    requires SlotHasFutureBookings(slot, bookings, c)
    ensures SlotHasFutureBookingsAsWritten(slot, bookings, c)
  {
    var t, b :| t in slot.tables && b in bookings && b.approved && b.slot.id == slot.id && t in b.tables && StartsLater(b, c);
    assert t in slot.tables && b in bookings && t in b.tables;
  }

  /**
   * A slot whose table had an approved booking in it yesterday and has a
   * rejected booking in another slot tomorrow is locked by the written
   * guard, although nothing is booked in it from now on.
   */
  lemma SlotGuardAsWrittenOverblocks()
    ensures var slot := TimeSlot(1, "Almuerzo", 720, 900, {7});
      var yesterday := Booking(1, "YESTERDAY", 9, SlotTimes(1, 720, 900), {7}, 1, true, Some(8), "", 8);
      var tomorrow := Booking(2, "TOMORROWX", 11, SlotTimes(2, 1200, 1380), {7}, 2, false, Some(10), "", 9);
      var c := Clock(10, 600);
      SlotHasFutureBookingsAsWritten(slot, [yesterday, tomorrow], c) && !SlotHasFutureBookings(slot, [yesterday, tomorrow], c)
  {
    var yesterday := Booking(1, "YESTERDAY", 9, SlotTimes(1, 720, 900), {7}, 1, true, Some(8), "", 8);
    var tomorrow := Booking(2, "TOMORROWX", 11, SlotTimes(2, 1200, 1380), {7}, 2, false, Some(10), "", 9);
    assert yesterday in [yesterday, tomorrow] && tomorrow in [yesterday, tomorrow];
    assert 7 in {7};
  }

  const ControlledFields: seq<string> := ["name", "start_time", "end_time"]

  /**
   * `get_readonly_fields`: all three controlled fields for a Cajero, and for
   * an Administrador editing a slot with future bookings; none otherwise.
   */
  function ReadonlyFields(isCajero: bool, isAdmin: bool, obj: Option<TimeSlot>, bookings: seq<Booking>, c: Clock): (r: seq<string>)
    ensures r == ControlledFields || r == []
    ensures r == ControlledFields <==>
      isCajero || (isAdmin && obj.Some? && SlotHasFutureBookings(obj.value, bookings, c))
  {
    if isCajero then ControlledFields
    else if isAdmin && obj.Some? && SlotHasFutureBookings(obj.value, bookings, c) then ControlledFields
    else []
  }

  /**
   * `has_delete_permission`: without an object, Django's default; with one,
   * only an Administrador, and only while no future booking uses the slot.
   */
  function SlotDeletePermission(isAdmin: bool, defaultPermission: bool, obj: Option<TimeSlot>, bookings: seq<Booking>, c: Clock): (r: bool)
    ensures obj.None? ==> r == defaultPermission
    ensures obj.Some? ==> (r <==> isAdmin && !SlotHasFutureBookings(obj.value, bookings, c))
  {
    if obj.None? then defaultPermission
    else isAdmin && !SlotHasFutureBookings(obj.value, bookings, c)
  }

  /** For an Administrador who is not a Cajero, a slot can be deleted exactly when its fields are editable. */
  lemma DeletableIffEditable(slot: TimeSlot, defaultPermission: bool, bookings: seq<Booking>, c: Clock)
    ensures SlotDeletePermission(true, defaultPermission, Some(slot), bookings, c) <==>
      ReadonlyFields(false, true, Some(slot), bookings, c) == []
  {
    assert ControlledFields != [];
  }

  /** The time-slot rows. */
  class SlotRegistry {
    var slots: seq<TimeSlot>

    constructor ()
      ensures slots == []
    {
      slots := [];
    }

    /** `TimeSlotAdmin.delete_model`: the slot at index i is kept while it has future bookings. */
    method Delete(i: nat, bookings: seq<Booking>, c: Clock) returns (deleted: bool)
      requires i < |slots|
      modifies this
      ensures deleted <==> !SlotHasFutureBookings(old(slots)[i], bookings, c)
      ensures !deleted ==> slots == old(slots)
      ensures deleted ==> slots == old(slots)[..i] + old(slots)[i + 1..]
    {
      if SlotHasFutureBookings(slots[i], bookings, c) {
        return false;
      }
      slots := slots[..i] + slots[i + 1..];
      deleted := true;
    }
  }

  // ---------------------------------------------------------------------
  // The booking list filters
  // ---------------------------------------------------------------------

  /** Which of the four filters are set to '1' in the request. */
  datatype FilterParams = FilterParams(pendientes: bool, aceptadas: bool, rechazadas: bool, pasadas: bool)

  /** The booking's slot started before now (date before today, or today and an earlier start). */
  predicate Past(b: Booking, c: Clock)
  {
    b.date < c.today || (b.date == c.today && b.slot.startTime < c.now)
  }

  /** Accepted by staff, as the admin filters read it. */
  predicate AdminAccepted(b: Booking)
  {
    b.approved && b.approvalDate.Some?
  }

  /** Rejected by staff, as the admin filters read it: unlike `rechazadas`, a decision date is required. */
  predicate AdminRejected(b: Booking)
  {
    !b.approved && b.approvalDate.Some?
  }

  function PastAt(c: Clock): Booking -> bool
  {
    (b: Booking) => Past(b, c)
  }

  /** `PendientesFilter`: alone it keeps the pending bookings; combined with any other filter it keeps none. */
  function PendientesFilter(qs: seq<Booking>, p: FilterParams): (r: seq<Booking>)
    ensures forall b :: b in r <==> b in qs && (p.pendientes ==> !p.aceptadas && !p.rechazadas && !p.pasadas && IsPending(b))
  {
    if !p.pendientes then qs
    else if p.aceptadas || p.rechazadas || p.pasadas then []
    else Filter(qs, (b: Booking) => IsPending(b))
  }

  /** `AceptadasFilter`: accepted bookings, past ones only with Pasadas; nothing with Pendientes or Rechazadas. */
  function AceptadasFilter(qs: seq<Booking>, p: FilterParams, c: Clock): (r: seq<Booking>)
    ensures forall b :: b in r <==> b in qs && (p.aceptadas ==> !p.pendientes && !p.rechazadas && AdminAccepted(b) && (p.pasadas ==> Past(b, c)))
  {
    if !p.aceptadas then qs
    else if p.pendientes || p.rechazadas then []
    else
      var accepted := Filter(qs, (b: Booking) => AdminAccepted(b));
      if p.pasadas then Filter(accepted, PastAt(c)) else accepted
  }

  /** `RechazadasFilter`: rejected bookings, past ones only with Pasadas; nothing with Pendientes or Aceptadas. */
  function RechazadasFilter(qs: seq<Booking>, p: FilterParams, c: Clock): (r: seq<Booking>)
    ensures forall b :: b in r <==> b in qs && (p.rechazadas ==> !p.pendientes && !p.aceptadas && AdminRejected(b) && (p.pasadas ==> Past(b, c)))
  {
    if !p.rechazadas then qs
    else if p.pendientes || p.aceptadas then []
    else
      var rejected := Filter(qs, (b: Booking) => AdminRejected(b));
      if p.pasadas then Filter(rejected, PastAt(c)) else rejected
  }

  /** `PasadasFilter`: bookings whose slot has started, narrowed by Aceptadas or else Rechazadas; nothing with Pendientes. */
  function PasadasFilter(qs: seq<Booking>, p: FilterParams, c: Clock): (r: seq<Booking>)
    ensures forall b :: b in r <==> (b in qs &&
      (p.pasadas ==> !p.pendientes && Past(b, c) && (p.aceptadas ==> AdminAccepted(b)) && (!p.aceptadas && p.rechazadas ==> AdminRejected(b))))
  {
    if !p.pasadas then qs
    else if p.pendientes then []
    else if p.aceptadas then Filter(Filter(qs, (b: Booking) => AdminAccepted(b)), PastAt(c))
    else if p.rechazadas then Filter(Filter(qs, (b: Booking) => AdminRejected(b)), PastAt(c))
    else Filter(qs, PastAt(c))
  }

  /** Which bookings the combination of filters means to show. */
  predicate Shown(b: Booking, p: FilterParams, c: Clock)
  {
    if p.pendientes then !p.aceptadas && !p.rechazadas && !p.pasadas && IsPending(b)
    else
      !(p.aceptadas && p.rechazadas) &&
      (p.aceptadas ==> AdminAccepted(b)) &&
      (p.rechazadas ==> AdminRejected(b)) &&
      (p.pasadas ==> Past(b, c))
  }

  /**
   * The change list: the four filters applied in the order `list_filter`
   * lists them. It shows exactly the bookings the combination means.
   */
  function ChangeList(qs: seq<Booking>, p: FilterParams, c: Clock): (r: seq<Booking>)
    ensures forall b :: b in r <==> b in qs && Shown(b, p, c)
  {
    PasadasFilter(RechazadasFilter(AceptadasFilter(PendientesFilter(qs, p), p, c), p, c), p, c)
  }

  /** The Pendientes filter combined with any other shows nothing. */
  lemma PendientesNotCombined(qs: seq<Booking>, p: FilterParams, c: Clock)
    requires p.pendientes && (p.aceptadas || p.rechazadas || p.pasadas)
    ensures ChangeList(qs, p, c) == []
  {
  }

  /** A booking rejected without a decision date is in `rechazadas` but not under the admin's Rechazadas filter. */
  lemma RejectedWithoutDateOnlyInManager(b: Booking, c: Clock)
    requires !b.approved && b.approvalDate.None?
    ensures b in Rechazadas([b])
    ensures ChangeList([b], FilterParams(false, false, true, false), c) == []
  {
    assert b in [b];
  }

  // ---------------------------------------------------------------------
  // Accepting or rejecting a booking
  // ---------------------------------------------------------------------

  function DateKey(b: Booking): (int, int)
  {
    (b.date, 0)
  }

  function PendingOtherThan(current: int): Booking -> bool
  {
    (b: Booking) => IsPending(b) && b.id != current
  }

  /**
   * The booking offered next: `filter(approved=True, approval_date__isnull=True)
   * .order_by('date').exclude(pk=current).first()`, a pending booking other
   * than the current one with the earliest date; None when there is none.
   */
  function NextPending(bookings: seq<Booking>, current: int): (r: Option<Booking>)
    ensures r.None? <==> forall b :: b in bookings ==> !(IsPending(b) && b.id != current)
    ensures r.Some? ==> r.value in bookings && IsPending(r.value) && r.value.id != current
    ensures r.Some? ==> forall b :: b in bookings && IsPending(b) && b.id != current ==> r.value.date <= b.date
  {
    var candidates := Filter(bookings, PendingOtherThan(current));
    var sorted := SortBy(candidates, DateKey);
    SortBySameMembers(candidates, DateKey);
    if sorted == [] then None
    else
      assert sorted[0] in sorted;
      SortedHeadLeast(sorted, DateKey);
      Some(sorted[0])
  }

  /** The button pressed on the booking's change page. */
  datatype Decision = Accept | Reject | NoDecision

  /**
   * `response_change`: accepting sets the approval date and keeps the
   * approved flag; rejecting sets the approval date and clears the flag;
   * either way the next pending booking other than this one is offered.
   * Without a decision nothing changes and nothing is offered.
   */
  method RespondChange(store: BookingStore, i: nat, decision: Decision, today: int) returns (next: Option<Booking>)
    requires store.Valid() && i < |store.bookings|
    modifies store
    ensures store.Valid()
    ensures decision == NoDecision ==> store.bookings == old(store.bookings) && next.None?
    ensures decision == Accept ==>
      store.bookings == old(store.bookings)[i := old(store.bookings)[i].(approvalDate := Some(today))]
    ensures decision == Reject ==>
      store.bookings == old(store.bookings)[i := old(store.bookings)[i].(approved := false, approvalDate := Some(today))]
    ensures decision != NoDecision ==> next == NextPending(store.bookings, old(store.bookings)[i].id)
  {
    var b := store.bookings[i];
    match decision {
      case Accept =>
        store.Decide(i, b.approved, today);
        next := NextPending(store.bookings, b.id);
      case Reject =>
        store.Decide(i, false, today);
        next := NextPending(store.bookings, b.id);
      case NoDecision =>
        next := None;
    }
  }

  /** A decided booking is no longer pending: accepting an approved booking approves it, rejecting rejects it. */
  lemma DecisionEndsPending(b: Booking, today: int)
    requires IsPending(b)
    ensures IsApproved(b.(approvalDate := Some(today)))
    ensures IsRejected(b.(approved := false, approvalDate := Some(today)))
    ensures !IsPending(b.(approvalDate := Some(today))) && !IsPending(b.(approved := false, approvalDate := Some(today)))
  {
  }
}
