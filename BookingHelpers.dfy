/**
 * The helpers of the reservation page (bookings_app/helpers.py): the date
 * and slot picked from the request, the months offered, the availability
 * banner and the booking code.
 */
module BookingHelpers {
  import opened Wrappers
  import opened Queries
  import opened Bookings

  /** A calendar date as the reservation page builds it. */
  datatype CalendarDate = CalendarDate(year: int, month: int, day: int)

  predicate IsLeapYear(year: int)
  {
    (year % 4 == 0 && year % 100 != 0) || year % 400 == 0
  }

  /** The number of days of a month of the Gregorian calendar (`calendar.monthrange(year, month)[1]`). */
  function DaysInMonth(year: int, month: int): (n: int)
    requires 1 <= month <= 12
    ensures 28 <= n <= 31
    ensures n == 29 <==> month == 2 && IsLeapYear(year)
  {
    if month == 2 then (if IsLeapYear(year) then 29 else 28)
    else if month == 4 || month == 6 || month == 9 || month == 11 then 30
    else 31
  }

  /** Why the selected date could not be built: `monthrange` refuses the month, `date` refuses the day. */
  datatype DateError = BadMonth | BadDay

  /**
   * `get_selected_date_from_request`: this year, the requested month and
   * day or today's when absent, and a day past the month's end moved to its
   * last day.
   */
  function SelectedDate(today: CalendarDate, month: Option<int>, day: Option<int>): (r: Result<CalendarDate, DateError>)
    ensures var m := if month.Some? then month.value else today.month;
      r.Err? <==> m < 1 || m > 12 || (if day.Some? then day.value else today.day) < 1
    ensures r.Ok? ==> r.value.year == today.year
    ensures r.Ok? ==> r.value.month == (if month.Some? then month.value else today.month)
    ensures r.Ok? ==> var d := if day.Some? then day.value else today.day;
      r.value.day == (if d > DaysInMonth(today.year, r.value.month) then DaysInMonth(today.year, r.value.month) else d)
    ensures r.Ok? ==> 1 <= r.value.day <= DaysInMonth(today.year, r.value.month)
  {
    var m := if month.Some? then month.value else today.month;
    var d := if day.Some? then day.value else today.day;
    if m < 1 || m > 12 then Err(BadMonth)
    else
      var maxDay := DaysInMonth(today.year, m);
      var clamped := if d > maxDay then maxDay else d;
      if clamped < 1 then Err(BadDay) else Ok(CalendarDate(today.year, m, clamped))
  }

  /** A requested day within the month is kept as it is. */
  lemma SelectedDayKept(today: CalendarDate, month: int, day: int)
    requires 1 <= month <= 12 && 1 <= day <= DaysInMonth(today.year, month)
    ensures SelectedDate(today, Some(month), Some(day)) == Ok(CalendarDate(today.year, month, day))
  {
  }

  /** Asking for 31 February, 30 February or 29 February of a common year gives the month's last day. */
  lemma FebruaryClamped(today: CalendarDate, day: int)
    requires day > 29 || (day == 29 && !IsLeapYear(today.year))
    ensures SelectedDate(today, Some(2), Some(day)) == Ok(CalendarDate(today.year, 2, if IsLeapYear(today.year) then 29 else 28))
  {
  }

  function IdKey(s: TimeSlot): (int, int)
  {
    (s.id, 0)
  }

  /**
   * `get_selected_timeslot_from_request`: the requested slot when its id
   * parsed, is not zero and is among the available slots; otherwise the
   * first available slot (by id, as `.first()` orders an unordered
   * queryset), or none. An id that did not parse is None.
   */
  function SelectedTimeslot(requested: Option<int>, available: seq<TimeSlot>): (r: Option<TimeSlot>)
    ensures r.Some? ==> r.value in available
    ensures r.None? <==> available == []
    ensures requested.Some? && requested.value != 0 && (exists s :: s in available && s.id == requested.value) ==>
      r.Some? && r.value.id == requested.value
    ensures !(requested.Some? && requested.value != 0 && (exists s :: s in available && s.id == requested.value)) ==>
      r.Some? ==> forall s :: s in available ==> r.value.id <= s.id
  {
    var matching := Filter(available, (s: TimeSlot) => requested.Some? && s.id == requested.value);
    if requested.Some? && requested.value != 0 && matching != [] then
      assert matching[0] in matching;
      Some(matching[0])
    else if available == [] then None
    else
      var sorted := SortBy(available, IdKey);
      assert sorted[0] in sorted;
      SortByMembership(available, IdKey, sorted[0]);
      assert forall s :: s in available ==> sorted[0].id <= s.id by {
        forall s | s in available ensures sorted[0].id <= s.id {
          SortByMembership(available, IdKey, s);
          var k :| 0 <= k < |sorted| && sorted[k] == s;
          if k > 0 { assert KeyLeq(IdKey(sorted[0]), IdKey(sorted[k])); }
        }
      }
      Some(sorted[0])
  }

  const MonthNames: seq<string> := [
    "Enero", "Febrero", "Marzo", "Abril", "Mayo", "Junio",
    "Julio", "Agosto", "Septiembre", "Octubre", "Noviembre", "Diciembre"
  ]

  /** `get_available_months`: the months from the current one to December, numbered and named. */
  function AvailableMonths(currentMonth: int): (r: seq<(int, string)>)
    requires 1 <= currentMonth <= 12
    ensures |r| == 13 - currentMonth
    ensures r[0].0 == currentMonth && r[|r| - 1] == (12, "Diciembre")
    ensures forall k :: 0 <= k < |r| ==> 1 <= r[k].0 <= 12 && r[k].1 == MonthNames[r[k].0 - 1]
    ensures forall k :: 0 < k < |r| ==> r[k].0 == r[k - 1].0 + 1
    decreases 12 - currentMonth
  {
    if currentMonth == 12 then [(12, MonthNames[11])]
    else [(currentMonth, MonthNames[currentMonth - 1])] + AvailableMonths(currentMonth + 1)
  }

  /** The banner above the table list: a title, a subtitle and whether the tables are shown. */
  datatype Status = Status(title: string, subtitle: string, showTables: bool)

  const NoMoreToday: Status := Status(
    "¡¡¡ NO SE PUEDEN HACER MAS RESERVAS POR HOY !!!",
    "La hora actual supera la última franja horaria disponible.",
    false)
  const TablesAvailable: Status := Status("Mesas Disponibles", "", true)
  const SlotFull: Status := Status("FRANJA HORARIA COMPLETA.", "Todas las mesas están reservadas.", false)

  /** `get_availability_status`: three outcomes, checked in this order. */
  function AvailabilityStatus(selectedDate: int, today: int, slots: seq<TimeSlot>, tables: seq<Table>): (r: Status)
    ensures selectedDate == today && slots == [] ==> r == NoMoreToday
    ensures !(selectedDate == today && slots == []) && tables != [] ==> r == TablesAvailable
    ensures !(selectedDate == today && slots == []) && tables == [] ==> r == SlotFull
    ensures r.showTables <==> tables != [] && !(selectedDate == today && slots == [])
  {
    if selectedDate == today && slots == [] then NoMoreToday
    else if tables != [] then TablesAvailable
    else SlotFull
  }

  const CodeAlphabet: string := "ABCDEFGHIJKLMNOPQRSTUVWXYZ0123456789"
  const CodeLength: nat := 9

  /** A well-formed booking code: nine upper-case letters or digits. */
  predicate IsBookingCode(code: string)
  {
    |code| == CodeLength && forall i :: 0 <= i < |code| ==> code[i] in CodeAlphabet
  }

  /** One draw of `get_random_string`: nine positions in the alphabet. */
  predicate IsDraw(draw: seq<int>)
  {
    |draw| == CodeLength && forall i :: 0 <= i < |draw| ==> 0 <= draw[i] < |CodeAlphabet|
  }

  function CodeOf(draw: seq<int>): (code: string)
    requires IsDraw(draw)
    ensures IsBookingCode(code)
  {
    seq(|draw|, i requires 0 <= i < |draw| => CodeAlphabet[draw[i]])
  }

  /**
   * `generar_codigo_reserva`: draws codes until one is not used by any
   * booking. The random source is the sequence of draws; the model returns
   * the first unused code, or None when every draw it was given is used.
   */
  method GenerateBookingCode(used: set<string>, draws: seq<seq<int>>) returns (code: Option<string>)
    requires forall k :: 0 <= k < |draws| ==> IsDraw(draws[k])
    ensures code.Some? ==> IsBookingCode(code.value) && code.value !in used
    ensures code.Some? ==>
      exists k :: 0 <= k < |draws| && code.value == CodeOf(draws[k]) && (forall j :: 0 <= j < k ==> CodeOf(draws[j]) in used)
    ensures code.None? ==> forall k :: 0 <= k < |draws| ==> CodeOf(draws[k]) in used
  {
    var i := 0;
    while i < |draws|
      invariant 0 <= i <= |draws|
      invariant forall j :: 0 <= j < i ==> CodeOf(draws[j]) in used
    {
      var candidate := CodeOf(draws[i]);
      if candidate !in used {
        return Some(candidate);
      }
      i := i + 1;
    }
    return None;
  }
}
