/**
 * The client's booking views (bookings_app/views.py): the list of future
 * bookings beside the next one, making a reservation, deleting one's own
 * booking, and cancelling or deleting an order of a booking.
 */
module BookingViews {
  import opened Wrappers
  import opened Queries
  import opened Bookings
  import opened BookingRecords
  import opened BookingHelpers
  import opened Orders

  // ---------------------------------------------------------------------
  // The future bookings shown beside the next one
  // ---------------------------------------------------------------------

  /**
   * `reservas_futuras`, with the next booking excluded by id when there is
   * one (`BookingListView` over the user's bookings, `GetFutureReservationsView`
   * over the user's approved ones).
   */
  function FuturasSinProxima(qs: seq<Booking>, c: Clock): (r: seq<Booking>)
    ensures Proxima(qs, c).None? ==> r == Futuras(qs, c)
    ensures Proxima(qs, c).Some? ==>
      forall b :: b in r <==> b in Futuras(qs, c) && b.id != Proxima(qs, c).value.id
    ensures Proxima(qs, c).Some? ==> Proxima(qs, c).value !in r
  {
    var next := Proxima(qs, c);
    if next.None? then Futuras(qs, c)
    else Filter(Futuras(qs, c), (b: Booking) => b.id != next.value.id)
  }

  /** Every booking of the list is an approved future booking of the queryset that starts no earlier than the next one. */
  lemma FutureListAfterNext(qs: seq<Booking>, c: Clock, b: Booking)
    requires forall x :: x in qs ==> x.slot.startTime < x.slot.endTime
    requires b in FuturasSinProxima(qs, c)
    ensures b in qs && IsApproved(b) && IsFuture(b, c)
    ensures Proxima(qs, c).Some? && KeyLeq(AscKey(Proxima(qs, c).value), AscKey(b))
  {
    assert b in Futuras(qs, c);
    assert b in Aprobadas(qs);
    FutureIsUpcoming(b, c);
  }

  // ---------------------------------------------------------------------
  // Making a reservation
  // ---------------------------------------------------------------------

  datatype ReservationOutcome =
    | PendingExists          // "Operación Denegada: Tiene una reserva pendiente."
    | CodesExhausted         // every code drawn was already in use
    | Created(id: int, code: string)

  /** The booking `MakeReservationView.form_valid` creates. */
  function NewReservation(id: int, code: string, user: int, date: int, slot: TimeSlot, tables: set<int>,
                          observations: string, issueDate: int): Booking
  {
    Booking(id, code, date, TimesOf(slot), tables, user, true, None, observations, issueDate)
  }

  /**
   * `MakeReservationView.form_valid`: refused while the requester has a
   * pending booking; otherwise a booking is created with approved=True and
   * no approval date (so it is pending), a code used by no booking, the
   * requester as owner and the chosen date, slot and tables.
   */
  method MakeReservation(store: BookingStore, user: int, date: int, slot: TimeSlot, tables: set<int>,
                         observations: string, issueDate: int, draws: seq<seq<int>>)
    returns (outcome: ReservationOutcome)
    requires store.Valid()
    requires forall k :: 0 <= k < |draws| ==> IsDraw(draws[k])
    modifies store
    ensures store.Valid()
    ensures PendientesPorUsuario(old(store.bookings), user) != [] ==> outcome == PendingExists
    ensures outcome == PendingExists ==> PendientesPorUsuario(old(store.bookings), user) != []
    ensures !outcome.Created? ==> store.bookings == old(store.bookings)
    ensures outcome == CodesExhausted <==>
      PendientesPorUsuario(old(store.bookings), user) == [] &&
      forall k :: 0 <= k < |draws| ==> CodeOf(draws[k]) in CodesOf(old(store.bookings))
    ensures outcome.Created? ==>
      exists k :: 0 <= k < |draws| && outcome.code == CodeOf(draws[k]) &&
        forall j :: 0 <= j < k ==> CodeOf(draws[j]) in CodesOf(old(store.bookings))
    ensures outcome.Created? ==>
      IsBookingCode(outcome.code) && outcome.code !in CodesOf(old(store.bookings)) &&
      outcome.id == old(store.nextId) &&
      store.bookings == old(store.bookings) + [NewReservation(outcome.id, outcome.code, user, date, slot, tables, observations, issueDate)]
  {
    if PendientesPorUsuario(store.bookings, user) != [] {
      return PendingExists;
    }
    var code := GenerateBookingCode(CodesOf(store.bookings), draws);
    if code.None? {
      return CodesExhausted;
    }
    var id := store.Insert(NewReservation(0, code.value, user, date, slot, tables, observations, issueDate));
    outcome := Created(id, code.value);
  }

  /** The reservation just created is pending, so the same user's next request is refused. */
  lemma SecondRequestRefused(bookings: seq<Booking>, created: Booking, user: int)
    requires created.user == user && created.approved && created.approvalDate.None?
    ensures PendientesPorUsuario(bookings + [created], user) != []
  {
    assert created in bookings + [created];
    assert created in PendientesPorUsuario(bookings + [created], user);
  }

  // ---------------------------------------------------------------------
  // Deleting a booking
  // ---------------------------------------------------------------------

  /** `get_object_or_404(Booking, id=id, user=user)`. */
  function OwnBookingIndex(bookings: seq<Booking>, id: int, user: int): (r: Option<nat>)
    ensures r.Some? ==> r.value < |bookings| && bookings[r.value].id == id && bookings[r.value].user == user
    ensures r.None? <==> forall b :: b in bookings && b.id == id ==> b.user != user
  {
    if bookings == [] then None
    else if bookings[0].id == id && bookings[0].user == user then Some(0)
    else
      var rest := OwnBookingIndex(bookings[1..], id, user);
      assert bookings == [bookings[0]] + bookings[1..];
      if rest.Some? then Some(rest.value + 1) else None
  }

  /**
   * `DeleteBookingView.post`: the requester's booking is deleted whatever
   * its state; an id that is not theirs is not found and nothing changes.
   */
  method DeleteBooking(store: BookingStore, id: int, user: int) returns (found: bool)
    requires store.Valid()
    modifies store
    ensures store.Valid()
    ensures found <==> exists b :: b in old(store.bookings) && b.id == id && b.user == user
    ensures !found ==> store.bookings == old(store.bookings)
    ensures found ==> forall b :: b in store.bookings <==> b in old(store.bookings) && b.id != id
  {
    var i := OwnBookingIndex(store.bookings, id, user);
    if i.None? {
      return false;
    }
    ghost var before := store.bookings;
    assert before[i.value] in before;
    store.Delete(i.value);
    RemoveUniqueId(before, i.value);
    found := true;
  }

  // ---------------------------------------------------------------------
  // Orders of a booking
  // ---------------------------------------------------------------------

  datatype OrderOutcome =
    | OrderNotFound
    | Unchanged
    | NoBooking   // the order has no booking: reading `order.booking.pk` raises before anything is deleted
    | Done

  /**
   * `CancelOrderView.post`: the requester's order moves from Solicitado to
   * Cancelado; in any other state it is left as it is.
   */
  method CancelOrder(store: OrderStore, id: int, user: int) returns (outcome: OrderOutcome)
    requires store.Valid()
    modifies store
    ensures store.Valid() && store.lines == old(store.lines)
    ensures var j := OwnOrderIndex(old(store.orders), id, user);
      (j.None? <==> outcome == OrderNotFound) &&
      (j.Some? && old(store.orders)[j.value].state != Solicitado ==> outcome == Unchanged) &&
      (j.Some? && old(store.orders)[j.value].state == Solicitado ==>
        outcome == Done &&
        store.orders == old(store.orders)[j.value := old(store.orders)[j.value].(state := Cancelado)])
    ensures outcome != Done ==> store.orders == old(store.orders)
  {
    var j := OwnOrderIndex(store.orders, id, user);
    if j.None? {
      return OrderNotFound;
    }
    if store.orders[j.value].state != Solicitado {
      return Unchanged;
    }
    store.SetState(j.value, Cancelado);
    outcome := Done;
  }

  /**
   * `DeleteOrderView.post`: an order in state Solicitado stays; in any
   * other state the requester's order is deleted with its lines, once its
   * booking's id has been read for the redirect. An order without a booking
   * fails at that read, so nothing is deleted.
   */
  method DeleteOrder(store: OrderStore, id: int, user: int) returns (outcome: OrderOutcome)
    requires store.Valid()
    modifies store
    ensures store.Valid()
    ensures var j := OwnOrderIndex(old(store.orders), id, user);
      (j.None? <==> outcome == OrderNotFound) &&
      (j.Some? && old(store.orders)[j.value].state == Solicitado ==> outcome == Unchanged) &&
      (j.Some? && old(store.orders)[j.value].state != Solicitado && old(store.orders)[j.value].booking.None? ==>
        outcome == NoBooking) &&
      (j.Some? && old(store.orders)[j.value].state != Solicitado && old(store.orders)[j.value].booking.Some? ==>
        outcome == Done &&
        store.orders == old(store.orders)[..j.value] + old(store.orders)[j.value + 1..] &&
        store.lines == LinesNotOf(old(store.lines), id))
    ensures outcome != Done ==> store.orders == old(store.orders) && store.lines == old(store.lines)
  {
    var j := OwnOrderIndex(store.orders, id, user);
    if j.None? {
      return OrderNotFound;
    }
    if store.orders[j.value].state == Solicitado {
      return Unchanged;
    }
    if store.orders[j.value].booking.None? {
      return NoBooking;
    }
    store.DeleteOrder(j.value);
    outcome := Done;
  }
}
