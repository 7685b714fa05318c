# Restaurant bookings and orders — a Dafny model

This project models the core of a Django restaurant application. Customers book tables in a time slot and order from the menu for a booking. Staff then accept or reject the bookings, manage tables and time slots, and maintain the catalogue and the user accounts. The model covers:

- **Booking classification** (`Bookings`): the queryset filters that split bookings into pending, approved and rejected, plus the clock-dependent ones (unconfirmed, future, next, history). It also covers slot and table availability.
- **Booking records and views** (`BookingRecords`, `BookingViews`, `BookingHelpers`): `Booking.validate/new/update` and the reservation request, which is refused while one is pending. It also covers deleting a booking and cancelling or deleting an order, the clamped selected date, slot selection, the months list, the availability banner and the booking code.
- **Staff administration** (`BookingAdmin`, `BookingForms`):
  - the smallest unused table number;
  - the active-reservation guard on table edits and deletions, and the bulk-delete partition;
  - the time-slot read-only and delete rules;
  - the booking list filters, and accepting or rejecting with the next pending booking offered;
  - the time-slot form's ordered checks.
- **Menu and orders** (`Catalog`, `Orders`, `Cart`, `MenuViews`):
  - validators, discount and promotion setters, and the `x or old` updates;
  - the combo's average price and the bounded order-code retry;
  - line subtotals and order amounts;
  - the session cart and the views that edit order lines;
  - the menu grouped by category and the upcoming bookings to order for.
- **Accounts** (`AccountForms`, `AccountModels`, `AccountAdmin`): the field cleaners, the two password-confirmation checks, the notification form, the username edit form, the review model, and the notification recipient rebuild.
- **The CSRF cookie reader** (`Cookie`) of the browser script, with the shared whitespace stripping (`Text`).

How the system is represented:

- Dates are day numbers and times are minutes of the day. The current moment is a `Clock(today, now)` parameter.
- Database tables are sequences of records held in classes whose methods replace them, and the session is a map.
- Random draws are passed in as sequences.
- Group membership is passed in as booleans.
- Money is integer cents; promotion prices, line subtotals, order amounts and the combo average are reals, computed without rounding (see "## Left out" for the rounding the source applies).

## Model

| member | source | states |
|---|---|---|
| Bookings.DelUsuario | bookings_app/managers.py:7-8 | a booking is listed iff it belongs to the user |
| Bookings.Aprobadas | bookings_app/managers.py:10-11 | a booking is listed iff approved and its approval date is set |
| Bookings.Pendientes | bookings_app/managers.py:13-14 | a booking is listed iff approved and its approval date is unset |
| Bookings.Rechazadas | bookings_app/managers.py:16-17 | a booking is listed iff not approved, whatever its approval date |
| Bookings.SinConfirmar | bookings_app/managers.py:19-24 | a booking is listed iff it has no approval date and its date is past, or it is today and its slot's start (not its end) is before now; `approved` plays no part |
| Bookings.Futuras | bookings_app/managers.py:26-31 | every listed booking is in `aprobadas`; a booking is listed iff approved and its date is later than today, or today with a start after now |
| Bookings.ProximaQs | bookings_app/managers.py:33-39 | a booking is listed iff approved and its slot has not ended (end time at least now on today); the list is sorted by (date, start time) |
| Bookings.HistorialAprobadas | bookings_app/managers.py:41-47 | a booking is listed iff approved and its slot has ended; sorted by date then start time, latest first |
| Bookings.PendientesPorUsuario | bookings_app/managers.py:54-55 | a booking is listed iff it is the user's and pending |
| Bookings.Proxima | bookings_app/managers.py:33-39 | None iff no booking is upcoming; otherwise an upcoming booking of the set that is least by (date, start time) (also lines 80-82) |
| Bookings.ClassificationExclusive | bookings_app/managers.py:10-17 | every booking is exactly one of pending, approved, rejected |
| Bookings.ClassificationPartition | bookings_app/managers.py:10-17 | the three lists together are a permutation of the whole queryset |
| Bookings.UpcomingOrHistory | bookings_app/managers.py:33-47 | an approved booking passes exactly one of the `proxima` and `historial_aprobadas` filters |
| Bookings.UpcomingHistoryPartition | bookings_app/managers.py:33-47 | the two lists together are a permutation of `aprobadas` |
| Bookings.FutureIsUpcoming | bookings_app/managers.py:26-39 | with start before end, a future booking passes the `proxima` filter |
| Bookings.FuturasNonEmptyGivesProxima | bookings_app/managers.py:26-39 | with well-formed slots, a non-empty `futuras` makes `proxima` return a booking no later than the first future one (also lines 80-82) |
| Bookings.DisponiblesParaFecha | bookings_app/managers.py:95-100 | for today, a slot is kept iff it starts after now; for any other date the slots are returned unchanged |
| Bookings.ReservedTables | bookings_app/managers.py:118-122 | a table id is reserved iff some booking with approved=True for that date and slot holds it |
| Bookings.TablesOfSlot | bookings_app/managers.py:124-125 | a table id is listed iff the slot with that id has the table |
| Bookings.DisponiblesQs | bookings_app/managers.py:112-128 | no slot id gives nothing; otherwise a table is offered iff it belongs to the slot and is not reserved |
| Bookings.Disponibles | bookings_app/managers.py:136-147 | no slot id gives nothing; otherwise a table is offered iff it is not reserved, whether or not the slot has it |
| Bookings.BookedTableExcluded | bookings_app/managers.py:118-128 | a table held by a booking with approved=True for that date and slot is offered by neither version (also lines 141-147) |
| Bookings.UnheldTableAvailable | bookings_app/managers.py:136-147 | a table that no approved=True booking holds for that date and slot is offered by the manager version |
| Bookings.QsWithinManager | bookings_app/managers.py:112-147 | the queryset version offers a subset of what the manager version offers |
| BookingRecords.Validate | bookings_app/models.py:15-25 | "code" is reported iff the code is empty and "date" iff the date is absent, independently; no error iff both are given |
| BookingRecords.Updated | bookings_app/models.py:43-48 | code and observations are replaced only by a non-empty value and the date only by a present one; every other field is kept |
| BookingRecords.UpdateWithNothingKeeps | bookings_app/models.py:43-48 | updating with only falsy values leaves the booking unchanged |
| BookingRecords.UpdateIdempotent | bookings_app/models.py:43-48 | applying the same update twice equals applying it once |
| BookingRecords.BookingStore.New | bookings_app/models.py:27-41 | the validation errors are returned iff validation reports one, and nothing changes; otherwise the create fails with an IntegrityError iff the code is already used (`unique=True`, line 7) or the observations are absent (the default `None` into a non-null TextField, line 8), and nothing changes; otherwise exactly the new unapproved row with that code is appended; codes and ids stay distinct |
| BookingRecords.BookingStore.Update | bookings_app/models.py:43-48 | the save succeeds iff no other row has the updated code (the unique code of line 7); then only the updated row changes, to `Updated` of its old value; otherwise nothing changes; codes and ids stay distinct |
| BookingRecords.BookingStore.Insert | bookings_app/views.py:282-289 | a booking whose code is unused is appended with the next id and nothing else changes; codes and ids stay distinct |
| BookingRecords.BookingStore.Decide | bookings_app/admin.py:449-451 | only the row's approval flag and decision date change; codes and ids stay distinct (also lines 468-471) |
| BookingRecords.BookingStore.Delete | bookings_app/views.py:148 | exactly the row is removed; codes and ids stay distinct |
| BookingHelpers.DaysInMonth | bookings_app/helpers.py:18 | between 28 and 31 days; 29 exactly for February of a leap year |
| BookingHelpers.SelectedDate | bookings_app/helpers.py:12-22 | this year; absent month and day default to today's; an error iff the month is outside 1..12 or the day is below 1; a day past the month's end becomes its last day, any other day is kept |
| BookingHelpers.SelectedDayKept | bookings_app/helpers.py:18-22 | a day within the month is returned unchanged |
| BookingHelpers.FebruaryClamped | bookings_app/helpers.py:18-22 | 29, 30 or 31 February beyond the month's end gives 28 or 29 February |
| BookingHelpers.SelectedTimeslot | bookings_app/helpers.py:24-33 | the result is one of the available slots, and None iff there are none; a non-zero requested id among them is returned; otherwise the slot with the least id |
| BookingHelpers.AvailableMonths | bookings_app/helpers.py:35-41 | the months from the current one to 12, consecutive and ascending, each with its name from the list |
| BookingHelpers.AvailabilityStatus | bookings_app/helpers.py:52-70 | today without slots gives the "no more today" banner; otherwise any table gives "Mesas Disponibles"; otherwise "FRANJA HORARIA COMPLETA."; tables are shown iff there are tables and it is not the first case |
| BookingHelpers.CodeOf | bookings_app/helpers.py:75 | a draw yields nine characters from A–Z and 0–9 |
| BookingHelpers.GenerateBookingCode | bookings_app/helpers.py:72-77 | the code returned is a nine-character code of the alphabet, used by no booking, drawn from the first unused draw; None only when every draw is used |
| BookingViews.FuturasSinProxima | bookings_app/views.py:28-43 | with no next booking the list is `futuras`; otherwise it is `futuras` without the next booking's id, so the next booking is never in it (also lines 92-97) |
| BookingViews.FutureListAfterNext | bookings_app/views.py:40-43 | with well-formed slots, every listed booking is an approved future booking and a next booking exists that is no later than it (also lines 94-97) |
| BookingViews.MakeReservation | bookings_app/views.py:266-292 | refused (nothing created) iff the requester has a pending booking; otherwise the one row appended is pending (approved=True, no approval date), owned by the requester, with the chosen date, slot and tables and a nine-character code no booking uses, the first unused one drawn; it fails with nothing changed exactly when there is no pending booking and every drawn code is already in use |
| BookingViews.SecondRequestRefused | bookings_app/views.py:266-289 | after the requester's reservation is created, `pendientes_por_usuario` is not empty, so the next request is refused |
| BookingViews.OwnBookingIndex | bookings_app/views.py:147 | None iff no booking with that id belongs to the requester; otherwise the index of such a booking |
| BookingViews.DeleteBooking | bookings_app/views.py:144-149 | found iff the id is one of the requester's bookings, whatever its state; then exactly that booking is gone and the others remain; otherwise nothing changes |
| BookingViews.CancelOrder | bookings_app/views.py:171-182 | not found for another user's order; the requester's order in state Solicitado becomes Cancelado and nothing else changes; in any other state nothing changes |
| BookingViews.DeleteOrder | bookings_app/views.py:185-197 | not found for another user's order; an order in state Solicitado stays; an order in another state without a booking fails at `order.booking.pk` and stays; otherwise the order and its lines are deleted and nothing else changes |
| BookingForms.CleanCapacity | bookings_app/forms.py:11-18 | a capacity is accepted iff it is one of 1, 2, 4, 6, 8, and is then kept as given |
| BookingForms.ActiveBookings | bookings_app/admin.py:32-37 | a booking is listed iff it is approved, holds the table and has not started; the list is non-empty iff the table has an active reservation |
| BookingForms.HasActiveBooking | bookings_app/admin.py:32-37 | the intended guard, as the table admin writes it in one `filter()` chain over bookings: some approved booking holds the table and has not started (date after today, or today with a later start); ActiveBookings is non-empty exactly when it holds |
| BookingForms.HasActiveBookingAsWritten | bookings_app/forms.py:123-128 | the slot form's guard as written: some booking of the table is approved and some booking of the table has not started, possibly two different ones; implied by the intended guard (ActiveBookingAsWrittenWeaker) but not the reverse (ActiveBookingAsWrittenOverblocks) |
| BookingForms.ActiveBookingAsWrittenWeaker | bookings_app/forms.py:123-128 | every table the intended guard blocks, the guard as written blocks too |
| BookingForms.ActiveBookingAsWrittenOverblocks | bookings_app/forms.py:123-128 | a table with a past approved booking and a future rejected one is blocked by the guard as written but has no active reservation |
| BookingForms.NamesOf | bookings_app/forms.py:110 | the names of the overlapping slots, one per slot, in order |
| BookingForms.Overlapping | bookings_app/forms.py:99-107 | a slot is listed iff it is not the one being edited and its half-open interval shares a minute with [start, end) |
| BookingForms.UnassignConflicts | bookings_app/forms.py:117-134 | a table is a conflict iff the slot had it, the selection drops it, and it has an active reservation by the intended guard (one approved booking of the table that has not started), not the two-`filter()` guard as written |
| BookingForms.TimeSlotClean | bookings_app/forms.py:81-142 | the checks run in order (taken name, start not before end, overlap, no tables, un-assigning a table with an active reservation, by the intended guard) and the first that fails is reported with what its message names; None iff none fails |
| BookingForms.CleanAddKeepsSlotsWellFormed | bookings_app/forms.py:81-142 | adding a slot that passed the checks keeps the slots with distinct ids and names, each start before its end, and no two overlapping |
| BookingForms.TouchingSlotsDoNotOverlap | bookings_app/forms.py:99-103 | slots that only touch the new interval at an end point are not reported as overlapping |
| BookingForms.EditDoesNotClashWithItself | bookings_app/forms.py:88-93 | a well-formed slot saved with its own name and times clashes with no other slot, because the slot itself is excluded (also lines 105-107) |
| BookingForms.CleanNumber | bookings_app/forms.py:29-31 | the initial number when the form has one, the instance's number otherwise |
| BookingForms.SubmittedNumberIgnored | bookings_app/forms.py:29-31 | the submitted number never changes the cleaned one |
| BookingAdmin.MaxNumber | bookings_app/admin.py:61-62 | 0 for no numbers; otherwise a number in use that no other number exceeds |
| BookingAdmin.SmallestUnusedUnique | bookings_app/admin.py:60-71 | the smallest unused positive number is unique |
| BookingAdmin.NextTableNumber | bookings_app/admin.py:60-71 | the number is not in use and every positive number below it is; with no negative numbers it is the smallest unused positive number; 1 when there are no tables (also lines 98-108) |
| BookingAdmin.ActiveIsBookedFromToday | bookings_app/admin.py:145-150 | every table the active-reservation guard blocks, the bulk delete's guard blocks too (also lines 168-173) |
| BookingAdmin.HasBookingFromToday | bookings_app/admin.py:168-173 | the bulk delete's guard: some approved booking holds the table and is dated today or later, whether or not its slot has started; weaker than the active-reservation guard (ActiveIsBookedFromToday) and strictly so (StartedTodayBlocksOnlyBulkDelete) |
| BookingAdmin.StartedTodayBlocksOnlyBulkDelete | bookings_app/admin.py:145-150 | an approved booking for today whose slot has started blocks the bulk delete but is not an active reservation (also lines 168-173) |
| BookingAdmin.PartitionIsFilter | bookings_app/admin.py:31-42 | the numbers collected one table at a time are those of the blocked tables, and the ids those of the others, in selection order (also lines 168-178) |
| BookingAdmin.PartitionSelection | bookings_app/admin.py:28-42 | the blocked list holds the numbers of the selected tables the guard blocks and the permitted list the ids of the others, in selection order (also lines 165-178) |
| BookingAdmin.PartitionCovers | bookings_app/admin.py:31-42 | the blocked and permitted tables together are a permutation of the selection, and no table is in both |
| BookingAdmin.FilterKeepsDistinct | bookings_app/admin.py:51 | deleting tables keeps the remaining ids and numbers distinct (also line 187) |
| BookingAdmin.TableRegistry.Add | bookings_app/admin.py:98-108 | the new row is appended with the next id, the given capacity and description, and the smallest positive number no table has; ids and numbers stay distinct (also line 133) |
| BookingAdmin.TableRegistry.Change | bookings_app/admin.py:110-133 | an error iff the table has an active reservation and the capacity changes; the error lists those reservations' codes and nothing is saved; otherwise capacity and description are saved and the number stays |
| BookingAdmin.TableRegistry.Delete | bookings_app/admin.py:141-161 | deleted iff the table has no active reservation; a blocked table stays in place and nothing changes |
| BookingAdmin.TableRegistry.EliminarMesasControladas | bookings_app/admin.py:24-55 | the selection is split by the active-reservation guard; exactly the rows with a permitted id are deleted; every blocked table stays and every unblocked selected table is gone |
| BookingAdmin.TableRegistry.DeleteQueryset | bookings_app/admin.py:163-191 | as the action, but a table is blocked by any approved booking dated today or later, even one whose slot has passed |
| BookingAdmin.CodesOfBookings | bookings_app/admin.py:129 | the codes of the active reservations, one per booking, in order |
| BookingAdmin.GuardedTablesKept | bookings_app/admin.py:44-55 | deleting the permitted ids keeps every table the guard blocks and removes every selected table it does not block (also lines 186-191) |
| BookingAdmin.TableRegistry.DeleteIds | bookings_app/admin.py:51 | exactly the tables whose id is not listed remain, in order (also line 187) |
| BookingAdmin.SlotGuardAsWrittenWeaker | bookings_app/admin.py:221-227 | every slot the intended guard protects, the written guard protects too (also lines 288-294 and 319-325) |
| BookingAdmin.SlotHasFutureBookingsAsWritten | bookings_app/admin.py:221-227 | the slot guard as written: some table of the slot has an approved booking in this slot and some booking, possibly another, that has not started |
| BookingAdmin.SlotHasFutureBookings | bookings_app/admin.py:221-227 | the intended slot guard: one approved booking in this slot, holding one of its tables, has not started; it implies the written guard (SlotGuardAsWrittenWeaker) |
| BookingAdmin.SlotGuardAsWrittenOverblocks | bookings_app/admin.py:221-227 | counterexample: a table with a past approved booking in the slot and a future rejected booking elsewhere locks the slot under the written guard but not under the intended one (also lines 288-294 and 319-325) |
| BookingAdmin.ReadonlyFields | bookings_app/admin.py:209-232 | the three controlled fields for a Cajero, or for an Administrador editing a slot with a future approved booking in it by the intended guard (SlotHasFutureBookings); no field otherwise |
| BookingAdmin.SlotDeletePermission | bookings_app/admin.py:306-328 | without an object, the default permission; with one, allowed iff the user is an Administrador and the slot has no future approved booking by the intended guard (SlotHasFutureBookings) |
| BookingAdmin.DeletableIffEditable | bookings_app/admin.py:209-232 | for an Administrador who is not a Cajero, a slot can be deleted exactly when none of its fields is read-only (also lines 306-328) |
| BookingAdmin.SlotRegistry.Delete | bookings_app/admin.py:283-304 | the slot is deleted iff it has no future approved booking by the intended guard (SlotHasFutureBookings); otherwise nothing changes |
| BookingAdmin.PendientesFilter | bookings_app/admin.py:348-354 | with Pendientes set and no other filter, exactly the pending bookings (approved, no decision date) remain; with another filter set, none; unset, all |
| BookingAdmin.AceptadasFilter | bookings_app/admin.py:364-375 | with Aceptadas set, exactly the accepted bookings (approved, with a decision date) remain, only past ones when Pasadas is also set, and none when Pendientes or Rechazadas is set; unset, all |
| BookingAdmin.RechazadasFilter | bookings_app/admin.py:385-396 | with Rechazadas set, exactly the rejected bookings (not approved, with a decision date) remain, only past ones when Pasadas is also set, and none when Pendientes or Aceptadas is set; unset, all |
| BookingAdmin.PasadasFilter | bookings_app/admin.py:406-428 | with Pasadas set, exactly the bookings whose slot has started remain, narrowed to accepted ones with Aceptadas or else to rejected ones with Rechazadas, and none with Pendientes; unset, all |
| BookingAdmin.ChangeList | bookings_app/admin.py:433 | the four chained list filters show exactly the bookings the combination of set filters selects: pending alone; accepted or rejected (with a decision date), never both; and past when Pasadas is set (the four filters at lines 341-427, chained in `list_filter` order) |
| BookingAdmin.PendientesNotCombined | bookings_app/admin.py:348-352 | Pendientes combined with any other filter shows nothing |
| BookingAdmin.RejectedWithoutDateOnlyInManager | bookings_app/admin.py:389 | a booking rejected without a decision date is among the manager's rejected bookings but not under the admin's Rechazadas filter (also bookings_app/managers.py:16-17) |
| BookingAdmin.NextPending | bookings_app/admin.py:454-457 | None iff no pending booking other than the current one exists; otherwise such a booking, with the earliest date of them (also lines 472-475) |
| BookingAdmin.RespondChange | bookings_app/admin.py:447-484 | accepting sets the decision date; rejecting sets it and clears the approval; both then offer the next pending booking; no decision changes nothing |
| BookingAdmin.DecisionEndsPending | bookings_app/admin.py:449-451 | a pending booking that is accepted is approved, one that is rejected is rejected, and neither is pending any more (also lines 468-471) |
| Catalog.ProductErrors | menu_app/models.py:51-64 | an error for the name iff it is empty, for the description iff it is empty, for the price iff it is not positive, and for no other field |
| Catalog.CategoryErrors | menu_app/models.py:110-120 | an error for the name iff it is empty and for the description iff it is empty, and for no other field |
| Catalog.RatingErrors | menu_app/models.py:219-232 | an error for the title iff it is empty, for the text iff it is empty, for the rating iff it is outside 1..5 |
| Catalog.ProductAccepted | menu_app/models.py:51-64 | a product passes validation iff it has a name, a description and a positive price |
| Catalog.RatingAccepted | menu_app/models.py:219-232 | a review passes validation iff it has a title, a text and a rating from 1 to 5 |
| Catalog.ComboRatingErrors | menu_app/models.py:361-370 | errors for a title or text that is None or empty and for a rating outside 1..5, and for no other field |
| Catalog.ComboErrors | menu_app/models.py:280-293 | errors for an empty name or description, a missing or non-positive price, a saved combo without products, and a discount outside 0..80, and for no other field |
| Catalog.ComboCleanAgreesWithSetDiscount | menu_app/models.py:290-297 | for an otherwise valid new combo, validation accepts exactly the discounts the setter accepts |
| Catalog.WithDiscount | menu_app/models.py:30-35 | the percentage is stored, the promotion is on iff it is positive, nothing else changes, and the promotion state stays consistent |
| Catalog.WithPromotion | menu_app/models.py:37-41 | the promotion flag is stored; switching off clears the discount, switching on keeps it; nothing else changes |
| Catalog.WithPromotionConsistent | menu_app/models.py:37-41 | switching the promotion keeps the percentage in range and no discount without a promotion |
| Catalog.UnSetPromotionIsSetPromotionFalse | menu_app/models.py:37-46 | `unSetPromotion` is `setPromotion(False)`: no promotion and no discount, and repeating it changes nothing |
| Catalog.ZeroDiscountEndsPromotion | menu_app/models.py:30-46 | setting a zero discount is the same as switching the promotion off |
| Catalog.ProductUpdated | menu_app/models.py:83-89 | each of name, description, price and quantity is replaced only by a truthy value; no other field changes |
| Catalog.UpdateCannotZero | menu_app/models.py:86-87 | a price or quantity of zero leaves the product unchanged |
| Catalog.CategoryUpdated | menu_app/models.py:136-142 | the active flag is replaced when given; name and description only by a truthy value |
| Catalog.RatingUpdated | menu_app/models.py:251-257 | title and text are replaced only by a truthy value, the rating whenever one is given, zero included |
| Catalog.RatingUpdateSkipsValidation | menu_app/models.py:229-230 | `update` stores a rating of 0 that validation would refuse (also lines 254-255) |
| Catalog.SumBounds | menu_app/models.py:332 | the sum of prices each between lo and hi lies between count·lo and count·hi |
| Catalog.ComboAveragePrice | menu_app/models.py:328-334 | an error iff the combo has no products; otherwise the value times the count is the sum of the prices |
| Catalog.ComboAverageBetween | menu_app/models.py:328-334 | the combo price lies between the cheapest and the dearest product's price |
| Catalog.ProductDiscountedPriceAsWritten | menu_app/models.py:23-28 | as written: without an active discount the price; with one, the price times (80 − percentage) / 80 |
| Catalog.ProductDiscountAsWrittenGoesNegative | menu_app/models.py:23-35 | counterexample: a product at a 100% discount, which the setter allows, costs −250 cents for a price of 1000 cents (−2.50 for 10.00) |
| Catalog.ProductDiscountedPrice | menu_app/models.py:23-28 | corrected: the price times (100 − percentage) / 100; never negative and never above the price for a consistent product |
| Catalog.ComboDiscountedPrice | menu_app/models.py:273-278 | the price times (100 − percentage) / 100 while on promotion with a positive discount; never negative and never above the price |
| Catalog.Products.New | menu_app/models.py:66-81 | created iff validation reports no error; on errors they are returned and nothing is stored; otherwise one product with no category and no promotion is appended |
| Catalog.Products.SetDiscount | menu_app/models.py:30-35 | an error iff the percentage is outside 0..100, with nothing changed; otherwise the product gets the discount |
| Catalog.Products.SetPromotion | menu_app/models.py:37-41 | the product's promotion is switched; the table stays consistent |
| Catalog.Products.UnSetPromotion | menu_app/models.py:43-46 | the product has no promotion and no discount |
| Catalog.Products.Update | menu_app/models.py:83-89 | the product row is replaced by its update |
| Catalog.Categories.New | menu_app/models.py:122-134 | created iff validation reports no error; the new category is active |
| Catalog.Categories.Update | menu_app/models.py:136-142 | the category row is replaced by its update |
| Catalog.ProductRatings.New | menu_app/models.py:234-249 | created iff validation reports no error; on errors they are returned and nothing is stored |
| Catalog.ProductRatings.Update | menu_app/models.py:251-257 | the review row is replaced by its update |
| Catalog.Combos.SetDiscount | menu_app/models.py:295-300 | an error iff the percentage is outside 0..80, with nothing changed; otherwise the percentage is stored and the promotion is on iff it is positive |
| Catalog.Combos.SetPromotion | menu_app/models.py:302-306 | the promotion flag is stored; switching off clears the discount |
| Orders.OrderCodeOf | menu_app/models.py:173-177 | "PDD-" followed by eight upper-case hexadecimal digits, which fits the 15-character code column |
| Orders.GenerateOrderCode | menu_app/models.py:164-171 | an order code no order uses, drawn by the first of ten attempts whose code is unused; a failure iff all ten codes are in use |
| Orders.LineSubtotal | menu_app/models.py:188-193 | price × quantity for a product not on promotion; on promotion the corrected discounted price (percentage / 100) × quantity, which for a consistent product is never negative and never above price × quantity |
| Orders.PromotedSubtotalAsWrittenDiffers | menu_app/models.py:188-193 | with the price as written (percentage / 80) one product priced 1000 cents at 20 % is stored as 750 cents; the corrected price gives 800 |
| Orders.SubtotalOneMore | menu_app/models.py:188-193 | without a promotion one more unit adds exactly the product's price to the subtotal |
| Orders.ComboLineSubtotal | menu_app/models.py:201-206 | price × quantity for a combo not on promotion; for a consistent combo never negative and never above price × quantity |
| Orders.AmountAfterReplace | menu_app/views.py:27 | replacing a line of an order changes that order's amount by the difference of the subtotals and no other order's amount (also line 49) |
| Orders.AmountAfterRemove | menu_app/views.py:49 | removing a line lowers its order's amount by its subtotal and leaves the others' amounts (also line 68) |
| Orders.OrderAmount | menu_app/views.py:27 | the sum of the subtotals of the order's lines; its partners are AmountAfterReplace, AmountAfterRemove and OrderAmountNonNegative (also lines 49 and 68) |
| Orders.SumSubtotalsNonNegative | menu_app/views.py:27 | lines with no negative subtotal add up to no negative sum |
| Orders.OrderAmountNonNegative | menu_app/views.py:27 | an order whose lines have no negative subtotal has no negative amount, and an order without lines has amount 0 |
| Orders.LinesNotOf | menu_app/models.py:183 | the lines left by the cascade of an order's deletion: exactly those of other orders |
| Orders.OrderIndex | menu_app/views.py:78 | None iff no order has the id; otherwise the index of one that has |
| Orders.LineIndex | menu_app/views.py:17-22 | None iff no line has the id; otherwise the index of one that has |
| Orders.OwnOrderIndex | menu_app/views.py:78 | None iff no order with the id belongs to the requester; otherwise the index of such an order (also bookings_app/views.py:173 and 187) |
| Orders.OrderStore.Insert | menu_app/models.py:159-171 | an order without a code gets the first unused code of its ten attempts, and nothing is saved exactly when all ten are in use; a given code is kept and the save fails exactly when it is in use; the order is appended with a fresh id |
| Orders.OrderStore.SetState | bookings_app/views.py:179-180 | only the order's state changes |
| Orders.OrderStore.DeleteOrder | menu_app/models.py:183 | the order is removed and its lines with it; every remaining line belongs to a remaining order (also bookings_app/views.py:194) |
| Orders.OrderStore.SetQuantity | menu_app/models.py:188-193 | the line gets the new quantity and its subtotal (`LineSubtotal`, with the corrected price for a promoted product); the order's amount is the sum of its lines' subtotals (also menu_app/views.py:23-28) |
| Orders.OrderStore.DeleteLine | menu_app/views.py:48-50 | the line is removed and the order's amount is the sum of its remaining lines' subtotals (also lines 66-69) |
| Cart.ResolvedItems | menu_app/utils/cart.py:9-21 | at most one item per entry, each the stored product of an entry whose product exists, with that entry's quantity and price × quantity |
| Cart.UnknownProductSkipped | menu_app/utils/cart.py:20-21 | an entry whose product no longer exists contributes nothing, wherever it sits |
| Cart.AllKnownOneItemEach | menu_app/utils/cart.py:9-19 | with every product known, one item per entry in order, at the base price |
| Cart.GetCartItemsAndTotal | menu_app/utils/cart.py:3-23 | the resolved items of the booking's entries (none when the booking has no cart) and their subtotals' sum as the total |
| Cart.AddOneOf | menu_app/views.py:178-184 | the products stay unique and gain the added one |
| Cart.AddOneOfQuantities | menu_app/views.py:181-184 | the added product's quantity goes up by exactly 1, every other product's is unchanged |
| MenuViews.AddToOrder | menu_app/views.py:164-190 | an unknown product is not found; without a selected booking (none or 0) nothing changes; otherwise the selected booking's entries get one more of the product, a booking without entries starting from none |
| MenuViews.AddTwice | menu_app/views.py:181-184 | adding a product twice raises its quantity by 2 and leaves every other product's |
| MenuViews.FirstAddIsOne | menu_app/views.py:183-184 | a product added to an empty cart has quantity 1 |
| MenuViews.ItemIndex | menu_app/views.py:17-22 | None iff no line with the id belongs to an order of the requester in preparation; otherwise the index of such a line (also lines 36-41 and 60-65) |
| MenuViews.EditTarget | menu_app/views.py:17-22 | the line found by the lookup and the index of its order, which is the requester's and in preparation (also lines 26 and 42) |
| MenuViews.AddOne | menu_app/views.py:12-29 | not found changes nothing; otherwise the line's quantity goes up by 1 with its `LineSubtotal` (the corrected price for a promoted product), and the order's amount is the sum of its lines' subtotals |
| MenuViews.RemoveOne | menu_app/views.py:31-51 | not found changes nothing; a quantity above 1 goes down by 1 with its `LineSubtotal` (the corrected price for a promoted product), otherwise the line is deleted; the order's amount is then the sum of its lines' subtotals |
| MenuViews.DeleteItem | menu_app/views.py:53-70 | not found changes nothing; otherwise the line is deleted and the order's amount is the sum of the remaining lines' subtotals |
| MenuViews.AddOneRaisesAmountByPrice | menu_app/views.py:23-28 | for a product not on promotion, adding one raises the order's amount by the product's price |
| MenuViews.RemoveOneLowersAmountByPrice | menu_app/views.py:43-50 | for a product not on promotion, removing one of several lowers the order's amount by the product's price |
| MenuViews.DeleteLowersAmountBySubtotal | menu_app/views.py:66-69 | deleting a line lowers its order's amount by the line's subtotal |
| MenuViews.CancelOrder | menu_app/views.py:72-80 | deleted iff the requester owns an order with the id and it is in preparation; then it and its lines are removed; otherwise nothing changes |
| MenuViews.ProductsIn | menu_app/views.py:99 | exactly the products of the category |
| MenuViews.ActiveCategories | menu_app/views.py:90-91 | exactly the active categories, sorted by id |
| MenuViews.MenuGroups | menu_app/views.py:93-104 | one group per active category that has products, holding exactly its products, and no other group; ordered by category id |
| MenuViews.UpcomingBookings | menu_app/views.py:123-132 | exactly the requester's approved bookings with a decision date that start later than now, sorted by date and start time |
| MenuViews.SelectBooking | menu_app/views.py:134-146 | the requested booking, or else the one in the session when set and not 0; not found iff it is not among the upcoming bookings; a requested booking found is remembered in the session |
| AccountForms.EmailShapeParts | accounts_app/forms.py:67-68 | an accepted email is a non-empty local part of letters, digits and dots followed by "@gmail.com" or "@hotmail.com" |
| AccountForms.EmailFromParts | accounts_app/forms.py:67-68 | every such local part followed by either provider's suffix is accepted |
| AccountForms.CleanPersonName | accounts_app/forms.py:30-50 | accepted iff the stripped value consists of letters only and fits the field's maximum length, and then it is the stripped value; a value with a space is refused for the space first, then a value with another character for not being letters, then a letters-only value over the maximum for its length |
| AccountForms.CleanUsername | accounts_app/forms.py:52-61 | accepted iff the stripped value is not taken, consists of letters, digits and dots, and fits the maximum length, and then it is the stripped value; a taken username is refused as taken before its characters are checked, and one with bad characters before its length; a free, well-formed but too long one is refused as too long |
| AccountForms.CleanEmail | accounts_app/forms.py:63-73 | accepted iff the stripped value is not taken and has the accepted shape, and then it is the stripped value; a taken email is refused as taken first |
| AccountForms.CleanPassword | accounts_app/forms.py:75-83 | accepted iff the stripped value has 8 to max characters, and then it is the stripped value; a short one is refused as too short, a long one as too long |
| AccountForms.CleanedNameStaysClean | accounts_app/forms.py:30-50 | cleaning an accepted name again gives the same result |
| AccountForms.CleanedPasswordStaysClean | accounts_app/forms.py:75-83 | cleaning an accepted password again gives the same result |
| AccountForms.CleanedEmailStaysClean | accounts_app/forms.py:63-73 | cleaning an accepted email again gives the same result |
| AccountForms.AcceptedValuesHaveNoSpaces | accounts_app/forms.py:30-61 | an accepted name or username contains no space |
| AccountForms.RegisterMismatch | accounts_app/forms.py:107-113 | the registration form reports a mismatch iff both passwords are non-empty and differ |
| AccountForms.AdminMismatch | accounts_app/forms.py:161-165 | the administrator's form reports a mismatch iff the two values differ, a missing one included |
| AccountForms.RegisterMismatchImpliesAdmin | accounts_app/forms.py:107-113 | every mismatch the registration form reports the administrator's form reports too; a missing password against a given confirmation is reported only by the latter (also lines 161-165) |
| AccountForms.NotificationClean | accounts_app/forms.py:203-219 | an error for the title iff it is missing or blank after stripping, likewise for the message, and a form error iff it is not sent to all and has no recipients |
| AccountForms.AcceptedNotificationHasAudience | accounts_app/forms.py:203-219 | an accepted notification has a non-blank title and message, and recipients unless it is sent to all |
| AccountForms.EditUsername | accounts_app/forms.py:227-242 | accepted iff the stripped value consists of letters, digits and dots, fits the maximum length and is used by no other user, and then it is the stripped value; characters are checked first, then the length, then whether another user has it |
| AccountForms.EditKeepsOwnUsername | accounts_app/forms.py:52-55 | a user may keep their own valid username, which the registration cleaner refuses as taken (also lines 237-240) |
| AccountForms.FreeUsernameSameVerdict | accounts_app/forms.py:52-61 | for a username nobody uses, the edit form and the registration cleaner give the same verdict (also lines 227-242) |
| AccountModels.AccountRatingUpdated | accounts_app/models.py:63-68 | title, text and rating are each replaced only by a truthy value; product and user stay |
| AccountModels.UpdateKeepsValidReview | accounts_app/models.py:31-44 | a valid review stays valid through an update whose rating is absent, 0 or from 1 to 5 (also lines 63-68) |
| AccountModels.ZeroRatingIsIgnored | accounts_app/models.py:66 | a rating of 0 leaves this review unchanged, where the menu's review stores it (also menu_app/models.py:254-255) |
| AccountModels.AccountRatings.New | accounts_app/models.py:46-61 | created iff validation reports no error; on errors they are returned and nothing is stored |
| AccountModels.AccountRatings.Update | accounts_app/models.py:63-68 | the review row is replaced by its update |
| AccountAdmin.LinksFor | accounts_app/admin.py:54-55 | one link to the notification per user, in order |
| AccountAdmin.Audience | accounts_app/admin.py:45-52 | every client when sent to all (nobody without a "Cliente" group), the chosen recipients otherwise |
| AccountAdmin.Kept | accounts_app/admin.py:42-43 | on an edit, only links to other notifications remain; on creation all links remain |
| AccountAdmin.SavedLinksAreTheAudience | accounts_app/admin.py:39-55 | after saving, the notification's links are exactly one per member of its audience, in order, and every other notification's links are as before |
| AccountAdmin.Recipients.SaveNotification | accounts_app/admin.py:39-55 | the links are the kept ones followed by one new link per member of the audience |
| AccountAdmin.Memberships.SaveUser | accounts_app/admin.py:19-24 | a user being added joins the chosen role group; an edit, or no role, changes no membership |
| Cookie.Split | menu_app/static/menu_app/js/base.js:149 | at least one piece, none containing the separator |
| Cookie.JoinSplit | menu_app/static/menu_app/js/base.js:149 | joining the pieces with the separator gives back the cookie string |
| Cookie.FirstMatchAt | menu_app/static/menu_app/js/base.js:150-152 | an index no larger than the number of pieces; no piece before it matches, and the piece at it does when it is in range |
| Cookie.FirstMatch | menu_app/static/menu_app/js/base.js:150-156 | None iff no trimmed piece starts with `name=`; otherwise the text after `name=` in the first piece that does |
| Cookie.SearchPieces | menu_app/static/menu_app/js/base.js:150-156 | the loop over the pieces returns the first trimmed piece's text after `name=`, null when no piece matches |
| Cookie.FirstMatchPieces | menu_app/static/menu_app/js/base.js:150-156 | the search stated over the pieces themselves: None iff no trimmed piece starts with `name=`; otherwise the value is the text after `name=` in a trimmed piece that does |
| Cookie.CookieValue | menu_app/static/menu_app/js/base.js:146-159 | null iff the cookie string is empty or no trimmed piece starts with `name=`; otherwise the text after `name=` in a trimmed piece that does (GetCookie computes it) |
| Cookie.GetCookie | menu_app/static/menu_app/js/base.js:146-159 | null for an empty cookie string; otherwise the value of the first piece that matches, null when none does |
| Cookie.SingleCookie | menu_app/static/menu_app/js/base.js:146-159 | a cookie string holding just `name=value` yields that value |
| Cookie.FirstCookieWins | menu_app/static/menu_app/js/base.js:150-156 | the first matching piece decides, whatever follows it |
| Text.StripLeft | accounts_app/forms.py:31 | a suffix of the text; what it drops is whitespace and it starts with no whitespace |
| Text.StripRight | accounts_app/forms.py:31 | a prefix of the text; what it drops is whitespace and it ends with no whitespace |
| Text.StripIdempotent | accounts_app/forms.py:31 | stripping a stripped text changes nothing (also line 53 and menu_app/static/menu_app/js/base.js:151) |

## Left out

- HTTP responses, redirects, templates, JSON bodies, admin registrations, `change_view` extra context and the flash messages: they carry no domain logic. A view that finds nothing reports "not found" instead.
- Error message texts of the account and booking forms are replaced by error kinds. The catalogue validators keep their texts.
- The clock is the `Clock` parameter, and the random generators (`get_random_string`, `uuid4`) are sequences of draws.
- BookingHelpers.GenerateBookingCode: the source retries forever. The model returns None when every draw it was given is already used.
- Authorization and group checks (`groups.filter(...)`, the mixins) are boolean inputs. The group-only `has_delete_permission` of the table and booking admins is not modelled.
- `Product.discounted_price` and `Combo.discounted_price` compute in floating point; the model uses exact reals, so rounding is not captured.
- Stored subtotals and amounts (`DecimalField(decimal_places=2)`, menu_app/models.py lines 154, 185 and 198) are quantized to two decimals when saved; the model keeps the exact real, so `Orders.LineSubtotal`, `Orders.OrderAmount` and the amount lemmas hold for unrounded values only.
- `Catalog.ComboAveragePrice` is the exact quotient; the source's Decimal division rounds it to 28 significant digits, and the combo price it sets (menu_app/models.py line 263) is quantized to two decimals.
- Concurrency, including double booking and overselling races, is not modelled.
- Python's `str.strip()` and JavaScript's `trim()` also remove non-ASCII whitespace, and Python's also removes the ASCII separators `\x1c`-`\x1f`; `Text.IsSpace` covers only space, tab, line feed, carriage return, vertical tab and form feed.
- The records follow the schema the managers, admin, forms, views and tests of the booking application use: `Booking` has `time_slot`, `issue_date` and a many-to-many `tables`, and `TimeSlot` has a name, start and end times and a many-to-many `tables` (bookings_app/tests.py lines 194-203 create a booking with `time_slot` and `issue_date` and call `booking.tables.add`). bookings_app/models.py declares an older schema (a `Table.booking` foreign key, `TableHasTimeSlot`, a `TimeSlot` with `start`, `end` and `is_full`) that none of that code can run against, so it is not modelled. Likewise the accounts records follow the `User` fields and the `UserNotification` link that accounts_app/forms.py and admin.py use, not the older `User` and `UserRecievesNotification` of accounts_app/models.py lines 3-12.
- BookingAdmin.TableRegistry.Delete: deleting a table also deletes its rows in the `Booking.tables` and `TimeSlot.tables` link tables; the model's bookings and slots keep the deleted id. No contract depends on it, because a deleted id is never given to another table.
- BookingAdmin.TableRegistry.DeleteIds: as `TableRegistry.Delete`, the link rows of the deleted tables are not removed from bookings and slots.
- AccountForms.CleanPersonName: modelled on any string; the model-form field's own validation, which Django runs before `clean_name` (required, and `max_length`, whose error a too-long name with a space gets instead of the space error), is not modelled.
- AccountForms.CleanUsername: modelled on any string; the field's own required and `max_length` validation that Django runs first is not modelled.
- AccountForms.EditUsername: modelled on any string; the field's own required and `max_length` validation that Django runs first is not modelled.
- AccountForms.CleanEmail: modelled on any string; the `EmailField`'s `EmailValidator`, which Django runs before `clean_email`, also refuses a local part that starts or ends with a dot or has two dots in a row (".ana@gmail.com", "ana.@gmail.com", "a..b@hotmail.com"), and these the model accepts.
- AccountForms.EmailFromParts: states the pattern of `clean_email` alone; a local part with a leading, trailing or doubled dot satisfies it but is refused earlier by the `EmailValidator`.
- BookingForms.UnassignConflicts: uses the intended guard `HasActiveBooking`; as written (forms.py lines 123-128) a table with an approved booking yesterday and a rejected booking tomorrow also counts as a conflict, which the model does not reproduce (see `ActiveBookingAsWrittenOverblocks` and the Findings row).
- BookingForms.TimeSlotClean: its last check inherits `UnassignConflicts`' intended guard, so the form as written also refuses un-assigning the table of the example above and the model accepts it.
- BookingAdmin.ReadonlyFields: uses the intended guard `SlotHasFutureBookings`; as written (admin.py lines 221-227) table 7 in slot 1 with an approved booking of table 7 in slot 1 yesterday and a rejected booking of table 7 in slot 2 tomorrow makes the fields read-only, which the model does not reproduce (see `SlotGuardAsWrittenOverblocks`).
- BookingAdmin.SlotDeletePermission: uses the intended guard; as written (admin.py lines 318-324) the same example refuses the deletion, which the model allows.
- BookingAdmin.SlotRegistry.Delete: uses the intended guard; as written (admin.py lines 288-294) the same example keeps the slot, which the model deletes.
- Orders.LineSubtotal: a promoted product's subtotal uses the corrected `discounted_price` (percentage / 100); as written `save` uses the / 80 price, which stores less (750 instead of 800 cents for 1000 at 20 %) and a negative subtotal at 100 % (Orders.PromotedSubtotalAsWrittenDiffers, and the first row of Findings).
- Orders.OrderStore.SetQuantity: the stored subtotal of a promoted product is `LineSubtotal`'s corrected value, not the / 80 one `save` computes.
- MenuViews.AddOne: the new subtotal of a promoted product is `LineSubtotal`'s corrected value, not the / 80 one `save` computes.
- MenuViews.RemoveOne: the new subtotal of a promoted product is `LineSubtotal`'s corrected value, not the / 80 one `save` computes.
- BookingViews.CancelOrder: for an order without a booking the source saves the cancellation and then fails building the redirect from `order.booking.pk`; the model records the saved state and reports Done.
- Cookie.GetCookie: the value is returned as stored, without `decodeURIComponent`; a malformed `%` escape, on which `decodeURIComponent` throws a URIError, is not reachable in the model.
- Cookie.CookieValue: returns the undecoded value, as `Cookie.GetCookie` above.
- Cookie.SearchPieces: returns the undecoded value, as `Cookie.GetCookie` above.
- Cookie.SingleCookie: states the undecoded value, as `Cookie.GetCookie` above.
- Month and day values that fail to parse as integers raise in the source; the model takes integers.
- The `max_length` of the name and last-name fields is a parameter, because the user model declaring it is not part of this model.
- `UserLoginForm`, `set_password`, the registration form's `save` (which adds the user to the "Cliente" group) and the `NotificationForm.__init__` recipient queryset are not modelled.
- `User.__str__` and `Rating.__str__` only return a field and are not modelled.
- Average ratings are database aggregates and are not modelled; nor are product images or the combo's product add, remove and clear, or its activation setters.
- `con_cantidad_pedidos` is a database annotation and is not modelled.
- BookingAdmin.ChangeList: Django re-sorts the change list by `-issue_date`, so the model states only which bookings are shown, not their order.
- The cascade from a deleted booking to its orders is not modelled. Deleting an order does delete its product lines.
- A product line whose product was deleted (a NULL product) is not modelled: every line's product is in the given product map.
- Menu form validation of the submitted item or order id is not modelled; an id that no row has is "not found".
- `calendar.monthdayscalendar` and the `to_int` template filter are library wrappers and are not modelled.

## Findings

| source | as written | input that shows it | evidently intended | confidence | as-written member | corrected member |
|---|---|---|---|---|---|---|
| menu_app/models.py:23-28 | the product's discount is `percentage / 80` of the price, and `OrderContainsProduct.save` (lines 188-193) stores line subtotals from that price | a product priced 10.00, on promotion, at the 100% discount `setDiscount` allows, costs −2.50 | the percentage divided by 100, as the combo does, so that the price stays between 0 and the list price | not executed | Catalog.ProductDiscountAsWrittenGoesNegative | Catalog.ProductDiscountedPrice |
| bookings_app/admin.py:221-227 | the slot guard filters `tables` by `booking__approved` and `booking__time_slot` in one `filter()` and by the booking's date in another, so the two conditions may be met by two different bookings of the same table (with `booking__` the reverse of the `Booking.tables` many-to-many that the tests use; under the `Table.booking` foreign key of bookings_app/models.py line 55 both calls would join the one booking and the guard would be right) | table 7 in slot 1; an approved booking of table 7 in slot 1 yesterday, and a rejected booking of table 7 in slot 2 tomorrow: the slot is locked although nothing is booked in it from now on | one booking that is approved, in this slot and not yet started | not executed | BookingAdmin.SlotGuardAsWrittenOverblocks | BookingAdmin.ReadonlyFields |
| bookings_app/forms.py:123-128 | the un-assignment guard filters `tables` by `booking__approved` and by the booking's date in two `filter()` calls, so a past approved booking and a future rejected booking of the same table block it (with `booking__` the reverse of the `Booking.tables` many-to-many, as for the slot guard) | table 7 with an approved booking yesterday and a rejected booking tomorrow, at day 10, minute 600: un-assigning it is refused | an approved booking of the table that has not started | not executed | BookingForms.ActiveBookingAsWrittenOverblocks | BookingForms.UnassignConflicts |
