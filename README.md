# Hotel reservations: booking and billing rules in Dafny

This project models the booking and billing rules of an ASP.NET MVC hotel
reservation application and proves properties of them. The rules live in
three controllers and one view model:

- **Reservations** (`ReservasController`). `ValidarReservaAsync` checks a
  reservation in a fixed order and appends each failure to ModelState:
  1. a check-in before today, for new bookings only;
  2. a check-out not after the check-in;
  3. a missing client or room, checked only while ModelState is still valid;
  4. an overlap with another reservation of the same room, checked only if
     everything before passed.

  `Create`, `Edit` and `DeleteConfirmed` change the `Reservas` table
  according to the validator's answer.
- **Payments** (`PagosController`).
  - The pending balance is the room price, plus the reservation's
    additional services, less its payments.
  - The payment form (`Create` GET) refuses reservations that already have a
    payment or owe nothing, and otherwise proposes the balance.
  - Settlement (`Create` POST) checks its guards, then in one transaction
    inserts the payment and marks every pending service of the reservation
    as paid.
  - `DeleteConfirmed` undoes this: it marks the paid services pending again
    and removes the payment.
- **Payment report** (`ReportesController.GetPagosReportDataAsync`). The
  report applies optional first-day, last-day and method filters and sorts
  newest first. `ReportePagosViewModel.TotalRecaudado` sums the amounts.
- **Additional services** (`ServiciosAdicionalesController.Create`). A new
  service always starts as "Pendiente".

## How the store is modelled

The database is the class `HotelStore.HotelDb`:

- one `seq` field per table;
- one AUTO_INCREMENT counter per generated key;
- a `Valid()` invariant that every state-changing method keeps. The
  invariant says:
  - keys are unique and non-zero;
  - every stored reservation has ordered dates and existing references;
  - no room is double-booked;
  - each reservation has at most one payment, and every payment is positive;
  - every payment and every service belongs to a stored reservation
    (`Pago.ReservaId` and `ServicioAdicional.ReservaId` are required foreign
    keys, Models/Pago.cs:15-16 and Models/ServicioAdicional.cs:41-44).

Queries (`AnyAsync`, `FirstOrDefaultAsync`, `Where`, `Sum`) are functions
over those sequences.

Inputs the model does not compute itself:

- Dates are a day number plus a time of day, so `.Date` keeps the day.
  "Today" and "now" are parameters.
- Money is whole COP (`int`).
- The ModelState errors raised by model binding and data annotations come
  in as a list.
- A failing `SaveChanges` or transaction is a `storeFailure` flag. When it
  is set, the operation leaves its tables as they were.

Deleting a reservation cascades. The context (Models/HotelDbContext.cs:27-39)
restricts deletes only on the reservation's client and room keys. The
reservation keys of payments and services are required and not configured,
so by Entity Framework Core's convention a deleted reservation takes its
payments and services with it (`Reservations.RemoveWithDependents`,
`HotelStore.CascadeRemovesDependents`). Adding a service whose posted
reservation is not stored violates the foreign key, so the insert fails and
the action's handler reports the save error (`Services.AddService`).

Each `foreach` of the controllers is a `while` loop proved against a
function: the one over pending services in settlement and the one over paid
services in deletion. The validator has no loop; its sequence of
conditional appends to ModelState is the method `Reservations.Validate`,
proved against the function `Reservations.ValidationErrors`.

Service statuses are compared the way the database compares them. The two
status filters (`EstadoPago == "Pendiente"` and `== "Pagado"`) run in the
database under MySQL's default case-insensitive collation. So any letter-case variant of
"Pendiente" counts as pending, and any variant of "Pagado" counts as paid
(`Models.StatusOf`).

Behaviour the model keeps as written:

- The settlement balance is read before the transaction opens
  (Controllers/PagosController.cs:190-198, 215), not inside it.
- `Create` binds `ReservaId` from the form. A posted non-zero key therefore
  skips the past check-in rule, and the row is inserted under that key.
- The form's "already paid in full" redirect
  (Controllers/PagosController.cs:123-127) can never fire. It is only
  reached for a reservation without payments. Such a reservation has paid
  0 and owes at least its room price, which is at least 50 000.
  `Payments.FullyPaidNeverShown` proves this.

## Model

| member | source | states |
|---|---|---|
| Availability.OverlapsIffSharedNight | Controllers/ReservasController.cs:283-288 | for stays of at least one night, the strict day comparisons of the conflict scan hold exactly when some night is occupied by both stays (half-open intervals) |
| Availability.TouchingStaysDoNotOverlap | Controllers/ReservasController.cs:287-288 | a stay that ends on the day another begins is not a conflict, in either order |
| Availability.InsertKeepsNoDoubleBooking | Controllers/ReservasController.cs:281-295 | inserting a candidate that passed the availability check, under an unused key, keeps every room free of overlapping stays |
| Availability.ReplaceKeepsNoDoubleBooking | Controllers/ReservasController.cs:283-288 | replacing a row by a candidate with the same key that passed the check keeps rooms free of overlaps and keys unique |
| Availability.RemoveKeepsNoDoubleBooking | Controllers/ReservasController.cs:190-191 | removing a reservation keeps rooms free of overlaps and keys unique |
| Availability.StoredStayHasNoConflict | Controllers/ReservasController.cs:285 | a stored reservation never conflicts with the table it is stored in, because its own key is excluded |
| Availability.ConflictsWith | Controllers/ReservasController.cs:285-288 | another key, the same room, and overlapping stays; `Availability.OverlapsIffSharedNight` gives the overlap its meaning |
| Availability.HasConflict | Controllers/ReservasController.cs:283-290 | some stored reservation conflicts with the candidate; `Availability.StoredStayHasNoConflict` and `Availability.InsertKeepsNoDoubleBooking` state what it guarantees |
| HotelStore.FindReservation | Controllers/ReservasController.cs:181 | the lookup returns a stored row with the requested key, and returns nothing exactly when no row has that key |
| HotelStore.FindPayment | Controllers/PagosController.cs:342-344 | the lookup returns a stored payment with the requested key, and returns nothing exactly when no payment has that key |
| HotelStore.ClientExists | Controllers/ReservasController.cs:267 | holds exactly when some client row has the key |
| HotelStore.RoomExists | Controllers/ReservasController.cs:273 | holds exactly when some room row has the key |
| HotelStore.HasPayment | Controllers/PagosController.cs:182 | holds exactly when some payment row belongs to the reservation; `Payments.RemovalKeepsPaymentsValid` and `Payments.NoPaymentPaidNothing` state its consequences |
| Reservations.ValidationErrors | Controllers/ReservasController.cs:249-298 | the validator only appends: the ModelState it was given is a prefix of the one it leaves |
| Reservations.DateErrors | Controllers/ReservasController.cs:252-262 | "check-in in the past" is present iff the key is 0 and check-in is before today, "check-out not after check-in" iff check-out is on or before check-in, and nothing else is present |
| Reservations.ReferenceErrors | Controllers/ReservasController.cs:265-278 | "client not found" is present iff no client has the key, "room not found" iff no room has the key, and nothing else is present |
| Reservations.Validate | Controllers/ReservasController.cs:249-298 | the imperative validator leaves exactly the ModelState of the rule-ordered specification and answers true iff that ModelState is empty |
| Reservations.AcceptedIffAdmissible | Controllers/ReservasController.cs:252-297 | the validator accepts exactly when binding raised nothing, a new booking's check-in is not past, check-out is after check-in, client and room exist, and no other reservation of the room overlaps |
| Reservations.PastCheckInRule | Controllers/ReservasController.cs:252-256 | "check-in in the past" is reported iff the key is 0 and the check-in day is before today; an edit keeping a past check-in is not refused for it |
| Reservations.CheckOutRule | Controllers/ReservasController.cs:258-262 | "check-out not after check-in" is reported iff the check-out day is on or before the check-in day, for new bookings and edits alike |
| Reservations.ReferenceRules | Controllers/ReservasController.cs:265-278 | a missing client and a missing room are two separate errors, each reported iff ModelState was clean, the dates were valid and that reference is missing |
| Reservations.UnavailableStandsAlone | Controllers/ReservasController.cs:281-295 | the availability error is reported iff every earlier check passed and an overlapping stay exists, and it is then the only error |
| Reservations.ErrorsInRuleOrder | Controllers/ReservasController.cs:251-295 | the validator's own errors follow the binding errors in the fixed rule order |
| Reservations.ResaveRaisesNoConflict | Controllers/ReservasController.cs:283-288 | re-saving a stored reservation with unchanged dates never raises the availability error |
| Reservations.InsertReservation | Controllers/ReservasController.cs:81-82 | a key of 0 takes the next AUTO_INCREMENT value and an explicit key is kept; exactly one row is appended, and the store invariant holds |
| Reservations.Create | Controllers/ReservasController.cs:55-110 | binding errors return the form unchanged; otherwise the validator's errors are returned; a store failure or a key in use gives a save error; otherwise one validated row is added, no room is double-booked, and nothing changes in any failing case |
| Reservations.Edit | Controllers/ReservasController.cs:125-162 | a route key that differs from the posted key is 404; the validator runs on the bound ModelState; key 0 is inserted; a key no row has is 404; a store failure gives an update error; otherwise only the row with that key is replaced, keeping the invariant |
| Reservations.DeleteConfirmed | Controllers/ReservasController.cs:179-201 | a missing key reports not-found and a store failure reports failure, both with nothing changed; otherwise exactly the row with that key is removed, the payments and services that refer to it are removed with it, and the store invariant holds |
| Reservations.RemoveWithDependents | Controllers/ReservasController.cs:190-191 | the delete at an index removes that one reservation and, by the cascade of the required foreign keys, exactly the payments and services of its key, keeping the store invariant |
| Reservations.ReplaceAt | Controllers/ReservasController.cs:139-140 | overwriting a stored row with a validated candidate that keeps its key replaces only that row and keeps the store invariant |
| Reservations.DateErrorsInRuleOrder | Controllers/ReservasController.cs:252-262 | the date errors appear in rule order, past check-in before check-out |
| Reservations.ReferenceErrorsInRuleOrder | Controllers/ReservasController.cs:265-278 | the reference errors appear in rule order, client before room |
| Payments.ReservationDetails | Controllers/PagosController.cs:20-67 | details exist iff an id is given and the reservation, its client and its room exist; the room price is the booked room's price, the services are exactly that reservation's services (duplicates kept), paid is the sum of that reservation's payments, total = room price + service sum, and pending = total − paid |
| Payments.PaymentForm | Controllers/PagosController.cs:80-158 | without an id it lists exactly the reservations with no payment and an existing client and room; with an id it reports "already paid" iff the reservation has a payment, not-found iff it has none and does not exist, no-room iff it exists without a room, and fully-paid iff the pending balance is ≤ 0; otherwise it shows the form, with total = room price + services, previous = the payments' sum, and a proposed amount of total − previous, in cash, dated now |
| Payments.BookedRoomPrice | Controllers/PagosController.cs:170-179 | a room price is found iff the reservation and its room exist; it is the price of the reservation's room, so at least the minimum room price |
| Payments.MarkPendingAsPaid | Controllers/PagosController.cs:225-235 | the loop leaves exactly the table in which the reservation's pending services are paid and every other row is unchanged |
| Payments.TotalDue | Controllers/PagosController.cs:110-114 | the room price plus the reservation's services; `Payments.TotalDueAtLeastRoomPrice` bounds it and `Payments.SameChargesSameTotal` shows status changes leave it alone |
| Payments.PaidSoFar | Controllers/PagosController.cs:117-119 | the sum of the reservation's payments; `Payments.AppendPaymentRaisesPaid`, `Payments.RemovePaymentLowersPaid` and `Payments.NoPaymentPaidNothing` state how it moves |
| Payments.PendingBalance | Controllers/PagosController.cs:121 | total due less paid so far; `Payments.Create` proves a settlement lowers it by the amount and keeps it ≥ 0 |
| Payments.SettlementErrors | Controllers/PagosController.cs:165-212 | the guards of the POST in their order; `Payments.SettlementAllowedIff` states when the list is empty |
| Payments.SettlementGuards | Controllers/PagosController.cs:165-212 | runs the guards step by step in the action's order and returns exactly the errors of `Payments.SettlementErrors` |
| Payments.SettleServices | Controllers/PagosController.cs:224-235 | the services table after settlement, row for row the same length; `Payments.SettlementClearsPending` states its content |
| Payments.ReopenServices | Controllers/PagosController.cs:353-361 | the services table after deletion, row for row the same length; `Payments.ReopenUndoesSettle` relates it to settlement |
| Payments.MarkPaidAsPending | Controllers/PagosController.cs:353-361 | the loop leaves exactly the table in which the reservation's paid services are pending and every other row is unchanged |
| Payments.SameChargesSameTotal | Controllers/PagosController.cs:110-114 | two service tables that differ only in status give every reservation the same service total |
| Payments.StatusChangesKeepCharges | Controllers/PagosController.cs:231-235 | settlement and refund keep every service's key, reservation and price |
| Payments.SettlementClearsPending | Controllers/PagosController.cs:225-235 | after settlement no service of the reservation is pending, other reservations' services are untouched, and a service is paid iff it was paid or was a pending service of that reservation |
| Payments.ReopenUndoesSettle | Controllers/PagosController.cs:353-361 | deleting the payment restores the services table exactly, provided none of the reservation's services was already paid before the settlement |
| Payments.AppendPaymentRaisesPaid | Controllers/PagosController.cs:195-197 | a new payment raises what its own reservation has paid by its amount and leaves every other reservation's total alone |
| Payments.RemovePaymentLowersPaid | Controllers/PagosController.cs:46-50 | removing a payment lowers what its reservation has paid by its amount and leaves every other reservation's total alone |
| Payments.NoPaymentPaidNothing | Controllers/PagosController.cs:117-121 | a reservation without payments has paid 0 |
| Payments.TotalDueAtLeastRoomPrice | Controllers/PagosController.cs:110-114 | what a reservation owes is at least its room price, so it is positive |
| Payments.FormProposesWholeBill | Controllers/PagosController.cs:121-137 | for a reservation with no payment and a room, the form is always shown: previous payments are 0 and the proposed amount is the whole bill |
| Payments.FullyPaidNeverShown | Controllers/PagosController.cs:123-127 | the "already paid in full" redirect is never the outcome of the form, for any table contents and any id |
| Payments.FormAgreesWithDetails | Controllers/PagosController.cs:42-50 | the form and the details endpoint show the same total, paid and pending figures |
| Payments.SettlementAllowedIff | Controllers/PagosController.cs:165-212 | the settlement guards pass iff binding raised nothing, the reservation and room exist, there is no payment yet and 0 < amount ≤ pending balance |
| Payments.ProposedAmountAccepted | Controllers/PagosController.cs:133-140 | posting the amount the form proposes passes every settlement guard |
| Payments.SettlementKeepsPaymentsValid | Controllers/PagosController.cs:181-187 | a positive payment recorded under the next key for a reservation without one keeps keys unique and at most one payment per reservation |
| Payments.RemovalKeepsPaymentsValid | Controllers/PagosController.cs:363 | removing a payment keeps the payments invariant, leaves its reservation without a payment, and removes exactly the row with its key |
| Payments.SettlementMoves | Controllers/PagosController.cs:219-236 | settlement raises the reservation's paid total by the amount, leaves other reservations' payments alone, and changes no service total |
| Payments.RefundMoves | Controllers/PagosController.cs:353-364 | deletion lowers the reservation's paid total by the payment's amount, leaves other reservations' payments alone, and changes no service total |
| Payments.Create | Controllers/PagosController.cs:163-254 | a failing guard is returned with its message (the amount error carries the entered and the pending amounts); a store failure returns both handlers' messages with nothing changed; success appends exactly one payment, marks the reservation's pending services paid, leaves other reservations' balances alone, and leaves a new balance equal to old − amount, which is ≥ 0 |
| Payments.DeleteConfirmed | Controllers/PagosController.cs:337-389 | a missing payment changes nothing, and a store failure changes nothing; otherwise exactly that payment is removed, the reservation's paid services become pending, its paid total drops to 0, and other reservations' balances are unchanged |
| Reports.InsertByDateKeeps | Controllers/ReportesController.cs:145 | inserting into the ordered list adds that one payment and loses none |
| Reports.InsertByDateOrdered | Controllers/ReportesController.cs:145 | inserting into a list ordered newest first keeps it ordered |
| Reports.SortNewestFirst | Controllers/ReportesController.cs:145 | the ordering is a permutation of its input, and no payment precedes a strictly newer one |
| Reports.FilteredKeeps | Controllers/ReportesController.cs:130-143 | the chained optional filters keep each payment that passes every active filter as often as it is stored, and drop every other |
| Reports.Filtered | Controllers/ReportesController.cs:130-143 | the three optional `Where` clauses in order; `Reports.FilteredKeeps` states what they keep |
| Reports.PaymentReport | Controllers/ReportesController.cs:126-146 | the filtered payments sorted newest first; `Reports.ReportIsSoundAndComplete` and `Reports.ReportNewestFirst` state its content and order |
| Reports.ReportIsSoundAndComplete | Controllers/ReportesController.cs:126-146 | the report holds every stored payment that passes the active filters, as often as stored, and nothing else |
| Reports.ReportRespectsFilters | Controllers/ReportesController.cs:130-143 | every reported payment's day is on or after the first day and on or before the last day, and its method equals a non-empty method filter |
| Reports.ReportNewestFirst | Controllers/ReportesController.cs:145 | the report is ordered by payment time, non-increasing |
| Reports.UnfilteredReportIsPermutation | Controllers/ReportesController.cs:128-145 | with no date filter and a null or empty method, the report is a permutation of all payments |
| Reports.EmptyMethodIsNoFilter | Controllers/ReportesController.cs:140-143 | an empty method filter gives the same report as no method filter |
| Reports.InvertedRangeIsEmpty | Controllers/ReportesController.cs:130-138 | a first day after the last day reports nothing |
| ReportView.NoResultsCollectNothing | Models/ReportePagosViewModel.cs:23 | the total is 0 for absent results and for an empty list |
| ReportView.TotalCollected | Models/ReportePagosViewModel.cs:23 | the sum of the results' amounts, or 0 without results; the `ReportView` lemmas state its properties |
| ReportView.TotalOfConcat | Models/ReportePagosViewModel.cs:23 | the total of two result lists laid end to end is the sum of their totals |
| ReportView.SumIgnoresOrder | Models/ReportePagosViewModel.cs:23 | lists with the same payments, in any order, have the same sum of amounts |
| ReportView.TotalIgnoresOrder | Models/ReportePagosViewModel.cs:23 | the total does not depend on the order of the results |
| ReportView.PositiveAmountsPositiveTotal | Models/ReportePagosViewModel.cs:23 | with positive amounts the total is at least the number of results, and it is positive iff there is a result |
| Services.AddService | Controllers/ServiciosAdicionalesController.cs:58-81 | binding errors are returned; a store failure or a posted reservation that is not stored gives the save error; each refusal leaves the table unchanged; otherwise exactly one service is appended under the next key, with the posted fields and the pending status of the text "Pendiente", and the store invariant, including its foreign keys, holds |
| Services.NewServiceRaisesBalance | Controllers/ServiciosAdicionalesController.cs:64 | a new service raises its reservation's pending balance by its price and leaves every other reservation's balance alone |
| Services.NewServiceIsSettledNext | Controllers/ServiciosAdicionalesController.cs:64 | a new service, being pending, is marked paid by the next settlement of its reservation |
| Availability.Overlaps | Controllers/ReservasController.cs:287-288 | the two strict day comparisons; `Availability.OverlapsIffSharedNight` and `Availability.TouchingStaysDoNotOverlap` state their meaning |
| HotelStore.FindRoom | Controllers/PagosController.cs:28-32 | the room the `Include` loads: a stored room with the key, and nothing exactly when no room has that key |
| HotelStore.FindClient | Controllers/PagosController.cs:28-32 | the client the `Include` loads: a stored client with the key, and nothing exactly when no client has that key |
| HotelStore.CascadeRemovesDependents | Controllers/ReservasController.cs:190-191 | after the cascade of a reservation's delete, each other payment and service is kept as often as stored, and none of that reservation's is |
| HotelStore.AppendKeepsReferences | Controllers/ReservasController.cs:81-82 | a new reservation leaves every payment and service tied to a stored reservation |
| HotelStore.ReplaceKeepsReferences | Controllers/ReservasController.cs:139-140 | an edit that keeps the key leaves every payment and service tied to a stored reservation |
| HotelStore.CascadeKeepsReferences | Controllers/ReservasController.cs:190-191 | after the cascading delete, every remaining payment and service belongs to a remaining reservation |
| HotelStore.CascadeKeepsServiceKeys | Controllers/ReservasController.cs:190-191 | the services the cascade keeps still have unique non-zero keys below the counter |
| HotelStore.CascadeKeepsPaymentsValid | Controllers/ReservasController.cs:190-191 | the payments the cascade keeps still have unique keys, at most one per reservation, and positive amounts |
| HotelStore.DeleteCascadeKeepsInvariants | Controllers/ReservasController.cs:190-191 | removing a reservation together with its payments and services keeps the whole store invariant |
| HotelStore.InsertKeepsValid | Controllers/ReservasController.cs:81-82 | appending a validated, conflict-free row under a fresh key and moving the counter past it keeps the whole store invariant |
| Payments.ServicesOf | Controllers/PagosController.cs:38-40 | the reservation's services; `Models.WhereKeeps` gives its content, each of that reservation's services as often as stored and nothing else |
| Payments.PaymentsOf | Controllers/PagosController.cs:46-48 | the reservation's payments; `Models.WhereKeeps` gives its content, and `Payments.AppendPaymentRaisesPaid` how it moves |
| Payments.AfterSettlement | Controllers/PagosController.cs:233 | one service after settlement; `Payments.SettlementClearsPending` states what it leaves across the table |
| Payments.AfterRefund | Controllers/PagosController.cs:359 | one service after a refund; `Payments.ReopenUndoesSettle` relates it to settlement |
| Payments.SameChargesKeepKeys | Controllers/PagosController.cs:231-235 | a services table changed only in status keeps the key invariant |
| Payments.SameChargesKeepReferences | Controllers/PagosController.cs:231-235 | a services table changed only in status keeps every service tied to a stored reservation |
| Payments.SettlementKeepsReferences | Controllers/PagosController.cs:219-222 | a payment for a stored reservation keeps every payment tied to a stored reservation |
| Payments.RefundKeepsReferences | Controllers/PagosController.cs:363 | removing a payment keeps the remaining ones tied to stored reservations |
| Payments.SettlementKeepsInvariants | Controllers/PagosController.cs:215-240 | a settlement under the next key, for a stored reservation without a payment, with services changed only in status, keeps the whole store invariant |
| Payments.RefundKeepsInvariants | Controllers/PagosController.cs:353-364 | removing a payment, with services changed only in status, keeps the whole store invariant |
| Payments.RecordSettlement | Controllers/PagosController.cs:215-240 | the transaction appends the payment, marks exactly the reservation's pending services paid, advances the counter, and keeps the store invariant |
| Payments.RecordRefund | Controllers/PagosController.cs:353-364 | the delete removes the payment at the index, marks its reservation's paid services pending, and keeps the store invariant |
| Reports.Matches | Controllers/ReportesController.cs:128-143 | a payment passes every active filter; `Reports.ReportIsSoundAndComplete` states that the report holds exactly the matching payments |
| Reports.MethodFilterOn | Controllers/ReportesController.cs:140 | the method filter is active unless it is null or empty; `Reports.EmptyMethodIsNoFilter` shows the empty text filters nothing |
| Models.Where | Controllers/ReportesController.cs:130-143 | LINQ `Where`, order kept and never longer than its input; `Models.WhereKeeps` gives its content |
| Models.WhereKeeps | Controllers/ReportesController.cs:130-143 | `Where` keeps each element satisfying the predicate as often as it occurs, and nothing else |
| Models.WhereKeepsPairwise | Controllers/ReservasController.cs:190-191 | a relation that holds between every earlier and later element still holds after `Where`, so the cascade keeps keys unique |
| Models.WhereConcat | Controllers/ServiciosAdicionalesController.cs:64-65 | filtering two tables laid end to end gives the two filtered tables laid end to end |
| Models.FirstIndex | Controllers/PagosController.cs:342-344 | the position `FirstOrDefaultAsync` stops at: no earlier element matches, and the element there matches unless it is the end |
| Models.SumAmounts | Controllers/PagosController.cs:46-48 | `SumAsync(p => p.Monto)`; `Models.SumAmountsConcat` and `ReportView.SumIgnoresOrder` state its properties |
| Models.SumAmountsConcat | Controllers/PagosController.cs:46-48 | the sum of amounts over two lists laid end to end is the sum of the two sums |
| Models.SumPrices | Controllers/PagosController.cs:38-42 | `Sum(s => s.Precio)`; `Models.SumPricesConcat` and `Models.SumPricesLowerBound` state its properties |
| Models.SumPricesConcat | Controllers/PagosController.cs:38-42 | the sum of prices over two lists laid end to end is the sum of the two sums |
| Models.SumPricesLowerBound | Models/ServicioAdicional.cs:22 | every service costs at least 5000, so a list of services sums to at least 5000 per service |
| Models.StatusOf | Controllers/PagosController.cs:224-226 | a stored status text is pending iff it equals "Pendiente" ignoring letter case, paid iff it equals "Pagado" ignoring letter case, and otherwise keeps its text |

## Left out

- Views, ViewData/TempData messages, drop-down lists (`CargarListasDesplegablesAsync`, and the reservation list rebuilt at Controllers/PagosController.cs:267-278), logging, and JSON or redirect shapes. Outcomes are result datatypes.
- Data-annotation validation and model binding. Their ModelState entries are an input list. The stored ranges (capacity, room and service prices) are subset types.
- Fractional money. Room and service prices are `decimal(18,2)` columns (Models/Habitacion.cs:24, Models/ServicioAdicional.cs:23), but `Pago.Monto` is `decimal(18,0)` (Models/Pago.cs:25). The model uses whole COP throughout.
- Payments.Create: its "new balance = old − amount, and it is ≥ 0" holds in the source only when prices are whole COP. A fractional pending balance posted as the amount is rounded when `Monto` is stored, so the stored payment can differ from the amount that passed the guard.
- Currency formatting (`ToString("C0")`, `N0`) in the details JSON and the messages.
- Database failures. A failing `SaveChanges` or transaction is a `storeFailure` flag; it covers the handler at Controllers/ReservasController.cs:195-199, whose message speaks of payments or services although those rows cascade. The `DbUpdateConcurrencyException` on an existing row (Controllers/ReservasController.cs:151) is folded into the update error.
- Races between concurrent requests and transaction isolation. Each action is one atomic step.
- The unreachable lines after the inner handler of settlement (Controllers/PagosController.cs:256-258).
- Accent-insensitive and trailing-space collation rules. The two status filters are modelled as case-insensitive only (`Models.StatusOf`): an accented variant such as "Pendiénte" is kept as another status. The report's method filter compares strings exactly.
- PDF and Excel export, identity, start-up wiring, and the plain CRUD actions of clients, rooms and services other than the initial "Pendiente" status.
- `Include` joins. They only load navigation properties. The model looks references up by key instead, and the store invariant guarantees that a payment's or service's reservation is found.
- Reports.SortNewestFirst: does not fix the relative order of payments with equal timestamps, because `ORDER BY … DESC` leaves it to the database; the model picks one order and the lemmas state only the ordering and the permutation.
