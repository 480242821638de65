/*
 * PagosController: the balance of a reservation (GetReservaDetails, and the
 * same sums in both Create actions), the pre-check of the payment form
 * (Create GET), settlement (Create POST) and its inverse (DeleteConfirmed).
 */
module Payments {
  import opened Models
  import opened HotelStore

  /** `ServiciosAdicionales.Where(s => s.ReservaId == reservationId)`. */
  function ServicesOf(ss: seq<Service>, reservationId: int): seq<Service>
  {
    Where(ss, (s: Service) => s.reservationId == reservationId)
  }

  /** `Pagos.Where(p => p.ReservaId == reservationId)`. */
  function PaymentsOf(ps: seq<Payment>, reservationId: int): seq<Payment>
  {
    Where(ps, (p: Payment) => p.reservationId == reservationId)
  }

  /** totalReserva: the room's current price plus every service of the reservation. */
  function TotalDue(roomPrice: int, ss: seq<Service>, reservationId: int): int
  {
    roomPrice + SumPrices(ServicesOf(ss, reservationId))
  }

  /** pagosPrevios: what the reservation's payments add up to. */
  function PaidSoFar(ps: seq<Payment>, reservationId: int): int
  {
    SumAmounts(PaymentsOf(ps, reservationId))
  }

  /** montoPendiente: total due less what was already paid. */
  function PendingBalance(roomPrice: int, ss: seq<Service>, ps: seq<Payment>, reservationId: int): int
  {
    TotalDue(roomPrice, ss, reservationId) - PaidSoFar(ps, reservationId)
  }

  // ---------------------------------------------------------------- details

  /** The figures GetReservaDetails returns (the JSON less its formatting). */
  datatype Bill = Bill(clientName: string, roomKind: string, roomPrice: int,
                       services: seq<Service>, servicesTotal: int, total: int,
                       paid: int, pending: int)

  /**
   * GetReservaDetails: 404 without an id, or when the reservation, its
   * client or its room is missing.
   */
  function ReservationDetails(rs: seq<Reservation>, clients: seq<Client>, rooms: seq<Room>,
                              ss: seq<Service>, ps: seq<Payment>, id: Option<int>)
    : (bill: Option<Bill>)
    ensures bill.Some? <==>
      && id.Some? && FindReservation(rs, id.value).Some?
      && ClientExists(clients, FindReservation(rs, id.value).value.clientId)
      && RoomExists(rooms, FindReservation(rs, id.value).value.roomId)
    ensures bill.Some? ==>
      && bill.value.servicesTotal == SumPrices(bill.value.services)
      && bill.value.total == bill.value.roomPrice + bill.value.servicesTotal
      && bill.value.pending == bill.value.total - bill.value.paid
      && forall s :: s in bill.value.services <==> s in ss && s.reservationId == id.value
    ensures bill.Some? ==>
      && bill.value.roomPrice == FindRoom(rooms, FindReservation(rs, id.value).value.roomId).value.price
      && bill.value.services == ServicesOf(ss, id.value)
      && bill.value.total == TotalDue(bill.value.roomPrice, ss, id.value)
      && bill.value.paid == PaidSoFar(ps, id.value)
      && bill.value.pending == PendingBalance(bill.value.roomPrice, ss, ps, id.value)
  {
    if id.None? then None
    else
      match FindReservation(rs, id.value)
      case None => None
      case Some(r) =>
        match (FindClient(clients, r.clientId), FindRoom(rooms, r.roomId))
        case (Some(client), Some(room)) =>
          var services := ServicesOf(ss, id.value);
          WhereKeeps(ss, (s: Service) => s.reservationId == id.value);
          var servicesTotal := SumPrices(services);
          var total := room.price + servicesTotal;
          var paid := PaidSoFar(ps, id.value);
          Some(Bill(client.firstName + " " + client.lastName, room.kind, room.price,
                    services, servicesTotal, total, paid, total - paid))
        case _ => None
  }

  // ---------------------------------------------------------------- form

  /** Where Create (GET) sends the user. */
  datatype FormOutcome =
    | AlreadyPaid                                      // a payment exists
    | ReservationNotFound                              // 404
    | NoRoomAssigned                                   // the reservation has no room
    | FullyPaid                                        // nothing is pending
    | Form(draft: Payment, total: int, previous: int)  // the form, pre-filled
    | Choose(candidates: seq<Reservation>)             // no id: pick a reservation

  /** The method the form proposes. */
  const DefaultMethod := "Efectivo"

  /**
   * Create (GET): with an id, refuses a reservation that already has a
   * payment, is missing, has no room or owes nothing, and otherwise
   * proposes the pending balance; without one, lists the reservations that
   * have no payment and whose client and room exist.
   */
  function PaymentForm(rs: seq<Reservation>, clients: seq<Client>, rooms: seq<Room>,
                       ss: seq<Service>, ps: seq<Payment>, reservationId: Option<int>, now: DateTime)
    : (outcome: FormOutcome)
    ensures reservationId.None? ==>
      && outcome.Choose?
      && forall r :: r in outcome.candidates <==>
           r in rs && !HasPayment(ps, r.id) && ClientExists(clients, r.clientId) && RoomExists(rooms, r.roomId)
    ensures outcome == AlreadyPaid <==> reservationId.Some? && HasPayment(ps, reservationId.value)
    ensures outcome == ReservationNotFound <==>
      reservationId.Some? && !HasPayment(ps, reservationId.value)
      && FindReservation(rs, reservationId.value).None?
    ensures outcome == NoRoomAssigned <==>
      reservationId.Some? && !HasPayment(ps, reservationId.value)
      && FindReservation(rs, reservationId.value).Some?
      && !RoomExists(rooms, FindReservation(rs, reservationId.value).value.roomId)
    ensures outcome == FullyPaid <==>
      reservationId.Some? && !HasPayment(ps, reservationId.value)
      && BookedRoomPrice(rs, rooms, reservationId.value).Some?
      && PendingBalance(BookedRoomPrice(rs, rooms, reservationId.value).value, ss, ps, reservationId.value) <= 0
    ensures outcome.Form? <==>
      reservationId.Some? && !HasPayment(ps, reservationId.value)
      && BookedRoomPrice(rs, rooms, reservationId.value).Some?
      && PendingBalance(BookedRoomPrice(rs, rooms, reservationId.value).value, ss, ps, reservationId.value) > 0
    ensures outcome.Form? ==>
      && outcome.total == TotalDue(BookedRoomPrice(rs, rooms, reservationId.value).value, ss, reservationId.value)
      && outcome.previous == PaidSoFar(ps, reservationId.value)
      && outcome.draft.reservationId == reservationId.value
      && outcome.draft.amount > 0
      && outcome.draft.amount == outcome.total - outcome.previous
      && outcome.draft.paymentMethod == DefaultMethod && outcome.draft.paidAt == now
  {
    match reservationId
    case None =>
      var keep := (r: Reservation) =>
        !HasPayment(ps, r.id) && ClientExists(clients, r.clientId) && RoomExists(rooms, r.roomId);
      WhereKeeps(rs, keep);
      Choose(Where(rs, keep))
    case Some(id) =>
      if HasPayment(ps, id) then AlreadyPaid
      else
        match FindReservation(rs, id)
        case None => ReservationNotFound
        case Some(r) =>
          match FindRoom(rooms, r.roomId)
          case None => NoRoomAssigned
          case Some(room) =>
            var total := TotalDue(room.price, ss, id);
            var previous := PaidSoFar(ps, id);
            var pending := total - previous;
            if pending <= 0 then FullyPaid
            else Form(Payment(0, id, now, pending, DefaultMethod), total, previous)
  }

  // ---------------------------------------------------------------- settlement

  /** A ModelState entry of the payment form. */
  datatype PaymentError =
    | Binding(field: string)                   // raised by model binding
    | ReservationOrRoomMissing
    | DuplicatePayment
    | NonPositiveAmount
    | ExceedsPending(entered: int, pending: int)
    | ProcessingFailed                         // the transaction rolled back
    | RegistrationFailed                       // the outer handler's message

  /** Create (POST): the saved payment, or the form again with its ModelState. */
  datatype SettleOutcome = Settled(payment: Payment) | Rejected(errors: seq<PaymentError>)

  /** The price of the room booked by the reservation, when both exist. */
  function BookedRoomPrice(rs: seq<Reservation>, rooms: seq<Room>, reservationId: int): (price: Option<int>)
    ensures price.Some? <==>
      FindReservation(rs, reservationId).Some? && RoomExists(rooms, FindReservation(rs, reservationId).value.roomId)
    ensures price.Some? ==>
      price.value == FindRoom(rooms, FindReservation(rs, reservationId).value.roomId).value.price
    ensures price.Some? ==> 50_000 <= price.value
  {
    match FindReservation(rs, reservationId)
    case None => None
    case Some(r) =>
      match FindRoom(rooms, r.roomId)
      case None => None
      case Some(room) => Some(room.price)
  }

  /**
   * The guards of Create (POST), in the order it runs them; empty when the
   * settlement may proceed.
   */
  function SettlementErrors(modelState: seq<PaymentError>, rs: seq<Reservation>, rooms: seq<Room>,
                            ss: seq<Service>, ps: seq<Payment>, reservationId: int, amount: int)
    : seq<PaymentError>
  {
    if modelState != [] then modelState
    else
      match BookedRoomPrice(rs, rooms, reservationId)
      case None => [ReservationOrRoomMissing]
      case Some(price) =>
        if HasPayment(ps, reservationId) then [DuplicatePayment]
        else
          var pending := PendingBalance(price, ss, ps, reservationId);
          if amount <= 0 then [NonPositiveAmount]
          else if pending < amount then [ExceedsPending(amount, pending)]
          else []
  }

  /** A service of the reservation that was pending is paid; nothing else changes. */
  function AfterSettlement(s: Service, reservationId: int): Service
  {
    if s.reservationId == reservationId && s.status == Pending then s.(status := Paid) else s
  }

  /** A service of the reservation that was paid is pending again; nothing else changes. */
  function AfterRefund(s: Service, reservationId: int): Service
  {
    if s.reservationId == reservationId && s.status == Paid then s.(status := Pending) else s
  }

  /** The services table once a settlement of the reservation commits. */
  function SettleServices(ss: seq<Service>, reservationId: int): (r: seq<Service>)
    ensures |r| == |ss|
  {
    seq(|ss|, i requires 0 <= i < |ss| => AfterSettlement(ss[i], reservationId))
  }

  /** The services table once a payment of the reservation is deleted. */
  function ReopenServices(ss: seq<Service>, reservationId: int): (r: seq<Service>)
    ensures |r| == |ss|
  {
    seq(|ss|, i requires 0 <= i < |ss| => AfterRefund(ss[i], reservationId))
  }

  /** The `foreach` of Create (POST) over the reservation's pending services. */
  method MarkPendingAsPaid(ss: seq<Service>, reservationId: int) returns (updated: seq<Service>)
    ensures updated == SettleServices(ss, reservationId)
  {
    updated := ss;
    var i := 0;
    while i < |updated|
      invariant |updated| == |ss| && 0 <= i <= |ss|
      invariant forall j :: 0 <= j < i ==> updated[j] == AfterSettlement(ss[j], reservationId)
      invariant forall j :: i <= j < |ss| ==> updated[j] == ss[j]
    {
      if updated[i].reservationId == reservationId && updated[i].status == Pending {
        updated := updated[i := updated[i].(status := Paid)];
      }
      i := i + 1;
    }
  }

  /** The `foreach` of DeleteConfirmed over the reservation's paid services. */
  method MarkPaidAsPending(ss: seq<Service>, reservationId: int) returns (updated: seq<Service>)
    ensures updated == ReopenServices(ss, reservationId)
  {
    updated := ss;
    var i := 0;
    while i < |updated|
      invariant |updated| == |ss| && 0 <= i <= |ss|
      invariant forall j :: 0 <= j < i ==> updated[j] == AfterRefund(ss[j], reservationId)
      invariant forall j :: i <= j < |ss| ==> updated[j] == ss[j]
    {
      if updated[i].reservationId == reservationId && updated[i].status == Paid {
        updated := updated[i := updated[i].(status := Pending)];
      }
      i := i + 1;
    }
  }

  // ---------------------------------------------------------------- balance lemmas

  /** Two service tables whose rows agree on key, reservation and price. */
  ghost predicate SameCharges(a: seq<Service>, b: seq<Service>)
  {
    |a| == |b| &&
    forall i :: 0 <= i < |a| ==>
      a[i].id == b[i].id && a[i].reservationId == b[i].reservationId && a[i].price == b[i].price
  }

  /** A change of payment status never changes what any reservation owes for services. */
  lemma {:induction false} SameChargesSameTotal(a: seq<Service>, b: seq<Service>, reservationId: int)
    requires SameCharges(a, b)
    ensures SumPrices(ServicesOf(a, reservationId)) == SumPrices(ServicesOf(b, reservationId))
  {
    if a != [] {
      SameChargesSameTotal(a[1..], b[1..], reservationId);
    }
  }

  /** Settlement and refund change the status of services and nothing else about them. */
  lemma StatusChangesKeepCharges(ss: seq<Service>, reservationId: int)
    ensures SameCharges(ss, SettleServices(ss, reservationId))
    ensures SameCharges(ss, ReopenServices(ss, reservationId))
  {
  }

  /** Tables with the same keys in the same places satisfy the same key invariant. */
  lemma SameChargesKeepKeys(a: seq<Service>, b: seq<Service>, next: int)
    requires SameCharges(a, b) && ServiceKeys(a, next)
    ensures ServiceKeys(b, next)
  {
  }

  /**
   * After a settlement of `reservationId`, none of its services is still
   * pending, and the services of every other reservation are untouched.
   */
  lemma SettlementClearsPending(ss: seq<Service>, reservationId: int)
    ensures forall i :: 0 <= i < |ss| && ss[i].reservationId == reservationId ==>
      SettleServices(ss, reservationId)[i].status != Pending
    ensures forall i :: 0 <= i < |ss| && ss[i].reservationId != reservationId ==>
      SettleServices(ss, reservationId)[i] == ss[i]
    ensures forall i :: 0 <= i < |ss| ==>
      (SettleServices(ss, reservationId)[i].status == Paid <==>
        ss[i].status == Paid || (ss[i].status == Pending && ss[i].reservationId == reservationId))
  {
  }

  /**
   * Deleting a payment after its settlement gives back the services table
   * as it was, provided none of the reservation's services was already
   * paid before the settlement.
   */
  lemma ReopenUndoesSettle(ss: seq<Service>, reservationId: int)
    requires forall i :: 0 <= i < |ss| && ss[i].reservationId == reservationId ==> ss[i].status != Paid
    ensures ReopenServices(SettleServices(ss, reservationId), reservationId) == ss
  {
    var r := ReopenServices(SettleServices(ss, reservationId), reservationId);
    assert forall i :: 0 <= i < |ss| ==> r[i] == ss[i];
  }

  /** Recording one more payment raises what its reservation has paid by its amount. */
  lemma AppendPaymentRaisesPaid(ps: seq<Payment>, p: Payment, reservationId: int)
    ensures PaidSoFar(ps + [p], reservationId) ==
      PaidSoFar(ps, reservationId) + (if p.reservationId == reservationId then p.amount else 0)
  {
    var keep := (q: Payment) => q.reservationId == reservationId;
    WhereConcat(ps, [p], keep);
    assert Where([p], keep) == (if keep(p) then [p] else []) by {
      assert [p][1..] == [];
    }
    SumAmountsConcat(Where(ps, keep), Where([p], keep));
  }

  /** Removing a payment lowers what its reservation has paid by its amount. */
  lemma RemovePaymentLowersPaid(ps: seq<Payment>, k: nat, reservationId: int)
    requires k < |ps|
    ensures PaidSoFar(ps[..k] + ps[k + 1..], reservationId) ==
      PaidSoFar(ps, reservationId) - (if ps[k].reservationId == reservationId then ps[k].amount else 0)
  {
    var keep := (q: Payment) => q.reservationId == reservationId;
    assert ps == ps[..k] + [ps[k]] + ps[k + 1..];
    WhereConcat(ps[..k] + [ps[k]], ps[k + 1..], keep);
    WhereConcat(ps[..k], [ps[k]], keep);
    WhereConcat(ps[..k], ps[k + 1..], keep);
    assert Where([ps[k]], keep) == (if keep(ps[k]) then [ps[k]] else []) by {
      assert [ps[k]][1..] == [];
    }
    SumAmountsConcat(Where(ps[..k], keep) + Where([ps[k]], keep), Where(ps[k + 1..], keep));
    SumAmountsConcat(Where(ps[..k], keep), Where([ps[k]], keep));
    SumAmountsConcat(Where(ps[..k], keep), Where(ps[k + 1..], keep));
  }

  /** A reservation without payments has paid nothing. */
  lemma NoPaymentPaidNothing(ps: seq<Payment>, reservationId: int)
    requires !HasPayment(ps, reservationId)
    ensures PaidSoFar(ps, reservationId) == 0
  {
    var keep := (q: Payment) => q.reservationId == reservationId;
    WhereKeeps(ps, keep);
  }

  /** What a reservation owes is never below the room's price, hence always positive. */
  lemma TotalDueAtLeastRoomPrice(roomPrice: RoomPrice, ss: seq<Service>, reservationId: int)
    ensures TotalDue(roomPrice, ss, reservationId) >= roomPrice >= 50_000
  {
    SumPricesLowerBound(ServicesOf(ss, reservationId));
  }

  /**
   * Create (GET) for an existing reservation with a room and no payment
   * always shows the form, proposing the whole bill: the "already paid in
   * full" redirect can only follow the "already has a payment" one.
   */
  lemma FormProposesWholeBill(rs: seq<Reservation>, clients: seq<Client>, rooms: seq<Room>,
                              ss: seq<Service>, ps: seq<Payment>, id: int, now: DateTime)
    requires !HasPayment(ps, id)
    requires FindReservation(rs, id).Some? && RoomExists(rooms, FindReservation(rs, id).value.roomId)
    ensures var outcome := PaymentForm(rs, clients, rooms, ss, ps, Some(id), now);
      && outcome.Form?
      && outcome.previous == 0
      && outcome.draft.amount == outcome.total
      && outcome.total == TotalDue(FindRoom(rooms, FindReservation(rs, id).value.roomId).value.price, ss, id)
  {
    var room := FindRoom(rooms, FindReservation(rs, id).value.roomId).value;
    NoPaymentPaidNothing(ps, id);
    TotalDueAtLeastRoomPrice(room.price, ss, id);
  }

  /**
   * The "already paid in full" redirect never fires: it is only reached for
   * a reservation without payments, which has paid nothing and owes at
   * least its room price.
   */
  lemma FullyPaidNeverShown(rs: seq<Reservation>, clients: seq<Client>, rooms: seq<Room>,
                            ss: seq<Service>, ps: seq<Payment>, id: Option<int>, now: DateTime)
    ensures PaymentForm(rs, clients, rooms, ss, ps, id, now) != FullyPaid
  {
    if id.Some? && !HasPayment(ps, id.value) && FindReservation(rs, id.value).Some?
       && RoomExists(rooms, FindReservation(rs, id.value).value.roomId) {
      FormProposesWholeBill(rs, clients, rooms, ss, ps, id.value, now);
    }
  }

  /**
   * The form and the details endpoint show the same pending balance for a
   * reservation whose client and room exist.
   */
  lemma FormAgreesWithDetails(rs: seq<Reservation>, clients: seq<Client>, rooms: seq<Room>,
                              ss: seq<Service>, ps: seq<Payment>, id: int, now: DateTime)
    requires PaymentForm(rs, clients, rooms, ss, ps, Some(id), now).Form?
    requires ClientExists(clients, FindReservation(rs, id).value.clientId)
    ensures var bill := ReservationDetails(rs, clients, rooms, ss, ps, Some(id));
      var form := PaymentForm(rs, clients, rooms, ss, ps, Some(id), now);
      && bill.Some?
      && bill.value.pending == form.draft.amount
      && bill.value.total == form.total
      && bill.value.paid == form.previous
  {
  }

  /**
   * The guards of Create (POST) pass exactly when binding raised nothing,
   * the reservation and its room exist, it has no payment yet, and the
   * amount is positive and at most the pending balance.
   */
  lemma SettlementAllowedIff(modelState: seq<PaymentError>, rs: seq<Reservation>, rooms: seq<Room>,
                             ss: seq<Service>, ps: seq<Payment>, reservationId: int, amount: int)
    ensures SettlementErrors(modelState, rs, rooms, ss, ps, reservationId, amount) == [] <==>
      && modelState == []
      && FindReservation(rs, reservationId).Some?
      && RoomExists(rooms, FindReservation(rs, reservationId).value.roomId)
      && !HasPayment(ps, reservationId)
      && 0 < amount <= PendingBalance(BookedRoomPrice(rs, rooms, reservationId).value, ss, ps, reservationId)
  {
  }

  /** The amount the form proposes passes every guard of Create (POST). */
  lemma ProposedAmountAccepted(rs: seq<Reservation>, clients: seq<Client>, rooms: seq<Room>,
                               ss: seq<Service>, ps: seq<Payment>, id: int, now: DateTime)
    requires PaymentForm(rs, clients, rooms, ss, ps, Some(id), now).Form?
    ensures SettlementErrors([], rs, rooms, ss, ps, id,
                             PaymentForm(rs, clients, rooms, ss, ps, Some(id), now).draft.amount) == []
  {
  }

  /**
   * Recording a positive payment for a reservation that had none, under the
   * next key, keeps the payments table valid.
   */
  lemma SettlementKeepsPaymentsValid(ps: seq<Payment>, next: int, p: Payment)
    requires PaymentsValid(ps, next)
    requires p.id == next && p.amount > 0 && !HasPayment(ps, p.reservationId)
    ensures PaymentsValid(ps + [p], next + 1)
  {
  }

  /** Removing a payment keeps the payments table valid. */
  lemma RemovalKeepsPaymentsValid(ps: seq<Payment>, next: int, k: nat)
    requires PaymentsValid(ps, next) && k < |ps|
    ensures PaymentsValid(ps[..k] + ps[k + 1..], next)
    ensures !HasPayment(ps[..k] + ps[k + 1..], ps[k].reservationId)
    ensures forall q :: q in ps[..k] + ps[k + 1..] <==> q in ps && q.id != ps[k].id
  {
    var rest := ps[..k] + ps[k + 1..];
    assert forall i :: 0 <= i < |rest| ==> rest[i] == ps[if i < k then i else i + 1];
    forall q | q in ps && q.id != ps[k].id ensures q in rest {
      var i :| 0 <= i < |ps| && ps[i] == q;
      assert rest[if i < k then i else i - 1] == q;
    }
  }

  /** Status changes keep every service tied to a stored reservation. */
  lemma SameChargesKeepReferences(rs: seq<Reservation>, ss: seq<Service>, changed: seq<Service>, ps: seq<Payment>)
    requires ReferencesStored(rs, ss, ps) && SameCharges(ss, changed)
    ensures ReferencesStored(rs, changed, ps)
  {
    assert forall i :: 0 <= i < |changed| ==> changed[i].reservationId == ss[i].reservationId;
  }

  /** A settlement's payment belongs to a stored reservation, so the tables stay tied to reservations. */
  lemma SettlementKeepsReferences(rs: seq<Reservation>, ss: seq<Service>, ps: seq<Payment>, p: Payment)
    requires ReferencesStored(rs, ss, ps) && ReservationExists(rs, p.reservationId)
    ensures ReferencesStored(rs, ss, ps + [p])
  {
    assert forall i :: 0 <= i < |ps + [p]| ==> (ps + [p])[i] == if i < |ps| then ps[i] else p;
  }

  /** Removing a payment leaves the remaining ones tied to stored reservations. */
  lemma RefundKeepsReferences(rs: seq<Reservation>, ss: seq<Service>, ps: seq<Payment>, k: nat)
    requires ReferencesStored(rs, ss, ps) && k < |ps|
    ensures ReferencesStored(rs, ss, ps[..k] + ps[k + 1..])
  {
    var rest := ps[..k] + ps[k + 1..];
    assert forall i :: 0 <= i < |rest| ==> rest[i] == ps[if i < k then i else i + 1];
  }

  /**
   * Settlement keeps the store invariant: the new payment takes the next
   * key and belongs to a stored reservation, and the services only change
   * status.
   */
  lemma SettlementKeepsInvariants(rs: seq<Reservation>, nextReservation: int, clients: seq<Client>,
                                  rooms: seq<Room>, ss: seq<Service>, nextService: int, ps: seq<Payment>,
                                  nextPayment: int, p: Payment, settled: seq<Service>)
    requires StoreValid(rs, nextReservation, clients, rooms, ss, nextService, ps, nextPayment)
    requires p.id == nextPayment && p.amount > 0 && !HasPayment(ps, p.reservationId)
    requires ReservationExists(rs, p.reservationId) && SameCharges(ss, settled)
    ensures StoreValid(rs, nextReservation, clients, rooms, settled, nextService, ps + [p], nextPayment + 1)
  {
    SettlementKeepsPaymentsValid(ps, nextPayment, p);
    SameChargesKeepKeys(ss, settled, nextService);
    SameChargesKeepReferences(rs, ss, settled, ps);
    SettlementKeepsReferences(rs, settled, ps, p);
  }

  /** A refund keeps the store invariant: a payment leaves and the services only change status. */
  lemma RefundKeepsInvariants(rs: seq<Reservation>, nextReservation: int, clients: seq<Client>,
                              rooms: seq<Room>, ss: seq<Service>, nextService: int, ps: seq<Payment>,
                              nextPayment: int, k: nat, reopened: seq<Service>)
    requires StoreValid(rs, nextReservation, clients, rooms, ss, nextService, ps, nextPayment)
    requires k < |ps| && SameCharges(ss, reopened)
    ensures StoreValid(rs, nextReservation, clients, rooms, reopened, nextService, ps[..k] + ps[k + 1..], nextPayment)
  {
    RemovalKeepsPaymentsValid(ps, nextPayment, k);
    SameChargesKeepKeys(ss, reopened, nextService);
    SameChargesKeepReferences(rs, ss, reopened, ps);
    RefundKeepsReferences(rs, reopened, ps, k);
  }

  /** Settlement, stated on the store after the write. */
  lemma SettlementKeepsValid(db: HotelDb, rs: seq<Reservation>, nextReservation: int, clients: seq<Client>,
                             rooms: seq<Room>, ss: seq<Service>, nextService: int, ps: seq<Payment>,
                             nextPayment: int, p: Payment, settled: seq<Service>)
    requires StoreValid(rs, nextReservation, clients, rooms, ss, nextService, ps, nextPayment)
    requires p.id == nextPayment && p.amount > 0 && !HasPayment(ps, p.reservationId)
    requires ReservationExists(rs, p.reservationId) && SameCharges(ss, settled)
    requires db.reservations == rs && db.clients == clients && db.rooms == rooms
    requires db.nextReservationId == nextReservation && db.nextServiceId == nextService
    requires db.services == settled && db.payments == ps + [p] && db.nextPaymentId == nextPayment + 1
    ensures db.Valid()
  {
    SettlementKeepsInvariants(rs, nextReservation, clients, rooms, ss, nextService, ps, nextPayment, p, settled);
  }

  /** A refund, stated on the store after the write. */
  lemma RefundKeepsValid(db: HotelDb, rs: seq<Reservation>, nextReservation: int, clients: seq<Client>,
                         rooms: seq<Room>, ss: seq<Service>, nextService: int, ps: seq<Payment>,
                         nextPayment: int, k: nat, reopened: seq<Service>)
    requires StoreValid(rs, nextReservation, clients, rooms, ss, nextService, ps, nextPayment)
    requires k < |ps| && SameCharges(ss, reopened)
    requires db.reservations == rs && db.clients == clients && db.rooms == rooms
    requires db.nextReservationId == nextReservation && db.nextServiceId == nextService
    requires db.services == reopened && db.payments == ps[..k] + ps[k + 1..] && db.nextPaymentId == nextPayment
    ensures db.Valid()
  {
    RefundKeepsInvariants(rs, nextReservation, clients, rooms, ss, nextService, ps, nextPayment, k, reopened);
  }

  /**
   * Settlement of `p.reservationId` raises what that reservation has paid
   * by the amount, leaves every other reservation's payments alone, and
   * changes no reservation's service charges.
   */
  lemma SettlementMoves(ps: seq<Payment>, ss: seq<Service>, p: Payment)
    ensures forall x ::
      PaidSoFar(ps + [p], x) ==
        PaidSoFar(ps, x) + (if x == p.reservationId then p.amount else 0)
    ensures forall x ::
      SumPrices(ServicesOf(SettleServices(ss, p.reservationId), x)) ==
        SumPrices(ServicesOf(ss, x))
  {
    StatusChangesKeepCharges(ss, p.reservationId);
    forall x
      ensures PaidSoFar(ps + [p], x) == PaidSoFar(ps, x) + (if x == p.reservationId then p.amount else 0)
      ensures SumPrices(ServicesOf(SettleServices(ss, p.reservationId), x)) == SumPrices(ServicesOf(ss, x))
    {
      AppendPaymentRaisesPaid(ps, p, x);
      SameChargesSameTotal(ss, SettleServices(ss, p.reservationId), x);
    }
  }

  /**
   * Deleting payment `k` lowers what its reservation has paid by its
   * amount, leaves every other reservation's payments alone, and changes
   * no reservation's service charges.
   */
  lemma RefundMoves(ps: seq<Payment>, ss: seq<Service>, k: nat)
    requires k < |ps|
    ensures forall x ::
      PaidSoFar(ps[..k] + ps[k + 1..], x) ==
        PaidSoFar(ps, x) - (if x == ps[k].reservationId then ps[k].amount else 0)
    ensures forall x ::
      SumPrices(ServicesOf(ReopenServices(ss, ps[k].reservationId), x)) ==
        SumPrices(ServicesOf(ss, x))
  {
    StatusChangesKeepCharges(ss, ps[k].reservationId);
    forall x
      ensures PaidSoFar(ps[..k] + ps[k + 1..], x) ==
        PaidSoFar(ps, x) - (if x == ps[k].reservationId then ps[k].amount else 0)
      ensures SumPrices(ServicesOf(ReopenServices(ss, ps[k].reservationId), x)) == SumPrices(ServicesOf(ss, x))
    {
      RemovePaymentLowersPaid(ps, k, x);
      SameChargesSameTotal(ss, ReopenServices(ss, ps[k].reservationId), x);
    }
  }

  // ---------------------------------------------------------------- actions

  /** DeleteConfirmed's redirect (or JSON flag) and the message it carries. */
  datatype RefundOutcome = Refunded | PaymentNotFound | RefundFailed

  /**
   * The guard section of Create (POST): each check returns the form with
   * its message, in the order the action runs them, reading the pending
   * balance from the tables as they stand before the transaction.
   */
  method SettlementGuards(db: HotelDb, modelState: seq<PaymentError>, reservationId: int, amount: int)
    returns (errors: seq<PaymentError>)
    ensures errors == SettlementErrors(modelState, db.reservations, db.rooms, db.services, db.payments,
                                       reservationId, amount)
  {
    if modelState != [] {
      return modelState;
    }
    var price := BookedRoomPrice(db.reservations, db.rooms, reservationId);
    if price.None? {
      return [ReservationOrRoomMissing];
    }
    if HasPayment(db.payments, reservationId) {
      return [DuplicatePayment];
    }
    var pending := PendingBalance(price.value, db.services, db.payments, reservationId);
    if amount <= 0 {
      return [NonPositiveAmount];
    }
    if amount > pending {
      return [ExceedsPending(amount, pending)];
    }
    return [];
  }

  /**
   * The transaction of Create (POST): the payment is inserted under the
   * next key and every pending service of its reservation becomes paid.
   */
  method RecordSettlement(db: HotelDb, payment: Payment)
    requires db.Valid()
    requires payment.id == db.nextPaymentId && payment.amount > 0 && !HasPayment(db.payments, payment.reservationId)
    requires ReservationExists(db.reservations, payment.reservationId)
    modifies db`payments, db`services, db`nextPaymentId
    ensures db.Valid()
    ensures db.payments == old(db.payments) + [payment]
    ensures db.services == SettleServices(old(db.services), payment.reservationId)
    ensures db.nextPaymentId == old(db.nextPaymentId) + 1
  {
    ghost var rs, clients, rooms, ss, ps := db.reservations, db.clients, db.rooms, db.services, db.payments;
    ghost var nextReservation, nextService, nextPayment := db.nextReservationId, db.nextServiceId, db.nextPaymentId;
    var services := MarkPendingAsPaid(db.services, payment.reservationId);
    StatusChangesKeepCharges(ss, payment.reservationId);
    db.payments, db.services, db.nextPaymentId := db.payments + [payment], services, db.nextPaymentId + 1;
    SettlementKeepsValid(db, rs, nextReservation, clients, rooms, ss, nextService, ps, nextPayment, payment, services);
  }

  /**
   * The transaction of DeleteConfirmed: the payment at index `k` goes and
   * every paid service of its reservation is pending again.
   */
  method RecordRefund(db: HotelDb, k: nat)
    requires db.Valid() && k < |db.payments|
    modifies db`payments, db`services
    ensures db.Valid()
    ensures db.payments == old(db.payments[..k] + db.payments[k + 1..])
    ensures db.services == ReopenServices(old(db.services), old(db.payments[k].reservationId))
  {
    ghost var rs, clients, rooms, ss, ps := db.reservations, db.clients, db.rooms, db.services, db.payments;
    ghost var nextReservation, nextService, nextPayment := db.nextReservationId, db.nextServiceId, db.nextPaymentId;
    var services := MarkPaidAsPending(db.services, db.payments[k].reservationId);
    StatusChangesKeepCharges(ss, ps[k].reservationId);
    db.payments, db.services := db.payments[..k] + db.payments[k + 1..], services;
    RefundKeepsValid(db, rs, nextReservation, clients, rooms, ss, nextService, ps, nextPayment, k, services);
  }

  /**
   * Create (POST). The guards run in order (binding errors, reservation and
   * room, duplicate payment, amount); the pending balance is read before
   * the transaction opens. Inside it the payment is inserted under the next
   * key and every pending service of the reservation becomes paid; when
   * the store fails both writes roll back and the form comes back with the
   * two messages of the inner and the outer handler.
   */
  method Create(db: HotelDb, modelState: seq<PaymentError>, reservationId: int, amount: int,
                paymentMethod: string, now: DateTime, storeFailure: bool)
    returns (outcome: SettleOutcome)
    requires db.Valid()
    modifies db`payments, db`services, db`nextPaymentId
    ensures db.Valid()
    ensures var errors := SettlementErrors(modelState, old(db.reservations), old(db.rooms),
                                           old(db.services), old(db.payments), reservationId, amount);
      && (errors != [] ==> outcome == Rejected(errors))
      && (errors == [] && storeFailure ==> outcome == Rejected([ProcessingFailed, RegistrationFailed]))
      && (errors == [] && !storeFailure ==>
            outcome == Settled(Payment(old(db.nextPaymentId), reservationId, now, amount, paymentMethod)))
    ensures outcome.Settled? ==>
      && db.payments == old(db.payments) + [outcome.payment]
      && db.services == SettleServices(old(db.services), reservationId)
      && db.nextPaymentId == old(db.nextPaymentId) + 1
    ensures outcome.Settled? ==>
      var price := BookedRoomPrice(db.reservations, db.rooms, reservationId).value;
      0 <= PendingBalance(price, db.services, db.payments, reservationId)
        == old(PendingBalance(price, db.services, db.payments, reservationId)) - amount
    ensures outcome.Settled? ==> forall x :: x != reservationId ==>
      && PaidSoFar(db.payments, x) == old(PaidSoFar(db.payments, x))
      && SumPrices(ServicesOf(db.services, x)) == old(SumPrices(ServicesOf(db.services, x)))
    ensures outcome.Rejected? ==>
      db.payments == old(db.payments) && db.services == old(db.services)
      && db.nextPaymentId == old(db.nextPaymentId)
  {
    var errors := SettlementGuards(db, modelState, reservationId, amount);
    if errors != [] {
      return Rejected(errors);
    }
    if storeFailure {
      return Rejected([ProcessingFailed, RegistrationFailed]);
    }
    SettlementAllowedIff(modelState, db.reservations, db.rooms, db.services, db.payments, reservationId, amount);
    var payment := Payment(db.nextPaymentId, reservationId, now, amount, paymentMethod);
    assert ReservationExists(db.reservations, reservationId) by {
      assert FindReservation(db.reservations, reservationId).value in db.reservations;
    }
    SettlementMoves(db.payments, db.services, payment);
    RecordSettlement(db, payment);
    outcome := Settled(payment);
  }

  /**
   * DeleteConfirmed: a payment that does not exist changes nothing;
   * otherwise every paid service of its reservation becomes pending again
   * and the payment row is removed, both in one transaction that a store
   * failure rolls back whole.
   */
  method DeleteConfirmed(db: HotelDb, id: int, storeFailure: bool) returns (outcome: RefundOutcome)
    requires db.Valid()
    modifies db`payments, db`services
    ensures db.Valid()
    ensures FindPayment(old(db.payments), id).None? ==> outcome == PaymentNotFound
    ensures FindPayment(old(db.payments), id).Some? ==> outcome == (if storeFailure then RefundFailed else Refunded)
    ensures outcome == Refunded ==>
      var p := FindPayment(old(db.payments), id).value;
      && db.services == ReopenServices(old(db.services), p.reservationId)
      && |db.payments| == |old(db.payments)| - 1
      && (forall q :: q in db.payments <==> q in old(db.payments) && q.id != id)
      && !HasPayment(db.payments, p.reservationId)
      && PaidSoFar(db.payments, p.reservationId) == 0
    ensures outcome == Refunded ==> forall x ::
      && PaidSoFar(db.payments, x) == old(PaidSoFar(db.payments, x))
           - (if x == FindPayment(old(db.payments), id).value.reservationId
              then FindPayment(old(db.payments), id).value.amount else 0)
      && SumPrices(ServicesOf(db.services, x)) == old(SumPrices(ServicesOf(db.services, x)))
    ensures outcome != Refunded ==> db.payments == old(db.payments) && db.services == old(db.services)
  {
    var k := FirstIndex(db.payments, (p: Payment) => p.id == id);
    if k == |db.payments| {
      return PaymentNotFound;
    }
    var payment := db.payments[k];
    if storeFailure {
      return RefundFailed;
    }
    RefundMoves(db.payments, db.services, k);
    RemovalKeepsPaymentsValid(db.payments, db.nextPaymentId, k);
    NoPaymentPaidNothing(db.payments[..k] + db.payments[k + 1..], payment.reservationId);
    RecordRefund(db, k);
    outcome := Refunded;
  }
}
