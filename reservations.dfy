/*
 * ReservasController: the reservation validator (ValidarReservaAsync) and
 * the Create, Edit and DeleteConfirmed actions that change the Reservas
 * table. ModelState is an explicit list of errors: the ones model binding
 * raised before the action ran come in as `modelState`, and the validator
 * appends to it.
 */
module Reservations {
  import opened Models
  import opened Availability
  import opened HotelStore

  /** A ModelState entry of the reservation forms. */
  datatype ReservationError =
    | Binding(field: string)      // raised by model binding, before the action
    | CheckInInPast
    | CheckOutNotAfterCheckIn
    | ClientNotFound
    | RoomNotFound
    | RoomUnavailable
    | SaveFailed                  // Create: the insert threw DbUpdateException
    | UpdateFailed                // Edit: the update threw DbUpdateException
  {
    /** Position of a validator rule in the order the validator runs them. */
    function Rank(): nat
    {
      match this
      case CheckInInPast => 1
      case CheckOutNotAfterCheckIn => 2
      case ClientNotFound => 3
      case RoomNotFound => 4
      case RoomUnavailable => 5
      case _ => 0
    }
  }

  /** What an action returns: a redirect after saving, the form again, or 404. */
  datatype Outcome = Saved(id: int) | Invalid(errors: seq<ReservationError>) | NotFound

  /** DeleteConfirmed's redirect and the TempData message it carries. */
  datatype DeleteOutcome = Deleted | DeleteNotFound | DeleteFailed

  /** Stage 1: the date rules. A past check-in is refused for new bookings only. */
  function DateErrors(c: Reservation, today: int): (errors: seq<ReservationError>)
    ensures CheckInInPast in errors <==> c.checkIn.day < today && c.id == 0
    ensures CheckOutNotAfterCheckIn in errors <==> c.checkOut.day <= c.checkIn.day
    ensures forall e :: e in errors ==> e == CheckInInPast || e == CheckOutNotAfterCheckIn
  {
    (if c.checkIn.day < today && c.id == 0 then [CheckInInPast] else [])
    + (if c.checkOut.day <= c.checkIn.day then [CheckOutNotAfterCheckIn] else [])
  }

  /** Stage 2: each missing reference is its own error. */
  function ReferenceErrors(c: Reservation, clients: seq<Client>, rooms: seq<Room>): (errors: seq<ReservationError>)
    ensures ClientNotFound in errors <==> !ClientExists(clients, c.clientId)
    ensures RoomNotFound in errors <==> !RoomExists(rooms, c.roomId)
    ensures forall e :: e in errors ==> e == ClientNotFound || e == RoomNotFound
  {
    (if !ClientExists(clients, c.clientId) then [ClientNotFound] else [])
    + (if !RoomExists(rooms, c.roomId) then [RoomNotFound] else [])
  }

  /**
   * The ModelState the validator leaves: stage 2 runs only on an empty
   * ModelState, and stage 3 (availability) only if it is still empty.
   */
  function ValidationErrors(modelState: seq<ReservationError>, c: Reservation, today: int,
                            clients: seq<Client>, rooms: seq<Room>, rs: seq<Reservation>)
    : (errors: seq<ReservationError>)
    ensures |modelState| <= |errors| && errors[..|modelState|] == modelState
  {
    var dated := modelState + DateErrors(c, today);
    var referenced := if dated == [] then ReferenceErrors(c, clients, rooms) else dated;
    if referenced == [] && HasConflict(rs, c) then [RoomUnavailable] else referenced
  }

  /** ValidarReservaAsync: appends to ModelState and reports whether it is still valid. */
  method Validate(db: HotelDb, modelState: seq<ReservationError>, c: Reservation, today: int)
    returns (errors: seq<ReservationError>, valid: bool)
    ensures errors == ValidationErrors(modelState, c, today, db.clients, db.rooms, db.reservations)
    ensures valid <==> errors == []
  {
    errors := modelState;
    if c.checkIn.day < today && c.id == 0 {
      errors := errors + [CheckInInPast];
    }
    if c.checkOut.day <= c.checkIn.day {
      errors := errors + [CheckOutNotAfterCheckIn];
    }
    if errors == [] {
      if !ClientExists(db.clients, c.clientId) {
        errors := errors + [ClientNotFound];
      }
      if !RoomExists(db.rooms, c.roomId) {
        errors := errors + [RoomNotFound];
      }
    }
    if errors == [] {
      if HasConflict(db.reservations, c) {
        errors := errors + [RoomUnavailable];
      }
    }
    valid := errors == [];
  }

  /** The booking rules, stated independently of the order they are checked in. */
  ghost predicate Admissible(c: Reservation, today: int, clients: seq<Client>,
                             rooms: seq<Room>, rs: seq<Reservation>)
  {
    && (c.id == 0 ==> today <= c.checkIn.day)
    && DatesOrdered(c)
    && ClientExists(clients, c.clientId)
    && RoomExists(rooms, c.roomId)
    && !HasConflict(rs, c)
  }

  /** Every entry binding put in ModelState is a binding error. */
  ghost predicate BindingOnly(modelState: seq<ReservationError>)
  {
    forall i :: 0 <= i < |modelState| ==> modelState[i].Binding?
  }

  /** Rule errors appear in the order the validator checks the rules. */
  ghost predicate InRuleOrder(errors: seq<ReservationError>)
  {
    forall i, j :: 0 <= i < j < |errors| ==> 0 < errors[i].Rank() < errors[j].Rank()
  }

  /** The validator accepts exactly the admissible candidates on a clean ModelState. */
  lemma AcceptedIffAdmissible(modelState: seq<ReservationError>, c: Reservation, today: int,
                              clients: seq<Client>, rooms: seq<Room>, rs: seq<Reservation>)
    ensures ValidationErrors(modelState, c, today, clients, rooms, rs) == []
        <==> modelState == [] && Admissible(c, today, clients, rooms, rs)
  {
    if modelState == [] && Admissible(c, today, clients, rooms, rs) {
      assert DateErrors(c, today) == [];
      assert ReferenceErrors(c, clients, rooms) == [];
    }
  }

  /** A past check-in is an error exactly for a new booking (key 0). */
  lemma PastCheckInRule(modelState: seq<ReservationError>, c: Reservation, today: int,
                        clients: seq<Client>, rooms: seq<Room>, rs: seq<Reservation>)
    requires BindingOnly(modelState)
    ensures CheckInInPast in ValidationErrors(modelState, c, today, clients, rooms, rs)
        <==> c.id == 0 && c.checkIn.day < today
  {
    var dated := modelState + DateErrors(c, today);
    assert CheckInInPast in dated <==> c.id == 0 && c.checkIn.day < today;
    assert CheckInInPast !in ReferenceErrors(c, clients, rooms);
  }

  /** A check-out on or before the check-in day is always an error, new or edited. */
  lemma CheckOutRule(modelState: seq<ReservationError>, c: Reservation, today: int,
                     clients: seq<Client>, rooms: seq<Room>, rs: seq<Reservation>)
    requires BindingOnly(modelState)
    ensures CheckOutNotAfterCheckIn in ValidationErrors(modelState, c, today, clients, rooms, rs)
        <==> c.checkOut.day <= c.checkIn.day
  {
    var dated := modelState + DateErrors(c, today);
    assert CheckOutNotAfterCheckIn in dated <==> c.checkOut.day <= c.checkIn.day;
    assert CheckOutNotAfterCheckIn !in ReferenceErrors(c, clients, rooms);
  }

  /**
   * Existence is checked only on a clean ModelState with valid dates; a
   * missing client and a missing room are reported separately.
   */
  lemma ReferenceRules(modelState: seq<ReservationError>, c: Reservation, today: int,
                       clients: seq<Client>, rooms: seq<Room>, rs: seq<Reservation>)
    requires BindingOnly(modelState)
    ensures var errors := ValidationErrors(modelState, c, today, clients, rooms, rs);
      && ((ClientNotFound in errors) <==>
            modelState == [] && DateErrors(c, today) == [] && !ClientExists(clients, c.clientId))
      && ((RoomNotFound in errors) <==>
            modelState == [] && DateErrors(c, today) == [] && !RoomExists(rooms, c.roomId))
  {
    var dated := modelState + DateErrors(c, today);
    assert ClientNotFound !in dated && RoomNotFound !in dated;
  }

  /**
   * The availability error is reported only when every earlier check
   * passed, and then it is the only entry in ModelState.
   */
  lemma UnavailableStandsAlone(modelState: seq<ReservationError>, c: Reservation, today: int,
                               clients: seq<Client>, rooms: seq<Room>, rs: seq<Reservation>)
    requires BindingOnly(modelState)
    ensures var errors := ValidationErrors(modelState, c, today, clients, rooms, rs);
      && ((RoomUnavailable in errors) <==>
            modelState == [] && DateErrors(c, today) == []
            && ReferenceErrors(c, clients, rooms) == [] && HasConflict(rs, c))
      && (RoomUnavailable in errors ==> errors == [RoomUnavailable])
  {
    var dated := modelState + DateErrors(c, today);
    assert RoomUnavailable !in dated;
    assert RoomUnavailable !in ReferenceErrors(c, clients, rooms);
  }

  /** After the binding errors, the validator's own errors follow the fixed rule order. */
  lemma ErrorsInRuleOrder(modelState: seq<ReservationError>, c: Reservation, today: int,
                          clients: seq<Client>, rooms: seq<Room>, rs: seq<Reservation>)
    ensures var errors := ValidationErrors(modelState, c, today, clients, rooms, rs);
      InRuleOrder(errors[|modelState|..])
  {
    var dated := modelState + DateErrors(c, today);
    if dated == [] {
      ReferenceErrorsInRuleOrder(c, clients, rooms);
    } else {
      assert dated[|modelState|..] == DateErrors(c, today);
      DateErrorsInRuleOrder(c, today);
    }
  }

  /** The two reference rules are reported in their own order. */
  lemma ReferenceErrorsInRuleOrder(c: Reservation, clients: seq<Client>, rooms: seq<Room>)
    ensures InRuleOrder(ReferenceErrors(c, clients, rooms))
  {
    var client := if !ClientExists(clients, c.clientId) then [ClientNotFound] else [];
    var room := if !RoomExists(rooms, c.roomId) then [RoomNotFound] else [];
    assert ReferenceErrors(c, clients, rooms) == client + room;
  }

  /** The two date rules are reported in their own order. */
  lemma DateErrorsInRuleOrder(c: Reservation, today: int)
    ensures InRuleOrder(DateErrors(c, today))
  {
    var past := if c.checkIn.day < today && c.id == 0 then [CheckInInPast] else [];
    var order := if c.checkOut.day <= c.checkIn.day then [CheckOutNotAfterCheckIn] else [];
    assert DateErrors(c, today) == past + order;
  }

  /**
   * Edit excludes the reservation's own key from the scan, so re-saving a
   * stored reservation with its dates unchanged raises no availability error.
   */
  lemma ResaveRaisesNoConflict(db: HotelDb, modelState: seq<ReservationError>, k: nat, today: int)
    requires db.Valid() && k < |db.reservations| && BindingOnly(modelState)
    ensures RoomUnavailable !in ValidationErrors(modelState, db.reservations[k], today,
                                                 db.clients, db.rooms, db.reservations)
  {
    var c := db.reservations[k];
    StoredStayHasNoConflict(db.reservations, k);
    var dated := modelState + DateErrors(c, today);
    assert RoomUnavailable !in DateErrors(c, today);
    assert RoomUnavailable !in dated;
    assert RoomUnavailable !in ReferenceErrors(c, db.clients, db.rooms);
  }

  /**
   * The insert of an admitted candidate: key 0 takes the next AUTO_INCREMENT
   * value, an explicit key is stored as given and advances the counter past it.
   */
  method InsertReservation(db: HotelDb, c: Reservation) returns (id: int)
    requires db.Valid()
    requires DatesOrdered(c) && ClientExists(db.clients, c.clientId) && RoomExists(db.rooms, c.roomId)
    requires !HasConflict(db.reservations, c)
    requires FindReservation(db.reservations, c.id).None?
    modifies db`reservations, db`nextReservationId
    ensures db.Valid()
    ensures id == if c.id == 0 then old(db.nextReservationId) else c.id
    ensures db.reservations == old(db.reservations) + [c.(id := id)]
  {
    var rs := db.reservations;
    ghost var clients, rooms, ss, ps := db.clients, db.rooms, db.services, db.payments;
    ghost var next, nextService, nextPayment := db.nextReservationId, db.nextServiceId, db.nextPaymentId;
    id := if c.id == 0 then db.nextReservationId else c.id;
    assert forall i :: 0 <= i < |rs| ==> rs[i].id != c.id && rs[i].id != id;
    db.reservations := rs + [c.(id := id)];
    if db.nextReservationId <= id {
      db.nextReservationId := id + 1;
    }
    InsertKeepsValid(db, rs, next, clients, rooms, ss, nextService, ps, nextPayment, c, id);
  }

  /**
   * Create (POST): refuses a ModelState binding already marked invalid, then
   * validates, then inserts. A key already in use makes the insert fail.
   */
  method Create(db: HotelDb, modelState: seq<ReservationError>, c: Reservation, today: int,
                storeFailure: bool)
    returns (outcome: Outcome)
    requires db.Valid()
    modifies db`reservations, db`nextReservationId
    ensures db.Valid()
    ensures modelState != [] ==> outcome == Invalid(modelState)
    ensures modelState == [] ==>
      var errors := ValidationErrors([], c, today, db.clients, db.rooms, old(db.reservations));
      if errors != [] then outcome == Invalid(errors)
      else if storeFailure || FindReservation(old(db.reservations), c.id).Some? then
        outcome == Invalid([SaveFailed])
      else
        outcome == Saved(if c.id == 0 then old(db.nextReservationId) else c.id)
    ensures outcome.Saved? ==> db.reservations == old(db.reservations) + [c.(id := outcome.id)]
    ensures !outcome.Saved? ==> db.reservations == old(db.reservations)
  {
    if modelState != [] {
      return Invalid(modelState);
    }
    var errors, valid := Validate(db, [], c, today);
    if !valid {
      return Invalid(errors);
    }
    if storeFailure || FindReservation(db.reservations, c.id).Some? {
      return Invalid([SaveFailed]);
    }
    AcceptedIffAdmissible([], c, today, db.clients, db.rooms, db.reservations);
    var id := InsertReservation(db, c);
    outcome := Saved(id);
  }

  /** Overwrites the stored row at index `k` with `c`, which keeps that row's key and passed validation. */
  method ReplaceAt(db: HotelDb, k: nat, c: Reservation)
    requires db.Valid() && k < |db.reservations| && db.reservations[k].id == c.id
    requires Admitted(c, db.clients, db.rooms) && !HasConflict(db.reservations, c)
    modifies db`reservations
    ensures db.Valid()
    ensures db.reservations == old(db.reservations)[k := c]
  {
    var rs := db.reservations;
    ReplaceKeepsNoDoubleBooking(rs, k, c);
    ReplaceKeepsReferences(rs, k, c, db.services, db.payments);
    db.reservations := rs[k := c];
  }

  /**
   * Edit (POST): a route key that differs from the posted key is 404. The
   * validator runs on the ModelState binding left. An update of key 0 is an
   * insert (the context tracks an entity whose generated key is unset as
   * added); an update of a key no row has is 404.
   */
  method Edit(db: HotelDb, routeId: int, modelState: seq<ReservationError>, c: Reservation,
              today: int, storeFailure: bool)
    returns (outcome: Outcome)
    requires db.Valid()
    modifies db`reservations, db`nextReservationId
    ensures db.Valid()
    ensures routeId != c.id ==> outcome == NotFound
    ensures routeId == c.id ==>
      var errors := ValidationErrors(modelState, c, today, db.clients, db.rooms, old(db.reservations));
      if errors != [] then outcome == Invalid(errors)
      else if c.id != 0 && FindReservation(old(db.reservations), c.id).None? then outcome == NotFound
      else if storeFailure then outcome == Invalid([UpdateFailed])
      else outcome == Saved(if c.id == 0 then old(db.nextReservationId) else c.id)
    ensures outcome.Saved? && c.id == 0 ==>
      db.reservations == old(db.reservations) + [c.(id := outcome.id)]
    ensures outcome.Saved? && c.id != 0 ==>
      && |db.reservations| == |old(db.reservations)|
      && forall i :: 0 <= i < |db.reservations| ==>
           db.reservations[i] == if old(db.reservations)[i].id == c.id then c else old(db.reservations)[i]
    ensures !outcome.Saved? ==> db.reservations == old(db.reservations)
  {
    if routeId != c.id {
      return NotFound;
    }
    var errors, valid := Validate(db, modelState, c, today);
    if !valid {
      return Invalid(errors);
    }
    AcceptedIffAdmissible(modelState, c, today, db.clients, db.rooms, db.reservations);
    if c.id == 0 {
      if storeFailure {
        return Invalid([UpdateFailed]);
      }
      assert FindReservation(db.reservations, 0).None?;
      var id := InsertReservation(db, c);
      return Saved(id);
    }
    var rs := db.reservations;
    var k := FirstIndex(rs, (r: Reservation) => r.id == c.id);
    if k == |rs| {
      return NotFound;
    }
    if storeFailure {
      return Invalid([UpdateFailed]);
    }
    ReplaceAt(db, k, c);
    outcome := Saved(c.id);
  }

  /** Removes the reservation at index `k`, and with it every payment and service that refers to it. */
  method RemoveWithDependents(db: HotelDb, k: nat)
    requires db.Valid() && k < |db.reservations|
    modifies db`reservations, db`payments, db`services
    ensures db.Valid()
    ensures db.reservations == old(db.reservations[..k] + db.reservations[k + 1..])
    ensures db.payments == PaymentsKept(old(db.payments), old(db.reservations[k].id))
    ensures db.services == ServicesKept(old(db.services), old(db.reservations[k].id))
  {
    ghost var rs, clients, rooms := db.reservations, db.clients, db.rooms;
    ghost var nextReservation, nextService, nextPayment := db.nextReservationId, db.nextServiceId, db.nextPaymentId;
    var ss, ps := db.services, db.payments;
    var id := db.reservations[k].id;
    db.reservations, db.payments, db.services :=
      db.reservations[..k] + db.reservations[k + 1..], PaymentsKept(ps, id), ServicesKept(ss, id);
    DeleteCascadeKeepsValid(db, rs, nextReservation, clients, rooms, ss, nextService, ps, nextPayment, k);
  }

  /**
   * DeleteConfirmed: a key no row has is reported and changes nothing, and
   * so does a removal the store refuses. Otherwise the row goes, and the
   * required foreign keys of Pago and ServicioAdicional cascade: the
   * reservation's payments and services go with it.
   */
  method DeleteConfirmed(db: HotelDb, id: int, storeFailure: bool) returns (outcome: DeleteOutcome)
    requires db.Valid()
    modifies db`reservations, db`payments, db`services
    ensures db.Valid()
    ensures FindReservation(old(db.reservations), id).None? ==> outcome == DeleteNotFound
    ensures FindReservation(old(db.reservations), id).Some? ==>
      outcome == if storeFailure then DeleteFailed else Deleted
    ensures outcome == Deleted ==>
      && |db.reservations| + 1 == |old(db.reservations)|
      && (forall r :: r in db.reservations <==> r in old(db.reservations) && r.id != id)
      && db.payments == PaymentsKept(old(db.payments), id)
      && db.services == ServicesKept(old(db.services), id)
    ensures outcome != Deleted ==>
      db.reservations == old(db.reservations) && db.payments == old(db.payments)
      && db.services == old(db.services)
  {
    var rs := db.reservations;
    var k := FirstIndex(rs, (r: Reservation) => r.id == id);
    if k == |rs| {
      return DeleteNotFound;
    }
    if storeFailure {
      return DeleteFailed;
    }
    assert rs[k].id == id;
    assert forall r :: r in rs[..k] + rs[k + 1..] <==> r in rs && r.id != id by {
      RemoveKeepsNoDoubleBooking(rs, k);
    }
    RemoveWithDependents(db, k);
    outcome := Deleted;
  }
}
