/*
 * ServiciosAdicionalesController.Create (POST): an extra charge is added to
 * a reservation in the "Pendiente" state, whatever status the form posted,
 * so it is owed until the next settlement of that reservation.
 */
module Services {
  import opened Models
  import opened HotelStore
  import opened Payments

  /** A ModelState entry of the service form. */
  datatype ServiceError =
    | Binding(field: string)   // raised by model binding, before the action
    | SaveFailed               // the insert threw

  datatype ServiceOutcome = Added(service: Service) | Refused(errors: seq<ServiceError>)

  /**
   * Create (POST): the new row takes the next key, the posted reservation,
   * name, price and description, the time the form was bound, and the
   * status the stored text "Pendiente" has. The insert fails, and the
   * handler adds its model error, when the store fails or when the posted
   * reservation is not stored (its required foreign key is violated); the
   * table is then left as it was.
   */
  method AddService(db: HotelDb, modelState: seq<ServiceError>, reservationId: int, name: string,
                    price: ServicePrice, description: Option<string>, now: DateTime, storeFailure: bool)
    returns (outcome: ServiceOutcome)
    requires db.Valid()
    modifies db`services, db`nextServiceId
    ensures db.Valid()
    ensures modelState != [] ==> outcome == Refused(modelState)
    ensures modelState == [] && (storeFailure || !ReservationExists(db.reservations, reservationId)) ==>
      outcome == Refused([SaveFailed])
    ensures modelState == [] && !storeFailure && ReservationExists(db.reservations, reservationId) ==>
      outcome == Added(Service(old(db.nextServiceId), reservationId, name, price, description, now, Pending))
    ensures outcome.Added? ==>
      db.services == old(db.services) + [outcome.service] && db.nextServiceId == old(db.nextServiceId) + 1
    ensures outcome.Refused? ==> db.services == old(db.services) && db.nextServiceId == old(db.nextServiceId)
  {
    if modelState != [] {
      return Refused(modelState);
    }
    if storeFailure || !ReservationExists(db.reservations, reservationId) {
      return Refused([SaveFailed]);
    }
    var service := Service(db.nextServiceId, reservationId, name, price, description, now, StatusOf("Pendiente"));
    assert service.status == Pending;
    ghost var ss := db.services;
    db.services, db.nextServiceId := db.services + [service], db.nextServiceId + 1;
    assert forall i :: 0 <= i < |db.services| ==> db.services[i] == if i < |ss| then ss[i] else service;
    outcome := Added(service);
  }

  /**
   * A new service raises the pending balance of its own reservation by its
   * price and leaves every other reservation's balance alone.
   */
  lemma NewServiceRaisesBalance(roomPrice: int, ss: seq<Service>, ps: seq<Payment>, s: Service, x: int)
    ensures PendingBalance(roomPrice, ss + [s], ps, x) ==
      PendingBalance(roomPrice, ss, ps, x) + (if s.reservationId == x then s.price else 0)
  {
    var keep := (t: Service) => t.reservationId == x;
    WhereConcat(ss, [s], keep);
    assert Where([s], keep) == (if keep(s) then [s] else []) by {
      assert [s][1..] == [];
    }
    SumPricesConcat(Where(ss, keep), Where([s], keep));
  }

  /** The next settlement of the reservation marks the new service paid. */
  lemma NewServiceIsSettledNext(ss: seq<Service>, s: Service)
    requires s.status == Pending
    ensures SettleServices(ss + [s], s.reservationId)[|ss|].status == Paid
  {
  }
}
