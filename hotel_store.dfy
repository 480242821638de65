/*
 * The relational store behind the controllers (HotelDbContext), held in
 * memory: one sequence per table, plus the AUTO_INCREMENT counters that
 * hand out new keys. The keyed queries the controllers issue are
 * functions over those sequences.
 */
module HotelStore {
  import opened Models
  import opened Availability

  /** `Clientes.AnyAsync(c => c.ClienteId == id)`. */
  predicate ClientExists(clients: seq<Client>, id: int)
  {
    exists i | 0 <= i < |clients| :: clients[i].id == id
  }

  /** `Habitaciones.AnyAsync(h => h.HabitacionId == id)`. */
  predicate RoomExists(rooms: seq<Room>, id: int)
  {
    exists i | 0 <= i < |rooms| :: rooms[i].id == id
  }

  /** Some stored reservation has the key. */
  predicate ReservationExists(rs: seq<Reservation>, id: int)
  {
    exists i | 0 <= i < |rs| :: rs[i].id == id
  }

  /** `Reservas.FirstOrDefaultAsync(r => r.ReservaId == id)`. */
  function FindReservation(rs: seq<Reservation>, id: int): (found: Option<Reservation>)
    ensures found.Some? ==> found.value in rs && found.value.id == id
    ensures found.None? <==> forall i :: 0 <= i < |rs| ==> rs[i].id != id
  {
    var k := FirstIndex(rs, (r: Reservation) => r.id == id);
    if k < |rs| then Some(rs[k]) else None
  }

  /** The room a reservation's `Include(r => r.Habitacion)` loads, if any. */
  function FindRoom(rooms: seq<Room>, id: int): (found: Option<Room>)
    ensures found.Some? ==> found.value in rooms && found.value.id == id
    ensures found.None? <==> !RoomExists(rooms, id)
  {
    var k := FirstIndex(rooms, (h: Room) => h.id == id);
    if k < |rooms| then Some(rooms[k]) else None
  }

  /** The client a reservation's `Include(r => r.Cliente)` loads, if any. */
  function FindClient(clients: seq<Client>, id: int): (found: Option<Client>)
    ensures found.Some? ==> found.value in clients && found.value.id == id
    ensures found.None? <==> !ClientExists(clients, id)
  {
    var k := FirstIndex(clients, (c: Client) => c.id == id);
    if k < |clients| then Some(clients[k]) else None
  }

  /** `Pagos.FirstOrDefaultAsync(p => p.PagoId == id)`. */
  function FindPayment(ps: seq<Payment>, id: int): (found: Option<Payment>)
    ensures found.Some? ==> found.value in ps && found.value.id == id
    ensures found.None? <==> forall i :: 0 <= i < |ps| ==> ps[i].id != id
  {
    var k := FirstIndex(ps, (p: Payment) => p.id == id);
    if k < |ps| then Some(ps[k]) else None
  }

  /** `Pagos.AnyAsync(p => p.ReservaId == reservationId)`. */
  predicate HasPayment(ps: seq<Payment>, reservationId: int)
  {
    exists i | 0 <= i < |ps| :: ps[i].reservationId == reservationId
  }

  /** Keys are unique, never the unset key 0, and below the counter. */
  ghost predicate ReservationKeys(rs: seq<Reservation>, next: int)
  {
    && DistinctIds(rs)
    && 1 <= next
    && forall i :: 0 <= i < |rs| ==> rs[i].id != 0 && rs[i].id < next
  }

  ghost predicate PaymentKeys(ps: seq<Payment>, next: int)
  {
    && (forall i, j :: 0 <= i < j < |ps| ==> ps[i].id != ps[j].id)
    && 1 <= next
    && forall i :: 0 <= i < |ps| ==> ps[i].id != 0 && ps[i].id < next
  }

  /** Service keys: unique, never the unset key 0, and below the counter. */
  ghost predicate ServiceKeys(ss: seq<Service>, next: int)
  {
    && (forall i, j :: 0 <= i < j < |ss| ==> ss[i].id != ss[j].id)
    && 1 <= next
    && forall i :: 0 <= i < |ss| ==> ss[i].id != 0 && ss[i].id < next
  }

  /** What a stored reservation satisfies once it passed validation. */
  ghost predicate Admitted(r: Reservation, clients: seq<Client>, rooms: seq<Room>)
  {
    DatesOrdered(r) && ClientExists(clients, r.clientId) && RoomExists(rooms, r.roomId)
  }

  /**
   * The reservations table as the validator leaves it: keyed, every row
   * admitted, and no room double-booked.
   */
  ghost predicate ReservationsValid(rs: seq<Reservation>, next: int, clients: seq<Client>, rooms: seq<Room>)
  {
    && ReservationKeys(rs, next)
    && (forall i :: 0 <= i < |rs| ==> Admitted(rs[i], clients, rooms))
    && NoDoubleBooking(rs)
  }

  /** Settlement records at most one payment per reservation. */
  ghost predicate OnePaymentPerReservation(ps: seq<Payment>)
  {
    forall i, j :: 0 <= i < j < |ps| ==> ps[i].reservationId != ps[j].reservationId
  }

  /** The payments table as settlement leaves it: keyed, one per reservation, positive. */
  ghost predicate PaymentsValid(ps: seq<Payment>, next: int)
  {
    && PaymentKeys(ps, next)
    && OnePaymentPerReservation(ps)
    && (forall i :: 0 <= i < |ps| ==> ps[i].amount > 0)
  }

  /**
   * Pago.ReservaId and ServicioAdicional.ReservaId are required foreign
   * keys: every payment and every service belongs to a stored reservation.
   */
  ghost predicate ReferencesStored(rs: seq<Reservation>, ss: seq<Service>, ps: seq<Payment>)
  {
    && (forall i :: 0 <= i < |ps| ==> ReservationExists(rs, ps[i].reservationId))
    && (forall i :: 0 <= i < |ss| ==> ReservationExists(rs, ss[i].reservationId))
  }

  /** The payments that survive the cascading delete of reservation `id`. */
  function PaymentsKept(ps: seq<Payment>, id: int): (kept: seq<Payment>)
  {
    Where(ps, (p: Payment) => p.reservationId != id)
  }

  /** The services that survive the cascading delete of reservation `id`. */
  function ServicesKept(ss: seq<Service>, id: int): (kept: seq<Service>)
  {
    Where(ss, (s: Service) => s.reservationId != id)
  }

  /**
   * The cascade removes exactly the payments and services of reservation
   * `id`: every other row survives as often as it was stored, and none of
   * `id`'s rows does.
   */
  lemma {:induction false} CascadeRemovesDependents(ss: seq<Service>, ps: seq<Payment>, id: int)
    ensures forall p :: multiset(PaymentsKept(ps, id))[p] == if p.reservationId != id then multiset(ps)[p] else 0
    ensures forall s :: multiset(ServicesKept(ss, id))[s] == if s.reservationId != id then multiset(ss)[s] else 0
    ensures forall p :: p in PaymentsKept(ps, id) <==> p in ps && p.reservationId != id
    ensures forall s :: s in ServicesKept(ss, id) <==> s in ss && s.reservationId != id
  {
    WhereKeeps(ps, (p: Payment) => p.reservationId != id);
    WhereKeeps(ss, (s: Service) => s.reservationId != id);
  }

  /** A new reservation leaves every reference valid. */
  lemma AppendKeepsReferences(rs: seq<Reservation>, c: Reservation, ss: seq<Service>, ps: seq<Payment>)
    requires ReferencesStored(rs, ss, ps)
    ensures ReferencesStored(rs + [c], ss, ps)
  {
    forall x | ReservationExists(rs, x) ensures ReservationExists(rs + [c], x) {
      var i :| 0 <= i < |rs| && rs[i].id == x;
      assert (rs + [c])[i].id == x;
    }
  }

  /** Replacing a reservation by one with the same key leaves every reference valid. */
  lemma ReplaceKeepsReferences(rs: seq<Reservation>, k: nat, c: Reservation, ss: seq<Service>, ps: seq<Payment>)
    requires ReferencesStored(rs, ss, ps) && k < |rs| && c.id == rs[k].id
    ensures ReferencesStored(rs[k := c], ss, ps)
  {
    forall x | ReservationExists(rs, x) ensures ReservationExists(rs[k := c], x) {
      var i :| 0 <= i < |rs| && rs[i].id == x;
      assert rs[k := c][i].id == x;
    }
  }

  /**
   * Deleting a reservation together with its payments and services leaves
   * every remaining reference valid.
   */
  lemma CascadeKeepsReferences(rs: seq<Reservation>, k: nat, ss: seq<Service>, ps: seq<Payment>)
    requires ReferencesStored(rs, ss, ps) && k < |rs|
    ensures ReferencesStored(rs[..k] + rs[k + 1..], ServicesKept(ss, rs[k].id), PaymentsKept(ps, rs[k].id))
  {
    var rs' := rs[..k] + rs[k + 1..];
    var ss' := ServicesKept(ss, rs[k].id);
    var ps' := PaymentsKept(ps, rs[k].id);
    WhereKeeps(ps, (p: Payment) => p.reservationId != rs[k].id);
    WhereKeeps(ss, (s: Service) => s.reservationId != rs[k].id);
    forall x | ReservationExists(rs, x) && x != rs[k].id ensures ReservationExists(rs', x) {
      var i :| 0 <= i < |rs| && rs[i].id == x;
      assert rs'[if i < k then i else i - 1] == rs[i];
    }
    forall i | 0 <= i < |ps'| ensures ReservationExists(rs', ps'[i].reservationId) {
      assert ps'[i] in ps;
    }
    forall i | 0 <= i < |ss'| ensures ReservationExists(rs', ss'[i].reservationId) {
      assert ss'[i] in ss;
    }
  }

  /** The cascade keeps the services table keyed. */
  lemma CascadeKeepsServiceKeys(ss: seq<Service>, next: int, id: int)
    requires ServiceKeys(ss, next)
    ensures ServiceKeys(ServicesKept(ss, id), next)
  {
    WhereKeepsPairwise(ss, (s: Service) => s.reservationId != id, (a: Service, b: Service) => a.id != b.id);
    var ss' := ServicesKept(ss, id);
    assert forall i :: 0 <= i < |ss'| ==> ss'[i] in ss by {
      WhereKeeps(ss, (s: Service) => s.reservationId != id);
    }
  }

  /** The cascade keeps the payments table keyed, one per reservation and positive. */
  lemma CascadeKeepsPaymentsValid(ps: seq<Payment>, next: int, id: int)
    requires PaymentsValid(ps, next)
    ensures PaymentsValid(PaymentsKept(ps, id), next)
  {
    WhereKeepsPairwise(ps, (p: Payment) => p.reservationId != id, (a: Payment, b: Payment) => a.id != b.id);
    WhereKeepsPairwise(ps, (p: Payment) => p.reservationId != id,
                       (a: Payment, b: Payment) => a.reservationId != b.reservationId);
    var ps' := PaymentsKept(ps, id);
    assert forall i :: 0 <= i < |ps'| ==> ps'[i] in ps by {
      WhereKeeps(ps, (p: Payment) => p.reservationId != id);
    }
  }

  /**
   * The state every booking and billing operation preserves: keys are
   * unique, every reservation is one the validator admits, no room is
   * double-booked, each reservation has at most one positive payment, and
   * every payment and service belongs to a stored reservation.
   */
  ghost predicate StoreValid(rs: seq<Reservation>, nextReservation: int, clients: seq<Client>, rooms: seq<Room>,
                             ss: seq<Service>, nextService: int, ps: seq<Payment>, nextPayment: int)
  {
    && ReservationsValid(rs, nextReservation, clients, rooms)
    && ServiceKeys(ss, nextService)
    && PaymentsValid(ps, nextPayment)
    && ReferencesStored(rs, ss, ps)
  }

  /** Deleting reservation `k` with its payments and services keeps every table invariant. */
  lemma DeleteCascadeKeepsInvariants(rs: seq<Reservation>, next: int, clients: seq<Client>, rooms: seq<Room>,
                                     ss: seq<Service>, nextService: int, ps: seq<Payment>, nextPayment: int,
                                     k: nat)
    requires StoreValid(rs, next, clients, rooms, ss, nextService, ps, nextPayment) && k < |rs|
    ensures StoreValid(rs[..k] + rs[k + 1..], next, clients, rooms,
                       ServicesKept(ss, rs[k].id), nextService, PaymentsKept(ps, rs[k].id), nextPayment)
  {
    RemoveKeepsNoDoubleBooking(rs, k);
    CascadeKeepsReferences(rs, k, ss, ps);
    CascadeKeepsServiceKeys(ss, nextService, rs[k].id);
    CascadeKeepsPaymentsValid(ps, nextPayment, rs[k].id);
    var rs' := rs[..k] + rs[k + 1..];
    assert forall i :: 0 <= i < |rs'| ==> rs'[i] == rs[if i < k then i else i + 1];
  }

  /**
   * The store holds the tables a cascading delete of reservation `k` leaves
   * behind a valid store, so it is valid.
   */
  lemma DeleteCascadeKeepsValid(db: HotelDb, rs: seq<Reservation>, next: int, clients: seq<Client>,
                                rooms: seq<Room>, ss: seq<Service>, nextService: int, ps: seq<Payment>,
                                nextPayment: int, k: nat)
    requires StoreValid(rs, next, clients, rooms, ss, nextService, ps, nextPayment) && k < |rs|
    requires db.clients == clients && db.rooms == rooms
    requires db.nextReservationId == next && db.nextServiceId == nextService && db.nextPaymentId == nextPayment
    requires db.reservations == rs[..k] + rs[k + 1..]
    requires db.services == ServicesKept(ss, rs[k].id) && db.payments == PaymentsKept(ps, rs[k].id)
    ensures db.Valid()
  {
    DeleteCascadeKeepsInvariants(rs, next, clients, rooms, ss, nextService, ps, nextPayment, k);
  }

  /** Appending an admitted, conflict-free row under a fresh key `id` and moving the counter past it keeps the store valid. */
  lemma InsertKeepsValid(db: HotelDb, rs: seq<Reservation>, next: int, clients: seq<Client>,
                         rooms: seq<Room>, ss: seq<Service>, nextService: int, ps: seq<Payment>,
                         nextPayment: int, c: Reservation, id: int)
    requires StoreValid(rs, next, clients, rooms, ss, nextService, ps, nextPayment)
    requires Admitted(c, clients, rooms) && !HasConflict(rs, c) && id != 0
    requires forall i :: 0 <= i < |rs| ==> rs[i].id != c.id && rs[i].id != id
    requires db.clients == clients && db.rooms == rooms && db.services == ss && db.payments == ps
    requires db.nextServiceId == nextService && db.nextPaymentId == nextPayment
    requires db.reservations == rs + [c.(id := id)]
    requires db.nextReservationId == if next <= id then id + 1 else next
    ensures db.Valid()
  {
    InsertKeepsNoDoubleBooking(rs, c, id);
    AppendKeepsReferences(rs, c.(id := id), ss, ps);
  }

  class HotelDb {
    var clients: seq<Client>
    var rooms: seq<Room>
    var reservations: seq<Reservation>
    var services: seq<Service>
    var payments: seq<Payment>
    var nextReservationId: int
    var nextServiceId: int
    var nextPaymentId: int

    /** The store invariant, over the current tables. */
    ghost predicate Valid()
      reads this
    {
      StoreValid(reservations, nextReservationId, clients, rooms, services, nextServiceId, payments, nextPaymentId)
    }

    /** A store seeded with the client and room catalogue, and nothing booked. */
    constructor (clients: seq<Client>, rooms: seq<Room>)
      ensures Valid()
      ensures this.clients == clients && this.rooms == rooms
      ensures reservations == [] && services == [] && payments == []
    {
      this.clients := clients;
      this.rooms := rooms;
      reservations := [];
      services := [];
      payments := [];
      nextReservationId := 1;
      nextServiceId := 1;
      nextPaymentId := 1;
    }
  }
}
