/*
 * Room availability (ReservasController.ValidarReservaAsync, stage 3):
 * stays are half-open intervals of day numbers [checkIn.Date, checkOut.Date),
 * and a candidate is refused when another reservation of the same room
 * overlaps it.
 */
module Availability {
  import opened Models

  /** The two stays share at least one night. */
  predicate Overlaps(a: Reservation, b: Reservation)
  {
    a.checkIn.day < b.checkOut.day && a.checkOut.day > b.checkIn.day
  }

  /** Existing row `r` blocks candidate `c`: the `AnyAsync` condition. */
  predicate ConflictsWith(r: Reservation, c: Reservation)
  {
    r.id != c.id && r.roomId == c.roomId && Overlaps(r, c)
  }

  /** Some stored reservation blocks the candidate. */
  predicate HasConflict(rs: seq<Reservation>, c: Reservation)
  {
    exists i | 0 <= i < |rs| :: ConflictsWith(rs[i], c)
  }

  /** The stay of `r` covers the night that starts on day `d`. */
  ghost predicate Occupies(r: Reservation, d: int)
  {
    r.checkIn.day <= d < r.checkOut.day
  }

  ghost predicate DistinctIds(rs: seq<Reservation>)
  {
    forall i, j :: 0 <= i < j < |rs| ==> rs[i].id != rs[j].id
  }

  /** No two reservations of the same room overlap. */
  ghost predicate NoDoubleBooking(rs: seq<Reservation>)
  {
    forall i, j :: 0 <= i < |rs| && 0 <= j < |rs| && i != j && rs[i].roomId == rs[j].roomId
      ==> !Overlaps(rs[i], rs[j])
  }

  /** Check-out is on a later day than check-in. */
  predicate DatesOrdered(r: Reservation)
  {
    r.checkIn.day < r.checkOut.day
  }

  /**
   * For stays of at least one night, the strict comparisons are exactly
   * "some night is occupied by both": the half-open reading of the stays.
   */
  lemma OverlapsIffSharedNight(a: Reservation, b: Reservation)
    requires DatesOrdered(a) && DatesOrdered(b)
    ensures Overlaps(a, b) <==> exists d :: Occupies(a, d) && Occupies(b, d)
  {
    if Overlaps(a, b) {
      var d := if a.checkIn.day < b.checkIn.day then b.checkIn.day else a.checkIn.day;
      assert Occupies(a, d) && Occupies(b, d);
    }
  }

  /** A stay that ends the day another begins is no conflict, either way round. */
  lemma TouchingStaysDoNotOverlap(a: Reservation, b: Reservation)
    requires a.checkOut.day == b.checkIn.day
    ensures !Overlaps(a, b) && !Overlaps(b, a)
  {
  }

  /**
   * Inserting a candidate that passed the availability check, under a key
   * no stored row uses, keeps the rooms free of double bookings.
   */
  lemma InsertKeepsNoDoubleBooking(rs: seq<Reservation>, c: Reservation, id: int)
    requires NoDoubleBooking(rs)
    requires !HasConflict(rs, c)
    requires forall i :: 0 <= i < |rs| ==> rs[i].id != c.id
    ensures NoDoubleBooking(rs + [c.(id := id)])
  {
    var rs' := rs + [c.(id := id)];
    forall i, j | 0 <= i < |rs'| && 0 <= j < |rs'| && i != j && rs'[i].roomId == rs'[j].roomId
      ensures !Overlaps(rs'[i], rs'[j])
    {
      if j == |rs| {
        assert !ConflictsWith(rs[i], c);
      } else if i == |rs| {
        assert !ConflictsWith(rs[j], c);
      }
    }
  }

  /**
   * Replacing the row with the candidate's own key by a candidate that
   * passed the availability check keeps the rooms free of double bookings.
   */
  lemma ReplaceKeepsNoDoubleBooking(rs: seq<Reservation>, k: nat, c: Reservation)
    requires NoDoubleBooking(rs) && DistinctIds(rs)
    requires k < |rs| && rs[k].id == c.id
    requires !HasConflict(rs, c)
    ensures NoDoubleBooking(rs[k := c]) && DistinctIds(rs[k := c])
  {
    var rs' := rs[k := c];
    forall i, j | 0 <= i < |rs'| && 0 <= j < |rs'| && i != j && rs'[i].roomId == rs'[j].roomId
      ensures !Overlaps(rs'[i], rs'[j])
    {
      if j == k {
        assert rs[i].id != c.id && !ConflictsWith(rs[i], c);
      } else if i == k {
        assert rs[j].id != c.id && !ConflictsWith(rs[j], c);
      }
    }
  }

  /**
   * Removing a row keeps the rooms free of double bookings, and removes
   * exactly the row with that key.
   */
  lemma RemoveKeepsNoDoubleBooking(rs: seq<Reservation>, k: nat)
    requires NoDoubleBooking(rs) && DistinctIds(rs) && k < |rs|
    ensures NoDoubleBooking(rs[..k] + rs[k + 1..]) && DistinctIds(rs[..k] + rs[k + 1..])
    ensures forall r :: r in rs[..k] + rs[k + 1..] <==> r in rs && r.id != rs[k].id
  {
    var rs' := rs[..k] + rs[k + 1..];
    assert forall i :: 0 <= i < |rs'| ==> rs'[i] == rs[if i < k then i else i + 1];
    forall i | 0 <= i < |rs| && i != k ensures rs[i] in rs' {
      assert rs[i] == rs'[if i < k then i else i - 1];
    }
  }

  /**
   * A stored reservation does not conflict with the store it lives in: its
   * own row is excluded by key, and no other row of its room overlaps it.
   */
  lemma StoredStayHasNoConflict(rs: seq<Reservation>, k: nat)
    requires NoDoubleBooking(rs) && DistinctIds(rs) && k < |rs|
    ensures !HasConflict(rs, rs[k])
  {
    forall i | 0 <= i < |rs|
      ensures !ConflictsWith(rs[i], rs[k])
    {
      if i != k && rs[i].roomId == rs[k].roomId {
        assert !Overlaps(rs[i], rs[k]);
      }
    }
  }
}
