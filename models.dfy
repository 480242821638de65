/*
 * Records of the hotel store (the entity classes of Models/), as values,
 * together with the two query building blocks every controller uses:
 * LINQ's `Where` over a table and the `Sum` of money columns.
 */
module Models {

  datatype Option<+T> = None | Some(value: T)

  /** Ticks (100 ns) in one day. */
  const TicksPerDay: nat := 864_000_000_000

  type TimeOfDay = t: nat | t < TicksPerDay

  /**
   * A C# DateTime: a day number and the time within that day.
   * `.Date` truncation keeps `day` and drops `time`.
   */
  datatype DateTime = DateTime(day: int, time: TimeOfDay) {
    /** Strict chronological order on full timestamps. */
    predicate Before(other: DateTime) {
      day < other.day || (day == other.day && time < other.time)
    }
  }

  /** Habitacion.Capacidad: [Range(1, 20)]. */
  type Capacity = c: int | 1 <= c <= 20 witness 1

  /** Habitacion.Precio: [Range(50000, 2000000)], whole COP. */
  type RoomPrice = p: int | 50_000 <= p <= 2_000_000 witness 50_000

  /** ServicioAdicional.Precio: [Range(5000, 500000)], whole COP. */
  type ServicePrice = p: int | 5_000 <= p <= 500_000 witness 5_000

  /** An ASCII letter in lower case; every other character unchanged. */
  function Lower(c: char): char
  {
    if 'A' <= c <= 'Z' then (c as int + 32) as char else c
  }

  /**
   * Letter for letter equal once case is ignored: how the store's
   * case-insensitive collation compares EstadoPago with a literal.
   */
  predicate SameIgnoringCase(a: string, b: string)
  {
    |a| == |b| && forall i :: 0 <= i < |a| ==> Lower(a[i]) == Lower(b[i])
  }

  /**
   * Any EstadoPago text that neither status filter (`== "Pendiente"`,
   * `== "Pagado"`) selects.
   */
  type OtherLabel = s: string | !SameIgnoringCase(s, "Pendiente") && !SameIgnoringCase(s, "Pagado") witness ""

  datatype Client = Client(id: int, document: string, firstName: string,
                           lastName: string, email: string, phone: string)

  datatype Room = Room(id: int, kind: string, capacity: Capacity,
                       price: RoomPrice, available: bool)

  /** Reserva: a stay of one room by one client, check-in to check-out. */
  datatype Reservation = Reservation(id: int, clientId: int, roomId: int,
                                     checkIn: DateTime, checkOut: DateTime)

  /**
   * ServicioAdicional.EstadoPago, up to letter case: "Pendiente" (the
   * initial state), "Pagado", or any other text the service edit form may
   * store.
   */
  datatype PaymentStatus = Pending | Paid | Other(text: OtherLabel)

  /**
   * The status a stored EstadoPago text has for the two status filters:
   * "PENDIENTE" or "pendiente" is selected as pending just as "Pendiente" is.
   */
  function StatusOf(text: string): (st: PaymentStatus)
    ensures st == Pending <==> SameIgnoringCase(text, "Pendiente")
    ensures st == Paid <==> SameIgnoringCase(text, "Pagado")
    ensures st.Other? ==> st.text == text
  {
    if SameIgnoringCase(text, "Pendiente") then Pending
    else if SameIgnoringCase(text, "Pagado") then Paid
    else Other(text)
  }

  /** ServicioAdicional: an extra charge on a reservation. */
  datatype Service = Service(id: int, reservationId: int, name: string,
                             price: ServicePrice, description: Option<string>,
                             requestedAt: DateTime, status: PaymentStatus)

  /** Pago: a payment recorded against a reservation. */
  datatype Payment = Payment(id: int, reservationId: int, paidAt: DateTime,
                             amount: int, paymentMethod: string)

  /**
   * LINQ `Where`: the rows of `s` that satisfy `keep`, each kept as
   * often as it occurs.
   */
  function Where<T>(s: seq<T>, keep: T -> bool): (r: seq<T>)
    ensures |r| <= |s|
  {
    if s == [] then []
    else if keep(s[0]) then [s[0]] + Where(s[1..], keep) else Where(s[1..], keep)
  }

  /**
   * `Where` keeps every row that satisfies the condition, as often as it
   * occurs, and nothing else.
   */
  lemma {:induction false} WhereKeeps<T(!new)>(s: seq<T>, keep: T -> bool)
    ensures forall x :: multiset(Where(s, keep))[x] == if keep(x) then multiset(s)[x] else 0
    ensures forall x :: x in Where(s, keep) <==> x in s && keep(x)
  {
    if s != [] {
      assert s == [s[0]] + s[1..];
      WhereKeeps(s[1..], keep);
      assert forall x :: x in s <==> x == s[0] || x in s[1..];
    }
  }

  /**
   * `Where` keeps the relative order of the rows it keeps, so a relation
   * that holds between every earlier and every later row still does.
   */
  lemma {:induction false} WhereKeepsPairwise<T(!new)>(s: seq<T>, keep: T -> bool, apart: (T, T) -> bool)
    requires forall i, j :: 0 <= i < j < |s| ==> apart(s[i], s[j])
    ensures forall i, j :: 0 <= i < j < |Where(s, keep)| ==> apart(Where(s, keep)[i], Where(s, keep)[j])
  {
    if s != [] {
      var rest := Where(s[1..], keep);
      WhereKeepsPairwise(s[1..], keep, apart);
      WhereKeeps(s[1..], keep);
      if keep(s[0]) {
        var w := [s[0]] + rest;
        assert Where(s, keep) == w;
        forall j | 0 < j < |w| ensures apart(s[0], w[j]) {
          assert w[j] == rest[j - 1] && rest[j - 1] in s[1..];
          var m :| 0 <= m < |s[1..]| && s[1..][m] == rest[j - 1];
          assert s[m + 1] == w[j];
        }
        forall i, j | 0 <= i < j < |w| ensures apart(w[i], w[j]) {
          if 0 < i {
            assert w[i] == rest[i - 1] && w[j] == rest[j - 1];
          }
        }
      }
    }
  }

  /**
   * `FirstOrDefault`: the position of the first row satisfying `p`, or
   * `|s|` when there is none.
   */
  function FirstIndex<T>(s: seq<T>, p: T -> bool): (k: nat)
    ensures k <= |s|
    ensures k < |s| ==> p(s[k])
    ensures forall i :: 0 <= i < k ==> !p(s[i])
  {
    if s == [] then 0 else if p(s[0]) then 0 else 1 + FirstIndex(s[1..], p)
  }

  /** `Sum(p => p.Monto)` over a list of payments. */
  function SumAmounts(ps: seq<Payment>): int
  {
    if ps == [] then 0 else ps[0].amount + SumAmounts(ps[1..])
  }

  /** `Sum(s => s.Precio)` over a list of services. */
  function SumPrices(ss: seq<Service>): int
  {
    if ss == [] then 0 else ss[0].price + SumPrices(ss[1..])
  }

  /** A `Where` over two tables laid end to end is the two `Where`s laid end to end. */
  lemma {:induction false} WhereConcat<T>(a: seq<T>, b: seq<T>, keep: T -> bool)
    ensures Where(a + b, keep) == Where(a, keep) + Where(b, keep)
  {
    if a == [] {
      assert a + b == b;
    } else {
      var ab := a + b;
      assert ab[0] == a[0] && ab[1..] == a[1..] + b;
      WhereConcat(a[1..], b, keep);
      var head := if keep(a[0]) then [a[0]] else [];
      assert Where(ab, keep) == head + Where(a[1..] + b, keep);
      assert Where(a, keep) == head + Where(a[1..], keep);
    }
  }

  lemma {:induction false} SumAmountsConcat(a: seq<Payment>, b: seq<Payment>)
    ensures SumAmounts(a + b) == SumAmounts(a) + SumAmounts(b)
  {
    if a == [] {
      assert a + b == b;
    } else {
      assert (a + b)[1..] == a[1..] + b;
      SumAmountsConcat(a[1..], b);
    }
  }

  lemma {:induction false} SumPricesConcat(a: seq<Service>, b: seq<Service>)
    ensures SumPrices(a + b) == SumPrices(a) + SumPrices(b)
  {
    if a == [] {
      assert a + b == b;
    } else {
      assert (a + b)[1..] == a[1..] + b;
      SumPricesConcat(a[1..], b);
    }
  }

  /** Every service price is at least 5000, so a sum is never negative. */
  lemma {:induction false} SumPricesLowerBound(ss: seq<Service>)
    ensures SumPrices(ss) >= 5_000 * |ss|
  {
    if ss != [] {
      SumPricesLowerBound(ss[1..]);
    }
  }
}
