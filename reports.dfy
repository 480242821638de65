/*
 * ReportesController.GetPagosReportDataAsync: the payments that pass every
 * active filter (first day, last day, method), newest first. Dates are
 * compared on their day only; the method filter is off when it is absent or
 * empty.
 */
module Reports {
  import opened Models

  /** The search form: FechaInicio, FechaFin and MetodoPago, each optional. */
  datatype ReportFilter = ReportFilter(from: Option<DateTime>, to: Option<DateTime>,
                                       paymentMethod: Option<string>)

  /** `!string.IsNullOrEmpty(metodoPago)`. */
  predicate MethodFilterOn(f: ReportFilter)
  {
    f.paymentMethod.Some? && f.paymentMethod.value != ""
  }

  /** The payment passes every filter that is on. */
  predicate Matches(f: ReportFilter, p: Payment)
  {
    && (f.from.Some? ==> p.paidAt.day >= f.from.value.day)
    && (f.to.Some? ==> p.paidAt.day <= f.to.value.day)
    && (MethodFilterOn(f) ==> p.paymentMethod == f.paymentMethod.value)
  }

  /** The query after its three optional `Where` clauses, applied in order. */
  function Filtered(ps: seq<Payment>, f: ReportFilter): seq<Payment>
  {
    var afterFrom := if f.from.Some? then Where(ps, (p: Payment) => p.paidAt.day >= f.from.value.day) else ps;
    var afterTo := if f.to.Some? then Where(afterFrom, (p: Payment) => p.paidAt.day <= f.to.value.day) else afterFrom;
    if MethodFilterOn(f) then Where(afterTo, (p: Payment) => p.paymentMethod == f.paymentMethod.value) else afterTo
  }

  /** Descending by full payment timestamp: no payment precedes a strictly newer one. */
  predicate NewestFirst(ps: seq<Payment>)
  {
    forall i, j :: 0 <= i < j < |ps| ==> !ps[i].paidAt.Before(ps[j].paidAt)
  }

  /** Places `p` after every payment at least as new and before the first strictly older one. */
  function InsertByDate(p: Payment, sorted: seq<Payment>): (r: seq<Payment>)
    ensures |r| == |sorted| + 1
  {
    if sorted == [] then [p]
    else if sorted[0].paidAt.Before(p.paidAt) then [p] + sorted
    else [sorted[0]] + InsertByDate(p, sorted[1..])
  }

  /** Inserting adds the one payment and loses none. */
  lemma {:induction false} InsertByDateKeeps(p: Payment, sorted: seq<Payment>)
    ensures multiset(InsertByDate(p, sorted)) == multiset(sorted) + multiset{p}
  {
    if sorted != [] && !sorted[0].paidAt.Before(p.paidAt) {
      InsertByDateKeeps(p, sorted[1..]);
      assert sorted == [sorted[0]] + sorted[1..];
    }
  }

  /** Inserting into a list ordered newest first keeps it ordered. */
  lemma {:induction false} InsertByDateOrdered(p: Payment, sorted: seq<Payment>)
    requires NewestFirst(sorted)
    ensures NewestFirst(InsertByDate(p, sorted))
  {
    if sorted != [] && !sorted[0].paidAt.Before(p.paidAt) {
      var tail := sorted[1..];
      var rest := InsertByDate(p, tail);
      InsertByDateOrdered(p, tail);
      InsertByDateKeeps(p, tail);
      forall k | 0 <= k < |rest| ensures !sorted[0].paidAt.Before(rest[k].paidAt) {
        assert rest[k] in multiset(rest);
        if rest[k] != p {
          assert rest[k] in tail;
        }
      }
    }
  }

  /** `OrderByDescending(p => p.FechaPago)`: a reordering of the rows, newest first. */
  function SortNewestFirst(ps: seq<Payment>): (r: seq<Payment>)
    ensures NewestFirst(r)
    ensures multiset(r) == multiset(ps)
  {
    if ps == [] then []
    else
      assert ps == [ps[0]] + ps[1..];
      var rest := SortNewestFirst(ps[1..]);
      InsertByDateOrdered(ps[0], rest);
      InsertByDateKeeps(ps[0], rest);
      InsertByDate(ps[0], rest)
  }

  /** GetPagosReportDataAsync over the Pagos table. */
  function PaymentReport(ps: seq<Payment>, f: ReportFilter): seq<Payment>
  {
    SortNewestFirst(Filtered(ps, f))
  }

  /** The chained clauses keep exactly the payments that match the filter, as often as stored. */
  lemma FilteredKeeps(ps: seq<Payment>, f: ReportFilter)
    ensures forall p :: multiset(Filtered(ps, f))[p] == if Matches(f, p) then multiset(ps)[p] else 0
  {
    var afterFrom := if f.from.Some? then Where(ps, (p: Payment) => p.paidAt.day >= f.from.value.day) else ps;
    if f.from.Some? {
      WhereKeeps(ps, (p: Payment) => p.paidAt.day >= f.from.value.day);
    }
    var afterTo := if f.to.Some? then Where(afterFrom, (p: Payment) => p.paidAt.day <= f.to.value.day) else afterFrom;
    if f.to.Some? {
      WhereKeeps(afterFrom, (p: Payment) => p.paidAt.day <= f.to.value.day);
    }
    if MethodFilterOn(f) {
      WhereKeeps(afterTo, (p: Payment) => p.paymentMethod == f.paymentMethod.value);
    }
  }

  /**
   * The report holds every stored payment that passes the active filters,
   * as often as it is stored, and nothing else.
   */
  lemma ReportIsSoundAndComplete(ps: seq<Payment>, f: ReportFilter)
    ensures forall p :: multiset(PaymentReport(ps, f))[p] == if Matches(f, p) then multiset(ps)[p] else 0
    ensures forall p :: p in PaymentReport(ps, f) <==> p in ps && Matches(f, p)
  {
    FilteredKeeps(ps, f);
    assert forall p :: p in PaymentReport(ps, f) <==> p in multiset(Filtered(ps, f));
  }

  /** Each filter that is on holds of every reported payment. */
  lemma ReportRespectsFilters(ps: seq<Payment>, f: ReportFilter)
    ensures forall p | p in PaymentReport(ps, f) ::
      && (f.from.Some? ==> p.paidAt.day >= f.from.value.day)
      && (f.to.Some? ==> p.paidAt.day <= f.to.value.day)
      && (MethodFilterOn(f) ==> p.paymentMethod == f.paymentMethod.value)
  {
    ReportIsSoundAndComplete(ps, f);
  }

  /** The report is ordered newest first. */
  lemma ReportNewestFirst(ps: seq<Payment>, f: ReportFilter)
    ensures NewestFirst(PaymentReport(ps, f))
  {
  }

  /** Without filters the report is every stored payment, reordered. */
  lemma UnfilteredReportIsPermutation(ps: seq<Payment>, methodFilter: Option<string>)
    requires methodFilter.None? || methodFilter == Some("")
    ensures multiset(PaymentReport(ps, ReportFilter(None, None, methodFilter))) == multiset(ps)
  {
  }

  /** An empty method filter is the same as none at all. */
  lemma EmptyMethodIsNoFilter(ps: seq<Payment>, from: Option<DateTime>, to: Option<DateTime>)
    ensures PaymentReport(ps, ReportFilter(from, to, Some(""))) == PaymentReport(ps, ReportFilter(from, to, None))
  {
  }

  /** A range whose first day is after its last day reports nothing. */
  lemma InvertedRangeIsEmpty(ps: seq<Payment>, f: ReportFilter)
    requires f.from.Some? && f.to.Some? && f.from.value.day > f.to.value.day
    ensures PaymentReport(ps, f) == []
  {
    ReportIsSoundAndComplete(ps, f);
  }
}
