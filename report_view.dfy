/*
 * ReportePagosViewModel.TotalRecaudado: the sum of the amounts of the
 * report's results, or 0 when there are none.
 */
module ReportView {
  import opened Models

  /** TotalRecaudado over an absent (null) or present result list. */
  function TotalCollected(results: Option<seq<Payment>>): int
  {
    match results
    case None => 0
    case Some(ps) => SumAmounts(ps)
  }

  /** No results, whether absent or empty, collect nothing. */
  lemma NoResultsCollectNothing()
    ensures TotalCollected(None) == 0
    ensures TotalCollected(Some([])) == 0
  {
  }

  /** The total of two result lists laid end to end is the sum of their totals. */
  lemma TotalOfConcat(a: seq<Payment>, b: seq<Payment>)
    ensures TotalCollected(Some(a + b)) == TotalCollected(Some(a)) + TotalCollected(Some(b))
  {
    SumAmountsConcat(a, b);
  }

  /** Removing one row from a list lowers its total by that row's amount. */
  lemma {:induction false} SumWithoutOne(ps: seq<Payment>, k: nat)
    requires k < |ps|
    ensures SumAmounts(ps) == ps[k].amount + SumAmounts(ps[..k] + ps[k + 1..])
  {
    assert ps == ps[..k] + [ps[k]] + ps[k + 1..];
    SumAmountsConcat(ps[..k] + [ps[k]], ps[k + 1..]);
    SumAmountsConcat(ps[..k], [ps[k]]);
    SumAmountsConcat(ps[..k], ps[k + 1..]);
    assert SumAmounts([ps[k]]) == ps[k].amount by {
      assert [ps[k]][1..] == [];
    }
  }

  /** A payment in the multiset of a list sits at some position of it. */
  lemma PositionOf(ps: seq<Payment>, p: Payment) returns (k: nat)
    requires p in multiset(ps)
    ensures k < |ps| && ps[k] == p
  {
    assert p in ps;
    k :| 0 <= k < |ps| && ps[k] == p;
  }

  /** One payment and the rest: the multiset of a list split at position `k`. */
  lemma SplitAt(ps: seq<Payment>, k: nat)
    requires k < |ps|
    ensures multiset(ps) == multiset{ps[k]} + multiset(ps[..k] + ps[k + 1..])
  {
    assert ps == ps[..k] + [ps[k]] + ps[k + 1..];
  }

  /** Equal multisets stay equal when the same element is taken out of both. */
  lemma Cancel(x: Payment, m: multiset<Payment>, n: multiset<Payment>)
    requires multiset{x} + m == multiset{x} + n
    ensures m == n
  {
    forall p ensures m[p] == n[p] {
      assert (multiset{x} + m)[p] == (multiset{x} + n)[p];
    }
  }

  /** Taking the same payment out of two lists with equal multisets leaves equal multisets. */
  lemma RemaindersAgree(a: seq<Payment>, b: seq<Payment>, k: nat)
    requires multiset(a) == multiset(b) && a != [] && k < |b| && b[k] == a[0]
    ensures multiset(a[1..]) == multiset(b[..k] + b[k + 1..])
  {
    SplitAt(a, 0);
    SplitAt(b, k);
    assert a[..0] + a[1..] == a[1..];
    Cancel(a[0], multiset(a[1..]), multiset(b[..k] + b[k + 1..]));
  }

  /** The sum of the amounts does not depend on the order of the rows. */
  lemma {:induction false} SumIgnoresOrder(a: seq<Payment>, b: seq<Payment>)
    requires multiset(a) == multiset(b)
    ensures SumAmounts(a) == SumAmounts(b)
  {
    if a != [] {
      var k := PositionOf(b, a[0]);
      RemaindersAgree(a, b, k);
      SumIgnoresOrder(a[1..], b[..k] + b[k + 1..]);
      SumWithoutOne(b, k);
    }
  }

  /** The total does not depend on the order of the results. */
  lemma TotalIgnoresOrder(a: seq<Payment>, b: seq<Payment>)
    requires multiset(a) == multiset(b)
    ensures TotalCollected(Some(a)) == TotalCollected(Some(b))
  {
    SumIgnoresOrder(a, b);
  }

  /** With positive amounts the total is positive exactly when there is a result. */
  lemma {:induction false} PositiveAmountsPositiveTotal(ps: seq<Payment>)
    requires forall i :: 0 <= i < |ps| ==> ps[i].amount > 0
    ensures TotalCollected(Some(ps)) >= |ps|
    ensures TotalCollected(Some(ps)) > 0 <==> ps != []
  {
    if ps != [] {
      PositiveAmountsPositiveTotal(ps[1..]);
    }
  }
}
