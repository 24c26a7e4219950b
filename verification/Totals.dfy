/** Sums of integer weights over finite sets of ids. */
module Totals {

  ghost function Total(ids: set<nat>, weight: nat -> int): int {
    if ids == {} then 0
    else
      var i :| i in ids;
      weight(i) + Total(ids - {i}, weight)
  }

  lemma {:induction false} TotalPick(ids: set<nat>, weight: nat -> int, i: nat)
    requires i in ids
    ensures Total(ids, weight) == weight(i) + Total(ids - {i}, weight)
  {
    var j :| j in ids && Total(ids, weight) == weight(j) + Total(ids - {j}, weight);
    if i != j {
      TotalPick(ids - {j}, weight, i);
      TotalPick(ids - {i}, weight, j);
      assert ids - {j} - {i} == ids - {i} - {j};
    }
  }

  lemma {:induction false} TotalSame(ids: set<nat>, v: nat -> int, w: nat -> int)
    requires forall i <- ids :: v(i) == w(i)
    ensures Total(ids, v) == Total(ids, w)
  {
    if ids != {} {
      var i :| i in ids;
      TotalPick(ids, v, i);
      TotalPick(ids, w, i);
      TotalSame(ids - {i}, v, w);
    }
  }

  /** Two weightings that differ at one id only. */
  lemma TotalChange(ids: set<nat>, v: nat -> int, w: nat -> int, x: nat)
    requires x in ids
    requires forall i <- ids :: i != x ==> v(i) == w(i)
    ensures Total(ids, w) == Total(ids, v) - v(x) + w(x)
  {
    TotalPick(ids, v, x);
    TotalPick(ids, w, x);
    TotalSame(ids - {x}, v, w);
  }

  /** One more id. */
  lemma TotalGrow(ids: set<nat>, v: nat -> int, w: nat -> int, x: nat)
    requires x !in ids
    requires forall i <- ids :: v(i) == w(i)
    ensures Total(ids + {x}, w) == Total(ids, v) + w(x)
  {
    TotalPick(ids + {x}, w, x);
    assert ids + {x} - {x} == ids;
    TotalSame(ids, v, w);
  }

  lemma {:induction false} TotalBounds(ids: set<nat>, v: nat -> int, w: nat -> int)
    requires forall i <- ids :: v(i) <= w(i)
    ensures Total(ids, v) <= Total(ids, w)
  {
    if ids != {} {
      var i :| i in ids;
      TotalPick(ids, v, i);
      TotalPick(ids, w, i);
      TotalBounds(ids - {i}, v, w);
    }
  }

  /** A zero-or-one weight counts the ids that have it. */
  lemma {:induction false} TotalCounts(ids: set<nat>, weight: nat -> int, those: set<nat>)
    requires those <= ids
    requires forall i <- ids :: weight(i) == if i in those then 1 else 0
    ensures Total(ids, weight) == |those|
  {
    if ids != {} {
      var i :| i in ids;
      TotalPick(ids, weight, i);
      TotalCounts(ids - {i}, weight, those - {i});
    }
  }

  /** A weight that is the same for some ids, and nothing for the others. */
  lemma {:induction false} TotalOfAlike(ids: set<nat>, weight: nat -> int, those: set<nat>, each: int)
    requires those <= ids
    requires forall i <- ids :: weight(i) == if i in those then each else 0
    ensures Total(ids, weight) == each * |those|
  {
    if ids != {} {
      var i :| i in ids;
      TotalPick(ids, weight, i);
      TotalOfAlike(ids - {i}, weight, those - {i}, each);
      if i in those {
        assert |those - {i}| == |those| - 1;
        assert each * |those - {i}| + each == each * |those| by {
          assert each * (|those| - 1) + each == each * |those|;
        }
      } else {
        assert those - {i} == those;
      }
    }
  }
}
