/** The choice of the two dataset boundaries among the legal cuts: one backward
    pass of suffix minima and one forward pass, linear in the number of cuts
    (archive/datasets.py, DatasetStore.inspect). */
module CutSearch {
  import opened Common

  /** A validation boundary with its distance from nine tenths of the rows. */
  datatype Tail = Tail(cost: nat, cut: int)

  /** A pair of boundaries with its whole cost, compared as a tuple. */
  datatype Split = Split(cost: nat, a: int, b: int)

  function TailAt(cut: int, first: int, n: int): Tail {
    Tail(Abs(10 * (cut - first + 1) - 9 * n), cut)
  }

  function SplitAt(a: int, b: int, first: int, n: int): Split {
    Split(Abs(10 * (a - first + 1) - 8 * n) + Abs(10 * (b - first + 1) - 9 * n), a, b)
  }

  predicate TailLeq(x: Tail, y: Tail) {
    x.cost < y.cost || (x.cost == y.cost && x.cut <= y.cut)
  }

  predicate SplitLess(x: Split, y: Split) {
    || x.cost < y.cost
    || (x.cost == y.cost && (x.a < y.a || (x.a == y.a && x.b < y.b)))
  }

  predicate SplitLeq(x: Split, y: Split) {
    !SplitLess(y, x)
  }

  /** t is the least tail offered by the cuts from index i on. */
  ghost predicate LeastTail(t: Tail, cuts: seq<int>, i: int, first: int, n: int) {
    && 0 <= i <= |cuts|
    && (exists j :: i <= j < |cuts| && t == TailAt(cuts[j], first, n))
    && (forall j :: i <= j < |cuts| ==> TailLeq(t, TailAt(cuts[j], first, n)))
  }

  ghost predicate IsCutPair(cuts: seq<int>, a: int, b: int) {
    exists i, j :: 0 <= i < j < |cuts| && cuts[i] == a && cuts[j] == b
  }

  /** (a, b) is the lexicographically least (cost, a, b) over every ordered pair of cuts. */
  ghost predicate OptimalPair(cuts: seq<int>, a: int, b: int, first: int, n: int) {
    && IsCutPair(cuts, a, b)
    && (forall i, j :: 0 <= i < j < |cuts| ==>
         SplitLeq(SplitAt(a, b, first, n), SplitAt(cuts[i], cuts[j], first, n)))
  }

  lemma {:induction false} LeastTailExtends(t: Tail, cuts: seq<int>, k: int, first: int, n: int)
    requires 0 <= k < |cuts| && LeastTail(t, cuts, k + 1, first, n)
    requires TailLeq(t, TailAt(cuts[k], first, n))
    ensures LeastTail(t, cuts, k, first, n)
  {
    var j :| k + 1 <= j < |cuts| && t == TailAt(cuts[j], first, n);
  }

  lemma {:induction false} LeastTailReplaced(later: Option<Tail>, cuts: seq<int>, k: int, first: int, n: int)
    requires 0 <= k < |cuts|
    requires later.None? ==> k == |cuts| - 1
    requires later.Some? ==> LeastTail(later.value, cuts, k + 1, first, n)
    requires later.Some? ==> !TailLeq(later.value, TailAt(cuts[k], first, n))
    ensures LeastTail(TailAt(cuts[k], first, n), cuts, k, first, n)
  {
    var t := TailAt(cuts[k], first, n);
    forall j | k <= j < |cuts| ensures TailLeq(t, TailAt(cuts[j], first, n)) {
      if j > k {
        assert TailLeq(later.value, TailAt(cuts[j], first, n));
      }
    }
  }

  method SuffixMinima(cuts: seq<int>, first: int, n: int) returns (suffix: seq<Tail>)
    ensures |suffix| == |cuts|
    ensures forall i :: 0 <= i < |cuts| ==> LeastTail(suffix[i], cuts, i, first, n)
  {
    var backward: seq<Tail> := [];
    var k := |cuts|;
    while k > 0
      invariant 0 <= k <= |cuts| && |backward| == |cuts| - k
      invariant forall m :: 0 <= m < |backward| ==> LeastTail(backward[m], cuts, |cuts| - 1 - m, first, n)
    {
      k := k - 1;
      var candidate := TailAt(cuts[k], first, n);
      if backward != [] && TailLeq(backward[|backward| - 1], candidate) {
        candidate := backward[|backward| - 1];
        LeastTailExtends(candidate, cuts, k, first, n);
      } else {
        LeastTailReplaced(if backward == [] then None else Some(backward[|backward| - 1]), cuts, k, first, n);
      }
      backward := backward + [candidate];
    }
    suffix := seq(|backward|, i requires 0 <= i < |backward| => backward[|backward| - 1 - i]);
    forall i | 0 <= i < |cuts| ensures LeastTail(suffix[i], cuts, i, first, n) {
      assert suffix[i] == backward[|cuts| - 1 - i];
    }
  }

  /** The boundary pair, or None; first is the first durable sequence of the
      range and n the number of rows in it. */
  method FindBoundary(cuts: seq<int>, first: int, n: int) returns (boundary: Option<(int, int)>)
    ensures boundary.None? <==> |cuts| < 2
    ensures boundary.Some? ==> OptimalPair(cuts, boundary.value.0, boundary.value.1, first, n)
  {
    var suffix := SuffixMinima(cuts, first, n);
    var best: Option<Split> := None;
    boundary := None;
    var i := 0;
    while i < |cuts| - 1
      invariant 0 <= i <= Max(0, |cuts| - 1)
      invariant best.None? <==> i == 0
      invariant best.None? <==> boundary.None?
      invariant best.Some? ==>
        && best.value == SplitAt(boundary.value.0, boundary.value.1, first, n)
        && IsCutPair(cuts, boundary.value.0, boundary.value.1)
      invariant best.Some? ==> forall p, q :: 0 <= p < i && p < q < |cuts| ==>
        SplitLeq(best.value, SplitAt(cuts[p], cuts[q], first, n))
    {
      var a, t := cuts[i], suffix[i + 1];
      var candidate := Split(Abs(10 * (a - first + 1) - 8 * n) + t.cost, a, t.cut);
      assert LeastTail(t, cuts, i + 1, first, n);
      assert candidate == SplitAt(a, t.cut, first, n) && IsCutPair(cuts, a, t.cut);
      assert forall q :: i < q < |cuts| ==>
        TailLeq(t, TailAt(cuts[q], first, n)) && SplitLeq(candidate, SplitAt(a, cuts[q], first, n));
      if best.None? || SplitLess(candidate, best.value) {
        best, boundary := Some(candidate), Some((a, t.cut));
      }
      i := i + 1;
    }
  }

  /** The optimum is unique, so any other correct search returns this pair. */
  lemma {:induction false} OptimalPairUnique(cuts: seq<int>, a: int, b: int, c: int, d: int, first: int, n: int)
    requires OptimalPair(cuts, a, b, first, n) && OptimalPair(cuts, c, d, first, n)
    ensures a == c && b == d
  {
    var i, j :| 0 <= i < j < |cuts| && cuts[i] == a && cuts[j] == b;
    var p, q :| 0 <= p < q < |cuts| && cuts[p] == c && cuts[q] == d;
    assert SplitLeq(SplitAt(a, b, first, n), SplitAt(cuts[p], cuts[q], first, n));
    assert SplitLeq(SplitAt(c, d, first, n), SplitAt(cuts[i], cuts[j], first, n));
  }
}
