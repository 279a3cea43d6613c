/** Where the source range may be cut: the interval merge and the filter by the
    first uncertain row (archive/datasets.py, DatasetStore.inspect). An interval
    is the closed range of durable sequences that one segment, one process or one
    recorded dependency spans; a cut c puts c on its left and c + 1 on its right. */
module LegalCuts {
  import opened Common
  import opened Sorting

  datatype Interval = Interval(first: int, last: int)

  predicate IntervalLeq(x: Interval, y: Interval) {
    x.first < y.first || (x.first == y.first && x.last <= y.last)
  }

  predicate Contains(iv: Interval, p: int) {
    iv.first <= p <= iv.last
  }

  predicate Splits(c: int, iv: Interval) {
    iv.first <= c < iv.last
  }

  ghost predicate Covered(ivs: seq<Interval>, p: int) {
    exists i :: 0 <= i < |ivs| && Contains(ivs[i], p)
  }

  /** Cutting after c would separate two positions of one interval. */
  ghost predicate Straddled(ivs: seq<Interval>, c: int) {
    exists i :: 0 <= i < |ivs| && Splits(c, ivs[i])
  }

  ghost predicate Within(ivs: seq<Interval>, first: int, last: int) {
    forall i :: 0 <= i < |ivs| ==> first <= ivs[i].first <= ivs[i].last <= last
  }

  ghost predicate SortedStarts(ivs: seq<Interval>) {
    forall i, j :: 0 <= i < j < |ivs| ==> ivs[i].first <= ivs[j].first
  }

  ghost predicate StartsBy(merged: seq<Interval>, p: int) {
    merged != [] ==> merged[|merged| - 1].first <= p
  }

  /** The intervals lie in [first, last] and together leave no position out. */
  ghost predicate Spans(ivs: seq<Interval>, first: int, last: int) {
    && Within(ivs, first, last)
    && (forall p :: first <= p <= last ==> Covered(ivs, p))
  }

  ghost predicate Separated(ivs: seq<Interval>) {
    && (forall i :: 0 <= i < |ivs| ==> ivs[i].first <= ivs[i].last)
    && (forall i, j :: 0 <= i < j < |ivs| ==> ivs[i].last < ivs[j].first)
  }

  /** Consecutive blocks without gap or overlap, from first to last. */
  ghost predicate Tiles(ivs: seq<Interval>, first: int, last: int) {
    && Separated(ivs)
    && (ivs == [] <==> first > last)
    && (ivs != [] ==> ivs[0].first == first && ivs[|ivs| - 1].last == last)
    && (forall i :: 0 <= i < |ivs| - 1 ==> ivs[i + 1].first == ivs[i].last + 1)
  }

  ghost predicate SameRanges(a: seq<Interval>, b: seq<Interval>) {
    forall p :: (Covered(a, p) <==> Covered(b, p)) && (Straddled(a, p) <==> Straddled(b, p))
  }

  lemma {:induction false} OrderIsTotal()
    ensures TotalOrder(IntervalLeq)
  {}

  /** Whether a set of positions is reached does not depend on the order of the list. */
  lemma {:induction false} SameElementsSameRanges(a: seq<Interval>, b: seq<Interval>)
    requires multiset(a) == multiset(b)
    ensures SameRanges(a, b)
  {
    forall x ensures x in a <==> x in b {
      assert x in multiset(a) <==> x in multiset(b);
    }
    forall p ensures (Covered(a, p) <==> Covered(b, p)) && (Straddled(a, p) <==> Straddled(b, p)) {
      OneWay(a, b, p);
      OneWay(b, a, p);
    }
  }

  lemma {:induction false} OneWay(a: seq<Interval>, b: seq<Interval>, p: int)
    requires forall x :: x in a ==> x in b
    ensures Covered(a, p) ==> Covered(b, p)
    ensures Straddled(a, p) ==> Straddled(b, p)
  {
    if Covered(a, p) {
      var i :| 0 <= i < |a| && Contains(a[i], p);
      assert a[i] in b;
    }
    if Straddled(a, p) {
      var i :| 0 <= i < |a| && Splits(p, a[i]);
      assert a[i] in b;
    }
  }

  lemma {:induction false} Appended(ivs: seq<Interval>, x: Interval, p: int)
    ensures Covered(ivs + [x], p) <==> Covered(ivs, p) || Contains(x, p)
    ensures Straddled(ivs + [x], p) <==> Straddled(ivs, p) || Splits(p, x)
  {
    var t := ivs + [x];
    assert t[|ivs|] == x;
    if Covered(ivs, p) {
      var i :| 0 <= i < |ivs| && Contains(ivs[i], p);
      assert Contains(t[i], p);
    }
    if Straddled(ivs, p) {
      var i :| 0 <= i < |ivs| && Splits(p, ivs[i]);
      assert Splits(p, t[i]);
    }
  }

  /** Extending the last block by an interval that begins inside it. */
  lemma {:induction false} Absorbed(ivs: seq<Interval>, x: Interval, p: int)
    requires ivs != [] && x.first <= x.last
    requires ivs[|ivs| - 1].first <= x.first <= ivs[|ivs| - 1].last
    ensures var top := ivs[|ivs| - 1];
            var grown := ivs[..|ivs| - 1] + [Interval(top.first, Max(x.last, top.last))];
            && (Covered(grown, p) <==> Covered(ivs, p) || Contains(x, p))
            && (Straddled(grown, p) <==> Straddled(ivs, p) || Splits(p, x))
  {
    var top := ivs[|ivs| - 1];
    var rest := ivs[..|ivs| - 1];
    assert ivs == rest + [top];
    Appended(rest, top, p);
    Appended(rest, Interval(top.first, Max(x.last, top.last)), p);
  }

  /** What one sorted interval does to the blocks built so far. */
  function Joined(merged: seq<Interval>, x: Interval): seq<Interval> {
    if merged != [] && x.first <= merged[|merged| - 1].last then
      var top := merged[|merged| - 1];
      merged[..|merged| - 1] + [Interval(top.first, Max(x.last, top.last))]
    else
      merged + [x]
  }

  lemma {:induction false} JoinedRanges(done: seq<Interval>, merged: seq<Interval>, x: Interval)
    requires SameRanges(done, merged) && x.first <= x.last
    requires StartsBy(merged, x.first)
    ensures SameRanges(done + [x], Joined(merged, x))
  {
    forall p ensures (Covered(done + [x], p) <==> Covered(Joined(merged, x), p))
                  && (Straddled(done + [x], p) <==> Straddled(Joined(merged, x), p)) {
      Appended(done, x, p);
      if merged != [] && x.first <= merged[|merged| - 1].last {
        Absorbed(merged, x, p);
      } else {
        Appended(merged, x, p);
      }
    }
  }

  lemma {:induction false} SortedSpan(intervals: seq<Interval>, first: int, last: int) returns (sorted: seq<Interval>)
    requires Spans(intervals, first, last)
    ensures sorted == Sort(intervals, IntervalLeq)
    ensures SortedStarts(sorted) && Within(sorted, first, last)
    ensures SameRanges(intervals, sorted)
  {
    sorted := Sort(intervals, IntervalLeq);
    OrderIsTotal();
    SortSorted(intervals, IntervalLeq);
    SameElementsSameRanges(intervals, sorted);
    forall i | 0 <= i < |sorted| ensures first <= sorted[i].first <= sorted[i].last <= last {
      assert sorted[i] in multiset(intervals);
    }
    forall i, j | 0 <= i < j < |sorted| ensures sorted[i].first <= sorted[j].first {
      assert IntervalLeq(sorted[i], sorted[j]);
    }
  }

  function MergedOf(sorted: seq<Interval>): seq<Interval> {
    if sorted == [] then [] else Joined(MergedOf(sorted[..|sorted| - 1]), sorted[|sorted| - 1])
  }

  lemma {:induction false} JoinedShape(merged: seq<Interval>, x: Interval, first: int, last: int)
    requires Separated(merged) && Within(merged, first, last) && StartsBy(merged, x.first)
    requires first <= x.first <= x.last <= last
    ensures Separated(Joined(merged, x)) && Within(Joined(merged, x), first, last)
    ensures Joined(merged, x) != [] && StartsBy(Joined(merged, x), x.first)
  {}

  lemma {:induction false} MergedOfShape(sorted: seq<Interval>, first: int, last: int)
    requires SortedStarts(sorted) && Within(sorted, first, last)
    ensures Separated(MergedOf(sorted)) && Within(MergedOf(sorted), first, last)
    ensures sorted != [] ==> StartsBy(MergedOf(sorted), sorted[|sorted| - 1].first)
    ensures sorted == [] ==> MergedOf(sorted) == []
  {
    if sorted != [] {
      var done, x := sorted[..|sorted| - 1], sorted[|sorted| - 1];
      MergedOfShape(done, first, last);
      JoinedShape(MergedOf(done), x, first, last);
    }
  }

  lemma {:induction false} MergedOfRanges(sorted: seq<Interval>, first: int, last: int)
    requires SortedStarts(sorted) && Within(sorted, first, last)
    ensures SameRanges(sorted, MergedOf(sorted))
  {
    if sorted != [] {
      var done, x := sorted[..|sorted| - 1], sorted[|sorted| - 1];
      MergedOfRanges(done, first, last);
      MergedOfShape(done, first, last);
      assert StartsBy(MergedOf(done), x.first);
      JoinedRanges(done, MergedOf(done), x);
      assert sorted == done + [x];
    }
  }

  /** The one-pass merge of the sorted intervals. */
  method Merge(intervals: seq<Interval>, ghost first: int, ghost last: int) returns (merged: seq<Interval>)
    requires Spans(intervals, first, last)
    ensures SameRanges(intervals, merged)
    ensures Tiles(merged, first, last)
  {
    var sorted := Sort(intervals, IntervalLeq);
    merged := [];
    var k := 0;
    while k < |sorted|
      invariant 0 <= k <= |sorted|
      invariant merged == MergedOf(sorted[..k])
    {
      var x := sorted[k];
      assert sorted[..k + 1][..k] == sorted[..k];
      if merged != [] && x.first <= merged[|merged| - 1].last {
        var top := merged[|merged| - 1];
        merged := merged[..|merged| - 1] + [Interval(top.first, Max(x.last, top.last))];
      } else {
        merged := merged + [x];
      }
      k := k + 1;
    }
    assert sorted[..k] == sorted;
    MergeSound(intervals, first, last);
  }

  lemma {:induction false} MergeSound(intervals: seq<Interval>, first: int, last: int)
    requires Spans(intervals, first, last)
    ensures SameRanges(intervals, MergedOf(Sort(intervals, IntervalLeq)))
    ensures Tiles(MergedOf(Sort(intervals, IntervalLeq)), first, last)
  {
    var sorted := SortedSpan(intervals, first, last);
    MergedOfShape(sorted, first, last);
    MergedOfRanges(sorted, first, last);
    SameRangesChain(intervals, sorted, MergedOf(sorted));
    SpansCarries(intervals, MergedOf(sorted), first, last);
    SeparatedCoverTiles(MergedOf(sorted), first, last);
  }

  lemma {:induction false} SameRangesChain(a: seq<Interval>, b: seq<Interval>, c: seq<Interval>)
    requires SameRanges(a, b) && SameRanges(b, c)
    ensures SameRanges(a, c)
  {
    forall p ensures (Covered(a, p) <==> Covered(c, p)) && (Straddled(a, p) <==> Straddled(c, p)) {
      assert (Covered(a, p) <==> Covered(b, p)) && (Straddled(a, p) <==> Straddled(b, p));
    }
  }

  lemma {:induction false} SpansCarries(intervals: seq<Interval>, merged: seq<Interval>, first: int, last: int)
    requires Spans(intervals, first, last) && SameRanges(intervals, merged) && Separated(merged)
    requires Within(merged, first, last)
    ensures Spans(merged, first, last)
  {
    forall p | first <= p <= last ensures Covered(merged, p) {
      assert Covered(intervals, p);
    }
  }

  lemma {:induction false} BlockOrder(ivs: seq<Interval>, i: int, j: int)
    requires Separated(ivs) && 0 <= i < |ivs| && 0 <= j < |ivs|
    requires ivs[j].first <= ivs[i].last
    ensures j <= i
  {}

  /** Separated blocks that reach every position of the range leave no gap. */
  lemma {:induction false} SeparatedCoverTiles(merged: seq<Interval>, first: int, last: int)
    requires Separated(merged) && Spans(merged, first, last)
    ensures Tiles(merged, first, last)
  {
    assert merged != [] ==> Contains(merged[0], merged[0].first);
    if first <= last {
      assert Covered(merged, first) && Covered(merged, last);
      var i :| 0 <= i < |merged| && Contains(merged[i], first);
      var j :| 0 <= j < |merged| && Contains(merged[j], last);
      BlockOrder(merged, 0, i);
      BlockOrder(merged, j, |merged| - 1);
    }
    forall m | 0 <= m < |merged| - 1 ensures merged[m + 1].first == merged[m].last + 1 {
      assert merged[m].last < merged[m + 1].first;
      assert Covered(merged, merged[m].last + 1);
      var i :| 0 <= i < |merged| && Contains(merged[i], merged[m].last + 1);
      BlockOrder(merged, i, m);
      BlockOrder(merged, m + 1, i);
    }
  }

  /** The legal cuts are exactly the positions of the range, before the first
      uncertain row, that split no interval, in increasing order. */
  method FindCuts(intervals: seq<Interval>, uncertainFirst: int, ghost first: int, ghost last: int)
    returns (cuts: seq<int>)
    requires Spans(intervals, first, last)
    ensures forall i, j :: 0 <= i < j < |cuts| ==> cuts[i] < cuts[j]
    ensures forall c :: c in cuts <==> first <= c < last && c < uncertainFirst && !Straddled(intervals, c)
  {
    var merged := Merge(intervals, first, last);
    cuts := [];
    var k := 0;
    while k < |merged| - 1
      invariant 0 <= k <= Max(0, |merged| - 1)
      invariant forall i, j :: 0 <= i < j < |cuts| ==> cuts[i] < cuts[j]
      invariant forall i :: 0 <= i < |cuts| ==> exists m :: 0 <= m < k && cuts[i] == merged[m].last && cuts[i] < uncertainFirst
      invariant forall m :: 0 <= m < k && merged[m].last < uncertainFirst ==> merged[m].last in cuts
    {
      if merged[k].last < uncertainFirst {
        cuts := cuts + [merged[k].last];
      }
      k := k + 1;
    }
    forall c ensures c in cuts <==> first <= c < last && c < uncertainFirst && !Straddled(intervals, c) {
      CutIffBlockEnd(merged, first, last, c);
      assert Straddled(intervals, c) <==> Straddled(merged, c);
    }
  }

  lemma {:induction false} CutIffBlockEnd(merged: seq<Interval>, first: int, last: int, c: int)
    requires Tiles(merged, first, last)
    requires forall p :: first <= p <= last ==> Covered(merged, p)
    ensures (first <= c < last && !Straddled(merged, c))
       <==> (exists m :: 0 <= m < |merged| - 1 && merged[m].last == c)
  {
    if first <= c < last && !Straddled(merged, c) {
      assert Covered(merged, c);
      var m :| 0 <= m < |merged| && Contains(merged[m], c);
      assert !Splits(c, merged[m]);
    }
    if m :| 0 <= m < |merged| - 1 && merged[m].last == c {
      assert merged[0].first <= merged[m].first by {
        if 0 < m { assert merged[0].last < merged[m].first; }
      }
      forall i | 0 <= i < |merged| ensures !Splits(c, merged[i]) {
        if i < m { assert merged[i].last < merged[m].first; }
        if m < i { assert merged[m].last < merged[i].first; }
      }
      assert merged[m].last < merged[|merged| - 1].first;
    }
  }
}
