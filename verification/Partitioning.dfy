/** The whole-segment partition of a source range into train, validation and
    test: classification, intervals, legal cuts, the optimal pair and the part of
    every row (archive/datasets.py, DatasetStore.inspect). */
module Partitioning {
  import opened Common
  import opened Continuity
  import opened LegalCuts
  import opened CutSearch

  datatype Part = Unassigned | Train | Validation | Test

  function PartAt(boundary: Option<(int, int)>, p: int): Part {
    if boundary.None? then Unassigned
    else if p <= boundary.value.0 then Train
    else if p <= boundary.value.1 then Validation
    else Test
  }

  // ---------------------------------------------------------------- what may not be cut

  /** Cutting after c leaves two rows of one label on different sides. */
  ghost predicate CutsLabel<K>(labels: seq<K>, first: int, c: int) {
    exists i, j :: 0 <= i < |labels| && 0 <= j < |labels| && first + i <= c < first + j && labels[i] == labels[j]
  }

  function SegmentLabels(rows: seq<Row>): (labels: seq<Segment>)
    ensures |labels| == |rows|
  {
    if rows == [] then [] else SegmentLabels(rows[..|rows| - 1]) + [SegmentOf(rows[|rows| - 1])]
  }

  function ProcessLabels(rows: seq<Row>): (labels: seq<Process>)
    ensures |labels| == |rows|
  {
    if rows == [] then [] else ProcessLabels(rows[..|rows| - 1]) + [ProcessOf(rows[|rows| - 1])]
  }

  lemma {:induction false} LabelsMean(rows: seq<Row>, i: int)
    requires 0 <= i < |rows|
    ensures SegmentLabels(rows)[i] == SegmentOf(rows[i]) && ProcessLabels(rows)[i] == ProcessOf(rows[i])
  {
    if i < |rows| - 1 {
      LabelsMean(rows[..|rows| - 1], i);
    }
  }

  ghost predicate IncompleteProcess(rows: seq<Row>, p: Process) {
    || (forall i :: InProcess(rows, i, p) ==> !Starts(rows[i].kind))
    || (forall i :: InProcess(rows, i, p) ==> !Terminates(rows[i].kind))
    || (exists i, j :: InProcess(rows, i, p) && InProcess(rows, j, p) && SegmentOf(rows[i]) != SegmentOf(rows[j]))
  }

  /** Open, bad, or holding a row of a process not seen whole within one segment. */
  ghost predicate UncertainSegment(rows: seq<Row>, seg: Segment) {
    || !Closed(rows, |rows|, seg)
    || Bad(rows, |rows|, seg)
    || (exists i :: InSegment(rows, i, seg) && IncompleteProcess(rows, ProcessOf(rows[i])))
  }

  ghost predicate UncertainRow(rows: seq<Row>, i: int) {
    0 <= i < |rows| && UncertainSegment(rows, SegmentOf(rows[i]))
  }

  /** Some row at or before position p belongs to an uncertain segment. */
  ghost predicate UncertainBy(rows: seq<Row>, first: int, p: int) {
    exists i :: UncertainRow(rows, i) && first + i <= p
  }

  /** No segment, no process and no recorded dependency lies on both sides of c. */
  ghost predicate SplitsNothing(rows: seq<Row>, first: int, links: seq<Interval>, c: int) {
    && !CutsLabel(SegmentLabels(rows), first, c) && !CutsLabel(ProcessLabels(rows), first, c)
    && !Straddled(links, c)
  }

  ghost predicate LegalCut(rows: seq<Row>, first: int, links: seq<Interval>, c: int) {
    && first <= c < first + |rows| - 1
    && SplitsNothing(rows, first, links, c)
    && !UncertainBy(rows, first, c)
  }

  ghost predicate LinksInRange(links: seq<Interval>, first: int, n: int) {
    forall i :: 0 <= i < |links| ==> first <= links[i].first <= links[i].last < first + n
  }

  // ---------------------------------------------------------------- intervals of the dictionaries

  /** One interval for every dictionary key. */
  ghost predicate IntervalsOf<K(!new)>(ivs: seq<Interval>, keys: seq<K>, extent: map<K, Interval>) {
    |ivs| == |keys| && forall i :: 0 <= i < |keys| ==> keys[i] in extent && ivs[i] == extent[keys[i]]
  }

  function SegmentExtents(segments: map<Segment, SegmentState>): map<Segment, Interval> {
    map k | k in segments :: Interval(segments[k].first, segments[k].last)
  }

  function ProcessExtents(processes: map<Process, ProcessState>): map<Process, Interval> {
    map k | k in processes :: Interval(processes[k].first, processes[k].last)
  }

  method ListExtents<K(!new)>(keys: seq<K>, extent: map<K, Interval>) returns (ivs: seq<Interval>)
    requires forall k :: k in keys ==> k in extent
    ensures IntervalsOf(ivs, keys, extent)
  {
    ivs := [];
    var i := 0;
    while i < |keys|
      invariant 0 <= i <= |keys| && |ivs| == i
      invariant forall j :: 0 <= j < i ==> ivs[j] == extent[keys[j]]
    {
      ivs := ivs + [extent[keys[i]]];
      i := i + 1;
    }
  }

  lemma {:induction false} StraddledSum(a: seq<Interval>, b: seq<Interval>, c: int)
    ensures Straddled(a + b, c) <==> Straddled(a, c) || Straddled(b, c)
    ensures Covered(a, c) ==> Covered(a + b, c)
  {
    var t := a + b;
    if i :| 0 <= i < |a| && Splits(c, a[i]) { assert Splits(c, t[i]); }
    if i :| 0 <= i < |b| && Splits(c, b[i]) { assert Splits(c, t[|a| + i]); }
    if i :| 0 <= i < |a| && Contains(a[i], c) { assert Contains(t[i], c); }
    if i :| 0 <= i < |t| && Splits(c, t[i]) {
      if i < |a| { assert Splits(c, a[i]); } else { assert Splits(c, b[i - |a|]); }
    }
  }

  /** The interval of every label runs from its first row to its last. */
  ghost predicate Bounds<K(!new)>(labels: seq<K>, first: int, extent: map<K, Interval>) {
    && (forall i, k {:trigger EndsAt(labels, i, k)} :: EndsAt(labels, i, k) ==> k in extent && Contains(extent[k], first + i))
    && (forall k :: k in extent ==> EndsAt(labels, extent[k].first - first, k) && EndsAt(labels, extent[k].last - first, k))
    && (forall k :: k in extent ==> extent[k].first <= extent[k].last)
  }

  ghost predicate EndsAt<K>(labels: seq<K>, i: int, k: K) {
    0 <= i < |labels| && labels[i] == k
  }

  lemma {:induction false} SegmentExtent(rows: seq<Row>, first: int, k: Segment, st: SegmentState)
    requires SegmentAt(rows, |rows|, first, k) == Some(st)
    ensures EndsAt(SegmentLabels(rows), st.first - first, k) && EndsAt(SegmentLabels(rows), st.last - first, k)
    ensures st.first <= st.last
    ensures forall i :: EndsAt(SegmentLabels(rows), i, k) ==> st.first <= first + i <= st.last
  {
    ExtentMeans(rows, |rows|, first, k);
    assert InSegment(rows, st.first - first, k) && InSegment(rows, st.last - first, k);
    LabelsMean(rows, st.first - first);
    LabelsMean(rows, st.last - first);
    forall i | EndsAt(SegmentLabels(rows), i, k) ensures st.first <= first + i <= st.last {
      LabelsMean(rows, i);
      assert InSegment(rows, i, k);
    }
  }

  lemma {:induction false} ProcessExtent(rows: seq<Row>, first: int, k: Process, st: ProcessState)
    requires ProcessAt(rows, |rows|, first, k) == Some(st)
    ensures EndsAt(ProcessLabels(rows), st.first - first, k) && EndsAt(ProcessLabels(rows), st.last - first, k)
    ensures st.first <= st.last
    ensures forall i :: EndsAt(ProcessLabels(rows), i, k) ==> st.first <= first + i <= st.last
  {
    ProcessMeans(rows, |rows|, first, k);
    assert InProcess(rows, st.first - first, k) && InProcess(rows, st.last - first, k);
    LabelsMean(rows, st.first - first);
    LabelsMean(rows, st.last - first);
    forall i | EndsAt(ProcessLabels(rows), i, k) ensures st.first <= first + i <= st.last {
      LabelsMean(rows, i);
      assert InProcess(rows, i, k);
    }
  }

  lemma {:induction false} SegmentEnds(rows: seq<Row>, first: int, segments: map<Segment, SegmentState>, k: Segment)
    requires SegmentsAre(rows, |rows|, first, segments) && k in segments
    ensures EndsAt(SegmentLabels(rows), segments[k].first - first, k) && EndsAt(SegmentLabels(rows), segments[k].last - first, k)
    ensures segments[k].first <= segments[k].last
  {
    assert SegmentAt(rows, |rows|, first, k) == Some(segments[k]);
    SegmentExtent(rows, first, k, segments[k]);
  }

  lemma {:induction false} SegmentHolds(rows: seq<Row>, first: int, segments: map<Segment, SegmentState>, i: int, k: Segment)
    requires SegmentsAre(rows, |rows|, first, segments) && EndsAt(SegmentLabels(rows), i, k)
    ensures k in segments && segments[k].first <= first + i <= segments[k].last
  {
    LabelsMean(rows, i);
    SegmentPresent(rows, |rows|, first, i);
    assert SegmentAt(rows, |rows|, first, k) == Some(segments[k]);
    SegmentExtent(rows, first, k, segments[k]);
  }

  lemma {:induction false} SegmentBounds(rows: seq<Row>, first: int, segments: map<Segment, SegmentState>)
    requires SegmentsAre(rows, |rows|, first, segments)
    ensures Bounds(SegmentLabels(rows), first, SegmentExtents(segments))
  {
    var labels := SegmentLabels(rows);
    forall k | k in segments
      ensures EndsAt(labels, segments[k].first - first, k) && EndsAt(labels, segments[k].last - first, k) && segments[k].first <= segments[k].last
    {
      SegmentEnds(rows, first, segments, k);
    }
    forall i, k | EndsAt(labels, i, k) ensures k in segments && segments[k].first <= first + i <= segments[k].last {
      SegmentHolds(rows, first, segments, i, k);
    }
  }

  lemma {:induction false} ProcessEnds(rows: seq<Row>, first: int, processes: map<Process, ProcessState>, k: Process)
    requires ProcessesAre(rows, |rows|, first, processes) && k in processes
    ensures EndsAt(ProcessLabels(rows), processes[k].first - first, k) && EndsAt(ProcessLabels(rows), processes[k].last - first, k)
    ensures processes[k].first <= processes[k].last
  {
    assert ProcessAt(rows, |rows|, first, k) == Some(processes[k]);
    ProcessExtent(rows, first, k, processes[k]);
  }

  lemma {:induction false} ProcessHolds(rows: seq<Row>, first: int, processes: map<Process, ProcessState>, i: int, k: Process)
    requires ProcessesAre(rows, |rows|, first, processes) && EndsAt(ProcessLabels(rows), i, k)
    ensures k in processes && processes[k].first <= first + i <= processes[k].last
  {
    LabelsMean(rows, i);
    ProcessPresent(rows, |rows|, first, i);
    assert ProcessAt(rows, |rows|, first, k) == Some(processes[k]);
    ProcessExtent(rows, first, k, processes[k]);
  }

  lemma {:induction false} ProcessBounds(rows: seq<Row>, first: int, processes: map<Process, ProcessState>)
    requires ProcessesAre(rows, |rows|, first, processes)
    ensures Bounds(ProcessLabels(rows), first, ProcessExtents(processes))
  {
    var labels := ProcessLabels(rows);
    forall k | k in processes
      ensures EndsAt(labels, processes[k].first - first, k) && EndsAt(labels, processes[k].last - first, k) && processes[k].first <= processes[k].last
    {
      ProcessEnds(rows, first, processes, k);
    }
    forall i, k | EndsAt(labels, i, k) ensures k in processes && processes[k].first <= first + i <= processes[k].last {
      ProcessHolds(rows, first, processes, i, k);
    }
  }

  lemma {:induction false} IntervalOfLabel<K(!new)>(labels: seq<K>, first: int, extent: map<K, Interval>, keys: seq<K>, ivs: seq<Interval>, i: int)
    returns (m: int)
    requires Bounds(labels, first, extent) && KeysRight(keys, extent.Keys) && IntervalsOf(ivs, keys, extent)
    requires 0 <= i < |labels|
    ensures 0 <= m < |ivs| && labels[i] in extent && ivs[m] == extent[labels[i]]
  {
    assert EndsAt(labels, i, labels[i]);
    assert labels[i] in extent.Keys;
    m :| 0 <= m < |keys| && keys[m] == labels[i];
  }

  lemma {:induction false} LabelSpan<K(!new)>(labels: seq<K>, first: int, extent: map<K, Interval>, keys: seq<K>, ivs: seq<Interval>)
    requires Bounds(labels, first, extent) && KeysRight(keys, extent.Keys) && IntervalsOf(ivs, keys, extent)
    ensures Spans(ivs, first, first + |labels| - 1)
  {
    forall i | 0 <= i < |ivs| ensures first <= ivs[i].first <= ivs[i].last <= first + |labels| - 1 {
      assert EndsAt(labels, extent[keys[i]].first - first, keys[i]) && EndsAt(labels, extent[keys[i]].last - first, keys[i]);
    }
    forall p | first <= p <= first + |labels| - 1 ensures Covered(ivs, p) {
      var m := IntervalOfLabel(labels, first, extent, keys, ivs, p - first);
      assert EndsAt(labels, p - first, labels[p - first]);
    }
  }

  /** The intervals of the labels are straddled exactly when two equally labelled rows are separated. */
  lemma {:induction false} LabelStraddled<K(!new)>(labels: seq<K>, first: int, extent: map<K, Interval>, keys: seq<K>, ivs: seq<Interval>, c: int)
    requires Bounds(labels, first, extent) && KeysRight(keys, extent.Keys) && IntervalsOf(ivs, keys, extent)
    ensures Straddled(ivs, c) <==> CutsLabel(labels, first, c)
  {
    if Straddled(ivs, c) {
      var m :| 0 <= m < |ivs| && Splits(c, ivs[m]);
      var k := keys[m];
      assert EndsAt(labels, extent[k].first - first, k) && EndsAt(labels, extent[k].last - first, k);
    }
    if i, j :| 0 <= i < |labels| && 0 <= j < |labels| && first + i <= c < first + j && labels[i] == labels[j] {
      var m := IntervalOfLabel(labels, first, extent, keys, ivs, i);
      assert EndsAt(labels, i, labels[i]) && EndsAt(labels, j, labels[i]);
      assert Splits(c, ivs[m]);
    }
  }

  // ---------------------------------------------------------------- the first uncertain row

  predicate IncompleteState(st: ProcessState) {
    !st.start || !st.terminal || |st.segments| != 1
  }

  lemma {:induction false} SingleSegment(segs: set<Segment>, g: Segment)
    requires g in segs
    ensures |segs| == 1 <==> forall h :: h in segs ==> h == g
  {
    var rest := segs - {g};
    assert segs == rest + {g} && |segs| == |rest| + 1;
    if |segs| == 1 {
      assert rest == {};
      forall h | h in segs ensures h == g { assert h !in rest; }
    } else {
      var h :| h in rest;
    }
  }

  lemma {:induction false} IncompleteMeans(rows: seq<Row>, first: int, p: Process, st: ProcessState)
    requires ProcessAt(rows, |rows|, first, p) == Some(st)
    ensures IncompleteState(st) <==> IncompleteProcess(rows, p)
  {
    ProcessMeans(rows, |rows|, first, p);
    var f := st.first - first;
    assert InProcess(rows, f, p);
    SingleSegment(st.segments, SegmentOf(rows[f]));
    if i, j :| InProcess(rows, i, p) && InProcess(rows, j, p) && SegmentOf(rows[i]) != SegmentOf(rows[j]) {
      assert SegmentOf(rows[i]) in st.segments && SegmentOf(rows[j]) in st.segments;
    }
    if g :| g in st.segments && g != SegmentOf(rows[f]) {
      var i :| InProcess(rows, i, p) && i < |rows| && SegmentOf(rows[i]) == g;
    }
  }

  predicate UncertainState(st: SegmentState, processes: map<Process, ProcessState>) {
    !st.closed || st.bad || exists p :: p in st.processes && p in processes && IncompleteState(processes[p])
  }

  lemma {:induction false} UncertainMeans(rows: seq<Row>, first: int, k: Segment, st: SegmentState, processes: map<Process, ProcessState>)
    requires SegmentAt(rows, |rows|, first, k) == Some(st) && ProcessesAre(rows, |rows|, first, processes)
    ensures UncertainState(st, processes) <==> UncertainSegment(rows, k)
  {
    ClosedMeans(rows, |rows|, first, k);
    BadMeans(rows, |rows|, first, k);
    IncompleteWithin(rows, first, k, st, processes);
  }

  lemma {:induction false} IncompleteWithin(rows: seq<Row>, first: int, k: Segment, st: SegmentState, processes: map<Process, ProcessState>)
    requires SegmentAt(rows, |rows|, first, k) == Some(st) && ProcessesAre(rows, |rows|, first, processes)
    ensures (exists p :: p in st.processes && p in processes && IncompleteState(processes[p])) <==>
      (exists i :: InSegment(rows, i, k) && IncompleteProcess(rows, ProcessOf(rows[i])))
  {
    ExtentMeans(rows, |rows|, first, k);
    if p :| p in st.processes && p in processes && IncompleteState(processes[p]) {
      var i :| InSegment(rows, i, k) && i < |rows| && ProcessOf(rows[i]) == p;
      IncompleteMeans(rows, first, p, processes[p]);
    }
    if i :| InSegment(rows, i, k) && IncompleteProcess(rows, ProcessOf(rows[i])) {
      var p := ProcessOf(rows[i]);
      ProcessPresent(rows, |rows|, first, i);
      IncompleteMeans(rows, first, p, processes[p]);
      assert p in st.processes;
    }
  }

  /** u is the least start among the marked keys, or the default. */
  ghost predicate LeastStart<K(!new)>(keys: seq<K>, extent: map<K, Interval>, marked: set<K>, default: int, u: int) {
    && u <= default
    && (u < default ==> exists k :: k in keys && k in marked && k in extent && extent[k].first == u)
    && (forall k :: k in keys && k in marked && k in extent ==> u <= extent[k].first)
  }

  method FirstMarked<K(!new, ==)>(keys: seq<K>, extent: map<K, Interval>, marked: set<K>, default: int) returns (u: int)
    requires forall k :: k in keys ==> k in extent
    ensures LeastStart(keys, extent, marked, default, u)
  {
    u := default;
    var i := 0;
    while i < |keys|
      invariant 0 <= i <= |keys|
      invariant LeastStart(keys[..i], extent, marked, default, u)
    {
      assert keys[..i + 1] == keys[..i] + [keys[i]];
      if keys[i] in marked && extent[keys[i]].first < u {
        u := extent[keys[i]].first;
      }
      i := i + 1;
    }
    assert keys[..i] == keys;
  }

  /** What the classification leaves for the cut search: the interval and the
      certainty of every segment, and the interval of every process. */
  method Survey(rows: seq<Row>, first: int)
    returns (segments: map<Segment, Interval>, segmentKeys: seq<Segment>, uncertain: set<Segment>,
             processes: map<Process, Interval>, processKeys: seq<Process>)
    ensures Bounds(SegmentLabels(rows), first, segments) && KeysRight(segmentKeys, segments.Keys)
    ensures Bounds(ProcessLabels(rows), first, processes) && KeysRight(processKeys, processes.Keys)
    ensures forall k :: k in segments ==> (k in uncertain <==> UncertainSegment(rows, k))
  {
    var segs, procs;
    segs, segmentKeys, procs, processKeys := Classify(rows, first);
    segments, processes := SegmentExtents(segs), ProcessExtents(procs);
    uncertain := set k | k in segs && UncertainState(segs[k], procs);
    SegmentBounds(rows, first, segs);
    ProcessBounds(rows, first, procs);
    assert segments.Keys == segs.Keys && processes.Keys == procs.Keys;
    forall k | k in segments ensures k in uncertain <==> UncertainSegment(rows, k) {
      UncertainMeans(rows, first, k, segs[k], procs);
    }
  }

  lemma {:induction false} UncertainFrom(rows: seq<Row>, first: int, extent: map<Segment, Interval>, keys: seq<Segment>, marked: set<Segment>, u: int, p: int)
    requires Bounds(SegmentLabels(rows), first, extent)
    requires forall k :: k in extent && k in marked ==> UncertainSegment(rows, k)
    requires LeastStart(keys, extent, marked, first + |rows|, u) && u <= p < first + |rows|
    ensures UncertainBy(rows, first, p)
  {
    var k :| k in keys && k in marked && k in extent && extent[k].first == u;
    StartIsUncertain(rows, first, extent, k);
  }

  lemma {:induction false} StartIsUncertain(rows: seq<Row>, first: int, extent: map<Segment, Interval>, k: Segment)
    requires Bounds(SegmentLabels(rows), first, extent) && k in extent && UncertainSegment(rows, k)
    ensures UncertainRow(rows, extent[k].first - first)
  {
    var labels, i := SegmentLabels(rows), extent[k].first - first;
    BoundStart(labels, first, extent, k);
    LabelsMean(rows, i);
  }

  lemma {:induction false} BoundStart<K(!new)>(labels: seq<K>, first: int, extent: map<K, Interval>, k: K)
    requires Bounds(labels, first, extent) && k in extent
    ensures var i := extent[k].first - first; 0 <= i < |labels| && labels[i] == k
  {
    assert EndsAt(labels, extent[k].first - first, k);
  }

  lemma {:induction false} UncertainTo(rows: seq<Row>, first: int, extent: map<Segment, Interval>, keys: seq<Segment>, marked: set<Segment>, u: int, i: int)
    requires Bounds(SegmentLabels(rows), first, extent) && KeysRight(keys, extent.Keys)
    requires LeastStart(keys, extent, marked, first + |rows|, u)
    requires 0 <= i < |rows| && SegmentOf(rows[i]) in marked
    ensures u <= first + i
  {
    LabelsMean(rows, i);
    assert EndsAt(SegmentLabels(rows), i, SegmentOf(rows[i]));
    assert SegmentOf(rows[i]) in extent.Keys;
  }

  lemma {:induction false} FirstUncertain(rows: seq<Row>, first: int, extent: map<Segment, Interval>, keys: seq<Segment>, marked: set<Segment>, u: int, p: int)
    requires Bounds(SegmentLabels(rows), first, extent) && KeysRight(keys, extent.Keys)
    requires forall k :: k in extent ==> (k in marked <==> UncertainSegment(rows, k))
    requires LeastStart(keys, extent, marked, first + |rows|, u) && p < first + |rows|
    ensures UncertainBy(rows, first, p) <==> u <= p
  {
    if u <= p {
      UncertainFrom(rows, first, extent, keys, marked, u, p);
    } else if UncertainBy(rows, first, p) {
      var i :| UncertainRow(rows, i) && first + i <= p;
      LabelsMean(rows, i);
      assert EndsAt(SegmentLabels(rows), i, SegmentOf(rows[i]));
      UncertainTo(rows, first, extent, keys, marked, u, i);
    }
  }

  // ---------------------------------------------------------------- the partition

  /** The two boundaries and the legal cuts they were chosen from. */
  method Partition(rows: seq<Row>, first: int, links: seq<Interval>)
    returns (boundary: Option<(int, int)>, cuts: seq<int>)
    requires LinksInRange(links, first, |rows|)
    ensures forall c :: c in cuts <==> LegalCut(rows, first, links, c)
    ensures forall i, j :: 0 <= i < j < |cuts| ==> cuts[i] < cuts[j]
    ensures boundary.None? <==> |cuts| < 2
    ensures boundary.Some? ==> OptimalPair(cuts, boundary.value.0, boundary.value.1, first, |rows|)
  {
    var segments, segmentKeys, uncertain, processes, processKeys := Survey(rows, first);
    var intervals := ListExtents(segmentKeys, segments);
    var processIntervals := ListExtents(processKeys, processes);
    var u := FirstMarked(segmentKeys, segments, uncertain, first + |rows|);
    LabelSpan(SegmentLabels(rows), first, segments, segmentKeys, intervals);
    LabelSpan(ProcessLabels(rows), first, processes, processKeys, processIntervals);
    AllIntervals(intervals, processIntervals, links, first, first + |rows| - 1);
    cuts := FindCuts(intervals + processIntervals + links, u, first, first + |rows| - 1);
    forall c ensures c in cuts <==> LegalCut(rows, first, links, c) {
      LabelStraddled(SegmentLabels(rows), first, segments, segmentKeys, intervals, c);
      LabelStraddled(ProcessLabels(rows), first, processes, processKeys, processIntervals, c);
      if c < first + |rows| {
        FirstUncertain(rows, first, segments, segmentKeys, uncertain, u, c);
      }
    }
    boundary := FindBoundary(cuts, first, |rows|);
  }

  lemma {:induction false} AllIntervals(a: seq<Interval>, b: seq<Interval>, d: seq<Interval>, first: int, last: int)
    requires Spans(a, first, last) && Within(b, first, last) && Within(d, first, last)
    ensures Spans(a + b + d, first, last)
    ensures forall c :: Straddled(a + b + d, c) <==> Straddled(a, c) || Straddled(b, c) || Straddled(d, c)
  {
    forall c ensures Straddled(a + b + d, c) <==> Straddled(a, c) || Straddled(b, c) || Straddled(d, c) {
      StraddledSum(a, b, c);
      StraddledSum(a + b, d, c);
    }
    forall p | first <= p <= last ensures Covered(a + b + d, p) {
      assert Covered(a, p);
      StraddledSum(a, b, p);
      StraddledSum(a + b, d, p);
    }
  }

  /** Both boundaries are legal cuts, so the three parts are non-empty. */
  lemma {:induction false} PartsNonEmpty(rows: seq<Row>, first: int, links: seq<Interval>, cuts: seq<int>, a: int, b: int)
    requires forall c :: c in cuts <==> LegalCut(rows, first, links, c)
    requires forall i, j :: 0 <= i < j < |cuts| ==> cuts[i] < cuts[j]
    requires IsCutPair(cuts, a, b)
    ensures LegalCut(rows, first, links, a) && LegalCut(rows, first, links, b) && a < b
    ensures PartAt(Some((a, b)), first) == Train
    ensures PartAt(Some((a, b)), b) == Validation
    ensures PartAt(Some((a, b)), first + |rows| - 1) == Test
  {
    var i, j :| 0 <= i < j < |cuts| && cuts[i] == a && cuts[j] == b;
    assert a in cuts && b in cuts;
  }

  /** Rows of the range in this part. */
  function InPart(boundary: Option<(int, int)>, first: int, n: nat, part: Part): nat {
    if n == 0 then 0 else InPart(boundary, first, n - 1, part) + (if PartAt(boundary, first + n - 1) == part then 1 else 0)
  }

  /** How far the parts are from eight tenths for train and nine tenths for train and
      validation together, in tenths of a row. */
  function Uneven(boundary: (int, int), first: int, n: nat): nat {
    var train, validation := InPart(Some(boundary), first, n, Train), InPart(Some(boundary), first, n, Validation);
    Abs(10 * train - 8 * n) + Abs(10 * (train + validation) - 9 * n)
  }

  lemma {:induction false} PartCounts(a: int, b: int, first: int, n: nat)
    requires first - 1 <= a <= b
    ensures InPart(Some((a, b)), first, n, Train) == Min(n, a - first + 1)
    ensures InPart(Some((a, b)), first, n, Train) + InPart(Some((a, b)), first, n, Validation) == Min(n, b - first + 1)
  {
    if n > 0 {
      PartCounts(a, b, first, n - 1);
    }
  }

  lemma {:induction false} UnevenIs(a: int, b: int, first: int, n: nat)
    requires first <= a < b < first + n
    ensures SplitAt(a, b, first, n) == Split(Uneven((a, b), first, n), a, b)
  {
    PartCounts(a, b, first, n);
  }

  lemma {:induction false} CutIndices(cuts: seq<int>, x: int, y: int) returns (i: nat, j: nat)
    requires forall i, j :: 0 <= i < j < |cuts| ==> cuts[i] < cuts[j]
    requires x in cuts && y in cuts && x < y
    ensures i < j < |cuts| && cuts[i] == x && cuts[j] == y
  {
    i :| 0 <= i < |cuts| && cuts[i] == x;
    j :| 0 <= j < |cuts| && cuts[j] == y;
  }

  lemma {:induction false} LeastOfCuts(cuts: seq<int>, a: int, b: int, x: int, y: int, first: int, n: nat)
    requires forall i, j :: 0 <= i < j < |cuts| ==> cuts[i] < cuts[j]
    requires OptimalPair(cuts, a, b, first, n) && first <= a < b < first + n
    requires x in cuts && y in cuts && first <= x < y < first + n
    ensures var best, other := Uneven((a, b), first, n), Uneven((x, y), first, n);
      best < other || (best == other && (a < x || (a == x && b <= y)))
  {
    UnevenIs(a, b, first, n);
    UnevenIs(x, y, first, n);
    var i, j := CutIndices(cuts, x, y);
    assert SplitLeq(SplitAt(a, b, first, n), SplitAt(cuts[i], cuts[j], first, n));
  }

  /** The boundary chosen is, of all pairs of legal cuts, the one whose parts are the least
      uneven; of equally uneven ones it has the earlier first cut, then the earlier second. */
  lemma {:induction false} LeastUneven(rows: seq<Row>, first: int, links: seq<Interval>, cuts: seq<int>, a: int, b: int, x: int, y: int)
    requires forall c :: c in cuts <==> LegalCut(rows, first, links, c)
    requires forall i, j :: 0 <= i < j < |cuts| ==> cuts[i] < cuts[j]
    requires OptimalPair(cuts, a, b, first, |rows|)
    requires LegalCut(rows, first, links, x) && LegalCut(rows, first, links, y) && x < y
    ensures var best, other := Uneven((a, b), first, |rows|), Uneven((x, y), first, |rows|);
      best < other || (best == other && (a < x || (a == x && b <= y)))
  {
    PartsNonEmpty(rows, first, links, cuts, a, b);
    LeastOfCuts(cuts, a, b, x, y, first, |rows|);
  }

  ghost predicate Joined(rows: seq<Row>, first: int, links: seq<Interval>, i: int, j: int)
    requires 0 <= i < |rows| && 0 <= j < |rows|
  {
    || SegmentOf(rows[i]) == SegmentOf(rows[j])
    || ProcessOf(rows[i]) == ProcessOf(rows[j])
    || Interval(first + i, first + j) in links
  }

  lemma {:induction false} OneSide(rows: seq<Row>, first: int, links: seq<Interval>, c: int, i: int, j: int)
    requires SplitsNothing(rows, first, links, c) && 0 <= i <= j < |rows| && Joined(rows, first, links, i, j)
    ensures first + i <= c <==> first + j <= c
  {
    LabelsMean(rows, i);
    LabelsMean(rows, j);
    if Interval(first + i, first + j) in links {
      var m :| 0 <= m < |links| && links[m] == Interval(first + i, first + j);
      assert !Splits(c, links[m]);
    } else if SegmentOf(rows[i]) == SegmentOf(rows[j]) {
      assert SegmentLabels(rows)[i] == SegmentLabels(rows)[j];
    } else {
      assert ProcessLabels(rows)[i] == ProcessLabels(rows)[j];
    }
  }

  /** Two rows joined by a segment, a process or a recorded dependency always
      fall in one part. */
  lemma {:induction false} NothingSplit(rows: seq<Row>, first: int, links: seq<Interval>, a: int, b: int, i: int, j: int)
    requires LegalCut(rows, first, links, a) && LegalCut(rows, first, links, b)
    requires 0 <= i <= j < |rows| && Joined(rows, first, links, i, j)
    ensures PartAt(Some((a, b)), first + i) == PartAt(Some((a, b)), first + j)
  {
    OneSide(rows, first, links, a, i, j);
    OneSide(rows, first, links, b, i, j);
  }

  /** Every row of an open, bad or incompletely observed segment is a test row. */
  lemma {:induction false} UncertainIsTest(rows: seq<Row>, first: int, links: seq<Interval>, a: int, b: int, i: int)
    requires LegalCut(rows, first, links, a) && LegalCut(rows, first, links, b) && a < b
    requires UncertainRow(rows, i)
    ensures PartAt(Some((a, b)), first + i) == Test
  {}
}
