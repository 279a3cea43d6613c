/** The one-pass continuity classifier over the rows of a source range: when a
    segment counts as closed and when as bad (archive/datasets.py,
    DatasetStore.inspect). Row i of the range has durable sequence first + i. */
module Continuity {
  import opened Common

  /** Opaque identifiers: only their equality is used. */
  type Token = nat

  datatype Stage = Competition | Commit | Cancel | OtherStage

  datatype Kind =
    | Start | CommitAttempt | Cancellation | RawFinalization | UnavailableClient | UnknownOutcome
    | LossNotice | ExclusionNotice | PluginObservation(stage: Stage) | OtherKind

  datatype Segment = Segment(owner: Token, name: Option<Token>)
  datatype Process = Process(owner: Token, name: Option<Token>)

  datatype Row = Row(owner: Token, segment: Option<Token>, process: Option<Token>, local: int, kind: Kind)

  function SegmentOf(row: Row): Segment { Segment(row.owner, row.segment) }
  function ProcessOf(row: Row): Process { Process(row.owner, row.process) }

  predicate Uncertain(kind: Kind) {
    kind.LossNotice? || kind.ExclusionNotice? || kind.UnknownOutcome?
  }

  predicate Starts(kind: Kind) {
    kind.Start? || kind == PluginObservation(Competition)
  }

  predicate Terminates(kind: Kind) {
    || kind.CommitAttempt? || kind.Cancellation? || kind.RawFinalization? || kind.UnavailableClient?
    || kind.UnknownOutcome? || kind == PluginObservation(Commit) || kind == PluginObservation(Cancel)
  }

  // ---------------------------------------------------------------- declarative meaning

  /** j is the first row of its owner after row i of the same owner. */
  ghost predicate Adjacent(rows: seq<Row>, i: int, j: int) {
    && 0 <= i < j < |rows| && rows[i].owner == rows[j].owner
    && (forall k :: i < k < j ==> rows[k].owner != rows[i].owner)
  }

  ghost predicate InSegment(rows: seq<Row>, i: int, seg: Segment) {
    0 <= i < |rows| && SegmentOf(rows[i]) == seg
  }

  /** Among the first n rows, the owner goes on to a row of another segment. */
  ghost predicate Closed(rows: seq<Row>, n: int, seg: Segment) {
    exists i, j :: Adjacent(rows, i, j) && j < n && InSegment(rows, i, seg) && !InSegment(rows, j, seg)
  }

  ghost predicate HasUncertainRow(rows: seq<Row>, n: int, seg: Segment) {
    exists i :: InSegment(rows, i, seg) && i < n && Uncertain(rows[i].kind)
  }

  /** The owner returns to the segment after a row of another one. */
  ghost predicate Reappears(rows: seq<Row>, n: int, seg: Segment) {
    exists i, j, k :: Adjacent(rows, i, j) && j < n && !InSegment(rows, i, seg) && InSegment(rows, j, seg)
      && InSegment(rows, k, seg) && k < j
  }

  ghost predicate TouchesGap(rows: seq<Row>, n: int, seg: Segment) {
    exists i, j :: Adjacent(rows, i, j) && j < n && rows[j].local != rows[i].local + 1
      && (InSegment(rows, i, seg) || InSegment(rows, j, seg))
  }

  ghost predicate Bad(rows: seq<Row>, n: int, seg: Segment) {
    seg.name.None? || HasUncertainRow(rows, n, seg) || Reappears(rows, n, seg) || TouchesGap(rows, n, seg)
  }

  // ---------------------------------------------------------------- the pass

  datatype SegmentState = SegmentState(first: int, last: int, closed: bool, bad: bool, processes: set<Process>)
  datatype ProcessState = ProcessState(first: int, last: int, start: bool, terminal: bool, segments: set<Segment>)

  /** The last row of each owner so far. */
  datatype Last = Last(segment: Segment, local: int)

  function FreshSegment(k: Segment, at: int): SegmentState {
    SegmentState(at, at, false, k.name.None?, {})
  }

  function FreshProcess(at: int): ProcessState {
    ProcessState(at, at, false, false, {})
  }

  /** The entry of segment k after one row, whose owner's previous row is `prior`. */
  function NextSegment(st: SegmentState, prior: Option<Last>, row: Row, at: int, k: Segment): SegmentState {
    var seg := SegmentOf(row);
    var moved := prior.Some? && prior.value.segment != seg;
    var gap := prior.Some? && row.local != prior.value.local + 1;
    SegmentState(
      st.first,
      if k == seg then at else st.last,
      st.closed || (moved && k == prior.value.segment),
      st.bad || (gap && (k == seg || k == prior.value.segment))
        || (k == seg && (Uncertain(row.kind) || (moved && st.first != at))),
      if k == seg then st.processes + {ProcessOf(row)} else st.processes)
  }

  function NextProcess(st: ProcessState, row: Row, at: int): ProcessState {
    st.(last := at, segments := st.segments + {SegmentOf(row)},
        start := st.start || Starts(row.kind), terminal := st.terminal || Terminates(row.kind))
  }

  /** Index of the last row of owner o among the first n. */
  function LastOf(rows: seq<Row>, n: nat, o: Token): (r: Option<nat>)
    requires n <= |rows|
    ensures r.Some? ==> r.value < n
  {
    if n == 0 then None
    else if rows[n - 1].owner == o then Some(n - 1)
    else LastOf(rows, n - 1, o)
  }

  function Prior(rows: seq<Row>, n: nat, o: Token): Option<Last>
    requires n <= |rows|
  {
    var i := LastOf(rows, n, o);
    if i.None? then None else Some(Last(SegmentOf(rows[i.value]), rows[i.value].local))
  }

  /** The entry of segment k after the first n rows. */
  function SegmentAt(rows: seq<Row>, n: nat, first: int, k: Segment): Option<SegmentState>
    requires n <= |rows|
  {
    if n == 0 then None
    else
      var before := SegmentAt(rows, n - 1, first, k);
      var row := rows[n - 1];
      if before.None? && SegmentOf(row) != k then None
      else
        var st := if before.Some? then before.value else FreshSegment(k, first + n - 1);
        Some(NextSegment(st, Prior(rows, n - 1, row.owner), row, first + n - 1, k))
  }

  function ProcessAt(rows: seq<Row>, n: nat, first: int, k: Process): Option<ProcessState>
    requires n <= |rows|
  {
    if n == 0 then None
    else
      var before := ProcessAt(rows, n - 1, first, k);
      if ProcessOf(rows[n - 1]) != k then before
      else Some(NextProcess(if before.Some? then before.value else FreshProcess(first + n - 1), rows[n - 1], first + n - 1))
  }

  ghost predicate KeysRight<K(!new)>(keys: seq<K>, domain: set<K>) {
    && (forall k :: k in keys <==> k in domain)
    && (forall i, j :: 0 <= i < j < |keys| ==> keys[i] != keys[j])
  }

  lemma {:induction false} KeysStep<K(!new)>(keys: seq<K>, domain: set<K>, k: K)
    requires KeysRight(keys, domain)
    ensures KeysRight(if k in domain then keys else keys + [k], domain + {k})
  {}

  /** The dictionaries after the first n rows. */
  ghost predicate SegmentsAre(rows: seq<Row>, n: nat, first: int, segments: map<Segment, SegmentState>)
    requires n <= |rows|
  {
    forall k :: (if k in segments then Some(segments[k]) else None) == SegmentAt(rows, n, first, k)
  }

  ghost predicate ProcessesAre(rows: seq<Row>, n: nat, first: int, processes: map<Process, ProcessState>)
    requires n <= |rows|
  {
    forall k :: (if k in processes then Some(processes[k]) else None) == ProcessAt(rows, n, first, k)
  }

  ghost predicate LastsAre(rows: seq<Row>, n: nat, lastSource: map<Token, Last>)
    requires n <= |rows|
  {
    forall o :: (if o in lastSource then Some(lastSource[o]) else None) == Prior(rows, n, o)
  }

  /** The segment entries touched by one row: its own, and the one its owner leaves. */
  method UpdateSegments(before: map<Segment, SegmentState>, prior: Option<Last>, row: Row, at: int)
    returns (segments: map<Segment, SegmentState>)
    requires prior.Some? ==> prior.value.segment in before
    ensures segments.Keys == before.Keys + {SegmentOf(row)}
    ensures forall k :: k in segments ==>
      segments[k] == NextSegment(if k in before then before[k] else FreshSegment(k, at), prior, row, at, k)
  {
    segments := before;
    var seg := SegmentOf(row);
    if seg !in segments {
      segments := segments[seg := FreshSegment(seg, at)];
    }
    var state := segments[seg];
    segments := segments[seg := state.(last := at, processes := state.processes + {ProcessOf(row)})];
    if prior.Some? {
      var left := prior.value.segment;
      if left != seg {
        segments := segments[left := segments[left].(closed := true)];
        if segments[seg].first != at {
          segments := segments[seg := segments[seg].(bad := true)];
        }
      }
      if row.local != prior.value.local + 1 {
        segments := segments[seg := segments[seg].(bad := true)];
        segments := segments[left := segments[left].(bad := true)];
      }
    }
    if Uncertain(row.kind) {
      segments := segments[seg := segments[seg].(bad := true)];
    }
  }

  /** The pass itself, updating its dictionaries row by row; the key lists are
      the insertion order of the dictionaries. */
  method Classify(rows: seq<Row>, first: int)
    returns (segments: map<Segment, SegmentState>, segmentKeys: seq<Segment>,
             processes: map<Process, ProcessState>, processKeys: seq<Process>)
    ensures SegmentsAre(rows, |rows|, first, segments) && KeysRight(segmentKeys, segments.Keys)
    ensures ProcessesAre(rows, |rows|, first, processes) && KeysRight(processKeys, processes.Keys)
  {
    segments, segmentKeys, processes, processKeys := map[], [], map[], [];
    var lastSource: map<Token, Last> := map[];
    var n := 0;
    while n < |rows|
      invariant 0 <= n <= |rows|
      invariant SegmentPass(rows, n, first, segments, segmentKeys, lastSource)
      invariant ProcessPass(rows, n, first, processes, processKeys)
    {
      segments, segmentKeys, lastSource := SegmentTurn(rows, n, first, segments, segmentKeys, lastSource);
      processes, processKeys := ProcessTurn(rows, n, first, processes, processKeys);
      n := n + 1;
    }
  }

  ghost predicate SegmentPass(rows: seq<Row>, n: nat, first: int, segments: map<Segment, SegmentState>,
                              segmentKeys: seq<Segment>, lastSource: map<Token, Last>)
    requires n <= |rows|
  {
    SegmentsAre(rows, n, first, segments) && KeysRight(segmentKeys, segments.Keys) && LastsAre(rows, n, lastSource)
  }

  ghost predicate ProcessPass(rows: seq<Row>, n: nat, first: int, processes: map<Process, ProcessState>, processKeys: seq<Process>)
    requires n <= |rows|
  {
    ProcessesAre(rows, n, first, processes) && KeysRight(processKeys, processes.Keys)
  }

  /** One row's work on the segment dictionary and the last row of its owner. */
  method SegmentTurn(rows: seq<Row>, n: nat, first: int, segs: map<Segment, SegmentState>, keys: seq<Segment>, lasts: map<Token, Last>)
    returns (segments: map<Segment, SegmentState>, segmentKeys: seq<Segment>, lastSource: map<Token, Last>)
    requires n < |rows| && SegmentPass(rows, n, first, segs, keys, lasts)
    ensures SegmentPass(rows, n + 1, first, segments, segmentKeys, lastSource)
  {
    var row := rows[n];
    var seg := SegmentOf(row);
    var prior := if row.owner in lasts then Some(lasts[row.owner]) else None;
    PriorSeen(rows, n, first, row.owner);
    segmentKeys := if seg in segs then keys else keys + [seg];
    KeysStep(keys, segs.Keys, seg);
    segments := UpdateSegments(segs, prior, row, first + n);
    lastSource := lasts[row.owner := Last(seg, row.local)];
    SegmentsStep(rows, n, first, segs, segments);
    LastsStep(rows, n, lasts, lastSource);
  }

  /** One row's work on the process dictionary. */
  method ProcessTurn(rows: seq<Row>, n: nat, first: int, procs: map<Process, ProcessState>, keys: seq<Process>)
    returns (processes: map<Process, ProcessState>, processKeys: seq<Process>)
    requires n < |rows| && ProcessPass(rows, n, first, procs, keys)
    ensures ProcessPass(rows, n + 1, first, processes, processKeys)
  {
    var row, at := rows[n], first + n;
    var p := ProcessOf(row);
    processKeys := if p in procs then keys else keys + [p];
    KeysStep(keys, procs.Keys, p);
    processes := procs[p := NextProcess(if p in procs then procs[p] else FreshProcess(at), row, at)];
    ProcessesStep(rows, n, first, procs, processes);
    assert processes.Keys == procs.Keys + {p};
  }

  lemma {:induction false} PriorSeen(rows: seq<Row>, n: nat, first: int, o: Token)
    requires n < |rows|
    ensures Prior(rows, n, o).Some? ==> SegmentAt(rows, n, first, Prior(rows, n, o).value.segment).Some?
  {
    var i := LastOf(rows, n, o);
    if i.Some? {
      SegmentPresent(rows, n, first, i.value);
    }
  }

  lemma {:induction false} SegmentPresent(rows: seq<Row>, n: nat, first: int, i: nat)
    requires i < n <= |rows|
    ensures SegmentAt(rows, n, first, SegmentOf(rows[i])).Some?
  {
    if i < n - 1 {
      SegmentPresent(rows, n - 1, first, i);
    }
  }

  lemma {:induction false} ProcessPresent(rows: seq<Row>, n: nat, first: int, i: nat)
    requires i < n <= |rows|
    ensures ProcessAt(rows, n, first, ProcessOf(rows[i])).Some?
  {
    if i < n - 1 {
      ProcessPresent(rows, n - 1, first, i);
    }
  }

  lemma {:induction false} SegmentsStep(rows: seq<Row>, n: nat, first: int, before: map<Segment, SegmentState>, after: map<Segment, SegmentState>)
    requires n < |rows| && SegmentsAre(rows, n, first, before)
    requires after.Keys == before.Keys + {SegmentOf(rows[n])}
    requires forall k :: k in after ==> after[k] == NextSegment(if k in before then before[k] else FreshSegment(k, first + n),
      Prior(rows, n, rows[n].owner), rows[n], first + n, k)
    ensures SegmentsAre(rows, n + 1, first, after)
  {
    forall k ensures (if k in after then Some(after[k]) else None) == SegmentAt(rows, n + 1, first, k) {
      assert (if k in before then Some(before[k]) else None) == SegmentAt(rows, n, first, k);
    }
  }

  lemma {:induction false} ProcessesStep(rows: seq<Row>, n: nat, first: int, before: map<Process, ProcessState>, after: map<Process, ProcessState>)
    requires n < |rows| && ProcessesAre(rows, n, first, before)
    requires var p := ProcessOf(rows[n]);
      after == before[p := NextProcess(if p in before then before[p] else FreshProcess(first + n), rows[n], first + n)]
    ensures ProcessesAre(rows, n + 1, first, after)
  {
    forall k ensures (if k in after then Some(after[k]) else None) == ProcessAt(rows, n + 1, first, k) {
      assert (if k in before then Some(before[k]) else None) == ProcessAt(rows, n, first, k);
    }
  }

  lemma {:induction false} LastsStep(rows: seq<Row>, n: nat, before: map<Token, Last>, after: map<Token, Last>)
    requires n < |rows| && LastsAre(rows, n, before)
    requires after == before[rows[n].owner := Last(SegmentOf(rows[n]), rows[n].local)]
    ensures LastsAre(rows, n + 1, after)
  {
    forall o ensures (if o in after then Some(after[o]) else None) == Prior(rows, n + 1, o) {
      assert (if o in before then Some(before[o]) else None) == Prior(rows, n, o);
    }
  }

  // ---------------------------------------------------------------- the pass computes the meaning

  /** First and last rows, and the processes met. */
  ghost predicate ExtentRight(rows: seq<Row>, n: int, first: int, seg: Segment, st: SegmentState) {
    && InSegment(rows, st.first - first, seg) && InSegment(rows, st.last - first, seg) && st.last - first < n
    && (forall i :: InSegment(rows, i, seg) && i < n ==> st.first <= first + i <= st.last && ProcessOf(rows[i]) in st.processes)
    && (forall p :: p in st.processes ==> exists i :: InSegment(rows, i, seg) && i < n && ProcessOf(rows[i]) == p)
  }

  ghost predicate FlagsRight(rows: seq<Row>, n: int, seg: Segment, st: SegmentState) {
    (st.closed <==> Closed(rows, n, seg)) && (st.bad <==> Bad(rows, n, seg))
  }

  ghost predicate SegmentRight(rows: seq<Row>, n: int, first: int, seg: Segment, st: SegmentState) {
    ExtentRight(rows, n, first, seg, st) && FlagsRight(rows, n, seg, st)
  }

  ghost predicate InProcess(rows: seq<Row>, i: int, p: Process) {
    0 <= i < |rows| && ProcessOf(rows[i]) == p
  }

  ghost predicate ProcessRight(rows: seq<Row>, n: int, first: int, p: Process, st: ProcessState) {
    && InProcess(rows, st.first - first, p) && InProcess(rows, st.last - first, p) && st.last - first < n
    && (forall i :: InProcess(rows, i, p) && i < n ==> st.first <= first + i <= st.last && SegmentOf(rows[i]) in st.segments)
    && (forall seg :: seg in st.segments ==> exists i :: InProcess(rows, i, p) && i < n && SegmentOf(rows[i]) == seg)
    && (st.start <==> exists i :: InProcess(rows, i, p) && i < n && Starts(rows[i].kind))
    && (st.terminal <==> exists i :: InProcess(rows, i, p) && i < n && Terminates(rows[i].kind))
  }

  /** The only new adjacent pair made by row n is the one with the owner's last row. */
  lemma {:induction false} NewPair(rows: seq<Row>, n: nat, i: int)
    requires n < |rows|
    ensures Adjacent(rows, i, n) <==> LastOf(rows, n, rows[n].owner) == Some(i)
  {
    LastOfMeans(rows, n, rows[n].owner);
  }

  lemma {:induction false} LastOfMeans(rows: seq<Row>, n: nat, o: Token)
    requires n <= |rows|
    ensures var r := LastOf(rows, n, o);
      && (r.Some? ==> rows[r.value].owner == o && forall k :: r.value < k < n ==> rows[k].owner != o)
      && (r.None? ==> forall k :: 0 <= k < n ==> rows[k].owner != o)
  {
    if n > 0 {
      LastOfMeans(rows, n - 1, o);
    }
  }

  lemma {:induction false} ClosedStep(rows: seq<Row>, n: nat, k: Segment)
    requires n < |rows|
    ensures var prior := Prior(rows, n, rows[n].owner);
      Closed(rows, n + 1, k) <==>
        Closed(rows, n, k) || (prior.Some? && prior.value.segment == k && SegmentOf(rows[n]) != k)
  {
    var p := LastOf(rows, n, rows[n].owner);
    if Closed(rows, n + 1, k) {
      var i, j :| Adjacent(rows, i, j) && j < n + 1 && InSegment(rows, i, k) && !InSegment(rows, j, k);
      if j == n { NewPair(rows, n, i); }
    }
    if p.Some? {
      NewPair(rows, n, p.value);
    }
  }

  lemma {:induction false} UncertainStep(rows: seq<Row>, n: nat, k: Segment)
    requires n < |rows|
    ensures HasUncertainRow(rows, n + 1, k) <==>
      HasUncertainRow(rows, n, k) || (SegmentOf(rows[n]) == k && Uncertain(rows[n].kind))
  {
    assert InSegment(rows, n, k) <==> SegmentOf(rows[n]) == k;
  }

  lemma {:induction false} ReappearsStep(rows: seq<Row>, n: nat, k: Segment)
    requires n < |rows|
    ensures var prior := Prior(rows, n, rows[n].owner);
      Reappears(rows, n + 1, k) <==>
        Reappears(rows, n, k) || (prior.Some? && prior.value.segment != k && SegmentOf(rows[n]) == k
          && exists m :: InSegment(rows, m, k) && m < n)
  {
    var p := LastOf(rows, n, rows[n].owner);
    if Reappears(rows, n + 1, k) {
      var i, j, m :| Adjacent(rows, i, j) && j < n + 1 && !InSegment(rows, i, k) && InSegment(rows, j, k)
        && InSegment(rows, m, k) && m < j;
      if j == n { NewPair(rows, n, i); }
    }
    if p.Some? {
      NewPair(rows, n, p.value);
    }
  }

  lemma {:induction false} GapStep(rows: seq<Row>, n: nat, k: Segment)
    requires n < |rows|
    ensures var prior := Prior(rows, n, rows[n].owner);
      TouchesGap(rows, n + 1, k) <==>
        TouchesGap(rows, n, k) || (prior.Some? && rows[n].local != prior.value.local + 1
          && (prior.value.segment == k || SegmentOf(rows[n]) == k))
  {
    var p := LastOf(rows, n, rows[n].owner);
    if TouchesGap(rows, n + 1, k) {
      var i, j :| Adjacent(rows, i, j) && j < n + 1 && rows[j].local != rows[i].local + 1
        && (InSegment(rows, i, k) || InSegment(rows, j, k));
      if j == n { NewPair(rows, n, i); }
    }
    if p.Some? {
      NewPair(rows, n, p.value);
    }
  }

  /** Before its first row a segment is neither closed nor bad, its name apart. */
  lemma {:induction false} Unmet(rows: seq<Row>, n: nat, k: Segment)
    requires n <= |rows| && forall i :: 0 <= i < n ==> !InSegment(rows, i, k)
    ensures !Closed(rows, n, k) && !HasUncertainRow(rows, n, k) && !Reappears(rows, n, k) && !TouchesGap(rows, n, k)
  {}

  /** The entry of a segment is its declarative meaning: extent by induction on the rows. */
  lemma {:induction false} ExtentMeans(rows: seq<Row>, n: nat, first: int, k: Segment)
    requires n <= |rows|
    ensures SegmentAt(rows, n, first, k).Some? ==> ExtentRight(rows, n, first, k, SegmentAt(rows, n, first, k).value)
    ensures SegmentAt(rows, n, first, k).None? ==> forall i :: 0 <= i < n ==> !InSegment(rows, i, k)
  {
    if n > 0 {
      ExtentMeans(rows, n - 1, first, k);
      assert InSegment(rows, n - 1, k) <==> SegmentOf(rows[n - 1]) == k;
      var was, now := SegmentAt(rows, n - 1, first, k), SegmentAt(rows, n, first, k);
      if now.Some? {
        forall p | p in now.value.processes ensures exists i :: InSegment(rows, i, k) && i < n && ProcessOf(rows[i]) == p {
          if was.Some? && p in was.value.processes {
            var i :| InSegment(rows, i, k) && i < n - 1 && ProcessOf(rows[i]) == p;
          }
        }
      }
    }
  }

  /** The flags of a segment are their declarative meaning, by induction on the rows. */
  lemma {:induction false} ClosedMeans(rows: seq<Row>, n: nat, first: int, k: Segment)
    requires n <= |rows|
    ensures var st := SegmentAt(rows, n, first, k); st.Some? ==> (st.value.closed <==> Closed(rows, n, k))
  {
    if n > 0 {
      ClosedMeans(rows, n - 1, first, k);
      ClosedStep(rows, n - 1, k);
      PriorSeen(rows, n - 1, first, rows[n - 1].owner);
      if SegmentAt(rows, n - 1, first, k).None? {
        ExtentMeans(rows, n - 1, first, k);
        Unmet(rows, n - 1, k);
      }
    }
  }

  lemma {:induction false} BadMeans(rows: seq<Row>, n: nat, first: int, k: Segment)
    requires n <= |rows|
    ensures var st := SegmentAt(rows, n, first, k); st.Some? ==> (st.value.bad <==> Bad(rows, n, k))
  {
    if n > 0 {
      BadMeans(rows, n - 1, first, k);
      var st := SegmentAt(rows, n - 1, first, k);
      MetBefore(rows, n - 1, first, k);
      if st.None? {
        ExtentMeans(rows, n - 1, first, k);
        Unmet(rows, n - 1, k);
      }
      BadStep(rows, n - 1, k, st.Some?);
    }
  }

  /** A known segment has an earlier row, so its first sequence is not the current one. */
  lemma {:induction false} MetBefore(rows: seq<Row>, n: nat, first: int, k: Segment)
    requires n <= |rows|
    ensures var st := SegmentAt(rows, n, first, k);
      && (st.Some? <==> exists m :: InSegment(rows, m, k) && m < n)
      && (st.Some? ==> st.value.first < first + n)
  {
    ExtentMeans(rows, n, first, k);
    var st := SegmentAt(rows, n, first, k);
    if st.Some? {
      assert InSegment(rows, st.value.first - first, k);
    }
  }

  lemma {:induction false} BadStep(rows: seq<Row>, n: nat, k: Segment, met: bool)
    requires n < |rows| && (met <==> exists m :: InSegment(rows, m, k) && m < n)
    ensures var prior := Prior(rows, n, rows[n].owner);
      Bad(rows, n + 1, k) <==>
        || Bad(rows, n, k)
        || (SegmentOf(rows[n]) == k && Uncertain(rows[n].kind))
        || (prior.Some? && prior.value.segment != k && SegmentOf(rows[n]) == k && met)
        || (prior.Some? && rows[n].local != prior.value.local + 1 && (prior.value.segment == k || SegmentOf(rows[n]) == k))
  {
    UncertainStep(rows, n, k);
    ReappearsStep(rows, n, k);
    GapStep(rows, n, k);
  }

  lemma {:induction false} SegmentMeans(rows: seq<Row>, n: nat, first: int, k: Segment)
    requires n <= |rows|
    ensures SegmentAt(rows, n, first, k).Some? ==> SegmentRight(rows, n, first, k, SegmentAt(rows, n, first, k).value)
  {
    ExtentMeans(rows, n, first, k);
    ClosedMeans(rows, n, first, k);
    BadMeans(rows, n, first, k);
  }

  lemma {:induction false} ProcessEntryStep(rows: seq<Row>, n: nat, first: int, k: Process, was: Option<ProcessState>, now: ProcessState)
    requires n < |rows| && ProcessOf(rows[n]) == k
    requires ProcessEntryRight(rows, n, first, k, was)
    requires now == NextProcess(if was.Some? then was.value else FreshProcess(first + n), rows[n], first + n)
    ensures ProcessRight(rows, n + 1, first, k, now)
  {
    assert InProcess(rows, n, k);
    forall g | g in now.segments ensures exists i :: InProcess(rows, i, k) && i < n + 1 && SegmentOf(rows[i]) == g {
      if was.Some? && g in was.value.segments {
        var i :| InProcess(rows, i, k) && i < n && SegmentOf(rows[i]) == g;
      }
    }
  }

  /** The entry is right when there is one; without one the process has no row yet. */
  ghost predicate ProcessEntryRight(rows: seq<Row>, n: nat, first: int, k: Process, st: Option<ProcessState>) {
    && (st.Some? ==> ProcessRight(rows, n, first, k, st.value))
    && (st.None? ==> forall i :: 0 <= i < n ==> !InProcess(rows, i, k))
  }

  lemma {:induction false} ProcessMeans(rows: seq<Row>, n: nat, first: int, k: Process)
    requires n <= |rows|
    ensures ProcessEntryRight(rows, n, first, k, ProcessAt(rows, n, first, k))
  {
    if n > 0 {
      ProcessMeans(rows, n - 1, first, k);
      var was, now := ProcessAt(rows, n - 1, first, k), ProcessAt(rows, n, first, k);
      if ProcessOf(rows[n - 1]) == k {
        ProcessEntryStep(rows, n - 1, first, k, was, now.value);
      } else {
        ProcessUntouched(rows, n - 1, first, k, now);
      }
    }
  }

  lemma {:induction false} ProcessUntouched(rows: seq<Row>, n: nat, first: int, k: Process, st: Option<ProcessState>)
    requires n < |rows| && ProcessOf(rows[n]) != k && ProcessEntryRight(rows, n, first, k, st)
    ensures ProcessEntryRight(rows, n + 1, first, k, st)
  {
    if st.Some? {
      forall g | g in st.value.segments ensures exists i :: InProcess(rows, i, k) && i < n + 1 && SegmentOf(rows[i]) == g {
        var i :| InProcess(rows, i, k) && i < n && SegmentOf(rows[i]) == g;
      }
    }
  }

  // ---------------------------------------------------------------- what the flags are for

  /** Rows of one owner in the half-open index range (i, j]. */
  function CountOwner(rows: seq<Row>, o: Token, i: int, j: int): nat
    decreases j - i
  {
    if j <= i then 0
    else CountOwner(rows, o, i, j - 1) + (if 0 <= j < |rows| && rows[j].owner == o then 1 else 0)
  }

  lemma {:induction false} NoneCounted(rows: seq<Row>, o: Token, i: int, j: int)
    requires 0 <= i <= j < |rows| && forall k :: i < k <= j ==> rows[k].owner != o
    ensures CountOwner(rows, o, i, j) == 0
    decreases j - i
  {
    if i < j {
      NoneCounted(rows, o, i, j - 1);
    }
  }

  lemma {:induction false} CountSplit(rows: seq<Row>, o: Token, i: int, m: int, j: int)
    requires i <= m <= j
    ensures CountOwner(rows, o, i, j) == CountOwner(rows, o, i, m) + CountOwner(rows, o, m, j)
    decreases j - m
  {
    if m < j {
      CountSplit(rows, o, i, m, j - 1);
    }
  }

  lemma {:induction false} PreviousExists(rows: seq<Row>, i: int, j: int) returns (p: int)
    requires 0 <= i < j < |rows| && rows[i].owner == rows[j].owner
    ensures i <= p < j && Adjacent(rows, p, j)
  {
    p := j - 1;
    while rows[p].owner != rows[j].owner
      invariant i <= p < j && forall k :: p < k < j ==> rows[k].owner != rows[j].owner
      decreases p
    {
      p := p - 1;
    }
  }

  /** A segment that is not bad is one gapless block of its owner's rows: between
      two of its rows the owner has no other row, and the local sequence advances
      by exactly the number of rows. */
  lemma {:induction false} GaplessBlock(rows: seq<Row>, seg: Segment, i: int, j: int)
    requires !Bad(rows, |rows|, seg)
    requires InSegment(rows, i, seg) && InSegment(rows, j, seg) && i <= j
    ensures forall k :: i <= k <= j && rows[k].owner == seg.owner ==> InSegment(rows, k, seg)
    ensures rows[j].local - rows[i].local == CountOwner(rows, seg.owner, i, j)
    decreases j
  {
    if i < j {
      var p := PreviousExists(rows, i, j);
      assert InSegment(rows, p, seg);
      GaplessBlock(rows, seg, i, p);
      assert rows[j].local == rows[p].local + 1;
      CountSplit(rows, seg.owner, i, p, j);
      CountSplit(rows, seg.owner, p, j - 1, j);
      NoneCounted(rows, seg.owner, p, j - 1);
    }
  }

  /** Closed and not bad: the block also has a successor without loss, the next
      row of the owner, which belongs to another segment. */
  lemma {:induction false} ClosedBlockEnds(rows: seq<Row>, seg: Segment) returns (x: int, y: int)
    requires Closed(rows, |rows|, seg) && !Bad(rows, |rows|, seg)
    ensures Adjacent(rows, x, y) && InSegment(rows, x, seg) && !InSegment(rows, y, seg)
    ensures rows[y].local == rows[x].local + 1
    ensures forall i :: InSegment(rows, i, seg) ==> i <= x
  {
    x, y :| Adjacent(rows, x, y) && y < |rows| && InSegment(rows, x, seg) && !InSegment(rows, y, seg);
    forall i | InSegment(rows, i, seg) ensures i <= x {
      if x < i {
        GaplessBlock(rows, seg, x, i);
        assert false;
      }
    }
  }
}
