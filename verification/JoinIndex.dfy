/** The join indexes: kept row by row with the first witness of every edge
    (archive/collector.py, _remember_join_state and _snapshot_join_state_locked), and
    rebuilt from the rows of a prefix (archive/querying.py, RelationContext). */
module JoinIndex {
  import opened Common

  type Token = string

  datatype Kind = Capture | PluginObservation | DaemonObservation

  datatype Daemon = Daemon(isRequest: bool, request: Option<Token>, plan: Option<Token>)

  /** The declared identities of one published row. */
  datatype Row = Row(seqNo: nat, kind: Kind, source: Option<Token>, process: Option<Token>, update: Option<Token>,
                     commit: Option<Token>, segment: Option<Token>, daemon: Option<Daemon>)

  /** The other end of an edge: a (source, process) owner, a source, or a token. */
  datatype Label = Owner(source: Option<Token>, process: Option<Token>) | Source(id: Option<Token>) | Name(token: Token)

  type Edge = Option<(Token, Label)>

  /** First witness of every edge of one table. */
  type Witnesses = map<Token, map<Label, nat>>

  type Owners = map<Token, set<Label>>

  predicate Observer(r: Row) {
    r.kind.PluginObservation? || r.kind.DaemonObservation?
  }

  // ---------------------------------------------------------------- edges of a row

  function Declared(r: Row, key: Option<Token>, mark: Label): Edge {
    if Observer(r) || key.None? then None else Some((key.value, mark))
  }

  function UpdateEdge(r: Row): Edge { Declared(r, r.update, Owner(r.source, r.process)) }
  function ProcessEdge(r: Row): Edge { Declared(r, r.process, Source(r.source)) }
  function CommitEdge(r: Row): Edge { Declared(r, r.commit, Owner(r.source, r.process)) }
  function SegmentEdge(r: Row): Edge { Declared(r, r.segment, Owner(r.source, r.process)) }

  /** The request identifier of a daemon request row. */
  function RequestOf(r: Row): Option<Token> {
    if r.daemon.None? || !r.daemon.value.isRequest then None else r.daemon.value.request
  }

  function PlanEdge(r: Row): Edge {
    if RequestOf(r).None? || r.daemon.value.plan.None? then None
    else Some((r.daemon.value.plan.value, Name(RequestOf(r).value)))
  }

  function RequestPlanEdge(r: Row): Edge {
    if RequestOf(r).None? || r.daemon.value.plan.None? then None
    else Some((RequestOf(r).value, Name(r.daemon.value.plan.value)))
  }

  function UpdateOf(r: Row): Option<Token> {
    if Observer(r) then None else r.update
  }

  // ---------------------------------------------------------------- one step of each index

  function LabelsAt(w: Witnesses, key: Token): map<Label, nat> {
    if key in w then w[key] else map[]
  }

  /** `setdefault(key, {}).setdefault(mark, seq)`. */
  function AddWitness(w: Witnesses, e: Edge, s: nat): Witnesses {
    match e
    case None => w
    case Some((key, mark)) =>
      var marks := LabelsAt(w, key);
      w[key := if mark in marks then marks else marks[mark := s]]
  }

  function AddOwner(o: Owners, e: Edge): Owners {
    match e
    case None => o
    case Some((key, mark)) => o[key := (if key in o then o[key] else {}) + {mark}]
  }

  function AddFirst(m: map<Token, nat>, key: Option<Token>, s: nat): map<Token, nat> {
    if key.None? then m
    else if key.value in m && m[key.value] <= s then m
    else m[key.value := s]
  }

  function AddPair(m: map<(Token, Label), nat>, e: Edge, s: nat): map<(Token, Label), nat> {
    match e
    case None => m
    case Some(pair) => if pair in m then m else m[pair := s]
  }

  function AddRequest(m: map<Token, seq<nat>>, key: Option<Token>, s: nat): map<Token, seq<nat>> {
    if key.None? then m
    else m[key.value := (if key.value in m then m[key.value] else []) + [s]]
  }

  // ---------------------------------------------------------------- projections at a prefix

  function VisibleLabels(marks: map<Label, nat>, w: nat): set<Label> {
    set l | l in marks && marks[l] <= w
  }

  function ProjectOwners(t: Witnesses, w: nat): Owners {
    map key | key in t && VisibleLabels(t[key], w) != {} :: VisibleLabels(t[key], w)
  }

  function PairsIn(t: Witnesses): set<(Token, Label)> {
    set key, mark | key in t && mark in t[key] :: (key, mark)
  }

  function ProjectPairs(t: Witnesses, w: nat): map<(Token, Label), nat> {
    map p | p in PairsIn(t) && t[p.0][p.1] <= w :: t[p.0][p.1]
  }

  function ProjectFirst(m: map<Token, nat>, w: nat): map<Token, nat> {
    map key | key in m && m[key] <= w :: m[key]
  }

  function AtMost(s: seq<nat>, w: nat): seq<nat> {
    if s == [] then []
    else AtMost(s[..|s| - 1], w) + (if s[|s| - 1] <= w then [s[|s| - 1]] else [])
  }

  function ProjectRequests(m: map<Token, seq<nat>>, w: nat): map<Token, seq<nat>> {
    map key | key in m && AtMost(m[key], w) != [] :: AtMost(m[key], w)
  }

  // ---------------------------------------------------------------- one table over all rows

  type EdgeOf = Row -> Edge
  type KeyOf = Row -> Option<Token>

  function WitnessesOf(rows: seq<Row>, edge: EdgeOf): Witnesses {
    if rows == [] then map[]
    else AddWitness(WitnessesOf(rows[..|rows| - 1], edge), edge(rows[|rows| - 1]), rows[|rows| - 1].seqNo)
  }

  function OwnersOf(rows: seq<Row>, edge: EdgeOf): Owners {
    if rows == [] then map[]
    else AddOwner(OwnersOf(rows[..|rows| - 1], edge), edge(rows[|rows| - 1]))
  }

  function PairsOf(rows: seq<Row>, edge: EdgeOf): map<(Token, Label), nat> {
    if rows == [] then map[]
    else AddPair(PairsOf(rows[..|rows| - 1], edge), edge(rows[|rows| - 1]), rows[|rows| - 1].seqNo)
  }

  function FirstsOf(rows: seq<Row>, key: KeyOf): map<Token, nat> {
    if rows == [] then map[]
    else AddFirst(FirstsOf(rows[..|rows| - 1], key), key(rows[|rows| - 1]), rows[|rows| - 1].seqNo)
  }

  function RequestsOf(rows: seq<Row>, key: KeyOf): map<Token, seq<nat>> {
    if rows == [] then map[]
    else AddRequest(RequestsOf(rows[..|rows| - 1], key), key(rows[|rows| - 1]), rows[|rows| - 1].seqNo)
  }

  ghost predicate Increasing(rows: seq<Row>) {
    forall i, j :: 0 <= i < j < |rows| ==> rows[i].seqNo < rows[j].seqNo
  }

  ghost predicate Bounded(rows: seq<Row>, w: nat) {
    forall i :: 0 <= i < |rows| ==> rows[i].seqNo <= w
  }

  /** The rows of the prefix w. */
  function Prefix(rows: seq<Row>, w: nat): seq<Row> {
    if rows == [] then []
    else if rows[|rows| - 1].seqNo <= w then rows
    else Prefix(rows[..|rows| - 1], w)
  }

  lemma {:induction false} PrefixIsVisible(rows: seq<Row>, w: nat)
    requires Increasing(rows)
    ensures Prefix(rows, w) <= rows
    ensures forall i :: 0 <= i < |Prefix(rows, w)| ==> rows[i].seqNo <= w
    ensures forall i :: |Prefix(rows, w)| <= i < |rows| ==> rows[i].seqNo > w
  {
    if rows != [] && rows[|rows| - 1].seqNo > w {
      PrefixIsVisible(rows[..|rows| - 1], w);
    }
  }

  // ---------------------------------------------------------------- a row inside the prefix

  ghost predicate Within(t: Witnesses, w: nat) {
    forall key, mark :: key in t && mark in t[key] ==> t[key][mark] <= w
  }

  lemma {:induction false} WitnessesWithin(rows: seq<Row>, edge: EdgeOf, w: nat)
    requires Bounded(rows, w)
    ensures Within(WitnessesOf(rows, edge), w)
  {
    if rows != [] {
      WitnessesWithin(rows[..|rows| - 1], edge, w);
    }
  }

  lemma {:induction false} FirstsWithin(rows: seq<Row>, key: KeyOf, w: nat)
    requires Bounded(rows, w)
    ensures forall k :: k in FirstsOf(rows, key) ==> FirstsOf(rows, key)[k] <= w
  {
    if rows != [] {
      FirstsWithin(rows[..|rows| - 1], key, w);
    }
  }

  lemma {:induction false} MarksVisible(marks: map<Label, nat>, mark: Label, s: nat, w: nat)
    requires forall l :: l in marks ==> marks[l] <= w
    requires s <= w
    ensures VisibleLabels(if mark in marks then marks else marks[mark := s], w) == VisibleLabels(marks, w) + {mark}
  {}

  lemma {:induction false} OwnersVisible(t: Witnesses, e: Edge, s: nat, w: nat)
    requires Within(t, w) && s <= w
    ensures ProjectOwners(AddWitness(t, e, s), w) == AddOwner(ProjectOwners(t, w), e)
  {
    if e.Some? {
      var key, mark := e.value.0, e.value.1;
      MarksVisible(LabelsAt(t, key), mark, s, w);
      var left, right := ProjectOwners(AddWitness(t, e, s), w), AddOwner(ProjectOwners(t, w), e);
      assert mark in VisibleLabels(AddWitness(t, e, s)[key], w);
      forall k | k in left || k in right ensures k in left && k in right && left[k] == right[k] {
        if k == key {
          assert VisibleLabels(map[], w) == {};
        }
      }
    }
  }

  lemma {:induction false} PairsVisible(t: Witnesses, e: Edge, s: nat, w: nat)
    requires Within(t, w) && s <= w
    ensures ProjectPairs(AddWitness(t, e, s), w) == AddPair(ProjectPairs(t, w), e, s)
  {}

  lemma {:induction false} AtMostAppend(s: seq<nat>, x: nat, w: nat)
    ensures AtMost(s + [x], w) == AtMost(s, w) + (if x <= w then [x] else [])
  {
    assert (s + [x])[..|s|] == s;
  }

  lemma {:induction false} RequestsVisible(m: map<Token, seq<nat>>, key: Option<Token>, s: nat, w: nat)
    requires s <= w
    ensures ProjectRequests(AddRequest(m, key, s), w) == AddRequest(ProjectRequests(m, w), key, s)
  {
    if key.Some? {
      AtMostAppend(if key.value in m then m[key.value] else [], s, w);
      var left, right := ProjectRequests(AddRequest(m, key, s), w), AddRequest(ProjectRequests(m, w), key, s);
      forall k | k in left || k in right ensures k in left && k in right && left[k] == right[k] {}
    }
  }

  // ---------------------------------------------------------------- a row after the prefix

  lemma {:induction false} OwnersHidden(t: Witnesses, e: Edge, s: nat, w: nat)
    requires s > w
    ensures ProjectOwners(AddWitness(t, e, s), w) == ProjectOwners(t, w)
  {
    if e.Some? {
      var key, mark := e.value.0, e.value.1;
      var after := AddWitness(t, e, s);
      assert VisibleLabels(after[key], w) == VisibleLabels(LabelsAt(t, key), w);
      assert VisibleLabels(map[], w) == {};
      var left, right := ProjectOwners(after, w), ProjectOwners(t, w);
      forall k | k in left || k in right ensures k in left && k in right && left[k] == right[k] {}
    }
  }

  lemma {:induction false} PairsHidden(t: Witnesses, e: Edge, s: nat, w: nat)
    requires s > w
    ensures ProjectPairs(AddWitness(t, e, s), w) == ProjectPairs(t, w)
  {}

  lemma {:induction false} RequestsHidden(m: map<Token, seq<nat>>, key: Option<Token>, s: nat, w: nat)
    requires s > w
    ensures ProjectRequests(AddRequest(m, key, s), w) == ProjectRequests(m, w)
  {
    if key.Some? {
      AtMostAppend(if key.value in m then m[key.value] else [], s, w);
      var left, right := ProjectRequests(AddRequest(m, key, s), w), ProjectRequests(m, w);
      forall k | k in left || k in right ensures k in left && k in right && left[k] == right[k] {}
    }
  }

  // ---------------------------------------------------------------- each table refines its rebuild

  lemma {:induction false} OwnersAgree(rows: seq<Row>, edge: EdgeOf, w: nat)
    requires Increasing(rows)
    ensures ProjectOwners(WitnessesOf(rows, edge), w) == OwnersOf(Prefix(rows, w), edge)
  {
    if rows != [] {
      var front, r := rows[..|rows| - 1], rows[|rows| - 1];
      OwnersAgree(front, edge, w);
      if r.seqNo <= w {
        WitnessesWithin(front, edge, w);
        OwnersVisible(WitnessesOf(front, edge), edge(r), r.seqNo, w);
        WholePrefix(front, w);
      } else {
        OwnersHidden(WitnessesOf(front, edge), edge(r), r.seqNo, w);
      }
    }
  }

  lemma {:induction false} WholePrefix(rows: seq<Row>, w: nat)
    requires Bounded(rows, w)
    ensures Prefix(rows, w) == rows
  {}

  lemma {:induction false} PairsAgree(rows: seq<Row>, edge: EdgeOf, w: nat)
    requires Increasing(rows)
    ensures ProjectPairs(WitnessesOf(rows, edge), w) == PairsOf(Prefix(rows, w), edge)
  {
    if rows != [] {
      var front, r := rows[..|rows| - 1], rows[|rows| - 1];
      PairsAgree(front, edge, w);
      if r.seqNo <= w {
        WitnessesWithin(front, edge, w);
        PairsVisible(WitnessesOf(front, edge), edge(r), r.seqNo, w);
        WholePrefix(front, w);
      } else {
        PairsHidden(WitnessesOf(front, edge), edge(r), r.seqNo, w);
      }
    }
  }

  lemma {:induction false} FirstsAgree(rows: seq<Row>, key: KeyOf, w: nat)
    requires Increasing(rows)
    ensures ProjectFirst(FirstsOf(rows, key), w) == FirstsOf(Prefix(rows, w), key)
  {
    if rows != [] {
      var front, r := rows[..|rows| - 1], rows[|rows| - 1];
      FirstsAgree(front, key, w);
      FirstsWithin(front, key, r.seqNo);
      if r.seqNo <= w {
        WholePrefix(front, w);
      }
    }
  }

  lemma {:induction false} RequestsAgree(rows: seq<Row>, key: KeyOf, w: nat)
    requires Increasing(rows)
    ensures ProjectRequests(RequestsOf(rows, key), w) == RequestsOf(Prefix(rows, w), key)
  {
    if rows != [] {
      var front, r := rows[..|rows| - 1], rows[|rows| - 1];
      RequestsAgree(front, key, w);
      if r.seqNo <= w {
        RequestsVisible(RequestsOf(front, key), key(r), r.seqNo, w);
        WholePrefix(front, w);
      } else {
        RequestsHidden(RequestsOf(front, key), key(r), r.seqNo, w);
      }
    }
  }

  // ---------------------------------------------------------------- the whole state

  /** What the collector keeps. */
  datatype Joined = Joined(updates: map<Token, nat>, updateOwners: Witnesses, processSources: Witnesses, commitOwners: Witnesses,
                           segmentOwners: Witnesses, planOwners: Witnesses, requestPlans: Witnesses, requestRows: map<Token, seq<nat>>)

  /** What a query reads. */
  datatype Context = Context(updates: map<Token, nat>, updateWitnesses: map<(Token, Label), nat>, updateOwners: Owners,
                             processSources: Owners, commitOwners: Owners, segmentOwners: Owners, planOwners: Owners,
                             requestPlans: Owners, requestRows: map<Token, seq<nat>>)

  function JoinedOf(rows: seq<Row>): Joined {
    Joined(FirstsOf(rows, UpdateOf), WitnessesOf(rows, UpdateEdge), WitnessesOf(rows, ProcessEdge), WitnessesOf(rows, CommitEdge),
           WitnessesOf(rows, SegmentEdge), WitnessesOf(rows, PlanEdge), WitnessesOf(rows, RequestPlanEdge), RequestsOf(rows, RequestOf))
  }

  function Snapshot(j: Joined, w: nat): Context {
    Context(ProjectFirst(j.updates, w), ProjectPairs(j.updateOwners, w), ProjectOwners(j.updateOwners, w),
            ProjectOwners(j.processSources, w), ProjectOwners(j.commitOwners, w), ProjectOwners(j.segmentOwners, w),
            ProjectOwners(j.planOwners, w), ProjectOwners(j.requestPlans, w), ProjectRequests(j.requestRows, w))
  }

  function RebuildOf(rows: seq<Row>): Context {
    Context(FirstsOf(rows, UpdateOf), PairsOf(rows, UpdateEdge), OwnersOf(rows, UpdateEdge), OwnersOf(rows, ProcessEdge),
            OwnersOf(rows, CommitEdge), OwnersOf(rows, SegmentEdge), OwnersOf(rows, PlanEdge), OwnersOf(rows, RequestPlanEdge),
            RequestsOf(rows, RequestOf))
  }

  /** The index kept over all rows, projected at any prefix, is the index rebuilt
      from the rows of that prefix alone. */
  lemma {:induction false} SnapshotIsRebuild(rows: seq<Row>, w: nat)
    requires Increasing(rows)
    ensures Snapshot(JoinedOf(rows), w) == RebuildOf(Prefix(rows, w))
  {
    FirstsAgree(rows, UpdateOf, w);
    PairsAgree(rows, UpdateEdge, w);
    OwnersAgree(rows, UpdateEdge, w);
    OwnersAgree(rows, ProcessEdge, w);
    OwnersAgree(rows, CommitEdge, w);
    OwnersAgree(rows, SegmentEdge, w);
    OwnersAgree(rows, PlanEdge, w);
    OwnersAgree(rows, RequestPlanEdge, w);
    RequestsAgree(rows, RequestOf, w);
  }

  lemma {:induction false} PrefixIgnoresLater(rows: seq<Row>, more: seq<Row>, w: nat)
    requires forall i :: 0 <= i < |more| ==> more[i].seqNo > w
    ensures Prefix(rows + more, w) == Prefix(rows, w)
    decreases |more|
  {
    if more == [] {
      assert rows + more == rows;
    } else {
      assert (rows + more)[..|rows + more| - 1] == rows + more[..|more| - 1];
      PrefixIgnoresLater(rows, more[..|more| - 1], w);
    }
  }

  /** So publication never changes what a pinned prefix shows. */
  lemma {:induction false} LaterRowsHidden(rows: seq<Row>, more: seq<Row>, w: nat)
    requires Increasing(rows + more) && forall i :: 0 <= i < |more| ==> more[i].seqNo > w
    ensures Snapshot(JoinedOf(rows + more), w) == Snapshot(JoinedOf(rows), w)
  {
    assert forall i :: 0 <= i < |rows| ==> rows[i] == (rows + more)[i];
    SnapshotIsRebuild(rows + more, w);
    SnapshotIsRebuild(rows, w);
    PrefixIgnoresLater(rows, more, w);
  }

  // ---------------------------------------------------------------- the objects

  class JoinState {
    var updates: map<Token, nat>
    var updateOwners: Witnesses
    var processSources: Witnesses
    var commitOwners: Witnesses
    var segmentOwners: Witnesses
    var planOwners: Witnesses
    var requestPlans: Witnesses
    var requestRows: map<Token, seq<nat>>

    constructor ()
      ensures Contents() == JoinedOf([])
    {
      updates, updateOwners, processSources, commitOwners := map[], map[], map[], map[];
      segmentOwners, planOwners, requestPlans, requestRows := map[], map[], map[], map[];
    }

    function Contents(): Joined
      reads this
    {
      Joined(updates, updateOwners, processSources, commitOwners, segmentOwners, planOwners, requestPlans, requestRows)
    }

    method RememberUpdate(r: Row)
      modifies this`updates, this`updateOwners
      ensures updates == AddFirst(old(updates), UpdateOf(r), r.seqNo)
      ensures updateOwners == AddWitness(old(updateOwners), UpdateEdge(r), r.seqNo)
    {
      if !Observer(r) && r.update.Some? {
        var u := r.update.value;
        if u !in updates || r.seqNo < updates[u] {
          updates := updates[u := r.seqNo];
        }
        updateOwners := AddWitness(updateOwners, Some((u, Owner(r.source, r.process))), r.seqNo);
      }
    }

    method RememberOwners(r: Row)
      modifies this`processSources, this`commitOwners, this`segmentOwners
      ensures processSources == AddWitness(old(processSources), ProcessEdge(r), r.seqNo)
      ensures commitOwners == AddWitness(old(commitOwners), CommitEdge(r), r.seqNo)
      ensures segmentOwners == AddWitness(old(segmentOwners), SegmentEdge(r), r.seqNo)
    {
      if Observer(r) {
        return;
      }
      if r.process.Some? {
        processSources := AddWitness(processSources, ProcessEdge(r), r.seqNo);
      }
      if r.commit.Some? {
        commitOwners := AddWitness(commitOwners, CommitEdge(r), r.seqNo);
      }
      if r.segment.Some? {
        segmentOwners := AddWitness(segmentOwners, SegmentEdge(r), r.seqNo);
      }
    }

    method RememberRequest(r: Row)
      modifies this`requestRows, this`planOwners, this`requestPlans
      ensures requestRows == AddRequest(old(requestRows), RequestOf(r), r.seqNo)
      ensures planOwners == AddWitness(old(planOwners), PlanEdge(r), r.seqNo)
      ensures requestPlans == AddWitness(old(requestPlans), RequestPlanEdge(r), r.seqNo)
    {
      if r.daemon.None? || !r.daemon.value.isRequest || r.daemon.value.request.None? {
        return;
      }
      var request := r.daemon.value.request.value;
      requestRows := requestRows[request := (if request in requestRows then requestRows[request] else []) + [r.seqNo]];
      if r.daemon.value.plan.Some? {
        var plan := r.daemon.value.plan.value;
        planOwners := AddWitness(planOwners, Some((plan, Name(request))), r.seqNo);
        requestPlans := AddWitness(requestPlans, Some((request, Name(plan))), r.seqNo);
      }
    }

    /** Publication of one more row keeps the index that of all rows. */
    method Remember(r: Row, ghost rows: seq<Row>)
      requires Contents() == JoinedOf(rows)
      modifies this
      ensures Contents() == JoinedOf(rows + [r])
    {
      RememberUpdate(r);
      RememberOwners(r);
      RememberRequest(r);
      assert (rows + [r])[..|rows|] == rows;
    }
  }

  /** Remembering the published rows one by one and projecting the result at w gives
      the context rebuilt from the rows of the prefix. */
  method KeepAndProject(rows: seq<Row>, w: nat) returns (kept: Context)
    requires Increasing(rows)
    ensures kept == RebuildOf(Prefix(rows, w))
  {
    var state := new JoinState();
    for i := 0 to |rows|
      invariant fresh(state) && state.Contents() == JoinedOf(rows[..i])
    {
      assert rows[..i] + [rows[i]] == rows[..i + 1];
      state.Remember(rows[i], rows[..i]);
    }
    assert rows[..|rows|] == rows;
    kept := Snapshot(state.Contents(), w);
    SnapshotIsRebuild(rows, w);
  }

  /** The rebuild: nine tables filled from the rows in one loop. */
  class RelationContext {
    var updates: map<Token, nat>
    var updateWitnesses: map<(Token, Label), nat>
    var updateOwners: Owners
    var processSources: Owners
    var commitOwners: Owners
    var segmentOwners: Owners
    var planOwners: Owners
    var requestPlans: Owners
    var requestRows: map<Token, seq<nat>>

    constructor (rows: seq<Row>)
      ensures Contents() == RebuildOf(rows)
    {
      updates, updateWitnesses, updateOwners, processSources, commitOwners := map[], map[], map[], map[], map[];
      segmentOwners, planOwners, requestPlans, requestRows := map[], map[], map[], map[];
      new;
      for i := 0 to |rows|
        invariant Contents() == RebuildOf(rows[..i])
      {
        assert rows[..i] + [rows[i]] == rows[..i + 1];
        Add(rows[i], rows[..i]);
      }
      assert rows[..|rows|] == rows;
    }

    function Contents(): Context
      reads this
    {
      Context(updates, updateWitnesses, updateOwners, processSources, commitOwners, segmentOwners, planOwners, requestPlans, requestRows)
    }

    method AddUpdate(r: Row)
      modifies this`updates, this`updateWitnesses, this`updateOwners
      ensures updates == AddFirst(old(updates), UpdateOf(r), r.seqNo)
      ensures updateWitnesses == AddPair(old(updateWitnesses), UpdateEdge(r), r.seqNo)
      ensures updateOwners == AddOwner(old(updateOwners), UpdateEdge(r))
    {
      if !Observer(r) && r.update.Some? {
        var u := r.update.value;
        var owner := Owner(r.source, r.process);
        updates := updates[u := if u in updates then Min(updates[u], r.seqNo) else r.seqNo];
        if (u, owner) !in updateWitnesses {
          updateWitnesses := updateWitnesses[(u, owner) := r.seqNo];
        }
        updateOwners := AddOwner(updateOwners, Some((u, owner)));
      }
    }

    method AddOwners(r: Row)
      modifies this`processSources, this`commitOwners, this`segmentOwners
      ensures processSources == AddOwner(old(processSources), ProcessEdge(r))
      ensures commitOwners == AddOwner(old(commitOwners), CommitEdge(r))
      ensures segmentOwners == AddOwner(old(segmentOwners), SegmentEdge(r))
    {
      processSources := AddOwner(processSources, ProcessEdge(r));
      commitOwners := AddOwner(commitOwners, CommitEdge(r));
      segmentOwners := AddOwner(segmentOwners, SegmentEdge(r));
    }

    method AddDaemon(r: Row)
      modifies this`requestRows, this`planOwners, this`requestPlans
      ensures requestRows == AddRequest(old(requestRows), RequestOf(r), r.seqNo)
      ensures planOwners == AddOwner(old(planOwners), PlanEdge(r))
      ensures requestPlans == AddOwner(old(requestPlans), RequestPlanEdge(r))
    {
      requestRows := AddRequest(requestRows, RequestOf(r), r.seqNo);
      planOwners := AddOwner(planOwners, PlanEdge(r));
      requestPlans := AddOwner(requestPlans, RequestPlanEdge(r));
    }

    method Add(r: Row, ghost rows: seq<Row>)
      requires Contents() == RebuildOf(rows)
      modifies this
      ensures Contents() == RebuildOf(rows + [r])
    {
      AddUpdate(r);
      AddOwners(r);
      AddDaemon(r);
      assert (rows + [r])[..|rows|] == rows;
    }
  }
}
