/** Relation statuses over the join indexes of a prefix (archive/querying.py,
    token_relation, process_relation, association and request_link). */
module Relations {
  import opened Common
  import opened JoinIndex

  datatype Status = Absent | NotObserved | Unmatched | Valid | Conflicting | Stale | UnknownOwner | Invalid | Malformed | Unknown
    | NotIssued | Linked(seqNo: nat) | Ambiguous

  // ---------------------------------------------------------------- what rows declare

  /** A capture row; plugin and daemon rows only refer to what others declare. */
  predicate Captures(r: Row) {
    r.kind.Capture?
  }

  /** A daemon request with this identifier. */
  predicate Requests(r: Row, id: Token) {
    r.daemon.Some? && r.daemon.value.isRequest && r.daemon.value.request == Some(id)
  }

  ghost predicate UpdateUnder(rows: seq<Row>, u: Token, owner: Label) {
    exists i :: 0 <= i < |rows| && Captures(rows[i]) && rows[i].update == Some(u) && owner == Owner(rows[i].source, rows[i].process)
  }

  ghost predicate CommitUnder(rows: seq<Row>, t: Token, owner: Label) {
    exists i :: 0 <= i < |rows| && Captures(rows[i]) && rows[i].commit == Some(t) && owner == Owner(rows[i].source, rows[i].process)
  }

  ghost predicate SegmentUnder(rows: seq<Row>, t: Token, owner: Label) {
    exists i :: 0 <= i < |rows| && Captures(rows[i]) && rows[i].segment == Some(t) && owner == Owner(rows[i].source, rows[i].process)
  }

  ghost predicate ProcessUnder(rows: seq<Row>, t: Token, owner: Label) {
    exists i :: 0 <= i < |rows| && Captures(rows[i]) && rows[i].process == Some(t) && owner == Source(rows[i].source)
  }

  /** A daemon request of the prefix gives this plan for this identifier. */
  ghost predicate Gives(rows: seq<Row>, id: Token, plan: Token) {
    exists i :: 0 <= i < |rows| && Requests(rows[i], id) && rows[i].daemon.value.plan == Some(plan)
  }

  // ---------------------------------------------------------------- what the tables mean

  ghost predicate HasEdge(rows: seq<Row>, edge: EdgeOf, key: Token, mark: Label) {
    exists i :: 0 <= i < |rows| && edge(rows[i]) == Some((key, mark))
  }

  function MarksAt(o: Owners, key: Token): set<Label> {
    if key in o then o[key] else {}
  }

  lemma {:induction false} EdgeAppend(rows: seq<Row>, r: Row, edge: EdgeOf, key: Token, mark: Label)
    ensures HasEdge(rows + [r], edge, key, mark) <==> HasEdge(rows, edge, key, mark) || edge(r) == Some((key, mark))
  {
    var all := rows + [r];
    if HasEdge(rows, edge, key, mark) {
      var i :| 0 <= i < |rows| && edge(rows[i]) == Some((key, mark));
      assert all[i] == rows[i];
    }
    assert all[|rows|] == r;
    if HasEdge(all, edge, key, mark) {
      var i :| 0 <= i < |all| && edge(all[i]) == Some((key, mark));
      assert i < |rows| ==> all[i] == rows[i];
    }
  }

  /** An owner is recorded for a token exactly when some row declares the pair. */
  lemma {:induction false} OwnersMean(rows: seq<Row>, edge: EdgeOf, key: Token, mark: Label)
    ensures mark in MarksAt(OwnersOf(rows, edge), key) <==> HasEdge(rows, edge, key, mark)
    ensures key in OwnersOf(rows, edge) ==> OwnersOf(rows, edge)[key] != {}
  {
    if rows != [] {
      var front, r := rows[..|rows| - 1], rows[|rows| - 1];
      OwnersMean(front, edge, key, mark);
      EdgeAppend(front, r, edge, key, mark);
      assert front + [r] == rows;
    }
  }

  lemma {:induction false} CaptureEdges(rows: seq<Row>, t: Token, owner: Label)
    ensures HasEdge(rows, UpdateEdge, t, owner) <==> UpdateUnder(rows, t, owner)
    ensures HasEdge(rows, CommitEdge, t, owner) <==> CommitUnder(rows, t, owner)
    ensures HasEdge(rows, SegmentEdge, t, owner) <==> SegmentUnder(rows, t, owner)
    ensures HasEdge(rows, ProcessEdge, t, owner) <==> ProcessUnder(rows, t, owner)
  {
    forall r: Row, o
      ensures UpdateEdge(r) == Some((t, o)) <==> Captures(r) && r.update == Some(t) && o == Owner(r.source, r.process)
      ensures CommitEdge(r) == Some((t, o)) <==> Captures(r) && r.commit == Some(t) && o == Owner(r.source, r.process)
      ensures SegmentEdge(r) == Some((t, o)) <==> Captures(r) && r.segment == Some(t) && o == Owner(r.source, r.process)
      ensures ProcessEdge(r) == Some((t, o)) <==> Captures(r) && r.process == Some(t) && o == Source(r.source)
    {}
  }

  lemma {:induction false} RequestEdges(rows: seq<Row>, id: Token, plan: Token)
    ensures HasEdge(rows, PlanEdge, plan, Name(id)) <==> Gives(rows, id, plan)
    ensures HasEdge(rows, RequestPlanEdge, id, Name(plan)) <==> Gives(rows, id, plan)
  {
    forall r: Row
      ensures PlanEdge(r) == Some((plan, Name(id))) <==> Requests(r, id) && r.daemon.value.plan == Some(plan)
      ensures RequestPlanEdge(r) == Some((id, Name(plan))) <==> Requests(r, id) && r.daemon.value.plan == Some(plan)
    {}
  }

  lemma {:induction false} RequestMarks(rows: seq<Row>, t: Token, m: Label)
    ensures HasEdge(rows, PlanEdge, t, m) || HasEdge(rows, RequestPlanEdge, t, m) ==> m.Name?
  {}

  /** The pair table names a row that declares the pair, when there is one. */
  lemma {:induction false} PairsMean(rows: seq<Row>, edge: EdgeOf, key: Token, mark: Label)
    ensures (key, mark) in PairsOf(rows, edge) <==> HasEdge(rows, edge, key, mark)
    ensures (key, mark) in PairsOf(rows, edge) ==>
      exists i :: 0 <= i < |rows| && edge(rows[i]) == Some((key, mark)) && rows[i].seqNo == PairsOf(rows, edge)[(key, mark)]
  {
    if rows != [] {
      var front, r := rows[..|rows| - 1], rows[|rows| - 1];
      PairsMean(front, edge, key, mark);
      EdgeAppend(front, r, edge, key, mark);
      assert front + [r] == rows;
      if (key, mark) in PairsOf(front, edge) {
        var i :| 0 <= i < |front| && edge(front[i]) == Some((key, mark)) && front[i].seqNo == PairsOf(front, edge)[(key, mark)];
        assert rows[i] == front[i];
      }
      assert rows[|front|] == r;
    }
  }

  ghost predicate Declares(rows: seq<Row>, u: Token) {
    exists i :: 0 <= i < |rows| && Captures(rows[i]) && rows[i].update == Some(u)
  }

  lemma {:induction false} DeclaresAppend(rows: seq<Row>, r: Row, u: Token)
    ensures Declares(rows + [r], u) <==> Declares(rows, u) || UpdateOf(r) == Some(u)
  {
    var all := rows + [r];
    assert all[|rows|] == r && forall i :: 0 <= i < |rows| ==> all[i] == rows[i];
  }

  /** The unscoped table holds the least number of a row that declares the update. */
  lemma {:induction false} FirstsMean(rows: seq<Row>, u: Token)
    ensures u in FirstsOf(rows, UpdateOf) <==> Declares(rows, u)
    ensures u in FirstsOf(rows, UpdateOf) ==>
      && (exists i :: 0 <= i < |rows| && UpdateOf(rows[i]) == Some(u) && rows[i].seqNo == FirstsOf(rows, UpdateOf)[u])
      && (forall i :: 0 <= i < |rows| && UpdateOf(rows[i]) == Some(u) ==> FirstsOf(rows, UpdateOf)[u] <= rows[i].seqNo)
  {
    if rows != [] {
      var front, r := rows[..|rows| - 1], rows[|rows| - 1];
      FirstsMean(front, u);
      assert front + [r] == rows;
      DeclaresAppend(front, r, u);
      if u in FirstsOf(front, UpdateOf) {
        var i :| 0 <= i < |front| && UpdateOf(front[i]) == Some(u) && front[i].seqNo == FirstsOf(front, UpdateOf)[u];
        assert UpdateOf(rows[i]) == Some(u);
      }
      assert rows[|front|] == r && forall i :: 0 <= i < |front| ==> front[i] == rows[i];
    }
  }

  lemma {:induction false} EdgesGrow(rows: seq<Row>, more: seq<Row>, edge: EdgeOf, key: Token)
    ensures MarksAt(OwnersOf(rows, edge), key) <= MarksAt(OwnersOf(rows + more, edge), key)
    ensures key in OwnersOf(rows, edge) ==> key in OwnersOf(rows + more, edge)
  {
    forall mark | mark in MarksAt(OwnersOf(rows, edge), key) ensures mark in MarksAt(OwnersOf(rows + more, edge), key) {
      OwnersMean(rows, edge, key, mark);
      OwnersMean(rows + more, edge, key, mark);
      var i :| 0 <= i < |rows| && edge(rows[i]) == Some((key, mark));
      assert (rows + more)[i] == rows[i];
    }
    if key in OwnersOf(rows, edge) {
      OwnersMean(rows, edge, key, Name(""));
      var mark :| mark in OwnersOf(rows, edge)[key];
      assert mark in MarksAt(OwnersOf(rows + more, edge), key);
    }
  }

  lemma {:induction false} LargerSet<T>(a: set<T>, b: set<T>)
    requires a <= b
    ensures |a| <= |b|
    ensures |a| == |b| ==> a == b
  {
    assert b == a + (b - a) && |b| == |a| + |b - a|;
  }

  // ---------------------------------------------------------------- tokens

  const NoOwner := Owner(None, None)

  function TokenStatus(value: Option<Token>, owners: Owners): Status {
    if value.None? then Absent
    else
      var os := if value.value in owners then owners[value.value] else {NoOwner};
      if |os| > 1 then Conflicting else if NoOwner in os then Unmatched else Valid
  }

  function TokenRank(s: Status): int {
    if s.Unmatched? then 0 else if s.Valid? then 1 else 2
  }

  /** Two rows that claim the token under different owners. */
  ghost predicate Disputed(rows: seq<Row>, edge: EdgeOf, u: Token) {
    exists m, n :: m != n && HasEdge(rows, edge, u, m) && HasEdge(rows, edge, u, n)
  }

  lemma {:induction false} TwoMembers<T>(s: set<T>)
    ensures |s| > 1 <==> exists m, n :: m != n && m in s && n in s
  {
    if |s| > 1 {
      var m :| m in s;
      assert |s - {m}| > 0;
      var n :| n in s - {m};
    } else if m, n :| m != n && m in s && n in s {
      LargerSet({m, n}, s);
    }
  }

  /** A token is conflicting exactly when two rows claim it under different owners,
      and valid exactly when some row names an owner and no two differ. */
  lemma {:induction false} TokenMeans(rows: seq<Row>, edge: EdgeOf, u: Token)
    ensures var s := TokenStatus(Some(u), OwnersOf(rows, edge));
      && (s == Conflicting <==> Disputed(rows, edge, u))
      && (s == Valid <==> !Disputed(rows, edge, u) && exists m :: m != NoOwner && HasEdge(rows, edge, u, m))
      && s in {Unmatched, Valid, Conflicting}
  {
    var os := MarksAt(OwnersOf(rows, edge), u);
    forall m ensures m in os <==> HasEdge(rows, edge, u, m) {
      OwnersMean(rows, edge, u, m);
    }
    TwoMembers(os);
    OwnersMean(rows, edge, u, NoOwner);
    if u in OwnersOf(rows, edge) {
      var m :| m in os;
      if |os| <= 1 {
        assert forall n :: n in os ==> n == m;
      }
    }
  }

  /** A status of a token that the rows put under owners. */
  ghost predicate OwnedStatus(s: Status, under: Label -> bool) {
    && (s == Conflicting <==> exists m, n :: m != n && under(m) && under(n))
    && (s == Valid <==> (exists m :: m != NoOwner && under(m)) && forall m, n :: under(m) && under(n) ==> m == n)
    && s in {Unmatched, Valid, Conflicting}
  }

  /** So for updates, commits and segments: what counts is the owners under which capture
      rows of the prefix declare the token. */
  lemma {:induction false} TokensMean(rows: seq<Row>, t: Token)
    ensures var c := RebuildOf(rows);
      && OwnedStatus(TokenStatus(Some(t), c.updateOwners), o => UpdateUnder(rows, t, o))
      && OwnedStatus(TokenStatus(Some(t), c.commitOwners), o => CommitUnder(rows, t, o))
      && OwnedStatus(TokenStatus(Some(t), c.segmentOwners), o => SegmentUnder(rows, t, o))
  {
    forall o ensures HasEdge(rows, UpdateEdge, t, o) <==> UpdateUnder(rows, t, o)
      ensures HasEdge(rows, CommitEdge, t, o) <==> CommitUnder(rows, t, o)
      ensures HasEdge(rows, SegmentEdge, t, o) <==> SegmentUnder(rows, t, o)
    {
      CaptureEdges(rows, t, o);
    }
    OneTokenMeans(rows, UpdateEdge, t, o => UpdateUnder(rows, t, o));
    OneTokenMeans(rows, CommitEdge, t, o => CommitUnder(rows, t, o));
    OneTokenMeans(rows, SegmentEdge, t, o => SegmentUnder(rows, t, o));
  }

  lemma {:induction false} OneTokenMeans(rows: seq<Row>, edge: EdgeOf, t: Token, under: Label -> bool)
    requires forall o :: HasEdge(rows, edge, t, o) <==> under(o)
    ensures OwnedStatus(TokenStatus(Some(t), OwnersOf(rows, edge)), under)
  {
    TokenMeans(rows, edge, t);
  }

  /** For a fixed token the status only climbs as the prefix grows. */
  lemma {:induction false} TokenClimbs(rows: seq<Row>, more: seq<Row>, edge: EdgeOf, u: Token)
    ensures TokenRank(TokenStatus(Some(u), OwnersOf(rows, edge))) <= TokenRank(TokenStatus(Some(u), OwnersOf(rows + more, edge)))
  {
    EdgesGrow(rows, more, edge, u);
    OwnersMean(rows, edge, u, NoOwner);
    if u in OwnersOf(rows, edge) {
      LargerSet(OwnersOf(rows, edge)[u], OwnersOf(rows + more, edge)[u]);
    }
  }

  // ---------------------------------------------------------------- processes

  /** Sources recorded for a process, without missing or empty ones. */
  function NamedSources(owners: Owners, process: Token): set<Label> {
    set o | o in MarksAt(owners, process) && o.Source? && o.id.Some? && o.id.value != ""
  }

  function ProcessStatus(owners: Owners, observer: bool, source: Option<Token>, value: Option<Token>): Status {
    if value.None? then Absent
    else
      var os := NamedSources(owners, value.value);
      if os == {} then NotObserved
      else if |os| > 1 then Conflicting
      else if observer || Source(source) in os then Valid
      else Unmatched
  }

  function ProcessRank(s: Status): int {
    if s.NotObserved? then 0 else if s.Conflicting? then 2 else 1
  }

  /** Once observed, a process keeps its status until a second source claims it. */
  lemma {:induction false} ProcessClimbs(rows: seq<Row>, more: seq<Row>, observer: bool, source: Option<Token>, process: Token)
    ensures var before := ProcessStatus(OwnersOf(rows, ProcessEdge), observer, source, Some(process));
      var after := ProcessStatus(OwnersOf(rows + more, ProcessEdge), observer, source, Some(process));
      ProcessRank(before) <= ProcessRank(after) && (ProcessRank(before) == ProcessRank(after) ==> before == after)
  {
    EdgesGrow(rows, more, ProcessEdge, process);
    LargerSet(NamedSources(OwnersOf(rows, ProcessEdge), process), NamedSources(OwnersOf(rows + more, ProcessEdge), process));
  }

  /** A row of the prefix records the process under a source that is named. */
  ghost predicate RunBy(rows: seq<Row>, process: Token, source: Label) {
    source.Source? && source.id.Some? && source.id.value != "" && ProcessUnder(rows, process, source)
  }

  ghost predicate OnlyRunBy(rows: seq<Row>, process: Token, source: Label) {
    forall o :: RunBy(rows, process, o) ==> o == source
  }

  /** A process is observed exactly when a row records it under a named source; it is
      conflicting exactly when two rows name different ones; and for one source it is
      valid to the observer and to that source alone. */
  lemma {:induction false} ProcessMeans(rows: seq<Row>, observer: bool, source: Option<Token>, process: Token)
    ensures var s := ProcessStatus(OwnersOf(rows, ProcessEdge), observer, source, Some(process));
      && (s == NotObserved <==> forall o :: !RunBy(rows, process, o))
      && (s == Conflicting <==> exists o, q :: o != q && RunBy(rows, process, o) && RunBy(rows, process, q))
      && (s == Valid <==> exists o :: RunBy(rows, process, o) && OnlyRunBy(rows, process, o) && (observer || o == Source(source)))
      && s in {NotObserved, Conflicting, Valid, Unmatched}
  {
    var os := NamedSources(OwnersOf(rows, ProcessEdge), process);
    forall o ensures o in os <==> RunBy(rows, process, o) {
      OwnersMean(rows, ProcessEdge, process, o);
      CaptureEdges(rows, process, o);
    }
    TwoMembers(os);
    if os != {} {
      var o :| o in os;
      assert RunBy(rows, process, o);
      if |os| <= 1 {
        assert forall q :: q in os ==> q == o;
      }
    }
  }

  // ---------------------------------------------------------------- associations

  datatype Mark = MAbsent | MInvalid | MMalformed | MUnknown | MOther

  datatype Reference = Missing | Text(token: Token) | NotText

  /** A plugin row's declared entry context. */
  datatype Plugin = Plugin(role: Mark, read: Mark, source: Reference, process: Reference, update: Reference)

  function TokenOf(r: Reference): Option<Token> {
    if r.Text? then Some(r.token) else None
  }

  /** The last row with this durable number. */
  function RowWith(rows: seq<Row>, s: nat): Option<Row> {
    if rows == [] then None
    else if rows[|rows| - 1].seqNo == s then Some(rows[|rows| - 1])
    else RowWith(rows[..|rows| - 1], s)
  }

  lemma {:induction false} RowWithUnique(rows: seq<Row>, i: nat)
    requires Increasing(rows) && i < |rows|
    ensures RowWith(rows, rows[i].seqNo) == Some(rows[i])
  {
    if i < |rows| - 1 {
      RowWithUnique(rows[..|rows| - 1], i);
    }
  }

  function Witness(c: Context, update: Token, owner: Label): Option<nat> {
    if (update, owner) in c.updateWitnesses then Some(c.updateWitnesses[(update, owner)])
    else if update in c.updates then Some(c.updates[update])
    else None
  }

  function AssociationStatus(c: Context, rows: seq<Row>, p: Plugin): Status {
    if p.role.MAbsent? then Absent
    else if p.role.MInvalid? || p.read.MInvalid? then Invalid
    else if p.read.MMalformed? then Malformed
    else if p.role.MUnknown? || p.read.MUnknown? then Unknown
    else if p.source.Missing? && p.process.Missing? && p.update.Missing? then Absent
    else if p.source.NotText? || p.process.NotText? || p.update.NotText? then Malformed
    else if p.update.Missing? then Unmatched
    else
      var source, process := TokenOf(p.source), TokenOf(p.process);
      match Witness(c, p.update.token, Owner(source, process))
      case None => Unmatched
      case Some(s) =>
        var row := RowWith(rows, s);
        var rowSource := if row.Some? then row.value.source else None;
        var rowProcess := if row.Some? then row.value.process else None;
        if source.Some? && source != rowSource then Stale
        else if process.Some? && process != rowProcess then Stale
        else if source.None? || process.None? then UnknownOwner
        else Valid
  }

  /** A reference that names source, process and update, and is neither absent nor marked. */
  predicate FullyQualified(p: Plugin) {
    && !p.role.MAbsent? && !p.role.MInvalid? && !p.role.MUnknown?
    && !p.read.MInvalid? && !p.read.MMalformed? && !p.read.MUnknown?
    && p.source.Text? && p.process.Text? && p.update.Text?
  }

  lemma {:induction false} WitnessRow(rows: seq<Row>, u: Token, owner: Label) returns (i: nat)
    requires Increasing(rows) && Declares(rows, u)
    ensures i < |rows| && Witness(RebuildOf(rows), u, owner) == Some(rows[i].seqNo) && UpdateOf(rows[i]) == Some(u)
    ensures RowWith(rows, rows[i].seqNo) == Some(rows[i])
    ensures Owner(rows[i].source, rows[i].process) == owner <==> HasEdge(rows, UpdateEdge, u, owner)
  {
    PairsMean(rows, UpdateEdge, u, owner);
    FirstsMean(rows, u);
    if HasEdge(rows, UpdateEdge, u, owner) {
      i :| 0 <= i < |rows| && UpdateEdge(rows[i]) == Some((u, owner)) && rows[i].seqNo == PairsOf(rows, UpdateEdge)[(u, owner)];
    } else {
      i :| 0 <= i < |rows| && UpdateOf(rows[i]) == Some(u) && rows[i].seqNo == FirstsOf(rows, UpdateOf)[u];
      assert UpdateEdge(rows[i]) == Some((u, Owner(rows[i].source, rows[i].process)));
    }
    RowWithUnique(rows, i);
  }

  /** A fully qualified reference is valid exactly when some capture row of the prefix
      declares that update under that source and process, stale exactly when the
      update is declared but only under other owners, and unmatched otherwise. */
  lemma {:induction false} AssociationMeans(rows: seq<Row>, p: Plugin)
    requires Increasing(rows) && FullyQualified(p)
    ensures var owner := Owner(Some(p.source.token), Some(p.process.token));
      AssociationStatus(RebuildOf(rows), rows, p) ==
        if UpdateUnder(rows, p.update.token, owner) then Valid
        else if Declares(rows, p.update.token) then Stale
        else Unmatched
  {
    var u, owner := p.update.token, Owner(Some(p.source.token), Some(p.process.token));
    CaptureEdges(rows, u, owner);
    if Declares(rows, u) {
      var i := WitnessRow(rows, u, owner);
    } else {
      PairsMean(rows, UpdateEdge, u, owner);
      FirstsMean(rows, u);
      assert forall i :: 0 <= i < |rows| && UpdateEdge(rows[i]) == Some((u, owner)) ==> UpdateOf(rows[i]) == Some(u);
    }
  }

  /** Unmatched, then stale, then valid or, when the reference names no owner, unknown. */
  function AssociationRank(s: Status): int {
    if s.Unmatched? then 0 else if s.Stale? then 1 else 2
  }

  lemma {:induction false} FirstsKept(rows: seq<Row>, more: seq<Row>, u: Token)
    requires Increasing(rows + more) && u in FirstsOf(rows, UpdateOf)
    ensures u in FirstsOf(rows + more, UpdateOf) && FirstsOf(rows + more, UpdateOf)[u] == FirstsOf(rows, UpdateOf)[u]
    decreases |more|
  {
    var all := rows + more;
    if more == [] {
      assert all == rows;
    } else {
      var front := rows + more[..|more| - 1];
      assert all[..|all| - 1] == front && forall i :: 0 <= i < |front| ==> front[i] == all[i];
      FirstsKept(rows, more[..|more| - 1], u);
      FirstsWithin(front, UpdateOf, all[|all| - 1].seqNo);
    }
  }

  lemma {:induction false} RowWithKept(rows: seq<Row>, more: seq<Row>, i: nat)
    requires Increasing(rows) && Increasing(rows + more) && i < |rows|
    ensures RowWith(rows + more, rows[i].seqNo) == RowWith(rows, rows[i].seqNo) == Some(rows[i])
  {
    RowWithUnique(rows, i);
    RowWithUnique(rows + more, i);
  }

  /** The reference names an update and is neither absent, marked nor malformed; its
      source or process may be missing. */
  predicate NamesUpdate(p: Plugin) {
    && !p.role.MAbsent? && !p.role.MInvalid? && !p.role.MUnknown?
    && !p.read.MInvalid? && !p.read.MMalformed? && !p.read.MUnknown?
    && !p.source.NotText? && !p.process.NotText? && p.update.Text?
  }

  function OwnerOf(p: Plugin): Label {
    Owner(TokenOf(p.source), TokenOf(p.process))
  }

  /** An update declared under exactly the owner the reference gives settles it. */
  lemma {:induction false} EdgeSettles(rows: seq<Row>, p: Plugin)
    requires Increasing(rows) && NamesUpdate(p) && HasEdge(rows, UpdateEdge, p.update.token, OwnerOf(p))
    ensures AssociationStatus(RebuildOf(rows), rows, p) == if p.source.Missing? || p.process.Missing? then UnknownOwner else Valid
  {
    var u, owner := p.update.token, OwnerOf(p);
    PairsMean(rows, UpdateEdge, u, owner);
    var i :| 0 <= i < |rows| && UpdateEdge(rows[i]) == Some((u, owner)) && rows[i].seqNo == PairsOf(rows, UpdateEdge)[(u, owner)];
    RowWithUnique(rows, i);
  }

  /** Without one, the first row that declares the update decides, and stays the first. */
  lemma {:induction false} FirstSettles(rows: seq<Row>, more: seq<Row>, p: Plugin)
    requires Increasing(rows) && Increasing(rows + more) && NamesUpdate(p) && Declares(rows, p.update.token)
    requires !HasEdge(rows, UpdateEdge, p.update.token, OwnerOf(p)) && !HasEdge(rows + more, UpdateEdge, p.update.token, OwnerOf(p))
    ensures AssociationStatus(RebuildOf(rows), rows, p) == AssociationStatus(RebuildOf(rows + more), rows + more, p)
  {
    var u, owner := p.update.token, OwnerOf(p);
    PairsMean(rows, UpdateEdge, u, owner);
    PairsMean(rows + more, UpdateEdge, u, owner);
    FirstsMean(rows, u);
    FirstsKept(rows, more, u);
    var i :| 0 <= i < |rows| && UpdateOf(rows[i]) == Some(u) && rows[i].seqNo == FirstsOf(rows, UpdateOf)[u];
    RowWithKept(rows, more, i);
  }

  lemma {:induction false} Undeclared(rows: seq<Row>, p: Plugin)
    requires NamesUpdate(p) && !Declares(rows, p.update.token)
    ensures AssociationStatus(RebuildOf(rows), rows, p) == Unmatched
  {
    var u, owner := p.update.token, OwnerOf(p);
    PairsMean(rows, UpdateEdge, u, owner);
    FirstsMean(rows, u);
    assert forall i :: 0 <= i < |rows| && UpdateEdge(rows[i]) == Some((u, owner)) ==> UpdateOf(rows[i]) == Some(u);
  }

  /** Row i is the first of the prefix to declare the update. */
  ghost predicate FirstFor(rows: seq<Row>, u: Token, i: int) {
    && 0 <= i < |rows| && Captures(rows[i]) && rows[i].update == Some(u)
    && forall j :: 0 <= j < i ==> !(Captures(rows[j]) && rows[j].update == Some(u))
  }

  /** What the reference names of its owner is not what the row has. */
  predicate Contradicts(p: Plugin, r: Row) {
    (p.source.Text? && r.source != Some(p.source.token)) || (p.process.Text? && r.process != Some(p.process.token))
  }

  /** A reference that leaves out source or process: unknown when the update is declared
      under just what it names, else stale when the first row that declares it
      contradicts what is named, else unknown; unmatched when none declares it. */
  lemma {:induction false} PartialMeans(rows: seq<Row>, p: Plugin, i: int)
    requires Increasing(rows) && NamesUpdate(p) && (p.source.Missing? || p.process.Missing?)
    ensures var s, u := AssociationStatus(RebuildOf(rows), rows, p), p.update.token;
      && (!Declares(rows, u) ==> s == Unmatched)
      && (FirstFor(rows, u, i) ==> s == if !UpdateUnder(rows, u, OwnerOf(p)) && Contradicts(p, rows[i]) then Stale else UnknownOwner)
  {
    var u := p.update.token;
    CaptureEdges(rows, u, OwnerOf(p));
    if !Declares(rows, u) {
      Undeclared(rows, p);
    } else if HasEdge(rows, UpdateEdge, u, OwnerOf(p)) {
      EdgeSettles(rows, p);
    } else if FirstFor(rows, u, i) {
      PairsMean(rows, UpdateEdge, u, OwnerOf(p));
      FirstIs(rows, u, i);
      RowWithUnique(rows, i);
    }
  }

  lemma {:induction false} FirstIs(rows: seq<Row>, u: Token, i: int)
    requires Increasing(rows) && FirstFor(rows, u, i)
    ensures u in FirstsOf(rows, UpdateOf) && FirstsOf(rows, UpdateOf)[u] == rows[i].seqNo
  {
    FirstsMean(rows, u);
    assert UpdateOf(rows[i]) == Some(u);
    var k :| 0 <= k < |rows| && UpdateOf(rows[k]) == Some(u) && rows[k].seqNo == FirstsOf(rows, UpdateOf)[u];
    assert Captures(rows[k]) && rows[k].update == Some(u);
  }

  /** A reference that is marked or malformed, or names no update, is answered by the
      first of its faults, whatever the rows are. */
  lemma {:induction false} MarksMean(rows: seq<Row>, p: Plugin)
    ensures var s := AssociationStatus(RebuildOf(rows), rows, p);
      var invalid := p.role.MInvalid? || p.read.MInvalid?;
      var unknown := p.role.MUnknown? || p.read.MUnknown?;
      var none := p.source.Missing? && p.process.Missing? && p.update.Missing?;
      var notText := p.source.NotText? || p.process.NotText? || p.update.NotText?;
      && (s == Invalid <==> !p.role.MAbsent? && invalid)
      && (s == Unknown <==> !p.role.MAbsent? && !invalid && !p.read.MMalformed? && unknown)
      && (s == Malformed <==> !p.role.MAbsent? && !invalid && (p.read.MMalformed? || (!unknown && notText)))
      && (s == Absent <==> p.role.MAbsent? || (!invalid && !unknown && !p.read.MMalformed? && none))
      && (s == Unmatched ==> !none && !notText) && (p.update.Missing? ==> s in {Invalid, Unknown, Malformed, Absent, Unmatched})
  {}

  /** For any fixed reference, partial ones included, the status only climbs. */
  lemma {:induction false} AssociationClimbs(rows: seq<Row>, more: seq<Row>, p: Plugin)
    requires Increasing(rows + more) && Increasing(rows)
    ensures AssociationRank(AssociationStatus(RebuildOf(rows), rows, p))
      <= AssociationRank(AssociationStatus(RebuildOf(rows + more), rows + more, p))
  {
    if NamesUpdate(p) {
      var u, owner := p.update.token, OwnerOf(p);
      if HasEdge(rows + more, UpdateEdge, u, owner) {
        EdgeSettles(rows + more, p);
      } else if !Declares(rows, u) {
        Undeclared(rows, p);
      } else {
        EdgeStays(rows, more, u, owner);
        FirstSettles(rows, more, p);
      }
    }
  }

  lemma {:induction false} EdgeStays(rows: seq<Row>, more: seq<Row>, u: Token, owner: Label)
    ensures HasEdge(rows, UpdateEdge, u, owner) ==> HasEdge(rows + more, UpdateEdge, u, owner)
  {
    if HasEdge(rows, UpdateEdge, u, owner) {
      var i :| 0 <= i < |rows| && UpdateEdge(rows[i]) == Some((u, owner));
      assert UpdateEdge((rows + more)[i]) == Some((u, owner));
    }
  }

  // ---------------------------------------------------------------- requests and plans

  function RequestStatus(c: Context, noRequest: bool, id: Option<Token>, plan: Option<Token>): Status {
    if noRequest then (if id.Some? && id.value != "" then Invalid else NotIssued)
    else if id.None? || id.value == "" then Unknown
    else
      var records := if id.value in c.requestRows then c.requestRows[id.value] else [];
      var plans := MarksAt(c.requestPlans, id.value);
      if records == [] then Unmatched
      else if |plans| > 1 then Conflicting
      else if plan.Some? && plans != {} && Name(plan.value) !in plans then Conflicting
      else if |records| > 1 then Ambiguous
      else Linked(records[0])
  }

  function PlanStatus(c: Context, plan: Option<Token>): Status {
    if plan.None? then Absent
    else if |MarksAt(c.planOwners, plan.value)| > 1 then Conflicting
    else if plan.value in c.planOwners then Valid
    else Unmatched
  }

  /** Durable numbers of the daemon requests with this identifier, in order. */
  function RequestSeqs(rows: seq<Row>, id: Token): seq<nat> {
    if rows == [] then []
    else RequestSeqs(rows[..|rows| - 1], id) + (if Requests(rows[|rows| - 1], id) then [rows[|rows| - 1].seqNo] else [])
  }

  lemma {:induction false} RequestsMean(rows: seq<Row>, id: Token)
    ensures (if id in RequestsOf(rows, RequestOf) then RequestsOf(rows, RequestOf)[id] else []) == RequestSeqs(rows, id)
  {
    if rows != [] {
      RequestsMean(rows[..|rows| - 1], id);
    }
  }

  // ---------------------------------------------------------------- all nine tables

  /** Every owner that the rows put a token under, and no token without one. */
  ghost predicate Holds(table: Owners, under: (Token, Label) -> bool) {
    && (forall t, o :: o in MarksAt(table, t) <==> under(t, o))
    && (forall t :: t in table ==> table[t] != {})
  }

  /** The first row that declares each update. */
  ghost predicate FirstsAre(rows: seq<Row>, firsts: map<Token, nat>) {
    && (forall u :: u in firsts <==> Declares(rows, u))
    && (forall u :: u in firsts ==> exists i :: 0 <= i < |rows| && Captures(rows[i]) && rows[i].update == Some(u) && rows[i].seqNo == firsts[u])
    && (forall u, i :: u in firsts && 0 <= i < |rows| && Captures(rows[i]) && rows[i].update == Some(u) ==> firsts[u] <= rows[i].seqNo)
  }

  /** A row that declares each update under each owner. */
  ghost predicate WitnessesAre(rows: seq<Row>, pairs: map<(Token, Label), nat>) {
    && (forall u, o :: (u, o) in pairs <==> UpdateUnder(rows, u, o))
    && (forall u, o :: (u, o) in pairs ==> WitnessedBy(rows, u, o, pairs[(u, o)]))
  }

  ghost predicate WitnessedBy(rows: seq<Row>, u: Token, o: Label, s: nat) {
    exists i :: 0 <= i < |rows| && Captures(rows[i]) && rows[i].update == Some(u) && o == Owner(rows[i].source, rows[i].process) && rows[i].seqNo == s
  }

  /** The nine tables, from the rows' own fields. */
  ghost predicate TablesAre(rows: seq<Row>, c: Context) {
    && FirstsAre(rows, c.updates) && WitnessesAre(rows, c.updateWitnesses)
    && Holds(c.updateOwners, (t, o) => UpdateUnder(rows, t, o)) && Holds(c.commitOwners, (t, o) => CommitUnder(rows, t, o))
    && Holds(c.segmentOwners, (t, o) => SegmentUnder(rows, t, o)) && Holds(c.processSources, (t, o) => ProcessUnder(rows, t, o))
    && Holds(c.planOwners, (plan, o: Label) => o.Name? && Gives(rows, o.token, plan))
    && Holds(c.requestPlans, (id, o: Label) => o.Name? && Gives(rows, id, o.token))
    && forall id :: (if id in c.requestRows then c.requestRows[id] else []) == RequestSeqs(rows, id)
  }

  lemma {:induction false} HoldsIs(rows: seq<Row>, edge: EdgeOf, under: (Token, Label) -> bool)
    requires forall t, o :: HasEdge(rows, edge, t, o) <==> under(t, o)
    ensures Holds(OwnersOf(rows, edge), under)
  {
    forall t, o ensures o in MarksAt(OwnersOf(rows, edge), t) <==> under(t, o) {
      OwnersMean(rows, edge, t, o);
    }
    forall t | t in OwnersOf(rows, edge) ensures OwnersOf(rows, edge)[t] != {} {
      OwnersMean(rows, edge, t, Name(""));
    }
  }

  lemma {:induction false} CaptureTables(rows: seq<Row>)
    ensures var c := RebuildOf(rows);
      && Holds(c.updateOwners, (t, o) => UpdateUnder(rows, t, o)) && Holds(c.commitOwners, (t, o) => CommitUnder(rows, t, o))
      && Holds(c.segmentOwners, (t, o) => SegmentUnder(rows, t, o)) && Holds(c.processSources, (t, o) => ProcessUnder(rows, t, o))
  {
    forall t, o ensures HasEdge(rows, UpdateEdge, t, o) <==> UpdateUnder(rows, t, o)
      ensures HasEdge(rows, CommitEdge, t, o) <==> CommitUnder(rows, t, o)
      ensures HasEdge(rows, SegmentEdge, t, o) <==> SegmentUnder(rows, t, o)
      ensures HasEdge(rows, ProcessEdge, t, o) <==> ProcessUnder(rows, t, o)
    {
      CaptureEdges(rows, t, o);
    }
    HoldsIs(rows, UpdateEdge, (t, o) => UpdateUnder(rows, t, o));
    HoldsIs(rows, CommitEdge, (t, o) => CommitUnder(rows, t, o));
    HoldsIs(rows, SegmentEdge, (t, o) => SegmentUnder(rows, t, o));
    HoldsIs(rows, ProcessEdge, (t, o) => ProcessUnder(rows, t, o));
  }

  lemma {:induction false} RequestTables(rows: seq<Row>)
    ensures var c := RebuildOf(rows);
      && Holds(c.planOwners, (plan, o: Label) => o.Name? && Gives(rows, o.token, plan))
      && Holds(c.requestPlans, (id, o: Label) => o.Name? && Gives(rows, id, o.token))
  {
    forall t, o: Label ensures HasEdge(rows, PlanEdge, t, o) <==> o.Name? && Gives(rows, o.token, t)
      ensures HasEdge(rows, RequestPlanEdge, t, o) <==> o.Name? && Gives(rows, t, o.token)
    {
      RequestMarks(rows, t, o);
      if o.Name? {
        RequestEdges(rows, o.token, t);
        RequestEdges(rows, t, o.token);
      }
    }
    HoldsIs(rows, PlanEdge, (plan, o: Label) => o.Name? && Gives(rows, o.token, plan));
    HoldsIs(rows, RequestPlanEdge, (id, o: Label) => o.Name? && Gives(rows, id, o.token));
  }

  lemma {:induction false} UpdateTables(rows: seq<Row>)
    ensures FirstsAre(rows, RebuildOf(rows).updates) && WitnessesAre(rows, RebuildOf(rows).updateWitnesses)
  {
    forall u ensures var firsts := FirstsOf(rows, UpdateOf);
      && (u in firsts <==> Declares(rows, u))
      && (u in firsts ==> exists i :: 0 <= i < |rows| && Captures(rows[i]) && rows[i].update == Some(u) && rows[i].seqNo == firsts[u])
      && (u in firsts ==> forall i :: 0 <= i < |rows| && Captures(rows[i]) && rows[i].update == Some(u) ==> firsts[u] <= rows[i].seqNo)
    {
      FirstsMean(rows, u);
      assert forall i :: 0 <= i < |rows| ==> (UpdateOf(rows[i]) == Some(u) <==> Captures(rows[i]) && rows[i].update == Some(u));
    }
    forall u, o ensures var pairs := PairsOf(rows, UpdateEdge);
      ((u, o) in pairs <==> UpdateUnder(rows, u, o)) && ((u, o) in pairs ==> WitnessedBy(rows, u, o, pairs[(u, o)]))
    {
      PairsMean(rows, UpdateEdge, u, o);
      CaptureEdges(rows, u, o);
    }
  }

  /** The tables a query rebuilds, and those the collector keeps and projects at a prefix,
      are those of the rows of the prefix. */
  lemma {:induction false} TablesMean(rows: seq<Row>)
    ensures TablesAre(rows, RebuildOf(rows))
  {
    UpdateTables(rows);
    CaptureTables(rows);
    RequestTables(rows);
    forall id ensures (if id in RequestsOf(rows, RequestOf) then RequestsOf(rows, RequestOf)[id] else []) == RequestSeqs(rows, id) {
      RequestsMean(rows, id);
    }
  }

  lemma {:induction false} SnapshotMeans(rows: seq<Row>, w: nat)
    requires Increasing(rows)
    ensures TablesAre(Prefix(rows, w), Snapshot(JoinedOf(rows), w))
  {
    SnapshotIsRebuild(rows, w);
    TablesMean(Prefix(rows, w));
  }

  lemma {:induction false} RequestSeqsGrow(rows: seq<Row>, more: seq<Row>, id: Token)
    ensures RequestSeqs(rows, id) <= RequestSeqs(rows + more, id)
    decreases |more|
  {
    if more == [] {
      assert rows + more == rows;
    } else {
      assert (rows + more)[..|rows + more| - 1] == rows + more[..|more| - 1];
      RequestSeqsGrow(rows, more[..|more| - 1], id);
    }
  }

  lemma {:induction false} OneRequest(rows: seq<Row>, id: Token) returns (i: nat)
    requires |RequestSeqs(rows, id)| == 1
    ensures i < |rows| && Requests(rows[i], id) && RequestSeqs(rows, id) == [rows[i].seqNo]
    ensures forall j :: 0 <= j < |rows| && Requests(rows[j], id) ==> j == i
  {
    var front := rows[..|rows| - 1];
    if Requests(rows[|rows| - 1], id) {
      i := |rows| - 1;
      NoRequests(front, id);
      assert forall j :: 0 <= j < |front| ==> front[j] == rows[j];
    } else {
      i := OneRequest(front, id);
      assert forall j :: 0 <= j < |front| ==> front[j] == rows[j];
    }
  }

  lemma {:induction false} NoRequests(rows: seq<Row>, id: Token)
    requires RequestSeqs(rows, id) == []
    ensures forall j :: 0 <= j < |rows| ==> !Requests(rows[j], id)
  {
    if rows != [] {
      NoRequests(rows[..|rows| - 1], id);
    }
  }

  /** A linked request names the only daemon request with that identifier in the prefix. */
  lemma {:induction false} LinkedIsUnique(rows: seq<Row>, id: Token, plan: Option<Token>) returns (i: nat)
    requires RequestStatus(RebuildOf(rows), false, Some(id), plan).Linked?
    ensures i < |rows| && Requests(rows[i], id)
    ensures RequestStatus(RebuildOf(rows), false, Some(id), plan) == Linked(rows[i].seqNo)
    ensures forall j :: 0 <= j < |rows| && Requests(rows[j], id) ==> j == i
  {
    RequestsMean(rows, id);
    i := OneRequest(rows, id);
  }

  ghost predicate Requested(rows: seq<Row>, id: Token, i: int) {
    0 <= i < |rows| && Requests(rows[i], id)
  }

  /** Two rows give the request different plans, or it asks for a plan that none gives
      while some other is given. */
  ghost predicate PlansDiffer(rows: seq<Row>, id: Token, plan: Option<Token>) {
    || (exists p, q :: p != q && Gives(rows, id, p) && Gives(rows, id, q))
    || (plan.Some? && (exists p :: Gives(rows, id, p)) && !Gives(rows, id, plan.value))
  }

  lemma {:induction false} NoneOrSome(rows: seq<Row>, id: Token)
    ensures RequestSeqs(rows, id) == [] <==> forall i :: !Requested(rows, id, i)
  {
    if rows != [] {
      var front, last := rows[..|rows| - 1], |rows| - 1;
      NoneOrSome(front, id);
      assert |RequestSeqs(rows, id)| >= |RequestSeqs(front, id)|;
      assert forall i :: Requested(rows, id, i) <==> Requested(front, id, i) || (i == last && Requests(rows[last], id)) by {
        assert forall i :: 0 <= i < last ==> front[i] == rows[i];
      }
      assert Requests(rows[last], id) ==> Requested(rows, id, last);
    }
  }

  lemma {:induction false} OneOrMore(rows: seq<Row>, id: Token)
    ensures |RequestSeqs(rows, id)| > 1 <==> exists i, j :: i != j && Requested(rows, id, i) && Requested(rows, id, j)
  {
    NoneOrSome(rows, id);
    if |RequestSeqs(rows, id)| == 1 {
      var i := OneRequest(rows, id);
      assert forall j :: Requested(rows, id, j) ==> j == i;
    } else if |RequestSeqs(rows, id)| > 1 {
      TwoRequests(rows, id);
    }
  }

  lemma {:induction false} TwoRequests(rows: seq<Row>, id: Token)
    requires |RequestSeqs(rows, id)| > 1
    ensures exists i, j :: i != j && Requested(rows, id, i) && Requested(rows, id, j)
  {
    var front, last := rows[..|rows| - 1], |rows| - 1;
    if Requests(rows[last], id) {
      NoneOrSome(front, id);
      var i :| Requested(front, id, i);
      assert Requested(rows, id, i) && Requested(rows, id, last);
    } else {
      TwoRequests(front, id);
      var i, j :| i != j && Requested(front, id, i) && Requested(front, id, j);
      assert Requested(rows, id, i) && Requested(rows, id, j);
    }
  }

  lemma {:induction false} PlansDifferIs(rows: seq<Row>, id: Token, plan: Option<Token>, plans: set<Label>)
    requires forall m :: m in plans <==> m.Name? && Gives(rows, id, m.token)
    ensures PlansDiffer(rows, id, plan) <==> |plans| > 1 || (plan.Some? && plans != {} && Name(plan.value) !in plans)
  {
    TwoMembers(plans);
    if p, q :| p != q && Gives(rows, id, p) && Gives(rows, id, q) {
      assert Name(p) in plans && Name(q) in plans;
    }
    if m, n :| m != n && m in plans && n in plans {
      assert m.token != n.token && Gives(rows, id, m.token) && Gives(rows, id, n.token);
    }
    if plans != {} {
      var m :| m in plans;
      assert Gives(rows, id, m.token);
    }
    if p :| Gives(rows, id, p) {
      assert Name(p) in plans;
    }
  }

  /** An issued request is unmatched, conflicting, ambiguous or linked by the daemon rows
      with its identifier and the plans they give. */
  lemma {:induction false} RequestMeans(rows: seq<Row>, id: Token, plan: Option<Token>)
    requires id != ""
    ensures var s := RequestStatus(RebuildOf(rows), false, Some(id), plan);
      && (s == Unmatched <==> forall i :: !Requested(rows, id, i))
      && (s == Conflicting <==> (exists i :: Requested(rows, id, i)) && PlansDiffer(rows, id, plan))
      && (s == Ambiguous <==> !PlansDiffer(rows, id, plan) && exists i, j :: i != j && Requested(rows, id, i) && Requested(rows, id, j))
      && (s.Linked? <==> !PlansDiffer(rows, id, plan) && exists i :: Requested(rows, id, i) && forall j :: Requested(rows, id, j) ==> j == i)
      && (s.Linked? ==> forall i :: Requested(rows, id, i) ==> s == Linked(rows[i].seqNo))
  {
    var plans := MarksAt(OwnersOf(rows, RequestPlanEdge), id);
    RequestsMean(rows, id);
    NoneOrSome(rows, id);
    OneOrMore(rows, id);
    forall m ensures m in plans <==> m.Name? && Gives(rows, id, m.token) {
      OwnersMean(rows, RequestPlanEdge, id, m);
      RequestMarks(rows, id, m);
      if m.Name? {
        RequestEdges(rows, id, m.token);
      }
    }
    PlansDifferIs(rows, id, plan, plans);
    assert RequestStatus(RebuildOf(rows), false, Some(id), plan) == MatchStatus(RequestSeqs(rows, id), plans, plan);
    if |RequestSeqs(rows, id)| == 1 {
      var i := OneRequest(rows, id);
      assert Requested(rows, id, i);
    }
  }

  function RequestRank(s: Status): int {
    if s.Unmatched? then 0 else if s.Linked? then 1 else if s.Ambiguous? then 2 else 3
  }

  /** For a fixed issued request the status only climbs, and a link never moves to
      another row. */
  lemma {:induction false} RequestClimbs(rows: seq<Row>, more: seq<Row>, id: Token, plan: Option<Token>)
    requires id != ""
    ensures var before := RequestStatus(RebuildOf(rows), false, Some(id), plan);
      var after := RequestStatus(RebuildOf(rows + more), false, Some(id), plan);
      RequestRank(before) <= RequestRank(after) && (before.Linked? && after.Linked? ==> before == after)
  {
    RequestsMean(rows, id);
    RequestsMean(rows + more, id);
    RequestSeqsGrow(rows, more, id);
    EdgesGrow(rows, more, RequestPlanEdge, id);
    var records, longer := RequestSeqs(rows, id), RequestSeqs(rows + more, id);
    var plans, later := MarksAt(OwnersOf(rows, RequestPlanEdge), id), MarksAt(OwnersOf(rows + more, RequestPlanEdge), id);
    MatchClimbs(records, longer, plans, later, plan);
    assert RequestStatus(RebuildOf(rows), false, Some(id), plan) == MatchStatus(records, plans, plan);
    assert RequestStatus(RebuildOf(rows + more), false, Some(id), plan) == MatchStatus(longer, later, plan);
  }

  /** The status of an issued request from the matching rows and their plans. */
  function MatchStatus(records: seq<nat>, plans: set<Label>, plan: Option<Token>): Status {
    if records == [] then Unmatched
    else if |plans| > 1 then Conflicting
    else if plan.Some? && plans != {} && Name(plan.value) !in plans then Conflicting
    else if |records| > 1 then Ambiguous
    else Linked(records[0])
  }

  lemma {:induction false} MatchClimbs(records: seq<nat>, longer: seq<nat>, plans: set<Label>, later: set<Label>, plan: Option<Token>)
    requires records <= longer && plans <= later
    ensures RequestRank(MatchStatus(records, plans, plan)) <= RequestRank(MatchStatus(longer, later, plan))
    ensures MatchStatus(records, plans, plan).Linked? && MatchStatus(longer, later, plan).Linked? ==>
      MatchStatus(records, plans, plan) == MatchStatus(longer, later, plan)
  {
    LargerSet(plans, later);
    if plan.Some? && plans != {} && Name(plan.value) !in plans && Name(plan.value) in later {
      var m :| m in plans;
      LargerSet({m, Name(plan.value)}, later);
    }
  }

  lemma {:induction false} GiversAre(rows: seq<Row>, plan: Token, os: set<Label>)
    requires forall m :: m in os <==> m.Name? && Gives(rows, m.token, plan)
    ensures |os| > 1 <==> exists p, q :: p != q && Gives(rows, p, plan) && Gives(rows, q, plan)
    ensures os != {} <==> exists p :: Gives(rows, p, plan)
  {
    TwoMembers(os);
    if p, q :| p != q && Gives(rows, p, plan) && Gives(rows, q, plan) {
      assert Name(p) in os && Name(q) in os;
    }
    if p :| Gives(rows, p, plan) {
      assert Name(p) in os;
    }
  }

  /** A plan digest is conflicting exactly when two requests of the prefix give it, and
      valid exactly when one does. */
  lemma {:induction false} PlanMeans(rows: seq<Row>, plan: Token)
    ensures var s := PlanStatus(RebuildOf(rows), Some(plan));
      && (s == Conflicting <==> exists p, q :: p != q && Gives(rows, p, plan) && Gives(rows, q, plan))
      && (s == Valid <==> exists p :: Gives(rows, p, plan) && forall q :: Gives(rows, q, plan) ==> q == p)
      && s in {Conflicting, Valid, Unmatched}
  {
    var os := MarksAt(OwnersOf(rows, PlanEdge), plan);
    forall m ensures m in os <==> m.Name? && Gives(rows, m.token, plan) {
      OwnersMean(rows, PlanEdge, plan, m);
      RequestMarks(rows, plan, m);
      if m.Name? {
        RequestEdges(rows, m.token, plan);
      }
    }
    GiversAre(rows, plan, os);
    OwnersMean(rows, PlanEdge, plan, NoOwner);
    assert plan in OwnersOf(rows, PlanEdge) <==> os != {};
  }

  lemma {:induction false} PlanClimbs(rows: seq<Row>, more: seq<Row>, plan: Token)
    ensures TokenRank(PlanStatus(RebuildOf(rows), Some(plan))) <= TokenRank(PlanStatus(RebuildOf(rows + more), Some(plan)))
  {
    EdgesGrow(rows, more, PlanEdge, plan);
    LargerSet(MarksAt(OwnersOf(rows, PlanEdge), plan), MarksAt(OwnersOf(rows + more, PlanEdge), plan));
  }

  /** All of it on the collector's own index: what a query at prefix w reads is what
      the rows up to w alone determine. */
  lemma {:induction false} StatusesOfSnapshot(rows: seq<Row>, w: nat, p: Plugin, id: Token, plan: Option<Token>)
    requires Increasing(rows)
    ensures var c, visible := Snapshot(JoinedOf(rows), w), Prefix(rows, w);
      && AssociationStatus(c, visible, p) == AssociationStatus(RebuildOf(visible), visible, p)
      && RequestStatus(c, false, Some(id), plan) == RequestStatus(RebuildOf(visible), false, Some(id), plan)
      && TokenStatus(Some(id), c.updateOwners) == TokenStatus(Some(id), OwnersOf(visible, UpdateEdge))
      && PlanStatus(c, plan) == PlanStatus(RebuildOf(visible), plan)
  {
    SnapshotIsRebuild(rows, w);
  }
}
