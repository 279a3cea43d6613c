/** The second dataset pass: which rows enter the corpus, and which earlier
    corpus row each of them names as its context. An admission depends on the
    admissions before it (archive/datasets.py, DatasetStore.inspect). */
module CorpusContext {
  import opened Common
  import opened Continuity
  import opened Partitioning
  import LegalCuts

  /** A row as the second pass sees it. `issues` stands for the checks of the row
      on its own that make it inadmissible and are not among the fields. */
  datatype Source = Source(
    owner: Token, segment: Segment, part: Part,
    update: Option<Token>, parent: Option<Token>,
    normal: bool, plugin: bool, target: bool,
    excluded: bool, dependsOnExcluded: bool, uncertain: bool, issues: bool)

  /** An exported corpus row; rows are named by their index in the range. */
  datatype CorpusRow = CorpusRow(row: nat, context: Option<nat>)

  /** What update_commits keeps of a frontend commit. */
  datatype Committed = Committed(row: nat, admitted: bool)

  type Key = (Token, Token)

  /** The row passes every check that looks at it alone. */
  predicate OwnChecks(s: Source) {
    && s.part != Unassigned && !s.uncertain && !s.excluded && !s.dependsOnExcluded && !s.issues
    && s.normal && s.target
  }

  predicate Registers(s: Source) {
    s.normal && !s.plugin && s.update.Some?
  }

  // ---------------------------------------------------------------- declarative meaning

  /** Rows that declare this update under this owner. */
  function OwnedCount(rows: seq<Source>, k: Key): nat {
    if rows == [] then 0
    else OwnedCount(rows[..|rows| - 1], k) + (if Declares(rows[|rows| - 1], k) then 1 else 0)
  }

  predicate Declares(s: Source, k: Key) {
    s.update.Some? && (s.owner, s.update.value) == k
  }

  /** The last earlier frontend commit declaring this update. */
  function LastCommit(rows: seq<Source>, n: nat, k: Key): Option<nat>
    requires n <= |rows|
    ensures LastCommit(rows, n, k).Some? ==> LastCommit(rows, n, k).value < n
  {
    if n == 0 then None
    else if Registers(rows[n - 1]) && Declares(rows[n - 1], k) then Some(n - 1)
    else LastCommit(rows, n - 1, k)
  }

  /** The recorded parent commit of row i, when its update is declared exactly once. */
  function ParentOf(rows: seq<Source>, i: nat): Option<nat>
    requires i < |rows|
  {
    if rows[i].parent.None? then None
    else
      var k := (rows[i].owner, rows[i].parent.value);
      if OwnedCount(rows, k) != 1 then None else LastCommit(rows, i, k)
  }

  /** The parent counts as context within one segment and one part. */
  function ContextOf(rows: seq<Source>, i: nat): Option<nat>
    requires i < |rows|
  {
    var p := ParentOf(rows, i);
    if p.Some? && rows[p.value].segment == rows[i].segment && rows[p.value].part == rows[i].part then p else None
  }

  /** Row i is exported: its own checks pass and its context, if any, is exported. */
  predicate Admitted(rows: seq<Source>, i: nat)
    requires i < |rows|
  {
    OwnChecks(rows[i]) && (ContextOf(rows, i).Some? ==> Admitted(rows, ContextOf(rows, i).value))
  }

  /** The corpus of the first n rows. */
  function CorpusOf(rows: seq<Source>, n: nat): seq<CorpusRow>
    requires n <= |rows|
  {
    if n == 0 then []
    else CorpusOf(rows, n - 1) + (if Admitted(rows, n - 1) then [CorpusRow(n - 1, ContextOf(rows, n - 1))] else [])
  }

  // ---------------------------------------------------------------- the pass

  /** update_commits after the first n rows. */
  ghost predicate CommitsAre(rows: seq<Source>, n: nat, commits: map<Key, Committed>)
    requires n <= |rows|
  {
    forall k :: (if k in commits then Some(commits[k]) else None) == CommitAt(rows, n, k)
  }

  ghost function CommitAt(rows: seq<Source>, n: nat, k: Key): Option<Committed>
    requires n <= |rows|
  {
    var p := LastCommit(rows, n, k);
    if p.None? then None else Some(Committed(p.value, Admitted(rows, p.value)))
  }

  ghost predicate CountsAre(rows: seq<Source>, counts: map<Key, nat>) {
    forall k :: (if k in counts then counts[k] else 0) == OwnedCount(rows, k)
  }

  method CountUpdates(rows: seq<Source>) returns (counts: map<Key, nat>)
    ensures CountsAre(rows, counts)
  {
    counts := map[];
    var i := 0;
    while i < |rows|
      invariant 0 <= i <= |rows|
      invariant CountsAre(rows[..i], counts)
    {
      assert rows[..i + 1][..i] == rows[..i];
      ghost var before := counts;
      if rows[i].update.Some? {
        var k := (rows[i].owner, rows[i].update.value);
        counts := counts[k := (if k in counts then counts[k] else 0) + 1];
      }
      forall k ensures (if k in counts then counts[k] else 0) == OwnedCount(rows[..i + 1], k) {
        assert (if k in before then before[k] else 0) == OwnedCount(rows[..i], k);
      }
      i := i + 1;
    }
    assert rows[..i] == rows;
  }

  method Export(rows: seq<Source>) returns (corpus: seq<CorpusRow>)
    ensures corpus == CorpusOf(rows, |rows|)
    ensures CorpusMeans(rows, corpus)
  {
    CorpusIs(rows);
    var counts := CountUpdates(rows);
    var commits: map<Key, Committed> := map[];
    corpus := [];
    var i := 0;
    while i < |rows|
      invariant 0 <= i <= |rows|
      invariant CommitsAre(rows, i, commits)
      invariant corpus == CorpusOf(rows, i)
    {
      var s := rows[i];
      var context: Option<Committed> := None;
      if s.parent.Some? {
        var k := (s.owner, s.parent.value);
        if k in counts && counts[k] == 1 && k in commits {
          context := Some(commits[k]);
        }
        assert (if k in counts then counts[k] else 0) == OwnedCount(rows, k);
        assert (if k in commits then Some(commits[k]) else None) == CommitAt(rows, i, k);
      }
      var ok := OwnChecks(s);
      var reference: Option<nat> := None;
      if context.Some? {
        var p := rows[context.value.row];
        if p.segment == s.segment && p.part == s.part {
          if context.value.admitted {
            reference := Some(context.value.row);
          } else {
            ok := false;
          }
        }
      }
      assert ok == Admitted(rows, i);
      if ok {
        corpus := corpus + [CorpusRow(i, reference)];
      }
      ghost var before := commits;
      if Registers(s) {
        commits := commits[(s.owner, s.update.value) := Committed(i, ok)];
      }
      forall k ensures (if k in commits then Some(commits[k]) else None) == CommitAt(rows, i + 1, k) {
        assert (if k in before then Some(before[k]) else None) == CommitAt(rows, i, k);
      }
      i := i + 1;
    }
  }

  // ---------------------------------------------------------------- what an export promises

  lemma {:induction false} CorpusMembers(rows: seq<Source>, n: nat, c: CorpusRow)
    requires n <= |rows|
    ensures c in CorpusOf(rows, n) <==> c.row < n && Admitted(rows, c.row) && c.context == ContextOf(rows, c.row)
  {
    if n > 0 {
      CorpusMembers(rows, n - 1, c);
    }
  }

  lemma {:induction false} LastCommitDeclares(rows: seq<Source>, n: nat, k: Key)
    requires n <= |rows| && LastCommit(rows, n, k).Some?
    ensures var p := LastCommit(rows, n, k).value; Registers(rows[p]) && Declares(rows[p], k)
  {
    if !(Registers(rows[n - 1]) && Declares(rows[n - 1], k)) {
      LastCommitDeclares(rows, n - 1, k);
    }
  }

  lemma {:induction false} NoDeclarer(rows: seq<Source>, k: Key, j: nat)
    requires OwnedCount(rows, k) == 0 && j < |rows|
    ensures !Declares(rows[j], k)
  {
    if j < |rows| - 1 {
      NoDeclarer(rows[..|rows| - 1], k, j);
    }
  }

  lemma {:induction false} OneDeclarer(rows: seq<Source>, k: Key, i: nat, j: nat)
    requires OwnedCount(rows, k) == 1 && i < |rows| && j < |rows| && Declares(rows[i], k) && Declares(rows[j], k)
    ensures i == j
  {
    var front := rows[..|rows| - 1];
    if OwnedCount(front, k) == 0 {
      if i < |front| {
        NoDeclarer(front, k, i);
      }
      if j < |front| {
        NoDeclarer(front, k, j);
      }
    } else {
      OneDeclarer(front, k, i, j);
    }
  }

  // ---------------------------------------------------------------- what the corpus is

  /** Row p is the context of row i: the one row of the range that declares the parent
      update of i for its owner, an earlier frontend commit of its segment and part. */
  ghost predicate ParentIs(rows: seq<Source>, i: nat, p: nat) {
    && p < i < |rows| && rows[i].parent.Some?
    && (forall j :: 0 <= j < |rows| ==> (Declares(rows[j], (rows[i].owner, rows[i].parent.value)) <==> j == p))
    && rows[p].normal && !rows[p].plugin
    && rows[p].segment == rows[i].segment && rows[p].part == rows[i].part
  }

  ghost predicate Exported(corpus: seq<CorpusRow>, i: nat, context: Option<nat>) {
    CorpusRow(i, context) in corpus
  }

  /** A row is exported when it is assigned to a part, is a normal commit with a target,
      and nothing on its own excludes it; and its context, if it has one, is exported. */
  ghost predicate RowMeans(rows: seq<Source>, corpus: seq<CorpusRow>, i: nat)
    requires i < |rows|
  {
    var s := rows[i];
    var passes := s.part != Unassigned && s.normal && s.target
      && !s.excluded && !s.dependsOnExcluded && !s.uncertain && !s.issues;
    && (forall p: nat :: ParentIs(rows, i, p) ==>
          forall c :: Exported(corpus, i, c) <==> passes && c == Some(p) && exists d :: Exported(corpus, p, d))
    && ((forall p: nat :: !ParentIs(rows, i, p)) ==> forall c :: Exported(corpus, i, c) <==> passes && c == None)
  }

  /** The corpus holds exactly these rows, in order, each once. */
  ghost predicate CorpusMeans(rows: seq<Source>, corpus: seq<CorpusRow>) {
    && InOrder(corpus, |rows|)
    && (forall i :: 0 <= i < |rows| ==> RowMeans(rows, corpus, i))
  }

  lemma {:induction false} CountedOnce(rows: seq<Source>, k: Key, p: nat)
    requires p < |rows| && forall j :: 0 <= j < |rows| ==> (Declares(rows[j], k) <==> j == p)
    ensures OwnedCount(rows, k) == 1
  {
    var front := rows[..|rows| - 1];
    if p == |front| {
      NeverCounted(front, k);
    } else {
      CountedOnce(front, k, p);
    }
  }

  lemma {:induction false} NeverCounted(rows: seq<Source>, k: Key)
    requires forall j :: 0 <= j < |rows| ==> !Declares(rows[j], k)
    ensures OwnedCount(rows, k) == 0
  {
    if rows != [] {
      NeverCounted(rows[..|rows| - 1], k);
    }
  }

  lemma {:induction false} FindsCommit(rows: seq<Source>, n: nat, k: Key, p: nat)
    requires p < n <= |rows| && Registers(rows[p]) && forall j :: 0 <= j < |rows| ==> (Declares(rows[j], k) <==> j == p)
    ensures LastCommit(rows, n, k) == Some(p)
  {
    if p < n - 1 {
      FindsCommit(rows, n - 1, k, p);
    }
  }

  /** The context the pass computes is that row, and there is at most one. */
  lemma {:induction false} ContextIs(rows: seq<Source>, i: nat, p: nat)
    requires i < |rows|
    ensures ParentIs(rows, i, p) <==> ContextOf(rows, i) == Some(p)
  {
    if ParentIs(rows, i, p) {
      var k := (rows[i].owner, rows[i].parent.value);
      assert Declares(rows[p], k);
      CountedOnce(rows, k, p);
      FindsCommit(rows, i, k, p);
    } else if ContextOf(rows, i) == Some(p) {
      var k := (rows[i].owner, rows[i].parent.value);
      LastCommitDeclares(rows, i, k);
      forall j | 0 <= j < |rows| ensures Declares(rows[j], k) <==> j == p {
        if Declares(rows[j], k) {
          OneDeclarer(rows, k, p, j);
        }
      }
      assert ParentIs(rows, i, p);
      assert false;
    }
  }

  ghost predicate InOrder(corpus: seq<CorpusRow>, n: nat) {
    && (forall a :: 0 <= a < |corpus| ==> corpus[a].row < n)
    && (forall a, b :: 0 <= a < b < |corpus| ==> corpus[a].row < corpus[b].row)
  }

  lemma {:induction false} CorpusOrdered(rows: seq<Source>, n: nat)
    requires n <= |rows|
    ensures InOrder(CorpusOf(rows, n), n)
  {
    if n > 0 {
      CorpusOrdered(rows, n - 1);
      var before := CorpusOf(rows, n - 1);
      if Admitted(rows, n - 1) {
        assert CorpusOf(rows, n) == before + [CorpusRow(n - 1, ContextOf(rows, n - 1))];
      } else {
        assert CorpusOf(rows, n) == before;
      }
    }
  }

  lemma {:induction false} CorpusRowMeans(rows: seq<Source>, i: nat)
    requires i < |rows|
    ensures RowMeans(rows, CorpusOf(rows, |rows|), i)
  {
    var corpus := CorpusOf(rows, |rows|);
    forall j: nat, c ensures Exported(corpus, j, c) <==> j < |rows| && Admitted(rows, j) && c == ContextOf(rows, j) {
      CorpusMembers(rows, |rows|, CorpusRow(j, c));
    }
    forall p: nat ensures ParentIs(rows, i, p) <==> ContextOf(rows, i) == Some(p) {
      ContextIs(rows, i, p);
    }
    if ContextOf(rows, i).Some? {
      var p := ContextOf(rows, i).value;
      assert ParentIs(rows, i, p);
      assert Exported(corpus, p, ContextOf(rows, p)) <==> Admitted(rows, p);
    }
  }

  /** What the second pass exports, from the rows alone. */
  lemma {:induction false} CorpusIs(rows: seq<Source>)
    ensures CorpusMeans(rows, CorpusOf(rows, |rows|))
  {
    CorpusOrdered(rows, |rows|);
    forall i | 0 <= i < |rows| ensures RowMeans(rows, CorpusOf(rows, |rows|), i) {
      CorpusRowMeans(rows, i);
    }
  }

  /** Every context reference names a strictly earlier exported row of the same
      segment: a frontend commit, and the one row that declares the parent update. */
  lemma {:induction false} ContextClosed(rows: seq<Source>, c: CorpusRow)
    requires c in CorpusOf(rows, |rows|) && c.context.Some?
    ensures c.context.value < c.row < |rows|
    ensures CorpusRow(c.context.value, ContextOf(rows, c.context.value)) in CorpusOf(rows, |rows|)
    ensures rows[c.context.value].segment == rows[c.row].segment
    ensures rows[c.row].parent.Some? && Registers(rows[c.context.value])
    ensures var parent := (rows[c.row].owner, rows[c.row].parent.value);
      forall j :: 0 <= j < |rows| ==> (Declares(rows[j], parent) <==> j == c.context.value)
  {
    CorpusMembers(rows, |rows|, c);
    CorpusMembers(rows, |rows|, CorpusRow(c.context.value, ContextOf(rows, c.context.value)));
    var parent := (rows[c.row].owner, rows[c.row].parent.value);
    LastCommitDeclares(rows, c.row, parent);
    forall j | 0 <= j < |rows| && Declares(rows[j], parent) ensures j == c.context.value {
      OneDeclarer(rows, parent, c.context.value, j);
    }
  }

  /** Row j is reached from row i by following context references. */
  ghost predicate Ancestor(rows: seq<Source>, i: nat, j: nat)
    requires i < |rows|
  {
    ContextOf(rows, i).Some? && (ContextOf(rows, i).value == j || Ancestor(rows, ContextOf(rows, i).value, j))
  }

  /** The whole context chain of an exported row is exported, and holds no
      excluded, uncertain or otherwise inadmissible row, all in one segment. */
  lemma {:induction false} ChainAdmitted(rows: seq<Source>, i: nat, j: nat)
    requires i < |rows| && Admitted(rows, i) && Ancestor(rows, i, j)
    ensures j < i && Admitted(rows, j) && OwnChecks(rows[j])
    ensures !rows[j].excluded && !rows[j].dependsOnExcluded && !rows[j].uncertain
    ensures rows[j].segment == rows[i].segment && rows[j].part == rows[i].part
  {
    var p := ContextOf(rows, i).value;
    if p != j {
      ChainAdmitted(rows, p, j);
    }
  }

  /** A row that fails its own checks blocks every row whose chain reaches it. */
  lemma {:induction false} ExclusionPropagates(rows: seq<Source>, i: nat, j: nat)
    requires i < |rows| && Ancestor(rows, i, j) && j < |rows| && !OwnChecks(rows[j])
    ensures forall c :: c in CorpusOf(rows, |rows|) ==> c.row != i
  {
    forall c | c in CorpusOf(rows, |rows|) ensures c.row != i {
      CorpusMembers(rows, |rows|, c);
      if c.row == i {
        ChainAdmitted(rows, i, j);
      }
    }
  }

  /** The parts come from boundaries that split no segment. */
  ghost predicate PartsFollowSegments(rows: seq<Source>) {
    forall i, j :: 0 <= i < |rows| && 0 <= j < |rows| && rows[i].segment == rows[j].segment ==> rows[i].part == rows[j].part
  }

  /** Under whole-segment boundaries the same-part test never decides: a parent of
      the same segment is always context. */
  lemma {:induction false} PartTestRedundant(rows: seq<Source>, i: nat)
    requires i < |rows| && PartsFollowSegments(rows)
    ensures var p := ParentOf(rows, i);
      ContextOf(rows, i) == if p.Some? && rows[p.value].segment == rows[i].segment then p else None
  {}

  /** The parts assigned by the partition do follow segments. */
  lemma {:induction false} PartitionFollowsSegments(base: seq<Row>, first: int, links: seq<LegalCuts.Interval>, boundary: Option<(int, int)>, rows: seq<Source>)
    requires boundary.Some? ==> LegalCut(base, first, links, boundary.value.0) && LegalCut(base, first, links, boundary.value.1)
    requires |rows| == |base|
    requires forall i :: 0 <= i < |rows| ==> rows[i].segment == SegmentOf(base[i]) && rows[i].part == PartAt(boundary, first + i)
    ensures PartsFollowSegments(rows)
  {
    forall i, j | 0 <= i < |rows| && 0 <= j < |rows| && rows[i].segment == rows[j].segment ensures rows[i].part == rows[j].part {
      if boundary.Some? {
        var a, b := boundary.value.0, boundary.value.1;
        if i <= j {
          NothingSplit(base, first, links, a, b, i, j);
        } else {
          NothingSplit(base, first, links, a, b, j, i);
        }
      }
    }
  }
}
