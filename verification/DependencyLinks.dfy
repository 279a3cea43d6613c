/** The recorded dependencies of a source range: for every row the one row that
    declares the update it refers to, and the one daemon request its exchange is
    linked to. Neither may be separated from it (archive/datasets.py,
    DatasetStore.inspect). */
module DependencyLinks {
  import opened Common
  import opened LegalCuts
  import C = Continuity
  import S = CutSearch
  import P = Partitioning
  import J = JoinIndex
  import R = Relations

  /** Source, process and update of a declared update. */
  type UpdateKey = (Option<J.Token>, Option<J.Token>, J.Token)

  /** A row as this pass sees it: its identities, the update its plugin part refers to,
      and the request it issued. */
  datatype Meta = Meta(row: J.Row, plugin: bool, source: Option<J.Token>, process: Option<J.Token>, update: Option<J.Token>,
                       noRequest: bool, request: Option<J.Token>, plan: Option<J.Token>)

  function RowsOf(metas: seq<Meta>): (rows: seq<J.Row>)
    ensures |rows| == |metas| && forall i :: 0 <= i < |metas| ==> rows[i] == metas[i].row
  {
    if metas == [] then [] else RowsOf(metas[..|metas| - 1]) + [metas[|metas| - 1].row]
  }

  /** Row i of the range has durable number first + i. */
  ghost predicate Consecutive(metas: seq<Meta>, first: nat) {
    forall i :: 0 <= i < |metas| ==> metas[i].row.seqNo == first + i
  }

  function DeclaredBy(m: Meta): Option<UpdateKey> {
    if m.row.update.Some? && m.row.update.value != "" then Some((m.row.source, m.row.process, m.row.update.value)) else None
  }

  function ReferredBy(m: Meta): Option<UpdateKey> {
    if m.update.Some? then Some((m.source, m.process, m.update.value)) else None
  }

  // ---------------------------------------------------------------- declarative meaning

  /** Indices of the rows that declare the update, in order. */
  function Declarers(metas: seq<Meta>, k: UpdateKey): (r: seq<nat>)
    ensures forall i :: 0 <= i < |r| ==> r[i] < |metas|
  {
    if metas == [] then []
    else Declarers(metas[..|metas| - 1], k) + (if DeclaredBy(metas[|metas| - 1]) == Some(k) then [|metas| - 1] else [])
  }

  /** The one row that declares the update row i refers to. */
  function WitnessOf(metas: seq<Meta>, i: nat): (r: Option<nat>)
    requires i < |metas|
    ensures r.Some? ==> r.value < |metas|
  {
    match ReferredBy(metas[i])
    case None => None
    case Some(k) => if |Declarers(metas, k)| == 1 then Some(Declarers(metas, k)[0]) else None
  }

  function LinkStatus(metas: seq<Meta>, i: nat): R.Status
    requires i < |metas|
  {
    R.RequestStatus(J.RebuildOf(RowsOf(metas)), metas[i].noRequest, metas[i].request, metas[i].plan)
  }

  /** Durable number of the daemon request row i is linked to. */
  function LinkedTo(metas: seq<Meta>, i: nat): Option<nat>
    requires i < |metas|
  {
    if metas[i].plugin && LinkStatus(metas, i).Linked? then Some(LinkStatus(metas, i).seqNo) else None
  }

  function Span(a: int, b: int): Interval {
    Interval(Min(a, b), Max(a, b))
  }

  function LinksAt(metas: seq<Meta>, first: nat, i: nat): seq<Interval>
    requires i < |metas|
  {
    (match WitnessOf(metas, i) case None => [] case Some(w) => [Span(first + i, first + w)])
    + (match LinkedTo(metas, i) case None => [] case Some(s) => [Span(first + i, s)])
  }

  /** The values of f at 0, 1, ... n - 1, one after the other. */
  function Gather<T>(n: nat, f: nat -> seq<T>): seq<T> {
    if n == 0 then [] else Gather(n - 1, f) + f(n - 1)
  }

  function LinksFrom(metas: seq<Meta>, first: nat): nat -> seq<Interval> {
    (i: nat) => if i < |metas| then LinksAt(metas, first, i) else []
  }

  function LinksOf(metas: seq<Meta>, first: nat): seq<Interval> {
    Gather(|metas|, LinksFrom(metas, first))
  }

  // ---------------------------------------------------------------- the pass

  ghost predicate UpdatesAre(metas: seq<Meta>, updates: map<UpdateKey, seq<nat>>) {
    forall k :: (if k in updates then updates[k] else []) == Declarers(metas, k)
  }

  method CollectUpdates(metas: seq<Meta>) returns (updates: map<UpdateKey, seq<nat>>)
    ensures UpdatesAre(metas, updates)
  {
    updates := map[];
    for i := 0 to |metas|
      invariant UpdatesAre(metas[..i], updates)
    {
      assert metas[..i + 1][..i] == metas[..i];
      ghost var before := updates;
      var declared := DeclaredBy(metas[i]);
      if declared.Some? {
        updates := updates[declared.value := (if declared.value in updates then updates[declared.value] else []) + [i]];
      }
      forall k ensures (if k in updates then updates[k] else []) == Declarers(metas[..i + 1], k) {
        assert (if k in before then before[k] else []) == Declarers(metas[..i], k);
      }
    }
    assert metas[..|metas|] == metas;
  }

  method WitnessLink(metas: seq<Meta>, first: nat, i: nat, updates: map<UpdateKey, seq<nat>>) returns (found: seq<Interval>)
    requires i < |metas| && UpdatesAre(metas, updates)
    ensures found == match WitnessOf(metas, i) case None => [] case Some(w) => [Span(first + i, first + w)]
  {
    found := [];
    var referred := ReferredBy(metas[i]);
    if referred.Some? {
      var witnesses := if referred.value in updates then updates[referred.value] else [];
      assert witnesses == Declarers(metas, referred.value);
      if |witnesses| == 1 {
        found := [Span(first + i, first + witnesses[0])];
      }
    }
  }

  method RequestLink(metas: seq<Meta>, first: nat, i: nat, relations: J.Context) returns (found: seq<Interval>)
    requires i < |metas| && relations == J.RebuildOf(RowsOf(metas))
    ensures found == match LinkedTo(metas, i) case None => [] case Some(s) => [Span(first + i, s)]
  {
    found := [];
    var m := metas[i];
    if m.plugin {
      var status := R.RequestStatus(relations, m.noRequest, m.request, m.plan);
      if status.Linked? {
        found := [Span(first + i, status.seqNo)];
      }
    }
  }

  /** The links of one row. */
  method RowLinks(metas: seq<Meta>, first: nat, i: nat, updates: map<UpdateKey, seq<nat>>, relations: J.Context) returns (found: seq<Interval>)
    requires i < |metas| && UpdatesAre(metas, updates) && relations == J.RebuildOf(RowsOf(metas))
    ensures found == LinksAt(metas, first, i)
  {
    var owned := WitnessLink(metas, first, i, updates);
    var issued := RequestLink(metas, first, i, relations);
    found := owned + issued;
  }

  /** The links of all rows, in order. */
  method FindLinks(metas: seq<Meta>, first: nat) returns (links: seq<Interval>)
    ensures links == LinksOf(metas, first)
  {
    var updates := CollectUpdates(metas);
    var relations := J.RebuildOf(RowsOf(metas));
    links := [];
    ghost var f := LinksFrom(metas, first);
    for i := 0 to |metas|
      invariant links == Gather(i, f)
    {
      var found := RowLinks(metas, first, i, updates, relations);
      links := links + found;
    }
  }

  // ---------------------------------------------------------------- what the links are

  lemma {:induction false} DeclarerDeclares(metas: seq<Meta>, k: UpdateKey, j: nat)
    requires j < |metas|
    ensures j in Declarers(metas, k) <==> DeclaredBy(metas[j]) == Some(k)
  {
    var front := metas[..|metas| - 1];
    if j < |front| {
      DeclarerDeclares(front, k, j);
    } else {
      assert forall i :: i in Declarers(front, k) ==> i < |front|;
    }
  }

  lemma {:induction false} DeclarersIncrease(metas: seq<Meta>, k: UpdateKey)
    ensures var r := Declarers(metas, k); forall a, b :: 0 <= a < b < |r| ==> r[a] < r[b]
  {
    if metas != [] {
      var front := metas[..|metas| - 1];
      DeclarersIncrease(front, k);
      assert forall b :: 0 <= b < |Declarers(front, k)| ==> Declarers(metas, k)[b] == Declarers(front, k)[b];
    }
  }

  /** One row alone declares the update. */
  ghost predicate DeclaresAlone(metas: seq<Meta>, k: UpdateKey, w: nat) {
    w < |metas| && forall j :: 0 <= j < |metas| ==> (DeclaredBy(metas[j]) == Some(k) <==> j == w)
  }

  lemma {:induction false} OneDeclarer(metas: seq<Meta>, k: UpdateKey, w: nat)
    ensures Declarers(metas, k) == [w] <==> DeclaresAlone(metas, k, w)
  {
    var r := Declarers(metas, k);
    forall j | 0 <= j < |metas| ensures j in r <==> DeclaredBy(metas[j]) == Some(k) {
      DeclarerDeclares(metas, k, j);
    }
    if r == [w] {
      assert r[0] < |metas|;
    }
    if DeclaresAlone(metas, k, w) {
      DeclarersIncrease(metas, k);
      assert w in r;
      assert r[0] in r && r[|r| - 1] in r;
    }
  }

  /** The row refers to an update that the other declares, under its source and process. */
  predicate Refers(m: Meta, d: Meta) {
    && m.update.Some? && m.update.value != "" && d.row.update == m.update
    && d.row.source == m.source && d.row.process == m.process
  }

  /** Row w is the one row of the range that declares the update row i refers to. */
  ghost predicate WitnessedBy(metas: seq<Meta>, i: nat, w: nat) {
    && i < |metas| && w < |metas| && Refers(metas[i], metas[w])
    && forall j :: 0 <= j < |metas| && Refers(metas[i], metas[j]) ==> j == w
  }

  /** Row r is the one daemon request of the range that the plugin row i issued, and they
      do not give different plans. */
  ghost predicate RequestedBy(metas: seq<Meta>, i: nat, r: nat) {
    && i < |metas| && r < |metas| && metas[i].plugin && !metas[i].noRequest
    && metas[i].request.Some? && metas[i].request.value != "" && R.Requests(metas[r].row, metas[i].request.value)
    && (forall j :: 0 <= j < |metas| && R.Requests(metas[j].row, metas[i].request.value) ==> j == r)
    && (metas[i].plan.None? || metas[r].row.daemon.value.plan.None? || metas[r].row.daemon.value.plan == metas[i].plan)
  }

  ghost predicate Depends(metas: seq<Meta>, i: nat, j: nat) {
    WitnessedBy(metas, i, j) || RequestedBy(metas, i, j)
  }

  /** A row has a witness exactly when it refers to an update that one row of the range
      alone declares, and then that row is the witness. */
  lemma {:induction false} WitnessMeans(metas: seq<Meta>, i: nat, w: nat)
    requires i < |metas|
    ensures WitnessOf(metas, i) == Some(w) <==> WitnessedBy(metas, i, w)
  {
    if ReferredBy(metas[i]).Some? {
      var k := ReferredBy(metas[i]).value;
      OneDeclarer(metas, k, w);
      assert forall j :: 0 <= j < |metas| ==> (DeclaredBy(metas[j]) == Some(k) <==> Refers(metas[i], metas[j]));
    }
  }

  lemma {:induction false} OnePlan(metas: seq<Meta>, i: nat, r: nat)
    requires i < |metas| && r < |metas| && metas[i].request.Some? && R.Requests(metas[r].row, metas[i].request.value)
    requires forall j :: 0 <= j < |metas| ==> (R.Requests(metas[j].row, metas[i].request.value) <==> j == r)
    ensures R.PlansDiffer(RowsOf(metas), metas[i].request.value, metas[i].plan) <==>
      metas[i].plan.Some? && metas[r].row.daemon.value.plan.Some? && metas[r].row.daemon.value.plan != metas[i].plan
  {
    var rows, id, given := RowsOf(metas), metas[i].request.value, metas[r].row.daemon.value.plan;
    assert R.Requests(rows[r], id);
    forall p ensures R.Gives(rows, id, p) <==> given == Some(p) {
      assert given == Some(p) ==> R.Requests(rows[r], id) && rows[r].daemon.value.plan == Some(p);
    }
  }

  lemma {:induction false} LinkedIsIssued(metas: seq<Meta>, i: nat) returns (r: nat)
    requires i < |metas| && LinkedTo(metas, i).Some?
    ensures RequestedBy(metas, i, r) && LinkedTo(metas, i) == Some(metas[r].row.seqNo)
  {
    var rows, id := RowsOf(metas), metas[i].request.value;
    r := R.LinkedIsUnique(rows, id, metas[i].plan);
    assert R.Requested(rows, id, r);
    R.RequestMeans(rows, id, metas[i].plan);
    OnePlan(metas, i, r);
  }

  lemma {:induction false} IssuedIsLinked(metas: seq<Meta>, i: nat, r: nat)
    requires RequestedBy(metas, i, r)
    ensures LinkedTo(metas, i) == Some(metas[r].row.seqNo)
  {
    var rows, id := RowsOf(metas), metas[i].request.value;
    R.RequestMeans(rows, id, metas[i].plan);
    assert R.Requested(rows, id, r) && forall j :: R.Requested(rows, id, j) ==> j == r;
    OnePlan(metas, i, r);
  }

  /** A row is linked to a request exactly when that is the one it issued. */
  lemma {:induction false} LinkMeans(metas: seq<Meta>, first: nat, i: nat, r: nat)
    requires i < |metas| && r < |metas| && Consecutive(metas, first)
    ensures LinkedTo(metas, i) == Some(first + r) <==> RequestedBy(metas, i, r)
  {
    if LinkedTo(metas, i).Some? {
      var k := LinkedIsIssued(metas, i);
    }
    if RequestedBy(metas, i, r) {
      IssuedIsLinked(metas, i, r);
    }
  }

  /** A link is to a row of the range. */
  lemma {:induction false} LinkedRow(metas: seq<Meta>, first: nat, i: nat) returns (r: nat)
    requires i < |metas| && LinkedTo(metas, i).Some? && Consecutive(metas, first)
    ensures LinkedTo(metas, i) == Some(first + r) && RequestedBy(metas, i, r)
  {
    r := LinkedIsIssued(metas, i);
  }

  lemma {:induction false} Gathered<T>(n: nat, f: nat -> seq<T>, i: nat, x: T)
    requires i < n && x in f(i)
    ensures x in Gather(n, f)
  {
    if i < n - 1 {
      Gathered(n - 1, f, i, x);
    }
  }

  lemma {:induction false} GatheredFrom<T>(n: nat, f: nat -> seq<T>, x: T) returns (i: nat)
    requires x in Gather(n, f)
    ensures i < n && x in f(i)
  {
    if x in f(n - 1) {
      i := n - 1;
    } else {
      i := GatheredFrom(n - 1, f, x);
    }
  }

  lemma {:induction false} LinkWithin(metas: seq<Meta>, first: nat, i: nat, iv: Interval)
    requires i < |metas| && iv in LinksAt(metas, first, i) && Consecutive(metas, first)
    ensures first <= iv.first <= iv.last < first + |metas|
  {
    if LinkedTo(metas, i).Some? {
      var r := LinkedRow(metas, first, i);
    }
  }

  lemma {:induction false} LinksWithin(metas: seq<Meta>, first: nat)
    requires Consecutive(metas, first)
    ensures P.LinksInRange(LinksOf(metas, first), first, |metas|)
  {
    var links := LinksOf(metas, first);
    forall j | 0 <= j < |links| ensures first <= links[j].first <= links[j].last < first + |metas| {
      var i := GatheredFrom(|metas|, LinksFrom(metas, first), links[j]);
      LinkWithin(metas, first, i, links[j]);
    }
  }

  /** The links are the spans from each row to the rows it depends on, and no others. */
  lemma {:induction false} LinksMean(metas: seq<Meta>, first: nat, iv: Interval)
    requires Consecutive(metas, first)
    ensures iv in LinksOf(metas, first) <==> exists i: nat, j: nat :: Depends(metas, i, j) && iv == Span(first + i, first + j)
  {
    var f := LinksFrom(metas, first);
    if iv in LinksOf(metas, first) {
      var i := GatheredFrom(|metas|, f, iv);
      var j := DependsOn(metas, first, i, iv);
    }
    if i: nat, j: nat :| Depends(metas, i, j) && iv == Span(first + i, first + j) {
      LinkedAt(metas, first, i, j);
      Gathered(|metas|, f, i, iv);
    }
  }

  lemma {:induction false} LinkedAt(metas: seq<Meta>, first: nat, i: nat, j: nat)
    requires Consecutive(metas, first) && Depends(metas, i, j)
    ensures i < |metas| && Span(first + i, first + j) in LinksAt(metas, first, i)
  {
    if WitnessedBy(metas, i, j) {
      WitnessMeans(metas, i, j);
    } else {
      LinkMeans(metas, first, i, j);
    }
  }

  lemma {:induction false} DependsOn(metas: seq<Meta>, first: nat, i: nat, iv: Interval) returns (j: nat)
    requires Consecutive(metas, first) && i < |metas| && iv in LinksAt(metas, first, i)
    ensures Depends(metas, i, j) && iv == Span(first + i, first + j)
  {
    if WitnessOf(metas, i).Some? && iv == Span(first + i, first + WitnessOf(metas, i).value) {
      j := WitnessOf(metas, i).value;
      WitnessMeans(metas, i, j);
    } else {
      j := LinkedRow(metas, first, i);
    }
  }

  // ---------------------------------------------------------------- the partition of recorded rows

  /** Rows of one segment or one process. */
  predicate Akin(r: C.Row, s: C.Row) {
    r.owner == s.owner && (r.segment == s.segment || r.process == s.process)
  }

  lemma {:induction false} LabelsAkin(rows: seq<C.Row>, first: int, c: int)
    ensures P.CutsLabel(P.SegmentLabels(rows), first, c) || P.CutsLabel(P.ProcessLabels(rows), first, c) <==>
      exists i, j :: 0 <= i < |rows| && 0 <= j < |rows| && first + i <= c < first + j && Akin(rows[i], rows[j])
  {
    forall i | 0 <= i < |rows|
      ensures P.SegmentLabels(rows)[i] == C.SegmentOf(rows[i]) && P.ProcessLabels(rows)[i] == C.ProcessOf(rows[i])
    {
      P.LabelsMean(rows, i);
    }
    if i, j :| 0 <= i < |rows| && 0 <= j < |rows| && first + i <= c < first + j && Akin(rows[i], rows[j]) {
      assert P.SegmentLabels(rows)[i] == P.SegmentLabels(rows)[j] || P.ProcessLabels(rows)[i] == P.ProcessLabels(rows)[j];
    }
  }

  /** A cut may be made after row c: it leaves together every segment, every process and
      every row with those it depends on, and lies before all that is uncertain. */
  ghost predicate Legal(rows: seq<C.Row>, metas: seq<Meta>, first: int, c: int) {
    && first <= c < first + |rows| - 1 && !P.UncertainBy(rows, first, c)
    && (forall i, j :: 0 <= i < |rows| && 0 <= j < |rows| && first + i <= c < first + j ==> !Akin(rows[i], rows[j]))
    && forall i: nat, j: nat :: Depends(metas, i, j) ==> !(first + Min(i, j) <= c < first + Max(i, j))
  }

  lemma {:induction false} LegalIs(rows: seq<C.Row>, metas: seq<Meta>, first: nat, c: int)
    requires Consecutive(metas, first)
    ensures P.LegalCut(rows, first, LinksOf(metas, first), c) <==> Legal(rows, metas, first, c)
  {
    var links := LinksOf(metas, first);
    LabelsAkin(rows, first, c);
    if m :| 0 <= m < |links| && Splits(c, links[m]) {
      LinksMean(metas, first, links[m]);
    }
    forall i: nat, j: nat | Depends(metas, i, j) && first + Min(i, j) <= c < first + Max(i, j) ensures Straddled(links, c) {
      LinksMean(metas, first, Span(first + i, first + j));
      var m :| 0 <= m < |links| && links[m] == Span(first + i, first + j);
      assert Splits(c, links[m]);
    }
  }

  /** The partition with the links the rows themselves record. */
  method PartitionRecorded(rows: seq<C.Row>, metas: seq<Meta>, first: nat) returns (boundary: Option<(int, int)>, cuts: seq<int>)
    requires |metas| == |rows| && Consecutive(metas, first)
    ensures forall c :: c in cuts <==> Legal(rows, metas, first, c)
    ensures forall i, j :: 0 <= i < j < |cuts| ==> cuts[i] < cuts[j]
    ensures boundary.None? <==> |cuts| < 2
    ensures boundary.Some? ==> S.OptimalPair(cuts, boundary.value.0, boundary.value.1, first, |rows|)
  {
    var links := FindLinks(metas, first);
    LinksWithin(metas, first);
    boundary, cuts := P.Partition(rows, first, links);
    forall c ensures c in cuts <==> Legal(rows, metas, first, c) {
      LegalIs(rows, metas, first, c);
    }
  }

  /** Rows of one segment or one process always fall in one part. */
  lemma {:induction false} AkinTogether(rows: seq<C.Row>, metas: seq<Meta>, first: nat, a: int, b: int, i: nat, j: nat)
    requires |metas| == |rows| && Consecutive(metas, first) && i < |rows| && j < |rows| && Akin(rows[i], rows[j])
    requires Legal(rows, metas, first, a) && Legal(rows, metas, first, b)
    ensures P.PartAt(Some((a, b)), first + i) == P.PartAt(Some((a, b)), first + j)
  {
    assert Akin(rows[j], rows[i]);
  }

  /** A row and one it depends on always fall in one part. */
  lemma {:induction false} DependentTogether(rows: seq<C.Row>, metas: seq<Meta>, first: nat, a: int, b: int, i: nat, j: nat)
    requires |metas| == |rows| && Consecutive(metas, first) && Depends(metas, i, j)
    requires Legal(rows, metas, first, a) && Legal(rows, metas, first, b)
    ensures P.PartAt(Some((a, b)), first + i) == P.PartAt(Some((a, b)), first + j)
  {
    LegalIs(rows, metas, first, a);
    LegalIs(rows, metas, first, b);
    LinksMean(metas, first, Span(first + i, first + j));
    SpanTogether(rows, LinksOf(metas, first), first, a, b, i, j);
  }

  lemma {:induction false} SpanTogether(rows: seq<C.Row>, links: seq<Interval>, first: nat, a: int, b: int, i: nat, j: nat)
    requires i < |rows| && j < |rows| && Span(first + i, first + j) in links
    requires P.LegalCut(rows, first, links, a) && P.LegalCut(rows, first, links, b)
    ensures P.PartAt(Some((a, b)), first + i) == P.PartAt(Some((a, b)), first + j)
  {
    P.NothingSplit(rows, first, links, a, b, Min(i, j), Max(i, j));
  }
}
