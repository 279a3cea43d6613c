/** Runs of the annotation store beside a growing archive: rows are published, edits
    look their source up and are made or fail, the process crashes and restarts, and
    pages are asked for in between (archive/collector.py, _annotation_source and
    _annotation_query; archive/annotations.py, mutate). */
module AnnotatedArchive {
  import opened Common
  import opened AnnotationRows
  import opened AnnotationLog
  import opened AnnotationPages
  import opened AnnotationWalk
  import AnnotationCodec
  import R = AnnotationRuns
  import S = AnnotationStore

  /** The annotation store with its disk, and the published rows. */
  datatype Archive = Archive(notes: R.World, index: seq<Listed>)

  /** A row is published, or the annotation store takes a step. The source of an edit
      is looked up among the first `seen` rows; others may be published before the
      edit is decided. */
  datatype Step =
    | Publish(instance: string, local: nat, recordDigest: nat)
    | Annotate(event: R.Event, seen: nat)

  const Empty := Archive(R.Nothing, [])

  function MomentOf(a: Archive): Moment {
    Moment(a.index, a.notes.log)
  }

  /** What a lookup that found a source has established. */
  ghost predicate Found(a: Archive, edit: Edit, seen: nat) {
    && a.notes.store.Some? && edit.reference.Some? && seen <= |a.index|
    && var first := a.index[..seen];
      SourceOf(first, a.notes.store.value.mem.archive, LastDurable(first), edit.reference.value).Ok?
  }

  ghost predicate Enabled(a: Archive, s: Step) {
    match s
    case Publish(instance, _, _) => SafeToken(instance)
    case Annotate(e, seen) => R.Enabled(a.notes, e) && (e.Edited? && e.source.Resolved? ==> Found(a, e.edit, seen))
  }

  ghost function Next(c: Codec, a: Archive, s: Step): Archive
    requires Enabled(a, s)
  {
    match s
    case Publish(instance, local, d) => a.(index := a.index + [Listed(|a.index| + 1, instance, local, d)])
    case Annotate(e, _) => a.(notes := R.Next(c, a.notes, e))
  }

  ghost predicate Runs(c: Codec, a: Archive, steps: seq<Step>)
    decreases |steps|
  {
    steps == [] || (Enabled(a, steps[0]) && Runs(c, Next(c, a, steps[0]), steps[1..]))
  }

  ghost function After(c: Codec, a: Archive, steps: seq<Step>): Archive
    requires Runs(c, a, steps)
    decreases |steps|
  {
    if steps == [] then a else After(c, Next(c, a, steps[0]), steps[1..])
  }

  // ---------------------------------------------------------------- the invariant

  ghost predicate Numbered(index: seq<Listed>) {
    forall i :: 0 <= i < |index| ==> index[i].durable == i + 1 && SafeToken(index[i].instance) && index[i].local >= 0
  }

  /** The archive the disk belongs to; edits were made for its rows. */
  ghost predicate EditsName(a: Archive) {
    a.notes.disk.Complete() ==> a.notes.disk.identity.Holds? && Resolved(MomentOf(a), a.notes.disk.identity.value)
  }

  ghost predicate Inv(c: Codec, a: Archive) {
    R.Inv(c, a.notes) && Numbered(a.index) && EditsName(a)
  }

  /** The disk keeps its archive for good. */
  lemma {:induction false} IdentityStays(c: Codec, w: R.World, e: R.Event)
    requires Encodes(c, w.log) && R.Inv(c, w) && R.Enabled(w, e) && w.disk.Complete()
    ensures R.Next(c, w, e).disk.Complete() && R.Next(c, w, e).disk.identity == w.disk.identity
  {
    match e
    case Start(_, _) =>
    case Edited(edit, source, write) => R.EditKeeps(c, w.store.value, w.disk, w.log, edit, source, write);
    case Crash(_) =>
  }

  /** Publishing more rows leaves a named row the first of its identity. */
  lemma {:induction false} StillNames(reference: Reference, archive: string, index: seq<Listed>, more: seq<Listed>)
    requires NamesSome(reference, archive, index)
    ensures NamesSome(reference, archive, index + more)
  {
    var k: nat :| NamesRow(reference, archive, index, k);
    assert NamesRow(reference, archive, index + more, k);
  }

  lemma {:induction false} PublishKeeps(c: Codec, a: Archive, s: Step)
    requires Inv(c, a) && s.Publish? && Enabled(a, s)
    ensures Inv(c, Next(c, a, s))
  {
    if a.notes.disk.Complete() {
      var archive, row := a.notes.disk.identity.value, Listed(|a.index| + 1, s.instance, s.local, s.recordDigest);
      forall i | 0 <= i < |a.notes.log|
        ensures NamesSome(a.notes.log[i].body.semantic.reference, archive, a.index + [row])
      {
        StillNames(a.notes.log[i].body.semantic.reference, archive, a.index, [row]);
      }
    }
  }

  /** A row of the journal names the source that was looked up for its edit. */
  lemma {:induction false} WrittenNames(c: Codec, a: Archive, e: R.Event, seen: nat, row: Row)
    requires Inv(c, a) && e.Edited? && Enabled(a, Annotate(e, seen)) && a.notes.disk.Complete()
    requires S.Decide(a.notes.store.value, a.notes.disk, e.edit, e.source) == S.Write(row)
    ensures NamesSome(row.body.semantic.reference, a.notes.disk.identity.value, a.index)
  {
    var archive := a.notes.disk.identity.value;
    assert a.notes.store.value.mem.archive == archive by {
      LogFacts(c, archive, a.notes.log);
    }
    assert e.source.Resolved? && row.body.semantic.reference == e.edit.reference.value;
    var k := ResolvedOnAdmission(a.index[..seen], a.index[seen..], archive, e.edit.reference.value);
    assert a.index[..seen] + a.index[seen..] == a.index;
  }

  lemma {:induction false} OneMoreNamed(index: seq<Listed>, log: seq<Row>, row: Row, archive: string)
    requires Resolved(Moment(index, log), archive)
    requires NamesSome(row.body.semantic.reference, archive, index)
    ensures Resolved(Moment(index, log + [row]), archive)
  {}

  lemma {:induction false} EditKeeps(c: Codec, a: Archive, e: R.Event, seen: nat)
    requires Inv(c, a) && e.Edited? && Enabled(a, Annotate(e, seen)) && a.notes.disk.Complete()
    ensures Resolved(Moment(a.index, R.Next(c, a.notes, e).log), a.notes.disk.identity.value)
  {
    var s, d := a.notes.store.value, a.notes.disk;
    if S.Decide(s, d, e.edit, e.source).Write? {
      var row := S.Decide(s, d, e.edit, e.source).row;
      WrittenNames(c, a, e, seen, row);
      OneMoreNamed(a.index, a.notes.log, row, d.identity.value);
    }
    assert a.notes.log + [] == a.notes.log;
  }

  lemma {:induction false} NoteKeeps(c: Codec, a: Archive, e: R.Event, seen: nat)
    requires Encodes(c, a.notes.log) && Inv(c, a) && Enabled(a, Annotate(e, seen))
    ensures Inv(c, Next(c, a, Annotate(e, seen)))
  {
    R.StepKeeps(c, a.notes, e);
    if a.notes.disk.Complete() {
      IdentityStays(c, a.notes, e);
      if e.Edited? {
        EditKeeps(c, a, e, seen);
      }
    }
  }

  /** Every step of either side keeps it: numbers stay consecutive, the journal stays
      recoverable, and each edit names the first published row of its identity. */
  lemma {:induction false} StepKeeps(c: Codec, a: Archive, s: Step)
    requires Encodes(c, a.notes.log) && Inv(c, a) && Enabled(a, s)
    ensures Inv(c, Next(c, a, s))
  {
    match s
    case Publish(_, _, _) => PublishKeeps(c, a, s);
    case Annotate(e, seen) => NoteKeeps(c, a, e, seen);
  }

  /** Rows and edits are only added. */
  lemma {:induction false} RunGrows(c: Codec, a: Archive, steps: seq<Step>)
    requires Runs(c, a, steps)
    ensures a.index <= After(c, a, steps).index && a.notes.log <= After(c, a, steps).notes.log
    ensures Numbered(a.index) ==> Numbered(After(c, a, steps).index)
    decreases |steps|
  {
    if steps != [] {
      RunGrows(c, Next(c, a, steps[0]), steps[1..]);
    }
  }

  lemma {:induction false} RunKeeps(c: Codec, a: Archive, steps: seq<Step>)
    requires Inv(c, a) && Runs(c, a, steps) && Encodes(c, After(c, a, steps).notes.log)
    ensures Inv(c, After(c, a, steps))
    decreases |steps|
  {
    if steps != [] {
      RunGrows(c, a, steps);
      R.PrefixEncodes(c, a.notes.log, After(c, a, steps).notes.log);
      StepKeeps(c, a, steps[0]);
      RunKeeps(c, Next(c, a, steps[0]), steps[1..]);
    }
  }

  /** After any run every edit in the journal names a published row whose identity no
      earlier row had. */
  lemma {:induction false} EveryEditNamesItsRow(c: Codec, steps: seq<Step>)
    requires Runs(c, Empty, steps) && Encodes(c, After(c, Empty, steps).notes.log)
    ensures Inv(c, After(c, Empty, steps))
  {
    RunKeeps(c, Empty, steps);
  }

  // ---------------------------------------------------------------- pages asked for during a run

  /** More steps, and then a request for a page of this size. */
  datatype Request = Request(steps: seq<Step>, size: nat)

  /** A failed store answers no request. */
  ghost predicate Answering(a: Archive) {
    a.notes.store.Some? && !a.notes.store.value.failed
  }

  ghost predicate Asked(c: Codec, a: Archive, requests: seq<Request>)
    decreases |requests|
  {
    if |requests| == 0 then true
    else
      && Runs(c, a, requests[0].steps) && requests[0].size >= 1
      && Answering(After(c, a, requests[0].steps)) && Asked(c, After(c, a, requests[0].steps), requests[1..])
  }

  ghost function Visits(c: Codec, a: Archive, requests: seq<Request>): (r: seq<Visit>)
    requires Asked(c, a, requests)
    ensures |r| == |requests|
    decreases |requests|
  {
    if |requests| == 0 then []
    else
      var b := After(c, a, requests[0].steps);
      [Visit(MomentOf(b), requests[0].size)] + Visits(c, b, requests[1..])
  }

  function Sizes(requests: seq<Request>): nat
    decreases |requests|
  {
    if |requests| == 0 then 0 else requests[0].size + Sizes(requests[1..])
  }

  lemma {:induction false} VisitsGrow(c: Codec, base: Moment, a: Archive, requests: seq<Request>)
    requires Asked(c, a, requests) && base.index <= a.index && base.log <= a.notes.log && Numbered(a.index)
    ensures AllGrow(base, Visits(c, a, requests)) && Room(Visits(c, a, requests)) == Sizes(requests)
    decreases |requests|
  {
    if |requests| > 0 {
      var b := After(c, a, requests[0].steps);
      RunGrows(c, a, requests[0].steps);
      VisitsGrow(c, base, b, requests[1..]);
      assert Visits(c, a, requests)[1..] == Visits(c, b, requests[1..]);
    }
  }

  /** A row whose identity no other row of the prefix has, with a local sequence that a
      reference may hold. */
  ghost predicate Readable(index: seq<Listed>, prefix: nat, i: nat)
    requires i < prefix <= |index|
  {
    Alone(index, prefix, i) && index[i].local <= MAX_REVISION
  }

  lemma {:induction false} NumberedOrder(index: seq<Listed>, prefix: nat)
    requires Numbered(index) && prefix <= |index|
    ensures Ordered(index) && UpTo(index, prefix) == prefix && LastDurable(index) == |index|
    ensures AllNamed(index, prefix) <==> forall i :: 0 <= i < prefix ==> Readable(index, prefix, i)
  {
    UpToIs(index, prefix, prefix);
    if AllNamed(index, prefix) {
      forall i | 0 <= i < prefix ensures Readable(index, prefix, i) {
        assert Alone(index, prefix, i) && Referable(index[i]);
      }
    }
    if forall i :: 0 <= i < prefix ==> Readable(index, prefix, i) {
      forall i | 0 <= i < prefix ensures Alone(index, prefix, i) && Referable(index[i]) {
        assert Readable(index, prefix, i);
      }
    }
  }

  /** Pinning a prefix and a revision after any run and following the cursor while the
      run goes on: every page is answered exactly when every row of the prefix is
      readable, and then the pages together hold the prefix row by row, each with the
      edits the linear scan finds at the pinned revision. */
  lemma {:induction false} WalkOverRun(c: Codec, steps: seq<Step>, requests: seq<Request>, prefix: nat, revision: nat)
    requires Runs(c, Empty, steps) && Encodes(c, After(c, Empty, steps).notes.log)
    requires var a := After(c, Empty, steps);
      && a.notes.disk.Complete() && Asked(c, a, requests) && |requests| > 0 && Sizes(requests) >= prefix
      && prefix <= |a.index| && prefix <= MAX_REVISION && revision <= |a.notes.log|
    ensures var a := After(c, Empty, steps);
      a.notes.disk.identity.Holds?
      && var w := Walk(Visits(c, a, requests), a.notes.disk.identity.value, prefix, revision, 0);
      && (w.Ok? <==> forall i :: 0 <= i < prefix ==> Readable(a.index, prefix, i))
      && (w.Ok? ==> w.value.next.None? && |w.value.rows| == prefix)
      && (w.Ok? ==> forall i :: 0 <= i < prefix ==> Shows(MomentOf(a), a.notes.disk.identity.value, revision, i, w.value.rows[i]))
  {
    var a := After(c, Empty, steps);
    EveryEditNamesItsRow(c, steps);
    NumberedOrder(a.index, prefix);
    VisitsGrow(c, MomentOf(a), a, requests);
    FullWalkIff(MomentOf(a), Visits(c, a, requests), a.notes.disk.identity.value, prefix, revision);
  }

  // ---------------------------------------------------------------- two runs

  const Begin := Annotate(AnnotationCodec.FirstStart, 0)

  function Shown(c: Codec): seq<Step> {
    [Begin, Publish("plugin", 0, 7), Annotate(AnnotationCodec.FirstRun(c)[1], 1)]
  }

  lemma {:induction false} Began(c: Codec)
    ensures Enabled(Empty, Begin)
    ensures Next(c, Empty, Begin) ==
      Archive(R.World(S.InitialDisk(AnnotationCodec.ArchiveId, 3), Some(S.Store(Fresh(AnnotationCodec.ArchiveId), 0, false)), [], []), [])
  {
    AnnotationCodec.Started(c);
  }

  lemma {:induction false} FirstFound(a: Archive)
    requires a.index == [Listed(1, "plugin", 0, 7)] && a.notes.store == Some(S.Store(Fresh(AnnotationCodec.ArchiveId), 0, false))
    ensures Found(a, AnnotationCodec.FirstEdit, 1)
  {
    assert SafeToken("plugin");
    assert a.index[..1] == a.index;
    OwnReferenceResolves(a.index, 1, AnnotationCodec.ArchiveId, 0);
  }

  /** The first row is published, and then edited. */
  lemma {:induction false} ShownSteps(c: Codec, a: Archive)
    requires c == AnnotationCodec.CodecFor([AnnotationCodec.FirstRow])
    requires a == Archive(R.World(S.InitialDisk(AnnotationCodec.ArchiveId, 3), Some(S.Store(Fresh(AnnotationCodec.ArchiveId), 0, false)), [], []),
                          [Listed(1, "plugin", 0, 7)])
    ensures Enabled(a, Annotate(AnnotationCodec.FirstRun(c)[1], 1))
    ensures var b := Next(c, a, Annotate(AnnotationCodec.FirstRun(c)[1], 1));
      && b.index == a.index && b.notes.log == [AnnotationCodec.FirstRow] && b.notes.disk.Complete()
      && b.notes.disk.identity == S.Holds(AnnotationCodec.ArchiveId) && Answering(b)
  {
    AnnotationCodec.FirstDecision();
    AnnotationCodec.LandsWhole(|c.enc(AnnotationCodec.FirstRow)|);
    FirstFound(a);
  }

  lemma {:induction false} FirstStep(c: Codec, a: Archive, s: seq<Step>, rest: seq<Step>)
    requires s != [] && s == [s[0]] + rest && Enabled(a, s[0]) && Runs(c, Next(c, a, s[0]), rest)
    ensures Runs(c, a, s) && After(c, a, s) == After(c, Next(c, a, s[0]), rest)
  {
    assert s[1..] == rest;
  }

  lemma {:induction false} Published(c: Codec)
    ensures Runs(c, Empty, [Begin, Publish("plugin", 0, 7)])
    ensures After(c, Empty, [Begin, Publish("plugin", 0, 7)]) ==
      Archive(R.World(S.InitialDisk(AnnotationCodec.ArchiveId, 3), Some(S.Store(Fresh(AnnotationCodec.ArchiveId), 0, false)), [], []),
              [Listed(1, "plugin", 0, 7)])
  {
    Began(c);
    assert SafeToken("plugin");
    var b, s := Next(c, Empty, Begin), Publish("plugin", 0, 7);
    assert Next(c, b, s).index == [Listed(1, "plugin", 0, 7)];
    FirstStep(c, b, [s], []);
    FirstStep(c, Empty, [Begin, s], [s]);
  }

  lemma {:induction false} LastStep(c: Codec, a: Archive, steps: seq<Step>, s: Step)
    requires Runs(c, a, steps) && Enabled(After(c, a, steps), s)
    ensures Runs(c, a, steps + [s]) && After(c, a, steps + [s]) == Next(c, After(c, a, steps), s)
    decreases |steps|
  {
    if steps == [] {
      assert steps + [s] == [s];
      FirstStep(c, a, [s], []);
    } else {
      LastStep(c, Next(c, a, steps[0]), steps[1..], s);
      assert steps + [s] == [steps[0]] + (steps[1..] + [s]);
      FirstStep(c, a, steps + [s], steps[1..] + [s]);
    }
  }

  lemma {:induction false} ShownRuns(c: Codec)
    requires c == AnnotationCodec.CodecFor([AnnotationCodec.FirstRow])
    ensures Runs(c, Empty, Shown(c)) && Encodes(c, After(c, Empty, Shown(c)).notes.log)
    ensures var a := After(c, Empty, Shown(c));
      && a.index == [Listed(1, "plugin", 0, 7)] && a.notes.log == [AnnotationCodec.FirstRow] && a.notes.disk.Complete()
      && a.notes.disk.identity == S.Holds(AnnotationCodec.ArchiveId) && Answering(a)
  {
    AnnotationCodec.SomeCodecEncodes([AnnotationCodec.FirstRow]);
    Published(c);
    ShownSteps(c, After(c, Empty, [Begin, Publish("plugin", 0, 7)]));
    LastStep(c, Empty, [Begin, Publish("plugin", 0, 7)], Annotate(AnnotationCodec.FirstRun(c)[1], 1));
    assert Shown(c) == [Begin, Publish("plugin", 0, 7)] + [Annotate(AnnotationCodec.FirstRun(c)[1], 1)];
  }

  /** One page of one row, asked for at once. */
  const OnePage := [Request([], 1)]

  lemma {:induction false} OnePageAsked(c: Codec, a: Archive)
    requires Answering(a)
    ensures Asked(c, a, OnePage) && Visits(c, a, OnePage) == [Visit(MomentOf(a), 1)] && Sizes(OnePage) == 1
  {
    assert OnePage[1..] == [];
  }

  /** A run and a walk that meet the hypotheses, with an edit to show. */
  lemma {:induction false} EditedRowIsShown(c: Codec)
    requires c == AnnotationCodec.CodecFor([AnnotationCodec.FirstRow])
    ensures Runs(c, Empty, Shown(c)) && Asked(c, After(c, Empty, Shown(c)), OnePage)
    ensures Walk(Visits(c, After(c, Empty, Shown(c)), OnePage), AnnotationCodec.ArchiveId, 1, 1, 0) ==
      Ok(Page([Answered(Listed(1, "plugin", 0, 7), map[Confirm := AnnotationCodec.FirstRow])], None))
  {
    ShownRuns(c);
    OneEditWalk(c, Shown(c), After(c, Empty, Shown(c)));
  }

  lemma {:induction false} OneEditWalk(c: Codec, steps: seq<Step>, a: Archive)
    requires Runs(c, Empty, steps) && After(c, Empty, steps) == a && Encodes(c, a.notes.log) && Answering(a)
    requires a.index == [Listed(1, "plugin", 0, 7)] && a.notes.log == [AnnotationCodec.FirstRow]
    requires a.notes.disk.Complete() && a.notes.disk.identity == S.Holds(AnnotationCodec.ArchiveId)
    ensures Asked(c, a, OnePage)
    ensures Walk(Visits(c, a, OnePage), AnnotationCodec.ArchiveId, 1, 1, 0) ==
      Ok(Page([Answered(Listed(1, "plugin", 0, 7), map[Confirm := AnnotationCodec.FirstRow])], None))
  {
    OnePageAsked(c, a);
    WalkOverRun(c, steps, OnePage, 1, 1);
    assert Readable(a.index, 1, 0);
    OneRowWalk(a.index, a.notes.log, Walk(Visits(c, a, OnePage), AnnotationCodec.ArchiveId, 1, 1, 0));
  }

  lemma {:induction false} OneRowWalk(index: seq<Listed>, log: seq<Row>, w: Outcome<Page>)
    requires index == [Listed(1, "plugin", 0, 7)] && log == [AnnotationCodec.FirstRow]
    requires w.Ok? && w.value.next.None? && |w.value.rows| == 1
    requires Shows(Moment(index, log), AnnotationCodec.ArchiveId, 1, 0, w.value.rows[0])
    ensures w == Ok(Page([Answered(Listed(1, "plugin", 0, 7), map[Confirm := AnnotationCodec.FirstRow])], None))
  {
    FirstEdits(log, ReferenceTo(AnnotationCodec.ArchiveId, index[0]), |KINDS|);
    var row := w.value.rows[0];
    assert row.edits == map[Confirm := AnnotationCodec.FirstRow];
    assert w.value.rows == [row];
  }

  lemma {:induction false} EditsNext(log: seq<Row>, reference: Reference, revision: int, n: nat, found: map<Kind, Row>, at: Option<nat>)
    requires n < |KINDS| && EditsAt(log, reference, revision, n) == Ok(found)
    requires LastEdit(log, (reference.instance, reference.local, KINDS[n]), revision) == at
    requires at.Some? ==> at.value < |log| && log[at.value].body.semantic.reference == reference
    ensures EditsAt(log, reference, revision, n + 1) == Ok(if at.None? then found else found[KINDS[n] := log[at.value]])
  {
    match LastEdit(log, (reference.instance, reference.local, KINDS[n]), revision)
    case None => assert EditsAt(log, reference, revision, n + 1) == Ok(found);
    case Some(i) => assert EditsAt(log, reference, revision, n + 1) == Ok(found[KINDS[n] := log[i]]);
  }

  lemma {:induction false} FirstEdits(log: seq<Row>, reference: Reference, n: nat)
    requires log == [AnnotationCodec.FirstRow] && reference == ReferenceTo(AnnotationCodec.ArchiveId, Listed(1, "plugin", 0, 7))
    requires n <= |KINDS|
    ensures EditsAt(log, reference, 1, n) == Ok(if n == 0 then map[] else map[Confirm := AnnotationCodec.FirstRow])
  {
    if n > 0 {
      FirstEdits(log, reference, n - 1);
      var found: map<Kind, Row> := if n == 1 then map[] else map[Confirm := AnnotationCodec.FirstRow];
      assert KeyOf(log[0]) == ("plugin", 0, Confirm);
      assert log[..0] == [];
      EditsNext(log, reference, 1, n - 1, found, if n == 1 then Some(0) else None);
      assert n == 1 ==> found[KINDS[0] := log[0]] == map[Confirm := AnnotationCodec.FirstRow];
    }
  }

  const Oversized: seq<Step> := [Begin, Publish("plugin", MAX_REVISION + 1, 7)]

  lemma {:induction false} OversizedRuns(c: Codec)
    ensures Runs(c, Empty, Oversized)
    ensures var a := After(c, Empty, Oversized);
      MomentOf(a) == Moment([Listed(1, "plugin", MAX_REVISION + 1, 7)], []) && Answering(a)
  {
    Began(c);
    assert SafeToken("plugin");
    var a, s := Next(c, Empty, Begin), Publish("plugin", MAX_REVISION + 1, 7);
    assert Next(c, a, s).index == [Listed(1, "plugin", MAX_REVISION + 1, 7)];
    FirstStep(c, a, [s], []);
    FirstStep(c, Empty, Oversized, [s]);
  }

  /** Admission takes a local sequence of 2^63, and the first walk over the published row
      is refused. */
  lemma {:induction false} OversizedRowEndsWalk(c: Codec)
    ensures Runs(c, Empty, Oversized) && Asked(c, After(c, Empty, Oversized), OnePage)
    ensures Walk(Visits(c, After(c, Empty, Oversized), OnePage), AnnotationCodec.ArchiveId, 1, 0, 0) == Err(InvalidRequest)
  {
    OversizedRuns(c);
    OnePageAsked(c, After(c, Empty, Oversized));
    OversizedPage(MomentOf(After(c, Empty, Oversized)));
  }

  lemma {:induction false} OversizedPage(m: Moment)
    requires m == Moment([Listed(1, "plugin", MAX_REVISION + 1, 7)], [])
    ensures QueryOf(m, AnnotationCodec.ArchiveId, 1, 0, 0, 1) == Err(InvalidRequest)
  {
    UpToIs(m.index, 1, 1);
    UpToIs(m.index, 0, 0);
    OwnReferenceResolves(m.index, 1, AnnotationCodec.ArchiveId, 0);
    assert Answer(m, AnnotationCodec.ArchiveId, 1, 0, m.index[0]) == Err(InvalidRequest);
    assert Answers(m, AnnotationCodec.ArchiveId, 1, 0, 0, 0) == Ok([]);
    assert Answers(m, AnnotationCodec.ArchiveId, 1, 0, 0, 1) == Err(InvalidRequest);
    QueryFails(m, AnnotationCodec.ArchiveId, 1, 0, 0, 1, 0, 1, InvalidRequest);
  }
}
