/** Whole runs of the annotation store: edits, failures, crashes and restarts in any
    order (archive/annotations.py; docs/input-archive.md on annotation edits). */
module AnnotationRuns {
  import opened Common
  import opened AnnotationRows
  import opened AnnotationLog
  import opened Lines
  import opened AnnotationStore

  /** An acknowledged request and its revision. */
  datatype Receipt = Receipt(edit: Edit, revision: int)

  /** The disk, the running store, the rows ever published, and the receipts given. */
  datatype World = World(disk: Disk, store: Option<Store>, log: seq<Row>, receipts: seq<Receipt>)

  datatype Event =
    | Start(freshId: string, io: StartIo)
    | Edited(edit: Edit, source: Source, write: WriteIo)
    | Crash(tail: seq<Byte>)

  const Nothing := World(Disk(Absent, Absent, None), None, [], [])

  /** A crash may leave anything after the published bytes. */
  function Torn(d: Disk, tail: seq<Byte>): Disk {
    if d.Complete() && d.manifest.Holds? && 0 <= d.manifest.value.offset <= |d.journal.value| then
      d.(journal := Some(d.journal.value[..d.manifest.value.offset] + tail))
    else d
  }

  function Receive(receipts: seq<Receipt>, e: Edit, r: Response): seq<Receipt> {
    if r.Ack? then receipts + [Receipt(e, r.revision)] else receipts
  }

  predicate Reached(c: Codec, row: Row, io: WriteIo) {
    Landed(|c.enc(row)|, io.writes) == |c.enc(row)| && io.synced && !io.publish.NotReplaced?
  }

  /** The row a step publishes: the one its manifest write made current, if any. */
  function PublishedBy(c: Codec, s: Store, d: Disk, e: Edit, source: Source, write: WriteIo): seq<Row> {
    match Decide(s, d, e, source)
    case Answer(_) => []
    case Write(row) =>
      if Reached(c, row, write) then [row] else []
  }

  ghost predicate Enabled(w: World, e: Event) {
    match e
    case Start(id, _) => w.store.None? && IsArchiveId(id)
    case Edited(_, _, _) => w.store.Some? && (!w.store.value.failed && w.disk.Complete() ==> w.store.value.offset <= |w.disk.journal.value|)
    case Crash(_) => true
  }

  ghost function Next(c: Codec, w: World, e: Event): World
    requires Enabled(w, e)
  {
    match e
    case Start(id, io) =>
      var (disk, store) := PrepareStep(c, w.disk, id, io);
      World(disk, store, w.log, w.receipts)
    case Edited(edit, source, write) =>
      var s := w.store.value;
      var (response, store, disk) := MutateStep(c, s, w.disk, edit, source, write);
      World(disk, Some(store), w.log + PublishedBy(c, s, w.disk, edit, source, write),
            Receive(w.receipts, edit, response))
    case Crash(tail) => World(Torn(w.disk, tail), None, w.log, w.receipts)
  }

  // ---------------------------------------------------------------- the invariant

  /** The disk publishes exactly the log. */
  ghost predicate Publishes(c: Codec, d: Disk, log: seq<Row>) {
    && d.Complete() && d.identity.Holds? && IsArchiveId(d.identity.value)
    && ValidLog(c, d.identity.value, log) && |log| <= MAX_REVISION
    && d.manifest == Holds(Manifest(d.identity.value, |log|, |Encode(c, log)|, ChainOf(log)))
    && Encode(c, log) <= d.journal.value
  }

  ghost predicate Serves(c: Codec, s: Store, d: Disk, log: seq<Row>) {
    && Publishes(c, d, log)
    && (!s.failed ==> s.mem == MemoryOf(c, d.identity.value, log) && s.offset == |Encode(c, log)| && d.journal.value == Encode(c, log))
  }

  /** The row of the acknowledged revision holds the request. */
  ghost predicate Honoured(log: seq<Row>, r: Receipt) {
    1 <= r.revision <= |log| && Records(log[r.revision - 1], r.edit)
  }

  ghost predicate Inv(c: Codec, w: World) {
    && (w.disk.Complete() ==> Publishes(c, w.disk, w.log))
    && (!w.disk.Complete() ==> w.store.None? && w.log == [])
    && (w.store.Some? ==> Serves(c, w.store.value, w.disk, w.log))
    && (forall i :: 0 <= i < |w.receipts| ==> Honoured(w.log, w.receipts[i]))
  }

  // ---------------------------------------------------------------- recovery

  /** Start-up accepts a disk that publishes a log, whatever follows the published
      bytes, and yields the index of that log; the one thing it demands besides is
      that the offset fits the range it reads integers in. */
  lemma {:induction false} RecoverIffInRange(c: Codec, d: Disk, log: seq<Row>)
    requires Encodes(c, log) && Publishes(c, d, log)
    ensures Recover(c, d) == if |Encode(c, log)| <= MAX_REVISION then Some(MemoryOf(c, d.identity.value, log)) else None
  {
    var id := d.identity.value;
    assert log[..0] == [];
    ReplayReadsLog(c, id, d.journal.value, log, 0);
    LogFacts(c, id, log);
  }

  /** Whatever bytes a start accepts, they are rows as many as the manifest says, chained to
      its chain value; so under the manifest of a log they are that log, row by row. */
  lemma {:induction false} AcceptedIsLog(c: Codec, d: Disk, log: seq<Row>) returns (rows: seq<Row>)
    requires d.Complete() && Recover(c, d).Some?
    ensures d.manifest.Holds? && d.identity.Holds? && d.manifest.value.archive == d.identity.value
    ensures Chained(Fresh(d.identity.value), rows, Recover(c, d).value)
    ensures |rows| == d.manifest.value.revision && LastChain(rows, Zero) == d.manifest.value.chain
    ensures ValidLog(c, d.identity.value, log) && |log| == d.manifest.value.revision && ChainOf(log) == d.manifest.value.chain ==> rows == log
  {
    var state, start := d.manifest.value, Fresh(d.identity.value);
    rows := ReplayIsValid(c, d.journal.value, 0, state.offset, d.identity.value, start);
    ChainedIsLinked(start, rows, Recover(c, d).value);
    if ValidLog(c, d.identity.value, log) && |log| == state.revision && ChainOf(log) == state.chain {
      ValidIsLinked(c, d.identity.value, log);
      LinkedDetermines(rows, log, Zero);
    }
  }

  /** The first initialization, wherever it stops, leaves either a partial set,
      which is refused for good, or a disk that publishes the empty log. */
  lemma {:induction false} InitialDiskPublishes(c: Codec, id: string, steps: nat)
    requires IsArchiveId(id)
    ensures InitialDisk(id, steps).Complete() <==> steps >= 3
    ensures steps >= 3 ==> Publishes(c, InitialDisk(id, steps), [])
    ensures !InitialDisk(id, steps).Empty() <==> steps >= 1
  {
    assert Encode(c, []) == [];
  }

  lemma {:induction false} PrepareKeeps(c: Codec, d: Disk, id: string, io: StartIo, log: seq<Row>)
    requires Encodes(c, log) && IsArchiveId(id)
    requires d.Complete() ==> Publishes(c, d, log)
    requires !d.Complete() ==> log == []
    ensures var (disk, store) := PrepareStep(c, d, id, io);
      && (disk.Complete() ==> Publishes(c, disk, log))
      && (!disk.Complete() ==> store.None?)
      && (store.Some? ==> Serves(c, store.value, disk, log) && !store.value.failed)
  {
    InitialDiskPublishes(c, id, io.steps);
    var found := if d.Empty() then InitialDisk(id, io.steps) else d;
    if found.Complete() {
      assert Publishes(c, found, log);
      RecoverIffInRange(c, found, log);
      assert Encode(c, log) == found.journal.value[..|Encode(c, log)|];
    }
  }

  // ---------------------------------------------------------------- edits

  lemma {:induction false} DecidedRowValid(c: Codec, s: Store, d: Disk, log: seq<Row>, e: Edit, source: Source)
    requires Serves(c, s, d, log) && Decide(s, d, e, source).Write?
    ensures var row := Decide(s, d, e, source).row;
      && !s.failed && ValidRow(s.mem, row) && |log| + 1 <= MAX_REVISION && row.body.revision == |log| + 1
      && row.body.operation == e.operation && CheckEdit(s, d, e, source) == Ok(row.body.semantic)
  {
    LogFacts(c, d.identity.value, log);
    NormalizedIsAccepted(e.kind.value, e.value.value, NormalizeEdit(e).value);
  }

  lemma {:induction false} OverwriteEnd(file: seq<Byte>, raw: seq<Byte>)
    ensures Overwrite(file, |file|, raw) == file + raw
  {}

  /** Until the manifest is replaced the old log stays published. */
  lemma {:induction false} UnpublishedKeeps(c: Codec, d: Disk, log: seq<Row>, added: seq<Byte>)
    requires Publishes(c, d, log)
    ensures Publishes(c, d.(journal := Some(d.journal.value + added)), log)
  {}

  /** Replacing the manifest publishes the appended row. */
  lemma {:induction false} ReplacedPublishes(c: Codec, d: Disk, log: seq<Row>, row: Row)
    requires Publishes(c, d, log) && d.journal.value == Encode(c, log)
    requires ValidRow(MemoryOf(c, d.identity.value, log), row) && |log| + 1 <= MAX_REVISION
    ensures var next := Manifest(d.identity.value, |log| + 1, |Encode(c, log)| + |c.enc(row)|, row.chain);
      Publishes(c, d.(journal := Some(d.journal.value + c.enc(row)), manifest := Holds(next)), log + [row])
    ensures Encode(c, log + [row]) == d.journal.value + c.enc(row)
  {
    Extend(c, d.identity.value, log, row);
  }

  lemma {:induction false} FailedWriteKeeps(c: Codec, s: Store, d: Disk, log: seq<Row>, row: Row, io: WriteIo)
    requires Serves(c, s, d, log) && !s.failed && !Reached(c, row, io)
    ensures s.offset <= |d.journal.value|
    ensures var (response, store, disk) := WriteStep(c, s, d, row, io);
      Serves(c, store, disk, log) && disk.identity == d.identity
  {
    var raw := c.enc(row);
    var landed := Landed(|raw|, io.writes);
    OverwriteEnd(d.journal.value, raw[..landed]);
    UnpublishedKeeps(c, d, log, raw[..landed]);
  }

  /** What a write that replaced the manifest leaves. */
  lemma {:induction false} LandedWrite(c: Codec, s: Store, d: Disk, row: Row, io: WriteIo)
    requires d.Complete() && s.offset == |d.journal.value| && Reached(c, row, io)
    ensures var (response, store, disk) := WriteStep(c, s, d, row, io);
      var raw := c.enc(row);
      && disk == d.(journal := Some(d.journal.value + raw),
                    manifest := Holds(Manifest(s.mem.archive, row.body.revision, s.offset + |raw|, row.chain)))
      && (!store.failed ==> store == Store(Remember(s.mem, row, s.offset, |raw|), s.offset + |raw|, false))
  {
    assert c.enc(row)[..|c.enc(row)|] == c.enc(row);
    OverwriteEnd(d.journal.value, c.enc(row));
  }

  lemma {:induction false} LandedWriteKeeps(c: Codec, s: Store, d: Disk, log: seq<Row>, row: Row, io: WriteIo)
    requires Serves(c, s, d, log) && !s.failed && ValidRow(s.mem, row) && |log| + 1 <= MAX_REVISION && Reached(c, row, io)
    ensures s.offset <= |d.journal.value|
    ensures var (response, store, disk) := WriteStep(c, s, d, row, io);
      Serves(c, store, disk, log + [row]) && disk.identity == d.identity
  {
    assert s.mem.revision == |log| && s.mem.archive == d.identity.value by {
      LogFacts(c, d.identity.value, log);
    }
    LandedWrite(c, s, d, row, io);
    ReplacedPublishes(c, d, log, row);
    assert MemoryOf(c, d.identity.value, log + [row]) == Remember(s.mem, row, s.offset, |c.enc(row)|) by {
      Extend(c, d.identity.value, log, row);
    }
  }

  lemma {:induction false} WriteKeeps(c: Codec, s: Store, d: Disk, log: seq<Row>, row: Row, io: WriteIo)
    requires Serves(c, s, d, log) && !s.failed && ValidRow(s.mem, row) && |log| + 1 <= MAX_REVISION
    ensures s.offset <= |d.journal.value|
    ensures var (response, store, disk) := WriteStep(c, s, d, row, io);
      Serves(c, store, disk, if Reached(c, row, io) then log + [row] else log) && disk.identity == d.identity
  {
    if Reached(c, row, io) {
      LandedWriteKeeps(c, s, d, log, row, io);
    } else {
      FailedWriteKeeps(c, s, d, log, row, io);
    }
  }

  lemma {:induction false} EditKeeps(c: Codec, s: Store, d: Disk, log: seq<Row>, e: Edit, source: Source, io: WriteIo)
    requires Serves(c, s, d, log)
    ensures !s.failed ==> s.offset <= |d.journal.value|
    ensures var (response, store, disk) := MutateStep(c, s, d, e, source, io);
      && Serves(c, store, disk, log + PublishedBy(c, s, d, e, source, io))
      && disk.identity == d.identity
  {
    if Decide(s, d, e, source).Write? {
      DecidedRowValid(c, s, d, log, e, source);
      WriteKeeps(c, s, d, log, Decide(s, d, e, source).row, io);
      assert log + [] == log;
    } else {
      assert log + [] == log;
    }
  }

  /** An acknowledged edit is a row of the log: the one just written, or the one its
      operation already owns, with the same content. */
  lemma {:induction false} AckHonoured(c: Codec, s: Store, d: Disk, log: seq<Row>, e: Edit, source: Source, io: WriteIo)
    requires Serves(c, s, d, log) && MutateStep(c, s, d, e, source, io).0.Ack?
    ensures Honoured(log + PublishedBy(c, s, d, e, source, io), Receipt(e, MutateStep(c, s, d, e, source, io).0.revision))
  {
    if Decide(s, d, e, source).Write? {
      DecidedRowValid(c, s, d, log, e, source);
      WrittenMeans(s, d, e, source);
    } else {
      RepeatHonoured(c, s, d, log, e, source);
      assert log + [] == log;
    }
  }

  /** An answered repeat names the row that already holds the request. */
  lemma {:induction false} RepeatHonoured(c: Codec, s: Store, d: Disk, log: seq<Row>, e: Edit, source: Source)
    requires Serves(c, s, d, log) && Decide(s, d, e, source).Answer? && Decide(s, d, e, source).response.Ack?
    ensures Honoured(log, Receipt(e, Decide(s, d, e, source).response.revision))
  {
    CheckMeans(s, d, e, source);
    OperationFacts(c, d.identity.value, log);
    var revision := s.mem.operations[e.operation].1;
    assert Owned(log, e.operation, revision);
    assert Recorded(s.mem.operations, log[revision - 1], revision - 1);
    PrefixValid(c, d.identity.value, log, revision - 1);
    assert log[revision - 1].body.semantic == CheckEdit(s, d, e, source).value;
  }

  lemma {:induction false} HonouredStays(log: seq<Row>, more: seq<Row>, r: Receipt)
    requires Honoured(log, r)
    ensures Honoured(log + more, r)
  {}

  // ---------------------------------------------------------------- every run

  lemma {:induction false} EditStep(c: Codec, w: World, e: Event)
    requires Inv(c, w) && e.Edited? && Enabled(w, e)
    ensures Inv(c, Next(c, w, e)) && w.log <= Next(c, w, e).log && w.receipts <= Next(c, w, e).receipts
  {
    var s, more := w.store.value, PublishedBy(c, w.store.value, w.disk, e.edit, e.source, e.write);
    EditKeeps(c, s, w.disk, w.log, e.edit, e.source, e.write);
    forall i | 0 <= i < |w.receipts| ensures Honoured(w.log + more, w.receipts[i]) {
      HonouredStays(w.log, more, w.receipts[i]);
    }
    if MutateStep(c, s, w.disk, e.edit, e.source, e.write).0.Ack? {
      AckHonoured(c, s, w.disk, w.log, e.edit, e.source, e.write);
    }
  }

  /** Every step keeps the invariant, and the log and the receipts only grow. */
  lemma {:induction false} StepKeeps(c: Codec, w: World, e: Event)
    requires Encodes(c, w.log) && Inv(c, w) && Enabled(w, e)
    ensures Inv(c, Next(c, w, e)) && w.log <= Next(c, w, e).log && w.receipts <= Next(c, w, e).receipts
  {
    match e
    case Start(id, io) => PrepareKeeps(c, w.disk, id, io, w.log);
    case Edited(_, _, _) => EditStep(c, w, e);
    case Crash(tail) =>
      if w.disk.Complete() {
        assert Encode(c, w.log) == w.disk.journal.value[..|Encode(c, w.log)|];
      }
  }

  ghost predicate Runs(c: Codec, w: World, events: seq<Event>)
    decreases |events|
  {
    events == [] || (Enabled(w, events[0]) && Runs(c, Next(c, w, events[0]), events[1..]))
  }

  ghost function After(c: Codec, w: World, events: seq<Event>): World
    requires Runs(c, w, events)
    decreases |events|
  {
    if events == [] then w else After(c, Next(c, w, events[0]), events[1..])
  }

  lemma {:induction false} LogGrows(c: Codec, w: World, events: seq<Event>)
    requires Runs(c, w, events)
    ensures w.log <= After(c, w, events).log
    decreases |events|
  {
    if events != [] {
      LogGrows(c, Next(c, w, events[0]), events[1..]);
    }
  }

  lemma {:induction false} PrefixEncodes(c: Codec, log: seq<Row>, longer: seq<Row>)
    requires log <= longer && Encodes(c, longer)
    ensures Encodes(c, log)
  {
    forall i | 0 <= i < |log| && WellShaped(log[i]) ensures LineOf(c, log[i]) {
      assert log[i] == longer[i];
    }
  }

  /** The encoding need only be right about the rows the run ends up having published. */
  lemma {:induction false} RunKeeps(c: Codec, w: World, events: seq<Event>)
    requires Inv(c, w) && Runs(c, w, events) && Encodes(c, After(c, w, events).log)
    ensures Inv(c, After(c, w, events)) && w.log <= After(c, w, events).log && w.receipts <= After(c, w, events).receipts
    decreases |events|
  {
    if events != [] {
      LogGrows(c, w, events);
      PrefixEncodes(c, w.log, After(c, w, events).log);
      StepKeeps(c, w, events[0]);
      RunKeeps(c, Next(c, w, events[0]), events[1..]);
    }
  }

  /** Every reachable disk that has all three files is accepted at start-up, while
      its offset is in integer range, and yields exactly the published rows. */
  lemma {:induction false} ReachableDiskRecovers(c: Codec, events: seq<Event>)
    requires Runs(c, Nothing, events) && Encodes(c, After(c, Nothing, events).log) && After(c, Nothing, events).disk.Complete()
    ensures var w := After(c, Nothing, events);
      Publishes(c, w.disk, w.log) && Recover(c, w.disk) ==
        (if |Encode(c, w.log)| <= MAX_REVISION then Some(MemoryOf(c, w.disk.identity.value, w.log)) else None)
  {
    RunKeeps(c, Nothing, events);
    RecoverIffInRange(c, After(c, Nothing, events).disk, After(c, Nothing, events).log);
  }

  lemma {:induction false} HonouredOnce(c: Codec, archive: string, log: seq<Row>, r: Receipt)
    requires ValidLog(c, archive, log) && Honoured(log, r)
    ensures forall j :: 0 <= j < |log| && log[j].body.operation == r.edit.operation ==> j == r.revision - 1
    ensures forall j :: 0 <= j < |log| ==> log[j].body.revision == j + 1 && log[j].body.semantic.expected == j
  {
    LogFacts(c, archive, log);
    forall j | 0 <= j < |log| && log[j].body.operation == r.edit.operation ensures j == r.revision - 1 {
      OperationsDistinct(c, archive, log, j, r.revision - 1);
    }
  }

  /** Nothing acknowledged is ever lost, no operation owns two rows, and each row's
      edit was made against exactly the revision before it. */
  lemma {:induction false} AcknowledgedIsKept(c: Codec, events: seq<Event>, more: seq<Event>, i: nat)
    requires Runs(c, Nothing, events) && Runs(c, After(c, Nothing, events), more)
    requires Encodes(c, After(c, After(c, Nothing, events), more).log)
    requires i < |After(c, Nothing, events).receipts|
    ensures var r := After(c, Nothing, events).receipts[i];
      var log := After(c, After(c, Nothing, events), more).log;
      && Honoured(log, r)
      && (forall j :: 0 <= j < |log| && log[j].body.operation == r.edit.operation ==> j == r.revision - 1)
      && (forall j :: 0 <= j < |log| ==> log[j].body.revision == j + 1 && log[j].body.semantic.expected == j)
  {
    var w := After(c, Nothing, events);
    LogGrows(c, w, more);
    PrefixEncodes(c, w.log, After(c, w, more).log);
    assert Inv(c, w) by {
      RunKeeps(c, Nothing, events);
    }
    RunKeeps(c, w, more);
    KeptReceipt(c, w, After(c, w, more), i);
  }

  lemma {:induction false} KeptReceipt(c: Codec, w: World, last: World, i: nat)
    requires Inv(c, last) && w.receipts <= last.receipts && i < |w.receipts|
    ensures Honoured(last.log, w.receipts[i])
    ensures forall j :: 0 <= j < |last.log| && last.log[j].body.operation == w.receipts[i].edit.operation ==> j == w.receipts[i].revision - 1
    ensures forall j :: 0 <= j < |last.log| ==> last.log[j].body.revision == j + 1 && last.log[j].body.semantic.expected == j
  {
    assert w.receipts[i] == last.receipts[i];
    HonouredOnce(c, last.disk.identity.value, last.log, w.receipts[i]);
  }

  // ---------------------------------------------------------------- retries

  /** Repeating a recorded operation changes nothing: the same content is answered
      with its revision, different content with a conflict. */
  lemma {:induction false} RepeatIsAnswered(c: Codec, s: Store, d: Disk, log: seq<Row>, e: Edit, source: Source, io: WriteIo, i: nat)
    requires Serves(c, s, d, log) && CheckEdit(s, d, e, source).Ok? && i < |log| && log[i].body.operation == e.operation
    ensures MutateStep(c, s, d, e, source, io) ==
      (if log[i].body.semantic == CheckEdit(s, d, e, source).value then Ack(i + 1, |log|, true) else Refuse(OperationConflict), s, d)
  {
    LogFacts(c, d.identity.value, log);
    OperationFacts(c, d.identity.value, log);
    assert Recorded(s.mem.operations, log[i], i);
    PrefixValid(c, d.identity.value, log, i);
  }

  /** Exactly once: an edit whose write fails in any way, followed by a crash that
      leaves anything after the published bytes, a restart, and the same edit again
      with a working disk, is acknowledged and is in the log exactly once. */
  lemma {:induction false} ExactlyOnce(c: Codec, w: World, e: Edit, source: Source, failing: WriteIo, tail: seq<Byte>, freshId: string, working: WriteIo)
    requires Inv(c, w) && w.store.Some? && IsArchiveId(freshId)
    requires Decide(w.store.value, w.disk, e, source).Write?
    requires Encodes(c, w.log + [Decide(w.store.value, w.disk, e, source).row])
    requires working.synced && working.publish.Published?
    requires var raw := c.enc(Decide(w.store.value, w.disk, e, source).row);
      Landed(|raw|, working.writes) == |raw| && |Encode(c, w.log)| + |raw| <= MAX_REVISION
    ensures Enabled(w, Edited(e, source, failing))
    ensures var w1 := Next(c, w, Edited(e, source, failing));
      var w2 := Next(c, w1, Crash(tail));
      Enabled(w2, Start(freshId, StartIo(3, true, true)))
      && var w3 := Next(c, w2, Start(freshId, StartIo(3, true, true)));
      Enabled(w3, Edited(e, source, working))
      && var w4 := Next(c, w3, Edited(e, source, working));
      && w4.log == w.log + [Decide(w.store.value, w.disk, e, source).row]
      && MutateStep(c, w3.store.value, w3.disk, e, source, working).0.Ack?
      && MutateStep(c, w3.store.value, w3.disk, e, source, working).0.revision == |w.log| + 1
  {
    var s, d, row := w.store.value, w.disk, Decide(w.store.value, w.disk, e, source).row;
    var w3 := FailsAndRestarts(c, w, e, source, failing, tail, freshId);
    EditKeeps(c, w3.store.value, w3.disk, w3.log, e, source, working);
    SameDecision(c, s, d, w.log, w3.store.value, w3.disk, w3.log, e, source, row, working);
  }

  /** The failing write, the crash and the restart: the store serves the log again,
      with the row or without it. */
  lemma {:induction false} FailsAndRestarts(c: Codec, w: World, e: Edit, source: Source, failing: WriteIo, tail: seq<Byte>, freshId: string)
    returns (w3: World)
    requires Inv(c, w) && w.store.Some? && IsArchiveId(freshId) && Decide(w.store.value, w.disk, e, source).Write?
    requires Encodes(c, w.log + [Decide(w.store.value, w.disk, e, source).row])
    requires |Encode(c, w.log)| + |c.enc(Decide(w.store.value, w.disk, e, source).row)| <= MAX_REVISION
    ensures Enabled(w, Edited(e, source, failing))
    ensures var w2 := Next(c, Next(c, w, Edited(e, source, failing)), Crash(tail));
      Enabled(w2, Start(freshId, StartIo(3, true, true))) && w3 == Next(c, w2, Start(freshId, StartIo(3, true, true)))
    ensures Inv(c, w3) && w3.store.Some? && !w3.store.value.failed && w3.disk.identity == w.disk.identity
    ensures w3.log == w.log || w3.log == w.log + [Decide(w.store.value, w.disk, e, source).row]
  {
    var s, d, row := w.store.value, w.disk, Decide(w.store.value, w.disk, e, source).row;
    PrefixEncodes(c, w.log, w.log + [row]);
    EditKeeps(c, s, d, w.log, e, source, failing);
    var w1 := Next(c, w, Edited(e, source, failing));
    StepKeeps(c, w, Edited(e, source, failing));
    assert w1.log == w.log || w1.log == w.log + [row];
    StepKeeps(c, w1, Crash(tail));
    Extend(c, d.identity.value, w.log, row);
    w3 := Restarted(c, Next(c, w1, Crash(tail)), freshId);
  }

  /** After any crash a start-up with a working disk serves the log again. */
  lemma {:induction false} Restarted(c: Codec, w: World, freshId: string) returns (w': World)
    requires Encodes(c, w.log) && Inv(c, w) && w.store.None? && w.disk.Complete() && IsArchiveId(freshId)
    requires |Encode(c, w.log)| <= MAX_REVISION
    ensures w' == Next(c, w, Start(freshId, StartIo(3, true, true)))
    ensures w'.store.Some? && !w'.store.value.failed && w'.log == w.log && w'.disk.identity == w.disk.identity && Inv(c, w')
  {
    RecoverIffInRange(c, w.disk, w.log);
    StepKeeps(c, w, Start(freshId, StartIo(3, true, true)));
    w' := Next(c, w, Start(freshId, StartIo(3, true, true)));
  }

  /** The checks of an edit depend on the archive alone. */
  lemma {:induction false} SameCheck(c: Codec, s: Store, d: Disk, log: seq<Row>, s': Store, d': Disk, log': seq<Row>, e: Edit, source: Source)
    requires Serves(c, s, d, log) && !s.failed && Serves(c, s', d', log') && !s'.failed && d'.identity == d.identity
    ensures CheckEdit(s', d', e, source) == CheckEdit(s, d, e, source)
  {
    LogFacts(c, d.identity.value, log);
    LogFacts(c, d.identity.value, log');
  }

  lemma {:induction false} SameFresh(c: Codec, s: Store, d: Disk, log: seq<Row>, s': Store, d': Disk, e: Edit, source: Source, row: Row, io: WriteIo)
    requires Serves(c, s, d, log) && !s.failed && Decide(s, d, e, source) == Write(row) && row.body.revision == |log| + 1
    requires Serves(c, s', d', log) && !s'.failed && d'.identity == d.identity && CheckEdit(s', d', e, source) == CheckEdit(s, d, e, source)
    requires io.synced && io.publish.Published? && Landed(|c.enc(row)|, io.writes) == |c.enc(row)|
    ensures log + PublishedBy(c, s', d', e, source, io) == log + [row]
    ensures s'.offset <= |d'.journal.value|
    ensures MutateStep(c, s', d', e, source, io).0.Ack? && MutateStep(c, s', d', e, source, io).0.revision == |log| + 1
  {}

  lemma {:induction false} SameDecision(c: Codec, s: Store, d: Disk, log: seq<Row>, s': Store, d': Disk, log': seq<Row>,
                                        e: Edit, source: Source, row: Row, io: WriteIo)
    requires Serves(c, s, d, log) && Decide(s, d, e, source) == Write(row)
    requires Serves(c, s', d', log') && !s'.failed && d'.identity == d.identity
    requires log' == log || log' == log + [row]
    requires io.synced && io.publish.Published? && Landed(|c.enc(row)|, io.writes) == |c.enc(row)|
    ensures log' + PublishedBy(c, s', d', e, source, io) == log + [row]
    ensures s'.offset <= |d'.journal.value|
    ensures MutateStep(c, s', d', e, source, io).0.Ack? && MutateStep(c, s', d', e, source, io).0.revision == |log| + 1
  {
    DecidedRowValid(c, s, d, log, e, source);
    SameCheck(c, s, d, log, s', d', log', e, source);
    if log' == log {
      SameFresh(c, s, d, log, s', d', e, source, row, io);
    } else {
      RepeatIsAnswered(c, s', d', log', e, source, io, |log|);
      assert log' + [] == log';
    }
  }
}
