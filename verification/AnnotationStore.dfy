/** The annotation store (archive/annotations.py, AnnotationStore): start-up,
    one edit, and the disk they share. An uncertain write poisons the store. */
module AnnotationStore {
  import opened Common
  import opened AnnotationRows
  import opened AnnotationLog
  import opened Lines

  // ---------------------------------------------------------------- disk

  datatype Stored<+T> = Absent | Corrupt | Holds(value: T)

  datatype Manifest = Manifest(archive: string, revision: int, offset: int, chain: Digest)

  datatype Disk = Disk(identity: Stored<string>, manifest: Stored<Manifest>, journal: Option<seq<Byte>>) {
    predicate Empty() { identity.Absent? && manifest.Absent? && journal.None? }
    predicate Complete() { !identity.Absent? && !manifest.Absent? && journal.Some? }
  }

  predicate IsArchiveId(s: string) {
    |s| == 32 && forall i :: 0 <= i < 32 ==> s[i] in "0123456789abcdef"
  }

  /** The store's memory; a failed store answers every edit with an error. */
  datatype Store = Store(mem: Memory, offset: nat, failed: bool)

  // ---------------------------------------------------------------- start-up

  /** How far a first initialization gets, and whether the tail is cut and start-up completes. */
  datatype StartIo = StartIo(steps: nat, truncated: bool, completed: bool)

  /** Journal first, then manifest, then identity. */
  function InitialDisk(id: string, steps: nat): Disk {
    Disk(if steps >= 3 then Holds(id) else Absent,
         if steps >= 2 then Holds(Manifest(id, 0, 0, Zero)) else Absent,
         if steps >= 1 then Some([]) else None)
  }

  function Recover(c: Codec, d: Disk): Option<Memory>
    requires d.Complete()
  {
    if !d.identity.Holds? || !IsArchiveId(d.identity.value) then None
    else if !d.manifest.Holds? || d.manifest.value.archive != d.identity.value then None
    else
      var state := d.manifest.value;
      if !IsInteger(state.revision, 0) || !IsInteger(state.offset, 0) then None
      else
        match Replay(c, d.journal.value, 0, state.offset, Fresh(d.identity.value))
        case None => None
        case Some(m) => if m.revision == state.revision && m.chain == state.chain && state.offset <= |d.journal.value| then Some(m) else None
  }

  function CutTail(d: Disk): Disk
    requires d.Complete() && d.manifest.Holds? && 0 <= d.manifest.value.offset <= |d.journal.value|
  {
    d.(journal := Some(d.journal.value[..d.manifest.value.offset]))
  }

  lemma {:induction false} RecoverWithinFile(c: Codec, d: Disk)
    requires d.Complete() && Recover(c, d).Some?
    ensures d.manifest.Holds? && 0 <= d.manifest.value.offset <= |d.journal.value|
  {}

  function PrepareStep(c: Codec, d: Disk, freshId: string, io: StartIo): (Disk, Option<Store>) {
    var found := if d.Empty() then InitialDisk(freshId, io.steps) else d;
    if !found.Complete() then (found, None)
    else
      match Recover(c, found)
      case None => (found, None)
      case Some(m) =>
        RecoverWithinFile(c, found);
        if !io.truncated then (found, None)
        else (CutTail(found), if io.completed then Some(Store(m, found.manifest.value.offset, false)) else None)
  }

  /** A start keeps what it finds: a set that is there is changed only by cutting the
      journal where its manifest ends, and only when it is accepted; one that lacks a file
      is refused as it is; and a store that comes up ends where its journal does. */
  predicate Starts(d: Disk, after: Disk, store: Option<Store>) {
    && (!d.Empty() ==> after.identity == d.identity && after.manifest == d.manifest)
    && (!d.Empty() && after.journal != d.journal ==>
          && d.Complete() && d.manifest.Holds? && 0 <= d.manifest.value.offset <= |d.journal.value|
          && after.journal == Some(d.journal.value[..d.manifest.value.offset]))
    && (!d.Empty() && !d.Complete() ==> after == d && store.None?)
    && (store.Some? ==>
          && after.Complete() && after.identity.Holds? && after.manifest.Holds? && !store.value.failed
          && after.manifest.value.archive == after.identity.value == store.value.mem.archive
          && after.manifest.value.revision == store.value.mem.revision && after.manifest.value.chain == store.value.mem.chain
          && store.value.offset == after.manifest.value.offset == |after.journal.value|)
  }

  lemma {:induction false} ReplayKeepsArchive(c: Codec, file: seq<Byte>, pos: nat, end: nat, m: Memory)
    requires pos <= |file| && Replay(c, file, pos, end, m).Some?
    ensures Replay(c, file, pos, end, m).value.archive == m.archive
    decreases end - pos
  {
    if pos < end {
      var raw := ReadLine(file, pos);
      ReplayKeepsArchive(c, file, pos + |raw|, end, Remember(m, RowAt(c, file, pos, end, m).value, pos, |raw|));
    }
  }

  lemma {:induction false} StartMeans(c: Codec, d: Disk, freshId: string, io: StartIo)
    ensures var (after, store) := PrepareStep(c, d, freshId, io); Starts(d, after, store)
  {
    var found := if d.Empty() then InitialDisk(freshId, io.steps) else d;
    if found.Complete() && Recover(c, found).Some? {
      RecoverWithinFile(c, found);
      ReplayKeepsArchive(c, found.journal.value, 0, found.manifest.value.offset, Fresh(found.identity.value));
      assert found.journal.value[..|found.journal.value|] == found.journal.value;
    }
  }

  // ---------------------------------------------------------------- one edit

  /** The result of resolving the referenced source row: its observed target, if any. */
  datatype Source = Unresolved | Resolved(target: Option<string>)

  datatype PublishIo = Published | NotReplaced | ReplacedThenFailed

  /** Results of the successive write calls, the final sync, and the manifest write. */
  datatype WriteIo = WriteIo(writes: seq<nat>, synced: bool, publish: PublishIo)

  datatype Response = Ack(revision: int, current: int, replayed: bool) | Refuse(error: Error)

  /** Bytes on file after writing n bytes in these pieces; a zero or missing result stops. */
  function Landed(n: nat, writes: seq<nat>): (r: nat)
    ensures r <= n
    decreases |writes|
  {
    if n == 0 || writes == [] || writes[0] == 0 then 0
    else
      var k := Min(writes[0], n);
      k + Landed(n - k, writes[1..])
  }

  function Overwrite(file: seq<Byte>, offset: nat, raw: seq<Byte>): seq<Byte>
    requires offset <= |file|
  {
    file[..offset] + raw + file[Min(|file|, offset + |raw|)..]
  }

  /** Append, publish, remember. */
  function WriteStep(c: Codec, s: Store, d: Disk, row: Row, io: WriteIo): (Response, Store, Disk)
    requires d.Complete() && s.offset <= |d.journal.value|
  {
    var raw := c.enc(row);
    var landed := Landed(|raw|, io.writes);
    var appended := d.(journal := Some(Overwrite(d.journal.value, s.offset, raw[..landed])));
    var next := Manifest(s.mem.archive, row.body.revision, s.offset + |raw|, row.chain);
    if landed < |raw| || !io.synced || io.publish.NotReplaced? then
      (Refuse(StorageFailure), s.(failed := true), appended)
    else if io.publish.ReplacedThenFailed? then
      (Refuse(StorageFailure), s.(failed := true), appended.(manifest := Holds(next)))
    else
      var m := Remember(s.mem, row, s.offset, |raw|);
      (Ack(row.body.revision, row.body.revision, false), Store(m, s.offset + |raw|, false), appended.(manifest := Holds(next)))
  }

  /** The checks before the operation table is consulted. */
  function CheckEdit(s: Store, d: Disk, e: Edit, source: Source): Outcome<Semantic> {
    if s.failed || !d.Complete() then Err(StateInvalid)
    else if !e.versionKnown then Err(UnsupportedVersion)
    else
      match NormalizeEdit(e)
      case Err(error) => Err(error)
      case Ok(value) =>
        if e.reference.None? then Err(InvalidRequest)
        else if e.reference.value.archive != s.mem.archive then Err(ForeignArchive)
        else if !ReferenceShape(e.reference.value, s.mem.archive) then Err(InvalidRequest)
        else if source.Unresolved? then Err(SourceRefused)
        else if e.kind.value.Confirm? && source.target.None? then Err(TargetUnavailable)
        else Ok(Semantic(e.reference.value, e.kind.value, value, e.expected.value))
  }

  /** The decision on an edit: refuse it, answer a repeat, or write a row. */
  datatype Decision = Answer(response: Response) | Write(row: Row)

  function Decide(s: Store, d: Disk, e: Edit, source: Source): Decision {
    match CheckEdit(s, d, e, source)
    case Err(error) => Answer(Refuse(error))
    case Ok(semantic) =>
      if e.operation in s.mem.operations then
        if s.mem.operations[e.operation].0 != OfSemantic(semantic) then Answer(Refuse(OperationConflict))
        else Answer(Ack(s.mem.operations[e.operation].1, s.mem.revision, true))
      else if semantic.expected != s.mem.revision then Answer(Refuse(StaleRevision))
      else if s.mem.revision == MAX_REVISION then Answer(Refuse(InputBound))
      else Write(MakeRow(s.mem.archive, s.mem.revision + 1, e.operation, semantic, s.mem.chain))
  }

  // ---------------------------------------------------------------- what an edit means

  /** The edit passes every test before its operation is looked up. */
  predicate Acceptable(s: Store, d: Disk, e: Edit, source: Source) {
    && !s.failed && d.Complete() && e.versionKnown && EditAllowed(e)
    && e.reference.Some? && ReferenceShape(e.reference.value, s.mem.archive)
    && source.Resolved? && (e.kind.value.Confirm? ==> source.target.Some?)
  }

  /** The refusal of the first test it fails. */
  predicate RefusedBy(s: Store, d: Disk, e: Edit, source: Source, error: Error) {
    if s.failed || !d.Complete() then error == StateInvalid
    else if !e.versionKnown then error == UnsupportedVersion
    else if !EditAllowed(e) then
      error == if PartsAllowed(e) && ValueTooLong(e.kind.value, e.value.value) then InputBound else InvalidRequest
    else if e.reference.None? then error == InvalidRequest
    else if e.reference.value.archive != s.mem.archive then error == ForeignArchive
    else if !ReferenceShape(e.reference.value, s.mem.archive) then error == InvalidRequest
    else if source.Unresolved? then error == SourceRefused
    else error == TargetUnavailable
  }

  lemma {:induction false} NormalizeEditMeans(e: Edit)
    ensures NormalizeEdit(e).Ok? <==> EditAllowed(e)
    ensures NormalizeEdit(e).Ok? ==> StoresAsked(e.kind.value, e.value.value, NormalizeEdit(e).value)
    ensures NormalizeEdit(e).Err? ==>
      NormalizeEdit(e).error ==
        if PartsAllowed(e) && ValueTooLong(e.kind.value, e.value.value) then InputBound else InvalidRequest
  {
    if e.kind.Some? && e.value.Some? {
      NormalizeMeans(e.kind.value, e.value.value);
    }
  }

  /** The tests of an edit: it is refused by the first it fails, and what passes asks for
      exactly what was requested. */
  lemma {:induction false} CheckMeans(s: Store, d: Disk, e: Edit, source: Source)
    ensures CheckEdit(s, d, e, source).Ok? <==> Acceptable(s, d, e, source)
    ensures CheckEdit(s, d, e, source).Err? ==> RefusedBy(s, d, e, source, CheckEdit(s, d, e, source).error)
    ensures CheckEdit(s, d, e, source).Ok? ==>
      var asked := CheckEdit(s, d, e, source).value;
      && e.reference == Some(asked.reference) && e.kind == Some(asked.kind) && e.expected == Some(asked.expected)
      && StoresAsked(asked.kind, e.value.value, asked.value)
  {
    NormalizeEditMeans(e);
  }

  /** A row is written exactly for an acceptable edit whose operation is new, made against
      the current revision, while revisions last; and the row holds the request. */
  lemma {:induction false} WrittenMeans(s: Store, d: Disk, e: Edit, source: Source)
    ensures Decide(s, d, e, source).Write? <==>
      && Acceptable(s, d, e, source) && e.operation !in s.mem.operations
      && e.expected.value == s.mem.revision && s.mem.revision != MAX_REVISION
    ensures Decide(s, d, e, source).Write? ==>
      var row := Decide(s, d, e, source).row;
      Records(row, e) && row.body.revision == s.mem.revision + 1 && row.body.archive == s.mem.archive && row.body.previous == s.mem.chain
    ensures Decide(s, d, e, source) == Answer(Refuse(StaleRevision)) <==>
      Acceptable(s, d, e, source) && e.operation !in s.mem.operations && e.expected.value != s.mem.revision
    ensures Acceptable(s, d, e, source) && e.operation in s.mem.operations ==>
      Decide(s, d, e, source) in {Answer(Refuse(OperationConflict)), Answer(Ack(s.mem.operations[e.operation].1, s.mem.revision, true))}
  {
    CheckMeans(s, d, e, source);
  }

  /** A fresh acknowledgement is of a row that holds the request and is on the journal. */
  lemma {:induction false} FreshAck(c: Codec, s: Store, d: Disk, e: Edit, source: Source, io: WriteIo) returns (row: Row)
    requires !s.failed && d.Complete() ==> s.offset <= |d.journal.value|
    requires MutateStep(c, s, d, e, source, io).0.Ack? && !MutateStep(c, s, d, e, source, io).0.replayed
    ensures Records(row, e) && row.body.revision == s.mem.revision + 1 == MutateStep(c, s, d, e, source, io).0.revision
    ensures d.journal.Some? && s.offset <= |d.journal.value|
    ensures MutateStep(c, s, d, e, source, io).2.journal == Some(Overwrite(d.journal.value, s.offset, c.enc(row)))
  {
    WrittenMeans(s, d, e, source);
    row := Decide(s, d, e, source).row;
    var landed := Landed(|c.enc(row)|, io.writes);
    assert c.enc(row)[..|c.enc(row)|] == c.enc(row);
  }

  function MutateStep(c: Codec, s: Store, d: Disk, e: Edit, source: Source, io: WriteIo): (Response, Store, Disk)
    requires !s.failed && d.Complete() ==> s.offset <= |d.journal.value|
  {
    match Decide(s, d, e, source)
    case Answer(r) => (r, s, d)
    case Write(row) => WriteStep(c, s, d, row, io)
  }

  // ---------------------------------------------------------------- the object

  class Volume {
    var identity: Stored<string>
    var manifest: Stored<Manifest>
    var journal: Option<seq<Byte>>

    constructor (d: Disk)
      ensures Contents() == d
    {
      identity, manifest, journal := d.identity, d.manifest, d.journal;
    }

    function Contents(): Disk
      reads this
    {
      Disk(identity, manifest, journal)
    }
  }

  class AnnotationStore {
    const codec: Codec
    const volume: Volume
    var archive: string
    var history: map<Key, seq<Entry>>
    var operations: map<string, (Digest, int)>
    var revision: int
    var offset: nat
    var chain: Digest
    var failed: bool

    constructor (codec: Codec, volume: Volume)
      ensures this.codec == codec && this.volume == volume && Unstarted()
    {
      this.codec, this.volume := codec, volume;
      archive, history, operations, revision, offset, chain, failed := "", map[], map[], 0, 0, Zero, false;
    }

    predicate Unstarted()
      reads this
    {
      history == map[] && operations == map[] && revision == 0 && offset == 0 && chain == Zero && !failed
    }

    function Memory(): Memory
      reads this
    {
      AnnotationLog.Memory(archive, history, operations, revision, chain)
    }

    function Contents(): Store
      reads this
    {
      Store(Memory(), offset, failed)
    }

    method Remember(row: Row, at: nat, length: nat)
      modifies this`history, this`operations, this`revision, this`chain
      ensures Memory() == AnnotationLog.Remember(old(Memory()), row, at, length)
    {
      var key := KeyOf(row);
      var earlier := if key in history then history[key] else [];
      history := history[key := earlier + [Entry(row.body.revision, at, length, OfRow(row))]];
      operations := operations[row.body.operation := (row.body.semanticHash, row.body.revision)];
      revision := row.body.revision;
      chain := row.chain;
    }

    /** One line of start-up: read it, check it, and refuse the file if it fails. */
    method NextRow(file: seq<Byte>, pos: nat, end: nat) returns (row: Option<Row>, length: nat)
      requires pos <= |file|
      ensures row == RowAt(codec, file, pos, end, Memory()) && length == |ReadLine(file, pos)|
      ensures row.Some? ==> length > 0
    {
      var raw := ReadLine(file, pos);
      length := |raw|;
      row := None;
      if |raw| <= LINE_BYTES && EndsLine(raw) && pos + |raw| <= end {
        row := codec.dec(raw);
        if row.Some? && !ValidRow(Memory(), row.value) {
          row := None;
        }
      }
    }

    /** Reads and remembers one row, or refuses the file. */
    method StreamOne(file: seq<Byte>, pos: nat, end: nat, ghost goal: Option<AnnotationLog.Memory>) returns (ok: bool, next: nat)
      requires pos <= |file| && pos < end && Replay(codec, file, pos, end, Memory()) == goal
      modifies this`history, this`operations, this`revision, this`chain
      ensures !ok ==> goal.None?
      ensures ok ==> pos < next <= |file| && Replay(codec, file, next, end, Memory()) == goal
    {
      var row, length := NextRow(file, pos, end);
      ok, next := row.Some?, pos + length;
      ghost var before := Memory();
      if ok {
        ghost var after := AnnotationLog.Remember(before, row.value, pos, length);
        ReplayStep(codec, file, pos, end, before, row.value, length, Replay(codec, file, next, end, after));
        Remember(row.value, pos, length);
        assert Memory() == after;
      } else {
        ReplayStops(codec, file, pos, end, before);
      }
    }

    /** The streaming loop of start-up. */
    method Stream(file: seq<Byte>, end: nat) returns (ok: bool)
      requires Memory() == Fresh(archive)
      modifies this`history, this`operations, this`revision, this`chain
      ensures ok == Replay(codec, file, 0, end, Fresh(archive)).Some?
      ensures ok ==> Memory() == Replay(codec, file, 0, end, Fresh(archive)).value
    {
      var pos := 0;
      ghost var goal := Replay(codec, file, 0, end, Fresh(archive));
      ok := true;
      while pos < end && ok
        invariant pos <= |file| && (ok ==> Replay(codec, file, pos, end, Memory()) == goal) && (!ok ==> goal.None?)
        decreases end - pos, ok
      {
        var next;
        ok, next := StreamOne(file, pos, end, goal);
        if ok {
          pos := next;
        }
      }
    }

    method Initialize(freshId: string, steps: nat)
      requires volume.Contents().Empty()
      modifies volume
      ensures volume.Contents() == InitialDisk(freshId, steps)
    {
      if steps >= 1 {
        volume.journal := Some([]);
      }
      if steps >= 2 {
        volume.manifest := Holds(Manifest(freshId, 0, 0, Zero));
      }
      if steps >= 3 {
        volume.identity := Holds(freshId);
      }
    }

    method Prepare(freshId: string, io: StartIo)
      requires Unstarted() && IsArchiveId(freshId)
      modifies this, volume
      ensures var step := PrepareStep(codec, old(volume.Contents()), freshId, io);
        && volume.Contents() == step.0
        && failed == step.1.None?
        && (step.1.Some? ==> Contents() == step.1.value)
        && Starts(old(volume.Contents()), volume.Contents(), step.1)
    {
      StartMeans(codec, volume.Contents(), freshId, io);
      failed := true;
      if volume.identity.Absent? && volume.manifest.Absent? && volume.journal.None? {
        Initialize(freshId, io.steps);
      }
      ghost var found := volume.Contents();
      if volume.identity.Absent? || volume.manifest.Absent? || volume.journal.None? {
        return;
      }
      if !volume.identity.Holds? || !IsArchiveId(volume.identity.value) {
        return;
      }
      archive := volume.identity.value;
      if !volume.manifest.Holds? || volume.manifest.value.archive != archive {
        return;
      }
      var state := volume.manifest.value;
      if !IsInteger(state.revision, 0) || !IsInteger(state.offset, 0) {
        return;
      }
      var file := volume.journal.value;
      var streamed := Stream(file, state.offset);
      if !streamed || revision != state.revision || chain != state.chain || |file| < state.offset {
        return;
      }
      assert Recover(codec, found) == Some(Memory());
      if !io.truncated {
        return;
      }
      volume.journal := Some(file[..state.offset]);
      if io.completed {
        offset := state.offset;
        failed := false;
      }
    }

    /** Writes piece by piece; stops at a zero result. */
    method Append(raw: seq<Byte>, writes: seq<nat>, synced: bool) returns (ok: bool)
      requires volume.journal.Some? && offset <= |volume.journal.value|
      modifies volume`journal
      ensures volume.journal == Some(Overwrite(old(volume.journal.value), offset, raw[..Landed(|raw|, writes)]))
      ensures ok == (Landed(|raw|, writes) == |raw| && synced)
    {
      var done, calls := 0, 0;
      while done < |raw| && calls < |writes| && writes[calls] > 0
        invariant done <= |raw| && calls <= |writes|
        invariant done + Landed(|raw| - done, writes[calls..]) == Landed(|raw|, writes)
        decreases |writes| - calls
      {
        assert writes[calls..][1..] == writes[calls + 1..];
        done := done + Min(writes[calls], |raw| - done);
        calls := calls + 1;
      }
      volume.journal := Some(Overwrite(volume.journal.value, offset, raw[..done]));
      ok := done == |raw| && synced;
    }

    method Mutate(e: Edit, source: Source, io: WriteIo) returns (response: Response)
      requires !failed && volume.Contents().Complete() ==> offset <= |volume.journal.value|
      modifies this, volume
      ensures (response, Contents(), volume.Contents()) ==
        MutateStep(codec, old(Contents()), old(volume.Contents()), e, source, io)
      ensures response.Ack? && !response.replayed ==>
        old(volume.journal).Some? && old(offset) <= |old(volume.journal).value|
        && exists row :: Records(row, e) && row.body.revision == old(revision) + 1
             && volume.journal == Some(Overwrite(old(volume.journal).value, old(offset), codec.enc(row)))
      ensures !Acceptable(old(Contents()), old(volume.Contents()), e, source) ==>
        response.Refuse? && RefusedBy(old(Contents()), old(volume.Contents()), e, source, response.error)
        && Contents() == old(Contents()) && volume.Contents() == old(volume.Contents())
    {
      CheckMeans(Contents(), volume.Contents(), e, source);
      ghost var s, d := Contents(), volume.Contents();
      if MutateStep(codec, s, d, e, source, io).0.Ack? && !MutateStep(codec, s, d, e, source, io).0.replayed {
        var _ := FreshAck(codec, s, d, e, source, io);
      }
      match Decide(Contents(), volume.Contents(), e, source) {
        case Answer(r) => response := r;
        case Write(row) =>
          var raw := codec.enc(row);
          var next := Manifest(archive, row.body.revision, offset + |raw|, row.chain);
          var appended := Append(raw, io.writes, io.synced);
          if !appended || io.publish.NotReplaced? {
            failed := true;
            return Refuse(StorageFailure);
          }
          volume.manifest := Holds(next);
          if io.publish.ReplacedThenFailed? {
            failed := true;
            return Refuse(StorageFailure);
          }
          Remember(row, offset, |raw|);
          offset := offset + |raw|;
          response := Ack(revision, revision, false);
      }
    }
  }
}
