/** The restore protocol as a step relation over an explicit disk and memory:
    admission, publication, edits, registration and checkpoints interleave with one
    restore, and a crash can land between any two steps (archive/management.py,
    _restore_switch, cleanup, prepare, run; archive/collector.py, prepare, _accept_one,
    _take_batch, _publish, _observe_producer, _persist_state). */
module RestoreProtocol {
  import opened Common
  import opened Authority

  /** Where content lives: the archive root itself, or the files of a restore job. */
  datatype Root = Home | Restored(job: JobId)

  /** The six core files of an archive. */
  datatype Core = Observations | Quarantine | StateFile | AnnotationIdentity | AnnotationState | Annotations

  /** File contents, with the root whose archive they describe. */
  datatype Blob = Blob(origin: Root, n: nat)

  type Files = map<Core, Blob>

  const AllCore: set<Core> := {Observations, Quarantine, StateFile, AnnotationIdentity, AnnotationState, Annotations}

  datatype JobState = Pending | Succeeded | Stopped | Interrupted

  /** A restore job: what it restores, the confirmed preview of what it replaces, and
      where that content was when the switch was prepared. */
  datatype Job = Job(discard: bool, state: JobState, backup: nat, current: Files, generation: nat, oldContent: Option<Root>)

  /** A verified backup: its files, and the sources of its rows. */
  datatype Backup = Backup(files: Files, rows: set<Source>)

  datatype Disk = Disk(control: Control, jobs: map<JobId, Job>, backups: seq<Backup>, roots: map<Root, Files>, rows: map<Root, set<Source>>)

  /** The publication mutex; the publisher remembers whether its watermark is written. */
  datatype Mutex = Free | Publisher(saved: bool) | Switcher

  /** How far the one restore thread is. */
  datatype Stage = NoRestore | Copying | Ready | Gated | Locked | Rechecked | Fencing | Recorded | Switching | Reloaded | Loaded | Finished | Broken

  /** A checkpoint under way: the state it read, and the path it read after that. */
  datatype Checkpoint = Checkpoint(blob: Blob, path: Option<Root>)

  /** The process; `state` is the root whose archive the state in memory describes. */
  datatype Memory = Memory(
    value: Control, failed: bool, root: Root, state: Root,
    transition: bool, maintenance: bool, readers: nat, writer: bool, mutex: Mutex,
    queue: seq<Source>, inflight: seq<Source>,
    stage: Stage, job: JobId, checkpoint: Option<Checkpoint>)

  /** The disk, the process, and every row ever published with its generation. */
  datatype World = World(disk: Disk, mem: Option<Memory>, published: seq<(Source, nat)>)

  /** Where start-up cuts the tails of the files that are only appended to. */
  type Tails = m: map<Core, nat> | m.Keys <= {Observations, Quarantine, Annotations} witness map[]

  /** The tails cut, the write that seeds the history, and the closing state write. */
  datatype StartIo = StartIo(tails: Tails, seed: WriteIo, n: nat, save: WriteIo)

  datatype Event =
    | StartUp(start: StartIo)
    | Crash
    | Register(source: Source, write: WriteIo)
    | Accept(source: Source)
    | Take(n: nat)
    | PublishBegin
    | PublishFile(core: Core, n: nat)
    | PublishState(n: nat)
    | PublishFailed(n: nat)
    | PublishEnd
    | LeaseBegin
    | LeaseEnd
    | EditFile(core: Core, n: nat)
    | CheckpointCopy(n: nat)
    | CheckpointPath
    | CheckpointWrite
    | TakeBackup
    | Confirm(id: JobId, discard: bool, from: nat)
    | CopyFile(core: Core)
    | Verified
    | BeginGate
    | LockPublisher
    | Recheck
    | Fence
    | Record
    | Switch(write: WriteIo)
    | Load(read: bool, ok: bool)
    | SaveLoaded(n: nat, write: WriteIo)
    | FinishJob(ok: bool)
    | Clean(id: JobId, core: Core)
    | Release

  // ---------------------------------------------------------------- reading the state

  function RootOf(c: Control): Root {
    if c.serving.None? then Home else Restored(c.serving.value)
  }

  function HeldOf(d: Disk, m: Memory): Held {
    Held(d.control, m.value, m.failed)
  }

  function FilesIn(roots: map<Root, Files>, r: Root): Files {
    if r in roots then roots[r] else map[]
  }

  function RowsIn(rows: map<Root, set<Source>>, r: Root): set<Source> {
    if r in rows then rows[r] else {}
  }

  function FilesAt(d: Disk, r: Root): Files {
    FilesIn(d.roots, r)
  }

  function RowsAt(d: Disk, r: Root): set<Source> {
    RowsIn(d.rows, r)
  }

  function WithFile(d: Disk, r: Root, core: Core, b: Blob): Disk {
    d.(roots := d.roots[r := FilesAt(d, r)[core := b]])
  }

  /** Restored files are the new root's own. */
  function Owned(f: Files, r: Root): Files {
    map core | core in f :: Blob(r, f[core].n)
  }

  /** The files whose bytes the frontier of a plan pins: all but the state file, which
      a checkpoint may rewrite. */
  predicate SameContent(a: Files, b: Files) {
    forall core :: core in AllCore && core != StateFile ==>
      (core in a <==> core in b) && (core in a && core in b ==> a[core] == b[core])
  }

  predicate CleanAllowed(d: Disk, m: Memory, id: JobId, core: Core) {
    && id in d.jobs && id in m.value.committed && d.jobs[id].discard && d.jobs[id].oldContent.Some?
    && d.jobs[id].oldContent.value != m.root
    && core in FilesAt(d, d.jobs[id].oldContent.value) && core in d.jobs[id].current
    && FilesAt(d, d.jobs[id].oldContent.value)[core] == d.jobs[id].current[core]
  }

  /** Stages at which the thread holds the gate, the mutex, or has fenced admission. */
  predicate HoldsGate(s: Stage) {
    s in {Gated, Locked, Rechecked, Fencing, Recorded, Switching, Reloaded, Loaded, Finished, Broken}
  }

  predicate HoldsMutex(s: Stage) {
    s in {Locked, Rechecked, Fencing, Recorded, Switching, Reloaded, Loaded, Finished, Broken}
  }

  predicate HasFenced(s: Stage) {
    s in {Fencing, Recorded, Switching, Reloaded, Loaded, Finished, Broken}
  }

  predicate BeforeCommit(s: Stage) {
    s in {Copying, Ready, Gated, Locked, Rechecked, Fencing, Recorded}
  }

  // ---------------------------------------------------------------- when a step can happen

  predicate EnabledIn(d: Disk, m: Memory, e: Event) {
    match e
    case StartUp(_) => false
    case Crash => true
    case Register(_, _) => !m.maintenance && !m.writer
    case Accept(s) => !m.transition && !m.maintenance && Allowed(HeldOf(d, m), s)
    case Take(n) => m.inflight == [] && m.checkpoint.None? && 0 < n <= |m.queue|
    case PublishBegin => m.inflight != [] && m.mutex.Free?
    case PublishFile(core, _) => m.mutex.Publisher? && core in {Observations, Quarantine}
    case PublishState(_) => m.mutex.Publisher? && !m.mutex.saved
    case PublishFailed(_) => m.mutex.Publisher? && !m.mutex.saved
    case PublishEnd => m.mutex.Publisher?
    case LeaseBegin => !m.maintenance && !m.writer
    case LeaseEnd => m.readers > 0
    case EditFile(core, _) => m.readers > 0 && core in {Annotations, AnnotationState}
    case CheckpointCopy(_) => m.inflight == [] && m.checkpoint.None?
    case CheckpointPath => m.checkpoint.Some? && m.checkpoint.value.path.None?
    case CheckpointWrite => m.checkpoint.Some? && m.checkpoint.value.path.Some?
    case TakeBackup => !m.maintenance && m.stage.NoRestore? && m.queue == [] && m.inflight == [] && !m.writer && FilesAt(d, m.root).Keys == AllCore
    case Confirm(id, _, from) =>
      !m.maintenance && !m.failed && m.stage.NoRestore? && id !in d.jobs && |d.jobs| < MAX_JOBS && from < |d.backups|
      && FilesAt(d, m.root).Keys == AllCore && d.backups[from].files.Keys == AllCore
    case CopyFile(core) => m.stage.Copying? && m.job in d.jobs && d.jobs[m.job].backup < |d.backups| && core in d.backups[d.jobs[m.job].backup].files
    case Verified => m.stage.Copying? && FilesAt(d, Restored(m.job)).Keys == AllCore
    case BeginGate => m.stage.Ready? && m.readers == 0 && !m.writer
    case LockPublisher => m.stage.Gated? && m.mutex.Free?
    case Recheck =>
      m.stage.Locked? && m.queue == [] && m.inflight == [] && !m.transition && m.job in d.jobs
      && FilesAt(d, m.root) == d.jobs[m.job].current && m.value.generation == d.jobs[m.job].generation
    case Fence => m.stage.Rechecked? && m.queue == [] && m.inflight == [] && !m.transition
    case Record => m.stage.Fencing? && m.job in d.jobs
    case Switch(_) => m.stage.Recorded?
    case Load(read, ok) => m.stage.Switching? && (ok ==> read)
    case SaveLoaded(_, _) => m.stage.Reloaded?
    case FinishJob(_) => m.stage.Loaded? && m.job in d.jobs
    case Clean(id, core) => (m.stage.NoRestore? || (m.stage.Finished? && id == m.job)) && CleanAllowed(d, m, id, core)
    case Release => !m.stage.NoRestore?
  }

  predicate Enabled(w: World, e: Event) {
    match w.mem
    case None => e.StartUp?
    case Some(m) => EnabledIn(w.disk, m, e)
  }

  // ---------------------------------------------------------------- steps

  function PublishRows(sources: seq<Source>, g: nat): seq<(Source, nat)> {
    if sources == [] then [] else PublishRows(sources[..|sources| - 1], g) + [(sources[|sources| - 1], g)]
  }

  function Members(s: seq<Source>): set<Source> {
    set x | x in s
  }

  /** After a restart every committed job has succeeded, and no other is running. */
  function Settled(jobs: map<JobId, Job>, c: Control): map<JobId, Job> {
    map id | id in jobs ::
      if id in c.committed then jobs[id].(state := Succeeded)
      else if jobs[id].state.Pending? then jobs[id].(state := Interrupted)
      else jobs[id]
  }

  /** The root whose archive the state file found in r describes. */
  function StateOf(d: Disk, r: Root): Root {
    if StateFile in FilesAt(d, r) then FilesAt(d, r)[StateFile].origin else r
  }

  /** What a write replaced the file with, whether or not it then failed. */
  predicate Replaces(io: WriteIo) {
    io.Written? || io.ReplacedThenFailed?
  }

  function Trimmed(f: Files, tails: Tails): Files {
    map core | core in f :: if core in tails then Blob(f[core].origin, tails[core]) else f[core]
  }

  /** Start-up first cuts what lies past the published bytes of the root it serves. */
  function TrimStep(d: Disk, tails: Tails): Disk {
    d.(roots := d.roots[RootOf(d.control) := Trimmed(FilesAt(d, RootOf(d.control)), tails)])
  }

  /** Then it seeds the history and settles the jobs, unless the seeding fails. */
  function SettleStep(d: Disk, seed: WriteIo): (Disk, bool) {
    var c := d.control;
    var (held, ok) := SeedOf(Held(c, c, false), RowsAt(d, RootOf(c)), seed);
    (d.(control := held.disk, jobs := if ok then Settled(d.jobs, held.disk) else d.jobs), ok)
  }

  /** The process a start-up leaves, in the state it found. */
  function Started(d: Disk): Memory {
    var r := RootOf(d.control);
    Memory(d.control, false, r, StateOf(d, r), false, false, 0, false, Free, [], [], NoRestore, "", None)
  }

  /** Last it writes the state it found back; it serves only if that succeeds too. */
  function SaveStep(d: Disk, n: nat, save: WriteIo, published: seq<(Source, nat)>): World {
    var m := Started(d);
    World(if Replaces(save) then WithFile(d, m.root, StateFile, Blob(m.state, n)) else d,
          if save.Written? then Some(m) else None, published)
  }

  function StartStep(w: World, io: StartIo): World {
    var (d, ok) := SettleStep(TrimStep(w.disk, io.tails), io.seed);
    if ok then SaveStep(d, io.n, io.save, w.published) else World(d, None, w.published)
  }

  /** The watermark makes the batch's rows durable. */
  function PublishStep(d: Disk, m: Memory, n: nat): (Disk, Memory)
    requires m.mutex.Publisher?
  {
    var saved := WithFile(d, m.root, StateFile, Blob(m.state, n));
    (saved.(rows := saved.rows[m.root := RowsAt(saved, m.root) + Members(m.inflight)]), m.(mutex := Publisher(true)))
  }

  function ConfirmStep(d: Disk, m: Memory, id: JobId, discard: bool, from: nat): (Disk, Memory) {
    (d.(jobs := d.jobs[id := Job(discard, Pending, from, FilesAt(d, m.root), m.value.generation, None)],
        roots := d.roots[Restored(id) := map[]], rows := d.rows[Restored(id) := {}]),
     m.(stage := Copying, job := id))
  }

  function CopyStep(d: Disk, m: Memory, core: Core): Disk
    requires EnabledIn(d, m, CopyFile(core))
  {
    var b := d.backups[d.jobs[m.job].backup];
    var root := Restored(m.job);
    WithFile(d, root, core, Blob(root, b.files[core].n)).(rows := d.rows[root := b.rows])
  }

  /** The control write is the one commit point; a failed one stops everything that
      would admit or restore. */
  function SwitchStep(d: Disk, m: Memory, io: WriteIo): (Disk, Memory) {
    var (held, landed) := SwitchOf(HeldOf(d, m), m.job, io);
    (d.(control := held.disk),
     m.(value := held.value, failed := held.failed, root := if landed then RootOf(held.value) else m.root,
        stage := if landed then Switching else Broken))
  }

  /** On the way out of a failed or finished restore. */
  function ReleaseStep(d: Disk, m: Memory): (Disk, Memory) {
    var committed := m.job in m.value.committed;
    var jobs := if !committed && !m.failed && m.job in d.jobs && d.jobs[m.job].state.Pending?
      then d.jobs[m.job := d.jobs[m.job].(state := Stopped)] else d.jobs;
    (d.(jobs := jobs),
     m.(transition := false, writer := false, mutex := if m.mutex.Switcher? then Free else m.mutex, stage := NoRestore,
        maintenance := m.maintenance || (!m.stage.Finished? && (m.failed || committed))))
  }

  function CleanStep(d: Disk, id: JobId, core: Core): Disk
    requires id in d.jobs && d.jobs[id].oldContent.Some?
  {
    var replaced := d.jobs[id].oldContent.value;
    d.(roots := d.roots[replaced := FilesAt(d, replaced) - {core}])
  }

  function Step(w: World, m: Memory, e: Event): World
    requires EnabledIn(w.disk, m, e)
  {
    var d := w.disk;
    match e
    case StartUp(_) => w
    case Crash => World(d, None, w.published)
    case Register(s, io) =>
      var (held, _) := RegisterOf(HeldOf(d, m), s, io);
      World(d.(control := held.disk), Some(m.(value := held.value, failed := held.failed)), w.published)
    case Accept(s) => w.(mem := Some(m.(queue := m.queue + [s])))
    case Take(n) => w.(mem := Some(m.(inflight := m.queue[..n], queue := m.queue[n..])))
    case PublishBegin => w.(mem := Some(m.(mutex := Publisher(false))))
    case PublishFile(core, n) => w.(disk := WithFile(d, m.root, core, Blob(m.root, n)))
    case PublishState(n) =>
      var (disk, mem) := PublishStep(d, m, n);
      World(disk, Some(mem), w.published + PublishRows(m.inflight, m.value.generation))
    case PublishFailed(n) =>
      World(WithFile(d, m.root, StateFile, Blob(m.state, n)), Some(m.(inflight := [], mutex := Free)), w.published)
    case PublishEnd => w.(mem := Some(m.(inflight := [], mutex := Free)))
    case LeaseBegin => w.(mem := Some(m.(readers := m.readers + 1)))
    case LeaseEnd => w.(mem := Some(m.(readers := m.readers - 1)))
    case EditFile(core, n) => w.(disk := WithFile(d, m.root, core, Blob(m.root, n)))
    case CheckpointCopy(n) => w.(mem := Some(m.(checkpoint := Some(Checkpoint(Blob(m.state, n), None)))))
    case CheckpointPath => w.(mem := Some(m.(checkpoint := Some(m.checkpoint.value.(path := Some(m.root))))))
    case CheckpointWrite =>
      World(WithFile(d, m.checkpoint.value.path.value, StateFile, m.checkpoint.value.blob), Some(m.(checkpoint := None)), w.published)
    case TakeBackup => w.(disk := d.(backups := d.backups + [Backup(FilesAt(d, m.root), RowsAt(d, m.root))]))
    case Confirm(id, discard, from) =>
      var (disk, mem) := ConfirmStep(d, m, id, discard, from);
      World(disk, Some(mem), w.published)
    case CopyFile(core) => w.(disk := CopyStep(d, m, core))
    case Verified => w.(mem := Some(m.(stage := Ready)))
    case BeginGate => w.(mem := Some(m.(stage := Gated, writer := true)))
    case LockPublisher => w.(mem := Some(m.(stage := Locked, mutex := Switcher)))
    case Recheck => w.(mem := Some(m.(stage := Rechecked)))
    case Fence => w.(mem := Some(m.(stage := Fencing, transition := true)))
    case Record =>
      World(d.(jobs := d.jobs[m.job := d.jobs[m.job].(oldContent := Some(m.root))]), Some(m.(stage := Recorded)), w.published)
    case Switch(io) =>
      var (disk, mem) := SwitchStep(d, m, io);
      World(disk, Some(mem), w.published)
    case Load(read, ok) =>
      w.(mem := Some(m.(stage := if ok then Reloaded else Broken, state := if read then StateOf(d, m.root) else m.state)))
    case SaveLoaded(n, io) =>
      World(if Replaces(io) then WithFile(d, m.root, StateFile, Blob(m.state, n)) else d,
            Some(m.(stage := if io.Written? then Loaded else Broken)), w.published)
    case FinishJob(ok) =>
      World(if ok then d.(jobs := d.jobs[m.job := d.jobs[m.job].(state := Succeeded)]) else d,
            Some(m.(stage := if ok then Finished else Broken)), w.published)
    case Clean(id, core) => w.(disk := CleanStep(d, id, core))
    case Release =>
      var (disk, mem) := ReleaseStep(d, m);
      World(disk, Some(mem), w.published)
  }

  function Next(w: World, e: Event): World
    requires Enabled(w, e)
  {
    match w.mem
    case None => StartStep(w, e.start)
    case Some(m) => Step(w, m, e)
  }
}
