/** What every step of the restore protocol keeps, and what follows over whole runs
    with crashes anywhere (archive/management.py; archive/management_authority.py;
    docs/input-archive.md). */
module RestoreSafety {
  import opened Common
  import opened Authority
  import opened RestoreProtocol

  // ---------------------------------------------------------------- aspects of the invariant

  /** The root that served until generation g began. */
  predicate ServedBefore(c: Control, r: Root, g: nat) {
    match r
    case Home => g == 1
    case Restored(job) => job in c.committed && c.committed[job] + 1 == g
  }

  /** A committed job replaced the content that served just before it. */
  predicate CommittedJob(c: Control, jobs: map<JobId, Job>, id: JobId)
    requires id in c.committed
  {
    id in jobs && jobs[id].oldContent.Some? && ServedBefore(c, jobs[id].oldContent.value, c.committed[id])
  }

  /** Committed jobs exist and know what they replaced; only committed jobs succeeded. */
  ghost predicate JobsFit(c: Control, jobs: map<JobId, Job>) {
    && |jobs| <= MAX_JOBS
    && (forall id :: id in c.committed ==> CommittedJob(c, jobs, id))
    && (forall id :: id in jobs && jobs[id].state.Succeeded? ==> id in c.committed)
  }

  /** The serving root has every core file. */
  predicate ServesAll(c: Control, roots: map<Root, Files>) {
    FilesIn(roots, RootOf(c)).Keys == AllCore
  }

  /** Every row of every root and backup is of a registered source. */
  ghost predicate RowsKnown(rows: map<Root, set<Source>>, backups: seq<Backup>, sources: set<Source>) {
    && (forall r :: r in rows ==> rows[r] <= sources)
    && (forall i :: 0 <= i < |backups| ==> backups[i].rows <= sources)
  }

  /** Before the first start only the served rows can be of unknown sources. */
  ghost predicate OthersKnown(c: Control, rows: map<Root, set<Source>>, backups: seq<Backup>) {
    RowsKnown(rows - {RootOf(c)}, backups, c.sources.Keys)
  }

  ghost predicate QueueRegistered(v: Control, queue: seq<Source>, inflight: seq<Source>) {
    forall s :: s in queue || s in inflight ==> s in v.sources && v.sources[s] == v.generation
  }

  /** Gate, mutex and fence are held exactly at the stages that take them, and the
      pipeline is empty while admission is fenced. */
  predicate LocksFit(m: Memory) {
    && (m.writer <==> HoldsGate(m.stage)) && (m.writer ==> m.readers == 0)
    && (m.mutex.Switcher? <==> HoldsMutex(m.stage))
    && (m.mutex.Publisher? ==> m.inflight != [])
    && (m.transition <==> HasFenced(m.stage))
    && (HasFenced(m.stage) ==> m.queue == [] && m.inflight == [])
  }

  /** The restore job in progress. */
  predicate JobFits(c: Control, jobs: map<JobId, Job>, roots: map<Root, Files>, m: Memory) {
    && (BeforeCommit(m.stage) ==> m.job in jobs && m.job !in c.committed && m.value.generation == c.generation)
    && (BeforeCommit(m.stage) && !m.stage.Copying? ==> FilesIn(roots, Restored(m.job)).Keys == AllCore)
    && (m.stage in {Rechecked, Fencing, Recorded} ==>
          SameContent(FilesIn(roots, m.root), jobs[m.job].current) && m.value.generation == jobs[m.job].generation)
    && (m.stage.Recorded? ==> jobs[m.job].oldContent == Some(m.root))
    && (m.stage in {Switching, Reloaded, Loaded, Finished} ==> m.job in m.value.committed)
  }

  /** A checkpoint is written to a root that serves or served. */
  predicate PathFits(c: Control, m: Memory) {
    match m.checkpoint
    case None => true
    case Some(k) => k.path.Some? && k.path.value.Restored? ==> k.path.value.job in c.committed
  }

  /** The process lags behind the disk only after an uncertain switch, with an empty
      pipeline that can never fill again. */
  predicate LagFits(c: Control, m: Memory) {
    m.value.generation < c.generation ==> m.failed && m.queue == [] && m.inflight == [] && (m.stage.Broken? || m.maintenance)
  }

  ghost predicate Logged(p: seq<(Source, nat)>, c: Control) {
    && (forall i :: 0 <= i < |p| ==> p[i].0 in c.sources && c.sources[p[i].0] == p[i].1 && p[i].1 <= c.generation)
    && (forall i, j :: 0 <= i < j < |p| ==> p[i].1 <= p[j].1)
  }

  ghost predicate DiskInv(d: Disk) {
    && WellFormed(d.control) && |d.control.sources| <= MAX_SOURCES
    && JobsFit(d.control, d.jobs) && ServesAll(d.control, d.roots) && OthersKnown(d.control, d.rows, d.backups)
  }

  ghost predicate MemoryInv(d: Disk, m: Memory) {
    && Consistent(Held(d.control, m.value, m.failed)) && m.root == RootOf(m.value)
    && QueueRegistered(m.value, m.queue, m.inflight) && LocksFit(m) && JobFits(d.control, d.jobs, d.roots, m)
    && RowsKnown(d.rows, d.backups, m.value.sources.Keys) && LagFits(d.control, m) && PathFits(d.control, m)
  }

  ghost predicate Inv(w: World) {
    && DiskInv(w.disk) && Logged(w.published, w.disk.control)
    && (w.mem.Some? ==> MemoryInv(w.disk, w.mem.value) && Logged(w.published, w.mem.value.value))
  }

  // ---------------------------------------------------------------- facts about control files

  lemma {:induction false} LoggedExtends(p: seq<(Source, nat)>, c: Control, d: Control)
    requires Logged(p, c) && Extends(c, d)
    ensures Logged(p, d)
  {}

  /** At equal generations the disk's committed jobs are those of the process. */
  lemma {:induction false} SameCommitted(v: Control, c: Control, id: JobId)
    requires WellFormed(v) && WellFormed(c) && Extends(v, c) && v.generation == c.generation
    ensures id in c.committed <==> id in v.committed
    ensures id in v.committed ==> c.committed[id] == v.committed[id]
  {
    if id in c.committed {
      assert AtLevel(v, c.committed[id]);
      var j :| j in v.committed && v.committed[j] == c.committed[id];
      assert j in c.committed && c.committed[j] == c.committed[id];
    }
  }

  /** The roots of the process and of the disk belong to committed jobs. */
  lemma {:induction false} RootsCommitted(v: Control, c: Control, job: JobId)
    requires WellFormed(v) && WellFormed(c) && Extends(v, c) && job !in c.committed
    ensures RootOf(v) != Restored(job) && RootOf(c) != Restored(job)
  {}

  lemma {:induction false} KnownOnDisk(c: Control, rows: map<Root, set<Source>>, backups: seq<Backup>, sources: set<Source>)
    requires RowsKnown(rows, backups, sources) && sources <= c.sources.Keys
    ensures OthersKnown(c, rows, backups)
  {
    var others := rows - {RootOf(c)};
    forall r | r in others ensures others[r] <= c.sources.Keys {
      assert others[r] == rows[r];
    }
  }

  lemma {:induction false} ExtendedKeys(v: Control, c: Control)
    requires Extends(v, c)
    ensures v.sources.Keys <= c.sources.Keys
  {}

  // ---------------------------------------------------------------- steps that only move the process

  lemma {:induction false} AcceptQueue(v: Control, queue: seq<Source>, inflight: seq<Source>, s: Source)
    requires QueueRegistered(v, queue, inflight) && s in v.sources && v.sources[s] == v.generation
    ensures QueueRegistered(v, queue + [s], inflight)
  {}

  lemma {:induction false} TakeQueue(v: Control, queue: seq<Source>, n: nat)
    requires QueueRegistered(v, queue, []) && n <= |queue|
    ensures QueueRegistered(v, queue[n..], queue[..n])
  {}

  lemma {:induction false} AdmissionInv(w: World, m: Memory, e: Event)
    requires Inv(w) && w.mem == Some(m) && EnabledIn(w.disk, m, e) && (e.Accept? || e.Take?)
    ensures Inv(Step(w, m, e))
  {
    match e
    case Accept(s) => AcceptQueue(m.value, m.queue, m.inflight, s);
    case Take(n) => TakeQueue(m.value, m.queue, n);
  }

  lemma {:induction false} TrafficInv(w: World, m: Memory, e: Event)
    requires Inv(w) && w.mem == Some(m) && EnabledIn(w.disk, m, e)
    requires e.PublishBegin? || e.PublishEnd? || e.LeaseBegin? || e.LeaseEnd? || e.CheckpointCopy? || e.CheckpointPath?
    ensures Inv(Step(w, m, e))
  {}

  /** The restore thread moves on: its locks, its job, and nothing else. */
  lemma {:induction false} StageLocks(d: Disk, m: Memory, e: Event)
    requires LocksFit(m) && EnabledIn(d, m, e) && JobFits(d.control, d.jobs, d.roots, m) && LagFits(d.control, m)
    requires e.Verified? || e.BeginGate? || e.LockPublisher? || e.Recheck? || e.Fence? || e.Load?
    ensures var n := Step(World(d, Some(m), []), m, e).mem.value;
      && LocksFit(n) && JobFits(d.control, d.jobs, d.roots, n) && LagFits(d.control, n)
      && n.value == m.value && n.failed == m.failed && n.root == m.root && n.queue == m.queue && n.inflight == m.inflight
  {}

  lemma {:induction false} StageInv(w: World, m: Memory, e: Event)
    requires Inv(w) && w.mem == Some(m) && EnabledIn(w.disk, m, e)
    requires e.Verified? || e.BeginGate? || e.LockPublisher? || e.Recheck? || e.Fence? || e.Load?
    ensures Inv(Step(w, m, e))
  {
    StageLocks(w.disk, m, e);
  }

  // ---------------------------------------------------------------- steps that write files

  lemma {:induction false} WriteKeepsServing(c: Control, roots: map<Root, Files>, r: Root, core: Core, b: Blob)
    requires ServesAll(c, roots)
    ensures ServesAll(c, roots[r := FilesIn(roots, r)[core := b]])
  {
    var after := roots[r := FilesIn(roots, r)[core := b]];
    assert core in AllCore;
    if r == RootOf(c) {
      assert FilesIn(after, RootOf(c)).Keys == FilesIn(roots, RootOf(c)).Keys + {core};
    }
  }

  lemma {:induction false} WriteKeepsJob(c: Control, jobs: map<JobId, Job>, roots: map<Root, Files>, m: Memory, r: Root, core: Core, b: Blob)
    requires JobFits(c, jobs, roots, m) && (BeforeCommit(m.stage) ==> r != Restored(m.job))
    requires m.stage in {Rechecked, Fencing, Recorded} ==> core == StateFile
    ensures JobFits(c, jobs, roots[r := FilesIn(roots, r)[core := b]], m)
  {}

  lemma {:induction false} OwnRootServes(c: Control, v: Control, failed: bool, job: JobId)
    requires Consistent(Held(c, v, failed)) && job !in c.committed
    ensures RootOf(v) != Restored(job)
  {
    RootsCommitted(v, c, job);
  }

  lemma {:induction false} FileInv(d: Disk, m: Memory, r: Root, core: Core, b: Blob)
    requires DiskInv(d) && MemoryInv(d, m) && (BeforeCommit(m.stage) ==> r != Restored(m.job))
    requires m.stage in {Rechecked, Fencing, Recorded} ==> core == StateFile
    ensures DiskInv(WithFile(d, r, core, b)) && MemoryInv(WithFile(d, r, core, b), m)
  {
    WriteKeepsServing(d.control, d.roots, r, core, b);
    WriteKeepsJob(d.control, d.jobs, d.roots, m, r, core, b);
  }

  lemma {:induction false} OwnFileInv(d: Disk, m: Memory, core: Core, b: Blob)
    requires DiskInv(d) && MemoryInv(d, m)
    requires m.stage in {Rechecked, Fencing, Recorded} ==> core == StateFile
    ensures DiskInv(WithFile(d, m.root, core, b)) && MemoryInv(WithFile(d, m.root, core, b), m)
  {
    if BeforeCommit(m.stage) {
      OwnRootServes(d.control, m.value, m.failed, m.job);
    }
    FileInv(d, m, m.root, core, b);
  }

  lemma {:induction false} PieceInv(w: World, m: Memory, e: Event)
    requires Inv(w) && w.mem == Some(m) && EnabledIn(w.disk, m, e) && (e.EditFile? || e.PublishFile?)
    ensures Inv(Step(w, m, e))
  {
    OwnFileInv(w.disk, m, e.core, Blob(m.root, e.n));
  }

  lemma {:induction false} CheckpointInv(w: World, m: Memory)
    requires Inv(w) && w.mem == Some(m) && EnabledIn(w.disk, m, CheckpointWrite)
    ensures Inv(Step(w, m, CheckpointWrite))
  {
    FileInv(w.disk, m, m.checkpoint.value.path.value, StateFile, m.checkpoint.value.blob);
  }

  /** The batch of a failed append is dropped. */
  lemma {:induction false} DroppedInv(w: World, m: Memory, e: Event)
    requires Inv(w) && w.mem == Some(m) && EnabledIn(w.disk, m, e) && e.PublishFailed?
    ensures Inv(Step(w, m, e))
  {
    OwnFileInv(w.disk, m, StateFile, Blob(m.state, e.n));
  }

  lemma {:induction false} SavedStage(d: Disk, m: Memory, stage: Stage)
    requires MemoryInv(d, m) && m.stage.Reloaded? && stage in {Loaded, Broken}
    ensures MemoryInv(d, m.(stage := stage))
  {}

  lemma {:induction false} SaveInv(w: World, m: Memory, e: Event)
    requires Inv(w) && w.mem == Some(m) && EnabledIn(w.disk, m, e) && e.SaveLoaded?
    ensures Inv(Step(w, m, e))
  {
    OwnFileInv(w.disk, m, StateFile, Blob(m.state, e.n));
    var d := Step(w, m, e).disk;
    SavedStage(d, m, if e.write.Written? then Loaded else Broken);
  }

  lemma {:induction false} PublishLogged(p: seq<(Source, nat)>, c: Control, batch: seq<Source>, g: nat)
    requires Logged(p, c) && (forall s :: s in batch ==> s in c.sources && c.sources[s] == g) && g <= c.generation
    requires forall i :: 0 <= i < |p| ==> p[i].1 <= g
    ensures Logged(p + PublishRows(batch, g), c)
    ensures forall i :: 0 <= i < |p + PublishRows(batch, g)| ==> (p + PublishRows(batch, g))[i].1 <= g
  {
    if batch == [] {
      assert p + [] == p;
    } else {
      var front := batch[..|batch| - 1];
      PublishLogged(p, c, front, g);
      var q := p + PublishRows(front, g);
      assert p + PublishRows(batch, g) == q + [(batch[|batch| - 1], g)];
    }
  }

  lemma {:induction false} MoreRows(rows: map<Root, set<Source>>, backups: seq<Backup>, sources: set<Source>, r: Root, more: set<Source>)
    requires RowsKnown(rows, backups, sources) && more <= sources
    ensures RowsKnown(rows[r := RowsIn(rows, r) + more], backups, sources)
  {}

  lemma {:induction false} InflightKnown(v: Control, queue: seq<Source>, inflight: seq<Source>)
    requires QueueRegistered(v, queue, inflight)
    ensures Members(inflight) <= v.sources.Keys
    ensures forall s :: s in inflight ==> s in v.sources && v.sources[s] == v.generation
    ensures QueueRegistered(v, queue, [])
  {}

  lemma {:induction false} RowsInv(d: Disk, m: Memory)
    requires DiskInv(d) && MemoryInv(d, m) && m.mutex.Publisher?
    ensures var e := d.(rows := d.rows[m.root := RowsAt(d, m.root) + Members(m.inflight)]);
      DiskInv(e) && MemoryInv(e, m.(mutex := Publisher(true)))
  {
    var rows := d.rows[m.root := RowsAt(d, m.root) + Members(m.inflight)];
    InflightKnown(m.value, m.queue, m.inflight);
    MoreRows(d.rows, d.backups, m.value.sources.Keys, m.root, Members(m.inflight));
    ExtendedKeys(m.value, d.control);
    KnownOnDisk(d.control, rows, d.backups, m.value.sources.Keys);
  }

  lemma {:induction false} PublishedLogs(w: World, m: Memory)
    requires Inv(w) && w.mem == Some(m)
    ensures Logged(w.published + PublishRows(m.inflight, m.value.generation), m.value)
    ensures Logged(w.published + PublishRows(m.inflight, m.value.generation), w.disk.control)
  {
    InflightKnown(m.value, m.queue, m.inflight);
    PublishLogged(w.published, m.value, m.inflight, m.value.generation);
    LoggedExtends(w.published + PublishRows(m.inflight, m.value.generation), m.value, w.disk.control);
  }

  lemma {:induction false} PublishInv(w: World, m: Memory, e: Event)
    requires Inv(w) && w.mem == Some(m) && EnabledIn(w.disk, m, e) && e.PublishState?
    ensures Inv(Step(w, m, e))
  {
    OwnFileInv(w.disk, m, StateFile, Blob(m.state, e.n));
    RowsInv(WithFile(w.disk, m.root, StateFile, Blob(m.state, e.n)), m);
    PublishedLogs(w, m);
  }

  // ---------------------------------------------------------------- steps of a restore job before its commit

  lemma {:induction false} BackupInv(w: World, m: Memory)
    requires Inv(w) && w.mem == Some(m) && EnabledIn(w.disk, m, TakeBackup)
    ensures Inv(Step(w, m, TakeBackup))
  {
    var d := w.disk;
    var backups := d.backups + [Backup(FilesAt(d, m.root), RowsAt(d, m.root))];
    assert RowsKnown(d.rows, backups, m.value.sources.Keys);
    ExtendedKeys(m.value, d.control);
    KnownOnDisk(d.control, d.rows, backups, m.value.sources.Keys);
  }

  lemma {:induction false} NewJob(c: Control, jobs: map<JobId, Job>, id: JobId, job: Job)
    requires JobsFit(c, jobs) && id !in jobs && |jobs| < MAX_JOBS && job.state.Pending?
    ensures JobsFit(c, jobs[id := job]) && id !in c.committed
  {
    assert jobs[id := job].Keys == jobs.Keys + {id};
    assert id in c.committed ==> CommittedJob(c, jobs, id);
    forall k | k in c.committed ensures CommittedJob(c, jobs[id := job], k) {
      assert CommittedJob(c, jobs, k);
    }
  }

  lemma {:induction false} EmptyRoot(c: Control, roots: map<Root, Files>, id: JobId, files: Files)
    requires ServesAll(c, roots) && RootOf(c) != Restored(id)
    ensures ServesAll(c, roots[Restored(id) := files])
  {}

  lemma {:induction false} NoRows(rows: map<Root, set<Source>>, backups: seq<Backup>, sources: set<Source>, r: Root, own: set<Source>)
    requires RowsKnown(rows, backups, sources) && own <= sources
    ensures RowsKnown(rows[r := own], backups, sources)
  {}

  lemma {:induction false} ConfirmDisk(d: Disk, m: Memory, id: JobId, discard: bool, from: nat)
    requires DiskInv(d) && MemoryInv(d, m) && EnabledIn(d, m, Confirm(id, discard, from))
    ensures DiskInv(ConfirmStep(d, m, id, discard, from).0)
    ensures RowsKnown(ConfirmStep(d, m, id, discard, from).0.rows, d.backups, m.value.sources.Keys)
    ensures id !in d.control.committed
  {
    var disk := ConfirmStep(d, m, id, discard, from).0;
    NewJob(d.control, d.jobs, id, disk.jobs[id]);
    RootsCommitted(m.value, d.control, id);
    EmptyRoot(d.control, d.roots, id, map[]);
    NoRows(d.rows, d.backups, m.value.sources.Keys, Restored(id), {});
    ExtendedKeys(m.value, d.control);
    KnownOnDisk(d.control, disk.rows, d.backups, m.value.sources.Keys);
  }

  lemma {:induction false} ConfirmLocks(c: Control, jobs: map<JobId, Job>, roots: map<Root, Files>, m: Memory, id: JobId)
    requires LocksFit(m) && m.stage.NoRestore? && id in jobs && id !in c.committed && m.value.generation == c.generation && LagFits(c, m)
    ensures var n := m.(stage := Copying, job := id); LocksFit(n) && JobFits(c, jobs, roots, n) && LagFits(c, n)
  {}

  lemma {:induction false} NotLagging(c: Control, v: Control)
    requires Consistent(Held(c, v, false))
    ensures v == c
  {}

  lemma {:induction false} ConfirmInv(w: World, m: Memory, e: Event)
    requires Inv(w) && w.mem == Some(m) && EnabledIn(w.disk, m, e) && e.Confirm?
    ensures Inv(Step(w, m, e))
  {
    var d := w.disk;
    var (disk, mem) := ConfirmStep(d, m, e.id, e.discard, e.from);
    ConfirmDisk(d, m, e.id, e.discard, e.from);
    NotLagging(d.control, m.value);
    ConfirmLocks(d.control, disk.jobs, disk.roots, m, e.id);
  }

  lemma {:induction false} CopyInv(w: World, m: Memory, e: Event)
    requires Inv(w) && w.mem == Some(m) && EnabledIn(w.disk, m, e) && e.CopyFile?
    ensures Inv(Step(w, m, e))
  {
    var d, disk := w.disk, CopyStep(w.disk, m, e.core);
    RootsCommitted(m.value, d.control, m.job);
    EmptyRoot(d.control, d.roots, m.job, disk.roots[Restored(m.job)]);
    NoRows(d.rows, d.backups, m.value.sources.Keys, Restored(m.job), d.backups[d.jobs[m.job].backup].rows);
    ExtendedKeys(m.value, d.control);
    KnownOnDisk(d.control, disk.rows, d.backups, m.value.sources.Keys);
  }

  lemma {:induction false} ChangedJob(c: Control, jobs: map<JobId, Job>, id: JobId, job: Job)
    requires JobsFit(c, jobs) && id in jobs
    requires id in c.committed ==> job.oldContent == jobs[id].oldContent
    requires job.state.Succeeded? ==> id in c.committed
    ensures JobsFit(c, jobs[id := job])
  {
    assert jobs[id := job].Keys == jobs.Keys;
    forall k | k in c.committed ensures CommittedJob(c, jobs[id := job], k) {
      assert CommittedJob(c, jobs, k);
    }
  }

  lemma {:induction false} RecordInv(w: World, m: Memory)
    requires Inv(w) && w.mem == Some(m) && EnabledIn(w.disk, m, Record)
    ensures Inv(Step(w, m, Record))
  {
    ChangedJob(w.disk.control, w.disk.jobs, m.job, w.disk.jobs[m.job].(oldContent := Some(m.root)));
    NotSucceeded(w.disk.control, w.disk.jobs, m.job);
  }

  lemma {:induction false} NotSucceeded(c: Control, jobs: map<JobId, Job>, id: JobId)
    requires JobsFit(c, jobs) && id in jobs && id !in c.committed
    ensures !jobs[id].state.Succeeded?
  {}

  // ---------------------------------------------------------------- the commit

  lemma {:induction false} StillReplaced(v: Control, c: Control, jobs: map<JobId, Job>, job: JobId, id: JobId)
    requires WellFormed(v) && WellFormed(c) && Extends(v, c) && v.generation == c.generation
    requires id in v.committed && id in c.committed && CommittedJob(c, jobs, id) && job !in c.committed
    ensures CommittedJob(Switched(v, job), jobs, id)
  {
    SameCommitted(v, c, id);
    var r := jobs[id].oldContent.value;
    if r.Restored? {
      SameCommitted(v, c, r.job);
    }
  }

  lemma {:induction false} SwitchedJobs(v: Control, c: Control, jobs: map<JobId, Job>, job: JobId)
    requires WellFormed(v) && WellFormed(c) && Extends(v, c) && v.generation == c.generation
    requires JobsFit(c, jobs) && job in jobs && job !in c.committed && jobs[job].oldContent == Some(RootOf(v))
    ensures JobsFit(Switched(v, job), jobs)
  {
    var e := Switched(v, job);
    forall id | id in e.committed ensures CommittedJob(e, jobs, id) {
      if id != job {
        SameCommitted(v, c, id);
        assert CommittedJob(c, jobs, id);
        StillReplaced(v, c, jobs, job, id);
      }
    }
    forall id | id in jobs && jobs[id].state.Succeeded? ensures id in e.committed {
      SameCommitted(v, c, id);
    }
  }

  lemma {:induction false} SwitchHeld(c: Control, v: Control, failed: bool, job: JobId, io: WriteIo)
    requires Consistent(Held(c, v, failed)) && v.generation == c.generation && job !in c.committed && |v.sources| <= MAX_SOURCES
    ensures var (held, landed) := SwitchOf(Held(c, v, failed), job, io);
      && Consistent(held) && (landed <==> io.Written?)
      && (landed ==> held.disk == Switched(v, job) && held.value == Switched(v, job) && held.failed == failed)
      && (!landed ==> held.value == v && (held.disk == c || (held.disk == Switched(v, job) && held.failed)))
  {
    assert job !in v.committed;
    SwitchedWellFormed(v, job);
  }

  lemma {:induction false} SubsetSize<T>(a: set<T>, b: set<T>)
    requires a <= b
    ensures |a| <= |b|
  {
    assert b == a + (b - a);
  }

  lemma {:induction false} FewerSources(v: Control, c: Control)
    requires v.sources.Keys <= c.sources.Keys
    ensures |v.sources| <= |c.sources|
  {
    SubsetSize(v.sources.Keys, c.sources.Keys);
    assert |v.sources| == |v.sources.Keys| && |c.sources| == |c.sources.Keys|;
  }

  lemma {:induction false} SwitchDisk(d: Disk, m: Memory)
    requires DiskInv(d) && MemoryInv(d, m) && m.stage.Recorded?
    ensures DiskInv(d.(control := Switched(m.value, m.job)))
  {
    ExtendedKeys(m.value, d.control);
    FewerSources(m.value, d.control);
    SwitchedWellFormed(m.value, m.job);
    SwitchedJobs(m.value, d.control, d.jobs, m.job);
    KnownOnDisk(Switched(m.value, m.job), d.rows, d.backups, m.value.sources.Keys);
  }

  /** The commitments on the disk are those of the process, and the switch adds one. */
  lemma {:induction false} PathSwitch(c: Control, v: Control, m: Memory, job: JobId)
    requires WellFormed(v) && WellFormed(c) && Extends(v, c) && v.generation == c.generation && PathFits(c, m)
    ensures PathFits(Switched(v, job), m)
  {
    if m.checkpoint.Some? && m.checkpoint.value.path.Some? && m.checkpoint.value.path.value.Restored? {
      SameCommitted(v, c, m.checkpoint.value.path.value.job);
    }
  }

  /** The process after the control write landed. */
  lemma {:induction false} LandedMemory(d: Disk, m: Memory)
    requires LocksFit(m) && m.stage.Recorded? && RowsKnown(d.rows, d.backups, m.value.sources.Keys)
    requires PathFits(Switched(m.value, m.job), m)
    ensures var next := Switched(m.value, m.job);
      var n := m.(value := next, root := RootOf(next), stage := Switching);
      && n.root == RootOf(n.value) && QueueRegistered(n.value, n.queue, n.inflight) && LocksFit(n)
      && JobFits(next, d.jobs, d.roots, n) && RowsKnown(d.rows, d.backups, n.value.sources.Keys) && LagFits(next, n) && PathFits(next, n)
  {}

  /** The process after the control write failed, wherever it failed. */
  lemma {:induction false} BrokenMemory(d: Disk, m: Memory, c: Control, failed: bool)
    requires LocksFit(m) && m.stage.Recorded? && QueueRegistered(m.value, m.queue, m.inflight)
    requires (c.generation > m.value.generation ==> failed) && PathFits(c, m)
    ensures var n := m.(failed := failed, stage := Broken);
      && QueueRegistered(n.value, n.queue, n.inflight) && LocksFit(n) && JobFits(c, d.jobs, d.roots, n) && LagFits(c, n) && PathFits(c, n)
  {}

  lemma {:induction false} SwitchInv(w: World, m: Memory, io: WriteIo)
    requires Inv(w) && w.mem == Some(m) && EnabledIn(w.disk, m, Switch(io))
    ensures Inv(Step(w, m, Switch(io)))
  {
    var d := w.disk;
    ExtendedKeys(m.value, d.control);
    FewerSources(m.value, d.control);
    SwitchHeld(d.control, m.value, m.failed, m.job, io);
    var (held, landed) := SwitchOf(Held(d.control, m.value, m.failed), m.job, io);
    SwitchDisk(d, m);
    PathSwitch(d.control, m.value, m, m.job);
    SwitchLogs(w.published, d.control, m.value, m.job);
    if landed {
      LandedMemory(d, m);
    } else {
      BrokenMemory(d, m, held.disk, held.failed);
    }
  }

  lemma {:induction false} SwitchLogs(p: seq<(Source, nat)>, c: Control, v: Control, job: JobId)
    requires Logged(p, v) && job !in v.committed && WellFormed(v)
    ensures Logged(p, Switched(v, job))
  {
    SwitchedWellFormed(v, job);
    LoggedExtends(p, v, Switched(v, job));
  }

  // ---------------------------------------------------------------- after the commit

  lemma {:induction false} FinishMemory(d: Disk, m: Memory, ok: bool)
    requires LocksFit(m) && m.stage.Loaded? && JobFits(d.control, d.jobs, d.roots, m) && LagFits(d.control, m)
    ensures var n := m.(stage := if ok then Finished else Broken);
      forall jobs :: LocksFit(n) && JobFits(d.control, jobs, d.roots, n) && LagFits(d.control, n)
  {}

  lemma {:induction false} FinishInv(w: World, m: Memory, ok: bool)
    requires Inv(w) && w.mem == Some(m) && EnabledIn(w.disk, m, FinishJob(ok))
    ensures Inv(Step(w, m, FinishJob(ok)))
  {
    FinishMemory(w.disk, m, ok);
    CommittedOnDisk(w.disk.control, m.value, m.job);
    ChangedJob(w.disk.control, w.disk.jobs, m.job, w.disk.jobs[m.job].(state := Succeeded));
  }

  lemma {:induction false} CommittedOnDisk(c: Control, v: Control, job: JobId)
    requires Extends(v, c) && job in v.committed
    ensures job in c.committed
  {}

  /** A committed job's replaced root is neither served nor being filled. */
  lemma {:induction false} ReplacedNotServed(c: Control, v: Control, jobs: map<JobId, Job>, id: JobId)
    requires WellFormed(v) && WellFormed(c) && Extends(v, c) && JobsFit(c, jobs) && id in v.committed
    ensures id in jobs && jobs[id].oldContent.Some?
    ensures jobs[id].oldContent.value != RootOf(c) && jobs[id].oldContent.value != RootOf(v)
    ensures jobs[id].oldContent.value.Restored? ==> jobs[id].oldContent.value.job in c.committed
  {
    assert CommittedJob(c, jobs, id);
  }

  lemma {:induction false} CleanInv(w: World, m: Memory, e: Event)
    requires Inv(w) && w.mem == Some(m) && EnabledIn(w.disk, m, e) && e.Clean?
    ensures Inv(Step(w, m, e))
  {
    ReplacedNotServed(w.disk.control, m.value, w.disk.jobs, e.id);
    CleanRoots(w.disk.control, w.disk.jobs, w.disk.roots, m, w.disk.jobs[e.id].oldContent.value, e.core);
  }

  lemma {:induction false} CleanRoots(c: Control, jobs: map<JobId, Job>, roots: map<Root, Files>, m: Memory, replaced: Root, core: Core)
    requires ServesAll(c, roots) && JobFits(c, jobs, roots, m) && (m.stage.NoRestore? || m.stage.Finished?)
    requires replaced != RootOf(c)
    ensures var after := roots[replaced := FilesIn(roots, replaced) - {core}];
      ServesAll(c, after) && JobFits(c, jobs, after, m)
  {}

  lemma {:induction false} ReleaseMemory(d: Disk, m: Memory)
    requires LocksFit(m) && LagFits(d.control, m)
    ensures var (disk, n) := ReleaseStep(d, m);
      && LocksFit(n) && LagFits(disk.control, n) && JobFits(disk.control, disk.jobs, disk.roots, n)
      && n.value == m.value && n.failed == m.failed && n.root == m.root && n.queue == m.queue && n.inflight == m.inflight
      && disk.control == d.control && disk.roots == d.roots && disk.rows == d.rows && disk.backups == d.backups
  {}

  lemma {:induction false} ReleaseJobs(d: Disk, m: Memory)
    requires JobsFit(d.control, d.jobs)
    ensures JobsFit(d.control, ReleaseStep(d, m).0.jobs)
  {
    if m.job in d.jobs {
      ChangedJob(d.control, d.jobs, m.job, d.jobs[m.job].(state := Stopped));
    }
  }

  lemma {:induction false} ReleaseInv(w: World, m: Memory)
    requires Inv(w) && w.mem == Some(m) && EnabledIn(w.disk, m, Release)
    ensures Inv(Step(w, m, Release))
  {
    ReleaseMemory(w.disk, m);
    ReleaseJobs(w.disk, m);
  }

  // ---------------------------------------------------------------- registration, start and crash

  lemma {:induction false} RegisterCommitments(h: Held, s: Source, io: WriteIo)
    requires Consistent(h)
    ensures var after := RegisterOf(h, s, io).0;
      && after.disk.committed == h.disk.committed && after.disk.serving == h.disk.serving && after.disk.generation == h.disk.generation
      && after.value.committed == h.value.committed && after.value.serving == h.value.serving && after.value.generation == h.value.generation
      && (h.failed ==> after == h)
  {}

  lemma {:induction false} SameJobs(c: Control, d: Control, jobs: map<JobId, Job>)
    requires JobsFit(c, jobs) && d.committed == c.committed
    ensures JobsFit(d, jobs)
  {
    forall id | id in d.committed ensures CommittedJob(d, jobs, id) {
      assert CommittedJob(c, jobs, id);
    }
  }

  lemma {:induction false} MoreSources(rows: map<Root, set<Source>>, backups: seq<Backup>, sources: set<Source>, more: set<Source>)
    requires RowsKnown(rows, backups, sources) && sources <= more
    ensures RowsKnown(rows, backups, more)
  {}

  lemma {:induction false} QueueKept(v: Control, u: Control, queue: seq<Source>, inflight: seq<Source>)
    requires QueueRegistered(v, queue, inflight) && Extends(v, u) && u.generation == v.generation
    ensures QueueRegistered(u, queue, inflight)
  {}

  lemma {:induction false} RegisterInv(w: World, m: Memory, e: Event)
    requires Inv(w) && w.mem == Some(m) && EnabledIn(w.disk, m, e) && e.Register?
    ensures Inv(Step(w, m, e))
  {
    var d := w.disk;
    var h := Held(d.control, m.value, m.failed);
    var held := RegisterOf(h, e.source, e.write).0;
    RegisterKeeps(h, e.source, e.write);
    RegisterCommitments(h, e.source, e.write);
    LoggedExtends(w.published, d.control, held.disk);
    LoggedExtends(w.published, m.value, held.value);
    SameJobs(d.control, held.disk, d.jobs);
    ExtendedKeys(m.value, held.value);
    MoreSources(d.rows, d.backups, m.value.sources.Keys, held.value.sources.Keys);
    ExtendedKeys(held.value, held.disk);
    KnownOnDisk(held.disk, d.rows, d.backups, held.value.sources.Keys);
    QueueKept(m.value, held.value, m.queue, m.inflight);
    assert JobFits(held.disk, d.jobs, d.roots, m.(value := held.value, failed := held.failed));
  }

  lemma {:induction false} SettledJobs(c: Control, d: Control, jobs: map<JobId, Job>)
    requires JobsFit(c, jobs) && d.committed == c.committed
    ensures JobsFit(d, Settled(jobs, d))
    ensures forall id :: id in Settled(jobs, d) ==> (Settled(jobs, d)[id].state.Succeeded? <==> id in d.committed)
    ensures forall id :: id in Settled(jobs, d) ==> !Settled(jobs, d)[id].state.Pending?
  {
    assert Settled(jobs, d).Keys == jobs.Keys;
    forall id | id in d.committed ensures CommittedJob(d, Settled(jobs, d), id) {
      assert CommittedJob(c, jobs, id);
    }
  }

  lemma {:induction false} StartRows(c: Control, d: Control, rows: map<Root, set<Source>>, backups: seq<Backup>)
    requires OthersKnown(c, rows, backups) && RootOf(d) == RootOf(c) && c.sources.Keys <= d.sources.Keys
    ensures OthersKnown(d, rows, backups)
    ensures RowsIn(rows, RootOf(c)) <= d.sources.Keys ==> RowsKnown(rows, backups, d.sources.Keys)
  {
    var others := rows - {RootOf(c)};
    MoreSources(others, backups, c.sources.Keys, d.sources.Keys);
    if RowsIn(rows, RootOf(c)) <= d.sources.Keys {
      forall r | r in rows ensures rows[r] <= d.sources.Keys {
        if r != RootOf(c) {
          assert others[r] == rows[r];
        }
      }
    }
  }

  lemma {:induction false} TrimFrame(d: Disk, tails: Tails)
    ensures var after := TrimStep(d, tails);
      && after.control == d.control && after.jobs == d.jobs && after.backups == d.backups && after.rows == d.rows
      && (forall r :: r != RootOf(d.control) ==> FilesAt(after, r) == FilesAt(d, r))
      && FilesAt(after, RootOf(d.control)) == Trimmed(FilesAt(d, RootOf(d.control)), tails)
      && FilesAt(after, RootOf(d.control)).Keys == FilesAt(d, RootOf(d.control)).Keys
  {}

  lemma {:induction false} SettleInv(d: Disk, io: WriteIo, p: seq<(Source, nat)>)
    requires DiskInv(d) && Logged(p, d.control)
    ensures var (after, ok) := SettleStep(d, io);
      && DiskInv(after) && Logged(p, after.control) && (ok ==> RowsKnown(after.rows, after.backups, after.control.sources.Keys))
  {
    var c := d.control;
    var seen := RowsAt(d, RootOf(c));
    var held := SeedOf(Held(c, c, false), seen, io).0;
    SeedKeeps(Held(c, c, false), seen, io);
    LoggedExtends(p, c, held.disk);
    ExtendedKeys(c, held.disk);
    StartRows(c, held.disk, d.rows, d.backups);
    SettledJobs(c, held.disk, d.jobs);
    SameJobs(c, held.disk, d.jobs);
  }

  lemma {:induction false} StartedInv(d: Disk)
    requires DiskInv(d) && RowsKnown(d.rows, d.backups, d.control.sources.Keys)
    ensures MemoryInv(d, Started(d))
  {}

  lemma {:induction false} SaveStepInv(d: Disk, n: nat, save: WriteIo, p: seq<(Source, nat)>)
    requires DiskInv(d) && Logged(p, d.control) && RowsKnown(d.rows, d.backups, d.control.sources.Keys)
    ensures Inv(SaveStep(d, n, save, p))
  {
    StartedInv(d);
    OwnFileInv(d, Started(d), StateFile, Blob(StateOf(d, RootOf(d.control)), n));
  }

  lemma {:induction false} StartInv(w: World, io: StartIo)
    requires Inv(w) && w.mem.None?
    ensures Inv(StartStep(w, io))
  {
    TrimFrame(w.disk, io.tails);
    SettleInv(TrimStep(w.disk, io.tails), io.seed, w.published);
    var (d, ok) := SettleStep(TrimStep(w.disk, io.tails), io.seed);
    if ok {
      SaveStepInv(d, io.n, io.save, w.published);
    }
  }

  // ---------------------------------------------------------------- every step and every run

  /** Steps of the restore thread, the rest being admission, publication and leases. */
  predicate OfRestore(e: Event) {
    e.Confirm? || e.CopyFile? || e.Verified? || e.BeginGate? || e.LockPublisher? || e.Recheck? || e.Fence? || e.Record? || e.Switch?
    || e.Load? || e.SaveLoaded? || e.FinishJob? || e.Clean? || e.Release?
  }

  lemma {:induction false} CommitStepInv(w: World, m: Memory, e: Event)
    requires Inv(w) && w.mem == Some(m) && EnabledIn(w.disk, m, e)
    requires e.Switch? || e.FinishJob? || e.Clean? || e.Release?
    ensures Inv(Step(w, m, e))
  {
    if e.Switch? {
      SwitchInv(w, m, e.write);
    } else if e.FinishJob? {
      FinishInv(w, m, e.ok);
    } else if e.Clean? {
      CleanInv(w, m, e);
    } else {
      ReleaseInv(w, m);
    }
  }

  lemma {:induction false} RestoreStepInv(w: World, m: Memory, e: Event)
    requires Inv(w) && w.mem == Some(m) && EnabledIn(w.disk, m, e) && OfRestore(e)
    ensures Inv(Step(w, m, e))
  {
    if e.Confirm? {
      ConfirmInv(w, m, e);
    } else if e.CopyFile? {
      CopyInv(w, m, e);
    } else if e.Record? {
      RecordInv(w, m);
    } else if e.SaveLoaded? {
      SaveInv(w, m, e);
    } else if e.Switch? || e.FinishJob? || e.Clean? || e.Release? {
      CommitStepInv(w, m, e);
    } else {
      StageInv(w, m, e);
    }
  }

  lemma {:induction false} ServiceStepInv(w: World, m: Memory, e: Event)
    requires Inv(w) && w.mem == Some(m) && EnabledIn(w.disk, m, e) && !OfRestore(e)
    ensures Inv(Step(w, m, e))
  {
    if e.Register? {
      RegisterInv(w, m, e);
    } else if e.Accept? || e.Take? {
      AdmissionInv(w, m, e);
    } else if e.PublishState? {
      PublishInv(w, m, e);
    } else if e.PublishFailed? {
      DroppedInv(w, m, e);
    } else if e.PublishFile? || e.EditFile? {
      PieceInv(w, m, e);
    } else if e.CheckpointWrite? {
      CheckpointInv(w, m);
    } else if e.TakeBackup? {
      BackupInv(w, m);
    } else if !e.Crash? {
      TrafficInv(w, m, e);
    }
  }

  lemma {:induction false} StepInv(w: World, e: Event)
    requires Inv(w) && Enabled(w, e)
    ensures Inv(Next(w, e))
  {
    match w.mem
    case None => StartInv(w, e.start);
    case Some(m) =>
      if OfRestore(e) {
        RestoreStepInv(w, m, e);
      } else {
        ServiceStepInv(w, m, e);
      }
  }
}
