/** What a restart serves: all of the old content or all of the new, whatever step a
    crash follows; what cleanup may touch; and what the restored rows' sources may do
    (archive/management.py; docs/input-archive.md). */
module RestoreServing {
  import opened Common
  import opened Authority
  import opened RestoreProtocol
  import opened RestoreSafety
  import opened RestoreResults

  // ---------------------------------------------------------------- copies of backups

  /** While a job copies, every file it has is the backup's. */
  ghost predicate CopyFits(d: Disk, m: Memory) {
    BeforeCommit(m.stage) && m.job in d.jobs ==>
      d.jobs[m.job].backup < |d.backups| && CopiedFrom(FilesAt(d, Restored(m.job)), Restored(m.job), d.backups[d.jobs[m.job].backup].files)
      && RowsAt(d, Restored(m.job)) ==
           (if FilesAt(d, Restored(m.job)) == map[] then {} else d.backups[d.jobs[m.job].backup].rows)
  }

  predicate CopiedFrom(f: Files, r: Root, backup: Files) {
    forall core :: core in f ==> core in backup && f[core] == Blob(r, backup[core].n)
  }

  ghost predicate Copies(w: World) {
    w.mem.Some? ==> CopyFits(w.disk, w.mem.value)
  }

  lemma {:induction false} CopyKept(d: Disk, m: Memory, e: Disk, n: Memory)
    requires CopyFits(d, m) && (BeforeCommit(n.stage) ==> BeforeCommit(m.stage)) && n.job == m.job
    requires m.job in e.jobs ==> m.job in d.jobs && e.jobs[m.job].backup == d.jobs[m.job].backup
    requires d.backups <= e.backups
    requires BeforeCommit(m.stage) && m.job in e.jobs ==>
      FilesAt(e, Restored(m.job)) == FilesAt(d, Restored(m.job)) && RowsAt(e, Restored(m.job)) == RowsAt(d, Restored(m.job))
    ensures CopyFits(e, n)
  {}

  lemma {:induction false} CopyOne(d: Disk, m: Memory, core: Core)
    requires CopyFits(d, m) && EnabledIn(d, m, CopyFile(core))
    ensures CopyFits(CopyStep(d, m, core), m)
  {
    if BeforeCommit(m.stage) {
      CopiedOne(FilesAt(d, Restored(m.job)), Restored(m.job), d.backups[d.jobs[m.job].backup].files, core);
      assert FilesAt(CopyStep(d, m, core), Restored(m.job)) ==
        FilesAt(d, Restored(m.job))[core := Blob(Restored(m.job), d.backups[d.jobs[m.job].backup].files[core].n)];
    }
  }

  lemma {:induction false} CopiedOne(f: Files, r: Root, backup: Files, core: Core)
    requires CopiedFrom(f, r, backup) && core in backup
    ensures CopiedFrom(f[core := Blob(r, backup[core].n)], r, backup)
    ensures f[core := Blob(r, backup[core].n)] != map[]
  {
    assert core in f[core := Blob(r, backup[core].n)];
  }

  lemma {:induction false} CopyNone(d: Disk, m: Memory, id: JobId, discard: bool, from: nat)
    requires EnabledIn(d, m, Confirm(id, discard, from))
    ensures CopyFits(ConfirmStep(d, m, id, discard, from).0, ConfirmStep(d, m, id, discard, from).1)
  {}

  lemma {:induction false} SomeCopies(w: World, m: Memory, e: Event)
    requires w.mem == Some(m) && EnabledIn(w.disk, m, e) && CopyFits(w.disk, m)
    requires BeforeCommit(m.stage) && !e.Confirm? && !e.CopyFile? ==> Target(w.disk, m, e) != Some(Restored(m.job))
    ensures Copies(Step(w, m, e))
  {
    if e.Confirm? {
      CopyNone(w.disk, m, e.id, e.discard, e.from);
    } else if e.CopyFile? {
      CopyOne(w.disk, m, e.core);
    } else {
      JobFrame(w, m, e);
      StageFrame(w, m, e);
      if BeforeCommit(m.stage) {
        FilesElsewhere(w, m, e, Restored(m.job));
      }
      var n := Step(w, m, e);
      if n.mem.Some? {
        CopyKept(w.disk, m, n.disk, n.mem.value);
      }
    }
  }

  lemma {:induction false} StepCopies(w: World, e: Event)
    requires Inv(w) && Copies(w) && Enabled(w, e)
    ensures Copies(Next(w, e))
  {
    match w.mem
    case None => StartCopies(w, e.start);
    case Some(m) =>
      CopyFacts(w.disk, m, e);
      SomeCopies(w, m, e);
  }

  lemma {:induction false} CopyFacts(d: Disk, m: Memory, e: Event)
    requires MemoryInv(d, m) && EnabledIn(d, m, e)
    ensures BeforeCommit(m.stage) && !e.Confirm? && !e.CopyFile? ==> Target(d, m, e) != Some(Restored(m.job))
  {
    if BeforeCommit(m.stage) {
      StageRoots(d, m);
    }
  }

  lemma {:induction false} StartCopies(w: World, io: StartIo)
    ensures Copies(StartStep(w, io))
  {}

  lemma {:induction false} StageRoots(d: Disk, m: Memory)
    requires MemoryInv(d, m) && BeforeCommit(m.stage)
    ensures m.root != Restored(m.job)
  {
    OwnRootServes(d.control, m.value, m.failed, m.job);
  }

  lemma {:induction false} RunCopies(w: World, events: seq<Event>)
    requires Inv(w) && Copies(w) && Runs(w, events)
    ensures Copies(After(w, events))
    decreases |events|
  {
    if events != [] {
      StepInv(w, events[0]);
      StepCopies(w, events[0]);
      RunCopies(Next(w, events[0]), events[1..]);
    }
  }

  lemma {:induction false} WholeBackup(d: Disk, m: Memory)
    requires CopyFits(d, m) && JobFits(d.control, d.jobs, d.roots, m) && m.stage.Recorded?
    ensures d.jobs[m.job].backup < |d.backups|
    ensures FilesAt(d, Restored(m.job)) == Owned(d.backups[d.jobs[m.job].backup].files, Restored(m.job))
    ensures FilesAt(d, Restored(m.job)).Keys == AllCore
  {
    var f, b := FilesAt(d, Restored(m.job)), d.backups[d.jobs[m.job].backup].files;
    assert CopiedFrom(f, Restored(m.job), b);
    forall core | core in AllCore ensures core in f && core in b && f[core] == Owned(b, Restored(m.job))[core] {
      assert core in f.Keys;
    }
    forall core: Core ensures core in AllCore {
      EveryCore(core);
    }
  }

  lemma {:induction false} EveryCore(core: Core)
    ensures core in AllCore
  {
    match core
    case Observations =>
    case Quarantine =>
    case StateFile =>
    case AnnotationIdentity =>
    case AnnotationState =>
    case Annotations =>
  }

  // ---------------------------------------------------------------- what a step does to the served content

  /** The control write lands, whether or not the process learns of it. */
  predicate Lands(e: Event) {
    e.Switch? && (e.write.Written? || e.write.ReplacedThenFailed?)
  }

  /** One core file of the root a restart would serve. */
  function Served(d: Disk, core: Core): Option<Blob> {
    var files := FilesAt(d, RootOf(d.control));
    if core in files then Some(files[core]) else None
  }

  /** The steps that write this core file of the content in service: start-up writes the
      state file and the tails it cuts. */
  predicate Touches(e: Event, core: Core) {
    match e
    case StartUp(io) => core == StateFile || core in io.tails
    case PublishFile(k, _) => k == core
    case EditFile(k, _) => k == core
    case PublishState(_) => core == StateFile
    case PublishFailed(_) => core == StateFile
    case SaveLoaded(_, _) => core == StateFile
    case CheckpointWrite => core == StateFile
    case _ => false
  }

  lemma {:induction false} SwitchServes(d: Disk, m: Memory, io: WriteIo)
    requires CopyFits(d, m) && JobFits(d.control, d.jobs, d.roots, m) && m.stage.Recorded?
    ensures d.jobs[m.job].backup < |d.backups|
    ensures var after := SwitchStep(d, m, io).0;
      && after.roots == d.roots && after.rows == d.rows && after.jobs == d.jobs && after.backups == d.backups
      && if io.Written? || io.ReplacedThenFailed? then
           && after.control == Switched(m.value, m.job) && RootOf(after.control) == Restored(m.job)
           && FilesAt(after, Restored(m.job)) == Owned(d.backups[d.jobs[m.job].backup].files, Restored(m.job))
           && FilesAt(after, Restored(m.job)).Keys == AllCore
           && RowsAt(after, Restored(m.job)) == d.backups[d.jobs[m.job].backup].rows
         else after.control == d.control
  {
    WholeBackup(d, m);
  }

  lemma {:induction false} OthersServe(w: World, m: Memory, e: Event)
    requires w.mem == Some(m) && EnabledIn(w.disk, m, e) && Consistent(HeldOf(w.disk, m)) && !e.Switch?
    ensures RootOf(Step(w, m, e).disk.control) == RootOf(w.disk.control)
    ensures Step(w, m, e).disk.control.generation == w.disk.control.generation
  {
    if e.Register? {
      RegisterCommitments(HeldOf(w.disk, m), e.source, e.write);
    } else {
      ControlFrame(w, m, e);
    }
  }

  lemma {:induction false} SettledBackups(jobs: map<JobId, Job>, c: Control)
    ensures Settled(jobs, c).Keys == jobs.Keys && forall id :: id in jobs ==> Settled(jobs, c)[id].backup == jobs[id].backup
  {}

  ghost predicate JobBackups(d: Disk, after: Disk) {
    && d.backups <= after.backups
    && forall id :: id in d.jobs ==> id in after.jobs && after.jobs[id].backup == d.jobs[id].backup
  }

  lemma {:induction false} StartBackups(d: Disk, v: Disk, io: StartIo)
    requires StartWrites(d, v, io)
    ensures JobBackups(d, v)
  {
    SettledBackups(d.jobs, v.control);
  }

  /** Of the served content a start writes the state file and the tails it cuts. */
  lemma {:induction false} StartServes(d: Disk, v: Disk, io: StartIo, core: Core)
    requires StartWrites(d, v, io) && RootOf(v.control) == RootOf(d.control) && !Touches(StartUp(io), core)
    ensures Served(v, core) == Served(d, core)
  {}

  /** The control write replaces everything at once, by the whole backup and nothing
      else, and leaves the replaced root as it was. */
  lemma {:induction false} LandingServes(w: World, e: Event)
    requires Inv(w) && Copies(w) && Enabled(w, e) && Lands(e)
    ensures var d, after, m := w.disk, Next(w, e).disk, w.mem.value;
      && m.job in d.jobs && d.jobs[m.job].backup < |d.backups|
      && after.control == Switched(m.value, m.job) && RootOf(after.control) == Restored(m.job)
      && after.control.generation == d.control.generation + 1
      && FilesAt(after, Restored(m.job)) == Owned(d.backups[d.jobs[m.job].backup].files, Restored(m.job))
      && FilesAt(after, Restored(m.job)).Keys == AllCore
      && RowsAt(after, Restored(m.job)) == d.backups[d.jobs[m.job].backup].rows
      && after.roots == d.roots && after.rows == d.rows && after.jobs == d.jobs && after.backups == d.backups
  {
    SwitchServes(w.disk, w.mem.value, e.write);
  }

  /** Confirming, copying and cleaning write no root a restart would serve. */
  lemma {:induction false} RestoreTargets(d: Disk, m: Memory, e: Event)
    requires DiskInv(d) && MemoryInv(d, m) && EnabledIn(d, m, e) && (e.Confirm? || e.CopyFile? || e.Clean?)
    ensures Target(d, m, e) != Some(RootOf(d.control))
  {
    if e.Confirm? {
      ConfirmDisk(d, m, e.id, e.discard, e.from);
      RootsCommitted(m.value, d.control, e.id);
    } else if e.CopyFile? {
      RootsCommitted(m.value, d.control, m.job);
    } else {
      ReplacedNotServed(d.control, m.value, d.jobs, e.id);
    }
  }

  lemma {:induction false} OneFile(w: World, m: Memory, e: Event, core: Core, r: Root)
    requires w.mem == Some(m) && EnabledIn(w.disk, m, e) && !Touches(e, core) && !e.Confirm? && !e.CopyFile? && !e.Clean?
    ensures var f, g := FilesAt(w.disk, r), FilesAt(Step(w, m, e).disk, r);
      (core in f <==> core in g) && (core in f ==> g[core] == f[core])
  {
    if Target(w.disk, m, e).None? {
      FilesFrame(w, m, e);
    }
  }

  lemma {:induction false} MemoryServes(w: World, m: Memory, e: Event, core: Core)
    requires Inv(w) && w.mem == Some(m) && EnabledIn(w.disk, m, e) && !Touches(e, core) && !e.Switch?
    ensures Served(Step(w, m, e).disk, core) == Served(w.disk, core)
  {
    var r := RootOf(w.disk.control);
    OthersServe(w, m, e);
    if e.Confirm? || e.CopyFile? || e.Clean? {
      RestoreTargets(w.disk, m, e);
      FilesElsewhere(w, m, e, r);
    } else {
      OneFile(w, m, e, core, r);
    }
  }

  /** What a job restores, once it serves. */
  ghost predicate ServesBackup(d: Disk, core: Core) {
    && d.control.serving.Some? && d.control.serving.value in d.jobs && d.jobs[d.control.serving.value].backup < |d.backups|
    && var files := d.backups[d.jobs[d.control.serving.value].backup].files;
       core in files && Served(d, core) == Some(Blob(Restored(d.control.serving.value), files[core].n))
  }

  lemma {:induction false} LandedBackup(w: World, e: Event, core: Core)
    requires Inv(w) && Copies(w) && Enabled(w, e) && Lands(e)
    ensures ServesBackup(Next(w, e).disk, core)
  {
    LandingServes(w, e);
    EveryCore(core);
    assert core in FilesAt(Next(w, e).disk, Restored(w.mem.value.job)).Keys;
  }

  /** This step leaves the file served as it was, and the root and generation too. */
  ghost predicate Unmoved(d: Disk, after: Disk, core: Core) {
    && Served(after, core) == Served(d, core) && RootOf(after.control) == RootOf(d.control)
    && after.control.generation == d.control.generation
  }

  lemma {:induction false} StartUnmoved(w: World, io: StartIo, core: Core)
    requires Inv(w) && w.mem.None? && !Touches(StartUp(io), core)
    ensures Unmoved(w.disk, StartStep(w, io).disk, core)
  {
    StartControl(w, io);
    StartDisk(w, io);
    StartServes(w.disk, StartStep(w, io).disk, io, core);
  }

  lemma {:induction false} SwitchUnmoved(w: World, m: Memory, io: WriteIo, core: Core)
    requires w.mem == Some(m) && EnabledIn(w.disk, m, Switch(io)) && !Lands(Switch(io))
    ensures Unmoved(w.disk, Step(w, m, Switch(io)).disk, core)
  {}

  lemma {:induction false} StepUnmoved(w: World, m: Memory, e: Event, core: Core)
    requires Inv(w) && w.mem == Some(m) && EnabledIn(w.disk, m, e) && !Touches(e, core) && !e.Switch?
    ensures Unmoved(w.disk, Step(w, m, e).disk, core)
  {
    MemoryServes(w, m, e, core);
    OthersServe(w, m, e);
  }

  lemma {:induction false} Landed(w: World, e: Event, core: Core)
    requires Inv(w) && Copies(w) && Enabled(w, e) && Lands(e)
    ensures ServesBackup(Next(w, e).disk, core) && Next(w, e).disk.control.generation == w.disk.control.generation + 1
  {
    LandedBackup(w, e, core);
    LandingServes(w, e);
  }

  /** One step: a core file of the served content changes only by a write to that file,
      of the service or at start-up, or by the control write, which puts the backup's
      there. */
  lemma {:induction false} OldOrNew(w: World, e: Event, core: Core)
    requires Inv(w) && Copies(w) && Enabled(w, e) && !Touches(e, core)
    ensures Lands(e) ==> ServesBackup(Next(w, e).disk, core) && Next(w, e).disk.control.generation == w.disk.control.generation + 1
    ensures !Lands(e) ==> Unmoved(w.disk, Next(w, e).disk, core)
  {
    match w.mem
    case None => StartUnmoved(w, e.start, core);
    case Some(m) =>
      if Lands(e) {
        Landed(w, e, core);
      } else if e.Switch? {
        SwitchUnmoved(w, m, e.write, core);
      } else {
        StepUnmoved(w, m, e, core);
      }
  }

  // ---------------------------------------------------------------- over a run

  lemma {:induction false} NextBackups(w: World, m: Memory, e: Event)
    requires w.mem == Some(m) && EnabledIn(w.disk, m, e)
    ensures JobBackups(w.disk, Step(w, m, e).disk)
  {
    if !e.Confirm? {
      JobFrame(w, m, e);
    }
  }

  lemma {:induction false} StepBackups(w: World, e: Event)
    requires Inv(w) && Enabled(w, e)
    ensures JobBackups(w.disk, Next(w, e).disk)
  {
    match w.mem
    case None =>
      StartDisk(w, e.start);
      StartBackups(w.disk, StartStep(w, e.start).disk, e.start);
    case Some(m) => NextBackups(w, m, e);
  }

  lemma {:induction false} StillBackup(w: World, e: Event, core: Core)
    requires Inv(w) && Copies(w) && Enabled(w, e) && !Touches(e, core) && !Lands(e) && ServesBackup(w.disk, core)
    ensures ServesBackup(Next(w, e).disk, core)
  {
    OldOrNew(w, e, core);
    StepBackups(w, e);
  }

  /** From w on, this core file is the one w served or, once a control write has
      landed, the backup's. */
  ghost predicate Kept(d: Disk, after: Disk, core: Core) {
    && d.control.generation <= after.control.generation
    && (after.control.generation == d.control.generation ==> Unmoved(d, after, core))
    && (after.control.generation > d.control.generation ==> ServesBackup(after, core))
  }

  lemma {:induction false} KeptStep(base: Disk, w: World, e: Event, core: Core)
    requires Inv(w) && Copies(w) && Enabled(w, e) && !Touches(e, core) && Kept(base, w.disk, core)
    ensures Kept(base, Next(w, e).disk, core)
  {
    OldOrNew(w, e, core);
    if !Lands(e) && w.disk.control.generation != base.control.generation {
      StillBackup(w, e, core);
    }
  }

  /** A step from a sound state, in one. */
  lemma {:induction false} KeptNext(base: Disk, w: World, e: Event, core: Core) returns (v: World)
    requires Inv(w) && Copies(w) && Enabled(w, e) && !Touches(e, core) && Kept(base, w.disk, core)
    ensures v == Next(w, e) && Inv(v) && Copies(v) && Kept(base, v.disk, core)
  {
    KeptStep(base, w, e, core);
    StepInv(w, e);
    StepCopies(w, e);
    v := Next(w, e);
  }

  /** No event writes this core file for the service or at start-up. */
  ghost predicate LeavesAlone(events: seq<Event>, core: Core)
    decreases |events|
  {
    events == [] || (!Touches(events[0], core) && LeavesAlone(events[1..], core))
  }

  lemma {:induction false} KeptRun(base: Disk, w: World, events: seq<Event>, core: Core)
    requires Inv(w) && Copies(w) && Runs(w, events) && Kept(base, w.disk, core) && LeavesAlone(events, core)
    ensures Kept(base, After(w, events).disk, core)
    decreases |events|
  {
    if events != [] {
      var v := KeptNext(base, w, events[0], core);
      KeptRun(base, v, events[1..], core);
    }
  }

  lemma {:induction false} ReachableCopies(start: World, events: seq<Event>)
    requires Initial(start) && Runs(start, events)
    ensures Inv(After(start, events)) && Copies(After(start, events))
  {
    InitialInv(start);
    RunInv(start, events);
    RunCopies(start, events);
  }

  /** All or nothing, at every point of every run: from any reachable moment on, and
      whatever steps, crashes and restarts follow that do not write this file for the
      service or at start-up, a restart serves the file as it was if no control write landed,
      and the backup's file if one did. */
  lemma {:induction false} AllOrNothing(start: World, before: seq<Event>, events: seq<Event>, core: Core)
    requires Initial(start) && Runs(start, before) && Runs(After(start, before), events)
    requires LeavesAlone(events, core)
    ensures var d, after := After(start, before).disk, After(After(start, before), events).disk;
      && d.control.generation <= after.control.generation
      && (after.control.generation == d.control.generation ==>
            RootOf(after.control) == RootOf(d.control) && Served(after, core) == Served(d, core))
      && (after.control.generation > d.control.generation ==> ServesBackup(after, core))
  {
    ReachableCopies(start, before);
    KeptRun(After(start, before).disk, After(start, before), events, core);
  }

  // ---------------------------------------------------------------- restarts

  /** A restart serves a complete root, and a job has succeeded exactly when it is
      committed; committed jobs are one to one onto 1..generation with the serving job
      at the top. */
  lemma {:induction false} RestartSettles(start: World, events: seq<Event>, io: StartIo)
    requires Initial(start) && Runs(start, events) && After(start, events).mem.None?
    ensures var w := StartStep(After(start, events), io);
      && RootOf(w.disk.control) == RootOf(After(start, events).disk.control)
      && FilesAt(w.disk, RootOf(w.disk.control)).Keys == AllCore
      && WellFormed(w.disk.control) && |w.disk.control.committed| == w.disk.control.generation
      && (w.mem.Some? ==> w.mem.value.root == RootOf(w.disk.control))
      && (w.mem.Some? ==> forall id :: id in w.disk.jobs ==> (w.disk.jobs[id].state.Succeeded? <==> id in w.disk.control.committed))
      && (w.mem.Some? ==> forall id :: id in w.disk.jobs ==> !w.disk.jobs[id].state.Pending?)
  {
    InitialInv(start);
    RunInv(start, events);
    var w := After(start, events);
    StartInv(w, io);
    StartControl(w, io);
    StartSettles(w, io, StartStep(w, io));
    CommittedCount(StartStep(w, io).disk.control);
  }

  lemma {:induction false} StartSettles(w: World, io: StartIo, v: World)
    requires Inv(w) && v == StartStep(w, io)
    ensures v.mem.Some? ==> forall id :: id in v.disk.jobs ==> (v.disk.jobs[id].state.Succeeded? <==> id in v.disk.control.committed)
    ensures v.mem.Some? ==> forall id :: id in v.disk.jobs ==> !v.disk.jobs[id].state.Pending?
  {
    var c := w.disk.control;
    StartControl(w, io);
    StartDisk(w, io);
    SeedKeeps(Held(c, c, false), RowsAt(w.disk, RootOf(c)), io.seed);
    SettledJobs(c, v.disk.control, w.disk.jobs);
  }

  /** Between restarts a job that has succeeded is committed. */
  lemma {:induction false} SucceededIsCommitted(start: World, events: seq<Event>, id: JobId)
    requires Initial(start) && Runs(start, events)
    requires id in After(start, events).disk.jobs && After(start, events).disk.jobs[id].state.Succeeded?
    ensures id in After(start, events).disk.control.committed
  {
    InitialInv(start);
    RunInv(start, events);
  }

  /** Every control file a run can leave is accepted at start-up. */
  lemma {:induction false} ReachableControlAccepted(start: World, events: seq<Event>)
    requires Initial(start) && Runs(start, events)
    ensures AcceptedAtStart(After(start, events).disk.control)
  {
    InitialInv(start);
    RunInv(start, events);
    var d := After(start, events).disk;
    forall id | id in d.control.committed ensures id in d.jobs {
      assert CommittedJob(d.control, d.jobs, id);
    }
    SubsetSize(d.control.committed.Keys, d.jobs.Keys);
    assert |d.control.committed| == |d.control.committed.Keys| && |d.jobs| == |d.jobs.Keys|;
  }

  // ---------------------------------------------------------------- cleanup

  lemma {:induction false} CommittedReplaced(c: Control, jobs: map<JobId, Job>, id: JobId)
    requires JobsFit(c, jobs) && id in c.committed
    ensures id in jobs && jobs[id].oldContent.Some? && ServedBefore(c, jobs[id].oldContent.value, c.committed[id])
  {
    assert CommittedJob(c, jobs, id);
  }

  /** What a cleanup step may touch, and that it touches nothing else. */
  ghost predicate Unlinks(d: Disk, after: Disk, served: Root, id: JobId, core: Core) {
    && id in d.control.committed && id in d.jobs && d.jobs[id].discard && d.jobs[id].oldContent.Some?
    && (var replaced := d.jobs[id].oldContent.value;
        && ServedBefore(d.control, replaced, d.control.committed[id])
        && replaced != served && replaced != RootOf(d.control)
        && core in d.jobs[id].current && core in FilesAt(d, replaced) && FilesAt(d, replaced)[core] == d.jobs[id].current[core]
        && (forall r :: r != replaced ==> FilesAt(after, r) == FilesAt(d, r))
        && FilesAt(after, replaced) == FilesAt(d, replaced) - {core})
    && after.control == d.control && after.backups == d.backups
  }

  lemma {:induction false} CleanUnlinks(d: Disk, v: Control, m: Memory, id: JobId, core: Core)
    requires WellFormed(v) && WellFormed(d.control) && Extends(v, d.control) && JobsFit(d.control, d.jobs) && m.value == v && m.root == RootOf(v)
    requires CleanAllowed(d, m, id, core)
    ensures Unlinks(d, CleanStep(d, id, core), m.root, id, core)
  {
    ReplacedNotServed(d.control, v, d.jobs, id);
    CommittedOnDisk(d.control, v, id);
    CommittedReplaced(d.control, d.jobs, id);
    CleanEffect(d, id, core);
  }

  lemma {:induction false} NextClean(w: World, m: Memory, id: JobId, core: Core)
    requires w.mem == Some(m) && EnabledIn(w.disk, m, Clean(id, core)) && Unlinks(w.disk, CleanStep(w.disk, id, core), m.root, id, core)
    ensures Unlinks(w.disk, Next(w, Clean(id, core)).disk, m.root, id, core)
  {}

  /** Cleanup unlinks only a core file of the content a committed discard replaced,
      only while its bytes are the confirmed ones, and never from the serving root or
      the root a restart would serve. */
  lemma {:induction false} CleanOnlyReplaced(w: World, id: JobId, core: Core)
    requires Inv(w) && Enabled(w, Clean(id, core))
    ensures Unlinks(w.disk, Next(w, Clean(id, core)).disk, w.mem.value.root, id, core)
  {
    CleanWithin(w.disk, w.mem.value, id, core);
    NextClean(w, w.mem.value, id, core);
  }

  lemma {:induction false} CleanWithin(d: Disk, m: Memory, id: JobId, core: Core)
    requires id in d.jobs && d.jobs[id].oldContent.Some?
    requires DiskInv(d) && MemoryInv(d, m) && EnabledIn(d, m, Clean(id, core))
    ensures Unlinks(d, CleanStep(d, id, core), m.root, id, core)
  {
    CleanUnlinks(d, m.value, m, id, core);
  }

  /** The cleanup loop over the core files of the replaced content: it stops at the
      first whose bytes are not the confirmed ones. */
  method CleanFiles(files: Files, confirmed: Files) returns (left: Files, complete: bool)
    ensures complete <==> forall core :: core in files ==> core in confirmed && files[core] == confirmed[core]
    ensures complete ==> left == map[]
    ensures forall core :: core in left ==> core in files && left[core] == files[core]
    ensures forall core :: core in files && core !in left ==> core in confirmed && files[core] == confirmed[core]
  {
    var names := [Observations, Quarantine, StateFile, AnnotationIdentity, AnnotationState, Annotations];
    left, complete := files, true;
    var i := 0;
    while i < |names|
      invariant 0 <= i <= |names| && complete
      invariant forall core :: core in left <==> core in files && core !in names[..i]
      invariant forall core :: core in left ==> left[core] == files[core]
      invariant forall core :: core in names[..i] && core in files ==> core in confirmed && files[core] == confirmed[core]
    {
      var core := names[i];
      assert names[..i + 1] == names[..i] + [core];
      if core in left {
        if core !in confirmed || left[core] != confirmed[core] {
          return left, false;
        }
        left := left - {core};
      }
      i := i + 1;
    }
    assert names[..i] == names;
    forall core: Core ensures core in names {
      EveryCore(core);
    }
  }

  // ---------------------------------------------------------------- history

  lemma {:induction false} RowsFenced(d: Disk, v: Control, job: JobId, r: Root)
    requires RowsKnown(d.rows, d.backups, v.sources.Keys) && WellFormed(v)
    ensures forall s :: s in RowsAt(d, r) ==> s in Switched(v, job).sources && Switched(v, job).sources[s] < Switched(v, job).generation
  {}

  /** Every row of the serving root is of a source registered below the generation. */
  ghost predicate RowsBelow(d: Disk) {
    forall s :: s in RowsAt(d, RootOf(d.control)) ==> s in d.control.sources && d.control.sources[s] < d.control.generation
  }

  lemma {:induction false} SwitchRows(d: Disk, m: Memory, io: WriteIo)
    requires io.Written? || io.ReplacedThenFailed?
    ensures var after := SwitchStep(d, m, io).0;
      after.rows == d.rows && after.control == Switched(m.value, m.job) && RootOf(after.control) == Restored(m.job)
  {}

  lemma {:induction false} NextFences(w: World, m: Memory, io: WriteIo)
    requires w.mem == Some(m) && EnabledIn(w.disk, m, Switch(io)) && WellFormed(m.value) && (io.Written? || io.ReplacedThenFailed?)
    requires RowsKnown(w.disk.rows, w.disk.backups, m.value.sources.Keys)
    ensures RowsBelow(Next(w, Switch(io)).disk)
  {
    RowsFenced(w.disk, m.value, m.job, Restored(m.job));
    SwitchRows(w.disk, m, io);
  }

  /** A start finds nothing to seed, so what was fenced stays fenced. */
  lemma {:induction false} StartFences(w: World, io: StartIo)
    requires RowsBelow(w.disk)
    ensures RowsBelow(StartStep(w, io).disk)
    ensures var v := StartStep(w, io);
      v.mem.Some? ==> forall s :: s in RowsAt(v.disk, v.mem.value.root) ==> !Allowed(HeldOf(v.disk, v.mem.value), s)
  {
    var c := w.disk.control;
    TrimFrame(w.disk, io.tails);
    assert RowsAt(w.disk, RootOf(c)) - c.sources.Keys == {};
  }

  /** Every source with a row in the restored content is known and fenced from the
      moment the switch lands, and after the restart of a process that never learned
      that it landed. */
  lemma {:induction false} HistoryIsFenced(w: World, write: WriteIo, io: StartIo)
    requires Inv(w) && Enabled(w, Switch(write)) && Lands(Switch(write))
    ensures var after := Next(w, Switch(write));
      && RowsBelow(after.disk) && Enabled(after, Crash) && Enabled(Next(after, Crash), StartUp(io))
      && var v := Next(Next(after, Crash), StartUp(io));
         RowsBelow(v.disk) && (v.mem.Some? ==> forall s :: s in RowsAt(v.disk, v.mem.value.root) ==> !Allowed(HeldOf(v.disk, v.mem.value), s))
  {
    NextFences(w, w.mem.value, write);
    StartFences(Next(Next(w, Switch(write)), Crash), io);
  }
}
