/** Runs from a new archive to a landed switch, and to a restore that succeeds with
    the replaced archive's state file (archive/management.py, _restore_switch;
    archive/collector.py, _persist_state). */
module RestoreExamples {
  import opened Common
  import opened Authority
  import opened RestoreProtocol
  import opened RestoreSafety
  import opened RestoreResults
  import opened RestoreServing
  import opened RestoreState

  /** Nothing is going on, and the served root is whole. */
  ghost predicate Quiet(w: World, r: Root) {
    && w.mem.Some? && w.mem.value.root == r && w.mem.value.state == r && w.mem.value.value == w.disk.control
    && FilesAt(w.disk, r).Keys == AllCore
    && var m := w.mem.value;
       && !m.failed && !m.transition && !m.maintenance && m.readers == 0 && !m.writer && m.mutex.Free?
       && m.queue == [] && m.inflight == [] && m.stage.NoRestore? && m.checkpoint.None?
  }

  /** A start-up that cuts nothing and whose writes succeed. */
  const PlainStart := StartUp(StartIo(map[], Written, 0, Written))

  lemma {:induction false} FirstStart(start: World) returns (v: World)
    requires Initial(start) && |RowsAt(start.disk, Home)| <= MAX_SOURCES
    ensures Enabled(start, PlainStart) && v == Next(start, PlainStart)
    ensures Quiet(v, Home) && v.disk.jobs == map[] && v.disk.backups == []
    ensures v.disk.control.generation == 0 && v.disk.control.committed == map[]
  {
    v := Next(start, PlainStart);
    assert StateFile in AllCore && StateFile in FilesAt(start.disk, Home).Keys;
  }

  lemma {:induction false} BacksUp(w: World) returns (v: World)
    requires Quiet(w, Home) && w.disk.backups == []
    ensures Enabled(w, TakeBackup) && v == Next(w, TakeBackup)
    ensures Quiet(v, Home) && v.disk.jobs == w.disk.jobs && v.disk.control == w.disk.control
    ensures |v.disk.backups| == 1 && v.disk.backups[0].files.Keys == AllCore
  {
    v := Next(w, TakeBackup);
  }

  /** A job that restores the first backup over the home root, at some stage. */
  ghost predicate Restoring(w: World, id: JobId, stage: Stage) {
    && w.mem.Some? && id in w.disk.jobs && |w.disk.backups| == 1 && w.disk.backups[0].files.Keys == AllCore
    && w.disk.jobs[id].backup == 0 && w.disk.jobs[id].current == FilesAt(w.disk, Home) && w.disk.jobs[id].generation == w.disk.control.generation
    && FilesAt(w.disk, Home).Keys == AllCore && w.disk.control.generation == 0
    && var m := w.mem.value;
       && m.value == w.disk.control && m.root == Home && m.state == Home && m.job == id && m.stage == stage
       && !m.failed && !m.transition && !m.maintenance && m.readers == 0 && m.queue == [] && m.inflight == [] && m.checkpoint.None?
       && (m.writer <==> HoldsGate(stage)) && m.mutex == (if HoldsMutex(stage) then Switcher else Free)
  }

  lemma {:induction false} Confirms(w: World, id: JobId, discard: bool) returns (v: World)
    requires Quiet(w, Home) && w.disk.jobs == map[] && |w.disk.backups| == 1 && w.disk.backups[0].files.Keys == AllCore
    requires w.disk.control.generation == 0
    ensures Enabled(w, Confirm(id, discard, 0)) && v == Next(w, Confirm(id, discard, 0))
    ensures Restoring(v, id, Copying) && v.disk.control == w.disk.control
  {
    v := Next(w, Confirm(id, discard, 0));
  }

  function CopyAll(cores: seq<Core>): seq<Event> {
    if cores == [] then [] else CopyAll(cores[..|cores| - 1]) + [CopyFile(cores[|cores| - 1])]
  }

  lemma {:induction false} CopiesOne(w: World, id: JobId, core: Core) returns (v: World)
    requires Restoring(w, id, Copying)
    ensures Enabled(w, CopyFile(core)) && v == Next(w, CopyFile(core))
    ensures Restoring(v, id, Copying) && v.disk.control == w.disk.control
    ensures FilesAt(v.disk, Restored(id)).Keys == FilesAt(w.disk, Restored(id)).Keys + {core}
  {
    EveryCore(core);
    assert core in w.disk.backups[0].files.Keys;
    v := Next(w, CopyFile(core));
  }

  lemma {:induction false} CopiesAll(w: World, id: JobId, cores: seq<Core>) returns (v: World)
    requires Restoring(w, id, Copying)
    ensures Runs(w, CopyAll(cores)) && v == After(w, CopyAll(cores))
    ensures Restoring(v, id, Copying) && v.disk.control == w.disk.control
    ensures forall core :: core in cores ==> core in FilesAt(v.disk, Restored(id))
  {
    if cores == [] {
      v := w;
    } else {
      var last := cores[|cores| - 1];
      var u := CopiesAll(w, id, cores[..|cores| - 1]);
      v := CopiesOne(u, id, last);
      RunOneMore(w, CopyAll(cores[..|cores| - 1]), CopyFile(last));
      forall core | core in cores ensures core in FilesAt(v.disk, Restored(id)) {
        assert core == last || core in cores[..|cores| - 1];
      }
    }
  }

  const CoreFiles := [Observations, Quarantine, StateFile, AnnotationIdentity, AnnotationState, Annotations]

  lemma {:induction false} WholeRoot(f: Files)
    requires forall core :: core in CoreFiles ==> core in f
    ensures f.Keys == AllCore
  {
    forall core: Core ensures core in f.Keys && core in AllCore {
      EveryCore(core);
      assert core in CoreFiles;
    }
  }

  lemma {:induction false} Verifies(w: World, id: JobId) returns (v: World)
    requires Restoring(w, id, Copying) && FilesAt(w.disk, Restored(id)).Keys == AllCore
    ensures Enabled(w, Verified) && Enabled(Next(w, Verified), BeginGate)
    ensures v == Next(Next(w, Verified), BeginGate) && v.disk == w.disk && Restoring(v, id, Gated)
  {
    v := Next(Next(w, Verified), BeginGate);
  }

  lemma {:induction false} Rechecks(w: World, id: JobId) returns (v: World)
    requires Restoring(w, id, Gated)
    ensures Enabled(w, LockPublisher) && Enabled(Next(w, LockPublisher), Recheck)
    ensures v == Next(Next(w, LockPublisher), Recheck) && v.disk == w.disk && Restoring(v, id, Rechecked)
  {
    v := Next(Next(w, LockPublisher), Recheck);
  }

  /** Everything fenced and recorded: the next step of the restore is the control write. */
  ghost predicate AtCommit(w: World, id: JobId) {
    && w.mem.Some? && id in w.disk.jobs && w.disk.control.generation == 0 && w.disk.control.committed == map[]
    && var m := w.mem.value;
       && m.value == w.disk.control && m.root == Home && m.state == Home && m.job == id && m.stage.Recorded?
       && !m.failed && !m.maintenance && m.queue == [] && m.inflight == [] && m.checkpoint.None?
  }

  lemma {:induction false} Fences(w: World, id: JobId) returns (v: World)
    requires Restoring(w, id, Rechecked) && w.disk.control.committed == map[]
    ensures Enabled(w, Fence) && Enabled(Next(w, Fence), Record)
    ensures v == Next(Next(w, Fence), Record) && AtCommit(v, id)
  {
    v := Next(Next(w, Fence), Record);
  }

  lemma {:induction false} RunTwoMore(w: World, events: seq<Event>, e: Event, f: Event)
    requires Runs(w, events) && Enabled(After(w, events), e) && Enabled(Next(After(w, events), e), f)
    ensures Runs(w, events + [e, f]) && After(w, events + [e, f]) == Next(Next(After(w, events), e), f)
  {
    RunOneMore(w, events, e);
    RunOneMore(w, events + [e], f);
    assert events + [e] + [f] == events + [e, f];
  }

  lemma {:induction false} RunThree(w: World, e: Event, f: Event, g: Event, w2: World)
    requires Enabled(w, e) && Enabled(Next(w, e), f) && w2 == Next(Next(w, e), f) && Enabled(w2, g)
    ensures Runs(w, [e, f, g]) && After(w, [e, f, g]) == Next(w2, g)
  {
    RunTwo(w, e, f);
    RunOneMore(w, [e, f], g);
    assert [e, f] + [g] == [e, f, g];
  }

  lemma {:induction false} RunTwo(w: World, e: Event, f: Event)
    requires Enabled(w, e) && Enabled(Next(w, e), f)
    ensures Runs(w, [e, f]) && After(w, [e, f]) == Next(Next(w, e), f)
  {
    RunTwoMore(w, [], e, f);
    assert [] + [e, f] == [e, f];
  }

  lemma {:induction false} RunFour(w: World, e: Event, f: Event, g: Event, h: Event, w2: World)
    requires Enabled(w, e) && Enabled(Next(w, e), f) && w2 == Next(Next(w, e), f)
    requires Enabled(w2, g) && Enabled(Next(w2, g), h)
    ensures Runs(w, [e, f, g, h]) && After(w, [e, f, g, h]) == Next(Next(w2, g), h)
  {
    RunTwo(w, e, f);
    RunTwoMore(w, [e, f], g, h);
    assert [e, f] + [g, h] == [e, f, g, h];
  }

  function Opening(id: JobId, discard: bool): seq<Event> {
    [PlainStart, TakeBackup, Confirm(id, discard, 0)]
  }

  function Closing(): seq<Event> {
    [Verified, BeginGate, LockPublisher, Recheck, Fence, Record]
  }

  /** Every step of a restore up to its control write. */
  function ToCommit(id: JobId, discard: bool): seq<Event> {
    Opening(id, discard) + CopyAll(CoreFiles) + Closing()
  }

  lemma {:induction false} Opens(start: World, id: JobId, discard: bool) returns (v: World)
    requires Initial(start) && |RowsAt(start.disk, Home)| <= MAX_SOURCES
    ensures Runs(start, Opening(id, discard)) && v == After(start, Opening(id, discard))
    ensures Restoring(v, id, Copying) && v.disk.control.committed == map[]
  {
    var w1 := FirstStart(start);
    var w2 := BacksUp(w1);
    v := Confirms(w2, id, discard);
    RunThree(start, PlainStart, TakeBackup, Confirm(id, discard, 0), w2);
  }

  lemma {:induction false} Gates(w: World, id: JobId, e: seq<Event>) returns (v: World)
    requires Restoring(w, id, Copying) && FilesAt(w.disk, Restored(id)).Keys == AllCore
    requires e == [Verified, BeginGate, LockPublisher, Recheck]
    ensures Runs(w, e) && v == After(w, e) && Restoring(v, id, Rechecked) && v.disk == w.disk
  {
    var w2 := Verifies(w, id);
    v := Rechecks(w2, id);
    RunFour(w, Verified, BeginGate, LockPublisher, Recheck, w2);
  }

  lemma {:induction false} Closes(w: World, id: JobId) returns (v: World)
    requires Restoring(w, id, Copying) && FilesAt(w.disk, Restored(id)).Keys == AllCore && w.disk.control.committed == map[]
    ensures Runs(w, Closing()) && v == After(w, Closing()) && AtCommit(v, id)
  {
    var e := Closing();
    var w4 := Gates(w, id, e[..4]);
    v := Fences(w4, id);
    RunTwoMore(w, e[..4], e[4], e[5]);
    assert e[..4] + [e[4], e[5]] == e;
  }

  lemma {:induction false} ReachesCommit(start: World, id: JobId, discard: bool) returns (v: World)
    requires Initial(start) && |RowsAt(start.disk, Home)| <= MAX_SOURCES
    ensures Runs(start, ToCommit(id, discard)) && v == After(start, ToCommit(id, discard)) && AtCommit(v, id)
  {
    var begun := Opens(start, id, discard);
    var copied := CopiesAll(begun, id, CoreFiles);
    WholeRoot(FilesAt(copied.disk, Restored(id)));
    v := Closes(copied, id);
    RunConcat(start, Opening(id, discard), CopyAll(CoreFiles));
    RunConcat(start, Opening(id, discard) + CopyAll(CoreFiles), Closing());
  }

  /** From any new archive a restore can reach its control write and land it. */
  lemma {:induction false} SwitchReached(start: World, id: JobId, discard: bool)
    requires Initial(start) && |RowsAt(start.disk, Home)| <= MAX_SOURCES
    ensures Runs(start, ToCommit(id, discard) + [Switch(Written)])
    ensures After(start, ToCommit(id, discard) + [Switch(Written)]).disk.control.serving == Some(id)
  {
    var w := ReachesCommit(start, id, discard);
    RunOneMore(start, ToCommit(id, discard), Switch(Written));
  }

  // ---------------------------------------------------------------- a checkpoint across the switch

  function Straddle(n: nat): seq<Event> {
    [CheckpointCopy(n), Switch(Written), CheckpointPath, CheckpointWrite]
  }

  function Reload(k: nat): seq<Event> {
    [Load(true, true), SaveLoaded(k, Written), FinishJob(true)]
  }

  /** The switch landed, and the state file in service is the replaced archive's. */
  ghost predicate Strayed(w: World, id: JobId) {
    && w.mem.Some? && id in w.disk.jobs && w.disk.control.serving == Some(id)
    && StateFile in FilesAt(w.disk, Restored(id)) && FilesAt(w.disk, Restored(id))[StateFile].origin == Home
    && w.mem.value.stage.Switching? && w.mem.value.root == Restored(id) && w.mem.value.job == id
  }

  lemma {:induction false} StraddlesFirst(w: World, id: JobId, n: nat) returns (v: World)
    requires AtCommit(w, id)
    ensures Enabled(w, CheckpointCopy(n)) && Enabled(Next(w, CheckpointCopy(n)), Switch(Written))
    ensures v == Next(Next(w, CheckpointCopy(n)), Switch(Written))
    ensures v.mem.Some? && id in v.disk.jobs && v.disk.control.serving == Some(id)
    ensures v.mem.value.stage.Switching? && v.mem.value.root == Restored(id) && v.mem.value.job == id
    ensures v.mem.value.checkpoint == Some(Checkpoint(Blob(Home, n), None))
  {
    v := Next(Next(w, CheckpointCopy(n)), Switch(Written));
  }

  lemma {:induction false} StraddlesThen(w: World, id: JobId, n: nat) returns (v: World)
    requires w.mem.Some? && id in w.disk.jobs && w.disk.control.serving == Some(id)
    requires w.mem.value.stage.Switching? && w.mem.value.root == Restored(id) && w.mem.value.job == id
    requires w.mem.value.checkpoint == Some(Checkpoint(Blob(Home, n), None))
    ensures Enabled(w, CheckpointPath) && Enabled(Next(w, CheckpointPath), CheckpointWrite)
    ensures v == Next(Next(w, CheckpointPath), CheckpointWrite) && Strayed(v, id)
  {
    v := Next(Next(w, CheckpointPath), CheckpointWrite);
  }

  lemma {:induction false} Straddles(w: World, id: JobId, n: nat) returns (v: World)
    requires AtCommit(w, id)
    ensures Runs(w, Straddle(n)) && v == After(w, Straddle(n)) && Strayed(v, id)
  {
    var e := Straddle(n);
    var w2 := StraddlesFirst(w, id, n);
    RunTwoMore(w, [], e[0], e[1]);
    assert [] + [e[0], e[1]] == e[..2];
    v := StraddlesThen(w2, id, n);
    RunTwoMore(w, e[..2], e[2], e[3]);
    assert e[..2] + [e[2], e[3]] == e;
  }

  lemma {:induction false} ReloadsStray(w: World, id: JobId, k: nat) returns (v: World)
    requires Strayed(w, id)
    ensures Enabled(w, Load(true, true)) && Enabled(Next(w, Load(true, true)), SaveLoaded(k, Written))
    ensures v == Next(Next(w, Load(true, true)), SaveLoaded(k, Written))
    ensures v.mem.Some? && v.mem.value.stage.Loaded? && v.mem.value.job == id && id in v.disk.jobs
    ensures v.disk.control.serving == Some(id) && v.mem.value.state == Home && v.mem.value.root == Restored(id)
    ensures StateFile in FilesAt(v.disk, Restored(id)) && FilesAt(v.disk, Restored(id))[StateFile] == Blob(Home, k)
  {
    v := Next(Next(w, Load(true, true)), SaveLoaded(k, Written));
  }

  lemma {:induction false} FinishesStray(w: World, id: JobId) returns (v: World)
    requires w.mem.Some? && w.mem.value.stage.Loaded? && w.mem.value.job == id && id in w.disk.jobs
    ensures Enabled(w, FinishJob(true)) && v == Next(w, FinishJob(true))
    ensures id in v.disk.jobs && v.disk.jobs[id].state.Succeeded? && v.disk.control == w.disk.control && v.disk.roots == w.disk.roots
    ensures v.mem.Some? && v.mem.value.state == w.mem.value.state && v.mem.value.root == w.mem.value.root
  {
    v := Next(w, FinishJob(true));
  }

  lemma {:induction false} ReloadRuns(w: World, id: JobId, k: nat) returns (v: World)
    requires Strayed(w, id)
    ensures Runs(w, Reload(k)) && v == After(w, Reload(k))
    ensures id in v.disk.jobs && v.disk.jobs[id].state.Succeeded? && v.disk.control.serving == Some(id)
    ensures StateFile in FilesAt(v.disk, Restored(id)) && FilesAt(v.disk, Restored(id))[StateFile] == Blob(Home, k)
    ensures v.mem.Some? && v.mem.value.state == Home && v.mem.value.root == Restored(id)
  {
    var e := Reload(k);
    var saved := ReloadsStray(w, id, k);
    RunTwoMore(w, [], e[0], e[1]);
    assert [] + [e[0], e[1]] == e[..2];
    v := FinishesStray(saved, id);
    RunOneMore(w, e[..2], e[2]);
    assert e[..2] + [e[2]] == e;
  }

  /** A checkpoint that reads the state before the control write and writes it after,
      before the reload: the restore succeeds all the same, serving the new archive
      with the replaced archive's state, in memory and in its state file. */
  lemma {:induction false} StraddlingCheckpoint(start: World, id: JobId, discard: bool, n: nat, k: nat)
    requires Initial(start) && |RowsAt(start.disk, Home)| <= MAX_SOURCES
    ensures Runs(start, ToCommit(id, discard) + Straddle(n) + Reload(k))
    ensures var v := After(start, ToCommit(id, discard) + Straddle(n) + Reload(k));
      && id in v.disk.jobs && v.disk.jobs[id].state.Succeeded? && v.disk.control.serving == Some(id)
      && !Coherent(v.disk) && v.mem.Some? && v.mem.value.state == Home && v.mem.value.root == Restored(id)
  {
    var w := ReachesCommit(start, id, discard);
    var strayed := Straddles(w, id, n);
    RunConcat(start, ToCommit(id, discard), Straddle(n));
    var v := ReloadRuns(strayed, id, k);
    RunConcat(start, ToCommit(id, discard) + Straddle(n), Reload(k));
  }
}
