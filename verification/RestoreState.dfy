/** Whether the state file in service describes the archive it lies in, over every
    interleaving of checkpoints with a restore (archive/collector.py, _persist_state;
    archive/management.py, _restore_switch). */
module RestoreState {
  import opened Common
  import opened Authority
  import opened RestoreProtocol
  import opened RestoreSafety
  import opened RestoreResults
  import opened RestoreServing

  /** The state file a restart would load describes the archive it is in. */
  predicate Describes(d: Disk, r: Root) {
    StateFile in FilesAt(d, r) && FilesAt(d, r)[StateFile].origin == r
  }

  predicate Coherent(d: Disk) {
    Describes(d, RootOf(d.control))
  }

  /** The state in memory is of the served archive, but for the time from a landed
      switch to the reload, when nothing can be published. */
  predicate StateFits(m: Memory) {
    && (m.maintenance ==> m.stage.NoRestore?)
    && (m.state != m.root ==>
          m.queue == [] && m.inflight == [] && ((m.stage in {Switching, Broken} && m.job in m.value.committed) || m.maintenance))
  }

  ghost predicate Fits(w: World) {
    Coherent(w.disk) && (w.mem.Some? ==> StateFits(w.mem.value))
  }

  /** A checkpoint writes the state of one archive into the serving root of another. */
  predicate Strays(w: World, e: Event)
    requires Enabled(w, e)
  {
    match w.mem
    case None => false
    case Some(m) =>
      e.CheckpointWrite? && m.checkpoint.value.path == Some(RootOf(w.disk.control))
      && m.checkpoint.value.blob.origin != RootOf(w.disk.control)
  }

  lemma {:induction false} ServiceFits(w: World, m: Memory, e: Event)
    requires w.mem == Some(m) && EnabledIn(w.disk, m, e) && StateFits(m) && LocksFit(m) && !OfRestore(e)
    ensures Step(w, m, e).mem.Some? ==> StateFits(Step(w, m, e).mem.value)
  {}

  /** The steps of a restore that can touch the state in memory or give up the locks. */
  predicate Reloads(e: Event) {
    e.Switch? || e.Load? || e.SaveLoaded? || e.FinishJob? || e.Release?
  }

  lemma {:induction false} PreparesFits(w: World, m: Memory, e: Event)
    requires w.mem == Some(m) && EnabledIn(w.disk, m, e) && StateFits(m) && OfRestore(e) && !Reloads(e)
    ensures Step(w, m, e).mem.Some? ==> StateFits(Step(w, m, e).mem.value)
  {}

  lemma {:induction false} ReloadsFits(w: World, m: Memory, e: Event)
    requires w.mem == Some(m) && EnabledIn(w.disk, m, e) && StateFits(m) && LocksFit(m) && Reloads(e)
    requires e.Load? ==> Describes(w.disk, m.root)
    requires JobFits(w.disk.control, w.disk.jobs, w.disk.roots, m)
    ensures Step(w, m, e).mem.Some? ==> StateFits(Step(w, m, e).mem.value)
  {
    if e.Release? {
      ReleaseFits(w, m);
    } else if e.Switch? {
      SwitchFits(w, m, e.write);
    }
  }

  lemma {:induction false} ReleaseFits(w: World, m: Memory)
    requires w.mem == Some(m) && EnabledIn(w.disk, m, Release) && StateFits(m) && LocksFit(m)
    requires JobFits(w.disk.control, w.disk.jobs, w.disk.roots, m)
    ensures Step(w, m, Release).mem.Some? && StateFits(Step(w, m, Release).mem.value)
  {}

  lemma {:induction false} SwitchFits(w: World, m: Memory, io: WriteIo)
    requires w.mem == Some(m) && EnabledIn(w.disk, m, Switch(io)) && StateFits(m) && LocksFit(m)
    ensures Step(w, m, Switch(io)).mem.Some? && StateFits(Step(w, m, Switch(io)).mem.value)
  {}

  /** The process serves what the disk says, unless it lags behind an uncertain switch. */
  lemma {:induction false} RootServes(c: Control, m: Memory)
    requires Consistent(Held(c, m.value, m.failed)) && LagFits(c, m) && m.root == RootOf(m.value)
    ensures m.root == RootOf(c) || (m.failed && m.queue == [] && m.inflight == [] && (m.stage.Broken? || m.maintenance))
  {
    if m.value.generation == c.generation {
      SameServing(m.value, c);
    }
  }

  /** While it reloads it does not lag. */
  lemma {:induction false} ReloadsServed(d: Disk, m: Memory)
    requires MemoryInv(d, m) && StateFits(m) && m.stage.Switching?
    ensures m.root == RootOf(d.control)
  {
    RootServes(d.control, m);
  }

  // ---------------------------------------------------------------- one step

  lemma {:induction false} WrittenDescribes(d: Disk, r: Root, b: Blob)
    ensures Describes(WithFile(d, r, StateFile, b), r) <==> b.origin == r
    ensures forall s :: s != r ==> (Describes(WithFile(d, r, StateFile, b), s) <==> Describes(d, s))
  {}

  /** Steps that write no state file keep what the serving one describes. */
  lemma {:induction false} UntouchedState(w: World, e: Event)
    requires Inv(w) && Copies(w) && Coherent(w.disk) && Enabled(w, e) && !Touches(e, StateFile)
    ensures Coherent(Next(w, e).disk)
  {
    OldOrNew(w, e, StateFile);
  }

  /** Steps of the service write the state of the root they write it to. */
  lemma {:induction false} ServiceState(w: World, m: Memory, e: Event)
    requires w.mem == Some(m) && EnabledIn(w.disk, m, e) && Coherent(w.disk) && m.state == m.root
    requires e.PublishState? || e.PublishFailed? || e.SaveLoaded?
    ensures Coherent(Step(w, m, e).disk)
  {
    WrittenDescribes(w.disk, m.root, Blob(m.state, e.n));
  }

  lemma {:induction false} CheckpointState(w: World, m: Memory)
    requires w.mem == Some(m) && EnabledIn(w.disk, m, CheckpointWrite) && Coherent(w.disk)
    ensures Coherent(Step(w, m, CheckpointWrite).disk) <==> !Strays(w, CheckpointWrite)
  {
    WrittenDescribes(w.disk, m.checkpoint.value.path.value, m.checkpoint.value.blob);
  }

  lemma {:induction false} WriterFits(m: Memory, e: Event, d: Disk)
    requires StateFits(m) && LocksFit(m) && EnabledIn(d, m, e) && (e.PublishState? || e.PublishFailed? || e.SaveLoaded?)
    ensures m.state == m.root
  {}

  lemma {:induction false} MemoryFits(w: World, m: Memory, e: Event)
    requires Inv(w) && Fits(w) && w.mem == Some(m) && EnabledIn(w.disk, m, e)
    ensures Step(w, m, e).mem.Some? ==> StateFits(Step(w, m, e).mem.value)
  {
    if e.Load? {
      ReloadsServed(w.disk, m);
    }
    if Reloads(e) {
      ReloadsFits(w, m, e);
    } else if OfRestore(e) {
      PreparesFits(w, m, e);
    } else {
      ServiceFits(w, m, e);
    }
  }

  lemma {:induction false} StepCoherent(w: World, m: Memory, e: Event)
    requires Inv(w) && Copies(w) && Fits(w) && w.mem == Some(m) && EnabledIn(w.disk, m, e)
    ensures Coherent(Next(w, e).disk) <==> !Strays(w, e)
  {
    if e.CheckpointWrite? {
      CheckpointState(w, m);
    } else if Touches(e, StateFile) {
      WriterFits(m, e, w.disk);
      ServiceState(w, m, e);
    } else {
      UntouchedState(w, e);
    }
  }

  /** A start-up writes back the state it found. */
  lemma {:induction false} StartDescribes(d: Disk, v: Disk, io: StartIo)
    requires StartWrites(d, v, io) && RootOf(v.control) == RootOf(d.control) && Coherent(d)
    ensures Coherent(v)
  {}

  lemma {:induction false} StartFits(w: World, io: StartIo)
    requires Inv(w) && Coherent(w.disk) && w.mem.None?
    ensures Fits(StartStep(w, io))
  {
    StartControl(w, io);
    StartDisk(w, io);
    StartDescribes(w.disk, StartStep(w, io).disk, io);
  }

  /** The exact condition: the state file in service stops describing its archive by
      nothing but a checkpoint that writes another archive's state into it. */
  lemma {:induction false} CoherentIff(w: World, e: Event)
    requires Inv(w) && Copies(w) && Fits(w) && Enabled(w, e)
    ensures Fits(Next(w, e)) <==> Coherent(Next(w, e).disk)
    ensures Coherent(Next(w, e).disk) <==> !Strays(w, e)
  {
    match w.mem
    case None => StartFits(w, e.start);
    case Some(m) =>
      MemoryFits(w, m, e);
      StepCoherent(w, m, e);
  }

  ghost predicate NeverStrays(w: World, events: seq<Event>)
    requires Runs(w, events)
    decreases |events|
  {
    events == [] || (!Strays(w, events[0]) && NeverStrays(Next(w, events[0]), events[1..]))
  }

  lemma {:induction false} FitsNext(w: World, e: Event) returns (v: World)
    requires Inv(w) && Copies(w) && Fits(w) && Enabled(w, e) && !Strays(w, e)
    ensures v == Next(w, e) && Inv(v) && Copies(v) && Fits(v)
  {
    CoherentIff(w, e);
    StepInv(w, e);
    StepCopies(w, e);
    v := Next(w, e);
  }

  lemma {:induction false} RunFits(w: World, events: seq<Event>)
    requires Inv(w) && Copies(w) && Fits(w) && Runs(w, events) && NeverStrays(w, events)
    ensures Fits(After(w, events))
    decreases |events|
  {
    if events != [] {
      var v := FitsNext(w, events[0]);
      RunFits(v, events[1..]);
    }
  }

  lemma {:induction false} InitialFits(start: World)
    requires Initial(start)
    ensures Inv(start) && Copies(start) && Fits(start)
  {
    InitialInv(start);
    assert StateFile in AllCore && StateFile in FilesAt(start.disk, Home).Keys;
  }

  /** Over every run in which no checkpoint strays the state file in service describes
      its archive at every moment. */
  lemma {:induction false} CoherentRun(start: World, events: seq<Event>)
    requires Initial(start) && Runs(start, events) && NeverStrays(start, events)
    ensures Coherent(After(start, events).disk)
  {
    InitialFits(start);
    RunFits(start, events);
  }

  // ---------------------------------------------------------------- which checkpoints can stray

  /** The checkpoint under way reads and writes the archive in service. */
  predicate Straight(m: Memory) {
    match m.checkpoint
    case None => true
    case Some(k) => k.blob.origin == m.root && (k.path.Some? ==> k.path.value == m.root)
  }

  /** A checkpoint begun with the served archive's own state stays straight until a
      control write lands: only one that straddles a switch, or begins before the
      reload after it, can stray. */
  lemma {:induction false} StraightUntilSwitch(w: World, m: Memory, e: Event)
    requires w.mem == Some(m) && EnabledIn(w.disk, m, e) && Straight(m) && !(e.Switch? && e.write.Written?)
    requires e.CheckpointCopy? ==> m.state == m.root
    ensures Step(w, m, e).mem.Some? ==> Straight(Step(w, m, e).mem.value)
    ensures !Strays(w, e)
  {}

  /** A stray write that comes after the reload and before the state is saved is undone
      by the save. */
  lemma {:induction false} SaveHeals(w: World, n: nat)
    requires w.mem.Some? && w.mem.value.stage.Reloaded?
    requires w.mem.value.state == w.mem.value.root == RootOf(w.disk.control)
    ensures Enabled(w, SaveLoaded(n, Written)) && Coherent(Next(w, SaveLoaded(n, Written)).disk)
  {
    WrittenDescribes(w.disk, w.mem.value.root, Blob(w.mem.value.state, n));
  }
}
