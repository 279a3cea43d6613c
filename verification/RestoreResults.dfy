/** What the restore protocol guarantees over every run, with crashes anywhere
    (archive/management.py; archive/management_authority.py; docs/input-archive.md). */
module RestoreResults {
  import opened Common
  import opened Authority
  import opened RestoreProtocol
  import opened RestoreSafety

  // ---------------------------------------------------------------- runs

  /** A new archive root, possibly with content from before it was managed. */
  ghost predicate Initial(w: World) {
    && w.mem.None? && w.published == []
    && w.disk.control == Control(0, None, map[], map[]) && w.disk.jobs == map[] && w.disk.backups == []
    && FilesAt(w.disk, Home).Keys == AllCore && (forall core :: core in AllCore ==> FilesAt(w.disk, Home)[core].origin == Home)
    && (forall r :: r in w.disk.rows ==> r == Home)
  }

  ghost predicate Runs(w: World, events: seq<Event>)
    decreases |events|
  {
    events == [] || (Enabled(w, events[0]) && Runs(Next(w, events[0]), events[1..]))
  }

  function After(w: World, events: seq<Event>): World
    requires Runs(w, events)
    decreases |events|
  {
    if events == [] then w else After(Next(w, events[0]), events[1..])
  }

  lemma {:induction false} RunOneMore(w: World, events: seq<Event>, e: Event)
    requires Runs(w, events) && Enabled(After(w, events), e)
    ensures Runs(w, events + [e]) && After(w, events + [e]) == Next(After(w, events), e)
    decreases |events|
  {
    if events == [] {
      assert [] + [e] == [e] && [e][1..] == [];
    } else {
      assert (events + [e])[1..] == events[1..] + [e];
      RunOneMore(Next(w, events[0]), events[1..], e);
    }
  }

  lemma {:induction false} RunConcat(w: World, a: seq<Event>, b: seq<Event>)
    requires Runs(w, a) && Runs(After(w, a), b)
    ensures Runs(w, a + b) && After(w, a + b) == After(After(w, a), b)
    decreases |a|
  {
    if a == [] {
      assert a + b == b;
    } else {
      assert (a + b)[1..] == a[1..] + b;
      RunConcat(Next(w, a[0]), a[1..], b);
    }
  }

  lemma {:induction false} InitialInv(w: World)
    requires Initial(w)
    ensures Inv(w)
  {}

  lemma {:induction false} RunInv(w: World, events: seq<Event>)
    requires Inv(w) && Runs(w, events)
    ensures Inv(After(w, events))
    decreases |events|
  {
    if events != [] {
      StepInv(w, events[0]);
      RunInv(Next(w, events[0]), events[1..]);
    }
  }

  // ---------------------------------------------------------------- what a step leaves alone

  ghost predicate SameControl(w: World, m: Memory, n: World) {
    n.disk.control == w.disk.control && (n.mem.Some? ==> n.mem.value.value == m.value && n.mem.value.root == m.root && n.mem.value.failed == m.failed)
  }

  lemma {:induction false} ServiceControl(w: World, m: Memory, e: Event)
    requires w.mem == Some(m) && EnabledIn(w.disk, m, e) && !e.Register? && !OfRestore(e)
    ensures SameControl(w, m, Step(w, m, e))
  {}

  lemma {:induction false} JobControl(w: World, m: Memory, e: Event)
    requires w.mem == Some(m) && EnabledIn(w.disk, m, e) && (e.Confirm? || e.CopyFile? || e.Clean? || e.Release?)
    ensures SameControl(w, m, Step(w, m, e))
  {
    if e.Clean? {
      CleanEffect(w.disk, e.id, e.core);
    }
  }

  lemma {:induction false} FinishControl(w: World, m: Memory, e: Event)
    requires w.mem == Some(m) && EnabledIn(w.disk, m, e) && (e.Record? || e.FinishJob?)
    ensures SameControl(w, m, Step(w, m, e))
  {}

  lemma {:induction false} LoadControl(w: World, m: Memory, e: Event)
    requires w.mem == Some(m) && EnabledIn(w.disk, m, e) && (e.Load? || e.SaveLoaded?)
    ensures SameControl(w, m, Step(w, m, e))
  {}

  lemma {:induction false} StageControl(w: World, m: Memory, e: Event)
    requires w.mem == Some(m) && EnabledIn(w.disk, m, e)
    requires e.Verified? || e.BeginGate? || e.LockPublisher? || e.Recheck? || e.Fence?
    ensures SameControl(w, m, Step(w, m, e))
  {}

  lemma {:induction false} ControlFrame(w: World, m: Memory, e: Event)
    requires w.mem == Some(m) && EnabledIn(w.disk, m, e) && !e.Register? && !e.Switch?
    ensures SameControl(w, m, Step(w, m, e))
  {
    if e.Confirm? || e.CopyFile? || e.Clean? || e.Release? {
      JobControl(w, m, e);
    } else if e.Load? || e.SaveLoaded? {
      LoadControl(w, m, e);
    } else if e.Record? || e.FinishJob? {
      FinishControl(w, m, e);
    } else if OfRestore(e) {
      StageControl(w, m, e);
    } else {
      ServiceControl(w, m, e);
    }
  }

  lemma {:induction false} PublishedFrame(w: World, m: Memory, e: Event)
    requires w.mem == Some(m) && EnabledIn(w.disk, m, e) && !e.PublishState?
    ensures Step(w, m, e).published == w.published
  {}

  /** The root whose files a step writes. */
  function Target(d: Disk, m: Memory, e: Event): Option<Root>
    requires EnabledIn(d, m, e)
  {
    match e
    case PublishFile(_, _) => Some(m.root)
    case PublishState(_) => Some(m.root)
    case PublishFailed(_) => Some(m.root)
    case EditFile(_, _) => Some(m.root)
    case SaveLoaded(_, _) => Some(m.root)
    case CheckpointWrite => m.checkpoint.value.path
    case Confirm(id, _, _) => Some(Restored(id))
    case CopyFile(_) => Some(Restored(m.job))
    case Clean(id, _) => d.jobs[id].oldContent
    case _ => None
  }

  lemma {:induction false} FilesFrame(w: World, m: Memory, e: Event)
    requires w.mem == Some(m) && EnabledIn(w.disk, m, e) && Target(w.disk, m, e).None?
    ensures Step(w, m, e).disk.roots == w.disk.roots && Step(w, m, e).disk.rows == w.disk.rows
  {}

  lemma {:induction false} FilesElsewhere(w: World, m: Memory, e: Event, r: Root)
    requires w.mem == Some(m) && EnabledIn(w.disk, m, e) && Target(w.disk, m, e) != Some(r)
    ensures FilesAt(Step(w, m, e).disk, r) == FilesAt(w.disk, r) && RowsAt(Step(w, m, e).disk, r) == RowsAt(w.disk, r)
  {
    if e.Clean? {
      CleanEffect(w.disk, e.id, e.core);
    } else if Target(w.disk, m, e).None? {
      FilesFrame(w, m, e);
    }
  }

  lemma {:induction false} CleanEffect(d: Disk, id: JobId, core: Core)
    requires id in d.jobs && d.jobs[id].oldContent.Some?
    ensures var after, replaced := CleanStep(d, id, core), d.jobs[id].oldContent.value;
      && FilesAt(after, replaced) == FilesAt(d, replaced) - {core}
      && (forall r :: r != replaced ==> FilesAt(after, r) == FilesAt(d, r))
      && after.control == d.control && after.backups == d.backups && after.rows == d.rows
  {}

  predicate ChangesJobs(e: Event) {
    e.Confirm? || e.Record? || e.FinishJob? || e.Release? || e.TakeBackup?
  }

  lemma {:induction false} JobFrame(w: World, m: Memory, e: Event)
    requires w.mem == Some(m) && EnabledIn(w.disk, m, e) && !e.Confirm?
    ensures var n := Step(w, m, e);
      && w.disk.backups <= n.disk.backups && n.disk.jobs.Keys == w.disk.jobs.Keys
      && (forall id :: id in w.disk.jobs ==> n.disk.jobs[id].backup == w.disk.jobs[id].backup)
  {
    if ChangesJobs(e) {
    } else {
      JobsAlone(w, m, e);
    }
  }

  lemma {:induction false} JobsAlone(w: World, m: Memory, e: Event)
    requires w.mem == Some(m) && EnabledIn(w.disk, m, e) && !ChangesJobs(e)
    ensures Step(w, m, e).disk.backups == w.disk.backups && Step(w, m, e).disk.jobs == w.disk.jobs
  {}

  lemma {:induction false} StageFrame(w: World, m: Memory, e: Event)
    requires w.mem == Some(m) && EnabledIn(w.disk, m, e) && !e.Confirm?
    ensures var n := Step(w, m, e);
      n.mem.Some? ==> n.mem.value.job == m.job && (BeforeCommit(n.mem.value.stage) ==> BeforeCommit(m.stage))
  {}

  // ---------------------------------------------------------------- nothing is taken back

  /** What the process goes by, or what the next one will. */
  function Known(w: World): Control {
    if w.mem.Some? then w.mem.value.value else w.disk.control
  }

  lemma {:induction false} ExtendsTrans(a: Control, b: Control, c: Control)
    requires Extends(a, b) && Extends(b, c)
    ensures Extends(a, c)
  {}

  lemma {:induction false} ExtendsSelf(c: Control)
    ensures Extends(c, c)
  {}

  lemma {:induction false} SwitchExtends(d: Disk, m: Memory, io: WriteIo)
    requires MemoryInv(d, m) && m.stage.Recorded?
    ensures Extends(m.value, SwitchStep(d, m, io).1.value)
  {
    ExtendsSelf(m.value);
    SwitchedWellFormed(m.value, m.job);
  }

  /** A start touches the control file only by seeding the history. */
  lemma {:induction false} StartControl(w: World, io: StartIo)
    requires WellFormed(w.disk.control) && |w.disk.control.sources| <= MAX_SOURCES
    ensures var c, v := w.disk.control, StartStep(w, io);
      && v.disk.control == SeedOf(Held(c, c, false), RowsAt(w.disk, RootOf(c)), io.seed).0.disk
      && Known(v) == v.disk.control && Extends(c, v.disk.control) && v.published == w.published
      && v.disk.control.generation == c.generation && RootOf(v.disk.control) == RootOf(c)
  {
    var c := w.disk.control;
    TrimFrame(w.disk, io.tails);
    SeedKeeps(Held(c, c, false), RowsAt(w.disk, RootOf(c)), io.seed);
    SeedValue(c, RowsAt(w.disk, RootOf(c)), io.seed);
  }

  lemma {:induction false} SeedValue(c: Control, seen: set<Source>, io: WriteIo)
    requires WellFormed(c) && |c.sources| <= MAX_SOURCES
    ensures var (held, ok) := SeedOf(Held(c, c, false), seen, io); ok ==> held.value == held.disk
  {}

  /** What a start does to the files: tails of the served root are cut, and its state
      file gets the state that was found in it. */
  ghost predicate StartWrites(d: Disk, v: Disk, io: StartIo) {
    var r := RootOf(d.control);
    var cut := Trimmed(FilesAt(d, r), io.tails);
    && v.rows == d.rows && v.backups == d.backups && (v.jobs == d.jobs || v.jobs == Settled(d.jobs, v.control))
    && (forall s :: s != r ==> FilesAt(v, s) == FilesAt(d, s))
    && (FilesAt(v, r) == cut || FilesAt(v, r) == cut[StateFile := Blob(StateOf(d, r), io.n)])
  }

  lemma {:induction false} SaveWrites(d: Disk, n: nat, save: WriteIo, published: seq<(Source, nat)>)
    ensures var v, r := SaveStep(d, n, save, published).disk, RootOf(d.control);
      && v.control == d.control && v.rows == d.rows && v.backups == d.backups && v.jobs == d.jobs
      && (forall s :: s != r ==> FilesAt(v, s) == FilesAt(d, s))
      && (FilesAt(v, r) == FilesAt(d, r) || FilesAt(v, r) == FilesAt(d, r)[StateFile := Blob(StateOf(d, r), n)])
  {}

  lemma {:induction false} SettleFrame(d: Disk, seed: WriteIo)
    requires WellFormed(d.control) && |d.control.sources| <= MAX_SOURCES
    ensures var (v, ok) := SettleStep(d, seed);
      && v.rows == d.rows && v.backups == d.backups && v.roots == d.roots && RootOf(v.control) == RootOf(d.control)
      && v.jobs == (if ok then Settled(d.jobs, v.control) else d.jobs)
  {
    SeedKeeps(Held(d.control, d.control, false), RowsAt(d, RootOf(d.control)), seed);
  }

  lemma {:induction false} StartDisk(w: World, io: StartIo)
    requires WellFormed(w.disk.control) && |w.disk.control.sources| <= MAX_SOURCES
    ensures StartWrites(w.disk, StartStep(w, io).disk, io)
    ensures var v := StartStep(w, io);
      v.mem.Some? ==> v.disk.jobs == Settled(w.disk.jobs, v.disk.control)
  {
    var d := TrimStep(w.disk, io.tails);
    TrimFrame(w.disk, io.tails);
    SettleFrame(d, io.seed);
    SaveWrites(SettleStep(d, io.seed).0, io.n, io.save, w.published);
  }

  lemma {:induction false} SomeExtends(w: World, m: Memory, e: Event)
    requires w.mem == Some(m) && EnabledIn(w.disk, m, e) && Consistent(HeldOf(w.disk, m)) && !e.Switch?
    ensures Extends(m.value, Known(Step(w, m, e)))
  {
    ExtendsSelf(m.value);
    if e.Register? {
      RegisterKeeps(HeldOf(w.disk, m), e.source, e.write);
    } else {
      ControlFrame(w, m, e);
    }
  }

  lemma {:induction false} StepExtends(w: World, e: Event)
    requires Inv(w) && Enabled(w, e)
    ensures Extends(Known(w), Known(Next(w, e)))
  {
    match w.mem
    case None => StartControl(w, e.start);
    case Some(m) => NextExtends(w, m, e);
  }

  lemma {:induction false} NextExtends(w: World, m: Memory, e: Event)
    requires w.mem == Some(m) && EnabledIn(w.disk, m, e) && MemoryInv(w.disk, m)
    ensures Extends(m.value, Known(Step(w, m, e)))
  {
    if e.Switch? {
      SwitchExtends(w.disk, m, e.write);
      StepSwitch(w, m, e.write);
    } else {
      SomeExtends(w, m, e);
    }
  }

  lemma {:induction false} StepSwitch(w: World, m: Memory, io: WriteIo)
    requires w.mem == Some(m) && EnabledIn(w.disk, m, Switch(io))
    ensures var (disk, mem) := SwitchStep(w.disk, m, io); Step(w, m, Switch(io)) == World(disk, Some(mem), w.published)
  {}

  lemma {:induction false} RunExtends(w: World, events: seq<Event>)
    requires Inv(w) && Runs(w, events)
    ensures Extends(Known(w), Known(After(w, events)))
    decreases |events|
  {
    if events == [] {
      ExtendsSelf(Known(w));
    } else {
      StepInv(w, events[0]);
      StepExtends(w, events[0]);
      RunExtends(Next(w, events[0]), events[1..]);
      ExtendsTrans(Known(w), Known(Next(w, events[0])), Known(After(w, events)));
    }
  }

  /** A source registered before the serving generation is never allowed again, over
      any later run: registrations, restores, crashes and restarts included. */
  lemma {:induction false} FencedForever(w: World, events: seq<Event>, s: Source)
    requires Inv(w) && Runs(w, events)
    requires s in Known(w).sources && Known(w).sources[s] < Known(w).generation
    ensures var v := After(w, events);
      v.mem.Some? ==> !Allowed(HeldOf(v.disk, v.mem.value), s)
  {
    RunExtends(w, events);
  }

  // ---------------------------------------------------------------- published rows

  ghost predicate AllFrom(p: seq<(Source, nat)>, n: nat, g: nat) {
    n <= |p| && forall i :: n <= i < |p| ==> p[i].1 >= g
  }

  lemma {:induction false} PublishedGenerations(batch: seq<Source>, g: nat)
    ensures |PublishRows(batch, g)| == |batch| && forall i :: 0 <= i < |batch| ==> PublishRows(batch, g)[i] == (batch[i], g)
  {
    if batch != [] {
      PublishedGenerations(batch[..|batch| - 1], g);
    }
  }

  lemma {:induction false} EndPublishes(w: World, m: Memory, e: Event)
    requires w.mem == Some(m) && EnabledIn(w.disk, m, e) && e.PublishState? && m.value.generation == w.disk.control.generation
    ensures w.published <= Step(w, m, e).published
    ensures AllFrom(Step(w, m, e).published, |w.published|, w.disk.control.generation)
  {
    PublishedGenerations(m.inflight, m.value.generation);
  }

  lemma {:induction false} GenerationKept(w: World, m: Memory, e: Event)
    requires w.mem == Some(m) && EnabledIn(w.disk, m, e) && Consistent(HeldOf(w.disk, m))
    requires e.Switch? ==> m.value.generation == w.disk.control.generation
    ensures w.disk.control.generation <= Step(w, m, e).disk.control.generation
  {
    if e.Register? {
      RegisterKeeps(HeldOf(w.disk, m), e.source, e.write);
    } else if !e.Switch? {
      ControlFrame(w, m, e);
    }
  }

  /** A step adds only rows of the serving generation or a later one. */
  ghost predicate AddsFrom(w: World, v: World) {
    && w.published <= v.published && AllFrom(v.published, |w.published|, w.disk.control.generation)
    && w.disk.control.generation <= v.disk.control.generation
  }

  lemma {:induction false} NextPublishes(w: World, m: Memory, e: Event)
    requires w.mem == Some(m) && EnabledIn(w.disk, m, e) && Consistent(HeldOf(w.disk, m)) && LagFits(w.disk.control, m)
    requires e.Switch? ==> m.value.generation == w.disk.control.generation
    requires m.mutex.Publisher? ==> m.inflight != []
    ensures AddsFrom(w, Next(w, e))
  {
    GenerationKept(w, m, e);
    if e.PublishState? {
      assert Extends(m.value, w.disk.control);
      EndPublishes(w, m, e);
    } else {
      PublishedFrame(w, m, e);
    }
  }

  lemma {:induction false} StepPublishes(w: World, e: Event)
    requires Inv(w) && Enabled(w, e)
    ensures AddsFrom(w, Next(w, e))
  {
    match w.mem
    case None => StartPublishes(w, e.start);
    case Some(m) =>
      PublishFacts(w.disk, m, e);
      NextPublishes(w, m, e);
  }

  lemma {:induction false} PublishFacts(d: Disk, m: Memory, e: Event)
    requires MemoryInv(d, m) && EnabledIn(d, m, e)
    ensures Consistent(HeldOf(d, m)) && LagFits(d.control, m) && (m.mutex.Publisher? ==> m.inflight != [])
    ensures e.Switch? ==> m.value.generation == d.control.generation
  {}

  lemma {:induction false} StartPublishes(w: World, io: StartIo)
    requires WellFormed(w.disk.control) && |w.disk.control.sources| <= MAX_SOURCES
    ensures AddsFrom(w, StartStep(w, io))
  {
    StartControl(w, io);
  }

  lemma {:induction false} RunPublishes(w: World, events: seq<Event>)
    requires Inv(w) && Runs(w, events)
    ensures w.published <= After(w, events).published
    ensures AllFrom(After(w, events).published, |w.published|, w.disk.control.generation)
    decreases |events|
  {
    if events != [] {
      var next := Next(w, events[0]);
      StepInv(w, events[0]);
      StepPublishes(w, events[0]);
      RunPublishes(next, events[1..]);
      var p := After(w, events).published;
      forall i | |w.published| <= i < |p| ensures p[i].1 >= w.disk.control.generation {
        if i < |next.published| {
          assert p[i] == next.published[i];
        }
      }
    }
  }

  /** Fencing over every interleaving: rows published once generation g serves come
      from sources registered at g or later, each at exactly the generation that
      served when it was published, and generations never go down. */
  lemma {:induction false} PublishedAfterSwitch(start: World, before: seq<Event>, later: seq<Event>)
    requires Initial(start) && Runs(start, before) && Runs(After(start, before), later)
    ensures var w := After(start, before);
      var v := After(w, later);
      && w.published <= v.published
      && (forall i :: |w.published| <= i < |v.published| ==> v.published[i].1 >= w.disk.control.generation)
      && (forall i :: 0 <= i < |v.published| ==>
            v.published[i].0 in v.disk.control.sources && v.disk.control.sources[v.published[i].0] == v.published[i].1)
      && (forall i, j :: 0 <= i < j < |v.published| ==> v.published[i].1 <= v.published[j].1)
  {
    InitialInv(start);
    RunInv(start, before);
    RunInv(After(start, before), later);
    RunPublishes(After(start, before), later);
  }

  // ---------------------------------------------------------------- the commit point

  /** When the control write happens admission is fenced, nothing is queued or being
      published, no reader holds a lease, and the content about to be replaced is the
      confirmed one in every core file but the state file, at the confirmed
      generation. */
  lemma {:induction false} CommitPoint(w: World, io: WriteIo)
    requires Inv(w) && Enabled(w, Switch(io))
    ensures var m := w.mem.value;
      && m.transition && m.queue == [] && m.inflight == [] && m.writer && m.readers == 0 && m.mutex.Switcher?
      && m.job in w.disk.jobs && m.job !in w.disk.control.committed
      && SameContent(FilesAt(w.disk, m.root), w.disk.jobs[m.job].current)
      && m.value.generation == w.disk.control.generation == w.disk.jobs[m.job].generation
      && w.disk.jobs[m.job].oldContent == Some(m.root) && m.root == RootOf(m.value)
  {}

  predicate PastRecheck(s: Stage) {
    s in {Rechecked, Fencing, Recorded}
  }

  /** From the recheck to the control write the replaced content is the confirmed one,
      file by file and byte by byte. */
  predicate Frontier(w: World) {
    match w.mem
    case None => true
    case Some(m) => PastRecheck(m.stage) ==> m.job in w.disk.jobs && FilesAt(w.disk, m.root) == w.disk.jobs[m.job].current
  }

  /** A checkpoint writes another state file over the content that was rechecked. */
  predicate Rewrites(w: World, e: Event)
    requires Enabled(w, e)
  {
    match w.mem
    case None => false
    case Some(m) =>
      && PastRecheck(m.stage) && e.CheckpointWrite? && m.checkpoint.value.path == Some(m.root)
      && StateFile in FilesAt(w.disk, m.root) && FilesAt(w.disk, m.root)[StateFile] != m.checkpoint.value.blob
  }

  lemma {:induction false} StagePast(w: World, m: Memory, e: Event)
    requires w.mem == Some(m) && EnabledIn(w.disk, m, e)
    ensures var n := Step(w, m, e).mem;
      n.Some? && PastRecheck(n.value.stage) ==>
        (e.Recheck? || PastRecheck(m.stage)) && n.value.job == m.job && n.value.root == m.root
  {}

  lemma {:induction false} CurrentKept(w: World, m: Memory, e: Event)
    requires w.mem == Some(m) && EnabledIn(w.disk, m, e) && !e.Confirm? && m.job in w.disk.jobs
    ensures m.job in Step(w, m, e).disk.jobs && Step(w, m, e).disk.jobs[m.job].current == w.disk.jobs[m.job].current
  {
    if !ChangesJobs(e) {
      JobsAlone(w, m, e);
    }
  }

  /** Which steps can write the served root while admission is being fenced. */
  lemma {:induction false} TargetPast(d: Disk, m: Memory, e: Event)
    requires LocksFit(m) && EnabledIn(d, m, e) && PastRecheck(m.stage) && m.root != Restored(m.job)
    ensures Target(d, m, e) == Some(m.root) ==> e.CheckpointWrite?
    ensures !e.Confirm?
  {}

  lemma {:induction false} CheckpointEffect(w: World, m: Memory)
    requires w.mem == Some(m) && EnabledIn(w.disk, m, CheckpointWrite) && m.checkpoint.value.path == Some(m.root)
    ensures FilesAt(Step(w, m, CheckpointWrite).disk, m.root) == FilesAt(w.disk, m.root)[StateFile := m.checkpoint.value.blob]
  {}

  lemma {:induction false} ServedHasState(d: Disk, m: Memory)
    requires MemoryInv(d, m) && DiskInv(d) && m.value.generation == d.control.generation
    ensures StateFile in FilesAt(d, m.root)
  {
    assert StateFile in AllCore;
    SameServing(m.value, d.control);
  }

  lemma {:induction false} SameServing(v: Control, c: Control)
    requires WellFormed(v) && WellFormed(c) && Extends(v, c) && v.generation == c.generation
    ensures RootOf(v) == RootOf(c)
  {
    if v.serving.Some? {
      assert c.committed[v.serving.value] == c.generation;
    }
  }

  lemma {:induction false} PastFacts(d: Disk, m: Memory)
    requires DiskInv(d) && MemoryInv(d, m) && PastRecheck(m.stage)
    ensures m.root != Restored(m.job) && StateFile in FilesAt(d, m.root) && LocksFit(m) && m.job in d.jobs
  {
    OwnRootServes(d.control, m.value, m.failed, m.job);
    ServedHasState(d, m);
  }

  /** A step that stays past the recheck and does not write the served root. */
  lemma {:induction false} PastElsewhere(w: World, m: Memory, e: Event)
    requires w.mem == Some(m) && EnabledIn(w.disk, m, e) && PastRecheck(m.stage) && !e.Confirm? && m.job in w.disk.jobs
    requires Target(w.disk, m, e) != Some(m.root) && FilesAt(w.disk, m.root) == w.disk.jobs[m.job].current
    requires Step(w, m, e).mem.Some? && PastRecheck(Step(w, m, e).mem.value.stage)
    ensures Frontier(Step(w, m, e))
  {
    FilesElsewhere(w, m, e, m.root);
    CurrentKept(w, m, e);
    StagePast(w, m, e);
  }

  lemma {:induction false} PastCheckpoint(w: World, m: Memory)
    requires w.mem == Some(m) && EnabledIn(w.disk, m, CheckpointWrite) && PastRecheck(m.stage) && m.job in w.disk.jobs
    requires m.checkpoint.value.path == Some(m.root) && StateFile in FilesAt(w.disk, m.root)
    requires FilesAt(w.disk, m.root) == w.disk.jobs[m.job].current
    ensures Frontier(Step(w, m, CheckpointWrite)) <==> FilesAt(w.disk, m.root)[StateFile] == m.checkpoint.value.blob
  {
    CheckpointEffect(w, m);
    var f, b := FilesAt(w.disk, m.root), m.checkpoint.value.blob;
    if f[StateFile] == b {
      assert f[StateFile := b] == f;
    } else {
      assert f[StateFile := b][StateFile] != f[StateFile];
    }
  }

  lemma {:induction false} PastFrontier(w: World, m: Memory, e: Event)
    requires w.mem == Some(m) && Frontier(w) && EnabledIn(w.disk, m, e) && PastRecheck(m.stage)
    requires m.root != Restored(m.job) && StateFile in FilesAt(w.disk, m.root) && LocksFit(m) && m.job in w.disk.jobs
    requires Step(w, m, e).mem.Some? && PastRecheck(Step(w, m, e).mem.value.stage)
    ensures Frontier(Step(w, m, e)) <==> !Rewrites(w, e)
  {
    TargetPast(w.disk, m, e);
    if Target(w.disk, m, e) == Some(m.root) {
      PastCheckpoint(w, m);
    } else {
      PastElsewhere(w, m, e);
    }
  }

  /** The exact condition under which the confirmed frontier survives to the commit:
      it is lost by nothing but a checkpoint that rewrites the state file in between. */
  lemma {:induction false} FrontierIff(w: World, e: Event)
    requires Inv(w) && Frontier(w) && Enabled(w, e)
    ensures Frontier(Next(w, e)) <==> !Rewrites(w, e)
  {
    match w.mem
    case None =>
    case Some(m) =>
      StagePast(w, m, e);
      var n := Step(w, m, e).mem;
      if n.Some? && PastRecheck(n.value.stage) {
        if e.Recheck? {
          RecheckPins(w, m);
        } else {
          PastFacts(w.disk, m);
          PastFrontier(w, m, e);
        }
      } else if PastRecheck(m.stage) {
        NoRewrite(w, m, e);
      }
  }

  lemma {:induction false} RecheckPins(w: World, m: Memory)
    requires w.mem == Some(m) && EnabledIn(w.disk, m, Recheck)
    ensures Frontier(Step(w, m, Recheck))
  {}

  lemma {:induction false} NoRewrite(w: World, m: Memory, e: Event)
    requires w.mem == Some(m) && EnabledIn(w.disk, m, e) && PastRecheck(m.stage)
    requires Step(w, m, e).mem.Some? ==> !PastRecheck(Step(w, m, e).mem.value.stage)
    ensures !Rewrites(w, e)
  {}

  ghost predicate NeverRewrites(w: World, events: seq<Event>)
    requires Runs(w, events)
    decreases |events|
  {
    events == [] || (!Rewrites(w, events[0]) && NeverRewrites(Next(w, events[0]), events[1..]))
  }

  lemma {:induction false} RunFrontier(w: World, events: seq<Event>)
    requires Inv(w) && Frontier(w) && Runs(w, events) && NeverRewrites(w, events)
    ensures Frontier(After(w, events))
    decreases |events|
  {
    if events != [] {
      StepInv(w, events[0]);
      FrontierIff(w, events[0]);
      RunFrontier(Next(w, events[0]), events[1..]);
    }
  }

  /** Over a run in which no checkpoint rewrote a rechecked state file, the content the
      control write replaces is exactly the confirmed frontier. */
  lemma {:induction false} CommitReplacesFrontier(start: World, events: seq<Event>, io: WriteIo)
    requires Initial(start) && Runs(start, events) && NeverRewrites(start, events) && Enabled(After(start, events), Switch(io))
    ensures var w := After(start, events);
      w.mem.value.job in w.disk.jobs && FilesAt(w.disk, w.mem.value.root) == w.disk.jobs[w.mem.value.job].current
  {
    ReachedFrontier(start, events);
    FrontierMeans(After(start, events), io);
  }

  lemma {:induction false} ReachedFrontier(start: World, events: seq<Event>)
    requires Initial(start) && Runs(start, events) && NeverRewrites(start, events)
    ensures Frontier(After(start, events))
  {
    InitialInv(start);
    RunFrontier(start, events);
  }

  lemma {:induction false} FrontierMeans(w: World, io: WriteIo)
    requires Frontier(w) && Enabled(w, Switch(io))
    ensures w.mem.value.job in w.disk.jobs && FilesAt(w.disk, w.mem.value.root) == w.disk.jobs[w.mem.value.job].current
  {}
}
