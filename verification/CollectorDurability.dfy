/** What the disk holds over whole runs of the collector: the rows of the last
    durable watermark, each identity once, within the capacity, recovered exactly by
    any restart (archive/collector.py; docs/input-archive.md). */
module CollectorDurability {
  import opened Common
  import opened Lines
  import opened CollectorQueue
  import opened ArchiveFile
  import opened CollectorPublish
  import opened CollectorRuns
  import opened CollectorClaims

  // ---------------------------------------------------------------- the invariant

  ghost predicate Marks(c: Codec, l: Ledger, rows: seq<Record>, limits: Limits) {
    && l.durableSeq == |rows| && l.durableOffset == l.durableBytes == |Encode(c, rows)|
    && l.durableBytes + l.quarantineBytes <= limits.capacity
  }

  /** What readers see: the ledger, the index and consecutive numbers. */
  ghost predicate Shown(c: Codec, r: Running, limits: Limits) {
    Marks(c, r.m.ledger, r.rows, limits) && r.index == IndexOf(c, r.rows) && Numbered(r.rows)
  }

  ghost predicate PlanFits(c: Codec, r: Running, limits: Limits) {
    match r.phase
    case Planning(_, plan) =>
      && plan.nextSeq == |r.rows| + |plan.records|
      && plan.used == r.m.ledger.durableBytes + r.m.ledger.quarantineBytes + |Encode(c, plan.records)| + |EncodeHeld(c, plan.held)|
      && plan.used <= limits.capacity
    case Staged(plan, pending) => Marks(c, pending, r.rows + plan.records, limits)
    case Written(plan, pending) => Marks(c, pending, r.rows + plan.records, limits)
    case Idle => true
    case Failed => true
    case Dead(_) => true
  }

  /** The observations file and the durable rows, phase by phase. */
  ghost predicate FileFits(c: Codec, d: Disk, log: seq<Record>, r: Running) {
    var planned := r.rows + PlanOf(r.phase).records;
    if r.phase.Staged? then log == r.rows && d.observations == Encode(c, planned)
    else if r.phase.Written? then log == planned && d.observations == Encode(c, planned)
    else if r.phase.Dead? then
      (log == r.rows || log == planned) && Encode(c, r.rows) <= d.observations && Encode(c, log) <= d.observations
    else log == r.rows && d.observations == Encode(c, r.rows)
  }

  ghost predicate RunInv(c: Codec, r: Running, limits: Limits) {
    Shown(c, r, limits) && PlanFits(c, r, limits) && PlanRows(r) && Good(r.m.identities, Claims(r))
  }

  ghost predicate Inv(c: Codec, w: World, limits: Limits) {
    && UniqueRows(w.log) && Publishes(c, w.disk, w.log)
    && (match w.disk.saved
        case None => w.run.None? && w.disk.observations == [] && w.disk.quarantine == []
        case Some(l) => l.durableBytes + l.quarantineBytes <= limits.capacity)
    && (w.run.Some? ==> RunInv(c, w.run.value, limits) && FileFits(c, w.disk, w.log, w.run.value))
  }

  /** The append of observation lines lands whole or raises having added nothing. */
  predicate Faithful(e: Event) {
    e.Append? ==> e.rows.Whole? || e.rows == Raised([])
  }

  // ---------------------------------------------------------------- steps of the process

  lemma {:induction false} AcceptKeepsMarks(m: Memory, o: Observation, gate: Gate, ticket: nat, limits: Limits)
    ensures var l := AcceptOf(m, o, gate, ticket, limits).0.ledger;
      && l.durableSeq == m.ledger.durableSeq && l.durableOffset == m.ledger.durableOffset
      && l.durableBytes == m.ledger.durableBytes && l.quarantineBytes == m.ledger.quarantineBytes
  {}

  lemma {:induction false} AcceptInv(c: Codec, r: Running, o: Observation, gate: Gate, limits: Limits)
    requires RunInv(c, r, limits)
    ensures RunInv(c, AcceptStep(r, o, gate, limits), limits)
  {
    AcceptKeepsMarks(r.m, o, gate, r.tally.inserted, limits);
    AcceptClaims(r, o, gate, limits);
  }

  lemma {:induction false} TakeInv(c: Codec, r: Running, limits: Limits)
    requires RunInv(c, r, limits) && r.phase.Idle?
    ensures RunInv(c, TakeStep(r, limits), limits)
  {
    TakeClaims(r, limits);
    TakeFits(c, r, limits);
  }

  lemma {:induction false} TakeFits(c: Codec, r: Running, limits: Limits)
    requires Shown(c, r, limits) && r.phase.Idle?
    ensures Shown(c, TakeStep(r, limits), limits) && PlanFits(c, TakeStep(r, limits), limits) && PlanRows(TakeStep(r, limits))
  {}

  lemma {:induction false} EncodeOne(c: Codec, records: seq<Record>, r: Record)
    ensures Encode(c, records + [r]) == Encode(c, records) + c.enc(r)
  {
    assert (records + [r])[..|records|] == records;
  }

  lemma {:induction false} EncodeHeldOne(c: Codec, held: seq<Prepared>, p: Prepared)
    ensures EncodeHeld(c, held + [p]) == EncodeHeld(c, held) + c.held(p)
  {
    assert (held + [p])[..|held|] == held;
  }

  lemma {:induction false} PlanItemMarks(c: Codec, m: Memory, plan: Plan, item: Item, limits: Limits)
    ensures var l := PlanItem(c, m, plan, item, limits).0.ledger;
      && l.durableSeq == m.ledger.durableSeq && l.durableOffset == m.ledger.durableOffset
      && l.durableBytes == m.ledger.durableBytes && l.quarantineBytes == m.ledger.quarantineBytes
  {}

  /** One planned item adds its own line to the bytes used, or none. */
  lemma {:induction false} PlanItemFits(c: Codec, m: Memory, plan: Plan, item: Item, limits: Limits, base: nat)
    requires plan.used == base + |Encode(c, plan.records)| + |EncodeHeld(c, plan.held)| && plan.used <= limits.capacity
    ensures var next := PlanItem(c, m, plan, item, limits).1;
      next.used == base + |Encode(c, next.records)| + |EncodeHeld(c, next.held)| && next.used <= limits.capacity
  {
    EncodeOne(c, plan.records, Record(plan.nextSeq + 1, item.prepared));
    EncodeHeldOne(c, plan.held, item.prepared);
  }

  lemma {:induction false} PlanStepRows(c: Codec, r: Running, limits: Limits)
    requires PlanRows(r) && r.phase.Planning? && r.phase.rest != [] && r.phase.plan.nextSeq == |r.rows| + |r.phase.plan.records|
    ensures PlanRows(PlanStep(c, r, limits))
    ensures var next := PlanStep(c, r, limits).phase.plan; next.nextSeq == |r.rows| + |next.records|
  {}

  lemma {:induction false} PlanInv(c: Codec, r: Running, limits: Limits)
    requires RunInv(c, r, limits) && r.phase.Planning? && r.phase.rest != []
    ensures RunInv(c, PlanStep(c, r, limits), limits)
  {
    var item, plan := r.phase.rest[0], r.phase.plan;
    PlanClaims(c, r, limits);
    PlanStepRows(c, r, limits);
    PlanItemMarks(c, r.m, plan, item, limits);
    PlanItemFits(c, r.m, plan, item, limits, r.m.ledger.durableBytes + r.m.ledger.quarantineBytes);
  }

  lemma {:induction false} AppendInv(c: Codec, r: Running, ok: bool, limits: Limits)
    requires RunInv(c, r, limits) && r.phase.Planning? && r.phase.rest == []
    ensures RunInv(c, AppendStep(c, r, ok, limits), limits)
  {
    AppendClaims(c, r, ok, limits);
    EncodeConcat(c, r.rows, r.phase.plan.records);
  }

  lemma {:induction false} IndexConcat(c: Codec, rows: seq<Record>, records: seq<Record>)
    ensures IndexOf(c, rows + records) == IndexOf(c, rows) + EntriesFrom(c, records, |Encode(c, rows)|)
  {
    if records == [] {
      assert rows + records == rows;
    } else {
      var front := records[..|records| - 1];
      assert (rows + records)[..|rows + records| - 1] == rows + front;
      IndexConcat(c, rows, front);
      EncodeConcat(c, rows, front);
    }
  }

  lemma {:induction false} FinishInv(c: Codec, r: Running, limits: Limits)
    requires RunInv(c, r, limits) && r.phase.Written?
    ensures RunInv(c, FinishStep(c, r), limits)
  {
    FinishClaims(c, r);
    IndexConcat(c, r.rows, r.phase.plan.records);
    EncodeConcat(c, r.rows, r.phase.plan.records);
  }

  lemma {:induction false} SameClaims(r: Running, s: Running)
    requires s.rows == r.rows && PlanOf(s.phase).kept == PlanOf(r.phase).kept && RestOf(s.phase) == RestOf(r.phase) && s.m.queue == r.m.queue
    ensures Claims(s) == Claims(r)
  {}

  lemma {:induction false} WatermarkInv(c: Codec, r: Running, io: SaveIo, limits: Limits)
    requires RunInv(c, r, limits) && r.phase.Staged?
    ensures RunInv(c, WatermarkStep(r, io), limits)
  {
    SameClaims(r, WatermarkStep(r, io));
  }

  lemma {:induction false} PersistInv(c: Codec, r: Running, io: SaveIo, limits: Limits)
    requires RunInv(c, r, limits) && (r.phase.Idle? || r.phase.Failed? || r.phase.Dead?)
    ensures RunInv(c, PersistStep(r, io), limits)
  {
    SameClaims(r, PersistStep(r, io));
  }

  // ---------------------------------------------------------------- steps of the disk

  lemma {:induction false} StartInv(c: Codec, w: World, io: SaveIo, limits: Limits)
    requires Sound(c) && Inv(c, w, limits) && w.run.None?
    ensures Inv(c, StartStep(c, w, io), limits)
  {
    StartUpRecovers(c, w.disk, w.log);
    LoadedClaims(w.log);
    var next := StartStep(c, w, io);
    if next.run.Some? {
      var r := next.run.value;
      assert Claims(r) == RowClaims(w.log);
      assert r.rows + PlanOf(r.phase).records == r.rows;
    }
  }

  lemma {:induction false} CrashInv(c: Codec, w: World, observations: seq<Byte>, quarantine: seq<Byte>, limits: Limits)
    requires Inv(c, w, limits)
    ensures Inv(c, World(Torn(w.disk, observations, quarantine), w.log, None), limits)
  {
    if w.disk.saved.Some? {
      assert w.disk.observations[..|Encode(c, w.log)|] == Encode(c, w.log);
    }
  }

  /** Under the hypothesis the observations gain the planned lines or nothing. */
  lemma {:induction false} AppendBytes(c: Codec, d: Disk, plan: Plan, held: Landing, rows: Landing)
    requires rows.Whole? || rows == Raised([])
    ensures var (disk, ok) := AppendLines(c, d, plan, held, rows);
      disk.saved == d.saved && disk.observations == if ok then d.observations + Encode(c, plan.records) else d.observations
  {
    assert d.observations + [] == d.observations;
  }

  lemma {:induction false} AppendFits(c: Codec, d: Disk, log: seq<Record>, r: Running, disk: Disk, ok: bool, limits: Limits)
    requires FileFits(c, d, log, r) && r.phase.Planning? && Publishes(c, d, log)
    requires disk.saved == d.saved && disk.observations == if ok then d.observations + Encode(c, r.phase.plan.records) else d.observations
    ensures FileFits(c, disk, log, AppendStep(c, r, ok, limits)) && Publishes(c, disk, log)
  {
    EncodeConcat(c, r.rows, r.phase.plan.records);
  }

  lemma {:induction false} AppendFile(c: Codec, w: World, held: Landing, rows: Landing, limits: Limits)
    requires Inv(c, w, limits) && Enabled(w, Append(held, rows)) && Faithful(Append(held, rows))
    ensures Inv(c, Next(c, w, Append(held, rows), limits), limits)
  {
    var r := w.run.value;
    var (disk, ok) := AppendLines(c, w.disk, r.phase.plan, held, rows);
    AppendInv(c, r, ok, limits);
    AppendBytes(c, w.disk, r.phase.plan, held, rows);
    AppendFits(c, w.disk, w.log, r, disk, ok, limits);
  }

  lemma {:induction false} NumberedPlan(r: Running)
    requires Numbered(r.rows) && PlanRows(r)
    ensures Numbered(r.rows + PlanOf(r.phase).records)
  {}

  lemma {:induction false} WatermarkFile(c: Codec, w: World, io: SaveIo, limits: Limits)
    requires Inv(c, w, limits) && Enabled(w, WriteWatermark(io))
    ensures Inv(c, Next(c, w, WriteWatermark(io), limits), limits)
  {
    var r := w.run.value;
    WatermarkInv(c, r, io, limits);
    RowsUnique(r);
    NumberedPlan(r);
    EncodeConcat(c, r.rows, r.phase.plan.records);
  }

  lemma {:induction false} PersistFile(c: Codec, w: World, io: SaveIo, limits: Limits)
    requires Inv(c, w, limits) && Enabled(w, Persist(io))
    ensures Inv(c, Next(c, w, Persist(io), limits), limits)
  {
    var r := w.run.value;
    PersistInv(c, r, io, limits);
    RowsUnique(r);
    assert r.rows + [] == r.rows;
  }

  lemma {:induction false} FinishFile(c: Codec, w: World, limits: Limits)
    requires Inv(c, w, limits) && Enabled(w, Finish)
    ensures Inv(c, Next(c, w, Finish, limits), limits)
  {
    FinishInv(c, w.run.value, limits);
  }

  lemma {:induction false} MemoryOnly(c: Codec, w: World, s: Running, limits: Limits)
    requires Inv(c, w, limits) && w.run.Some? && RunInv(c, s, limits) && s.rows == w.run.value.rows
    requires FileFits(c, w.disk, w.log, s)
    ensures Inv(c, w.(run := Some(s)), limits)
  {}

  lemma {:induction false} StepInv(c: Codec, w: World, e: Event, limits: Limits)
    requires Sound(c) && Inv(c, w, limits) && Enabled(w, e) && Faithful(e)
    ensures Inv(c, Next(c, w, e, limits), limits)
  {
    match e
    case Start(io) => StartInv(c, w, io, limits);
    case Crash(observations, quarantine) => CrashInv(c, w, observations, quarantine, limits);
    case Accept(o, gate) =>
      AcceptInv(c, w.run.value, o, gate, limits);
      MemoryOnly(c, w, AcceptStep(w.run.value, o, gate, limits), limits);
    case Take =>
      TakeInv(c, w.run.value, limits);
      MemoryOnly(c, w, TakeStep(w.run.value, limits), limits);
    case PlanNext =>
      PlanInv(c, w.run.value, limits);
      MemoryOnly(c, w, PlanStep(c, w.run.value, limits), limits);
    case Append(held, rows) => AppendFile(c, w, held, rows, limits);
    case WriteWatermark(io) => WatermarkFile(c, w, io, limits);
    case Finish => FinishFile(c, w, limits);
    case Persist(io) => PersistFile(c, w, io, limits);
  }

  lemma {:induction false} RunInvariant(c: Codec, w: World, events: seq<Event>, limits: Limits)
    requires Sound(c) && Inv(c, w, limits) && Runs(c, w, events, limits) && forall i :: 0 <= i < |events| ==> Faithful(events[i])
    ensures Inv(c, After(c, w, events, limits), limits)
    decreases |events|
  {
    if events != [] {
      StepInv(c, w, events[0], limits);
      RunInvariant(c, Next(c, w, events[0], limits), events[1..], limits);
    }
  }

  // ---------------------------------------------------------------- main results

  /** After any run, any crash and whatever it leaves, a restart truncates to and
      re-indexes exactly the rows of the last durable watermark: numbered from 1,
      each identity once, their offsets tiling the durable bytes, and the archive
      within its capacity. */
  lemma {:induction false} EveryRestartRecovers(c: Codec, events: seq<Event>, observations: seq<Byte>, quarantine: seq<Byte>, limits: Limits)
    requires Sound(c) && Runs(c, Nothing, events, limits) && forall i :: 0 <= i < |events| ==> Faithful(events[i])
    ensures var w := After(c, Nothing, events, limits);
      var (disk, ledger, loaded) := StartUp(c, Torn(w.disk, observations, quarantine));
      && Numbered(w.log) && UniqueRows(w.log)
      && loaded.index == IndexOf(c, w.log) && loaded.identities == IdentitiesOf(w.log) && !loaded.failed
      && disk.observations == Encode(c, w.log)
      && ledger.durableSeq == |w.log| && ledger.durableOffset == ledger.durableBytes == |Encode(c, w.log)|
      && ledger.durableBytes + ledger.quarantineBytes <= limits.capacity
  {
    assert Encode(c, []) == [];
    RunInvariant(c, Nothing, events, limits);
    var w := After(c, Nothing, events, limits);
    CrashInv(c, w, observations, quarantine, limits);
    StartUpRecovers(c, Torn(w.disk, observations, quarantine), w.log);
  }

  /** The rows a running collector shows are the durable ones, or those before the
      watermark that is being published; the index tiles their bytes; durable and
      quarantine bytes stay within the capacity. */
  lemma {:induction false} ShownIsDurable(c: Codec, events: seq<Event>, limits: Limits)
    requires Sound(c) && Runs(c, Nothing, events, limits) && forall i :: 0 <= i < |events| ==> Faithful(events[i])
    requires After(c, Nothing, events, limits).run.Some?
    ensures var w := After(c, Nothing, events, limits);
      var r := w.run.value;
      && r.rows <= w.log && (r.phase.Idle? ==> r.rows == w.log) && r.index == IndexOf(c, r.rows)
      && r.m.ledger.durableBytes == r.m.ledger.durableOffset == |Encode(c, r.rows)|
      && r.m.ledger.durableBytes + r.m.ledger.quarantineBytes <= limits.capacity
  {
    assert Encode(c, []) == [];
    RunInvariant(c, Nothing, events, limits);
  }

  lemma {:induction false} SoundVerifies(c: Codec, w: World, limits: Limits)
    requires Sound(c) && Inv(c, w, limits)
    ensures Verify(c, Encode(c, w.log), 0, 0, {}) == if WithinBounds(c, w.log) && LocalsInRange(w.log) then Some(w.log) else None
  {
    VerifyAccepts(c, w.log);
  }

  lemma {:induction false} IdleFile(c: Codec, w: World, limits: Limits)
    requires Inv(c, w, limits) && w.run.Some? && w.run.value.phase.Idle?
    ensures w.disk.observations == Encode(c, w.log) && w.run.value.m.ledger.durableSeq == |w.log|
  {}

  /** Every reachable published archive passes the observation checks of a backup
      verification exactly when it is within the size bounds of a backup and every
      local sequence admitted is one the archive's files may hold. */
  lemma {:induction false} ReachableArchiveVerifies(c: Codec, events: seq<Event>, limits: Limits)
    requires Sound(c) && Runs(c, Nothing, events, limits) && forall i :: 0 <= i < |events| ==> Faithful(events[i])
    ensures var w := After(c, Nothing, events, limits);
      && Verify(c, Encode(c, w.log), 0, 0, {}) == (if WithinBounds(c, w.log) && LocalsInRange(w.log) then Some(w.log) else None)
      && (w.run.Some? && w.run.value.phase.Idle? ==>
           w.disk.observations == Encode(c, w.log) && w.run.value.m.ledger.durableSeq == |w.log|)
  {
    assert Encode(c, []) == [];
    RunInvariant(c, Nothing, events, limits);
    var w := After(c, Nothing, events, limits);
    SoundVerifies(c, w, limits);
    if w.run.Some? && w.run.value.phase.Idle? {
      IdleFile(c, w, limits);
    }
  }
}
