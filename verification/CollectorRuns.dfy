/** Runs of the collector: admissions interleaved with every step of publication,
    write failures, crashes and restarts (archive/collector.py, _accept_one,
    _take_batch, _publish_inner, _load_state, _rebuild_index). */
module CollectorRuns {
  import opened Common
  import opened Lines
  import opened Queues
  import opened CollectorQueue
  import opened ArchiveFile
  import opened CollectorPublish

  /** Where the publisher stands. Dead: an error left its thread; the batch stays
      counted as being published. */
  datatype Phase =
    | Idle
    | Planning(rest: seq<Item>, plan: Plan)
    | Failed
    | Staged(plan: Plan, pending: Ledger)
    | Written(plan: Plan, pending: Ledger)
    | Dead(plan: Plan)

  /** Counts since this process started, for stating conservation. */
  datatype Tally = Tally(inserted: nat, displaced: nat, saturated: nat, turnedAway: nat, held: nat)

  /** A running collector; base is the ledger it loaded, rows the rows it shows,
      done the items it published. */
  datatype Running = Running(m: Memory, index: seq<Entry>, phase: Phase, rows: seq<Record>, base: Ledger, done: seq<Item>, tally: Tally)

  /** The disk, the rows of its last durable watermark, and the running process. */
  datatype World = World(disk: Disk, log: seq<Record>, run: Option<Running>)

  datatype Event =
    | Start(save: SaveIo)
    | Accept(o: Observation, gate: Gate)
    | Take
    | PlanNext
    | Append(held: Landing, rows: Landing)
    | WriteWatermark(save: SaveIo)
    | Finish
    | Persist(save: SaveIo)
    | Crash(observations: seq<Byte>, quarantine: seq<Byte>)

  const Nothing := World(Disk([], [], None), [], None)

  // ---------------------------------------------------------------- steps

  function StartStep(c: Codec, w: World, io: SaveIo): World {
    var (disk, ledger, loaded) := StartUp(c, w.disk);
    var m := Memory(ledger.(storageFailure := ledger.storageFailure || loaded.failed), [], 0, loaded.identities, 0);
    World(Save(disk, m.ledger, io), w.log,
          if io.Saved? then Some(Running(m, loaded.index, Idle, w.log, m.ledger, [], Tally(0, 0, 0, 0, 0))) else None)
  }

  function AcceptStep(r: Running, o: Observation, gate: Gate, limits: Limits): Running {
    var (m, code) := AcceptOf(r.m, o, gate, r.tally.inserted, limits);
    var queued := Queued(o, code);
    var t := r.tally;
    r.(m := m,
       tally := t.(inserted := t.inserted + (if queued then 1 else 0),
                   displaced := t.displaced + (if queued && !Fits(r.m, o.size, limits) then 1 else 0),
                   saturated := t.saturated + (if code == QueueSaturated && o.Ready? && o.prepared.identity !in r.m.identities then 1 else 0)))
  }

  function TakeStep(r: Running, limits: Limits): Running {
    var (m, batch) := TakeOf(r.m, limits);
    r.(m := m, phase := Planning(batch, NewPlan(r.m.ledger)))
  }

  function PlanStep(c: Codec, r: Running, limits: Limits): Running
    requires r.phase.Planning? && r.phase.rest != []
  {
    var (m, plan) := PlanItem(c, r.m, r.phase.plan, r.phase.rest[0], limits);
    r.(m := m, phase := Planning(r.phase.rest[1..], plan),
       tally := r.tally.(turnedAway := r.tally.turnedAway + plan.refused - r.phase.plan.refused))
  }

  function AppendStep(c: Codec, r: Running, ok: bool, limits: Limits): Running
    requires r.phase.Planning?
  {
    if ok then r.(phase := Staged(r.phase.plan, Pending(c, r.m.ledger, r.phase.plan, limits)))
    else r.(m := AppendFailed(r.m, r.phase.plan), phase := Failed)
  }

  function WatermarkStep(r: Running, io: SaveIo): Running
    requires r.phase.Staged?
  {
    if io.Saved? then r.(phase := Written(r.phase.plan, r.phase.pending))
    else r.(m := StorageFailed(r.m), phase := Dead(r.phase.plan))
  }

  function FinishStep(c: Codec, r: Running): Running
    requires r.phase.Written?
  {
    var plan := r.phase.plan;
    var (m, index) := Commit(c, r.m, r.index, plan, r.phase.pending);
    r.(m := m, index := index, phase := Idle, rows := r.rows + plan.records, done := r.done + plan.kept,
       tally := r.tally.(held := r.tally.held + |plan.held|))
  }

  const EmptyPlan := Plan([], [], [], 0, 0, 0)

  function PersistStep(r: Running, io: SaveIo): Running
  {
    if r.phase.Dead? then r
    else if io.Saved? then r.(phase := Idle)
    else r.(m := StorageFailed(r.m), phase := Dead(EmptyPlan))
  }

  predicate Enabled(w: World, e: Event) {
    match e
    case Start(_) => w.run.None?
    case Crash(_, _) => true
    case Accept(_, _) => w.run.Some?
    case Take => w.run.Some? && w.run.value.phase.Idle? && w.run.value.m.queue != []
    case PlanNext => w.run.Some? && w.run.value.phase.Planning? && w.run.value.phase.rest != []
    case Append(_, _) => w.run.Some? && w.run.value.phase.Planning? && w.run.value.phase.rest == []
    case WriteWatermark(_) => w.run.Some? && w.run.value.phase.Staged?
    case Finish => w.run.Some? && w.run.value.phase.Written?
    case Persist(_) => w.run.Some? && (w.run.value.phase.Idle? || w.run.value.phase.Failed? || w.run.value.phase.Dead?)
  }

  /** A crash may leave anything after the bytes of the durable watermark. */
  function Torn(d: Disk, observations: seq<Byte>, quarantine: seq<Byte>): Disk {
    match d.saved
    case None => d
    case Some(l) =>
      d.(observations := d.observations[..Min(|d.observations|, l.durableOffset)] + observations,
         quarantine := d.quarantine[..Min(|d.quarantine|, l.quarantineBytes)] + quarantine)
  }

  function Next(c: Codec, w: World, e: Event, limits: Limits): World
    requires Enabled(w, e)
  {
    match e
    case Start(io) => StartStep(c, w, io)
    case Crash(observations, quarantine) => World(Torn(w.disk, observations, quarantine), w.log, None)
    case Accept(o, gate) => w.(run := Some(AcceptStep(w.run.value, o, gate, limits)))
    case Take => w.(run := Some(TakeStep(w.run.value, limits)))
    case PlanNext => w.(run := Some(PlanStep(c, w.run.value, limits)))
    case Append(held, rows) =>
      var (disk, ok) := AppendLines(c, w.disk, w.run.value.phase.plan, held, rows);
      World(disk, w.log, Some(AppendStep(c, w.run.value, ok, limits)))
    case WriteWatermark(io) =>
      var r := w.run.value;
      World(Save(w.disk, r.phase.pending, io), if io.NotReplaced? then w.log else r.rows + r.phase.plan.records, Some(WatermarkStep(r, io)))
    case Finish => w.(run := Some(FinishStep(c, w.run.value)))
    case Persist(io) =>
      var r := w.run.value;
      World(Save(w.disk, r.m.ledger, io), if io.NotReplaced? then w.log else r.rows, Some(PersistStep(r, io)))
  }

  // ---------------------------------------------------------------- the items in flight

  function PlanOf(p: Phase): Plan {
    match p
    case Idle => EmptyPlan
    case Failed => EmptyPlan
    case Planning(_, plan) => plan
    case Staged(plan, _) => plan
    case Written(plan, _) => plan
    case Dead(plan) => plan
  }

  function RestOf(p: Phase): seq<Item> {
    if p.Planning? then p.rest else []
  }

  /** Published items, then those planned, then those of the batch, then the queue. */
  function Pipeline(r: Running): seq<Item> {
    r.done + PlanOf(r.phase).kept + RestOf(r.phase) + r.m.queue
  }

  // ---------------------------------------------------------------- invariants, one aspect each

  /** Admission order is kept along the whole pipeline. */
  ghost predicate InOrder(r: Running) {
    TicketsRise(Pipeline(r), r.tally.inserted)
  }

  ghost predicate TicketsRise(s: seq<Item>, next: nat) {
    && (forall i, j :: 0 <= i < j < |s| ==> s[i].ticket < s[j].ticket)
    && (forall i :: 0 <= i < |s| ==> s[i].ticket < next)
  }

  /** Units counted once each: published rows, quarantine lines, displaced units,
      capacity refusals, failed units, the queue, and the units being published. */
  function Accounted(r: Running): int {
    (r.m.ledger.durableSeq - r.base.durableSeq) + r.tally.held + r.tally.displaced + r.tally.turnedAway
    + (r.m.ledger.storageFailed - r.base.storageFailed) + |r.m.queue| + r.m.publishing
  }

  function BatchUnits(p: Phase): nat {
    var plan := PlanOf(p);
    |plan.kept| + |plan.held| + plan.refused + |RestOf(p)|
  }

  ghost predicate Counted(r: Running) {
    && r.m.publishing == BatchUnits(r.phase)
    && Accounted(r) == r.tally.inserted + PlanOf(r.phase).refused
    && r.m.ledger.dropped - r.base.dropped == r.tally.displaced + r.tally.saturated
    && |PlanOf(r.phase).records| == |PlanOf(r.phase).kept|
  }

  lemma {:induction false} AcceptCounts(r: Running, o: Observation, gate: Gate, limits: Limits)
    requires Counted(r)
    ensures Counted(AcceptStep(r, o, gate, limits))
  {}

  lemma {:induction false} TakeCounts(r: Running, limits: Limits)
    requires Counted(r) && r.phase.Idle?
    ensures Counted(TakeStep(r, limits))
  {}

  lemma {:induction false} PlanCounts(c: Codec, r: Running, limits: Limits)
    requires Counted(r) && r.phase.Planning? && r.phase.rest != []
    ensures Counted(PlanStep(c, r, limits))
  {}

  lemma {:induction false} AppendCounts(c: Codec, r: Running, ok: bool, limits: Limits)
    requires Counted(r) && r.phase.Planning? && r.phase.rest == []
    ensures Counted(AppendStep(c, r, ok, limits))
  {}

  /** The staged watermark advances the row count by the planned rows. */
  ghost predicate PendingCounts(r: Running) {
    r.phase.Staged? || r.phase.Written? ==> r.phase.pending.durableSeq == r.m.ledger.durableSeq + |r.phase.plan.records|
  }

  lemma {:induction false} FinishCounts(c: Codec, r: Running)
    requires Counted(r) && r.phase.Written? && PendingCounts(r)
    ensures Counted(FinishStep(c, r))
  {}

  lemma {:induction false} AcceptPending(r: Running, o: Observation, gate: Gate, limits: Limits)
    requires PendingCounts(r)
    ensures PendingCounts(AcceptStep(r, o, gate, limits))
  {}

  // ---------------------------------------------------------------- order

  lemma {:induction false} RiseAppend(s: seq<Item>, item: Item, next: nat)
    requires TicketsRise(s, next) && item.ticket == next
    ensures TicketsRise(s + [item], next + 1)
  {}

  lemma {:induction false} RiseWithout(s: seq<Item>, i: nat, next: nat)
    requires TicketsRise(s, next) && i < |s|
    ensures TicketsRise(Without(s, i), next)
  {
    var t := Without(s, i);
    forall a, b | 0 <= a < b < |t| ensures t[a].ticket < t[b].ticket {
      assert t[a] == s[if a < i then a else a + 1] && t[b] == s[if b < i then b else b + 1];
    }
  }

  /** Queueing appends to the pipeline after removing at most one queued item. */
  lemma {:induction false} RiseBehind(front: seq<Item>, queue: seq<Item>, item: Item, next: nat)
    requires TicketsRise(front + queue, next) && item.ticket == next
    ensures TicketsRise(front + (queue + [item]), next + 1)
  {
    RiseAppend(front + queue, item, next);
    assert front + (queue + [item]) == (front + queue) + [item];
  }

  lemma {:induction false} QueueInOrder(front: seq<Item>, m: Memory, item: Item, limits: Limits, next: nat)
    requires TicketsRise(front + m.queue, next) && item.ticket == next && QueueOf(m, item, limits).Some?
    ensures TicketsRise(front + QueueOf(m, item, limits).value.queue, next + 1)
  {
    if Fits(m, item.size, limits) {
      RiseBehind(front, m.queue, item, next);
    } else {
      var i := FirstDisplaceable(m.queue);
      RiseWithout(front + m.queue, |front| + i, next);
      assert Without(front + m.queue, |front| + i) == front + Without(m.queue, i);
      RiseBehind(front, Without(m.queue, i), item, next);
    }
  }

  lemma {:induction false} AcceptInOrder(r: Running, o: Observation, gate: Gate, limits: Limits)
    requires InOrder(r)
    ensures InOrder(AcceptStep(r, o, gate, limits))
  {
    var (m, code) := AcceptOf(r.m, o, gate, r.tally.inserted, limits);
    var front := r.done + PlanOf(r.phase).kept + RestOf(r.phase);
    if Queued(o, code) {
      if code == Admitted {
        QueueInOrder(front, r.m, Item(o.prepared, o.size, false, r.tally.inserted), limits, r.tally.inserted);
      } else {
        var counted := r.m.(ledger := r.m.ledger.(conflicts := r.m.ledger.conflicts + 1));
        QueueInOrder(front, counted, Item(o.prepared, o.size, true, r.tally.inserted), limits, r.tally.inserted);
      }
    } else {
      assert m.queue == r.m.queue;
    }
  }

  lemma {:induction false} TakeInOrder(r: Running, limits: Limits)
    requires InOrder(r) && r.phase.Idle?
    ensures InOrder(TakeStep(r, limits))
  {
    var n := TakeCount(r.m, limits);
    assert r.m.queue == r.m.queue[..n] + r.m.queue[n..];
    assert Pipeline(TakeStep(r, limits)) == Pipeline(r);
  }

  lemma {:induction false} PlanInOrder(c: Codec, r: Running, limits: Limits)
    requires InOrder(r) && r.phase.Planning? && r.phase.rest != []
    ensures InOrder(PlanStep(c, r, limits))
  {
    var item, plan := r.phase.rest[0], r.phase.plan;
    var at := |r.done| + |plan.kept|;
    var next := PlanStep(c, r, limits);
    if |next.phase.plan.kept| > |plan.kept| {
      assert Pipeline(next) == Pipeline(r);
    } else {
      RiseWithout(Pipeline(r), at, r.tally.inserted);
      assert Pipeline(next) == Without(Pipeline(r), at);
    }
  }

  lemma {:induction false} DropKept(front: seq<Item>, kept: seq<Item>, back: seq<Item>, next: nat)
    requires TicketsRise(front + kept + back, next)
    ensures TicketsRise(front + back, next)
    decreases |kept|
  {
    if kept == [] {
      assert front + kept + back == front + back;
    } else {
      RiseWithout(front + kept + back, |front|, next);
      assert Without(front + kept + back, |front|) == front + kept[1..] + back;
      DropKept(front, kept[1..], back, next);
    }
  }

  lemma {:induction false} AppendInOrder(c: Codec, r: Running, ok: bool, limits: Limits)
    requires InOrder(r) && r.phase.Planning? && r.phase.rest == []
    ensures InOrder(AppendStep(c, r, ok, limits))
  {
    assert Pipeline(r) == r.done + r.phase.plan.kept + r.m.queue;
    if ok {
      assert Pipeline(AppendStep(c, r, ok, limits)) == Pipeline(r);
    } else {
      DropKept(r.done, r.phase.plan.kept, r.m.queue, r.tally.inserted);
      assert Pipeline(AppendStep(c, r, ok, limits)) == r.done + r.m.queue;
    }
  }

  lemma {:induction false} FinishInOrder(c: Codec, r: Running)
    requires InOrder(r) && r.phase.Written?
    ensures InOrder(FinishStep(c, r))
  {
    assert Pipeline(FinishStep(c, r)) == Pipeline(r);
  }

  // ---------------------------------------------------------------- one process: queue, counts and order

  ghost predicate Sane(r: Running, limits: Limits) {
    QueueSafe(r.m, limits) && Counted(r) && PendingCounts(r) && InOrder(r)
  }

  ghost predicate SaneWorld(w: World, limits: Limits) {
    w.run.Some? ==> Sane(w.run.value, limits)
  }

  lemma {:induction false} AcceptSane(r: Running, o: Observation, gate: Gate, limits: Limits)
    requires Sane(r, limits)
    ensures Sane(AcceptStep(r, o, gate, limits), limits)
  {
    AcceptSafe(r.m, o, gate, r.tally.inserted, limits);
    AcceptCounts(r, o, gate, limits);
    AcceptPending(r, o, gate, limits);
    AcceptInOrder(r, o, gate, limits);
  }

  lemma {:induction false} TakeSane(r: Running, limits: Limits)
    requires Sane(r, limits) && r.phase.Idle?
    ensures Sane(TakeStep(r, limits), limits)
  {
    TakeSafe(r.m, limits);
    TakeCounts(r, limits);
    TakeInOrder(r, limits);
  }

  lemma {:induction false} PlanSane(c: Codec, r: Running, limits: Limits)
    requires Sane(r, limits) && r.phase.Planning? && r.phase.rest != []
    ensures Sane(PlanStep(c, r, limits), limits)
  {
    PlanCounts(c, r, limits);
    PlanInOrder(c, r, limits);
  }

  lemma {:induction false} AppendSane(c: Codec, r: Running, ok: bool, limits: Limits)
    requires Sane(r, limits) && r.phase.Planning? && r.phase.rest == []
    ensures Sane(AppendStep(c, r, ok, limits), limits)
  {
    AppendCounts(c, r, ok, limits);
    AppendInOrder(c, r, ok, limits);
  }

  lemma {:induction false} WatermarkSane(r: Running, io: SaveIo, limits: Limits)
    requires Sane(r, limits) && r.phase.Staged?
    ensures Sane(WatermarkStep(r, io), limits)
  {
    assert Pipeline(WatermarkStep(r, io)) == Pipeline(r);
  }

  lemma {:induction false} FinishSane(c: Codec, r: Running, limits: Limits)
    requires Sane(r, limits) && r.phase.Written?
    ensures Sane(FinishStep(c, r), limits)
  {
    FinishCounts(c, r);
    FinishInOrder(c, r);
  }

  lemma {:induction false} PersistSane(r: Running, io: SaveIo, limits: Limits)
    requires Sane(r, limits) && (r.phase.Idle? || r.phase.Failed? || r.phase.Dead?)
    ensures Sane(PersistStep(r, io), limits)
  {
    assert Pipeline(PersistStep(r, io)) == Pipeline(r);
  }

  lemma {:induction false} SaneStep(c: Codec, w: World, e: Event, limits: Limits)
    requires SaneWorld(w, limits) && Enabled(w, e)
    ensures SaneWorld(Next(c, w, e, limits), limits)
  {
    match e
    case Start(_) =>
    case Crash(_, _) =>
    case Accept(o, gate) => AcceptSane(w.run.value, o, gate, limits);
    case Take => TakeSane(w.run.value, limits);
    case PlanNext => PlanSane(c, w.run.value, limits);
    case Append(held, rows) => AppendSane(c, w.run.value, AppendLines(c, w.disk, w.run.value.phase.plan, held, rows).1, limits);
    case WriteWatermark(io) => WatermarkSane(w.run.value, io, limits);
    case Finish => FinishSane(c, w.run.value, limits);
    case Persist(io) => PersistSane(w.run.value, io, limits);
  }

  ghost predicate Runs(c: Codec, w: World, events: seq<Event>, limits: Limits)
    decreases |events|
  {
    events == [] || (Enabled(w, events[0]) && Runs(c, Next(c, w, events[0], limits), events[1..], limits))
  }

  function After(c: Codec, w: World, events: seq<Event>, limits: Limits): World
    requires Runs(c, w, events, limits)
    decreases |events|
  {
    if events == [] then w else After(c, Next(c, w, events[0], limits), events[1..], limits)
  }

  lemma {:induction false} SaneRun(c: Codec, w: World, events: seq<Event>, limits: Limits)
    requires SaneWorld(w, limits) && Runs(c, w, events, limits)
    ensures SaneWorld(After(c, w, events, limits), limits)
    decreases |events|
  {
    if events != [] {
      SaneStep(c, w, events[0], limits);
      SaneRun(c, Next(c, w, events[0], limits), events[1..], limits);
    }
  }

  // ---------------------------------------------------------------- conservation

  /** Outside a running publication every inserted unit is accounted for exactly
      once; once an error has ended the publisher inside a batch this still holds
      exactly when no unit of that batch had been refused for capacity, because
      those stay counted as being published too. */
  lemma {:induction false} UnitsConserved(c: Codec, events: seq<Event>, limits: Limits)
    requires Runs(c, Nothing, events, limits) && After(c, Nothing, events, limits).run.Some?
    ensures var r := After(c, Nothing, events, limits).run.value;
      && (r.phase.Idle? || r.phase.Failed? ==> Accounted(r) == r.tally.inserted)
      && (r.phase.Dead? ==> (Accounted(r) == r.tally.inserted <==> r.phase.plan.refused == 0))
      && r.m.ledger.dropped - r.base.dropped == r.tally.displaced + r.tally.saturated
  {
    SaneRun(c, Nothing, events, limits);
  }

  /** Items are published in the order they were admitted, and the queue keeps its
      count and byte bounds, over every run. */
  lemma {:induction false} OrderAndBounds(c: Codec, events: seq<Event>, limits: Limits)
    requires Runs(c, Nothing, events, limits) && After(c, Nothing, events, limits).run.Some?
    ensures var r := After(c, Nothing, events, limits).run.value;
      && TicketsRise(Pipeline(r), r.tally.inserted)
      && |r.m.queue| <= limits.count && r.m.queueBytes == Sizes(r.m.queue)
      && r.m.queueBytes <= limits.count * limits.maxEvent
  {
    SaneRun(c, Nothing, events, limits);
    BytesBound(After(c, Nothing, events, limits).run.value.m, limits);
  }
}
