/** The quarantine file over whole runs of the collector: which quarantined
    observations the durable watermark counts, and where their lines are
    (archive/collector.py, _publish_inner, _append, _load_state). */
module CollectorQuarantine {
  import opened Common
  import opened Lines
  import opened CollectorQueue
  import opened ArchiveFile
  import opened CollectorPublish
  import opened CollectorRuns
  import opened CollectorClaims
  import opened CollectorDurability
  import opened CollectorFailures
  import opened Queues

  // ---------------------------------------------------------------- what the watermarks count

  /** Quarantined observations counted by the last durable watermark, and by the ledger
      of the running process. */
  datatype Held = Held(durable: seq<Prepared>, shown: seq<Prepared>)

  const NoneHeld := Held([], [])

  function HeldNext(w: World, h: Held, e: Event): Held
    requires Enabled(w, e)
  {
    match e
    case Start(_) => Held(h.durable, h.durable)
    case WriteWatermark(io) => if io.NotReplaced? then h else h.(durable := h.shown + w.run.value.phase.plan.held)
    case Finish => h.(shown := h.shown + w.run.value.phase.plan.held)
    case Persist(io) => if io.NotReplaced? then h else h.(durable := h.shown)
    case _ => h
  }

  /** Every append lands whole or adds nothing, and no publication fails after its
      quarantine lines are on file. */
  ghost predicate Clean(w: World, e: Event)
    requires Enabled(w, e)
  {
    match e
    case Append(held, rows) =>
      var plan := w.run.value.phase.plan;
      && (held.Whole? || held == Raised([])) && (rows.Whole? || rows == Raised([]))
      && (plan.held != [] && held.Whole? && plan.records != [] ==> rows.Whole?)
    case _ => true
  }

  // ---------------------------------------------------------------- the invariant

  /** The counted observations and their lines, phase by phase. */
  ghost predicate HeldFits(c: Codec, file: seq<Byte>, h: Held, r: Running) {
    && r.m.ledger.quarantineBytes == |EncodeHeld(c, h.shown)|
    && match r.phase
       case Staged(plan, pending) =>
         && pending.quarantineBytes == |EncodeHeld(c, h.shown + plan.held)|
         && h.durable == h.shown && file == EncodeHeld(c, h.shown + plan.held)
       case Written(plan, pending) =>
         && pending.quarantineBytes == |EncodeHeld(c, h.shown + plan.held)|
         && h.durable == h.shown + plan.held && file == EncodeHeld(c, h.shown + plan.held)
       case Dead(plan) => EncodeHeld(c, h.shown) <= file
       case _ => h.durable == h.shown && file == EncodeHeld(c, h.shown)
  }

  ghost predicate HeldInv(c: Codec, w: World, h: Held) {
    && (match w.disk.saved
        case None => w.run.None? && h.durable == [] && w.disk.quarantine == []
        case Some(l) => l.quarantineBytes == |EncodeHeld(c, h.durable)| && EncodeHeld(c, h.durable) <= w.disk.quarantine)
    && (w.run.Some? ==> HeldFits(c, w.disk.quarantine, h, w.run.value))
  }

  lemma {:induction false} EncodeHeldConcat(c: Codec, a: seq<Prepared>, b: seq<Prepared>)
    ensures EncodeHeld(c, a + b) == EncodeHeld(c, a) + EncodeHeld(c, b)
    decreases |b|
  {
    if b == [] {
      assert a + b == a;
    } else {
      assert (a + b)[..|a + b| - 1] == a + b[..|b| - 1];
      EncodeHeldConcat(c, a, b[..|b| - 1]);
    }
  }

  lemma {:induction false} StartHeld(c: Codec, w: World, h: Held, io: SaveIo)
    requires HeldInv(c, w, h) && w.run.None?
    ensures HeldInv(c, StartStep(c, w, io), Held(h.durable, h.durable))
  {
    StartUpMeans(c, w.disk);
    assert EncodeHeld(c, []) == [];
  }

  lemma {:induction false} CrashHeld(c: Codec, w: World, h: Held, observations: seq<Byte>, quarantine: seq<Byte>)
    requires HeldInv(c, w, h)
    ensures HeldInv(c, World(Torn(w.disk, observations, quarantine), w.log, None), h)
  {}

  /** Under the hypothesis the quarantine file gains the planned lines, or nothing when
      the publication fails. */
  lemma {:induction false} AppendHeld(c: Codec, w: World, h: Held, held: Landing, rows: Landing, limits: Limits)
    requires HeldInv(c, w, h) && Enabled(w, Append(held, rows)) && Clean(w, Append(held, rows))
    ensures HeldInv(c, Next(c, w, Append(held, rows), limits), h)
  {
    var plan := w.run.value.phase.plan;
    EncodeHeldConcat(c, h.shown, plan.held);
    assert w.disk.quarantine + [] == w.disk.quarantine;
  }

  lemma {:induction false} PlanHeld(c: Codec, w: World, h: Held, limits: Limits)
    requires HeldInv(c, w, h) && Enabled(w, PlanNext)
    ensures HeldInv(c, Next(c, w, PlanNext, limits), h)
  {
    PlanItemMarks(c, w.run.value.m, w.run.value.phase.plan, w.run.value.phase.rest[0], limits);
  }

  lemma {:induction false} AcceptHeld(c: Codec, w: World, h: Held, o: Observation, gate: Gate, limits: Limits)
    requires HeldInv(c, w, h) && Enabled(w, Accept(o, gate))
    ensures HeldInv(c, Next(c, w, Accept(o, gate), limits), h)
  {
    AcceptKeepsMarks(w.run.value.m, o, gate, w.run.value.tally.inserted, limits);
  }

  lemma {:induction false} SaveHeld(c: Codec, w: World, h: Held, e: Event, limits: Limits)
    requires HeldInv(c, w, h) && Enabled(w, e) && (e.WriteWatermark? || e.Finish? || e.Persist?)
    ensures HeldInv(c, Next(c, w, e, limits), HeldNext(w, h, e))
  {
    if e.WriteWatermark? || e.Finish? {
      EncodeHeldConcat(c, h.shown, w.run.value.phase.plan.held);
    }
  }

  /** Every step keeps the lines of the counted observations at the start of the file. */
  lemma {:induction false} HeldStep(c: Codec, w: World, h: Held, e: Event, limits: Limits)
    requires HeldInv(c, w, h) && Enabled(w, e) && Clean(w, e)
    ensures HeldInv(c, Next(c, w, e, limits), HeldNext(w, h, e))
  {
    match e
    case Start(io) => StartHeld(c, w, h, io);
    case Crash(observations, quarantine) => CrashHeld(c, w, h, observations, quarantine);
    case Accept(o, gate) => AcceptHeld(c, w, h, o, gate, limits);
    case Take =>
    case PlanNext => PlanHeld(c, w, h, limits);
    case Append(held, rows) => AppendHeld(c, w, h, held, rows, limits);
    case WriteWatermark(_) => SaveHeld(c, w, h, e, limits);
    case Finish => SaveHeld(c, w, h, e, limits);
    case Persist(_) => SaveHeld(c, w, h, e, limits);
  }

  ghost predicate RunsClean(c: Codec, w: World, events: seq<Event>, limits: Limits)
    requires Runs(c, w, events, limits)
    decreases |events|
  {
    events == [] || (Clean(w, events[0]) && RunsClean(c, Next(c, w, events[0], limits), events[1..], limits))
  }

  function HeldAfter(c: Codec, w: World, h: Held, events: seq<Event>, limits: Limits): Held
    requires Runs(c, w, events, limits)
    decreases |events|
  {
    if events == [] then h else HeldAfter(c, Next(c, w, events[0], limits), HeldNext(w, h, events[0]), events[1..], limits)
  }

  lemma {:induction false} RunHeld(c: Codec, w: World, h: Held, events: seq<Event>, limits: Limits)
    requires HeldInv(c, w, h) && Runs(c, w, events, limits) && RunsClean(c, w, events, limits)
    ensures HeldInv(c, After(c, w, events, limits), HeldAfter(c, w, h, events, limits))
    decreases |events|
  {
    if events != [] {
      HeldStep(c, w, h, events[0], limits);
      RunHeld(c, Next(c, w, events[0], limits), HeldNext(w, h, events[0]), events[1..], limits);
    }
  }

  /** After any such run and any crash, the durable quarantine bytes are the length of the
      counted observations' lines, the file begins with exactly those, and a restart
      cuts it to them and finds it long enough. */
  lemma {:induction false} QuarantineRecovered(c: Codec, events: seq<Event>, observations: seq<Byte>, quarantine: seq<Byte>, limits: Limits)
    requires Runs(c, Nothing, events, limits) && RunsClean(c, Nothing, events, limits)
    ensures var w, held := After(c, Nothing, events, limits), HeldAfter(c, Nothing, NoneHeld, events, limits).durable;
      var torn := Torn(w.disk, observations, quarantine);
      var (disk, ledger, loaded) := StartUp(c, torn);
      && EncodeHeld(c, held) <= w.disk.quarantine
      && (w.disk.saved.Some? ==> w.disk.saved.value.quarantineBytes == |EncodeHeld(c, held)|)
      && disk.quarantine == EncodeHeld(c, held) && ledger.quarantineBytes == |EncodeHeld(c, held)|
      && (torn.saved.Some? ==> |torn.quarantine| >= torn.saved.value.quarantineBytes)
  {
    assert EncodeHeld(c, []) == [];
    RunHeld(c, Nothing, NoneHeld, events, limits);
    var w := After(c, Nothing, events, limits);
    CrashHeld(c, w, HeldAfter(c, Nothing, NoneHeld, events, limits), observations, quarantine);
    StartUpMeans(c, Torn(w.disk, observations, quarantine));
  }

  // ---------------------------------------------------------------- never short

  /** The file is at least as long as every watermark it can be cut at. */
  ghost predicate LongEnough(c: Codec, w: World) {
    && (w.disk.saved.Some? ==> |w.disk.quarantine| >= w.disk.saved.value.quarantineBytes)
    && (w.disk.saved.None? ==> w.run.None?)
    && (w.run.Some? ==>
          var r := w.run.value;
          && |w.disk.quarantine| >= r.m.ledger.quarantineBytes
          && (r.phase.Staged? ==> |w.disk.quarantine| >= r.phase.pending.quarantineBytes)
          && (r.phase.Written? ==> |w.disk.quarantine| >= r.phase.pending.quarantineBytes))
  }

  /** No quarantine write comes out short unnoticed. */
  predicate Heeded(e: Event) {
    e.Append? ==> !e.held.Short?
  }

  lemma {:induction false} AppendLong(c: Codec, w: World, held: Landing, rows: Landing, limits: Limits)
    requires LongEnough(c, w) && Enabled(w, Append(held, rows)) && !held.Short?
    ensures LongEnough(c, Next(c, w, Append(held, rows), limits))
  {}

  lemma {:induction false} StepLong(c: Codec, w: World, e: Event, limits: Limits)
    requires LongEnough(c, w) && Enabled(w, e) && Heeded(e)
    ensures LongEnough(c, Next(c, w, e, limits))
  {
    match e
    case Start(_) => StartUpMeans(c, w.disk);
    case Crash(_, _) =>
    case Accept(o, gate) => AcceptKeepsMarks(w.run.value.m, o, gate, w.run.value.tally.inserted, limits);
    case Take =>
    case PlanNext => PlanItemMarks(c, w.run.value.m, w.run.value.phase.plan, w.run.value.phase.rest[0], limits);
    case Append(held, rows) => AppendLong(c, w, held, rows, limits);
    case WriteWatermark(_) =>
    case Finish =>
    case Persist(_) =>
  }

  lemma {:induction false} RunLong(c: Codec, w: World, events: seq<Event>, limits: Limits)
    requires LongEnough(c, w) && Runs(c, w, events, limits) && forall i :: 0 <= i < |events| ==> Heeded(events[i])
    ensures LongEnough(c, After(c, w, events, limits))
    decreases |events|
  {
    if events != [] {
      StepLong(c, w, events[0], limits);
      RunLong(c, Next(c, w, events[0], limits), events[1..], limits);
    }
  }

  /** On runs in which neither file is written short unnoticed and observations land whole
      or not at all, a restart reports no failure that was not recorded. */
  lemma {:induction false} NothingNewReported(c: Codec, events: seq<Event>, observations: seq<Byte>, quarantine: seq<Byte>, limits: Limits)
    requires Sound(c) && Runs(c, Nothing, events, limits) && forall i :: 0 <= i < |events| ==> Faithful(events[i]) && Heeded(events[i])
    ensures var torn := Torn(After(c, Nothing, events, limits).disk, observations, quarantine);
      && (torn.saved.Some? ==> |torn.quarantine| >= torn.saved.value.quarantineBytes)
      && StartUp(c, torn).1.storageFailure == (torn.saved.Some? && torn.saved.value.storageFailure)
  {
    assert Encode(c, []) == [];
    RunLong(c, Nothing, events, limits);
    RunInvariant(c, Nothing, events, limits);
    var w := After(c, Nothing, events, limits);
    CrashInv(c, w, observations, quarantine, limits);
    StartUpRecovers(c, Torn(w.disk, observations, quarantine), w.log);
  }

  // ---------------------------------------------------------------- lines a failed publication leaves

  lemma {:induction false} PrefixCancels(a: seq<Byte>, b: seq<Byte>, x: seq<Byte>)
    ensures a + b <= a + x <==> b <= x
  {
    if a + b <= a + x {
      assert (a + x)[|a|..] == x && (a + b)[|a|..] == b;
      assert (a + x)[..|a + b|] == a + b;
      assert x[..|b|] == (a + x)[|a|..|a| + |b|];
    }
    if b <= x {
      assert x == b + x[|b|..];
      assert a + x == (a + b) + x[|b|..];
    }
  }

  /** Over a file on which a failed publication left some bytes, the next one's watermark
      counts lines that the file begins with exactly when what was left, followed by
      its own lines, begins with its own lines. */
  lemma {:induction false} WatermarkNamesHeldIff(c: Codec, w: World, shown: seq<Prepared>, left: seq<Byte>, limits: Limits)
    requires w.run.Some? && w.run.value.phase.Planning? && w.run.value.phase.rest == []
    requires w.run.value.m.ledger.quarantineBytes == |EncodeHeld(c, shown)| && w.disk.quarantine == EncodeHeld(c, shown) + left
    ensures Enabled(w, Append(Whole, Whole)) && Enabled(Next(c, w, Append(Whole, Whole), limits), WriteWatermark(Saved))
    ensures var more := w.run.value.phase.plan.held;
      var v := Next(c, Next(c, w, Append(Whole, Whole), limits), WriteWatermark(Saved), limits);
      && v.disk.saved.Some? && v.disk.saved.value.quarantineBytes == |EncodeHeld(c, shown + more)|
      && (EncodeHeld(c, shown + more) <= v.disk.quarantine <==> EncodeHeld(c, more) <= left + EncodeHeld(c, more))
  {
    var more := w.run.value.phase.plan.held;
    EncodeHeldConcat(c, shown, more);
    LandedWhole(c, w.disk, w.run.value.phase.plan, Whole, Whole);
    PrefixCancels(EncodeHeld(c, shown), EncodeHeld(c, more), left + EncodeHeld(c, more));
    assert (EncodeHeld(c, shown) + left) + EncodeHeld(c, more) == EncodeHeld(c, shown) + (left + EncodeHeld(c, more));
  }

  lemma {:induction false} OneLineFirst(x: seq<Byte>, y: seq<Byte>)
    requires OneLine(x) && OneLine(y)
    ensures y <= x + y <==> x == y
  {
    if y <= x + y {
      assert forall k :: 0 <= k < |y| ==> y[k] == (x + y)[k];
      assert |x| <= |y| ==> y[|x| - 1] == NEWLINE;
      assert |y| <= |x| ==> x[|y| - 1] == NEWLINE;
      assert |x| == |y| ==> x == y;
    }
  }

  // ---------------------------------------------------------------- a run that does so

  /** Room for a row and a quarantined observation, and for another one after. */
  ghost predicate RoomyHeld(c: Codec, p: Prepared, a: Prepared, b: Prepared, size: nat, limits: Limits) {
    && size <= limits.maxEvent && 2 * size <= limits.bytes && limits.count >= 2 && limits.batch >= 2
    && a.identity == p.identity && b.identity == p.identity && a.hash != p.hash && b.hash != p.hash
    && |c.enc(Record(1, p))| + |c.held(a)| <= limits.capacity && |c.held(b)| <= limits.capacity
    && OneLine(c.held(a)) && OneLine(c.held(b))
  }

  /** An observation of a known identity with other content is queued for the quarantine. */
  lemma {:induction false} AcceptsHeld(c: Codec, w: World, a: Prepared, size: nat, limits: Limits) returns (v: World)
    requires w.run.Some? && size <= limits.maxEvent && Fits(w.run.value.m, size, limits)
    requires var m := w.run.value.m;
      && a.identity in m.identities && m.identities[a.identity] != a.hash && !m.ledger.storageFailure && !m.ledger.capacityStop
    ensures Enabled(w, Accept(Ready(a, size), OpenGate)) && v == Next(c, w, Accept(Ready(a, size), OpenGate), limits)
    ensures v.disk == w.disk && v.run.Some? && v.run.value.phase == w.run.value.phase
    ensures var m, n := w.run.value.m, v.run.value.m;
      && n.queue == m.queue + [Item(a, size, true, w.run.value.tally.inserted)] && n.queueBytes == m.queueBytes + size
      && n.identities == m.identities && n.ledger == m.ledger.(conflicts := m.ledger.conflicts + 1)
  {
    v := Next(c, w, Accept(Ready(a, size), OpenGate), limits);
  }

  lemma {:induction false} TakesTwo(c: Codec, w: World, row: Item, line: Item, limits: Limits) returns (v: World)
    requires w.run.Some? && w.run.value.phase.Idle? && w.run.value.m.queue == [row] + [line] && limits.batch >= 2
    requires w.run.value.m.queueBytes == row.size + line.size
    requires var l := w.run.value.m.ledger; l.durableBytes == l.quarantineBytes == l.durableSeq == 0
    ensures Enabled(w, Take) && v == Next(c, w, Take, limits) && v.disk == w.disk && v.run.Some?
    ensures v.run.value.phase == Planning([row] + [line], Plan([], [], [], 0, 0, 0))
    ensures var m, n := w.run.value.m, v.run.value.m;
      n.queue == [] && n.queueBytes == 0 && n.identities == m.identities && n.ledger == m.ledger
  {
    var q := [row] + [line];
    assert q[..2] == q && q[2..] == [];
    assert Sizes(q) == row.size + line.size by {
      TotalConcat([row], [line], SizeOf);
      TotalOne(row, SizeOf);
      TotalOne(line, SizeOf);
    }
    v := Next(c, w, Take, limits);
  }

  lemma {:induction false} PlansRow(c: Codec, r: Running, item: Item, rest: seq<Item>, limits: Limits) returns (s: Running)
    requires r.phase == Planning([item] + rest, Plan([], [], [], 0, 0, 0)) && !item.quarantine
    requires |c.enc(Record(1, item.prepared))| <= limits.capacity
    ensures s == PlanStep(c, r, limits) && s.m == r.m
    ensures s.phase == Planning(rest, Plan([item], [Record(1, item.prepared)], [], 0, |c.enc(Record(1, item.prepared))|, 1))
  {
    assert ([item] + rest)[1..] == rest && [] + [item] == [item] && [] + [Record(1, item.prepared)] == [Record(1, item.prepared)];
    s := PlanStep(c, r, limits);
  }

  lemma {:induction false} PlansLine(c: Codec, r: Running, item: Item, plan: Plan, limits: Limits) returns (s: Running)
    requires r.phase == Planning([item], plan) && item.quarantine && plan.held == []
    requires plan.used + |c.held(item.prepared)| <= limits.capacity
    ensures s == PlanStep(c, r, limits) && s.m == r.m
    ensures s.phase == Planning([], plan.(held := [item.prepared], used := plan.used + |c.held(item.prepared)|))
  {
    assert [item][1..] == [] && [] + [item.prepared] == [item.prepared];
    s := PlanStep(c, r, limits);
  }

  /** Its quarantine line lands, its row does not, and the state is written all the same. */
  lemma {:induction false} LeavesLine(c: Codec, w: World, a: Prepared, limits: Limits) returns (v: World)
    requires w.run.Some? && w.run.value.phase.Planning? && w.run.value.phase.rest == [] && w.disk.quarantine == []
    requires w.run.value.phase.plan.held == [a] && w.run.value.phase.plan.records != [] && w.run.value.m.ledger.quarantineBytes == 0
    ensures Enabled(w, Append(Whole, Raised([]))) && Enabled(Next(c, w, Append(Whole, Raised([])), limits), Persist(Saved))
    ensures v == Next(c, Next(c, w, Append(Whole, Raised([])), limits), Persist(Saved), limits)
    ensures v.disk.quarantine == c.held(a) && v.run.Some? && v.run.value.phase.Idle? && v.run.value.m.queue == w.run.value.m.queue
    ensures v.run.value.m.ledger.quarantineBytes == 0 && v.run.value.m.ledger.durableBytes == w.run.value.m.ledger.durableBytes
  {
    v := Next(c, Next(c, w, Append(Whole, Raised([])), limits), Persist(Saved), limits);
    EncodeHeldOne(c, [], a);
    assert [] + [a] == [a] && EncodeHeld(c, []) == [];
  }

  lemma {:induction false} PlansHeld(c: Codec, w: World, b: Item, limits: Limits) returns (v: World)
    requires w.run.Some? && w.run.value.phase.Idle? && w.run.value.m.queue == [b] && b.quarantine && limits.batch >= 1
    requires w.run.value.m.ledger.quarantineBytes == 0 && w.run.value.m.ledger.durableBytes == 0 && |c.held(b.prepared)| <= limits.capacity
    ensures Enabled(w, Take) && Enabled(Next(c, w, Take, limits), PlanNext)
    ensures v == Next(c, Next(c, w, Take, limits), PlanNext, limits)
    ensures v.disk == w.disk && v.run.Some? && v.run.value.phase.Planning? && v.run.value.phase.rest == []
    ensures v.run.value.phase.plan.held == [b.prepared] && v.run.value.m.ledger.quarantineBytes == 0
  {
    assert w.run.value.m.queue[..1] == [b] && [b][1..] == [];
    v := Next(c, Next(c, w, Take, limits), PlanNext, limits);
    assert [] + [b.prepared] == [b.prepared];
  }

  function StrayRun(p: Prepared, a: Prepared, b: Prepared, size: nat): seq<Event> {
    FirstAdmitted(p, size)
    + [Accept(Ready(a, size), OpenGate), Take, Accept(Ready(b, size), OpenGate), PlanNext, PlanNext]
    + [Append(Whole, Raised([])), Persist(Saved), Take, PlanNext]
    + [Append(Whole, Whole), WriteWatermark(Saved)]
  }

  lemma {:induction false} PlansBoth(c: Codec, w: World, row: Item, line: Item, limits: Limits) returns (v: World)
    requires w.run.Some? && w.run.value.phase == Planning([row] + [line], Plan([], [], [], 0, 0, 0)) && !row.quarantine && line.quarantine
    requires |c.enc(Record(1, row.prepared))| + |c.held(line.prepared)| <= limits.capacity
    ensures Enabled(w, PlanNext) && Enabled(Next(c, w, PlanNext, limits), PlanNext)
    ensures v == Next(c, Next(c, w, PlanNext, limits), PlanNext, limits) && v.disk == w.disk && v.run.Some? && v.run.value.m == w.run.value.m
    ensures var s := v.run.value;
      s.phase.Planning? && s.phase.rest == [] && s.phase.plan.held == [line.prepared] && s.phase.plan.records == [Record(1, row.prepared)]
  {
    var r := PlansRow(c, w.run.value, row, [line], limits);
    var s := PlansLine(c, r, line, r.phase.plan, limits);
    v := w.(run := Some(s));
  }

  /** One ordinary item queued by an idle publisher that has written nothing. */
  ghost predicate FirstQueued(w: World, item: Item, limits: Limits) {
    && w.run.Some? && w.run.value.phase.Idle? && w.run.value.m.queue == [item] && w.run.value.m.queueBytes == item.size
    && !item.quarantine && item.prepared.identity in w.run.value.m.identities
    && w.run.value.m.identities[item.prepared.identity] == item.prepared.hash && w.run.value.m.ledger == FreshLedger
  }

  lemma {:induction false} StrayQueued(c: Codec, w: World, item: Item, a: Prepared, b: Prepared, size: nat, e: seq<Event>, limits: Limits)
    returns (v: World, line: Item, more: Item)
    requires FirstQueued(w, item, limits) && RoomyHeld(c, item.prepared, a, b, size, limits) && item.size == size
    requires e == [Accept(Ready(a, size), OpenGate), Take, Accept(Ready(b, size), OpenGate)]
    ensures Runs(c, w, e, limits) && v == After(c, w, e, limits) && v.disk == w.disk && v.run.Some?
    ensures line.quarantine && line.prepared == a && more.quarantine && more.prepared == b
    ensures v.run.value.phase == Planning([item] + [line], Plan([], [], [], 0, 0, 0)) && v.run.value.m.queue == [more]
    ensures v.run.value.m.ledger == FreshLedger.(conflicts := 2)
  {
    var w1 := AcceptsHeld(c, w, a, size, limits);
    line := w1.run.value.m.queue[1];
    assert w1.run.value.m.queue == [item] + [line];
    RunOneMore(c, w, [], e[0], limits);
    assert [] + [e[0]] == e[..1];
    var w2 := TakesTwo(c, w1, item, line, limits);
    v := AcceptsHeld(c, w2, b, size, limits);
    more := v.run.value.m.queue[0];
    RunTwoMore(c, w, e[..1], e[1], e[2], limits);
    assert e[..1] + [e[1], e[2]] == e;
  }

  lemma {:induction false} StrayPlanned(c: Codec, w: World, item: Item, a: Prepared, b: Prepared, size: nat, e: seq<Event>, limits: Limits)
    returns (v: World, more: Item)
    requires FirstQueued(w, item, limits) && RoomyHeld(c, item.prepared, a, b, size, limits) && item.size == size
    requires e == [Accept(Ready(a, size), OpenGate), Take, Accept(Ready(b, size), OpenGate), PlanNext, PlanNext]
    ensures Runs(c, w, e, limits) && v == After(c, w, e, limits)
    ensures v.disk == w.disk && v.run.Some? && v.run.value.phase.Planning? && v.run.value.phase.rest == []
    ensures v.run.value.phase.plan.held == [a] && v.run.value.phase.plan.records == [Record(1, item.prepared)]
    ensures v.run.value.m.ledger == FreshLedger.(conflicts := 2) && v.run.value.m.queue == [more] && more.quarantine && more.prepared == b
  {
    var w3, line, queued := StrayQueued(c, w, item, a, b, size, e[..3], limits);
    more := queued;
    v := PlansBoth(c, w3, item, line, limits);
    RunTwoMore(c, w, e[..3], e[3], e[4], limits);
    assert e[..3] + [e[3], e[4]] == e;
  }

  lemma {:induction false} StrayLeft(c: Codec, w: World, a: Prepared, b: Item, e: seq<Event>, limits: Limits) returns (v: World)
    requires w.run.Some? && w.run.value.phase.Planning? && w.run.value.phase.rest == [] && w.disk.quarantine == []
    requires w.run.value.phase.plan.held == [a] && w.run.value.phase.plan.records != [] && limits.batch >= 1
    requires w.run.value.m.ledger.quarantineBytes == 0 && w.run.value.m.ledger.durableBytes == 0
    requires w.run.value.m.queue == [b] && b.quarantine && |c.held(b.prepared)| <= limits.capacity
    requires e == [Append(Whole, Raised([])), Persist(Saved), Take, PlanNext]
    ensures Runs(c, w, e, limits) && v == After(c, w, e, limits)
    ensures v.disk.quarantine == c.held(a) && v.run.Some? && v.run.value.phase.Planning? && v.run.value.phase.rest == []
    ensures v.run.value.phase.plan.held == [b.prepared] && v.run.value.m.ledger.quarantineBytes == 0
  {
    var w2 := LeavesLine(c, w, a, limits);
    RunTwoMore(c, w, [], e[0], e[1], limits);
    assert [] + [e[0], e[1]] == e[..2];
    v := PlansHeld(c, w2, b, limits);
    RunTwoMore(c, w, e[..2], e[2], e[3], limits);
    assert e[..2] + [e[2], e[3]] == e;
  }

  lemma {:induction false} StrayBefore(c: Codec, p: Prepared, a: Prepared, b: Prepared, size: nat, e: seq<Event>, limits: Limits) returns (w: World)
    requires RoomyHeld(c, p, a, b, size, limits)
    requires e == FirstAdmitted(p, size)
      + [Accept(Ready(a, size), OpenGate), Take, Accept(Ready(b, size), OpenGate), PlanNext, PlanNext]
      + [Append(Whole, Raised([])), Persist(Saved), Take, PlanNext]
    ensures Runs(c, Nothing, e, limits) && w == After(c, Nothing, e, limits)
    ensures w.disk.quarantine == c.held(a) && w.run.Some? && w.run.value.phase.Planning? && w.run.value.phase.rest == []
    ensures w.run.value.phase.plan.held == [b] && w.run.value.m.ledger.quarantineBytes == 0
  {
    var e1, e2 := FirstAdmitted(p, size), [Accept(Ready(a, size), OpenGate), Take, Accept(Ready(b, size), OpenGate), PlanNext, PlanNext];
    var e3: seq<Event> := [Append(Whole, Raised([])), Persist(Saved), Take, PlanNext];
    FirstRun(c, p, size, limits);
    var w2, more := StrayPlanned(c, After(c, Nothing, e1, limits), Item(p, size, false, 0), a, b, size, e2, limits);
    RunConcat(c, Nothing, e1, e2, limits);
    w := StrayLeft(c, w2, a, more, e3, limits);
    RunConcat(c, Nothing, e1 + e2, e3, limits);
  }

  /** A run from an empty archive: a publication whose quarantine line lands and whose row
      does not, and then one with another quarantine line. The durable watermark is as
      long as the second line; the file begins with it exactly when the two are equal. */
  lemma {:induction false} StrayLineCounted(c: Codec, p: Prepared, a: Prepared, b: Prepared, size: nat, limits: Limits)
    requires RoomyHeld(c, p, a, b, size, limits)
    ensures Runs(c, Nothing, StrayRun(p, a, b, size), limits)
    ensures var v := After(c, Nothing, StrayRun(p, a, b, size), limits);
      && v.disk.saved.Some? && v.disk.saved.value.quarantineBytes == |EncodeHeld(c, [b])|
      && (EncodeHeld(c, [b]) <= v.disk.quarantine <==> c.held(a) == c.held(b))
  {
    var before := FirstAdmitted(p, size)
      + [Accept(Ready(a, size), OpenGate), Take, Accept(Ready(b, size), OpenGate), PlanNext, PlanNext]
      + [Append(Whole, Raised([])), Persist(Saved), Take, PlanNext];
    var w := StrayBefore(c, p, a, b, size, before, limits);
    StrayEnds(c, w, a, b, limits);
    RunTwoMore(c, Nothing, before, Append(Whole, Whole), WriteWatermark(Saved), limits);
    assert before + [Append(Whole, Whole), WriteWatermark(Saved)] == StrayRun(p, a, b, size);
  }

  lemma {:induction false} StrayEnds(c: Codec, w: World, a: Prepared, b: Prepared, limits: Limits)
    requires w.run.Some? && w.run.value.phase.Planning? && w.run.value.phase.rest == [] && w.run.value.phase.plan.held == [b]
    requires w.run.value.m.ledger.quarantineBytes == 0 && w.disk.quarantine == c.held(a) && OneLine(c.held(a)) && OneLine(c.held(b))
    ensures Enabled(w, Append(Whole, Whole)) && Enabled(Next(c, w, Append(Whole, Whole), limits), WriteWatermark(Saved))
    ensures var v := Next(c, Next(c, w, Append(Whole, Whole), limits), WriteWatermark(Saved), limits);
      && v.disk.saved.Some? && v.disk.saved.value.quarantineBytes == |EncodeHeld(c, [b])|
      && (EncodeHeld(c, [b]) <= v.disk.quarantine <==> c.held(a) == c.held(b))
  {
    var none: seq<Prepared> := [];
    assert EncodeHeld(c, none) == [] && [] + c.held(a) == c.held(a) && none + [b] == [b];
    EncodeHeldOne(c, none, b);
    assert EncodeHeld(c, [b]) == c.held(b);
    WatermarkNamesHeldIff(c, w, [], c.held(a), limits);
    OneLineFirst(c.held(a), c.held(b));
  }
}
