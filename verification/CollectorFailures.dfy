/** Publication after an append that failed or fell short (archive/collector.py,
    _publish_inner and _append): exactly when the durable watermark still names its
    rows, and runs from an empty archive in which it does not. */
module CollectorFailures {
  import opened Common
  import opened Lines
  import opened Queues
  import opened CollectorQueue
  import opened ArchiveFile
  import opened CollectorPublish
  import opened CollectorRuns
  import opened CollectorClaims
  import opened CollectorDurability

  // ---------------------------------------------------------------- bytes

  lemma {:induction false} SamePrefix<T>(a: seq<T>, b: seq<T>, d: seq<T>)
    ensures a + b <= a + d <==> b <= d
  {
    if a + b <= a + d {
      forall i | 0 <= i < |b| ensures b[i] == d[i] {
        assert (a + b)[|a| + i] == (a + d)[|a| + i];
      }
    }
  }

  lemma {:induction false} EncodeSingle(c: Codec, r: Record)
    ensures Encode(c, [r]) == c.enc(r)
  {
    EncodeOne(c, [], r);
    assert [] + [r] == [r];
  }

  lemma {:induction false} Shifted(line: seq<Byte>, residue: seq<Byte>, more: seq<Byte>)
    requires line <= more && line <= residue + more && |residue| < |line|
    ensures line[|line| - 1] == line[|line| - 1 - |residue|]
  {
    var i := |line| - 1;
    assert line[i] == (residue + more)[i] == more[i - |residue|];
  }

  /** Bytes before a line hide it unless there are none or they begin with the whole line. */
  lemma {:induction false} LineSurvives(line: seq<Byte>, residue: seq<Byte>, more: seq<Byte>)
    requires OneLine(line) && line <= more && line <= residue + more
    ensures residue == [] || line <= residue
  {
    if |residue| < |line| {
      Shifted(line, residue, more);
    } else {
      assert line <= (residue + more)[..|residue|];
    }
  }

  lemma {:induction false} LineSurvivesIff(line: seq<Byte>, residue: seq<Byte>)
    requires OneLine(line)
    ensures line <= residue + line <==> residue == [] || line <= residue
  {
    if residue == [] {
      assert [] + line == line;
    } else if line <= residue + line {
      LineSurvives(line, residue, line);
    }
  }

  lemma {:induction false} FirstLine(c: Codec, records: seq<Record>)
    requires records != []
    ensures c.enc(records[0]) <= Encode(c, records)
  {
    EncodePrefix(c, records, 0);
    assert records[..0] == [] && Encode(c, records)[0..] == Encode(c, records);
  }

  // ---------------------------------------------------------------- the append and its watermark

  /** What an append that reports success puts on file. */
  function Landed(data: seq<Byte>, rows: Landing): seq<Byte>
    requires !rows.Raised?
  {
    if rows.Whole? then data else data[..Min(rows.n, |data|)]
  }

  /** A batch planned and ready to be appended, over a file that holds the published
      rows and whatever an earlier failed append left. */
  ghost predicate ReadyOver(c: Codec, w: World, residue: seq<Byte>, limits: Limits) {
    && w.run.Some? && RunInv(c, w.run.value, limits)
    && w.run.value.phase.Planning? && w.run.value.phase.rest == [] && w.run.value.phase.plan.records != []
    && w.disk.observations == Encode(c, w.run.value.rows) + residue
  }

  lemma {:induction false} AppendedBytes(c: Codec, d: Disk, plan: Plan, held: Landing, rows: Landing)
    requires plan.records != [] && !held.Raised? && !rows.Raised?
    ensures AppendLines(c, d, plan, held, rows).1
    ensures AppendLines(c, d, plan, held, rows).0.observations == d.observations + Landed(Encode(c, plan.records), rows)
  {}

  lemma {:induction false} AppendedFile(c: Codec, w: World, held: Landing, rows: Landing, limits: Limits) returns (v: World)
    requires w.run.Some? && RunInv(c, w.run.value, limits) && w.run.value.phase.Planning? && w.run.value.phase.rest == []
    requires w.run.value.phase.plan.records != [] && !held.Raised? && !rows.Raised?
    ensures Enabled(w, Append(held, rows)) && v == Next(c, w, Append(held, rows), limits)
    ensures v.run.Some? && RunInv(c, v.run.value, limits) && v.run.value.phase.Staged?
    ensures v.run.value.rows == w.run.value.rows && v.run.value.phase.plan == w.run.value.phase.plan
    ensures v.disk.observations == w.disk.observations + Landed(Encode(c, w.run.value.phase.plan.records), rows)
  {
    AppendInv(c, w.run.value, true, limits);
    AppendedBytes(c, w.disk, w.run.value.phase.plan, held, rows);
    v := Next(c, w, Append(held, rows), limits);
  }

  /** A staged batch's watermark names its rows exactly when their lines are on file
      behind the published ones. */
  lemma {:induction false} StagedIff(c: Codec, w: World, limits: Limits)
    requires w.run.Some? && RunInv(c, w.run.value, limits) && w.run.value.phase.Staged?
    ensures Enabled(w, WriteWatermark(Saved))
    ensures var v := Next(c, w, WriteWatermark(Saved), limits);
      var all := w.run.value.rows + w.run.value.phase.plan.records;
      v.log == all && (Publishes(c, v.disk, v.log) <==> Encode(c, all) <= w.disk.observations)
  {
    NumberedPlan(w.run.value);
  }

  lemma {:induction false} BytesIff(c: Codec, rows: seq<Record>, added: seq<Record>, residue: seq<Byte>, landed: seq<Byte>)
    ensures Encode(c, rows + added) <= Encode(c, rows) + residue + landed <==> Encode(c, added) <= residue + landed
  {
    EncodeConcat(c, rows, added);
    assert Encode(c, rows) + residue + landed == Encode(c, rows) + (residue + landed);
    SamePrefix(Encode(c, rows), Encode(c, added), residue + landed);
  }

  /** Once the watermark is written it names its rows exactly when what the failed
      append left, followed by what this one landed, begins with those rows' lines. */
  lemma {:induction false} WatermarkNamesRowsIff(c: Codec, w: World, residue: seq<Byte>, held: Landing, rows: Landing, limits: Limits)
    requires ReadyOver(c, w, residue, limits) && !held.Raised? && !rows.Raised?
    ensures Enabled(w, Append(held, rows)) && Enabled(Next(c, w, Append(held, rows), limits), WriteWatermark(Saved))
    ensures var v := Next(c, Next(c, w, Append(held, rows), limits), WriteWatermark(Saved), limits);
      var added := w.run.value.phase.plan.records;
      && v.log == w.run.value.rows + added
      && (Publishes(c, v.disk, v.log) <==> Encode(c, added) <= residue + Landed(Encode(c, added), rows))
  {
    var w1 := AppendedFile(c, w, held, rows, limits);
    StagedIff(c, w1, limits);
    var added := w.run.value.phase.plan.records;
    BytesIff(c, w.run.value.rows, added, residue, Landed(Encode(c, added), rows));
  }

  /** A short append publishes its rows exactly when it was not short. */
  lemma {:induction false} ShortAppendIff(c: Codec, w: World, held: Landing, n: nat, limits: Limits)
    requires ReadyOver(c, w, [], limits) && !held.Raised?
    ensures Enabled(w, Append(held, Short(n))) && Enabled(Next(c, w, Append(held, Short(n)), limits), WriteWatermark(Saved))
    ensures var v := Next(c, Next(c, w, Append(held, Short(n)), limits), WriteWatermark(Saved), limits);
      Publishes(c, v.disk, v.log) <==> n >= |Encode(c, w.run.value.phase.plan.records)|
  {
    WatermarkNamesRowsIff(c, w, [], held, Short(n), limits);
    var data := Encode(c, w.run.value.phase.plan.records);
    assert [] + data[..Min(n, |data|)] == data[..Min(n, |data|)];
  }

  /** After a failed append a whole one publishes its rows only if nothing was left
      or what was left begins with the first row's line; for one row that is exact. */
  lemma {:induction false} WholeAppendIff(c: Codec, w: World, residue: seq<Byte>, held: Landing, limits: Limits)
    requires Sound(c) && ReadyOver(c, w, residue, limits) && !held.Raised?
    ensures Enabled(w, Append(held, Whole)) && Enabled(Next(c, w, Append(held, Whole), limits), WriteWatermark(Saved))
    ensures var v := Next(c, Next(c, w, Append(held, Whole), limits), WriteWatermark(Saved), limits);
      var added := w.run.value.phase.plan.records;
      && v.log == w.run.value.rows + added
      && (Publishes(c, v.disk, v.log) ==> residue == [] || c.enc(added[0]) <= residue)
      && (|added| == 1 ==> (Publishes(c, v.disk, v.log) <==> residue == [] || c.enc(added[0]) <= residue))
  {
    WatermarkNamesRowsIff(c, w, residue, held, Whole, limits);
    var added := w.run.value.phase.plan.records;
    var line, data := c.enc(added[0]), Encode(c, added);
    assert Readable(c, added[0]);
    FirstLine(c, added);
    if data <= residue + data {
      LineSurvives(line, residue, data);
    }
    if |added| == 1 {
      EncodeSingle(c, added[0]);
      assert added == [added[0]];
      LineSurvivesIff(line, residue);
    }
  }

  // ---------------------------------------------------------------- the run that gets there

  lemma {:induction false} RunOneMore(c: Codec, w: World, events: seq<Event>, e: Event, limits: Limits)
    requires Runs(c, w, events, limits) && Enabled(After(c, w, events, limits), e)
    ensures Runs(c, w, events + [e], limits) && After(c, w, events + [e], limits) == Next(c, After(c, w, events, limits), e, limits)
    decreases |events|
  {
    if events == [] {
      assert [] + [e] == [e] && [e][1..] == [];
    } else {
      assert (events + [e])[1..] == events[1..] + [e];
      RunOneMore(c, Next(c, w, events[0], limits), events[1..], e, limits);
    }
  }

  const OpenGate := Gate(false, true, true)

  /** An idle publisher with one ordinary item queued, and room for it and one more. */
  ghost predicate OneQueued(c: Codec, w: World, item: Item, limits: Limits) {
    && w.run.Some? && RunInv(c, w.run.value, limits) && QueueSafe(w.run.value.m, limits)
    && w.run.value.phase.Idle? && w.run.value.m.queue == [item] && !item.quarantine
    && w.disk.observations == Encode(c, w.run.value.rows)
  }

  ghost predicate Admits(m: Memory, p: Prepared, size: nat, limits: Limits) {
    && !m.ledger.storageFailure && !m.ledger.capacityStop && p.identity !in m.identities
    && size <= limits.maxEvent && size <= limits.bytes && limits.count >= 1 && limits.batch >= 1
  }

  ghost predicate RoomFor(c: Codec, r: Running, p: Prepared, limits: Limits) {
    r.m.ledger.durableBytes + r.m.ledger.quarantineBytes + |c.enc(Record(|r.rows| + 1, p))| <= limits.capacity
  }

  /** The one item is taken, and the next is admitted while it is being published. */
  lemma {:induction false} TakesAndAdmits(c: Codec, w: World, item: Item, p: Prepared, size: nat, limits: Limits) returns (v: World)
    requires OneQueued(c, w, item, limits) && Admits(w.run.value.m, p, size, limits)
    ensures Enabled(w, Take) && Enabled(Next(c, w, Take, limits), Accept(Ready(p, size), OpenGate))
    ensures v == Next(c, Next(c, w, Take, limits), Accept(Ready(p, size), OpenGate), limits)
    ensures v.disk == w.disk && v.run.Some? && RunInv(c, v.run.value, limits)
    ensures var r, s := w.run.value, v.run.value;
      && s.phase == Planning([item], NewPlan(r.m.ledger)) && s.rows == r.rows && s.m.ledger == r.m.ledger
      && s.m.queue == [Item(p, size, false, r.tally.inserted)]
  {
    var r := w.run.value;
    assert r.m.queue[..1] == [item] && r.m.queue[1..] == [];
    assert Sizes([item]) == item.size by {
      TotalOne(item, SizeOf);
    }
    TakeInv(c, r, limits);
    var t := TakeStep(r, limits);
    AcceptInv(c, t, Ready(p, size), OpenGate, limits);
    v := Next(c, Next(c, w, Take, limits), Accept(Ready(p, size), OpenGate), limits);
    assert [] + [Item(p, size, false, r.tally.inserted)] == [Item(p, size, false, r.tally.inserted)];
  }

  /** A batch of one ordinary item is planned. */
  lemma {:induction false} PlansOne(c: Codec, w: World, item: Item, limits: Limits) returns (v: World)
    requires w.run.Some? && RunInv(c, w.run.value, limits) && w.run.value.phase == Planning([item], NewPlan(w.run.value.m.ledger))
    requires !item.quarantine && RoomFor(c, w.run.value, item.prepared, limits)
    ensures Enabled(w, PlanNext) && v == Next(c, w, PlanNext, limits)
    ensures v.disk == w.disk && v.run.Some? && RunInv(c, v.run.value, limits)
    ensures var r, s := w.run.value, v.run.value;
      && s.phase.Planning? && s.phase.rest == [] && s.phase.plan.records == [Record(|r.rows| + 1, item.prepared)] && s.phase.plan.held == []
      && s.rows == r.rows && s.m.queue == r.m.queue && s.m.ledger == r.m.ledger
  {
    PlanInv(c, w.run.value, limits);
    v := Next(c, w, PlanNext, limits);
    assert [item][1..] == [];
  }

  /** Its append raises after leaving these bytes, and the state is written all the same. */
  lemma {:induction false} FailsAndPersists(c: Codec, w: World, residue: seq<Byte>, limits: Limits) returns (v: World)
    requires w.run.Some? && RunInv(c, w.run.value, limits) && w.run.value.phase.Planning? && w.run.value.phase.rest == []
    requires w.run.value.phase.plan.records != [] && w.run.value.phase.plan.held == []
    ensures Enabled(w, Append(Whole, Raised(residue))) && Enabled(Next(c, w, Append(Whole, Raised(residue)), limits), Persist(Saved))
    ensures v == Next(c, Next(c, w, Append(Whole, Raised(residue)), limits), Persist(Saved), limits)
    ensures v.disk.observations == w.disk.observations + residue && v.run.Some? && RunInv(c, v.run.value, limits) && v.run.value.phase.Idle?
    ensures var r, s := w.run.value, v.run.value;
      && s.rows == r.rows && s.m.queue == r.m.queue && s.m.ledger.durableBytes == r.m.ledger.durableBytes
      && s.m.ledger.quarantineBytes == r.m.ledger.quarantineBytes
  {
    var r := w.run.value;
    AppendInv(c, r, false, limits);
    PersistInv(c, AppendStep(c, r, false, limits), Saved, limits);
    v := Next(c, Next(c, w, Append(Whole, Raised(residue)), limits), Persist(Saved), limits);
  }

  /** The publisher takes the next item. */
  lemma {:induction false} TakesNext(c: Codec, w: World, item: Item, limits: Limits) returns (v: World)
    requires w.run.Some? && RunInv(c, w.run.value, limits) && w.run.value.phase.Idle? && w.run.value.m.queue == [item] && limits.batch >= 1
    ensures Enabled(w, Take) && v == Next(c, w, Take, limits)
    ensures v.disk == w.disk && v.run.Some? && RunInv(c, v.run.value, limits)
    ensures var r, s := w.run.value, v.run.value;
      s.phase == Planning([item], NewPlan(r.m.ledger)) && s.rows == r.rows && s.m.ledger == r.m.ledger
  {
    TakeInv(c, w.run.value, limits);
    assert w.run.value.m.queue[..1] == [item];
    v := Next(c, w, Take, limits);
  }

  /** The first batch fails leaving these bytes, the second lands. */
  function FailThenLand(p: Prepared, size: nat, residue: seq<Byte>): seq<Event> {
    [Take, Accept(Ready(p, size), OpenGate), PlanNext, Append(Whole, Raised(residue)), Persist(Saved), Take, PlanNext,
     Append(Whole, Whole), WriteWatermark(Saved)]
  }

  lemma {:induction false} RunTwoMore(c: Codec, w: World, events: seq<Event>, e: Event, f: Event, limits: Limits)
    requires Runs(c, w, events, limits) && Enabled(After(c, w, events, limits), e)
    requires Enabled(Next(c, After(c, w, events, limits), e, limits), f)
    ensures Runs(c, w, events + [e, f], limits)
    ensures After(c, w, events + [e, f], limits) == Next(c, Next(c, After(c, w, events, limits), e, limits), f, limits)
  {
    RunOneMore(c, w, events, e, limits);
    RunOneMore(c, w, events + [e], f, limits);
    assert events + [e] + [f] == events + [e, f];
  }

  lemma {:induction false} RunConcat(c: Codec, w: World, a: seq<Event>, b: seq<Event>, limits: Limits)
    requires Runs(c, w, a, limits) && Runs(c, After(c, w, a, limits), b, limits)
    ensures Runs(c, w, a + b, limits) && After(c, w, a + b, limits) == After(c, After(c, w, a, limits), b, limits)
    decreases |a|
  {
    if a == [] {
      assert a + b == b;
    } else {
      assert (a + b)[1..] == a[1..] + b;
      RunConcat(c, Next(c, w, a[0], limits), a[1..], b, limits);
    }
  }

  /** The first batch, up to its failure. */
  lemma {:induction false} FirstPlanned(c: Codec, w: World, item: Item, p: Prepared, size: nat, e: seq<Event>, limits: Limits) returns (v: World)
    requires OneQueued(c, w, item, limits) && Admits(w.run.value.m, p, size, limits) && RoomFor(c, w.run.value, item.prepared, limits)
    requires e == [Take, Accept(Ready(p, size), OpenGate), PlanNext]
    ensures Runs(c, w, e, limits) && v == After(c, w, e, limits)
    ensures v.disk == w.disk && v.run.Some? && RunInv(c, v.run.value, limits) && v.run.value.rows == w.run.value.rows
    ensures var s := v.run.value;
      && s.phase.Planning? && s.phase.rest == [] && s.phase.plan.records != [] && s.phase.plan.held == []
      && s.m.ledger == w.run.value.m.ledger && |s.m.queue| == 1 && !s.m.queue[0].quarantine && s.m.queue[0].prepared == p
  {
    var w2 := TakesAndAdmits(c, w, item, p, size, limits);
    RunTwoMore(c, w, [], e[0], e[1], limits);
    assert [] + [e[0], e[1]] == e[..2];
    v := PlansOne(c, w2, item, limits);
    RunOneMore(c, w, e[..2], e[2], limits);
    assert e[..2] + [e[2]] == e;
  }

  /** The first batch fails, and the second is planned over what it left. */
  lemma {:induction false} FailsThenPlans(c: Codec, w: World, p: Prepared, residue: seq<Byte>, e: seq<Event>, limits: Limits) returns (v: World)
    requires w.run.Some? && RunInv(c, w.run.value, limits) && w.disk.observations == Encode(c, w.run.value.rows) && limits.batch >= 1
    requires var s := w.run.value;
      && s.phase.Planning? && s.phase.rest == [] && s.phase.plan.records != [] && s.phase.plan.held == []
      && |s.m.queue| == 1 && !s.m.queue[0].quarantine && s.m.queue[0].prepared == p && RoomFor(c, s, p, limits)
    requires e == [Append(Whole, Raised(residue)), Persist(Saved), Take, PlanNext]
    ensures Runs(c, w, e, limits) && v == After(c, w, e, limits)
    ensures ReadyOver(c, v, residue, limits) && v.run.value.rows == w.run.value.rows
    ensures v.run.value.phase.plan.records == [Record(|w.run.value.rows| + 1, p)]
  {
    var item := w.run.value.m.queue[0];
    assert w.run.value.m.queue == [item];
    var w2 := FailsAndPersists(c, w, residue, limits);
    RunTwoMore(c, w, [], e[0], e[1], limits);
    assert [] + [e[0], e[1]] == e[..2];
    var w3 := TakesNext(c, w2, item, limits);
    RunOneMore(c, w, e[..2], e[2], limits);
    assert e[..2] + [e[2]] == e[..3];
    v := PlansOne(c, w3, item, limits);
    RunOneMore(c, w, e[..3], e[3], limits);
    assert e[..3] + [e[3]] == e;
  }

  lemma {:induction false} SecondPlanned(c: Codec, w: World, item: Item, p: Prepared, size: nat, residue: seq<Byte>, limits: Limits)
    returns (v: World)
    requires OneQueued(c, w, item, limits) && Admits(w.run.value.m, p, size, limits)
    requires RoomFor(c, w.run.value, item.prepared, limits) && RoomFor(c, w.run.value, p, limits)
    ensures Runs(c, w, FailThenLand(p, size, residue)[..7], limits) && v == After(c, w, FailThenLand(p, size, residue)[..7], limits)
    ensures ReadyOver(c, v, residue, limits) && v.run.value.rows == w.run.value.rows
    ensures v.run.value.phase.plan.records == [Record(|w.run.value.rows| + 1, p)]
  {
    var first := [Take, Accept(Ready(p, size), OpenGate), PlanNext];
    var second := [Append(Whole, Raised(residue)), Persist(Saved), Take, PlanNext];
    var w3 := FirstPlanned(c, w, item, p, size, first, limits);
    v := FailsThenPlans(c, w3, p, residue, second, limits);
    RunConcat(c, w, first, second, limits);
    assert FailThenLand(p, size, residue)[..7] == first + second;
  }

  /** From any sound idle state with one ordinary item queued: when its append fails
      leaving some bytes and the publisher goes on to the next item, the durable
      watermark names its rows exactly when nothing was left or what was left begins
      with the next row's line. */
  lemma {:induction false} FailedAppendIff(c: Codec, w: World, item: Item, p: Prepared, size: nat, residue: seq<Byte>, limits: Limits)
    requires Sound(c) && OneQueued(c, w, item, limits) && Admits(w.run.value.m, p, size, limits)
    requires RoomFor(c, w.run.value, item.prepared, limits) && RoomFor(c, w.run.value, p, limits)
    ensures Runs(c, w, FailThenLand(p, size, residue), limits)
    ensures var v := After(c, w, FailThenLand(p, size, residue), limits);
      var next := Record(|w.run.value.rows| + 1, p);
      && v.log == w.run.value.rows + [next] && (Publishes(c, v.disk, v.log) <==> residue == [] || c.enc(next) <= residue)
  {
    var e := FailThenLand(p, size, residue);
    var w7 := SecondPlanned(c, w, item, p, size, residue, limits);
    WholeAppendIff(c, w7, residue, Whole, limits);
    RunTwoMore(c, w, e[..7], e[7], e[8], limits);
    assert e[..7] + [e[7], e[8]] == e;
  }

  // ---------------------------------------------------------------- from an empty archive

  function FirstAdmitted(p: Prepared, size: nat): seq<Event> {
    [Start(Saved), Accept(Ready(p, size), OpenGate)]
  }

  /** Room for either of two observations, one at a time. */
  predicate Roomy(c: Codec, p: Prepared, q: Prepared, size: nat, limits: Limits) {
    && size <= limits.maxEvent && size <= limits.bytes && limits.count >= 1 && limits.batch >= 1
    && |c.enc(Record(1, p))| <= limits.capacity && |c.enc(Record(1, q))| <= limits.capacity
  }

  const EmptyRun := Running(Memory(FreshLedger, [], 0, map[], 0), [], Idle, [], FreshLedger, [], Tally(0, 0, 0, 0, 0))

  function QueuedRun(p: Prepared, size: nat): Running {
    Running(Memory(FreshLedger, [Item(p, size, false, 0)], size, map[p.identity := p.hash], 0), [], Idle, [], FreshLedger, [], Tally(1, 0, 0, 0, 0))
  }

  lemma {:induction false} StartsEmpty(c: Codec)
    ensures StartStep(c, Nothing, Saved) == World(Disk([], [], Some(FreshLedger)), [], Some(EmptyRun))
  {}

  lemma {:induction false} AcceptsFirst(p: Prepared, size: nat, limits: Limits)
    requires size <= limits.maxEvent && size <= limits.bytes && limits.count >= 1
    ensures AcceptStep(EmptyRun, Ready(p, size), OpenGate, limits) == QueuedRun(p, size)
  {
    assert [] + [Item(p, size, false, 0)] == [Item(p, size, false, 0)];
  }

  lemma {:induction false} FirstRun(c: Codec, p: Prepared, size: nat, limits: Limits)
    requires size <= limits.maxEvent && size <= limits.bytes && limits.count >= 1
    ensures Runs(c, Nothing, FirstAdmitted(p, size), limits)
    ensures After(c, Nothing, FirstAdmitted(p, size), limits) == World(Disk([], [], Some(FreshLedger)), [], Some(QueuedRun(p, size)))
  {
    StartsEmpty(c);
    AcceptsFirst(p, size, limits);
    RunTwoMore(c, Nothing, [], Start(Saved), Accept(Ready(p, size), OpenGate), limits);
    assert [] + [Start(Saved), Accept(Ready(p, size), OpenGate)] == FirstAdmitted(p, size);
  }

  /** One observation admitted into an empty archive. */
  lemma {:induction false} FirstIdle(c: Codec, p: Prepared, size: nat, limits: Limits) returns (v: World)
    requires Sound(c) && size <= limits.maxEvent && size <= limits.bytes && limits.count >= 1
    ensures Runs(c, Nothing, FirstAdmitted(p, size), limits) && v == After(c, Nothing, FirstAdmitted(p, size), limits)
    ensures v == World(Disk([], [], Some(FreshLedger)), [], Some(QueuedRun(p, size))) && OneQueued(c, v, Item(p, size, false, 0), limits)
  {
    var e := FirstAdmitted(p, size);
    FirstRun(c, p, size, limits);
    v := World(Disk([], [], Some(FreshLedger)), [], Some(QueuedRun(p, size)));
    assert RunInv(c, v.run.value, limits) by {
      assert Encode(c, []) == [];
      RunInvariant(c, Nothing, e, limits);
    }
    assert QueueSafe(v.run.value.m, limits) by {
      SaneRun(c, Nothing, e, limits);
    }
    assert Encode(c, []) == [];
  }

  lemma {:induction false} FirstQueued(c: Codec, p: Prepared, q: Prepared, size: nat, limits: Limits) returns (v: World)
    requires Sound(c) && p.identity != q.identity && Roomy(c, p, q, size, limits)
    ensures Runs(c, Nothing, FirstAdmitted(p, size), limits) && v == After(c, Nothing, FirstAdmitted(p, size), limits)
    ensures OneQueued(c, v, Item(p, size, false, 0), limits) && Admits(v.run.value.m, q, size, limits) && v.run.value.rows == []
    ensures RoomFor(c, v.run.value, p, limits) && RoomFor(c, v.run.value, q, limits)
  {
    v := FirstIdle(c, p, size, limits);
  }

  /** The same from an empty archive: two observations of different sources, the first
      append fails, and the watermark of the second names its row exactly when nothing
      was left or what was left begins with that row's line. */
  lemma {:induction false} FailedAppendFromNothing(c: Codec, p: Prepared, q: Prepared, size: nat, residue: seq<Byte>, limits: Limits)
    requires Sound(c) && p.identity != q.identity && Roomy(c, p, q, size, limits)
    ensures Runs(c, Nothing, FirstAdmitted(p, size) + FailThenLand(q, size, residue), limits)
    ensures var v := After(c, Nothing, FirstAdmitted(p, size) + FailThenLand(q, size, residue), limits);
      v.log == [Record(1, q)] && (Publishes(c, v.disk, v.log) <==> residue == [] || c.enc(Record(1, q)) <= residue)
  {
    var w := FirstQueued(c, p, q, size, limits);
    FailedAppendIff(c, w, Item(p, size, false, 0), q, size, residue, limits);
    RunConcat(c, Nothing, FirstAdmitted(p, size), FailThenLand(q, size, residue), limits);
    assert [] + [Record(1, q)] == [Record(1, q)];
  }

  lemma {:induction false} SinglePrefix(line: seq<Byte>, x: Byte)
    requires line != []
    ensures line <= [x] <==> line == [x]
  {}

  /** One stray byte is enough: a run from an empty archive after which the durable
      watermark does not name its rows. */
  lemma {:induction false} FailedAppendBreaksPrefix(c: Codec, p: Prepared, q: Prepared, size: nat, x: Byte, limits: Limits)
    requires Sound(c) && p.identity != q.identity && Roomy(c, p, q, size, limits) && c.enc(Record(1, q)) != [x]
    ensures Runs(c, Nothing, FirstAdmitted(p, size) + FailThenLand(q, size, [x]), limits)
    ensures var v := After(c, Nothing, FirstAdmitted(p, size) + FailThenLand(q, size, [x]), limits); !Publishes(c, v.disk, v.log)
  {
    FailedAppendFromNothing(c, p, q, size, [x], limits);
    var line := c.enc(Record(1, q));
    assert Readable(c, Record(1, q));
    SinglePrefix(line, x);
  }

  // ---------------------------------------------------------------- capacity refusals and a failed watermark

  function RefusedThenDead(): seq<Event> {
    [Take, PlanNext, Append(Whole, Whole), WriteWatermark(NotReplaced)]
  }

  function RefusedLedger(l: Ledger): Ledger {
    l.(capacityStop := true, capacityRefused := l.capacityRefused + 1)
  }

  /** A publisher planning one item, and the same after the item found no room. */
  lemma {:induction false} RefusesOne(c: Codec, r: Running, item: Item, limits: Limits)
    requires r.phase == Planning([item], NewPlan(r.m.ledger)) && !item.quarantine
    requires r.m.ledger.durableBytes + r.m.ledger.quarantineBytes + |c.enc(Record(r.m.ledger.durableSeq + 1, item.prepared))| > limits.capacity
    ensures var s := PlanStep(c, r, limits);
      && s.phase == Planning([], NewPlan(r.m.ledger).(refused := 1)) && s.m.ledger == RefusedLedger(r.m.ledger)
      && s.m.publishing == r.m.publishing && s.m.queue == r.m.queue && s.base == r.base && s.rows == r.rows
      && s.tally == r.tally.(turnedAway := r.tally.turnedAway + 1)
  {
    assert [item][1..] == [];
  }

  lemma {:induction false} TakesOnly(r: Running, item: Item, limits: Limits)
    requires r.phase.Idle? && r.m.queue == [item] && limits.batch >= 1
    ensures var s := TakeStep(r, limits);
      && s.phase == Planning([item], NewPlan(r.m.ledger)) && s.m.ledger == r.m.ledger && s.m.publishing == 1 && s.m.queue == []
      && s.base == r.base && s.rows == r.rows && s.tally == r.tally
  {
    assert [item][..1] == [item] && [item][1..] == [];
  }

  /** An empty plan is appended, and its watermark write fails. */
  lemma {:induction false} DiesWithPlan(c: Codec, w: World, plan: Plan, limits: Limits)
    requires w.run.Some? && w.run.value.phase == Planning([], plan) && plan.records == [] && plan.held == []
    ensures Enabled(w, Append(Whole, Whole)) && Enabled(Next(c, w, Append(Whole, Whole), limits), WriteWatermark(NotReplaced))
    ensures var r, v := w.run.value, Next(c, Next(c, w, Append(Whole, Whole), limits), WriteWatermark(NotReplaced), limits);
      && v.run.Some? && v.run.value.phase == Dead(plan) && v.run.value.m.ledger == r.m.ledger.(storageFailure := true)
      && v.run.value.m.publishing == r.m.publishing && v.run.value.m.queue == r.m.queue && v.run.value.base == r.base
      && v.run.value.tally == r.tally
  {}

  lemma {:induction false} RefusedPlanned(c: Codec, w: World, item: Item, limits: Limits) returns (v: World)
    requires w.run.Some? && w.run.value.phase.Idle? && w.run.value.m.queue == [item] && !item.quarantine && limits.batch >= 1
    requires var l := w.run.value.m.ledger;
      l.durableBytes + l.quarantineBytes + |c.enc(Record(l.durableSeq + 1, item.prepared))| > limits.capacity
    ensures Enabled(w, Take) && Enabled(Next(c, w, Take, limits), PlanNext) && v == Next(c, Next(c, w, Take, limits), PlanNext, limits)
    ensures v.run.Some?
    ensures var r, s := w.run.value, v.run.value;
      && s.phase == Planning([], NewPlan(r.m.ledger).(refused := 1)) && s.m.ledger == RefusedLedger(r.m.ledger)
      && s.m.publishing == 1 && s.m.queue == [] && s.base == r.base && s.tally == r.tally.(turnedAway := r.tally.turnedAway + 1)
  {
    TakesOnly(w.run.value, item, limits);
    RefusesOne(c, TakeStep(w.run.value, limits), item, limits);
    v := Next(c, Next(c, w, Take, limits), PlanNext, limits);
  }

  /** A unit that finds no room before a failed watermark write is counted once more
      than it was inserted. */
  lemma {:induction false} RefusedTwice(c: Codec, w: World, item: Item, limits: Limits) returns (v: World)
    requires w.run.Some? && w.run.value.phase.Idle? && w.run.value.m.queue == [item] && !item.quarantine && limits.batch >= 1
    requires w.run.value.m.publishing == 0
    requires var l := w.run.value.m.ledger;
      l.durableBytes + l.quarantineBytes + |c.enc(Record(l.durableSeq + 1, item.prepared))| > limits.capacity
    ensures Runs(c, w, RefusedThenDead(), limits) && v == After(c, w, RefusedThenDead(), limits)
    ensures v.run.Some? && v.run.value.phase.Dead? && v.run.value.phase.plan.refused == 1
    ensures v.run.value.tally.inserted == w.run.value.tally.inserted && Accounted(v.run.value) == Accounted(w.run.value) + 1
  {
    var e := RefusedThenDead();
    var w2 := RefusedPlanned(c, w, item, limits);
    RunTwoMore(c, w, [], e[0], e[1], limits);
    assert [] + [e[0], e[1]] == e[..2];
    DiesWithPlan(c, w2, w2.run.value.phase.plan, limits);
    RunTwoMore(c, w, e[..2], e[2], e[3], limits);
    assert e[..2] + [e[2], e[3]] == e;
    v := After(c, w, e, limits);
  }

  /** A run from an empty archive in which the one unit finds no room and the watermark
      write then fails: the unit is counted as refused and as being published. */
  lemma {:induction false} RefusalCountedTwice(c: Codec, p: Prepared, size: nat, limits: Limits)
    requires size <= limits.maxEvent && size <= limits.bytes && limits.count >= 1 && limits.batch >= 1
    requires |c.enc(Record(1, p))| > limits.capacity
    ensures Runs(c, Nothing, FirstAdmitted(p, size) + RefusedThenDead(), limits)
    ensures var v := After(c, Nothing, FirstAdmitted(p, size) + RefusedThenDead(), limits);
      v.run.Some? && v.run.value.phase.Dead? && v.run.value.phase.plan.refused == 1
      && Accounted(v.run.value) == v.run.value.tally.inserted + 1
  {
    FirstRun(c, p, size, limits);
    var w := World(Disk([], [], Some(FreshLedger)), [], Some(QueuedRun(p, size)));
    var v := RefusedTwice(c, w, Item(p, size, false, 0), limits);
    RunConcat(c, Nothing, FirstAdmitted(p, size), RefusedThenDead(), limits);
  }

  // ---------------------------------------------------------------- a local sequence out of range

  function PublishOne(): seq<Event> {
    [Take, PlanNext, Append(Whole, Whole), WriteWatermark(Saved), Finish]
  }

  lemma {:induction false} AppendsOne(c: Codec, w: World, item: Item, e: seq<Event>, limits: Limits) returns (v: World)
    requires OneQueued(c, w, item, limits) && RoomFor(c, w.run.value, item.prepared, limits) && limits.batch >= 1
    requires e == [Take, PlanNext, Append(Whole, Whole)]
    ensures Runs(c, w, e, limits) && v == After(c, w, e, limits) && v.run.Some? && v.run.value.phase.Staged?
    ensures v.run.value.rows == w.run.value.rows && v.run.value.phase.plan.records == [Record(|w.run.value.rows| + 1, item.prepared)]
  {
    var w1 := TakesNext(c, w, item, limits);
    var w2 := PlansOne(c, w1, item, limits);
    RunTwoMore(c, w, [], e[0], e[1], limits);
    assert [] + [e[0], e[1]] == e[..2];
    v := AppendedFile(c, w2, Whole, Whole, limits);
    RunOneMore(c, w, e[..2], e[2], limits);
    assert e[..2] + [e[2]] == e;
  }

  /** One queued item taken, planned, appended whole, and made durable and visible. */
  lemma {:induction false} PublishesOne(c: Codec, w: World, item: Item, limits: Limits) returns (v: World)
    requires OneQueued(c, w, item, limits) && RoomFor(c, w.run.value, item.prepared, limits) && limits.batch >= 1
    ensures Runs(c, w, PublishOne(), limits) && v == After(c, w, PublishOne(), limits)
    ensures v.log == w.run.value.rows + [Record(|w.run.value.rows| + 1, item.prepared)]
  {
    var first, last := [Take, PlanNext, Append(Whole, Whole)], [WriteWatermark(Saved), Finish];
    var staged := AppendsOne(c, w, item, first, limits);
    v := FinishesOne(c, staged, limits);
    RunTwoMore(c, staged, [], last[0], last[1], limits);
    assert [] + [last[0], last[1]] == last;
    RunConcat(c, w, first, last, limits);
    assert first + last == PublishOne();
  }

  lemma {:induction false} FinishesOne(c: Codec, w: World, limits: Limits) returns (v: World)
    requires w.run.Some? && w.run.value.phase.Staged?
    ensures Enabled(w, WriteWatermark(Saved)) && Enabled(Next(c, w, WriteWatermark(Saved), limits), Finish)
    ensures v == Next(c, Next(c, w, WriteWatermark(Saved), limits), Finish, limits)
    ensures v.log == w.run.value.rows + w.run.value.phase.plan.records
  {
    v := Next(c, Next(c, w, WriteWatermark(Saved), limits), Finish, limits);
  }

  lemma {:induction false} OneRowRun(c: Codec, p: Prepared, size: nat, limits: Limits) returns (v: World)
    requires Sound(c) && Roomy(c, p, p, size, limits)
    ensures Runs(c, Nothing, FirstAdmitted(p, size) + PublishOne(), limits)
    ensures v == After(c, Nothing, FirstAdmitted(p, size) + PublishOne(), limits) && v.log == [Record(1, p)]
  {
    var w := FirstIdle(c, p, size, limits);
    v := PublishesOne(c, w, Item(p, size, false, 0), limits);
    RunConcat(c, Nothing, FirstAdmitted(p, size), PublishOne(), limits);
    assert [] + [Record(1, p)] == [Record(1, p)];
  }

  /** A run from an empty archive that publishes one row within the size bounds whose
      local sequence is one more than the archive's files may hold: every restart
      recovers the row, and verification refuses the archive. */
  lemma {:induction false} OversizedRowRefused(c: Codec, p: Prepared, size: nat, observations: seq<Byte>, quarantine: seq<Byte>, limits: Limits)
    requires Sound(c) && Roomy(c, p, p, size, limits) && p.identity.1 == MAX_REVISION + 1 && |c.enc(Record(1, p))| <= LINE
    ensures Runs(c, Nothing, FirstAdmitted(p, size) + PublishOne(), limits)
    ensures var v := After(c, Nothing, FirstAdmitted(p, size) + PublishOne(), limits);
      && v.log == [Record(1, p)] && WithinBounds(c, v.log)
      && StartUp(c, Torn(v.disk, observations, quarantine)).2.index == IndexOf(c, v.log)
      && Verify(c, Encode(c, v.log), 0, 0, {}).None?
  {
    var e := FirstAdmitted(p, size) + PublishOne();
    var v := OneRowRun(c, p, size, limits);
    EveryRestartRecovers(c, e, observations, quarantine, limits);
    ReachableArchiveVerifies(c, e, limits);
    assert v.log[0].prepared.identity.1 > MAX_REVISION;
  }
}
