/** Publication of one batch (archive/collector.py, _publish_inner, _append and
    _persist_state): plan lines within the capacity, append them, write the
    watermark, and only then advance what is visible. */
module CollectorPublish {
  import opened Common
  import opened Lines
  import opened CollectorQueue
  import opened ArchiveFile

  /** The lines planned so far: items whose rows are kept, their rows, quarantined
      observations, capacity refusals, and the archive bytes used with them. */
  datatype Plan = Plan(kept: seq<Item>, records: seq<Record>, held: seq<Prepared>, refused: nat, used: nat, nextSeq: nat)

  function NewPlan(l: Ledger): Plan {
    Plan([], [], [], 0, l.durableBytes + l.quarantineBytes, l.durableSeq)
  }

  function EncodeHeld(c: Codec, held: seq<Prepared>): seq<Byte> {
    if held == [] then [] else EncodeHeld(c, held[..|held| - 1]) + c.held(held[|held| - 1])
  }

  function RefuseForCapacity(m: Memory): Memory {
    m.(ledger := m.ledger.(capacityStop := true, capacityRefused := m.ledger.capacityRefused + 1))
  }

  /** One item of the batch. */
  function PlanItem(c: Codec, m: Memory, plan: Plan, item: Item, limits: Limits): (Memory, Plan) {
    if item.quarantine then
      var bytes := |c.held(item.prepared)|;
      if plan.used + bytes > limits.capacity then (RefuseForCapacity(m), plan.(refused := plan.refused + 1))
      else (m, plan.(held := plan.held + [item.prepared], used := plan.used + bytes))
    else
      var record := Record(plan.nextSeq + 1, item.prepared);
      var bytes := |c.enc(record)|;
      if plan.used + bytes > limits.capacity then
        (RefuseForCapacity(m).(identities := m.identities - {item.prepared.identity}), plan.(refused := plan.refused + 1))
      else
        (m, plan.(kept := plan.kept + [item], records := plan.records + [record], used := plan.used + bytes, nextSeq := plan.nextSeq + 1))
  }

  function PlanBatch(c: Codec, m: Memory, plan: Plan, batch: seq<Item>, limits: Limits): (Memory, Plan)
    decreases |batch|
  {
    if batch == [] then (m, plan)
    else
      var (m', plan') := PlanItem(c, m, plan, batch[0], limits);
      PlanBatch(c, m', plan', batch[1..], limits)
  }

  // ---------------------------------------------------------------- appending

  /** How one append ends: everything on file; fewer bytes than asked and no error,
      because the count the write returns is not looked at; or an error, with
      whatever bytes reached the file. */
  datatype Landing = Whole | Short(n: nat) | Raised(bytes: seq<Byte>)

  function Land(file: seq<Byte>, data: seq<Byte>, l: Landing): (seq<Byte>, bool) {
    match l
    case Whole => (file + data, true)
    case Short(n) => (file + data[..Min(n, |data|)], true)
    case Raised(bytes) => (file + bytes, false)
  }

  /** Quarantine lines first, then observation lines; either only when there are any. */
  function AppendLines(c: Codec, d: Disk, plan: Plan, held: Landing, rows: Landing): (Disk, bool) {
    var (quarantine, ok) := if plan.held == [] then (d.quarantine, true) else Land(d.quarantine, EncodeHeld(c, plan.held), held);
    if !ok || plan.records == [] then (d.(quarantine := quarantine), ok)
    else
      var (observations, done) := Land(d.observations, Encode(c, plan.records), rows);
      (d.(quarantine := quarantine, observations := observations), done)
  }

  function IdsOf(records: seq<Record>): set<Identity> {
    set i | 0 <= i < |records| :: records[i].prepared.identity
  }

  function AppendFailed(m: Memory, plan: Plan): Memory {
    m.(ledger := m.ledger.(storageFailure := true, storageFailed := m.ledger.storageFailed + |plan.records| + |plan.held|),
       identities := m.identities - IdsOf(plan.records), publishing := 0)
  }

  // ---------------------------------------------------------------- the watermark

  function Pending(c: Codec, l: Ledger, plan: Plan, limits: Limits): Ledger {
    var bytes, held := |Encode(c, plan.records)|, |EncodeHeld(c, plan.held)|;
    var next := l.(durableOffset := l.durableOffset + bytes, durableBytes := l.durableBytes + bytes,
                   quarantineBytes := l.quarantineBytes + held, durableSeq := l.durableSeq + |plan.records|);
    next.(capacityStop := l.capacityStop || next.durableBytes + next.quarantineBytes >= limits.capacity)
  }

  datatype SaveIo = Saved | NotReplaced | ReplacedThenFailed

  function Save(d: Disk, l: Ledger, io: SaveIo): Disk {
    if io.NotReplaced? then d else d.(saved := Some(l))
  }

  function StorageFailed(m: Memory): Memory {
    m.(ledger := m.ledger.(storageFailure := true))
  }

  /** Entries for rows laid out from an offset. */
  function EntriesFrom(c: Codec, records: seq<Record>, offset: nat): seq<Entry> {
    if records == [] then []
    else
      var front := records[..|records| - 1];
      EntriesFrom(c, front, offset) + [Entry(records[|records| - 1], offset + |Encode(c, front)|, |c.enc(records[|records| - 1])|)]
  }

  function IdentifyAll(ids: map<Identity, Hash>, records: seq<Record>): map<Identity, Hash> {
    if records == [] then ids else Identify(IdentifyAll(ids, records[..|records| - 1]), records[|records| - 1])
  }

  /** After the watermark is written: index the rows and take over the staged keys. */
  function Commit(c: Codec, m: Memory, index: seq<Entry>, plan: Plan, pending: Ledger): (Memory, seq<Entry>) {
    var l := m.ledger.(durableSeq := pending.durableSeq, durableOffset := pending.durableOffset, durableBytes := pending.durableBytes,
                       quarantineBytes := pending.quarantineBytes, capacityStop := m.ledger.capacityStop || pending.capacityStop);
    (m.(ledger := l, identities := IdentifyAll(m.identities, plan.records), publishing := 0),
     index + EntriesFrom(c, plan.records, pending.durableOffset - Min(pending.durableOffset, |Encode(c, plan.records)|)))
  }

  // ---------------------------------------------------------------- one whole publication

  /** What happens to the writes of one publication. */
  datatype PublishIo = PublishIo(held: Landing, rows: Landing, save: SaveIo)

  datatype Published = Published(m: Memory, index: seq<Entry>, disk: Disk, alive: bool)

  /** A publication that nothing else interleaves with. */
  function PublishOf(c: Codec, m: Memory, index: seq<Entry>, d: Disk, batch: seq<Item>, limits: Limits, io: PublishIo): Published {
    var (planned, plan) := PlanBatch(c, m, NewPlan(m.ledger), batch, limits);
    var (appended, ok) := AppendLines(c, d, plan, io.held, io.rows);
    if !ok then
      var failed := AppendFailed(planned, plan);
      Published(failed, index, Save(appended, failed.ledger, io.save), io.save.Saved?)
    else
      var pending := Pending(c, planned.ledger, plan, limits);
      var saved := Save(appended, pending, io.save);
      if !io.save.Saved? then Published(StorageFailed(planned), index, saved, false)
      else
        var (committed, entries) := Commit(c, planned, index, plan, pending);
        Published(committed, entries, saved, true)
  }

  // ---------------------------------------------------------------- which lines a publication writes

  /** Rows among the first n items of the batch that are taken. */
  function RowsTaken(batch: seq<Item>, taken: seq<bool>, n: nat): nat
    requires n <= |batch| && n <= |taken|
  {
    if n == 0 then 0 else RowsTaken(batch, taken, n - 1) + (if taken[n - 1] && !batch[n - 1].quarantine then 1 else 0)
  }

  /** The line of item n: a quarantined observation, or a row with the next number. */
  function LineOfItem(c: Codec, batch: seq<Item>, taken: seq<bool>, last: int, n: nat): seq<Byte>
    requires n < |batch| && n <= |taken|
  {
    if batch[n].quarantine then c.held(batch[n].prepared) else c.enc(Record(last + RowsTaken(batch, taken, n) + 1, batch[n].prepared))
  }

  /** Lines of the taken items among the first n, of one kind, in batch order. */
  function LinesTaken(c: Codec, batch: seq<Item>, taken: seq<bool>, last: int, n: nat, quarantine: bool): seq<Byte>
    requires n <= |batch| && n <= |taken|
  {
    if n == 0 then []
    else
      LinesTaken(c, batch, taken, last, n - 1, quarantine)
      + (if taken[n - 1] && batch[n - 1].quarantine == quarantine then LineOfItem(c, batch, taken, last, n - 1) else [])
  }

  function BytesTaken(c: Codec, batch: seq<Item>, taken: seq<bool>, last: int, n: nat): nat
    requires n <= |batch| && n <= |taken|
  {
    |LinesTaken(c, batch, taken, last, n, true)| + |LinesTaken(c, batch, taken, last, n, false)|
  }

  /** An item is taken exactly when its line still fits the capacity after those taken
      before it. */
  ghost predicate TakesWhatFits(c: Codec, batch: seq<Item>, taken: seq<bool>, used: int, last: int, capacity: int) {
    && |taken| == |batch|
    && forall n :: 0 <= n < |batch| ==>
         (taken[n] <==> used + BytesTaken(c, batch, taken, last, n) + |LineOfItem(c, batch, taken, last, n)| <= capacity)
  }

  /** Items among the first n that were not taken. */
  function Turned(taken: seq<bool>, n: nat): (turned: nat)
    requires n <= |taken|
    ensures turned <= n
  {
    if n == 0 then 0 else Turned(taken, n - 1) + (if taken[n - 1] then 0 else 1)
  }

  /** A plan of so many rows and these lines. */
  predicate Holds(c: Codec, l: Ledger, plan: Plan, rows: nat, held: seq<Byte>, observations: seq<Byte>) {
    && plan.nextSeq == l.durableSeq + rows && |plan.records| == rows
    && EncodeHeld(c, plan.held) == held && Encode(c, plan.records) == observations
    && plan.used == l.durableBytes + l.quarantineBytes + |held| + |observations|
  }

  /** The plan after n items, told by the items taken. */
  ghost predicate PlanTells(c: Codec, batch: seq<Item>, taken: seq<bool>, l: Ledger, plan: Plan, n: nat, capacity: int) {
    && n <= |batch| && |taken| == n
    && Holds(c, l, plan, RowsTaken(batch, taken, n), LinesTaken(c, batch, taken, l.durableSeq, n, true),
             LinesTaken(c, batch, taken, l.durableSeq, n, false))
    && plan.refused == Turned(taken, n)
    && TakesWhatFits(c, batch[..n], taken, l.durableBytes + l.quarantineBytes, l.durableSeq, capacity)
  }

  /** What was taken before does not change with what comes after. */
  lemma {:induction false} TakenBefore(c: Codec, batch: seq<Item>, other: seq<Item>, taken: seq<bool>, more: seq<bool>, last: int, n: nat)
    requires n <= |batch| && n <= |other| && n <= |taken| && n <= |more|
    requires batch[..n] == other[..n] && taken[..n] == more[..n]
    ensures RowsTaken(batch, taken, n) == RowsTaken(other, more, n)
    ensures forall q :: LinesTaken(c, batch, taken, last, n, q) == LinesTaken(c, other, more, last, n, q)
    ensures n < |batch| && n < |other| && batch[n] == other[n] ==>
      LineOfItem(c, batch, taken, last, n) == LineOfItem(c, other, more, last, n)
  {
    if n > 0 {
      assert batch[n - 1] == batch[..n][n - 1] && other[n - 1] == other[..n][n - 1];
      assert taken[n - 1] == taken[..n][n - 1] && more[n - 1] == more[..n][n - 1];
      assert batch[..n - 1] == batch[..n][..n - 1] && other[..n - 1] == other[..n][..n - 1];
      assert taken[..n - 1] == taken[..n][..n - 1] && more[..n - 1] == more[..n][..n - 1];
      TakenBefore(c, batch, other, taken, more, last, n - 1);
    }
  }

  lemma {:induction false} FitsMore(c: Codec, batch: seq<Item>, taken: seq<bool>, used: int, last: int, capacity: int, n: nat, t: bool)
    requires n < |batch| && TakesWhatFits(c, batch[..n], taken, used, last, capacity)
    requires t <==> used + BytesTaken(c, batch, taken, last, n) + |LineOfItem(c, batch, taken, last, n)| <= capacity
    ensures TakesWhatFits(c, batch[..n + 1], taken + [t], used, last, capacity)
  {
    var grown, more := batch[..n + 1], taken + [t];
    forall k | 0 <= k < |grown|
      ensures more[k] <==> used + BytesTaken(c, grown, more, last, k) + |LineOfItem(c, grown, more, last, k)| <= capacity
    {
      if k < n {
        var front := batch[..n];
        assert grown[..k] == front[..k] && more[..k] == taken[..k] && grown[k] == front[k];
        TakenBefore(c, grown, front, more, taken, last, k);
      } else {
        assert grown[..k] == batch[..k] && more[..k] == taken[..k];
        TakenBefore(c, grown, batch, more, taken, last, k);
      }
    }
  }

  lemma {:induction false} EncodesMore(c: Codec, plan: Plan, p: Prepared, r: Record)
    ensures EncodeHeld(c, plan.held + [p]) == EncodeHeld(c, plan.held) + c.held(p)
    ensures Encode(c, plan.records + [r]) == Encode(c, plan.records) + c.enc(r)
  {
    assert (plan.held + [p])[..|plan.held|] == plan.held && (plan.records + [r])[..|plan.records|] == plan.records;
  }

  /** What one more item adds to the lines of each kind. */
  lemma {:induction false} LinesMore(c: Codec, batch: seq<Item>, taken: seq<bool>, last: int, n: nat, t: bool)
    requires n < |batch| && |taken| == n
    ensures var line, q := LineOfItem(c, batch, taken, last, n), batch[n].quarantine;
      && LinesTaken(c, batch, taken + [t], last, n + 1, q) == LinesTaken(c, batch, taken, last, n, q) + (if t then line else [])
      && LinesTaken(c, batch, taken + [t], last, n + 1, !q) == LinesTaken(c, batch, taken, last, n, !q)
      && RowsTaken(batch, taken + [t], n + 1) == RowsTaken(batch, taken, n) + (if t && !q then 1 else 0)
      && BytesTaken(c, batch, taken + [t], last, n + 1) == BytesTaken(c, batch, taken, last, n) + (if t then |line| else 0)
  {
    var more := taken + [t];
    assert more[..n] == taken[..n];
    TakenBefore(c, batch, batch, more, taken, last, n);
  }

  /** The line that planning makes of the next item. */
  function NextLine(c: Codec, plan: Plan, item: Item): seq<Byte> {
    if item.quarantine then c.held(item.prepared) else c.enc(Record(plan.nextSeq + 1, item.prepared))
  }

  /** The plan with the item's line added, or the item refused. */
  predicate Planned(c: Codec, plan: Plan, item: Item, next: Plan, t: bool) {
    if !t then next == plan.(refused := plan.refused + 1)
    else if item.quarantine then next == plan.(held := plan.held + [item.prepared], used := plan.used + |c.held(item.prepared)|)
    else
      var record := Record(plan.nextSeq + 1, item.prepared);
      next == plan.(kept := plan.kept + [item], records := plan.records + [record], used := plan.used + |c.enc(record)|,
                    nextSeq := plan.nextSeq + 1)
  }

  lemma {:induction false} HoldsMore(c: Codec, l: Ledger, plan: Plan, item: Item, next: Plan, t: bool,
                                     rows: nat, held: seq<Byte>, observations: seq<Byte>, line: seq<Byte>)
    requires Holds(c, l, plan, rows, held, observations) && Planned(c, plan, item, next, t)
    requires line == if item.quarantine then c.held(item.prepared) else c.enc(Record(l.durableSeq + rows + 1, item.prepared))
    ensures Holds(c, l, next, rows + (if t && !item.quarantine then 1 else 0),
                  held + (if t && item.quarantine then line else []), observations + (if t && !item.quarantine then line else []))
  {
    EncodesMore(c, plan, item.prepared, Record(plan.nextSeq + 1, item.prepared));
    assert held + [] == held && observations + [] == observations;
  }

  lemma {:induction false} HoldsNext(c: Codec, batch: seq<Item>, taken: seq<bool>, l: Ledger, plan: Plan, n: nat, next: Plan, t: bool)
    requires n < |batch| && |taken| == n && Planned(c, plan, batch[n], next, t)
    requires Holds(c, l, plan, RowsTaken(batch, taken, n), LinesTaken(c, batch, taken, l.durableSeq, n, true),
                   LinesTaken(c, batch, taken, l.durableSeq, n, false))
    ensures Holds(c, l, next, RowsTaken(batch, taken + [t], n + 1), LinesTaken(c, batch, taken + [t], l.durableSeq, n + 1, true),
                  LinesTaken(c, batch, taken + [t], l.durableSeq, n + 1, false))
  {
    var last, line := l.durableSeq, LineOfItem(c, batch, taken, l.durableSeq, n);
    var rows, held, observations := RowsTaken(batch, taken, n), LinesTaken(c, batch, taken, last, n, true), LinesTaken(c, batch, taken, last, n, false);
    HoldsMore(c, l, plan, batch[n], next, t, rows, held, observations, line);
    LinesMore(c, batch, taken, last, n, t);
    assert held + [] == held && observations + [] == observations;
  }

  lemma {:induction false} FitsNext(c: Codec, batch: seq<Item>, taken: seq<bool>, l: Ledger, plan: Plan, n: nat, capacity: int, t: bool)
    requires n < |batch| && |taken| == n
    requires plan.nextSeq == l.durableSeq + RowsTaken(batch, taken, n)
    requires plan.used == l.durableBytes + l.quarantineBytes + BytesTaken(c, batch, taken, l.durableSeq, n)
    requires TakesWhatFits(c, batch[..n], taken, l.durableBytes + l.quarantineBytes, l.durableSeq, capacity)
    requires t <==> plan.used + |NextLine(c, plan, batch[n])| <= capacity
    ensures TakesWhatFits(c, batch[..n + 1], taken + [t], l.durableBytes + l.quarantineBytes, l.durableSeq, capacity)
  {
    assert NextLine(c, plan, batch[n]) == LineOfItem(c, batch, taken, l.durableSeq, n);
    FitsMore(c, batch, taken, l.durableBytes + l.quarantineBytes, l.durableSeq, capacity, n, t);
  }

  lemma {:induction false} PlanTellsNext(c: Codec, batch: seq<Item>, taken: seq<bool>, l: Ledger, plan: Plan, n: nat, capacity: int,
                                         next: Plan, t: bool)
    requires PlanTells(c, batch, taken, l, plan, n, capacity) && n < |batch| && Planned(c, plan, batch[n], next, t)
    requires t <==> plan.used + |NextLine(c, plan, batch[n])| <= capacity
    ensures PlanTells(c, batch, taken + [t], l, next, n + 1, capacity)
  {
    FitsNext(c, batch, taken, l, plan, n, capacity, t);
    HoldsNext(c, batch, taken, l, plan, n, next, t);
    TurnedMore(taken, t);
  }

  lemma {:induction false} TurnedMore(taken: seq<bool>, t: bool)
    ensures Turned(taken + [t], |taken| + 1) == Turned(taken, |taken|) + (if t then 0 else 1)
  {
    TurnedBefore(taken, taken + [t], |taken|);
  }

  lemma {:induction false} TurnedBefore(taken: seq<bool>, more: seq<bool>, n: nat)
    requires n <= |taken| && taken <= more
    ensures Turned(more, n) == Turned(taken, n)
  {
    if n > 0 {
      TurnedBefore(taken, more, n - 1);
    }
  }

  // ---------------------------------------------------------------- what planning leaves in memory

  /** Some taken item among the first n is of this kind. */
  ghost predicate Any(batch: seq<Item>, taken: seq<bool>, n: nat, quarantine: bool)
    requires n <= |batch| && n <= |taken|
  {
    exists i :: 0 <= i < n && taken[i] && batch[i].quarantine == quarantine
  }

  /** An ordinary item among the first n, taken or not, has this identity. */
  ghost predicate Names(batch: seq<Item>, taken: seq<bool>, n: nat, t: bool, id: Identity)
    requires n <= |batch| && n <= |taken|
  {
    exists i :: 0 <= i < n && taken[i] == t && !batch[i].quarantine && batch[i].prepared.identity == id
  }

  /** Item i is taken as row k of the publication. */
  ghost predicate RowAt(batch: seq<Item>, taken: seq<bool>, i: nat, k: nat)
    requires i < |batch| && i < |taken|
  {
    taken[i] && !batch[i].quarantine && RowsTaken(batch, taken, i) == k
  }

  ghost predicate SomeRow(batch: seq<Item>, taken: seq<bool>, n: nat, k: nat)
    requires n <= |batch| && n <= |taken|
  {
    exists i :: 0 <= i < n && RowAt(batch, taken, i, k)
  }

  /** The rows of the taken ordinary items, numbered on, in batch order. */
  ghost predicate RowsAre(batch: seq<Item>, taken: seq<bool>, last: int, n: nat, records: seq<Record>)
    requires n <= |batch| && n <= |taken|
  {
    && |records| == RowsTaken(batch, taken, n)
    && (forall i, k :: 0 <= i < n && 0 <= k && RowAt(batch, taken, i, k) ==>
          k < |records| && records[k] == Record(last + k + 1, batch[i].prepared))
    && (forall k :: 0 <= k < |records| ==> SomeRow(batch, taken, n, k))
  }

  /** Planning counts what it turns away and lets go of those identities, and changes
      nothing else. */
  ghost predicate Turns(m: Memory, batch: seq<Item>, taken: seq<bool>, n: nat, now: Memory)
    requires n <= |batch| && n <= |taken|
  {
    && now == m.(ledger := now.ledger, identities := now.identities)
    && now.ledger == m.ledger.(capacityStop := m.ledger.capacityStop || Turned(taken, n) > 0,
                               capacityRefused := m.ledger.capacityRefused + Turned(taken, n))
    && (forall id :: id in now.identities <==> id in m.identities && !Names(batch, taken, n, false, id))
    && (forall id :: id in now.identities ==> now.identities[id] == m.identities[id])
  }

  /** How many lines of each kind are planned, and which rows. */
  ghost predicate PlansRows(batch: seq<Item>, taken: seq<bool>, n: nat, last: int, plan: Plan)
    requires n <= |batch| && n <= |taken|
  {
    && RowsAre(batch, taken, last, n, plan.records) && plan.nextSeq == last + |plan.records|
    && (plan.held != [] <==> Any(batch, taken, n, true)) && (plan.records != [] <==> Any(batch, taken, n, false))
    && |plan.held| + |plan.records| + Turned(taken, n) == n
  }

  lemma {:induction false} RowsTakenBefore(batch: seq<Item>, taken: seq<bool>, t: bool, n: nat)
    requires n <= |batch| && n <= |taken|
    ensures RowsTaken(batch, taken + [t], n) == RowsTaken(batch, taken, n)
  {
    if n > 0 {
      RowsTakenBefore(batch, taken, t, n - 1);
    }
  }

  lemma {:induction false} RowsNext(batch: seq<Item>, taken: seq<bool>, n: nat, last: int, records: seq<Record>, t: bool)
    requires n < |batch| && |taken| == n && RowsAre(batch, taken, last, n, records)
    ensures RowsAre(batch, taken + [t], last, n + 1,
                    if t && !batch[n].quarantine then records + [Record(last + |records| + 1, batch[n].prepared)] else records)
  {
    var more := taken + [t];
    var after := if t && !batch[n].quarantine then records + [Record(last + |records| + 1, batch[n].prepared)] else records;
    forall i | 0 <= i <= n ensures RowsTaken(batch, more, i) == RowsTaken(batch, taken, i) {
      RowsTakenBefore(batch, taken, t, i);
    }
    forall i, k | 0 <= i < n + 1 && 0 <= k && RowAt(batch, more, i, k)
      ensures k < |after| && after[k] == Record(last + k + 1, batch[i].prepared)
    {
      if i < n {
        assert RowAt(batch, taken, i, k);
      }
    }
    forall k | 0 <= k < |after| ensures SomeRow(batch, more, |more|, k) {
      if k < |records| {
        assert SomeRow(batch, taken, n, k);
        var i :| 0 <= i < n && RowAt(batch, taken, i, k);
        assert RowAt(batch, more, i, k);
      } else {
        assert RowAt(batch, more, n, k);
      }
    }
  }

  lemma {:induction false} AnyNext(batch: seq<Item>, taken: seq<bool>, n: nat, t: bool, quarantine: bool)
    requires n < |batch| && |taken| == n
    ensures Any(batch, taken + [t], n + 1, quarantine) <==> Any(batch, taken, n, quarantine) || (t && batch[n].quarantine == quarantine)
  {
    var more := taken + [t];
    assert more[n] == t;
    if i :| 0 <= i < n && taken[i] && batch[i].quarantine == quarantine {
      assert more[i];
    }
  }

  lemma {:induction false} NamesNext(batch: seq<Item>, taken: seq<bool>, n: nat, t: bool, id: Identity)
    requires n < |batch| && |taken| == n
    ensures Names(batch, taken + [t], n + 1, false, id) <==>
      Names(batch, taken, n, false, id) || (!t && !batch[n].quarantine && batch[n].prepared.identity == id)
  {
    var more := taken + [t];
    assert more[n] == t;
    if i :| 0 <= i < n && taken[i] == false && !batch[i].quarantine && batch[i].prepared.identity == id {
      assert more[i] == false;
    }
  }

  lemma {:induction false} PlansRowsNext(c: Codec, batch: seq<Item>, taken: seq<bool>, n: nat, last: int, plan: Plan, next: Plan, t: bool)
    requires n < |batch| && |taken| == n && PlansRows(batch, taken, n, last, plan) && Planned(c, plan, batch[n], next, t)
    ensures PlansRows(batch, taken + [t], n + 1, last, next)
  {
    RowsNext(batch, taken, n, last, plan.records, t);
    AnyNext(batch, taken, n, t, true);
    AnyNext(batch, taken, n, t, false);
    TurnedMore(taken, t);
  }

  lemma {:induction false} TurnsNext(c: Codec, m: Memory, batch: seq<Item>, taken: seq<bool>, n: nat, now: Memory, plan: Plan, limits: Limits, t: bool)
    requires n < |batch| && |taken| == n && Turns(m, batch, taken, n, now)
    requires t <==> plan.used + |NextLine(c, plan, batch[n])| <= limits.capacity
    ensures Turns(m, batch, taken + [t], n + 1, PlanItem(c, now, plan, batch[n], limits).0)
  {
    TurnedMore(taken, t);
    forall id ensures Names(batch, taken + [t], n + 1, false, id) <==>
      Names(batch, taken, n, false, id) || (!t && !batch[n].quarantine && batch[n].prepared.identity == id)
    {
      NamesNext(batch, taken, n, t, id);
    }
  }

  /** The plan and the memory after n items, told by the items taken. */
  ghost predicate Tells(c: Codec, m: Memory, batch: seq<Item>, taken: seq<bool>, n: nat, now: Memory, plan: Plan, capacity: int) {
    && PlanTells(c, batch, taken, m.ledger, plan, n, capacity)
    && PlansRows(batch, taken, n, m.ledger.durableSeq, plan) && Turns(m, batch, taken, n, now)
  }

  lemma {:induction false} TellsItem(c: Codec, m: Memory, batch: seq<Item>, taken: seq<bool>, n: nat, now: Memory, plan: Plan, limits: Limits)
    returns (t: bool)
    requires Tells(c, m, batch, taken, n, now, plan, limits.capacity) && n < |batch|
    ensures var (now', plan') := PlanItem(c, now, plan, batch[n], limits);
      Tells(c, m, batch, taken + [t], n + 1, now', plan', limits.capacity)
  {
    t := plan.used + |NextLine(c, plan, batch[n])| <= limits.capacity;
    var (now', next) := PlanItem(c, now, plan, batch[n], limits);
    PlanItemIs(c, now, plan, batch[n], limits, t);
    assert PlanTells(c, batch, taken + [t], m.ledger, next, n + 1, limits.capacity) by {
      PlanTellsNext(c, batch, taken, m.ledger, plan, n, limits.capacity, next, t);
    }
    assert PlansRows(batch, taken + [t], n + 1, m.ledger.durableSeq, next) by {
      PlansRowsNext(c, batch, taken, n, m.ledger.durableSeq, plan, next, t);
    }
    assert Turns(m, batch, taken + [t], n + 1, now') by {
      TurnsNext(c, m, batch, taken, n, now, plan, limits, t);
    }
  }

  lemma {:induction false} PlanItemIs(c: Codec, m: Memory, plan: Plan, item: Item, limits: Limits, t: bool)
    requires t <==> plan.used + |NextLine(c, plan, item)| <= limits.capacity
    ensures Planned(c, plan, item, PlanItem(c, m, plan, item, limits).1, t)
  {}

  lemma {:induction false} PlanBatchNext(c: Codec, now: Memory, plan: Plan, batch: seq<Item>, n: nat, limits: Limits)
    requires n < |batch|
    ensures var (now', plan') := PlanItem(c, now, plan, batch[n], limits);
      PlanBatch(c, now, plan, batch[n..], limits) == PlanBatch(c, now', plan', batch[n + 1..], limits)
  {
    assert batch[n..][0] == batch[n] && batch[n..][1..] == batch[n + 1..];
  }

  lemma {:induction false} PlanTold(c: Codec, m: Memory, batch: seq<Item>, taken: seq<bool>, n: nat, now: Memory, plan: Plan, limits: Limits)
    returns (all: seq<bool>)
    requires Tells(c, m, batch, taken, n, now, plan, limits.capacity)
    ensures var (now', plan') := PlanBatch(c, now, plan, batch[n..], limits);
      Tells(c, m, batch, all, |batch|, now', plan', limits.capacity)
    decreases |batch| - n
  {
    if n == |batch| {
      all := taken;
    } else {
      var (now', plan') := PlanItem(c, now, plan, batch[n], limits);
      var t := TellsItem(c, m, batch, taken, n, now, plan, limits);
      PlanBatchNext(c, now, plan, batch, n, limits);
      all := PlanTold(c, m, batch, taken + [t], n + 1, now', plan', limits);
    }
  }

  /** The lines a publication plans, from the batch alone. */
  ghost predicate Wrote(c: Codec, l: Ledger, batch: seq<Item>, taken: seq<bool>, capacity: int, d: Disk, after: Disk) {
    && TakesWhatFits(c, batch, taken, l.durableBytes + l.quarantineBytes, l.durableSeq, capacity)
    && after.quarantine == d.quarantine + LinesTaken(c, batch, taken, l.durableSeq, |batch|, true)
    && after.observations == d.observations + LinesTaken(c, batch, taken, l.durableSeq, |batch|, false)
  }

  /** The watermark counts exactly the lines written and the items turned away, and the
      archive stops admitting exactly when it had, turned one away, or is full. */
  ghost predicate Counts(c: Codec, l: Ledger, batch: seq<Item>, taken: seq<bool>, capacity: int, after: Ledger)
    requires |taken| == |batch|
  {
    && after.capacityRefused == l.capacityRefused + Turned(taken, |batch|)
    && (after.capacityStop <==>
          l.capacityStop || Turned(taken, |batch|) > 0 || after.durableBytes + after.quarantineBytes >= capacity)
    && after.quarantineBytes == l.quarantineBytes + |LinesTaken(c, batch, taken, l.durableSeq, |batch|, true)|
    && after.durableBytes == l.durableBytes + |LinesTaken(c, batch, taken, l.durableSeq, |batch|, false)|
    && after.durableOffset == l.durableOffset + |LinesTaken(c, batch, taken, l.durableSeq, |batch|, false)|
    && after.durableSeq == l.durableSeq + RowsTaken(batch, taken, |batch|)
  }

  lemma {:induction false} PlanWrites(c: Codec, m: Memory, batch: seq<Item>, limits: Limits) returns (taken: seq<bool>)
    ensures var (planned, plan) := PlanBatch(c, m, NewPlan(m.ledger), batch, limits);
      Tells(c, m, batch, taken, |batch|, planned, plan, limits.capacity)
  {
    var l := m.ledger;
    assert TakesWhatFits(c, batch[..0], [], l.durableBytes + l.quarantineBytes, l.durableSeq, limits.capacity);
    taken := PlanTold(c, m, batch, [], 0, m, NewPlan(l), limits);
    assert batch[0..] == batch;
  }

  lemma {:induction false} PendingCounts(c: Codec, l: Ledger, batch: seq<Item>, taken: seq<bool>, planned: Ledger, plan: Plan, limits: Limits)
    requires PlanTells(c, batch, taken, l, plan, |batch|, limits.capacity)
    requires planned.quarantineBytes == l.quarantineBytes && planned.durableBytes == l.durableBytes
      && planned.durableOffset == l.durableOffset && planned.durableSeq == l.durableSeq
      && planned.capacityRefused == l.capacityRefused + plan.refused && (planned.capacityStop <==> l.capacityStop || plan.refused > 0)
    ensures Counts(c, l, batch, taken, limits.capacity, Pending(c, planned, plan, limits))
  {}

  // ---------------------------------------------------------------- what a publication leaves

  /** What an append of these lines leaves on file. */
  function Lands(lines: seq<Byte>, l: Landing): seq<Byte> {
    match l
    case Whole => lines
    case Short(n) => lines[..Min(n, |lines|)]
    case Raised(bytes) => bytes
  }

  ghost predicate HeldRaises(batch: seq<Item>, taken: seq<bool>, io: PublishIo)
    requires |taken| == |batch|
  {
    Any(batch, taken, |batch|, true) && io.held.Raised?
  }

  /** An append raises; the rows are not appended when the quarantine lines raised. */
  ghost predicate Raises(batch: seq<Item>, taken: seq<bool>, io: PublishIo)
    requires |taken| == |batch|
  {
    HeldRaises(batch, taken, io) || (Any(batch, taken, |batch|, false) && io.rows.Raised?)
  }

  /** Both files, whatever lands. */
  ghost predicate Files(c: Codec, l: Ledger, batch: seq<Item>, taken: seq<bool>, io: PublishIo, d: Disk, after: Disk)
    requires |taken| == |batch|
  {
    var n := |batch|;
    && after.quarantine == d.quarantine
         + (if Any(batch, taken, n, true) then Lands(LinesTaken(c, batch, taken, l.durableSeq, n, true), io.held) else [])
    && after.observations == d.observations
         + (if Any(batch, taken, n, false) && !HeldRaises(batch, taken, io)
            then Lands(LinesTaken(c, batch, taken, l.durableSeq, n, false), io.rows) else [])
  }

  /** The ledger moves past the lines written, and nothing else of it changes. */
  ghost predicate Advances(c: Codec, l: Ledger, batch: seq<Item>, taken: seq<bool>, capacity: int, after: Ledger)
    requires |taken| == |batch|
  {
    && Counts(c, l, batch, taken, capacity, after)
    && after == l.(durableSeq := after.durableSeq, durableOffset := after.durableOffset, durableBytes := after.durableBytes,
                   quarantineBytes := after.quarantineBytes, capacityStop := after.capacityStop, capacityRefused := after.capacityRefused)
  }

  /** The identities that stay are those that no item of the batch lets go. */
  ghost predicate LetsGo(m: Memory, now: Memory, gone: Identity -> bool) {
    && (forall id :: id in now.identities <==> id in m.identities && !gone(id))
    && (forall id :: id in now.identities ==> now.identities[id] == m.identities[id])
  }

  /** A taken row that is not a loss notice gives the identity this hash. */
  ghost predicate GivesHash(batch: seq<Item>, taken: seq<bool>, id: Identity, hash: Hash)
    requires |taken| == |batch|
  {
    exists i :: 0 <= i < |batch| && taken[i] && !batch[i].quarantine && !batch[i].prepared.loss
      && batch[i].prepared.identity == id && batch[i].prepared.hash == hash
  }

  /** After a publication that is kept, an identity has a hash that a taken row gives it,
      or the one it had unless the row that had it was turned away. */
  ghost predicate Identifies(m: Memory, batch: seq<Item>, taken: seq<bool>, now: Memory)
    requires |taken| == |batch|
  {
    && (forall id :: id in now.identities <==>
          (exists h :: GivesHash(batch, taken, id, h)) || (id in m.identities && !Names(batch, taken, |batch|, false, id)))
    && (forall id :: id in now.identities ==>
          if exists h :: GivesHash(batch, taken, id, h) then GivesHash(batch, taken, id, now.identities[id])
          else now.identities[id] == m.identities[id])
  }

  /** One entry for each taken row, at the place of its line. */
  ghost predicate Indexes(c: Codec, l: Ledger, batch: seq<Item>, taken: seq<bool>, entries: seq<Entry>)
    requires |taken| == |batch|
  {
    && |entries| == RowsTaken(batch, taken, |batch|)
    && forall i, k :: 0 <= i < |batch| && 0 <= k && RowAt(batch, taken, i, k) ==>
         k < |entries| && entries[k] == Entry(Record(l.durableSeq + k + 1, batch[i].prepared),
           l.durableOffset + |LinesTaken(c, batch, taken, l.durableSeq, i, false)|, |LineOfItem(c, batch, taken, l.durableSeq, i)|)
  }

  /** A publication whose append raises: every taken line is a failed unit, every
      identity of an ordinary item is let go, and nothing is shown. */
  ghost predicate Fails(m: Memory, batch: seq<Item>, taken: seq<bool>, now: Memory)
    requires |taken| == |batch|
  {
    var l, turned := m.ledger, Turned(taken, |batch|);
    && now == m.(ledger := now.ledger, identities := now.identities, publishing := 0)
    && now.ledger == l.(capacityStop := l.capacityStop || turned > 0, capacityRefused := l.capacityRefused + turned,
                        storageFailure := true, storageFailed := l.storageFailed + (|batch| - turned))
    && LetsGo(m, now, (id: Identity) => exists i :: 0 <= i < |batch| && !batch[i].quarantine && batch[i].prepared.identity == id)
  }

  /** One whose watermark write fails: the failure is recorded, and nothing is shown. */
  ghost predicate Stops(m: Memory, batch: seq<Item>, taken: seq<bool>, now: Memory)
    requires |taken| == |batch|
  {
    var l, turned := m.ledger, Turned(taken, |batch|);
    && now == m.(ledger := now.ledger, identities := now.identities)
    && now.ledger == l.(capacityStop := l.capacityStop || turned > 0, capacityRefused := l.capacityRefused + turned, storageFailure := true)
    && LetsGo(m, now, (id: Identity) => Names(batch, taken, |batch|, false, id))
  }

  /** One that is kept. */
  ghost predicate Keeps(c: Codec, m: Memory, index: seq<Entry>, batch: seq<Item>, taken: seq<bool>, capacity: int, now: Memory, shown: seq<Entry>)
    requires |taken| == |batch|
  {
    && now == m.(ledger := now.ledger, identities := now.identities, publishing := 0)
    && Advances(c, m.ledger, batch, taken, capacity, now.ledger) && Identifies(m, batch, taken, now)
    && index <= shown && Indexes(c, m.ledger, batch, taken, shown[|index|..])
  }

  /** All that one publication leaves, from the batch and what happens to its writes. */
  ghost predicate Leaves(c: Codec, m: Memory, index: seq<Entry>, d: Disk, batch: seq<Item>, taken: seq<bool>, capacity: int, io: PublishIo,
                         p: Published) {
    && TakesWhatFits(c, batch, taken, m.ledger.durableBytes + m.ledger.quarantineBytes, m.ledger.durableSeq, capacity)
    && Files(c, m.ledger, batch, taken, io, d, p.disk) && (p.alive <==> io.save.Saved?)
    && (if Raises(batch, taken, io) then Fails(m, batch, taken, p.m) && p.index == index
        else if !io.save.Saved? then Stops(m, batch, taken, p.m) && p.index == index
        else Keeps(c, m, index, batch, taken, capacity, p.m, p.index))
    && (if io.save.NotReplaced? then p.disk.saved == d.saved
        else p.disk.saved.Some? && if Raises(batch, taken, io) then p.disk.saved.value == p.m.ledger
                                   else Advances(c, m.ledger, batch, taken, capacity, p.disk.saved.value))
  }

  lemma {:induction false} FilesAre(c: Codec, m: Memory, d: Disk, batch: seq<Item>, taken: seq<bool>, plan: Plan, now: Memory, capacity: int, io: PublishIo)
    requires Tells(c, m, batch, taken, |batch|, now, plan, capacity)
    ensures var (after, ok) := AppendLines(c, d, plan, io.held, io.rows);
      (ok <==> !Raises(batch, taken, io)) && after.saved == d.saved && Files(c, m.ledger, batch, taken, io, d, after)
  {
    assert d.quarantine + [] == d.quarantine && d.observations + [] == d.observations;
  }

  /** What is on the batch's rows up to item n is what their lines are. */
  lemma {:induction false} EncodeIs(c: Codec, batch: seq<Item>, taken: seq<bool>, last: int, records: seq<Record>, n: nat)
    requires |taken| == |batch| && n <= |batch| && RowsAre(batch, taken, last, |batch|, records)
    ensures RowsTaken(batch, taken, n) <= |records|
    ensures Encode(c, records[..RowsTaken(batch, taken, n)]) == LinesTaken(c, batch, taken, last, n, false)
  {
    if n > 0 {
      EncodeIs(c, batch, taken, last, records, n - 1);
      var k := RowsTaken(batch, taken, n - 1);
      if taken[n - 1] && !batch[n - 1].quarantine {
        assert RowAt(batch, taken, n - 1, k);
        assert records[..k + 1][..k] == records[..k];
      } else {
        assert LinesTaken(c, batch, taken, last, n - 1, false) + [] == LinesTaken(c, batch, taken, last, n - 1, false);
      }
    }
  }

  lemma {:induction false} EntriesAt(c: Codec, records: seq<Record>, offset: nat, k: nat)
    requires k < |records|
    ensures |EntriesFrom(c, records, offset)| == |records|
    ensures EntriesFrom(c, records, offset)[k] == Entry(records[k], offset + |Encode(c, records[..k])|, |c.enc(records[k])|)
  {
    var front := records[..|records| - 1];
    if k < |front| {
      EntriesAt(c, front, offset, k);
      assert front[..k] == records[..k];
    } else if front != [] {
      EntriesAt(c, front, offset, 0);
    }
  }

  lemma {:induction false} EntryIs(c: Codec, l: Ledger, batch: seq<Item>, taken: seq<bool>, records: seq<Record>, i: nat, k: nat)
    requires |taken| == |batch| && RowsAre(batch, taken, l.durableSeq, |batch|, records) && i < |batch| && RowAt(batch, taken, i, k)
    ensures var entries := EntriesFrom(c, records, l.durableOffset);
      k < |entries| && entries[k] == Entry(Record(l.durableSeq + k + 1, batch[i].prepared),
        l.durableOffset + |LinesTaken(c, batch, taken, l.durableSeq, i, false)|, |LineOfItem(c, batch, taken, l.durableSeq, i)|)
  {
    EncodeIs(c, batch, taken, l.durableSeq, records, i);
    EntriesAt(c, records, l.durableOffset, k);
  }

  lemma {:induction false} EntriesAre(c: Codec, l: Ledger, batch: seq<Item>, taken: seq<bool>, records: seq<Record>)
    requires |taken| == |batch| && RowsAre(batch, taken, l.durableSeq, |batch|, records)
    ensures Indexes(c, l, batch, taken, EntriesFrom(c, records, l.durableOffset))
  {
    if records != [] {
      EntriesAt(c, records, l.durableOffset, 0);
    }
    forall i, k | 0 <= i < |batch| && 0 <= k && RowAt(batch, taken, i, k)
      ensures var entries := EntriesFrom(c, records, l.durableOffset);
        k < |entries| && entries[k] == Entry(Record(l.durableSeq + k + 1, batch[i].prepared),
          l.durableOffset + |LinesTaken(c, batch, taken, l.durableSeq, i, false)|, |LineOfItem(c, batch, taken, l.durableSeq, i)|)
    {
      EntryIs(c, l, batch, taken, records, i, k);
    }
  }

  /** A row that is planned is that of a taken item. */
  lemma {:induction false} PlannedFrom(batch: seq<Item>, taken: seq<bool>, last: int, records: seq<Record>, k: nat) returns (i: nat)
    requires |taken| == |batch| && RowsAre(batch, taken, last, |batch|, records) && k < |records|
    ensures i < |batch| && RowAt(batch, taken, i, k) && records[k].prepared == batch[i].prepared
  {
    assert SomeRow(batch, taken, |batch|, k);
    i :| 0 <= i < |batch| && RowAt(batch, taken, i, k);
  }

  lemma {:induction false} PlannedIds(batch: seq<Item>, taken: seq<bool>, last: int, records: seq<Record>, id: Identity)
    requires |taken| == |batch| && RowsAre(batch, taken, last, |batch|, records)
    ensures id in IdsOf(records) <==> Names(batch, taken, |batch|, true, id)
  {
    if id in IdsOf(records) {
      var k :| 0 <= k < |records| && records[k].prepared.identity == id;
      var i := PlannedFrom(batch, taken, last, records, k);
      assert taken[i] == true;
    }
    if i :| 0 <= i < |batch| && taken[i] == true && !batch[i].quarantine && batch[i].prepared.identity == id {
      assert RowAt(batch, taken, i, RowsTaken(batch, taken, i));
    }
  }

  lemma {:induction false} NamedEither(batch: seq<Item>, taken: seq<bool>, id: Identity)
    requires |taken| == |batch|
    ensures Names(batch, taken, |batch|, true, id) || Names(batch, taken, |batch|, false, id) <==>
      exists i :: 0 <= i < |batch| && !batch[i].quarantine && batch[i].prepared.identity == id
  {
    if i :| 0 <= i < |batch| && !batch[i].quarantine && batch[i].prepared.identity == id {
      assert taken[i] == true || taken[i] == false;
    }
  }

  lemma {:induction false} FailsAre(c: Codec, m: Memory, batch: seq<Item>, taken: seq<bool>, plan: Plan, now: Memory, capacity: int)
    requires Tells(c, m, batch, taken, |batch|, now, plan, capacity)
    ensures Fails(m, batch, taken, AppendFailed(now, plan))
  {
    forall id ensures id in IdsOf(plan.records) || Names(batch, taken, |batch|, false, id) <==>
      exists i :: 0 <= i < |batch| && !batch[i].quarantine && batch[i].prepared.identity == id
    {
      PlannedIds(batch, taken, m.ledger.durableSeq, plan.records, id);
      NamedEither(batch, taken, id);
    }
  }

  ghost predicate Given(records: seq<Record>, id: Identity, hash: Hash) {
    exists k :: 0 <= k < |records| && !records[k].prepared.loss && records[k].prepared.identity == id && records[k].prepared.hash == hash
  }

  lemma {:induction false} GivenMore(front: seq<Record>, r: Record, id: Identity, hash: Hash)
    ensures Given(front + [r], id, hash) <==>
      Given(front, id, hash) || (!r.prepared.loss && r.prepared.identity == id && r.prepared.hash == hash)
  {
    var all := front + [r];
    assert all[|front|] == r;
    if k :| 0 <= k < |front| && !front[k].prepared.loss && front[k].prepared.identity == id && front[k].prepared.hash == hash {
      assert all[k] == front[k];
    }
  }

  lemma {:induction false} IdentifyAllIs(ids: map<Identity, Hash>, records: seq<Record>, id: Identity)
    ensures var all := IdentifyAll(ids, records);
      && (id in all <==> (exists h :: Given(records, id, h)) || id in ids)
      && (id in all ==> if exists h :: Given(records, id, h) then Given(records, id, all[id]) else all[id] == ids[id])
  {
    if records != [] {
      var front, r := records[..|records| - 1], records[|records| - 1];
      IdentifyAllIs(ids, front, id);
      forall h ensures Given(records, id, h) <==>
        Given(front, id, h) || (!r.prepared.loss && r.prepared.identity == id && r.prepared.hash == h)
      {
        assert front + [r] == records;
        GivenMore(front, r, id, h);
      }
      if !r.prepared.loss && r.prepared.identity == id {
        assert Given(records, id, r.prepared.hash);
      }
    }
  }

  lemma {:induction false} GivenIsClaimed(batch: seq<Item>, taken: seq<bool>, last: int, records: seq<Record>, id: Identity, hash: Hash)
    requires |taken| == |batch| && RowsAre(batch, taken, last, |batch|, records)
    ensures Given(records, id, hash) <==> GivesHash(batch, taken, id, hash)
  {
    if Given(records, id, hash) {
      var k :| 0 <= k < |records| && !records[k].prepared.loss && records[k].prepared.identity == id && records[k].prepared.hash == hash;
      var i := PlannedFrom(batch, taken, last, records, k);
    }
    if GivesHash(batch, taken, id, hash) {
      var i :| 0 <= i < |batch| && taken[i] && !batch[i].quarantine && !batch[i].prepared.loss
        && batch[i].prepared.identity == id && batch[i].prepared.hash == hash;
      assert RowAt(batch, taken, i, RowsTaken(batch, taken, i));
    }
  }

  lemma {:induction false} IdentifiesAre(c: Codec, m: Memory, batch: seq<Item>, taken: seq<bool>, plan: Plan, now: Memory, after: Memory)
    requires |taken| == |batch| && Turns(m, batch, taken, |batch|, now) && RowsAre(batch, taken, m.ledger.durableSeq, |batch|, plan.records)
    requires after.identities == IdentifyAll(now.identities, plan.records)
    ensures Identifies(m, batch, taken, after)
  {
    forall id, h ensures Given(plan.records, id, h) <==> GivesHash(batch, taken, id, h) {
      GivenIsClaimed(batch, taken, m.ledger.durableSeq, plan.records, id, h);
    }
    forall id
      ensures id in after.identities <==> (exists h :: GivesHash(batch, taken, id, h)) || id in now.identities
      ensures id in after.identities ==>
        if exists h :: GivesHash(batch, taken, id, h) then GivesHash(batch, taken, id, after.identities[id])
        else after.identities[id] == now.identities[id]
    {
      IdentifyAllIs(now.identities, plan.records, id);
    }
  }

  lemma {:induction false} KeepsAre(c: Codec, m: Memory, index: seq<Entry>, batch: seq<Item>, taken: seq<bool>, plan: Plan, now: Memory, limits: Limits)
    requires Tells(c, m, batch, taken, |batch|, now, plan, limits.capacity)
    ensures var pending := Pending(c, now.ledger, plan, limits);
      var (after, shown) := Commit(c, now, index, plan, pending);
      Keeps(c, m, index, batch, taken, limits.capacity, after, shown) && Advances(c, m.ledger, batch, taken, limits.capacity, pending)
  {
    var pending := Pending(c, now.ledger, plan, limits);
    assert Advances(c, m.ledger, batch, taken, limits.capacity, pending) by {
      PendingCounts(c, m.ledger, batch, taken, now.ledger, plan, limits);
    }
    var (after, shown) := Commit(c, now, index, plan, pending);
    assert Identifies(m, batch, taken, after) by {
      IdentifiesAre(c, m, batch, taken, plan, now, after);
    }
    EntriesAre(c, m.ledger, batch, taken, plan.records);
    assert shown[|index|..] == EntriesFrom(c, plan.records, m.ledger.durableOffset);
  }

  lemma {:induction false} StopsAre(m: Memory, batch: seq<Item>, taken: seq<bool>, now: Memory)
    requires |taken| == |batch| && Turns(m, batch, taken, |batch|, now)
    ensures Stops(m, batch, taken, StorageFailed(now))
  {}

  /** The memory after the publication, by how its writes end. */
  lemma {:induction false} MemoryAfter(c: Codec, m: Memory, index: seq<Entry>, d: Disk, batch: seq<Item>, taken: seq<bool>, plan: Plan, now: Memory,
                                       limits: Limits, io: PublishIo)
    requires Tells(c, m, batch, taken, |batch|, now, plan, limits.capacity)
    ensures if Raises(batch, taken, io) then Fails(m, batch, taken, AppendFailed(now, plan))
      else if !io.save.Saved? then Stops(m, batch, taken, StorageFailed(now))
      else
        var (after, shown) := Commit(c, now, index, plan, Pending(c, now.ledger, plan, limits));
        Keeps(c, m, index, batch, taken, limits.capacity, after, shown)
    ensures !Raises(batch, taken, io) ==> Advances(c, m.ledger, batch, taken, limits.capacity, Pending(c, now.ledger, plan, limits))
  {
    FailsAre(c, m, batch, taken, plan, now, limits.capacity);
    StopsAre(m, batch, taken, now);
    KeepsAre(c, m, index, batch, taken, plan, now, limits);
  }

  lemma {:induction false} WholeBatchFits(c: Codec, m: Memory, batch: seq<Item>, taken: seq<bool>, plan: Plan, capacity: int)
    requires PlanTells(c, batch, taken, m.ledger, plan, |batch|, capacity)
    ensures TakesWhatFits(c, batch, taken, m.ledger.durableBytes + m.ledger.quarantineBytes, m.ledger.durableSeq, capacity)
  {
    assert batch[..|batch|] == batch;
  }

  /** What one publication leaves, whatever happens to its writes. */
  lemma {:induction false} PublishMeans(c: Codec, m: Memory, index: seq<Entry>, d: Disk, batch: seq<Item>, limits: Limits, io: PublishIo)
    returns (taken: seq<bool>)
    ensures Leaves(c, m, index, d, batch, taken, limits.capacity, io, PublishOf(c, m, index, d, batch, limits, io))
  {
    var (now, plan) := PlanBatch(c, m, NewPlan(m.ledger), batch, limits);
    taken := PlanWrites(c, m, batch, limits);
    WholeBatchFits(c, m, batch, taken, plan, limits.capacity);
    FilesAre(c, m, d, batch, taken, plan, now, limits.capacity, io);
    MemoryAfter(c, m, index, d, batch, taken, plan, now, limits, io);
  }

  lemma {:induction false} NoLines(c: Codec, batch: seq<Item>, taken: seq<bool>, last: int, n: nat, quarantine: bool)
    requires |taken| == |batch| && n <= |batch| && !Any(batch, taken, |batch|, quarantine)
    ensures LinesTaken(c, batch, taken, last, n, quarantine) == []
  {
    if n > 0 {
      NoLines(c, batch, taken, last, n - 1, quarantine);
    }
  }

  /** In particular, one whose appends land whole adds to each file the lines of exactly
      the items of its kind that fit, in batch order; a watermark that is written counts them. */
  lemma {:induction false} PublishWrites(c: Codec, m: Memory, index: seq<Entry>, d: Disk, batch: seq<Item>, limits: Limits, io: PublishIo)
    returns (taken: seq<bool>)
    requires io.held.Whole? && io.rows.Whole?
    ensures var p := PublishOf(c, m, index, d, batch, limits, io);
      && Leaves(c, m, index, d, batch, taken, limits.capacity, io, p)
      && Wrote(c, m.ledger, batch, taken, limits.capacity, d, p.disk)
      && (io.save.Saved? ==> p.alive && Counts(c, m.ledger, batch, taken, limits.capacity, p.m.ledger))
      && (!io.save.NotReplaced? ==> p.disk.saved.Some? && Counts(c, m.ledger, batch, taken, limits.capacity, p.disk.saved.value))
  {
    taken := PublishMeans(c, m, index, d, batch, limits, io);
    if !Any(batch, taken, |batch|, true) {
      NoLines(c, batch, taken, m.ledger.durableSeq, |batch|, true);
    }
    if !Any(batch, taken, |batch|, false) {
      NoLines(c, batch, taken, m.ledger.durableSeq, |batch|, false);
    }
  }

  lemma {:induction false} LandedWhole(c: Codec, d: Disk, plan: Plan, held: Landing, rows: Landing)
    requires held.Whole? && rows.Whole?
    ensures var (after, ok) := AppendLines(c, d, plan, held, rows);
      ok && after == d.(quarantine := d.quarantine + EncodeHeld(c, plan.held), observations := d.observations + Encode(c, plan.records))
  {
    assert d.quarantine + [] == d.quarantine && d.observations + [] == d.observations;
  }

  class Publisher {
    const codec: Codec
    const admission: Admission
    var index: seq<Entry>
    var observations: seq<Byte>
    var quarantine: seq<Byte>
    var saved: Option<Ledger>

    constructor (codec: Codec, admission: Admission, index: seq<Entry>, d: Disk)
      ensures this.codec == codec && this.admission == admission && this.index == index && Contents() == d
    {
      this.codec, this.admission, this.index := codec, admission, index;
      observations, quarantine, saved := d.observations, d.quarantine, d.saved;
    }

    function Contents(): Disk
      reads this
    {
      Disk(observations, quarantine, saved)
    }

    method PlanOne(item: Item, plan: Plan) returns (next: Plan)
      modifies admission
      ensures (admission.Contents(), next) == PlanItem(codec, old(admission.Contents()), plan, item, admission.limits)
    {
      var capacity := admission.limits.capacity;
      next := plan;
      if item.quarantine {
        var line := codec.held(item.prepared);
        if plan.used + |line| > capacity {
          admission.ledger := admission.ledger.(capacityStop := true, capacityRefused := admission.ledger.capacityRefused + 1);
          next := plan.(refused := plan.refused + 1);
        } else {
          next := plan.(held := plan.held + [item.prepared], used := plan.used + |line|);
        }
        return;
      }
      var record := Record(plan.nextSeq + 1, item.prepared);
      var line := codec.enc(record);
      if plan.used + |line| > capacity {
        admission.ledger := admission.ledger.(capacityStop := true, capacityRefused := admission.ledger.capacityRefused + 1);
        admission.identities := admission.identities - {item.prepared.identity};
        next := plan.(refused := plan.refused + 1);
      } else {
        next := plan.(kept := plan.kept + [item], records := plan.records + [record], used := plan.used + |line|, nextSeq := plan.nextSeq + 1);
      }
    }

    /** The loop over the batch. */
    method PlanLines(batch: seq<Item>) returns (plan: Plan)
      modifies admission
      ensures (admission.Contents(), plan) ==
        PlanBatch(codec, old(admission.Contents()), NewPlan(old(admission.ledger)), batch, admission.limits)
    {
      plan := NewPlan(admission.ledger);
      var i := 0;
      while i < |batch|
        invariant 0 <= i <= |batch|
        invariant PlanBatch(codec, admission.Contents(), plan, batch[i..], admission.limits) ==
          PlanBatch(codec, old(admission.Contents()), NewPlan(old(admission.ledger)), batch, admission.limits)
      {
        assert batch[i..][0] == batch[i] && batch[i..][1..] == batch[i + 1..];
        plan := PlanOne(batch[i], plan);
        i := i + 1;
      }
    }

    method Append(plan: Plan, held: Landing, rows: Landing) returns (ok: bool)
      modifies this`observations, this`quarantine
      ensures (Contents(), ok) == AppendLines(codec, old(Contents()), plan, held, rows)
    {
      ok := true;
      if plan.held != [] {
        var landed := Land(quarantine, EncodeHeld(codec, plan.held), held);
        quarantine, ok := landed.0, landed.1;
      }
      if ok && plan.records != [] {
        var landed := Land(observations, Encode(codec, plan.records), rows);
        observations, ok := landed.0, landed.1;
      }
    }

    method Fail(plan: Plan)
      modifies admission
      ensures admission.Contents() == AppendFailed(old(admission.Contents()), plan)
    {
      admission.ledger := admission.ledger.(storageFailure := true,
        storageFailed := admission.ledger.storageFailed + |plan.records| + |plan.held|);
      admission.publishing := 0;
      ghost var before := admission.identities;
      var i := 0;
      while i < |plan.records|
        invariant 0 <= i <= |plan.records|
        invariant admission.identities == before - IdsOf(plan.records[..i])
        invariant admission.Contents() == AppendFailed(old(admission.Contents()), plan).(identities := admission.identities)
      {
        assert IdsOf(plan.records[..i + 1]) == IdsOf(plan.records[..i]) + {plan.records[i].prepared.identity} by {
          IdsExtendBy(plan.records, i);
        }
        admission.identities := admission.identities - {plan.records[i].prepared.identity};
        i := i + 1;
      }
      assert plan.records[..i] == plan.records;
    }

    method PublishInner(batch: seq<Item>, io: PublishIo) returns (alive: bool)
      modifies this, admission
      ensures Published(admission.Contents(), index, Contents(), alive) ==
        PublishOf(codec, old(admission.Contents()), old(index), old(Contents()), batch, admission.limits, io)
      ensures exists taken :: Leaves(codec, old(admission.Contents()), old(index), old(Contents()), batch, taken, admission.limits.capacity, io,
                                     Published(admission.Contents(), index, Contents(), alive))
      ensures io.held.Whole? && io.rows.Whole? ==>
        exists taken :: Wrote(codec, old(admission.ledger), batch, taken, admission.limits.capacity, old(Contents()), Contents())
    {
      ghost var taken := PublishMeans(codec, admission.Contents(), index, Contents(), batch, admission.limits, io);
      if io.held.Whole? && io.rows.Whole? {
        taken := PublishWrites(codec, admission.Contents(), index, Contents(), batch, admission.limits, io);
      }
      var plan := PlanLines(batch);
      ghost var planned := admission.Contents();
      var ok := Append(plan, io.held, io.rows);
      if !ok {
        Fail(plan);
        if !io.save.NotReplaced? {
          saved := Some(admission.ledger);
        }
        return io.save.Saved?;
      }
      var pending := Pending(codec, admission.ledger, plan, admission.limits);
      if !io.save.NotReplaced? {
        saved := Some(pending);
      }
      if !io.save.Saved? {
        admission.ledger := admission.ledger.(storageFailure := true);
        return false;
      }
      var committed := Commit(codec, admission.Contents(), index, plan, pending);
      index := committed.1;
      admission.identities := committed.0.identities;
      admission.ledger := committed.0.ledger;
      admission.publishing := 0;
      alive := true;
    }
  }

  lemma {:induction false} IdsExtendBy(records: seq<Record>, i: nat)
    requires i < |records|
    ensures IdsOf(records[..i + 1]) == IdsOf(records[..i]) + {records[i].prepared.identity}
  {
    var more, less := records[..i + 1], records[..i];
    assert forall j :: 0 <= j < i ==> more[j] == less[j];
    assert more[i].prepared.identity in IdsOf(more);
    forall x | x in IdsOf(less) ensures x in IdsOf(more) {
      var j :| 0 <= j < |less| && less[j].prepared.identity == x;
      assert more[j].prepared.identity == x;
    }
    forall x | x in IdsOf(more) ensures x in IdsOf(less) || x == records[i].prepared.identity {
      var j :| 0 <= j < |more| && more[j].prepared.identity == x;
      if j < i {
        assert less[j].prepared.identity == x;
      }
    }
  }
}
