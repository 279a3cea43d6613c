/** Admission into the collector's bounded priority queue (archive/collector.py,
    _accept_one, _queue_locked, _displace_locked and _take_batch). */
module CollectorQueue {
  import opened Common
  import opened Sorting
  import opened Queues

  /** Admission refuses a source whose name is not a safe token, and a local sequence
      that is negative; it sets no upper bound on the sequence. */
  type SafeName = s: string | SafeToken(s) witness "s"

  type Identity = (SafeName, nat)
  type Hash = nat

  /** A prepared observation: source and local sequence, hash of its content, and
      what its kind makes of it. */
  datatype Prepared = Prepared(identity: Identity, hash: Hash, loss: bool, contentFree: bool, high: bool)

  /** A queued unit; the ticket is its place in the order of admission. */
  datatype Item = Item(prepared: Prepared, size: nat, quarantine: bool, ticket: nat)

  datatype Limits = Limits(count: nat, bytes: nat, maxEvent: nat, batch: nat, capacity: nat)

  /** The counters and watermarks of the state file. */
  datatype Ledger = Ledger(durableSeq: nat, durableOffset: nat, durableBytes: nat, quarantineBytes: nat, dropped: nat,
                           storageFailed: nat, capacityRefused: nat, conflicts: nat, refused: nat,
                           capacityStop: bool, storageFailure: bool)

  /** What admission reads and writes. */
  datatype Memory = Memory(ledger: Ledger, queue: seq<Item>, queueBytes: int, identities: map<Identity, Hash>, publishing: nat)

  /** Whether the archive is unavailable, the source allowed, and capture enabled. */
  datatype Gate = Gate(unavailable: bool, allowed: bool, enabled: bool)

  datatype Code = InvalidRequest | UnsupportedVersion | UnsupportedContent | EventTooLarge | StorageFailure | CapacityStop
    | CaptureDisabled | Duplicate | IdentityConflict | QueueSaturated | Admitted

  /** An observation as the preparation step leaves it. */
  datatype Observation = Malformed | Unsupported(code: Code) | Ready(prepared: Prepared, size: nat)

  // ---------------------------------------------------------------- the queue

  predicate Fits(m: Memory, size: nat, limits: Limits) {
    |m.queue| + 1 <= limits.count && m.queueBytes + size <= limits.bytes
  }

  predicate Displaceable(i: Item) {
    !i.prepared.high && !i.quarantine
  }

  function FirstDisplaceable(q: seq<Item>): (i: nat)
    ensures i <= |q| && (i < |q| ==> Displaceable(q[i])) && forall j :: 0 <= j < i ==> !Displaceable(q[j])
  {
    if q == [] then 0 else if Displaceable(q[0]) then 0 else 1 + FirstDisplaceable(q[1..])
  }

  function Displace(m: Memory, i: nat): Memory
    requires i < |m.queue|
  {
    var item := m.queue[i];
    m.(queue := Without(m.queue, i), queueBytes := m.queueBytes - item.size,
       identities := if item.quarantine then m.identities else m.identities - {item.prepared.identity},
       ledger := m.ledger.(dropped := m.ledger.dropped + 1))
  }

  function Push(m: Memory, item: Item): Memory {
    m.(queue := m.queue + [item], queueBytes := m.queueBytes + item.size)
  }

  /** Queue the item, displacing the first low-priority item when it is high and the
      queue is full; None when it is not queued. */
  function QueueOf(m: Memory, item: Item, limits: Limits): Option<Memory> {
    if Fits(m, item.size, limits) then Some(Push(m, item))
    else if item.prepared.high && FirstDisplaceable(m.queue) < |m.queue| then Some(Push(Displace(m, FirstDisplaceable(m.queue)), item))
    else None
  }

  // ---------------------------------------------------------------- admission

  function Refused(m: Memory): Memory {
    m.(ledger := m.ledger.(refused := m.ledger.refused + 1))
  }

  function AcceptConflict(m: Memory, p: Prepared, size: nat, ticket: nat, limits: Limits): (Memory, Code) {
    var counted := m.(ledger := m.ledger.(conflicts := m.ledger.conflicts + 1));
    match QueueOf(counted, Item(p, size, true, ticket), limits)
    case Some(queued) => (queued, IdentityConflict)
    case None => (counted, QueueSaturated)
  }

  function AcceptNew(m: Memory, p: Prepared, size: nat, ticket: nat, limits: Limits): (Memory, Code) {
    match QueueOf(m, Item(p, size, false, ticket), limits)
    case Some(queued) => (queued.(identities := queued.identities[p.identity := p.hash]), Admitted)
    case None => (m.(ledger := m.ledger.(dropped := m.ledger.dropped + 1)), QueueSaturated)
  }

  /** One observation, in the order of the code's tests. */
  function AcceptOf(m: Memory, o: Observation, gate: Gate, ticket: nat, limits: Limits): (Memory, Code) {
    match o
    case Malformed => (Refused(m), InvalidRequest)
    case Unsupported(code) => (m, code)
    case Ready(p, size) =>
      if size > limits.maxEvent then (Refused(m), EventTooLarge)
      else if gate.unavailable then (m, StorageFailure)
      else if !gate.allowed then (m, InvalidRequest)
      else if m.ledger.storageFailure then (m, StorageFailure)
      else if m.ledger.capacityStop then
        (m.(ledger := m.ledger.(capacityRefused := m.ledger.capacityRefused + 1)), CapacityStop)
      else if !p.contentFree && !gate.enabled then (m, CaptureDisabled)
      else if p.identity in m.identities && m.identities[p.identity] == p.hash then (m, Duplicate)
      else if p.identity in m.identities then AcceptConflict(m, p, size, ticket, limits)
      else AcceptNew(m, p, size, ticket, limits)
  }

  /** Whether the observation was queued. */
  predicate Queued(o: Observation, code: Code) {
    o.Ready? && code in {Admitted, IdentityConflict}
  }

  // ---------------------------------------------------------------- what admission means

  /** The queue, its bytes, the known identities and the publishing count are the same. */
  predicate Untouched(m: Memory, n: Memory) {
    n.queue == m.queue && n.queueBytes == m.queueBytes && n.identities == m.identities && n.publishing == m.publishing
  }

  /** The refusal of the first test that an observation fails before its identity is
      looked at, and the one counter that some of them raise. */
  predicate Refuses(m: Memory, p: Prepared, size: nat, gate: Gate, limits: Limits, l: Ledger, code: Code) {
    if size > limits.maxEvent then code == EventTooLarge && l == m.ledger.(refused := m.ledger.refused + 1)
    else if gate.unavailable then code == StorageFailure && l == m.ledger
    else if !gate.allowed then code == InvalidRequest && l == m.ledger
    else if m.ledger.storageFailure then code == StorageFailure && l == m.ledger
    else if m.ledger.capacityStop then code == CapacityStop && l == m.ledger.(capacityRefused := m.ledger.capacityRefused + 1)
    else code == CaptureDisabled && l == m.ledger
  }

  predicate Open(m: Memory, p: Prepared, size: nat, gate: Gate, limits: Limits) {
    && size <= limits.maxEvent && !gate.unavailable && gate.allowed
    && !m.ledger.storageFailure && !m.ledger.capacityStop && (p.contentFree || gate.enabled)
  }

  /** Position i holds the first item that a high-priority one may displace. */
  predicate FirstLow(q: seq<Item>, i: nat) {
    && i < |q| && !q[i].prepared.high && !q[i].quarantine
    && forall j :: 0 <= j < i ==> q[j].prepared.high || q[j].quarantine
  }

  /** There is room, or a low-priority item to displace for a high one. */
  predicate HasRoom(m: Memory, p: Prepared, size: nat, limits: Limits) {
    || (|m.queue| < limits.count && m.queueBytes + size <= limits.bytes)
    || (p.high && exists i :: 0 <= i < |m.queue| && !m.queue[i].prepared.high && !m.queue[i].quarantine)
  }

  /** The item joined the queue's end. Without room for it the first low-priority item
      is gone, its bytes, its identity and one more drop accounted for. */
  ghost predicate Joined(m: Memory, n: Memory, item: Item, limits: Limits) {
    n.publishing == m.publishing
    && if |m.queue| < limits.count && m.queueBytes + item.size <= limits.bytes then
         && n.queue == m.queue + [item] && n.queueBytes == m.queueBytes + item.size
         && n.identities == m.identities && n.ledger.dropped == m.ledger.dropped
       else
         exists i: nat :: FirstLow(m.queue, i)
           && n.queue == m.queue[..i] + m.queue[i + 1..] + [item] && n.queueBytes == m.queueBytes - m.queue[i].size + item.size
           && n.identities == m.identities - {m.queue[i].prepared.identity} && n.ledger.dropped == m.ledger.dropped + 1
  }

  /** An observation that passes the tests: a known one changes nothing; one of a known
      identity with other content is queued for the quarantine; a new one is queued
      and its identity recorded with its hash. */
  ghost predicate Decided(m: Memory, n: Memory, p: Prepared, size: nat, ticket: nat, limits: Limits, code: Code) {
    if p.identity in m.identities && m.identities[p.identity] == p.hash then n == m && code == Duplicate
    else if p.identity in m.identities then
      && n.ledger == m.ledger.(conflicts := m.ledger.conflicts + 1, dropped := n.ledger.dropped)
      && if HasRoom(m, p, size, limits) then code == IdentityConflict && Joined(m, n, Item(p, size, true, ticket), limits)
         else code == QueueSaturated && Untouched(m, n) && n.ledger.dropped == m.ledger.dropped
    else
      && n.ledger == m.ledger.(dropped := n.ledger.dropped)
      && if HasRoom(m, p, size, limits) then
           && code == Admitted && p.identity in n.identities && n.identities[p.identity] == p.hash
           && Joined(m, n.(identities := n.identities - {p.identity}), Item(p, size, false, ticket), limits)
         else code == QueueSaturated && Untouched(m, n) && n.ledger.dropped == m.ledger.dropped + 1
  }

  /** What one admission leaves and answers, on the contents before and after. */
  ghost predicate Answered(m: Memory, o: Observation, gate: Gate, ticket: nat, limits: Limits, n: Memory, code: Code) {
    match o
    case Malformed => code == InvalidRequest && Untouched(m, n) && n.ledger == m.ledger.(refused := m.ledger.refused + 1)
    case Unsupported(c) => code == c && n == m
    case Ready(p, size) =>
      if Open(m, p, size, gate, limits) then Decided(m, n, p, size, ticket, limits, code)
      else Untouched(m, n) && Refuses(m, p, size, gate, limits, n.ledger, code)
  }

  lemma {:induction false} RoomIff(m: Memory, item: Item, limits: Limits)
    ensures QueueOf(m, item, limits).Some? <==> HasRoom(m, item.prepared, item.size, limits)
  {
    var i := FirstDisplaceable(m.queue);
    if i == |m.queue| {
      assert forall j :: 0 <= j < |m.queue| ==> !Displaceable(m.queue[j]);
    }
  }

  lemma {:induction false} QueueJoins(m: Memory, item: Item, limits: Limits)
    requires QueueOf(m, item, limits).Some?
    ensures var n := QueueOf(m, item, limits).value;
      Joined(m, n, item, limits) && n.ledger == m.ledger.(dropped := n.ledger.dropped)
    ensures QueueOf(m, item, limits).value.identities.Keys <= m.identities.Keys
  {
    if !Fits(m, item.size, limits) {
      var i := FirstDisplaceable(m.queue);
      assert forall j :: 0 <= j < i ==> !Displaceable(m.queue[j]);
      assert FirstLow(m.queue, i);
    }
  }

  lemma {:induction false} ConflictMeans(m: Memory, p: Prepared, size: nat, ticket: nat, limits: Limits)
    requires p.identity in m.identities && m.identities[p.identity] != p.hash
    ensures var (n, code) := AcceptConflict(m, p, size, ticket, limits); Decided(m, n, p, size, ticket, limits, code)
  {
    var counted, item := m.(ledger := m.ledger.(conflicts := m.ledger.conflicts + 1)), Item(p, size, true, ticket);
    RoomIff(counted, item, limits);
    if QueueOf(counted, item, limits).Some? {
      QueueJoins(counted, item, limits);
      assert Joined(m, QueueOf(counted, item, limits).value, item, limits);
    }
  }

  lemma {:induction false} NewMeans(m: Memory, p: Prepared, size: nat, ticket: nat, limits: Limits)
    requires p.identity !in m.identities
    ensures var (n, code) := AcceptNew(m, p, size, ticket, limits); Decided(m, n, p, size, ticket, limits, code)
  {
    var item := Item(p, size, false, ticket);
    RoomIff(m, item, limits);
    if QueueOf(m, item, limits).Some? {
      var queued := QueueOf(m, item, limits).value;
      QueueJoins(m, item, limits);
      assert p.identity !in queued.identities;
      assert queued.identities[p.identity := p.hash] - {p.identity} == queued.identities;
    }
  }

  /** Every answer of an admission, and what it leaves. */
  lemma {:induction false} AcceptMeans(m: Memory, o: Observation, gate: Gate, ticket: nat, limits: Limits)
    ensures var (n, code) := AcceptOf(m, o, gate, ticket, limits); Answered(m, o, gate, ticket, limits, n, code)
  {
    if o.Ready? && Open(m, o.prepared, o.size, gate, limits) && o.prepared.identity in m.identities
       && m.identities[o.prepared.identity] != o.prepared.hash
    {
      ConflictMeans(m, o.prepared, o.size, ticket, limits);
    } else if o.Ready? && o.prepared.identity !in m.identities {
      NewMeans(m, o.prepared, o.size, ticket, limits);
    }
  }

  // ---------------------------------------------------------------- taking a batch

  function TakeCount(m: Memory, limits: Limits): nat {
    Min(|m.queue|, limits.batch)
  }

  function TakeOf(m: Memory, limits: Limits): (Memory, seq<Item>) {
    var n := TakeCount(m, limits);
    (m.(queue := m.queue[n..], queueBytes := m.queueBytes - Sizes(m.queue[..n]), publishing := n), m.queue[..n])
  }

  function SizeOf(item: Item): nat { item.size }

  function Sizes(q: seq<Item>): nat {
    Total(q, SizeOf)
  }

  // ---------------------------------------------------------------- the object

  class Admission {
    const limits: Limits
    var ledger: Ledger
    var queue: seq<Item>
    var queueBytes: int
    var identities: map<Identity, Hash>
    var publishing: nat

    constructor (limits: Limits, m: Memory)
      ensures this.limits == limits && Contents() == m
    {
      this.limits := limits;
      ledger, queue, queueBytes, identities, publishing := m.ledger, m.queue, m.queueBytes, m.identities, m.publishing;
    }

    function Contents(): Memory
      reads this
    {
      Memory(ledger, queue, queueBytes, identities, publishing)
    }

    method DisplaceAt(i: nat)
      requires i < |queue|
      modifies this
      ensures Contents() == Displace(old(Contents()), i)
    {
      var item := queue[i];
      queue := queue[..i] + queue[i + 1..];
      queueBytes := queueBytes - item.size;
      if item.prepared.identity in identities && !item.quarantine {
        identities := identities - {item.prepared.identity};
      }
      ledger := ledger.(dropped := ledger.dropped + 1);
    }

    method Append(item: Item)
      modifies this`queue, this`queueBytes
      ensures Contents() == Push(old(Contents()), item)
    {
      queue := queue + [item];
      queueBytes := queueBytes + item.size;
    }

    method DisplaceFirst() returns (found: bool)
      modifies this
      ensures found == (FirstDisplaceable(old(queue)) < |old(queue)|)
      ensures Contents() == if found then Displace(old(Contents()), FirstDisplaceable(old(queue))) else old(Contents())
    {
      var i := 0;
      while i < |queue| && !Displaceable(queue[i])
        invariant 0 <= i <= |queue|
        invariant forall j :: 0 <= j < i ==> !Displaceable(queue[j])
      {
        i := i + 1;
      }
      FirstDisplaceableIs(queue, i);
      found := i < |queue|;
      if found {
        DisplaceAt(i);
      }
    }

    method QueueItem(item: Item) returns (queued: bool)
      modifies this
      ensures queued == QueueOf(old(Contents()), item, limits).Some?
      ensures Contents() == if queued then QueueOf(old(Contents()), item, limits).value else old(Contents())
    {
      if Fits(Contents(), item.size, limits) {
        Append(item);
        return true;
      }
      queued := item.prepared.high;
      if queued {
        queued := DisplaceFirst();
      }
      if queued {
        Append(item);
      }
    }

    /** The part under the lock, after the availability tests. */
    method Admit(p: Prepared, size: nat, ticket: nat) returns (code: Code)
      modifies this
      ensures (Contents(), code) ==
        if p.identity in old(identities) && old(identities)[p.identity] == p.hash then (old(Contents()), Duplicate)
        else if p.identity in old(identities) then AcceptConflict(old(Contents()), p, size, ticket, limits)
        else AcceptNew(old(Contents()), p, size, ticket, limits)
    {
      if p.identity in identities {
        if identities[p.identity] == p.hash {
          return Duplicate;
        }
        ledger := ledger.(conflicts := ledger.conflicts + 1);
        var held := QueueItem(Item(p, size, true, ticket));
        return if held then IdentityConflict else QueueSaturated;
      }
      var queued := QueueItem(Item(p, size, false, ticket));
      if queued {
        identities := identities[p.identity := p.hash];
        code := Admitted;
      } else {
        ledger := ledger.(dropped := ledger.dropped + 1);
        code := QueueSaturated;
      }
    }

    method AcceptOne(o: Observation, gate: Gate, ticket: nat) returns (code: Code)
      modifies this
      ensures (Contents(), code) == AcceptOf(old(Contents()), o, gate, ticket, limits)
      ensures Answered(old(Contents()), o, gate, ticket, limits, Contents(), code)
    {
      AcceptMeans(Contents(), o, gate, ticket, limits);
      match o {
        case Malformed =>
          ledger := ledger.(refused := ledger.refused + 1);
          code := InvalidRequest;
        case Unsupported(c) =>
          code := c;
        case Ready(p, size) =>
          if size > limits.maxEvent {
            ledger := ledger.(refused := ledger.refused + 1);
            return EventTooLarge;
          }
          if gate.unavailable {
            return StorageFailure;
          }
          if !gate.allowed {
            return InvalidRequest;
          }
          if ledger.storageFailure {
            return StorageFailure;
          }
          if ledger.capacityStop {
            ledger := ledger.(capacityRefused := ledger.capacityRefused + 1);
            return CapacityStop;
          }
          if !p.contentFree && !gate.enabled {
            return CaptureDisabled;
          }
          code := Admit(p, size, ticket);
      }
    }

    method TakeBatch() returns (batch: seq<Item>)
      modifies this
      ensures (Contents(), batch) == TakeOf(old(Contents()), limits)
      ensures batch + queue == old(queue) && |batch| == Min(|old(queue)|, limits.batch) && publishing == |batch|
      ensures queueBytes == old(queueBytes) - Sizes(batch) && ledger == old(ledger) && identities == old(identities)
    {
      var take := Min(|queue|, limits.batch);
      batch := queue[..take];
      publishing := |batch|;
      queue := queue[take..];
      var sum := 0;
      for i := 0 to take
        invariant sum == Sizes(batch[..i])
      {
        assert batch[..i + 1][..i] == batch[..i];
        sum := sum + batch[i].size;
      }
      assert batch[..take] == batch;
      queueBytes := queueBytes - sum;
    }
  }

  lemma {:induction false} FirstDisplaceableIs(q: seq<Item>, i: nat)
    requires i <= |q| && (i < |q| ==> Displaceable(q[i])) && forall j :: 0 <= j < i ==> !Displaceable(q[j])
    ensures FirstDisplaceable(q) == i
  {}

  // ---------------------------------------------------------------- queue safety

  /** The count is within its limit, the byte counter is the exact sum, and no item
      is larger than an event may be. */
  ghost predicate QueueSafe(m: Memory, limits: Limits) {
    && |m.queue| <= limits.count && m.queueBytes == Sizes(m.queue)
    && forall i :: 0 <= i < |m.queue| ==> m.queue[i].size <= limits.maxEvent
  }

  lemma {:induction false} DisplaceSafe(m: Memory, i: nat, limits: Limits)
    requires QueueSafe(m, limits) && i < |m.queue|
    ensures QueueSafe(Displace(m, i), limits)
  {
    TotalWithout(m.queue, i, SizeOf);
  }

  lemma {:induction false} PushSafe(m: Memory, item: Item, limits: Limits)
    requires QueueSafe(m, limits) && |m.queue| < limits.count && item.size <= limits.maxEvent
    ensures QueueSafe(Push(m, item), limits)
  {
    TotalConcat(m.queue, [item], SizeOf);
    TotalOne(item, SizeOf);
  }

  lemma {:induction false} QueueOfSafe(m: Memory, item: Item, limits: Limits)
    requires QueueSafe(m, limits) && item.size <= limits.maxEvent && QueueOf(m, item, limits).Some?
    ensures QueueSafe(QueueOf(m, item, limits).value, limits)
  {
    if Fits(m, item.size, limits) {
      PushSafe(m, item, limits);
    } else {
      var i := FirstDisplaceable(m.queue);
      DisplaceSafe(m, i, limits);
      PushSafe(Displace(m, i), item, limits);
    }
  }

  lemma {:induction false} AcceptSafe(m: Memory, o: Observation, gate: Gate, ticket: nat, limits: Limits)
    requires QueueSafe(m, limits)
    ensures QueueSafe(AcceptOf(m, o, gate, ticket, limits).0, limits)
  {
    if o.Ready? && o.size <= limits.maxEvent {
      var counted := m.(ledger := m.ledger.(conflicts := m.ledger.conflicts + 1));
      var held, plain := Item(o.prepared, o.size, true, ticket), Item(o.prepared, o.size, false, ticket);
      if QueueOf(counted, held, limits).Some? {
        QueueOfSafe(counted, held, limits);
      }
      if QueueOf(m, plain, limits).Some? {
        QueueOfSafe(m, plain, limits);
      }
    }
  }

  lemma {:induction false} TakeSafe(m: Memory, limits: Limits)
    requires QueueSafe(m, limits)
    ensures QueueSafe(TakeOf(m, limits).0, limits)
    ensures TakeOf(m, limits).1 + TakeOf(m, limits).0.queue == m.queue
  {
    var n := TakeCount(m, limits);
    assert m.queue == m.queue[..n] + m.queue[n..];
    TotalConcat(m.queue[..n], m.queue[n..], SizeOf);
  }

  /** The queue's bytes are bounded by its count limit times the largest event. */
  lemma {:induction false} BytesBound(m: Memory, limits: Limits)
    requires QueueSafe(m, limits)
    ensures m.queueBytes <= limits.count * limits.maxEvent
  {
    TotalBound(m.queue, SizeOf, limits.maxEvent);
    assert (limits.count - |m.queue|) * limits.maxEvent >= 0;
  }

  /** Exactly when queueing leaves the bytes within the byte limit: a displacing
      insertion is not tested against it. */
  lemma {:induction false} BytesWithinLimitIff(m: Memory, item: Item, limits: Limits)
    requires m.queueBytes <= limits.bytes && QueueOf(m, item, limits).Some?
    ensures QueueOf(m, item, limits).value.queueBytes <= limits.bytes <==>
      Fits(m, item.size, limits) || m.queueBytes - m.queue[FirstDisplaceable(m.queue)].size + item.size <= limits.bytes
  {}

  /** The byte limit can be exceeded by a displacing insertion. */
  lemma {:induction false} BytesCanExceedLimit(m: Memory)
    requires m.queue == [Item(Prepared(("s", 1), 0, false, false, false), 1, false, 0)] && m.queueBytes == 1
    ensures var limits := Limits(4, 10, 20, 1, 100);
      var item := Item(Prepared(("s", 2), 0, false, false, true), 20, false, 1);
      QueueOf(m, item, limits).Some? && QueueOf(m, item, limits).value.queueBytes == 20 > limits.bytes
  {}

  function Highs(q: seq<Item>): seq<Item> {
    Filter(q, (i: Item) => i.prepared.high || i.quarantine)
  }

  /** Neither high-priority nor quarantined items are ever displaced. */
  lemma {:induction false} HighsAreKept(m: Memory, item: Item, limits: Limits)
    requires QueueOf(m, item, limits).Some?
    ensures Highs(QueueOf(m, item, limits).value.queue) ==
      Highs(m.queue) + (if item.prepared.high || item.quarantine then [item] else [])
  {
    var keep := (i: Item) => i.prepared.high || i.quarantine;
    var q, low := m.queue, FirstDisplaceable(m.queue);
    assert Filter([item], keep) == if keep(item) then [item] else [] by { assert [item][1..] == []; }
    if Fits(m, item.size, limits) {
      FilterConcat(q, [item], keep);
    } else {
      FilterConcat(Without(q, low), [item], keep);
      FilterConcat(q[..low], q[low + 1..], keep);
      FilterConcat(q[..low], q[low..], keep);
      assert q[..low] + q[low..] == q && q[low..][1..] == q[low + 1..];
    }
  }
}
