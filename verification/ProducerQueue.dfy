/** The producer's bounded queue: admission with displacement, draining for a send,
    and requeueing what could not be sent (archive/producer.py). */
module ProducerQueue {
  import opened Common
  import opened Sorting
  import opened Queues

  const LOSSES_KEPT := 64

  datatype Item = Item(captureSeq: nat, high: bool, size: nat)

  datatype Reason = QueueSaturated | DisplacedForPriority | RequeueSaturated

  datatype Loss = Loss(item: Item, reason: Reason)

  datatype Limits = Limits(count: nat, bytes: nat)

  datatype State = State(queue: seq<Item>, bytes: int, captureSeq: nat, refused: nat, dropped: nat, losses: seq<Loss>)

  const Empty := State([], 0, 0, 0, 0, [])

  function SizeOf(item: Item): nat { item.size }

  function Sizes(q: seq<Item>): nat {
    Total(q, SizeOf)
  }

  // ---------------------------------------------------------------- operations as functions

  predicate Fits(s: State, size: nat, limits: Limits) {
    |s.queue| + 1 <= limits.count && s.bytes + size <= limits.bytes
  }

  /** Index of the first low-priority item, or the length. */
  function FirstLow(q: seq<Item>): (i: nat)
    ensures i <= |q| && (i < |q| ==> !q[i].high) && forall j :: 0 <= j < i ==> q[j].high
  {
    if q == [] then 0 else if !q[0].high then 0 else 1 + FirstLow(q[1..])
  }

  /** Only the last 64 losses are kept. */
  function AddLoss(losses: seq<Loss>, l: Loss): (r: seq<Loss>)
    requires |losses| <= LOSSES_KEPT
    ensures 0 < |r| <= LOSSES_KEPT && r[|r| - 1] == l
  {
    var all := losses + [l];
    if |all| > LOSSES_KEPT then all[|all| - LOSSES_KEPT..] else all
  }

  function Drop(s: State, i: nat): State
    requires i < |s.queue| && |s.losses| <= LOSSES_KEPT
  {
    s.(queue := Without(s.queue, i), bytes := s.bytes - s.queue[i].size, dropped := s.dropped + 1,
       losses := AddLoss(s.losses, Loss(s.queue[i], DisplacedForPriority)))
  }

  function Append(s: State, item: Item): State {
    s.(queue := s.queue + [item], bytes := s.bytes + item.size)
  }

  function EnqueueOf(s: State, high: bool, size: nat, limits: Limits): (State, bool)
    requires |s.losses| <= LOSSES_KEPT
  {
    var item := Item(s.captureSeq + 1, high, size);
    var counted := s.(captureSeq := s.captureSeq + 1);
    if Fits(counted, size, limits) then (Append(counted, item), true)
    else if high && FirstLow(counted.queue) < |counted.queue| then
      (Append(Drop(counted, FirstLow(counted.queue)), item), true)
    else (counted.(refused := s.refused + 1, losses := AddLoss(s.losses, Loss(item, QueueSaturated))), false)
  }

  function DrainOf(s: State, limit: nat): (State, seq<Item>, seq<Loss>) {
    var n := Min(limit, |s.queue|);
    (s.(queue := s.queue[n..], bytes := s.bytes - Sizes(s.queue[..n]), losses := []), s.queue[..n], s.losses)
  }

  function RequeueOne(s: State, item: Item, limits: Limits): (r: State)
    requires |s.losses| <= LOSSES_KEPT
    ensures |r.losses| <= LOSSES_KEPT
  {
    if Fits(s, item.size, limits) then s.(queue := [item] + s.queue, bytes := s.bytes + item.size)
    else s.(dropped := s.dropped + 1, losses := AddLoss(s.losses, Loss(item, RequeueSaturated)))
  }

  /** Last item first, so that the survivors keep their order. */
  function RequeueOf(s: State, items: seq<Item>, limits: Limits): (r: State)
    requires |s.losses| <= LOSSES_KEPT
    ensures |r.losses| <= LOSSES_KEPT
    decreases |items|
  {
    if items == [] then s
    else RequeueOf(RequeueOne(s, items[|items| - 1], limits), items[..|items| - 1], limits)
  }

  // ---------------------------------------------------------------- what the operations mean

  /** The last 64 of these losses. */
  function LastLosses(all: seq<Loss>): seq<Loss> {
    if |all| > 64 then all[|all| - 64..] else all
  }

  /** One capture, on the state before and after: numbered next; put at the end when it
      fits; else, when it is high, in exchange for the first low item, which is a counted
      loss; else refused as a counted loss. */
  ghost predicate Captured(s: State, high: bool, size: nat, limits: Limits, t: State, admitted: bool) {
    var item := Item(s.captureSeq + 1, high, size);
    && t.captureSeq == s.captureSeq + 1
    && (admitted <==>
          || (|s.queue| < limits.count && s.bytes + size <= limits.bytes)
          || (high && exists i :: 0 <= i < |s.queue| && !s.queue[i].high))
    && (!admitted ==>
          t.queue == s.queue && t.bytes == s.bytes && t.dropped == s.dropped && t.refused == s.refused + 1
          && t.losses == LastLosses(s.losses + [Loss(item, QueueSaturated)]))
    && (admitted ==> t.refused == s.refused)
    && (admitted && |s.queue| < limits.count && s.bytes + size <= limits.bytes ==>
          t.queue == s.queue + [item] && t.bytes == s.bytes + size && t.dropped == s.dropped && t.losses == s.losses)
    && (admitted && !(|s.queue| < limits.count && s.bytes + size <= limits.bytes) ==>
          exists i: nat :: FirstIsLow(s.queue, i)
            && t.queue == s.queue[..i] + s.queue[i + 1..] + [item] && t.bytes == s.bytes - s.queue[i].size + size
            && t.dropped == s.dropped + 1 && t.losses == LastLosses(s.losses + [Loss(s.queue[i], DisplacedForPriority)]))
  }

  predicate FirstIsLow(q: seq<Item>, i: nat) {
    i < |q| && !q[i].high && forall j :: 0 <= j < i ==> q[j].high
  }

  lemma {:induction false} EnqueueMeans(s: State, high: bool, size: nat, limits: Limits)
    requires |s.losses| <= LOSSES_KEPT
    ensures var (t, admitted) := EnqueueOf(s, high, size, limits); Captured(s, high, size, limits, t, admitted)
  {
    var i := FirstLow(s.queue);
    if i == |s.queue| {
      assert forall j :: 0 <= j < |s.queue| ==> s.queue[j].high;
    } else {
      assert FirstIsLow(s.queue, i);
    }
  }

  /** Items from index i on that are put back, and the losses the others become, last first. */
  function PutBack(items: seq<Item>, back: seq<bool>, i: nat): seq<Item>
    requires i <= |items| == |back|
    decreases |items| - i
  {
    if i == |items| then [] else (if back[i] then [items[i]] else []) + PutBack(items, back, i + 1)
  }

  function LostFrom(items: seq<Item>, back: seq<bool>, i: nat): seq<Loss>
    requires i <= |items| == |back|
    decreases |items| - i
  {
    if i == |items| then [] else LostFrom(items, back, i + 1) + (if back[i] then [] else [Loss(items[i], RequeueSaturated)])
  }

  /** Item i fits in front of those after it that went back. */
  predicate FitsInFront(s: State, items: seq<Item>, back: seq<bool>, i: nat, limits: Limits)
    requires i < |items| == |back|
  {
    && |PutBack(items, back, i + 1)| + |s.queue| < limits.count
    && s.bytes + Sizes(PutBack(items, back, i + 1)) + items[i].size <= limits.bytes
  }

  /** Of the items from index n on exactly those that fit go back. */
  ghost predicate BackFrom(s: State, items: seq<Item>, back: seq<bool>, n: nat, limits: Limits) {
    && |back| == |items|
    && forall i :: n <= i < |items| ==> (back[i] <==> FitsInFront(s, items, back, i, limits))
  }

  ghost predicate BackWhatFits(s: State, items: seq<Item>, back: seq<bool>, limits: Limits) {
    BackFrom(s, items, back, 0, limits)
  }

  /** The state after putting back the items from index i on. */
  ghost predicate Returned(s: State, items: seq<Item>, back: seq<bool>, i: nat, t: State)
    requires i <= |items| == |back|
  {
    && t.queue == PutBack(items, back, i) + s.queue && t.bytes == s.bytes + Sizes(PutBack(items, back, i))
    && t.dropped == s.dropped + |LostFrom(items, back, i)| && t.losses == LastLosses(s.losses + LostFrom(items, back, i))
    && t.captureSeq == s.captureSeq && t.refused == s.refused
  }

  lemma {:induction false} LastOfLast(a: seq<Loss>, b: seq<Loss>)
    ensures LastLosses(LastLosses(a) + b) == LastLosses(a + b)
  {}

  lemma {:induction false} SizesCons(item: Item, q: seq<Item>)
    ensures Sizes([item] + q) == item.size + Sizes(q)
  {
    TotalConcat([item], q, SizeOf);
    TotalOne(item, SizeOf);
  }

  /** The state after putting back the items from index i on, one more item. */
  lemma {:induction false} ReturnedMore(s: State, items: seq<Item>, back: seq<bool>, i: nat, t: State, limits: Limits)
    requires |s.losses| <= LOSSES_KEPT && |t.losses| <= LOSSES_KEPT && i < |items| == |back| && Returned(s, items, back, i + 1, t)
    requires back[i] <==> Fits(t, items[i].size, limits)
    ensures Returned(s, items, back, i, RequeueOne(t, items[i], limits))
  {
    var q, lost := PutBack(items, back, i + 1), LostFrom(items, back, i + 1);
    SizesCons(items[i], q);
    LastOfLast(s.losses + lost, [Loss(items[i], RequeueSaturated)]);
    assert [items[i]] + (q + s.queue) == ([items[i]] + q) + s.queue;
    assert (s.losses + lost) + [Loss(items[i], RequeueSaturated)] == s.losses + (lost + [Loss(items[i], RequeueSaturated)]);
    assert [] + q == q && lost + [] == lost;
  }

  lemma {:induction false} SameAfter(items: seq<Item>, back: seq<bool>, more: seq<bool>, i: nat)
    requires i <= |items| == |back| == |more| && back[i..] == more[i..]
    ensures PutBack(items, back, i) == PutBack(items, more, i) && LostFrom(items, back, i) == LostFrom(items, more, i)
    decreases |items| - i
  {
    if i < |items| {
      assert back[i] == back[i..][0] && more[i] == more[i..][0];
      assert back[i + 1..] == back[i..][1..] && more[i + 1..] == more[i..][1..];
      SameAfter(items, back, more, i + 1);
    }
  }

  lemma {:induction false} BackMore(s: State, items: seq<Item>, back: seq<bool>, i: nat, t: State, limits: Limits, next: seq<bool>)
    requires i < |items| && BackFrom(s, items, back, i + 1, limits) && Returned(s, items, back, i + 1, t)
    requires next == back[i := Fits(t, items[i].size, limits)]
    ensures BackFrom(s, items, next, i, limits) && Returned(s, items, next, i + 1, t)
  {
    forall k | i <= k < |items| ensures next[k] <==> FitsInFront(s, items, next, k, limits) {
      assert next[k + 1..] == back[k + 1..];
      SameAfter(items, back, next, k + 1);
    }
    assert next[i + 1..] == back[i + 1..];
    SameAfter(items, back, next, i + 1);
  }

  /** From the state reached with the items from index i on, the rest. */
  lemma {:induction false} RequeueRest(s: State, items: seq<Item>, back: seq<bool>, i: nat, t: State, limits: Limits) returns (all: seq<bool>)
    requires |s.losses| <= LOSSES_KEPT && |t.losses| <= LOSSES_KEPT && i <= |items| && BackFrom(s, items, back, i, limits) && Returned(s, items, back, i, t)
    ensures BackWhatFits(s, items, all, limits) && Returned(s, items, all, 0, RequeueOf(t, items[..i], limits))
    decreases i
  {
    if i == 0 {
      all := back;
      assert items[..0] == [];
    } else {
      var next := back[i - 1 := Fits(t, items[i - 1].size, limits)];
      BackMore(s, items, back, i - 1, t, limits, next);
      ReturnedMore(s, items, next, i - 1, t, limits);
      assert items[..i][..i - 1] == items[..i - 1] && items[..i][i - 1] == items[i - 1];
      all := RequeueRest(s, items, next, i - 1, RequeueOne(t, items[i - 1], limits), limits);
    }
  }

  /** A batch that could not be sent: in front of the queue again, in order, are exactly
      the items that fit, taken from the last on; the others are counted losses. */
  lemma {:induction false} RequeueMeans(s: State, items: seq<Item>, limits: Limits) returns (back: seq<bool>)
    requires |s.losses| <= LOSSES_KEPT
    ensures BackWhatFits(s, items, back, limits) && Returned(s, items, back, 0, RequeueOf(s, items, limits))
  {
    back := seq(|items|, _ => false);
    assert items[..|items|] == items && [] + s.queue == s.queue && s.losses + [] == s.losses;
    back := RequeueRest(s, items, back, |items|, s, limits);
  }

  lemma {:induction false} RequeueTold(s: State, items: seq<Item>, limits: Limits)
    requires |s.losses| <= LOSSES_KEPT
    ensures exists back :: BackWhatFits(s, items, back, limits) && Returned(s, items, back, 0, RequeueOf(s, items, limits))
  {
    var back := RequeueMeans(s, items, limits);
  }

  // ---------------------------------------------------------------- the object

  class Producer {
    const limits: Limits
    var queue: seq<Item>
    var bytes: int
    var captureSeq: nat
    var refused: nat
    var dropped: nat
    var losses: seq<Loss>

    constructor (limits: Limits)
      ensures this.limits == limits && Contents() == Empty
    {
      this.limits := limits;
      queue, bytes, captureSeq, refused, dropped, losses := [], 0, 0, 0, 0, [];
    }

    function Contents(): State
      reads this
    {
      State(queue, bytes, captureSeq, refused, dropped, losses)
    }

    method DropAt(i: nat)
      requires i < |queue| && |losses| <= LOSSES_KEPT
      modifies this
      ensures Contents() == Drop(old(Contents()), i)
    {
      var item := queue[i];
      queue := queue[..i] + queue[i + 1..];
      bytes := bytes - item.size;
      dropped := dropped + 1;
      RememberLoss(item, DisplacedForPriority);
    }

    method RememberLoss(item: Item, reason: Reason)
      requires |losses| <= LOSSES_KEPT
      modifies this`losses
      ensures losses == AddLoss(old(losses), Loss(item, reason))
    {
      losses := losses + [Loss(item, reason)];
      if |losses| > LOSSES_KEPT {
        losses := losses[|losses| - LOSSES_KEPT..];
      }
    }

    method DisplaceLow() returns (found: bool)
      requires |losses| <= LOSSES_KEPT
      modifies this
      ensures found == (FirstLow(old(queue)) < |old(queue)|)
      ensures Contents() == if found then Drop(old(Contents()), FirstLow(old(queue))) else old(Contents())
    {
      var i := 0;
      while i < |queue| && queue[i].high
        invariant 0 <= i <= |queue|
        invariant forall j :: 0 <= j < i ==> queue[j].high
      {
        i := i + 1;
      }
      FirstLowIs(queue, i);
      found := i < |queue|;
      if found {
        DropAt(i);
      }
    }

    method Push(item: Item)
      modifies this`queue, this`bytes
      ensures Contents() == Append(old(Contents()), item)
    {
      queue := queue + [item];
      bytes := bytes + item.size;
    }

    method Enqueue(high: bool, size: nat) returns (admitted: bool)
      requires |losses| <= LOSSES_KEPT
      modifies this
      ensures (Contents(), admitted) == EnqueueOf(old(Contents()), high, size, limits)
      ensures Captured(old(Contents()), high, size, limits, Contents(), admitted)
    {
      EnqueueMeans(Contents(), high, size, limits);
      captureSeq := captureSeq + 1;
      var item := Item(captureSeq, high, size);
      ghost var counted := Contents();
      if |queue| + 1 <= limits.count && bytes + size <= limits.bytes {
        assert Fits(counted, size, limits);
        Push(item);
        return true;
      }
      assert !Fits(counted, size, limits);
      admitted := high;
      if high {
        admitted := DisplaceLow();
      }
      if admitted {
        assert Contents() == Drop(counted, FirstLow(counted.queue));
        Push(item);
      } else {
        assert Contents() == counted;
        refused := refused + 1;
        RememberLoss(item, QueueSaturated);
      }
    }

    method Drain(limit: nat) returns (batch: seq<Item>, taken: seq<Loss>)
      modifies this
      ensures (Contents(), batch, taken) == DrainOf(old(Contents()), limit)
      ensures batch + queue == old(queue) && |batch| == Min(limit, |old(queue)|) && bytes == old(bytes) - Sizes(batch)
      ensures taken == old(losses) && losses == [] && captureSeq == old(captureSeq) && refused == old(refused) && dropped == old(dropped)
    {
      var n := Min(limit, |queue|);
      batch := queue[..n];
      queue := queue[n..];
      var sum := 0;
      for i := 0 to n
        invariant sum == Sizes(batch[..i])
      {
        assert batch[..i + 1][..i] == batch[..i];
        sum := sum + batch[i].size;
      }
      assert batch[..n] == batch;
      bytes := bytes - sum;
      taken := losses;
      losses := [];
    }

    method RequeueItem(item: Item)
      requires |losses| <= LOSSES_KEPT
      modifies this
      ensures Contents() == RequeueOne(old(Contents()), item, limits)
    {
      if |queue| + 1 <= limits.count && bytes + item.size <= limits.bytes {
        queue := [item] + queue;
        bytes := bytes + item.size;
      } else {
        dropped := dropped + 1;
        RememberLoss(item, RequeueSaturated);
      }
    }

    method Requeue(items: seq<Item>)
      requires |losses| <= LOSSES_KEPT
      modifies this
      ensures Contents() == RequeueOf(old(Contents()), items, limits)
      ensures exists back :: BackWhatFits(old(Contents()), items, back, limits) && Returned(old(Contents()), items, back, 0, Contents())
    {
      ghost var before := Contents();
      RequeueTold(before, items, limits);
      var n := |items|;
      assert items[..n] == items;
      while n > 0
        invariant 0 <= n <= |items| && |losses| <= LOSSES_KEPT
        invariant RequeueOf(Contents(), items[..n], limits) == RequeueOf(old(Contents()), items, limits)
      {
        assert items[..n][..n - 1] == items[..n - 1];
        RequeueItem(items[n - 1]);
        n := n - 1;
      }
    }
  }

  lemma {:induction false} FirstLowIs(q: seq<Item>, i: nat)
    requires i <= |q| && (i < |q| ==> !q[i].high) && forall j :: 0 <= j < i ==> q[j].high
    ensures FirstLow(q) == i
  {}

  // ---------------------------------------------------------------- invariants

  ghost predicate Ordered(q: seq<Item>) {
    forall i, j :: 0 <= i < j < |q| ==> q[i].captureSeq < q[j].captureSeq
  }

  /** The count is within its limit, the byte counter is the exact sum, and the
      batch being sent followed by the queue is in strict capture order. */
  ghost predicate Inv(s: State, inflight: seq<Item>, limits: Limits) {
    && |s.queue| <= limits.count && s.bytes == Sizes(s.queue) && |s.losses| <= LOSSES_KEPT
    && Ordered(inflight + s.queue)
    && UpToSeq(inflight + s.queue, s.captureSeq)
  }

  ghost predicate UpToSeq(q: seq<Item>, n: nat) {
    forall i :: 0 <= i < |q| ==> q[i].captureSeq <= n
  }

  lemma {:induction false} OrderedWithout(q: seq<Item>, k: nat, n: nat)
    requires k < |q| && Ordered(q) && UpToSeq(q, n)
    ensures Ordered(Without(q, k)) && UpToSeq(Without(q, k), n)
  {
    var less := Without(q, k);
    forall i, j | 0 <= i < j < |less| ensures less[i].captureSeq < less[j].captureSeq {
      assert less[i] == q[if i < k then i else i + 1] && less[j] == q[if j < k then j else j + 1];
    }
  }

  lemma {:induction false} DropKeeps(s: State, inflight: seq<Item>, limits: Limits, i: nat)
    requires Inv(s, inflight, limits) && i < |s.queue|
    ensures Inv(Drop(s, i), inflight, limits)
  {
    TotalWithout(s.queue, i, SizeOf);
    OrderedWithout(inflight + s.queue, |inflight| + i, s.captureSeq);
    WithoutBehind(inflight, s.queue, i);
  }

  lemma {:induction false} AppendKeeps(s: State, inflight: seq<Item>, limits: Limits, item: Item)
    requires Inv(s, inflight, limits) && |s.queue| < limits.count && item.captureSeq == s.captureSeq + 1
    ensures Inv(Append(s.(captureSeq := s.captureSeq + 1), item), inflight, limits)
  {
    TotalConcat(s.queue, [item], SizeOf);
    TotalOne(item, SizeOf);
    var all := inflight + s.queue;
    assert inflight + (s.queue + [item]) == all + [item];
  }

  lemma {:induction false} EnqueueKeeps(s: State, inflight: seq<Item>, limits: Limits, high: bool, size: nat)
    requires Inv(s, inflight, limits)
    ensures Inv(EnqueueOf(s, high, size, limits).0, inflight, limits)
  {
    var item := Item(s.captureSeq + 1, high, size);
    if Fits(s, size, limits) {
      AppendKeeps(s, inflight, limits, item);
    } else if high && FirstLow(s.queue) < |s.queue| {
      DropKeeps(s, inflight, limits, FirstLow(s.queue));
      AppendKeeps(Drop(s, FirstLow(s.queue)), inflight, limits, item);
    }
  }

  lemma {:induction false} DrainKeeps(s: State, limits: Limits, limit: nat)
    requires Inv(s, [], limits)
    ensures Inv(DrainOf(s, limit).0, DrainOf(s, limit).1, limits)
  {
    var n := Min(limit, |s.queue|);
    assert s.queue[..n] + s.queue[n..] == s.queue == [] + s.queue;
    TotalConcat(s.queue[..n], s.queue[n..], SizeOf);
  }

  lemma {:induction false} RequeueKeeps(s: State, limits: Limits, items: seq<Item>)
    requires Inv(s, items, limits)
    ensures Inv(RequeueOf(s, items, limits), [], limits)
    decreases |items|
  {
    if items != [] {
      var front, item := items[..|items| - 1], items[|items| - 1];
      var all := items + s.queue;
      assert front + ([item] + s.queue) == all;
      OrderedWithout(all, |front|, s.captureSeq);
      assert Without(all, |front|) == front + s.queue;
      TotalConcat([item], s.queue, SizeOf);
      TotalOne(item, SizeOf);
      RequeueKeeps(RequeueOne(s, item, limits), limits, front);
    }
  }

  /** What was sent is in front of everything left in the queue. */
  lemma {:induction false} SentKeeps(s: State, limits: Limits, items: seq<Item>)
    requires Inv(s, items, limits)
    ensures Inv(s, [], limits)
  {
    assert forall i :: 0 <= i < |s.queue| ==> ([] + s.queue)[i] == (items + s.queue)[|items| + i];
  }

  // ---------------------------------------------------------------- priorities and bytes

  function Highs(q: seq<Item>): seq<Item> {
    Filter(q, (i: Item) => i.high)
  }

  /** Admission never removes a high-priority item: the high items are the old ones,
      followed by the new one when it is high and admitted. */
  lemma {:induction false} HighsAreKept(s: State, limits: Limits, high: bool, size: nat)
    requires |s.losses| <= LOSSES_KEPT
    ensures var (after, admitted) := EnqueueOf(s, high, size, limits);
      Highs(after.queue) == Highs(s.queue) + (if high && admitted then [Item(s.captureSeq + 1, true, size)] else [])
  {
    var keep := (i: Item) => i.high;
    var item, low := Item(s.captureSeq + 1, high, size), FirstLow(s.queue);
    assert Filter([item], keep) == if high then [item] else [] by { assert [item][1..] == []; }
    if Fits(s, size, limits) {
      FilterConcat(s.queue, [item], keep);
    } else if high && low < |s.queue| {
      var q := s.queue;
      FilterConcat(Without(q, low), [item], keep);
      FilterConcat(q[..low], q[low + 1..], keep);
      FilterConcat(q[..low], q[low..], keep);
      assert q[..low] + q[low..] == q && q[low..][1..] == q[low + 1..];
    }
  }

  /** Exactly when admission leaves the queue within its byte limit: a displacing
      admission is not tested against it. */
  lemma {:induction false} BytesWithinLimitIff(s: State, limits: Limits, high: bool, size: nat)
    requires |s.losses| <= LOSSES_KEPT && s.bytes <= limits.bytes
    ensures EnqueueOf(s, high, size, limits).0.bytes <= limits.bytes <==>
      Fits(s, size, limits) || !high || FirstLow(s.queue) == |s.queue|
      || s.bytes - s.queue[FirstLow(s.queue)].size + size <= limits.bytes
  {}

  /** The limit can be exceeded. */
  lemma {:induction false} BytesCanExceedLimit()
    ensures var limits := Limits(4, 10);
      var before := EnqueueOf(Empty, false, 1, limits).0;
      before.bytes <= limits.bytes < EnqueueOf(before, true, 20, limits).0.bytes
  {
    var q := EnqueueOf(Empty, false, 1, Limits(4, 10)).0.queue;
    assert q == [Item(1, false, 1)];
  }

  /** What does bound the bytes: the count limit times the largest admitted event. */
  lemma {:induction false} BytesBound(s: State, inflight: seq<Item>, limits: Limits, maximum: nat)
    requires Inv(s, inflight, limits) && forall i :: 0 <= i < |s.queue| ==> s.queue[i].size <= maximum
    ensures s.bytes <= |s.queue| * maximum <= limits.count * maximum
  {
    TotalBound(s.queue, SizeOf, maximum);
    assert (limits.count - |s.queue|) * maximum >= 0;
  }

  // ---------------------------------------------------------------- runs

  /** The queue, the batch being sent, how many items were sent and how many of the
      refusals were for saturation. */
  datatype World = World(state: State, inflight: seq<Item>, sent: nat, saturated: nat)

  datatype Event = Enqueue(high: bool, size: nat) | Drain(limit: nat) | Sent | Failed | RefuseOther(count: nat)

  const Start := World(Empty, [], 0, 0)

  /** One sender: it drains only when it holds no batch. */
  function Step(w: World, e: Event, limits: Limits): (r: World)
    requires |w.state.losses| <= LOSSES_KEPT
    ensures |r.state.losses| <= LOSSES_KEPT
  {
    match e
    case Enqueue(high, size) =>
      var (s, admitted) := EnqueueOf(w.state, high, size, limits);
      World(s, w.inflight, w.sent, w.saturated + if admitted then 0 else 1)
    case Drain(limit) =>
      if w.inflight != [] then w
      else var (s, batch, _) := DrainOf(w.state, limit); w.(state := s, inflight := batch)
    case Sent => w.(inflight := [], sent := w.sent + |w.inflight|)
    case Failed => w.(state := RequeueOf(w.state, w.inflight, limits), inflight := [])
    case RefuseOther(count) => w.(state := w.state.(refused := w.state.refused + count))
  }

  function Run(w: World, events: seq<Event>, limits: Limits): World
    requires |w.state.losses| <= LOSSES_KEPT
    decreases |events|
  {
    if events == [] then w else Run(Step(w, events[0], limits), events[1..], limits)
  }

  /** Every numbered capture is sent, being sent, queued, dropped or refused. */
  ghost predicate Conserved(w: World) {
    && w.state.captureSeq == w.sent + |w.inflight| + |w.state.queue| + w.state.dropped + w.saturated
    && w.saturated <= w.state.refused
  }

  lemma {:induction false} RequeueConserves(s: State, items: seq<Item>, limits: Limits)
    requires |s.losses| <= LOSSES_KEPT
    ensures var r := RequeueOf(s, items, limits);
      && |r.queue| + r.dropped == |s.queue| + s.dropped + |items|
      && r.captureSeq == s.captureSeq && r.refused == s.refused
    decreases |items|
  {
    if items != [] {
      RequeueConserves(RequeueOne(s, items[|items| - 1], limits), items[..|items| - 1], limits);
    }
  }

  lemma {:induction false} StepKeeps(w: World, e: Event, limits: Limits)
    requires Inv(w.state, w.inflight, limits) && Conserved(w)
    ensures Inv(Step(w, e, limits).state, Step(w, e, limits).inflight, limits) && Conserved(Step(w, e, limits))
  {
    match e
    case Enqueue(high, size) => EnqueueKeeps(w.state, w.inflight, limits, high, size);
    case Drain(limit) =>
      if w.inflight == [] {
        DrainKeeps(w.state, limits, limit);
      }
    case Sent => SentKeeps(w.state, limits, w.inflight);
    case Failed =>
      RequeueKeeps(w.state, limits, w.inflight);
      RequeueConserves(w.state, w.inflight, limits);
    case RefuseOther(_) =>
  }

  /** Over every run from the empty queue. */
  lemma {:induction false} RunKeeps(w: World, events: seq<Event>, limits: Limits)
    requires Inv(w.state, w.inflight, limits) && Conserved(w)
    ensures Inv(Run(w, events, limits).state, Run(w, events, limits).inflight, limits) && Conserved(Run(w, events, limits))
    decreases |events|
  {
    if events != [] {
      StepKeeps(w, events[0], limits);
      RunKeeps(Step(w, events[0], limits), events[1..], limits);
    }
  }

  lemma {:induction false} EveryRun(events: seq<Event>, limits: Limits)
    ensures Inv(Run(Start, events, limits).state, Run(Start, events, limits).inflight, limits)
    ensures Conserved(Run(Start, events, limits))
  {
    RunKeeps(Start, events, limits);
  }
}
