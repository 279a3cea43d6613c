/** Shared content leases and the exclusive restoration transition
    (archive/management_gate.py). */
module ContentGate {
  import opened Common

  type Thread = nat

  /** How many leases are held, and the thread that holds the transition. */
  datatype Gate = Gate(readers: nat, writer: Option<Thread>)

  datatype Act = Acquire(t: Thread) | Release | Begin(t: Thread) | End(t: Thread)

  /** Whether the call succeeds; a false answer and an error both change nothing. */
  predicate Succeeds(g: Gate, a: Act) {
    match a
    case Acquire(t) => g.writer.None? || g.writer == Some(t)
    case Release => g.readers > 0
    case Begin(_) => g.writer.None? && g.readers == 0
    case End(t) => g.writer == Some(t) && g.readers == 0
  }

  function Step(g: Gate, a: Act): Gate {
    if !Succeeds(g, a) then g
    else
      match a
      case Acquire(_) => g.(readers := g.readers + 1)
      case Release => g.(readers := g.readers - 1)
      case Begin(t) => g.(writer := Some(t))
      case End(_) => g.(writer := None)
  }

  class ContentGate {
    var readers: nat
    var writer: Option<Thread>

    constructor ()
      ensures Contents() == Gate(0, None)
    {
      readers, writer := 0, None;
    }

    function Contents(): Gate
      reads this
    {
      Gate(readers, writer)
    }

    method AcquireLease(t: Thread) returns (ok: bool)
      modifies this
      ensures ok == Succeeds(old(Contents()), Acquire(t)) && Contents() == Step(old(Contents()), Acquire(t))
      ensures (ok <==> old(writer).None? || old(writer).value == t) && writer == old(writer)
      ensures readers == old(readers) + (if ok then 1 else 0)
    {
      if writer.Some? && writer.value != t {
        return false;
      }
      readers := readers + 1;
      ok := true;
    }

    method ReleaseLease() returns (ok: bool)
      modifies this
      ensures ok == Succeeds(old(Contents()), Release) && Contents() == Step(old(Contents()), Release)
      ensures (ok <==> old(readers) > 0) && writer == old(writer) && readers == old(readers) - (if ok then 1 else 0)
    {
      if readers <= 0 {
        return false;
      }
      readers := readers - 1;
      ok := true;
    }

    method BeginTransition(t: Thread) returns (ok: bool)
      modifies this
      ensures ok == Succeeds(old(Contents()), Begin(t)) && Contents() == Step(old(Contents()), Begin(t))
      ensures (ok <==> old(writer).None? && old(readers) == 0) && readers == old(readers)
      ensures writer == if ok then Some(t) else old(writer)
    {
      if writer.Some? || readers > 0 {
        return false;
      }
      writer := Some(t);
      ok := true;
    }

    method EndTransition(t: Thread) returns (ok: bool)
      modifies this
      ensures ok == Succeeds(old(Contents()), End(t)) && Contents() == Step(old(Contents()), End(t))
      ensures (ok <==> old(writer) == Some(t) && old(readers) == 0) && readers == old(readers)
      ensures writer == if ok then None else old(writer)
    {
      if writer != Some(t) || readers > 0 {
        return false;
      }
      writer := None;
      ok := true;
    }
  }

  // ---------------------------------------------------------------- exclusion over runs

  /** A call and the thread that makes it. */
  datatype Call = Call(act: Act, caller: Thread)

  /** The holders of the leases, one entry a lease. */
  function HoldersAfter(holders: seq<Thread>, g: Gate, c: Call): seq<Thread>
    requires Proper(holders, c)
  {
    if !Succeeds(g, c.act) then holders
    else if c.act.Acquire? then holders + [c.caller]
    else if c.act.Release? then Remove(holders, c.caller)
    else holders
  }

  function Remove(s: seq<Thread>, t: Thread): (r: seq<Thread>)
    requires t in s
    ensures |r| == |s| - 1 && forall u :: u in r ==> u in s
  {
    if s[0] == t then s[1..] else [s[0]] + Remove(s[1..], t)
  }

  /** Callers pass their own thread, and release only what they hold. */
  predicate Proper(holders: seq<Thread>, c: Call) {
    match c.act
    case Acquire(t) => t == c.caller
    case Release => c.caller in holders
    case Begin(t) => t == c.caller
    case End(t) => t == c.caller
  }

  /** The count is the number of leases held, and while a thread holds the transition
      no other thread holds a lease. */
  ghost predicate Exclusive(holders: seq<Thread>, g: Gate) {
    |holders| == g.readers && (g.writer.Some? ==> forall t :: t in holders ==> t == g.writer.value)
  }

  ghost predicate ProperRun(holders: seq<Thread>, g: Gate, calls: seq<Call>)
    decreases |calls|
  {
    calls == [] || (Proper(holders, calls[0])
      && ProperRun(HoldersAfter(holders, g, calls[0]), Step(g, calls[0].act), calls[1..]))
  }

  ghost function AfterCalls(holders: seq<Thread>, g: Gate, calls: seq<Call>): (seq<Thread>, Gate)
    requires ProperRun(holders, g, calls)
    decreases |calls|
  {
    if calls == [] then (holders, g)
    else AfterCalls(HoldersAfter(holders, g, calls[0]), Step(g, calls[0].act), calls[1..])
  }

  lemma {:induction false} ExclusionKept(holders: seq<Thread>, g: Gate, calls: seq<Call>)
    requires Exclusive(holders, g) && ProperRun(holders, g, calls)
    ensures Exclusive(AfterCalls(holders, g, calls).0, AfterCalls(holders, g, calls).1)
    decreases |calls|
  {
    if calls != [] {
      ExclusionKept(HoldersAfter(holders, g, calls[0]), Step(g, calls[0].act), calls[1..]);
    }
  }

  /** A transition begins exactly when nobody holds a lease or the transition, and
      until its own thread ends it nobody else can acquire a lease or begin one. */
  lemma {:induction false} TransitionExcludes(holders: seq<Thread>, g: Gate, t: Thread, other: Thread)
    requires Exclusive(holders, g) && t != other
    ensures Succeeds(g, Begin(t)) <==> holders == [] && g.writer.None?
    ensures Succeeds(g, Begin(t)) ==>
      var held := Step(g, Begin(t));
      !Succeeds(held, Acquire(other)) && !Succeeds(held, Begin(other)) && !Succeeds(held, End(other)) && Succeeds(held, End(t))
  {}
}
