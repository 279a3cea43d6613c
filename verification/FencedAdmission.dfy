/** Admission behind the serving pointer: what the collector asks of the authority
    before it queues an observation, and what a fenced source can still change
    (archive/collector.py, _accept_one; archive/management_authority.py, allowed). */
module FencedAdmission {
  import opened Common
  import opened CollectorQueue
  import A = Authority
  import P = RestoreProtocol
  import RestoreResults
  import RestoreSafety

  /** What one admission asks of the management side, for this source. */
  function GateOf(h: A.Held, transition: bool, maintenance: bool, source: A.Source, enabled: bool): Gate {
    Gate(transition || maintenance || h.failed, A.Allowed(h, source), enabled)
  }

  function SourceOf(o: Observation): A.Source {
    if o.Ready? then o.prepared.identity.0 else ""
  }

  class Collector {
    const admission: Admission
    const authority: A.Authority
    var transition: bool
    var maintenance: bool
    var enabled: bool

    constructor (admission: Admission, authority: A.Authority)
      ensures this.admission == admission && this.authority == authority && !transition && !maintenance && !enabled
    {
      this.admission, this.authority := admission, authority;
      transition, maintenance, enabled := false, false, false;
    }

    /** One observation: an observation that the queue takes is of a source registered
        at the serving generation, and of one fenced off nothing is kept. */
    method AcceptOne(o: Observation, ticket: nat) returns (code: Code)
      modifies admission
      ensures Answered(old(admission.Contents()), o, GateOf(authority.Contents(), transition, maintenance, SourceOf(o), enabled),
                       ticket, admission.limits, admission.Contents(), code)
      ensures Queued(o, code) ==> !transition && !maintenance && A.Allowed(authority.Contents(), o.prepared.identity.0)
      ensures o.Ready? && !A.Allowed(authority.Contents(), o.prepared.identity.0) ==>
        Untouched(old(admission.Contents()), admission.Contents()) && code in {EventTooLarge, StorageFailure, InvalidRequest}
    {
      var source := SourceOf(o);
      var allowed := !authority.failed && source in authority.value.sources
        && authority.value.sources[source] == authority.value.generation;
      code := admission.AcceptOne(o, Gate(transition || maintenance || authority.failed, allowed, enabled), ticket);
    }
  }

  /** The gate is open exactly when the restore protocol lets this source in. */
  lemma {:induction false} GateIsAdmission(d: P.Disk, m: P.Memory, source: A.Source, enabled: bool)
    ensures var g := GateOf(P.HeldOf(d, m), m.transition, m.maintenance, source, enabled);
      !g.unavailable && g.allowed <==> P.EnabledIn(d, m, P.Accept(source))
  {}

  /** So the queue takes an observation exactly when the protocol lets its source in
      and the archive's own tests pass, there is room, and its content is not known. */
  lemma {:induction false} QueuedIff(d: P.Disk, m: P.Memory, q: Memory, p: Prepared, size: nat, enabled: bool, ticket: nat, limits: Limits)
    ensures var gate := GateOf(P.HeldOf(d, m), m.transition, m.maintenance, p.identity.0, enabled);
      Queued(Ready(p, size), AcceptOf(q, Ready(p, size), gate, ticket, limits).1) <==>
        && P.EnabledIn(d, m, P.Accept(p.identity.0))
        && size <= limits.maxEvent && !q.ledger.storageFailure && !q.ledger.capacityStop && (p.contentFree || enabled)
        && !(p.identity in q.identities && q.identities[p.identity] == p.hash) && HasRoom(q, p, size, limits)
  {
    var gate := GateOf(P.HeldOf(d, m), m.transition, m.maintenance, p.identity.0, enabled);
    GateIsAdmission(d, m, p.identity.0, enabled);
    AcceptMeans(q, Ready(p, size), gate, ticket, limits);
  }

  /** A source registered before the serving generation adds nothing to the queue and
      displaces nothing from it, over any later run: registrations, restores, crashes
      and restarts included. */
  lemma {:induction false} FencedAddsNothing(w: P.World, events: seq<P.Event>, q: Memory, p: Prepared, size: nat, enabled: bool,
                                             ticket: nat, limits: Limits)
    requires RestoreSafety.Inv(w) && RestoreResults.Runs(w, events)
    requires var known := RestoreResults.Known(w); p.identity.0 in known.sources && known.sources[p.identity.0] < known.generation
    ensures var v := RestoreResults.After(w, events);
      v.mem.Some? ==>
        var m := v.mem.value;
        var (n, code) := AcceptOf(q, Ready(p, size), GateOf(P.HeldOf(v.disk, m), m.transition, m.maintenance, p.identity.0, enabled), ticket, limits);
        Untouched(q, n) && code in {EventTooLarge, StorageFailure, InvalidRequest}
  {
    var v := RestoreResults.After(w, events);
    RestoreResults.FencedForever(w, events, p.identity.0);
    if v.mem.Some? {
      var m := v.mem.value;
      AcceptMeans(q, Ready(p, size), GateOf(P.HeldOf(v.disk, m), m.transition, m.maintenance, p.identity.0, enabled), ticket, limits);
    }
  }
}
