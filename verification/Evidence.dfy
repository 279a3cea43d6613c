/** Retrieval evidence from a retrieved subset of the events against the exact
    evidence from all of them (daemon/ann.py, compute_ann_evidence and
    BruteForceIndex). Weights are exact reals; the age factor is any decreasing
    function with values in (0, 1]; the cosine is any function. */
module Evidence {
  import opened Common
  import opened Sorting

  type Id = nat

  datatype Hlc = Hlc(physical: int, logical: int)

  /** An active event: its key, and its selection after normalization. */
  datatype Event = Event(id: Id, hlc: Hlc, key: nat, selection: nat)

  /** One query vector for all events, or one for each candidate. */
  datatype Mode = Shared(cosine: Id -> real) | PerCandidate(cosineFor: (nat, Id) -> real)

  datatype Params = Params(tau: real, kEvidence: nat, saturation: real, age: nat -> real)

  ghost predicate ValidParams(p: Params) {
    && 0.0 <= p.tau < 1.0 && p.kEvidence >= 1 && p.saturation > 0.0
    && (forall u :: 0.0 < p.age(u) <= 1.0)
    && (forall u, v :: u <= v ==> p.age(v) <= p.age(u))
  }

  datatype Contribution = Contribution(event: Event, relevance: real, usageAge: nat, weight: real, matched: int)

  datatype Result = Result(kept: seq<Contribution>, masses: seq<real>, scores: seq<real>, total: real)

  predicate HlcLeq(x: Hlc, y: Hlc) {
    x.physical < y.physical || (x.physical == y.physical && x.logical <= y.logical)
  }

  predicate EventLeq(x: Event, y: Event) {
    HlcLeq(x.hlc, y.hlc) && (x.hlc == y.hlc ==> x.id <= y.id)
  }

  /** Larger weight first, then the earlier event. */
  predicate Better(x: Contribution, y: Contribution) {
    x.weight > y.weight || (x.weight == y.weight && EventLeq(x.event, y.event))
  }

  function RMin(a: real, b: real): real { if a <= b then a else b }
  function RMax(a: real, b: real): real { if a >= b then a else b }

  function Relevance(cosine: real, tau: real): real
    requires tau < 1.0
  {
    RMin(RMax((cosine - tau) / (1.0 - tau), 0.0), 1.0)
  }

  /** Index of the first candidate with this text, or -1. */
  function FirstMatch(candidates: seq<nat>, text: nat): (r: int)
    ensures -1 <= r < |candidates|
    ensures r >= 0 ==> candidates[r] == text && forall j :: 0 <= j < r ==> candidates[j] != text
    ensures r < 0 ==> text !in candidates
  {
    if candidates == [] then -1
    else if candidates[0] == text then 0
    else
      var r := FirstMatch(candidates[1..], text);
      if r < 0 then -1 else r + 1
  }

  // ---------------------------------------------------------------- specification

  /** What event i of the sorted same-key list contributes when it is considered. */
  function ContributionAt(sameKey: seq<Event>, i: nat, candidates: seq<nat>, p: Params, mode: Mode): Option<Contribution>
    requires i < |sameKey| && p.tau < 1.0
  {
    var e := sameKey[i];
    var age := |sameKey| - 1 - i;
    match mode
    case Shared(cosine) =>
      var r := Relevance(cosine(e.id), p.tau);
      Some(Contribution(e, r, age, r * p.age(age), -2))
    case PerCandidate(cosineFor) =>
      var m := FirstMatch(candidates, e.selection);
      if m < 0 then None
      else
        var r := Relevance(cosineFor(m, e.id), p.tau);
        Some(Contribution(e, r, age, r * p.age(age), m))
  }

  /** The positive contributions of the first n same-key events among the allowed ones. */
  function Passed(sameKey: seq<Event>, n: nat, allowed: set<Id>, candidates: seq<nat>, p: Params, mode: Mode): seq<Contribution>
    requires n <= |sameKey| && p.tau < 1.0
  {
    if n == 0 then []
    else
      var before := Passed(sameKey, n - 1, allowed, candidates, p, mode);
      var c := ContributionAt(sameKey, n - 1, candidates, p, mode);
      if sameKey[n - 1].id in allowed && c.Some? && c.value.weight > 0.0 then before + [c.value] else before
  }

  /** In the shared mode candidates are matched after the cut. */
  function Matched(c: Contribution, candidates: seq<nat>, mode: Mode): Contribution {
    if mode.Shared? then c.(matched := FirstMatch(candidates, c.event.selection)) else c
  }

  function MatchAll(s: seq<Contribution>, candidates: seq<nat>, mode: Mode): (r: seq<Contribution>)
    ensures |r| == |s|
    ensures forall i :: 0 <= i < |s| ==> r[i] == Matched(s[i], candidates, mode)
  {
    if s == [] then [] else MatchAll(s[..|s| - 1], candidates, mode) + [Matched(s[|s| - 1], candidates, mode)]
  }

  function KeptOf(sameKey: seq<Event>, allowed: set<Id>, candidates: seq<nat>, p: Params, mode: Mode): seq<Contribution>
    requires p.tau < 1.0
  {
    MatchAll(Top(Sort(Passed(sameKey, |sameKey|, allowed, candidates, p, mode), Better), p.kEvidence), candidates, mode)
  }

  function Mass(kept: seq<Contribution>, c: int): real {
    if kept == [] then 0.0
    else Mass(kept[..|kept| - 1], c) + (if kept[|kept| - 1].matched == c then kept[|kept| - 1].weight else 0.0)
  }

  function MassesOf(kept: seq<Contribution>, n: nat): (r: seq<real>)
    ensures |r| == n && forall c :: 0 <= c < n ==> r[c] == Mass(kept, c)
  {
    if n == 0 then [] else MassesOf(kept, n - 1) + [Mass(kept, n - 1)]
  }

  function Sum(s: seq<real>): real {
    if s == [] then 0.0 else Sum(s[..|s| - 1]) + s[|s| - 1]
  }

  function Score(mass: real, total: real, k: real): real
    requires total > 0.0 ==> mass + k != 0.0
  {
    if total > 0.0 then (mass / total) * (mass / (mass + k)) else 0.0
  }

  function ScoresOf(masses: seq<real>, total: real, k: real): (r: seq<real>)
    requires forall i :: 0 <= i < |masses| ==> masses[i] + k != 0.0
    ensures |r| == |masses| && forall i :: 0 <= i < |masses| ==> r[i] == Score(masses[i], total, k)
  {
    if masses == [] then [] else ScoresOf(masses[..|masses| - 1], total, k) + [Score(masses[|masses| - 1], total, k)]
  }

  function SameKey(events: seq<Event>, key: nat, excluded: set<Id>): seq<Event> {
    Sort(Filter(events, (e: Event) => e.id !in excluded && e.key == key), EventLeq)
  }

  function Ids(events: seq<Event>): set<Id> {
    set e | e in events :: e.id
  }

  /** Hits outside the delta, and the delta, restricted to the same-key events. */
  function Allowed(sameKey: seq<Event>, hits: seq<seq<Id>>, delta: set<Id>): set<Id> {
    var found := set i, j | 0 <= i < |hits| && 0 <= j < |hits[i]| :: hits[i][j];
    ((found - delta) + (delta * Ids(sameKey))) * Ids(sameKey)
  }

  // ---------------------------------------------------------------- basic facts

  lemma {:induction false} EventLeqTotal()
    ensures TotalPreorder(EventLeq)
  {}

  lemma {:induction false} BetterTotal()
    ensures TotalPreorder(Better)
  {}

  lemma {:induction false} RelevanceRange(cosine: real, tau: real)
    requires tau < 1.0
    ensures 0.0 <= Relevance(cosine, tau) <= 1.0
  {}

  lemma {:induction false} ProductNonNegative(x: real, y: real)
    requires x >= 0.0 && y >= 0.0
    ensures x * y >= 0.0
  {}

  lemma {:induction false} ProductMonotone(x: real, y: real, z: real)
    requires x <= y && z >= 0.0
    ensures x * z <= y * z
  {
    ProductNonNegative(y - x, z);
    assert (y - x) * z == y * z - x * z;
  }

  lemma {:induction false} UnitProduct(r: real, a: real)
    requires 0.0 <= r <= 1.0 && 0.0 < a <= 1.0
    ensures 0.0 <= r * a <= 1.0
  {
    ProductNonNegative(r, a);
    ProductMonotone(r, 1.0, a);
  }

  /** A positive contribution of a considered event, with its weight in (0, 1]. */
  ghost predicate Proper(c: Contribution) {
    0.0 < c.weight <= 1.0
  }

  lemma {:induction false} PassedProper(sameKey: seq<Event>, n: nat, allowed: set<Id>, candidates: seq<nat>, p: Params, mode: Mode)
    requires n <= |sameKey| && ValidParams(p)
    ensures forall c :: c in Passed(sameKey, n, allowed, candidates, p, mode) ==>
      Proper(c) && c.event.id in allowed && c.event in sameKey && (mode.PerCandidate? ==> 0 <= c.matched < |candidates|)
  {
    if n > 0 {
      PassedProper(sameKey, n - 1, allowed, candidates, p, mode);
      var c := ContributionAt(sameKey, n - 1, candidates, p, mode);
      if c.Some? {
        RelevanceRange(if mode.Shared? then mode.cosine(sameKey[n - 1].id) else mode.cosineFor(c.value.matched, sameKey[n - 1].id), p.tau);
        UnitProduct(c.value.relevance, p.age(c.value.usageAge));
      }
    }
  }

  /** Restricting the allowed events filters the contributions and changes none. */
  lemma {:induction false} PassedFilter(sameKey: seq<Event>, n: nat, all: set<Id>, allowed: set<Id>, candidates: seq<nat>, p: Params, mode: Mode)
    requires n <= |sameKey| && p.tau < 1.0 && allowed <= all
    ensures Passed(sameKey, n, allowed, candidates, p, mode) ==
      Filter(Passed(sameKey, n, all, candidates, p, mode), (c: Contribution) => c.event.id in allowed)
  {
    if n > 0 {
      PassedFilter(sameKey, n - 1, all, allowed, candidates, p, mode);
      var keep := (c: Contribution) => c.event.id in allowed;
      var before := Passed(sameKey, n - 1, all, candidates, p, mode);
      var c := ContributionAt(sameKey, n - 1, candidates, p, mode);
      if sameKey[n - 1].id in all && c.Some? && c.value.weight > 0.0 {
        FilterConcat(before, [c.value], keep);
        assert Filter([c.value][1..], keep) == [];
      }
    }
  }

  // ---------------------------------------------------------------- refinement of the exact evidence

  lemma {:induction false} CutFilter(sameKey: seq<Event>, all: set<Id>, allowed: set<Id>, candidates: seq<nat>, p: Params, mode: Mode)
    requires ValidParams(p) && allowed <= all
    ensures Sort(Passed(sameKey, |sameKey|, allowed, candidates, p, mode), Better) ==
      Filter(Sort(Passed(sameKey, |sameKey|, all, candidates, p, mode), Better), (c: Contribution) => c.event.id in allowed)
  {
    PassedFilter(sameKey, |sameKey|, all, allowed, candidates, p, mode);
    BetterTotal();
    SortFilter(Passed(sameKey, |sameKey|, all, candidates, p, mode), Better, (c: Contribution) => c.event.id in allowed);
  }

  /** If every event of the exact top K is allowed, the kept list, and with it
      every mass and score, is the exact one. */
  lemma {:induction false} RetrievedIsExact(sameKey: seq<Event>, allowed: set<Id>, candidates: seq<nat>, p: Params, mode: Mode)
    requires ValidParams(p) && allowed <= Ids(sameKey)
    requires forall c :: c in KeptOf(sameKey, Ids(sameKey), candidates, p, mode) ==> c.event.id in allowed
    ensures KeptOf(sameKey, allowed, candidates, p, mode) == KeptOf(sameKey, Ids(sameKey), candidates, p, mode)
  {
    var all := Ids(sameKey);
    var keep := (c: Contribution) => c.event.id in allowed;
    var sorted := Sort(Passed(sameKey, |sameKey|, all, candidates, p, mode), Better);
    CutFilter(sameKey, all, allowed, candidates, p, mode);
    var top := Top(sorted, p.kEvidence);
    var kept := MatchAll(top, candidates, mode);
    forall x | x in top ensures keep(x) {
      var i :| 0 <= i < |top| && top[i] == x;
      assert kept[i] == Matched(x, candidates, mode) && kept[i] in kept;
    }
    TopOfFilter(sorted, keep, p.kEvidence);
  }

  /** The hits need only contain the exact top K outside the delta. */
  lemma {:induction false} HitsSuffice(sameKey: seq<Event>, hits: seq<seq<Id>>, delta: set<Id>, candidates: seq<nat>, p: Params, mode: Mode)
    requires ValidParams(p)
    requires forall c :: c in KeptOf(sameKey, Ids(sameKey), candidates, p, mode) && c.event.id !in delta ==>
      exists i :: 0 <= i < |hits| && c.event.id in hits[i]
    ensures KeptOf(sameKey, Allowed(sameKey, hits, delta), candidates, p, mode) == KeptOf(sameKey, Ids(sameKey), candidates, p, mode)
  {
    var allowed := Allowed(sameKey, hits, delta);
    forall c | c in KeptOf(sameKey, Ids(sameKey), candidates, p, mode) ensures c.event.id in allowed {
      KeptFromSameKey(sameKey, Ids(sameKey), candidates, p, mode, c);
      if c.event.id !in delta {
        var i :| 0 <= i < |hits| && c.event.id in hits[i];
        var j :| 0 <= j < |hits[i]| && hits[i][j] == c.event.id;
      }
    }
    RetrievedIsExact(sameKey, allowed, candidates, p, mode);
  }

  lemma {:induction false} KeptFromSameKey(sameKey: seq<Event>, allowed: set<Id>, candidates: seq<nat>, p: Params, mode: Mode, c: Contribution)
    requires ValidParams(p) && c in KeptOf(sameKey, allowed, candidates, p, mode)
    ensures c.event in sameKey && c.event.id in allowed && c.event.id in Ids(sameKey)
    ensures Proper(c) && -1 <= c.matched < |candidates|
  {
    var passed := Passed(sameKey, |sameKey|, allowed, candidates, p, mode);
    PassedProper(sameKey, |sameKey|, allowed, candidates, p, mode);
    var top := Top(Sort(passed, Better), p.kEvidence);
    var i :| 0 <= i < |top| && c == Matched(top[i], candidates, mode);
    assert top[i] in Sort(passed, Better);
    assert top[i] in multiset(passed);
  }

  // ---------------------------------------------------------------- never more than the exact sum

  function Weights(s: seq<Contribution>): real {
    if s == [] then 0.0 else s[0].weight + Weights(s[1..])
  }

  lemma {:induction false} TopShift(s: seq<Contribution>, k: nat)
    requires s != [] && SortedBy(s, Better) && forall x :: x in s ==> x.weight >= 0.0
    ensures Weights(Top(s[1..], k)) <= Weights(Top(s, k))
    decreases |s|
  {
    if k > 0 && |s| > 1 {
      var t := s[1..];
      TopShift(t, k - 1);
      assert Better(s[0], s[1]);
      assert Top(s, k)[1..] == Top(t, k - 1);
      assert Top(t, k)[1..] == Top(t[1..], k - 1);
    }
  }

  lemma {:induction false} FilteredTopWeighsLess(s: seq<Contribution>, keep: Contribution -> bool, k: nat)
    requires SortedBy(s, Better) && forall x :: x in s ==> x.weight >= 0.0
    ensures Weights(Top(Filter(s, keep), k)) <= Weights(Top(s, k))
  {
    if s != [] {
      var t := s[1..];
      if keep(s[0]) {
        if k > 0 {
          FilteredTopWeighsLess(t, keep, k - 1);
          var f := Filter(t, keep);
          assert Filter(s, keep) == [s[0]] + f;
          assert Top([s[0]] + f, k)[1..] == Top(f, k - 1);
          assert Top(s, k)[1..] == Top(t, k - 1);
        }
      } else {
        FilteredTopWeighsLess(t, keep, k);
        assert Filter(s, keep) == Filter(t, keep);
        TopShift(s, k);
      }
    }
  }

  lemma {:induction false} MatchKeepsWeights(s: seq<Contribution>, candidates: seq<nat>, mode: Mode)
    ensures Weights(MatchAll(s, candidates, mode)) == Weights(s)
  {
    SameWeights(MatchAll(s, candidates, mode), s);
  }

  lemma {:induction false} SameWeights(a: seq<Contribution>, b: seq<Contribution>)
    requires |a| == |b| && forall i :: 0 <= i < |a| ==> a[i].weight == b[i].weight
    ensures Weights(a) == Weights(b)
  {
    if a != [] {
      SameWeights(a[1..], b[1..]);
    }
  }

  /** Whatever was retrieved, the kept weights sum to at most the exact sum. */
  lemma {:induction false} RetrievedWeighsAtMostExact(sameKey: seq<Event>, allowed: set<Id>, candidates: seq<nat>, p: Params, mode: Mode)
    requires ValidParams(p) && allowed <= Ids(sameKey)
    ensures Weights(KeptOf(sameKey, allowed, candidates, p, mode)) <= Weights(KeptOf(sameKey, Ids(sameKey), candidates, p, mode))
  {
    var all := Ids(sameKey);
    var keep := (c: Contribution) => c.event.id in allowed;
    var passed := Passed(sameKey, |sameKey|, all, candidates, p, mode);
    CutFilter(sameKey, all, allowed, candidates, p, mode);
    PassedProper(sameKey, |sameKey|, all, candidates, p, mode);
    BetterTotal();
    SortOrders(passed, Better);
    forall x | x in Sort(passed, Better) ensures x.weight >= 0.0 {
      assert x in multiset(passed);
    }
    FilteredTopWeighsLess(Sort(passed, Better), keep, p.kEvidence);
    MatchKeepsWeights(Top(Sort(passed, Better), p.kEvidence), candidates, mode);
    MatchKeepsWeights(Top(Filter(Sort(passed, Better), keep), p.kEvidence), candidates, mode);
  }
}
