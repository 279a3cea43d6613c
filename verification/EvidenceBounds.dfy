/** The numeric bound on the scores, the meaning of the usage age, the brute-force
    index, and the computation itself (daemon/ann.py; README.md, exact
    retrieval-evidence oracle). */
module EvidenceBounds {
  import opened Common
  import opened Sorting
  import opened Evidence
  import opened EvidenceMeaning

  // ---------------------------------------------------------------- real arithmetic

  lemma {:induction false} QuotientBound(x: real, y: real, z: real)
    requires y > 0.0 && x <= z * y
    ensures x / y <= z
  {}

  lemma {:induction false} QuotientAtLeast(x: real, y: real, z: real)
    requires y > 0.0 && z * y <= x
    ensures z <= x / y
  {}

  /** m / (m + k) grows with m and stays below 1. */
  lemma {:induction false} SaturationMonotone(m: real, n: real, k: real)
    requires 0.0 <= m <= n && k > 0.0
    ensures 0.0 <= m / (m + k) <= n / (n + k) < 1.0
  {
    var q := m / (m + k);
    assert q * (m + k) == m;
    QuotientBound(m, m + k, 1.0);
    QuotientAtLeast(m, m + k, 0.0);
    ProductMonotone(q, 1.0, n - m);
    assert q * (n + k) == q * (m + k) + q * (n - m);
    QuotientAtLeast(n, n + k, q);
    Below(n, k);
  }

  lemma {:induction false} Below(n: real, k: real)
    requires 0.0 <= n && k > 0.0
    ensures n / (n + k) < 1.0
  {
    assert n / (n + k) + k / (n + k) == 1.0;
  }

  // ---------------------------------------------------------------- masses

  lemma {:induction false} MassAppend(kept: seq<Contribution>, e: Contribution, n: nat)
    ensures Sum(MassesOf(kept + [e], n)) == Sum(MassesOf(kept, n)) + (if 0 <= e.matched < n then e.weight else 0.0)
  {
    if n > 0 {
      MassAppend(kept, e, n - 1);
      assert (kept + [e])[..|kept|] == kept;
      assert MassesOf(kept + [e], n)[..n - 1] == MassesOf(kept + [e], n - 1);
      assert MassesOf(kept, n)[..n - 1] == MassesOf(kept, n - 1);
    }
  }

  lemma {:induction false} SumOfNone(n: nat)
    ensures Sum(MassesOf([], n)) == 0.0
  {
    if n > 0 {
      SumOfNone(n - 1);
      assert MassesOf([], n)[..n - 1] == MassesOf([], n - 1);
    }
  }

  lemma {:induction false} MassPositive(kept: seq<Contribution>, c: int)
    requires forall i :: 0 <= i < |kept| ==> Proper(kept[i])
    ensures Mass(kept, c) >= 0.0
    ensures Mass(kept, c) > 0.0 <==> exists e :: e in kept && e.matched == c
  {
    if kept != [] {
      var front, e := kept[..|kept| - 1], kept[|kept| - 1];
      assert kept == front + [e];
      MassPositive(front, c);
    }
  }

  /** The total mass is at most the number of kept contributions. */
  lemma {:induction false} TotalMassBound(kept: seq<Contribution>, n: nat)
    requires forall i :: 0 <= i < |kept| ==> Proper(kept[i])
    ensures 0.0 <= Sum(MassesOf(kept, n)) <= |kept| as real
  {
    if kept == [] {
      SumOfNone(n);
    } else {
      var front, e := kept[..|kept| - 1], kept[|kept| - 1];
      assert kept == front + [e];
      TotalMassBound(front, n);
      MassAppend(front, e, n);
    }
  }

  // ---------------------------------------------------------------- scores

  lemma {:induction false} PartAtMostSum(s: seq<real>, i: nat)
    requires i < |s| && forall j :: 0 <= j < |s| ==> s[j] >= 0.0
    ensures 0.0 <= s[i] <= Sum(s)
  {
    var front := s[..|s| - 1];
    assert s == front + [s[|s| - 1]];
    SumNonNegative(front);
    if i < |front| {
      PartAtMostSum(front, i);
    }
  }

  lemma {:induction false} SumNonNegative(s: seq<real>)
    requires forall j :: 0 <= j < |s| ==> s[j] >= 0.0
    ensures Sum(s) >= 0.0
  {
    if s != [] {
      assert s == s[..|s| - 1] + [s[|s| - 1]];
      SumNonNegative(s[..|s| - 1]);
    }
  }

  /** One score: its sign, and its share of the bound. */
  lemma {:induction false} ScoreBound(m: real, total: real, k: real)
    requires 0.0 <= m <= total && total > 0.0 && k > 0.0
    ensures 0.0 <= Score(m, total, k) <= (m / total) * (total / (total + k))
    ensures Score(m, total, k) > 0.0 <==> m > 0.0
  {
    var share, sat, q := m / total, m / (m + k), total / (total + k);
    SaturationMonotone(m, total, k);
    assert share >= 0.0;
    ProductNonNegative(share, sat);
    ProductMonotone(sat, q, share);
    assert sat * share == share * sat && q * share == share * q;
    if m > 0.0 {
      assert share > 0.0 && sat > 0.0;
      assert share * sat > 0.0;
    } else {
      assert share == 0.0;
    }
  }

  lemma {:induction false} SharesAdd(x: real, y: real, total: real, q: real)
    requires total > 0.0
    ensures ((x + y) / total) * q == (x / total) * q + (y / total) * q
  {
    assert (x + y) / total == x / total + y / total;
  }

  lemma {:induction false} ScoresAppend(front: seq<real>, m: real, total: real, k: real)
    requires m + k != 0.0 && forall i :: 0 <= i < |front| ==> front[i] + k != 0.0
    ensures Sum(front + [m]) == Sum(front) + m
    ensures Sum(ScoresOf(front + [m], total, k)) == Sum(ScoresOf(front, total, k)) + Score(m, total, k)
  {
    assert (front + [m])[..|front|] == front;
    assert ScoresOf(front + [m], total, k)[..|front|] == ScoresOf(front, total, k);
  }

  lemma {:induction false} ScoreSum(masses: seq<real>, total: real, k: real)
    requires total > 0.0 && k > 0.0 && forall i :: 0 <= i < |masses| ==> 0.0 <= masses[i] <= total
    ensures 0.0 <= Sum(ScoresOf(masses, total, k)) <= (Sum(masses) / total) * (total / (total + k))
  {
    if masses != [] {
      var front, m := masses[..|masses| - 1], masses[|masses| - 1];
      assert masses == front + [m];
      ScoreSum(front, total, k);
      ScoreBound(m, total, k);
      SharesAdd(Sum(front), m, total, total / (total + k));
      ScoresAppend(front, m, total, k);
    }
  }

  /** Masses are non-negative and each is at most the total, which is at most the
      number of kept contributions. */
  lemma {:induction false} MassesBound(kept: seq<Contribution>, n: nat, kEvidence: nat)
    requires |kept| <= kEvidence && forall i :: 0 <= i < |kept| ==> Proper(kept[i])
    ensures var masses := MassesOf(kept, n);
      0.0 <= Sum(masses) <= kEvidence as real && forall c :: 0 <= c < n ==> 0.0 <= masses[c] <= Sum(masses)
  {
    var masses := MassesOf(kept, n);
    forall c | 0 <= c < n ensures masses[c] >= 0.0 {
      MassPositive(kept, c);
    }
    TotalMassBound(kept, n);
    forall c | 0 <= c < n ensures masses[c] <= Sum(masses) {
      PartAtMostSum(masses, c);
    }
  }

  /** Scores of non-negative masses: each is non-negative and positive exactly with
      its mass, and they sum to at most M / (M + k). */
  lemma {:induction false} ScoresBound(masses: seq<real>, k: real)
    requires k > 0.0 && forall i :: 0 <= i < |masses| ==> 0.0 <= masses[i] <= Sum(masses)
    requires Sum(masses) >= 0.0
    ensures var scores := ScoresOf(masses, Sum(masses), k);
      && (forall c :: 0 <= c < |masses| ==> scores[c] >= 0.0 && (scores[c] > 0.0 <==> masses[c] > 0.0))
      && Sum(scores) <= Sum(masses) / (Sum(masses) + k)
  {
    var total := Sum(masses);
    var scores := ScoresOf(masses, total, k);
    forall c | 0 <= c < |masses| ensures scores[c] >= 0.0 && (scores[c] > 0.0 <==> masses[c] > 0.0) {
      if total > 0.0 {
        ScoreBound(masses[c], total, k);
      }
    }
    if total > 0.0 {
      ScoreSum(masses, total, k);
      assert total / total == 1.0;
    } else {
      ZeroScores(masses, total, k);
      QuotientAtLeast(total, total + k, 0.0);
    }
  }

  /** The evidence bound: over any kept contributions, each score is non-negative
      and positive exactly with its mass, and the scores sum to at most
      M / (M + k) <= K / (K + k) < 1. */
  lemma {:induction false} EvidenceBound(kept: seq<Contribution>, n: nat, kEvidence: nat, k: real)
    requires |kept| <= kEvidence && k > 0.0 && forall i :: 0 <= i < |kept| ==> Proper(kept[i])
    ensures var masses := MassesOf(kept, n);
      && 0.0 <= Sum(masses) <= kEvidence as real
      && (forall c :: 0 <= c < n ==> masses[c] >= 0.0)
      && (var scores := ScoresOf(masses, Sum(masses), k);
        && (forall c :: 0 <= c < n ==> scores[c] >= 0.0 && (scores[c] > 0.0 <==> masses[c] > 0.0))
        && Sum(scores) <= Sum(masses) / (Sum(masses) + k) <= kEvidence as real / (kEvidence as real + k) < 1.0)
  {
    var masses := MassesOf(kept, n);
    MassesBound(kept, n, kEvidence);
    ScoresBound(masses, k);
    SaturationMonotone(Sum(masses), kEvidence as real, k);
  }

  lemma {:induction false} ZeroScores(masses: seq<real>, total: real, k: real)
    requires total == 0.0 && k > 0.0 && forall i :: 0 <= i < |masses| ==> masses[i] >= 0.0
    ensures Sum(ScoresOf(masses, total, k)) == 0.0
  {
    if masses != [] {
      var front := masses[..|masses| - 1];
      assert masses == front + [masses[|masses| - 1]];
      ZeroScores(front, total, k);
      assert ScoresOf(masses, total, k)[..|front|] == ScoresOf(front, total, k);
    }
  }

  // ---------------------------------------------------------------- usage age

  /** Events of the list strictly later than e in (hlc, id) order. */
  function CountLater(s: seq<Event>, e: Event): nat {
    if s == [] then 0 else (if EventLeq(s[0], e) then 0 else 1) + CountLater(s[1..], e)
  }

  lemma {:induction false} CountLaterCons(x: Event, s: seq<Event>, e: Event)
    ensures CountLater([x] + s, e) == (if EventLeq(x, e) then 0 else 1) + CountLater(s, e)
  {
    assert ([x] + s)[1..] == s;
  }

  lemma {:induction false} CountLaterInsert(x: Event, s: seq<Event>, e: Event)
    ensures CountLater(Insert(x, s, EventLeq), e) == (if EventLeq(x, e) then 0 else 1) + CountLater(s, e)
  {
    CountLaterCons(x, s, e);
    if s != [] && !EventLeq(x, s[0]) {
      CountLaterInsert(x, s[1..], e);
      CountLaterCons(s[0], Insert(x, s[1..], EventLeq), e);
    } else if s == [] {
      assert [x] + s == [x];
    }
  }

  lemma {:induction false} CountLaterSort(s: seq<Event>, e: Event)
    ensures CountLater(Sort(s, EventLeq), e) == CountLater(s, e)
  {
    if s != [] {
      CountLaterSort(s[1..], e);
      CountLaterInsert(s[0], Sort(s[1..], EventLeq), e);
    }
  }

  ghost predicate DistinctIds(s: seq<Event>) {
    forall i, j :: 0 <= i < j < |s| ==> s[i].id != s[j].id
  }

  lemma {:induction false} CountLaterSorted(s: seq<Event>, i: nat)
    requires i < |s| && SortedBy(s, EventLeq) && DistinctIds(s)
    ensures CountLater(s, s[i]) == |s| - 1 - i
  {
    if i == 0 {
      AllLater(s[1..], s[0]);
    } else {
      CountLaterSorted(s[1..], i - 1);
      assert EventLeq(s[0], s[i]);
    }
  }

  lemma {:induction false} AllLater(s: seq<Event>, e: Event)
    requires forall x :: x in s ==> EventLeq(e, x) && x.id != e.id
    ensures CountLater(s, e) == |s|
  {
    if s != [] {
      assert !EventLeq(s[0], e);
      AllLater(s[1..], e);
    }
  }

  lemma {:induction false} DistinctPermuted(a: seq<Event>, b: seq<Event>)
    requires multiset(a) == multiset(b) && DistinctIds(a)
    ensures DistinctIds(b)
  {
    forall i, j | 0 <= i < j < |b| ensures b[i].id != b[j].id {
      if b[i] == b[j] {
        assert b == b[..i] + [b[i]] + b[i + 1..j] + [b[j]] + b[j + 1..];
        assert multiset(a)[b[i]] >= 2;
        OnceEach(a, b[i]);
      } else {
        assert b[i] in multiset(a) && b[j] in multiset(a);
        var p :| 0 <= p < |a| && a[p] == b[i];
        var q :| 0 <= q < |a| && a[q] == b[j];
        assert p < q || q < p;
      }
    }
  }

  lemma {:induction false} OnceEach(a: seq<Event>, e: Event)
    requires DistinctIds(a)
    ensures multiset(a)[e] <= 1
  {
    if a != [] {
      assert a == [a[0]] + a[1..];
      OnceEach(a[1..], e);
      if a[0] == e {
        assert e !in a[1..];
      }
    }
  }

  lemma {:induction false} PassedAges(sameKey: seq<Event>, n: nat, allowed: set<Id>, candidates: seq<nat>, p: Params, mode: Mode, c: Contribution)
    returns (i: nat)
    requires n <= |sameKey| && p.tau < 1.0 && c in Passed(sameKey, n, allowed, candidates, p, mode)
    ensures i < n && c.event == sameKey[i] && c.usageAge == |sameKey| - 1 - i
  {
    if c in Passed(sameKey, n - 1, allowed, candidates, p, mode) {
      i := PassedAges(sameKey, n - 1, allowed, candidates, p, mode, c);
    } else {
      i := n - 1;
    }
  }

  /** The usage age of a kept event is the number of later same-key active events,
      whether or not those were retrieved. */
  lemma {:induction false} UsageAgeCountsAll(events: seq<Event>, key: nat, excluded: set<Id>, allowed: set<Id>,
                                             candidates: seq<nat>, p: Params, mode: Mode, c: Contribution)
    requires ValidParams(p) && DistinctIds(Filter(events, (e: Event) => e.id !in excluded && e.key == key))
    requires c in KeptOf(SameKey(events, key, excluded), allowed, candidates, p, mode)
    ensures c.usageAge == CountLater(Filter(events, (e: Event) => e.id !in excluded && e.key == key), c.event)
  {
    var filtered := Filter(events, (e: Event) => e.id !in excluded && e.key == key);
    var sameKey := SameKey(events, key, excluded);
    var passed := Passed(sameKey, |sameKey|, allowed, candidates, p, mode);
    var top := Top(Sort(passed, Better), p.kEvidence);
    var j :| 0 <= j < |top| && c == Matched(top[j], candidates, mode);
    assert top[j] in Sort(passed, Better);
    assert top[j] in multiset(passed);
    var i := PassedAges(sameKey, |sameKey|, allowed, candidates, p, mode, top[j]);
    EventLeqTotal();
    SortOrders(filtered, EventLeq);
    DistinctPermuted(filtered, sameKey);
    CountLaterSorted(sameKey, i);
    CountLaterSort(filtered, sameKey[i]);
  }

  // ---------------------------------------------------------------- brute-force index

  const OVERFETCH_FLOOR := 32

  /** How many neighbours to ask for, or None for a configuration fault. */
  function OverfetchCount(kEvidence: int, multiplier: int): Option<nat> {
    if kEvidence < 1 || multiplier !in {2, 4, 8} then None
    else Some(Max(OVERFETCH_FLOOR, multiplier * kEvidence))
  }

  function Closer(cosine: Id -> real): (Id, Id) -> bool {
    (x: Id, y: Id) => cosine(x) > cosine(y) || (cosine(x) == cosine(y) && x <= y)
  }

  function SearchOf(ids: seq<Id>, cosine: Id -> real, count: int): seq<Id> {
    if count < 1 then [] else Top(Sort(ids, Closer(cosine)), count)
  }

  class BruteForceIndex {
    var ids: seq<Id>

    constructor (initial: seq<Id>)
      ensures ids == initial
    {
      ids := initial;
    }

    method Add(id: Id)
      modifies this
      ensures ids == old(ids) + [id]
    {
      ids := ids + [id];
    }

    /** The `count` nearest events, ties by identifier. */
    method Search(cosine: Id -> real, count: int) returns (hits: seq<Id>)
      ensures hits == SearchOf(ids, cosine, count)
    {
      if count < 1 {
        return [];
      }
      var ranked := Sort(ids, Closer(cosine));
      hits := if |ranked| <= count then ranked else ranked[..count];
    }
  }

  /** Nothing outside the answer is nearer than something inside it. */
  lemma {:induction false} SearchIsNearest(ids: seq<Id>, cosine: Id -> real, count: nat, x: Id, y: Id)
    requires count >= 1 && x in SearchOf(ids, cosine, count) && y in ids && y !in SearchOf(ids, cosine, count)
    ensures cosine(y) <= cosine(x)
  {
    var sorted := Sort(ids, Closer(cosine));
    SortOrders(ids, Closer(cosine));
    assert y in multiset(sorted);
    var top := Top(sorted, count);
    var i :| 0 <= i < |top| && top[i] == x;
    var j :| 0 <= j < |sorted| && sorted[j] == y;
    assert forall h :: 0 <= h < |top| ==> sorted[h] == top[h] && top[h] in top;
    assert j >= |top|;
    assert Closer(cosine)(sorted[i], sorted[j]);
  }

  lemma {:induction false} SearchAll(ids: seq<Id>, cosine: Id -> real, count: nat, x: Id)
    requires count >= 1 && count >= |ids| && x in ids
    ensures x in SearchOf(ids, cosine, count)
  {
    assert x in multiset(Sort(ids, Closer(cosine)));
  }

  /** The hit lists of one query: one per query vector of the mode. */
  function HitsOf(ids: seq<Id>, mode: Mode, candidates: nat, overfetch: int): seq<seq<Id>> {
    match mode
    case Shared(cosine) => [SearchOf(ids, cosine, overfetch)]
    case PerCandidate(cosineFor) =>
      if candidates == 0 then []
      else HitsOf(ids, mode, candidates - 1, overfetch) + [SearchOf(ids, (id: Id) => cosineFor(candidates - 1, id), overfetch)]
  }

  lemma {:induction false} HitsHoldAll(ids: seq<Id>, mode: Mode, candidates: nat, overfetch: nat, x: Id)
    requires overfetch >= 1 && overfetch >= |ids| && x in ids && candidates > 0
    ensures exists i :: 0 <= i < |HitsOf(ids, mode, candidates, overfetch)| && x in HitsOf(ids, mode, candidates, overfetch)[i]
  {
    var hits := HitsOf(ids, mode, candidates, overfetch);
    match mode
    case Shared(cosine) =>
      SearchAll(ids, cosine, overfetch, x);
      assert x in hits[0];
    case PerCandidate(cosineFor) =>
      SearchAll(ids, (id: Id) => cosineFor(candidates - 1, id), overfetch, x);
      assert x in hits[|hits| - 1];
  }

  /** The brute-force index with overfetch at least its size gives the exact
      evidence, in both modes, when every same-key event is indexed or in the delta. */
  lemma {:induction false} BruteForceIsExact(ids: seq<Id>, sameKey: seq<Event>, delta: set<Id>, candidates: seq<nat>,
                                             p: Params, mode: Mode, overfetch: nat)
    requires ValidParams(p) && candidates != [] && overfetch >= 1 && overfetch >= |ids|
    requires forall e :: e in sameKey ==> e.id in ids || e.id in delta
    ensures KeptOf(sameKey, Allowed(sameKey, HitsOf(ids, mode, |candidates|, overfetch), delta), candidates, p, mode)
      == KeptOf(sameKey, Ids(sameKey), candidates, p, mode)
  {
    var hits := HitsOf(ids, mode, |candidates|, overfetch);
    forall c | c in KeptOf(sameKey, Ids(sameKey), candidates, p, mode) && c.event.id !in delta
      ensures exists i :: 0 <= i < |hits| && c.event.id in hits[i]
    {
      KeptFromSameKey(sameKey, Ids(sameKey), candidates, p, mode, c);
      HitsHoldAll(ids, mode, |candidates|, overfetch, c.event.id);
    }
    HitsSuffice(sameKey, hits, delta, candidates, p, mode);
  }

  // ---------------------------------------------------------------- the computation

  method CollectAllowed(sameKey: seq<Event>, hits: seq<seq<Id>>, delta: set<Id>) returns (allowed: set<Id>)
    ensures allowed == Allowed(sameKey, hits, delta)
  {
    ghost var found := set i, j | 0 <= i < |hits| && 0 <= j < |hits[i]| :: hits[i][j];
    allowed := {};
    var i := 0;
    while i < |hits|
      invariant 0 <= i <= |hits|
      invariant forall x :: x in allowed <==> x !in delta && exists a, b :: 0 <= a < i && 0 <= b < |hits[a]| && hits[a][b] == x
    {
      var j := 0;
      while j < |hits[i]|
        invariant 0 <= j <= |hits[i]|
        invariant forall x ::
          x in allowed
          <==>
          x !in delta
          && ((exists a, b :: 0 <= a < i && 0 <= b < |hits[a]| && hits[a][b] == x) || (exists b :: 0 <= b < j && hits[i][b] == x))
      {
        if hits[i][j] !in delta {
          allowed := allowed + {hits[i][j]};
        }
        j := j + 1;
      }
      i := i + 1;
    }
    assert allowed == found - delta;
    var same := set e | e in sameKey :: e.id;
    allowed := allowed + (delta * same);
    allowed := allowed * same;
  }

  method Contribute(sameKey: seq<Event>, allowed: set<Id>, candidates: seq<nat>, p: Params, mode: Mode)
    returns (passed: seq<Contribution>)
    requires p.tau < 1.0
    ensures passed == Passed(sameKey, |sameKey|, allowed, candidates, p, mode)
  {
    passed := [];
    var i := 0;
    while i < |sameKey|
      invariant 0 <= i <= |sameKey|
      invariant passed == Passed(sameKey, i, allowed, candidates, p, mode)
    {
      if sameKey[i].id in allowed {
        var c := ContributionAt(sameKey, i, candidates, p, mode);
        if c.Some? && c.value.weight > 0.0 {
          passed := passed + [c.value];
        }
      }
      i := i + 1;
    }
  }

  method Accumulate(kept: seq<Contribution>, n: nat) returns (masses: seq<real>)
    requires forall i :: 0 <= i < |kept| ==> kept[i].matched < n
    ensures masses == MassesOf(kept, n)
  {
    masses := MassesOf([], n);
    var i := 0;
    while i < |kept|
      invariant 0 <= i <= |kept|
      invariant |masses| == n && forall c :: 0 <= c < n ==> masses[c] == Mass(kept[..i], c)
    {
      assert kept[..i + 1][..i] == kept[..i];
      var m := kept[i].matched;
      if m >= 0 {
        masses := masses[m := masses[m] + kept[i].weight];
      }
      i := i + 1;
    }
    assert kept[..i] == kept;
  }

  /** The score loop. */
  method Scores(masses: seq<real>, total: real, k: real) returns (scores: seq<real>)
    requires forall i :: 0 <= i < |masses| ==> masses[i] + k != 0.0
    ensures scores == ScoresOf(masses, total, k)
  {
    scores := [];
    var i := 0;
    while i < |masses|
      invariant 0 <= i <= |masses| && |scores| == i
      invariant forall c :: 0 <= c < i ==> scores[c] == Score(masses[c], total, k)
    {
      var score := 0.0;
      if total > 0.0 {
        var share := masses[i] / total;
        var saturation := masses[i] / (masses[i] + k);
        score := share * saturation;
      }
      scores := scores + [score];
      i := i + 1;
    }
  }

  lemma {:induction false} KeptProper(sameKey: seq<Event>, allowed: set<Id>, candidates: seq<nat>, p: Params, mode: Mode)
    requires ValidParams(p)
    ensures var kept := KeptOf(sameKey, allowed, candidates, p, mode);
      |kept| <= p.kEvidence && forall i :: 0 <= i < |kept| ==> Proper(kept[i]) && kept[i].matched < |candidates|
  {
    var kept := KeptOf(sameKey, allowed, candidates, p, mode);
    forall i | 0 <= i < |kept| ensures Proper(kept[i]) && kept[i].matched < |candidates| {
      KeptFromSameKey(sameKey, allowed, candidates, p, mode, kept[i]);
    }
  }

  /** The result a kept list determines. */
  ghost predicate Aggregates(r: Result, kept: seq<Contribution>, n: nat, k: real) {
    && r.kept == kept && r.masses == MassesOf(kept, n) && r.total == Sum(r.masses)
    && (forall c :: 0 <= c < n ==> r.masses[c] + k != 0.0)
    && r.scores == ScoresOf(r.masses, r.total, k)
  }

  /** The bound on a result: masses and scores are non-negative and positive together,
      the total is at most K, and the scores sum to at most M / (M + k) <= K / (K + k) < 1. */
  ghost predicate WithinBound(r: Result, kEvidence: nat, k: real) {
    && |r.masses| == |r.scores| && k > 0.0 && 0.0 <= r.total <= kEvidence as real
    && (forall c :: 0 <= c < |r.scores| ==> r.masses[c] >= 0.0 && r.scores[c] >= 0.0 && (r.scores[c] > 0.0 <==> r.masses[c] > 0.0))
    && Sum(r.scores) <= r.total / (r.total + k) <= kEvidence as real / (kEvidence as real + k) < 1.0
  }

  /** Masses, total and scores of the kept contributions. */
  method Aggregate(kept: seq<Contribution>, n: nat, kEvidence: nat, k: real) returns (r: Result)
    requires |kept| <= kEvidence && k > 0.0 && forall i :: 0 <= i < |kept| ==> Proper(kept[i]) && kept[i].matched < n
    ensures Aggregates(r, kept, n, k) && WithinBound(r, kEvidence, k)
  {
    EvidenceBound(kept, n, kEvidence, k);
    var masses := Accumulate(kept, n);
    var total := Sum(masses);
    var scores := Scores(masses, total, k);
    r := Result(kept, masses, scores, total);
  }

  /** The whole evidence of one query from the neighbour hits. */
  method ComputeEvidence(events: seq<Event>, key: nat, excluded: set<Id>, hits: seq<seq<Id>>, delta: set<Id>,
                         candidates: seq<nat>, p: Params, mode: Mode) returns (r: Result)
    requires ValidParams(p)
    ensures var sameKey := SameKey(events, key, excluded);
      Aggregates(r, KeptOf(sameKey, Allowed(sameKey, hits, delta), candidates, p, mode), |candidates|, p.saturation)
    ensures WithinBound(r, p.kEvidence, p.saturation)
    ensures var sameKey := SameKey(events, key, excluded);
      OfKey(events, key, excluded, sameKey) && KeptMeans(sameKey, Allowed(sameKey, hits, delta), candidates, p, mode, r.kept)
    ensures |r.scores| == |r.masses| == |candidates|
      && forall c :: 0 <= c < |candidates| ==> r.masses[c] == Mass(r.kept, c) && ScoreMeans(r.scores[c], r.masses[c], r.total, p.saturation)
  {
    SameKeyIs(events, key, excluded);
    var sameKey := SameKey(events, key, excluded);
    var allowed := CollectAllowed(sameKey, hits, delta);
    var passed := Contribute(sameKey, allowed, candidates, p, mode);
    var kept := MatchAll(Top(Sort(passed, Better), p.kEvidence), candidates, mode);
    KeptProper(sameKey, allowed, candidates, p, mode);
    r := Aggregate(kept, |candidates|, p.kEvidence, p.saturation);
    KeptIs(sameKey, allowed, candidates, p, mode);
    forall c | 0 <= c < |candidates| ensures ScoreMeans(r.scores[c], r.masses[c], r.total, p.saturation) {
      ScoreIs(r.masses[c], r.total, p.saturation);
    }
  }
}
