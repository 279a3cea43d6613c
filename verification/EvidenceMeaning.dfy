/** What the retrieval evidence keeps, told from the events and their cosines alone
    (daemon/ann.py, compute_ann_evidence): which events contribute, with what weight,
    and which are left out. */
module EvidenceMeaning {
  import opened Common
  import opened Sorting
  import opened Evidence

  // ---------------------------------------------------------------- the events of one key

  /** By the physical clock, then the logical one, then the identifier. */
  predicate Earlier(x: Event, y: Event) {
    if x.hlc.physical != y.hlc.physical then x.hlc.physical < y.hlc.physical
    else if x.hlc.logical != y.hlc.logical then x.hlc.logical < y.hlc.logical
    else x.id <= y.id
  }

  /** The larger weight, and of equal weights the earlier event. */
  predicate Outranks(c: Contribution, d: Contribution) {
    if c.weight != d.weight then c.weight > d.weight else Earlier(c.event, d.event)
  }

  lemma {:induction false} RanksAre(c: Contribution, d: Contribution)
    ensures EventLeq(c.event, d.event) <==> Earlier(c.event, d.event)
    ensures Better(c, d) <==> Outranks(c, d)
  {}

  /** The events of the key that are not excluded, each as often as it is there, in the
      order of their clocks and then of their identifiers. */
  ghost predicate OfKey(events: seq<Event>, key: nat, excluded: set<Id>, sameKey: seq<Event>) {
    && (forall e :: multiset(sameKey)[e] == if e.key == key && e.id !in excluded then multiset(events)[e] else 0)
    && (forall i, j :: 0 <= i < j < |sameKey| ==> Earlier(sameKey[i], sameKey[j]))
  }

  lemma {:induction false} FilterCounts(s: seq<Event>, keep: Event -> bool, e: Event)
    ensures multiset(Filter(s, keep))[e] == if keep(e) then multiset(s)[e] else 0
  {
    if s != [] {
      FilterCounts(s[1..], keep, e);
      assert s == [s[0]] + s[1..];
    }
  }

  lemma {:induction false} SameKeyIs(events: seq<Event>, key: nat, excluded: set<Id>)
    ensures OfKey(events, key, excluded, SameKey(events, key, excluded))
  {
    var keep := (e: Event) => e.id !in excluded && e.key == key;
    forall e ensures multiset(SameKey(events, key, excluded))[e] == if e.key == key && e.id !in excluded then multiset(events)[e] else 0 {
      FilterCounts(events, keep, e);
    }
    EventLeqTotal();
    SortOrders(Filter(events, keep), EventLeq);
    var sorted := SameKey(events, key, excluded);
    forall i, j | 0 <= i < j < |sorted| ensures Earlier(sorted[i], sorted[j]) {
      assert EventLeq(sorted[i], sorted[j]);
    }
  }

  /** An event may contribute when it is of the key and was found by a search or is in the delta. */
  lemma {:induction false} AllowedMeans(sameKey: seq<Event>, hits: seq<seq<Id>>, delta: set<Id>, id: Id)
    ensures id in Allowed(sameKey, hits, delta) <==>
      && (exists e :: e in sameKey && e.id == id)
      && (id in delta || exists i :: 0 <= i < |hits| && id in hits[i])
  {
    if i :| 0 <= i < |hits| && id in hits[i] {
      var j :| 0 <= j < |hits[i]| && hits[i][j] == id;
    }
  }

  // ---------------------------------------------------------------- one contribution

  /** An event is compared with the query, or with the query of the first candidate it
      selected; one that selected no candidate has none in that mode. */
  predicate Compared(e: Event, candidates: seq<nat>, mode: Mode) {
    mode.Shared? || e.selection in candidates
  }

  function CosineOf(e: Event, candidates: seq<nat>, mode: Mode): real
    requires Compared(e, candidates, mode)
  {
    match mode
    case Shared(cosine) => cosine(e.id)
    case PerCandidate(cosineFor) => cosineFor(FirstMatch(candidates, e.selection), e.id)
  }

  /** The relevance is the cosine's place between the threshold and one. */
  predicate Relates(relevance: real, cosine: real, tau: real) {
    relevance * (1.0 - tau) == (if cosine < 1.0 then cosine else 1.0) - tau
  }

  /** What the event at position i contributes: its cosine is above the threshold, its
      relevance is the cosine's place between the threshold and one, and its weight is
      that relevance reduced by the number of later events of the key. */
  ghost predicate EntryAt(sameKey: seq<Event>, i: int, candidates: seq<nat>, p: Params, mode: Mode, c: Contribution) {
    && 0 <= i < |sameKey| && c.event == sameKey[i] && c.usageAge == |sameKey| - 1 - i
    && Compared(sameKey[i], candidates, mode)
    && var cosine := CosineOf(sameKey[i], candidates, mode);
    && cosine > p.tau
    && Relates(c.relevance, cosine, p.tau)
    && c.weight == c.relevance * p.age(c.usageAge)
  }

  lemma {:induction false} ProductPositive(x: real, y: real)
    requires x > 0.0 && y > 0.0
    ensures x * y > 0.0
  {}

  lemma {:induction false} ProductMinus(x: real, y: real, d: real)
    ensures (x - y) * d == x * d - y * d
  {}

  lemma {:induction false} Cancels(x: real, y: real, d: real)
    requires d > 0.0
    ensures x * d <= y * d ==> x <= y
  {
    if x > y {
      ProductPositive(x - y, d);
      ProductMinus(x, y, d);
    }
  }

  lemma {:induction false} LessProduct(x: real, y: real, d: real, a: real, b: real)
    requires d > 0.0 && x * d == a && y * d == b && a <= b
    ensures x <= y
  {
    Cancels(x, y, d);
  }

  lemma {:induction false} RelatesMonotone(x: real, y: real, a: real, b: real, tau: real)
    requires tau < 1.0 && Relates(x, a, tau) && Relates(y, b, tau) && a <= b
    ensures x <= y
  {
    LessProduct(x, y, 1.0 - tau, (if a < 1.0 then a else 1.0) - tau, (if b < 1.0 then b else 1.0) - tau);
  }

  /** A quotient held between zero and one. */
  lemma {:induction false} Clamped(x: real, d: real, r: real)
    requires d > 0.0 && r == RMin(RMax(x / d, 0.0), 1.0)
    ensures x <= 0.0 ==> r == 0.0
    ensures x > 0.0 ==> r > 0.0 && r * d == if x < d then x else d
  {
    var q := x / d;
    assert q * d == x;
    LessProduct(if x <= 0.0 then q else 0.0, if x <= 0.0 then 0.0 else q, d, if x <= 0.0 then x else 0.0, if x <= 0.0 then 0.0 else x);
    LessProduct(if x <= d then q else 1.0, if x <= d then 1.0 else q, d, if x <= d then x else d, if x <= d then d else x);
    if q == 0.0 {
      assert q * d == 0.0;
    }
  }

  lemma {:induction false} RelevanceIs(cosine: real, tau: real)
    requires tau < 1.0
    ensures cosine > tau ==> Relevance(cosine, tau) > 0.0 && Relates(Relevance(cosine, tau), cosine, tau)
    ensures cosine <= tau ==> Relevance(cosine, tau) == 0.0
  {
    Clamped(cosine - tau, 1.0 - tau, Relevance(cosine, tau));
  }

  /** An entry is determined by its event's position. */
  lemma {:induction false} EntryUnique(sameKey: seq<Event>, i: nat, candidates: seq<nat>, p: Params, mode: Mode, c: Contribution, d: Contribution)
    requires p.tau < 1.0 && EntryAt(sameKey, i, candidates, p, mode, c) && EntryAt(sameKey, i, candidates, p, mode, d)
    ensures c.(matched := d.matched) == d
  {
    var cosine := CosineOf(sameKey[i], candidates, mode);
    RelatesMonotone(c.relevance, d.relevance, cosine, cosine, p.tau);
    RelatesMonotone(d.relevance, c.relevance, cosine, cosine, p.tau);
  }

  /** At equal usage age a nearer event never weighs less. */
  lemma {:induction false} NearerWeighsMore(sameKey: seq<Event>, i: nat, j: nat, candidates: seq<nat>, p: Params, mode: Mode,
                                            other: seq<Event>, c: Contribution, d: Contribution)
    requires ValidParams(p) && EntryAt(sameKey, i, candidates, p, mode, c) && EntryAt(other, j, candidates, p, mode, d)
    requires c.usageAge == d.usageAge && CosineOf(sameKey[i], candidates, mode) >= CosineOf(other[j], candidates, mode)
    ensures c.weight >= d.weight
  {
    RelatesMonotone(d.relevance, c.relevance, CosineOf(other[j], candidates, mode), CosineOf(sameKey[i], candidates, mode), p.tau);
    ProductMonotone(d.relevance, c.relevance, p.age(c.usageAge));
  }

  // ---------------------------------------------------------------- what passes

  lemma {:induction false} ContributionIs(sameKey: seq<Event>, i: nat, candidates: seq<nat>, p: Params, mode: Mode)
    requires ValidParams(p) && i < |sameKey|
    ensures var c := ContributionAt(sameKey, i, candidates, p, mode);
      && (c.Some? <==> Compared(sameKey[i], candidates, mode))
      && (c.Some? ==> (c.value.weight > 0.0 <==> CosineOf(sameKey[i], candidates, mode) > p.tau))
      && (c.Some? && c.value.weight > 0.0 ==> EntryAt(sameKey, i, candidates, p, mode, c.value))
      && (c.Some? && mode.PerCandidate? ==> c.value.matched == FirstMatch(candidates, sameKey[i].selection))
  {
    var c := ContributionAt(sameKey, i, candidates, p, mode);
    if c.Some? {
      RelevanceIs(CosineOf(sameKey[i], candidates, mode), p.tau);
      if c.value.relevance > 0.0 {
        ProductPositive(c.value.relevance, p.age(c.value.usageAge));
      }
    }
  }

  /** A contribution of an allowed event, in the mode's own matching. */
  ghost predicate Contributes(sameKey: seq<Event>, i: int, allowed: set<Id>, candidates: seq<nat>, p: Params, mode: Mode, c: Contribution) {
    && EntryAt(sameKey, i, candidates, p, mode, c) && sameKey[i].id in allowed
    && (mode.PerCandidate? ==> c.matched == FirstMatch(candidates, c.event.selection))
  }

  ghost predicate OldestFirst(s: seq<Contribution>, n: int) {
    && (forall a :: 0 <= a < |s| ==> s[a].usageAge >= n)
    && (forall a, b :: 0 <= a < b < |s| ==> s[a].usageAge > s[b].usageAge)
  }

  lemma {:induction false} OneMore(sameKey: seq<Event>, allowed: set<Id>, candidates: seq<nat>, p: Params, mode: Mode,
                                   s: seq<Contribution>, c: Contribution)
    requires AllContribute(sameKey, allowed, candidates, p, mode, s) && OldestFirst(s, c.usageAge + 1)
    requires Contributes(sameKey, |sameKey| - 1 - c.usageAge, allowed, candidates, p, mode, c)
    ensures AllContribute(sameKey, allowed, candidates, p, mode, s + [c]) && OldestFirst(s + [c], c.usageAge)
  {}

  lemma {:induction false} PassedMeans(sameKey: seq<Event>, n: nat, allowed: set<Id>, candidates: seq<nat>, p: Params, mode: Mode)
    requires n <= |sameKey| && ValidParams(p)
    ensures var s := Passed(sameKey, n, allowed, candidates, p, mode);
      AllContribute(sameKey, allowed, candidates, p, mode, s) && OldestFirst(s, |sameKey| - n)
  {
    if n > 0 {
      PassedMeans(sameKey, n - 1, allowed, candidates, p, mode);
      ContributionIs(sameKey, n - 1, candidates, p, mode);
      var before, c := Passed(sameKey, n - 1, allowed, candidates, p, mode), ContributionAt(sameKey, n - 1, candidates, p, mode);
      if sameKey[n - 1].id in allowed && c.Some? && c.value.weight > 0.0 {
        OneMore(sameKey, allowed, candidates, p, mode, before, c.value);
      }
    }
  }

  lemma {:induction false} PassedHolds(sameKey: seq<Event>, n: nat, allowed: set<Id>, candidates: seq<nat>, p: Params, mode: Mode, i: nat)
    returns (c: Contribution)
    requires i < n <= |sameKey| && ValidParams(p) && sameKey[i].id in allowed && Compared(sameKey[i], candidates, mode)
    requires CosineOf(sameKey[i], candidates, mode) > p.tau
    ensures c in Passed(sameKey, n, allowed, candidates, p, mode) && EntryAt(sameKey, i, candidates, p, mode, c)
  {
    if i == n - 1 {
      ContributionIs(sameKey, i, candidates, p, mode);
      c := ContributionAt(sameKey, i, candidates, p, mode).value;
    } else {
      c := PassedHolds(sameKey, n - 1, allowed, candidates, p, mode, i);
    }
  }

  // ---------------------------------------------------------------- sorting keeps the ages apart

  ghost predicate AgesApart(s: seq<Contribution>) {
    forall a, b :: 0 <= a < b < |s| ==> s[a].usageAge != s[b].usageAge
  }

  lemma {:induction false} InsertApart(x: Contribution, s: seq<Contribution>)
    requires AgesApart(s) && forall a :: 0 <= a < |s| ==> s[a].usageAge != x.usageAge
    ensures AgesApart(Insert(x, s, Better))
  {
    if s != [] && !Better(x, s[0]) {
      InsertApart(x, s[1..]);
      var t := Insert(x, s[1..], Better);
      forall a | 0 <= a < |t| ensures t[a].usageAge != s[0].usageAge {
        assert t[a] in multiset(t);
        assert t[a] == x || t[a] in s[1..];
      }
    }
  }

  lemma {:induction false} SortApart(s: seq<Contribution>)
    requires AgesApart(s)
    ensures AgesApart(Sort(s, Better))
  {
    if s != [] {
      SortApart(s[1..]);
      var t := Sort(s[1..], Better);
      forall a | 0 <= a < |t| ensures t[a].usageAge != s[0].usageAge {
        assert t[a] in multiset(t);
        assert t[a] in s[1..];
        var b :| 0 <= b < |s| - 1 && s[1..][b] == t[a];
        assert s[b + 1] == t[a];
      }
      InsertApart(s[0], t);
    }
  }

  // ---------------------------------------------------------------- what is kept

  /** Every kept contribution is of an allowed event whose cosine is above the threshold,
      with its weight, matched to the first candidate it selected. */
  ghost predicate KeptFits(sameKey: seq<Event>, allowed: set<Id>, candidates: seq<nat>, p: Params, mode: Mode, kept: seq<Contribution>) {
    forall k :: 0 <= k < |kept| ==>
      && EntryAt(sameKey, |sameKey| - 1 - kept[k].usageAge, candidates, p, mode, kept[k]) && kept[k].event.id in allowed
      && kept[k].matched == FirstMatch(candidates, kept[k].event.selection)
  }

  ghost predicate KeepsAge(kept: seq<Contribution>, age: int) {
    exists k :: 0 <= k < |kept| && kept[k].usageAge == age
  }

  /** An allowed event that is compared and left out has a cosine at or below the
      threshold, or as many others are kept as may be and each is better. */
  ghost predicate LeavesOut(sameKey: seq<Event>, allowed: set<Id>, candidates: seq<nat>, p: Params, mode: Mode, kept: seq<Contribution>, i: nat)
    requires i < |sameKey|
  {
    sameKey[i].id in allowed && Compared(sameKey[i], candidates, mode) && !KeepsAge(kept, |sameKey| - 1 - i) ==>
      || CosineOf(sameKey[i], candidates, mode) <= p.tau
      || (|kept| == p.kEvidence
          && forall c :: EntryAt(sameKey, i, candidates, p, mode, c) ==> forall k :: 0 <= k < |kept| ==> Outranks(kept[k], c))
  }

  /** The kept list, from the events and their cosines: at most K contributions, best
      first, one for each event, and nothing better left out. */
  ghost predicate KeptMeans(sameKey: seq<Event>, allowed: set<Id>, candidates: seq<nat>, p: Params, mode: Mode, kept: seq<Contribution>) {
    && |kept| <= p.kEvidence && (forall a, b :: 0 <= a < b < |kept| ==> Outranks(kept[a], kept[b])) && AgesApart(kept)
    && KeptFits(sameKey, allowed, candidates, p, mode, kept)
    && forall i :: 0 <= i < |sameKey| ==> LeavesOut(sameKey, allowed, candidates, p, mode, kept, i)
  }

  ghost predicate AllContribute(sameKey: seq<Event>, allowed: set<Id>, candidates: seq<nat>, p: Params, mode: Mode, s: seq<Contribution>) {
    forall a :: 0 <= a < |s| ==> Contributes(sameKey, |sameKey| - 1 - s[a].usageAge, allowed, candidates, p, mode, s[a])
  }

  lemma {:induction false} PermutedContribute(sameKey: seq<Event>, allowed: set<Id>, candidates: seq<nat>, p: Params, mode: Mode,
                                              s: seq<Contribution>, t: seq<Contribution>)
    requires AllContribute(sameKey, allowed, candidates, p, mode, s) && multiset(s) == multiset(t)
    ensures AllContribute(sameKey, allowed, candidates, p, mode, t)
  {
    forall a | 0 <= a < |t| ensures Contributes(sameKey, |sameKey| - 1 - t[a].usageAge, allowed, candidates, p, mode, t[a]) {
      assert t[a] in multiset(t);
      assert t[a] in s;
    }
  }

  lemma {:induction false} SortedFits(sameKey: seq<Event>, allowed: set<Id>, candidates: seq<nat>, p: Params, mode: Mode,
                                      passed: seq<Contribution>, sorted: seq<Contribution>)
    requires AllContribute(sameKey, allowed, candidates, p, mode, passed) && AgesApart(passed) && sorted == Sort(passed, Better)
    ensures SortedBy(sorted, Better) && AgesApart(sorted) && AllContribute(sameKey, allowed, candidates, p, mode, sorted)
  {
    PermutedContribute(sameKey, allowed, candidates, p, mode, passed, sorted);
    SortApart(passed);
    BetterTotal();
    SortOrders(passed, Better);
  }

  /** Cutting after K and matching keeps order, ages and weights. */
  lemma {:induction false} CutFits(sameKey: seq<Event>, allowed: set<Id>, candidates: seq<nat>, p: Params, mode: Mode,
                                   sorted: seq<Contribution>, kept: seq<Contribution>)
    requires SortedBy(sorted, Better) && AgesApart(sorted) && AllContribute(sameKey, allowed, candidates, p, mode, sorted)
    requires |kept| <= |sorted| && forall k :: 0 <= k < |kept| ==> kept[k] == Matched(sorted[k], candidates, mode)
    ensures (forall a, b :: 0 <= a < b < |kept| ==> Outranks(kept[a], kept[b])) && AgesApart(kept) && KeptFits(sameKey, allowed, candidates, p, mode, kept)
  {
    forall a, b | 0 <= a < b < |kept| ensures Outranks(kept[a], kept[b]) {
      assert Better(sorted[a], sorted[b]);
    }
    forall k | 0 <= k < |kept|
      ensures EntryAt(sameKey, |sameKey| - 1 - kept[k].usageAge, candidates, p, mode, kept[k]) && kept[k].event.id in allowed
      ensures kept[k].matched == FirstMatch(candidates, kept[k].event.selection)
    {
      assert Contributes(sameKey, |sameKey| - 1 - sorted[k].usageAge, allowed, candidates, p, mode, sorted[k]);
    }
  }

  lemma {:induction false} LeftOut(sameKey: seq<Event>, allowed: set<Id>, candidates: seq<nat>, p: Params, mode: Mode,
                                   sorted: seq<Contribution>, kept: seq<Contribution>, i: nat, e: Contribution)
    requires p.tau < 1.0 && SortedBy(sorted, Better) && i < |sameKey| && EntryAt(sameKey, i, candidates, p, mode, e) && e in sorted
    requires |kept| <= |sorted| && (|kept| < |sorted| ==> |kept| == p.kEvidence)
    requires forall k :: 0 <= k < |kept| ==> kept[k] == Matched(sorted[k], candidates, mode)
    ensures LeavesOut(sameKey, allowed, candidates, p, mode, kept, i)
  {
    var q :| 0 <= q < |sorted| && sorted[q] == e;
    if q < |kept| {
      assert kept[q].usageAge == |sameKey| - 1 - i;
    } else {
      BetterThanRest(sameKey, candidates, p, mode, sorted, kept, i, q);
    }
  }

  lemma {:induction false} BetterThanRest(sameKey: seq<Event>, candidates: seq<nat>, p: Params, mode: Mode,
                                          sorted: seq<Contribution>, kept: seq<Contribution>, i: nat, q: nat)
    requires p.tau < 1.0 && SortedBy(sorted, Better) && |kept| <= q < |sorted| && EntryAt(sameKey, i, candidates, p, mode, sorted[q])
    requires forall k :: 0 <= k < |kept| ==> kept[k] == Matched(sorted[k], candidates, mode)
    ensures forall c :: EntryAt(sameKey, i, candidates, p, mode, c) ==> forall k :: 0 <= k < |kept| ==> Outranks(kept[k], c)
  {
    forall c, k | EntryAt(sameKey, i, candidates, p, mode, c) && 0 <= k < |kept| ensures Outranks(kept[k], c) {
      EntryUnique(sameKey, i, candidates, p, mode, c, sorted[q]);
      assert Better(sorted[k], sorted[q]);
    }
  }

  lemma {:induction false} LeavesOutAt(sameKey: seq<Event>, allowed: set<Id>, candidates: seq<nat>, p: Params, mode: Mode,
                                       sorted: seq<Contribution>, kept: seq<Contribution>, i: nat)
    requires ValidParams(p) && multiset(sorted) == multiset(Passed(sameKey, |sameKey|, allowed, candidates, p, mode))
    requires SortedBy(sorted, Better) && i < |sameKey| && |kept| <= |sorted| && (|kept| < |sorted| ==> |kept| == p.kEvidence)
    requires forall k :: 0 <= k < |kept| ==> kept[k] == Matched(sorted[k], candidates, mode)
    ensures LeavesOut(sameKey, allowed, candidates, p, mode, kept, i)
  {
    if sameKey[i].id in allowed && Compared(sameKey[i], candidates, mode) && CosineOf(sameKey[i], candidates, mode) > p.tau {
      var e := PassedHolds(sameKey, |sameKey|, allowed, candidates, p, mode, i);
      assert e in multiset(sorted);
      LeftOut(sameKey, allowed, candidates, p, mode, sorted, kept, i, e);
    }
  }

  /** What the cut keeps is that list. */
  lemma {:induction false} KeptIs(sameKey: seq<Event>, allowed: set<Id>, candidates: seq<nat>, p: Params, mode: Mode)
    requires ValidParams(p)
    ensures KeptMeans(sameKey, allowed, candidates, p, mode, KeptOf(sameKey, allowed, candidates, p, mode))
  {
    var passed := Passed(sameKey, |sameKey|, allowed, candidates, p, mode);
    PassedMeans(sameKey, |sameKey|, allowed, candidates, p, mode);
    var sorted := Sort(passed, Better);
    SortedFits(sameKey, allowed, candidates, p, mode, passed, sorted);
    CutMeans(sameKey, allowed, candidates, p, mode, sorted, MatchAll(Top(sorted, p.kEvidence), candidates, mode));
  }

  lemma {:induction false} CutMeans(sameKey: seq<Event>, allowed: set<Id>, candidates: seq<nat>, p: Params, mode: Mode,
                                    sorted: seq<Contribution>, kept: seq<Contribution>)
    requires ValidParams(p) && multiset(sorted) == multiset(Passed(sameKey, |sameKey|, allowed, candidates, p, mode))
    requires SortedBy(sorted, Better) && AgesApart(sorted) && AllContribute(sameKey, allowed, candidates, p, mode, sorted)
    requires kept == MatchAll(Top(sorted, p.kEvidence), candidates, mode)
    ensures KeptMeans(sameKey, allowed, candidates, p, mode, kept)
  {
    CutFits(sameKey, allowed, candidates, p, mode, sorted, kept);
    forall i | 0 <= i < |sameKey| ensures LeavesOut(sameKey, allowed, candidates, p, mode, kept, i) {
      LeavesOutAt(sameKey, allowed, candidates, p, mode, sorted, kept, i);
    }
  }

  // ---------------------------------------------------------------- scores

  /** A score is the share of the mass times its saturation, without division. */
  ghost predicate ScoreMeans(score: real, mass: real, total: real, k: real) {
    if total > 0.0 then score * (total * (mass + k)) == mass * mass else score == 0.0
  }

  lemma {:induction false} ScoreIs(mass: real, total: real, k: real)
    requires mass + k != 0.0
    ensures ScoreMeans(Score(mass, total, k), mass, total, k)
  {
    if total > 0.0 {
      var x, y := mass / total, mass / (mass + k);
      assert x * total == mass && y * (mass + k) == mass;
      assert (x * y) * (total * (mass + k)) == (x * total) * (y * (mass + k));
    }
  }
}
