/** Source identities and who holds them: published rows, planned rows, the batch
    and the queue never hold one identity twice (archive/collector.py, _accept_one,
    _displace_locked, _publish_inner, _remember). */
module CollectorClaims {
  import opened Common
  import opened Sorting
  import opened Queues
  import opened CollectorQueue
  import opened ArchiveFile
  import opened CollectorPublish
  import opened CollectorRuns

  datatype Claim = Claim(id: Identity, hash: Hash, loss: bool)

  function ClaimOf(p: Prepared): Claim {
    Claim(p.identity, p.hash, p.loss)
  }

  /** The claim of a loss notice ends with its publication. */
  predicate Lasting(c: Claim) {
    !c.loss
  }

  /** Quarantined items hold nothing. */
  function ItemClaims(items: seq<Item>): seq<Claim> {
    if items == [] then []
    else ItemClaims(items[..|items| - 1]) + (if items[|items| - 1].quarantine then [] else [ClaimOf(items[|items| - 1].prepared)])
  }

  /** A published loss notice holds nothing after a restart. */
  function RowClaims(rows: seq<Record>): seq<Claim> {
    if rows == [] then []
    else RowClaims(rows[..|rows| - 1]) + (if rows[|rows| - 1].prepared.loss then [] else [ClaimOf(rows[|rows| - 1].prepared)])
  }

  ghost predicate Distinct(s: seq<Claim>) {
    forall i, j :: 0 <= i < j < |s| ==> s[i].id != s[j].id
  }

  predicate Holds(ids: map<Identity, Hash>, c: Claim) {
    c.id in ids && ids[c.id] == c.hash
  }

  /** All claims are distinct and the identity table knows each. */
  ghost predicate Good(ids: map<Identity, Hash>, s: seq<Claim>) {
    Distinct(s) && forall i :: 0 <= i < |s| ==> Holds(ids, s[i])
  }

  function Claims(r: Running): seq<Claim> {
    RowClaims(r.rows) + ItemClaims(PlanOf(r.phase).kept) + ItemClaims(RestOf(r.phase)) + ItemClaims(r.m.queue)
  }

  // ---------------------------------------------------------------- sequences of claims

  lemma {:induction false} ItemClaimsConcat(a: seq<Item>, b: seq<Item>)
    ensures ItemClaims(a + b) == ItemClaims(a) + ItemClaims(b)
    decreases |b|
  {
    if b == [] {
      assert a + b == a;
    } else {
      assert (a + b)[..|a + b| - 1] == a + b[..|b| - 1];
      ItemClaimsConcat(a, b[..|b| - 1]);
    }
  }

  lemma {:induction false} ItemClaimsOne(item: Item)
    ensures ItemClaims([item]) == if item.quarantine then [] else [ClaimOf(item.prepared)]
  {
    assert [item][..0] == [];
  }

  lemma {:induction false} RowClaimsConcat(a: seq<Record>, b: seq<Record>)
    ensures RowClaims(a + b) == RowClaims(a) + RowClaims(b)
    decreases |b|
  {
    if b == [] {
      assert a + b == a;
    } else {
      assert (a + b)[..|a + b| - 1] == a + b[..|b| - 1];
      RowClaimsConcat(a, b[..|b| - 1]);
    }
  }

  lemma {:induction false} GoodRemove(ids: map<Identity, Hash>, a: seq<Claim>, x: Claim, b: seq<Claim>)
    requires Good(ids, a + [x] + b)
    ensures Good(ids, a + b) && Good(ids - {x.id}, a + b)
  {
    var s, t := a + [x] + b, a + b;
    forall i | 0 <= i < |t| ensures t[i] == s[if i < |a| then i else i + 1] && t[i].id != x.id && Holds(ids, t[i]) {
      assert s[|a|] == x;
      var k := if i < |a| then i else i + 1;
      assert Holds(ids, s[k]);
    }
  }

  lemma {:induction false} GoodAppend(ids: map<Identity, Hash>, s: seq<Claim>, x: Claim)
    requires Good(ids, s) && x.id !in ids
    ensures Good(ids[x.id := x.hash], s + [x])
  {
    forall i | 0 <= i < |s| ensures s[i].id != x.id && Holds(ids[x.id := x.hash], s[i]) {
      assert Holds(ids, s[i]);
    }
  }

  lemma {:induction false} GoodRemoveAll(ids: map<Identity, Hash>, a: seq<Claim>, k: seq<Claim>, b: seq<Claim>, removed: set<Identity>)
    requires Good(ids, a + k + b) && forall x :: x in removed ==> exists i :: 0 <= i < |k| && k[i].id == x
    ensures Good(ids - removed, a + b)
  {
    var s, t := a + k + b, a + b;
    forall i | 0 <= i < |t| ensures t[i] == s[if i < |a| then i else i + |k|] && t[i].id !in removed && Holds(ids, t[i]) {
      var j := if i < |a| then i else i + |k|;
      assert t[i] == s[j] && Holds(ids, s[j]);
      forall n | 0 <= n < |k| ensures k[n].id != t[i].id {
        assert s[|a| + n] == k[n];
      }
    }
  }

  lemma {:induction false} Around(a: seq<Claim>, x: Claim, t: seq<Claim>, b: seq<Claim>)
    ensures a + ([x] + t) + b == a + [x] + (t + b)
    ensures a + ([x] + t) + b == (a + [x]) + t + b
    ensures a + (t + b) == a + t + b
  {}

  lemma {:induction false} FilterFirst(x: Claim, t: seq<Claim>)
    ensures Filter([x] + t, Lasting) == (if x.loss then Filter(t, Lasting) else [x] + Filter(t, Lasting))
  {
    FilterCons(x, t, Lasting);
  }

  lemma {:induction false} GoodFilter(ids: map<Identity, Hash>, a: seq<Claim>, k: seq<Claim>, b: seq<Claim>)
    requires Good(ids, a + k + b)
    ensures Good(ids, a + Filter(k, Lasting) + b)
    decreases |k|
  {
    if k != [] {
      var x, t := k[0], k[1..];
      assert k == [x] + t;
      Around(a, x, t, b);
      FilterFirst(x, t);
      if x.loss {
        GoodRemove(ids, a, x, t + b);
        GoodFilter(ids, a, t, b);
      } else {
        GoodFilter(ids, a + [x], t, b);
        Around(a, x, Filter(t, Lasting), b);
      }
    }
  }

  // ---------------------------------------------------------------- queueing

  lemma {:induction false} ClaimsAround(q: seq<Item>, i: nat)
    requires i < |q|
    ensures ItemClaims(q) == ItemClaims(q[..i]) + ItemClaims([q[i]]) + ItemClaims(q[i + 1..])
    ensures ItemClaims(Without(q, i)) == ItemClaims(q[..i]) + ItemClaims(q[i + 1..])
  {
    assert q == q[..i] + [q[i]] + q[i + 1..];
    ItemClaimsConcat(q[..i] + [q[i]], q[i + 1..]);
    ItemClaimsConcat(q[..i], [q[i]]);
    ItemClaimsConcat(q[..i], q[i + 1..]);
  }

  lemma {:induction false} GoodRemoveInside(ids: map<Identity, Hash>, front: seq<Claim>, a: seq<Claim>, x: Claim, b: seq<Claim>)
    requires Good(ids, front + (a + [x] + b))
    ensures Good(ids - {x.id}, front + (a + b))
  {
    assert front + (a + [x] + b) == (front + a) + [x] + b;
    GoodRemove(ids, front + a, x, b);
    assert (front + a) + b == front + (a + b);
  }

  lemma {:induction false} DisplaceClaims(front: seq<Claim>, m: Memory, i: nat)
    requires Good(m.identities, front + ItemClaims(m.queue)) && i < |m.queue| && !m.queue[i].quarantine
    ensures Good(Displace(m, i).identities, front + ItemClaims(Without(m.queue, i)))
    ensures forall x :: x !in m.identities ==> x !in Displace(m, i).identities
  {
    var q := m.queue;
    ClaimsAround(q, i);
    ItemClaimsOne(q[i]);
    GoodRemoveInside(m.identities, front, ItemClaims(q[..i]), ClaimOf(q[i].prepared), ItemClaims(q[i + 1..]));
  }

  /** Queueing an item: the claims before it stay good, and its own is appended when
      it is not quarantined. */
  lemma {:induction false} BehindClaims(front: seq<Claim>, m: Memory, item: Item)
    requires Good(m.identities, front + ItemClaims(m.queue))
    requires !item.quarantine ==> item.prepared.identity !in m.identities
    ensures Good(if item.quarantine then m.identities else m.identities[item.prepared.identity := item.prepared.hash],
                 front + ItemClaims(m.queue + [item]))
  {
    ItemClaimsConcat(m.queue, [item]);
    ItemClaimsOne(item);
    if item.quarantine {
      assert front + ItemClaims(m.queue + [item]) == front + ItemClaims(m.queue);
    } else {
      GoodAppend(m.identities, front + ItemClaims(m.queue), ClaimOf(item.prepared));
      assert front + ItemClaims(m.queue + [item]) == front + ItemClaims(m.queue) + [ClaimOf(item.prepared)];
    }
  }

  lemma {:induction false} QueueClaims(front: seq<Claim>, m: Memory, item: Item, limits: Limits)
    requires Good(m.identities, front + ItemClaims(m.queue)) && QueueOf(m, item, limits).Some?
    requires !item.quarantine ==> item.prepared.identity !in m.identities
    ensures var q := QueueOf(m, item, limits).value;
      Good(if item.quarantine then q.identities else q.identities[item.prepared.identity := item.prepared.hash], front + ItemClaims(q.queue))
  {
    if Fits(m, item.size, limits) {
      BehindClaims(front, m, item);
    } else {
      DisplaceClaims(front, m, FirstDisplaceable(m.queue));
      BehindClaims(front, Displace(m, FirstDisplaceable(m.queue)), item);
    }
  }

  function FrontClaims(r: Running): seq<Claim> {
    RowClaims(r.rows) + ItemClaims(PlanOf(r.phase).kept) + ItemClaims(RestOf(r.phase))
  }

  lemma {:induction false} NewClaims(front: seq<Claim>, m: Memory, p: Prepared, size: nat, ticket: nat, limits: Limits)
    requires Good(m.identities, front + ItemClaims(m.queue)) && p.identity !in m.identities
    ensures var after := AcceptNew(m, p, size, ticket, limits).0; Good(after.identities, front + ItemClaims(after.queue))
  {
    var item := Item(p, size, false, ticket);
    if QueueOf(m, item, limits).Some? {
      QueueClaims(front, m, item, limits);
    }
  }

  lemma {:induction false} ConflictClaims(front: seq<Claim>, m: Memory, p: Prepared, size: nat, ticket: nat, limits: Limits)
    requires Good(m.identities, front + ItemClaims(m.queue))
    ensures var after := AcceptConflict(m, p, size, ticket, limits).0; Good(after.identities, front + ItemClaims(after.queue))
  {
    var item := Item(p, size, true, ticket);
    var counted := m.(ledger := m.ledger.(conflicts := m.ledger.conflicts + 1));
    if QueueOf(counted, item, limits).Some? {
      QueueClaims(front, counted, item, limits);
    }
  }

  lemma {:induction false} AcceptOfClaims(front: seq<Claim>, m: Memory, o: Observation, gate: Gate, ticket: nat, limits: Limits)
    requires Good(m.identities, front + ItemClaims(m.queue))
    ensures var after := AcceptOf(m, o, gate, ticket, limits).0; Good(after.identities, front + ItemClaims(after.queue))
  {
    if o.Ready? {
      ConflictClaims(front, m, o.prepared, o.size, ticket, limits);
      if o.prepared.identity !in m.identities {
        NewClaims(front, m, o.prepared, o.size, ticket, limits);
      }
    }
  }

  lemma {:induction false} AcceptClaims(r: Running, o: Observation, gate: Gate, limits: Limits)
    requires Good(r.m.identities, Claims(r))
    ensures Good(AcceptStep(r, o, gate, limits).m.identities, Claims(AcceptStep(r, o, gate, limits)))
  {
    AcceptOfClaims(FrontClaims(r), r.m, o, gate, r.tally.inserted, limits);
    assert Claims(AcceptStep(r, o, gate, limits)) == FrontClaims(r) + ItemClaims(AcceptOf(r.m, o, gate, r.tally.inserted, limits).0.queue);
  }

  lemma {:induction false} TakeClaims(r: Running, limits: Limits)
    requires Good(r.m.identities, Claims(r)) && r.phase.Idle?
    ensures Good(TakeStep(r, limits).m.identities, Claims(TakeStep(r, limits)))
  {
    var n := TakeCount(r.m, limits);
    assert r.m.queue == r.m.queue[..n] + r.m.queue[n..];
    ItemClaimsConcat(r.m.queue[..n], r.m.queue[n..]);
    assert Claims(TakeStep(r, limits)) == Claims(r);
  }

  /** One planned item is kept with its claim, or loses it. */
  lemma {:induction false} PlanItemClaims(c: Codec, m: Memory, plan: Plan, item: Item, limits: Limits, front: seq<Claim>, back: seq<Claim>)
    requires Good(m.identities, front + ItemClaims([item]) + back)
    ensures var (m', plan') := PlanItem(c, m, plan, item, limits);
      if |plan'.kept| > |plan.kept| then plan'.kept == plan.kept + [item] && m'.identities == m.identities
      else plan'.kept == plan.kept && Good(m'.identities, front + back)
  {
    ItemClaimsOne(item);
    if item.quarantine {
      assert front + [] + back == front + back;
    } else {
      GoodRemove(m.identities, front, ClaimOf(item.prepared), back);
    }
  }

  lemma {:induction false} ClaimsOfBatch(r: Running)
    requires r.phase.Planning? && r.phase.rest != []
    ensures Claims(r) == (RowClaims(r.rows) + ItemClaims(r.phase.plan.kept)) + ItemClaims([r.phase.rest[0]])
      + (ItemClaims(r.phase.rest[1..]) + ItemClaims(r.m.queue))
  {
    assert r.phase.rest == [r.phase.rest[0]] + r.phase.rest[1..];
    ItemClaimsConcat([r.phase.rest[0]], r.phase.rest[1..]);
  }

  lemma {:induction false} Regroup(rows: seq<Claim>, kept: seq<Claim>, own: seq<Claim>, tail: seq<Claim>, queue: seq<Claim>)
    ensures rows + (kept + own) + tail + queue == (rows + kept) + own + (tail + queue)
    ensures rows + kept + tail + queue == (rows + kept) + (tail + queue)
  {}

  lemma {:induction false} KeptRegroups(ids: map<Identity, Hash>, rows: seq<Claim>, kept: seq<Item>, item: Item, tail: seq<Claim>, queue: seq<Claim>)
    requires Good(ids, (rows + ItemClaims(kept)) + ItemClaims([item]) + (tail + queue))
    ensures Good(ids, rows + ItemClaims(kept + [item]) + tail + queue)
  {
    ItemClaimsConcat(kept, [item]);
    Regroup(rows, ItemClaims(kept), ItemClaims([item]), tail, queue);
  }

  lemma {:induction false} SkippedRegroups(ids: map<Identity, Hash>, rows: seq<Claim>, kept: seq<Claim>, tail: seq<Claim>, queue: seq<Claim>)
    requires Good(ids, (rows + kept) + (tail + queue))
    ensures Good(ids, rows + kept + tail + queue)
  {
    Regroup(rows, kept, [], tail, queue);
  }

  lemma {:induction false} PlanQueue(c: Codec, m: Memory, plan: Plan, item: Item, limits: Limits)
    ensures PlanItem(c, m, plan, item, limits).0.queue == m.queue
  {}

  lemma {:induction false} PlanClaims(c: Codec, r: Running, limits: Limits)
    requires Good(r.m.identities, Claims(r)) && r.phase.Planning? && r.phase.rest != []
    ensures Good(PlanStep(c, r, limits).m.identities, Claims(PlanStep(c, r, limits)))
  {
    var item, plan := r.phase.rest[0], r.phase.plan;
    var rows, kept, tail, queue := RowClaims(r.rows), ItemClaims(plan.kept), ItemClaims(r.phase.rest[1..]), ItemClaims(r.m.queue);
    ClaimsOfBatch(r);
    PlanItemClaims(c, r.m, plan, item, limits, rows + kept, tail + queue);
    PlanQueue(c, r.m, plan, item, limits);
    var (m, planned) := PlanItem(c, r.m, plan, item, limits);
    if |planned.kept| > |plan.kept| {
      KeptRegroups(m.identities, rows, plan.kept, item, tail, queue);
    } else {
      SkippedRegroups(m.identities, rows, kept, tail, queue);
    }
  }

  /** The planned rows are those of the kept items, in order. */
  ghost predicate PlanRows(r: Running) {
    var plan := PlanOf(r.phase);
    && |plan.records| == |plan.kept|
    && forall i :: 0 <= i < |plan.kept| ==>
         plan.records[i] == Record(|r.rows| + i + 1, plan.kept[i].prepared) && !plan.kept[i].quarantine
  }

  lemma {:induction false} KeptClaim(items: seq<Item>, i: nat)
    requires i < |items| && forall j :: 0 <= j < |items| ==> !items[j].quarantine
    ensures |ItemClaims(items)| == |items| && ItemClaims(items)[i] == ClaimOf(items[i].prepared)
  {
    var front := items[..|items| - 1];
    if i < |front| {
      KeptClaim(front, i);
    } else if |front| > 0 {
      KeptClaim(front, 0);
    }
  }

  lemma {:induction false} AppendClaims(c: Codec, r: Running, ok: bool, limits: Limits)
    requires Good(r.m.identities, Claims(r)) && r.phase.Planning? && r.phase.rest == [] && PlanRows(r)
    ensures Good(AppendStep(c, r, ok, limits).m.identities, Claims(AppendStep(c, r, ok, limits)))
  {
    var plan, next := r.phase.plan, AppendStep(c, r, ok, limits);
    var rows, kept, queue := RowClaims(r.rows), ItemClaims(plan.kept), ItemClaims(r.m.queue);
    assert Claims(r) == rows + kept + queue;
    if ok {
      assert Claims(next) == rows + kept + queue;
    } else {
      assert Claims(next) == rows + queue;
      forall x | x in IdsOf(plan.records) ensures exists i :: 0 <= i < |kept| && kept[i].id == x {
        var i :| 0 <= i < |plan.records| && plan.records[i].prepared.identity == x;
        KeptClaim(plan.kept, i);
        assert kept[i].id == x;
      }
      GoodRemoveAll(r.m.identities, rows, kept, queue, IdsOf(plan.records));
    }
  }

  lemma {:induction false} RowsOfKept(records: seq<Record>, kept: seq<Item>)
    requires |records| == |kept|
    requires forall i :: 0 <= i < |kept| ==> records[i].prepared == kept[i].prepared && !kept[i].quarantine
    ensures RowClaims(records) == Filter(ItemClaims(kept), Lasting)
  {
    if records != [] {
      var n := |records| - 1;
      RowsOfKept(records[..n], kept[..n]);
      var last := ClaimOf(kept[n].prepared);
      FilterConcat(ItemClaims(kept[..n]), [last], Lasting);
      assert Filter([last], Lasting) == if last.loss then [] else [last] by { assert [last][1..] == []; }
    }
  }

  lemma {:induction false} IdentifiedAlready(ids: map<Identity, Hash>, records: seq<Record>)
    requires forall i :: 0 <= i < |records| ==> Holds(ids, ClaimOf(records[i].prepared))
    ensures IdentifyAll(ids, records) == ids
  {
    if records != [] {
      IdentifiedAlready(ids, records[..|records| - 1]);
      assert Holds(ids, ClaimOf(records[|records| - 1].prepared));
    }
  }

  lemma {:induction false} KeptHeld(ids: map<Identity, Hash>, rows: seq<Claim>, plan: Plan, queue: seq<Claim>, i: nat)
    requires Good(ids, rows + ItemClaims(plan.kept) + queue) && i < |plan.kept|
    requires forall j :: 0 <= j < |plan.kept| ==> !plan.kept[j].quarantine
    ensures Holds(ids, ClaimOf(plan.kept[i].prepared))
  {
    KeptClaim(plan.kept, i);
    assert (rows + ItemClaims(plan.kept) + queue)[|rows| + i] == ClaimOf(plan.kept[i].prepared);
  }

  lemma {:induction false} FinishClaims(c: Codec, r: Running)
    requires Good(r.m.identities, Claims(r)) && r.phase.Written? && PlanRows(r)
    ensures Good(FinishStep(c, r).m.identities, Claims(FinishStep(c, r)))
  {
    var plan, next := r.phase.plan, FinishStep(c, r);
    var rows, kept, queue := RowClaims(r.rows), ItemClaims(plan.kept), ItemClaims(r.m.queue);
    assert Claims(r) == rows + kept + queue;
    forall i | 0 <= i < |plan.records| ensures Holds(r.m.identities, ClaimOf(plan.records[i].prepared)) {
      KeptHeld(r.m.identities, rows, plan, queue, i);
    }
    IdentifiedAlready(r.m.identities, plan.records);
    RowsOfKept(plan.records, plan.kept);
    RowClaimsConcat(r.rows, plan.records);
    GoodFilter(r.m.identities, rows, kept, queue);
    assert Claims(next) == rows + RowClaims(plan.records) + queue;
  }

  // ---------------------------------------------------------------- rows

  lemma {:induction false} RowClaimed(rows: seq<Record>, i: nat) returns (k: nat)
    requires i < |rows| && !rows[i].prepared.loss
    ensures k < |RowClaims(rows)| && RowClaims(rows)[k] == ClaimOf(rows[i].prepared)
  {
    if i < |rows| - 1 {
      k := RowClaimed(rows[..|rows| - 1], i);
    } else {
      k := |RowClaims(rows)| - 1;
    }
  }

  lemma {:induction false} DistinctRows(rows: seq<Record>)
    requires Distinct(RowClaims(rows))
    ensures UniqueRows(rows)
  {
    if rows != [] {
      var front := rows[..|rows| - 1];
      assert RowClaims(front) == RowClaims(rows)[..|RowClaims(front)|];
      DistinctRows(front);
      forall i, j | 0 <= i < j < |rows| && !rows[i].prepared.loss && !rows[j].prepared.loss
        ensures rows[i].prepared.identity != rows[j].prepared.identity
      {
        if j == |rows| - 1 {
          var k := RowClaimed(front, i);
          assert RowClaims(rows)[k].id != RowClaims(rows)[|RowClaims(front)|].id;
        } else {
          assert front[i] == rows[i] && front[j] == rows[j];
        }
      }
    }
  }

  /** The rows shown, and those rows with the planned ones, hold each identity once. */
  lemma {:induction false} RowsUnique(r: Running)
    requires Good(r.m.identities, Claims(r)) && PlanRows(r)
    ensures UniqueRows(r.rows) && UniqueRows(r.rows + PlanOf(r.phase).records)
  {
    var plan := PlanOf(r.phase);
    var rows, kept, back := RowClaims(r.rows), ItemClaims(plan.kept), ItemClaims(RestOf(r.phase)) + ItemClaims(r.m.queue);
    assert Claims(r) == rows + kept + back;
    RowsOfKept(plan.records, plan.kept);
    RowClaimsConcat(r.rows, plan.records);
    GoodFilter(r.m.identities, rows, kept, back);
    PrefixDistinct(rows + RowClaims(plan.records), back);
    PrefixDistinct(rows, RowClaims(plan.records));
    DistinctRows(r.rows);
    DistinctRows(r.rows + plan.records);
  }

  lemma {:induction false} PrefixDistinct(a: seq<Claim>, b: seq<Claim>)
    requires Distinct(a + b)
    ensures Distinct(a)
  {
    assert forall i :: 0 <= i < |a| ==> a[i] == (a + b)[i];
  }

  /** After a restart the identity table holds exactly what the rows claim. */
  lemma {:induction false} LoadedClaims(rows: seq<Record>)
    requires UniqueRows(rows)
    ensures Good(IdentitiesOf(rows), RowClaims(rows))
    ensures forall x :: x in IdentitiesOf(rows) ==> exists i :: 0 <= i < |rows| && !rows[i].prepared.loss && rows[i].prepared.identity == x
  {
    if rows != [] {
      var front, last := rows[..|rows| - 1], rows[|rows| - 1];
      LoadedClaims(front);
      forall x | x in IdentitiesOf(rows) ensures exists i :: 0 <= i < |rows| && !rows[i].prepared.loss && rows[i].prepared.identity == x {
        if x in IdentitiesOf(front) {
          var i :| 0 <= i < |front| && !front[i].prepared.loss && front[i].prepared.identity == x;
          assert rows[i].prepared.identity == x;
        } else {
          assert rows[|rows| - 1].prepared.identity == x;
        }
      }
      if !last.prepared.loss {
        FreshIdentity(rows);
        GoodAppend(IdentitiesOf(front), RowClaims(front), ClaimOf(last.prepared));
      }
    }
  }

  lemma {:induction false} FreshIdentity(rows: seq<Record>)
    requires UniqueRows(rows) && rows != [] && !rows[|rows| - 1].prepared.loss
    requires var front := rows[..|rows| - 1];
      forall x :: x in IdentitiesOf(front) ==> exists i :: 0 <= i < |front| && !front[i].prepared.loss && front[i].prepared.identity == x
    ensures rows[|rows| - 1].prepared.identity !in IdentitiesOf(rows[..|rows| - 1])
  {
    var front, x := rows[..|rows| - 1], rows[|rows| - 1].prepared.identity;
    forall i | 0 <= i < |front| && !front[i].prepared.loss ensures front[i].prepared.identity != x {
      assert rows[i] == front[i];
    }
  }
}
