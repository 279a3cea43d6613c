/** Walking the pages of a pinned prefix while rows are published and edits made
    (archive/collector.py, _annotation_query): what the whole walk returns, and
    exactly when it succeeds. */
module AnnotationWalk {
  import opened Common
  import opened Sorting
  import opened AnnotationRows
  import opened AnnotationLog
  import opened AnnotationPages

  /** Rows and edits published after the pinned prefix and revision. */
  ghost predicate Grows(base: Moment, later: Moment) {
    base.index <= later.index && base.log <= later.log && Ordered(later.index)
  }

  /** One request of a walk: when it is answered, and the page size it asks for. */
  datatype Visit = Visit(moment: Moment, size: nat)

  /** Follow next_cursor, one page at each visit, until it is absent. */
  function Walk(visits: seq<Visit>, archive: string, prefix: int, revision: int, after: int): Outcome<Page>
    decreases |visits|
  {
    if visits == [] then Ok(Page([], Some(after)))
    else
      match QueryOf(visits[0].moment, archive, prefix, revision, after, visits[0].size)
      case Err(e) => Err(e)
      case Ok(page) =>
        if page.next.None? then Ok(page)
        else
          match Walk(visits[1..], archive, prefix, revision, page.next.value)
          case Err(e) => Err(e)
          case Ok(rest) => Ok(Page(page.rows + rest.rows, rest.next))
  }

  // ---------------------------------------------------------------- edits name the row they were made for

  /** An edit's reference names a row that had no earlier row of the same identity. */
  ghost predicate NamesRow(reference: Reference, archive: string, index: seq<Listed>, k: nat) {
    && k < |index| && reference == ReferenceTo(archive, index[k])
    && forall j :: 0 <= j < k ==> !SameIdentity(index[j], index[k].instance, index[k].local)
  }

  ghost predicate NamesSome(reference: Reference, archive: string, index: seq<Listed>) {
    exists k: nat :: NamesRow(reference, archive, index, k)
  }

  ghost predicate Resolved(m: Moment, archive: string) {
    forall i :: 0 <= i < |m.log| ==> NamesSome(m.log[i].body.semantic.reference, archive, m.index)
  }

  /** Resolution at the time of the edit is what makes it so, for good. */
  lemma {:induction false} ResolvedOnAdmission(index: seq<Listed>, more: seq<Listed>, archive: string, reference: Reference)
    returns (k: nat)
    requires SourceOf(index, archive, LastDurable(index), reference).Ok?
    ensures NamesRow(reference, archive, index + more, k)
  {
    var n := UpTo(index, LastDurable(index));
    assert n == |index| && index[..n] == index;
    var keep := (e: Listed) => SameIdentity(e, reference.instance, reference.local);
    var row := Filter(index, keep)[0];
    FilterMembers(index, keep, row);
    k :| 0 <= k < |index| && index[k] == row;
    forall j | 0 <= j < k ensures !SameIdentity(index[j], index[k].instance, index[k].local) {
      NotBoth(index, keep, j, k);
    }
  }

  lemma {:induction false} NotBoth(index: seq<Listed>, keep: Listed -> bool, j: nat, k: nat)
    requires j < k < |index| && |Filter(index, keep)| == 1 && keep(index[k])
    ensures !keep(index[j])
  {
    if keep(index[j]) {
      FilterTwo(index, keep, j, k);
    }
  }

  lemma {:induction false} EditsFound(m: Moment, archive: string, revision: int, visible: nat, i: nat, n: nat)
    requires Resolved(m, archive) && i < visible <= |m.index| && Alone(m.index, visible, i) && n <= |KINDS|
    ensures EditsAt(m.log, ReferenceTo(archive, m.index[i]), revision, n).Ok?
  {
    if n > 0 {
      EditsFound(m, archive, revision, visible, i, n - 1);
      var key := (m.index[i].instance, m.index[i].local, KINDS[n - 1]);
      LastEditIsLast(m.log, key, revision);
      match LastEdit(m.log, key, revision)
      case None =>
      case Some(j) => SameReference(m, archive, visible, i, j);
    }
  }

  lemma {:induction false} SameReference(m: Moment, archive: string, visible: nat, i: nat, j: nat)
    requires Resolved(m, archive) && i < visible <= |m.index| && Alone(m.index, visible, i) && j < |m.log|
    requires var r := m.log[j].body.semantic.reference; SameIdentity(m.index[i], r.instance, r.local)
    ensures m.log[j].body.semantic.reference == ReferenceTo(archive, m.index[i])
  {
    assert NamesSome(m.log[j].body.semantic.reference, archive, m.index);
    var k: nat :| NamesRow(m.log[j].body.semantic.reference, archive, m.index, k);
    assert SameIdentity(m.index[i], m.index[k].instance, m.index[k].local);
    assert SameIdentity(m.index[k], m.index[i].instance, m.index[i].local);
  }

  /** A visible row is answered exactly when its identity is alone in the prefix and a
      reference can name it; the answer holds its edits of the linear scan. */
  lemma {:induction false} RowAnsweredIff(m: Moment, archive: string, prefix: int, revision: int, i: nat)
    requires Ordered(m.index) && prefix <= MAX_REVISION && Resolved(m, archive) && i < UpTo(m.index, prefix)
    ensures var r := Answer(m, archive, prefix, revision, m.index[i]);
      && (r.Ok? <==> Alone(m.index, UpTo(m.index, prefix), i) && Referable(m.index[i]))
      && (r.Ok? ==> Shows(m, archive, revision, i, r.value))
  {
    OwnReferenceResolves(m.index, prefix, archive, i);
    if Alone(m.index, UpTo(m.index, prefix), i) {
      EditsFound(m, archive, revision, UpTo(m.index, prefix), i, |KINDS|);
    }
  }

  /** The i-th published row with its edits at the revision. */
  ghost predicate Shows(base: Moment, archive: string, revision: int, i: nat, row: Answered) {
    i < |base.index| && row.entry == base.index[i]
    && EditsAt(base.log, ReferenceTo(archive, base.index[i]), revision, |KINDS|) == Ok(row.edits)
  }

  // ---------------------------------------------------------------- later moments answer alike

  lemma {:induction false} UpToGrows(index: seq<Listed>, more: seq<Listed>, d: int)
    requires Ordered(index) && Ordered(index + more) && d <= LastDurable(index)
    ensures UpTo(index + more, d) == UpTo(index, d)
  {
    UpToSplits(index, d);
    assert forall i :: 0 <= i < |index| ==> (index + more)[i] == index[i];
    UpToIs(index + more, d, UpTo(index, d));
  }

  lemma {:induction false} SameUpTo(base: seq<Listed>, later: seq<Listed>, prefix: int)
    requires Ordered(base) && Ordered(later) && base <= later && prefix <= LastDurable(base)
    ensures UpTo(later, prefix) == UpTo(base, prefix)
  {
    assert later == base + later[|base|..];
    UpToGrows(base, later[|base|..], prefix);
  }

  lemma {:induction false} SameSource(base: seq<Listed>, later: seq<Listed>, archive: string, prefix: int, reference: Reference)
    requires Ordered(base) && Ordered(later) && base <= later && prefix <= LastDurable(base)
    ensures SourceOf(later, archive, prefix, reference) == SourceOf(base, archive, prefix, reference)
  {
    SameUpTo(base, later, prefix);
    assert later[..UpTo(base, prefix)] == base[..UpTo(base, prefix)];
  }

  lemma {:induction false} SameEdits(base: seq<Row>, later: seq<Row>, reference: Reference, revision: int)
    requires base <= later && revision <= |base|
    ensures EditsAt(later, reference, revision, |KINDS|) == EditsAt(base, reference, revision, |KINDS|)
  {
    assert later == base + later[|base|..];
    EditsStable(base, later[|base|..], reference, revision, |KINDS|);
  }

  lemma {:induction false} SameAnswer(base: Moment, later: Moment, archive: string, prefix: int, revision: int, e: Listed)
    requires Ordered(base.index) && Grows(base, later) && prefix <= LastDurable(base.index) && revision <= |base.log|
    ensures Answer(later, archive, prefix, revision, e) == Answer(base, archive, prefix, revision, e)
  {
    SameSource(base.index, later.index, archive, prefix, ReferenceTo(archive, e));
    SameEdits(base.log, later.log, ReferenceTo(archive, e), revision);
  }

  lemma {:induction false} SameAnswers(base: Moment, later: Moment, archive: string, prefix: int, revision: int, lo: nat, hi: nat)
    requires Ordered(base.index) && Grows(base, later) && prefix <= LastDurable(base.index) && revision <= |base.log|
    requires lo <= hi <= |base.index|
    ensures Answers(later, archive, prefix, revision, lo, hi) == Answers(base, archive, prefix, revision, lo, hi)
    decreases hi - lo
  {
    if lo < hi {
      SameAnswers(base, later, archive, prefix, revision, lo, hi - 1);
      SameAnswer(base, later, archive, prefix, revision, base.index[hi - 1]);
    }
  }

  // ---------------------------------------------------------------- consecutive answers

  /** Consecutive rows are answered exactly when each of them is, row by row. */
  lemma {:induction false} AnswersInOrder(base: Moment, archive: string, prefix: int, revision: int, lo: nat, hi: nat)
    requires lo <= hi <= |base.index|
    ensures var r := Answers(base, archive, prefix, revision, lo, hi);
      && (r.Ok? <==> forall i :: lo <= i < hi ==> Answer(base, archive, prefix, revision, base.index[i]).Ok?)
      && (r.Ok? ==> |r.value| == hi - lo)
      && (r.Ok? ==> forall i :: lo <= i < hi ==> Ok(r.value[i - lo]) == Answer(base, archive, prefix, revision, base.index[i]))
    decreases hi - lo
  {
    if lo < hi {
      AnswersInOrder(base, archive, prefix, revision, lo, hi - 1);
    }
  }

  /** Answers of two adjacent stretches; the first error wins. */
  function Both(a: Outcome<seq<Answered>>, b: Outcome<seq<Answered>>): Outcome<seq<Answered>> {
    match a
    case Err(e) => Err(e)
    case Ok(x) =>
      match b
      case Err(e) => Err(e)
      case Ok(y) => Ok(x + y)
  }

  lemma {:induction false} AnswersJoin(base: Moment, archive: string, prefix: int, revision: int, lo: nat, mid: nat, hi: nat)
    requires lo <= mid <= hi <= |base.index|
    ensures Answers(base, archive, prefix, revision, lo, hi) ==
      Both(Answers(base, archive, prefix, revision, lo, mid), Answers(base, archive, prefix, revision, mid, hi))
    decreases hi - mid
  {
    var a := Answers(base, archive, prefix, revision, lo, mid);
    if mid == hi {
      assert a.Ok? ==> a.value + [] == a.value;
    } else {
      AnswersJoin(base, archive, prefix, revision, lo, mid, hi - 1);
      var b, row := Answers(base, archive, prefix, revision, mid, hi - 1), Answer(base, archive, prefix, revision, base.index[hi - 1]);
      if a.Ok? && b.Ok? && row.Ok? {
        assert (a.value + b.value) + [row.value] == a.value + (b.value + [row.value]);
      }
    }
  }

  // ---------------------------------------------------------------- one page

  lemma {:induction false} UpToOwn(index: seq<Listed>, k: nat)
    requires Ordered(index) && k < |index|
    ensures UpTo(index, index[k].durable) == k + 1
  {
    UpToIs(index, index[k].durable, k + 1);
  }

  lemma {:induction false} LastDurableGrows(base: seq<Listed>, later: seq<Listed>)
    requires base <= later && Ordered(later)
    ensures LastDurable(later) >= LastDurable(base)
  {
    if base != [] {
      assert later[|base| - 1] == base[|base| - 1];
    }
  }

  /** A pinned prefix and revision, and a place in the prefix. */
  ghost predicate Pinned(base: Moment, prefix: int, revision: int, after: int) {
    Ordered(base.index) && InBounds(base, prefix, revision, after)
  }

  /** One page from a later moment: the next rows of the prefix, in order. */
  lemma {:induction false} PageFromLater(base: Moment, later: Moment, archive: string, prefix: int, revision: int, after: int, size: nat,
                                         start: nat, visible: nat)
    requires Pinned(base, prefix, revision, after) && Grows(base, later) && size >= 1
    requires start == UpTo(base.index, after) && visible == UpTo(base.index, prefix)
    ensures start <= visible
    ensures QueryOf(later, archive, prefix, revision, after, size) ==
        PageOf(Answers(base, archive, prefix, revision, start, Min(start + size, visible)),
               if start + size < visible then Some(base.index[start + size - 1].durable) else None)
  {
    var stop := Min(start + size, visible);
    SameUpTo(base.index, later.index, prefix);
    SameUpTo(base.index, later.index, after);
    Nested(base.index, after, prefix);
    SameAnswers(base, later, archive, prefix, revision, start, stop);
    LastDurableGrows(base.index, later.index);
    QueryIs(later, archive, prefix, revision, after, size, start, visible, Answers(base, archive, prefix, revision, start, stop));
  }

  // ---------------------------------------------------------------- the walk

  /** Rows the pages of these visits have room for. */
  function Room(visits: seq<Visit>): nat
    decreases |visits|
  {
    if visits == [] then 0 else visits[0].size + Room(visits[1..])
  }

  /** The first `count` rows from row `start` of the prefix, or an error when one of them
      is not answered; no cursor exactly when the prefix is exhausted. */
  ghost predicate Returns(base: Moment, archive: string, prefix: int, revision: int, start: nat, visible: nat,
                          count: nat, some: bool, r: Outcome<Page>)
  {
    && start <= visible <= |base.index|
    && match Answers(base, archive, prefix, revision, start, Min(start + count, visible))
       case Err(_) => r.Err?
       case Ok(rows) => r.Ok? && r.value.rows == rows && (r.value.next.None? <==> some && start + count >= visible)
  }

  /** What a walk from `after` over these visits returns. */
  ghost predicate WalkReturns(base: Moment, visits: seq<Visit>, archive: string, prefix: int, revision: int, after: int) {
    Returns(base, archive, prefix, revision, UpTo(base.index, after), UpTo(base.index, prefix), Room(visits), |visits| > 0,
            Walk(visits, archive, prefix, revision, after))
  }

  ghost predicate AllGrow(base: Moment, visits: seq<Visit>)
    decreases |visits|
  {
    |visits| == 0 || (Grows(base, visits[0].moment) && visits[0].size >= 1 && AllGrow(base, visits[1..]))
  }

  lemma {:induction false} SomeRoom(base: Moment, visits: seq<Visit>)
    requires AllGrow(base, visits)
    ensures |visits| > 0 <==> Room(visits) > 0
  {}

  lemma {:induction false} FirstVisit(base: Moment, visits: seq<Visit>)
    requires |visits| > 0 && AllGrow(base, visits)
    ensures Grows(base, visits[0].moment) && visits[0].size >= 1 && AllGrow(base, visits[1..])
    ensures Room(visits) == visits[0].size + Room(visits[1..])
    ensures |visits[1..]| > 0 <==> Room(visits[1..]) > 0
  {
    SomeRoom(base, visits[1..]);
  }

  lemma {:induction false} WalkUnfolds(visits: seq<Visit>, archive: string, prefix: int, revision: int, after: int, page: Outcome<Page>)
    requires visits != [] && QueryOf(visits[0].moment, archive, prefix, revision, after, visits[0].size) == page
    ensures page.Err? ==> Walk(visits, archive, prefix, revision, after) == page
    ensures page.Ok? && page.value.next.None? ==> Walk(visits, archive, prefix, revision, after) == page
    ensures page.Ok? && page.value.next.Some? ==>
      var rest := Walk(visits[1..], archive, prefix, revision, page.value.next.value);
      Walk(visits, archive, prefix, revision, after) ==
        if rest.Err? then Err(rest.error) else Ok(Page(page.value.rows + rest.value.rows, rest.value.next))
  {}

  /** A page that exhausts the prefix ends the walk. */
  lemma {:induction false} WalkEnds(base: Moment, visits: seq<Visit>, archive: string, prefix: int, revision: int, after: int,
                                    start: nat, visible: nat, count: nat)
    requires Pinned(base, prefix, revision, after) && |visits| > 0 && Grows(base, visits[0].moment) && visits[0].size >= 1
    requires start == UpTo(base.index, after) && visible == UpTo(base.index, prefix) && start + visits[0].size >= visible
    ensures Returns(base, archive, prefix, revision, start, visible, visits[0].size + count, true,
                    Walk(visits, archive, prefix, revision, after))
  {
    var size := visits[0].size;
    PageFromLater(base, visits[0].moment, archive, prefix, revision, after, size, start, visible);
    WalkUnfolds(visits, archive, prefix, revision, after, QueryOf(visits[0].moment, archive, prefix, revision, after, size));
  }

  /** A page followed by the rest of the walk. */
  lemma {:induction false} Joined(base: Moment, archive: string, prefix: int, revision: int, start: nat, visible: nat, size: nat, count: nat,
                                  some: bool, first: Outcome<seq<Answered>>, rest: Outcome<Page>)
    requires start + size < visible <= |base.index| && (some <==> count > 0)
    requires Answers(base, archive, prefix, revision, start, start + size) == first
    requires Returns(base, archive, prefix, revision, start + size, visible, count, some, rest)
    ensures Returns(base, archive, prefix, revision, start, visible, size + count, true,
                    if first.Err? then Err(first.error) else if rest.Err? then Err(rest.error)
                    else Ok(Page(first.value + rest.value.rows, rest.value.next)))
  {
    AnswersJoin(base, archive, prefix, revision, start, start + size, Min(start + size + count, visible));
  }

  lemma {:induction false} WalkContinues(base: Moment, visits: seq<Visit>, archive: string, prefix: int, revision: int, after: int,
                                         start: nat, visible: nat, count: nat, some: bool)
    requires Pinned(base, prefix, revision, after) && (some <==> count > 0)
    requires |visits| > 0 && Grows(base, visits[0].moment) && visits[0].size >= 1
    requires start == UpTo(base.index, after) && visible == UpTo(base.index, prefix) && start + visits[0].size < visible
    requires Returns(base, archive, prefix, revision, start + visits[0].size, visible, count, some,
                     Walk(visits[1..], archive, prefix, revision, base.index[start + visits[0].size - 1].durable))
    ensures Returns(base, archive, prefix, revision, start, visible, visits[0].size + count, true,
                    Walk(visits, archive, prefix, revision, after))
  {
    var size := visits[0].size;
    PageFromLater(base, visits[0].moment, archive, prefix, revision, after, size, start, visible);
    var first := Answers(base, archive, prefix, revision, start, start + size);
    var rest := Walk(visits[1..], archive, prefix, revision, base.index[start + size - 1].durable);
    WalkUnfolds(visits, archive, prefix, revision, after, QueryOf(visits[0].moment, archive, prefix, revision, after, size));
    Joined(base, archive, prefix, revision, start, visible, size, count, some, first, rest);
  }

  lemma {:induction false} CursorPinned(base: Moment, prefix: int, revision: int, after: int, stop: nat)
    requires Pinned(base, prefix, revision, after) && 0 < stop <= UpTo(base.index, prefix)
    ensures Pinned(base, prefix, revision, base.index[stop - 1].durable)
    ensures UpTo(base.index, base.index[stop - 1].durable) == stop
  {
    UpToSplits(base.index, prefix);
    UpToOwn(base.index, stop - 1);
  }

  lemma {:induction false} NoPages(base: Moment, archive: string, prefix: int, revision: int, after: int)
    requires Pinned(base, prefix, revision, after)
    ensures WalkReturns(base, [], archive, prefix, revision, after)
  {
    Nested(base.index, after, prefix);
  }

  /** One more page in front of a walk that returns what it should. */
  lemma {:induction false} WalkOneMore(base: Moment, visits: seq<Visit>, archive: string, prefix: int, revision: int, after: int,
                                       start: nat, visible: nat, room: nat)
    requires Pinned(base, prefix, revision, after) && |visits| > 0 && Grows(base, visits[0].moment) && visits[0].size >= 1
    requires start == UpTo(base.index, after) && visible == UpTo(base.index, prefix)
    requires room == Room(visits[1..]) && (|visits[1..]| > 0 <==> room > 0) && Room(visits) == visits[0].size + room
    requires start + visits[0].size < visible ==>
      Returns(base, archive, prefix, revision, start + visits[0].size, visible, room, |visits[1..]| > 0,
              Walk(visits[1..], archive, prefix, revision, base.index[start + visits[0].size - 1].durable))
    ensures WalkReturns(base, visits, archive, prefix, revision, after)
  {
    if start + visits[0].size < visible {
      WalkContinues(base, visits, archive, prefix, revision, after, start, visible, room, |visits[1..]| > 0);
    } else {
      WalkEnds(base, visits, archive, prefix, revision, after, start, visible, room);
    }
  }

  /** Following next_cursor from a pinned prefix and revision returns every row up to
      the prefix exactly once and in order, with its edits at the pinned revision,
      whatever is published or edited between the pages and whatever page sizes are
      asked for, or fails when one of the rows is not answered; after enough pages the
      cursor is absent. */
  lemma {:induction false} WalkReturnsPrefix(base: Moment, visits: seq<Visit>, archive: string, prefix: int, revision: int, after: int)
    requires Pinned(base, prefix, revision, after) && AllGrow(base, visits)
    ensures WalkReturns(base, visits, archive, prefix, revision, after)
    decreases |visits|
  {
    if |visits| == 0 {
      NoPages(base, archive, prefix, revision, after);
      assert visits == [];
    } else {
      FirstVisit(base, visits);
      var start, visible := UpTo(base.index, after), UpTo(base.index, prefix);
      if start + visits[0].size < visible {
        CursorPinned(base, prefix, revision, after, start + visits[0].size);
        WalkReturnsPrefix(base, visits[1..], archive, prefix, revision, base.index[start + visits[0].size - 1].durable);
      }
      WalkOneMore(base, visits, archive, prefix, revision, after, start, visible, Room(visits[1..]));
    }
  }

  /** Every row of the prefix has its identity to itself and can be named. */
  ghost predicate AllNamed(index: seq<Listed>, visible: nat)
    requires visible <= |index|
  {
    forall i :: 0 <= i < visible ==> Alone(index, visible, i) && Referable(index[i])
  }

  /** Rows answered one by one, and what the answers show. */
  lemma {:induction false} AnsweredIff(base: Moment, archive: string, prefix: int, revision: int, visible: nat)
    requires Ordered(base.index) && prefix <= MAX_REVISION && Resolved(base, archive) && visible == UpTo(base.index, prefix)
    ensures (forall i :: 0 <= i < visible ==> Answer(base, archive, prefix, revision, base.index[i]).Ok?)
      <==> AllNamed(base.index, visible)
  {
    forall i | 0 <= i < visible
      ensures Answer(base, archive, prefix, revision, base.index[i]).Ok? <==> Alone(base.index, visible, i) && Referable(base.index[i])
    {
      RowAnsweredIff(base, archive, prefix, revision, i);
    }
  }

  lemma {:induction false} AnsweredShows(base: Moment, archive: string, prefix: int, revision: int, visible: nat, rows: seq<Answered>)
    requires Ordered(base.index) && prefix <= MAX_REVISION && Resolved(base, archive) && visible == UpTo(base.index, prefix)
    requires |rows| == visible
    requires forall i :: 0 <= i < visible ==> Ok(rows[i]) == Answer(base, archive, prefix, revision, base.index[i])
    ensures forall i :: 0 <= i < |rows| ==> Shows(base, archive, revision, i, rows[i])
  {
    forall i | 0 <= i < |rows| ensures Shows(base, archive, revision, i, rows[i]) {
      RowAnsweredIff(base, archive, prefix, revision, i);
    }
  }

  lemma {:induction false} PrefixAnswered(base: Moment, archive: string, prefix: int, revision: int, visible: nat,
                                          r: Outcome<seq<Answered>>)
    requires Ordered(base.index) && prefix <= MAX_REVISION && Resolved(base, archive) && visible == UpTo(base.index, prefix)
    requires r == Answers(base, archive, prefix, revision, 0, visible)
    ensures r.Ok? <==> AllNamed(base.index, visible)
    ensures r.Ok? ==> |r.value| == visible
    ensures r.Ok? ==> forall i :: 0 <= i < |r.value| ==> Shows(base, archive, revision, i, r.value[i])
  {
    AnswersInOrder(base, archive, prefix, revision, 0, visible);
    AnsweredIff(base, archive, prefix, revision, visible);
    if r.Ok? {
      assert forall i :: 0 <= i < visible ==> r.value[i - 0] == r.value[i];
      AnsweredShows(base, archive, prefix, revision, visible, r.value);
    }
  }

  /** The whole walk: it succeeds exactly when every row of the prefix has its source
      identity to itself and a local sequence a reference may hold, and then returns row
      by row the prefix with the edits of the linear scan. */
  lemma {:induction false} FullWalkIff(base: Moment, visits: seq<Visit>, archive: string, prefix: int, revision: int)
    requires Pinned(base, prefix, revision, 0) && Resolved(base, archive)
    requires AllGrow(base, visits) && visits != [] && Room(visits) >= UpTo(base.index, prefix)
    ensures var w := Walk(visits, archive, prefix, revision, 0);
      && (w.Ok? <==> AllNamed(base.index, UpTo(base.index, prefix)))
      && (w.Ok? ==> w.value.next.None? && |w.value.rows| == UpTo(base.index, prefix))
      && (w.Ok? ==> forall i :: 0 <= i < |w.value.rows| ==> Shows(base, archive, revision, i, w.value.rows[i]))
  {
    WalkReturnsPrefix(base, visits, archive, prefix, revision, 0);
    UpToIs(base.index, 0, 0);
    var visible := UpTo(base.index, prefix);
    PrefixAnswered(base, archive, prefix, revision, visible, Answers(base, archive, prefix, revision, 0, visible));
  }
}
