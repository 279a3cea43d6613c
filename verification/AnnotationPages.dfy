/** Reading annotations back at a pinned revision, and one page of published rows at a
    pinned prefix (archive/annotations.py, effective; archive/collector.py,
    _annotation_source and _annotation_query). */
module AnnotationPages {
  import opened Common
  import opened Sorting
  import opened AnnotationRows
  import opened AnnotationLog
  import opened Lines

  // ---------------------------------------------------------------- edits at a revision

  const KINDS: seq<Kind> := [Confirm, Correct, Exclude, Experience]

  /** The last row for the key at or below the revision, by a scan of the log. */
  function LastEdit(log: seq<Row>, key: Key, revision: int): Option<nat> {
    if log == [] then None
    else if |log| <= revision && KeyOf(log[|log| - 1]) == key then Some(|log| - 1)
    else LastEdit(log[..|log| - 1], key, revision)
  }

  lemma {:induction false} LastEditIsLast(log: seq<Row>, key: Key, revision: int)
    ensures match LastEdit(log, key, revision)
      case Some(i) => i < |log| && i < revision && KeyOf(log[i]) == key
        && forall j :: i < j < |log| && j < revision ==> KeyOf(log[j]) != key
      case None => forall j :: 0 <= j < |log| && j < revision ==> KeyOf(log[j]) != key
  {
    if log != [] {
      LastEditIsLast(log[..|log| - 1], key, revision);
    }
  }

  /** What the edits of a row are at a revision, by linear scan, for the first n kinds. */
  function EditsAt(log: seq<Row>, reference: Reference, revision: int, n: nat): Outcome<map<Kind, Row>>
    requires n <= |KINDS|
  {
    if n == 0 then Ok(map[])
    else
      match EditsAt(log, reference, revision, n - 1)
      case Err(e) => Err(e)
      case Ok(found) =>
        var kind := KINDS[n - 1];
        LastEditIsLast(log, (reference.instance, reference.local, kind), revision);
        match LastEdit(log, (reference.instance, reference.local, kind), revision)
        case None => Ok(found)
        case Some(i) =>
          if log[i].body.semantic.reference != reference then Err(StateInvalid) else Ok(found[kind := log[i]])
  }

  /** Row i is the last edit of this kind for the reference's identity up to the revision. */
  ghost predicate LastOf(log: seq<Row>, reference: Reference, kind: Kind, revision: int, i: nat) {
    && i < |log| && i < revision && KeyOf(log[i]) == (reference.instance, reference.local, kind)
    && forall j :: i < j < |log| && j < revision ==> KeyOf(log[j]) != (reference.instance, reference.local, kind)
  }

  lemma {:induction false} LastEditIff(log: seq<Row>, reference: Reference, kind: Kind, revision: int, i: nat)
    ensures LastEdit(log, (reference.instance, reference.local, kind), revision) == Some(i) <==> LastOf(log, reference, kind, revision, i)
  {
    LastEditIsLast(log, (reference.instance, reference.local, kind), revision);
  }

  /** What a page shows of one kind: the last edit of it, made for this very record. */
  ghost predicate EditIs(log: seq<Row>, reference: Reference, kind: Kind, revision: int, edit: Option<Row>) {
    match edit
    case None => forall i: nat :: !LastOf(log, reference, kind, revision, i)
    case Some(row) => row.body.semantic.reference == reference && exists i: nat :: LastOf(log, reference, kind, revision, i) && log[i] == row
  }

  /** The last edit of a kind was made for another record of the same identity. */
  ghost predicate Mismatched(log: seq<Row>, reference: Reference, kind: Kind, revision: int) {
    exists i: nat :: LastOf(log, reference, kind, revision, i) && log[i].body.semantic.reference != reference
  }

  function Lookup(found: map<Kind, Row>, kind: Kind): Option<Row> {
    if kind in found then Some(found[kind]) else None
  }

  lemma {:induction false} KindMeans(log: seq<Row>, reference: Reference, kind: Kind, revision: int, at: Option<nat>)
    requires LastEdit(log, (reference.instance, reference.local, kind), revision) == at
    ensures at.None? ==> EditIs(log, reference, kind, revision, None) && !Mismatched(log, reference, kind, revision)
    ensures at.Some? ==> at.value < |log| && (Mismatched(log, reference, kind, revision) <==> log[at.value].body.semantic.reference != reference)
    ensures at.Some? && !Mismatched(log, reference, kind, revision) ==> EditIs(log, reference, kind, revision, Some(log[at.value]))
  {
    LastEditIsLast(log, (reference.instance, reference.local, kind), revision);
    forall i: nat ensures at == Some(i) <==> LastOf(log, reference, kind, revision, i) {
      LastEditIff(log, reference, kind, revision, i);
    }
  }

  lemma {:induction false} KindsDiffer(k: nat, n: nat)
    requires k < n < |KINDS|
    ensures KINDS[k] != KINDS[n]
  {}

  /** The edits of a row for the first n kinds, and an error exactly when the last edit of
      one of them was made for another record. */
  lemma {:induction false} EditsMean(log: seq<Row>, reference: Reference, revision: int, n: nat)
    requires n <= |KINDS|
    ensures EditsAt(log, reference, revision, n).Err? <==> exists k :: 0 <= k < n && Mismatched(log, reference, KINDS[k], revision)
    ensures EditsAt(log, reference, revision, n).Ok? ==>
      forall k :: 0 <= k < n ==> EditIs(log, reference, KINDS[k], revision, Lookup(EditsAt(log, reference, revision, n).value, KINDS[k]))
    ensures EditsAt(log, reference, revision, n).Ok? ==> forall kind :: kind in EditsAt(log, reference, revision, n).value ==> kind in KINDS[..n]
  {
    if n > 0 {
      EditsMean(log, reference, revision, n - 1);
      var kind, before := KINDS[n - 1], EditsAt(log, reference, revision, n - 1);
      var at := LastEdit(log, (reference.instance, reference.local, kind), revision);
      KindMeans(log, reference, kind, revision, at);
      assert KINDS[..n] == KINDS[..n - 1] + [kind];
      if before.Ok? && !Mismatched(log, reference, kind, revision) {
        var after := if at.None? then before.value else before.value[kind := log[at.value]];
        assert EditsAt(log, reference, revision, n) == Ok(after);
        forall k | 0 <= k < n ensures EditIs(log, reference, KINDS[k], revision, Lookup(after, KINDS[k])) {
          if k < n - 1 {
            KindsDiffer(k, n - 1);
            assert Lookup(after, KINDS[k]) == Lookup(before.value, KINDS[k]);
          } else {
            NotYet(before.value, n - 1);
          }
        }
      }
    }
  }

  lemma {:induction false} NotYet(found: map<Kind, Row>, n: nat)
    requires n < |KINDS| && forall kind :: kind in found ==> kind in KINDS[..n]
    ensures KINDS[n] !in found
  {
    if KINDS[n] in found {
      var k :| 0 <= k < n && KINDS[..n][k] == KINDS[n];
      KindsDiffer(k, n);
    }
  }

  /** The history entries of a key, by a scan of the log. */
  function EntriesOf(c: Codec, log: seq<Row>, key: Key): seq<Entry> {
    if log == [] then []
    else
      var front, row := log[..|log| - 1], log[|log| - 1];
      var before := EntriesOf(c, front, key);
      if KeyOf(row) == key then before + [Entry(|log|, |Encode(c, front)|, |c.enc(row)|, OfRow(row))] else before
  }

  lemma {:induction false} HistoryIsEntries(c: Codec, archive: string, log: seq<Row>, key: Key)
    requires ValidLog(c, archive, log)
    ensures HistoryAt(MemoryOf(c, archive, log).history, key) == EntriesOf(c, log, key)
  {
    if log != [] {
      var front := log[..|log| - 1];
      HistoryIsEntries(c, archive, front, key);
      LogFacts(c, archive, front);
    }
  }

  ghost predicate Increasing(h: seq<Entry>) {
    forall i, j :: 0 <= i < j < |h| ==> h[i].revision < h[j].revision
  }

  lemma {:induction false} EntriesIncrease(c: Codec, log: seq<Row>, key: Key)
    ensures Increasing(EntriesOf(c, log, key))
    ensures forall i :: 0 <= i < |EntriesOf(c, log, key)| ==> 1 <= EntriesOf(c, log, key)[i].revision <= |log|
  {
    if log != [] {
      EntriesIncrease(c, log[..|log| - 1], key);
    }
  }

  predicate Describes(c: Codec, log: seq<Row>, i: nat, e: Entry) {
    i < |log| && e == Entry(i + 1, |Encode(c, log[..i])|, |c.enc(log[i])|, OfRow(log[i]))
  }

  /** The last entry at or below the revision describes the row the scan finds. */
  lemma {:induction false} EntryOfLastEdit(c: Codec, log: seq<Row>, key: Key, revision: int, p: nat)
    requires p <= |EntriesOf(c, log, key)|
    requires forall i :: 0 <= i < p ==> EntriesOf(c, log, key)[i].revision <= revision
    requires forall i :: p <= i < |EntriesOf(c, log, key)| ==> EntriesOf(c, log, key)[i].revision > revision
    ensures p == 0 ==> LastEdit(log, key, revision).None?
    ensures p > 0 ==>
      LastEdit(log, key, revision).Some? && Describes(c, log, LastEdit(log, key, revision).value, EntriesOf(c, log, key)[p - 1])
  {
    var h := EntriesOf(c, log, key);
    if log != [] {
      var front, row := log[..|log| - 1], log[|log| - 1];
      var before := EntriesOf(c, front, key);
      if KeyOf(row) == key {
        assert forall i :: 0 <= i < |before| ==> before[i] == h[i];
        assert h[|before|].revision == |log|;
        if |log| > revision {
          EntryOfLastEdit(c, front, key, revision, p);
        }
      } else {
        EntryOfLastEdit(c, front, key, revision, p);
      }
      LastEditIsLast(log, key, revision);
      if p > 0 {
        var i := LastEdit(log, key, revision).value;
        if i < |front| {
          assert front[..i] == log[..i] && front[i] == log[i];
        } else {
          assert log[..i] == front;
        }
      }
    }
  }

  /** Number of entries at or below the revision. */
  method BisectRight(h: seq<Entry>, revision: int) returns (p: nat)
    requires Increasing(h)
    ensures p <= |h|
    ensures forall i :: 0 <= i < p ==> h[i].revision <= revision
    ensures forall i :: p <= i < |h| ==> h[i].revision > revision
  {
    var lo, hi := 0, |h|;
    while lo < hi
      invariant 0 <= lo <= hi <= |h|
      invariant forall i :: 0 <= i < lo ==> h[i].revision <= revision
      invariant forall i :: hi <= i < |h| ==> h[i].revision > revision
    {
      var mid := (lo + hi) / 2;
      if h[mid].revision <= revision { lo := mid + 1; } else { hi := mid; }
    }
    p := lo;
  }

  /** One row read back from its place in the journal. */
  function ReadRow(c: Codec, journal: seq<Byte>, e: Entry, reference: Reference): Outcome<Row> {
    var raw := journal[Min(e.offset, |journal|)..Min(e.offset + e.length, |journal|)];
    match c.dec(raw)
    case None => Err(StateInvalid)
    case Some(row) =>
      if OfRow(row) != e.digest || row.body.semantic.reference != reference then Err(StateInvalid) else Ok(row)
  }

  lemma {:induction false} ReadsDescribed(c: Codec, archive: string, journal: seq<Byte>, log: seq<Row>, i: nat, e: Entry, reference: Reference)
    requires Encodes(c, log) && |archive| == 32 && ValidLog(c, archive, log) && Encode(c, log) <= journal && Describes(c, log, i, e)
    ensures ReadRow(c, journal, e, reference) ==
      if log[i].body.semantic.reference == reference then Ok(log[i]) else Err(StateInvalid)
  {
    EncodePrefix(c, log, i);
    SliceOfPrefix(journal, Encode(c, log), e.offset, c.enc(log[i]));
    RowsShape(c, archive, log, i);
    assert LineOf(c, log[i]);
  }

  /** One kind: bisect its history, and read the row found from the journal. */
  method EffectiveKind(c: Codec, history: map<Key, seq<Entry>>, journal: seq<Byte>, reference: Reference, kind: Kind, revision: int,
                       ghost archive: string, ghost log: seq<Row>) returns (r: Outcome<Option<Row>>)
    requires Encodes(c, log) && |archive| == 32 && ValidLog(c, archive, log) && Encode(c, log) <= journal
    requires history == MemoryOf(c, archive, log).history
    ensures match LastEdit(log, (reference.instance, reference.local, kind), revision)
      case None => r == Ok(None)
      case Some(i) =>
        i < |log| && r == if log[i].body.semantic.reference == reference then Ok(Some(log[i])) else Err(StateInvalid)
  {
    var key := (reference.instance, reference.local, kind);
    var h := HistoryAt(history, key);
    HistoryIsEntries(c, archive, log, key);
    EntriesIncrease(c, log, key);
    var p := BisectRight(h, revision);
    EntryOfLastEdit(c, log, key, revision, p);
    if p == 0 {
      return Ok(None);
    }
    ReadsDescribed(c, archive, journal, log, LastEdit(log, key, revision).value, h[p - 1], reference);
    var read := ReadRow(c, journal, h[p - 1], reference);
    r := if read.Ok? then Ok(Some(read.value)) else Err(StateInvalid);
  }

  /** The edits of a row at a revision, found by bisection and read from the journal,
      are those of the linear scan; an entry for the same identity but another
      record is an error. */
  method Effective(c: Codec, history: map<Key, seq<Entry>>, journal: seq<Byte>, reference: Reference, revision: int,
                   ghost archive: string, ghost log: seq<Row>) returns (r: Outcome<map<Kind, Row>>)
    requires Encodes(c, log) && |archive| == 32 && ValidLog(c, archive, log) && Encode(c, log) <= journal
    requires history == MemoryOf(c, archive, log).history
    ensures r == EditsAt(log, reference, revision, |KINDS|)
  {
    var found: map<Kind, Row> := map[];
    var n := 0;
    while n < |KINDS|
      invariant 0 <= n <= |KINDS|
      invariant EditsAt(log, reference, revision, n) == Ok(found)
    {
      var read := EffectiveKind(c, history, journal, reference, KINDS[n], revision, archive, log);
      if read.Err? {
        EditsFail(log, reference, revision, n + 1, |KINDS|);
        return Err(read.error);
      }
      if read.value.Some? {
        found := found[KINDS[n] := read.value.value];
      }
      n := n + 1;
    }
    r := Ok(found);
  }

  lemma {:induction false} EditsFail(log: seq<Row>, reference: Reference, revision: int, m: nat, n: nat)
    requires m <= n <= |KINDS| && EditsAt(log, reference, revision, m) == Err(StateInvalid)
    ensures EditsAt(log, reference, revision, n) == Err(StateInvalid)
  {
    if m < n {
      EditsFail(log, reference, revision, m, n - 1);
    }
  }

  /** Later edits never change what a pinned revision shows. */
  lemma {:induction false} EditsStable(log: seq<Row>, more: seq<Row>, reference: Reference, revision: int, n: nat)
    requires revision <= |log| && n <= |KINDS|
    ensures EditsAt(log + more, reference, revision, n) == EditsAt(log, reference, revision, n)
  {
    if n > 0 {
      EditsStable(log, more, reference, revision, n - 1);
      LastEditStable(log, more, (reference.instance, reference.local, KINDS[n - 1]), revision);
      LastEditIsLast(log, (reference.instance, reference.local, KINDS[n - 1]), revision);
    }
  }

  lemma {:induction false} LastEditStable(log: seq<Row>, more: seq<Row>, key: Key, revision: int)
    requires revision <= |log|
    ensures LastEdit(log + more, key, revision) == LastEdit(log, key, revision)
    decreases |more|
  {
    if more == [] {
      assert log + more == log;
    } else {
      assert (log + more)[..|log + more| - 1] == log + more[..|more| - 1];
      LastEditStable(log, more[..|more| - 1], key, revision);
    }
  }

  // ---------------------------------------------------------------- the referenced row

  /** What the metadata index keeps of one published row. */
  datatype Listed = Listed(durable: int, instance: string, local: int, recordDigest: nat)

  ghost predicate Ordered(index: seq<Listed>) {
    && (forall i :: 0 <= i < |index| ==> index[i].durable >= 1)
    && (forall i, j :: 0 <= i < j < |index| ==> index[i].durable < index[j].durable)
  }

  /** Number of rows with durable number at most d. */
  function UpTo(index: seq<Listed>, d: int): (n: nat)
    ensures n <= |index|
  {
    if index == [] then 0
    else if index[|index| - 1].durable <= d then |index|
    else UpTo(index[..|index| - 1], d)
  }

  lemma {:induction false} UpToSplits(index: seq<Listed>, d: int)
    requires Ordered(index)
    ensures var n := UpTo(index, d);
      && (forall i :: 0 <= i < n ==> index[i].durable <= d) && (forall i :: n <= i < |index| ==> index[i].durable > d)
  {
    if index != [] && index[|index| - 1].durable > d {
      UpToSplits(index[..|index| - 1], d);
    }
  }

  lemma {:induction false} UpToIs(index: seq<Listed>, d: int, n: nat)
    requires Ordered(index) && n <= |index|
    requires forall i :: 0 <= i < n ==> index[i].durable <= d
    requires forall i :: n <= i < |index| ==> index[i].durable > d
    ensures UpTo(index, d) == n
  {
    UpToSplits(index, d);
    var m := UpTo(index, d);
    if m < |index| {
      assert index[m].durable > d;
    }
    if n < |index| {
      assert index[n].durable > d;
    }
  }

  predicate SameIdentity(a: Listed, instance: string, local: int) {
    a.instance == instance && a.local == local
  }

  function Visible(index: seq<Listed>, limit: int, instance: string, local: int): seq<Listed> {
    Filter(index[..UpTo(index, limit)], (e: Listed) => SameIdentity(e, instance, local))
  }

  function ReferenceTo(archive: string, e: Listed): Reference {
    Reference(archive, e.instance, e.local, e.durable, e.recordDigest)
  }

  /** A row that a reference can name. Admission sets no upper bound on the local
      sequence; a reference may hold it only up to the largest integer. */
  predicate Referable(e: Listed) {
    SafeToken(e.instance) && IsInteger(e.local, 0)
  }

  /** The shape of a reference is tested before anything is looked up. */
  function ShapeError(archive: string, reference: Reference): Option<Error> {
    if reference.archive != archive then Some(ForeignArchive)
    else if !ReferenceShape(reference, archive) then Some(InvalidRequest)
    else None
  }

  /** The one visible row a reference names. */
  function SourceOf(index: seq<Listed>, archive: string, limit: int, reference: Reference): Outcome<Listed> {
    var visible := Visible(index, limit, reference.instance, reference.local);
    if ShapeError(archive, reference).Some? then Err(ShapeError(archive, reference).value)
    else if |visible| != 1 then Err(SourceRefused)
    else if reference.durable != visible[0].durable || reference.recordDigest != visible[0].recordDigest then Err(SourceRefused)
    else Ok(visible[0])
  }

  /** The shape test; then the scan stops at the first row past the limit, or at the
      second match. */
  method Resolve(matches: seq<Listed>, archive: string, limit: int, reference: Reference) returns (r: Outcome<Listed>)
    requires Ordered(matches)
    ensures var n := UpTo(matches, limit);
      r == if ShapeError(archive, reference).Some? then Err(ShapeError(archive, reference).value)
           else if n != 1 then Err(SourceRefused)
           else if reference.durable != matches[0].durable || reference.recordDigest != matches[0].recordDigest then Err(SourceRefused)
           else Ok(matches[0])
  {
    if reference.archive != archive {
      return Err(ForeignArchive);
    }
    if !SafeToken(reference.instance) || !IsInteger(reference.local, 0) || !IsInteger(reference.durable, 1) {
      return Err(InvalidRequest);
    }
    UpToSplits(matches, limit);
    var seen := 0;
    while seen < |matches| && seen < 2 && matches[seen].durable <= limit
      invariant 0 <= seen <= |matches| && seen <= 2 && seen <= UpTo(matches, limit)
    {
      seen := seen + 1;
    }
    if seen != 1 {
      return Err(SourceRefused);
    }
    if reference.durable != matches[0].durable || reference.recordDigest != matches[0].recordDigest {
      return Err(SourceRefused);
    }
    r := Ok(matches[0]);
  }

  lemma {:induction false} FilterOne(s: seq<Listed>, keep: Listed -> bool, i: nat)
    requires i < |s| && keep(s[i]) && forall j :: 0 <= j < |s| && j != i ==> !keep(s[j])
    ensures Filter(s, keep) == [s[i]]
  {
    if i == 0 {
      FilterNone(s[1..], keep);
    } else {
      FilterOne(s[1..], keep, i - 1);
    }
  }

  lemma {:induction false} FilterNone(s: seq<Listed>, keep: Listed -> bool)
    requires forall j :: 0 <= j < |s| ==> !keep(s[j])
    ensures Filter(s, keep) == []
  {
    if s != [] {
      FilterNone(s[1..], keep);
    }
  }

  lemma {:induction false} FilterTwo(s: seq<Listed>, keep: Listed -> bool, i: nat, j: nat)
    requires i < j < |s| && keep(s[i]) && keep(s[j])
    ensures |Filter(s, keep)| >= 2
  {
    if i == 0 {
      FilterMembers(s[1..], keep, s[j]);
      assert s[1..][j - 1] == s[j];
    } else {
      FilterTwo(s[1..], keep, i - 1, j - 1);
    }
  }

  ghost predicate Alone(index: seq<Listed>, n: nat, i: nat)
    requires i < n <= |index|
  {
    forall j :: 0 <= j < n && j != i ==> !SameIdentity(index[j], index[i].instance, index[i].local)
  }

  /** A row's own reference resolves to it exactly when no other visible row has its
      source identity and its local sequence is one a reference may hold. */
  lemma {:induction false} OwnReferenceResolves(index: seq<Listed>, limit: int, archive: string, i: nat)
    requires Ordered(index) && limit <= MAX_REVISION && i < UpTo(index, limit)
    ensures SourceOf(index, archive, limit, ReferenceTo(archive, index[i])) ==
      if !Referable(index[i]) then Err(InvalidRequest)
      else if Alone(index, UpTo(index, limit), i) then Ok(index[i])
      else Err(SourceRefused)
  {
    var n := UpTo(index, limit);
    UpToSplits(index, limit);
    var s := index[..n];
    var keep := (e: Listed) => SameIdentity(e, index[i].instance, index[i].local);
    if Alone(index, n, i) {
      FilterOne(s, keep, i);
    } else {
      var j :| 0 <= j < n && j != i && SameIdentity(index[j], index[i].instance, index[i].local);
      FilterTwo(s, keep, Min(i, j), Max(i, j));
    }
  }

  /** A reference names row i of the visible ones: it is that row's own, and the row's
      identity is its alone. */
  ghost predicate NamesOne(index: seq<Listed>, archive: string, limit: int, reference: Reference, i: nat) {
    var n := UpTo(index, limit);
    i < n <= |index| && ReferenceShape(reference, archive) && reference == ReferenceTo(archive, index[i]) && Alone(index, n, i)
  }

  /** A reference is accepted exactly when it names a visible row, which it then resolves
      to; otherwise its archive, its shape, then the rows decide the error. */
  lemma {:induction false} ResolveMeans(index: seq<Listed>, archive: string, limit: int, reference: Reference)
    requires Ordered(index)
    ensures var r := SourceOf(index, archive, limit, reference);
      && (forall i :: 0 <= i < |index| && NamesOne(index, archive, limit, reference, i) ==> r == Ok(index[i]))
      && (r.Ok? ==> exists i :: 0 <= i < |index| && NamesOne(index, archive, limit, reference, i) && r == Ok(index[i]))
      && (r == Err(ForeignArchive) <==> reference.archive != archive)
      && (r == Err(InvalidRequest) <==> reference.archive == archive && !ReferenceShape(reference, archive))
  {
    var n := UpTo(index, limit);
    UpToSplits(index, limit);
    var s := index[..n];
    var keep := (e: Listed) => SameIdentity(e, reference.instance, reference.local);
    forall i | 0 <= i < |index| && NamesOne(index, archive, limit, reference, i)
      ensures SourceOf(index, archive, limit, reference) == Ok(index[i])
    {
      FilterOne(s, keep, i);
    }
    if SourceOf(index, archive, limit, reference).Ok? {
      var i := OneVisible(s, keep);
      assert index[i] == s[i] && NamesOne(index, archive, limit, reference, i);
    }
  }

  lemma {:induction false} OneVisible(s: seq<Listed>, keep: Listed -> bool) returns (i: nat)
    requires |Filter(s, keep)| == 1
    ensures i < |s| && Filter(s, keep) == [s[i]] && keep(s[i]) && forall j :: 0 <= j < |s| && j != i ==> !keep(s[j])
  {
    var row := Filter(s, keep)[0];
    FilterMembers(s, keep, row);
    i :| 0 <= i < |s| && s[i] == row;
    forall j | 0 <= j < |s| && j != i ensures !keep(s[j]) {
      if keep(s[j]) {
        FilterTwo(s, keep, Min(i, j), Max(i, j));
      }
    }
  }

  // ---------------------------------------------------------------- pages

  datatype Answered = Answered(entry: Listed, edits: map<Kind, Row>)

  datatype Page = Page(rows: seq<Answered>, next: Option<int>)

  /** The published index and the edits at one moment. */
  datatype Moment = Moment(index: seq<Listed>, log: seq<Row>)

  function Answer(m: Moment, archive: string, prefix: int, revision: int, e: Listed): Outcome<Answered> {
    match SourceOf(m.index, archive, prefix, ReferenceTo(archive, e))
    case Err(error) => Err(error)
    case Ok(_) =>
      match EditsAt(m.log, ReferenceTo(archive, e), revision, |KINDS|)
      case Err(error) => Err(error)
      case Ok(edits) => Ok(Answered(e, edits))
  }

  /** Answers for rows lo..hi in order; the first error wins. */
  function Answers(m: Moment, archive: string, prefix: int, revision: int, lo: nat, hi: nat): Outcome<seq<Answered>>
    requires lo <= hi <= |m.index|
    decreases hi - lo
  {
    if lo == hi then Ok([])
    else
      match Answers(m, archive, prefix, revision, lo, hi - 1)
      case Err(e) => Err(e)
      case Ok(rows) =>
        match Answer(m, archive, prefix, revision, m.index[hi - 1])
        case Err(e) => Err(e)
        case Ok(row) => Ok(rows + [row])
  }

  function LastDurable(index: seq<Listed>): int {
    if index == [] then 0 else index[|index| - 1].durable
  }

  /** The prefix and the revision a query may ask for at this moment. */
  predicate InBounds(m: Moment, prefix: int, revision: int, after: int) {
    && IsInteger(prefix, 0) && prefix <= LastDurable(m.index) && IsInteger(revision, 0) && revision <= |m.log|
    && 0 <= after <= prefix
  }

  function QueryOf(m: Moment, archive: string, prefix: int, revision: int, after: int, size: nat): Outcome<Page> {
    if !InBounds(m, prefix, revision, after) then Err(StaleRevision)
    else
      var start, visible := UpTo(m.index, after), UpTo(m.index, prefix);
      var stop := Max(start, Min(start + size, visible));
      match Answers(m, archive, prefix, revision, start, stop)
      case Err(e) => Err(e)
      case Ok(rows) => Ok(Page(rows, if start < stop < visible then Some(m.index[stop - 1].durable) else None))
  }

  /** Binary search for the first row after the cursor. */
  method FindStart(index: seq<Listed>, after: int) returns (start: nat)
    requires Ordered(index)
    ensures start == UpTo(index, after)
  {
    UpToSplits(index, after);
    ghost var goal := UpTo(index, after);
    var lo, hi := 0, |index|;
    while lo < hi
      invariant 0 <= lo <= goal <= hi <= |index|
    {
      var mid := (lo + hi) / 2;
      if index[mid].durable <= after { lo := mid + 1; } else { hi := mid; }
    }
    start := lo;
  }

  /** The page loop from a row on: at most one row past the page is looked at. */
  method TakePage(index: seq<Listed>, prefix: int, start: nat, size: nat, ghost visible: nat) returns (refs: seq<Listed>, more: bool)
    requires size >= 1 && start <= visible <= |index|
    requires forall i :: 0 <= i < |index| ==> (index[i].durable <= prefix <==> i < visible)
    ensures refs == index[start..Min(start + size, visible)] && more == (start + size < visible)
  {
    refs, more := [], false;
    var i := start;
    while i < |index| && i <= start + size && index[i].durable <= prefix && !more
      invariant start <= i <= visible && i - start <= size && refs == index[start..i]
      invariant more ==> i == start + size && i < visible
      decreases |index| - i, !more
    {
      if |refs| == size {
        more := true;
      } else {
        assert index[start..i + 1] == index[start..i] + [index[i]];
        refs := refs + [index[i]];
        i := i + 1;
      }
    }
  }

  method CollectPage(index: seq<Listed>, prefix: int, after: int, size: nat) returns (refs: seq<Listed>, more: bool)
    requires Ordered(index) && size >= 1 && after <= prefix
    ensures var start, visible := UpTo(index, after), UpTo(index, prefix);
      && start <= visible
      && refs == index[start..Min(start + size, visible)] && more == (start + size < visible)
  {
    UpToSplits(index, prefix);
    Nested(index, after, prefix);
    var start := FindStart(index, after);
    refs, more := TakePage(index, prefix, start, size, UpTo(index, prefix));
  }

  lemma {:induction false} Nested(index: seq<Listed>, d: int, e: int)
    requires Ordered(index) && d <= e
    ensures UpTo(index, d) <= UpTo(index, e)
  {
    UpToSplits(index, d);
    UpToSplits(index, e);
    var n, m := UpTo(index, d), UpTo(index, e);
    if m < |index| {
      assert index[m].durable > e;
    }
  }

  // ---------------------------------------------------------------- one whole page

  /** The published rows of each source identity, in order. */
  ghost predicate SourcesAre(index: seq<Listed>, sources: map<(string, int), seq<Listed>>) {
    forall instance: string, local: int ::
      (if (instance, local) in sources then sources[(instance, local)] else []) == RowsOfIdentity(index, instance, local)
  }

  function RowsOfIdentity(index: seq<Listed>, instance: string, local: int): seq<Listed> {
    Filter(index, (e: Listed) => SameIdentity(e, instance, local))
  }

  lemma {:induction false} FilterOrdered(index: seq<Listed>, keep: Listed -> bool)
    requires Ordered(index)
    ensures Ordered(Filter(index, keep))
  {
    if index != [] {
      var rest := Filter(index[1..], keep);
      FilterOrdered(index[1..], keep);
      forall i | 0 <= i < |rest| ensures rest[i].durable > index[0].durable {
        FilterMembers(index[1..], keep, rest[i]);
      }
    }
  }

  /** The visible rows of an identity are the first of all its rows. */
  lemma {:induction false} VisibleIsPrefix(index: seq<Listed>, limit: int, instance: string, local: int)
    requires Ordered(index)
    ensures var all := RowsOfIdentity(index, instance, local);
      Ordered(all) && Visible(index, limit, instance, local) == all[..UpTo(all, limit)]
  {
    var keep := (e: Listed) => SameIdentity(e, instance, local);
    var n := UpTo(index, limit);
    var a, b := Filter(index[..n], keep), Filter(index[n..], keep);
    UpToSplits(index, limit);
    assert index == index[..n] + index[n..];
    FilterConcat(index[..n], index[n..], keep);
    FilterOrdered(index, keep);
    forall i | 0 <= i < |a| ensures a[i].durable <= limit {
      FilterMembers(index[..n], keep, a[i]);
    }
    forall i | 0 <= i < |b| ensures b[i].durable > limit {
      FilterMembers(index[n..], keep, b[i]);
    }
    UpToIs(a + b, limit, |a|);
    assert (a + b)[..|a|] == a;
  }

  /** The journal and its index, as the store holds them. */
  ghost predicate Holds(c: Codec, archive: string, log: seq<Row>, journal: seq<Byte>, history: map<Key, seq<Entry>>) {
    && Encodes(c, log) && |archive| == 32 && ValidLog(c, archive, log) && Encode(c, log) <= journal
    && history == MemoryOf(c, archive, log).history
  }

  /** One row of a page: its reference resolved among the rows of its identity, and its
      edits found by bisection. */
  method AnswerRow(c: Codec, sources: map<(string, int), seq<Listed>>, history: map<Key, seq<Entry>>, journal: seq<Byte>,
                   archive: string, prefix: int, revision: int, e: Listed, ghost m: Moment) returns (r: Outcome<Answered>)
    requires Ordered(m.index) && SourcesAre(m.index, sources) && Holds(c, archive, m.log, journal, history)
    ensures r == Answer(m, archive, prefix, revision, e)
  {
    var matches := if (e.instance, e.local) in sources then sources[(e.instance, e.local)] else [];
    VisibleIsPrefix(m.index, prefix, e.instance, e.local);
    var source := Resolve(matches, archive, prefix, ReferenceTo(archive, e));
    if source.Err? {
      return Err(source.error);
    }
    var edits := Effective(c, history, journal, ReferenceTo(archive, e), revision, archive, m.log);
    if edits.Err? {
      return Err(edits.error);
    }
    r := Ok(Answered(e, edits.value));
  }

  /** One more row after those answered. */
  method AnswerNext(c: Codec, sources: map<(string, int), seq<Listed>>, history: map<Key, seq<Entry>>, journal: seq<Byte>,
                    archive: string, prefix: int, revision: int, e: Listed, rows: seq<Answered>, ghost start: nat, ghost at: nat, ghost m: Moment)
    returns (r: Outcome<seq<Answered>>)
    requires Ordered(m.index) && SourcesAre(m.index, sources) && Holds(c, archive, m.log, journal, history)
    requires start <= at < |m.index| && m.index[at] == e && Answers(m, archive, prefix, revision, start, at) == Ok(rows)
    ensures r == Answers(m, archive, prefix, revision, start, at + 1)
  {
    var row := AnswerRow(c, sources, history, journal, archive, prefix, revision, e, m);
    AnswersNext(m, archive, prefix, revision, start, at, rows, row);
    r := Appended(rows, row);
  }

  /** The answers of consecutive rows, stopping at the first error. */
  method AnswerRows(c: Codec, sources: map<(string, int), seq<Listed>>, history: map<Key, seq<Entry>>, journal: seq<Byte>,
                    archive: string, prefix: int, revision: int, refs: seq<Listed>, ghost start: nat, ghost m: Moment)
    returns (r: Outcome<seq<Answered>>)
    requires Ordered(m.index) && SourcesAre(m.index, sources) && Holds(c, archive, m.log, journal, history)
    requires start + |refs| <= |m.index| && refs == m.index[start..start + |refs|]
    ensures r == Answers(m, archive, prefix, revision, start, start + |refs|)
  {
    var n;
    r, n := AnswerUntil(c, sources, history, journal, archive, prefix, revision, refs, start, m);
    if r.Err? {
      AnswersFail(m, archive, prefix, revision, start, start + n, start + |refs|);
    }
  }

  method AnswerUntil(c: Codec, sources: map<(string, int), seq<Listed>>, history: map<Key, seq<Entry>>, journal: seq<Byte>,
                     archive: string, prefix: int, revision: int, refs: seq<Listed>, ghost start: nat, ghost m: Moment)
    returns (r: Outcome<seq<Answered>>, n: nat)
    requires Ordered(m.index) && SourcesAre(m.index, sources) && Holds(c, archive, m.log, journal, history)
    requires start + |refs| <= |m.index| && refs == m.index[start..start + |refs|]
    ensures n <= |refs| && r == Answers(m, archive, prefix, revision, start, start + n) && (r.Err? || n == |refs|)
  {
    r, n := Ok([]), 0;
    while n < |refs| && r.Ok?
      invariant n <= |refs| && r == Answers(m, archive, prefix, revision, start, start + n)
    {
      assert refs[n] == m.index[start + n];
      r := AnswerNext(c, sources, history, journal, archive, prefix, revision, refs[n], r.value, start, start + n, m);
      n := n + 1;
    }
  }

  function Appended(rows: seq<Answered>, row: Outcome<Answered>): Outcome<seq<Answered>> {
    match row
    case Err(e) => Err(e)
    case Ok(x) => Ok(rows + [x])
  }

  lemma {:induction false} AnswersNext(m: Moment, archive: string, prefix: int, revision: int, lo: nat, hi: nat, rows: seq<Answered>, row: Outcome<Answered>)
    requires lo <= hi < |m.index| && Answers(m, archive, prefix, revision, lo, hi) == Ok(rows)
    requires Answer(m, archive, prefix, revision, m.index[hi]) == row
    ensures Answers(m, archive, prefix, revision, lo, hi + 1) == Appended(rows, row)
  {}

  lemma {:induction false} AnswersFail(m: Moment, archive: string, prefix: int, revision: int, lo: nat, mid: nat, hi: nat)
    requires lo <= mid <= hi <= |m.index| && Answers(m, archive, prefix, revision, lo, mid).Err?
    ensures Answers(m, archive, prefix, revision, lo, hi) == Answers(m, archive, prefix, revision, lo, mid)
    decreases hi - mid
  {
    if mid < hi {
      AnswersFail(m, archive, prefix, revision, lo, mid, hi - 1);
    }
  }

  lemma {:induction false} QueryShape(m: Moment, archive: string, prefix: int, revision: int, after: int, size: nat,
                                      start: nat, visible: nat, rows: seq<Answered>)
    requires InBounds(m, prefix, revision, after) && size >= 1
    requires start == UpTo(m.index, after) && visible == UpTo(m.index, prefix) && start <= visible
    requires Answers(m, archive, prefix, revision, start, Min(start + size, visible)) == Ok(rows)
    ensures QueryOf(m, archive, prefix, revision, after, size) ==
      Ok(Page(rows, if start + size < visible then Some(m.index[start + size - 1].durable) else None))
  {}

  lemma {:induction false} QueryFails(m: Moment, archive: string, prefix: int, revision: int, after: int, size: nat,
                                      start: nat, visible: nat, error: Error)
    requires InBounds(m, prefix, revision, after) && size >= 1
    requires start == UpTo(m.index, after) && visible == UpTo(m.index, prefix) && start <= visible
    requires Answers(m, archive, prefix, revision, start, Min(start + size, visible)) == Err(error)
    ensures QueryOf(m, archive, prefix, revision, after, size) == Err(error)
  {}

  /** The answer to a request for these rows, with or without a cursor. */
  function PageOf(rows: Outcome<seq<Answered>>, next: Option<int>): Outcome<Page> {
    match rows
    case Err(e) => Err(e)
    case Ok(x) => Ok(Page(x, next))
  }

  lemma {:induction false} QueryIs(m: Moment, archive: string, prefix: int, revision: int, after: int, size: nat,
                                   start: nat, visible: nat, rows: Outcome<seq<Answered>>)
    requires InBounds(m, prefix, revision, after) && size >= 1
    requires start == UpTo(m.index, after) && visible == UpTo(m.index, prefix) && start <= visible
    requires Answers(m, archive, prefix, revision, start, Min(start + size, visible)) == rows
    ensures QueryOf(m, archive, prefix, revision, after, size) ==
      PageOf(rows, if start + size < visible then Some(m.index[start + size - 1].durable) else None)
  {
    if rows.Ok? {
      QueryShape(m, archive, prefix, revision, after, size, start, visible, rows.value);
    } else {
      QueryFails(m, archive, prefix, revision, after, size, start, visible, rows.error);
    }
  }

  lemma {:induction false} AnswersErrors(m: Moment, archive: string, prefix: int, revision: int, lo: nat, hi: nat)
    requires lo <= hi <= |m.index| && Answers(m, archive, prefix, revision, lo, hi).Err?
    ensures Answers(m, archive, prefix, revision, lo, hi).error in {ForeignArchive, InvalidRequest, SourceRefused, StateInvalid}
    decreases hi - lo
  {
    if Answers(m, archive, prefix, revision, lo, hi - 1).Err? {
      AnswersErrors(m, archive, prefix, revision, lo, hi - 1);
    } else {
      EditsErrors(m.log, ReferenceTo(archive, m.index[hi - 1]), revision, |KINDS|);
    }
  }

  lemma {:induction false} EditsErrors(log: seq<Row>, reference: Reference, revision: int, n: nat)
    requires n <= |KINDS|
    ensures EditsAt(log, reference, revision, n).Err? ==> EditsAt(log, reference, revision, n).error == StateInvalid
  {
    if n > 0 {
      EditsErrors(log, reference, revision, n - 1);
    }
  }

  /** The bounds of a query: it is answered as out of date exactly when it asks for a
      prefix or a revision that is not there yet, or for a place outside the prefix. */
  lemma {:induction false} StaleIff(m: Moment, archive: string, prefix: int, revision: int, after: int, size: nat)
    ensures QueryOf(m, archive, prefix, revision, after, size) == Err(StaleRevision) <==>
      || !(0 <= prefix <= MAX_REVISION) || prefix > LastDurable(m.index)
      || !(0 <= revision <= MAX_REVISION) || revision > |m.log|
      || after < 0 || after > prefix
  {
    if InBounds(m, prefix, revision, after) {
      var start, visible := UpTo(m.index, after), UpTo(m.index, prefix);
      var stop := Max(start, Min(start + size, visible));
      if Answers(m, archive, prefix, revision, start, stop).Err? {
        AnswersErrors(m, archive, prefix, revision, start, stop);
      }
    }
  }

  /** The answers of one page, and the cursor after it. */
  method QueryRows(c: Codec, index: seq<Listed>, sources: map<(string, int), seq<Listed>>, history: map<Key, seq<Entry>>, journal: seq<Byte>,
                   archive: string, prefix: int, revision: int, after: int, size: nat, ghost start: nat, ghost visible: nat, ghost m: Moment)
    returns (rows: Outcome<seq<Answered>>, next: Option<int>)
    requires m.index == index && Ordered(index) && SourcesAre(index, sources) && size >= 1 && after <= prefix
    requires Holds(c, archive, m.log, journal, history) && start == UpTo(index, after) && visible == UpTo(index, prefix)
    ensures start <= visible && rows == Answers(m, archive, prefix, revision, start, Min(start + size, visible))
    ensures next == if start + size < visible then Some(m.index[start + size - 1].durable) else None
  {
    var refs, more := CollectPage(index, prefix, after, size);
    assert start + |refs| == Min(start + size, visible);
    assert more ==> refs[|refs| - 1] == index[start + size - 1];
    rows := AnswerRows(c, sources, history, journal, archive, prefix, revision, refs, start, m);
    next := if more then Some(refs[|refs| - 1].durable) else None;
  }

  /** The annotation query: the bounds checks, the page of references, the answer of each,
      and the cursor. It computes the page that the walking results speak of. */
  method Query(c: Codec, index: seq<Listed>, sources: map<(string, int), seq<Listed>>, history: map<Key, seq<Entry>>, journal: seq<Byte>,
               current: int, archive: string, prefix: int, revision: int, after: int, size: nat, ghost m: Moment) returns (r: Outcome<Page>)
    requires m.index == index && Ordered(index) && SourcesAre(index, sources) && size >= 1 && current == |m.log|
    requires Holds(c, archive, m.log, journal, history)
    ensures r == QueryOf(m, archive, prefix, revision, after, size)
  {
    if !IsInteger(prefix, 0) || !IsInteger(revision, 0) || !IsInteger(after, 0)
       || prefix > LastDurable(index) || revision > current || after > prefix
    {
      return Err(StaleRevision);
    }
    ghost var start, visible := UpTo(index, after), UpTo(index, prefix);
    var rows, next := QueryRows(c, index, sources, history, journal, archive, prefix, revision, after, size, start, visible, m);
    QueryIs(m, archive, prefix, revision, after, size, start, visible, rows);
    r := PageOf(rows, next);
  }
}
