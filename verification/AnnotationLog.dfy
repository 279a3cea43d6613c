/** The published prefix of the annotation journal: reading it back line by line,
    and the index it determines (archive/annotations.py, prepare, _validate_row
    and _remember). Bytes are real bytes; the JSON encoding is a parameter. */
module AnnotationLog {
  import opened Common
  import opened AnnotationRows
  import opened Lines

  datatype Codec = Codec(enc: Row -> seq<Byte>, dec: seq<Byte> -> Option<Row>)

  /** Decoding undoes encoding for this row, and it is one line as long as the
      canonical encoding. */
  ghost predicate LineOf(c: Codec, r: Row)
    requires WellShaped(r)
  {
    c.dec(c.enc(r)) == Some(r) && OneLine(c.enc(r)) && |c.enc(r)| == JsonBytes(RowJson(r)) + 1
  }

  /** What is assumed of the encoding: it is right about these rows. Digests carry what
      they hash, so no encoding of fixed length could be right about every row there is. */
  ghost predicate Encodes(c: Codec, log: seq<Row>) {
    forall i :: 0 <= i < |log| && WellShaped(log[i]) ==> LineOf(c, log[i])
  }

  // ---------------------------------------------------------------- memory

  type Key = (string, int, Kind)

  /** Revision, place and digest of one row; the row itself stays on disk. */
  datatype Entry = Entry(revision: int, offset: nat, length: nat, digest: Digest)

  datatype Memory = Memory(archive: string, history: map<Key, seq<Entry>>, operations: map<string, (Digest, int)>,
                           revision: int, chain: Digest)

  function Fresh(archive: string): Memory {
    Memory(archive, map[], map[], 0, Zero)
  }

  function KeyOf(r: Row): Key {
    (r.body.semantic.reference.instance, r.body.semantic.reference.local, r.body.semantic.kind)
  }

  function HistoryAt(history: map<Key, seq<Entry>>, key: Key): seq<Entry> {
    if key in history then history[key] else []
  }

  function Remember(m: Memory, r: Row, offset: nat, length: nat): Memory {
    var entry := Entry(r.body.revision, offset, length, OfRow(r));
    Memory(m.archive,
           m.history[KeyOf(r) := HistoryAt(m.history, KeyOf(r)) + [entry]],
           m.operations[r.body.operation := (r.body.semanticHash, r.body.revision)],
           r.body.revision, r.chain)
  }

  predicate ValidRow(m: Memory, r: Row) {
    && r.body.archive == m.archive && IsInteger(r.body.revision, 1) && r.body.revision == m.revision + 1
    && r.body.previous == m.chain
    && SafeToken(r.body.operation) && r.body.operation !in m.operations
    && r.body.semanticHash == OfSemantic(r.body.semantic)
    && r.chain == OfBody(r.body)
    && r.body.semantic.expected == m.revision && IsInteger(r.body.semantic.expected, 0)
    && AcceptsStored(r.body.semantic.kind, r.body.semantic.value)
    && ReferenceShape(r.body.semantic.reference, m.archive)
  }

  // ---------------------------------------------------------------- reading lines

  function ReadLine(file: seq<Byte>, pos: nat): (raw: seq<Byte>)
    requires pos <= |file|
    ensures pos + |raw| <= |file|
  {
    LineAt(file, pos, LINE_BYTES + 1)
  }

  /** The row read at pos, when everything recovery demands of it holds. */
  function RowAt(c: Codec, file: seq<Byte>, pos: nat, end: nat, m: Memory): Option<Row>
    requires pos <= |file|
  {
    var raw := ReadLine(file, pos);
    if |raw| > LINE_BYTES || !EndsLine(raw) || pos + |raw| > end then None
    else
      match c.dec(raw)
      case None => None
      case Some(row) => if ValidRow(m, row) then Some(row) else None
  }

  /** Stream the file from pos up to end. */
  function Replay(c: Codec, file: seq<Byte>, pos: nat, end: nat, m: Memory): Option<Memory>
    requires pos <= |file|
    decreases end - pos
  {
    if pos >= end then Some(m)
    else
      var raw := ReadLine(file, pos);
      match RowAt(c, file, pos, end, m)
      case None => None
      case Some(row) => Replay(c, file, pos + |raw|, end, Remember(m, row, pos, |raw|))
  }

  // ---------------------------------------------------------------- logs

  function Encode(c: Codec, log: seq<Row>): seq<Byte> {
    if log == [] then [] else Encode(c, log[..|log| - 1]) + c.enc(log[|log| - 1])
  }

  function MemoryOf(c: Codec, archive: string, log: seq<Row>): Memory {
    if log == [] then Fresh(archive)
    else
      var front, row := log[..|log| - 1], log[|log| - 1];
      Remember(MemoryOf(c, archive, front), row, |Encode(c, front)|, |c.enc(row)|)
  }

  /** Each row is one the store could have written after the rows before it. */
  predicate ValidLog(c: Codec, archive: string, log: seq<Row>) {
    if log == [] then true
    else ValidLog(c, archive, log[..|log| - 1]) && ValidRow(MemoryOf(c, archive, log[..|log| - 1]), log[|log| - 1])
  }

  function ChainOf(log: seq<Row>): Digest {
    if log == [] then Zero else log[|log| - 1].chain
  }

  lemma {:induction false} Extend(c: Codec, archive: string, log: seq<Row>, r: Row)
    ensures Encode(c, log + [r]) == Encode(c, log) + c.enc(r)
    ensures MemoryOf(c, archive, log + [r]) == Remember(MemoryOf(c, archive, log), r, |Encode(c, log)|, |c.enc(r)|)
    ensures ValidLog(c, archive, log + [r]) <==> ValidLog(c, archive, log) && ValidRow(MemoryOf(c, archive, log), r)
  {
    assert (log + [r])[..|log|] == log;
  }

  lemma {:induction false} PrefixValid(c: Codec, archive: string, log: seq<Row>, n: nat)
    requires n <= |log| && ValidLog(c, archive, log)
    ensures ValidLog(c, archive, log[..n])
    ensures n < |log| ==> ValidRow(MemoryOf(c, archive, log[..n]), log[n])
  {
    if n == |log| {
      assert log[..n] == log;
    } else {
      var front := log[..|log| - 1];
      PrefixValid(c, archive, front, n);
      assert front[..n] == log[..n];
    }
  }

  lemma {:induction false} EncodePrefix(c: Codec, log: seq<Row>, n: nat)
    requires n <= |log|
    ensures Encode(c, log[..n]) <= Encode(c, log)
    ensures n < |log| ==> |Encode(c, log[..n])| + |c.enc(log[n])| <= |Encode(c, log)|
    ensures n < |log| ==> Encode(c, log)[|Encode(c, log[..n])|..][..|c.enc(log[n])|] == c.enc(log[n])
  {
    if n == |log| {
      assert log[..n] == log;
    } else {
      var front := log[..|log| - 1];
      EncodePrefix(c, front, n);
      assert front[..n] == log[..n];
    }
  }

  /** Numbers, chain and archive of the index of a valid log. */
  lemma {:induction false} LogFacts(c: Codec, archive: string, log: seq<Row>)
    requires ValidLog(c, archive, log)
    ensures var m := MemoryOf(c, archive, log);
      m.revision == |log| && m.chain == ChainOf(log) && m.archive == archive
    ensures forall i :: 0 <= i < |log| ==> log[i].body.revision == i + 1 && log[i].body.semantic.expected == i
  {
    if log != [] {
      var front := log[..|log| - 1];
      LogFacts(c, archive, front);
      assert forall i :: 0 <= i < |front| ==> front[i] == log[i];
    }
  }

  /** The operation table holds exactly the rows' operations, each with its hash and
      revision. */
  ghost predicate Indexes(ops: map<string, (Digest, int)>, log: seq<Row>) {
    && (forall i :: 0 <= i < |log| ==> Recorded(ops, log[i], i))
    && (forall op :: op in ops ==> Owned(log, op, ops[op].1))
  }

  predicate Recorded(ops: map<string, (Digest, int)>, r: Row, i: nat) {
    r.body.operation in ops && ops[r.body.operation] == (r.body.semanticHash, i + 1)
  }

  predicate Owned(log: seq<Row>, op: string, revision: int) {
    1 <= revision <= |log| && log[revision - 1].body.operation == op
  }

  lemma {:induction false} IndexesStep(ops: map<string, (Digest, int)>, log: seq<Row>, r: Row)
    requires Indexes(ops, log) && r.body.operation !in ops && r.body.revision == |log| + 1
    ensures Indexes(ops[r.body.operation := (r.body.semanticHash, r.body.revision)], log + [r])
  {
    var next, grown := ops[r.body.operation := (r.body.semanticHash, r.body.revision)], log + [r];
    forall i | 0 <= i < |grown| ensures Recorded(next, grown[i], i) {
      if i < |log| {
        assert Recorded(ops, log[i], i);
      }
    }
    forall op | op in next ensures Owned(grown, op, next[op].1) {
      if op != r.body.operation {
        assert Owned(log, op, ops[op].1);
      }
    }
  }

  lemma {:induction false} OperationFacts(c: Codec, archive: string, log: seq<Row>)
    requires ValidLog(c, archive, log)
    ensures Indexes(MemoryOf(c, archive, log).operations, log)
  {
    if log != [] {
      var front, row := log[..|log| - 1], log[|log| - 1];
      LogFacts(c, archive, front);
      OperationFacts(c, archive, front);
      IndexesStep(MemoryOf(c, archive, front).operations, front, row);
      assert log == front + [row];
    }
  }

  /** What is demanded of row i, from the rows alone: its place, its one operation, that
      its hashes are of what it holds, that it follows the row before it, and that its
      value and its reference are ones the store accepts. */
  ghost predicate Honest(archive: string, log: seq<Row>, i: nat)
    requires i < |log|
  {
    var r := log[i].body;
    && r.archive == archive && r.revision == i + 1 && IsInteger(i + 1, 1) && r.semantic.expected == i
    && SafeToken(r.operation) && (forall j :: 0 <= j < i ==> log[j].body.operation != r.operation)
    && r.semanticHash == OfSemantic(r.semantic) && log[i].chain == OfBody(r)
    && r.previous == (if i == 0 then Zero else log[i - 1].chain)
    && AcceptsStored(r.semantic.kind, r.semantic.value) && ReferenceShape(r.semantic.reference, archive)
  }

  lemma {:induction false} HonestIn(archive: string, front: seq<Row>, log: seq<Row>, i: nat)
    requires front <= log && i < |front|
    ensures Honest(archive, front, i) <==> Honest(archive, log, i)
  {
    assert front[i] == log[i] && forall j :: 0 <= j < i ==> front[j] == log[j];
  }

  lemma {:induction false} LastIsHonest(c: Codec, archive: string, front: seq<Row>, r: Row)
    requires ValidLog(c, archive, front)
    ensures ValidRow(MemoryOf(c, archive, front), r) <==> Honest(archive, front + [r], |front|)
  {
    var m, log := MemoryOf(c, archive, front), front + [r];
    LogFacts(c, archive, front);
    OperationFacts(c, archive, front);
    assert log[|front|] == r && forall j :: 0 <= j < |front| ==> log[j] == front[j];
    if r.body.operation in m.operations {
      assert Owned(front, r.body.operation, m.operations[r.body.operation].1);
    }
    if j :| 0 <= j < |front| && log[j].body.operation == r.body.operation {
      assert Recorded(m.operations, front[j], j);
    }
  }

  /** A log is accepted row by row, against the index kept so far, exactly when every row
      of it is honest. */
  lemma {:induction false} ValidIffHonest(c: Codec, archive: string, log: seq<Row>)
    ensures ValidLog(c, archive, log) <==> forall i :: 0 <= i < |log| ==> Honest(archive, log, i)
  {
    if log != [] {
      var front, r := log[..|log| - 1], log[|log| - 1];
      assert log == front + [r];
      ValidIffHonest(c, archive, front);
      forall i | 0 <= i < |front| ensures Honest(archive, front, i) <==> Honest(archive, log, i) {
        HonestIn(archive, front, log, i);
      }
      if ValidLog(c, archive, front) {
        LastIsHonest(c, archive, front, r);
      }
    }
  }

  /** Each operation identifier owns at most one row. */
  lemma {:induction false} OperationsDistinct(c: Codec, archive: string, log: seq<Row>, i: nat, j: nat)
    requires ValidLog(c, archive, log) && i < |log| && j < |log|
    requires log[i].body.operation == log[j].body.operation
    ensures i == j
  {
    OperationFacts(c, archive, log);
    var ops := MemoryOf(c, archive, log).operations;
    assert Recorded(ops, log[i], i) && Recorded(ops, log[j], j);
  }

  lemma {:induction false} ValidRowShape(m: Memory, r: Row)
    requires ValidRow(m, r) && |m.archive| == 32
    ensures WellShaped(r)
  {}

  lemma {:induction false} RowsShape(c: Codec, archive: string, log: seq<Row>, i: nat)
    requires ValidLog(c, archive, log) && |archive| == 32 && i < |log|
    ensures WellShaped(log[i])
  {
    PrefixValid(c, archive, log, i);
    PrefixValid(c, archive, log, i + 1);
    LogFacts(c, archive, log[..i]);
    ValidRowShape(MemoryOf(c, archive, log[..i]), log[i]);
  }

  // ---------------------------------------------------------------- recovery reads the log back

  lemma {:induction false} RowAtReads(c: Codec, file: seq<Byte>, pos: nat, end: nat, m: Memory, r: Row)
    requires pos <= |file| && ReadLine(file, pos) == c.enc(r) && OneLine(c.enc(r)) && |c.enc(r)| <= LINE_BYTES
    requires c.dec(c.enc(r)) == Some(r) && ValidRow(m, r) && pos + |c.enc(r)| <= end
    ensures RowAt(c, file, pos, end, m) == Some(r)
  {}

  lemma {:induction false} ReadsRow(c: Codec, archive: string, file: seq<Byte>, log: seq<Row>, n: nat)
    requires Encodes(c, log) && |archive| == 32 && ValidLog(c, archive, log) && Encode(c, log) <= file && n < |log|
    ensures var pos := |Encode(c, log[..n])|;
      && pos <= |file| && pos < |Encode(c, log)| && ReadLine(file, pos) == c.enc(log[n])
      && RowAt(c, file, pos, |Encode(c, log)|, MemoryOf(c, archive, log[..n])) == Some(log[n])
  {
    var pos, raw := |Encode(c, log[..n])|, c.enc(log[n]);
    assert pos + |raw| <= |Encode(c, log)| && file[pos..pos + |raw|] == raw by {
      EncodePrefix(c, log, n);
      SliceOfPrefix(file, Encode(c, log), pos, raw);
    }
    assert WellShaped(log[n]) by {
      RowsShape(c, archive, log, n);
    }
    assert LineOf(c, log[n]);
    RowFitsLine(log[n]);
    ReadsLine(file, pos, raw, LINE_BYTES + 1);
    var m := MemoryOf(c, archive, log[..n]);
    assert ValidRow(m, log[n]) by {
      PrefixValid(c, archive, log, n);
    }
    RowAtReads(c, file, pos, |Encode(c, log)|, m, log[n]);
  }

  lemma {:induction false} ReplayStep(c: Codec, file: seq<Byte>, pos: nat, end: nat, m: Memory, r: Row, length: nat, last: Option<Memory>)
    requires pos < end && pos + length <= |file| && RowAt(c, file, pos, end, m) == Some(r) && |ReadLine(file, pos)| == length
    requires Replay(c, file, pos + length, end, Remember(m, r, pos, length)) == last
    ensures Replay(c, file, pos, end, m) == last
  {}

  lemma {:induction false} ReplayStops(c: Codec, file: seq<Byte>, pos: nat, end: nat, m: Memory)
    requires pos < end && pos <= |file| && RowAt(c, file, pos, end, m).None?
    ensures Replay(c, file, pos, end, m).None?
  {}

  lemma {:induction false} ExtendAt(c: Codec, archive: string, log: seq<Row>, n: nat)
    requires n < |log|
    ensures |Encode(c, log[..n + 1])| == |Encode(c, log[..n])| + |c.enc(log[n])|
    ensures MemoryOf(c, archive, log[..n + 1]) ==
      Remember(MemoryOf(c, archive, log[..n]), log[n], |Encode(c, log[..n])|, |c.enc(log[n])|)
  {
    assert log[..n + 1] == log[..n] + [log[n]];
    Extend(c, archive, log[..n], log[n]);
  }

  ghost predicate ReadsFrom(c: Codec, archive: string, file: seq<Byte>, log: seq<Row>, n: nat)
    requires n <= |log|
  {
    Leads(c, file, |Encode(c, log[..n])|, |Encode(c, log)|, MemoryOf(c, archive, log[..n]), MemoryOf(c, archive, log))
  }

  lemma {:induction false} ReadsOneMore(c: Codec, archive: string, file: seq<Byte>, log: seq<Row>, n: nat)
    requires Encodes(c, log) && |archive| == 32 && ValidLog(c, archive, log) && Encode(c, log) <= file && n < |log|
    requires ReadsFrom(c, archive, file, log, n + 1)
    ensures ReadsFrom(c, archive, file, log, n)
  {
    ReadsRow(c, archive, file, log, n);
    GlueRead(c, archive, file, log, n);
  }

  lemma {:induction false} GlueRead(c: Codec, archive: string, file: seq<Byte>, log: seq<Row>, n: nat)
    requires n < |log| && ReadsFrom(c, archive, file, log, n + 1)
    requires |Encode(c, log[..n])| <= |file| && |Encode(c, log[..n])| < |Encode(c, log)|
    requires ReadLine(file, |Encode(c, log[..n])|) == c.enc(log[n])
    requires RowAt(c, file, |Encode(c, log[..n])|, |Encode(c, log)|, MemoryOf(c, archive, log[..n])) == Some(log[n])
    ensures ReadsFrom(c, archive, file, log, n)
  {
    SameRead(c, archive, file, log, n);
    GlueAt(c, file, |Encode(c, log[..n])|, |Encode(c, log)|, MemoryOf(c, archive, log[..n]), log[n], MemoryOf(c, archive, log));
  }

  lemma {:induction false} GlueAt(c: Codec, file: seq<Byte>, pos: nat, end: nat, m: Memory, r: Row, last: Memory)
    requires pos < end && pos + |c.enc(r)| <= |file| && ReadLine(file, pos) == c.enc(r) && RowAt(c, file, pos, end, m) == Some(r)
    requires Leads(c, file, pos + |c.enc(r)|, end, Remember(m, r, pos, |c.enc(r)|), last)
    ensures Leads(c, file, pos, end, m, last)
  {
    StepsTo(c, file, pos, end, m, r, |c.enc(r)|, last);
  }

  ghost predicate Leads(c: Codec, file: seq<Byte>, pos: nat, end: nat, m: Memory, last: Memory) {
    pos <= |file| && Replay(c, file, pos, end, m) == Some(last)
  }

  lemma {:induction false} StepsTo(c: Codec, file: seq<Byte>, pos: nat, end: nat, m: Memory, r: Row, length: nat, last: Memory)
    requires pos < end && pos + length <= |file| && RowAt(c, file, pos, end, m) == Some(r) && |ReadLine(file, pos)| == length
    requires Leads(c, file, pos + length, end, Remember(m, r, pos, length), last)
    ensures Leads(c, file, pos, end, m, last)
  {
    ReplayStep(c, file, pos, end, m, r, length, Some(last));
  }

  lemma {:induction false} SameRead(c: Codec, archive: string, file: seq<Byte>, log: seq<Row>, n: nat)
    requires n < |log| && ReadsFrom(c, archive, file, log, n + 1)
    ensures var pos, m, length := |Encode(c, log[..n])|, MemoryOf(c, archive, log[..n]), |c.enc(log[n])|;
      pos + length <= |file|
      && Leads(c, file, pos + length, |Encode(c, log)|, Remember(m, log[n], pos, length), MemoryOf(c, archive, log))
  {
    ExtendAt(c, archive, log, n);
  }

  /** Whatever follows the published bytes, recovery reads exactly the log. */
  lemma {:induction false} ReplayReadsLog(c: Codec, archive: string, file: seq<Byte>, log: seq<Row>, n: nat)
    requires Encodes(c, log) && |archive| == 32 && ValidLog(c, archive, log) && Encode(c, log) <= file && n <= |log|
    ensures ReadsFrom(c, archive, file, log, n)
    decreases |log| - n
  {
    if n == |log| {
      assert log[..n] == log;
    } else {
      ReplayReadsLog(c, archive, file, log, n + 1);
      ReadsOneMore(c, archive, file, log, n);
    }
  }

  /** Conversely, whatever recovery accepts is the index of some valid log. */
  lemma {:induction false} ReplayIsValid(c: Codec, file: seq<Byte>, pos: nat, end: nat, archive: string, m: Memory)
    returns (rows: seq<Row>)
    requires pos <= |file| && Replay(c, file, pos, end, m).Some?
    ensures Chained(m, rows, Replay(c, file, pos, end, m).value)
    decreases end - pos
  {
    if pos >= end {
      rows := [];
    } else {
      var raw := ReadLine(file, pos);
      var row := RowAt(c, file, pos, end, m).value;
      var rest := ReplayIsValid(c, file, pos + |raw|, end, archive, Remember(m, row, pos, |raw|));
      rows := [row] + rest;
      ChainedCons(m, row, pos, |raw|, rest, Replay(c, file, pos, end, m).value);
    }
  }

  function LastChain(rows: seq<Row>, before: Digest): Digest {
    if rows == [] then before else rows[|rows| - 1].chain
  }

  predicate Links(r: Row, previous: Digest) {
    r.body.previous == previous && r.chain == OfBody(r.body)
  }

  /** Each row carries the chain value before it, and its own is of its whole body. */
  predicate Linked(rows: seq<Row>, before: Digest) {
    rows == [] || (Linked(rows[..|rows| - 1], before) && Links(rows[|rows| - 1], LastChain(rows[..|rows| - 1], before)))
  }

  /** The last chain value and the number of rows determine all of them: no row can be
      changed, dropped or reordered without changing it. */
  lemma {:induction false} LinkedDetermines(a: seq<Row>, b: seq<Row>, before: Digest)
    requires Linked(a, before) && Linked(b, before) && |a| == |b| && LastChain(a, before) == LastChain(b, before)
    ensures a == b
  {
    if a != [] {
      var n := |a| - 1;
      assert a[n].body == b[n].body;
      LinkedDetermines(a[..n], b[..n], before);
      assert a == a[..n] + [a[n]] && b == b[..n] + [b[n]];
    }
  }

  lemma {:induction false} ValidIsLinked(c: Codec, archive: string, log: seq<Row>)
    requires ValidLog(c, archive, log)
    ensures Linked(log, Zero) && LastChain(log, Zero) == ChainOf(log)
  {
    if log != [] {
      ValidIsLinked(c, archive, log[..|log| - 1]);
      LogFacts(c, archive, log[..|log| - 1]);
    }
  }

  /** So a valid log is determined by its length and its chain value. */
  lemma {:induction false} ChainDetermines(c: Codec, archive: string, log: seq<Row>, other: seq<Row>)
    requires ValidLog(c, archive, log) && ValidLog(c, archive, other) && |log| == |other| && ChainOf(log) == ChainOf(other)
    ensures log == other
  {
    ValidIsLinked(c, archive, log);
    ValidIsLinked(c, archive, other);
    LinkedDetermines(log, other, Zero);
  }

  lemma {:induction false} LinkedCons(r: Row, rest: seq<Row>, before: Digest)
    requires Links(r, before) && Linked(rest, r.chain)
    ensures Linked([r] + rest, before) && LastChain([r] + rest, before) == LastChain(rest, r.chain)
    decreases |rest|
  {
    var all := [r] + rest;
    if rest == [] {
      assert all[..0] == [];
    } else {
      LinkedCons(r, rest[..|rest| - 1], before);
      assert all[..|all| - 1] == [r] + rest[..|rest| - 1];
    }
  }

  lemma {:induction false} ChainedIsLinked(m: Memory, rows: seq<Row>, last: Memory)
    requires Chained(m, rows, last)
    ensures Linked(rows, m.chain) && LastChain(rows, m.chain) == last.chain && last.revision == m.revision + |rows|
    decreases |rows|
  {
    if rows != [] {
      var offset: nat, length: nat :| Chained(Remember(m, rows[0], offset, length), rows[1..], last);
      ChainedIsLinked(Remember(m, rows[0], offset, length), rows[1..], last);
      LinkedCons(rows[0], rows[1..], m.chain);
      assert rows == [rows[0]] + rows[1..];
    }
  }

  /** Rows that lead from one index to another, each valid where it stands. */
  ghost predicate Chained(m: Memory, rows: seq<Row>, last: Memory)
    decreases |rows|
  {
    if rows == [] then last == m
    else ValidRow(m, rows[0]) && exists offset: nat, length: nat :: Chained(Remember(m, rows[0], offset, length), rows[1..], last)
  }

  lemma {:induction false} ChainedCons(m: Memory, r: Row, offset: nat, length: nat, rest: seq<Row>, last: Memory)
    requires ValidRow(m, r) && Chained(Remember(m, r, offset, length), rest, last)
    ensures Chained(m, [r] + rest, last)
  {
    assert ([r] + rest)[1..] == rest;
  }

  lemma {:induction false} ChainedFacts(m: Memory, rows: seq<Row>, last: Memory, i: nat, j: nat)
    requires Chained(m, rows, last) && i < |rows|
    ensures last.revision == m.revision + |rows| && rows[i].body.revision == m.revision + i + 1
    ensures rows[i].body.operation !in m.operations
    ensures i < j < |rows| ==> rows[i].body.operation != rows[j].body.operation
    decreases |rows|
  {
    var offset: nat, length: nat :| Chained(Remember(m, rows[0], offset, length), rows[1..], last);
    var next := Remember(m, rows[0], offset, length);
    if |rows| > 1 {
      ChainedFacts(next, rows[1..], last, if i > 0 then i - 1 else if 0 < j < |rows| then j - 1 else 0, if j > 0 then j - 1 else 0);
    }
  }
}
