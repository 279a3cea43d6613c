/** Append-only files of newline-terminated lines, as bytes. */
module Lines {
  import opened Common

  type Byte = b: int | 0 <= b < 256

  const NEWLINE: Byte := 10

  /** A newline at the end and nowhere else. */
  predicate OneLine(raw: seq<Byte>) {
    raw != [] && raw[|raw| - 1] == NEWLINE && forall i :: 0 <= i < |raw| - 1 ==> raw[i] != NEWLINE
  }

  predicate EndsLine(raw: seq<Byte>) {
    raw != [] && raw[|raw| - 1] == NEWLINE
  }

  /** End of the line starting at pos, at most `stop`. */
  function LineEnd(file: seq<Byte>, pos: nat, stop: nat): (e: nat)
    requires pos <= stop <= |file|
    ensures pos <= e <= stop
    decreases stop - pos
  {
    if pos == stop then pos
    else if file[pos] == NEWLINE then pos + 1
    else LineEnd(file, pos + 1, stop)
  }

  /** What reading one line of at most `limit` bytes at pos returns. */
  function LineAt(file: seq<Byte>, pos: nat, limit: nat): (raw: seq<Byte>)
    requires pos <= |file|
    ensures pos + |raw| <= |file|
  {
    file[pos..LineEnd(file, pos, Min(|file|, pos + limit))]
  }

  lemma {:induction false} LineEndAt(file: seq<Byte>, pos: nat, stop: nat, e: nat)
    requires pos < e <= stop <= |file| && file[e - 1] == NEWLINE
    requires forall k :: pos <= k < e - 1 ==> file[k] != NEWLINE
    ensures LineEnd(file, pos, stop) == e
    decreases e - pos
  {
    if pos < e - 1 {
      LineEndAt(file, pos + 1, stop, e);
    }
  }

  lemma {:induction false} ReadsLine(file: seq<Byte>, pos: nat, raw: seq<Byte>, limit: nat)
    requires OneLine(raw) && |raw| <= limit && pos + |raw| <= |file| && file[pos..pos + |raw|] == raw
    ensures LineAt(file, pos, limit) == raw
  {
    forall k | 0 <= k < |raw| ensures file[pos + k] == raw[k] {
      assert file[pos..pos + |raw|][k] == raw[k];
    }
    forall k | pos <= k < pos + |raw| - 1 ensures file[k] != NEWLINE {
      assert raw[k - pos] != NEWLINE;
    }
    LineEndAt(file, pos, Min(|file|, pos + limit), pos + |raw|);
  }

  lemma {:induction false} LineEndNone(file: seq<Byte>, pos: nat, stop: nat)
    requires pos <= stop <= |file| && forall k :: pos <= k < stop - 1 ==> file[k] != NEWLINE
    ensures LineEnd(file, pos, stop) == stop
    decreases stop - pos
  {
    if pos < stop && file[pos] != NEWLINE {
      LineEndNone(file, pos + 1, stop);
    }
  }

  /** A line longer than the limit is read up to the limit. */
  lemma {:induction false} ReadsLong(file: seq<Byte>, pos: nat, raw: seq<Byte>, limit: nat)
    requires OneLine(raw) && |raw| >= limit && pos + |raw| <= |file| && file[pos..pos + |raw|] == raw
    ensures |LineAt(file, pos, limit)| == limit
  {
    forall k | pos <= k < pos + limit - 1 ensures file[k] != NEWLINE {
      assert file[k] == raw[k - pos];
    }
    LineEndNone(file, pos, pos + limit);
  }

  lemma {:induction false} SliceOfPrefix(file: seq<Byte>, whole: seq<Byte>, pos: nat, part: seq<Byte>)
    requires whole <= file && pos + |part| <= |whole| && whole[pos..][..|part|] == part
    ensures file[pos..pos + |part|] == part
  {
    assert whole[pos..][..|part|] == whole[pos..pos + |part|];
    assert file[pos..pos + |part|] == whole[pos..pos + |part|];
  }
}
