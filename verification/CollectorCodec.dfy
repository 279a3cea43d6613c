/** The assumption about the observations' encoding can be met: an encoding that
    writes one line a record and is undone by decoding. */
module CollectorCodec {
  import opened Common
  import opened Lines
  import opened CollectorQueue
  import opened ArchiveFile

  /** A number in unary, ended by a two. */
  function Unary(n: nat): (s: seq<Byte>)
    ensures |s| == n + 1 && s[n] == 2 && forall i :: 0 <= i < n ==> s[i] == 1
  {
    seq(n, _ => 1) + [2]
  }

  lemma {:induction false} UnaryInjective(a: nat, b: nat, x: seq<Byte>, y: seq<Byte>)
    requires Unary(a) + x == Unary(b) + y
    ensures a == b && x == y
  {
    var left, right := Unary(a) + x, Unary(b) + y;
    assert left[a] == right[a] && left[b] == right[b];
    assert x == left[a + 1..] && y == right[b + 1..];
  }

  function Letters(s: string): (r: seq<Byte>)
    ensures forall i :: 0 <= i < |r| ==> r[i] != NEWLINE
  {
    if s == "" then [] else Unary(s[0] as int) + Letters(s[1..])
  }

  lemma {:induction false} LettersInjective(s: string, t: string, x: seq<Byte>, y: seq<Byte>)
    requires |s| == |t| && Letters(s) + x == Letters(t) + y
    ensures s == t && x == y
  {
    if s == "" {
      assert [] + x == x && [] + y == y;
    } else {
      var a, b := Letters(s[1..]) + x, Letters(t[1..]) + y;
      assert Letters(s) + x == Unary(s[0] as int) + a && Letters(t) + y == Unary(t[0] as int) + b;
      UnaryInjective(s[0] as int, t[0] as int, a, b);
      LettersInjective(s[1..], t[1..], x, y);
      assert s == [s[0]] + s[1..] && t == [t[0]] + t[1..];
    }
  }

  function Natural(n: int): nat {
    if n >= 0 then 2 * n else -2 * n - 1
  }

  function Flags(p: Prepared): nat {
    (if p.loss then 1 else 0) + (if p.contentFree then 2 else 0) + (if p.high then 4 else 0)
  }

  function Name(p: Prepared): seq<Byte> {
    Unary(|p.identity.0|) + (Letters(p.identity.0) + [NEWLINE])
  }

  function Rest(p: Prepared): seq<Byte> {
    Unary(p.hash) + (Unary(p.identity.1) + (Unary(Flags(p)) + Name(p)))
  }

  function Line(r: Record): seq<Byte> {
    Unary(Natural(r.seqNo)) + Rest(r.prepared)
  }

  lemma {:induction false} LineInjective(r: Record, s: Record)
    requires Line(r) == Line(s)
    ensures r == s
  {
    var p, q := r.prepared, s.prepared;
    UnaryInjective(Natural(r.seqNo), Natural(s.seqNo), Rest(p), Rest(q));
    UnaryInjective(p.hash, q.hash, Unary(p.identity.1) + (Unary(Flags(p)) + Name(p)), Unary(q.identity.1) + (Unary(Flags(q)) + Name(q)));
    UnaryInjective(p.identity.1, q.identity.1, Unary(Flags(p)) + Name(p), Unary(Flags(q)) + Name(q));
    UnaryInjective(Flags(p), Flags(q), Name(p), Name(q));
    UnaryInjective(|p.identity.0|, |q.identity.0|, Letters(p.identity.0) + [NEWLINE], Letters(q.identity.0) + [NEWLINE]);
    LettersInjective(p.identity.0, q.identity.0, [NEWLINE], [NEWLINE]);
  }

  lemma {:induction false} LineIsOne(r: Record)
    ensures OneLine(Line(r))
  {}

  /** Unary lines, but for one record that is written as an empty line. */
  function LineBut(one: Record, r: Record): seq<Byte> {
    if r == one then [NEWLINE] else Line(r)
  }

  lemma {:induction false} LineButInjective(one: Record, r: Record, s: Record)
    requires LineBut(one, r) == LineBut(one, s)
    ensures r == s
  {
    LineStarts(r);
    LineStarts(s);
    if r != one && s != one {
      LineInjective(r, s);
    }
  }

  lemma {:induction false} LineStarts(r: Record)
    ensures Line(r)[0] != NEWLINE
  {
    assert Line(r)[0] == Unary(Natural(r.seqNo))[0];
  }

  ghost function CodecBut(one: Record): Codec {
    Codec(r => LineBut(one, r),
          raw => if exists r :: LineBut(one, r) == raw then (var r :| LineBut(one, r) == raw; Some(r)) else None,
          _ => [NEWLINE])
  }

  /** There is an encoding as the recovery theorems assume it, and one in which a given
      record is short. */
  lemma {:induction false} SoundCodecExists(one: Record)
    ensures Sound(CodecBut(one)) && |CodecBut(one).enc(one)| == 1
  {
    var c := CodecBut(one);
    forall r: Record ensures Readable(c, r) {
      LineIsOne(r);
      var s := c.dec(LineBut(one, r)).value;
      LineButInjective(one, r, s);
    }
  }
}
