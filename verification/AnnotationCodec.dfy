/** The assumption about the journal's encoding excludes no journal: whatever rows a
    store has written, some encoding is right about all of them; and a run from an
    empty disk does publish rows under it. */
module AnnotationCodec {
  import opened Common
  import opened AnnotationRows
  import opened AnnotationLog
  import opened Lines
  import opened AnnotationStore
  import opened AnnotationRuns

  /** The last k decimal digits of n, as bytes below ten. */
  function Code(n: nat, k: nat): (s: seq<Byte>)
    ensures |s| == k && forall i :: 0 <= i < k ==> s[i] < 10
  {
    if k == 0 then [] else Code(n / 10, k - 1) + [n % 10]
  }

  lemma {:induction false} CodeInjective(a: nat, b: nat, k: nat)
    requires a < Pow10(k) && b < Pow10(k) && Code(a, k) == Code(b, k)
    ensures a == b
  {
    if k > 0 {
      assert Code(a, k)[..k - 1] == Code(a / 10, k - 1) && Code(b, k)[..k - 1] == Code(b / 10, k - 1);
      assert Code(a, k)[k - 1] == a % 10 && Code(b, k)[k - 1] == b % 10;
      CodeInjective(a / 10, b / 10, k - 1);
    }
  }

  lemma {:induction false} HeadIsLong(archive: string, rest: Fields)
    ensures JsonBytes(JObject(With(KArchiveId, JStr(archive), With(KChain, JHash, rest)))) >= 19
  {
    assert FieldBytes(With(KChain, JHash, rest)) >= 0;
  }

  lemma {:induction false} RowIsLong(r: Row)
    requires WellShaped(r)
    ensures JsonBytes(RowJson(r)) >= 19
  {
    HeadIsLong(r.body.archive, With(KOperationId, JStr(r.body.operation), With(KPrevious, JHash, With(KRevision, JInt(r.body.revision),
      With(KSemantic, SemanticJson(r.body.semantic), With(KSemanticHash, JHash, With(KVersion, JStr(VERSION), End)))))));
  }

  /** A line of the canonical length that begins with the row's revision. */
  function LineFor(r: Row): (raw: seq<Byte>)
    requires WellShaped(r)
    ensures OneLine(raw) && |raw| == JsonBytes(RowJson(r)) + 1
    ensures 19 <= |raw| && raw[..19] == Code(r.body.revision, 19)
  {
    RowIsLong(r);
    var code := Code(r.body.revision, 19);
    var pad: seq<Byte> := seq(JsonBytes(RowJson(r)) - 19, _ => 0);
    assert (code + pad + [NEWLINE])[..19] == code;
    code + pad + [NEWLINE]
  }

  function RowOfLine(log: seq<Row>, raw: seq<Byte>): Option<Row> {
    if log == [] then None
    else if WellShaped(log[|log| - 1]) && LineFor(log[|log| - 1]) == raw then Some(log[|log| - 1])
    else RowOfLine(log[..|log| - 1], raw)
  }

  function CodecFor(log: seq<Row>): Codec {
    Codec(r => if WellShaped(r) then LineFor(r) else [NEWLINE], raw => RowOfLine(log, raw))
  }

  ghost predicate Numbered(log: seq<Row>) {
    |log| <= MAX_REVISION && forall i :: 0 <= i < |log| ==> log[i].body.revision == i + 1
  }

  lemma {:induction false} SmallCode(n: nat)
    requires n <= MAX_REVISION
    ensures n < Pow10(19)
  {
    assert Pow10(6) == 1_000_000;
    assert Pow10(12) == 1_000_000_000_000;
    assert Pow10(18) == 1_000_000_000_000_000_000;
  }

  lemma {:induction false} FindsRow(log: seq<Row>, i: nat)
    requires Numbered(log) && i < |log| && WellShaped(log[i])
    ensures RowOfLine(log, LineFor(log[i])) == Some(log[i])
    decreases |log|
  {
    var last := log[|log| - 1];
    if i < |log| - 1 {
      if WellShaped(last) && LineFor(last) == LineFor(log[i]) {
        SmallCode(last.body.revision);
        SmallCode(log[i].body.revision);
        CodeInjective(last.body.revision, log[i].body.revision, 19);
        assert false;
      }
      FindsRow(log[..|log| - 1], i);
    }
  }

  /** Some encoding is right about any rows numbered as a journal numbers them. */
  lemma {:induction false} SomeCodecEncodes(log: seq<Row>)
    requires Numbered(log)
    ensures Encodes(CodecFor(log), log)
  {
    forall i | 0 <= i < |log| && WellShaped(log[i]) ensures LineOf(CodecFor(log), log[i]) {
      FindsRow(log, i);
    }
  }

  /** Whether rows form a journal does not depend on how they are encoded. */
  lemma {:induction false} SameJournal(c: Codec, d: Codec, archive: string, log: seq<Row>)
    ensures ValidLog(c, archive, log) <==> ValidLog(d, archive, log)
    ensures var m, n := MemoryOf(c, archive, log), MemoryOf(d, archive, log);
      m.archive == n.archive && m.operations == n.operations && m.revision == n.revision && m.chain == n.chain
  {
    if log != [] {
      SameJournal(c, d, archive, log[..|log| - 1]);
    }
  }

  /** The assumption excludes no journal: the rows of any journal form one under an
      encoding that is right about all of them. */
  lemma {:induction false} EveryJournalIsEncoded(c: Codec, archive: string, log: seq<Row>)
    requires ValidLog(c, archive, log) && |log| <= MAX_REVISION
    ensures Encodes(CodecFor(log), log) && ValidLog(CodecFor(log), archive, log)
  {
    LogFacts(c, archive, log);
    SomeCodecEncodes(log);
    SameJournal(c, CodecFor(log), archive, log);
  }

  // ---------------------------------------------------------------- a run that publishes

  const ArchiveId := "0123456789abcdef0123456789abcdef"
  const FirstEdit := Edit(true, false, Some(Confirm), Some(map[]), Some(0), "op", Some(Reference(ArchiveId, "plugin", 0, 1, 7)))
  const FirstSemantic := Semantic(Reference(ArchiveId, "plugin", 0, 1, 7), Confirm, map[], 0)
  const FirstRow := MakeRow(ArchiveId, 1, "op", FirstSemantic, Zero)
  const FirstStart := Start(ArchiveId, StartIo(3, true, true))

  function FirstWrite(c: Codec): WriteIo {
    WriteIo([|c.enc(FirstRow)|], true, Published)
  }

  function FirstRun(c: Codec): seq<Event> {
    [FirstStart, Edited(FirstEdit, Resolved(Some("a")), FirstWrite(c))]
  }

  lemma {:induction false} Started(c: Codec)
    ensures Enabled(Nothing, FirstStart)
    ensures Next(c, Nothing, FirstStart) == World(InitialDisk(ArchiveId, 3), Some(Store(Fresh(ArchiveId), 0, false)), [], [])
  {
    assert IsArchiveId(ArchiveId);
    var d := InitialDisk(ArchiveId, 3);
    assert Recover(c, d) == Some(Fresh(ArchiveId));
    assert d.journal.value[..0] == [];
  }

  lemma {:induction false} FirstDecision()
    ensures Decide(Store(Fresh(ArchiveId), 0, false), InitialDisk(ArchiveId, 3), FirstEdit, Resolved(Some("a"))) == Write(FirstRow)
  {
    assert SafeToken("op") && SafeToken("plugin");
  }

  /** A run from an empty disk under a right encoding that publishes a row and
      acknowledges its edit. */
  lemma {:induction false} RunPublishes()
    ensures var c := CodecFor([FirstRow]);
      && Runs(c, Nothing, FirstRun(c)) && Encodes(c, After(c, Nothing, FirstRun(c)).log)
      && After(c, Nothing, FirstRun(c)).disk.Complete() && After(c, Nothing, FirstRun(c)).log == [FirstRow]
      && |After(c, Nothing, FirstRun(c)).receipts| == 1
  {
    var c := CodecFor([FirstRow]);
    Started(c);
    FirstDecision();
    var w := Next(c, Nothing, FirstStart);
    var e := FirstRun(c)[1];
    assert FirstRun(c)[1..] == [e] && [e][1..] == [];
    assert Landed(|c.enc(FirstRow)|, FirstWrite(c).writes) == |c.enc(FirstRow)| by {
      LandsWhole(|c.enc(FirstRow)|);
    }
    assert Next(c, w, e).log == [FirstRow];
    assert After(c, w, [e]) == Next(c, w, e);
    SomeCodecEncodes([FirstRow]);
  }

  lemma {:induction false} LandsWhole(n: nat)
    ensures Landed(n, [n]) == n
  {
    assert [n][1..] == [];
  }
}
