/** The rows of the annotation journal (archive/annotations.py): what an edit is
    normalized to, the hash-chained row it becomes, and how long that row is. */
module AnnotationRows {
  import opened Common

  const TEXT_BYTES := 8192
  const NOTE_BYTES := 2048
  const LINE_BYTES := 131072
  const VERSION := "input-archive-annotations-v1"
  const REASONS := {"private", "sensitive", "unrepresentative", "other"}
  const EXPERIENCES := {"input_difficulty", "candidate_issue", "unexpected_behavior", "other"}
  const SEVERITIES := {"minor", "major", "blocking"}

  datatype Error = InvalidRequest | UnsupportedVersion | InputBound | ForeignArchive | TargetUnavailable
    | OperationConflict | StaleRevision | StateInvalid | StorageFailure | SourceRefused

  datatype Outcome<+T> = Ok(value: T) | Err(error: Error)

  datatype Kind = Confirm | Correct | Exclude | Experience

  /** The keys an edit's value object can carry. */
  datatype Field = Text | Reason | Excluded | Topic | Severity | Note | Unknown(n: nat)

  datatype Raw = Str(text: string) | Flag(on: bool) | OtherRaw

  type Value = map<Field, Raw>

  // ---------------------------------------------------------------- text lengths

  function Utf8Bytes(s: string): nat {
    if s == "" then 0
    else
      var c := s[0] as int;
      (if c < 0x80 then 1 else if c < 0x800 then 2 else if c < 0x1_0000 then 3 else 4) + Utf8Bytes(s[1..])
  }

  /** Length inside a JSON string with every non-ASCII character escaped. */
  function EscapedBytes(s: string): nat {
    if s == "" then 0
    else
      var c := s[0] as int;
      (if c == 0x22 || c == 0x5c || c in {8, 9, 10, 12, 13} then 2
       else if 0x20 <= c < 0x7f then 1
       else if c < 0x1_0000 then 6 else 12) + EscapedBytes(s[1..])
  }

  lemma {:induction false} EscapeGrowth(s: string)
    ensures EscapedBytes(s) <= 6 * Utf8Bytes(s)
    ensures EscapedBytes(s) <= 12 * |s|
  {
    if s != "" {
      EscapeGrowth(s[1..]);
    }
  }

  // ---------------------------------------------------------------- normalization

  function BoundedText(v: Raw, bound: nat, empty: bool): Outcome<Raw> {
    if !v.Str? || (v.text == "" && !empty) then Err(InvalidRequest)
    else if Utf8Bytes(v.text) > bound then Err(InputBound)
    else Ok(v)
  }

  predicate OneOf(value: Value, field: Field, choices: set<string>) {
    field in value && value[field].Str? && value[field].text in choices
  }

  /** The value part of `normalize_edit`. */
  function NormalizeValue(kind: Kind, value: Value): Outcome<Value> {
    match kind
    case Confirm => if value != map[] then Err(InvalidRequest) else Ok(map[])
    case Correct =>
      if value.Keys != {Text} then Err(InvalidRequest)
      else (match BoundedText(value[Text], TEXT_BYTES, false)
            case Err(e) => Err(e)
            case Ok(t) => Ok(map[Text := t]))
    case Exclude =>
      if value.Keys != {Reason} || !OneOf(value, Reason, REASONS) then Err(InvalidRequest)
      else Ok(map[Reason := value[Reason], Excluded := Flag(true)])
    case Experience =>
      if value.Keys - {Topic, Severity, Note} != {}
         || !OneOf(value, Topic, EXPERIENCES) || !OneOf(value, Severity, SEVERITIES)
      then Err(InvalidRequest)
      else (match BoundedText(if Note in value then value[Note] else Str(""), NOTE_BYTES, true)
            case Err(e) => Err(e)
            case Ok(n) => Ok(map[Topic := value[Topic], Severity := value[Severity], Note := n]))
  }

  /** An edit request; None stands for a missing or wrongly typed part. */
  datatype Edit = Edit(
    versionKnown: bool, extraKeys: bool, kind: Option<Kind>, value: Option<Value>,
    expected: Option<int>, operation: string, reference: Option<Reference>)

  function NormalizeEdit(e: Edit): Outcome<Value>
    ensures NormalizeEdit(e).Ok? ==> e.kind.Some? && e.expected.Some?
  {
    if e.extraKeys || e.kind.None? || e.value.None? then Err(InvalidRequest)
    else if e.expected.None? || !IsInteger(e.expected.value, 0) || !SafeToken(e.operation) then Err(InvalidRequest)
    else NormalizeValue(e.kind.value, e.value.value)
  }

  // ---------------------------------------------------------------- what a request asks for

  predicate TextWithin(v: Raw, bound: nat) {
    v.Str? && Utf8Bytes(v.text) <= bound
  }

  /** The values that are not refused. */
  predicate ValueAllowed(kind: Kind, asked: Value) {
    match kind
    case Confirm => asked.Keys == {}
    case Correct => asked.Keys == {Text} && TextWithin(asked[Text], TEXT_BYTES) && asked[Text].text != ""
    case Exclude => asked.Keys == {Reason} && asked[Reason].Str? && asked[Reason].text in REASONS
    case Experience =>
      && {Topic, Severity} <= asked.Keys <= {Topic, Severity, Note}
      && asked[Topic].Str? && asked[Topic].text in EXPERIENCES && asked[Severity].Str? && asked[Severity].text in SEVERITIES
      && (Note in asked ==> TextWithin(asked[Note], NOTE_BYTES))
  }

  /** The values refused for their length alone. */
  predicate ValueTooLong(kind: Kind, asked: Value) {
    match kind
    case Correct => asked.Keys == {Text} && asked[Text].Str? && Utf8Bytes(asked[Text].text) > TEXT_BYTES
    case Experience =>
      && asked.Keys == {Topic, Severity, Note}
      && asked[Topic].Str? && asked[Topic].text in EXPERIENCES && asked[Severity].Str? && asked[Severity].text in SEVERITIES
      && asked[Note].Str? && Utf8Bytes(asked[Note].text) > NOTE_BYTES
    case _ => false
  }

  /** What is stored is what was asked for, field by field: nothing for a confirmation, the
      text of a correction, the reason of an exclusion and its flag, the topic, severity
      and note of an experience, with an empty note when there is none. */
  predicate StoresAsked(kind: Kind, asked: Value, stored: Value) {
    match kind
    case Confirm => stored.Keys == {}
    case Correct => stored.Keys == {Text} && Text in asked && stored[Text] == asked[Text]
    case Exclude => stored.Keys == {Reason, Excluded} && Reason in asked && stored[Reason] == asked[Reason] && stored[Excluded] == Flag(true)
    case Experience =>
      && stored.Keys == {Topic, Severity, Note} && Topic in asked && Severity in asked
      && stored[Topic] == asked[Topic] && stored[Severity] == asked[Severity]
      && (Note in asked ==> stored[Note] == asked[Note]) && (Note !in asked ==> stored[Note] == Str(""))
  }

  lemma {:induction false} BoundedMeans(v: Raw, bound: nat, empty: bool)
    ensures BoundedText(v, bound, empty).Ok? <==> TextWithin(v, bound) && (v.text != "" || empty)
    ensures BoundedText(v, bound, empty) == Err(InputBound) <==> v.Str? && Utf8Bytes(v.text) > bound
    ensures BoundedText(v, bound, empty).Ok? ==> BoundedText(v, bound, empty).value == v
    ensures BoundedText(v, bound, empty).Err? ==> BoundedText(v, bound, empty).error in {InvalidRequest, InputBound}
  {}

  /** Which values are refused, and what is stored for the others. */
  lemma {:induction false} NormalizeMeans(kind: Kind, asked: Value)
    ensures NormalizeValue(kind, asked).Ok? <==> ValueAllowed(kind, asked)
    ensures NormalizeValue(kind, asked).Ok? ==> StoresAsked(kind, asked, NormalizeValue(kind, asked).value)
    ensures NormalizeValue(kind, asked).Err? ==>
      NormalizeValue(kind, asked).error == if ValueTooLong(kind, asked) then InputBound else InvalidRequest
  {
    match kind
    case Confirm => assert asked.Keys == {} <==> asked == map[];
    case Correct =>
      if Text in asked {
        BoundedMeans(asked[Text], TEXT_BYTES, false);
      }
    case Exclude =>
    case Experience =>
      BoundedMeans(if Note in asked then asked[Note] else Str(""), NOTE_BYTES, true);
      ExperienceKeys(asked);
  }

  lemma {:induction false} ExperienceKeys(asked: Value)
    ensures asked.Keys - {Topic, Severity, Note} == {} <==> asked.Keys <= {Topic, Severity, Note}
    ensures Topic in asked && Severity in asked && Note in asked && asked.Keys <= {Topic, Severity, Note} ==> asked.Keys == {Topic, Severity, Note}
  {}

  /** The parts of a request that are tested before its value. */
  predicate PartsAllowed(e: Edit) {
    !e.extraKeys && e.kind.Some? && e.value.Some? && e.expected.Some? && IsInteger(e.expected.value, 0) && SafeToken(e.operation)
  }

  predicate EditAllowed(e: Edit) {
    PartsAllowed(e) && ValueAllowed(e.kind.value, e.value.value)
  }

  /** The row holds the request: its operation, reference, kind, expected revision and
      what it asked to be stored. */
  predicate Records(r: Row, e: Edit) {
    && r.body.operation == e.operation && e.reference == Some(r.body.semantic.reference)
    && e.kind == Some(r.body.semantic.kind) && e.expected == Some(r.body.semantic.expected)
    && e.value.Some? && StoresAsked(r.body.semantic.kind, e.value.value, r.body.semantic.value)
  }

  /** What recovery accepts as a stored value: an exclusion is stripped of its flag,
      and the value must then normalize to itself. */
  predicate AcceptsStored(kind: Kind, value: Value) {
    if kind.Exclude? then
      && value.Keys == {Excluded, Reason} && value[Excluded] == Flag(true)
      && NormalizeValue(kind, map[Reason := value[Reason]]) == Ok(value)
    else NormalizeValue(kind, value) == Ok(value)
  }

  /** Recovery accepts exactly the values normalization produces. */
  lemma {:induction false} StoredIffNormalized(kind: Kind, value: Value)
    ensures AcceptsStored(kind, value) <==> exists raw :: NormalizeValue(kind, raw) == Ok(value)
  {
    if raw :| NormalizeValue(kind, raw) == Ok(value) {
      NormalizedIsAccepted(kind, raw, value);
    }
  }

  lemma {:induction false} NormalizedIsAccepted(kind: Kind, raw: Value, value: Value)
    requires NormalizeValue(kind, raw) == Ok(value)
    ensures AcceptsStored(kind, value)
  {
    match kind
    case Confirm =>
    case Correct => assert value == map[Text := raw[Text]];
    case Exclude =>
      assert value.Keys == {Excluded, Reason};
      var stripped: Value := map[Reason := value[Reason]];
      assert stripped.Keys == {Reason};
    case Experience =>
      assert value.Keys == {Topic, Severity, Note};
  }

  // ---------------------------------------------------------------- rows and digests

  datatype Reference = Reference(archive: string, instance: string, local: int, durable: int, recordDigest: nat)

  datatype Semantic = Semantic(reference: Reference, kind: Kind, value: Value, expected: int)

  /** SHA-256 of canonical bytes, as an injective function of what is hashed. */
  datatype Digest = Zero | OfSemantic(semantic: Semantic) | OfBody(body: Body) | OfRow(row: Row) | OtherDigest(n: nat)

  datatype Body = Body(archive: string, revision: int, operation: string, semantic: Semantic, semanticHash: Digest, previous: Digest)

  datatype Row = Row(body: Body, chain: Digest)

  predicate ReferenceShape(r: Reference, archive: string) {
    r.archive == archive && SafeToken(r.instance) && IsInteger(r.local, 0) && IsInteger(r.durable, 1)
  }

  function MakeRow(archive: string, revision: int, operation: string, semantic: Semantic, previous: Digest): Row {
    var body := Body(archive, revision, operation, semantic, OfSemantic(semantic), previous);
    Row(body, OfBody(body))
  }

  /** Bounds every accepted row meets. */
  predicate WellShaped(r: Row) {
    && |r.body.archive| == 32 && IsInteger(r.body.revision, 1) && SafeToken(r.body.operation)
    && ReferenceShape(r.body.semantic.reference, r.body.archive) && IsInteger(r.body.semantic.expected, 0)
    && AcceptsStored(r.body.semantic.kind, r.body.semantic.value)
  }

  // ---------------------------------------------------------------- the encoded length

  /** The keys of a row and of its parts. */
  datatype RowKey =
    | KArchiveId | KChain | KDurableSeq | KExcluded | KExpectedRevision | KKind
    | KNote | KOperationId | KPrevious | KProvenance | KReason | KRecordDigest
    | KRevision | KSemantic | KSemanticHash | KSourceInstanceId | KSourceLocalSequence | KSourceReference
    | KText | KValue | KVersion

  function KeyLength(k: RowKey): (n: nat)
    ensures n <= 21
  {
    match k
    case KKind | KNote | KText => 4
    case KChain | KValue => 5
    case KReason => 6
    case KVersion => 7
    case KExcluded | KPrevious | KRevision | KSemantic => 8
    case KArchiveId | KProvenance => 10
    case KDurableSeq => 11
    case KOperationId => 12
    case KRecordDigest | KSemanticHash => 13
    case KSourceReference => 16
    case KExpectedRevision => 17
    case KSourceInstanceId => 18
    case KSourceLocalSequence => 21
  }

  datatype Json = JStr(text: string) | JHash | JInt(n: nat) | JTrue | JObject(fields: Fields)
  datatype Fields = End | With(key: RowKey, value: Json, rest: Fields)

  function Digits(n: nat): nat {
    if n < 10 then 1 else 1 + Digits(n / 10)
  }

  /** Bytes of the compact ASCII encoding; the order of the keys does not matter. */
  function JsonBytes(j: Json): nat {
    match j
    case JStr(text) => EscapedBytes(text) + 2
    case JHash => 66
    case JInt(n) => Digits(n)
    case JTrue => 4
    case JObject(fields) => 2 + FieldBytes(fields)
  }

  function FieldBytes(f: Fields): nat {
    match f
    case End => 0
    case With(key, value, rest) =>
      KeyLength(key) + 3 + JsonBytes(value) + (if rest.End? then 0 else 1 + FieldBytes(rest))
  }

  function KindName(k: Kind): string {
    match k
    case Confirm => "confirm"
    case Correct => "correct"
    case Exclude => "exclude"
    case Experience => "experience"
  }

  function TextOf(v: Value, f: Field): Json {
    if f in v && v[f].Str? then JStr(v[f].text) else JTrue
  }

  function ValueJson(k: Kind, v: Value): Json {
    match k
    case Confirm => JObject(End)
    case Correct => JObject(With(KText, TextOf(v, Text), End))
    case Exclude => JObject(With(KExcluded, JTrue, With(KReason, TextOf(v, Reason), End)))
    case Experience =>
      JObject(With(KKind, TextOf(v, Topic), With(KNote, TextOf(v, Note), With(KValue, TextOf(v, Severity), End))))
  }

  function ReferenceJson(r: Reference): Json
    requires r.local >= 0 && r.durable >= 0
  {
    JObject(With(KArchiveId, JStr(r.archive), With(KDurableSeq, JInt(r.durable), With(KRecordDigest, JHash,
      With(KSourceInstanceId, JStr(r.instance), With(KSourceLocalSequence, JInt(r.local), End))))))
  }

  function SemanticJson(s: Semantic): Json
    requires s.reference.local >= 0 && s.reference.durable >= 0 && s.expected >= 0
  {
    JObject(With(KExpectedRevision, JInt(s.expected), With(KKind, JStr(KindName(s.kind)), With(KProvenance, JStr("human"),
      With(KSourceReference, ReferenceJson(s.reference), With(KValue, ValueJson(s.kind, s.value), End))))))
  }

  function RowJson(r: Row): Json
    requires WellShaped(r)
  {
    JObject(With(KArchiveId, JStr(r.body.archive), With(KChain, JHash, With(KOperationId, JStr(r.body.operation),
      With(KPrevious, JHash, With(KRevision, JInt(r.body.revision), With(KSemantic, SemanticJson(r.body.semantic),
        With(KSemanticHash, JHash, With(KVersion, JStr(VERSION), End)))))))))
  }

  lemma {:induction false} DigitsBound(n: nat)
    requires n <= MAX_REVISION
    ensures Digits(n) <= 19
  {
    assert Pow10(6) == 1_000_000;
    assert Pow10(12) == 1_000_000_000_000;
    assert Pow10(18) == 1_000_000_000_000_000_000;
    DigitsWithin(n, 19);
  }

  function Pow10(k: nat): nat {
    if k == 0 then 1 else 10 * Pow10(k - 1)
  }

  lemma {:induction false} DigitsWithin(n: nat, k: nat)
    requires k >= 1 && n < Pow10(k)
    ensures Digits(n) <= k
  {
    if n >= 10 {
      DigitsWithin(n / 10, k - 1);
    }
  }

  lemma {:induction false} StrBytes(s: string, n: nat)
    requires |s| <= n
    ensures JsonBytes(JStr(s)) <= 12 * n + 2
  {
    EscapeGrowth(s);
  }

  lemma {:induction false} TextBytes(v: Value, f: Field, bound: nat)
    requires f in v && v[f].Str? ==> Utf8Bytes(v[f].text) <= bound
    ensures JsonBytes(TextOf(v, f)) <= 6 * bound + 4
  {
    if f in v && v[f].Str? {
      EscapeGrowth(v[f].text);
    }
  }

  /** One more field of an object. */
  lemma {:induction false} FieldStep(key: RowKey, value: Json, rest: Fields, valueBytes: nat, restBytes: nat)
    requires JsonBytes(value) <= valueBytes && FieldBytes(rest) <= restBytes
    ensures FieldBytes(With(key, value, rest)) <= 25 + valueBytes + restBytes
  {}

  lemma {:induction false} ChoiceBytes(v: Value, f: Field, choices: set<string>)
    requires OneOf(v, f, choices) && choices in {REASONS, EXPERIENCES, SEVERITIES}
    ensures JsonBytes(TextOf(v, f)) <= 12 * 19 + 2
  {
    assert |v[f].text| <= 19;
    StrBytes(v[f].text, 19);
  }

  lemma {:induction false} CorrectBytes(v: Value)
    requires AcceptsStored(Correct, v)
    ensures JsonBytes(ValueJson(Correct, v)) <= 50_000
  {
    TextBytes(v, Text, TEXT_BYTES);
    FieldStep(KText, TextOf(v, Text), End, 6 * TEXT_BYTES + 4, 0);
  }

  lemma {:induction false} ExcludeBytes(v: Value)
    requires AcceptsStored(Exclude, v)
    ensures JsonBytes(ValueJson(Exclude, v)) <= 50_000
  {
    ChoiceBytes(v, Reason, REASONS);
    FieldStep(KReason, TextOf(v, Reason), End, 230, 0);
    FieldStep(KExcluded, JTrue, With(KReason, TextOf(v, Reason), End), 4, 306);
  }

  lemma {:induction false} ExperienceShape(v: Value)
    requires AcceptsStored(Experience, v)
    ensures OneOf(v, Topic, EXPERIENCES) && OneOf(v, Severity, SEVERITIES)
    ensures Note in v && v[Note].Str? && Utf8Bytes(v[Note].text) <= NOTE_BYTES
  {}

  lemma {:induction false} ExperienceObject(topic: Json, note: Json, severity: Json)
    requires JsonBytes(topic) <= 230 && JsonBytes(severity) <= 230 && JsonBytes(note) <= 6 * NOTE_BYTES + 4
    ensures JsonBytes(JObject(With(KKind, topic, With(KNote, note, With(KValue, severity, End))))) <= 50_000
  {
    var last := With(KValue, severity, End);
    FieldStep(KValue, severity, End, 230, 0);
    FieldStep(KNote, note, last, 6 * NOTE_BYTES + 4, 294);
    FieldStep(KKind, topic, With(KNote, note, last), 230, 13_000);
  }

  lemma {:induction false} ExperienceBytes(v: Value)
    requires AcceptsStored(Experience, v)
    ensures JsonBytes(ValueJson(Experience, v)) <= 50_000
  {
    ExperienceShape(v);
    ChoiceBytes(v, Topic, EXPERIENCES);
    ChoiceBytes(v, Severity, SEVERITIES);
    TextBytes(v, Note, NOTE_BYTES);
    ExperienceObject(TextOf(v, Topic), TextOf(v, Note), TextOf(v, Severity));
  }

  lemma {:induction false} ValueBytes(k: Kind, v: Value)
    requires AcceptsStored(k, v)
    ensures JsonBytes(ValueJson(k, v)) <= 50_000
  {
    match k
    case Confirm =>
    case Correct => CorrectBytes(v);
    case Exclude => ExcludeBytes(v);
    case Experience => ExperienceBytes(v);
  }

  lemma {:induction false} ReferenceBytes(r: Reference, archive: string)
    requires ReferenceShape(r, archive) && |archive| == 32
    ensures JsonBytes(ReferenceJson(r)) <= 4000
  {
    var f4 := With(KSourceLocalSequence, JInt(r.local), End);
    var f3 := With(KSourceInstanceId, JStr(r.instance), f4);
    var f2 := With(KRecordDigest, JHash, f3);
    var f1 := With(KDurableSeq, JInt(r.durable), f2);
    DigitsBound(r.local);
    DigitsBound(r.durable);
    StrBytes(r.instance, 128);
    StrBytes(r.archive, 32);
    FieldStep(KSourceLocalSequence, JInt(r.local), End, 19, 0);
    FieldStep(KSourceInstanceId, JStr(r.instance), f4, 1538, 275);
    FieldStep(KRecordDigest, JHash, f3, 66, 2033);
    FieldStep(KDurableSeq, JInt(r.durable), f2, 19, 2259);
    FieldStep(KArchiveId, JStr(r.archive), f1, 386, 2414);
  }

  lemma {:induction false} SemanticBytes(s: Semantic, archive: string)
    requires ReferenceShape(s.reference, archive) && |archive| == 32 && IsInteger(s.expected, 0) && AcceptsStored(s.kind, s.value)
    ensures JsonBytes(SemanticJson(s)) <= 60_000
  {
    var f4 := With(KValue, ValueJson(s.kind, s.value), End);
    var f3 := With(KSourceReference, ReferenceJson(s.reference), f4);
    var f2 := With(KProvenance, JStr("human"), f3);
    var f1 := With(KKind, JStr(KindName(s.kind)), f2);
    ValueBytes(s.kind, s.value);
    ReferenceBytes(s.reference, archive);
    StrBytes("human", 5);
    StrBytes(KindName(s.kind), 10);
    DigitsBound(s.expected);
    FieldStep(KValue, ValueJson(s.kind, s.value), End, 50_000, 0);
    FieldStep(KSourceReference, ReferenceJson(s.reference), f4, 4000, 50_100);
    FieldStep(KProvenance, JStr("human"), f3, 62, 54_400);
    FieldStep(KKind, JStr(KindName(s.kind)), f2, 122, 54_600);
    FieldStep(KExpectedRevision, JInt(s.expected), f1, 19, 54_800);
  }

  lemma {:induction false} RowTailBytes(semantic: Json)
    requires JsonBytes(semantic) <= 60_000
    ensures FieldBytes(With(KSemantic, semantic, With(KSemanticHash, JHash, With(KVersion, JStr(VERSION), End)))) <= 61_000
  {
    var f7 := With(KVersion, JStr(VERSION), End);
    var f6 := With(KSemanticHash, JHash, f7);
    StrBytes(VERSION, 28);
    FieldStep(KVersion, JStr(VERSION), End, 338, 0);
    FieldStep(KSemanticHash, JHash, f7, 66, 500);
    FieldStep(KSemantic, semantic, f6, 60_000, 800);
  }

  lemma {:induction false} RowMiddleBytes(operation: string, revision: nat, rest: Fields)
    requires FieldBytes(rest) <= 61_000 && |operation| <= 128 && revision <= MAX_REVISION
    ensures FieldBytes(With(KOperationId, JStr(operation), With(KPrevious, JHash, With(KRevision, JInt(revision), rest)))) <= 63_200
  {
    var f4 := With(KRevision, JInt(revision), rest);
    var f3 := With(KPrevious, JHash, f4);
    StrBytes(operation, 128);
    DigitsBound(revision);
    FieldStep(KRevision, JInt(revision), rest, 19, 61_000);
    FieldStep(KPrevious, JHash, f4, 66, 61_200);
    FieldStep(KOperationId, JStr(operation), f3, 1538, 61_400);
  }

  lemma {:induction false} RowHeadBytes(archive: string, rest: Fields)
    requires FieldBytes(rest) <= 63_200 && |archive| <= 32
    ensures JsonBytes(JObject(With(KArchiveId, JStr(archive), With(KChain, JHash, rest)))) + 1 <= LINE_BYTES
  {
    StrBytes(archive, 32);
    FieldStep(KChain, JHash, rest, 66, 63_200);
    FieldStep(KArchiveId, JStr(archive), With(KChain, JHash, rest), 386, 63_400);
  }

  /** No row that can be written is longer than the line recovery accepts, even
      with every character of its text escaped. */
  lemma {:induction false} RowFitsLine(r: Row)
    requires WellShaped(r)
    ensures JsonBytes(RowJson(r)) + 1 <= LINE_BYTES
  {
    var semantic := SemanticJson(r.body.semantic);
    var tail := With(KSemantic, semantic, With(KSemanticHash, JHash, With(KVersion, JStr(VERSION), End)));
    SemanticBytes(r.body.semantic, r.body.archive);
    RowTailBytes(semantic);
    RowMiddleBytes(r.body.operation, r.body.revision, tail);
    RowHeadBytes(r.body.archive,
      With(KOperationId, JStr(r.body.operation), With(KPrevious, JHash, With(KRevision, JInt(r.body.revision), tail))));
  }
}
