/** The observations file: its published prefix, the index and identities rebuilt
    from it at start-up (archive/collector.py, _load_state, _reconcile_file,
    _rebuild_index, _remember), and the checks a backup makes of it
    (archive/management.py, _verify_content). */
module ArchiveFile {
  import opened Common
  import opened Lines
  import opened CollectorQueue

  const LINE := 131072
  const MAX_OBSERVATIONS := 65536

  /** A published row: its durable number and the observation it came from. */
  datatype Record = Record(seqNo: int, prepared: Prepared)

  /** The canonical encodings: one line a record, one line a quarantined observation. */
  datatype Codec = Codec(enc: Record -> seq<Byte>, dec: seq<Byte> -> Option<Record>, held: Prepared -> seq<Byte>)

  ghost predicate Sound(c: Codec) {
    forall r: Record :: Readable(c, r)
  }

  ghost predicate Readable(c: Codec, r: Record) {
    c.dec(c.enc(r)) == Some(r) && OneLine(c.enc(r))
  }

  datatype Entry = Entry(record: Record, offset: nat, length: nat)

  // ---------------------------------------------------------------- logs

  function Encode(c: Codec, log: seq<Record>): seq<Byte> {
    if log == [] then [] else Encode(c, log[..|log| - 1]) + c.enc(log[|log| - 1])
  }

  /** One entry a row, with its place in the file. */
  function IndexOf(c: Codec, log: seq<Record>): (r: seq<Entry>)
    ensures |r| == |log|
  {
    if log == [] then []
    else
      var front, record := log[..|log| - 1], log[|log| - 1];
      IndexOf(c, front) + [Entry(record, |Encode(c, front)|, |c.enc(record)|)]
  }

  function Identify(ids: map<Identity, Hash>, r: Record): map<Identity, Hash> {
    if r.prepared.loss then ids else ids[r.prepared.identity := r.prepared.hash]
  }

  /** Identities of the rows that are not loss notices. */
  function IdentitiesOf(log: seq<Record>): map<Identity, Hash> {
    if log == [] then map[] else Identify(IdentitiesOf(log[..|log| - 1]), log[|log| - 1])
  }

  ghost predicate Numbered(log: seq<Record>) {
    forall i :: 0 <= i < |log| ==> log[i].seqNo == i + 1
  }

  /** At most one row that is not a loss notice for each source identity. */
  ghost predicate UniqueRows(log: seq<Record>) {
    forall i, j :: 0 <= i < j < |log| && !log[i].prepared.loss && !log[j].prepared.loss ==>
      log[i].prepared.identity != log[j].prepared.identity
  }

  lemma {:induction false} EncodeConcat(c: Codec, a: seq<Record>, b: seq<Record>)
    ensures Encode(c, a + b) == Encode(c, a) + Encode(c, b)
    decreases |b|
  {
    if b == [] {
      assert a + b == a;
    } else {
      assert (a + b)[..|a + b| - 1] == a + b[..|b| - 1];
      EncodeConcat(c, a, b[..|b| - 1]);
    }
  }

  lemma {:induction false} EncodeAt(c: Codec, log: seq<Record>, n: nat)
    requires n < |log|
    ensures Encode(c, log[..n + 1]) == Encode(c, log[..n]) + c.enc(log[n])
    ensures IndexOf(c, log[..n + 1]) == IndexOf(c, log[..n]) + [Entry(log[n], |Encode(c, log[..n])|, |c.enc(log[n])|)]
    ensures IdentitiesOf(log[..n + 1]) == Identify(IdentitiesOf(log[..n]), log[n])
  {
    assert log[..n + 1][..n] == log[..n];
  }

  lemma {:induction false} EncodePrefix(c: Codec, log: seq<Record>, n: nat)
    requires n < |log|
    ensures Encode(c, log[..n]) <= Encode(c, log)
    ensures |Encode(c, log[..n])| + |c.enc(log[n])| <= |Encode(c, log)|
    ensures Encode(c, log)[|Encode(c, log[..n])|..][..|c.enc(log[n])|] == c.enc(log[n])
  {
    EncodeConcat(c, log[..n + 1], log[n + 1..]);
    EncodeAt(c, log, n);
    assert log == log[..n + 1] + log[n + 1..];
  }

  /** The offsets of the index tile the published bytes from 0 without gap. */
  lemma {:induction false} OffsetsTile(c: Codec, log: seq<Record>, i: nat)
    requires i < |log|
    ensures var index := IndexOf(c, log);
      && index[i].record == log[i] && index[i].length == |c.enc(log[i])|
      && (i == 0 ==> index[i].offset == 0)
      && (i + 1 < |log| ==> index[i + 1].offset == index[i].offset + index[i].length)
      && (i + 1 == |log| ==> index[i].offset + index[i].length == |Encode(c, log)|)
  {
    if i + 1 < |log| {
      var front := log[..|log| - 1];
      OffsetsTile(c, front, i);
      assert IndexOf(c, log)[..|front|] == IndexOf(c, front);
    }
  }

  /** Every row's identity is known, unless it is a loss notice. */
  lemma {:induction false} IdentitiesHold(log: seq<Record>, i: nat)
    requires UniqueRows(log) && i < |log| && !log[i].prepared.loss
    ensures log[i].prepared.identity in IdentitiesOf(log)
    ensures IdentitiesOf(log)[log[i].prepared.identity] == log[i].prepared.hash
  {
    if i < |log| - 1 {
      IdentitiesHold(log[..|log| - 1], i);
    }
  }

  // ---------------------------------------------------------------- rebuilding the index

  datatype Loaded = Loaded(index: seq<Entry>, identities: map<Identity, Hash>, failed: bool)

  const NothingLoaded := Loaded([], map[], false)

  function LoadEntry(l: Loaded, r: Record, offset: nat, length: nat): Loaded {
    Loaded(l.index + [Entry(r, offset, length)], Identify(l.identities, r), l.failed)
  }

  /** Read rows from pos while it is before the watermark. */
  function Rebuild(c: Codec, file: seq<Byte>, pos: nat, watermark: nat, l: Loaded): Loaded
    requires pos <= |file|
    decreases watermark - pos
  {
    if pos >= watermark then l
    else
      var line := LineAt(file, pos, |file|);
      if line == [] then l
      else if pos + |line| > watermark || c.dec(line).None? then l.(failed := true)
      else Rebuild(c, file, pos + |line|, watermark, LoadEntry(l, c.dec(line).value, pos, |line|))
  }

  method RebuildIndex(c: Codec, file: seq<Byte>, watermark: nat) returns (l: Loaded)
    ensures l == Rebuild(c, file, 0, watermark, NothingLoaded)
  {
    l := NothingLoaded;
    var pos := 0;
    while pos < watermark
      invariant pos <= |file|
      invariant Rebuild(c, file, pos, watermark, l) == Rebuild(c, file, 0, watermark, NothingLoaded)
      decreases watermark - pos
    {
      var line := LineAt(file, pos, |file|);
      if line == [] {
        break;
      }
      var record := c.dec(line);
      if pos + |line| > watermark || record.None? {
        l := l.(failed := true);
        return;
      }
      l := LoadEntry(l, record.value, pos, |line|);
      pos := pos + |line|;
    }
  }

  function LoadedOf(c: Codec, log: seq<Record>): Loaded {
    Loaded(IndexOf(c, log), IdentitiesOf(log), false)
  }

  lemma {:induction false} RowLine(c: Codec, file: seq<Byte>, log: seq<Record>, n: nat, limit: nat)
    requires Sound(c) && Encode(c, log) <= file && n < |log| && |c.enc(log[n])| <= limit
    ensures |Encode(c, log[..n])| <= |file| && LineAt(file, |Encode(c, log[..n])|, limit) == c.enc(log[n])
  {
    EncodePrefix(c, log, n);
    assert Readable(c, log[n]);
    SliceOfPrefix(file, Encode(c, log), |Encode(c, log[..n])|, c.enc(log[n]));
    ReadsLine(file, |Encode(c, log[..n])|, c.enc(log[n]), limit);
  }

  lemma {:induction false} RebuildStep(c: Codec, file: seq<Byte>, pos: nat, watermark: nat, l: Loaded, r: Record, last: Loaded)
    requires pos < watermark && pos + |c.enc(r)| <= watermark && pos + |c.enc(r)| <= |file|
    requires LineAt(file, pos, |file|) == c.enc(r) && Readable(c, r)
    requires Rebuild(c, file, pos + |c.enc(r)|, watermark, LoadEntry(l, r, pos, |c.enc(r)|)) == last
    ensures Rebuild(c, file, pos, watermark, l) == last
  {}

  /** Whatever follows the published bytes, start-up re-indexes exactly the log. */
  lemma {:induction false} RebuildReadsLog(c: Codec, file: seq<Byte>, log: seq<Record>, n: nat)
    requires Sound(c) && Encode(c, log) <= file && n <= |log|
    ensures |Encode(c, log[..n])| <= |file|
    ensures Rebuild(c, file, |Encode(c, log[..n])|, |Encode(c, log)|, LoadedOf(c, log[..n])) == LoadedOf(c, log)
    decreases |log| - n
  {
    if n == |log| {
      assert log[..n] == log;
    } else {
      RebuildReadsLog(c, file, log, n + 1);
      EncodePrefix(c, log, n);
      RowLine(c, file, log, n, |file|);
      EncodeAt(c, log, n);
      assert Readable(c, log[n]);
      RebuildStep(c, file, |Encode(c, log[..n])|, |Encode(c, log)|, LoadedOf(c, log[..n]), log[n], LoadedOf(c, log));
    }
  }

  // ---------------------------------------------------------------- start-up

  datatype Disk = Disk(observations: seq<Byte>, quarantine: seq<Byte>, saved: Option<Ledger>)

  const FreshLedger := Ledger(0, 0, 0, 0, 0, 0, 0, 0, 0, false, false)

  /** Truncate to the watermark; report a file that is shorter. */
  function Reconcile(file: seq<Byte>, watermark: nat): (seq<Byte>, bool) {
    if |file| > watermark then (file[..watermark], false) else (file, |file| < watermark)
  }

  /** The disk, ledger, index and identities a start leaves. */
  function StartUp(c: Codec, d: Disk): (Disk, Ledger, Loaded) {
    match d.saved
    case None =>
      (d, FreshLedger, Rebuild(c, d.observations, 0, 0, NothingLoaded))
    case Some(previous) =>
      var (observations, short) := Reconcile(d.observations, previous.durableOffset);
      var (quarantine, shortHeld) := Reconcile(d.quarantine, previous.quarantineBytes);
      var loaded := Rebuild(c, observations, 0, previous.durableOffset, NothingLoaded);
      (Disk(observations, quarantine, d.saved),
       previous.(storageFailure := previous.storageFailure || short || shortHeld || loaded.failed), loaded)
  }

  /** The disk's last durable watermark names exactly the log. */
  ghost predicate Publishes(c: Codec, d: Disk, log: seq<Record>) {
    && Numbered(log) && Encode(c, log) <= d.observations
    && match d.saved
       case None => log == []
       case Some(l) => l.durableSeq == |log| && l.durableOffset == l.durableBytes == |Encode(c, log)|
  }

  /** A start truncates the file to the rows of the last durable watermark and
      re-indexes exactly those. */
  lemma {:induction false} StartUpRecovers(c: Codec, d: Disk, log: seq<Record>)
    requires Sound(c) && Publishes(c, d, log)
    ensures var (disk, ledger, loaded) := StartUp(c, d);
      && loaded == LoadedOf(c, log) && ledger.durableSeq == |log|
      && ledger.durableOffset == ledger.durableBytes == |Encode(c, log)|
      && Publishes(c, disk, log) && (d.saved.Some? ==> disk.observations == Encode(c, log))
      && (d.saved.Some? && |d.quarantine| >= d.saved.value.quarantineBytes ==>
            ledger.storageFailure == d.saved.value.storageFailure && |disk.quarantine| == ledger.quarantineBytes)
  {
    assert log[..0] == [];
    if d.saved.Some? {
      var kept := Reconcile(d.observations, |Encode(c, log)|).0;
      assert kept == Encode(c, log);
      RebuildReadsLog(c, kept, log, 0);
    }
  }

  // ---------------------------------------------------------------- when a start reports a failure

  /** The line at pos is read below the watermark and decodes. */
  predicate GoodLine(c: Codec, file: seq<Byte>, watermark: nat, pos: nat)
    requires pos <= |file|
  {
    var line := LineAt(file, pos, |file|);
    pos < watermark && line != [] && pos + |line| <= watermark && c.dec(line).Some?
  }

  /** The line at pos starts below the watermark, and crosses it or does not decode. */
  predicate BadLine(c: Codec, file: seq<Byte>, watermark: nat, pos: nat)
    requires pos <= |file|
  {
    var line := LineAt(file, pos, |file|);
    pos < watermark && line != [] && (pos + |line| > watermark || c.dec(line).None?)
  }

  /** One good line from p to q. */
  predicate Follows(c: Codec, file: seq<Byte>, watermark: nat, p: nat, q: nat) {
    p <= |file| && GoodLine(c, file, watermark, p) && q == p + |LineAt(file, p, |file|)|
  }

  /** The starts of consecutive good lines from pos, and of the line after them. */
  ghost predicate LinesFrom(c: Codec, file: seq<Byte>, watermark: nat, pos: nat, at: seq<nat>) {
    && at != [] && at[0] == pos && (forall k :: 0 <= k < |at| ==> at[k] <= |file|)
    && forall k :: 0 <= k < |at| - 1 ==> Follows(c, file, watermark, at[k], at[k + 1])
  }

  /** Some line reached by reading line after line from pos is bad. */
  ghost predicate Breaks(c: Codec, file: seq<Byte>, watermark: nat, pos: nat) {
    exists at :: LinesFrom(c, file, watermark, pos, at) && BadLine(c, file, watermark, at[|at| - 1])
  }

  lemma {:induction false} LaterBreaks(c: Codec, file: seq<Byte>, watermark: nat, pos: nat, next: nat, at: seq<nat>)
    requires Follows(c, file, watermark, pos, next)
    requires LinesFrom(c, file, watermark, pos, at) && BadLine(c, file, watermark, at[|at| - 1])
    ensures |at| > 1 && LinesFrom(c, file, watermark, next, at[1..]) && Breaks(c, file, watermark, next)
  {
    assert at[|at| - 1] != pos;
    var rest := at[1..];
    forall k | 0 <= k < |rest| - 1 ensures Follows(c, file, watermark, rest[k], rest[k + 1]) {
      assert rest[k] == at[k + 1] && rest[k + 1] == at[k + 2];
    }
    assert rest[|rest| - 1] == at[|at| - 1];
  }

  lemma {:induction false} EarlierBreaks(c: Codec, file: seq<Byte>, watermark: nat, pos: nat, next: nat, at: seq<nat>)
    requires Follows(c, file, watermark, pos, next)
    requires LinesFrom(c, file, watermark, next, at) && BadLine(c, file, watermark, at[|at| - 1])
    ensures LinesFrom(c, file, watermark, pos, [pos] + at) && Breaks(c, file, watermark, pos)
  {
    var all := [pos] + at;
    forall k | 0 <= k < |all| - 1 ensures Follows(c, file, watermark, all[k], all[k + 1]) {
      if k > 0 {
        assert all[k] == at[k - 1] && all[k + 1] == at[k];
      }
    }
    assert all[|all| - 1] == at[|at| - 1];
  }

  lemma {:induction false} BreaksLater(c: Codec, file: seq<Byte>, watermark: nat, pos: nat, next: nat)
    requires Follows(c, file, watermark, pos, next)
    ensures Breaks(c, file, watermark, pos) <==> Breaks(c, file, watermark, next)
  {
    if Breaks(c, file, watermark, pos) {
      var at :| LinesFrom(c, file, watermark, pos, at) && BadLine(c, file, watermark, at[|at| - 1]);
      LaterBreaks(c, file, watermark, pos, next, at);
    }
    if Breaks(c, file, watermark, next) {
      var at :| LinesFrom(c, file, watermark, next, at) && BadLine(c, file, watermark, at[|at| - 1]);
      EarlierBreaks(c, file, watermark, pos, next, at);
    }
  }

  lemma {:induction false} BreaksHere(c: Codec, file: seq<Byte>, watermark: nat, pos: nat)
    requires pos <= |file| && !GoodLine(c, file, watermark, pos)
    ensures Breaks(c, file, watermark, pos) <==> BadLine(c, file, watermark, pos)
  {
    if BadLine(c, file, watermark, pos) {
      var at := [pos];
      assert LinesFrom(c, file, watermark, pos, at) && at[|at| - 1] == pos;
    }
    if Breaks(c, file, watermark, pos) {
      var at :| LinesFrom(c, file, watermark, pos, at) && BadLine(c, file, watermark, at[|at| - 1]);
      assert |at| > 1 ==> Follows(c, file, watermark, at[0], at[0 + 1]);
    }
  }

  lemma {:induction false} RebuildGoes(c: Codec, file: seq<Byte>, pos: nat, watermark: nat, l: Loaded, next: nat) returns (r: Record)
    requires Follows(c, file, watermark, pos, next)
    ensures Rebuild(c, file, pos, watermark, l) == Rebuild(c, file, next, watermark, LoadEntry(l, r, pos, next - pos))
  {
    var line := LineAt(file, pos, |file|);
    r := c.dec(line).value;
    assert Rebuild(c, file, pos, watermark, l) == Rebuild(c, file, pos + |line|, watermark, LoadEntry(l, r, pos, |line|));
  }

  lemma {:induction false} RebuildEnds(c: Codec, file: seq<Byte>, pos: nat, watermark: nat, l: Loaded)
    requires pos <= |file| && !GoodLine(c, file, watermark, pos) && !l.failed
    ensures Rebuild(c, file, pos, watermark, l).failed <==> BadLine(c, file, watermark, pos)
  {}

  /** Re-indexing fails exactly at a bad line below the watermark. */
  lemma {:induction false} RebuildFailsIff(c: Codec, file: seq<Byte>, pos: nat, watermark: nat, l: Loaded)
    requires pos <= |file| && !l.failed
    ensures Rebuild(c, file, pos, watermark, l).failed <==> Breaks(c, file, watermark, pos)
    decreases |file| - pos
  {
    if GoodLine(c, file, watermark, pos) {
      var next := pos + |LineAt(file, pos, |file|)|;
      BreaksLater(c, file, watermark, pos, next);
      var r := RebuildGoes(c, file, pos, watermark, l, next);
      RebuildFailsIff(c, file, next, watermark, LoadEntry(l, r, pos, next - pos));
    } else {
      BreaksHere(c, file, watermark, pos);
      RebuildEnds(c, file, pos, watermark, l);
    }
  }

  /** What a start leaves of the disk and the ledger: each file cut at its watermark, the
      counters as recorded, and a failure reported exactly when one was recorded, a file
      is shorter than its watermark, or a line below the watermark is bad. */
  lemma {:induction false} StartUpMeans(c: Codec, d: Disk)
    ensures var (disk, ledger, loaded) := StartUp(c, d);
      match d.saved
      case None => disk == d && ledger == FreshLedger
      case Some(l) =>
        && disk.saved == d.saved
        && disk.observations == d.observations[..Min(|d.observations|, l.durableOffset)]
        && disk.quarantine == d.quarantine[..Min(|d.quarantine|, l.quarantineBytes)]
        && ledger == l.(storageFailure := ledger.storageFailure)
        && (ledger.storageFailure <==>
              || l.storageFailure || |d.observations| < l.durableOffset || |d.quarantine| < l.quarantineBytes
              || Breaks(c, disk.observations, l.durableOffset, 0))
  {
    if d.saved.Some? {
      var l := d.saved.value;
      var kept := Reconcile(d.observations, l.durableOffset).0;
      assert d.observations[..|d.observations|] == d.observations && d.quarantine[..|d.quarantine|] == d.quarantine;
      RebuildFailsIff(c, kept, 0, l.durableOffset, NothingLoaded);
    }
  }

  // ---------------------------------------------------------------- verification of a backup

  /** The checks of one row on its own: its number, and that its local sequence is an
      integer of the archive's range. */
  predicate RowInRange(r: Record, count: nat) {
    r.seqNo == count + 1 && IsInteger(r.prepared.identity.1, 0)
  }

  /** The observation loop: the rows read, or None when a check fails. */
  function Verify(c: Codec, file: seq<Byte>, pos: nat, count: nat, ids: set<Identity>): Option<seq<Record>>
    requires pos <= |file|
    decreases |file| - pos
  {
    var raw := LineAt(file, pos, LINE + 1);
    if raw == [] then Some([])
    else
      match CheckedRow(c, raw, count, ids)
      case None => None
      case Some(row) =>
        match Verify(c, file, pos + |raw|, count + 1, IdsWith(ids, row))
        case None => None
        case Some(rest) => Some([row] + rest)
  }

  /** One row of the observation loop, when it passes every check. */
  function CheckedRow(c: Codec, raw: seq<Byte>, count: nat, ids: set<Identity>): Option<Record> {
    if |raw| > LINE || !EndsLine(raw) || count + 1 > MAX_OBSERVATIONS || c.dec(raw).None? then None
    else
      var row := c.dec(raw).value;
      if !RowInRange(row, count) || (row.prepared.identity in ids && !row.prepared.loss) then None else Some(row)
  }

  function IdsWith(ids: set<Identity>, r: Record): set<Identity> {
    if r.prepared.loss then ids else ids + {r.prepared.identity}
  }

  lemma {:induction false} VerifyUnfolds(c: Codec, file: seq<Byte>, pos: nat, count: nat, ids: set<Identity>)
    requires pos <= |file|
    ensures var raw := LineAt(file, pos, LINE + 1);
      if raw == [] then Verify(c, file, pos, count, ids) == Some([])
      else
        match CheckedRow(c, raw, count, ids)
        case None => Verify(c, file, pos, count, ids).None?
        case Some(row) =>
          var rest := Verify(c, file, pos + |raw|, count + 1, IdsWith(ids, row));
          Verify(c, file, pos, count, ids) == if rest.None? then None else Some([row] + rest.value)
  {}

  /** The loop state: what is left to verify decides, and how many rows there are. */
  ghost predicate Remaining(c: Codec, file: seq<Byte>, pos: nat, count: nat, ids: set<Identity>) {
    && pos <= |file|
    && var whole, rest := Verify(c, file, 0, 0, {}), Verify(c, file, pos, count, ids);
    && (rest.Some? <==> whole.Some?) && (whole.Some? ==> count + |rest.value| == |whole.value|)
  }

  method VerifyObservations(c: Codec, file: seq<Byte>) returns (ok: bool, count: nat, offset: nat)
    ensures ok == Verify(c, file, 0, 0, {}).Some?
    ensures ok ==> count == |Verify(c, file, 0, 0, {}).value| && offset <= |file|
  {
    var ids: set<Identity> := {};
    count, offset, ok := 0, 0, true;
    while true
      invariant Remaining(c, file, offset, count, ids) && ok
      decreases |file| - offset
    {
      var raw := LineAt(file, offset, LINE + 1);
      VerifyUnfolds(c, file, offset, count, ids);
      if raw == [] {
        return;
      }
      var row := CheckedRow(c, raw, count, ids);
      if row.None? {
        return false, count, offset;
      }
      ids := IdsWith(ids, row.value);
      count := count + 1;
      offset := offset + |raw|;
    }
  }

  function NonLossIds(log: seq<Record>): set<Identity> {
    set i | 0 <= i < |log| && !log[i].prepared.loss :: log[i].prepared.identity
  }

  /** Row i is within what a backup accepts of a row: the length of its line, the count
      of rows, and the range of its local sequence. */
  predicate RowAccepted(c: Codec, log: seq<Record>, i: nat)
    requires i < |log|
  {
    i + 1 <= MAX_OBSERVATIONS && |c.enc(log[i])| <= LINE && IsInteger(log[i].prepared.identity.1, 0)
  }

  ghost predicate AcceptedFrom(c: Codec, log: seq<Record>, n: nat) {
    forall i :: n <= i < |log| ==> RowAccepted(c, log, i)
  }

  /** Rows within the size bounds of a backup. */
  ghost predicate WithinBounds(c: Codec, log: seq<Record>) {
    |log| <= MAX_OBSERVATIONS && forall i :: 0 <= i < |log| ==> |c.enc(log[i])| <= LINE
  }

  /** Every row's local sequence is an integer the archive's files may hold. */
  ghost predicate LocalsInRange(log: seq<Record>) {
    forall i :: 0 <= i < |log| ==> log[i].prepared.identity.1 <= MAX_REVISION
  }

  lemma {:induction false} IdsExtend(log: seq<Record>, n: nat)
    requires n < |log| && UniqueRows(log)
    ensures NonLossIds(log[..n + 1]) ==
      if log[n].prepared.loss then NonLossIds(log[..n]) else NonLossIds(log[..n]) + {log[n].prepared.identity}
    ensures log[n].prepared.identity in NonLossIds(log[..n]) ==> log[n].prepared.loss
  {
    var more, less := log[..n + 1], log[..n];
    forall i | 0 <= i < n && !log[i].prepared.loss
      ensures log[i].prepared.identity in NonLossIds(less) && log[i].prepared.identity in NonLossIds(more)
    {
      assert less[i] == log[i] && more[i] == log[i];
    }
    forall x | x in NonLossIds(more) ensures x in NonLossIds(less) || (!log[n].prepared.loss && x == log[n].prepared.identity) {
      var i :| 0 <= i < |more| && !more[i].prepared.loss && more[i].prepared.identity == x;
      assert more[i] == log[i];
    }
    forall x | x in NonLossIds(less) ensures x in NonLossIds(more) {
      var i :| 0 <= i < |less| && !less[i].prepared.loss && less[i].prepared.identity == x;
      assert less[i] == log[i];
    }
    if !log[n].prepared.loss {
      assert more[n].prepared.identity in NonLossIds(more);
    }
  }

  /** What is left to verify after n rows of a log: the rest, or a refusal. */
  ghost predicate VerifiesFrom(c: Codec, log: seq<Record>, n: nat)
    requires n <= |log|
  {
    var pos := |Encode(c, log[..n])|;
    pos <= |Encode(c, log)|
    && Verify(c, Encode(c, log), pos, n, NonLossIds(log[..n])) == if AcceptedFrom(c, log, n) then Some(log[n..]) else None
  }

  /** The line read at row n: the row's own, or more than a line may hold. */
  lemma {:induction false} LineOfRow(c: Codec, log: seq<Record>, n: nat)
    requires Sound(c) && n < |log|
    ensures |Encode(c, log[..n])| + |c.enc(log[n])| <= |Encode(c, log)|
    ensures var raw := LineAt(Encode(c, log), |Encode(c, log[..n])|, LINE + 1);
      if |c.enc(log[n])| <= LINE then raw == c.enc(log[n]) else |raw| > LINE
  {
    var file, pos := Encode(c, log), |Encode(c, log[..n])|;
    EncodePrefix(c, log, n);
    assert Readable(c, log[n]);
    if |c.enc(log[n])| <= LINE {
      RowLine(c, file, log, n, LINE + 1);
    } else {
      SliceOfPrefix(file, file, pos, c.enc(log[n]));
      ReadsLong(file, pos, c.enc(log[n]), LINE + 1);
    }
  }

  lemma {:induction false} CheckedRowIs(c: Codec, log: seq<Record>, n: nat, raw: seq<Byte>)
    requires n < |log| && Readable(c, log[n]) && log[n].seqNo == n + 1 && UniqueRows(log)
    requires if |c.enc(log[n])| <= LINE then raw == c.enc(log[n]) else |raw| > LINE
    ensures CheckedRow(c, raw, n, NonLossIds(log[..n])) == if RowAccepted(c, log, n) then Some(log[n]) else None
  {
    IdsExtend(log, n);
  }

  lemma {:induction false} AcceptedSplits(c: Codec, log: seq<Record>, n: nat)
    requires n < |log|
    ensures AcceptedFrom(c, log, n) <==> RowAccepted(c, log, n) && AcceptedFrom(c, log, n + 1)
  {}

  lemma {:induction false} VerifyOneMore(c: Codec, log: seq<Record>, n: nat)
    requires Sound(c) && Numbered(log) && UniqueRows(log) && n < |log| && VerifiesFrom(c, log, n + 1)
    ensures VerifiesFrom(c, log, n)
  {
    var file, pos, ids := Encode(c, log), |Encode(c, log[..n])|, NonLossIds(log[..n]);
    LineOfRow(c, log, n);
    var raw := LineAt(file, pos, LINE + 1);
    assert |Encode(c, log[..n + 1])| == pos + |c.enc(log[n])| by {
      EncodeAt(c, log, n);
    }
    assert Readable(c, log[n]);
    CheckedRowIs(c, log, n, raw);
    AcceptedSplits(c, log, n);
    VerifyUnfolds(c, file, pos, n, ids);
    assert IdsWith(ids, log[n]) == NonLossIds(log[..n + 1]) by {
      IdsExtend(log, n);
    }
    assert log[n..] == [log[n]] + log[n + 1..];
  }

  lemma {:induction false} VerifyFrom(c: Codec, log: seq<Record>, n: nat)
    requires Sound(c) && Numbered(log) && UniqueRows(log) && n <= |log|
    ensures VerifiesFrom(c, log, n)
    decreases |log| - n
  {
    if n == |log| {
      assert log[..n] == log && log[n..] == [];
      assert LineAt(Encode(c, log), |Encode(c, log)|, LINE + 1) == [];
    } else {
      VerifyFrom(c, log, n + 1);
      VerifyOneMore(c, log, n);
    }
  }

  /** A published prefix that is numbered from 1 and has one row for each identity is
      accepted, whole, exactly when it is within the size bounds and every local
      sequence is in range, and refused otherwise. */
  lemma {:induction false} VerifyAccepts(c: Codec, log: seq<Record>)
    requires Sound(c) && Numbered(log) && UniqueRows(log)
    ensures Verify(c, Encode(c, log), 0, 0, {}) == if WithinBounds(c, log) && LocalsInRange(log) then Some(log) else None
  {
    VerifyFrom(c, log, 0);
    assert log[..0] == [] && log[0..] == log && NonLossIds([]) == {};
    AcceptedMeans(c, log);
  }

  lemma {:induction false} AcceptedMeans(c: Codec, log: seq<Record>)
    ensures AcceptedFrom(c, log, 0) <==> WithinBounds(c, log) && LocalsInRange(log)
  {
    if AcceptedFrom(c, log, 0) {
      if log != [] {
        assert RowAccepted(c, log, |log| - 1);
      }
      forall i | 0 <= i < |log| ensures |c.enc(log[i])| <= LINE && log[i].prepared.identity.1 <= MAX_REVISION {
        assert RowAccepted(c, log, i);
      }
    }
  }

  /** Rows accepted against identities already seen, numbered after count. */
  ghost predicate AcceptedAfter(rows: seq<Record>, count: nat, ids: set<Identity>) {
    && (forall i :: 0 <= i < |rows| ==> rows[i].seqNo == count + 1 + i)
    && (forall i :: 0 <= i < |rows| && !rows[i].prepared.loss ==> rows[i].prepared.identity !in ids)
    && UniqueRows(rows) && LocalsInRange(rows)
  }

  lemma {:induction false} AcceptedFirst(row: Record, rest: seq<Record>, count: nat, ids: set<Identity>)
    requires AcceptedAfter(rest, count + 1, IdsWith(ids, row)) && RowInRange(row, count)
    requires !row.prepared.loss ==> row.prepared.identity !in ids
    ensures AcceptedAfter([row] + rest, count, ids)
  {
    var rows := [row] + rest;
    assert forall i :: 0 < i < |rows| ==> rows[i] == rest[i - 1];
    assert UniqueRows(rows);
  }

  /** What verification accepts is numbered consecutively and has one row for each
      identity, whatever the file is. */
  lemma {:induction false} VerifySound(c: Codec, file: seq<Byte>, pos: nat, count: nat, ids: set<Identity>)
    requires pos <= |file| && Verify(c, file, pos, count, ids).Some?
    ensures AcceptedAfter(Verify(c, file, pos, count, ids).value, count, ids)
    decreases |file| - pos
  {
    var raw := LineAt(file, pos, LINE + 1);
    if raw != [] {
      var row := c.dec(raw).value;
      VerifySound(c, file, pos + |raw|, count + 1, IdsWith(ids, row));
      AcceptedFirst(row, Verify(c, file, pos + |raw|, count + 1, IdsWith(ids, row)).value, count, ids);
    }
  }
}
