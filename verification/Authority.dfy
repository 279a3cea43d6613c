/** The serving pointer and the permanent fencing of source incarnations
    (archive/management_authority.py). One file, control.json, is replaced
    atomically; nothing in it is ever taken back. */
module Authority {
  import opened Common

  const MAX_SOURCES := 8192
  const MAX_JOBS := 128

  type Source = string
  type JobId = string

  /** The generation, the serving job, the generation each source was registered at,
      and the generation each committed job began. */
  datatype Control = Control(generation: nat, serving: Option<JobId>, sources: map<Source, nat>, committed: map<JobId, nat>)

  /** A write is refused for size before it starts, lands, fails before the
      replacement, or fails after it. */
  datatype WriteIo = TooLarge | Written | NotReplaced | ReplacedThenFailed

  /** control.json and what the process holds of it. */
  datatype Held = Held(disk: Control, value: Control, failed: bool)

  datatype Answer = Registered | Fenced | Unavailable | Bound

  predicate Allowed(h: Held, s: Source) {
    !h.failed && s in h.value.sources && h.value.sources[s] == h.value.generation
  }

  /** Whether the write landed, and what it leaves. */
  function Write(h: Held, next: Control, io: WriteIo): (Held, bool) {
    match io
    case TooLarge => (h, false)
    case Written => (Held(next, next, h.failed), true)
    case NotReplaced => (h.(failed := true), false)
    case ReplacedThenFailed => (Held(next, h.value, true), false)
  }

  function RegisterOf(h: Held, s: Source, io: WriteIo): (Held, Answer) {
    if h.failed then (h, Unavailable)
    else if s in h.value.sources then (h, if Allowed(h, s) then Registered else Fenced)
    else if |h.value.sources| >= MAX_SOURCES then (h, Bound)
    else
      var (after, landed) := Write(h, h.value.(sources := h.value.sources[s := h.value.generation]), io);
      (after, if landed then Registered else if io.TooLarge? then Bound else Unavailable)
  }

  /** Sources of rows already in the archive are known, never new: at the first
      cutover with the generation 0, later with one below the current. */
  function Seeded(sources: map<Source, nat>, missing: set<Source>, g: nat): map<Source, nat> {
    map s | s in sources.Keys + missing :: if s in sources then sources[s] else g
  }

  function WithHistory(c: Control, missing: set<Source>): Control {
    c.(sources := Seeded(c.sources, missing, if c.generation == 0 then 0 else c.generation - 1))
  }

  function SeedOf(h: Held, seen: set<Source>, io: WriteIo): (Held, bool) {
    var missing := seen - h.value.sources.Keys;
    if missing == {} then (h, true)
    else if |missing| + |h.value.sources| > MAX_SOURCES then (h, false)
    else Write(h, WithHistory(h.value, missing), io)
  }

  function Switched(c: Control, job: JobId): Control {
    Control(c.generation + 1, Some(job), c.sources, c.committed[job := c.generation + 1])
  }

  function SwitchOf(h: Held, job: JobId, io: WriteIo): (Held, bool) {
    Write(h, Switched(h.value, job), io)
  }

  // ---------------------------------------------------------------- what the writes mean

  /** Nothing but this source's registration differs, if anything. */
  predicate OnlyAdds(c: Control, d: Control, added: set<Source>, g: nat) {
    && d.generation == c.generation && d.serving == c.serving && d.committed == c.committed
    && d.sources.Keys == c.sources.Keys + added
    && (forall s :: s in c.sources ==> d.sources[s] == c.sources[s])
    && (forall s :: s in added && s !in c.sources ==> d.sources[s] == g)
  }

  /** What a write of these additions leaves: on disk when the file was replaced, in the
      process when the write succeeded, and a failure mark when it is uncertain. */
  predicate Leaves(h: Held, after: Held, added: set<Source>, g: nat, io: WriteIo) {
    && (if io.Written? || io.ReplacedThenFailed? then OnlyAdds(h.value, after.disk, added, g) else after.disk == h.disk)
    && (if io.Written? then after.value == after.disk else after.value == h.value)
    && (after.failed <==> h.failed || io.NotReplaced? || io.ReplacedThenFailed?)
  }

  /** A registration: a source of the serving generation is answered, one of another
      generation is fenced, and a new one is written at the serving generation. */
  predicate Registers(h: Held, s: Source, io: WriteIo, after: Held, answer: Answer) {
    if h.failed then after == h && answer == Unavailable
    else if s in h.value.sources then
      after == h && answer == if h.value.sources[s] == h.value.generation then Registered else Fenced
    else if |h.value.sources| >= MAX_SOURCES then after == h && answer == Bound
    else
      && Leaves(h, after, {s}, h.value.generation, io)
      && (answer == Registered <==> io.Written?) && (answer == Bound <==> io.TooLarge?)
      && answer in {Registered, Bound, Unavailable}
  }

  lemma {:induction false} RegisterMeans(h: Held, s: Source, io: WriteIo)
    ensures var (after, answer) := RegisterOf(h, s, io); Registers(h, s, io, after, answer)
  {
    assert h.value.sources[s := h.value.generation].Keys == h.value.sources.Keys + {s};
  }

  /** The history: sources of existing rows that are not known yet are written below the
      serving generation, or at 0 before the first, so that a later cutover fences them. */
  predicate Seeds(h: Held, seen: set<Source>, io: WriteIo, after: Held, ok: bool) {
    var missing := seen - h.value.sources.Keys;
    if missing == {} then after == h && ok
    else if |missing| + |h.value.sources| > MAX_SOURCES then after == h && !ok
    else
      && Leaves(h, after, missing, if h.value.generation == 0 then 0 else h.value.generation - 1, io)
      && (ok <==> io.Written?)
  }

  lemma {:induction false} SeedMeans(h: Held, seen: set<Source>, io: WriteIo)
    ensures var (after, ok) := SeedOf(h, seen, io); Seeds(h, seen, io, after, ok)
  {
    var missing := seen - h.value.sources.Keys;
    assert WithHistory(h.value, missing).sources.Keys == h.value.sources.Keys + missing;
  }

  /** Once generations have begun no source of the history is let in by seeding it. */
  lemma {:induction false} SeededIsFenced(h: Held, seen: set<Source>, io: WriteIo, s: Source)
    requires h.value.generation > 0 && s in seen && s !in h.value.sources
    ensures !Allowed(SeedOf(h, seen, io).0, s)
  {
    SeedMeans(h, seen, io);
  }

  // ---------------------------------------------------------------- the object

  class Authority {
    var control: Control
    var value: Control
    var failed: bool

    constructor (disk: Control)
      ensures Contents() == Held(disk, disk, false)
    {
      control, value, failed := disk, disk, false;
    }

    function Contents(): Held
      reads this
    {
      Held(control, value, failed)
    }

    method WriteControl(next: Control, io: WriteIo) returns (landed: bool)
      modifies this
      ensures (Contents(), landed) == Write(old(Contents()), next, io)
      ensures (landed <==> io.Written?) && value == if landed then next else old(value)
      ensures control == if io.Written? || io.ReplacedThenFailed? then next else old(control)
      ensures failed <==> old(failed) || io.NotReplaced? || io.ReplacedThenFailed?
    {
      if io.TooLarge? {
        return false;
      }
      if !io.NotReplaced? {
        control := next;
      }
      if !io.Written? {
        failed := true;
        return false;
      }
      value := next;
      landed := true;
    }

    method Register(s: Source, io: WriteIo) returns (answer: Answer)
      modifies this
      ensures (Contents(), answer) == RegisterOf(old(Contents()), s, io)
      ensures Registers(old(Contents()), s, io, Contents(), answer)
    {
      RegisterMeans(Contents(), s, io);
      if failed {
        return Unavailable;
      }
      if s in value.sources {
        return if value.sources[s] == value.generation then Registered else Fenced;
      }
      if |value.sources| >= MAX_SOURCES {
        return Bound;
      }
      var landed := WriteControl(value.(sources := value.sources[s := value.generation]), io);
      answer := if landed then Registered else if io.TooLarge? then Bound else Unavailable;
    }

    method SeedHistory(seen: set<Source>, io: WriteIo) returns (ok: bool)
      modifies this
      ensures (Contents(), ok) == SeedOf(old(Contents()), seen, io)
      ensures Seeds(old(Contents()), seen, io, Contents(), ok)
    {
      SeedMeans(Contents(), seen, io);
      var missing := seen - value.sources.Keys;
      if missing == {} {
        return true;
      }
      if |missing| + |value.sources| > MAX_SOURCES {
        return false;
      }
      var next := WithHistory(value, missing);
      ok := WriteControl(next, io);
    }

    method Switch(job: JobId, io: WriteIo) returns (landed: bool)
      modifies this
      ensures (Contents(), landed) == SwitchOf(old(Contents()), job, io)
      ensures landed <==> io.Written?
      ensures landed ==>
        && control == value && failed == old(failed)
        && value.generation == old(value).generation + 1 && value.serving == Some(job) && value.sources == old(value).sources
        && value.committed == old(value).committed[job := old(value).generation + 1]
      ensures !landed ==> value == old(value)
    {
      landed := WriteControl(Control(value.generation + 1, Some(job), value.sources, value.committed[job := value.generation + 1]), io);
    }
  }

  // ---------------------------------------------------------------- well-formed control files

  /** The committed jobs are one to one onto 1..generation, with the serving job at
      the top, and no source is registered beyond the generation. */
  ghost predicate WellFormed(c: Control) {
    && (forall j :: j in c.committed ==> 1 <= c.committed[j] <= c.generation)
    && (forall j, k :: j in c.committed && k in c.committed && c.committed[j] == c.committed[k] ==> j == k)
    && (forall g :: 1 <= g <= c.generation ==> AtLevel(c, g))
    && (c.serving.None? <==> c.generation == 0)
    && (c.serving.Some? ==> c.serving.value in c.committed && c.committed[c.serving.value] == c.generation)
    && (forall s :: s in c.sources ==> c.sources[s] <= c.generation)
  }

  ghost predicate AtLevel(c: Control, g: nat) {
    LevelTaken(c.committed, g)
  }

  ghost predicate LevelTaken(m: map<JobId, nat>, g: nat) {
    exists j :: j in m && m[j] == g
  }

  /** What start-up demands of the file. */
  ghost predicate AcceptedAtStart(c: Control) {
    && |c.sources| <= MAX_SOURCES && (forall s :: s in c.sources ==> 0 <= c.sources[s] <= c.generation)
    && |c.committed| <= MAX_JOBS && (forall j :: j in c.committed ==> 1 <= c.committed[j] <= c.generation)
    && (c.serving.Some? ==> c.serving.value in c.committed)
    && (c.serving.None? <==> c.generation == 0)
  }

  /** Nothing is taken back: registrations and commitments keep their generation. */
  ghost predicate Extends(c: Control, d: Control) {
    && c.generation <= d.generation
    && (forall s :: s in c.sources ==> s in d.sources && d.sources[s] == c.sources[s])
    && (forall j :: j in c.committed ==> j in d.committed && d.committed[j] == c.committed[j])
  }

  /** The disk extends the value; they differ only after an uncertain write, which
      ends all admission. */
  ghost predicate Consistent(h: Held) {
    && WellFormed(h.disk) && WellFormed(h.value) && Extends(h.value, h.disk)
    && (!h.failed ==> h.disk == h.value)
    && |h.disk.sources| <= MAX_SOURCES
  }

  lemma {:induction false} SwitchedWellFormed(c: Control, job: JobId)
    requires WellFormed(c) && job !in c.committed
    ensures WellFormed(Switched(c, job)) && Extends(c, Switched(c, job))
  {
    var d := Switched(c, job);
    forall g | 1 <= g <= d.generation ensures AtLevel(d, g) {
      if g == d.generation {
        assert d.committed[job] == g;
      } else {
        assert AtLevel(c, g);
        var j :| j in c.committed && c.committed[j] == g;
        assert d.committed[j] == g;
      }
    }
  }

  lemma {:induction false} SameCommitments(c: Control, d: Control)
    requires WellFormed(c) && d.generation == c.generation && d.serving == c.serving && d.committed == c.committed
    requires forall s :: s in d.sources ==> d.sources[s] <= d.generation
    requires forall s :: s in c.sources ==> s in d.sources && d.sources[s] == c.sources[s]
    ensures WellFormed(d) && Extends(c, d)
  {
    forall g | 1 <= g <= d.generation ensures AtLevel(d, g) {
      assert AtLevel(c, g);
    }
  }

  /** Registration keeps the file well formed, and is the only way a source becomes
      allowed: at the current generation, once. */
  lemma {:induction false} RegisterKeeps(h: Held, s: Source, io: WriteIo)
    requires Consistent(h)
    ensures Consistent(RegisterOf(h, s, io).0) && Extends(h.disk, RegisterOf(h, s, io).0.disk)
    ensures Extends(h.value, RegisterOf(h, s, io).0.value) && RegisterOf(h, s, io).0.value.generation == h.value.generation
    ensures RegisterOf(h, s, io).1 == Registered ==> Allowed(RegisterOf(h, s, io).0, s)
    ensures s in h.value.sources && h.value.sources[s] != h.value.generation ==>
      RegisterOf(h, s, io).1 != Registered && !Allowed(RegisterOf(h, s, io).0, s)
  {
    var next := h.value.(sources := h.value.sources[s := h.value.generation]);
    if !h.failed && s !in h.value.sources && |h.value.sources| < MAX_SOURCES {
      SameCommitments(h.value, next);
      assert |next.sources.Keys| == |h.value.sources.Keys| + 1 by {
        assert next.sources.Keys == h.value.sources.Keys + {s};
      }
    }
  }

  lemma {:induction false} WriteKeeps(h: Held, next: Control, io: WriteIo)
    requires Consistent(h) && !h.failed && WellFormed(next) && Extends(h.value, next) && |next.sources| <= MAX_SOURCES
    ensures var (after, landed) := Write(h, next, io);
      && Consistent(after) && Extends(h.disk, after.disk) && (landed <==> io.Written?) && (landed ==> !after.failed)
      && (after.value == h.value || (landed && after.value == next)) && (after.disk == h.disk || after.disk == next)
  {}

  lemma {:induction false} HistoryKeeps(c: Control, missing: set<Source>)
    requires WellFormed(c) && missing !! c.sources.Keys
    ensures WellFormed(WithHistory(c, missing)) && Extends(c, WithHistory(c, missing))
    ensures |WithHistory(c, missing).sources| == |c.sources| + |missing|
    ensures forall s :: s in missing ==> s in WithHistory(c, missing).sources
  {
    var d := WithHistory(c, missing);
    assert d.sources.Keys == c.sources.Keys + missing;
    assert |d.sources.Keys| == |c.sources.Keys| + |missing|;
    SameCommitments(c, d);
  }

  /** Seeding registers every historical source and changes nothing else. */
  lemma {:induction false} SeedKeeps(h: Held, seen: set<Source>, io: WriteIo)
    requires Consistent(h) && !h.failed
    ensures var (after, ok) := SeedOf(h, seen, io);
      && Consistent(after) && Extends(h.disk, after.disk) && after.value.generation == h.value.generation
      && (ok ==> !after.failed && forall s :: s in seen ==> s in after.value.sources)
      && after.disk.committed == h.disk.committed && after.disk.generation == h.disk.generation && after.disk.serving == h.disk.serving
  {
    var missing := seen - h.value.sources.Keys;
    forall s | s in seen ensures s in h.value.sources || s in missing {}
    if missing != {} && |missing| + |h.value.sources| <= MAX_SOURCES {
      HistoryKeeps(h.value, missing);
      WriteKeeps(h, WithHistory(h.value, missing), io);
    }
  }

  lemma {:induction false} SwitchKeeps(h: Held, job: JobId, io: WriteIo)
    requires Consistent(h) && !h.failed && job !in h.value.committed
    ensures var (after, landed) := SwitchOf(h, job, io);
      && Consistent(after) && Extends(h.disk, after.disk)
      && (landed <==> io.Written?) && (landed ==> !after.failed && after.disk == after.value == Switched(h.value, job))
      && (!landed ==> after.value == h.value && (after.disk == h.disk || after.disk == Switched(h.value, job)))
      && (after.disk == h.disk
          || (after.disk.generation == h.value.generation + 1 && after.disk.serving == Some(job)
              && after.disk.sources == h.value.sources && after.disk.committed == h.value.committed[job := h.value.generation + 1]))
  {
    SwitchedWellFormed(h.value, job);
  }

  /** Fencing: no source registered before a switch is ever allowed again, whatever
      is registered or switched later. */
  lemma {:induction false} FencedForever(before: Control, h: Held, s: Source)
    requires s in before.sources && before.sources[s] < h.value.generation && Extends(before, h.value)
    ensures !Allowed(h, s)
  {}

  lemma {:induction false} SwitchFencesAll(h: Held, job: JobId)
    requires Consistent(h) && !h.failed
    ensures forall s :: !Allowed(SwitchOf(h, job, Written).0, s)
  {}

  /** Committed jobs fill 1..generation, so there are exactly `generation` of them. */
  lemma {:induction false} CommittedCount(c: Control)
    requires WellFormed(c)
    ensures |c.committed| == c.generation
  {
    forall g | 1 <= g <= c.generation ensures LevelTaken(c.committed, g) {
      assert AtLevel(c, g);
    }
    LevelsCount(c.committed, c.generation);
  }

  lemma {:induction false} LevelsCount(m: map<JobId, nat>, n: nat)
    requires forall j :: j in m ==> 1 <= m[j] <= n
    requires forall j, k :: j in m && k in m && m[j] == m[k] ==> j == k
    requires forall g :: 1 <= g <= n ==> LevelTaken(m, g)
    ensures |m| == n
  {
    if n == 0 {
      assert m.Keys == {};
    } else {
      assert LevelTaken(m, n);
      var top :| top in m && m[top] == n;
      var less := m - {top};
      assert less.Keys == m.Keys - {top};
      forall g | 1 <= g <= n - 1 ensures LevelTaken(less, g) {
        assert LevelTaken(m, g);
        var j :| j in m && m[j] == g;
        assert j in less && less[j] == g;
      }
      LevelsCount(less, n - 1);
      assert |less.Keys| == |m.Keys| - 1;
    }
  }
}
