/** The Option type, the checks of integers and tokens, sorting and queue sums, shared by every module of the project. */
module Common {

  datatype Option<+T> = None | Some(value: T)

  function Min(a: int, b: int): int {
    if a <= b then a else b
  }

  function Max(a: int, b: int): int {
    if a >= b then a else b
  }

  function Abs(x: int): nat {
    if x >= 0 then x else -x
  }

  /** The largest integer the archive's files may hold. */
  const MAX_REVISION := 0x7fff_ffff_ffff_ffff

  predicate IsInteger(n: int, minimum: nat) {
    minimum <= n <= MAX_REVISION
  }

  predicate TokenChar(c: char) {
    'A' <= c <= 'Z' || 'a' <= c <= 'z' || '0' <= c <= '9' || c == '_' || c == '.' || c == ':' || c == '-'
  }

  predicate SafeToken(s: string) {
    0 < |s| <= 128 && forall i :: 0 <= i < |s| ==> TokenChar(s[i])
  }
}

/** Sorting by a total order, as the library's `sorted` does; uniqueness of
    the result is what lets two sorts of the same elements be compared. */
module Sorting {

  ghost predicate TotalOrder<T(!new)>(le: (T, T) -> bool) {
    && (forall x, y :: le(x, y) || le(y, x))
    && (forall x, y :: le(x, y) && le(y, x) ==> x == y)
    && (forall x, y, z :: le(x, y) && le(y, z) ==> le(x, z))
  }

  ghost predicate SortedBy<T>(s: seq<T>, le: (T, T) -> bool) {
    forall i, j :: 0 <= i < j < |s| ==> le(s[i], s[j])
  }

  function Insert<T>(x: T, s: seq<T>, le: (T, T) -> bool): (r: seq<T>)
    ensures multiset(r) == multiset(s) + multiset{x}
  {
    if s == [] then [x]
    else if le(x, s[0]) then
      [x] + s
    else
      assert s == [s[0]] + s[1..];
      [s[0]] + Insert(x, s[1..], le)
  }

  function Sort<T>(s: seq<T>, le: (T, T) -> bool): (r: seq<T>)
    ensures multiset(r) == multiset(s)
    ensures |r| == |s|
  {
    if s == [] then []
    else
      assert s == [s[0]] + s[1..];
      var r := Insert(s[0], Sort(s[1..], le), le);
      assert |multiset(r)| == |r| && |multiset(s)| == |s|;
      r
  }

  lemma {:induction false} InsertSorted<T(!new)>(x: T, s: seq<T>, le: (T, T) -> bool)
    requires TotalOrder(le) && SortedBy(s, le)
    ensures SortedBy(Insert(x, s, le), le)
  {
    if s != [] && !le(x, s[0]) {
      InsertSorted(x, s[1..], le);
      var t := Insert(x, s[1..], le);
      forall y | y in t ensures le(s[0], y) {
        assert y in multiset(t);
      }
      assert Insert(x, s, le) == [s[0]] + t;
    }
  }

  lemma {:induction false} SortSorted<T(!new)>(s: seq<T>, le: (T, T) -> bool)
    requires TotalOrder(le)
    ensures SortedBy(Sort(s, le), le)
  {
    if s != [] {
      SortSorted(s[1..], le);
      InsertSorted(s[0], Sort(s[1..], le), le);
    }
  }

  lemma {:induction false} SortedUnique<T(!new)>(a: seq<T>, b: seq<T>, le: (T, T) -> bool)
    requires TotalOrder(le) && SortedBy(a, le) && SortedBy(b, le)
    requires multiset(a) == multiset(b)
    ensures a == b
  {
    assert |multiset(a)| == |a| && |multiset(b)| == |b|;
    if a != [] {
      assert a[0] == b[0] by {
        assert a[0] in multiset(b) && b[0] in multiset(a);
        assert a[0] in b && b[0] in a;
        assert le(a[0], b[0]) && le(b[0], a[0]);
      }
      assert multiset(a[1..]) == multiset(b[1..]) by {
        assert a == [a[0]] + a[1..] && b == [b[0]] + b[1..];
        assert multiset(a[1..]) == multiset(a) - multiset{a[0]};
        assert multiset(b[1..]) == multiset(b) - multiset{b[0]};
      }
      SortedUnique(a[1..], b[1..], le);
    }
  }

  // ---------------------------------------------------------------- sorting and filtering

  ghost predicate TotalPreorder<T(!new)>(le: (T, T) -> bool) {
    && (forall x, y :: le(x, y) || le(y, x))
    && (forall x, y, z :: le(x, y) && le(y, z) ==> le(x, z))
  }

  function Filter<T>(s: seq<T>, keep: T -> bool): (r: seq<T>)
    ensures |r| <= |s|
  {
    if s == [] then []
    else (if keep(s[0]) then [s[0]] else []) + Filter(s[1..], keep)
  }

  lemma {:induction false} FilterMembers<T>(s: seq<T>, keep: T -> bool, x: T)
    ensures x in Filter(s, keep) <==> x in s && keep(x)
  {
    if s != [] {
      FilterMembers(s[1..], keep, x);
      assert s == [s[0]] + s[1..];
    }
  }

  lemma {:induction false} FilterAll<T>(s: seq<T>, keep: T -> bool)
    requires forall x :: x in s ==> keep(x)
    ensures Filter(s, keep) == s
  {
    if s != [] {
      FilterAll(s[1..], keep);
    }
  }

  lemma {:induction false} FilterCons<T>(x: T, s: seq<T>, keep: T -> bool)
    ensures Filter([x] + s, keep) == (if keep(x) then [x] + Filter(s, keep) else Filter(s, keep))
  {
    assert ([x] + s)[1..] == s;
  }

  lemma {:induction false} FilterConcat<T>(a: seq<T>, b: seq<T>, keep: T -> bool)
    ensures Filter(a + b, keep) == Filter(a, keep) + Filter(b, keep)
  {
    if a == [] {
      assert a + b == b;
    } else {
      var x, t := a[0], a[1..];
      FilterConcat(t, b, keep);
      FilterCons(x, t, keep);
      FilterCons(x, t + b, keep);
      var head := if keep(x) then [x] else [];
      calc {
        Filter(a + b, keep);
        { assert a + b == [x] + (t + b); }
        head + Filter(t + b, keep);
        head + (Filter(t, keep) + Filter(b, keep));
        (head + Filter(t, keep)) + Filter(b, keep);
        { assert a == [x] + t; }
        Filter(a, keep) + Filter(b, keep);
      }
    }
  }

  lemma {:induction false} InsertKeepsOrder<T(!new)>(x: T, s: seq<T>, le: (T, T) -> bool)
    requires TotalPreorder(le) && SortedBy(s, le)
    ensures SortedBy(Insert(x, s, le), le)
  {
    if s != [] && !le(x, s[0]) {
      InsertKeepsOrder(x, s[1..], le);
      var t := Insert(x, s[1..], le);
      forall y | y in t ensures le(s[0], y) {
        assert y in multiset(t);
      }
    }
  }

  lemma {:induction false} SortOrders<T(!new)>(s: seq<T>, le: (T, T) -> bool)
    requires TotalPreorder(le)
    ensures SortedBy(Sort(s, le), le)
  {
    if s != [] {
      SortOrders(s[1..], le);
      InsertKeepsOrder(s[0], Sort(s[1..], le), le);
    }
  }

  lemma {:induction false} InsertFilter<T(!new)>(x: T, s: seq<T>, le: (T, T) -> bool, keep: T -> bool)
    requires TotalPreorder(le) && SortedBy(s, le)
    ensures Filter(Insert(x, s, le), keep) == if keep(x) then Insert(x, Filter(s, keep), le) else Filter(s, keep)
  {
    if s == [] {
      FilterCons(x, s, keep);
      assert [x] + s == [x];
    } else if le(x, s[0]) {
      FilterCons(x, s, keep);
      var f := Filter(s, keep);
      if f != [] {
        FilterMembers(s, keep, f[0]);
        assert le(x, f[0]);
      }
    } else {
      var y, t := s[0], s[1..];
      InsertFilter(x, t, le, keep);
      assert s == [y] + t;
      FilterCons(y, t, keep);
      FilterCons(y, Insert(x, t, le), keep);
      var f := Filter(t, keep);
      assert ([y] + f)[1..] == f;
    }
  }

  /** A stable sort commutes with a filter. */
  lemma {:induction false} SortFilter<T(!new)>(s: seq<T>, le: (T, T) -> bool, keep: T -> bool)
    requires TotalPreorder(le)
    ensures Filter(Sort(s, le), keep) == Sort(Filter(s, keep), le)
  {
    if s != [] {
      SortFilter(s[1..], le, keep);
      SortOrders(s[1..], le);
      InsertFilter(s[0], Sort(s[1..], le), le, keep);
      var f := Filter(s[1..], keep);
      if keep(s[0]) {
        assert ([s[0]] + f)[1..] == f;
      } else {
        assert [] + f == f;
      }
    }
  }

  function Top<T>(s: seq<T>, k: nat): seq<T> {
    if |s| <= k then s else s[..k]
  }

  /** Dropping only elements outside the first k leaves the first k unchanged. */
  lemma {:induction false} TopOfFilter<T>(s: seq<T>, keep: T -> bool, k: nat)
    requires forall x :: x in Top(s, k) ==> keep(x)
    ensures Top(Filter(s, keep), k) == Top(s, k)
  {
    var top := Top(s, k);
    var rest := s[|top|..];
    assert s == top + rest;
    FilterConcat(top, rest, keep);
    FilterAll(top, keep);
  }
}

/** A queue's items, one taken out, and what their sizes add up to. */
module Queues {

  function Without<T>(q: seq<T>, i: nat): seq<T>
    requires i < |q|
  {
    q[..i] + q[i + 1..]
  }

  lemma {:induction false} WithoutBehind<T>(front: seq<T>, q: seq<T>, i: nat)
    requires i < |q|
    ensures Without(front + q, |front| + i) == front + Without(q, i)
  {}

  function Total<T>(q: seq<T>, size: T -> nat): nat {
    if q == [] then 0 else Total(q[..|q| - 1], size) + size(q[|q| - 1])
  }

  lemma {:induction false} TotalConcat<T>(a: seq<T>, b: seq<T>, size: T -> nat)
    ensures Total(a + b, size) == Total(a, size) + Total(b, size)
    decreases |b|
  {
    if b == [] {
      assert a + b == a;
    } else {
      assert (a + b)[..|a + b| - 1] == a + b[..|b| - 1];
      TotalConcat(a, b[..|b| - 1], size);
    }
  }

  lemma {:induction false} TotalOne<T>(x: T, size: T -> nat)
    ensures Total([x], size) == size(x)
  {
    assert [x][..0] == [];
  }

  lemma {:induction false} TotalWithout<T>(q: seq<T>, i: nat, size: T -> nat)
    requires i < |q|
    ensures Total(Without(q, i), size) == Total(q, size) - size(q[i])
  {
    assert q == q[..i] + [q[i]] + q[i + 1..];
    TotalConcat(q[..i] + [q[i]], q[i + 1..], size);
    TotalConcat(q[..i], [q[i]], size);
    TotalConcat(q[..i], q[i + 1..], size);
    TotalOne(q[i], size);
  }

  lemma {:induction false} TotalBound<T>(q: seq<T>, size: T -> nat, maximum: nat)
    requires forall i :: 0 <= i < |q| ==> size(q[i]) <= maximum
    ensures Total(q, size) <= |q| * maximum
  {
    if q != [] {
      TotalBound(q[..|q| - 1], size, maximum);
      assert |q| * maximum == (|q| - 1) * maximum + maximum;
    }
  }
}
