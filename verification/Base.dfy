/** Vocabulary shared by every module: time, the ways a database call can end, counting and summing. */
module Base {

  /** Time is an integer number of microseconds, the resolution of a Postgres timestamp. */
  const SECOND: int := 1_000_000
  const MILLISECOND: int := 1_000

  datatype Option<+T> = None | Some(value: T) {
    function GetOr(default: T): T {
      if Some? then value else default
    }
  }

  /** How a statement sent to the database ends for its caller.
      An error reply says nothing about whether the statement took effect. */
  datatype Call = Succeeded | FailedBefore | FailedAfter {
    predicate Applied() {
      !FailedBefore?
    }
  }

  predicate NoDup<T(==)>(s: seq<T>) {
    forall i, j :: 0 <= i < j < |s| ==> s[i] != s[j]
  }

  function Elements<T(==)>(s: seq<T>): set<T> {
    set x | x in s
  }

  lemma {:induction false} NoDupCardinality<T>(s: seq<T>)
    requires NoDup(s)
    ensures |Elements(s)| == |s|
  {
    if s == [] {
    } else {
      var last := s[|s| - 1];
      NoDupCardinality(s[..|s| - 1]);
      assert Elements(s) == Elements(s[..|s| - 1]) + {last};
    }
  }

  lemma Singleton<T>(s: set<T>, x: T)
    requires x in s
    ensures |s| == 1 <==> s == {x}
  {
    assert |s - {x}| == |s| - 1;
  }

  lemma Another<T>(s: set<T>, x: T) returns (y: T)
    requires x in s && |s| != 1
    ensures y in s && y != x
  {
    var rest := s - {x};
    assert |rest| == |s| - 1;
    assert rest != {};
    y :| y in rest;
  }

  /** A set of numbers that all lie in [low, high) has at most high - low members. */
  lemma {:induction false} BoundedCardinality(s: set<nat>, low: nat, high: nat)
    requires low <= high
    requires forall k :: k in s ==> low <= k < high
    ensures |s| <= high - low
    decreases high
  {
    if low == high {
      assert s == {};
    } else {
      BoundedCardinality(s - {high - 1}, low, high - 1);
    }
  }

  function Sum(s: seq<nat>): (total: nat) {
    if s == [] then 0 else Sum(s[..|s| - 1]) + s[|s| - 1]
  }

  lemma {:induction false} SumAtMost(s: seq<nat>, bound: nat)
    requires forall i :: 0 <= i < |s| ==> s[i] <= bound
    ensures Sum(s) <= bound * |s|
  {
    if s == [] {
    } else {
      SumAtMost(s[..|s| - 1], bound);
    }
  }

  lemma {:induction false} SumBump(s: seq<nat>, i: nat)
    requires i < |s|
    ensures Sum(s[i := s[i] + 1]) == Sum(s) + 1
  {
    var t := s[i := s[i] + 1];
    if i == |s| - 1 {
      assert t[..|s| - 1] == s[..|s| - 1];
    } else {
      SumBump(s[..|s| - 1], i);
      assert t[..|s| - 1] == s[..|s| - 1][i := s[i] + 1];
    }
  }

  /** The sum of m[i] over the keys i < n of m. */
  ghost function SumTo(m: map<nat, int>, n: nat): int {
    if n == 0 then 0 else SumTo(m, n - 1) + if n - 1 in m then m[n - 1] else 0
  }

  lemma {:induction false} SumToMonotone(a: map<nat, int>, b: map<nat, int>, n: nat)
    requires a.Keys == b.Keys
    requires forall i :: i in a ==> a[i] <= b[i]
    ensures SumTo(a, n) <= SumTo(b, n)
  {
    if n > 0 {
      SumToMonotone(a, b, n - 1);
    }
  }

  /** Raising m by one at each picked key raises the sum by the number of picked keys below n. */
  lemma {:induction false} SumToPicked(a: map<nat, int>, b: map<nat, int>, picked: set<nat>, n: nat)
    requires a.Keys == b.Keys && picked <= a.Keys
    requires forall i :: i in a ==> b[i] == a[i] + if i in picked then 1 else 0
    requires forall i :: i in picked ==> i < n
    ensures SumTo(b, n) == SumTo(a, n) + |picked|
  {
    SumToPickedBelow(a, b, picked, n);
    assert (set i | i in picked && i < n) == picked;
  }

  lemma {:induction false} SumToPickedBelow(a: map<nat, int>, b: map<nat, int>, picked: set<nat>, n: nat)
    requires a.Keys == b.Keys && picked <= a.Keys
    requires forall i :: i in a ==> b[i] == a[i] + if i in picked then 1 else 0
    ensures SumTo(b, n) == SumTo(a, n) + |set i | i in picked && i < n|
  {
    var below := set i | i in picked && i < n;
    if n == 0 {
      assert below == {};
    } else {
      SumToPickedBelow(a, b, picked, n - 1);
      var shorter := set i | i in picked && i < n - 1;
      if n - 1 in picked {
        assert below == shorter + {n - 1};
      } else {
        assert below == shorter;
      }
    }
  }

  /** When every summand is at most bound and the sum reaches bound * size, every summand is bound. */
  lemma {:induction false} SumToTight(m: map<nat, int>, n: nat, bound: nat)
    requires forall i :: i in m ==> i < n && m[i] <= bound
    requires SumTo(m, n) >= bound * |m|
    ensures forall i :: i in m ==> m[i] == bound
  {
    var flat: map<nat, int> := map i | i in m :: bound;
    assert flat.Keys == m.Keys;
    assert |m.Keys| == |m|;
    SumToFlat(flat, n, bound);
    forall j | j in m
      ensures m[j] == bound
    {
      if m[j] < bound {
        SumToStrict(m, flat, n, j);
      }
    }
  }

  lemma {:induction false} SumToStrict(a: map<nat, int>, b: map<nat, int>, n: nat, j: nat)
    requires a.Keys == b.Keys && j in a && j < n && a[j] < b[j]
    requires forall i :: i in a ==> a[i] <= b[i]
    ensures SumTo(a, n) < SumTo(b, n)
  {
    if j == n - 1 {
      SumToMonotone(a, b, n - 1);
    } else {
      SumToStrict(a, b, n - 1, j);
    }
  }

  lemma {:induction false} SumToFlat(m: map<nat, int>, n: nat, value: nat)
    requires forall i :: i in m ==> i < n && m[i] == value
    ensures SumTo(m, n) == value * |m.Keys|
  {
    if n == 0 {
      assert m.Keys == {};
    } else if n - 1 in m {
      var rest := Without(m, n - 1);
      SumToSame(rest, m, n - 1);
      SumToFlat(rest, n - 1, value);
      Distribute(value, |rest.Keys|, |m.Keys|);
    } else {
      SumToFlat(m, n - 1, value);
    }
  }

  function Without(m: map<nat, int>, k: nat): (rest: map<nat, int>)
    requires k in m
    ensures forall i :: i in rest <==> i in m && i != k
    ensures forall i :: i in rest ==> rest[i] == m[i]
    ensures |m.Keys| == |rest.Keys| + 1
  {
    var rest := map i | i in m && i != k :: m[i];
    assert m.Keys == rest.Keys + {k};
    rest
  }

  lemma Distribute(a: int, b: int, c: int)
    requires c == b + 1
    ensures a * c == a * b + a
  {
  }

  /** n * d, without a multiplication. */
  function Times(n: nat, d: nat): nat {
    if n == 0 then 0 else d + Times(n - 1, d)
  }

  lemma {:induction false} TimesProduct(n: nat, d: nat)
    ensures Times(n, d) == n * d
  {
    if n > 0 {
      TimesProduct(n - 1, d);
      OneMore(n - 1, n, d);
    }
  }

  lemma {:induction false} TimesMonotone(m: nat, n: nat, d: nat)
    requires m <= n
    ensures Times(m, d) <= Times(n, d)
    decreases n
  {
    if m < n {
      TimesMonotone(m, n - 1, d);
    }
  }

  lemma OneMore(a: int, b: int, d: int)
    requires b == a + 1
    ensures b * d == d + a * d
  {
  }

  /** The sum looks only at keys below n. */
  lemma {:induction false} SumToSame(a: map<nat, int>, b: map<nat, int>, n: nat)
    requires forall i: nat :: i < n ==> (i in a <==> i in b) && (i in a ==> a[i] == b[i])
    ensures SumTo(a, n) == SumTo(b, n)
  {
    if n > 0 {
      SumToSame(a, b, n - 1);
    }
  }

  lemma {:induction false} SumToMinus(a: map<nat, int>, b: map<nat, int>, d: map<nat, int>, n: nat)
    requires a.Keys == b.Keys == d.Keys
    requires forall i :: i in d ==> d[i] == a[i] - b[i]
    ensures SumTo(d, n) == SumTo(a, n) - SumTo(b, n)
  {
    if n > 0 {
      SumToMinus(a, b, d, n - 1);
    }
  }

  lemma {:induction false} SumToNonNegative(m: map<nat, int>, n: nat)
    requires forall i :: i in m ==> m[i] >= 0
    ensures SumTo(m, n) >= 0
  {
    if n > 0 {
      SumToNonNegative(m, n - 1);
    }
  }
}
