/**
 * The fragment of SQL semantics that the warehouse queries rely on:
 * NULL as `Option`, `=` that never matches NULL, SUM that skips NULLs,
 * grouping by a key (where NULL keys form one group), inner and left
 * joins, ROUND(x, 2) on exact rationals, and DATE_TRUNC('month', ...).
 */
module Sql {

  datatype Option<+T> = None | Some(value: T)

  /** SQL `a = b`: true only when both sides are non-NULL and equal. */
  predicate SqlEq<T(==,!new)>(a: Option<T>, b: Option<T>) {
    a.Some? && b.Some? && a.value == b.value
  }

  /** COALESCE(a, d). */
  function Coalesce<T(!new)>(a: Option<T>, d: T): T {
    if a.Some? then a.value else d
  }

  function Abs(x: int): nat {
    if x < 0 then -x else x
  }

  // ---------------------------------------------------------------
  // Dates
  // ---------------------------------------------------------------

  datatype Date = Date(year: int, month: int, day: int)

  /** The first day of a month, the value DATE_TRUNC('month', d)::DATE keeps. */
  datatype YearMonth = YearMonth(year: int, month: int)

  /** DATE_TRUNC('month', d); NULL stays NULL. */
  function MonthOf(d: Option<Date>): (m: Option<YearMonth>)
    ensures m.Some? <==> d.Some?
    ensures m.Some? ==> m.value.year == d.value.year && m.value.month == d.value.month
  {
    if d.Some? then Some(YearMonth(d.value.year, d.value.month)) else None
  }

  predicate YearMonthLess(a: YearMonth, b: YearMonth) {
    a.year < b.year || (a.year == b.year && a.month < b.month)
  }

  predicate DateLess(a: Date, b: Date) {
    a.year < b.year || (a.year == b.year && (a.month < b.month || (a.month == b.month && a.day < b.day)))
  }

  /** The DATE value of a truncated month: its first day. */
  function FirstDay(m: YearMonth): Date {
    Date(m.year, m.month, 1)
  }

  // ---------------------------------------------------------------
  // ORDER BY
  // ---------------------------------------------------------------

  /** ORDER BY x DESC: `a` sorts strictly before `b` (PostgreSQL puts NULLs first when descending). */
  predicate DescBefore(a: Option<int>, b: Option<int>) {
    (a.None? && b.Some?) || (a.Some? && b.Some? && a.value > b.value)
  }

  /** ORDER BY m ASC: `a` sorts strictly before `b` (NULLs last when ascending). */
  predicate AscBefore(a: Option<YearMonth>, b: Option<YearMonth>) {
    a.Some? && (b.None? || YearMonthLess(a.value, b.value))
  }

  // ---------------------------------------------------------------
  // Counting and filtering rows
  // ---------------------------------------------------------------

  /** COUNT(*) ... WHERE p. */
  function CountIf<T(!new)>(s: seq<T>, p: T -> bool): (n: nat)
    ensures n <= |s|
  {
    if s == [] then 0 else (if p(s[0]) then 1 else 0) + CountIf(s[1..], p)
  }

  lemma {:induction false} CountIfPositive<T(!new)>(s: seq<T>, p: T -> bool)
    ensures CountIf(s, p) > 0 <==> exists i :: 0 <= i < |s| && p(s[i])
  {
    if s != [] {
      CountIfPositive(s[1..], p);
      if p(s[0]) {
        assert p(s[0]);
      } else if CountIf(s[1..], p) > 0 {
        var i :| 0 <= i < |s[1..]| && p(s[1..][i]);
        assert p(s[i + 1]);
      } else {
        forall i | 0 <= i < |s| ensures !p(s[i]) {
          if i > 0 { assert s[i] == s[1..][i - 1]; }
        }
      }
    }
  }

  lemma CountIfAppend<T(!new)>(s: seq<T>, t: seq<T>, p: T -> bool)
    ensures CountIf(s + t, p) == CountIf(s, p) + CountIf(t, p)
  {
    if s != [] {
      assert (s + t)[0] == s[0] && (s + t)[1..] == s[1..] + t;
      CountIfAppend(s[1..], t, p);
    } else {
      assert s + t == t;
    }
  }

  /** Counting a weaker condition counts at least as many rows, and strictly more when some row tells them apart. */
  lemma {:induction false} CountIfSubset<T(!new)>(s: seq<T>, p: T -> bool, q: T -> bool)
    requires forall i :: 0 <= i < |s| ==> p(s[i]) ==> q(s[i])
    ensures CountIf(s, p) <= CountIf(s, q)
    ensures (exists k :: 0 <= k < |s| && q(s[k]) && !p(s[k])) ==> CountIf(s, p) < CountIf(s, q)
  {
    if s != [] {
      assert forall i :: 0 <= i < |s[1..]| ==> s[1..][i] == s[i + 1];
      CountIfSubset(s[1..], p, q);
      if exists k :: 0 <= k < |s| && q(s[k]) && !p(s[k]) {
        var k :| 0 <= k < |s| && q(s[k]) && !p(s[k]);
        if k > 0 {
          assert q(s[1..][k - 1]) && !p(s[1..][k - 1]);
        }
      }
    }
  }

  /** Two conditions that agree row by row count the same. */
  lemma {:induction false} CountIfSame<T(!new), U(!new)>(s: seq<T>, p: T -> bool, t: seq<U>, q: U -> bool)
    requires |s| == |t|
    requires forall i :: 0 <= i < |s| ==> p(s[i]) == q(t[i])
    ensures CountIf(s, p) == CountIf(t, q)
  {
    if s != [] {
      assert forall i :: 0 <= i < |s[1..]| ==> s[1..][i] == s[i + 1] && t[1..][i] == t[i + 1];
      CountIfSame(s[1..], p, t[1..], q);
    }
  }

  /** The rows of `s` that satisfy `p`, in order (a WHERE clause). */
  function Filter<T(!new)>(s: seq<T>, p: T -> bool): (r: seq<T>)
    ensures |r| == CountIf(s, p)
    ensures forall x :: x in r <==> x in s && p(x)
  {
    if s == [] then []
    else (if p(s[0]) then [s[0]] else []) + Filter(s[1..], p)
  }

  /** The key of every row, in order. */
  function Keys<T(!new), K(!new)>(s: seq<T>, key: T -> K): (r: seq<K>)
    ensures |r| == |s|
    ensures forall i :: 0 <= i < |s| ==> r[i] == key(s[i])
  {
    if s == [] then [] else [key(s[0])] + Keys(s[1..], key)
  }

  predicate NoDuplicates<T(==,!new)>(s: seq<T>) {
    forall i, j :: 0 <= i < j < |s| ==> s[i] != s[j]
  }

  /** The distinct values of `s`, each once. */
  function Distinct<T(==,!new)>(s: seq<T>): (r: seq<T>)
    ensures forall x :: x in r <==> x in s
    ensures NoDuplicates(r)
  {
    if s == [] then []
    else if s[0] in s[1..] then Distinct(s[1..])
    else [s[0]] + Distinct(s[1..])
  }

  /** The groups of GROUP BY key: one entry per distinct key value, a NULL key included. */
  function GroupKeys<T(!new), K(==,!new)>(s: seq<T>, key: T -> K): (ks: seq<K>)
    ensures NoDuplicates(ks)
    ensures forall k :: k in ks <==> exists i :: 0 <= i < |s| && key(s[i]) == k
  {
    var all := Keys(s, key);
    assert forall k :: k in all <==> exists i :: 0 <= i < |s| && key(s[i]) == k by {
      forall k ensures k in all <==> exists i :: 0 <= i < |s| && key(s[i]) == k {
        if k in all {
          var i :| 0 <= i < |all| && all[i] == k;
          assert key(s[i]) == k;
        }
      }
    }
    Distinct(all)
  }

  /** In a sequence without duplicates, equal elements sit at the same index. */
  lemma NoDuplicatesIndex<T(!new)>(s: seq<T>, i: int, j: int)
    requires NoDuplicates(s)
    requires 0 <= i < |s| && 0 <= j < |s| && s[i] == s[j]
    ensures i == j
  {
  }

  /** The group keys are exactly the keys that occur, each once. */
  lemma GroupKeysCover<T(!new), K(!new)>(s: seq<T>, key: T -> K)
    ensures forall k :: k in GroupKeys(s, key) <==> k in Keys(s, key)
  {
    var ks := GroupKeys(s, key);
    var all := Keys(s, key);
    forall k ensures k in ks <==> k in all {
      if k in all {
        var i :| 0 <= i < |all| && all[i] == k;
        assert key(s[i]) == k;
      }
      if k in ks {
        var i :| 0 <= i < |s| && key(s[i]) == k;
        assert all[i] == k;
      }
    }
  }

  /** The rows of one group. */
  function FilterKey<T(!new), K(==,!new)>(s: seq<T>, key: T -> K, k: K): (r: seq<T>)
    ensures forall x :: x in r <==> x in s && key(x) == k
  {
    if s == [] then []
    else (if key(s[0]) == k then [s[0]] else []) + FilterKey(s[1..], key, k)
  }

  /** The rows whose key is one of `ks`. */
  function FilterKeyIn<T(!new), K(==,!new)>(s: seq<T>, key: T -> K, ks: seq<K>): seq<T> {
    if s == [] then []
    else (if key(s[0]) in ks then [s[0]] else []) + FilterKeyIn(s[1..], key, ks)
  }

  lemma FilterKeyInAll<T(!new), K(!new)>(s: seq<T>, key: T -> K, ks: seq<K>)
    requires forall i :: 0 <= i < |s| ==> key(s[i]) in ks
    ensures FilterKeyIn(s, key, ks) == s
  {
    if s != [] {
      assert forall i :: 0 <= i < |s[1..]| ==> s[1..][i] == s[i + 1];
      FilterKeyInAll(s[1..], key, ks);
    }
  }

  // ---------------------------------------------------------------
  // SUM, COUNT(DISTINCT), AVG
  // ---------------------------------------------------------------

  /** NULL + x = x in SUM: NULLs are skipped, and the sum of no values is NULL. */
  function OptAdd(a: Option<int>, b: Option<int>): Option<int> {
    if a.None? then b else if b.None? then a else Some(a.value + b.value)
  }

  lemma OptAddAssoc(a: Option<int>, b: Option<int>, c: Option<int>)
    ensures OptAdd(a, OptAdd(b, c)) == OptAdd(OptAdd(a, b), c)
  {
  }

  lemma OptAddComm(a: Option<int>, b: Option<int>)
    ensures OptAdd(a, b) == OptAdd(b, a)
  {
  }

  /** SUM(val) over the rows of `s`. */
  function SumOf<T(!new)>(s: seq<T>, val: T -> Option<int>): Option<int> {
    if s == [] then None else OptAdd(val(s[0]), SumOf(s[1..], val))
  }

  lemma {:induction false} SumOfNull<T(!new)>(s: seq<T>, val: T -> Option<int>)
    ensures SumOf(s, val).None? <==> forall i :: 0 <= i < |s| ==> val(s[i]).None?
  {
    if s != [] {
      SumOfNull(s[1..], val);
      assert forall i :: 0 < i < |s| ==> s[i] == s[1..][i - 1];
    }
  }

  lemma {:induction false} SumOfNonNegative<T(!new)>(s: seq<T>, val: T -> Option<int>)
    requires forall i :: 0 <= i < |s| && val(s[i]).Some? ==> val(s[i]).value >= 0
    ensures SumOf(s, val).Some? ==> SumOf(s, val).value >= 0
  {
    if s != [] {
      assert forall i :: 0 <= i < |s[1..]| ==> s[1..][i] == s[i + 1];
      SumOfNonNegative(s[1..], val);
    }
  }

  /** Sum, over the groups `ks`, of each group's SUM(val). */
  function SumByGroup<T(!new), K(==,!new)>(ks: seq<K>, s: seq<T>, key: T -> K, val: T -> Option<int>): Option<int> {
    if ks == [] then None
    else OptAdd(SumOf(FilterKey(s, key, ks[0]), val), SumByGroup(ks[1..], s, key, val))
  }

  lemma {:induction false} SumOfSplitKey<T(!new), K(!new)>(s: seq<T>, key: T -> K, val: T -> Option<int>, k: K, ks: seq<K>)
    requires k !in ks
    ensures SumOf(FilterKeyIn(s, key, [k] + ks), val)
         == OptAdd(SumOf(FilterKey(s, key, k), val), SumOf(FilterKeyIn(s, key, ks), val))
  {
    if s != [] {
      SumOfSplitKey(s[1..], key, val, k, ks);
      var a := SumOf(FilterKey(s[1..], key, k), val);
      var b := SumOf(FilterKeyIn(s[1..], key, ks), val);
      var v := val(s[0]);
      if key(s[0]) == k {
        assert FilterKeyIn(s, key, [k] + ks) == [s[0]] + FilterKeyIn(s[1..], key, [k] + ks);
        assert FilterKey(s, key, k) == [s[0]] + FilterKey(s[1..], key, k);
        assert FilterKeyIn(s, key, ks) == FilterKeyIn(s[1..], key, ks);
        OptAddAssoc(v, a, b);
      } else if key(s[0]) in ks {
        assert FilterKeyIn(s, key, [k] + ks) == [s[0]] + FilterKeyIn(s[1..], key, [k] + ks);
        assert FilterKey(s, key, k) == FilterKey(s[1..], key, k);
        assert FilterKeyIn(s, key, ks) == [s[0]] + FilterKeyIn(s[1..], key, ks);
        OptAddAssoc(v, a, b);
        OptAddComm(v, a);
        OptAddAssoc(a, v, b);
      } else {
        assert FilterKeyIn(s, key, [k] + ks) == FilterKeyIn(s[1..], key, [k] + ks);
        assert FilterKey(s, key, k) == FilterKey(s[1..], key, k);
        assert FilterKeyIn(s, key, ks) == FilterKeyIn(s[1..], key, ks);
      }
    }
  }

  lemma {:induction false} SumByGroupCovers<T(!new), K(!new)>(ks: seq<K>, s: seq<T>, key: T -> K, val: T -> Option<int>)
    requires NoDuplicates(ks)
    ensures SumByGroup(ks, s, key, val) == SumOf(FilterKeyIn(s, key, ks), val)
  {
    if ks == [] {
      FilterKeyInNone(s, key);
    } else {
      assert NoDuplicates(ks[1..]);
      SumByGroupCovers(ks[1..], s, key, val);
      assert ks == [ks[0]] + ks[1..];
      SumOfSplitKey(s, key, val, ks[0], ks[1..]);
    }
  }

  lemma FilterKeyInNone<T(!new), K(!new)>(s: seq<T>, key: T -> K)
    ensures FilterKeyIn(s, key, []) == []
  {
  }

  /**
   * Regrouping: summing every group's SUM gives the SUM over all rows, so an
   * aggregate table's column total equals the total of the rows it was built from.
   */
  lemma SumRegroup<T(!new), K(!new)>(s: seq<T>, key: T -> K, val: T -> Option<int>)
    ensures SumByGroup(GroupKeys(s, key), s, key, val) == SumOf(s, val)
  {
    var ks := GroupKeys(s, key);
    SumByGroupCovers(ks, s, key, val);
    FilterKeyInAll(s, key, ks);
  }

  /** An aggregate table's SUM column, built one group per key of `ks`, adds up to the sum over the groups. */
  lemma {:induction false} SumOverGroups<T(!new), K(!new), R(!new)>(
    ks: seq<K>, s: seq<T>, key: T -> K, val: T -> Option<int>, out: seq<R>, col: R -> Option<int>)
    requires |out| == |ks|
    requires forall j :: 0 <= j < |ks| ==> col(out[j]) == SumOf(FilterKey(s, key, ks[j]), val)
    ensures SumOf(out, col) == SumByGroup(ks, s, key, val)
  {
    if ks != [] {
      assert forall j :: 0 <= j < |ks[1..]| ==> ks[1..][j] == ks[j + 1] && out[1..][j] == out[j + 1];
      SumOverGroups(ks[1..], s, key, val, out[1..], col);
    }
  }

  /** COUNT(val): the rows whose value is not NULL. */
  function CountNonNull<T(!new)>(s: seq<T>, val: T -> Option<int>): (n: nat)
    ensures n <= |s|
  {
    if s == [] then 0 else (if val(s[0]).Some? then 1 else 0) + CountNonNull(s[1..], val)
  }

  lemma {:induction false} CountNonNullZero<T(!new)>(s: seq<T>, val: T -> Option<int>)
    ensures CountNonNull(s, val) == 0 <==> SumOf(s, val).None?
  {
    if s != [] {
      CountNonNullZero(s[1..], val);
    }
  }

  /**
   * ROUND(AVG(val), 2) with values in cents: NULL exactly when SUM is NULL,
   * otherwise within half a cent of SUM / COUNT.
   */
  function RoundedAvg<T(!new)>(s: seq<T>, val: T -> Option<int>): (r: Option<int>)
    ensures r.None? <==> SumOf(s, val).None?
    ensures r.Some? ==> 2 * Abs(r.value * CountNonNull(s, val) - SumOf(s, val).value) <= CountNonNull(s, val)
  {
    CountNonNullZero(s, val);
    var n := CountNonNull(s, val);
    if n == 0 then None
    else
      RoundDivWithin(SumOf(s, val).value, n);
      Some(RoundDiv(SumOf(s, val).value, n))
  }

  /** COUNT(DISTINCT x): the number of distinct non-NULL values. */
  function CountDistinct<T(!new)>(s: seq<Option<T>>): nat {
    |set i | 0 <= i < |s| && s[i].Some? :: s[i].value|
  }

  /** Every non-NULL value of `s` occurs in `t`: `s` has no more distinct values than `t`. */
  lemma CountDistinctSubset<T(!new)>(s: seq<Option<T>>, t: seq<Option<T>>)
    requires forall i :: 0 <= i < |s| && s[i].Some? ==> s[i] in t
    ensures CountDistinct(s) <= CountDistinct(t)
  {
    var a := set i | 0 <= i < |s| && s[i].Some? :: s[i].value;
    var b := set i | 0 <= i < |t| && t[i].Some? :: t[i].value;
    forall x | x in a ensures x in b {
      var i :| 0 <= i < |s| && s[i].Some? && s[i].value == x;
      var j :| 0 <= j < |t| && t[j] == s[i];
    }
    SubsetCard(a, b);
  }

  /** A non-NULL value gives COUNT(DISTINCT) at least 1. */
  lemma CountDistinctPositive<T(!new)>(s: seq<Option<T>>, i: int)
    requires 0 <= i < |s| && s[i].Some?
    ensures CountDistinct(s) >= 1
  {
    var a := set k | 0 <= k < |s| && s[k].Some? :: s[k].value;
    assert s[i].value in a;
  }

  lemma SubsetCard<T>(a: set<T>, b: set<T>)
    requires a <= b
    ensures |a| <= |b|
  {
    if a != {} {
      var x :| x in a;
      SubsetCard(a - {x}, b - {x});
    }
  }

  // ---------------------------------------------------------------
  // Joins
  // ---------------------------------------------------------------

  function JoinOne<A(!new), B(!new)>(a: A, ys: seq<B>, on: (A, B) -> bool): (r: seq<(A, B)>)
    ensures forall x, y :: (x, y) in r <==> x == a && y in ys && on(a, y)
  {
    if ys == [] then []
    else (if on(a, ys[0]) then [(a, ys[0])] else []) + JoinOne(a, ys[1..], on)
  }

  /** xs JOIN ys ON on: one row per matching pair. */
  function Join<A(!new), B(!new)>(xs: seq<A>, ys: seq<B>, on: (A, B) -> bool): (r: seq<(A, B)>)
    ensures forall x, y :: (x, y) in r <==> x in xs && y in ys && on(x, y)
  {
    if xs == [] then [] else JoinOne(xs[0], ys, on) + Join(xs[1..], ys, on)
  }

  predicate HasMatch<A(!new), B(!new)>(a: A, ys: seq<B>, on: (A, B) -> bool) {
    exists j :: 0 <= j < |ys| && on(a, ys[j])
  }

  /** The rows one left row contributes to a left join. */
  function LeftJoinOne<A(!new), B(!new)>(a: A, ys: seq<B>, on: (A, B) -> bool): (r: seq<(A, Option<B>)>)
    ensures forall x, y :: (x, Some(y)) in r <==> x == a && y in ys && on(a, y)
    ensures forall x :: (x, None) in r <==> x == a && !HasMatch(a, ys, on)
  {
    assert forall y :: y in ys && on(a, y) ==> HasMatch(a, ys, on) by {
      forall y | y in ys && on(a, y) ensures HasMatch(a, ys, on) {
        var j :| 0 <= j < |ys| && ys[j] == y;
      }
    }
    if HasMatch(a, ys, on) then
      var j :| 0 <= j < |ys| && on(a, ys[j]);
      assert (a, ys[j]) in JoinOne(a, ys, on);
      LiftSome(JoinOne(a, ys, on))
    else [(a, None)]
  }

  /** xs LEFT JOIN ys ON on: matching pairs, or the row alone with NULLs when nothing matches. */
  function LeftJoin<A(!new), B(!new)>(xs: seq<A>, ys: seq<B>, on: (A, B) -> bool): (r: seq<(A, Option<B>)>)
    ensures forall x, y :: (x, Some(y)) in r <==> x in xs && y in ys && on(x, y)
    ensures forall x :: (x, None) in r <==> x in xs && !HasMatch(x, ys, on)
  {
    if xs == [] then []
    else
      assert forall x :: x in xs <==> x == xs[0] || x in xs[1..] by {
        assert xs == [xs[0]] + xs[1..];
      }
      var head, rest := LeftJoinOne(xs[0], ys, on), LeftJoin(xs[1..], ys, on);
      assert forall x, y :: (x, Some(y)) in head + rest <==> x in xs && y in ys && on(x, y) by {
        forall x, y ensures (x, Some(y)) in head + rest <==> x in xs && y in ys && on(x, y) {
          assert (x, Some(y)) in head + rest <==> (x, Some(y)) in head || (x, Some(y)) in rest;
          assert (x, Some(y)) in head <==> x == xs[0] && y in ys && on(x, y);
          assert (x, Some(y)) in rest <==> x in xs[1..] && y in ys && on(x, y);
        }
      }
      assert forall x :: (x, None) in head + rest <==> (x, None) in head || (x, None) in rest;
      head + rest
  }

  /** A row of a join is a matching pair of rows of its inputs. */
  lemma JoinRow<A(!new), B(!new)>(xs: seq<A>, ys: seq<B>, on: (A, B) -> bool, r: (A, B))
    requires r in Join(xs, ys, on)
    ensures r.0 in xs && r.1 in ys && on(r.0, r.1)
  {
    assert (r.0, r.1) == r;
  }

  /** A row of a left join is a matching pair, or a row of the left input that matches nothing. */
  lemma LeftJoinRow<A(!new), B(!new)>(xs: seq<A>, ys: seq<B>, on: (A, B) -> bool, r: (A, Option<B>))
    requires r in LeftJoin(xs, ys, on)
    ensures r.0 in xs
    ensures r.1.Some? ==> r.1.value in ys && on(r.0, r.1.value)
    ensures r.1.None? ==> !HasMatch(r.0, ys, on)
  {
    if r.1.Some? {
      assert (r.0, Some(r.1.value)) == r;
    } else {
      assert (r.0, None) == r;
    }
  }

  function LiftSome<A(!new), B(!new)>(s: seq<(A, B)>): (r: seq<(A, Option<B>)>)
    ensures forall x, y :: (x, Some(y)) in r <==> (x, y) in s
    ensures forall x :: (x, None) !in r
  {
    if s == [] then [] else [(s[0].0, Some(s[0].1))] + LiftSome(s[1..])
  }

  // ---------------------------------------------------------------
  // ROUND(n / d, 0) with exact rationals
  // ---------------------------------------------------------------

  /**
   * The integer nearest to n / d, halves rounded away from zero (PostgreSQL's
   * ROUND on NUMERIC). The two ensures pin the result down uniquely.
   */
  function RoundDiv(n: int, d: int): (r: int)
    requires d > 0
    ensures n >= 0 ==> -d < 2 * (r * d - n) <= d
    ensures n < 0 ==> -d <= 2 * (r * d - n) < d
  {
    if n >= 0 then
      var q := (2 * n + d) / (2 * d);
      DivBounds(2 * n + d, 2 * d);
      q
    else
      var q := (2 * -n + d) / (2 * d);
      DivBounds(2 * -n + d, 2 * d);
      -q
  }

  /** ROUND(n / d, 0) for a divisor of either sign. */
  function RoundRatio(n: int, d: int): (r: int)
    requires d != 0
    ensures 2 * Abs(r * d - n) <= Abs(d)
  {
    if d > 0 then
      RoundDivWithin(n, d);
      RoundDiv(n, d)
    else
      RoundDivWithin(-n, -d);
      assert RoundDiv(-n, -d) * d - n == -(RoundDiv(-n, -d) * -d - -n);
      RoundDiv(-n, -d)
  }

  lemma DivBounds(a: int, b: int)
    requires b > 0
    ensures b * (a / b) <= a < b * (a / b) + b
  {
  }

  lemma {:induction false} RoundDivWithin(n: int, d: int)
    requires d > 0
    ensures 2 * Abs(RoundDiv(n, d) * d - n) <= d
  {
    var r := RoundDiv(n, d);
    if n >= 0 {
      assert -d < 2 * (r * d - n) <= d;
    } else {
      assert -d <= 2 * (r * d - n) < d;
    }
  }

  /** ROUND keeps a ratio that lies in [0, hi] inside [0, hi]. */
  lemma {:induction false} RoundDivBounds(n: int, d: int, hi: int)
    requires d > 0 && 0 <= n <= hi * d
    ensures 0 <= RoundDiv(n, d) <= hi
  {
    var r := RoundDiv(n, d);
    assert -d < 2 * (r * d - n) <= d;
    if r < 0 {
      assert r * d <= -d by { MulMono(r, -1, d); }
    }
    if r > hi {
      assert r * d >= (hi + 1) * d by { MulMono(hi + 1, r, d); }
    }
  }

  lemma MulMono(a: int, b: int, d: int)
    requires a <= b && d > 0
    ensures a * d <= b * d
  {
  }
}
