/**
 * The two ranking queries of the refined validator over
 * refined.mais_vendidos_mensal_estado: the partitions (month, state) whose
 * smallest position is not 1, and, walking each partition in ascending
 * position order, the rows whose position is not the previous one plus one.
 */
module RankChecks {
  import opened Sql
  import opened BestSellers

  /** GROUP BY / PARTITION BY mes_ano, sgl_uf_entrega */
  type Partition = (Option<YearMonth>, Option<string>)

  function PartitionOf(b: BestSeller): Partition {
    (b.mesAno, b.sglUfEntrega)
  }

  /** The positions of one partition, in table order. */
  function PartitionPositions(t: seq<BestSeller>, k: Partition): seq<int> {
    if t == [] then []
    else (if PartitionOf(t[0]) == k then [t[0].posicao] else []) + PartitionPositions(t[1..], k)
  }

  lemma {:induction false} PositionsHas(t: seq<BestSeller>, k: Partition, i: int)
    requires 0 <= i < |t| && PartitionOf(t[i]) == k
    ensures t[i].posicao in PartitionPositions(t, k)
  {
    if i > 0 {
      assert t[1..][i - 1] == t[i];
      PositionsHas(t[1..], k, i - 1);
    }
  }

  lemma {:induction false} PositionsFrom(t: seq<BestSeller>, k: Partition, x: int) returns (i: int)
    requires x in PartitionPositions(t, k)
    ensures 0 <= i < |t| && PartitionOf(t[i]) == k && t[i].posicao == x
  {
    if PartitionOf(t[0]) == k && t[0].posicao == x {
      i := 0;
    } else {
      var n := PositionsFrom(t[1..], k, x);
      i := n + 1;
    }
  }

  /** Two rows of a partition with the same position make that position occur twice. */
  lemma {:induction false} PositionsTwice(t: seq<BestSeller>, k: Partition, a: int, b: int)
    requires 0 <= a < b < |t| && PartitionOf(t[a]) == k && PartitionOf(t[b]) == k && t[a].posicao == t[b].posicao
    ensures multiset(PartitionPositions(t, k))[t[a].posicao] >= 2
  {
    var rest := t[1..];
    assert rest[b - 1] == t[b];
    if a == 0 {
      PositionsHas(rest, k, b - 1);
    } else {
      assert rest[a - 1] == t[a];
      PositionsTwice(rest, k, a - 1, b - 1);
    }
  }

  // ---------------------------------------------------------------
  // MIN(posicao) ... HAVING MIN(posicao) != 1
  // ---------------------------------------------------------------

  function MinOf(s: seq<int>): (m: int)
    requires |s| > 0
    ensures m in s && forall x :: x in s ==> m <= x
  {
    if |s| == 1 then s[0]
    else
      var r := MinOf(s[1..]);
      assert forall x :: x in s <==> x == s[0] || x in s[1..] by {
        assert s == [s[0]] + s[1..];
      }
      if s[0] <= r then s[0] else r
  }

  predicate StartsOff(t: seq<BestSeller>, k: Partition) {
    |PartitionPositions(t, k)| > 0 && MinOf(PartitionPositions(t, k)) != 1
  }

  /** The number of partitions whose ranking does not start at 1. */
  function StartFailures(t: seq<BestSeller>): nat {
    CountIf(GroupKeys(t, PartitionOf), k => StartsOff(t, k))
  }

  /** The start check reports a partition exactly when some row lies in a partition whose smallest position is not 1. */
  lemma StartFailuresFound(t: seq<BestSeller>)
    ensures StartFailures(t) > 0 <==> exists i :: 0 <= i < |t| && StartsOff(t, PartitionOf(t[i]))
  {
    var ks := GroupKeys(t, PartitionOf);
    CountIfPositive(ks, k => StartsOff(t, k));
    if exists i :: 0 <= i < |t| && StartsOff(t, PartitionOf(t[i])) {
      var i :| 0 <= i < |t| && StartsOff(t, PartitionOf(t[i]));
      assert PartitionOf(t[i]) in ks;
      var n :| 0 <= n < |ks| && ks[n] == PartitionOf(t[i]);
    }
    if StartFailures(t) > 0 {
      var n :| 0 <= n < |ks| && StartsOff(t, ks[n]);
      assert ks[n] in ks;
      var i :| 0 <= i < |t| && PartitionOf(t[i]) == ks[n];
    }
  }

  /** A partition starts off exactly when it has rows and none of them is at position 1 or one is below it. */
  lemma StartsOffMeaning(t: seq<BestSeller>, k: Partition)
    ensures StartsOff(t, k) <==>
      var ps := PartitionPositions(t, k);
      |ps| > 0 && (1 !in ps || exists x :: x in ps && x < 1)
  {
    var ps := PartitionPositions(t, k);
    if |ps| > 0 {
      var m := MinOf(ps);
      if exists x :: x in ps && x < 1 {
        var x :| x in ps && x < 1;
        assert m <= x;
      }
    }
  }

  // ---------------------------------------------------------------
  // LAG(posicao) OVER (PARTITION BY ... ORDER BY posicao)
  // ---------------------------------------------------------------

  predicate Ascending(s: seq<int>) {
    forall i, j :: 0 <= i < j < |s| ==> s[i] <= s[j]
  }

  lemma PrependAscending(y: int, s: seq<int>)
    requires Ascending(s) && forall z :: z in s ==> y <= z
    ensures Ascending([y] + s)
  {
    forall i, j | 0 <= i < j < |[y] + s|
      ensures ([y] + s)[i] <= ([y] + s)[j]
    {
      assert ([y] + s)[j] == s[j - 1] && s[j - 1] in s;
      if i > 0 {
        assert ([y] + s)[i] == s[i - 1];
      }
    }
  }

  /** Every element of a permutation of s plus x is at least a bound of s and x. */
  lemma BoundedPermutation(r: seq<int>, s: seq<int>, x: int, lo: int)
    requires multiset(r) == multiset(s) + multiset{x}
    requires lo <= x && forall z :: z in s ==> lo <= z
    ensures forall z :: z in r ==> lo <= z
  {
    forall z | z in r ensures lo <= z {
      assert multiset(r)[z] > 0;
      if z != x {
        assert multiset{x}[z] == 0;
        assert multiset(s)[z] > 0;
        assert z in s;
      }
    }
  }

  function Insert(x: int, s: seq<int>): (r: seq<int>)
    requires Ascending(s)
    ensures Ascending(r) && multiset(r) == multiset(s) + multiset{x}
  {
    if s == [] then [x]
    else if x <= s[0] then
      PrependAscending(x, s);
      [x] + s
    else
      var tail := s[1..];
      assert s == [s[0]] + tail;
      assert forall z :: z in tail ==> s[0] <= z;
      var rest := Insert(x, tail);
      BoundedPermutation(rest, tail, x, s[0]);
      PrependAscending(s[0], rest);
      [s[0]] + rest
  }

  /** ORDER BY posicao: the positions in ascending order. */
  function SortAsc(s: seq<int>): (r: seq<int>)
    ensures Ascending(r) && multiset(r) == multiset(s)
  {
    if s == [] then []
    else
      assert s == [s[0]] + s[1..];
      Insert(s[0], SortAsc(s[1..]))
  }

  /** The rows, in that order, that have a predecessor and are not its position plus one. */
  function Gaps(s: seq<int>): nat {
    if |s| < 2 then 0 else (if s[1] != s[0] + 1 then 1 else 0) + Gaps(s[1..])
  }

  lemma {:induction false} GapsPositive(s: seq<int>)
    ensures Gaps(s) > 0 <==> exists i :: 0 < i < |s| && s[i] != s[i - 1] + 1
  {
    if |s| >= 2 {
      GapsPositive(s[1..]);
      if Gaps(s[1..]) > 0 {
        var i :| 0 < i < |s[1..]| && s[1..][i] != s[1..][i - 1] + 1;
        assert s[i + 1] != s[i] + 1;
      }
      if exists i :: 0 < i < |s| && s[i] != s[i - 1] + 1 {
        var i :| 0 < i < |s| && s[i] != s[i - 1] + 1;
        if i > 1 {
          assert s[1..][i - 1] != s[1..][i - 2] + 1;
        }
      }
    }
  }

  function PartitionGaps(t: seq<BestSeller>, k: Partition): nat {
    Gaps(SortAsc(PartitionPositions(t, k)))
  }

  function SumGaps(t: seq<BestSeller>, ks: seq<Partition>): nat {
    if ks == [] then 0 else PartitionGaps(t, ks[0]) + SumGaps(t, ks[1..])
  }

  /** The COUNT(*) of the gap query. */
  function GapCount(t: seq<BestSeller>): nat {
    SumGaps(t, GroupKeys(t, PartitionOf))
  }

  // ---------------------------------------------------------------
  // What the gap count means
  // ---------------------------------------------------------------

  /** A partition without gaps lists its positions as a run of consecutive integers. */
  lemma PartitionGapsZero(t: seq<BestSeller>, k: Partition)
    ensures PartitionGaps(t, k) == 0 <==>
      var r := SortAsc(PartitionPositions(t, k));
      forall i :: 0 < i < |r| ==> r[i] == r[i - 1] + 1
  {
    GapsPositive(SortAsc(PartitionPositions(t, k)));
  }

  lemma {:induction false} MultisetTwice(s: seq<int>, v: int) returns (i: int, j: int)
    requires multiset(s)[v] >= 2
    ensures 0 <= i < j < |s| && s[i] == v && s[j] == v
  {
    assert s == [s[0]] + s[1..];
    if s[0] == v {
      assert v in multiset(s[1..]);
      var n :| 0 <= n < |s[1..]| && s[1..][n] == v;
      i, j := 0, n + 1;
    } else {
      var a, b := MultisetTwice(s[1..], v);
      i, j := a + 1, b + 1;
    }
  }

  /** In ascending order, a value that occurs twice sits next to itself, which is a gap. */
  lemma RepeatIsGap(r: seq<int>, v: int)
    requires Ascending(r) && multiset(r)[v] >= 2
    ensures Gaps(r) > 0
  {
    var i, j := MultisetTwice(r, v);
    assert r[i] <= r[i + 1] <= r[j];
    assert r[i + 1] != r[i] + 1;
    GapsPositive(r);
  }

  /**
   * Rank ties are gaps: a position shared by two rows of a partition puts two
   * equal positions next to each other in ascending order, and the second is
   * not the first plus one.
   */
  lemma TieIsGap(t: seq<BestSeller>, a: int, b: int)
    requires 0 <= a < |t| && 0 <= b < |t| && a != b
    requires PartitionOf(t[a]) == PartitionOf(t[b]) && t[a].posicao == t[b].posicao
    ensures PartitionGaps(t, PartitionOf(t[a])) > 0
  {
    var k := PartitionOf(t[a]);
    if a < b {
      PositionsTwice(t, k, a, b);
    } else {
      PositionsTwice(t, k, b, a);
    }
    RepeatIsGap(SortAsc(PartitionPositions(t, k)), t[a].posicao);
  }

  lemma {:induction false} SumGapsPositive(t: seq<BestSeller>, ks: seq<Partition>, k: Partition)
    requires k in ks && PartitionGaps(t, k) > 0
    ensures SumGaps(t, ks) > 0
  {
    if ks[0] != k {
      SumGapsPositive(t, ks[1..], k);
    }
  }

  /** A tie anywhere in the table makes the gap query count at least one row. */
  lemma TieCounted(t: seq<BestSeller>, a: int, b: int)
    requires 0 <= a < |t| && 0 <= b < |t| && a != b
    requires PartitionOf(t[a]) == PartitionOf(t[b]) && t[a].posicao == t[b].posicao
    ensures GapCount(t) > 0
  {
    TieIsGap(t, a, b);
    assert PartitionOf(t[a]) in GroupKeys(t, PartitionOf);
    SumGapsPositive(t, GroupKeys(t, PartitionOf), PartitionOf(t[a]));
  }

  // ---------------------------------------------------------------
  // The rankings the transformation job writes
  // ---------------------------------------------------------------

  /** With standard competition ranking every partition's smallest position is 1. */
  lemma RankedStartsAtOne(t: seq<BestSeller>)
    requires CompetitionRanked(t)
    ensures StartFailures(t) == 0
  {
    var ks := GroupKeys(t, PartitionOf);
    forall n | 0 <= n < |ks|
      ensures !StartsOff(t, ks[n])
    {
      var k := ks[n];
      assert k in ks;
      var i :| 0 <= i < |t| && PartitionOf(t[i]) == k;
      TopRank(t, i);
      var top :| 0 <= top < |t| && SamePartition(t[top], t[i]) && t[top].posicao == 1;
      PositionsHas(t, k, top);
      var ps := PartitionPositions(t, k);
      var m := MinOf(ps);
      var at := PositionsFrom(t, k, m);
      RankBounds(t, at);
    }
    CountIfPositive(ks, k => StartsOff(t, k));
  }

  /** Two products of the same month and state with equal totals share a rank, so the gap query counts them. */
  lemma RankedTieCounted(t: seq<BestSeller>, a: int, b: int)
    requires CompetitionRanked(t)
    requires 0 <= a < |t| && 0 <= b < |t| && a != b
    requires SamePartition(t[a], t[b]) && t[a].totalQtd == t[b].totalQtd
    ensures GapCount(t) > 0
  {
    RankOrder(t, a, b);
    TieCounted(t, a, b);
  }
}
