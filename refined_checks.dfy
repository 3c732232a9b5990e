/**
 * What each step of the refined-layer validator logs, as a function of the
 * refined schema, the trusted layer and the current date. A query on a table
 * that does not exist raises; the step's handler then logs one ERROR and the
 * step ends, keeping what it had already logged.
 */
module RefinedChecks {
  import opened Sql
  import opened Trusted
  import opened Results
  import opened Refined
  import opened RankChecks
  import BestSellers
  import BrandPerformance
  import TrustedChecks

  /** The tables the existence and volume steps look at, in order. */
  const CHECKED_TABLES: seq<string> := [MAIS_VENDIDOS, PERFORMANCE]

  const RANKING_START: string := "ranking start"
  const RANKING_GAPS: string := "ranking gaps"
  const PERCENTAGES: string := "attainment percentages"
  const NEGATIVES: string := "negative values"
  const AGGREGATION: string := "aggregation consistency"
  const QUANTITIES: string := "quantity totals"
  const VALUES: string := "value totals"
  const DATE_RANGE: string := "date range"
  const FUTURE_DATES: string := "future dates"
  const UF_COMPLETENESS: string := "state completeness"
  const NOME_COMPLETENESS: string := "product name completeness"
  const LOW_COMPLETENESS: string := "completeness below 95%"
  const QUALITY: string := "quality metrics"
  const BRANDS_WITHOUT_PERFORMANCE: string := "brands without performance"

  // ---------------------------------------------------------------
  // validate_table_existence and validate_refined_counts
  // ---------------------------------------------------------------

  /** The table is in schema refined: SUCCESS, otherwise ERROR. */
  function ExistenceEntry(r: RefinedDb, name: string): Entry {
    Entry(if RowCount(r, name).Some? then Success else Error, name, 0)
  }

  function ExistenceEntries(r: RefinedDb): seq<Entry> {
    seq(|CHECKED_TABLES|, i requires 0 <= i < |CHECKED_TABLES| => ExistenceEntry(r, CHECKED_TABLES[i]))
  }

  /** An empty table only warns here; a table that cannot be counted is an error. */
  function VolumeEntry(r: RefinedDb, name: string): Entry {
    var n := RowCount(r, name);
    if n.None? then Entry(Error, name, 0)
    else if n.value == 0 then Entry(Warning, name, 0)
    else Entry(Success, name, n.value)
  }

  function VolumeEntries(r: RefinedDb): seq<Entry> {
    seq(|CHECKED_TABLES|, i requires 0 <= i < |CHECKED_TABLES| => VolumeEntry(r, CHECKED_TABLES[i]))
  }

  // ---------------------------------------------------------------
  // validate_mais_vendidos_ranking
  // ---------------------------------------------------------------

  function RankingEntries(r: RefinedDb): seq<Entry> {
    if r.maisVendidos.None? then [Entry(Error, RANKING_START, 0)]
    else
      var t := r.maisVendidos.value;
      [Entry(ErrorIfAny(StartFailures(t)), RANKING_START, StartFailures(t)),
       Entry(WarningIfAny(GapCount(t)), RANKING_GAPS, GapCount(t))]
  }

  // ---------------------------------------------------------------
  // validate_performance_calculations
  // ---------------------------------------------------------------

  /**
   * vlr_meta > 0 AND ABS(perc - vlr_total_vendido / vlr_meta * 100) > 0.01,
   * with the percentage in hundredths: a NULL percentage or total makes the
   * condition unknown, so the row is not counted.
   */
  predicate PercOff(p: BrandPerformance.Performance) {
    && p.vlrMeta > 0 && p.percAtingimentoMeta.Some? && p.vlrTotalVendido.Some?
    && Abs(p.percAtingimentoMeta.value * p.vlrMeta - 10000 * p.vlrTotalVendido.value) > p.vlrMeta
  }

  /** vlr_total_vendido < 0 OR vlr_meta < 0 */
  predicate NegativeFigure(p: BrandPerformance.Performance) {
    (p.vlrTotalVendido.Some? && p.vlrTotalVendido.value < 0) || p.vlrMeta < 0
  }

  function PerformanceEntries(r: RefinedDb): seq<Entry> {
    if r.performance.None? then [Entry(Error, PERCENTAGES, 0)]
    else
      var t := r.performance.value;
      [Entry(ErrorIfAny(CountIf(t, PercOff)), PERCENTAGES, CountIf(t, PercOff)),
       Entry(ErrorIfAny(CountIf(t, NegativeFigure)), NEGATIVES, CountIf(t, NegativeFigure))]
  }

  // ---------------------------------------------------------------
  // validate_aggregation_consistency
  // ---------------------------------------------------------------

  /** WHERE i.flg_cancelado = 'N' */
  predicate LiveItem(pi: (Pedido, PedidoItem)) {
    NotCancelled(pi.1)
  }

  function PairQty(pi: (Pedido, PedidoItem)): Option<int> {
    pi.1.qtdProduto
  }

  /** SUM(qtd_produto) over the non-cancelled items that join an order. */
  function LiveQuantity(db: TrustedDb): Option<int> {
    SumOf(Filter(PedidoItens(db), LiveItem), PairQty)
  }

  /** SUM(vlr_total) FROM trusted.pedido */
  function OrdersValue(db: TrustedDb): Option<int> {
    SumOf(db.pedido, TrustedChecks.PedidoTotal)
  }

  /** diff_pct > 1, where diff_pct is |refined - trusted| / trusted * 100, or 0 when trusted is not positive. */
  predicate AboveOnePercent(refined: int, trusted: int) {
    trusted > 0 && Abs(refined - trusted) * 100 > trusted
  }

  /** Logged only when both totals are non-NULL and non-zero; WARNING above 1 %. */
  function Reconcile(subject: string, refined: Option<int>, trusted: Option<int>): seq<Entry> {
    if refined.Some? && refined.value != 0 && trusted.Some? && trusted.value != 0 then
      [Entry(if AboveOnePercent(refined.value, trusted.value) then Warning else Success, subject,
             refined.value - trusted.value)]
    else []
  }

  function AggregationEntries(r: RefinedDb, db: TrustedDb): seq<Entry> {
    if r.maisVendidos.None? then [Entry(Error, AGGREGATION, 0)]
    else
      var quantities := Reconcile(QUANTITIES, SumOf(r.maisVendidos.value, BestSellers.TotalQtd), LiveQuantity(db));
      if r.performance.None? then quantities + [Entry(Error, AGGREGATION, 0)]
      else quantities + Reconcile(VALUES, SumOf(r.performance.value, BrandPerformance.VlrTotalVendido), OrdersValue(db))
  }

  // ---------------------------------------------------------------
  // validate_date_ranges
  // ---------------------------------------------------------------

  /** MAX(mes_ano): NULL exactly when every month is NULL (and then MIN(mes_ano) is NULL too). */
  function LatestMonth(t: seq<BestSellers.BestSeller>): (m: Option<YearMonth>)
    ensures m.None? <==> forall i :: 0 <= i < |t| ==> t[i].mesAno.None?
    ensures m.Some? ==> exists i :: 0 <= i < |t| && t[i].mesAno == m
    ensures m.Some? ==> forall i :: 0 <= i < |t| && t[i].mesAno.Some? ==> !YearMonthLess(m.value, t[i].mesAno.value)
  {
    if t == [] then None
    else
      var rest := LatestMonth(t[1..]);
      assert forall i :: 1 <= i < |t| ==> t[i] == t[1..][i - 1];
      if t[0].mesAno.None? then rest
      else if rest.None? || YearMonthLess(rest.value, t[0].mesAno.value) then t[0].mesAno
      else
        assert exists i :: 0 <= i < |t| && t[i].mesAno == rest by {
          var n :| 0 <= n < |t[1..]| && t[1..][n].mesAno == rest;
          assert t[n + 1].mesAno == rest;
        }
        rest
  }

  /** The range is logged when there is a month; a latest month after `today` also warns. */
  function DateRangeEntries(r: RefinedDb, today: Date): seq<Entry> {
    if r.maisVendidos.None? then [Entry(Error, DATE_RANGE, 0)]
    else
      var latest := LatestMonth(r.maisVendidos.value);
      if latest.None? then [Entry(Warning, DATE_RANGE, 0)]
      else [Entry(Success, DATE_RANGE, 0)] +
           (if DateLess(today, FirstDay(latest.value)) then [Entry(Warning, FUTURE_DATES, 0)] else [])
  }

  // ---------------------------------------------------------------
  // validate_data_quality_metrics
  // ---------------------------------------------------------------

  predicate HasUf(b: BestSellers.BestSeller) {
    b.sglUfEntrega.Some?
  }

  predicate HasNome(b: BestSellers.BestSeller) {
    b.nomeProduto.Some?
  }

  /** completeness < 95, where completeness is n / total * 100, or 0 for an empty table. */
  predicate Incomplete(n: nat, total: nat) {
    total == 0 || n * 100 < 95 * total
  }

  /** EXISTS a performance row with pm.id = m.id (never, for a brand with a NULL id). */
  predicate HasPerformance(perf: seq<BrandPerformance.Performance>, m: Marca) {
    exists j :: 0 <= j < |perf| && SqlEq(perf[j].id, m.id)
  }

  function BrandsWithoutPerformance(db: TrustedDb, perf: seq<BrandPerformance.Performance>): nat {
    CountIf(db.marca, m => !HasPerformance(perf, m))
  }

  function QualityEntries(r: RefinedDb, db: TrustedDb): seq<Entry> {
    if r.maisVendidos.None? then [Entry(Error, QUALITY, 0)]
    else
      var t := r.maisVendidos.value;
      var ufs := CountIf(t, HasUf);
      var nomes := CountIf(t, HasNome);
      var completeness := [Entry(Success, UF_COMPLETENESS, ufs), Entry(Success, NOME_COMPLETENESS, nomes)] +
        (if Incomplete(ufs, |t|) || Incomplete(nomes, |t|) then [Entry(Warning, LOW_COMPLETENESS, 0)] else []);
      if r.performance.None? then completeness + [Entry(Error, QUALITY, 0)]
      else
        var n := BrandsWithoutPerformance(db, r.performance.value);
        completeness + [Entry(WarningIfAny(n), BRANDS_WITHOUT_PERFORMANCE, n)]
  }

  // ---------------------------------------------------------------
  // main
  // ---------------------------------------------------------------

  /** The whole log of one run, step by step. */
  function RefinedReport(r: RefinedDb, db: TrustedDb, today: Date): seq<Entry> {
    ExistenceEntries(r) + VolumeEntries(r) + RankingEntries(r) + PerformanceEntries(r)
    + AggregationEntries(r, db) + DateRangeEntries(r, today) + QualityEntries(r, db)
  }

  /** Both checked tables exist, every ranking starts at 1, and no performance row is off or negative. */
  predicate RefinedHealthy(r: RefinedDb) {
    && r.maisVendidos.Some? && r.performance.Some?
    && StartFailures(r.maisVendidos.value) == 0
    && CountIf(r.performance.value, PercOff) == 0
    && CountIf(r.performance.value, NegativeFigure) == 0
  }

  // ---------------------------------------------------------------
  // Which results are errors
  // ---------------------------------------------------------------

  /** Existence and volume fail exactly when one of the two tables is missing; an empty table only warns. */
  lemma PresenceErrorFree(r: RefinedDb)
    ensures ErrorFree(ExistenceEntries(r)) <==> r.maisVendidos.Some? && r.performance.Some?
    ensures ErrorFree(VolumeEntries(r)) <==> r.maisVendidos.Some? && r.performance.Some?
  {
    var e := ExistenceEntries(r);
    var v := VolumeEntries(r);
    assert e[0] == ExistenceEntry(r, MAIS_VENDIDOS) && e[1] == ExistenceEntry(r, PERFORMANCE);
    assert v[0] == VolumeEntry(r, MAIS_VENDIDOS) && v[1] == VolumeEntry(r, PERFORMANCE);
  }

  /** The volume rule: ERROR when the table cannot be counted, WARNING when it is empty, SUCCESS otherwise. */
  lemma VolumeRule(r: RefinedDb, name: string)
    ensures VolumeEntry(r, name).status == Error <==> RowCount(r, name).None?
    ensures VolumeEntry(r, name).status == Warning <==> RowCount(r, name) == Some(0)
  {
  }

  lemma RankingErrorFree(r: RefinedDb)
    ensures ErrorFree(RankingEntries(r)) <==> r.maisVendidos.Some? && StartFailures(r.maisVendidos.value) == 0
  {
    var es := RankingEntries(r);
    if r.maisVendidos.Some? {
      assert es[0].status == ErrorIfAny(StartFailures(r.maisVendidos.value));
      assert es[1].status != Error;
    } else {
      assert es[0].status == Error;
    }
  }

  lemma PerformanceErrorFree(r: RefinedDb)
    ensures ErrorFree(PerformanceEntries(r)) <==>
      r.performance.Some? && CountIf(r.performance.value, PercOff) == 0 && CountIf(r.performance.value, NegativeFigure) == 0
  {
    var es := PerformanceEntries(r);
    if r.performance.Some? {
      assert es[0].status == ErrorIfAny(CountIf(r.performance.value, PercOff));
      assert es[1].status == ErrorIfAny(CountIf(r.performance.value, NegativeFigure));
    } else {
      assert es[0].status == Error;
    }
  }

  /** The totals comparison only warns; it fails only when a table is missing. */
  lemma AggregationErrorFree(r: RefinedDb, db: TrustedDb)
    ensures ErrorFree(AggregationEntries(r, db)) <==> r.maisVendidos.Some? && r.performance.Some?
  {
    var es := AggregationEntries(r, db);
    if r.maisVendidos.Some? {
      var q := Reconcile(QUANTITIES, SumOf(r.maisVendidos.value, BestSellers.TotalQtd), LiveQuantity(db));
      assert ErrorFree(q);
      if r.performance.Some? {
        var v := Reconcile(VALUES, SumOf(r.performance.value, BrandPerformance.VlrTotalVendido), OrdersValue(db));
        assert ErrorFree(v);
        ErrorFreeAppend(q, v);
      } else {
        assert es[|q|] == Entry(Error, AGGREGATION, 0);
      }
    } else {
      assert es[0].status == Error;
    }
  }

  lemma DateRangeErrorFree(r: RefinedDb, today: Date)
    ensures ErrorFree(DateRangeEntries(r, today)) <==> r.maisVendidos.Some?
  {
    var es := DateRangeEntries(r, today);
    if r.maisVendidos.None? {
      assert es[0].status == Error;
    }
  }

  lemma QualityErrorFree(r: RefinedDb, db: TrustedDb)
    ensures ErrorFree(QualityEntries(r, db)) <==> r.maisVendidos.Some? && r.performance.Some?
  {
    var es := QualityEntries(r, db);
    if r.maisVendidos.Some? {
      var t := r.maisVendidos.value;
      var c := [Entry(Success, UF_COMPLETENESS, CountIf(t, HasUf)), Entry(Success, NOME_COMPLETENESS, CountIf(t, HasNome))] +
        (if Incomplete(CountIf(t, HasUf), |t|) || Incomplete(CountIf(t, HasNome), |t|) then [Entry(Warning, LOW_COMPLETENESS, 0)] else []);
      assert ErrorFree(c);
      if r.performance.Some? {
        var n := BrandsWithoutPerformance(db, r.performance.value);
        ErrorFreeAppend(c, [Entry(WarningIfAny(n), BRANDS_WITHOUT_PERFORMANCE, n)]);
      } else {
        assert es[|c|] == Entry(Error, QUALITY, 0);
      }
    } else {
      assert es[0].status == Error;
    }
  }

  /** main returns 0 exactly when the refined schema is healthy; the trusted totals and the date can only warn. */
  lemma RefinedVerdict(r: RefinedDb, db: TrustedDb, today: Date)
    ensures ExitCode(RefinedReport(r, db, today)) == 0 <==> RefinedHealthy(r)
  {
    var a := ExistenceEntries(r);
    var b := VolumeEntries(r);
    var c := RankingEntries(r);
    var d := PerformanceEntries(r);
    var e := AggregationEntries(r, db);
    var f := DateRangeEntries(r, today);
    var g := QualityEntries(r, db);
    ErrorFreeAppend(a, b);
    ErrorFreeAppend(a + b, c);
    ErrorFreeAppend(a + b + c, d);
    ErrorFreeAppend(a + b + c + d, e);
    ErrorFreeAppend(a + b + c + d + e, f);
    ErrorFreeAppend(a + b + c + d + e + f, g);
    PresenceErrorFree(r);
    RankingErrorFree(r);
    PerformanceErrorFree(r);
    AggregationErrorFree(r, db);
    DateRangeErrorFree(r, today);
    QualityErrorFree(r, db);
  }

  // ---------------------------------------------------------------
  // The integer tests against the exact ratios the queries compute
  // ---------------------------------------------------------------

  function RealAbs(x: real): real {
    if x < 0.0 then -x else x
  }

  /** diff_pct as the aggregation step computes it. */
  function DiffPct(refined: int, trusted: int): real {
    if trusted > 0 then RealAbs((refined - trusted) as real / trusted as real * 100.0) else 0.0
  }

  /** ABS(perc_atingimento_meta - (vlr_total_vendido / vlr_meta * 100)), in percent. */
  function PercDeviation(perc: int, total: int, meta: int): real
    requires meta > 0
  {
    RealAbs(perc as real / 100.0 - total as real / meta as real * 100.0)
  }

  /** The completeness percentage of the quality step. */
  function CompletenessPct(n: int, total: int): real {
    if total > 0 then n as real / total as real * 100.0 else 0.0
  }

  /** Comparing x with c, where x * t is a, is comparing a with c * t. */
  lemma ScaleBack(x: real, c: real, t: int, a: int)
    requires t > 0 && x * t as real == a as real
    ensures x > c <==> a as real > c * t as real
    ensures x < c <==> a as real < c * t as real
  {
  }

  lemma RatioBack(d: int, t: int, k: real)
    requires t > 0 && k > 0.0
    ensures RealAbs(d as real / t as real * k) * t as real == Abs(d) as real * k
  {
    var q := d as real / t as real;
    assert q * t as real == d as real;
    assert RealAbs(q * k) == RealAbs(q) * k;
    assert RealAbs(q) * t as real == Abs(d) as real;
  }

  lemma CancelScale(u: real, v: real, m: real)
    requires m > 0.0 && u * m == v * m
    ensures u == v
  {
  }

  /** The integer test of the aggregation step is diff_pct > 1 on exact ratios. */
  lemma AboveOnePercentExact(refined: int, trusted: int)
    ensures AboveOnePercent(refined, trusted) <==> DiffPct(refined, trusted) > 1.0
  {
    if trusted > 0 {
      RatioBack(refined - trusted, trusted, 100.0);
      ScaleBack(DiffPct(refined, trusted), 1.0, trusted, Abs(refined - trusted) * 100);
    }
  }

  /** The deviation, before taking its absolute value, is (perc * meta - 10000 * total) / meta hundredths. */
  lemma DeviationRatio(perc: int, total: int, meta: int)
    requires meta > 0
    ensures perc as real / 100.0 - total as real / meta as real * 100.0 ==
            (perc * meta - 10000 * total) as real / meta as real * 0.01
  {
    var m := meta as real;
    var q := total as real / m;
    var e := (perc * meta - 10000 * total) as real / m;
    assert q * m == total as real;
    assert e * m == (perc * meta - 10000 * total) as real;
    assert (e * 0.01) * m == (perc as real / 100.0 - q * 100.0) * m;
    CancelScale(e * 0.01, perc as real / 100.0 - q * 100.0, m);
  }

  lemma DeviationScaled(perc: int, total: int, meta: int)
    requires meta > 0
    ensures PercDeviation(perc, total, meta) * 100.0 * meta as real == Abs(perc * meta - 10000 * total) as real
  {
    var d := perc * meta - 10000 * total;
    var e := d as real / meta as real;
    DeviationRatio(perc, total, meta);
    assert PercDeviation(perc, total, meta) == RealAbs(e * 0.01);
    RatioBack(d, meta, 1.0);
    assert RealAbs(e * 0.01) * 100.0 == RealAbs(e * 1.0);
  }

  /** The integer test of the performance step is a deviation above 0.01 on exact ratios. */
  lemma PercOffExact(p: BrandPerformance.Performance)
    ensures PercOff(p) <==>
      && p.vlrMeta > 0 && p.percAtingimentoMeta.Some? && p.vlrTotalVendido.Some?
      && PercDeviation(p.percAtingimentoMeta.value, p.vlrTotalVendido.value, p.vlrMeta) > 0.01
  {
    if p.vlrMeta > 0 && p.percAtingimentoMeta.Some? && p.vlrTotalVendido.Some? {
      var perc := p.percAtingimentoMeta.value;
      var total := p.vlrTotalVendido.value;
      var x := PercDeviation(perc, total, p.vlrMeta);
      DeviationScaled(perc, total, p.vlrMeta);
      ScaleBack(x * 100.0, 1.0, p.vlrMeta, Abs(perc * p.vlrMeta - 10000 * total));
    }
  }

  /** The integer test of the quality step is completeness < 95 on exact ratios. */
  lemma IncompleteExact(n: nat, total: nat)
    ensures Incomplete(n, total) <==> CompletenessPct(n, total) < 95.0
  {
    if total > 0 {
      var q := n as real / total as real;
      assert q * total as real == n as real;
      assert CompletenessPct(n, total) * total as real == (n * 100) as real;
      ScaleBack(CompletenessPct(n, total), 95.0, total, n * 100);
    }
  }

  /**
   * The reconciliation rule: one result exactly when both totals are non-NULL
   * and non-zero, never an error, and a warning exactly when diff_pct > 1.
   */
  lemma ReconcileRule(subject: string, refined: Option<int>, trusted: Option<int>)
    ensures |Reconcile(subject, refined, trusted)| <= 1
    ensures |Reconcile(subject, refined, trusted)| == 1 <==>
      refined.Some? && refined.value != 0 && trusted.Some? && trusted.value != 0
    ensures forall e :: e in Reconcile(subject, refined, trusted) ==>
      e.status != Error && (e.status == Warning <==> DiffPct(refined.value, trusted.value) > 1.0)
  {
    if refined.Some? && trusted.Some? {
      AboveOnePercentExact(refined.value, trusted.value);
    }
  }

  /**
   * The tolerance is inclusive: a refined total exactly 1 % off the trusted
   * one is consistent, and one unit further warns, in either direction.
   */
  lemma {:induction false} OnePercentBoundary(t: int)
    requires t > 0
    ensures !AboveOnePercent(101 * t, 100 * t) && !AboveOnePercent(99 * t, 100 * t)
    ensures AboveOnePercent(101 * t + 1, 100 * t) && AboveOnePercent(99 * t - 1, 100 * t)
  {
    assert Abs(101 * t - 100 * t) == t;
    assert Abs(99 * t - 100 * t) == t;
    assert Abs(101 * t + 1 - 100 * t) == t + 1;
    assert Abs(99 * t - 1 - 100 * t) == t + 1;
  }

  // ---------------------------------------------------------------
  // What the warnings mean
  // ---------------------------------------------------------------

  /** The future-date warning appears exactly when some month starts after `today`. */
  lemma FutureDates(r: RefinedDb, today: Date)
    requires r.maisVendidos.Some?
    ensures Entry(Warning, FUTURE_DATES, 0) in DateRangeEntries(r, today) <==>
      exists i :: 0 <= i < |r.maisVendidos.value| && r.maisVendidos.value[i].mesAno.Some? &&
                  DateLess(today, FirstDay(r.maisVendidos.value[i].mesAno.value))
  {
    var t := r.maisVendidos.value;
    var latest := LatestMonth(t);
    if exists i :: 0 <= i < |t| && t[i].mesAno.Some? && DateLess(today, FirstDay(t[i].mesAno.value)) {
      var i :| 0 <= i < |t| && t[i].mesAno.Some? && DateLess(today, FirstDay(t[i].mesAno.value));
      assert !YearMonthLess(latest.value, t[i].mesAno.value);
    }
    if latest.Some? && DateLess(today, FirstDay(latest.value)) {
      var i :| 0 <= i < |t| && t[i].mesAno == latest;
    }
  }

  /** No brand goes unreported only when every brand has a performance row with its id; a NULL id never has one. */
  lemma BrandsCovered(db: TrustedDb, perf: seq<BrandPerformance.Performance>)
    ensures BrandsWithoutPerformance(db, perf) == 0 <==> forall i :: 0 <= i < |db.marca| ==> HasPerformance(perf, db.marca[i])
    ensures (exists i :: 0 <= i < |db.marca| && db.marca[i].id.None?) ==> BrandsWithoutPerformance(db, perf) > 0
  {
    CountIfPositive(db.marca, m => !HasPerformance(perf, m));
  }
}
