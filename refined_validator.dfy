/**
 * The refined-layer validator as a run: seven steps append their results to
 * the shared log, and `main` turns the log into the exit code. A step whose
 * query hits a missing table logs one ERROR from its handler and stops.
 */
module RefinedValidator {
  import opened Sql
  import opened Trusted
  import opened Results
  import opened Refined
  import opened RankChecks
  import opened RefinedChecks
  import BestSellers
  import BrandPerformance

  /** validate_table_existence: one result per checked table, in order. */
  method ValidateTableExistence(log: ResultLog, r: RefinedDb)
    requires log.Valid()
    modifies log
    ensures log.Valid()
    ensures log.results == old(log.results) + ExistenceEntries(r)
  {
    for k := 0 to |CHECKED_TABLES|
      invariant log.Valid()
      invariant log.results == old(log.results) + ExistenceEntries(r)[..k]
    {
      var table := CHECKED_TABLES[k];
      assert ExistenceEntries(r)[..k + 1] == ExistenceEntries(r)[..k] + [ExistenceEntry(r, table)];
      if RowCount(r, table).Some? {
        log.LogSuccess(table, 0);
      } else {
        log.LogError(table, 0);
      }
    }
    assert ExistenceEntries(r)[..|CHECKED_TABLES|] == ExistenceEntries(r);
  }

  /** validate_refined_counts: a failed COUNT(*) is caught per table and logged as an error. */
  method ValidateRefinedCounts(log: ResultLog, r: RefinedDb)
    requires log.Valid()
    modifies log
    ensures log.Valid()
    ensures log.results == old(log.results) + VolumeEntries(r)
  {
    for k := 0 to |CHECKED_TABLES|
      invariant log.Valid()
      invariant log.results == old(log.results) + VolumeEntries(r)[..k]
    {
      var table := CHECKED_TABLES[k];
      assert VolumeEntries(r)[..k + 1] == VolumeEntries(r)[..k] + [VolumeEntry(r, table)];
      var count := RowCount(r, table);
      if count.None? {
        log.LogError(table, 0);
      } else if count.value == 0 {
        log.LogWarning(table, 0);
      } else {
        log.LogSuccess(table, count.value);
      }
    }
    assert VolumeEntries(r)[..|CHECKED_TABLES|] == VolumeEntries(r);
  }

  /** validate_mais_vendidos_ranking */
  method ValidateRanking(log: ResultLog, r: RefinedDb)
    requires log.Valid()
    modifies log
    ensures log.Valid()
    ensures log.results == old(log.results) + RankingEntries(r)
  {
    if r.maisVendidos.None? {
      log.LogError(RANKING_START, 0);
    } else {
      var t := r.maisVendidos.value;
      var offStart := StartFailures(t);
      if offStart > 0 {
        log.LogError(RANKING_START, offStart);
      } else {
        log.LogSuccess(RANKING_START, offStart);
      }
      ghost var started := log.results;
      assert started == old(log.results) + [RankingEntries(r)[0]];
      var gaps := GapCount(t);
      if gaps > 0 {
        log.LogWarning(RANKING_GAPS, gaps);
      } else {
        log.LogSuccess(RANKING_GAPS, gaps);
      }
      assert log.results == started + [RankingEntries(r)[1]];
    }
  }

  /** validate_performance_calculations */
  method ValidatePerformance(log: ResultLog, r: RefinedDb)
    requires log.Valid()
    modifies log
    ensures log.Valid()
    ensures log.results == old(log.results) + PerformanceEntries(r)
  {
    if r.performance.None? {
      log.LogError(PERCENTAGES, 0);
    } else {
      var t := r.performance.value;
      var wrong := CountIf(t, PercOff);
      if wrong > 0 {
        log.LogError(PERCENTAGES, wrong);
      } else {
        log.LogSuccess(PERCENTAGES, wrong);
      }
      ghost var checked := log.results;
      assert checked == old(log.results) + [PerformanceEntries(r)[0]];
      var negative := CountIf(t, NegativeFigure);
      if negative > 0 {
        log.LogError(NEGATIVES, negative);
      } else {
        log.LogSuccess(NEGATIVES, negative);
      }
      assert log.results == checked + [PerformanceEntries(r)[1]];
    }
  }

  /** One refined total against its trusted total: nothing unless both are truthy, then a 1 % tolerance. */
  method CompareTotals(log: ResultLog, subject: string, refined: Option<int>, trusted: Option<int>)
    requires log.Valid()
    modifies log
    ensures log.Valid()
    ensures log.results == old(log.results) + Reconcile(subject, refined, trusted)
    ensures log.totalErrors == old(log.totalErrors)
  {
    if refined.Some? && refined.value != 0 && trusted.Some? && trusted.value != 0 {
      var diff := Abs(refined.value - trusted.value);
      if trusted.value > 0 && diff * 100 > trusted.value {
        log.LogWarning(subject, refined.value - trusted.value);
      } else {
        log.LogSuccess(subject, refined.value - trusted.value);
      }
    }
  }

  /** validate_aggregation_consistency */
  method ValidateAggregation(log: ResultLog, r: RefinedDb, db: TrustedDb)
    requires log.Valid()
    modifies log
    ensures log.Valid()
    ensures log.results == old(log.results) + AggregationEntries(r, db)
  {
    if r.maisVendidos.None? {
      log.LogError(AGGREGATION, 0);
      return;
    }
    CompareTotals(log, QUANTITIES, SumOf(r.maisVendidos.value, BestSellers.TotalQtd), LiveQuantity(db));
    if r.performance.None? {
      log.LogError(AGGREGATION, 0);
    } else {
      CompareTotals(log, VALUES, SumOf(r.performance.value, BrandPerformance.VlrTotalVendido), OrdersValue(db));
    }
  }

  /** validate_date_ranges, with the current date as a parameter. */
  method ValidateDateRanges(log: ResultLog, r: RefinedDb, today: Date)
    requires log.Valid()
    modifies log
    ensures log.Valid()
    ensures log.results == old(log.results) + DateRangeEntries(r, today)
  {
    if r.maisVendidos.None? {
      log.LogError(DATE_RANGE, 0);
      return;
    }
    var latest := LatestMonth(r.maisVendidos.value);
    if latest.Some? {
      log.LogSuccess(DATE_RANGE, 0);
      if DateLess(today, FirstDay(latest.value)) {
        log.LogWarning(FUTURE_DATES, 0);
      }
    } else {
      log.LogWarning(DATE_RANGE, 0);
    }
  }

  /** validate_data_quality_metrics */
  method ValidateQuality(log: ResultLog, r: RefinedDb, db: TrustedDb)
    requires log.Valid()
    modifies log
    ensures log.Valid()
    ensures log.results == old(log.results) + QualityEntries(r, db)
  {
    if r.maisVendidos.None? {
      log.LogError(QUALITY, 0);
      return;
    }
    var t := r.maisVendidos.value;
    var ufs := CountIf(t, HasUf);
    var nomes := CountIf(t, HasNome);
    log.LogSuccess(UF_COMPLETENESS, ufs);
    log.LogSuccess(NOME_COMPLETENESS, nomes);
    if Incomplete(ufs, |t|) || Incomplete(nomes, |t|) {
      log.LogWarning(LOW_COMPLETENESS, 0);
    }
    if r.performance.None? {
      log.LogError(QUALITY, 0);
    } else {
      var missing := BrandsWithoutPerformance(db, r.performance.value);
      if missing > 0 {
        log.LogWarning(BRANDS_WITHOUT_PERFORMANCE, missing);
      } else {
        log.LogSuccess(BRANDS_WITHOUT_PERFORMANCE, missing);
      }
    }
  }

  /**
   * main: run the seven steps on a fresh log and return the exit code, the
   * log and the error counter.
   */
  method RunRefinedValidation(r: RefinedDb, db: TrustedDb, today: Date) returns (code: int, results: seq<Entry>, totalErrors: nat)
    ensures results == RefinedReport(r, db, today)
    ensures totalErrors == CountStatus(results, Error)
    ensures code == 0 <==> RefinedHealthy(r)
    ensures code == 0 || code == 1
  {
    var log := new ResultLog();
    ValidateTableExistence(log, r);
    ghost var upTo := ExistenceEntries(r);
    assert log.results == upTo;
    ValidateRefinedCounts(log, r);
    upTo := upTo + VolumeEntries(r);
    assert log.results == upTo;
    ValidateRanking(log, r);
    upTo := upTo + RankingEntries(r);
    assert log.results == upTo;
    ValidatePerformance(log, r);
    upTo := upTo + PerformanceEntries(r);
    assert log.results == upTo;
    ValidateAggregation(log, r, db);
    upTo := upTo + AggregationEntries(r, db);
    assert log.results == upTo;
    ValidateDateRanges(log, r, today);
    upTo := upTo + DateRangeEntries(r, today);
    assert log.results == upTo;
    ValidateQuality(log, r, db);
    upTo := upTo + QualityEntries(r, db);
    assert log.results == upTo;
    assert upTo == RefinedReport(r, db, today);
    results := log.results;
    totalErrors := log.totalErrors;
    var errorCount := CountStatus(results, Error);
    code := if errorCount == 0 then 0 else 1;
    assert code == ExitCode(results);
    RefinedVerdict(r, db, today);
  }
}
