/**
 * The transformation jobs and the refined validator together: what the
 * validator reports on a schema the jobs have just written.
 */
module CrossLayer {
  import opened Sql
  import opened Trusted
  import opened Results
  import opened Refined
  import opened Pipeline
  import opened RankChecks
  import opened RefinedChecks
  import BestSellers
  import BrandPerformance

  /** Order totals and monthly targets of the trusted layer are never negative. */
  predicate NonNegativeAmounts(db: TrustedDb) {
    && (forall p :: p in db.pedido && p.vlrTotal.Some? ==> p.vlrTotal.value >= 0)
    && (forall mt :: mt in db.meta && mt.valor.Some? ==> mt.valor.value >= 0)
  }

  /** RANK() starts every (month, state) partition at 1. */
  lemma FreshRankingStarts(db: TrustedDb)
    ensures StartFailures(BestSellers.BestSellersTable(db)) == 0
  {
    BestSellers.BestSellersRanked(db);
    RankedStartsAtOne(BestSellers.BestSellersTable(db));
  }

  /**
   * The attainment percentage is rounded to hundredths of a percent, at most
   * 0.005 away from the exact ratio, so the 0.01 tolerance never flags a row
   * the job wrote.
   */
  lemma FreshPercentages(db: TrustedDb)
    ensures CountIf(BrandPerformance.PerformanceTable(db), PercOff) == 0
  {
    var t := BrandPerformance.PerformanceTable(db);
    forall j | 0 <= j < |t|
      ensures !PercOff(t[j])
    {
      BrandPerformance.PerformanceColumns(db, j);
    }
    CountIfPositive(t, PercOff);
  }

  /** Without negative amounts in the trusted layer, no performance row is negative. */
  lemma FreshNonNegative(db: TrustedDb)
    requires NonNegativeAmounts(db)
    ensures CountIf(BrandPerformance.PerformanceTable(db), NegativeFigure) == 0
  {
    var t := BrandPerformance.PerformanceTable(db);
    forall j | 0 <= j < |t|
      ensures !NegativeFigure(t[j])
    {
      BrandPerformance.PerformanceNonNegative(db, j);
    }
    CountIfPositive(t, NegativeFigure);
  }

  /**
   * When no order total and no monthly target of the trusted layer is
   * negative, a run of the six jobs in which none fails, followed by the
   * refined validator, exits with 0, whatever the schema held before and
   * whatever the date: the ranking, percentage and sign checks all pass.
   * A negative trusted amount would reach the performance table and make
   * the sign check log an ERROR.
   */
  lemma PipelineThenValidation(prior: RefinedDb, db: TrustedDb, today: Date)
    requires NonNegativeAmounts(db)
    ensures ExitCode(RefinedReport(AfterJobs(prior, JOBS, Fresh(db), {}), db, today)) == 0
  {
    PipelineFresh(prior, Fresh(db));
    FreshRankingStarts(db);
    FreshPercentages(db);
    FreshNonNegative(db);
    RefinedVerdict(Fresh(db), db, today);
  }

  /** When the best-sellers job fails on a schema that never had its table, the validator exits with 1. */
  lemma MissingTableFails(prior: RefinedDb, db: TrustedDb, failing: set<Job>, today: Date)
    requires BestSellersJob in failing && prior.maisVendidos.None?
    ensures ExitCode(RefinedReport(AfterJobs(prior, JOBS, Fresh(db), failing), db, today)) == 1
  {
    AfterJobsKeeps(prior, JOBS, Fresh(db), failing, BestSellersJob);
    RefinedVerdict(AfterJobs(prior, JOBS, Fresh(db), failing), db, today);
  }

  /**
   * Two products with the same total in the same month and state share a rank,
   * so the gap query counts a row and the ranking step warns about data the
   * job wrote correctly.
   */
  lemma TieWarns(db: TrustedDb, a: int, b: int)
    requires var t := BestSellers.BestSellersTable(db);
      0 <= a < |t| && 0 <= b < |t| && a != b &&
      BestSellers.SamePartition(t[a], t[b]) && t[a].totalQtd == t[b].totalQtd
    ensures RankingEntries(Fresh(db))[1].status == Warning
  {
    BestSellers.BestSellersRanked(db);
    RankedTieCounted(BestSellers.BestSellersTable(db), a, b);
  }
}
