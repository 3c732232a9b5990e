/**
 * The refined transformation run: six jobs, each dropping and recreating one
 * refined table from the trusted layer inside its own transaction, run in a
 * fixed order with a failure in one job reported and the run carrying on.
 * Which jobs fail (a database error) is a parameter.
 */
module Pipeline {
  import opened Sql
  import opened Trusted
  import opened Refined
  import BestSellers
  import BrandPerformance
  import SalesKpis
  import CancellationAnalysis
  import CategoryVariation
  import RegionalAnalysis

  datatype Job = BestSellersJob | PerformanceJob | KpisJob | CancellationsJob | CategoryJob | RegionalJob

  /** The job list of the driver, in order. */
  const JOBS: seq<Job> := [BestSellersJob, PerformanceJob, KpisJob, CancellationsJob, CategoryJob, RegionalJob]

  /** The tables the six jobs' queries compute from the trusted layer `db`. */
  function Fresh(db: TrustedDb): RefinedDb {
    RefinedDb(Some(BestSellers.BestSellersTable(db)), Some(BrandPerformance.PerformanceTable(db)),
              Some(SalesKpis.KpiTable(db)), Some(CancellationAnalysis.CancellationTable(db)),
              Some(CategoryVariation.VariationTable(db)), Some(RegionalAnalysis.RegionalTable(db)))
  }

  /** `r` and `s` agree on the table `job` writes. */
  predicate SameTable(r: RefinedDb, s: RefinedDb, job: Job) {
    match job
    case BestSellersJob => r.maisVendidos == s.maisVendidos
    case PerformanceJob => r.performance == s.performance
    case KpisJob => r.kpis == s.kpis
    case CancellationsJob => r.cancelamentos == s.cancelamentos
    case CategoryJob => r.categoria == s.categoria
    case RegionalJob => r.regional == s.regional
  }

  /** DROP TABLE IF EXISTS, then CREATE TABLE ... AS the job's query, whose result is its table in `out`. */
  function Apply(r: RefinedDb, job: Job, out: RefinedDb): RefinedDb {
    match job
    case BestSellersJob => r.(maisVendidos := out.maisVendidos)
    case PerformanceJob => r.(performance := out.performance)
    case KpisJob => r.(kpis := out.kpis)
    case CancellationsJob => r.(cancelamentos := out.cancelamentos)
    case CategoryJob => r.(categoria := out.categoria)
    case RegionalJob => r.(regional := out.regional)
  }

  /** DROP TABLE IF EXISTS alone. */
  function Dropped(r: RefinedDb, job: Job): RefinedDb {
    match job
    case BestSellersJob => r.(maisVendidos := None)
    case PerformanceJob => r.(performance := None)
    case KpisJob => r.(kpis := None)
    case CancellationsJob => r.(cancelamentos := None)
    case CategoryJob => r.(categoria := None)
    case RegionalJob => r.(regional := None)
  }

  /** Recreating a dropped table gives the same schema as replacing it. */
  lemma CreateAfterDrop(r: RefinedDb, job: Job, out: RefinedDb)
    ensures Apply(Dropped(r, job), job, out) == Apply(r, job, out)
  {
  }

  /** One job: its transaction commits the new table, or rolls back and leaves the schema as it was. */
  function Step(r: RefinedDb, job: Job, out: RefinedDb, failing: set<Job>): RefinedDb {
    if job in failing then r else Apply(r, job, out)
  }

  /** The schema after running `jobs` in order. */
  function AfterJobs(r: RefinedDb, jobs: seq<Job>, out: RefinedDb, failing: set<Job>): RefinedDb
    decreases |jobs|
  {
    if jobs == [] then r else AfterJobs(Step(r, jobs[0], out, failing), jobs[1..], out, failing)
  }

  /** The jobs whose error the driver reports, in order. */
  function Failures(jobs: seq<Job>, failing: set<Job>): (errs: seq<Job>)
    ensures forall j :: j in errs <==> j in jobs && j in failing
    ensures |errs| <= |jobs|
  {
    if jobs == [] then []
    else
      assert forall j :: j in jobs <==> j == jobs[0] || j in jobs[1..] by {
        assert jobs == [jobs[0]] + jobs[1..];
      }
      (if jobs[0] in failing then [jobs[0]] else []) + Failures(jobs[1..], failing)
  }

  lemma {:induction false} FailuresAppend(a: seq<Job>, b: seq<Job>, failing: set<Job>)
    ensures Failures(a + b, failing) == Failures(a, failing) + Failures(b, failing)
  {
    if a == [] {
      assert a + b == b;
    } else {
      assert (a + b)[0] == a[0] && (a + b)[1..] == a[1..] + b;
      FailuresAppend(a[1..], b, failing);
    }
  }

  /** Running one more job after a list of jobs. */
  lemma {:induction false} AfterJobsSnoc(r: RefinedDb, jobs: seq<Job>, job: Job, out: RefinedDb, failing: set<Job>)
    ensures AfterJobs(r, jobs + [job], out, failing) == Step(AfterJobs(r, jobs, out, failing), job, out, failing)
    decreases |jobs|
  {
    if jobs != [] {
      assert (jobs + [job])[1..] == jobs[1..] + [job];
      AfterJobsSnoc(Step(r, jobs[0], out, failing), jobs[1..], job, out, failing);
    }
  }

  // ---------------------------------------------------------------
  // What a run leaves behind
  // ---------------------------------------------------------------

  /** A job touches its own table and no other. */
  lemma StepTables(r: RefinedDb, job: Job, out: RefinedDb, failing: set<Job>, other: Job)
    ensures other != job || job in failing ==> SameTable(Step(r, job, out, failing), r, other)
    ensures other == job && job !in failing ==> SameTable(Step(r, job, out, failing), out, other)
  {
  }

  /** A table no job of the run writes, or whose job fails, keeps its prior contents. */
  lemma {:induction false} AfterJobsKeeps(r: RefinedDb, jobs: seq<Job>, out: RefinedDb, failing: set<Job>, job: Job)
    requires job !in jobs || job in failing
    ensures SameTable(AfterJobs(r, jobs, out, failing), r, job)
    decreases |jobs|
  {
    if jobs != [] {
      assert job !in jobs[1..] || job in failing;
      AfterJobsKeeps(Step(r, jobs[0], out, failing), jobs[1..], out, failing, job);
      StepTables(r, jobs[0], out, failing, job);
    }
  }

  /** A job that runs and succeeds leaves exactly the table its query computes from the trusted layer. */
  lemma {:induction false} AfterJobsProduces(r: RefinedDb, jobs: seq<Job>, out: RefinedDb, failing: set<Job>, job: Job)
    requires job in jobs && job !in failing
    ensures SameTable(AfterJobs(r, jobs, out, failing), out, job)
    decreases |jobs|
  {
    var next := Step(r, jobs[0], out, failing);
    if job in jobs[1..] {
      AfterJobsProduces(next, jobs[1..], out, failing, job);
    } else {
      assert jobs[0] == job;
      StepTables(r, job, out, failing, job);
      AfterJobsKeeps(next, jobs[1..], out, failing, job);
    }
  }

  /** The driver's list holds every job. */
  lemma Listed(job: Job)
    ensures job in JOBS
  {
    match job
    case BestSellersJob => assert JOBS[0] == job;
    case PerformanceJob => assert JOBS[1] == job;
    case KpisJob => assert JOBS[2] == job;
    case CancellationsJob => assert JOBS[3] == job;
    case CategoryJob => assert JOBS[4] == job;
    case RegionalJob => assert JOBS[5] == job;
  }

  lemma SameTablesEqual(r: RefinedDb, s: RefinedDb)
    requires forall job :: SameTable(r, s, job)
    ensures r == s
  {
    assert SameTable(r, s, BestSellersJob) && SameTable(r, s, PerformanceJob) && SameTable(r, s, KpisJob);
    assert SameTable(r, s, CancellationsJob) && SameTable(r, s, CategoryJob) && SameTable(r, s, RegionalJob);
  }

  /** Without failures the run leaves every refined table as its job computes it, whatever they held before. */
  lemma PipelineFresh(r: RefinedDb, out: RefinedDb)
    ensures AfterJobs(r, JOBS, out, {}) == out
  {
    forall job ensures SameTable(AfterJobs(r, JOBS, out, {}), out, job) {
      Listed(job);
      AfterJobsProduces(r, JOBS, out, {}, job);
    }
    SameTablesEqual(AfterJobs(r, JOBS, out, {}), out);
  }

  /** Running the pipeline twice leaves the same schema as running it once, whichever jobs fail. */
  lemma PipelineIdempotent(r: RefinedDb, out: RefinedDb, failing: set<Job>)
    ensures AfterJobs(AfterJobs(r, JOBS, out, failing), JOBS, out, failing) == AfterJobs(r, JOBS, out, failing)
  {
    var once := AfterJobs(r, JOBS, out, failing);
    var twice := AfterJobs(once, JOBS, out, failing);
    forall job ensures SameTable(twice, once, job) {
      Listed(job);
      if job in failing {
        AfterJobsKeeps(once, JOBS, out, failing, job);
      } else {
        AfterJobsProduces(once, JOBS, out, failing, job);
        AfterJobsProduces(r, JOBS, out, failing, job);
      }
    }
    SameTablesEqual(twice, once);
  }

  // ---------------------------------------------------------------
  // The schema as mutable state and the driver loop
  // ---------------------------------------------------------------

  class RefinedSchema {
    var maisVendidos: Option<seq<BestSellers.BestSeller>>
    var performance: Option<seq<BrandPerformance.Performance>>
    var kpis: Option<seq<SalesKpis.Kpi>>
    var cancelamentos: Option<seq<CancellationAnalysis.Cancellation>>
    var categoria: Option<seq<CategoryVariation.Variation>>
    var regional: Option<seq<RegionalAnalysis.Regional>>

    function Snapshot(): RefinedDb
      reads this
    {
      RefinedDb(maisVendidos, performance, kpis, cancelamentos, categoria, regional)
    }

    constructor (initial: RefinedDb)
      ensures Snapshot() == initial
    {
      maisVendidos := initial.maisVendidos;
      performance := initial.performance;
      kpis := initial.kpis;
      cancelamentos := initial.cancelamentos;
      categoria := initial.categoria;
      regional := initial.regional;
    }

    /** Puts back every table as in `s` (a transaction rolling back). */
    method Restore(s: RefinedDb)
      modifies this
      ensures Snapshot() == s
    {
      maisVendidos := s.maisVendidos;
      performance := s.performance;
      kpis := s.kpis;
      cancelamentos := s.cancelamentos;
      categoria := s.categoria;
      regional := s.regional;
    }

    /** DROP TABLE IF EXISTS refined.<the job's table>. */
    method Drop(job: Job)
      modifies this
      ensures Snapshot() == Dropped(old(Snapshot()), job)
    {
      match job
      case BestSellersJob => maisVendidos := None;
      case PerformanceJob => performance := None;
      case KpisJob => kpis := None;
      case CancellationsJob => cancelamentos := None;
      case CategoryJob => categoria := None;
      case RegionalJob => regional := None;
    }

    /** CREATE TABLE refined.<the job's table> AS its query, whose result is the job's table in `out`. */
    method Create(job: Job, out: RefinedDb)
      modifies this
      ensures Snapshot() == Apply(old(Snapshot()), job, out)
    {
      match job
      case BestSellersJob => maisVendidos := out.maisVendidos;
      case PerformanceJob => performance := out.performance;
      case KpisJob => kpis := out.kpis;
      case CancellationsJob => cancelamentos := out.cancelamentos;
      case CategoryJob => categoria := out.categoria;
      case RegionalJob => regional := out.regional;
    }

    /**
     * One carregar_* call inside engine.begin(): drop and recreate the table;
     * when the statement fails the transaction rolls back and `ok` is false.
     */
    method RunJob(job: Job, out: RefinedDb, fails: bool) returns (ok: bool)
      modifies this
      ensures ok == !fails
      ensures Snapshot() == if fails then old(Snapshot()) else Apply(old(Snapshot()), job, out)
    {
      var before := Snapshot();
      Drop(job);
      if fails {
        Restore(before);
        return false;
      }
      Create(job, out);
      CreateAfterDrop(before, job, out);
      return true;
    }

    /**
     * The driver loop: every job of the list is attempted once, in order; a
     * failing job's error is reported and the remaining jobs still run.
     */
    method RunJobs(jobs: seq<Job>, out: RefinedDb, failing: set<Job>) returns (attempted: seq<Job>, errors: seq<Job>)
      modifies this
      ensures attempted == jobs
      ensures errors == Failures(jobs, failing)
      ensures Snapshot() == AfterJobs(old(Snapshot()), jobs, out, failing)
    {
      attempted := [];
      errors := [];
      ghost var start := Snapshot();
      for k := 0 to |jobs|
        invariant attempted == jobs[..k]
        invariant errors == Failures(attempted, failing)
        invariant Snapshot() == AfterJobs(start, attempted, out, failing)
      {
        var job := jobs[k];
        AfterJobsSnoc(start, attempted, job, out, failing);
        FailuresAppend(attempted, [job], failing);
        var ok := RunJob(job, out, job in failing);
        attempted := attempted + [job];
        assert attempted == jobs[..k + 1];
        errors := errors + (if ok then [] else [job]);
      }
      assert jobs[..|jobs|] == jobs;
    }

    /**
     * main of the transformation script: the six jobs of its list. Every query
     * reads only the trusted layer, which the run leaves unchanged, so each job
     * writes its table of `Fresh(db)`.
     */
    method RunTransformations(db: TrustedDb, failing: set<Job>) returns (attempted: seq<Job>, errors: seq<Job>)
      modifies this
      ensures attempted == JOBS
      ensures errors == Failures(JOBS, failing)
      ensures Snapshot() == AfterJobs(old(Snapshot()), JOBS, Fresh(db), failing)
    {
      attempted, errors := RunJobs(JOBS, Fresh(db), failing);
    }
  }
}
