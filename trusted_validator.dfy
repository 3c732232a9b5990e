/**
 * The trusted-layer validator as a run: each `validate_*` step appends its
 * results to the shared log, and `main` turns the log into the exit code.
 * Every query result is the count `TrustedChecks` defines for it.
 */
module TrustedValidator {
  import opened Sql
  import opened Trusted
  import opened Results
  import opened TrustedChecks

  /** One count graded by "any offending row is an error". */
  method CheckNoneFound(log: ResultLog, subject: string, n: nat)
    requires log.Valid()
    modifies log
    ensures log.Valid()
    ensures log.results == old(log.results) + [Entry(ErrorIfAny(n), subject, n)]
  {
    if n > 0 {
      log.LogError(subject, n);
    } else {
      log.LogSuccess(subject, n);
    }
  }

  /** One count graded by "offending rows only warn". */
  method CheckFewFound(log: ResultLog, subject: string, n: nat)
    requires log.Valid()
    modifies log
    ensures log.Valid()
    ensures log.results == old(log.results) + [Entry(WarningIfAny(n), subject, n)]
    ensures log.totalErrors == old(log.totalErrors)
  {
    if n > 0 {
      log.LogWarning(subject, n);
    } else {
      log.LogSuccess(subject, n);
    }
  }

  /** The loop over a dictionary of checks, one result per entry, in order. */
  method CheckEachNoneFound(log: ResultLog, checks: seq<(string, nat)>)
    requires log.Valid()
    modifies log
    ensures log.Valid()
    ensures log.results == old(log.results) + Graded(checks, ErrorIfAny)
  {
    for k := 0 to |checks|
      invariant log.Valid()
      invariant log.results == old(log.results) + Graded(checks, ErrorIfAny)[..k]
    {
      assert Graded(checks, ErrorIfAny)[..k + 1] == Graded(checks, ErrorIfAny)[..k] + [Entry(ErrorIfAny(checks[k].1), checks[k].0, checks[k].1)];
      CheckNoneFound(log, checks[k].0, checks[k].1);
    }
    assert Graded(checks, ErrorIfAny)[..|checks|] == Graded(checks, ErrorIfAny);
  }

  /** validate_table_counts: one result per table, graded by row volume. */
  method ValidateTableCounts(log: ResultLog, db: TrustedDb)
    requires log.Valid()
    modifies log
    ensures log.Valid()
    ensures log.results == old(log.results) + Graded(TableCounts(db), VolumeStatus)
  {
    var tables := TableCounts(db);
    for k := 0 to |tables|
      invariant log.Valid()
      invariant log.results == old(log.results) + Graded(tables, VolumeStatus)[..k]
    {
      var (table, count) := tables[k];
      assert Graded(tables, VolumeStatus)[..k + 1] == Graded(tables, VolumeStatus)[..k] + [Entry(VolumeStatus(count), table, count)];
      if count == 0 {
        log.LogError(table, count);
      } else if count < 10 {
        log.LogWarning(table, count);
      } else {
        log.LogSuccess(table, count);
      }
    }
    assert Graded(tables, VolumeStatus)[..|tables|] == Graded(tables, VolumeStatus);
  }

  /** validate_foreign_keys */
  method ValidateForeignKeys(log: ResultLog, db: TrustedDb)
    requires log.Valid()
    modifies log
    ensures log.Valid()
    ensures log.results == old(log.results) + Graded(ForeignKeyChecks(db), ErrorIfAny)
  {
    CheckEachNoneFound(log, ForeignKeyChecks(db));
  }

  /** validate_null_constraints */
  method ValidateNullConstraints(log: ResultLog, db: TrustedDb)
    requires log.Valid()
    modifies log
    ensures log.Valid()
    ensures log.results == old(log.results) + Graded(NullChecks(db), ErrorIfAny)
  {
    CheckEachNoneFound(log, NullChecks(db));
  }

  /** validate_data_ranges: four separate queries, each an error when it finds a row. */
  method ValidateDataRanges(log: ResultLog, db: TrustedDb)
    requires log.Valid()
    modifies log
    ensures log.Valid()
    ensures log.results == old(log.results) + Graded(RangeChecks(db), ErrorIfAny)
  {
    var checks := RangeChecks(db);
    CheckNoneFound(log, checks[0].0, checks[0].1);
    CheckNoneFound(log, checks[1].0, checks[1].1);
    CheckNoneFound(log, checks[2].0, checks[2].1);
    CheckNoneFound(log, checks[3].0, checks[3].1);
    assert Graded(checks, ErrorIfAny) == [Graded(checks, ErrorIfAny)[0], Graded(checks, ErrorIfAny)[1],
                                          Graded(checks, ErrorIfAny)[2], Graded(checks, ErrorIfAny)[3]];
  }

  /** validate_duplicates */
  method ValidateDuplicates(log: ResultLog, db: TrustedDb)
    requires log.Valid()
    modifies log
    ensures log.Valid()
    ensures log.results == old(log.results) + Graded(DuplicateChecks(db), ErrorIfAny)
  {
    CheckEachNoneFound(log, DuplicateChecks(db));
  }

  /** validate_business_rules: two queries that can only warn. */
  method ValidateBusinessRules(log: ResultLog, db: TrustedDb)
    requires log.Valid()
    modifies log
    ensures log.Valid()
    ensures log.results == old(log.results) + Graded(BusinessChecks(db), WarningIfAny)
    ensures log.totalErrors == old(log.totalErrors)
  {
    var checks := BusinessChecks(db);
    CheckFewFound(log, checks[0].0, checks[0].1);
    CheckFewFound(log, checks[1].0, checks[1].1);
    assert Graded(checks, WarningIfAny) == [Graded(checks, WarningIfAny)[0], Graded(checks, WarningIfAny)[1]];
  }

  /** validate_date_consistency */
  method ValidateDateConsistency(log: ResultLog, db: TrustedDb)
    requires log.Valid()
    modifies log
    ensures log.Valid()
    ensures log.results == old(log.results) + Graded(DateChecks(db), ErrorIfAny)
  {
    var checks := DateChecks(db);
    CheckNoneFound(log, checks[0].0, checks[0].1);
    assert Graded(checks, ErrorIfAny) == [Graded(checks, ErrorIfAny)[0]];
  }

  /**
   * main: run the seven steps on a fresh log and return the exit code, the
   * log and the error counter.
   */
  method RunTrustedValidation(db: TrustedDb) returns (code: int, results: seq<Entry>, totalErrors: nat)
    ensures results == TrustedReport(db)
    ensures totalErrors == CountStatus(results, Error)
    ensures code == 0 <==> TrustedHealthy(db)
    ensures code == 0 || code == 1
  {
    var log := new ResultLog();
    ValidateTableCounts(log, db);
    ghost var upTo := Graded(TableCounts(db), VolumeStatus);
    assert log.results == upTo;
    ValidateForeignKeys(log, db);
    upTo := upTo + Graded(ForeignKeyChecks(db), ErrorIfAny);
    assert log.results == upTo;
    ValidateNullConstraints(log, db);
    upTo := upTo + Graded(NullChecks(db), ErrorIfAny);
    assert log.results == upTo;
    ValidateDataRanges(log, db);
    upTo := upTo + Graded(RangeChecks(db), ErrorIfAny);
    assert log.results == upTo;
    ValidateDuplicates(log, db);
    upTo := upTo + Graded(DuplicateChecks(db), ErrorIfAny);
    assert log.results == upTo;
    ValidateBusinessRules(log, db);
    upTo := upTo + Graded(BusinessChecks(db), WarningIfAny);
    assert log.results == upTo;
    ValidateDateConsistency(log, db);
    upTo := upTo + Graded(DateChecks(db), ErrorIfAny);
    assert log.results == upTo;
    assert upTo == TrustedReport(db);
    results := log.results;
    totalErrors := log.totalErrors;
    var errorCount := CountStatus(results, Error);
    code := if errorCount == 0 then 0 else 1;
    assert code == ExitCode(results);
    TrustedVerdict(db);
  }
}
