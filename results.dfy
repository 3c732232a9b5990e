/**
 * The run log both validators share: an ordered list of results, each with a
 * severity, and a counter of errors. The process exit code is derived from it.
 */
module Results {

  datatype Status = Success | Warning | Error

  /**
   * One validation result. The message text and timestamp are not modelled:
   * `subject` names what was checked (a table, a field, a relationship) and
   * `count` is the figure the check measured.
   */
  datatype Entry = Entry(status: Status, subject: string, count: int)

  function CountStatus(entries: seq<Entry>, s: Status): (n: nat)
    ensures n <= |entries|
  {
    if entries == [] then 0
    else (if entries[0].status == s then 1 else 0) + CountStatus(entries[1..], s)
  }

  lemma {:induction false} CountStatusZero(entries: seq<Entry>, s: Status)
    ensures CountStatus(entries, s) == 0 <==> forall i :: 0 <= i < |entries| ==> entries[i].status != s
  {
    if entries != [] {
      CountStatusZero(entries[1..], s);
      assert forall i :: 0 < i < |entries| ==> entries[i] == entries[1..][i - 1];
    }
  }

  lemma {:induction false} CountStatusAppend(a: seq<Entry>, b: seq<Entry>, s: Status)
    ensures CountStatus(a + b, s) == CountStatus(a, s) + CountStatus(b, s)
  {
    if a == [] {
      assert a + b == b;
    } else {
      assert (a + b)[0] == a[0] && (a + b)[1..] == a[1..] + b;
      CountStatusAppend(a[1..], b, s);
    }
  }

  /** The summary in `main`: every entry is a success, a warning or an error. */
  lemma {:induction false} StatusCountsPartition(entries: seq<Entry>)
    ensures CountStatus(entries, Success) + CountStatus(entries, Warning) + CountStatus(entries, Error) == |entries|
  {
    if entries != [] {
      StatusCountsPartition(entries[1..]);
    }
  }

  predicate ErrorFree(entries: seq<Entry>) {
    forall i :: 0 <= i < |entries| ==> entries[i].status != Error
  }

  lemma ErrorFreeAppend(a: seq<Entry>, b: seq<Entry>)
    ensures ErrorFree(a + b) <==> ErrorFree(a) && ErrorFree(b)
  {
    if ErrorFree(a) && ErrorFree(b) {
      forall k | 0 <= k < |a + b|
        ensures (a + b)[k].status != Error
      {
        if k < |a| {
          assert (a + b)[k] == a[k];
        } else {
          assert (a + b)[k] == b[k - |a|];
        }
      }
    }
    if ErrorFree(a + b) {
      forall k | 0 <= k < |b|
        ensures b[k].status != Error
      {
        assert (a + b)[|a| + k] == b[k];
      }
      forall k | 0 <= k < |a|
        ensures a[k].status != Error
      {
        assert (a + b)[k] == a[k];
      }
    }
  }

  /** The value `main` returns: 0 exactly when no result is an error. */
  function ExitCode(entries: seq<Entry>): (code: int)
    ensures code == 0 || code == 1
    ensures code == 0 <==> ErrorFree(entries)
  {
    CountStatusZero(entries, Error);
    if CountStatus(entries, Error) == 0 then 0 else 1
  }

  /** Severity rule of the structural checks: any offending row is an error. */
  function ErrorIfAny(n: nat): (s: Status)
    ensures s != Warning
    ensures s == Error <==> n > 0
  {
    if n > 0 then Error else Success
  }

  /** Severity rule of the data-quality checks: offending rows only warn. */
  function WarningIfAny(n: nat): (s: Status)
    ensures s != Error
    ensures s == Warning <==> n > 0
  {
    if n > 0 then Warning else Success
  }

  /** One result per (subject, measured count) pair, in order, graded by `rule`. */
  function Graded(checks: seq<(string, nat)>, rule: nat -> Status): seq<Entry> {
    seq(|checks|, i requires 0 <= i < |checks| => Entry(rule(checks[i].1), checks[i].0, checks[i].1))
  }

  lemma GradedErrorFree(checks: seq<(string, nat)>, rule: nat -> Status)
    ensures ErrorFree(Graded(checks, rule)) <==> forall i :: 0 <= i < |checks| ==> rule(checks[i].1) != Error
  {
    var es := Graded(checks, rule);
    assert forall i :: 0 <= i < |checks| ==> es[i].status == rule(checks[i].1);
  }

  /**
   * The global result list and error counter of a validator run.
   */
  class ResultLog {
    var results: seq<Entry>
    var totalErrors: nat

    /** `total_errors` always equals the number of ERROR results. */
    ghost predicate Valid()
      reads this
    {
      totalErrors == CountStatus(results, Error)
    }

    constructor ()
      ensures Valid() && results == [] && totalErrors == 0
    {
      results := [];
      totalErrors := 0;
    }

    method LogSuccess(subject: string, count: int)
      requires Valid()
      modifies this
      ensures Valid()
      ensures results == old(results) + [Entry(Success, subject, count)]
      ensures totalErrors == old(totalErrors)
    {
      CountStatusAppend(results, [Entry(Success, subject, count)], Error);
      results := results + [Entry(Success, subject, count)];
    }

    method LogWarning(subject: string, count: int)
      requires Valid()
      modifies this
      ensures Valid()
      ensures results == old(results) + [Entry(Warning, subject, count)]
      ensures totalErrors == old(totalErrors)
    {
      CountStatusAppend(results, [Entry(Warning, subject, count)], Error);
      results := results + [Entry(Warning, subject, count)];
    }

    method LogError(subject: string, count: int)
      requires Valid()
      modifies this
      ensures Valid()
      ensures results == old(results) + [Entry(Error, subject, count)]
      ensures totalErrors == old(totalErrors) + 1
    {
      CountStatusAppend(results, [Entry(Error, subject, count)], Error);
      totalErrors := totalErrors + 1;
      results := results + [Entry(Error, subject, count)];
    }
  }
}
