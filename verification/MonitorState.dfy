/**
  How a check result moves a monitor's status, and what that status says about the whole
  sequence of results.
 */
module MonitorState {
  import opened Prelude
  import opened MonitorConfig

  datatype Status = Pending | Up | Down | Paused

  datatype Monitor = Monitor(
    id: Id,
    organizationId: Id,
    name: string,
    config: MonitorConfig,
    intervalSeconds: nat,
    timeoutSeconds: nat,
    status: Status,
    createdAt: Time,
    nextCheckAt: Time,
    failureThreshold: int,
    recoveryThreshold: int,
    consecutiveFailures: nat,
    consecutiveSuccesses: nat)

  function ApplyCheckResult(m: Monitor, success: bool): Monitor {
    if m.status.Paused? then m
    else if success then
      var successes := m.consecutiveSuccesses + 1;
      var status := if m.status.Pending? || (m.status.Down? && successes >= m.recoveryThreshold) then Up else m.status;
      m.(status := status, consecutiveFailures := 0, consecutiveSuccesses := successes)
    else
      var failures := m.consecutiveFailures + 1;
      var status := if failures >= m.failureThreshold then Down else m.status;
      m.(status := status, consecutiveFailures := failures, consecutiveSuccesses := 0)
  }

  /** The monitor after a sequence of results. */
  function Fold(m: Monitor, results: seq<bool>): Monitor {
    if results == [] then m
    else ApplyCheckResult(Fold(m, results[..|results| - 1]), results[|results| - 1])
  }

  // ----- the declarative reading

  /** `n` results in a row equal to `b`, the first of them at `i`. */
  ghost predicate RunOf(results: seq<bool>, b: bool, i: int, n: int) {
    0 <= i && i + n <= |results| && forall k :: i <= k < i + n ==> results[k] == b
  }

  /** The number of results equal to `b` at the end of the sequence. */
  function Trailing(results: seq<bool>, b: bool): (n: nat)
    ensures n <= |results|
  {
    if results == [] || results[|results| - 1] != b then 0 else 1 + Trailing(results[..|results| - 1], b)
  }

  /** A run of failures at `i` that no later run of successes has answered. */
  ghost predicate Unanswered(results: seq<bool>, failures: nat, recoveries: nat, i: int) {
    RunOf(results, false, i, failures) && forall j :: j >= i + failures ==> !RunOf(results, true, j, recoveries)
  }

  ghost predicate IsDown(results: seq<bool>, failures: nat, recoveries: nat) {
    exists i :: Unanswered(results, failures, recoveries, i)
  }

  ghost function StatusOf(results: seq<bool>, failures: nat, recoveries: nat): Status {
    if IsDown(results, failures, recoveries) then Down
    else if true !in results && |results| < failures then Pending
    else Up
  }

  lemma {:induction false} TrailingIsRun(results: seq<bool>, b: bool, n: nat)
    requires n <= |results|
    ensures Trailing(results, b) >= n <==> RunOf(results, b, |results| - n, n)
  {
    if n > 0 {
      var init := results[..|results| - 1];
      TrailingIsRun(init, b, n - 1);
      if results[|results| - 1] == b {
        assert RunOf(init, b, |init| - (n - 1), n - 1) ==> RunOf(results, b, |results| - n, n);
        assert RunOf(results, b, |results| - n, n) ==> RunOf(init, b, |init| - (n - 1), n - 1);
      } else {
        assert results[|results| - n + n - 1] != b;
      }
    }
  }

  /** A run either lies before the last result or is the trailing one. */
  lemma RunOfExtended(results: seq<bool>, last: bool, b: bool, i: int, n: nat)
    requires n >= 1
    ensures RunOf(results + [last], b, i, n)
      <==> RunOf(results, b, i, n) || (i + n == |results| + 1 && 0 <= i && Trailing(results + [last], b) >= n)
  {
    var longer := results + [last];
    if RunOf(longer, b, i, n) && i + n <= |results| {
      assert forall k :: i <= k < i + n ==> longer[k] == results[k];
    }
    if i + n == |results| + 1 && 0 <= i {
      TrailingIsRun(longer, b, n);
    }
  }

  /** Enough successes at the end answer every run of failures before them. */
  lemma TrailingAnswers(results: seq<bool>, failures: nat, recoveries: nat)
    requires failures >= 1 && recoveries >= 1 && Trailing(results, true) >= recoveries
    ensures !IsDown(results, failures, recoveries)
  {
    TrailingIsRun(results, true, recoveries);
    forall i | RunOf(results, false, i, failures) ensures !Unanswered(results, failures, recoveries, i) {
      assert !results[i + failures - 1];
      assert |results| - recoveries >= i + failures;
    }
  }

  lemma DownAfterSuccess(results: seq<bool>, failures: nat, recoveries: nat)
    requires failures >= 1 && recoveries >= 1
    ensures IsDown(results + [true], failures, recoveries)
      <==> IsDown(results, failures, recoveries) && Trailing(results, true) + 1 < recoveries
  {
    var longer := results + [true];
    assert longer[..|results|] == results;
    assert Trailing(longer, true) == Trailing(results, true) + 1 && Trailing(longer, false) == 0;
    forall i ensures RunOf(longer, false, i, failures) <==> RunOf(results, false, i, failures) {
      RunOfExtended(results, true, false, i, failures);
    }
    forall j
      ensures RunOf(longer, true, j, recoveries)
        <==> RunOf(results, true, j, recoveries) || (j + recoveries == |longer| && 0 <= j && Trailing(longer, true) >= recoveries)
    {
      RunOfExtended(results, true, true, j, recoveries);
    }
    if i :| Unanswered(longer, failures, recoveries, i) {
      assert Unanswered(results, failures, recoveries, i);
    }
    if Trailing(longer, true) >= recoveries {
      TrailingAnswers(longer, failures, recoveries);
    }
    if i :| Unanswered(results, failures, recoveries, i) && Trailing(longer, true) < recoveries {
      assert Unanswered(longer, failures, recoveries, i);
    }
  }

  lemma DownAfterFailure(results: seq<bool>, failures: nat, recoveries: nat)
    requires failures >= 1 && recoveries >= 1
    ensures IsDown(results + [false], failures, recoveries)
      <==> IsDown(results, failures, recoveries) || Trailing(results, false) + 1 >= failures
  {
    var longer := results + [false];
    assert longer[..|results|] == results;
    assert Trailing(longer, false) == Trailing(results, false) + 1 && Trailing(longer, true) == 0;
    forall j ensures RunOf(longer, true, j, recoveries) <==> RunOf(results, true, j, recoveries) {
      RunOfExtended(results, false, true, j, recoveries);
    }
    forall i ensures RunOf(longer, false, i, failures)
        <==> RunOf(results, false, i, failures) || (i + failures == |longer| && 0 <= i && Trailing(longer, false) >= failures)
    {
      RunOfExtended(results, false, false, i, failures);
    }
    if Trailing(longer, false) >= failures {
      TrailingIsRun(longer, false, failures);
      assert Unanswered(longer, failures, recoveries, |longer| - failures);
    }
    if i :| Unanswered(results, failures, recoveries, i) {
      assert Unanswered(longer, failures, recoveries, i);
    }
    if i :| Unanswered(longer, failures, recoveries, i) && Trailing(longer, false) < failures {
      assert Unanswered(results, failures, recoveries, i);
    }
  }

  /**
    With fixed thresholds, the monitor after any results from PENDING is determined by the
    results: both counters are trailing runs, and the status is the declarative one.
   */
  lemma {:induction false} FoldIsDeclarative(m: Monitor, results: seq<bool>)
    requires m.status.Pending? && m.consecutiveFailures == 0 && m.consecutiveSuccesses == 0
    requires m.failureThreshold >= 1 && m.recoveryThreshold >= 1
    ensures Fold(m, results) == m.(
      status := StatusOf(results, m.failureThreshold, m.recoveryThreshold),
      consecutiveFailures := Trailing(results, false),
      consecutiveSuccesses := Trailing(results, true))
    ensures true !in results ==> Trailing(results, false) == |results|
  {
    var f, r := m.failureThreshold, m.recoveryThreshold;
    if results == [] {
      assert forall i :: !RunOf(results, false, i, f);
    } else {
      var init, last := results[..|results| - 1], results[|results| - 1];
      assert results == init + [last];
      FoldIsDeclarative(m, init);
      if last {
        DownAfterSuccess(init, f, r);
        assert true in results;
      } else {
        DownAfterFailure(init, f, r);
        assert true in results <==> true in init;
      }
      PendingIsNotDown(init, f, r);
    }
  }

  /** Without a success, a monitor is down exactly from the F-th failure on. */
  lemma PendingIsNotDown(results: seq<bool>, failures: nat, recoveries: nat)
    requires failures >= 1 && recoveries >= 1
    ensures |results| < failures ==> !IsDown(results, failures, recoveries)
  {
    assert forall i :: |results| < failures ==> !RunOf(results, false, i, failures);
  }

  /** With fixed thresholds a monitor that is UP has not reached the failure threshold. */
  lemma UpIsBelowThreshold(m: Monitor, results: seq<bool>)
    requires m.status.Pending? && m.consecutiveFailures == 0 && m.consecutiveSuccesses == 0
    requires m.failureThreshold >= 1 && m.recoveryThreshold >= 1
    ensures Fold(m, results).status.Up? ==> Fold(m, results).consecutiveFailures < m.failureThreshold
    ensures Fold(m, results).status.Down? ==> Fold(m, results).consecutiveSuccesses < m.recoveryThreshold
  {
    FoldIsDeclarative(m, results);
    var f := Trailing(results, false);
    if f >= m.failureThreshold {
      TrailingIsRun(results, false, m.failureThreshold);
      assert Unanswered(results, m.failureThreshold, m.recoveryThreshold, |results| - m.failureThreshold);
    }
    if Trailing(results, true) >= m.recoveryThreshold {
      TrailingAnswers(results, m.failureThreshold, m.recoveryThreshold);
    }
  }

  // ----- thresholds that change

  /** A status that the next result would have changed had the thresholds always been these. */
  predicate Overdue(m: Monitor) {
    || (m.status.Up? && m.failureThreshold <= m.consecutiveFailures)
    || (m.status.Down? && m.recoveryThreshold <= m.consecutiveSuccesses)
  }

  /** A result leaves a paused monitor as it is; any other counts it, and nothing but status and counters moves. */
  lemma ResultCounts(m: Monitor, success: bool)
    ensures var n := ApplyCheckResult(m, success);
      && (m.status == Paused ==> n == m)
      && (m.status != Paused ==>
            && n.consecutiveSuccesses == (if success then m.consecutiveSuccesses + 1 else 0)
            && n.consecutiveFailures == (if success then 0 else m.consecutiveFailures + 1)
            && (n.status == Down <==> if success then m.status == Down && n.consecutiveSuccesses < m.recoveryThreshold
                                     else m.status == Down || n.consecutiveFailures >= m.failureThreshold)
            && (n.status == Pending <==> m.status == Pending && !success && n.status != Down) && n.status != Paused
            && n == m.(status := n.status, consecutiveFailures := n.consecutiveFailures, consecutiveSuccesses := n.consecutiveSuccesses))
  {
  }

  /** Any result that counts settles a monitor, whatever its counters were. */
  lemma ResultsSettle(m: Monitor, success: bool)
    requires m.failureThreshold >= 1 && m.recoveryThreshold >= 1
    ensures !Overdue(ApplyCheckResult(m, success))
  {
  }

  /** A user who then lowers the threshold to two leaves an UP monitor at the threshold. */
  lemma LoweredThresholdBreaksIt()
    ensures var m := Monitor(0, 0, "", Icmp("localhost"), 60, 5, Pending, 0.0, 0.0, 3, 2, 0, 0);
      var after := Fold(m, [true, false, false]).(failureThreshold := 2);
      after.status.Up? && Overdue(after)
  {
    var m := Monitor(0, 0, "", Icmp("localhost"), 60, 5, Pending, 0.0, 0.0, 3, 2, 0, 0);
    var results := [true, false, false];
    assert results[..2] == [true, false] && [true, false][..1] == [true] && [true][..0] == [];
    assert Fold(m, [true]).status.Up?;
    assert Fold(m, [true, false]).status.Up? && Fold(m, [true, false]).consecutiveFailures == 1;
  }
}
