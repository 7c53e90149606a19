/** What holds in every run of the monitor protocol, from empty tables on. */
module MonitorTheorems {
  import opened Prelude
  import opened MonitorState
  import opened CheckRecording
  import opened MonitorProtocol
  import opened MonitorLeases
  import opened MonitorProbes
  import opened MonitorIncidents

  ghost predicate All(s: State) {
    Inv(s) && ProbeInv(s) && IncidentInv(s)
  }

  lemma StepHolds(c: Config, s: State, n: State)
    requires All(s) && Step(c, s, n)
    ensures All(n)
  {
    hide Inv, ProbeInv, IncidentInv;
    var l :| Enabled(c, s, l) && n == Apply(c, s, l);
    StepKeeps(c, s, l);
    StepKeepsProbes(c, s, l);
    StepKeepsIncidents(c, s, l);
  }

  /** Every state of every run satisfies all the invariants. */
  lemma {:induction false} RunHolds(c: Config, run: seq<State>, k: nat)
    requires Run(c, run) && k < |run|
    ensures All(run[k])
  {
    if k == 0 {
      assert All(run[0]);
    } else {
      hide All;
      RunHolds(c, run, k - 1);
      assert Step(c, run[k - 1], run[k - 1 + 1]);
      StepHolds(c, run[k - 1], run[k]);
    }
  }

  // ----- probes

  /**
    Probes of one monitor never overlap, whichever schedulers, crashes, cancellations and
    expiries a run has; each ends, or will be stopped, before its lease runs out.
   */
  lemma ProbesNeverOverlap(c: Config, run: seq<State>, k: nat, t: Id, u: Id)
    requires Run(c, run) && k < |run| && t in run[k].probeLog && u in run[k].probeLog && t != u
    requires run[k].probeLog[t].monitorId == run[k].probeLog[u].monitorId
    ensures Apart(run[k].probeLog[t], run[k].probeLog[u])
    ensures run[k].probeLog[t].start <= EndOf(run[k].probeLog[t]) <= run[k].probeLog[t].expiry
    ensures run[k].probeLog[t].ended.None? ==> run[k].now <= run[k].probeLog[t].deadline
  {
    RunHolds(c, run, k);
    var s := run[k];
    assert LogOk(s, t, s.probeLog[t]);
    if s.probeLog[t].ended.None? {
      assert ProbeOk(s.now, s.tokens, t, s.probes[t]);
    }
  }

  /**
    A claim token records at most one check, for its own monitor, and the token was verified
    before the lease ran out even if the lock came late.
   */
  lemma TokensRecordOnce(c: Config, run: seq<State>, k: nat, i: nat)
    requires Run(c, run) && k < |run| && i < |run[k].checks| && run[k].checks[i].token.Some?
    ensures var s := run[k]; var check := s.checks[i]; var t := check.token.value;
      && (forall j :: 0 <= j < |s.checks| && s.checks[j].token == Some(t) ==> i == j)
      && t in s.probeLog && s.probeLog[t].monitorId == check.monitorId
      && check.verifiedAt < s.probeLog[t].expiry && check.verifiedAt <= check.at
  {
    RunHolds(c, run, k);
    var s := run[k];
    assert CheckOk(s.now, s.probeLog, s.checks[i]);
  }

  /** l is the commit of a check or a release that runs under the token t. */
  predicate EndsLease(s: State, l: Label, m: Id, t: Id) {
    || (l.CheckCommit? && l.x in s.txns && s.txns[l.x].Checking? && s.txns[l.x].monitorId == m && s.txns[l.x].token == Some(t))
    || (l.ReleaseCommit? && l.x in s.txns && s.txns[l.x].Releasing? && m in s.txns[l.x].tokens && s.txns[l.x].tokens[m] == t)
  }

  lemma ClaimLeavesHeldLeases(c: Config, s: State, x: Id, returned: bool, m: Id, t: Id)
    requires Inv(s) && Enabled(c, s, ClaimCommit(x, returned)) && m in s.rows && HoldsLease(s.rows[m], t, s.now)
    ensures SameLease(Apply(c, s, ClaimCommit(x, returned)).rows[m], s.rows[m])
  {
    assert TxnOk(s, s.txns[x]);
  }

  lemma WritesLeaveOthersLeases(c: Config, s: State, l: Label, m: Id, t: Id)
    requires Enabled(c, s, l) && WritesRows(l) && !l.ClaimCommit? && !l.Create?
    requires m in s.rows && HoldsLease(s.rows[m], t, s.now) && m in Apply(c, s, l).rows
    ensures SameLease(Apply(c, s, l).rows[m], s.rows[m]) || EndsLease(s, l, m, t)
  {
    hide Locked;
    if l.CheckCommit? {
      CheckLeavesOthersLeases(s, l.x, m, t);
      hide AfterCheckCommit;
      hide EndsLease;
      CommitEndsLease(s, l, m, t);
    } else if l.EditCommit? {
      EditLeavesLeases(s, l.x, m);
      hide AfterEditCommit;
    }
  }

  lemma CommitEndsLease(s: State, l: Label, m: Id, t: Id)
    requires l.CheckCommit? && l.x in s.txns && s.txns[l.x].Checking?
    ensures EndsLease(s, l, m, t) <==> s.txns[l.x].monitorId == m && s.txns[l.x].token == Some(t)
  {
  }

  lemma CheckLeavesOthersLeases(s: State, x: Id, m: Id, t: Id)
    requires x in s.txns && s.txns[x].Checking? && s.txns[x].effect.Some? && m in s.rows && s.rows[m].leaseToken == Some(t)
    ensures var n := AfterCheckCommit(s, x);
      m in n.rows && (SameLease(n.rows[m], s.rows[m]) || (s.txns[x].monitorId == m && s.txns[x].token == Some(t)))
  {
    hide WithChange, Emitted;
  }

  lemma EditLeavesLeases(s: State, x: Id, m: Id)
    requires x in s.txns && s.txns[x].Editing? && m in s.rows
    ensures m in AfterEditCommit(s, x).rows && SameLease(AfterEditCommit(s, x).rows[m], s.rows[m])
  {
  }

  /** A lease that has not run out is only ever taken off its row by its own holder. */
  lemma LeasesAreTheirHolders(c: Config, run: seq<State>, k: nat, l: Label, m: Id, t: Id)
    requires Run(c, run) && k < |run| && Enabled(c, run[k], l)
    requires m in run[k].rows && HoldsLease(run[k].rows[m], t, run[k].now) && m in Apply(c, run[k], l).rows
    ensures SameLease(Apply(c, run[k], l).rows[m], run[k].rows[m]) || EndsLease(run[k], l, m, t)
  {
    RunHolds(c, run, k);
    var s := run[k];
    hide ProbeInv, IncidentInv, HoldsLease, SameLease, EndsLease;
    if l.ClaimCommit? { ClaimLeavesHeldLeases(c, s, l.x, l.returned, m, t); }
    else if l.Create? { CreateLeavesRows(c, s, l, m); }
    else if WritesRows(l) { WritesLeaveOthersLeases(c, s, l, m, t); }
    else { RowsFrame(c, s, l); SameRow(s.rows[m]); }
  }

  lemma SameRow(row: Row)
    ensures SameLease(row, row)
  {
  }

  lemma CreateLeavesRows(c: Config, s: State, l: Label, m: Id)
    requires Ids(s) && Enabled(c, s, l) && l.Create? && m in s.rows
    ensures SameLease(Apply(c, s, l).rows[m], s.rows[m])
  {
    assert m in s.rows.Keys;
  }

  // ----- no lost update

  /**
    Whatever user edits, manual checks and leased checks interleave, the row is the result of
    the committed operations performed one after the other, from a healthy start.
   */
  lemma NoLostUpdate(c: Config, run: seq<State>, k: nat, m: Id)
    requires Run(c, run) && k < |run| && m in run[k].rows
    ensures m in run[k].past && Healthy(run[k].past[m].created)
    ensures run[k].rows[m].monitor == Replay(run[k].past[m].created, run[k].past[m].ops)
  {
    RunHolds(c, run, k);
  }

  /** The operation that a commit performs on m, if any. */
  ghost function Committed(s: State, l: Label, m: Id): Option<Op> {
    if l.CheckCommit? && l.x in s.txns && Decided(s.txns[l.x]) && s.txns[l.x].monitorId == m
    then Some(s.txns[l.x].effect.value.op)
    else if l.EditCommit? && l.x in s.txns && s.txns[l.x].Editing? && s.txns[l.x].monitorId == m
    then Some(Changed(s.txns[l.x].edit))
    else None
  }

  /** Every commit adds its own operation to the history, and nothing else changes it. */
  lemma HistoryGrows(c: Config, run: seq<State>, k: nat, l: Label, m: Id)
    requires Run(c, run) && k < |run| && Enabled(c, run[k], l) && m in run[k].past
    ensures var s := run[k]; var n := Apply(c, s, l); var op := Committed(s, l, m);
      m in n.past && n.past[m] == if op.Some? then Extended(s.past[m], op.value) else s.past[m]
  {
    RunHolds(c, run, k);
    var s := run[k];
    if l.CheckCommit? || l.EditCommit? {
      assert Held(s.txns[l.x]) == {s.txns[l.x].monitorId} <= s.rows.Keys;
      assert s.txns[l.x].monitorId in s.past.Keys;
    } else {
      PastFrame(c, s, l, m);
    }
  }

  lemma PastFrame(c: Config, s: State, l: Label, m: Id)
    requires Enabled(c, s, l) && !l.CheckCommit? && !l.EditCommit? && m in s.past
    ensures m in Apply(c, s, l).past && Apply(c, s, l).past[m] == s.past[m]
  {
    hide AfterCheckVerify, AfterCheckCreate, AfterCheckRun, AfterClaimCommit, AfterCheckCommit, AfterEditCommit, Drop, Released, Locked, OpenAnswer;
    hide Candidates, IsDue, LockedRows, Inverse, HoldsLease, Stamp;
  }

  /** With unchanged thresholds, the status and the counters are read off the results. */
  lemma StatusIsDeclarative(c: Config, run: seq<State>, k: nat, m: Id)
    requires Run(c, run) && k < |run| && m in run[k].rows
    requires m in run[k].past && KeepsThresholds(run[k].past[m].ops)
    ensures Healthy(run[k].past[m].created)
    ensures var monitor := run[k].rows[m].monitor; var h := run[k].past[m]; var results := Results(h.ops);
      && monitor.status == StatusOf(results, h.created.failureThreshold, h.created.recoveryThreshold)
      && monitor.consecutiveFailures == Trailing(results, false)
      && monitor.consecutiveSuccesses == Trailing(results, true)
  {
    NoLostUpdate(c, run, k, m);
    StateFromHistory(run[k].past[m].created, run[k].past[m].ops);
  }

  /** In every run, a row is overdue exactly if an edit crossed its counter and nothing settled it since. */
  lemma RowOverdueIff(c: Config, run: seq<State>, k: nat, m: Id)
    requires Run(c, run) && k < |run| && m in run[k].rows && m in run[k].past
    requires PositiveThresholds(run[k].past[m].ops)
    ensures Overdue(run[k].rows[m].monitor) <==> Crossed(run[k].past[m].created, run[k].past[m].ops)
  {
    NoLostUpdate(c, run, k, m);
    OverdueIff(run[k].past[m].created, run[k].past[m].ops);
  }

  // ----- incidents

  function OpenIncidents(s: State, m: Id): set<Id> {
    set i | i in s.incidents && IsOpenFor(s.incidents[i], m)
  }

  lemma CountOpen(s: State, m: Id)
    requires m in s.rows && s.rows[m].monitor.id == m && OneOpen(s.incidents)
    requires Agrees(s.rows[m].monitor, s.incidents, EventsOf(s.outbox, m))
    ensures |OpenIncidents(s, m)| == if s.rows[m].monitor.status.Down? then 1 else 0
  {
    var events := EventsOf(s.outbox, m);
    if s.rows[m].monitor.status.Down? {
      var i := events[|events| - 1].incidentId;
      assert forall j :: j in OpenIncidents(s, m) <==> j == i;
      assert OpenIncidents(s, m) == {i};
    } else {
      assert forall j :: j in OpenIncidents(s, m) ==> HasOpen(s.incidents, m);
      assert OpenIncidents(s, m) == {};
    }
  }

  /** A monitor is DOWN exactly when it has one open incident, and it never has two. */
  lemma DownIffOneOpenIncident(c: Config, run: seq<State>, k: nat, m: Id)
    requires Run(c, run) && k < |run| && m in run[k].rows
    ensures |OpenIncidents(run[k], m)| == if run[k].rows[m].monitor.status.Down? then 1 else 0
  {
    RunHolds(c, run, k);
    assert RowOk(run[k].tokens, m, run[k].rows[m]);
    CountOpen(run[k], m);
  }

  /**
    The events of one monitor alternate, OPENED first, each RESOLVED naming the incident of
    the OPENED before it; the monitor is DOWN exactly while the last one is unanswered.
   */
  lemma EventsAlternate(c: Config, run: seq<State>, k: nat, m: Id)
    requires Run(c, run) && k < |run|
    ensures Alternates(EventsOf(run[k].outbox, m))
    ensures m in run[k].rows ==> (run[k].rows[m].monitor.status.Down? <==> |EventsOf(run[k].outbox, m)| % 2 == 1)
  {
    RunHolds(c, run, k);
    if m in run[k].rows {
      assert Agrees(run[k].rows[m].monitor, run[k].incidents, EventsOf(run[k].outbox, m));
    }
  }

  /** The early return of a recovery that finds no open incident is never taken. */
  lemma RecoveryFindsItsIncident(c: Config, run: seq<State>, k: nat, x: Id, at: Time, open: Option<Incident>, i: Id, e: Id)
    requires Run(c, run) && k < |run| && Enabled(c, run[k], CheckRun(x, at, open, i, e))
    requires run[k].txns[x].read.status.Down?
    requires EffectOf(run[k], run[k].txns[x], at, open, i, e).write.status.Up?
    ensures open.Some? && EffectOf(run[k], run[k].txns[x], at, open, i, e).change.Resolves?
  {
    RunHolds(c, run, k);
    OpenIncidentIsFound(run[k], x, open);
  }
}
