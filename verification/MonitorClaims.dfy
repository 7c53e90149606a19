/**
  What a claim of monitors takes and leaves in a run: a monitor is probed again only when one
  interval has passed since its last check, and then by the next claim that has room for it.
 */
module MonitorClaims {
  import opened Prelude
  import opened Selection
  import opened MonitorState
  import opened CheckRecording
  import opened MonitorProtocol
  import opened MonitorLeases
  import opened MonitorIncidents
  import opened MonitorTheorems

  /** One interval after the last check, counted at that moment, or the creation's first instant. */
  ghost predicate WaitIsOver(h: History, now: Time) {
    && (forall k: nat :: LastCheck(h.ops, k) ==> now >= h.ops[k].at + Replay(h.created, h.ops[..k]).intervalSeconds as Time)
    && ((forall k: nat :: !LastCheck(h.ops, k)) ==> now >= h.created.nextCheckAt)
  }

  lemma RowWaits(c: Config, run: seq<State>, k: nat, m: Id)
    requires Run(c, run) && k < |run| && m in run[k].rows
    ensures m in run[k].past
    ensures WaitIsOver(run[k].past[m], run[k].now) <==> run[k].rows[m].monitor.nextCheckAt <= run[k].now
  {
    NoLostUpdate(c, run, k, m);
    var h := run[k].past[m];
    hide Run, Replay, LastCheck;
    ScheduleFromLastCheck(h.created, h.ops);
    if exists j: nat :: LastCheck(h.ops, j) {
      var j: nat :| LastCheck(h.ops, j);
      assert run[k].rows[m].monitor.nextCheckAt == h.ops[j].at + Replay(h.created, h.ops[..j]).intervalSeconds as Time;
    }
  }

  /**
    In every run, a chosen monitor is held by no transaction, is not excluded, not paused and under no
    unexpired lease, and its last committed check lies one interval of that moment back.
   */
  lemma ChosenMonitorWasDue(c: Config, run: seq<State>, k: nat, x: Id, limit: nat, exclude: set<Id>, chosen: seq<Due>, due: Due)
    requires Run(c, run) && k < |run| && Enabled(c, run[k], ClaimSelect(x, limit, exclude, chosen)) && due in chosen
    ensures var s := run[k]; var m := due.id;
      && m in s.rows && m !in exclude && (forall y :: y in s.txns ==> m !in Held(s.txns[y]))
      && s.rows[m].monitor.status != Paused && due.at == s.rows[m].monitor.nextCheckAt
      && (s.rows[m].leaseUntil.None? || s.rows[m].leaseUntil.value <= s.now)
      && m in s.past && WaitIsOver(s.past[m], s.now)
  {
    assert due in Elements(chosen);
    RowWaits(c, run, k, due.id);
    hide WaitIsOver;
  }

  /** And a claim that returns fewer monitors than its limit takes every such monitor. */
  lemma ShortClaimTakesAll(c: Config, run: seq<State>, k: nat, x: Id, limit: nat, exclude: set<Id>, chosen: seq<Due>, m: Id)
    requires Run(c, run) && k < |run| && Enabled(c, run[k], ClaimSelect(x, limit, exclude, chosen)) && |chosen| < limit
    requires m in run[k].rows && m !in exclude && forall y :: y in run[k].txns ==> m !in Held(run[k].txns[y])
    requires run[k].rows[m].monitor.status != Paused && m in run[k].past && WaitIsOver(run[k].past[m], run[k].now)
    requires run[k].rows[m].leaseUntil.None? || run[k].rows[m].leaseUntil.value <= run[k].now
    ensures Due(run[k].rows[m].monitor.nextCheckAt, m) in chosen
  {
    var s := run[k];
    RowWaits(c, run, k, m);
    hide WaitIsOver, Run;
    ShortIsAll(Candidates(s.rows, exclude + LockedRows(s), s.now), limit, chosen);
    assert Due(s.rows[m].monitor.nextCheckAt, m) in Elements(chosen);
  }

  /** A full claim leaves such a monitor only for monitors that were due before it, or at once with a smaller id. */
  lemma FullClaimTakesTheOldest(c: Config, run: seq<State>, k: nat, x: Id, limit: nat, exclude: set<Id>, chosen: seq<Due>, m: Id)
    requires Run(c, run) && k < |run| && Enabled(c, run[k], ClaimSelect(x, limit, exclude, chosen))
    requires m in run[k].rows && m !in exclude && forall y :: y in run[k].txns ==> m !in Held(run[k].txns[y])
    requires run[k].rows[m].monitor.status != Paused && m in run[k].past && WaitIsOver(run[k].past[m], run[k].now)
    requires run[k].rows[m].leaseUntil.None? || run[k].rows[m].leaseUntil.value <= run[k].now
    ensures |chosen| <= limit
    ensures var at := run[k].rows[m].monitor.nextCheckAt;
      Due(at, m) in chosen || (|chosen| == limit && forall due :: due in chosen ==> due.at < at || (due.at == at && due.id < m))
  {
    var s := run[k];
    if |chosen| < limit {
      ShortClaimTakesAll(c, run, k, x, limit, exclude, chosen, m);
    } else {
      RowWaits(c, run, k, m);
      hide WaitIsOver, Run;
      assert Due(s.rows[m].monitor.nextCheckAt, m) in Candidates(s.rows, exclude + LockedRows(s), s.now);
    }
  }

  // ----- what the claim writes and starts

  lemma StampedFor(s: State, x: Id, m: Id)
    requires Inv(s) && x in s.txns && s.txns[x].Claiming? && s.txns[x].stamp.Some? && m in s.txns[x].rows
    ensures var st := s.txns[x].stamp.value;
      m in s.rows && m in st.tokens && st.tokens[m] in st.rows && st.rows[st.tokens[m]] == m
  {
    assert TxnOk(s, s.txns[x]) && Held(s.txns[x]) <= s.rows.Keys;
    assert m in s.rows.Keys;
  }

  lemma CommitIs(c: Config, s: State, x: Id, returned: bool)
    requires Enabled(c, s, ClaimCommit(x, returned))
    ensures x in s.txns && s.txns[x].Claiming? && s.txns[x].stamp.Some?
    ensures Apply(c, s, ClaimCommit(x, returned)) == AfterClaimCommit(c, s, x, returned)
  {
    hide AfterClaimCommit;
  }

  /** A committed claim leases each row until its stamp's clock plus the monitor's timeout and the grace. */
  lemma ClaimLeases(c: Config, s: State, x: Id, returned: bool, m: Id)
    requires Inv(s) && x in s.txns && s.txns[x].Claiming? && s.txns[x].stamp.Some? && m in s.txns[x].rows
    ensures var n := AfterClaimCommit(c, s, x, returned); var stamp := s.txns[x].stamp.value;
      && m in s.rows && m in n.rows && m in stamp.tokens && n.rows[m].monitor == s.rows[m].monitor
      && n.rows[m].leaseToken == Some(stamp.tokens[m])
      && n.rows[m].leaseUntil == Some(stamp.at + s.rows[m].monitor.timeoutSeconds as Time + c.leaseGrace)
  {
    StampedFor(s, x, m);
    hide Inv, NewProbes, NewLogs;
  }

  /** And if it returns, each probe starts at once with the whole timeout of its monitor before it. */
  lemma ClaimProbes(c: Config, s: State, x: Id, m: Id)
    requires Inv(s) && x in s.txns && s.txns[x].Claiming? && s.txns[x].stamp.Some? && m in s.txns[x].rows
    ensures m in s.rows && m in s.txns[x].stamp.value.tokens
    ensures var n := AfterClaimCommit(c, s, x, true); var t := s.txns[x].stamp.value.tokens[m];
      && t in n.probes && n.probes[t].monitor == s.rows[m].monitor
      && n.probes[t].state == Running(s.now + s.rows[m].monitor.timeoutSeconds as Time)
      && t in n.probeLog && n.probeLog[t].start == s.now && n.probeLog[t].ended.None?
      && n.probeLog[t].deadline == s.now + s.rows[m].monitor.timeoutSeconds as Time
  {
    hide *;
    var st := s.txns[x].stamp.value;
    StampedFor(s, x, m);
    StampKeepsMonitor(c, s.rows, st, m);
    ProbeOf(c, Stamp(c, s.rows, st), st, s.now, st.tokens[m]);
    CommitStarts(c, s, x);
  }

  lemma CommitStarts(c: Config, s: State, x: Id)
    requires x in s.txns && s.txns[x].Claiming? && s.txns[x].stamp.Some? && s.txns[x].stamp.value.rows != map[]
    ensures var n := AfterClaimCommit(c, s, x, true); var st := s.txns[x].stamp.value;
      var probes := NewProbes(c, Stamp(c, s.rows, st), st, s.now);
      n.probes == s.probes + probes && n.probeLog == s.probeLog + NewLogs(probes, s.now)
  {
    hide Stamp, ExpiryOf, NewProbes, NewLogs;
  }

  lemma ProbeOf(c: Config, rows: map<Id, Row>, st: Stamping, now: Time, t: Id)
    requires t in st.rows && st.rows[t] in rows
    ensures var probes := NewProbes(c, rows, st, now); var monitor := rows[st.rows[t]].monitor;
      && t in probes && probes[t] == Probe(monitor, ExpiryOf(c, st, monitor), Running(now + monitor.timeoutSeconds as Time))
      && t in NewLogs(probes, now)
      && NewLogs(probes, now)[t] == ProbeLog(monitor.id, now, now + monitor.timeoutSeconds as Time, ExpiryOf(c, st, monitor), None)
  {
    hide ExpiryOf;
  }

  lemma StampKeepsMonitor(c: Config, rows: map<Id, Row>, st: Stamping, m: Id)
    requires m in rows
    ensures m in Stamp(c, rows, st) && Stamp(c, rows, st)[m].monitor == rows[m].monitor
  {
  }
}
