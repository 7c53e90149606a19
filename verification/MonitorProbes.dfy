/**
  What every step of the monitor protocol keeps about probes and recorded checks: probes of
  one monitor never overlap, and a claim token records at most one check, verified before
  its lease ran out.
 */
module MonitorProbes {
  import opened Prelude
  import opened MonitorProtocol
  import opened MonitorLeases

  /** When the probe ended, or the instant at which its timeout will stop it. */
  function EndOf(log: ProbeLog): Time {
    if log.ended.Some? then log.ended.value else log.deadline
  }

  predicate Apart(a: ProbeLog, b: ProbeLog) {
    EndOf(a) <= b.start || EndOf(b) <= a.start
  }

  ghost predicate LogOk(s: State, t: Id, log: ProbeLog) {
    && t in s.tokens && log.start <= s.now && log.start <= log.deadline <= log.expiry
    && (log.ended.Some? ==> log.start <= log.ended.value <= log.deadline && log.ended.value <= s.now)
    && (log.ended.None? ==> t in s.probes && s.probes[t].state == Running(log.deadline))
  }

  ghost predicate Logs(s: State) {
    && (forall t :: t in s.probeLog ==> LogOk(s, t, s.probeLog[t]))
    && (forall t :: t in s.probes ==>
          && t in s.probeLog && s.probeLog[t].monitorId == s.probes[t].monitor.id
          && s.probeLog[t].expiry == s.probes[t].expiry
          && (s.probes[t].state.Running? <==> s.probeLog[t].ended.None?))
  }

  ghost predicate NoOverlap(log: map<Id, ProbeLog>) {
    forall t, u :: t in log && u in log && t != u && log[t].monitorId == log[u].monitorId ==> Apart(log[t], log[u])
  }

  /** A lease that a probe was started under is on its monitor's row, with that expiry. */
  ghost predicate Issued(rows: map<Id, Row>, log: map<Id, ProbeLog>) {
    forall m :: m in rows && rows[m].leaseToken.Some? && rows[m].leaseToken.value in log ==>
      var entry := log[rows[m].leaseToken.value];
      entry.monitorId == m && rows[m].leaseUntil == Some(entry.expiry)
  }

  ghost predicate Provenance(s: State) {
    forall x :: x in s.txns ==>
      && Minted(s.txns[x]) !! s.probeLog.Keys
      && (forall t :: t in RecordedToken(s.txns[x]) ==> t in s.probeLog && s.probeLog[t].monitorId == s.txns[x].monitorId)
  }

  ghost predicate CheckOk(now: Time, log: map<Id, ProbeLog>, check: CheckLog) {
    && check.verifiedAt <= check.at <= now
    && (check.token.Some? ==>
          && check.token.value in log && log[check.token.value].monitorId == check.monitorId
          && check.verifiedAt < log[check.token.value].expiry)
  }

  ghost predicate Checks(s: State) {
    && (forall i :: 0 <= i < |s.checks| ==> CheckOk(s.now, s.probeLog, s.checks[i]))
    && (forall i, j :: 0 <= i < j < |s.checks| && s.checks[i].token.Some? ==> s.checks[i].token != s.checks[j].token)
  }

  /** The token of a recorded check is on no row any more. */
  ghost predicate Spent(rows: map<Id, Row>, checks: seq<CheckLog>) {
    forall m, i :: m in rows && 0 <= i < |checks| && checks[i].token.Some? ==> rows[m].leaseToken != checks[i].token
  }

  ghost predicate ProbeInv(s: State) {
    && Logs(s) && NoOverlap(s.probeLog) && Issued(s.rows, s.probeLog) && Provenance(s)
    && Checks(s) && Spent(s.rows, s.checks)
  }

  // ----- what steps leave alone

  predicate LeasesKept(a: map<Id, Row>, b: map<Id, Row>) {
    forall m :: m in b ==> Freed(b[m]) || (m in a && SameLease(a[m], b[m]))
  }

  ghost predicate TxnsKept(a: map<Id, Txn>, b: map<Id, Txn>) {
    forall y :: y in b ==>
      || (Minted(b[y]) == {} && RecordedToken(b[y]) == {})
      || (y in a && Minted(b[y]) == Minted(a[y]) && RecordedToken(b[y]) == RecordedToken(a[y])
          && (b[y].Checking? ==> a[y].Checking? && b[y].monitorId == a[y].monitorId))
  }

  ghost predicate LogKept(a: map<Id, ProbeLog>, b: map<Id, ProbeLog>, now: Time) {
    && a.Keys == b.Keys
    && forall t :: t in a ==> b[t] == a[t] || (a[t].ended.None? && b[t] == a[t].(ended := Some(now)))
  }

  predicate TouchesProbes(l: Label) {
    l.ClaimCommit? || l.EndProbe? || l.EndTasks? || l.Crash?
  }

  /** Steps that write monitor rows. */
  predicate WritesRows(l: Label) {
    l.Create? || l.Delete? || l.ClaimCommit? || l.CheckCommit? || l.EditCommit? || l.ReleaseCommit?
  }

  lemma RowsFrame(c: Config, s: State, l: Label)
    requires Enabled(c, s, l) && !WritesRows(l)
    ensures Apply(c, s, l).rows == s.rows
  {
  }

  lemma CheckCommitKeepsLeases(s: State, x: Id)
    requires x in s.txns && s.txns[x].Checking? && s.txns[x].effect.Some?
    ensures LeasesKept(s.rows, AfterCheckCommit(s, x).rows)
  {
  }

  lemma EditCommitKeepsLeases(s: State, x: Id)
    requires x in s.txns && s.txns[x].Editing?
    ensures LeasesKept(s.rows, AfterEditCommit(s, x).rows)
  {
  }

  lemma OtherWritesKeepLeases(c: Config, s: State, l: Label)
    requires Enabled(c, s, l) && (l.Create? || l.Delete? || l.ReleaseCommit?)
    ensures LeasesKept(s.rows, Apply(c, s, l).rows)
  {
  }

  lemma SameRowsKeepLeases(rows: map<Id, Row>)
    ensures LeasesKept(rows, rows)
  {
  }

  lemma LeasesFrame(c: Config, s: State, l: Label)
    requires Enabled(c, s, l) && !l.ClaimCommit?
    ensures LeasesKept(s.rows, Apply(c, s, l).rows)
  {
    hide LeasesKept;
    if l.CheckCommit? { CheckCommitKeepsLeases(s, l.x); }
    else if l.EditCommit? { EditCommitKeepsLeases(s, l.x); }
    else if WritesRows(l) { OtherWritesKeepLeases(c, s, l); }
    else { SameRowsKeepLeases(s.rows); RowsFrame(c, s, l); }
  }

  lemma TxnsFrame(c: Config, s: State, l: Label)
    requires Enabled(c, s, l) && !l.ClaimStamp? && !l.LeasedCheckLock?
    ensures TxnsKept(s.txns, Apply(c, s, l).txns)
  {
    if OfCheck(l) { CheckTxnsFrame(c, s, l); } else { OtherTxnsFrame(c, s, l); }
  }

  lemma TxnChanged(txns: map<Id, Txn>, x: Id, txn: Txn)
    requires Minted(txn) == {}
    requires RecordedToken(txn) == {} ||
      (x in txns && txns[x].Checking? && txn.Checking? && txn.token == txns[x].token && txn.monitorId == txns[x].monitorId)
    ensures TxnsKept(txns, txns[x := txn])
  {
  }

  lemma TxnEnded(txns: map<Id, Txn>, x: Id)
    ensures TxnsKept(txns, txns - {x})
  {
  }

  lemma CheckTxnsFrame(c: Config, s: State, l: Label)
    requires Enabled(c, s, l) && OfCheck(l) && !l.LeasedCheckLock?
    ensures TxnsKept(s.txns, Apply(c, s, l).txns)
  {
    hide TxnsKept, Locked, HoldsLease, AfterCheckVerify, AfterCheckRun, AfterCheckCommit, AfterEditCommit;
    match l
    case CheckLock(x, m, success) =>
      TxnChanged(s.txns, x, Checking(m, s.rows[m].monitor, None, success, s.now, false, None, None));
    case CheckVerify(x) => VerifyTxnsFrame(s, x);
    case CheckCreate(x) => TxnChanged(s.txns, x, s.txns[x].(createdAt := Some(s.now)));
    case CheckRun(x, at, open, incidentId, eventId) => RunTxnsFrame(s, l);
    case CheckCommit(x) => TxnEnded(s.txns, x);
    case EditLock(x, m, edit) => TxnChanged(s.txns, x, Editing(m, s.rows[m].monitor, edit));
    case EditCommit(x) => TxnEnded(s.txns, x);
  }

  lemma VerifyTxnsFrame(s: State, x: Id)
    requires x in s.txns && s.txns[x].Checking? && s.txns[x].token.Some?
    ensures TxnsKept(s.txns, AfterCheckVerify(s, x).txns)
  {
    hide TxnsKept, HoldsLease;
    TxnChanged(s.txns, x, s.txns[x].(since := s.now, verified := true));
    TxnEnded(s.txns, x);
  }

  lemma RunTxnsFrame(s: State, l: Label)
    requires l.CheckRun? && l.x in s.txns && s.txns[l.x].Checking?
    ensures TxnsKept(s.txns, AfterCheckRun(s, l.x, l.at, l.open, l.incidentId, l.eventId).txns)
  {
    hide TxnsKept, EffectOf;
    TxnChanged(s.txns, l.x, s.txns[l.x].(effect := Some(EffectOf(s, s.txns[l.x], l.at, l.open, l.incidentId, l.eventId))));
  }

  lemma OtherTxnsFrame(c: Config, s: State, l: Label)
    requires Enabled(c, s, l) && !OfCheck(l) && !l.ClaimStamp?
    ensures TxnsKept(s.txns, Apply(c, s, l).txns)
  {
    hide Stamp, NewProbes, NewLogs, Stopped, Released;
  }

  lemma LogFrame(c: Config, s: State, l: Label)
    requires Enabled(c, s, l) && !l.ClaimCommit?
    ensures LogKept(s.probeLog, Apply(c, s, l).probeLog, s.now)
    ensures !TouchesProbes(l) ==> Apply(c, s, l).probeLog == s.probeLog && Apply(c, s, l).probes == s.probes
  {
    hide Released, AfterCheckVerify, AfterCheckCreate, AfterCheckRun, AfterCheckCommit, AfterEditCommit, Locked, HoldsLease;
    if TouchesProbes(l) { TouchedLogs(c, s, l); }
  }

  lemma TouchedLogs(c: Config, s: State, l: Label)
    requires Enabled(c, s, l) && (l.EndProbe? || l.EndTasks? || l.Crash?)
    ensures LogKept(s.probeLog, Apply(c, s, l).probeLog, s.now)
  {
  }

  lemma ClockFrame(c: Config, s: State, l: Label)
    requires Enabled(c, s, l)
    ensures s.now <= Apply(c, s, l).now && s.tokens <= Apply(c, s, l).tokens
    ensures !l.CheckCommit? ==> Apply(c, s, l).checks == s.checks
  {
    hide Enabled, Apply;
    TokensFrame(c, s, l);
    if !l.CheckCommit? { ChecksFrame(c, s, l); }
  }

  lemma ChecksFrame(c: Config, s: State, l: Label)
    requires Enabled(c, s, l) && !l.CheckCommit?
    ensures Apply(c, s, l).checks == s.checks
  {
    hide Released, AfterCheckVerify, AfterCheckCreate, AfterCheckRun, AfterCheckCommit, AfterEditCommit, Locked, HoldsLease, Drop;
    hide Candidates, IsDue, LockedRows, Inverse, Stamp, NewProbes, NewLogs, Stopped;
  }

  lemma TokensFrame(c: Config, s: State, l: Label)
    requires Enabled(c, s, l)
    ensures s.now <= Apply(c, s, l).now && s.tokens <= Apply(c, s, l).tokens
  {
    hide Released, AfterCheckVerify, AfterCheckCreate, AfterCheckRun, AfterCheckCommit, AfterEditCommit, Locked, HoldsLease, Drop;
    hide Candidates, IsDue, LockedRows, Inverse, Stamp, NewProbes, NewLogs, Stopped;
  }

  // ----- probes

  predicate StillRuns(probes: map<Id, Probe>, t: Id) {
    t in probes && probes[t].state.Running?
  }

  /** The log follows the probes that stop. */
  lemma StoppingKeeps(s: State, n: State, gone: set<Id>, probes: map<Id, Probe>)
    requires Probes(s) && Logs(s) && NoOverlap(s.probeLog)
    requires n == s.(probes := probes, probeLog := Stopped(s.probeLog, gone, s.now), waves := n.waves)
    requires forall t :: t in probes ==> t in s.probes && (probes[t] == s.probes[t] || (exists b :: probes[t] == s.probes[t].(state := Done(b))))
    requires forall t :: StillRuns(s.probes, t) ==> (t in gone <==> !StillRuns(probes, t))
    ensures Logs(n) && NoOverlap(n.probeLog)
  {
    hide NoOverlap, LogOk, EndOf;
    forall t | t in n.probeLog
      ensures LogOk(n, t, n.probeLog[t]) && EndOf(n.probeLog[t]) <= EndOf(s.probeLog[t])
      ensures n.probeLog[t].monitorId == s.probeLog[t].monitorId && n.probeLog[t].start == s.probeLog[t].start
    {
      EntryStops(s, n, gone, probes, t);
    }
    StoppedEarlier(s.probeLog, n.probeLog);
  }

  lemma EntryStops(s: State, n: State, gone: set<Id>, probes: map<Id, Probe>, t: Id)
    requires Probes(s) && Logs(s) && t in s.probeLog
    requires n == s.(probes := probes, probeLog := Stopped(s.probeLog, gone, s.now), waves := n.waves)
    requires t in probes ==> t in s.probes && (probes[t] == s.probes[t] || (exists b :: probes[t] == s.probes[t].(state := Done(b))))
    requires StillRuns(s.probes, t) ==> (t in gone <==> !StillRuns(probes, t))
    ensures LogOk(n, t, n.probeLog[t]) && EndOf(n.probeLog[t]) <= EndOf(s.probeLog[t])
    ensures n.probeLog[t].monitorId == s.probeLog[t].monitorId && n.probeLog[t].start == s.probeLog[t].start
  {
    assert LogOk(s, t, s.probeLog[t]);
    if s.probeLog[t].ended.None? {
      assert ProbeOk(s.now, s.tokens, t, s.probes[t]) && StillRuns(s.probes, t);
    }
  }

  /** Probes that end no later than they would have stay apart. */
  lemma StoppedEarlier(a: map<Id, ProbeLog>, b: map<Id, ProbeLog>)
    requires NoOverlap(a) && a.Keys == b.Keys
    requires forall t :: t in b ==> b[t].monitorId == a[t].monitorId && b[t].start == a[t].start && EndOf(b[t]) <= EndOf(a[t])
    ensures NoOverlap(b)
  {
    assert forall t :: t in b <==> t in a.Keys;
    forall t, u | t in b && u in b && t != u && b[t].monitorId == b[u].monitorId ensures Apart(b[t], b[u]) {
      assert Apart(a[t], a[u]);
    }
  }

  lemma ClaimedRowsAreNotLive(s: State, x: Id, t: Id)
    requires Inv(s) && x in s.txns && s.txns[x].Claiming? && t in s.probes && s.probes[t].monitor.id in Held(s.txns[x])
    ensures !Live(s.now, s.probes[t])
  {
    assert Held(s.txns[x]) <= s.rows.Keys;
  }

  /** New probes start when every earlier probe of their monitors is over. */
  lemma EarlierProbesAreOver(c: Config, s: State, x: Id, m: Id, t: Id)
    requires Inv(s) && ProbeInv(s) && x in s.txns && s.txns[x].Claiming? && m in Held(s.txns[x])
    requires t in s.probeLog && s.probeLog[t].monitorId == m
    ensures EndOf(s.probeLog[t]) <= s.now
  {
    assert LogOk(s, t, s.probeLog[t]);
    assert Held(s.txns[x]) <= s.rows.Keys;
    if s.probeLog[t].ended.None? {
      assert ProbeOk(s.now, s.tokens, t, s.probes[t]);
      ClaimedRowsAreNotLive(s, x, t);
    }
  }

  ghost predicate Begins(c: Config, s: State, x: Id, t: Id, log: ProbeLog) {
    && x in s.txns && t !in s.probeLog && t in s.tokens && log.start == s.now && log.ended.None?
    && s.now <= log.deadline <= log.expiry && log.monitorId in Held(s.txns[x])
  }

  lemma NewProbesBegin(c: Config, s: State, x: Id)
    requires Inv(s) && ProbeInv(s) && Enabled(c, s, ClaimCommit(x, true))
    ensures var st := s.txns[x].stamp.value;
      var probes := NewProbes(c, Claimed(c, s, x).rows, st, s.now); var logs := NewLogs(probes, s.now);
      && probes.Keys == logs.Keys
      && (forall t :: t in logs ==> Begins(c, s, x, t, logs[t]) && logs[t].monitorId == st.rows[t] && t in st.rows)
      && (forall t, u :: t in logs && u in logs && logs[t].monitorId == logs[u].monitorId ==> t == u)
  {
    var st := s.txns[x].stamp.value;
    var probes := NewProbes(c, Claimed(c, s, x).rows, st, s.now);
    assert TxnOk(s, s.txns[x]) && Held(s.txns[x]) == st.tokens.Keys;
    forall t | t in probes ensures Begins(c, s, x, t, NewLogs(probes, s.now)[t]) && probes[t].monitor.id == st.rows[t] {
      ClaimedProbesJoin(c, s, x, t);
      assert t in Minted(s.txns[x]);
    }
  }

  lemma ClaimKeepsLogs(c: Config, s: State, x: Id, logs: map<Id, ProbeLog>)
    requires Inv(s) && ProbeInv(s) && x in s.txns && s.txns[x].Claiming?
    requires forall t :: t in logs ==> Begins(c, s, x, t, logs[t])
    requires forall t, u :: t in logs && u in logs && logs[t].monitorId == logs[u].monitorId ==> t == u
    ensures NoOverlap(s.probeLog + logs)
  {
    var all := s.probeLog + logs;
    forall t, u | t in all && u in all && t != u && all[t].monitorId == all[u].monitorId ensures Apart(all[t], all[u]) {
      if t in logs && u !in logs { EarlierProbesAreOver(c, s, x, logs[t].monitorId, u); }
      if u in logs && t !in logs { EarlierProbesAreOver(c, s, x, logs[u].monitorId, t); }
    }
  }

  lemma LogsStay(s: State, n: State)
    requires Logs(s) && s.tokens == n.tokens && s.now == n.now && s.probeLog == n.probeLog && s.probes == n.probes
    ensures Logs(n)
  {
    forall t | t in n.probeLog ensures LogOk(n, t, n.probeLog[t]) { assert LogOk(s, t, s.probeLog[t]); }
  }

  lemma LogsJoin(c: Config, s: State, n: State, x: Id, probes: map<Id, Probe>, logs: map<Id, ProbeLog>)
    requires Logs(s) && s.tokens == n.tokens && s.now == n.now && logs == NewLogs(probes, s.now)
    requires n.probes == s.probes + probes && n.probeLog == s.probeLog + logs && probes.Keys == logs.Keys
    requires forall t :: t in logs ==> Begins(c, s, x, t, logs[t])
    requires forall t :: t in probes ==> probes[t].state.Running?
    ensures Logs(n)
  {
    forall t | t in n.probeLog ensures LogOk(n, t, n.probeLog[t]) {
      if t in logs { assert Begins(c, s, x, t, logs[t]); } else { assert LogOk(s, t, s.probeLog[t]); }
    }
    assert forall t :: t in probes.Keys ==> t in logs.Keys;
  }

  lemma ClaimCommitKeepsLogs(c: Config, s: State, x: Id, returned: bool)
    requires Inv(s) && ProbeInv(s) && Enabled(c, s, ClaimCommit(x, returned))
    ensures var n := AfterClaimCommit(c, s, x, returned); Logs(n) && NoOverlap(n.probeLog)
  {
    hide Inv, Logs, NoOverlap;
    var n := AfterClaimCommit(c, s, x, returned);
    var st := s.txns[x].stamp.value;
    if returned && st.rows != map[] {
      var probes := NewProbes(c, Claimed(c, s, x).rows, st, s.now);
      var logs := NewLogs(probes, s.now);
      NewProbesBegin(c, s, x);
      ClaimKeepsLogs(c, s, x, logs);
      LogsJoin(c, s, n, x, probes, logs);
    } else {
      LogsStay(s, n);
    }
  }

  lemma StepKeepsLogs(c: Config, s: State, l: Label)
    requires Inv(s) && ProbeInv(s) && Enabled(c, s, l)
    ensures Logs(Apply(c, s, l)) && NoOverlap(Apply(c, s, l).probeLog)
  {
    var n := Apply(c, s, l);
    if l.ClaimCommit? {
      ClaimCommitKeepsLogs(c, s, l.x, l.returned);
    } else if l.EndProbe? {
      assert n.probes[l.t] == s.probes[l.t].(state := Done(l.success));
      StoppingKeeps(s, n, {l.t}, n.probes);
    } else if l.EndTasks? {
      StoppingKeeps(s, n, l.gone, n.probes);
    } else if l.Crash? {
      StoppingKeeps(s, n, s.waves[l.w], n.probes);
    } else {
      LogsOutsideProbes(c, s, l);
    }
  }

  lemma LogsOutsideProbes(c: Config, s: State, l: Label)
    requires Logs(s) && NoOverlap(s.probeLog) && Enabled(c, s, l) && !TouchesProbes(l)
    ensures Logs(Apply(c, s, l)) && NoOverlap(Apply(c, s, l).probeLog)
  {
    LogFrame(c, s, l);
    ClockFrame(c, s, l);
    hide Enabled, Apply;
    forall t | t in s.probeLog ensures LogOk(Apply(c, s, l), t, s.probeLog[t]) { assert LogOk(s, t, s.probeLog[t]); }
  }

  // ----- leases and tokens

  lemma StepKeepsIssued(c: Config, s: State, l: Label)
    requires Inv(s) && ProbeInv(s) && Enabled(c, s, l)
    ensures Issued(Apply(c, s, l).rows, Apply(c, s, l).probeLog)
  {
    if l.ClaimCommit? {
      ClaimCommitKeepsIssued(c, s, l.x, l.returned);
    } else {
      LeasesFrame(c, s, l);
      LogFrame(c, s, l);
      hide Enabled, Apply, Inv, Logs, NoOverlap, Issued, Provenance, Spent, LeasesKept, LogKept;
      LeasesKeptStayIssued(s.rows, Apply(c, s, l).rows, s.probeLog, Apply(c, s, l).probeLog, s.now);
    }
  }

  lemma ClaimCommitKeepsIssued(c: Config, s: State, x: Id, returned: bool)
    requires Inv(s) && ProbeInv(s) && Enabled(c, s, ClaimCommit(x, returned))
    ensures var n := AfterClaimCommit(c, s, x, returned); Issued(n.rows, n.probeLog)
  {
    var n := AfterClaimCommit(c, s, x, returned);
    hide AfterClaimCommit, Inv, ProbeInv, Enabled;
    forall m | m in n.rows && n.rows[m].leaseToken.Some? && n.rows[m].leaseToken.value in n.probeLog
      ensures var entry := n.probeLog[n.rows[m].leaseToken.value];
        entry.monitorId == m && n.rows[m].leaseUntil == Some(entry.expiry)
    {
      ClaimIssues(c, s, x, returned, m);
    }
  }

  /** A row that the claim stamps has its own entry, and no other row has a stamped token. */
  lemma ClaimIssues(c: Config, s: State, x: Id, returned: bool, m: Id)
    requires Inv(s) && ProbeInv(s) && Enabled(c, s, ClaimCommit(x, returned))
    requires var n := AfterClaimCommit(c, s, x, returned);
      m in n.rows && n.rows[m].leaseToken.Some? && n.rows[m].leaseToken.value in n.probeLog
    ensures var n := AfterClaimCommit(c, s, x, returned); var entry := n.probeLog[n.rows[m].leaseToken.value];
      entry.monitorId == m && n.rows[m].leaseUntil == Some(entry.expiry)
  {
    var st := s.txns[x].stamp.value;
    assert TxnOk(s, s.txns[x]) && Minted(s.txns[x]) == st.rows.Keys && RowOk(s.tokens, m, s.rows[m]);
    hide Spent, Checks, Logs, NoOverlap, Provenance, Locks, Mints, Ownership, Txns;
    if m in st.tokens {
      assert st.tokens[m] in st.rows && st.rows[st.tokens[m]] == m;
    } else {
      assert s.rows[m].leaseToken.value !in st.rows;
    }
  }

  lemma ClaimCommitKeepsSpent(c: Config, s: State, x: Id, returned: bool)
    requires Inv(s) && ProbeInv(s) && Enabled(c, s, ClaimCommit(x, returned))
    ensures Spent(AfterClaimCommit(c, s, x, returned).rows, s.checks)
  {
    var n := AfterClaimCommit(c, s, x, returned);
    var st := s.txns[x].stamp.value;
    assert TxnOk(s, s.txns[x]) && Minted(s.txns[x]) == st.rows.Keys;
    assert forall i :: 0 <= i < |s.checks| ==> CheckOk(s.now, s.probeLog, s.checks[i]);
    hide NewProbes, NewLogs, Logs, NoOverlap, Issued;
    forall m | m in n.rows && m in st.tokens ensures st.tokens[m] in st.rows && st.tokens[m] !in s.probeLog {}
  }

  lemma StepKeepsProvenance(c: Config, s: State, l: Label)
    requires Inv(s) && ProbeInv(s) && Enabled(c, s, l)
    ensures Provenance(Apply(c, s, l))
  {
    var n := Apply(c, s, l);
    if l.ClaimCommit? {
      ClaimCommitKeepsProvenance(c, s, l.x, l.returned);
    } else if l.ClaimStamp? {
      assert forall t :: t in s.probeLog ==> LogOk(s, t, s.probeLog[t]);
    } else if l.LeasedCheckLock? {
    } else {
      TxnsFrame(c, s, l);
      LogFrame(c, s, l);
    }
  }

  lemma ClaimCommitKeepsProvenance(c: Config, s: State, x: Id, returned: bool)
    requires Inv(s) && ProbeInv(s) && Enabled(c, s, ClaimCommit(x, returned))
    ensures Provenance(AfterClaimCommit(c, s, x, returned))
  {
    var n := AfterClaimCommit(c, s, x, returned);
    assert n.txns == s.txns - {x};
    assert Provenance(s) && Mints(s);
    ClaimAddsEntries(c, s, x, returned);
    ClaimKeepsEntries(c, s, x, returned);
    hide AfterClaimCommit, Inv, ProbeInv, Enabled;
    forall y | y in n.txns
      ensures Minted(n.txns[y]) !! n.probeLog.Keys
      ensures forall t :: t in RecordedToken(n.txns[y]) ==> t in n.probeLog && n.probeLog[t].monitorId == n.txns[y].monitorId
    {
      assert Minted(s.txns[x]) !! Minted(s.txns[y]) && Minted(s.txns[x]) !! RecordedToken(s.txns[y]);
    }
  }

  lemma ClaimAddsEntries(c: Config, s: State, x: Id, returned: bool)
    requires x in s.txns && s.txns[x].Claiming? && s.txns[x].stamp.Some?
    ensures forall t :: t in AfterClaimCommit(c, s, x, returned).probeLog.Keys ==> t in s.probeLog || t in Minted(s.txns[x])
  {
    hide Stamp;
  }

  // ----- checks

  lemma CheckCommitKeepsChecks(c: Config, s: State, x: Id)
    requires Inv(s) && ProbeInv(s) && Enabled(c, s, CheckCommit(x))
    ensures var n := AfterCheckCommit(s, x); Checks(n) && Spent(n.rows, n.checks)
  {
    var txn := s.txns[x];
    var m := txn.monitorId;
    assert TxnOk(s, txn);
    hide Extended, NoOverlap;
    if m in s.rows && m in s.past {
      if txn.token.Some? {
        assert txn.token.value in RecordedToken(txn);
        assert HoldsLease(s.rows[m], txn.token.value, txn.since);
        assert forall k :: k in s.rows && s.rows[k].leaseToken == txn.token ==> k == m;
      }
    }
  }

  lemma StepKeepsChecks(c: Config, s: State, l: Label)
    requires Inv(s) && ProbeInv(s) && Enabled(c, s, l)
    ensures Checks(Apply(c, s, l)) && Spent(Apply(c, s, l).rows, Apply(c, s, l).checks)
  {
    if l.CheckCommit? {
      CheckCommitKeepsChecks(c, s, l.x);
    } else if l.ClaimCommit? {
      ClaimCommitKeepsChecks(c, s, l.x, l.returned);
    } else {
      ChecksOutside(c, s, l);
    }
  }

  /** Recorded checks stay right while their tokens' entries keep monitor and expiry. */
  lemma ChecksStay(s: State, n: State)
    requires Checks(s) && n.checks == s.checks && s.now <= n.now
    requires forall t :: t in s.probeLog ==>
      t in n.probeLog && n.probeLog[t].monitorId == s.probeLog[t].monitorId && n.probeLog[t].expiry == s.probeLog[t].expiry
    ensures Checks(n)
  {
    forall i | 0 <= i < |n.checks| ensures CheckOk(n.now, n.probeLog, n.checks[i]) {
      assert CheckOk(s.now, s.probeLog, s.checks[i]);
      if s.checks[i].token.Some? {
        var t := s.checks[i].token.value;
        assert t in s.probeLog && n.probeLog[t].expiry == s.probeLog[t].expiry;
      }
    }
  }

  lemma ClaimCommitKeepsChecks(c: Config, s: State, x: Id, returned: bool)
    requires Inv(s) && ProbeInv(s) && Enabled(c, s, ClaimCommit(x, returned))
    ensures var n := AfterClaimCommit(c, s, x, returned); Checks(n) && Spent(n.rows, n.checks)
  {
    ClaimCommitKeepsSpent(c, s, x, returned);
    ClaimKeepsEntries(c, s, x, returned);
    assert AfterClaimCommit(c, s, x, returned).checks == s.checks;
    hide Enabled, Inv, Logs, NoOverlap, Issued, Provenance, Spent, Checks, AfterClaimCommit;
    ChecksStay(s, AfterClaimCommit(c, s, x, returned));
  }

  lemma ChecksOutside(c: Config, s: State, l: Label)
    requires Inv(s) && ProbeInv(s) && Enabled(c, s, l) && !l.CheckCommit? && !l.ClaimCommit?
    ensures Checks(Apply(c, s, l)) && Spent(Apply(c, s, l).rows, Apply(c, s, l).checks)
  {
    hide Enabled, Apply, Inv, Logs, NoOverlap, Issued, Provenance, Spent, Checks, LeasesKept;
    var n := Apply(c, s, l);
    ClockFrame(c, s, l);
    LeasesFrame(c, s, l);
    LogFrame(c, s, l);
    LeasesKeptStaySpent(s.rows, n.rows, s.checks);
    ChecksStay(s, n);
    assert n.checks == s.checks;
  }

  lemma LeasesKeptStaySpent(a: map<Id, Row>, b: map<Id, Row>, checks: seq<CheckLog>)
    requires Spent(a, checks) && LeasesKept(a, b)
    ensures Spent(b, checks)
  {
  }

  lemma LeasesKeptStayIssued(a: map<Id, Row>, b: map<Id, Row>, before: map<Id, ProbeLog>, log: map<Id, ProbeLog>, now: Time)
    requires Issued(a, before) && LeasesKept(a, b) && LogKept(before, log, now)
    ensures Issued(b, log)
  {
    forall m | m in b && b[m].leaseToken.Some? && b[m].leaseToken.value in log
      ensures log[b[m].leaseToken.value].monitorId == m && b[m].leaseUntil == Some(log[b[m].leaseToken.value].expiry)
    {
      var t := b[m].leaseToken.value;
      assert t in before.Keys && a[m].leaseToken == Some(t);
      assert log[t].monitorId == before[t].monitorId && log[t].expiry == before[t].expiry;
    }
  }

  lemma ClaimKeepsEntries(c: Config, s: State, x: Id, returned: bool)
    requires Inv(s) && ProbeInv(s) && Enabled(c, s, ClaimCommit(x, returned))
    ensures forall t :: t in s.probeLog ==>
      t in AfterClaimCommit(c, s, x, returned).probeLog && AfterClaimCommit(c, s, x, returned).probeLog[t] == s.probeLog[t]
  {
    var st := s.txns[x].stamp.value;
    assert Minted(s.txns[x]) == st.rows.Keys;
  }

  lemma StepKeepsProbes(c: Config, s: State, l: Label)
    requires Inv(s) && ProbeInv(s) && Enabled(c, s, l)
    ensures ProbeInv(Apply(c, s, l))
  {
    hide Inv, Enabled, Apply;
    StepKeepsLogs(c, s, l);
    StepKeepsIssued(c, s, l);
    StepKeepsProvenance(c, s, l);
    StepKeepsChecks(c, s, l);
  }
}
