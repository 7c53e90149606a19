/**
  What each step of a check does, column by column: when it goes on and when it ends there, what
  a probe's result becomes, and what a committed check, a release and a deletion leave in the tables.
 */
module MonitorSteps {
  import opened Prelude
  import opened MonitorState
  import opened CheckRecording
  import opened MonitorProtocol
  import opened MonitorLeases
  import opened MonitorIncidents

  /** A leased check goes on exactly if its monitor's row is there and carries its token, unexpired at this instant. */
  lemma LeaseVerifiedIff(c: Config, s: State, x: Id)
    requires Enabled(c, s, CheckVerify(x))
    ensures var n := Apply(c, s, CheckVerify(x)); var txn := s.txns[x]; var m := txn.monitorId;
      && (x in n.txns <==>
            && m in s.rows && s.rows[m].leaseToken == txn.token && s.rows[m].leaseUntil.Some? && s.now < s.rows[m].leaseUntil.value)
      && (x in n.txns ==> n.txns[x] == txn.(since := s.now, verified := true))
      && n.rows == s.rows
  {
    hide Drop, Stamp, NewProbes;
  }

  /** A probe that ends keeps what it found, and the check of its claim is of that. */
  lemma ProbeIsRecorded(c: Config, s: State, t: Id, success: bool, x: Id)
    requires Enabled(c, s, EndProbe(t, success))
    ensures var n := Apply(c, s, EndProbe(t, success));
      && t in n.probes && n.probes[t] == Probe(s.probes[t].monitor, s.probes[t].expiry, Done(success))
      && (Enabled(c, n, LeasedCheckLock(x, t)) ==>
            var txn := Apply(c, n, LeasedCheckLock(x, t)).txns[x];
            txn.Checking? && txn.success == success && txn.token == Some(t) && txn.monitorId == s.probes[t].monitor.id)
  {
    hide Stopped, Locked;
  }

  /** A window of m that has begun and not ended. */
  ghost predicate Covered(windows: map<Id, Window>, m: Id, at: Time) {
    exists w :: w in windows && windows[w].monitorId == m && windows[w].startsAt <= at && at < windows[w].endsAt
  }

  lemma CoveredIsMaintenance(windows: map<Id, Window>, m: Id, at: Time)
    ensures Covered(windows, m, at) <==> InMaintenance(windows, m, at)
  {
  }

  /** A check decides about the row it read, at its own instant, by the windows of the moment. */
  lemma EffectIs(s: State, txn: Txn, at: Time, open: Option<Incident>, incidentId: Id, eventId: Id)
    requires txn.Checking?
    ensures var effect := EffectOf(s, txn, at, open, incidentId, eventId); var maintenance := Covered(s.windows, txn.monitorId, at);
      && effect.at == at && effect.op == Checked(txn.success, maintenance, at)
      && effect.write.nextCheckAt == at + txn.read.intervalSeconds as Time
      && (maintenance ==> effect.change.Nothing? && effect.write == txn.read.(nextCheckAt := effect.write.nextCheckAt))
      && (effect.change.Opens? ==> !txn.success) && (effect.change.Resolves? ==> txn.success)
  {
    CoveredIsMaintenance(s.windows, txn.monitorId, at);
    hide InMaintenance, Covered;
  }

  /** And that is what a run of the check keeps until it commits. */
  lemma RunDecides(c: Config, s: State, x: Id, at: Time, open: Option<Incident>, incidentId: Id, eventId: Id)
    requires Enabled(c, s, CheckRun(x, at, open, incidentId, eventId))
    ensures var n := Apply(c, s, CheckRun(x, at, open, incidentId, eventId)); var txn := s.txns[x];
      && txn.Checking? && txn.createdAt == Some(at) && n.rows == s.rows && n.incidents == s.incidents && n.outbox == s.outbox
      && x in n.txns && n.txns[x] == txn.(effect := Some(EffectOf(s, txn, at, open, incidentId, eventId)))
  {
    hide EffectOf;
  }

  /** A committed check writes its monitor, ends its own lease and no other, and is logged with its result. */
  lemma CheckIsWritten(c: Config, s: State, x: Id)
    requires Inv(s) && Faithful(s.rows, s.past) && Enabled(c, s, CheckCommit(x)) && s.txns[x].monitorId in s.rows
    ensures var n := Apply(c, s, CheckCommit(x)); var txn := s.txns[x]; var m := txn.monitorId; var row := s.rows[m];
      && x !in n.txns && m in n.rows && n.rows.Keys == s.rows.Keys
      && n.rows[m].monitor == txn.effect.value.write
      && (if txn.token.Some? && row.leaseToken == txn.token then n.rows[m].leaseToken.None? && n.rows[m].leaseUntil.None?
          else n.rows[m].leaseToken == row.leaseToken && n.rows[m].leaseUntil == row.leaseUntil)
      && (forall other :: other in s.rows && other != m ==> n.rows[other] == s.rows[other])
      && n.checks == s.checks + [CheckLog(m, txn.token, txn.success, txn.since, txn.effect.value.at)]
  {
    assert s.txns[x].monitorId in s.past;
    assert Apply(c, s, CheckCommit(x)) == AfterCheckCommit(s, x);
    hide Apply, Inv, WithChange, Emitted;
  }

  /** A committed release frees the rows that carry its tokens and leaves the others. */
  lemma ReleaseFrees(c: Config, s: State, x: Id, m: Id)
    requires Enabled(c, s, ReleaseCommit(x)) && m in s.rows
    ensures var n := Apply(c, s, ReleaseCommit(x)); var tokens := s.txns[x].tokens;
      && m in n.rows && n.rows[m].monitor == s.rows[m].monitor
      && (if m in tokens && s.rows[m].leaseToken == Some(tokens[m]) then n.rows[m].leaseToken.None? && n.rows[m].leaseUntil.None?
          else n.rows[m] == s.rows[m])
  {
  }

  /** Deleting a monitor takes its incidents and windows and no others; its events stay. */
  lemma DeletionCascades(c: Config, s: State, m: Id)
    requires Enabled(c, s, Delete(m))
    ensures var n := Apply(c, s, Delete(m));
      && n.rows == s.rows - {m} && n.outbox == s.outbox
      && (forall i :: i in s.incidents ==> (i in n.incidents <==> s.incidents[i].monitorId != m))
      && (forall i :: i in n.incidents ==> i in s.incidents && n.incidents[i] == s.incidents[i])
      && (forall w :: w in s.windows ==> (w in n.windows <==> s.windows[w].monitorId != m))
      && (forall w :: w in n.windows ==> w in s.windows && n.windows[w] == s.windows[w])
  {
  }

  /** A crash ends the probes of its wave and leaves their leases to run out. */
  lemma CrashStops(c: Config, s: State, w: Id, t: Id)
    requires Enabled(c, s, Crash(w))
    ensures var n := Apply(c, s, Crash(w));
      && n.rows == s.rows && w !in n.waves && (forall u :: u in n.probes <==> u in s.probes && u !in s.waves[w])
      && (t in s.probeLog ==>
            && t in n.probeLog
            && n.probeLog[t] == if t in s.waves[w] && s.probeLog[t].ended.None? then s.probeLog[t].(ended := Some(s.now)) else s.probeLog[t])
  {
  }

  /** A claim's leases count from the clock that is read when its rows have been chosen. */
  lemma StampReadsTheClock(c: Config, s: State, x: Id, minted: map<Id, Id>, rows: map<Id, Id>)
    requires Enabled(c, s, ClaimStamp(x, minted, rows))
    ensures Apply(c, s, ClaimStamp(x, minted, rows)).txns == s.txns[x := s.txns[x].(stamp := Some(Stamping(s.now, minted, rows)))]
  {
    hide Drop, Stamp, NewProbes, EffectOf;
  }

  /** A check gets its instant when it is created. */
  lemma CheckIsCreatedNow(c: Config, s: State, x: Id)
    requires Enabled(c, s, CheckCreate(x))
    ensures Apply(c, s, CheckCreate(x)).txns == s.txns[x := s.txns[x].(createdAt := Some(s.now))]
  {
    hide Drop, Stamp, NewProbes, EffectOf;
  }

  /** A manual check works on the whole row as it stands when it has locked it ... */
  lemma CheckReadsTheRow(c: Config, s: State, x: Id, m: Id, success: bool)
    requires Enabled(c, s, CheckLock(x, m, success))
    ensures m in s.rows
    ensures Apply(c, s, CheckLock(x, m, success)).txns == s.txns[x := Checking(m, s.rows[m].monitor, None, success, s.now, false, None, None)]
  {
    hide Drop, Stamp, NewProbes, EffectOf, Locked;
  }

  /** ... and so does an edit. */
  lemma EditReadsTheRow(c: Config, s: State, x: Id, m: Id, edit: Edit)
    requires Enabled(c, s, EditLock(x, m, edit))
    ensures m in s.rows && Apply(c, s, EditLock(x, m, edit)).txns == s.txns[x := Editing(m, s.rows[m].monitor, edit)]
  {
    hide Drop, Stamp, NewProbes, EffectOf, Locked;
  }
}
