/**
  When no row is locked, claiming due monitors and recording a check in memory are runs of
  the monitor protocol's steps, with the same rows, incidents and events.
 */
module MonitorSimulation {
  import opened Prelude
  import opened Selection
  import opened MonitorState
  import opened CheckRecording
  import opened MonitorRepository
  import opened MonitorProtocol
  import opened Waves
  import CheckService

  predicate AtRest(s: State) {
    s.txns == map[]
  }

  /** The steps of one database session: from s through the labels, each enabled in turn. */
  ghost predicate Steps(c: Config, s: State, labels: seq<Label>, n: State)
    decreases |labels|
  {
    if labels == [] then n == s
    else Enabled(c, s, labels[0]) && Steps(c, Apply(c, s, labels[0]), labels[1..], n)
  }

  lemma StepFirst(c: Config, s: State, l: Label, rest: seq<Label>, n: State)
    requires Enabled(c, s, l) && Steps(c, Apply(c, s, l), rest, n)
    ensures Steps(c, s, [l] + rest, n)
  {
    assert ([l] + rest)[1..] == rest;
  }

  lemma TwoSteps(c: Config, s: State, l: Label, s1: State, m: Label, n: State)
    requires Enabled(c, s, l) && Apply(c, s, l) == s1
    requires Enabled(c, s1, m) && Apply(c, s1, m) == n
    ensures Steps(c, s, [l, m], n)
  {
    hide Enabled, Apply;
    assert Steps(c, n, [], n);
    assert [m] + [] == [m] && [l] + [m] == [l, m];
    StepFirst(c, s1, m, [], n);
    StepFirst(c, s, l, [m], n);
  }

  lemma ThreeSteps(c: Config, s: State, l: Label, s1: State, m: Label, s2: State, k: Label, n: State)
    requires Enabled(c, s, l) && Apply(c, s, l) == s1
    requires Enabled(c, s1, m) && Apply(c, s1, m) == s2
    requires Enabled(c, s2, k) && Apply(c, s2, k) == n
    ensures Steps(c, s, [l, m, k], n)
  {
    hide Enabled, Apply;
    TwoSteps(c, s1, m, s2, k, n);
    assert [l] + [m, k] == [l, m, k];
    StepFirst(c, s, l, [m, k], n);
  }

  lemma FourSteps(c: Config, s: State, l: Label, s1: State, m: Label, s2: State, k: Label, s3: State, j: Label, n: State)
    requires Enabled(c, s, l) && Apply(c, s, l) == s1
    requires Enabled(c, s1, m) && Apply(c, s1, m) == s2
    requires Enabled(c, s2, k) && Apply(c, s2, k) == s3
    requires Enabled(c, s3, j) && Apply(c, s3, j) == n
    ensures Steps(c, s, [l, m, k, j], n)
  {
    hide Enabled, Apply;
    ThreeSteps(c, s1, m, s2, k, s3, j, n);
    assert [l] + [m, k, j] == [l, m, k, j];
    StepFirst(c, s, l, [m, k, j], n);
  }

  lemma FiveSteps(c: Config, s: State, l: Label, s1: State, m: Label, s2: State, k: Label, s3: State, j: Label, s4: State, i: Label, n: State)
    requires Enabled(c, s, l) && Apply(c, s, l) == s1
    requires Enabled(c, s1, m) && Apply(c, s1, m) == s2
    requires Enabled(c, s2, k) && Apply(c, s2, k) == s3
    requires Enabled(c, s3, j) && Apply(c, s3, j) == s4
    requires Enabled(c, s4, i) && Apply(c, s4, i) == n
    ensures Steps(c, s, [l, m, k, j, i], n)
  {
    hide Enabled, Apply;
    FourSteps(c, s1, m, s2, k, s3, j, s4, i, n);
    assert [l] + [m, k, j, i] == [l, m, k, j, i];
    StepFirst(c, s, l, [m, k, j, i], n);
  }

  // ----- recording

  function Reader(s: State, m: Id, token: Option<Id>, success: bool): Txn
    requires m in s.rows
  {
    Checking(m, s.rows[m].monitor, token, success, s.now, token.Some?, None, None)
  }

  function Creator(s: State, m: Id, token: Option<Id>, success: bool): Txn
    requires m in s.rows
  {
    Checking(m, s.rows[m].monitor, token, success, s.now, token.Some?, Some(s.now), None)
  }

  function WithTxn(s: State, x: Id, txn: Txn): State {
    s.(txns := map[x := txn])
  }

  lemma CreateStep(c: Config, s: State, x: Id, m: Id, token: Option<Id>, success: bool)
    requires m in s.rows
    ensures var s1 := WithTxn(s, x, Reader(s, m, token, success));
      Enabled(c, s1, CheckCreate(x)) && Apply(c, s1, CheckCreate(x)) == WithTxn(s, x, Creator(s, m, token, success))
  {
    var s1 := WithTxn(s, x, Reader(s, m, token, success));
    assert s1.txns[x := Creator(s, m, token, success)] == map[x := Creator(s, m, token, success)];
  }

  lemma RunStep(c: Config, s: State, x: Id, m: Id, token: Option<Id>, success: bool, given: CheckService.Choices)
    requires AtRest(s) && m in s.rows && OpenAnswer(s.incidents, m, given.open) && given.incidentId !in s.incidentIds
    ensures var s1 := WithTxn(s, x, Creator(s, m, token, success));
      var l := CheckRun(x, s.now, given.open, given.incidentId, given.eventId);
      Enabled(c, s1, l) && Apply(c, s1, l) == AfterCheckRun(s1, x, s.now, given.open, given.incidentId, given.eventId)
  {
  }

  function Ready(s: State, x: Id, m: Id, token: Option<Id>, success: bool, given: CheckService.Choices): State
    requires m in s.rows
  {
    AfterCheckRun(WithTxn(s, x, Creator(s, m, token, success)), x, s.now, given.open, given.incidentId, given.eventId)
  }

  lemma CommitIsEnabled(c: Config, s: State, x: Id, m: Id, token: Option<Id>, success: bool, given: CheckService.Choices)
    requires m in s.rows
    ensures Enabled(c, Ready(s, x, m, token, success, given), CheckCommit(x))
    ensures Apply(c, Ready(s, x, m, token, success, given), CheckCommit(x)) == AfterCheckCommit(Ready(s, x, m, token, success, given), x)
  {
  }

  /** The check's own writes: the same functions of the row, the windows and the incidents as in memory. */
  ghost predicate Writes(s: State, n: State, m: Id, leased: bool, success: bool, given: CheckService.Choices)
    requires m in s.rows
  {
    var before := s.rows[m].monitor;
    var maintenance := InMaintenance(s.windows, m, s.now);
    var change := CheckService.ChangeFor(before, success, maintenance, s.now, given);
    var after := Recorded(before, success, maintenance, s.now);
    && n.rows == s.rows[m := if leased then Row(after, None, None) else s.rows[m].(monitor := after)]
    && n.incidents == WithChange(s.incidents, change)
    && n.outbox == s.outbox + Emitted(change)
  }

  lemma CommitStep(s: State, x: Id, m: Id, token: Option<Id>, success: bool, given: CheckService.Choices)
    requires m in s.rows && m in s.past && s.rows[m].monitor.id == m
    requires token.Some? ==> s.rows[m].leaseToken == token
    ensures var ready := Ready(s, x, m, token, success, given);
      && x in ready.txns && ready.txns[x].Checking? && ready.txns[x].effect.Some?
      && Writes(s, AfterCheckCommit(ready, x), m, token.Some?, success, given)
  {
    hide InMaintenance, Recorded, Transition;
  }

  /** A manual check: lock, create, decide, commit. */
  lemma ManualRecordSimulates(c: Config, s: State, x: Id, m: Id, success: bool, given: CheckService.Choices) returns (n: State)
    requires AtRest(s) && m in s.rows && m in s.past && s.rows[m].monitor.id == m
    requires OpenAnswer(s.incidents, m, given.open) && given.incidentId !in s.incidentIds
    ensures Steps(c, s, [CheckLock(x, m, success), CheckCreate(x), CheckRun(x, s.now, given.open, given.incidentId, given.eventId),
                         CheckCommit(x)], n)
    ensures Writes(s, n, m, false, success, given)
  {
    var run := CheckRun(x, s.now, given.open, given.incidentId, given.eventId);
    assert !Locked(s, m);
    var s1 := WithTxn(s, x, Reader(s, m, None, success));
    assert Apply(c, s, CheckLock(x, m, success)) == s1;
    CreateStep(c, s, x, m, None, success);
    RunStep(c, s, x, m, None, success, given);
    CommitIsEnabled(c, s, x, m, None, success, given);
    CommitStep(s, x, m, None, success, given);
    var s2, s3 := WithTxn(s, x, Creator(s, m, None, success)), Ready(s, x, m, None, success, given);
    n := AfterCheckCommit(s3, x);
    hide Enabled, Apply, AfterCheckRun, AfterCheckCommit, Writes;
    FourSteps(c, s, CheckLock(x, m, success), s1, CheckCreate(x), s2, run, s3, CheckCommit(x), n);
  }

  lemma LeasedSteps(c: Config, s: State, x: Id, t: Id)
    requires AtRest(s) && t in s.probes && s.probes[t].state.Done? && s.probes[t].monitor.id in s.rows
    ensures var m := s.probes[t].monitor.id; var success := s.probes[t].state.success;
      var read := Reader(s, m, Some(t), success);
      && Enabled(c, s, LeasedCheckLock(x, t))
      && Apply(c, s, LeasedCheckLock(x, t)) == WithTxn(s, x, read.(verified := false))
      && Enabled(c, WithTxn(s, x, read.(verified := false)), CheckVerify(x))
      && Apply(c, WithTxn(s, x, read.(verified := false)), CheckVerify(x))
           == if HoldsLease(s.rows[m], t, s.now) then WithTxn(s, x, read) else s
  {
    var m := s.probes[t].monitor.id;
    assert !Locked(s, m);
    var read := Reader(s, m, Some(t), s.probes[t].state.success);
    var s1 := WithTxn(s, x, read.(verified := false));
    assert s1.txns[x := read] == map[x := read] && s1.txns - {x} == s.txns;
  }

  /** A leased check: written under an unexpired lease, which it releases, and dropped otherwise. */
  lemma LeasedRecordSimulates(c: Config, s: State, x: Id, t: Id, given: CheckService.Choices) returns (n: State)
    requires AtRest(s) && t in s.probes && s.probes[t].state.Done?
    requires var m := s.probes[t].monitor.id; m in s.rows && m in s.past && s.rows[m].monitor.id == m
    requires OpenAnswer(s.incidents, s.probes[t].monitor.id, given.open) && given.incidentId !in s.incidentIds
    ensures var m := s.probes[t].monitor.id; var success := s.probes[t].state.success;
      if HoldsLease(s.rows[m], t, s.now) then
        && Steps(c, s, [LeasedCheckLock(x, t), CheckVerify(x), CheckCreate(x),
                        CheckRun(x, s.now, given.open, given.incidentId, given.eventId), CheckCommit(x)], n)
        && Writes(s, n, m, true, success, given)
      else Steps(c, s, [LeasedCheckLock(x, t), CheckVerify(x)], n) && n == s
  {
    var m := s.probes[t].monitor.id;
    var success := s.probes[t].state.success;
    var read := Reader(s, m, Some(t), success);
    var lock, verify := LeasedCheckLock(x, t), CheckVerify(x);
    var run, commit := CheckRun(x, s.now, given.open, given.incidentId, given.eventId), CheckCommit(x);
    LeasedSteps(c, s, x, t);
    var s1 := WithTxn(s, x, read.(verified := false));
    if HoldsLease(s.rows[m], t, s.now) {
      CreateStep(c, s, x, m, Some(t), success);
      RunStep(c, s, x, m, Some(t), success, given);
      CommitIsEnabled(c, s, x, m, Some(t), success, given);
      CommitStep(s, x, m, Some(t), success, given);
      var s2 := WithTxn(s, x, read);
      var s3, s4 := WithTxn(s, x, Creator(s, m, Some(t), success)), Ready(s, x, m, Some(t), success, given);
      n := AfterCheckCommit(s4, x);
      hide Enabled, Apply, AfterCheckRun, AfterCheckCommit, WithTxn, HoldsLease, Writes;
      FiveSteps(c, s, lock, s1, verify, s2, CheckCreate(x), s3, run, s4, commit, n);
    } else {
      hide Enabled, Apply;
      n := s;
      TwoSteps(c, s, lock, s1, verify, s);
    }
  }

  // ----- the recorded tables are the protocol's

  /** The events map after the outbox events of one check. */
  function WithEvents(events: map<Id, OutboxEvent>, added: seq<OutboxEvent>): map<Id, OutboxEvent> {
    if added == [] then events
    else WithEvents(events, added[..|added| - 1])[added[|added| - 1].id := added[|added| - 1]]
  }

  predicate Matches(s: State, t: CheckService.Tables) {
    && RowsOf(t.monitors, t.claims) == s.rows && t.incidents == s.incidents
    && (forall i :: i in t.incidents ==> t.incidents[i].id == i)
  }

  /** What the check service says of its choices: only a recovery looks an incident up, only an opening takes an id. */
  ghost predicate Chosen(s: State, m: Id, success: bool, given: CheckService.Choices)
    requires m in s.rows
  {
    var monitor, maintenance := s.rows[m].monitor, InMaintenance(s.windows, m, s.now);
    && (CheckService.Recovers(monitor, success, maintenance) ==> OpenAnswer(s.incidents, m, given.open))
    && (CheckService.ChangeFor(monitor, success, maintenance, s.now, given).Opens? ==> given.incidentId !in s.incidentIds)
  }

  lemma AnAnswer(incidents: map<Id, Incident>, m: Id) returns (open: Option<Incident>)
    requires forall i :: i in incidents ==> incidents[i].id == i
    ensures OpenAnswer(incidents, m, open)
  {
    if i :| i in incidents && IsOpenFor(incidents[i], m) {
      open := Some(incidents[i]);
    } else {
      open := None;
    }
  }

  /** Where the service makes no choice, the protocol may make any. */
  lemma Completed(s: State, m: Id, success: bool, given: CheckService.Choices, spare: Id) returns (full: CheckService.Choices)
    requires m in s.rows && Chosen(s, m, success, given) && spare !in s.incidentIds
    requires forall i :: i in s.incidents ==> s.incidents[i].id == i
    ensures OpenAnswer(s.incidents, m, full.open) && full.incidentId !in s.incidentIds
    ensures var monitor, maintenance := s.rows[m].monitor, InMaintenance(s.windows, m, s.now);
      CheckService.ChangeFor(monitor, success, maintenance, s.now, full)
        == CheckService.ChangeFor(monitor, success, maintenance, s.now, given)
  {
    var monitor, maintenance := s.rows[m].monitor, InMaintenance(s.windows, m, s.now);
    hide InMaintenance, OpenAnswer;
    var open := AnAnswer(s.incidents, m);
    full := CheckService.Choices(
      if CheckService.Recovers(monitor, success, maintenance) then given.open else open,
      if CheckService.ChangeFor(monitor, success, maintenance, s.now, given).Opens? then given.incidentId else spare,
      given.eventId);
  }

  /** What the service leaves in its repositories are the rows, incidents and events of the protocol. */
  lemma TablesJoin(s: State, n: State, t: CheckService.Tables, m: Id, leased: bool, success: bool, given: CheckService.Choices)
    requires Matches(s, t) && m in s.rows && s.rows[m].monitor.id == m && m in t.monitors
    requires Writes(s, n, m, leased, success, given)
    ensures var after := CheckService.RecordedTables(t, m, success, InMaintenance(s.windows, m, s.now), leased, s.now, given);
      && RowsOf(after.monitors, after.claims) == n.rows && after.incidents == n.incidents
      && s.outbox <= n.outbox && after.events == WithEvents(t.events, n.outbox[|s.outbox|..])
  {
    var maintenance := InMaintenance(s.windows, m, s.now);
    var change := CheckService.ChangeFor(s.rows[m].monitor, success, maintenance, s.now, given);
    assert s.rows[m].monitor == t.monitors[m];
    hide InMaintenance, Recorded, CheckService.ChangeFor, WithChange, Matches;
    RowsJoin(t.monitors, t.claims, m, Recorded(t.monitors[m], success, maintenance, s.now), leased);
    hide RowsOf;
    assert n.outbox[|s.outbox|..] == Emitted(change);
    EventsJoin(t.events, change);
  }

  lemma RowsJoin(monitors: map<Id, Monitor>, claims: map<Id, MonitorClaim>, m: Id, monitor: Monitor, leased: bool)
    requires m in monitors
    ensures var rows := RowsOf(monitors, claims);
      RowsOf(monitors[m := monitor], if leased then claims - {m} else claims)
        == rows[m := if leased then Row(monitor, None, None) else rows[m].(monitor := monitor)]
  {
    var rows := RowsOf(monitors, claims);
    var after := RowsOf(monitors[m := monitor], if leased then claims - {m} else claims);
    assert after.Keys == rows.Keys;
    forall k | k in after && k != m ensures after[k] == rows[k] {}
  }

  lemma EventsJoin(events: map<Id, OutboxEvent>, change: Change)
    ensures WithEvents(events, Emitted(change)) == CheckService.WithEvent(events, change)
  {
    if !change.Nothing? {
      var e := Emitted(change)[0];
      assert Emitted(change)[..0] == [];
      assert WithEvents(events, []) == events;
    }
  }

  /**
    One call of the service's `record` without a token, from tables that match the protocol's, and
    the protocol's lock, decision and commit end in the same tables.
   */
  lemma ManualRecordJoins(c: Config, s: State, x: Id, t: CheckService.Tables, m: Id, success: bool,
                          given: CheckService.Choices, spare: Id) returns (n: State, full: CheckService.Choices)
    requires AtRest(s) && m in s.rows && m in s.past && s.rows[m].monitor.id == m
    requires Matches(s, t) && Chosen(s, m, success, given) && spare !in s.incidentIds && m in t.monitors
    ensures Steps(c, s, [CheckLock(x, m, success), CheckCreate(x), CheckRun(x, s.now, full.open, full.incidentId, full.eventId),
                         CheckCommit(x)], n)
    ensures var after := CheckService.RecordedTables(t, m, success, InMaintenance(s.windows, m, s.now), false, s.now, given);
      && RowsOf(after.monitors, after.claims) == n.rows && after.incidents == n.incidents
      && s.outbox <= n.outbox && after.events == WithEvents(t.events, n.outbox[|s.outbox|..])
  {
    full := Completed(s, m, success, given, spare);
    hide InMaintenance, Recorded, OpenAnswer, Steps, CheckService.ChangeFor;
    n := ManualRecordSimulates(c, s, x, m, success, full);
    TablesJoin(s, n, t, m, false, success, given);
  }

  /** The same with a token: the service writes what the protocol's steps write, or neither writes anything. */
  lemma LeasedRecordJoins(c: Config, s: State, x: Id, t: CheckService.Tables, token: Id,
                          given: CheckService.Choices, spare: Id) returns (n: State, full: CheckService.Choices)
    requires AtRest(s) && token in s.probes && s.probes[token].state.Done?
    requires var m := s.probes[token].monitor.id; m in s.rows && m in s.past && s.rows[m].monitor.id == m && m in t.monitors
    requires Matches(s, t) && Chosen(s, s.probes[token].monitor.id, s.probes[token].state.success, given) && spare !in s.incidentIds
    ensures var m := s.probes[token].monitor.id; var success := s.probes[token].state.success;
      var after := CheckService.RecordedTables(t, m, success, InMaintenance(s.windows, m, s.now), true, s.now, given);
      if HoldsLease(RowsOf(t.monitors, t.claims)[m], token, s.now) then
        && Steps(c, s, [LeasedCheckLock(x, token), CheckVerify(x), CheckCreate(x),
                        CheckRun(x, s.now, full.open, full.incidentId, full.eventId), CheckCommit(x)], n)
        && RowsOf(after.monitors, after.claims) == n.rows && after.incidents == n.incidents
        && s.outbox <= n.outbox && after.events == WithEvents(t.events, n.outbox[|s.outbox|..])
      else Steps(c, s, [LeasedCheckLock(x, token), CheckVerify(x)], n) && n == s
  {
    var m, success := s.probes[token].monitor.id, s.probes[token].state.success;
    full := Completed(s, m, success, given, spare);
    hide InMaintenance, Recorded, OpenAnswer, Steps, CheckService.ChangeFor, HoldsLease;
    n := LeasedRecordSimulates(c, s, x, token, full);
    if HoldsLease(s.rows[m], token, s.now) { TablesJoin(s, n, t, m, true, success, given); }
  }

  // ----- claiming

  /** With nothing locked the SQL claim has no choice but the in-memory claim's monitors. */
  lemma ClaimsAgree(c: Config, s: State, x: Id, limit: nat, exclude: set<Id>, chosen: seq<Due>, claims: seq<MonitorClaim>)
    requires LockedRows(s) == {} && Enabled(c, s, ClaimSelect(x, limit, exclude, chosen))
    requires FirstOf(Candidates(s.rows, exclude, s.now), limit, DuesOf(claims))
    ensures chosen == DuesOf(claims)
  {
    assert exclude + LockedRows(s) == exclude;
    FirstOfUnique(Candidates(s.rows, exclude, s.now), limit, chosen, DuesOf(claims));
  }

  function Claimer(s: State, w: Id, held: set<Id>, stamp: Option<Stamping>): Txn {
    Claiming(w, s.now, held, s.now, stamp)
  }

  lemma SelectSteps(c: Config, s: State, x: Id, w: Id, limit: nat, exclude: set<Id>, claims: seq<MonitorClaim>)
    requires AtRest(s) && FirstOf(Candidates(s.rows, exclude, s.now), limit, DuesOf(claims))
    ensures Enabled(c, s, ClaimBegin(x, w)) && Apply(c, s, ClaimBegin(x, w)) == WithTxn(s, x, Claimer(s, w, {}, None))
    ensures var s1 := WithTxn(s, x, Claimer(s, w, {}, None)); var l := ClaimSelect(x, limit, exclude, DuesOf(claims));
      Enabled(c, s1, l) && Apply(c, s1, l) == WithTxn(s, x, Claimer(s, w, WaveIds(Named(claims)), None))
  {
    var s1 := WithTxn(s, x, Claimer(s, w, {}, None));
    assert LockedRows(s1) == {} && exclude + LockedRows(s1) == exclude;
    NamedIds(claims, DuesOf(claims));
    assert (set due | due in DuesOf(claims) :: due.id) == set j | 0 <= j < |claims| :: DuesOf(claims)[j].id;
    assert s1.txns[x := Claimer(s, w, WaveIds(Named(claims)), None)] == map[x := Claimer(s, w, WaveIds(Named(claims)), None)];
  }

  function StampedState(s: State, x: Id, w: Id, tokens: map<Id, Id>, rows: map<Id, Id>): State {
    WithTxn(s, x, Claimer(s, w, tokens.Keys, Some(Stamping(s.now, tokens, rows)))).(tokens := s.tokens + rows.Keys)
  }

  lemma StampStep(c: Config, s: State, x: Id, w: Id, tokens: map<Id, Id>, rows: map<Id, Id>)
    requires Inverse(tokens, rows) && rows.Keys !! s.tokens
    ensures var s2 := WithTxn(s, x, Claimer(s, w, tokens.Keys, None)); var stamp := ClaimStamp(x, tokens, rows);
      Enabled(c, s2, stamp) && Apply(c, s2, stamp) == StampedState(s, x, w, tokens, rows)
  {
    var txn := Claimer(s, w, tokens.Keys, Some(Stamping(s.now, tokens, rows)));
    assert map[x := Claimer(s, w, tokens.Keys, None)][x := txn] == map[x := txn];
  }

  lemma SameStamp(c: Config, rows: map<Id, Row>, st: Stamping)
    ensures Stamp(c, rows, st) == StampedRows(rows, st.tokens, c.leaseGrace, st.at)
  {
    assert forall m :: m in rows ==> Stamp(c, rows, st)[m] == StampedRows(rows, st.tokens, c.leaseGrace, st.at)[m];
  }

  lemma ClaimCommitStep(c: Config, s: State, x: Id, w: Id, tokens: map<Id, Id>, rows: map<Id, Id>)
    requires w !in s.waves && c.leaseGrace > 0.0
    ensures var s3 := StampedState(s, x, w, tokens, rows);
      && Enabled(c, s3, ClaimCommit(x, true))
      && Apply(c, s3, ClaimCommit(x, true)).rows == StampedRows(s.rows, tokens, c.leaseGrace, s.now)
  {
    SameStamp(c, s.rows, Stamping(s.now, tokens, rows));
    hide Stamp, NewProbes, NewLogs;
  }

  /** Begin, select, stamp and commit at one instant do what `claim_due` does in memory. */
  lemma ClaimSimulates(c: Config, s: State, x: Id, w: Id, limit: nat, exclude: set<Id>,
                       claims: seq<MonitorClaim>, tokens: map<Id, Id>, rows: map<Id, Id>) returns (n: State)
    requires AtRest(s) && w !in s.waves && c.leaseGrace > 0.0
    requires FirstOf(Candidates(s.rows, exclude, s.now), limit, DuesOf(claims)) && tokens.Keys == WaveIds(Named(claims))
    requires Inverse(tokens, rows) && rows.Keys !! s.tokens
    ensures Steps(c, s, [ClaimBegin(x, w), ClaimSelect(x, limit, exclude, DuesOf(claims)), ClaimStamp(x, tokens, rows), ClaimCommit(x, true)], n)
    ensures n.rows == StampedRows(s.rows, tokens, c.leaseGrace, s.now)
  {
    var begin, select := ClaimBegin(x, w), ClaimSelect(x, limit, exclude, DuesOf(claims));
    var stamp, commit := ClaimStamp(x, tokens, rows), ClaimCommit(x, true);
    SelectSteps(c, s, x, w, limit, exclude, claims);
    StampStep(c, s, x, w, tokens, rows);
    ClaimCommitStep(c, s, x, w, tokens, rows);
    hide Enabled, Apply, FirstOf, Inverse;
    var s1 := WithTxn(s, x, Claimer(s, w, {}, None));
    var s2 := WithTxn(s, x, Claimer(s, w, tokens.Keys, None));
    var s3 := StampedState(s, x, w, tokens, rows);
    n := Apply(c, s3, commit);
    FourSteps(c, s, begin, s1, select, s2, stamp, s3, commit, n);
  }
}
