/**
  What one recorded check does to its monitor, its incident and the outbox, as functions
  that the check service and the monitor protocol share.
 */
module CheckRecording {
  import opened Prelude
  import opened MonitorState
  import opened MonitorConfig

  datatype IncidentStatus = Open | Resolved

  datatype Incident = Incident(id: Id, monitorId: Id, status: IncidentStatus, startedAt: Time, resolvedAt: Option<Time>)

  datatype EventType = IncidentOpened | IncidentResolved

  /** The payload's identifying part; the rest is the monitor and check snapshot. */
  datatype OutboxEvent = OutboxEvent(
    id: Id,
    organizationId: Id,
    eventType: EventType,
    monitorId: Id,
    incidentId: Id,
    createdAt: Time,
    processedAt: Option<Time>)

  datatype Window = Window(monitorId: Id, startsAt: Time, endsAt: Time) {
    predicate IsActive(now: Time) {
      startsAt <= now < endsAt
    }
  }

  predicate InMaintenance(windows: map<Id, Window>, monitorId: Id, now: Time) {
    exists w :: w in windows && windows[w].monitorId == monitorId && windows[w].IsActive(now)
  }

  /** The monitor row after a check at `at`; a maintenance window only moves the schedule. */
  function Recorded(m: Monitor, success: bool, maintenance: bool, at: Time): Monitor {
    (if maintenance then m else ApplyCheckResult(m, success)).(nextCheckAt := at + m.intervalSeconds as Time)
  }

  /** What the transition writes besides the monitor. */
  datatype Change =
    | Nothing
    | Opens(incident: Incident, event: OutboxEvent)
    | Resolves(incident: Incident, event: OutboxEvent)

  /** `open` is what `get_open_by_monitor_id` returned; it is only asked for on recovery. */
  function Transition(before: Monitor, after: Monitor, at: Time, open: Option<Incident>, incidentId: Id, eventId: Id): Change {
    if !before.status.Down? && after.status.Down? then
      Opens(Incident(incidentId, before.id, Open, at, None),
            OutboxEvent(eventId, before.organizationId, IncidentOpened, before.id, incidentId, at, None))
    else if before.status.Down? && after.status.Up? then
      if open.None? then Nothing
      else
        var resolved := open.value.(status := Resolved, resolvedAt := Some(at));
        Resolves(resolved, OutboxEvent(eventId, before.organizationId, IncidentResolved, before.id, resolved.id, at, None))
    else Nothing
  }

  predicate IsOpenFor(i: Incident, monitorId: Id) {
    i.monitorId == monitorId && i.status.Open?
  }

  /** The answer of `get_open_by_monitor_id`: an open incident if there is one. */
  ghost predicate OpenAnswer(incidents: map<Id, Incident>, monitorId: Id, answer: Option<Incident>) {
    if answer.Some? then answer.value.id in incidents && incidents[answer.value.id] == answer.value && IsOpenFor(answer.value, monitorId)
    else forall i :: i in incidents ==> !IsOpenFor(incidents[i], monitorId)
  }

  function WithChange(incidents: map<Id, Incident>, change: Change): map<Id, Incident> {
    match change
    case Nothing => incidents
    case Opens(i, _) => incidents[i.id := i]
    case Resolves(i, _) => incidents[i.id := i]
  }

  function Emitted(change: Change): seq<OutboxEvent> {
    match change
    case Nothing => []
    case Opens(_, e) => [e]
    case Resolves(_, e) => [e]
  }

  // ----- user edits

  datatype Edit = Edit(
    name: Option<string>,
    config: Option<MonitorConfig>,
    intervalSeconds: Option<nat>,
    timeoutSeconds: Option<nat>,
    failureThreshold: Option<int>,
    recoveryThreshold: Option<int>)

  function Or<T>(value: Option<T>, otherwise: T): T {
    if value.Some? then value.value else otherwise
  }

  function Edited(m: Monitor, e: Edit): Monitor {
    m.(name := Or(e.name, m.name),
       config := Or(e.config, m.config),
       intervalSeconds := Or(e.intervalSeconds, m.intervalSeconds),
       timeoutSeconds := Or(e.timeoutSeconds, m.timeoutSeconds),
       failureThreshold := Or(e.failureThreshold, m.failureThreshold),
       recoveryThreshold := Or(e.recoveryThreshold, m.recoveryThreshold))
  }

  // ----- a monitor's whole history

  datatype Op = Checked(success: bool, maintenance: bool, at: Time) | Changed(edit: Edit)

  function Perform(m: Monitor, op: Op): Monitor {
    match op
    case Checked(success, maintenance, at) => Recorded(m, success, maintenance, at)
    case Changed(edit) => Edited(m, edit)
  }

  function Replay(m: Monitor, ops: seq<Op>): Monitor {
    if ops == [] then m else Perform(Replay(m, ops[..|ops| - 1]), ops[|ops| - 1])
  }

  /** The results that count: checks inside a maintenance window are skipped. */
  function Results(ops: seq<Op>): seq<bool> {
    if ops == [] then []
    else
      var last := ops[|ops| - 1];
      Results(ops[..|ops| - 1]) + if last.Checked? && !last.maintenance then [last.success] else []
  }

  predicate KeepsThresholds(ops: seq<Op>) {
    forall k :: 0 <= k < |ops| && ops[k].Changed? ==> ops[k].edit.failureThreshold.None? && ops[k].edit.recoveryThreshold.None?
  }

  function Edits(ops: seq<Op>): seq<Op> {
    if ops == [] then []
    else Edits(ops[..|ops| - 1]) + if ops[|ops| - 1].Changed? then [ops[|ops| - 1]] else []
  }

  predicate SameState(a: Monitor, b: Monitor) {
    && a.status == b.status && a.consecutiveFailures == b.consecutiveFailures
    && a.consecutiveSuccesses == b.consecutiveSuccesses
    && a.failureThreshold == b.failureThreshold && a.recoveryThreshold == b.recoveryThreshold
  }

  lemma PerformSameState(a: Monitor, b: Monitor, op: Op)
    requires SameState(a, b)
    requires op.Changed? ==> op.edit.failureThreshold.None? && op.edit.recoveryThreshold.None?
    ensures SameState(Perform(a, op), if op.Checked? && !op.maintenance then ApplyCheckResult(b, op.success) else b)
  {
  }

  /** Results fold into the state alone, whatever edits and windows lie between them. */
  lemma {:induction false} ReplayIsFold(m: Monitor, ops: seq<Op>)
    requires KeepsThresholds(ops)
    ensures SameState(Replay(m, ops), Fold(m, Results(ops)))
  {
    if ops != [] {
      var init, last := ops[..|ops| - 1], ops[|ops| - 1];
      ReplayIsFold(m, init);
      PerformSameState(Replay(m, init), Fold(m, Results(init)), last);
      if last.Checked? && !last.maintenance {
        assert Results(ops)[..|Results(ops)| - 1] == Results(init);
      } else {
        assert Results(ops) == Results(init);
      }
    }
  }

  /**
    With unchanged thresholds, a monitor's state is the declarative reading of its results
    outside maintenance, however checks, edits and windows interleave.
   */
  lemma StateFromHistory(m: Monitor, ops: seq<Op>)
    requires m.status.Pending? && m.consecutiveFailures == 0 && m.consecutiveSuccesses == 0
    requires m.failureThreshold >= 1 && m.recoveryThreshold >= 1 && KeepsThresholds(ops)
    ensures var a := Replay(m, ops);
      && a.status == StatusOf(Results(ops), m.failureThreshold, m.recoveryThreshold)
      && a.consecutiveFailures == Trailing(Results(ops), false)
      && a.consecutiveSuccesses == Trailing(Results(ops), true)
  {
    ReplayIsFold(m, ops);
    FoldIsDeclarative(m, Results(ops));
  }

  // ----- edits of the thresholds

  /** What a user can see before the edit: it sets the threshold that the counter has reached. */
  predicate Crosses(m: Monitor, e: Edit) {
    || (m.status.Up? && e.failureThreshold.Some? && e.failureThreshold.value <= m.consecutiveFailures)
    || (m.status.Down? && e.recoveryThreshold.Some? && e.recoveryThreshold.value <= m.consecutiveSuccesses)
  }

  /** An edit leaves a settled monitor overdue exactly if it crosses a counter. */
  lemma EditOverdueIff(m: Monitor, e: Edit)
    ensures Overdue(Edited(m, e)) <==>
      || (m.status.Up? && Or(e.failureThreshold, m.failureThreshold) <= m.consecutiveFailures)
      || (m.status.Down? && Or(e.recoveryThreshold, m.recoveryThreshold) <= m.consecutiveSuccesses)
    ensures !Overdue(m) ==> (Overdue(Edited(m, e)) <==> Crosses(m, e))
  {
  }

  /** A result that counts, or an edit of the threshold that m's status is measured by. */
  predicate Settles(m: Monitor, op: Op) {
    match op
    case Checked(_, maintenance, _) => !maintenance
    case Changed(e) => (m.status.Up? && e.failureThreshold.Some?) || (m.status.Down? && e.recoveryThreshold.Some?)
  }

  /** The k-th operation crosses a counter and no later one settles the monitor. */
  predicate CrossedAt(m: Monitor, ops: seq<Op>, k: nat) {
    k < |ops| && ops[k].Changed? && Crosses(Replay(m, ops[..k]), ops[k].edit) && forall j :: k < j < |ops| ==> !SettlesAt(m, ops, j)
  }

  predicate SettlesAt(m: Monitor, ops: seq<Op>, j: nat)
    requires j < |ops|
  {
    Settles(Replay(m, ops[..j]), ops[j])
  }

  ghost predicate Crossed(m: Monitor, ops: seq<Op>) {
    exists k: nat :: CrossedAt(m, ops, k)
  }

  predicate PositiveThresholds(ops: seq<Op>) {
    forall k :: 0 <= k < |ops| && ops[k].Changed? ==>
      Or(ops[k].edit.failureThreshold, 1) >= 1 && Or(ops[k].edit.recoveryThreshold, 1) >= 1
  }

  lemma CrossedExtends(m: Monitor, ops: seq<Op>)
    requires ops != []
    ensures var init, last := ops[..|ops| - 1], ops[|ops| - 1];
      Crossed(m, ops) <==>
        (last.Changed? && Crosses(Replay(m, init), last.edit)) || (!Settles(Replay(m, init), last) && Crossed(m, init))
  {
    var n := |ops| - 1;
    var init := ops[..n];
    forall k: nat | k < n ensures CrossedAt(m, ops, k) <==> CrossedAt(m, init, k) && !Settles(Replay(m, init), ops[n]) {
      CrossedBefore(m, ops, k);
    }
    assert CrossedAt(m, ops, n) <==> ops[n].Changed? && Crosses(Replay(m, init), ops[n].edit);
    hide CrossedAt, Replay, Crosses, Settles;
    if Crossed(m, ops) {
      var k: nat :| CrossedAt(m, ops, k);
      assert k < n || k == n by { CrossedInside(m, ops, k); }
    }
  }

  lemma CrossedInside(m: Monitor, ops: seq<Op>, k: nat)
    requires CrossedAt(m, ops, k)
    ensures k < |ops|
  {
  }

  lemma CrossedBefore(m: Monitor, ops: seq<Op>, k: nat)
    requires k < |ops| - 1
    ensures var init, last := ops[..|ops| - 1], ops[|ops| - 1];
      CrossedAt(m, ops, k) <==> CrossedAt(m, init, k) && !Settles(Replay(m, init), last)
  {
    var n := |ops| - 1;
    var init := ops[..n];
    hide Replay, Crosses, Settles;
    assert ops[..k] == init[..k];
    forall j | 0 <= j < n ensures SettlesAt(m, ops, j) == SettlesAt(m, init, j) { assert ops[..j] == init[..j]; }
    hide SettlesAt;
    SettlesLast(m, ops);
  }

  lemma SettlesLast(m: Monitor, ops: seq<Op>)
    requires ops != []
    ensures SettlesAt(m, ops, |ops| - 1) == Settles(Replay(m, ops[..|ops| - 1]), ops[|ops| - 1])
  {
  }

  /**
    Exactly when the reading of fixed thresholds fails: after any history, a monitor is overdue
    if and only if an edit set a threshold at or below its counter and nothing has settled it since.
   */
  lemma {:induction false} OverdueIff(m: Monitor, ops: seq<Op>)
    requires !Overdue(m) && m.failureThreshold >= 1 && m.recoveryThreshold >= 1 && PositiveThresholds(ops)
    ensures Overdue(Replay(m, ops)) <==> Crossed(m, ops)
    ensures Replay(m, ops).failureThreshold >= 1 && Replay(m, ops).recoveryThreshold >= 1
  {
    if ops != [] {
      var init, last := ops[..|ops| - 1], ops[|ops| - 1];
      OverdueIff(m, init);
      CrossedExtends(m, ops);
      hide Crossed;
      if last.Checked? && !last.maintenance { ResultsSettle(Replay(m, init), last.success); }
    }
  }

  /** Checks and edits write disjoint parts: each part is decided by its own operations. */
  lemma {:induction false} EditsAloneDecideSettings(m: Monitor, ops: seq<Op>)
    ensures var a := Replay(m, ops); var e := Replay(m, Edits(ops));
      && a.name == e.name && a.config == e.config && a.intervalSeconds == e.intervalSeconds
      && a.timeoutSeconds == e.timeoutSeconds && a.failureThreshold == e.failureThreshold
      && a.recoveryThreshold == e.recoveryThreshold
      && a.id == m.id && a.organizationId == m.organizationId && a.createdAt == m.createdAt
    ensures var e := Replay(m, Edits(ops));
      && e.status == m.status && e.consecutiveFailures == m.consecutiveFailures
      && e.consecutiveSuccesses == m.consecutiveSuccesses && e.nextCheckAt == m.nextCheckAt
  {
    if ops != [] {
      var init, last := ops[..|ops| - 1], ops[|ops| - 1];
      EditsAloneDecideSettings(m, init);
      if last.Changed? {
        assert Edits(ops)[..|Edits(ops)| - 1] == Edits(init);
      } else {
        assert Edits(ops) == Edits(init);
      }
    }
  }

  /** k is the last check among the operations. */
  predicate LastCheck(ops: seq<Op>, k: nat) {
    k < |ops| && ops[k].Checked? && forall j :: k < j < |ops| ==> !ops[j].Checked?
  }

  /** Edits do not move the schedule. */
  lemma {:induction false} EditsLeaveSchedule(m: Monitor, ops: seq<Op>, k: nat)
    requires k <= |ops| && forall j :: k <= j < |ops| ==> !ops[j].Checked?
    ensures Replay(m, ops).nextCheckAt == Replay(m, ops[..k]).nextCheckAt
  {
    if k == |ops| {
      assert ops[..k] == ops;
    } else {
      var init := ops[..|ops| - 1];
      EditsLeaveSchedule(m, init, k);
      assert init[..k] == ops[..k];
    }
  }

  lemma ScheduleFrom(m: Monitor, ops: seq<Op>, k: nat)
    requires LastCheck(ops, k)
    ensures Replay(m, ops).nextCheckAt == ops[k].at + Replay(m, ops[..k]).intervalSeconds as Time
  {
    EditsLeaveSchedule(m, ops, k + 1);
    var upTo := ops[..k + 1];
    assert upTo[..|upTo| - 1] == ops[..k] && upTo[|upTo| - 1] == ops[k];
    CheckSchedules(Replay(m, ops[..k]), ops[k]);
  }

  lemma CheckSchedules(m: Monitor, op: Op)
    requires op.Checked?
    ensures Perform(m, op).nextCheckAt == op.at + m.intervalSeconds as Time
  {
  }

  lemma {:induction false} SomeCheckIsLast(ops: seq<Op>)
    requires forall k: nat :: !LastCheck(ops, k)
    ensures forall j :: 0 <= j < |ops| ==> !ops[j].Checked?
  {
    if ops != [] {
      var init := ops[..|ops| - 1];
      assert !LastCheck(ops, |ops| - 1);
      forall k: nat ensures !LastCheck(init, k) {
        if LastCheck(init, k) { assert LastCheck(ops, k); }
      }
      SomeCheckIsLast(init);
      forall j | 0 <= j < |ops| ensures !ops[j].Checked? { if j < |init| { assert init[j] == ops[j]; } }
    }
  }

  /**
    The next check is due one interval after the last one, counted with the interval of that
    moment: maintenance does not stop the schedule, and a later edit does not move it.
   */
  lemma ScheduleFromLastCheck(m: Monitor, ops: seq<Op>)
    ensures forall k: nat :: LastCheck(ops, k) ==>
      Replay(m, ops).nextCheckAt == ops[k].at + Replay(m, ops[..k]).intervalSeconds as Time
    ensures (forall k: nat :: !LastCheck(ops, k)) ==> Replay(m, ops).nextCheckAt == m.nextCheckAt
  {
    forall k: nat | LastCheck(ops, k) ensures Replay(m, ops).nextCheckAt == ops[k].at + Replay(m, ops[..k]).intervalSeconds as Time {
      ScheduleFrom(m, ops, k);
    }
    if forall k: nat :: !LastCheck(ops, k) {
      SomeCheckIsLast(ops);
      EditsLeaveSchedule(m, ops, 0);
    }
  }
}
