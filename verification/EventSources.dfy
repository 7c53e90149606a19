/**
  Where the incidents and outbox events of a run come from: each event is of the organization
  its monitor was created in and of one committed check that counted, and so are the two ends
  of each incident.
 */
module EventSources {
  import opened Prelude
  import opened MonitorState
  import opened CheckRecording
  import opened MonitorProtocol
  import opened MonitorLeases
  import opened MonitorProbes
  import opened MonitorIncidents
  import opened MonitorTheorems

  /** A check of m outside maintenance, with this result and instant, has been committed. */
  ghost predicate Counted(past: map<Id, History>, m: Id, success: bool, at: Time) {
    m in past && Checked(success, false, at) in past[m].ops
  }

  ghost predicate EventOk(past: map<Id, History>, e: OutboxEvent) {
    && e.monitorId in past && e.organizationId == past[e.monitorId].created.organizationId && e.processedAt.None?
    && Counted(past, e.monitorId, e.eventType.IncidentResolved?, e.createdAt)
  }

  ghost predicate IncidentOk(past: map<Id, History>, i: Incident) {
    && Counted(past, i.monitorId, false, i.startedAt)
    && (i.status.Resolved? <==> i.resolvedAt.Some?)
    && (i.resolvedAt.Some? ==> Counted(past, i.monitorId, true, i.resolvedAt.value))
  }

  /** What a check has decided to write is of its own instant and its monitor's organization. */
  predicate DecisionOk(x: Txn)
    requires Decided(x)
  {
    var effect := x.effect.value;
    match effect.change
    case Nothing => true
    case Opens(i, e) =>
      && effect.op == Checked(false, false, effect.at)
      && i == Incident(i.id, x.read.id, Open, effect.at, None)
      && e == OutboxEvent(e.id, x.read.organizationId, IncidentOpened, x.read.id, i.id, effect.at, None)
    case Resolves(i, e) =>
      && effect.op == Checked(true, false, effect.at)
      && i.status.Resolved? && i.resolvedAt == Some(effect.at)
      && e == OutboxEvent(e.id, x.read.organizationId, IncidentResolved, x.read.id, i.id, effect.at, None)
  }

  ghost predicate Events(s: State) {
    forall k :: 0 <= k < |s.outbox| ==> EventOk(s.past, s.outbox[k])
  }

  ghost predicate Incidents(s: State) {
    forall i :: i in s.incidents ==> IncidentOk(s.past, s.incidents[i])
  }

  ghost predicate Decisions(txns: map<Id, Txn>) {
    forall x :: x in txns && Decided(txns[x]) ==> DecisionOk(txns[x])
  }

  ghost predicate Sources(s: State) {
    Events(s) && Incidents(s) && Decisions(s.txns)
  }

  // ----- longer histories

  /** Histories go on: the creation stays and operations are only added. */
  ghost predicate PastGrows(a: map<Id, History>, b: map<Id, History>) {
    forall m :: m in a ==> m in b && b[m].created == a[m].created && a[m].ops <= b[m].ops
  }

  lemma CountedStays(a: map<Id, History>, b: map<Id, History>, m: Id, success: bool, at: Time)
    requires PastGrows(a, b) && Counted(a, m, success, at)
    ensures Counted(b, m, success, at)
  {
    var j :| 0 <= j < |a[m].ops| && a[m].ops[j] == Checked(success, false, at);
    assert b[m].ops[j] == a[m].ops[j];
  }

  lemma EventStays(a: map<Id, History>, b: map<Id, History>, e: OutboxEvent)
    requires PastGrows(a, b) && EventOk(a, e)
    ensures EventOk(b, e)
  {
    CountedStays(a, b, e.monitorId, e.eventType.IncidentResolved?, e.createdAt);
  }

  lemma IncidentStays(a: map<Id, History>, b: map<Id, History>, i: Incident)
    requires PastGrows(a, b) && IncidentOk(a, i)
    ensures IncidentOk(b, i)
  {
    CountedStays(a, b, i.monitorId, false, i.startedAt);
    if i.resolvedAt.Some? { CountedStays(a, b, i.monitorId, true, i.resolvedAt.value); }
  }

  /** Nothing is added, decisions stay and histories go on. */
  lemma FramedSources(s: State, n: State)
    requires Sources(s) && PastGrows(s.past, n.past) && DecisionsKept(s.txns, n.txns)
    requires n.outbox == s.outbox && forall i :: i in n.incidents ==> i in s.incidents && n.incidents[i] == s.incidents[i]
    ensures Sources(n)
  {
    forall k | 0 <= k < |n.outbox| ensures EventOk(n.past, n.outbox[k]) { EventStays(s.past, n.past, s.outbox[k]); }
    forall i | i in n.incidents ensures IncidentOk(n.past, n.incidents[i]) { IncidentStays(s.past, n.past, s.incidents[i]); }
  }

  // ----- steps

  lemma QuietStepSources(c: Config, s: State, l: Label)
    requires Sources(s) && Enabled(c, s, l) && !Decides(l)
    ensures Sources(Apply(c, s, l))
  {
    hide Enabled, Apply, Sources;
    RowsAndTablesFrame(c, s, l);
    DecisionsFrame(c, s, l);
    FramedSources(s, Apply(c, s, l));
  }

  lemma TableStepSources(c: Config, s: State, l: Label)
    requires Sources(s) && Enabled(c, s, l) && (l.Create? || l.Delete? || l.RetainIncidents?)
    ensures Sources(Apply(c, s, l))
  {
    hide Sources;
    FramedSources(s, Apply(c, s, l));
  }

  lemma EditSources(s: State, x: Id)
    requires Sources(s) && x in s.txns && s.txns[x].Editing?
    ensures Sources(AfterEditCommit(s, x))
  {
    hide Sources;
    FramedSources(s, AfterEditCommit(s, x));
  }

  /** Only a failure outside maintenance opens, only a success resolves, each at the check's instant. */
  lemma RunDecides(s: State, x: Id, at: Time, open: Option<Incident>, incidentId: Id, eventId: Id)
    requires x in s.txns && s.txns[x].Checking?
    ensures DecisionOk(s.txns[x].(effect := Some(EffectOf(s, s.txns[x], at, open, incidentId, eventId))))
  {
    hide InMaintenance;
  }

  lemma RunSources(s: State, x: Id, at: Time, open: Option<Incident>, incidentId: Id, eventId: Id)
    requires Sources(s) && x in s.txns && s.txns[x].Checking?
    ensures Sources(AfterCheckRun(s, x, at, open, incidentId, eventId))
  {
    RunDecides(s, x, at, open, incidentId, eventId);
    hide EffectOf, EventOk, IncidentOk, DecisionOk;
  }

  lemma CommittedCheckCounts(past: map<Id, History>, m: Id, op: Op)
    requires m in past
    ensures PastGrows(past, past[m := Extended(past[m], op)])
    ensures op.Checked? && !op.maintenance ==> Counted(past[m := Extended(past[m], op)], m, op.success, op.at)
  {
    var ops := past[m].ops + [op];
    assert ops[|ops| - 1] == op;
  }

  lemma CommitSources(s: State, x: Id)
    requires Inv(s) && IncidentInv(s) && Sources(s) && x in s.txns && Decided(s.txns[x])
    ensures Sources(AfterCheckCommit(s, x))
  {
    var txn := s.txns[x];
    var n := AfterCheckCommit(s, x);
    assert TxnOk(s, txn) && DecisionOk(txn) && ChangeOk(s, txn.monitorId, txn.read, txn.effect.value);
    if txn.monitorId in s.rows && txn.monitorId in s.past {
      CommitFits(s, x);
      ReadOrganization(s, x);
      CommittedCheckCounts(s.past, txn.monitorId, txn.effect.value.op);
      hide Inv, IncidentInv, AfterCheckCommit, TxnOk;
      CommittedTables(s, x, n);
    } else {
      hide Inv, IncidentInv, Sources;
      FramedSources(s, n);
    }
  }

  /** The row that a check read is of the organization that its monitor was created in. */
  lemma ReadOrganization(s: State, x: Id)
    requires Inv(s) && Faithful(s.rows, s.past) && x in s.txns && s.txns[x].Checking? && s.txns[x].monitorId in s.rows
    ensures var m := s.txns[x].monitorId; m in s.past && s.txns[x].read.organizationId == s.past[m].created.organizationId
  {
    var m := s.txns[x].monitorId;
    assert TxnOk(s, s.txns[x]);
    hide Inv, Replay;
    EditsAloneDecideSettings(s.past[m].created, s.past[m].ops);
  }

  lemma CommittedTables(s: State, x: Id, n: State)
    requires Sources(s) && x in s.txns && Decided(s.txns[x]) && DecisionOk(s.txns[x])
    requires var txn := s.txns[x]; var m := txn.monitorId; var effect := txn.effect.value;
      && m in s.past && txn.read.id == m && txn.read.organizationId == s.past[m].created.organizationId
      && Fits(s.incidents, s.incidentIds, s.outbox, m, txn.read, effect)
      && n.past == s.past[m := Extended(s.past[m], effect.op)] && PastGrows(s.past, n.past)
      && (effect.op.Checked? && !effect.op.maintenance ==> Counted(n.past, m, effect.op.success, effect.op.at))
      && n.outbox == s.outbox + Emitted(effect.change) && n.incidents == WithChange(s.incidents, effect.change)
      && n.txns == s.txns - {x}
    ensures Sources(n)
  {
    var txn := s.txns[x];
    var change := txn.effect.value.change;
    hide Counted, PastGrows, Unused;
    forall k | 0 <= k < |n.outbox| ensures EventOk(n.past, n.outbox[k]) {
      if k < |s.outbox| { EventStays(s.past, n.past, s.outbox[k]); } else { assert n.outbox[k] == change.event; }
    }
    forall i | i in n.incidents ensures IncidentOk(n.past, n.incidents[i]) {
      if !change.Nothing? && i == change.incident.id {
        if change.Resolves? { IncidentStays(s.past, n.past, s.incidents[i]); }
      } else {
        IncidentStays(s.past, n.past, s.incidents[i]);
      }
    }
  }

  lemma StepKeepsSources(c: Config, s: State, l: Label)
    requires Inv(s) && IncidentInv(s) && Sources(s) && Enabled(c, s, l)
    ensures Sources(Apply(c, s, l))
  {
    hide Inv, IncidentInv, Sources, AfterCheckRun, AfterCheckCommit, AfterEditCommit;
    if !Decides(l) {
      hide Enabled, Apply;
      QuietStepSources(c, s, l);
      return;
    }
    match l
    case CheckRun(x, at, open, i, e) => RunSources(s, x, at, open, i, e);
    case CheckCommit(x) => CommitSources(s, x);
    case EditCommit(x) => EditSources(s, x);
    case _ => TableStepSources(c, s, l);
  }

  lemma StepSources(c: Config, s: State, n: State)
    requires All(s) && Sources(s) && Step(c, s, n)
    ensures Sources(n)
  {
    hide Inv, ProbeInv, IncidentInv, Sources;
    var l :| Enabled(c, s, l) && n == Apply(c, s, l);
    StepKeepsSources(c, s, l);
  }

  lemma InitSources(c: Config, run: seq<State>)
    requires Run(c, run) && |run| > 0
    ensures Sources(run[0])
  {
  }

  lemma StepAt(c: Config, run: seq<State>, k: nat)
    requires Run(c, run) && k + 1 < |run|
    ensures Step(c, run[k], run[k + 1])
  {
  }

  lemma {:induction false} RunKeepsSources(c: Config, run: seq<State>, k: nat)
    requires Run(c, run) && k < |run|
    ensures Sources(run[k])
  {
    if k == 0 {
      InitSources(c, run);
    } else {
      hide Sources, All, Run, Step;
      RunKeepsSources(c, run, k - 1);
      RunHolds(c, run, k - 1);
      StepAt(c, run, k - 1);
      StepSources(c, run[k - 1], run[k]);
    }
  }

  /**
    In every run, each outbox event is unprocessed, of the organization its monitor was created in,
    and has while it exists, and of the instant of a committed check of that monitor that counted: a
    failure if the event says OPENED, a success if it says RESOLVED.
   */
  lemma EventsHaveSources(c: Config, run: seq<State>, k: nat, i: nat)
    requires Run(c, run) && k < |run| && i < |run[k].outbox|
    ensures var s := run[k]; var e := s.outbox[i];
      && e.processedAt.None? && e.monitorId in s.past
      && e.organizationId == s.past[e.monitorId].created.organizationId
      && (e.monitorId in s.rows ==> e.organizationId == s.rows[e.monitorId].monitor.organizationId)
      && exists j :: 0 <= j < |s.past[e.monitorId].ops|
           && s.past[e.monitorId].ops[j] == Checked(e.eventType.IncidentResolved?, false, e.createdAt)
  {
    RunKeepsSources(c, run, k);
    var s := run[k];
    var e := s.outbox[i];
    assert EventOk(s.past, e);
    if e.monitorId in s.rows {
      NoLostUpdate(c, run, k, e.monitorId);
      hide Run, Replay;
      EditsAloneDecideSettings(s.past[e.monitorId].created, s.past[e.monitorId].ops);
    }
  }

  /** Each incident starts with a committed failure of its monitor and, if it is resolved, ends with a success. */
  lemma IncidentsHaveSources(c: Config, run: seq<State>, k: nat, i: Id)
    requires Run(c, run) && k < |run| && i in run[k].incidents
    ensures var s := run[k]; var incident := s.incidents[i];
      && incident.monitorId in s.past && Checked(false, false, incident.startedAt) in s.past[incident.monitorId].ops
      && (incident.status.Resolved? ==>
            incident.resolvedAt.Some? && Checked(true, false, incident.resolvedAt.value) in s.past[incident.monitorId].ops)
      && (incident.status.Open? ==> incident.resolvedAt.None?)
  {
    RunKeepsSources(c, run, k);
    assert IncidentOk(run[k].past, run[k].incidents[i]);
  }
}
