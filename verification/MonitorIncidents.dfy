/**
  What every step of the monitor protocol keeps about history and incidents: the row is the
  replay of the committed operations, a monitor is DOWN exactly while it has one open
  incident, and its outbox events pair up.
 */
module MonitorIncidents {
  import opened Prelude
  import opened MonitorState
  import opened CheckRecording
  import opened MonitorProtocol
  import opened MonitorLeases

  predicate Healthy(m: Monitor) {
    && m.status.Pending? && m.consecutiveFailures == 0 && m.consecutiveSuccesses == 0
    && m.failureThreshold >= 1 && m.recoveryThreshold >= 1
  }

  /** No lost update: the row is what the committed operations make of it, in commit order. */
  ghost predicate Faithful(rows: map<Id, Row>, past: map<Id, History>) {
    && (forall m :: m in past ==> Healthy(past[m].created) && past[m].created.id == m)
    && (forall m :: m in rows ==> m in past && rows[m].monitor == Replay(past[m].created, past[m].ops))
  }

  /** The outbox events of one monitor, in the order they were committed. */
  function EventsOf(outbox: seq<OutboxEvent>, m: Id): seq<OutboxEvent> {
    if outbox == [] then []
    else
      var last := outbox[|outbox| - 1];
      EventsOf(outbox[..|outbox| - 1], m) + if last.monitorId == m then [last] else []
  }

  /** OPENED, RESOLVED, OPENED, ... where each RESOLVED names the incident opened before it. */
  ghost predicate Alternates(events: seq<OutboxEvent>) {
    && (forall k :: 0 <= k < |events| ==> (events[k].eventType.IncidentOpened? <==> k % 2 == 0))
    && (forall k :: 0 <= k < |events| && k % 2 == 1 ==> events[k].incidentId == events[k - 1].incidentId)
    && (forall j, k :: 0 <= j < k < |events| && events[k].eventType.IncidentOpened? ==> events[j].incidentId != events[k].incidentId)
  }

  ghost predicate HasOpen(incidents: map<Id, Incident>, m: Id) {
    exists i :: i in incidents && IsOpenFor(incidents[i], m)
  }

  ghost predicate Known(s: State) {
    && (forall i :: i in s.incidents ==>
          s.incidents[i].id == i && i in s.incidentIds && s.incidents[i].monitorId in s.rows)
    && (forall k :: 0 <= k < |s.outbox| ==> s.outbox[k].incidentId in s.incidentIds && s.outbox[k].monitorId in s.past)
  }

  ghost predicate OneOpen(incidents: map<Id, Incident>) {
    forall i, j ::
      (i in incidents && j in incidents && incidents[i].status.Open? && incidents[j].status.Open?
       && incidents[i].monitorId == incidents[j].monitorId)
      ==> i == j
  }

  ghost predicate Told(outbox: seq<OutboxEvent>) {
    forall m: Id :: Alternates(EventsOf(outbox, m))
  }

  /** The status, the open incident and the last event say the same. */
  ghost predicate Agrees(monitor: Monitor, incidents: map<Id, Incident>, events: seq<OutboxEvent>) {
    if monitor.status.Down? then
      && |events| % 2 == 1
      && var i := events[|events| - 1].incidentId; i in incidents && IsOpenFor(incidents[i], monitor.id)
    else
      |events| % 2 == 0 && !HasOpen(incidents, monitor.id)
  }

  ghost predicate Agreed(s: State) {
    forall m :: m in s.rows ==> Agrees(s.rows[m].monitor, s.incidents, EventsOf(s.outbox, m))
  }

  ghost predicate Unused(incidents: map<Id, Incident>, outbox: seq<OutboxEvent>, i: Id) {
    i !in incidents && forall k :: 0 <= k < |outbox| ==> outbox[k].incidentId != i
  }

  /** What a check has decided to write fits the tables. */
  ghost predicate Fits(incidents: map<Id, Incident>, ids: set<Id>, outbox: seq<OutboxEvent>, m: Id, read: Monitor, effect: Effect) {
    match effect.change
    case Nothing => effect.write.status.Down? == read.status.Down?
    case Opens(i, e) =>
      && !read.status.Down? && effect.write.status.Down?
      && i == Incident(i.id, m, Open, effect.at, None) && i.id in ids && Unused(incidents, outbox, i.id)
      && e == OutboxEvent(e.id, e.organizationId, IncidentOpened, m, i.id, effect.at, None)
    case Resolves(i, e) =>
      && read.status.Down? && !effect.write.status.Down?
      && i.id in incidents && IsOpenFor(incidents[i.id], m)
      && i == incidents[i.id].(status := Resolved, resolvedAt := Some(effect.at))
      && e == OutboxEvent(e.id, e.organizationId, IncidentResolved, m, i.id, effect.at, None)
  }

  /** It keeps fitting until it is committed: its monitor is locked, so nothing about it moves. */
  ghost predicate ChangeOk(s: State, m: Id, read: Monitor, effect: Effect) {
    Fits(s.incidents, s.incidentIds, s.outbox, m, read, effect)
  }

  predicate Decided(x: Txn) {
    x.Checking? && x.effect.Some?
  }

  predicate Opening(x: Txn) {
    Decided(x) && x.effect.value.change.Opens?
  }

  ghost predicate Changes(s: State) {
    && (forall x :: x in s.txns && Decided(s.txns[x]) ==>
          ChangeOk(s, s.txns[x].monitorId, s.txns[x].read, s.txns[x].effect.value))
    && (forall x, y :: x in s.txns && y in s.txns && x != y && Opening(s.txns[x]) && Opening(s.txns[y]) ==>
          s.txns[x].effect.value.change.incident.id != s.txns[y].effect.value.change.incident.id)
  }

  ghost predicate IncidentInv(s: State) {
    && Faithful(s.rows, s.past) && Known(s) && OneOpen(s.incidents) && Told(s.outbox) && Agreed(s) && Changes(s)
  }

  // ----- what most steps leave alone

  predicate MonitorsKept(a: map<Id, Row>, b: map<Id, Row>) {
    a.Keys == b.Keys && forall m :: m in a ==> b[m].monitor == a[m].monitor
  }

  predicate DecisionsKept(a: map<Id, Txn>, b: map<Id, Txn>) {
    forall y :: y in b && Decided(b[y]) ==> y in a && a[y] == b[y]
  }

  predicate Decides(l: Label) {
    l.Create? || l.Delete? || l.RetainIncidents? || l.CheckRun? || l.CheckCommit? || l.EditCommit?
  }

  lemma RowsAndTablesFrame(c: Config, s: State, l: Label)
    requires Enabled(c, s, l) && !Decides(l)
    ensures var n := Apply(c, s, l);
      && MonitorsKept(s.rows, n.rows)
      && n.incidents == s.incidents && n.outbox == s.outbox && n.past == s.past && n.incidentIds == s.incidentIds
  {
  }

  lemma DecisionsFrame(c: Config, s: State, l: Label)
    requires Enabled(c, s, l) && !Decides(l)
    ensures DecisionsKept(s.txns, Apply(c, s, l).txns)
  {
    hide Enabled, Apply;
    if OfCheck(l) { CheckDecisions(c, s, l); } else { OtherDecisions(c, s, l); }
  }

  lemma UndecidedAdded(txns: map<Id, Txn>, x: Id, txn: Txn)
    requires !Decided(txn)
    ensures DecisionsKept(txns, txns[x := txn])
  {
  }

  lemma CheckDecisions(c: Config, s: State, l: Label)
    requires Enabled(c, s, l) && !Decides(l) && OfCheck(l)
    ensures DecisionsKept(s.txns, Apply(c, s, l).txns)
  {
    hide HoldsLease, Locked, DecisionsKept, AfterCheckVerify;
    match l
    case CheckLock(x, _, _) => UndecidedAdded(s.txns, x, Apply(c, s, l).txns[x]);
    case LeasedCheckLock(x, _) => UndecidedAdded(s.txns, x, Apply(c, s, l).txns[x]);
    case CheckVerify(x) => VerifiedDecisions(s, x);
    case CheckCreate(x) => UndecidedAdded(s.txns, x, s.txns[x].(createdAt := Some(s.now)));
    case EditLock(x, _, _) => UndecidedAdded(s.txns, x, Apply(c, s, l).txns[x]);
  }

  lemma VerifiedDecisions(s: State, x: Id)
    requires x in s.txns && s.txns[x].Checking? && s.txns[x].token.Some? && s.txns[x].effect.None?
    ensures DecisionsKept(s.txns, AfterCheckVerify(s, x).txns)
  {
    hide HoldsLease;
  }

  lemma OtherDecisions(c: Config, s: State, l: Label)
    requires Enabled(c, s, l) && !Decides(l) && !OfCheck(l)
    ensures DecisionsKept(s.txns, Apply(c, s, l).txns)
  {
    hide Stamp, NewProbes, NewLogs, Stopped, Drop, Released, Locked, LockedRows, Inverse;
  }

  /** If monitors, tables and decided effects stay, so does everything. */
  lemma FramedKeeps(s: State, n: State)
    requires IncidentInv(s)
    requires MonitorsKept(s.rows, n.rows) && DecisionsKept(s.txns, n.txns)
    requires n.incidents == s.incidents && n.outbox == s.outbox && n.past == s.past && s.incidentIds <= n.incidentIds
    ensures IncidentInv(n)
  {
    assert forall m :: m in n.rows.Keys <==> m in s.rows.Keys;
    SameTablesKeepChanges(s, n);
    hide Changes, OneOpen, Told, Agrees;
  }

  // ----- events of one monitor

  lemma EventsOfAppended(outbox: seq<OutboxEvent>, e: OutboxEvent, m: Id)
    ensures EventsOf(outbox + [e], m) == EventsOf(outbox, m) + if e.monitorId == m then [e] else []
  {
    assert (outbox + [e])[..|outbox|] == outbox;
  }

  lemma {:induction false} EventsAreOutboxEvents(outbox: seq<OutboxEvent>, m: Id, k: nat)
    requires k < |EventsOf(outbox, m)|
    ensures EventsOf(outbox, m)[k] in outbox && EventsOf(outbox, m)[k].monitorId == m
  {
    var init := outbox[..|outbox| - 1];
    if k < |EventsOf(init, m)| {
      EventsAreOutboxEvents(init, m, k);
    }
  }

  lemma {:induction false} NoEvents(outbox: seq<OutboxEvent>, m: Id)
    requires forall k :: 0 <= k < |outbox| ==> outbox[k].monitorId != m
    ensures EventsOf(outbox, m) == []
  {
    if outbox != [] { NoEvents(outbox[..|outbox| - 1], m); }
  }

  lemma EmittedKeepsAlternation(outbox: seq<OutboxEvent>, e: OutboxEvent)
    requires Told(outbox)
    requires var before := EventsOf(outbox, e.monitorId);
      if e.eventType.IncidentOpened?
      then |before| % 2 == 0 && forall k :: 0 <= k < |outbox| ==> outbox[k].incidentId != e.incidentId
      else |before| % 2 == 1 && before[|before| - 1].incidentId == e.incidentId
    ensures Told(outbox + [e])
  {
    var before := EventsOf(outbox, e.monitorId);
    forall k | 0 <= k < |before| && e.eventType.IncidentOpened? ensures before[k].incidentId != e.incidentId {
      EventsAreOutboxEvents(outbox, e.monitorId, k);
    }
    hide EventsOf, Alternates;
    forall m: Id ensures Alternates(EventsOf(outbox + [e], m)) {
      EventsOfAppended(outbox, e, m);
      assert Alternates(EventsOf(outbox, m));
      if m == e.monitorId { AlternatesAppended(before, e); }
    }
  }

  lemma AlternatesAppended(events: seq<OutboxEvent>, e: OutboxEvent)
    requires Alternates(events)
    requires if e.eventType.IncidentOpened?
      then |events| % 2 == 0 && forall k :: 0 <= k < |events| ==> events[k].incidentId != e.incidentId
      else |events| % 2 == 1 && events[|events| - 1].incidentId == e.incidentId
    ensures Alternates(events + [e])
  {
  }

  // ----- steps on rows

  lemma CreateKeepsIncidents(s: State, m: Id, monitor: Monitor)
    requires Inv(s) && IncidentInv(s) && m !in s.past && monitor.id == m && Healthy(monitor)
    ensures IncidentInv(s.(rows := s.rows[m := Row(monitor, None, None)], past := s.past[m := History(monitor, [])]))
  {
    var n := s.(rows := s.rows[m := Row(monitor, None, None)], past := s.past[m := History(monitor, [])]);
    assert m !in s.rows.Keys by { assert s.rows.Keys <= s.past.Keys; }
    hide Inv;
    CreateKeepsFaithful(s.rows, s.past, m, monitor);
    NewMonitorAgrees(s, m, monitor);
    hide Faithful, OneOpen, Told, Agrees;
    SameTablesKeepChanges(s, n);
  }

  lemma CreateKeepsFaithful(rows: map<Id, Row>, past: map<Id, History>, m: Id, monitor: Monitor)
    requires Faithful(rows, past) && m !in past && monitor.id == m && Healthy(monitor)
    ensures Faithful(rows[m := Row(monitor, None, None)], past[m := History(monitor, [])])
  {
  }

  lemma NewMonitorAgrees(s: State, m: Id, monitor: Monitor)
    requires Known(s) && m !in s.past && m !in s.rows && monitor.id == m && Healthy(monitor)
    ensures Agrees(monitor, s.incidents, EventsOf(s.outbox, m))
  {
    NoEvents(s.outbox, m);
  }

  /** Decided effects depend on incidents, outbox and ids only. */
  lemma SameTablesKeepChanges(s: State, n: State)
    requires Changes(s) && DecisionsKept(s.txns, n.txns)
    requires n.incidents == s.incidents && n.outbox == s.outbox && s.incidentIds <= n.incidentIds
    ensures Changes(n)
  {
    forall x | x in n.txns && Decided(n.txns[x])
      ensures ChangeOk(n, n.txns[x].monitorId, n.txns[x].read, n.txns[x].effect.value)
    {
      assert ChangeOk(s, s.txns[x].monitorId, s.txns[x].read, s.txns[x].effect.value);
    }
  }

  lemma FewerIncidentsKeep(s: State, n: State)
    requires Inv(s) && IncidentInv(s)
    requires n == s.(rows := n.rows, incidents := n.incidents, windows := n.windows)
    requires forall m :: m in n.rows ==> m in s.rows && n.rows[m] == s.rows[m]
    requires forall i :: i in n.incidents ==> i in s.incidents && n.incidents[i] == s.incidents[i] && n.incidents[i].monitorId in n.rows
    requires forall i :: i in s.incidents && s.incidents[i].status.Open? && s.incidents[i].monitorId in n.rows ==> i in n.incidents
    requires forall m :: m in s.rows && m !in n.rows ==> !Locked(s, m)
    ensures IncidentInv(n)
  {
    forall x | x in n.txns && Decided(n.txns[x])
      ensures ChangeOk(n, n.txns[x].monitorId, n.txns[x].read, n.txns[x].effect.value)
    {
      assert ChangeOk(s, s.txns[x].monitorId, s.txns[x].read, s.txns[x].effect.value);
      assert s.txns[x].monitorId in Held(s.txns[x]) && Held(s.txns[x]) <= s.rows.Keys;
    }
    forall m | m in n.rows ensures Agrees(n.rows[m].monitor, n.incidents, EventsOf(n.outbox, m)) {
      assert Agrees(s.rows[m].monitor, s.incidents, EventsOf(s.outbox, m)) && RowOk(s.tokens, m, s.rows[m]);
    }
  }

  lemma ReplayAppended(h: History, op: Op)
    ensures Replay(h.created, Extended(h, op).ops) == Perform(Replay(h.created, h.ops), op)
  {
    assert (h.ops + [op])[..|h.ops|] == h.ops;
  }

  lemma EditCommitKeepsIncidents(s: State, x: Id)
    requires Inv(s) && IncidentInv(s) && x in s.txns && s.txns[x].Editing?
    ensures IncidentInv(AfterEditCommit(s, x))
  {
    var n := AfterEditCommit(s, x);
    SameTablesKeepChanges(s, n);
    EditKeepsFaithful(s, x);
    EditKeepsTables(s, x);
    hide Inv, Faithful, Known, Agreed, Changes, OneOpen, Told, AfterEditCommit;
  }

  lemma EditKeepsFaithful(s: State, x: Id)
    requires Inv(s) && Faithful(s.rows, s.past) && x in s.txns && s.txns[x].Editing?
    ensures Faithful(AfterEditCommit(s, x).rows, AfterEditCommit(s, x).past)
  {
    var txn := s.txns[x];
    assert TxnOk(s, txn);
    hide Inv;
    if txn.monitorId in s.rows && txn.monitorId in s.past {
      ReplayAppended(s.past[txn.monitorId], Changed(txn.edit));
      hide Replay;
    }
  }

  /** An edit changes neither the status nor the keys of the tables. */
  lemma EditKeepsTables(s: State, x: Id)
    requires Inv(s) && Known(s) && Agreed(s) && x in s.txns && s.txns[x].Editing?
    ensures Known(AfterEditCommit(s, x)) && Agreed(AfterEditCommit(s, x))
  {
    var n := AfterEditCommit(s, x);
    assert TxnOk(s, s.txns[x]);
    hide Inv;
    assert n.rows.Keys == s.rows.Keys && n.past.Keys == s.past.Keys;
    forall m | m in n.rows ensures Agrees(n.rows[m].monitor, n.incidents, EventsOf(n.outbox, m)) {
      assert m in s.rows.Keys;
      assert Agrees(s.rows[m].monitor, s.incidents, EventsOf(s.outbox, m));
    }
  }

  // ----- checks

  /** A result that counts moves a monitor out of DOWN only to UP. */
  lemma RecordedStatus(m: Monitor, success: bool, maintenance: bool, at: Time)
    ensures m.status.Down? ==> Recorded(m, success, maintenance, at).status in {Down, Up}
    ensures maintenance ==> Recorded(m, success, maintenance, at).status == m.status
  {
  }

  /** A monitor that recovers always has the open incident that its recovery resolves. */
  lemma OpenIncidentIsFound(s: State, x: Id, open: Option<Incident>)
    requires Inv(s) && IncidentInv(s) && x in s.txns && s.txns[x].Checking? && s.txns[x].read.status.Down?
    requires OpenAnswer(s.incidents, s.txns[x].monitorId, open)
    ensures open.Some?
  {
    var m := s.txns[x].monitorId;
    assert TxnOk(s, s.txns[x]) && m in Held(s.txns[x]) && Held(s.txns[x]) <= s.rows.Keys;
    assert Agrees(s.rows[m].monitor, s.incidents, EventsOf(s.outbox, m)) && RowOk(s.tokens, m, s.rows[m]);
  }

  lemma EffectIsOk(s: State, x: Id, at: Time, open: Option<Incident>, incidentId: Id, eventId: Id)
    requires Inv(s) && IncidentInv(s) && x in s.txns && s.txns[x].Checking?
    requires OpenAnswer(s.incidents, s.txns[x].monitorId, open) && incidentId !in s.incidentIds
    ensures ChangeOk(s.(incidentIds := s.incidentIds + {incidentId}), s.txns[x].monitorId, s.txns[x].read,
                     EffectOf(s, s.txns[x], at, open, incidentId, eventId))
    ensures var change := EffectOf(s, s.txns[x], at, open, incidentId, eventId).change;
      change.Opens? ==> change.incident.id == incidentId
  {
    var txn := s.txns[x];
    var m := txn.monitorId;
    var maintenance := InMaintenance(s.windows, m, at);
    RecordedStatus(txn.read, txn.success, maintenance, at);
    assert TxnOk(s, txn) && m in Held(txn) && Held(txn) <= s.rows.Keys;
    assert RowOk(s.tokens, m, s.rows[m]) && txn.read.id == m;
    if txn.read.status.Down? { OpenIncidentIsFound(s, x, open); }
  }

  lemma CheckRunKeepsIncidents(s: State, x: Id, at: Time, open: Option<Incident>, incidentId: Id, eventId: Id)
    requires Inv(s) && IncidentInv(s) && x in s.txns && s.txns[x].Checking?
    requires OpenAnswer(s.incidents, s.txns[x].monitorId, open) && incidentId !in s.incidentIds
    ensures IncidentInv(AfterCheckRun(s, x, at, open, incidentId, eventId))
  {
    var n := AfterCheckRun(s, x, at, open, incidentId, eventId);
    EffectIsOk(s, x, at, open, incidentId, eventId);
    var effect := EffectOf(s, s.txns[x], at, open, incidentId, eventId);
    assert n.txns == s.txns[x := s.txns[x].(effect := Some(effect))];
    forall y | y in n.txns && Decided(n.txns[y])
      ensures ChangeOk(n, n.txns[y].monitorId, n.txns[y].read, n.txns[y].effect.value)
    {
      if y != x { assert ChangeOk(s, s.txns[y].monitorId, s.txns[y].read, s.txns[y].effect.value); }
      else { assert n.txns[y].effect.value == effect; }
    }
    forall y | y in n.txns && y != x && Opening(n.txns[y])
      ensures n.txns[y].effect.value.change.incident.id in s.incidentIds
    {
      assert ChangeOk(s, s.txns[y].monitorId, s.txns[y].read, s.txns[y].effect.value);
    }
  }

  lemma {:induction false} SameEvents(outbox: seq<OutboxEvent>, change: Change, m: Id)
    ensures EventsOf(outbox + Emitted(change), m) ==
      if !change.Nothing? && change.event.monitorId == m then EventsOf(outbox, m) + [change.event] else EventsOf(outbox, m)
  {
    if change.Nothing? { assert outbox + Emitted(change) == outbox; }
    else { EventsOfAppended(outbox, change.event, m); }
  }

  lemma FitKeepsTables(incidents: map<Id, Incident>, ids: set<Id>, outbox: seq<OutboxEvent>, read: Monitor, effect: Effect)
    requires Fits(incidents, ids, outbox, read.id, read, effect) && Agrees(read, incidents, EventsOf(outbox, read.id))
    requires OneOpen(incidents) && Told(outbox) && forall i :: i in incidents ==> incidents[i].id == i
    ensures OneOpen(WithChange(incidents, effect.change)) && Told(outbox + Emitted(effect.change))
  {
    if effect.change.Nothing? {
      assert outbox + Emitted(effect.change) == outbox;
    } else {
      EmittedKeepsAlternation(outbox, effect.change.event);
    }
  }

  /** After the change, the monitor agrees with its own incidents and events. */
  lemma FitAgrees(incidents: map<Id, Incident>, ids: set<Id>, outbox: seq<OutboxEvent>, read: Monitor, effect: Effect)
    requires Fits(incidents, ids, outbox, read.id, read, effect) && Agrees(read, incidents, EventsOf(outbox, read.id))
    requires OneOpen(incidents) && effect.write.id == read.id
    ensures Agrees(effect.write, WithChange(incidents, effect.change), EventsOf(outbox + Emitted(effect.change), read.id))
  {
    SameEvents(outbox, effect.change, read.id);
    var before := EventsOf(outbox, read.id);
    hide EventsOf, OneOpen, Unused;
    match effect.change
    case Nothing =>
    case Opens(i, e) => assert (before + [e])[|before|] == e;
    case Resolves(i, e) => NoneOpenAfter(incidents, read.id, i);
  }

  lemma NoneOpenAfter(incidents: map<Id, Incident>, m: Id, resolved: Incident)
    requires OneOpen(incidents) && resolved.id in incidents && IsOpenFor(incidents[resolved.id], m) && resolved.status.Resolved?
    ensures !HasOpen(incidents[resolved.id := resolved], m)
  {
    forall i | i in incidents && i != resolved.id ensures !IsOpenFor(incidents[i], m) {
      assert !incidents[i].status.Open? || incidents[i].monitorId != m;
    }
  }

  /** And every other monitor agrees with its own as before. */
  lemma FitLeavesOthers(incidents: map<Id, Incident>, ids: set<Id>, outbox: seq<OutboxEvent>, read: Monitor, effect: Effect, other: Monitor)
    requires Fits(incidents, ids, outbox, read.id, read, effect) && other.id != read.id
    requires Agrees(other, incidents, EventsOf(outbox, other.id))
    ensures Agrees(other, WithChange(incidents, effect.change), EventsOf(outbox + Emitted(effect.change), other.id))
  {
    SameEvents(outbox, effect.change, other.id);
  }

  lemma CommitFits(s: State, x: Id)
    requires Inv(s) && IncidentInv(s) && x in s.txns && Decided(s.txns[x]) && s.txns[x].monitorId in s.rows
    ensures var txn := s.txns[x]; var m := txn.monitorId;
      && txn.read == s.rows[m].monitor && txn.read.id == m && txn.effect.value.write.id == m
      && Fits(s.incidents, s.incidentIds, s.outbox, m, txn.read, txn.effect.value)
      && Agrees(txn.read, s.incidents, EventsOf(s.outbox, m))
  {
    var txn := s.txns[x];
    assert TxnOk(s, txn) && ChangeOk(s, txn.monitorId, txn.read, txn.effect.value);
    assert RowOk(s.tokens, txn.monitorId, s.rows[txn.monitorId]);
  }

  lemma CommitAgrees(s: State, x: Id)
    requires Inv(s) && IncidentInv(s) && x in s.txns && Decided(s.txns[x])
    requires s.txns[x].monitorId in s.rows && s.txns[x].monitorId in s.past
    ensures var n := AfterCheckCommit(s, x); Known(n) && OneOpen(n.incidents) && Told(n.outbox)
  {
    hide Inv;
    CommitFits(s, x);
    FitKeepsTables(s.incidents, s.incidentIds, s.outbox, s.txns[x].read, s.txns[x].effect.value);
    hide OneOpen, Told, Agrees, Changes, Faithful;
  }

  lemma CommitAgreed(s: State, x: Id, k: Id)
    requires Inv(s) && IncidentInv(s) && x in s.txns && Decided(s.txns[x])
    requires s.txns[x].monitorId in s.rows && s.txns[x].monitorId in s.past && k in s.rows
    ensures var n := AfterCheckCommit(s, x); Agrees(n.rows[k].monitor, n.incidents, EventsOf(n.outbox, k))
  {
    var txn := s.txns[x];
    assert RowOk(s.tokens, k, s.rows[k]) && Agrees(s.rows[k].monitor, s.incidents, EventsOf(s.outbox, k));
    hide Inv, Fits, Agrees, OneOpen, Told, Changes, Faithful, Known, EventsOf, WithChange, Emitted;
    CommitFits(s, x);
    if k == txn.monitorId {
      FitAgrees(s.incidents, s.incidentIds, s.outbox, txn.read, txn.effect.value);
    } else {
      FitLeavesOthers(s.incidents, s.incidentIds, s.outbox, txn.read, txn.effect.value, s.rows[k].monitor);
    }
  }

  lemma CommitKeepsChanges(s: State, x: Id)
    requires Inv(s) && IncidentInv(s) && x in s.txns && Decided(s.txns[x])
    requires s.txns[x].monitorId in s.rows && s.txns[x].monitorId in s.past
    ensures Changes(AfterCheckCommit(s, x))
  {
    var txn := s.txns[x];
    var n := AfterCheckCommit(s, x);
    assert ChangeOk(s, txn.monitorId, txn.read, txn.effect.value);
    forall y | y in n.txns && Decided(n.txns[y])
      ensures ChangeOk(n, n.txns[y].monitorId, n.txns[y].read, n.txns[y].effect.value)
    {
      assert ChangeOk(s, s.txns[y].monitorId, s.txns[y].read, s.txns[y].effect.value);
      assert s.txns[y].monitorId in Held(s.txns[y]) && txn.monitorId in Held(txn);
    }
  }

  lemma CheckCommitKeepsIncidents(s: State, x: Id)
    requires Inv(s) && IncidentInv(s) && x in s.txns && Decided(s.txns[x])
    ensures IncidentInv(AfterCheckCommit(s, x))
  {
    var m := s.txns[x].monitorId;
    var n := AfterCheckCommit(s, x);
    hide Inv, Faithful, Known, OneOpen, Told, Changes, Agrees;
    if m in s.rows && m in s.past {
      CommitKeepsFaithful(s, x);
      CommitKeepsKeys(s, x);
      hide AfterCheckCommit, IncidentInv;
      CommitAgrees(s, x);
      CommitKeepsChanges(s, x);
      forall k | k in n.rows ensures Agrees(n.rows[k].monitor, n.incidents, EventsOf(n.outbox, k)) {
        assert k in s.rows.Keys;
        CommitAgreed(s, x, k);
      }
      AllKept(n);
    } else {
      FramedKeeps(s, n);
    }
  }

  lemma AllKept(n: State)
    requires Faithful(n.rows, n.past) && Known(n) && OneOpen(n.incidents) && Told(n.outbox) && Agreed(n) && Changes(n)
    ensures IncidentInv(n)
  {
  }

  lemma CommitKeepsKeys(s: State, x: Id)
    requires x in s.txns && Decided(s.txns[x])
    ensures s.txns[x].monitorId in s.rows ==> AfterCheckCommit(s, x).rows.Keys == s.rows.Keys
  {
  }

  lemma CommitKeepsFaithful(s: State, x: Id)
    requires Inv(s) && Faithful(s.rows, s.past) && x in s.txns && Decided(s.txns[x])
    requires s.txns[x].monitorId in s.rows && s.txns[x].monitorId in s.past
    ensures Faithful(AfterCheckCommit(s, x).rows, AfterCheckCommit(s, x).past)
  {
    var txn := s.txns[x];
    assert TxnOk(s, txn);
    hide Inv, Recorded, WithChange, Emitted;
    ReplayAppended(s.past[txn.monitorId], txn.effect.value.op);
    hide Replay;
  }

  lemma DeletedKeepsIncidents(c: Config, s: State, m: Id)
    requires Inv(s) && IncidentInv(s) && Enabled(c, s, Delete(m))
    ensures IncidentInv(Apply(c, s, Delete(m)))
  {
    FewerIncidentsKeep(s, Apply(c, s, Delete(m)));
  }

  lemma RetainedKeepsIncidents(s: State, gone: set<Id>)
    requires Inv(s) && IncidentInv(s) && forall i :: i in gone ==> i in s.incidents && s.incidents[i].status.Resolved?
    ensures IncidentInv(s.(incidents := s.incidents - gone))
  {
    FewerIncidentsKeep(s, s.(incidents := s.incidents - gone));
  }

  lemma FramedStepKeeps(c: Config, s: State, l: Label)
    requires Inv(s) && IncidentInv(s) && Enabled(c, s, l) && !Decides(l)
    ensures IncidentInv(Apply(c, s, l))
  {
    hide Inv, IncidentInv, Enabled, Apply;
    RowsAndTablesFrame(c, s, l);
    DecisionsFrame(c, s, l);
    FramedKeeps(s, Apply(c, s, l));
  }

  lemma DecisionStepKeeps(c: Config, s: State, l: Label)
    requires Inv(s) && IncidentInv(s) && Enabled(c, s, l) && (l.CheckRun? || l.CheckCommit? || l.EditCommit?)
    ensures IncidentInv(Apply(c, s, l))
  {
    hide Inv, IncidentInv;
    match l
    case CheckRun(x, at, open, incidentId, eventId) => CheckRunKeepsIncidents(s, x, at, open, incidentId, eventId);
    case CheckCommit(x) => CheckCommitKeepsIncidents(s, x);
    case EditCommit(x) => EditCommitKeepsIncidents(s, x);
  }

  lemma TableStepKeeps(c: Config, s: State, l: Label)
    requires Inv(s) && IncidentInv(s) && Enabled(c, s, l) && (l.Create? || l.Delete? || l.RetainIncidents?)
    ensures IncidentInv(Apply(c, s, l))
  {
    hide Inv, IncidentInv;
    match l
    case Create(m, monitor) => CreateKeepsIncidents(s, m, monitor);
    case Delete(m) => DeletedKeepsIncidents(c, s, m);
    case RetainIncidents(gone) => RetainedKeepsIncidents(s, gone);
  }

  lemma StepKeepsIncidents(c: Config, s: State, l: Label)
    requires Inv(s) && IncidentInv(s) && Enabled(c, s, l)
    ensures IncidentInv(Apply(c, s, l))
  {
    hide Inv, IncidentInv, Enabled, Apply;
    if l.CheckRun? || l.CheckCommit? || l.EditCommit? { DecisionStepKeeps(c, s, l); }
    else if Decides(l) { TableStepKeeps(c, s, l); }
    else { FramedStepKeeps(c, s, l); }
  }
}
