/**
  The check service over the in-memory repositories: one call of `record` writes the check,
  the monitor, the incident, the outbox event and the released lease, in that order.
 */
module CheckService {
  import opened Prelude
  import opened Identifiers
  import opened Selection
  import opened MonitorState
  import opened CheckRecording
  import opened MonitorRepository
  import opened Fanout
  import P = MonitorProtocol

  datatype Check = Check(id: nat, monitorId: Id, success: bool, checkedAt: Time)

  class InMemoryChecks {
    var checks: seq<Check>

    constructor ()
      ensures checks == []
    {
      checks := [];
    }

    method Create(monitorId: Id, success: bool, now: Time) returns (check: Check)
      modifies this
      ensures check == Check(|old(checks)| + 1, monitorId, success, now) && checks == old(checks) + [check]
    {
      check := Check(|checks| + 1, monitorId, success, now);
      checks := checks + [check];
    }
  }

  class InMemoryIncidents {
    var incidents: map<Id, Incident>

    predicate Valid()
      reads this
    {
      forall i :: i in incidents ==> incidents[i].id == i
    }

    constructor ()
      ensures Valid() && incidents == map[]
    {
      incidents := map[];
    }

    method Create(incident: Incident)
      requires Valid()
      modifies this
      ensures Valid() && incidents == old(incidents)[incident.id := incident]
    {
      incidents := incidents[incident.id := incident];
    }

    method GetOpenByMonitorId(monitorId: Id) returns (open: Option<Incident>)
      requires Valid()
      ensures OpenAnswer(incidents, monitorId, open)
    {
      var order := Listed(incidents.Keys);
      var k := 0;
      while k < |order|
        invariant 0 <= k <= |order|
        invariant forall j :: 0 <= j < |order| ==> order[j] in incidents
        invariant forall j :: 0 <= j < k ==> !IsOpenFor(incidents[order[j]], monitorId)
      {
        var incident := incidents[order[k]];
        assert incidents[order[k]].id == order[k];
        if IsOpenFor(incident, monitorId) { return Some(incident); }
        k := k + 1;
      }
      assert forall i :: i in incidents ==> i in Elements(order);
      open := None;
    }

    method Update(incident: Incident) returns (updated: bool)
      requires Valid()
      modifies this
      ensures Valid() && (updated <==> incident.id in old(incidents))
      ensures incidents == if updated then old(incidents)[incident.id := incident] else old(incidents)
    {
      updated := incident.id in incidents;
      if updated { incidents := incidents[incident.id := incident]; }
    }
  }

  class InMemoryWindows {
    var windows: map<Id, Window>

    constructor ()
      ensures windows == map[]
    {
      windows := map[];
    }

    method Create(id: Id, window: Window)
      modifies this
      ensures windows == old(windows)[id := window]
    {
      windows := windows[id := window];
    }

    method Delete(id: Id) returns (deleted: bool)
      modifies this
      ensures deleted <==> id in old(windows)
      ensures windows == old(windows) - {id}
    {
      deleted := id in windows;
      windows := windows - {id};
    }

    /** The active window that starts last, if the monitor has one. */
    method GetActive(monitorId: Id, now: Time) returns (active: Option<Window>)
      ensures active.Some? <==> InMaintenance(windows, monitorId, now)
      ensures active.None? ==> forall w :: w in windows && windows[w].monitorId == monitorId ==>
        now < windows[w].startsAt || windows[w].endsAt <= now
      ensures active.Some? ==>
        && active.value.monitorId == monitorId && active.value.startsAt <= now < active.value.endsAt
        && forall w :: w in windows && windows[w].monitorId == monitorId && windows[w].IsActive(now)
             ==> windows[w].startsAt <= active.value.startsAt
    {
      active := None;
      var order := Listed(windows.Keys);
      var k := 0;
      while k < |order|
        invariant 0 <= k <= |order| && forall j :: 0 <= j < |order| ==> order[j] in windows
        invariant active.None? ==> forall j :: 0 <= j < k ==> !Covers(windows[order[j]], monitorId, now)
        invariant active.Some? ==> Covers(active.value, monitorId, now) && InMaintenance(windows, monitorId, now)
        invariant active.Some? ==> forall j :: 0 <= j < k ==> !StartsAfter(windows[order[j]], monitorId, now, active.value.startsAt)
      {
        var window := windows[order[k]];
        CoversMeans(windows, order[k], monitorId, now);
        if Covers(window, monitorId, now) && (active.None? || active.value.startsAt < window.startsAt) {
          active := Some(window);
        }
        k := k + 1;
      }
      forall w | w in windows && windows[w].monitorId == monitorId && windows[w].IsActive(now)
        ensures active.Some? && windows[w].startsAt <= active.value.startsAt
      {
        assert w in Elements(order);
        var j :| 0 <= j < |order| && order[j] == w;
        assert Covers(windows[order[j]], monitorId, now);
      }
    }
  }

  predicate Covers(window: Window, monitorId: Id, now: Time) {
    window.monitorId == monitorId && window.IsActive(now)
  }

  predicate StartsAfter(window: Window, monitorId: Id, now: Time, start: Time) {
    Covers(window, monitorId, now) && window.startsAt > start
  }

  lemma CoversMeans(windows: map<Id, Window>, w: Id, monitorId: Id, now: Time)
    requires w in windows
    ensures Covers(windows[w], monitorId, now) ==> InMaintenance(windows, monitorId, now)
  {
  }

  lemma SameIdentity(m: Monitor, success: bool)
    ensures ApplyCheckResult(m, success).id == m.id
  {
  }

  /** Everything `record` writes. */
  datatype Tables = Tables(
    monitors: map<Id, Monitor>,
    claims: map<Id, MonitorClaim>,
    checks: seq<Check>,
    incidents: map<Id, Incident>,
    events: map<Id, OutboxEvent>)

  function WithEvent(events: map<Id, OutboxEvent>, change: Change): map<Id, OutboxEvent> {
    match change
    case Nothing => events
    case Opens(_, e) => events[e.id := e]
    case Resolves(_, e) => events[e.id := e]
  }

  /** The answer of the incident lookup, which only a recovery asks for, and the new ids. */
  datatype Choices = Choices(open: Option<Incident>, incidentId: Id, eventId: Id)

  function ChangeFor(m: Monitor, success: bool, maintenance: bool, at: Time, given: Choices): Change {
    if maintenance then Nothing else Transition(m, Recorded(m, success, maintenance, at), at, given.open, given.incidentId, given.eventId)
  }

  /**
    What a check writes about incidents: a monitor that goes down opens one and announces it to its own
    organization, one that comes up resolves the open incident and announces that, and nothing else is written.
   */
  ghost predicate IncidentWritten(incidents: map<Id, Incident>, events: map<Id, OutboxEvent>,
                                  newIncidents: map<Id, Incident>, newEvents: map<Id, OutboxEvent>,
                                  m: Id, organizationId: Id, fell: bool, rose: bool, at: Time, given: Choices) {
    if fell then
      && newIncidents == incidents[given.incidentId := Incident(given.incidentId, m, Open, at, None)]
      && newEvents == events[given.eventId :=
           OutboxEvent(given.eventId, organizationId, IncidentOpened, m, given.incidentId, at, None)]
    else if rose && given.open.Some? then
      var i := given.open.value;
      && i.monitorId == m && i.id in incidents && incidents[i.id] == i && i.status.Open?
      && newIncidents == incidents[i.id := Incident(i.id, m, Resolved, i.startedAt, Some(at))]
      && newEvents == events[given.eventId :=
           OutboxEvent(given.eventId, organizationId, IncidentResolved, m, i.id, at, None)]
    else
      && newIncidents == incidents && newEvents == events
      && (rose ==> forall i :: i in incidents && incidents[i].monitorId == m ==> incidents[i].status.Resolved?)
  }

  /** A check moves the schedule by one interval; in a maintenance window it does nothing else. */
  ghost predicate CheckWritten(was: Tables, now: Tables, m: Id, maintenance: bool, at: Time, given: Choices) {
    && m in was.monitors && now.monitors.Keys == was.monitors.Keys
    && (forall other :: other in was.monitors && other != m ==> now.monitors[other] == was.monitors[other])
    && var before := was.monitors[m];
       var after := now.monitors[m];
       && after.nextCheckAt == at + before.intervalSeconds as Time
       && (maintenance ==> after == before.(nextCheckAt := after.nextCheckAt))
       && IncidentWritten(was.incidents, was.events, now.incidents, now.events, m, before.organizationId,
                          !before.status.Down? && after.status.Down?, before.status.Down? && after.status.Up?, at, given)
  }

  predicate Recovers(m: Monitor, success: bool, maintenance: bool) {
    m.status.Down? && Recorded(m, success, maintenance, 0.0).status.Up?
  }

  /** The tables after a check of m that was recorded at `at`. */
  function RecordedTables(t: Tables, m: Id, success: bool, maintenance: bool, leased: bool, at: Time, given: Choices): Tables
    requires m in t.monitors
  {
    var change := ChangeFor(t.monitors[m], success, maintenance, at, given);
    Tables(t.monitors[m := Recorded(t.monitors[m], success, maintenance, at)],
           if leased then t.claims - {m} else t.claims,
           t.checks + [Check(|t.checks| + 1, m, success, at)],
           WithChange(t.incidents, change),
           WithEvent(t.events, change))
  }

  lemma RecordedIsWritten(t: Tables, m: Id, success: bool, maintenance: bool, leased: bool, at: Time, given: Choices)
    requires m in t.monitors && t.monitors[m].id == m
    requires Recovers(t.monitors[m], success, maintenance) ==> OpenAnswer(t.incidents, m, given.open)
    ensures var n := RecordedTables(t, m, success, maintenance, leased, at, given);
      && CheckWritten(t, n, m, maintenance, at, given)
      && n.checks == t.checks + [Check(|t.checks| + 1, m, success, at)]
      && n.claims == if leased then t.claims - {m} else t.claims
  {
  }

  class CheckService {
    const monitors: InMemoryMonitors
    const checks: InMemoryChecks
    const incidents: InMemoryIncidents
    const outbox: InMemoryOutbox
    const windows: InMemoryWindows
    const ids: IdSource

    constructor (monitors: InMemoryMonitors, checks: InMemoryChecks, incidents: InMemoryIncidents,
                 outbox: InMemoryOutbox, windows: InMemoryWindows, ids: IdSource)
      ensures this.monitors == monitors && this.checks == checks && this.incidents == incidents
      ensures this.outbox == outbox && this.windows == windows && this.ids == ids
    {
      this.monitors, this.checks, this.incidents := monitors, checks, incidents;
      this.outbox, this.windows, this.ids := outbox, windows, ids;
    }

    ghost predicate Valid()
      reads this, monitors, incidents, outbox, ids
    {
      monitors.Valid() && incidents.Valid() && outbox.Valid() && ids.Valid()
    }

    function Contents(): Tables
      reads monitors, checks, incidents, outbox
    {
      Tables(monitors.monitors, monitors.claims, checks.checks, incidents.incidents, outbox.events)
    }

    /** Only a recovery looks the open incident up; the new ids are the source's. */
    method HandleIncidentTransition(before: Monitor, after: Monitor, at: Time) returns (ghost given: Choices)
      requires Valid()
      modifies incidents, outbox, ids
      ensures Valid()
      ensures before.status.Down? && after.status.Up? ==> OpenAnswer(old(incidents.incidents), before.id, given.open)
      ensures var change := Transition(before, after, at, given.open, given.incidentId, given.eventId);
        && incidents.incidents == WithChange(old(incidents.incidents), change)
        && outbox.events == WithEvent(old(outbox.events), change)
        && (change.Opens? ==> given.incidentId !in old(ids.used)) && (!change.Nothing? ==> given.eventId !in old(ids.used))
      ensures IncidentWritten(old(incidents.incidents), old(outbox.events), incidents.incidents, outbox.events, before.id, before.organizationId,
                              !before.status.Down? && after.status.Down?, before.status.Down? && after.status.Up?, at, given)
    {
      given := Choices(None, 0, 0);
      if !before.status.Down? && after.status.Down? {
        var id := ids.Generate();
        var incident := Incident(id, before.id, Open, at, None);
        incidents.Create(incident);
        var e := ids.Generate();
        outbox.Create(OutboxEvent(e, before.organizationId, IncidentOpened, before.id, id, at, None));
        given := Choices(None, id, e);
      } else if before.status.Down? && after.status.Up? {
        var found := incidents.GetOpenByMonitorId(before.id);
        given := Choices(found, 0, 0);
        if found.None? { return; }
        var resolved := found.value.(status := Resolved, resolvedAt := Some(at));
        var e := ids.Generate();
        outbox.Create(OutboxEvent(e, before.organizationId, IncidentResolved, before.id, resolved.id, at, None));
        var updated := incidents.Update(resolved);
        given := Choices(found, 0, e);
      }
    }

    /** The monitor, the incident and the event of a check at `at`, unless a window hides it. */
    method WriteResult(monitor: Monitor, success: bool, at: Time) returns (ghost given: Choices)
      requires Valid() && monitor.id in monitors.monitors
      modifies monitors`monitors, incidents, outbox, ids
      ensures Valid()
      ensures var maintenance := InMaintenance(windows.windows, monitor.id, at);
        var change := ChangeFor(monitor, success, maintenance, at, given);
        && monitors.monitors == old(monitors.monitors)[monitor.id := Recorded(monitor, success, maintenance, at)]
        && incidents.incidents == WithChange(old(incidents.incidents), change)
        && outbox.events == WithEvent(old(outbox.events), change)
        && (Recovers(monitor, success, maintenance) ==> OpenAnswer(old(incidents.incidents), monitor.id, given.open))
        && (change.Opens? ==> given.incidentId !in old(ids.used)) && (!change.Nothing? ==> given.eventId !in old(ids.used))
    {
      given := Choices(None, 0, 0);
      SameIdentity(monitor, success);
      hide InMaintenance, ApplyCheckResult, Transition, OpenAnswer;
      var window := windows.GetActive(monitor.id, at);
      if window.Some? {
        var updated := monitors.Update(monitor.(nextCheckAt := at + monitor.intervalSeconds as Time));
      } else {
        var after := ApplyCheckResult(monitor, success).(nextCheckAt := at + monitor.intervalSeconds as Time);
        var updated := monitors.Update(after);
        given := HandleIncidentTransition(monitor, after, at);
      }
    }

    /**
      The lease is verified at `readAt`, the check is created at `at`. Nothing is written
      unless the monitor exists and, for a leased check, the token still holds.
     */
    method Record(m: Id, success: bool, token: Option<Id>, readAt: Time, at: Time)
      returns (check: Option<Check>, ghost given: Choices)
      requires Valid()
      modifies monitors, checks, incidents, outbox, ids
      ensures Valid()
      ensures check.Some? <==> (m in old(monitors.monitors) && (token.Some? ==> P.HoldsLease(old(monitors.Rows())[m], token.value, readAt)))
      ensures check.None? ==> Contents() == old(Contents())
      ensures check.Some? ==>
        && check.value == Check(|old(checks.checks)| + 1, m, success, at)
        && Contents() == RecordedTables(old(Contents()), m, success, InMaintenance(windows.windows, m, at), token.Some?, at, given)
        && CheckWritten(old(Contents()), Contents(), m, InMaintenance(windows.windows, m, at), at, given)
      ensures check.Some? && Recovers(old(monitors.monitors)[m], success, InMaintenance(windows.windows, m, at))
        ==> OpenAnswer(old(incidents.incidents), m, given.open)
      ensures check.Some? ==>
        var change := ChangeFor(old(monitors.monitors)[m], success, InMaintenance(windows.windows, m, at), at, given);
        && (change.Opens? ==> given.incidentId !in old(ids.used)) && (!change.Nothing? ==> given.eventId !in old(ids.used))
    {
      given := Choices(None, 0, 0);
      var found := monitors.GetByIdForUpdate(m, None, token, readAt);
      if found.None? { return None, given; }
      hide InMaintenance, Recorded, ChangeFor, OpenAnswer, WithChange, WithEvent, Recovers, CheckWritten, IncidentWritten, P.HoldsLease;
      ghost var was := Contents();
      var made := checks.Create(m, success, at);
      given := WriteResult(found.value, success, at);
      if token.Some? {
        var done := monitors.ReleaseCheckLease(m, token.value);
      }
      check := Some(made);
      RecordedIsWritten(was, m, success, InMaintenance(windows.windows, m, at), token.Some?, at, given);
    }
  }
}
