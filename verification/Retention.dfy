/**
  One retention pass over the four tables it cleans: which rows it may delete, which it
  never deletes, and how repeated passes come to an end.
 */
module Retention {
  import opened Prelude
  import opened Selection
  import opened Deliveries
  import CheckRecording
  import P = DeliveryProtocol

  type Incident = CheckRecording.Incident

  datatype Settings = Settings(checksDays: nat, incidentsDays: nat, notificationsDays: nat, batchSize: nat)

  const SECONDS_PER_DAY := 86400.0

  function Cutoff(now: Time, days: nat): Time {
    now - days as Time * SECONDS_PER_DAY
  }

  datatype CheckRow = CheckRow(monitorId: Id, success: bool, responseTime: Time, checkedAt: Time)

  datatype Tables = Tables(
    checks: map<Id, CheckRow>,
    incidents: map<Id, Incident>,
    deliveries: map<Id, Delivery>,
    events: map<Id, P.Event>)

  // ----- the candidates of each table, with the timestamp they are ordered by

  function ExpiredChecks(checks: map<Id, CheckRow>, cutoff: Time): set<Due> {
    set k | k in checks && checks[k].checkedAt < cutoff :: Due(checks[k].checkedAt, k)
  }

  predicate IncidentExpired(row: Incident, cutoff: Time) {
    row.status.Resolved? && row.resolvedAt.Some? && row.resolvedAt.value < cutoff
  }

  function ExpiredIncidents(incidents: map<Id, Incident>, cutoff: Time): set<Due> {
    set k | k in incidents && IncidentExpired(incidents[k], cutoff) :: Due(incidents[k].resolvedAt.value, k)
  }

  predicate DeliveryExpired(row: Delivery, events: map<Id, P.Event>, cutoff: Time) {
    && row.processedAt.Some? && row.processedAt.value < cutoff
    && row.leaseToken.None? && row.lockedUntil.None?
    && row.eventId in events && events[row.eventId].processedAt.Some?
  }

  function ExpiredDeliveries(deliveries: map<Id, Delivery>, events: map<Id, P.Event>, cutoff: Time): set<Due> {
    set k | k in deliveries && DeliveryExpired(deliveries[k], events, cutoff) :: Due(deliveries[k].processedAt.value, k)
  }

  predicate HasDelivery(deliveries: map<Id, Delivery>, e: Id) {
    exists d :: d in deliveries && deliveries[d].eventId == e
  }

  predicate EventExpired(row: P.Event, cutoff: Time) {
    row.processedAt.Some? && row.processedAt.value < cutoff
  }

  function ExpiredEvents(events: map<Id, P.Event>, deliveries: map<Id, Delivery>, cutoff: Time): set<Due> {
    set e | e in events && EventExpired(events[e], cutoff) && !HasDelivery(deliveries, e) :: Due(events[e].processedAt.value, e)
  }

  // ----- one batch

  /** Rows locked by other transactions are skipped. */
  function Unlocked(candidates: set<Due>, locked: set<Id>): set<Due> {
    set c | c in candidates && c.id !in locked
  }

  /** As many candidates as the limit allows, oldest first; equal timestamps come in any order. */
  ghost predicate BatchOf(candidates: set<Due>, limit: nat, batch: set<Due>) {
    && batch <= candidates && |batch| == MinNat(limit, |candidates|)
    && forall a, b :: a in batch && b in candidates && b !in batch ==> a.at <= b.at
  }

  function IdsIn(batch: set<Due>): set<Id> {
    set c | c in batch :: c.id
  }

  datatype Locks = Locks(checks: set<Id>, incidents: set<Id>, deliveries: set<Id>, events: set<Id>)

  datatype Batches = Batches(checks: set<Due>, incidents: set<Due>, deliveries: set<Due>, events: set<Due>)

  /** A pass takes one batch of each table; deleting an event would cascade to its deliveries. */
  ghost predicate IsPass(t: Tables, n: Tables, settings: Settings, now: Time, locks: Locks, gone: Batches) {
    var cutoff := Cutoff(now, settings.notificationsDays);
    var deliveries := t.deliveries - IdsIn(gone.deliveries);
    && BatchOf(Unlocked(ExpiredChecks(t.checks, Cutoff(now, settings.checksDays)), locks.checks), settings.batchSize, gone.checks)
    && BatchOf(Unlocked(ExpiredIncidents(t.incidents, Cutoff(now, settings.incidentsDays)), locks.incidents), settings.batchSize, gone.incidents)
    && BatchOf(Unlocked(ExpiredDeliveries(t.deliveries, t.events, cutoff), locks.deliveries), settings.batchSize, gone.deliveries)
    && BatchOf(Unlocked(ExpiredEvents(t.events, deliveries, cutoff), locks.events), settings.batchSize, gone.events)
    && n == Tables(t.checks - IdsIn(gone.checks), t.incidents - IdsIn(gone.incidents),
                   P.WithoutEvents(deliveries, IdsIn(gone.events)), t.events - IdsIn(gone.events))
  }

  // ----- the same pass, column by column

  /**
    Of a table with these candidates, only unlocked candidates go, older ones before younger ones, the rows
    left stay as they are, and if fewer rows than the limit go then no unlocked candidate is left.
   */
  ghost predicate Trimmed<T>(rows: map<Id, T>, left: map<Id, T>, locked: set<Id>, limit: nat, expired: Id -> bool, at: Id -> Time) {
    && left.Keys <= rows.Keys && (forall k :: k in left ==> left[k] == rows[k])
    && (forall k :: k in rows && k !in left ==> k !in locked && expired(k))
    && (forall k, l :: k in rows && k !in left && l in left && l !in locked && expired(l) ==> at(k) <= at(l))
    && |rows| - |left| <= limit
    && (|rows| - |left| < limit ==> forall k :: k in left && k !in locked ==> !expired(k))
  }

  ghost predicate TrimmedBy(t: Tables, n: Tables, settings: Settings, locks: Locks, checked: Time, resolved: Time, processed: Time) {
    && Trimmed(t.checks, n.checks, locks.checks, settings.batchSize, CheckGoes(t.checks, checked), CheckedAt(t.checks))
    && Trimmed(t.incidents, n.incidents, locks.incidents, settings.batchSize, IncidentGoes(t.incidents, resolved), ResolvedAt(t.incidents))
    && Trimmed(t.deliveries, n.deliveries, locks.deliveries, settings.batchSize, DeliveryGoes(t.deliveries, t.events, processed),
               DeliveredAt(t.deliveries))
    && Trimmed(t.events, n.events, locks.events, settings.batchSize, EventGoes(t.events, n.deliveries, processed), HandledAt(t.events))
  }

  /** Checks and resolved incidents go by their own number of days, deliveries and events by the notifications'. */
  ghost predicate TakesTheExpired(t: Tables, n: Tables, settings: Settings, now: Time, locks: Locks) {
    TrimmedBy(t, n, settings, locks, DaysAgo(now, settings.checksDays), DaysAgo(now, settings.incidentsDays),
              DaysAgo(now, settings.notificationsDays))
  }

  function DaysAgo(now: Time, days: nat): Time {
    now - 24.0 * 3600.0 * days as Time
  }

  function CheckGoes(checks: map<Id, CheckRow>, limit: Time): Id -> bool {
    k => k in checks && checks[k].checkedAt < limit
  }

  function CheckedAt(checks: map<Id, CheckRow>): Id -> Time {
    k => if k in checks then checks[k].checkedAt else 0.0
  }

  function IncidentGoes(incidents: map<Id, Incident>, limit: Time): Id -> bool {
    k => k in incidents && incidents[k].status.Resolved? && IsBefore(incidents[k].resolvedAt, limit)
  }

  function ResolvedAt(incidents: map<Id, Incident>): Id -> Time {
    k => if k in incidents then Instant(incidents[k].resolvedAt) else 0.0
  }

  /** Processed long ago, under no lease, and its event is processed too. */
  function DeliveryGoes(deliveries: map<Id, Delivery>, events: map<Id, P.Event>, limit: Time): Id -> bool {
    k => k in deliveries && Settled(deliveries[k], events, limit)
  }

  predicate Settled(row: Delivery, events: map<Id, P.Event>, limit: Time) {
    && IsBefore(row.processedAt, limit) && row.leaseToken.None? && row.lockedUntil.None?
    && row.eventId in events && events[row.eventId].processedAt.Some?
  }

  function DeliveredAt(deliveries: map<Id, Delivery>): Id -> Time {
    k => if k in deliveries then Instant(deliveries[k].processedAt) else 0.0
  }

  /** Processed long ago, and no delivery of it is left. */
  ghost function EventGoes(events: map<Id, P.Event>, left: map<Id, Delivery>, limit: Time): Id -> bool {
    e => e in events && IsBefore(events[e].processedAt, limit) && NoneOf(left, e)
  }

  ghost predicate NoneOf(deliveries: map<Id, Delivery>, e: Id) {
    forall d :: d in deliveries ==> deliveries[d].eventId != e
  }

  function HandledAt(events: map<Id, P.Event>): Id -> Time {
    e => if e in events then Instant(events[e].processedAt) else 0.0
  }

  predicate IsBefore(at: Option<Time>, limit: Time) {
    at.Some? && at.value < limit
  }

  function Instant(at: Option<Time>): Time {
    if at.Some? then at.value else 0.0
  }

  /** Each candidate stands for one row that has expired, at its own instant. */
  ghost predicate Stands<T(!new)>(rows: map<Id, T>, candidates: set<Due>, expired: Id -> bool, at: Id -> Time) {
    && (forall c :: c in candidates ==> c.id in rows && expired(c.id) && c.at == at(c.id))
    && (forall k :: k in rows && expired(k) ==> Due(at(k), k) in candidates)
  }

  lemma {:induction false} IdsOfBatch(batch: set<Due>)
    requires forall a, b :: a in batch && b in batch && a.id == b.id ==> a == b
    ensures |IdsIn(batch)| == |batch|
  {
    if batch == {} {
      assert IdsIn(batch) == {};
    } else {
      var c :| c in batch;
      var rest := batch - {c};
      IdsOfBatch(rest);
      assert IdsIn(batch) == IdsIn(rest) + {c.id};
    }
  }

  lemma BatchTrims<T(!new)>(rows: map<Id, T>, candidates: set<Due>, locked: set<Id>, limit: nat, batch: set<Due>,
                      expired: Id -> bool, at: Id -> Time)
    requires Stands(rows, candidates, expired, at) && BatchOf(Unlocked(candidates, locked), limit, batch)
    ensures Trimmed(rows, rows - IdsIn(batch), locked, limit, expired, at)
  {
    var left := rows - IdsIn(batch);
    IdsOfBatch(batch);
    assert left.Keys == rows.Keys - IdsIn(batch) && IdsIn(batch) <= rows.Keys;
    assert |rows.Keys| == |left.Keys| + |IdsIn(batch)| by { assert rows.Keys == left.Keys + IdsIn(batch); }
    forall k | k in rows && k !in left ensures Due(at(k), k) in batch {}
    forall l | l in left && l !in locked && expired(l) ensures Due(at(l), l) in Unlocked(candidates, locked) && Due(at(l), l) !in batch {}
    if |batch| < limit { SubsetSize(batch, Unlocked(candidates, locked)); }
  }

  /** A pass deletes the oldest unlocked rows that have expired, and what it leaves with room in the batch had not. */
  lemma PassTakesTheExpired(t: Tables, n: Tables, settings: Settings, now: Time, locks: Locks, gone: Batches)
    requires IsPass(t, n, settings, now, locks, gone)
    ensures TakesTheExpired(t, n, settings, now, locks)
  {
    PassTrims(t, n, settings, now, locks, gone);
    hide IsPass, TrimmedBy, Cutoff, DaysAgo;
    CutoffIs(now, settings.checksDays);
    CutoffIs(now, settings.incidentsDays);
    CutoffIs(now, settings.notificationsDays);
  }

  lemma PassTrims(t: Tables, n: Tables, settings: Settings, now: Time, locks: Locks, gone: Batches)
    requires IsPass(t, n, settings, now, locks, gone)
    ensures TrimmedBy(t, n, settings, locks, Cutoff(now, settings.checksDays), Cutoff(now, settings.incidentsDays),
                      Cutoff(now, settings.notificationsDays))
  {
    CascadeRemovesNothing(t, n, settings, now, locks, gone);
    hide BatchOf, Trimmed, Unlocked, IdsIn, ExpiredChecks, ExpiredIncidents, ExpiredDeliveries, ExpiredEvents, P.WithoutEvents,
      CheckGoes, IncidentGoes, DeliveryGoes, EventGoes, CheckedAt, ResolvedAt, DeliveredAt, HandledAt, Cutoff;
    var processed := Cutoff(now, settings.notificationsDays);
    ChecksTrimmed(t.checks, Cutoff(now, settings.checksDays), locks.checks, settings.batchSize, gone.checks);
    IncidentsTrimmed(t.incidents, Cutoff(now, settings.incidentsDays), locks.incidents, settings.batchSize, gone.incidents);
    DeliveriesTrimmed(t.deliveries, t.events, processed, locks.deliveries, settings.batchSize, gone.deliveries);
    EventsTrimmed(t.events, n.deliveries, processed, locks.events, settings.batchSize, gone.events);
  }

  lemma CutoffIs(now: Time, days: nat)
    ensures Cutoff(now, days) == DaysAgo(now, days)
  {
  }

  lemma ChecksStand(checks: map<Id, CheckRow>, limit: Time)
    ensures Stands(checks, ExpiredChecks(checks, limit), CheckGoes(checks, limit), CheckedAt(checks))
  {
  }

  lemma ChecksTrimmed(checks: map<Id, CheckRow>, limit: Time, locked: set<Id>, batchSize: nat, batch: set<Due>)
    requires BatchOf(Unlocked(ExpiredChecks(checks, limit), locked), batchSize, batch)
    ensures Trimmed(checks, checks - IdsIn(batch), locked, batchSize, CheckGoes(checks, limit), CheckedAt(checks))
  {
    hide BatchOf, Trimmed, Stands, Unlocked, IdsIn;
    ChecksStand(checks, limit);
    BatchTrims(checks, ExpiredChecks(checks, limit), locked, batchSize, batch, CheckGoes(checks, limit), CheckedAt(checks));
  }

  lemma IncidentsStand(incidents: map<Id, Incident>, limit: Time)
    ensures Stands(incidents, ExpiredIncidents(incidents, limit), IncidentGoes(incidents, limit), ResolvedAt(incidents))
  {
    forall k | k in incidents && IncidentGoes(incidents, limit)(k)
      ensures Due(ResolvedAt(incidents)(k), k) in ExpiredIncidents(incidents, limit)
    {
      assert IncidentExpired(incidents[k], limit);
    }
  }

  lemma IncidentsTrimmed(incidents: map<Id, Incident>, limit: Time, locked: set<Id>, batchSize: nat, batch: set<Due>)
    requires BatchOf(Unlocked(ExpiredIncidents(incidents, limit), locked), batchSize, batch)
    ensures Trimmed(incidents, incidents - IdsIn(batch), locked, batchSize, IncidentGoes(incidents, limit), ResolvedAt(incidents))
  {
    hide BatchOf, Trimmed, Stands, Unlocked, IdsIn;
    IncidentsStand(incidents, limit);
    BatchTrims(incidents, ExpiredIncidents(incidents, limit), locked, batchSize, batch, IncidentGoes(incidents, limit), ResolvedAt(incidents));
  }

  lemma DeliveriesStand(deliveries: map<Id, Delivery>, events: map<Id, P.Event>, limit: Time)
    ensures Stands(deliveries, ExpiredDeliveries(deliveries, events, limit), DeliveryGoes(deliveries, events, limit), DeliveredAt(deliveries))
  {
    forall k | k in deliveries && DeliveryGoes(deliveries, events, limit)(k)
      ensures Due(DeliveredAt(deliveries)(k), k) in ExpiredDeliveries(deliveries, events, limit)
    {
      assert DeliveryExpired(deliveries[k], events, limit);
    }
  }

  lemma DeliveriesTrimmed(deliveries: map<Id, Delivery>, events: map<Id, P.Event>, limit: Time, locked: set<Id>, batchSize: nat, batch: set<Due>)
    requires BatchOf(Unlocked(ExpiredDeliveries(deliveries, events, limit), locked), batchSize, batch)
    ensures Trimmed(deliveries, deliveries - IdsIn(batch), locked, batchSize, DeliveryGoes(deliveries, events, limit), DeliveredAt(deliveries))
  {
    hide BatchOf, Trimmed, Stands, Unlocked, IdsIn;
    DeliveriesStand(deliveries, events, limit);
    BatchTrims(deliveries, ExpiredDeliveries(deliveries, events, limit), locked, batchSize, batch, DeliveryGoes(deliveries, events, limit), DeliveredAt(deliveries));
  }

  lemma EventsStand(events: map<Id, P.Event>, left: map<Id, Delivery>, limit: Time)
    ensures Stands(events, ExpiredEvents(events, left, limit), EventGoes(events, left, limit), HandledAt(events))
  {
    forall e | e in events && EventGoes(events, left, limit)(e) ensures Due(HandledAt(events)(e), e) in ExpiredEvents(events, left, limit) {
      assert EventExpired(events[e], limit) && !HasDelivery(left, e);
    }
  }

  lemma EventsTrimmed(events: map<Id, P.Event>, left: map<Id, Delivery>, limit: Time, locked: set<Id>, batchSize: nat, batch: set<Due>)
    requires BatchOf(Unlocked(ExpiredEvents(events, left, limit), locked), batchSize, batch)
    ensures Trimmed(events, events - IdsIn(batch), locked, batchSize, EventGoes(events, left, limit), HandledAt(events))
  {
    hide BatchOf, Trimmed, Stands, Unlocked, IdsIn;
    EventsStand(events, left, limit);
    BatchTrims(events, ExpiredEvents(events, left, limit), locked, batchSize, batch, EventGoes(events, left, limit), HandledAt(events));
  }

  class Repository {
    var checks: map<Id, CheckRow>
    var incidents: map<Id, Incident>
    var deliveries: map<Id, Delivery>
    var events: map<Id, P.Event>

    constructor (t: Tables)
      ensures Contents() == t
    {
      checks, incidents, deliveries, events := t.checks, t.incidents, t.deliveries, t.events;
    }

    function Contents(): Tables
      reads this
    {
      Tables(checks, incidents, deliveries, events)
    }

    /** The counts are those of the four deletes, in their order. */
    method Cleanup(settings: Settings, now: Time, locks: Locks) returns (counts: map<string, nat>, ghost gone: Batches)
      modifies this
      ensures IsPass(old(Contents()), Contents(), settings, now, locks, gone)
      ensures TakesTheExpired(old(Contents()), Contents(), settings, now, locks)
      ensures counts == map["checks" := |gone.checks|, "incidents" := |gone.incidents|,
                            "deliveries" := |gone.deliveries|, "events" := |gone.events|]
    {
      var cutoff := Cutoff(now, settings.notificationsDays);
      var batch := SelectBatch(Unlocked(ExpiredChecks(checks, Cutoff(now, settings.checksDays)), locks.checks), settings.batchSize);
      checks := checks - IdsIn(batch);
      counts := map["checks" := |batch|];
      ghost var oldest := batch;
      batch := SelectBatch(Unlocked(ExpiredIncidents(incidents, Cutoff(now, settings.incidentsDays)), locks.incidents), settings.batchSize);
      incidents := incidents - IdsIn(batch);
      counts := counts["incidents" := |batch|];
      ghost var resolved := batch;
      batch := SelectBatch(Unlocked(ExpiredDeliveries(deliveries, events, cutoff), locks.deliveries), settings.batchSize);
      deliveries := deliveries - IdsIn(batch);
      counts := counts["deliveries" := |batch|];
      ghost var processed := batch;
      batch := SelectBatch(Unlocked(ExpiredEvents(events, deliveries, cutoff), locks.events), settings.batchSize);
      events := events - IdsIn(batch);
      deliveries := P.WithoutEvents(deliveries, IdsIn(batch));
      counts := counts["events" := |batch|];
      gone := Batches(oldest, resolved, processed, batch);
      PassTakesTheExpired(old(Contents()), Contents(), settings, now, locks, gone);
    }
  }

  /** The inner SELECT of a batch delete. */
  method SelectBatch(candidates: set<Due>, limit: nat) returns (batch: set<Due>)
    ensures BatchOf(candidates, limit, batch)
  {
    var chosen := Oldest(candidates, limit);
    AscendingDistinct(chosen);
    batch := Elements(chosen);
  }

  // ----- what a pass never removes

  /** The cascade from events to deliveries never finds a delivery. */
  lemma CascadeRemovesNothing(t: Tables, n: Tables, settings: Settings, now: Time, locks: Locks, gone: Batches)
    requires IsPass(t, n, settings, now, locks, gone)
    ensures n.deliveries == t.deliveries - IdsIn(gone.deliveries)
  {
    var deliveries := t.deliveries - IdsIn(gone.deliveries);
    forall d | d in deliveries ensures deliveries[d].eventId !in IdsIn(gone.events) {
      assert HasDelivery(deliveries, deliveries[d].eventId);
    }
  }

  predicate Spared(row: Delivery) {
    row.processedAt.None? || row.leaseToken.Some? || row.lockedUntil.Some?
  }

  /** Open incidents, unprocessed events, pending or leased deliveries and recent checks stay as they are. */
  ghost predicate Safe(t: Tables, n: Tables, horizon: Time) {
    && (forall i :: i in t.incidents && t.incidents[i].status.Open? ==> i in n.incidents && n.incidents[i] == t.incidents[i])
    && (forall e :: e in t.events && t.events[e].processedAt.None? ==> e in n.events && n.events[e] == t.events[e])
    && (forall d :: d in t.deliveries && Spared(t.deliveries[d]) ==> d in n.deliveries && n.deliveries[d] == t.deliveries[d])
    && (forall k :: k in t.checks && t.checks[k].checkedAt >= horizon ==> k in n.checks && n.checks[k] == t.checks[k])
    && (forall d :: d in n.deliveries ==> d in t.deliveries && n.deliveries[d] == t.deliveries[d])
    && (forall d :: d in n.deliveries && n.deliveries[d].eventId in t.events ==> n.deliveries[d].eventId in n.events)
  }

  lemma CleanupIsSafe(t: Tables, n: Tables, settings: Settings, now: Time, locks: Locks, gone: Batches)
    requires IsPass(t, n, settings, now, locks, gone)
    ensures Safe(t, n, Cutoff(now, settings.checksDays))
  {
    CascadeRemovesNothing(t, n, settings, now, locks, gone);
    forall d | d in n.deliveries ensures n.deliveries[d].eventId !in IdsIn(gone.events) {
      assert HasDelivery(t.deliveries - IdsIn(gone.deliveries), n.deliveries[d].eventId);
    }
  }

  lemma SafeTwice(t: Tables, m: Tables, n: Tables, a: Time, b: Time, horizon: Time)
    requires Safe(t, m, a) && Safe(m, n, b) && a <= horizon && b <= horizon
    ensures Safe(t, n, horizon)
  {
  }

  /**
    Any sequence of passes, each with its own clock and locks, spares what one pass spares, and
    checks that are younger than every cutoff; no delivery that is left has lost its event.
   */
  lemma {:induction false} PassesAreSafe(passes: seq<Tables>, settings: Settings, nows: seq<Time>, locks: seq<Locks>,
                                         gone: seq<Batches>, horizon: Time)
    requires |passes| == |nows| + 1 && |locks| == |nows| && |gone| == |nows|
    requires forall i :: 0 <= i < |nows| ==> Cutoff(nows[i], settings.checksDays) <= horizon
    requires forall i :: 0 <= i < |nows| ==> IsPass(passes[i], passes[i + 1], settings, nows[i], locks[i], gone[i])
    ensures Safe(passes[0], passes[|nows|], horizon)
    decreases |nows|
  {
    if |nows| > 0 {
      var k := |nows| - 1;
      PassesAreSafe(passes[..k + 1], settings, nows[..k], locks[..k], gone[..k], horizon);
      CleanupIsSafe(passes[k], passes[k + 1], settings, nows[k], locks[k], gone[k]);
      hide IsPass, Safe;
      SafeTwice(passes[0], passes[k], passes[k + 1], horizon, Cutoff(nows[k], settings.checksDays), horizon);
    }
  }

  lemma FewerRows<T>(rows: map<Id, T>, ids: set<Id>)
    ensures |rows| - |rows - ids| <= |ids|
  {
    assert (rows - ids).Keys == rows.Keys - ids;
    SubsetSize(rows.Keys * ids, ids);
    assert rows.Keys == (rows.Keys - ids) + rows.Keys * ids;
  }

  lemma {:induction false} AtMostOneIdEach(batch: set<Due>)
    ensures |IdsIn(batch)| <= |batch|
  {
    if |batch| > 0 {
      var c :| c in batch;
      AtMostOneIdEach(batch - {c});
      assert IdsIn(batch) == IdsIn(batch - {c}) + {c.id};
    } else {
      assert IdsIn(batch) == {};
    }
  }

  /** At most one batch of rows goes from each table. */
  lemma PassIsBounded(t: Tables, n: Tables, settings: Settings, now: Time, locks: Locks, gone: Batches)
    requires IsPass(t, n, settings, now, locks, gone)
    ensures |t.checks| - |n.checks| <= settings.batchSize && |t.incidents| - |n.incidents| <= settings.batchSize
    ensures |t.deliveries| - |n.deliveries| <= settings.batchSize && |t.events| - |n.events| <= settings.batchSize
  {
    CascadeRemovesNothing(t, n, settings, now, locks, gone);
    hide IdsIn, ExpiredChecks, ExpiredIncidents, ExpiredDeliveries, ExpiredEvents, Unlocked, BatchOf, P.WithoutEvents;
    BatchIsBounded(t.checks, Unlocked(ExpiredChecks(t.checks, Cutoff(now, settings.checksDays)), locks.checks), settings.batchSize, gone.checks);
    BatchIsBounded(t.incidents, Unlocked(ExpiredIncidents(t.incidents, Cutoff(now, settings.incidentsDays)), locks.incidents), settings.batchSize, gone.incidents);
    var cutoff := Cutoff(now, settings.notificationsDays);
    BatchIsBounded(t.deliveries, Unlocked(ExpiredDeliveries(t.deliveries, t.events, cutoff), locks.deliveries), settings.batchSize, gone.deliveries);
    BatchIsBounded(t.events, Unlocked(ExpiredEvents(t.events, n.deliveries, cutoff), locks.events), settings.batchSize, gone.events);
  }

  lemma BatchIsBounded<T>(rows: map<Id, T>, candidates: set<Due>, limit: nat, batch: set<Due>)
    requires BatchOf(candidates, limit, batch)
    ensures |rows| - |rows - IdsIn(batch)| <= limit
  {
    AtMostOneIdEach(batch);
    FewerRows(rows, IdsIn(batch));
  }

  // ----- the same deletes as steps of the two protocols

  /** A pass over the protocol's tables is one of its retention steps for each table. */
  lemma PassIsProtocolStep(c: P.Config, s: P.State, checks: map<Id, CheckRow>, incidents: map<Id, Incident>, n: Tables,
                           settings: Settings, now: Time, locks: Locks, gone: Batches)
    requires IsPass(Tables(checks, incidents, s.deliveries, s.events), n, settings, now, locks, gone)
    requires locks.deliveries == P.LockedRows(s) && forall e :: e in s.events && P.EventLocked(s, e) ==> e in locks.events
    ensures var cutoff := Cutoff(now, settings.notificationsDays);
      && P.Enabled(c, s, P.RetainDeliveries(cutoff, IdsIn(gone.deliveries)))
      && var m := P.Apply(c, s, P.RetainDeliveries(cutoff, IdsIn(gone.deliveries)));
      && P.Enabled(c, m, P.RetainEvents(cutoff, IdsIn(gone.events)))
      && P.Apply(c, m, P.RetainEvents(cutoff, IdsIn(gone.events))).deliveries == n.deliveries
      && P.Apply(c, m, P.RetainEvents(cutoff, IdsIn(gone.events))).events == n.events
  {
    var cutoff := Cutoff(now, settings.notificationsDays);
    forall d | d in IdsIn(gone.deliveries) ensures P.DeliveryRemovable(s, d, cutoff) && !P.Locked(s, d) {
      assert d !in P.LockedRows(s);
    }
    var m := s.(deliveries := s.deliveries - IdsIn(gone.deliveries));
    forall e | e in IdsIn(gone.events) ensures P.EventRemovable(m, e, cutoff) && !P.EventLocked(m, e) {
      forall d | d in m.deliveries ensures m.deliveries[d].eventId != e {
        assert HasDelivery(m.deliveries, m.deliveries[d].eventId);
      }
    }
  }

  // ----- repeated passes

  function Removable(t: Tables, settings: Settings, now: Time): nat {
    var cutoff := Cutoff(now, settings.notificationsDays);
    |ExpiredChecks(t.checks, Cutoff(now, settings.checksDays))|
    + |ExpiredIncidents(t.incidents, Cutoff(now, settings.incidentsDays))|
    + |ExpiredDeliveries(t.deliveries, t.events, cutoff)|
    + |ExpiredEvents(t.events, t.deliveries, cutoff)|
  }

  const NO_LOCKS := Locks({}, {}, {}, {})

  lemma Without(candidates: set<Due>, after: set<Due>, batch: set<Due>)
    requires batch <= candidates && after == candidates - batch
    ensures |after| == |candidates| - |batch|
  {
    assert candidates == after + batch;
  }

  lemma ChecksLeft(checks: map<Id, CheckRow>, cutoff: Time, batch: set<Due>)
    requires batch <= ExpiredChecks(checks, cutoff)
    ensures |ExpiredChecks(checks - IdsIn(batch), cutoff)| == |ExpiredChecks(checks, cutoff)| - |batch|
  {
    var rest := checks - IdsIn(batch);
    forall c | c in ExpiredChecks(checks, cutoff) && c !in batch ensures c in ExpiredChecks(rest, cutoff) { assert c.id in rest; }
    forall c | c in ExpiredChecks(rest, cutoff) ensures c in ExpiredChecks(checks, cutoff) && c !in batch { assert c.id !in IdsIn(batch); }
    Without(ExpiredChecks(checks, cutoff), ExpiredChecks(checks - IdsIn(batch), cutoff), batch);
  }

  lemma IncidentsLeft(incidents: map<Id, Incident>, cutoff: Time, batch: set<Due>)
    requires batch <= ExpiredIncidents(incidents, cutoff)
    ensures |ExpiredIncidents(incidents - IdsIn(batch), cutoff)| == |ExpiredIncidents(incidents, cutoff)| - |batch|
  {
    var rest := incidents - IdsIn(batch);
    forall c | c in ExpiredIncidents(incidents, cutoff) && c !in batch ensures c in ExpiredIncidents(rest, cutoff) { assert c.id in rest; }
    forall c | c in ExpiredIncidents(rest, cutoff) ensures c in ExpiredIncidents(incidents, cutoff) && c !in batch { assert c.id !in IdsIn(batch); }
    Without(ExpiredIncidents(incidents, cutoff), ExpiredIncidents(incidents - IdsIn(batch), cutoff), batch);
  }

  lemma DeliveriesLeft(deliveries: map<Id, Delivery>, events: map<Id, P.Event>, left: map<Id, P.Event>, cutoff: Time, batch: set<Due>)
    requires batch <= ExpiredDeliveries(deliveries, events, cutoff)
    requires forall d :: d in deliveries && d !in IdsIn(batch) && deliveries[d].eventId in events ==>
      deliveries[d].eventId in left && left[deliveries[d].eventId] == events[deliveries[d].eventId]
    requires left.Keys <= events.Keys
    ensures |ExpiredDeliveries(deliveries - IdsIn(batch), left, cutoff)| == |ExpiredDeliveries(deliveries, events, cutoff)| - |batch|
  {
    forall c | c in ExpiredDeliveries(deliveries, events, cutoff) && c !in batch ensures c.id !in IdsIn(batch) {}
    var rest := deliveries - IdsIn(batch);
    forall d | d in rest ensures DeliveryExpired(rest[d], left, cutoff) <==> DeliveryExpired(deliveries[d], events, cutoff) {
      assert rest[d].eventId in left.Keys ==> rest[d].eventId in events.Keys;
    }
    Without(ExpiredDeliveries(deliveries, events, cutoff), ExpiredDeliveries(rest, left, cutoff), batch);
  }

  lemma EventsLeft(events: map<Id, P.Event>, deliveries: map<Id, Delivery>, cutoff: Time, batch: set<Due>)
    requires batch <= ExpiredEvents(events, deliveries, cutoff)
    ensures |ExpiredEvents(events - IdsIn(batch), deliveries, cutoff)| == |ExpiredEvents(events, deliveries, cutoff)| - |batch|
  {
    forall c | c in ExpiredEvents(events, deliveries, cutoff) && c !in batch ensures c.id !in IdsIn(batch) {}
    Without(ExpiredEvents(events, deliveries, cutoff), ExpiredEvents(events - IdsIn(batch), deliveries, cutoff), batch);
  }

  /** Deleting deliveries frees at most as many events as it deletes rows. */
  lemma {:induction false} EventsFreed(events: map<Id, P.Event>, deliveries: map<Id, Delivery>, cutoff: Time, batch: set<Due>)
    requires forall c :: c in batch ==> c.id in deliveries
    ensures |ExpiredEvents(events, deliveries - IdsIn(batch), cutoff)| <= |ExpiredEvents(events, deliveries, cutoff)| + |batch|
    decreases |batch|
  {
    var after := ExpiredEvents(events, deliveries - IdsIn(batch), cutoff);
    if |batch| == 0 {
      assert deliveries - IdsIn(batch) == deliveries;
    } else {
      var c :| c in batch;
      var fewer := batch - {c};
      EventsFreed(events, deliveries, cutoff, fewer);
      var before := ExpiredEvents(events, deliveries - IdsIn(fewer), cutoff);
      var e := deliveries[c.id].eventId;
      assert IdsIn(batch) == IdsIn(fewer) + {c.id};
      var freed := if e in events && events[e].processedAt.Some? then {Due(events[e].processedAt.value, e)} else {};
      forall x | x in after ensures x in before + freed {
        if x.id != e { StillFree(deliveries, fewer, c, x.id); }
      }
      SubsetSize(after, before + freed);
      assert |before + freed| <= |before| + |freed|;
    }
  }

  lemma StillFree(deliveries: map<Id, Delivery>, fewer: set<Due>, c: Due, e: Id)
    requires c.id in deliveries && deliveries[c.id].eventId != e
    requires !HasDelivery(deliveries - (IdsIn(fewer) + {c.id}), e)
    ensures !HasDelivery(deliveries - IdsIn(fewer), e)
  {
    var rest, less := deliveries - IdsIn(fewer), deliveries - (IdsIn(fewer) + {c.id});
    forall d | d in rest ensures rest[d].eventId != e {
      if d != c.id { assert d in less && less[d] == rest[d]; }
    }
  }

  /** At a fixed instant, with no row locked, a pass shrinks what can be removed, down to nothing. */
  lemma PassShrinks(t: Tables, n: Tables, settings: Settings, now: Time, gone: Batches)
    requires IsPass(t, n, settings, now, NO_LOCKS, gone) && settings.batchSize >= 1
    ensures Removable(n, settings, now) <= Removable(t, settings, now)
    ensures Removable(t, settings, now) > 0 ==> Removable(n, settings, now) < Removable(t, settings, now)
  {
    var cutoff := Cutoff(now, settings.notificationsDays);
    var checks, incidents := ExpiredChecks(t.checks, Cutoff(now, settings.checksDays)), ExpiredIncidents(t.incidents, Cutoff(now, settings.incidentsDays));
    var deliveries, rest := ExpiredDeliveries(t.deliveries, t.events, cutoff), t.deliveries - IdsIn(gone.deliveries);
    var events := ExpiredEvents(t.events, rest, cutoff);
    assert Unlocked(checks, {}) == checks && Unlocked(incidents, {}) == incidents;
    assert Unlocked(deliveries, {}) == deliveries && Unlocked(events, {}) == events;
    CascadeRemovesNothing(t, n, settings, now, NO_LOCKS, gone);
    ChecksLeft(t.checks, Cutoff(now, settings.checksDays), gone.checks);
    IncidentsLeft(t.incidents, Cutoff(now, settings.incidentsDays), gone.incidents);
    KeptEvents(t, gone, cutoff);
    DeliveriesLeft(t.deliveries, t.events, n.events, cutoff, gone.deliveries);
    EventsLeft(t.events, rest, cutoff, gone.events);
    EventsFreed(t.events, t.deliveries, cutoff, gone.deliveries);
    AfterDeliveries(t, gone, cutoff);
  }

  lemma KeptEvents(t: Tables, gone: Batches, cutoff: Time)
    requires gone.events <= ExpiredEvents(t.events, t.deliveries - IdsIn(gone.deliveries), cutoff)
    ensures forall d :: d in t.deliveries && d !in IdsIn(gone.deliveries) ==> t.deliveries[d].eventId !in IdsIn(gone.events)
  {
    var rest := t.deliveries - IdsIn(gone.deliveries);
    forall d | d in t.deliveries && d !in IdsIn(gone.deliveries) ensures t.deliveries[d].eventId !in IdsIn(gone.events) {
      assert d in rest && rest[d].eventId == t.deliveries[d].eventId;
      assert HasDelivery(rest, t.deliveries[d].eventId);
    }
  }

  /** Events without deliveries stay without. */
  lemma AfterDeliveries(t: Tables, gone: Batches, cutoff: Time)
    ensures |ExpiredEvents(t.events, t.deliveries, cutoff)| <= |ExpiredEvents(t.events, t.deliveries - IdsIn(gone.deliveries), cutoff)|
  {
    var rest := t.deliveries - IdsIn(gone.deliveries);
    forall e | !HasDelivery(t.deliveries, e) ensures !HasDelivery(rest, e) {}
    SubsetSize(ExpiredEvents(t.events, t.deliveries, cutoff), ExpiredEvents(t.events, rest, cutoff));
  }

  ghost predicate PassFrom(t: Tables, n: Tables, settings: Settings, now: Time) {
    exists gone :: IsPass(t, n, settings, now, NO_LOCKS, gone)
  }

  /** As many passes as there are removable rows leave none, and later passes remove nothing. */
  lemma {:induction false} PassesClear(passes: seq<Tables>, settings: Settings, now: Time)
    requires |passes| > 0 && settings.batchSize >= 1
    requires forall i :: 0 <= i < |passes| - 1 ==> PassFrom(passes[i], passes[i + 1], settings, now)
    ensures Removable(passes[|passes| - 1], settings, now) + |passes| - 1 <= Removable(passes[0], settings, now)
      || Removable(passes[|passes| - 1], settings, now) == 0
  {
    if |passes| > 1 {
      var init := passes[..|passes| - 1];
      PassesClear(init, settings, now);
      assert PassFrom(passes[|passes| - 2], passes[|passes| - 2 + 1], settings, now);
      var gone :| IsPass(passes[|passes| - 2], passes[|passes| - 1], settings, now, NO_LOCKS, gone);
      PassShrinks(passes[|passes| - 2], passes[|passes| - 1], settings, now, gone);
    }
  }
}
