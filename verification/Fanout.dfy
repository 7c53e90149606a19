/**
  The in-memory outbox and the fan-out of one event into deliveries, one for each enabled
  destination of the event's organization that has none yet.
 */
module Fanout {
  import opened Prelude
  import opened Identifiers
  import opened Selection
  import opened Deliveries
  import opened DeliveryRepository
  import CheckRecording
  import P = DeliveryProtocol

  type Event = CheckRecording.OutboxEvent

  function DueEvent(e: Event): Due {
    Due(e.createdAt, e.id)
  }

  class InMemoryOutbox {
    var events: map<Id, Event>

    predicate Valid()
      reads this
    {
      forall e :: e in events ==> events[e].id == e
    }

    constructor ()
      ensures Valid() && events == map[]
    {
      events := map[];
    }

    method Create(event: Event)
      requires Valid()
      modifies this
      ensures Valid() && events == old(events)[event.id := event]
    {
      events := events[event.id := event];
    }

    function Pending(): set<Due>
      reads this
    {
      set e | e in events && events[e].processedAt.None? :: DueEvent(events[e])
    }

    /** Oldest first. Events of one instant come in the order of their ids here. */
    method ClaimPending(limit: nat) returns (r: seq<Event>)
      requires Valid()
      ensures |r| == MinNat(limit, |Pending()|)
      ensures forall e :: e in r ==> e.id in events && events[e.id] == e && e.processedAt.None?
      ensures |r| < limit ==> forall e :: e in events && events[e].processedAt.None? ==> events[e] in r
      ensures forall i, j :: 0 <= i < j < |r| ==> r[i].createdAt <= r[j].createdAt && r[i].id != r[j].id
      ensures forall e, i :: e in events && events[e].processedAt.None? && events[e] !in r && 0 <= i < |r| ==> r[i].createdAt <= events[e].createdAt
    {
      var pending := Pending();
      var chosen := Oldest(pending, limit);
      r := [];
      var i := 0;
      while i < |chosen|
        invariant 0 <= i <= |chosen| && |r| == i
        invariant forall j :: 0 <= j < i ==> chosen[j].id in events && r[j] == events[chosen[j].id] && chosen[j] == DueEvent(r[j]) && r[j].processedAt.None?
      {
        assert chosen[i] in Elements(chosen) && chosen[i] in pending;
        r := r + [events[chosen[i].id]];
        i := i + 1;
      }
      if |r| < limit {
        ShortIsAll(pending, limit, chosen);
        forall e | e in events && events[e].processedAt.None? ensures events[e] in r {
          assert DueEvent(events[e]) in Elements(chosen);
          var j :| 0 <= j < |chosen| && chosen[j] == DueEvent(events[e]);
          assert r[j] == events[e];
        }
      }
      forall e, i | e in events && events[e].processedAt.None? && events[e] !in r && 0 <= i < |r|
        ensures r[i].createdAt <= events[e].createdAt
      {
        var due := DueEvent(events[e]);
        assert due in pending;
        forall j | 0 <= j < |chosen| ensures chosen[j] != due { assert r[j] in r; }
        assert chosen[i] in chosen && Before(chosen[i], due);
      }
    }

    method Update(event: Event) returns (updated: bool)
      requires Valid()
      modifies this
      ensures Valid() && (updated <==> event.id in old(events))
      ensures events == if updated then old(events)[event.id := event] else old(events)
    {
      updated := event.id in events;
      if updated { events := events[event.id := event]; }
    }
  }

  function RowsFor(targets: map<Id, Id>, eventId: Id, now: Time): map<Id, Delivery> {
    map id | id in targets :: P.NewDelivery(id, eventId, targets[id], now)
  }

  function NewRows(targets: map<Id, Id>, eventId: Id, now: Time): set<Delivery> {
    set id | id in targets :: P.NewDelivery(id, eventId, targets[id], now)
  }

  lemma TakenWithTargets(rows: map<Id, Delivery>, targets: map<Id, Id>, eventId: Id, now: Time, g: Id)
    requires targets.Keys !! rows.Keys
    ensures PairTaken(rows + RowsFor(targets, eventId, now), eventId, g) <==> PairTaken(rows, eventId, g) || g in Range(targets)
  {
    var all := rows + RowsFor(targets, eventId, now);
    if PairTaken(rows, eventId, g) {
      var id :| id in rows && rows[id].eventId == eventId && rows[id].destinationId == g;
      assert all[id] == rows[id];
    }
    if g in Range(targets) {
      var id :| id in targets && targets[id] == g;
      assert all[id] == P.NewDelivery(id, eventId, g, now);
    }
  }

  lemma OneMoreTarget(rows: map<Id, Delivery>, targets: map<Id, Id>, eventId: Id, now: Time, id: Id, g: Id)
    requires id !in rows && id !in targets
    ensures (rows + RowsFor(targets, eventId, now))[id := P.NewDelivery(id, eventId, g, now)]
      == rows + RowsFor(targets[id := g], eventId, now)
    ensures Range(targets[id := g]) == Range(targets) + {g}
  {
    var more := targets[id := g];
    assert more[id] == g;
    forall v | v in Range(targets) ensures v in Range(more) {
      var k :| k in targets && targets[k] == v;
      assert more[k] == v;
    }
  }

  class FanoutService {
    const destinations: InMemoryDestinations
    const deliveries: InMemoryDeliveries
    const outbox: InMemoryOutbox

    constructor (destinations: InMemoryDestinations, deliveries: InMemoryDeliveries, outbox: InMemoryOutbox)
      ensures this.destinations == destinations && this.deliveries == deliveries && this.outbox == outbox
    {
      this.destinations, this.deliveries, this.outbox := destinations, deliveries, outbox;
    }

    /**
      `targets` maps each new delivery to its destination: exactly the enabled destinations of
      the organization that had no delivery for the event.
     */
    method FanOut(event: Event, now: Time, ids: IdSource) returns (created: seq<Delivery>, ghost targets: map<Id, Id>)
      requires deliveries.Valid() && outbox.Valid() && ids.Valid() && deliveries.deliveries.Keys <= ids.used
      modifies deliveries, outbox, ids
      ensures deliveries.Valid() && outbox.Valid() && ids.Valid() && deliveries.deliveries.Keys <= ids.used
      ensures targets.Keys !! old(ids.used) && P.OneEach(targets)
      ensures Range(targets) == set g | g in EnabledFor(destinations.destinations, event.organizationId)
        && !PairTaken(old(deliveries.deliveries), event.id, g)
      ensures deliveries.deliveries == old(deliveries.deliveries) + RowsFor(targets, event.id, now)
      ensures Elements(created) == NewRows(targets, event.id, now)
      ensures forall d :: d in created ==>
        && d.id in targets && d.destinationId == targets[d.id] && d.eventId == event.id && d.attempts == 0 && d.processedAt.None?
        && d.createdAt == now == d.nextAttemptAt && d.lastError.None? && d.lockedUntil.None? && d.leaseToken.None?
      ensures forall g :: g in Range(targets) ==>
        && g in destinations.destinations && destinations.destinations[g].enabled
        && destinations.destinations[g].organizationId == event.organizationId
      ensures outbox.events == if event.id in old(outbox.events)
        then old(outbox.events)[event.id := event.(processedAt := Some(now))] else old(outbox.events)
    {
      ghost var before := deliveries.deliveries;
      var enabled := destinations.GetEnabled(event.organizationId);
      created, targets := [], map[];
      var i := 0;
      while i < |enabled|
        invariant 0 <= i <= |enabled|
        invariant deliveries.Valid() && outbox.Valid() && ids.Valid()
        invariant deliveries.deliveries.Keys <= ids.used && old(ids.used) <= ids.used
        invariant targets.Keys !! old(ids.used) && P.OneEach(targets)
        invariant Range(targets) == set g | g in enabled[..i] && !PairTaken(before, event.id, g)
        invariant deliveries.deliveries == before + RowsFor(targets, event.id, now)
        invariant Elements(created) == NewRows(targets, event.id, now)
        invariant outbox.events == old(outbox.events)
      {
        var g := enabled[i];
        var id := ids.Generate();
        var delivery := P.NewDelivery(id, event.id, g, now);
        TakenWithTargets(before, targets, event.id, now, g);
        NextTarget(before, targets, event.id, enabled, i);
        var added := deliveries.CreateIfMissing(delivery);
        if added {
          OneMoreTarget(before, targets, event.id, now, id, g);
          OneMoreCreated(targets, event.id, now, id, g, created);
          targets := targets[id := g];
          created := created + [delivery];
        }
        i := i + 1;
      }
      assert enabled[..i] == enabled;
      assert forall g :: g in enabled <==> g in Elements(enabled);
      forall d | d in created ensures d in NewRows(targets, event.id, now) { assert d in Elements(created); }
      var updated := outbox.Update(event.(processedAt := Some(now)));
    }
  }

  lemma NextTarget(rows: map<Id, Delivery>, targets: map<Id, Id>, eventId: Id, enabled: seq<Id>, i: nat)
    requires i < |enabled| && forall j, k :: 0 <= j < k < |enabled| ==> enabled[j] != enabled[k]
    requires Range(targets) == set g | g in enabled[..i] && !PairTaken(rows, eventId, g)
    ensures enabled[i] !in Range(targets)
    ensures (set g | g in enabled[..i + 1] && !PairTaken(rows, eventId, g))
      == if PairTaken(rows, eventId, enabled[i]) then Range(targets) else Range(targets) + {enabled[i]}
  {
    assert enabled[..i + 1] == enabled[..i] + [enabled[i]];
  }

  lemma OneMoreCreated(targets: map<Id, Id>, eventId: Id, now: Time, id: Id, g: Id, created: seq<Delivery>)
    requires id !in targets && g !in Range(targets) && P.OneEach(targets)
    requires Elements(created) == NewRows(targets, eventId, now)
    ensures Elements(created + [P.NewDelivery(id, eventId, g, now)]) == NewRows(targets[id := g], eventId, now)
    ensures P.OneEach(targets[id := g])
  {
    var row := P.NewDelivery(id, eventId, g, now);
    forall k | k in targets ensures targets[id := g][k] == targets[k] {}
    assert targets[id := g][id] == g;
    forall d | d in NewRows(targets, eventId, now) ensures d in NewRows(targets[id := g], eventId, now) {
      var k :| k in targets && d == P.NewDelivery(k, eventId, targets[k], now);
      assert k in targets[id := g];
    }
    assert NewRows(targets[id := g], eventId, now) == NewRows(targets, eventId, now) + {row};
    assert Elements(created + [row]) == Elements(created) + {row};
    forall k | k in targets ensures targets[k] in Range(targets) {}
  }
}
