/**
  The in-memory delivery and destination repositories, whose dictionaries are updated in
  place, and how each of their operations is one run of the delivery protocol's steps.
 */
module DeliveryRepository {
  import opened Prelude
  import opened Identifiers
  import opened Selection
  import opened Deliveries
  import opened Tokens

  function IdsOf(rows: seq<Delivery>): set<Id> {
    set d | d in rows :: d.id
  }

  function DuesOf(rows: seq<Delivery>): (dues: seq<Due>)
    ensures |dues| == |rows| && forall i :: 0 <= i < |rows| ==> dues[i] == DueOf(rows[i])
  {
    seq(|rows|, i requires 0 <= i < |rows| => DueOf(rows[i]))
  }

  /** What a claim returned and stored: the first due rows, each under a token of its own. */
  ghost predicate IsClaim(before: map<Id, Delivery>, after: map<Id, Delivery>, claimed: seq<Delivery>, tokens: map<Id, Id>,
                          candidates: set<Due>, limit: nat, until: Time) {
    && FirstOf(candidates, limit, DuesOf(claimed))
    && tokens.Keys == IdsOf(claimed)
    && after == Stamp(before, tokens, until)
    && forall d :: d in claimed ==> d.id in after && d == after[d.id]
  }

  /** Stamping one more row. */
  lemma StampOne(rows: map<Id, Delivery>, tokens: map<Id, Id>, until: Time, id: Id, token: Id)
    requires id in rows && id !in tokens
    ensures Stamp(rows, tokens[id := token], until)
      == Stamp(rows, tokens, until)[id := rows[id].(lockedUntil := Some(until), leaseToken := Some(token))]
    ensures Stamp(rows, tokens, until)[id] == rows[id]
  {
  }

  /** Different rows, each due at the time it is chosen for. */
  predicate AreRows(rows: map<Id, Delivery>, chosen: seq<Due>) {
    && (forall i :: 0 <= i < |chosen| ==> chosen[i].id in rows && DueOf(rows[chosen[i].id]) == chosen[i])
    && (forall i, j :: 0 <= i < j < |chosen| ==> chosen[i].id != chosen[j].id)
  }

  lemma ChosenAreRows(rows: map<Id, Delivery>, exclude: set<Id>, maxAttempts: int, now: Time, chosen: seq<Due>)
    requires forall d :: d in rows ==> rows[d].id == d
    requires Ascending(chosen) && Elements(chosen) <= Candidates(rows, exclude, maxAttempts, now)
    ensures AreRows(rows, chosen)
  {
    forall j | 0 <= j < |chosen| ensures chosen[j].id in rows && DueOf(rows[chosen[j].id]) == chosen[j] {
      assert chosen[j] in Elements(chosen);
    }
  }

  lemma ClaimedIds(rows: seq<Delivery>, chosen: seq<Due>)
    requires |rows| == |chosen| && forall j :: 0 <= j < |rows| ==> rows[j].id == chosen[j].id
    ensures IdsOf(rows) == set j | 0 <= j < |chosen| :: chosen[j].id
  {
    forall j | 0 <= j < |chosen| ensures chosen[j].id in IdsOf(rows) { assert rows[j] in rows; }
    forall d | d in rows ensures d.id in set j | 0 <= j < |chosen| :: chosen[j].id {
      var j :| 0 <= j < |rows| && rows[j] == d;
    }
  }

  predicate Stored(rows: map<Id, Delivery>, d: Delivery) {
    d.id in rows && rows[d.id] == d
  }

  lemma ClaimMade(before: map<Id, Delivery>, after: map<Id, Delivery>, claimed: seq<Delivery>, tokens: map<Id, Id>,
                  candidates: set<Due>, limit: nat, until: Time)
    requires FirstOf(candidates, limit, DuesOf(claimed)) && tokens.Keys == IdsOf(claimed) && after == Stamp(before, tokens, until)
    requires forall j :: 0 <= j < |claimed| ==> Stored(after, claimed[j])
    ensures IsClaim(before, after, claimed, tokens, candidates, limit, until)
  {
  }

  /**
    The same column by column: a claimed row was due, in nobody's lease and gets its own; a row left
    is as it was, and if the claim is short there was nothing about it to claim.
   */
  ghost predicate TakesTheDue(before: map<Id, Delivery>, after: map<Id, Delivery>, claimed: seq<Delivery>, tokens: map<Id, Id>,
                              exclude: set<Id>, maxAttempts: int, now: Time, limit: int, until: Time) {
    && after.Keys == before.Keys && |claimed| <= limit
    && (forall d :: d in claimed ==>
          && d.id in before && d.id !in exclude && d.id in tokens
          && before[d.id].processedAt.None? && before[d.id].attempts < maxAttempts && before[d.id].nextAttemptAt <= now
          && (before[d.id].lockedUntil.None? || before[d.id].lockedUntil.value <= now)
          && after[d.id] == d == before[d.id].(lockedUntil := Some(until), leaseToken := Some(tokens[d.id])))
    && (forall id :: id in before && id !in IdsOf(claimed) ==> after[id] == before[id])
    && (|claimed| < limit ==> forall id :: id in before && id !in IdsOf(claimed) ==>
          || id in exclude || before[id].processedAt.Some? || before[id].attempts >= maxAttempts || before[id].nextAttemptAt > now
          || (before[id].lockedUntil.Some? && before[id].lockedUntil.value > now))
  }

  lemma ClaimTakesTheDue(before: map<Id, Delivery>, after: map<Id, Delivery>, claimed: seq<Delivery>, tokens: map<Id, Id>,
                         exclude: set<Id>, maxAttempts: int, now: Time, limit: nat, until: Time)
    requires forall d :: d in before ==> before[d].id == d
    requires IsClaim(before, after, claimed, tokens, Candidates(before, exclude, maxAttempts, now), limit, until)
    ensures TakesTheDue(before, after, claimed, tokens, exclude, maxAttempts, now, limit, until)
  {
    var dues := DuesOf(claimed);
    forall i | 0 <= i < |claimed| ensures dues[i] in Candidates(before, exclude, maxAttempts, now) && claimed[i].id in IdsOf(claimed) {
      assert dues[i] in Elements(dues) && claimed[i] in claimed;
    }
    if |claimed| < limit {
      ShortIsAll(Candidates(before, exclude, maxAttempts, now), limit, dues);
      forall id | id in before && Due(before[id].nextAttemptAt, id) in Elements(dues) ensures id in IdsOf(claimed) {
        var i :| 0 <= i < |dues| && dues[i] == Due(before[id].nextAttemptAt, id);
        assert claimed[i].id == id;
      }
      forall id | id in before && id !in IdsOf(claimed)
        ensures Due(before[id].nextAttemptAt, id) !in Candidates(before, exclude, maxAttempts, now)
      {
      }
    }
  }

  /** The rows that the loop made of the first candidates are a claim. */
  lemma RowsAreClaim(before: map<Id, Delivery>, after: map<Id, Delivery>, chosen: seq<Due>, rows: seq<Delivery>, tokens: map<Id, Id>,
                     exclude: set<Id>, maxAttempts: int, now: Time, limit: nat, until: Time)
    requires forall d :: d in before ==> before[d].id == d
    requires FirstOf(Candidates(before, exclude, maxAttempts, now), limit, chosen) && |rows| == |chosen|
    requires forall j :: 0 <= j < |rows| ==> rows[j].id == chosen[j].id && DueOf(rows[j]) == chosen[j] && Stored(after, rows[j])
    requires tokens.Keys == (set j | 0 <= j < |chosen| :: chosen[j].id) && after == Stamp(before, tokens, until)
    ensures IsClaim(before, after, rows, tokens, Candidates(before, exclude, maxAttempts, now), limit, until)
    ensures TakesTheDue(before, after, rows, tokens, exclude, maxAttempts, now, limit, until)
  {
    hide Candidates, FirstOf, TakesTheDue, IsClaim, Stamp, Stored;
    assert DuesOf(rows) == chosen;
    ClaimedIds(rows, chosen);
    ClaimMade(before, after, rows, tokens, Candidates(before, exclude, maxAttempts, now), limit, until);
    ClaimTakesTheDue(before, after, rows, tokens, exclude, maxAttempts, now, limit, until);
  }

  class InMemoryDeliveries {
    var deliveries: map<Id, Delivery>

    predicate Valid()
      reads this
    {
      forall d :: d in deliveries ==> deliveries[d].id == d
    }

    constructor ()
      ensures Valid() && deliveries == map[]
    {
      deliveries := map[];
    }

    method Create(delivery: Delivery) returns (r: Delivery)
      requires Valid()
      modifies this
      ensures Valid() && r == delivery && deliveries == old(deliveries)[delivery.id := delivery]
    {
      deliveries := deliveries[delivery.id := delivery];
      r := delivery;
    }

    /** None stands for the ValueError. */
    method ClaimPending(limit: int, maxAttempts: int, leaseSeconds: Time, exclude: set<Id>, now: Time, ids: IdSource)
      returns (claimed: Option<seq<Delivery>>, ghost tokens: map<Id, Id>)
      requires Valid() && ids.Valid()
      modifies this, ids
      ensures Valid() && ids.Valid() && old(ids.used) <= ids.used
      ensures claimed.None? <==> limit < 1 || maxAttempts < 1 || leaseSeconds <= 0.0
      ensures claimed.None? ==> deliveries == old(deliveries)
      ensures claimed.Some? ==>
        && IsClaim(old(deliveries), deliveries, claimed.value, tokens,
                   Candidates(old(deliveries), exclude, maxAttempts, now), limit, now + leaseSeconds)
        && TakesTheDue(old(deliveries), deliveries, claimed.value, tokens, exclude, maxAttempts, now, limit, now + leaseSeconds)
        && FreshTokens(tokens, old(ids.used)) && Range(tokens) <= ids.used
    {
      tokens := map[];
      if limit < 1 || maxAttempts < 1 || leaseSeconds <= 0.0 {
        return None, tokens;
      }
      var candidates := Candidates(deliveries, exclude, maxAttempts, now);
      var chosen := Oldest(candidates, limit);
      ghost var before := deliveries;
      ChosenAreRows(before, exclude, maxAttempts, now, chosen);
      hide Candidates, FirstOf, TakesTheDue, IsClaim, Stamp, FreshTokens, Range, AreRows, Stored, DueOf;
      var rows: seq<Delivery>;
      rows, tokens := LeaseAll(chosen, now + leaseSeconds, ids);
      RowsAreClaim(before, deliveries, chosen, rows, tokens, exclude, maxAttempts, now, limit, now + leaseSeconds);
      claimed := Some(rows);
    }

    /** The loop of the claim: each chosen row is replaced by one with a token of its own. */
    method LeaseAll(chosen: seq<Due>, until: Time, ids: IdSource) returns (rows: seq<Delivery>, ghost tokens: map<Id, Id>)
      requires Valid() && ids.Valid() && AreRows(deliveries, chosen)
      modifies this, ids
      ensures Valid() && ids.Valid() && old(ids.used) <= ids.used && |rows| == |chosen|
      ensures tokens.Keys == set j | 0 <= j < |chosen| :: chosen[j].id
      ensures deliveries == Stamp(old(deliveries), tokens, until)
      ensures forall j :: 0 <= j < |rows| ==> rows[j].id == chosen[j].id && DueOf(rows[j]) == chosen[j] && Stored(deliveries, rows[j])
      ensures FreshTokens(tokens, old(ids.used)) && Range(tokens) <= ids.used
    {
      rows, tokens := [], map[];
      ghost var before := deliveries;
      assert Stamp(before, tokens, until) == before && FreshTokens(tokens, ids.used) && Range(tokens) == {};
      hide Stamp, FreshTokens, Range;
      var i := 0;
      while i < |chosen|
        invariant 0 <= i <= |chosen| && |rows| == i && Valid() && ids.Valid() && old(ids.used) <= ids.used
        invariant tokens.Keys == set j | 0 <= j < i :: chosen[j].id
        invariant deliveries == Stamp(before, tokens, until)
        invariant forall j :: 0 <= j < i ==> rows[j].id == chosen[j].id && DueOf(rows[j]) == chosen[j] && Stored(deliveries, rows[j])
        invariant FreshTokens(tokens, old(ids.used)) && Range(tokens) <= ids.used
      {
        var due := chosen[i];
        var token := ids.Generate();
        StampOne(before, tokens, until, due.id, token);
        FreshTokensOneMore(tokens, old(ids.used), ids.used - {token}, due.id, token);
        var row := deliveries[due.id].(lockedUntil := Some(until), leaseToken := Some(token));
        tokens := tokens[due.id := token];
        deliveries := deliveries[due.id := row];
        rows := rows + [row];
        i := i + 1;
      }
    }

    function Remaining(id: Id, token: Id, now: Time): Option<Time>
      reads this
    {
      RemainingLease(deliveries, id, token, now)
    }

    /** The whole row is replaced, but only under an unexpired lease of an unprocessed row. */
    method Update(delivery: Delivery, token: Id, now: Time) returns (r: Option<Delivery>)
      requires Valid()
      modifies this
      ensures Valid()
      ensures r.Some? <==>
        && delivery.id in old(deliveries) && old(deliveries)[delivery.id].leaseToken == Some(token)
        && old(deliveries)[delivery.id].processedAt.None?
        && old(deliveries)[delivery.id].lockedUntil.Some? && now < old(deliveries)[delivery.id].lockedUntil.value
      ensures r.Some? ==>
        && r.value == delivery.(lockedUntil := None, leaseToken := None)
        && deliveries == old(deliveries)[delivery.id := r.value]
      ensures r.None? ==> deliveries == old(deliveries)
    {
      if Remaining(delivery.id, token, now).None? {
        return None;
      }
      var updated := delivery.(lockedUntil := None, leaseToken := None);
      deliveries := deliveries[delivery.id := updated];
      r := Some(updated);
    }

    method CreateIfMissing(delivery: Delivery) returns (created: bool)
      requires Valid()
      modifies this
      ensures Valid()
      ensures created <==> !PairTaken(old(deliveries), delivery.eventId, delivery.destinationId)
      ensures created <==> forall d :: d in old(deliveries) ==>
        old(deliveries)[d].eventId != delivery.eventId || old(deliveries)[d].destinationId != delivery.destinationId
      ensures deliveries == if created then old(deliveries)[delivery.id := delivery] else old(deliveries)
    {
      if exists d :: d in deliveries && deliveries[d].eventId == delivery.eventId && deliveries[d].destinationId == delivery.destinationId {
        return false;
      }
      deliveries := deliveries[delivery.id := delivery];
      created := true;
    }

    method Release(id: Id, token: Id) returns (released: bool)
      requires Valid()
      modifies this
      ensures Valid() && deliveries == ReleaseLock(old(deliveries), id, token)
      ensures released <==> id in old(deliveries) && old(deliveries)[id].leaseToken == Some(token)
      ensures released ==> deliveries == old(deliveries)[id := old(deliveries)[id].(lockedUntil := None, leaseToken := None)]
      ensures !released ==> deliveries == old(deliveries)
    {
      if id !in deliveries || deliveries[id].leaseToken != Some(token) {
        return false;
      }
      deliveries := deliveries[id := deliveries[id].(lockedUntil := None, leaseToken := None)];
      released := true;
    }
  }

  class InMemoryDestinations {
    var destinations: map<Id, Destination>

    constructor ()
      ensures destinations == map[]
    {
      destinations := map[];
    }

    method Create(id: Id, destination: Destination)
      modifies this
      ensures destinations == old(destinations)[id := destination]
    {
      destinations := destinations[id := destination];
    }

    /** An update of another organization's destination is refused. */
    method Update(id: Id, destination: Destination) returns (updated: bool)
      modifies this
      ensures updated <==> id in old(destinations) && old(destinations)[id].organizationId == destination.organizationId
      ensures destinations == if updated then old(destinations)[id := destination] else old(destinations)
    {
      if id !in destinations || destinations[id].organizationId != destination.organizationId {
        return false;
      }
      destinations := destinations[id := destination];
      updated := true;
    }

    method Delete(id: Id, organizationId: Id) returns (deleted: bool)
      modifies this
      ensures deleted <==> id in old(destinations) && old(destinations)[id].organizationId == organizationId
      ensures destinations == if deleted then old(destinations) - {id} else old(destinations)
    {
      if id !in destinations || destinations[id].organizationId != organizationId {
        return false;
      }
      destinations := destinations - {id};
      deleted := true;
    }

    /** The ids of the answer, each once; the order is the dictionary's. */
    method GetEnabled(organizationId: Id) returns (r: seq<Id>)
      ensures Elements(r) == EnabledFor(destinations, organizationId)
      ensures forall g :: g in r <==>
        g in destinations && destinations[g].organizationId == organizationId && destinations[g].enabled
      ensures forall i, j :: 0 <= i < j < |r| ==> r[i] != r[j]
    {
      r := Listed(EnabledFor(destinations, organizationId));
      assert forall g :: g in r <==> g in Elements(r);
    }
  }
}
