/**
  Safety of whole runs, third part: fan-out. Each (event, destination) pair gets one row
  in the whole history, even after rows are deleted, and a processed event's pairs are the
  destinations that were enabled when it was read.
 */
module DeliveryFanout {
  import opened Prelude
  import opened Deliveries
  import opened DeliveryProtocol

  ghost predicate EventsOk(s: State) {
    && s.events.Keys <= s.eventIds && s.fanouts.Keys <= s.eventIds
    && forall e :: e in s.events ==> (s.events[e].processedAt.Some? <==> e in s.fanouts)
  }

  ghost predicate OncePerPair(births: map<Id, Pair>) {
    forall d, e :: d in births && e in births && births[d] == births[e] ==> d == e
  }

  /** `enabled` are exactly the destinations of the rows born for e. */
  ghost predicate BornFor(births: map<Id, Pair>, e: Id, enabled: set<Id>) {
    && (forall d :: d in births && births[d].eventId == e ==> births[d].destinationId in enabled)
    && (forall g :: g in enabled ==> exists d :: d in births && births[d] == Pair(e, g))
  }

  ghost predicate BirthsOk(s: State) {
    && OncePerPair(s.births)
    && (forall d :: d in s.births ==> s.births[d].eventId in s.fanouts)
    && (forall e :: e in s.fanouts ==> BornFor(s.births, e, s.fanouts[e]))
    && (forall d :: d in s.deliveries ==> d in s.births && s.births[d] == PairOf(s.deliveries[d]))
  }

  /** What an open fan-out has done: one row for each pair, and all the rows of each event done. */
  ghost predicate DoneOk(fan: FanOut) {
    && fan.done.Keys <= fan.locked
    && (fan.reading.Some? ==> fan.reading.value.eventId in fan.locked && fan.reading.value.eventId !in fan.done)
    && OncePerPair(PairsOf(fan.inserted))
    && (forall d :: d in fan.inserted ==> fan.inserted[d].eventId in fan.done)
    && (forall e :: e in fan.done ==> BornFor(PairsOf(fan.inserted), e, fan.done[e].enabled))
  }

  ghost predicate FanOk(s: State, fan: FanOut) {
    && DoneOk(fan)
    && (forall e :: e in fan.locked ==> e in s.events && e !in s.fanouts)
    && (forall d :: d in fan.inserted ==> d !in s.births)
    && fan.inserted.Keys <= s.deliveryIds
  }

  ghost predicate FansOk(s: State) {
    && s.births.Keys <= s.deliveryIds
    && (forall x :: x in s.fans ==> FanOk(s, s.fans[x]))
    && (forall x, y :: x in s.fans && y in s.fans && x != y ==>
          s.fans[x].locked !! s.fans[y].locked && s.fans[x].inserted.Keys !! s.fans[y].inserted.Keys)
  }

  ghost predicate FanInv(s: State) {
    EventsOk(s) && BirthsOk(s) && FansOk(s)
  }

  /** No row changes its pair, and nothing else that fan-out depends on changes. */
  ghost predicate SamePairs(s: State, n: State) {
    && n.events == s.events && n.fans == s.fans && n.births == s.births && n.fanouts == s.fanouts
    && n.eventIds == s.eventIds && n.deliveryIds == s.deliveryIds
    && forall d :: d in n.deliveries ==> d in s.deliveries && PairOf(n.deliveries[d]) == PairOf(s.deliveries[d])
  }

  predicate OfFan(l: Label) {
    l.EmitEvent? || l.FanBegin? || l.FanRead? || l.FanInsert? || l.FanCommit? || l.FanAbort? || l.RetainEvents?
  }

  predicate OfTxn(l: Label) {
    || l.ClaimSelect? || l.ClaimStamp? || l.ClaimCommit? || l.Abort? || l.OutcomeLock? || l.OutcomeCheck?
    || l.OutcomeCommit? || l.ReleaseBegin? || l.ReleaseRow? || l.ReleaseCommit?
  }

  lemma PairsFrame(c: Config, s: State, l: Label)
    requires Enabled(c, s, l) && !OfFan(l)
    ensures SamePairs(s, Apply(c, s, l))
  {
    if OfTxn(l) {
      TxnPairsFrame(c, s, l);
    } else {
      TaskPairsFrame(c, s, l);
    }
  }

  lemma TxnPairsFrame(c: Config, s: State, l: Label)
    requires Enabled(c, s, l) && OfTxn(l)
    ensures SamePairs(s, Apply(c, s, l))
  {
    hide SamePairs;
    if l.ClaimCommit? {
      ClaimPairsFrame(c, s, l.x, l.returned);
    } else if l.OutcomeCommit? {
      OutcomePairsFrame(s, l.x);
    } else if l.ReleaseCommit? {
      ReleasePairsFrame(c, s, l.x);
    } else {
      LockPairsFrame(c, s, l);
    }
  }

  lemma LockPairsFrame(c: Config, s: State, l: Label)
    requires Enabled(c, s, l) && OfTxn(l) && !l.ClaimCommit? && !l.OutcomeCommit? && !l.ReleaseCommit?
    ensures SamePairs(s, Apply(c, s, l))
  {
    var n := Apply(c, s, l);
    assert n.deliveries == s.deliveries;
  }

  lemma ClaimPairsFrame(c: Config, s: State, x: Id, returned: bool)
    requires x in s.txns && s.txns[x].Claiming? && s.txns[x].stamp.Some?
    ensures SamePairs(s, AfterClaimCommit(c, s, x, returned))
  {
  }

  lemma ReleasePairsFrame(c: Config, s: State, x: Id)
    requires Enabled(c, s, ReleaseCommit(x))
    ensures SamePairs(s, Apply(c, s, ReleaseCommit(x)))
  {
  }

  lemma OutcomePairsFrame(s: State, x: Id)
    requires x in s.txns && s.txns[x].Recording? && s.txns[x].checkedAt.Some?
    ensures SamePairs(s, AfterOutcomeCommit(s, x))
  {
    hide AfterOutcomeCommit;
    var n := AfterOutcomeCommit(s, x);
    OutcomeRows(s, x);
    assert n.events == s.events && n.fans == s.fans && n.births == s.births && n.fanouts == s.fanouts;
  }

  lemma OutcomeRows(s: State, x: Id)
    requires x in s.txns && s.txns[x].Recording? && s.txns[x].checkedAt.Some?
    ensures var d := s.txns[x].claim.row.id; var n := AfterOutcomeCommit(s, x);
      n.deliveries == s.deliveries || (d in s.deliveries && n.deliveries == s.deliveries[d := WriteOutcome(s.deliveries[d], s.txns[x].result)])
  {
  }

  lemma TaskPairsFrame(c: Config, s: State, l: Label)
    requires Enabled(c, s, l) && !OfFan(l) && !OfTxn(l)
    ensures SamePairs(s, Apply(c, s, l))
  {
  }

  lemma SamePairsKeep(s: State, n: State)
    requires FanInv(s) && SamePairs(s, n)
    ensures FanInv(n)
  {
    assert forall x :: x in n.fans ==> FanOk(s, s.fans[x]);
  }

  lemma EmitKeepsFan(c: Config, s: State, e: Id, organizationId: Id)
    requires FanInv(s) && e !in s.eventIds
    ensures FanInv(Apply(c, s, EmitEvent(e, organizationId)))
  {
    var n := Apply(c, s, EmitEvent(e, organizationId));
    forall x | x in n.fans ensures FanOk(n, n.fans[x]) { assert FanOk(s, s.fans[x]); }
  }

  lemma FanBeginKeepsFan(s: State, x: Id, batch: set<Id>)
    requires FanInv(s) && x !in s.fans
    requires forall e :: e in batch ==> Pending(s, e)
    requires forall y, e :: y in s.fans && e in s.fans[y].locked ==> e !in batch
    ensures FanInv(s.(fans := s.fans[x := FanOut(batch, None, map[], map[])]))
  {
    var n := s.(fans := s.fans[x := FanOut(batch, None, map[], map[])]);
    RestOfFans(s, n);
    EmptyFanOk(s, batch);
    hide EventsOk, BirthsOk, FanOk;
    forall y | y in n.fans ensures FanOk(n, n.fans[y]) { SameFanOk(s, n, n.fans[y]); }
    forall y | y in s.fans ensures batch !! s.fans[y].locked {
      assert forall e :: e in s.fans[y].locked ==> e !in batch;
    }
  }

  lemma EmptyFanOk(s: State, batch: set<Id>)
    requires EventsOk(s) && forall e :: e in batch ==> Pending(s, e)
    ensures FanOk(s, FanOut(batch, None, map[], map[]))
  {
  }

  lemma SameFanOk(s: State, n: State, fan: FanOut)
    requires FanOk(s, fan) && n.events == s.events && n.fanouts == s.fanouts && n.births == s.births && n.deliveryIds == s.deliveryIds
    ensures FanOk(n, fan)
  {
  }

  lemma FanAbortKeepsFan(c: Config, s: State, x: Id)
    requires FanInv(s)
    ensures FanInv(s.(fans := s.fans - {x}))
  {
    var n := s.(fans := s.fans - {x});
    forall y | y in n.fans ensures FanOk(n, n.fans[y]) { assert FanOk(s, s.fans[y]); }
  }

  lemma RetainEventsKeepsFan(s: State, gone: set<Id>)
    requires FanInv(s)
    requires forall e :: e in gone ==> e in s.events && s.events[e].processedAt.Some?
    ensures FanInv(s.(events := s.events - gone, deliveries := WithoutEvents(s.deliveries, gone)))
  {
    var n := s.(events := s.events - gone, deliveries := WithoutEvents(s.deliveries, gone));
    forall y | y in n.fans ensures FanOk(n, n.fans[y]) {
      assert FanOk(s, s.fans[y]);
    }
    assert EventsOk(n) && BirthsOk(n);
  }

  /** An unprocessed event has no row, so no insert of its fan-out is a conflict. */
  lemma NoConflict(s: State, x: Id, e: Id)
    requires FanInv(s) && x in s.fans && e in s.fans[x].locked
    ensures forall g :: !PairTaken(s.deliveries, e, g)
  {
    assert FanOk(s, s.fans[x]);
  }

  lemma OpenFanGrows(s: State, x: Id, fan: FanOut, added: set<Id>)
    requires FanInv(s) && x in s.fans && added !! s.deliveryIds
    requires fan.locked == s.fans[x].locked && fan.inserted.Keys <= s.fans[x].inserted.Keys + added
    requires FanOk(s.(deliveryIds := s.deliveryIds + added), fan)
    ensures FanInv(s.(fans := s.fans[x := fan], deliveryIds := s.deliveryIds + added))
  {
    var n := s.(fans := s.fans[x := fan], deliveryIds := s.deliveryIds + added);
    RestOfFans(s, n);
    hide FanOk, EventsOk, BirthsOk;
    SameTablesFanOk(s.(deliveryIds := s.deliveryIds + added), n, fan);
    forall y | y in n.fans && y != x
      ensures FanOk(n, n.fans[y]) && fan.inserted.Keys !! n.fans[y].inserted.Keys && fan.locked !! n.fans[y].locked
    {
      assert FanOk(s, s.fans[y]);
      SameTablesFanOk(s, n, s.fans[y]);
      InsertedAreOld(s, s.fans[y]);
      assert s.fans[x].inserted.Keys !! s.fans[y].inserted.Keys;
    }
    GrownFansOk(s, n, x);
  }

  lemma GrownFansOk(s: State, n: State, x: Id)
    requires FansOk(s) && x in n.fans && FanOk(n, n.fans[x]) && n.births.Keys <= n.deliveryIds
    requires forall y :: y in n.fans && y != x ==>
      && y in s.fans && n.fans[y] == s.fans[y] && FanOk(n, n.fans[y])
      && n.fans[x].inserted.Keys !! n.fans[y].inserted.Keys && n.fans[x].locked !! n.fans[y].locked
    ensures FansOk(n)
  {
    hide FanOk;
  }

  lemma InsertedAreOld(s: State, fan: FanOut)
    requires FanOk(s, fan)
    ensures fan.inserted.Keys <= s.deliveryIds
  {
    assert forall d :: d in fan.inserted.Keys ==> d in s.deliveryIds;
  }

  lemma SameTablesFanOk(s: State, n: State, fan: FanOut)
    requires FanOk(s, fan) && n == s.(fans := n.fans, deliveryIds := n.deliveryIds) && s.deliveryIds <= n.deliveryIds
    ensures FanOk(n, fan)
  {
  }

  lemma RestOfFans(s: State, n: State)
    requires EventsOk(s) && BirthsOk(s)
    requires n.events == s.events && n.eventIds == s.eventIds && n.fanouts == s.fanouts && n.births == s.births && n.deliveries == s.deliveries
    ensures EventsOk(n) && BirthsOk(n)
  {
  }

  lemma FanReadKeepsFan(c: Config, s: State, x: Id, e: Id)
    requires FanInv(s) && Enabled(c, s, FanRead(x, e))
    ensures FanInv(AfterFanRead(s, x, e))
  {
    var fan := AfterFanRead(s, x, e).fans[x];
    assert FanOk(s, s.fans[x]);
    assert s.deliveryIds + {} == s.deliveryIds;
    assert FanOk(s, fan);
    hide FanInv, FanOk, Enabled;
    OpenFanGrows(s, x, fan, {});
  }

  /** The rows that are inserted are those of every destination read, if they are all still there. */
  lemma InsertsAll(c: Config, s: State, x: Id, targets: map<Id, Id>)
    requires FanInv(s) && Enabled(c, s, FanInsert(x, targets))
    ensures Range(targets) == s.fans[x].reading.value.enabled
  {
    assert FanOk(s, s.fans[x]);
    NoConflict(s, x, s.fans[x].reading.value.eventId);
  }

  lemma FanInsertKeepsFan(c: Config, s: State, x: Id, targets: map<Id, Id>)
    requires FanInv(s) && Enabled(c, s, FanInsert(x, targets))
    ensures FanInv(AfterFanInsert(s, x, targets))
  {
    InsertsAll(c, s, x, targets);
    assert FanOk(s, s.fans[x]) && s.births.Keys <= s.deliveryIds;
    SpreadFanOk(s, s.fans[x], targets);
    hide FanInv, FanOk, Range, Enabled, WithRows;
    if Range(targets) <= s.destinations.Keys {
      OpenFanGrows(s, x, WithRows(s.fans[x], targets, s.now), targets.Keys);
    } else {
      FanAbortKeepsFan(c, s, x);
    }
  }

  lemma SpreadFanOk(s: State, fan: FanOut, targets: map<Id, Id>)
    requires FanOk(s, fan) && fan.reading.Some? && OneEach(targets) && targets.Keys !! s.deliveryIds
    requires s.births.Keys <= s.deliveryIds && Range(targets) == fan.reading.value.enabled
    ensures FanOk(s.(deliveryIds := s.deliveryIds + targets.Keys), WithRows(fan, targets, s.now))
    ensures WithRows(fan, targets, s.now).inserted.Keys == fan.inserted.Keys + targets.Keys
    ensures WithRows(fan, targets, s.now).locked == fan.locked
  {
    SpreadDone(fan, targets, s.now);
    SpreadKeys(fan, targets, s.now);
    hide DoneOk, Range, OneEach, WithRows;
  }

  lemma SpreadKeys(fan: FanOut, targets: map<Id, Id>, now: Time)
    requires fan.reading.Some?
    ensures WithRows(fan, targets, now).inserted.Keys == fan.inserted.Keys + targets.Keys
    ensures WithRows(fan, targets, now).locked == fan.locked
  {
  }

  lemma SpreadDone(fan: FanOut, targets: map<Id, Id>, now: Time)
    requires DoneOk(fan) && fan.reading.Some? && OneEach(targets) && targets.Keys !! fan.inserted.Keys
    requires Range(targets) == fan.reading.value.enabled
    ensures DoneOk(WithRows(fan, targets, now))
  {
    SpreadOk(fan, fan.reading.value.eventId, targets, now);
    hide PairsOf, OncePerPair, BornFor, Range;
  }

  /** Adding one event's rows to an open fan-out. */
  lemma SpreadOk(fan: FanOut, e: Id, targets: map<Id, Id>, now: Time)
    requires DoneOk(fan) && e in fan.locked && e !in fan.done && OneEach(targets) && targets.Keys !! fan.inserted.Keys
    ensures var rows := fan.inserted + NewRows(e, targets, now);
      && OncePerPair(PairsOf(rows))
      && BornFor(PairsOf(rows), e, Range(targets))
      && forall f :: f in fan.done ==> BornFor(PairsOf(rows), f, fan.done[f].enabled)
  {
    var before, added := PairsOf(fan.inserted), PairsOf(NewRows(e, targets, now));
    assert PairsOf(fan.inserted + NewRows(e, targets, now)) == before + added;
    NewPairs(e, targets, now);
    PairsUnion(before, added);
    BornUnion(before, added, e, Range(targets));
    forall f | f in fan.done ensures BornFor(before + added, f, fan.done[f].enabled) {
      assert BornFor(before, f, fan.done[f].enabled);
      BornUnion(before, added, f, fan.done[f].enabled);
    }
  }

  lemma NewPairs(e: Id, targets: map<Id, Id>, now: Time)
    requires OneEach(targets)
    ensures var added := PairsOf(NewRows(e, targets, now));
      BornFor(added, e, Range(targets)) && OncePerPair(added)
  {
    var added := PairsOf(NewRows(e, targets, now));
    forall g | g in Range(targets) ensures exists d :: d in added && added[d] == Pair(e, g) {
      var d :| d in targets && targets[d] == g;
      assert added[d] == Pair(e, g);
    }
  }

  /** Rows of different events never share a pair. */
  ghost predicate Apart(a: map<Id, Pair>, b: map<Id, Pair>) {
    a.Keys !! b.Keys && forall d, e :: d in a && e in b ==> a[d].eventId != b[e].eventId
  }

  lemma PairsUnion(a: map<Id, Pair>, b: map<Id, Pair>)
    requires OncePerPair(a) && OncePerPair(b) && Apart(a, b)
    ensures OncePerPair(a + b)
  {
  }

  lemma BornUnion(a: map<Id, Pair>, b: map<Id, Pair>, e: Id, enabled: set<Id>)
    requires a.Keys !! b.Keys
    requires || (BornFor(a, e, enabled) && forall d :: d in b ==> b[d].eventId != e)
             || (BornFor(b, e, enabled) && forall d :: d in a ==> a[d].eventId != e)
    ensures BornFor(a + b, e, enabled)
  {
    forall g | g in enabled ensures exists d :: d in a + b && (a + b)[d] == Pair(e, g) {
      if BornFor(a, e, enabled) && forall d :: d in b ==> b[d].eventId != e {
        var d :| d in a && a[d] == Pair(e, g);
        assert (a + b)[d] == Pair(e, g);
      } else {
        var d :| d in b && b[d] == Pair(e, g);
        assert (a + b)[d] == Pair(e, g);
      }
    }
  }

  lemma FanCommitBirths(s: State, fan: FanOut)
    requires BirthsOk(s) && FanOk(s, fan)
    ensures var births := s.births + PairsOf(fan.inserted);
      var fanouts := s.fanouts + map e | e in fan.done :: fan.done[e].enabled;
      OncePerPair(births) && forall e :: e in fanouts ==> BornFor(births, e, fanouts[e])
  {
    var added := PairsOf(fan.inserted);
    var fanouts := s.fanouts + map e | e in fan.done :: fan.done[e].enabled;
    assert Apart(s.births, added) by {
      assert forall d :: d in added.Keys ==> d in fan.inserted && d !in s.births.Keys;
      forall d, e | d in s.births && e in added ensures s.births[d].eventId != added[e].eventId {
        assert fan.inserted[e].eventId in fan.done.Keys;
      }
    }
    PairsUnion(s.births, added);
    forall e | e in fanouts ensures BornFor(s.births + added, e, fanouts[e]) {
      if e in fan.done {
        assert BornFor(added, e, fan.done[e].enabled) && e in fan.done.Keys;
      } else {
        assert BornFor(s.births, e, s.fanouts[e]);
      }
      BornUnion(s.births, added, e, fanouts[e]);
    }
  }

  lemma FanCommitEvents(s: State, x: Id)
    requires FanInv(s) && x in s.fans
    ensures EventsOk(AfterFanCommit(s, x))
    ensures forall y :: y in s.fans && y != x ==> FanOk(AfterFanCommit(s, x), s.fans[y])
  {
    var n := AfterFanCommit(s, x);
    var fan := s.fans[x];
    assert FanOk(s, fan);
    assert forall e :: e in fan.done.Keys ==> e in s.events.Keys && e !in s.fanouts;
    forall y | y in s.fans && y != x ensures FanOk(n, s.fans[y]) {
      assert FanOk(s, s.fans[y]) && s.fans[y].locked !! fan.locked;
    }
  }

  lemma FanCommitKeepsFan(c: Config, s: State, x: Id)
    requires FanInv(s) && x in s.fans
    ensures FanInv(AfterFanCommit(s, x))
  {
    var n := AfterFanCommit(s, x);
    hide FanOk, EventsOk, BirthsOk, AfterFanCommit;
    FanCommitPairs(s, x);
    FanCommitEvents(s, x);
    FanCommitIds(s, x);
    OtherFansOk(s, n, x);
  }

  lemma FanCommitPairs(s: State, x: Id)
    requires BirthsOk(s) && x in s.fans && FanOk(s, s.fans[x])
    ensures BirthsOk(AfterFanCommit(s, x))
  {
    FanCommitBirths(s, s.fans[x]);
    hide FanOk, OncePerPair, BornFor;
  }

  lemma FanCommitIds(s: State, x: Id)
    requires x in s.fans && FanOk(s, s.fans[x]) && s.births.Keys <= s.deliveryIds
    ensures AfterFanCommit(s, x).births.Keys <= s.deliveryIds
  {
    InsertedAreOld(s, s.fans[x]);
    assert AfterFanCommit(s, x).births.Keys == s.births.Keys + s.fans[x].inserted.Keys;
  }

  lemma OtherFansOk(s: State, n: State, x: Id)
    requires FansOk(s) && x in s.fans && n.fans == s.fans - {x} && n.births.Keys <= n.deliveryIds
    requires forall y :: y in s.fans && y != x ==> FanOk(n, s.fans[y])
    ensures FansOk(n)
  {
    hide FanOk;
  }

  lemma StepKeepsFan(c: Config, s: State, l: Label)
    requires FanInv(s) && Enabled(c, s, l)
    ensures FanInv(Apply(c, s, l))
  {
    hide FanInv;
    if !OfFan(l) {
      PairsFrame(c, s, l);
      SamePairsKeep(s, Apply(c, s, l));
      return;
    }
    match l
    case EmitEvent(e, organizationId) => EmitKeepsFan(c, s, e, organizationId);
    case FanBegin(x, batch) =>
      assert forall y, e :: y in s.fans && e in s.fans[y].locked ==> EventLocked(s, e);
      FanBeginKeepsFan(s, x, batch);
    case FanRead(x, e) => FanReadKeepsFan(c, s, x, e);
    case FanInsert(x, targets) => FanInsertKeepsFan(c, s, x, targets);
    case FanCommit(x) => FanCommitKeepsFan(c, s, x);
    case FanAbort(x) => FanAbortKeepsFan(c, s, x);
    case RetainEvents(_, gone) => RetainEventsKeepsFan(s, gone);
    case _ =>
  }
}
