/**
  What the foreign keys promise in a run: every delivery row has its event and its destination
  for as long as it is there, and dropping a destination takes its rows along.
 */
module DeliveryReferences {
  import opened Prelude
  import opened Selection
  import opened Deliveries
  import opened DeliveryProtocol
  import opened DeliveryFanout

  predicate RowRefers(row: Delivery, destinations: set<Id>, events: set<Id>) {
    row.destinationId in destinations && row.eventId in events
  }

  ghost predicate RowsRefer(rows: map<Id, Delivery>, destinations: set<Id>, events: set<Id>) {
    forall d :: d in rows ==> RowRefers(rows[d], destinations, events)
  }

  /** An open fan-out inserts rows of events it has locked, for destinations that are there. */
  ghost predicate FanRefers(fan: FanOut, destinations: set<Id>, events: set<Id>) {
    && fan.locked <= events && (fan.reading.Some? ==> fan.reading.value.eventId in fan.locked)
    && RowsRefer(fan.inserted, destinations, fan.locked)
  }

  ghost predicate FansRefer(fans: map<Id, FanOut>, destinations: set<Id>, events: set<Id>) {
    forall x :: x in fans ==> FanRefers(fans[x], destinations, events)
  }

  ghost predicate References(s: State) {
    && RowsRefer(s.deliveries, s.destinations.Keys, s.events.Keys)
    && FansRefer(s.fans, s.destinations.Keys, s.events.Keys)
  }

  // ----- the steps that leave the tables' keys alone

  predicate OfTables(l: Label) {
    OfFan(l) || l.PutDestination? || l.DropDestination?
  }

  lemma DestinationsFrame(c: Config, s: State, l: Label)
    requires Enabled(c, s, l) && !OfTables(l)
    ensures Apply(c, s, l).destinations == s.destinations
  {
    hide Enabled, AfterFanRead, AfterFanInsert, AfterFanCommit, AfterLoad, AfterReadRemaining, AfterStartSend, AfterEndSend, Stamp,
      AfterOutcomeCheck, AfterOutcomeCommit, AfterClaimCommit, Started, Released, Drop, WithoutDestination, WithoutEvents;
  }

  lemma FramedRefers(s: State, n: State)
    requires References(s) && n.destinations == s.destinations && SamePairs(s, n)
    ensures References(n)
  {
    hide FansRefer;
  }

  // ----- the others

  lemma FanBeginKeeps(c: Config, s: State, x: Id, batch: set<Id>)
    requires References(s) && Enabled(c, s, FanBegin(x, batch))
    ensures References(Apply(c, s, FanBegin(x, batch)))
  {
    forall e | e in batch ensures e in s.events.Keys { assert Pending(s, e); }
  }

  lemma FanReadKeeps(s: State, x: Id, e: Id)
    requires References(s) && x in s.fans && e in s.events && e in s.fans[x].locked
    ensures References(AfterFanRead(s, x, e))
  {
    hide RowsRefer, EnabledFor;
  }

  lemma NewRowsRefer(e: Id, targets: map<Id, Id>, now: Time, destinations: set<Id>, events: set<Id>)
    requires Range(targets) <= destinations && e in events
    ensures RowsRefer(NewRows(e, targets, now), destinations, events)
  {
    forall d | d in targets ensures targets[d] in destinations { assert targets[d] in Range(targets); }
  }

  lemma JoinedRowsRefer(a: map<Id, Delivery>, b: map<Id, Delivery>, destinations: set<Id>, events: set<Id>)
    requires RowsRefer(a, destinations, events) && RowsRefer(b, destinations, events)
    ensures RowsRefer(a + b, destinations, events)
  {
  }

  lemma OneFanChanged(fans: map<Id, FanOut>, x: Id, fan: FanOut, destinations: set<Id>, events: set<Id>)
    requires FansRefer(fans, destinations, events) && FanRefers(fan, destinations, events)
    ensures FansRefer(fans[x := fan], destinations, events) && FansRefer(fans - {x}, destinations, events)
  {
    hide FanRefers;
  }

  lemma InsertedRefer(fan: FanOut, targets: map<Id, Id>, now: Time, destinations: set<Id>, events: set<Id>)
    requires FanRefers(fan, destinations, events) && fan.reading.Some? && Range(targets) <= destinations
    ensures FanRefers(WithRows(fan, targets, now), destinations, events)
  {
    hide RowsRefer, NewRows, Range;
    var e := fan.reading.value.eventId;
    NewRowsRefer(e, targets, now, destinations, fan.locked);
    JoinedRowsRefer(fan.inserted, NewRows(e, targets, now), destinations, fan.locked);
  }

  lemma FanInsertWrites(s: State, x: Id, targets: map<Id, Id>)
    requires x in s.fans && s.fans[x].reading.Some?
    ensures AfterFanInsert(s, x, targets).fans == if Range(targets) <= s.destinations.Keys
      then s.fans[x := WithRows(s.fans[x], targets, s.now)] else s.fans - {x}
  {
    hide WithRows, Range;
  }

  lemma FanInsertKeeps(s: State, x: Id, targets: map<Id, Id>)
    requires References(s) && x in s.fans && s.fans[x].reading.Some?
    ensures References(AfterFanInsert(s, x, targets))
  {
    var fan, destinations, events := s.fans[x], s.destinations.Keys, s.events.Keys;
    assert FanRefers(fan, destinations, events);
    hide RowsRefer, FanRefers, FansRefer, WithRows, Range, AfterFanInsert;
    FanInsertWrites(s, x, targets);
    OneFanChanged(s.fans, x, fan, destinations, events);
    if Range(targets) <= destinations {
      InsertedRefer(fan, targets, s.now, destinations, events);
      OneFanChanged(s.fans, x, WithRows(fan, targets, s.now), destinations, events);
    }
  }

  lemma MoreEvents(rows: map<Id, Delivery>, destinations: set<Id>, some: set<Id>, events: set<Id>)
    requires RowsRefer(rows, destinations, some) && some <= events
    ensures RowsRefer(rows, destinations, events)
  {
  }

  lemma FanCommitKeeps(s: State, x: Id)
    requires References(s) && x in s.fans
    ensures References(AfterFanCommit(s, x))
  {
    var n := AfterFanCommit(s, x);
    assert n.events.Keys == s.events.Keys;
    assert FanRefers(s.fans[x], s.destinations.Keys, s.events.Keys);
    MoreEvents(s.fans[x].inserted, s.destinations.Keys, s.fans[x].locked, s.events.Keys);
    JoinedRowsRefer(s.deliveries, s.fans[x].inserted, s.destinations.Keys, s.events.Keys);
    hide RowsRefer, PairsOf;
  }

  lemma RetainKeeps(c: Config, s: State, cutoff: Time, gone: set<Id>)
    requires References(s) && Enabled(c, s, RetainEvents(cutoff, gone))
    ensures References(Apply(c, s, RetainEvents(cutoff, gone)))
  {
    var n := Apply(c, s, RetainEvents(cutoff, gone));
    assert n.events.Keys == s.events.Keys - gone;
    forall x | x in n.fans ensures FanRefers(n.fans[x], n.destinations.Keys, n.events.Keys) {
      assert FanRefers(s.fans[x], s.destinations.Keys, s.events.Keys);
      forall e | e in s.fans[x].locked ensures e !in gone { assert EventLocked(s, e); }
    }
  }

  lemma DropKeeps(c: Config, s: State, g: Id)
    requires References(s) && Enabled(c, s, DropDestination(g))
    ensures References(Apply(c, s, DropDestination(g)))
  {
    var n := Apply(c, s, DropDestination(g));
    assert n.destinations.Keys == s.destinations.Keys - {g};
    forall x | x in n.fans ensures FanRefers(n.fans[x], n.destinations.Keys, n.events.Keys) {
      assert FanRefers(s.fans[x], s.destinations.Keys, s.events.Keys);
      forall d | d in s.fans[x].inserted ensures s.fans[x].inserted[d].destinationId != g { assert !DestinationInUse(s, g); }
    }
  }

  lemma MoreKeys(s: State, n: State)
    requires References(s) && n.deliveries == s.deliveries && n.fans == s.fans
    requires s.destinations.Keys <= n.destinations.Keys && s.events.Keys <= n.events.Keys
    ensures References(n)
  {
  }

  lemma TableStepKeeps(c: Config, s: State, l: Label)
    requires References(s) && Enabled(c, s, l) && (l.EmitEvent? || l.PutDestination? || l.FanBegin? || l.FanAbort? || l.RetainEvents? || l.DropDestination?)
    ensures References(Apply(c, s, l))
  {
    if l.FanBegin? {
      FanBeginKeeps(c, s, l.x, l.batch);
    } else if l.RetainEvents? {
      RetainKeeps(c, s, l.cutoff, l.gone);
    } else if l.DropDestination? {
      DropKeeps(c, s, l.g);
    } else if l.FanAbort? {
      hide RowsRefer;
    } else {
      hide References;
      MoreKeys(s, Apply(c, s, l));
    }
  }

  lemma FanStepKeeps(c: Config, s: State, l: Label)
    requires References(s) && Enabled(c, s, l) && (l.FanRead? || l.FanInsert? || l.FanCommit?)
    ensures References(Apply(c, s, l))
  {
    hide References, AfterFanRead, AfterFanInsert, AfterFanCommit;
    match l
    case FanRead(x, e) => FanReadKeeps(s, x, e);
    case FanInsert(x, targets) => FanInsertKeeps(s, x, targets);
    case FanCommit(x) => FanCommitKeeps(s, x);
  }

  lemma StepKeepsReferences(c: Config, s: State, l: Label)
    requires References(s) && Enabled(c, s, l)
    ensures References(Apply(c, s, l))
  {
    hide References, Enabled, Apply;
    if l.FanRead? || l.FanInsert? || l.FanCommit? {
      FanStepKeeps(c, s, l);
    } else if OfTables(l) {
      TableStepKeeps(c, s, l);
    } else {
      DestinationsFrame(c, s, l);
      PairsFrame(c, s, l);
      hide SamePairs;
      FramedRefers(s, Apply(c, s, l));
    }
  }

  lemma StepRefers(c: Config, s: State, n: State)
    requires References(s) && Step(c, s, n)
    ensures References(n)
  {
    hide References;
    var l :| Enabled(c, s, l) && n == Apply(c, s, l);
    StepKeepsReferences(c, s, l);
  }

  lemma {:induction false} RunRefers(c: Config, run: seq<State>, k: nat)
    requires Run(c, run) && k < |run|
    ensures References(run[k])
  {
    if k > 0 {
      hide References;
      RunRefers(c, run, k - 1);
      assert Step(c, run[k - 1], run[k - 1 + 1]);
      StepRefers(c, run[k - 1], run[k]);
    }
  }

  /** In every run, the event and the destination of a delivery row are there as long as the row is. */
  lemma NoRowIsOrphaned(c: Config, run: seq<State>, k: nat, d: Id)
    requires Run(c, run) && k < |run| && d in run[k].deliveries
    ensures run[k].deliveries[d].destinationId in run[k].destinations && run[k].deliveries[d].eventId in run[k].events
  {
    RunRefers(c, run, k);
  }

  /** Dropping a destination takes exactly its own rows. */
  lemma DropTakesItsRows(c: Config, s: State, g: Id)
    requires Enabled(c, s, DropDestination(g))
    ensures var n := Apply(c, s, DropDestination(g));
      && g !in n.destinations && (forall h :: h in s.destinations && h != g ==> h in n.destinations && n.destinations[h] == s.destinations[h])
      && (forall d :: d in s.deliveries ==> (d in n.deliveries <==> s.deliveries[d].destinationId != g))
      && (forall d :: d in n.deliveries ==> d in s.deliveries && n.deliveries[d] == s.deliveries[d])
  {
  }
}
