/**
  Which destinations a processed event went to. A fan-out reads the enabled destinations
  first and its clock afterwards, and nothing locks a destination in between.
 */
module FanoutHistory {
  import opened Prelude
  import opened Deliveries
  import opened Lease
  import opened DeliveryProtocol
  import opened DeliveryFanout
  import opened DeliveryTheorems

  /** The fan-out x is open and holds the event e. */
  predicate Holds(s: State, x: Id, e: Id) {
    x in s.fans && e in s.fans[x].locked
  }

  ghost predicate HeldFrom(run: seq<State>, x: Id, e: Id, i: nat, j: nat)
    requires i <= j < |run|
  {
    forall p :: i <= p <= j ==> Holds(run[p], x, e)
  }

  /** In s the pending event e of the organization would go to `enabled`. */
  ghost predicate EnabledIn(s: State, e: Id, organization: Id, enabled: set<Id>) {
    && e in s.events && s.events[e].processedAt.None? && s.events[e].organizationId == organization
    && enabled == EnabledFor(s.destinations, organization)
  }

  /** Read in state i of the run, with the fan-out open ever since. */
  ghost predicate ReadSince(run: seq<State>, x: Id, e: Id, organization: Id, enabled: set<Id>, i: nat) {
    i < |run| && EnabledIn(run[i], e, organization, enabled) && HeldFrom(run, x, e, i, |run| - 1)
  }

  /** Read in state i and given its clock and its rows in state j of one open fan-out. */
  ghost predicate SpreadAt(run: seq<State>, e: Id, organization: Id, spread: Spread, x: Id, i: nat, j: nat) {
    && i <= j < |run| && EnabledIn(run[i], e, organization, spread.enabled) && HeldFrom(run, x, e, i, j)
    && run[j].now == spread.at && spread.enabled <= run[j].destinations.Keys
  }

  ghost predicate WasRead(run: seq<State>, x: Id, e: Id, organization: Id, enabled: set<Id>) {
    exists i: nat :: ReadSince(run, x, e, organization, enabled, i)
  }

  ghost predicate WasSpread(run: seq<State>, e: Id, organization: Id, spread: Spread) {
    exists x: Id, i: nat, j: nat :: SpreadAt(run, e, organization, spread, x, i, j)
  }

  /** Where everything that the last state knows about fan-outs comes from. */
  ghost predicate Traced(run: seq<State>, s: State) {
    && (forall x :: x in s.fans && s.fans[x].reading.Some? ==> ReadingTraced(run, s, x))
    && (forall x, e :: x in s.fans && e in s.fans[x].done ==>
          e in s.events && WasSpread(run, e, s.events[e].organizationId, s.fans[x].done[e]))
    && (forall e :: e in s.events && s.events[e].processedAt.Some? ==> ProcessedTraced(run, s, e))
  }

  ghost predicate ReadingTraced(run: seq<State>, s: State, x: Id)
    requires x in s.fans && s.fans[x].reading.Some?
  {
    var r := s.fans[x].reading.value;
    r.eventId in s.events && WasRead(run, x, r.eventId, s.events[r.eventId].organizationId, r.enabled)
  }

  ghost predicate ProcessedTraced(run: seq<State>, s: State, e: Id)
    requires e in s.events && s.events[e].processedAt.Some?
  {
    e in s.fanouts && WasSpread(run, e, s.events[e].organizationId, Spread(s.events[e].processedAt.value, s.fanouts[e]))
  }

  // ----- longer runs

  lemma SpreadStays(run: seq<State>, n: State, e: Id, organization: Id, spread: Spread)
    requires WasSpread(run, e, organization, spread)
    ensures WasSpread(run + [n], e, organization, spread)
  {
    var x: Id, i: nat, j: nat :| SpreadAt(run, e, organization, spread, x, i, j);
    var longer := run + [n];
    assert forall p :: 0 <= p < |run| ==> longer[p] == run[p];
    assert SpreadAt(longer, e, organization, spread, x, i, j);
  }

  lemma ReadStays(run: seq<State>, n: State, x: Id, e: Id, organization: Id, enabled: set<Id>)
    requires WasRead(run, x, e, organization, enabled) && Holds(n, x, e)
    ensures WasRead(run + [n], x, e, organization, enabled)
  {
    var i: nat :| ReadSince(run, x, e, organization, enabled, i);
    var longer := run + [n];
    assert forall p :: 0 <= p < |run| ==> longer[p] == run[p];
    assert ReadSince(longer, x, e, organization, enabled, i);
  }

  /** Open fan-outs go on as they are, and processed events stay processed. */
  ghost predicate Continues(s: State, n: State) {
    && (forall x :: x in n.fans && n.fans[x].reading.Some? ==> x in s.fans && n.fans[x] == s.fans[x])
    && (forall x, e :: x in n.fans && e in n.fans[x].done ==> x in s.fans && n.fans[x] == s.fans[x])
    && (forall e :: e in n.events && n.events[e].processedAt.Some? ==>
          e in s.events && n.events[e] == s.events[e] && (e in s.fanouts ==> e in n.fanouts && n.fanouts[e] == s.fanouts[e]))
    && (forall x, e :: x in n.fans && e in n.fans[x].locked && e in s.events ==> e in n.events && n.events[e] == s.events[e])
  }

  lemma ContinuesTraced(run: seq<State>, s: State, n: State)
    requires FanInv(s) && Traced(run, s) && Continues(s, n)
    ensures Traced(run + [n], n)
  {
    forall x | x in n.fans && n.fans[x].reading.Some? ensures ReadingTraced(run + [n], n, x) {
      var r := s.fans[x].reading.value;
      assert FanOk(s, s.fans[x]) && ReadingTraced(run, s, x);
      ReadStays(run, n, x, r.eventId, s.events[r.eventId].organizationId, r.enabled);
    }
    forall x, e | x in n.fans && e in n.fans[x].done
      ensures e in n.events && WasSpread(run + [n], e, n.events[e].organizationId, n.fans[x].done[e])
    {
      assert FanOk(s, s.fans[x]) && e in s.fans[x].done.Keys;
      SpreadStays(run, n, e, s.events[e].organizationId, s.fans[x].done[e]);
    }
    forall e | e in n.events && n.events[e].processedAt.Some? ensures ProcessedTraced(run + [n], n, e) {
      assert ProcessedTraced(run, s, e);
      SpreadStays(run, n, e, s.events[e].organizationId, Spread(s.events[e].processedAt.value, s.fanouts[e]));
    }
  }

  /** All but reading, inserting and committing. */
  predicate Bystander(l: Label) {
    !l.FanRead? && !l.FanInsert? && !l.FanCommit?
  }

  lemma BystanderContinues(c: Config, s: State, l: Label)
    requires FanInv(s) && Enabled(c, s, l) && Bystander(l)
    ensures Continues(s, Apply(c, s, l))
  {
    if !OfFan(l) {
      PairsFrame(c, s, l);
      hide Enabled, Apply, FanInv;
    } else if l.EmitEvent? {
      EmitContinues(c, s, l.e, l.organizationId);
    } else if l.RetainEvents? {
      RetainContinues(c, s, l.cutoff, l.gone);
    } else {
      OpensAndEndsContinue(c, s, l);
    }
  }

  lemma EmitContinues(c: Config, s: State, e: Id, organizationId: Id)
    requires FanInv(s) && Enabled(c, s, EmitEvent(e, organizationId))
    ensures Continues(s, Apply(c, s, EmitEvent(e, organizationId)))
  {
    assert s.events.Keys <= s.eventIds;
    assert e !in s.events.Keys;
    hide FanInv;
  }

  lemma RetainContinues(c: Config, s: State, cutoff: Time, gone: set<Id>)
    requires FanInv(s) && Enabled(c, s, RetainEvents(cutoff, gone))
    ensures Continues(s, Apply(c, s, RetainEvents(cutoff, gone)))
  {
    forall x, e | x in s.fans && e in s.fans[x].locked ensures e !in gone {
      assert FanOk(s, s.fans[x]);
    }
    hide FanInv, WithoutEvents;
  }

  lemma OpensAndEndsContinue(c: Config, s: State, l: Label)
    requires Enabled(c, s, l) && Bystander(l) && OfFan(l) && !l.EmitEvent? && !l.RetainEvents?
    ensures Continues(s, Apply(c, s, l))
  {
    hide WithoutDestination, WithoutEvents, Released;
  }

  lemma ReadTraced(c: Config, run: seq<State>, s: State, x: Id, e: Id)
    requires FanInv(s) && Traced(run, s) && Enabled(c, s, FanRead(x, e)) && |run| > 0 && run[|run| - 1] == s
    ensures Traced(run + [AfterFanRead(s, x, e)], AfterFanRead(s, x, e))
  {
    var n := AfterFanRead(s, x, e);
    var longer := run + [n];
    var organization := s.events[e].organizationId;
    assert FanOk(s, s.fans[x]);
    assert ReadSince(longer, x, e, organization, EnabledFor(s.destinations, organization), |run| - 1) by {
      assert longer[|run| - 1] == s && longer[|run|] == n;
    }
    assert ReadingTraced(longer, n, x);
    OthersTraced(run, s, n, x);
  }

  /** The other fan-outs, and the events already done in x, when x alone changes. */
  lemma OthersTraced(run: seq<State>, s: State, n: State, x: Id)
    requires FanInv(s) && Traced(run, s)
    requires n.events == s.events && n.fanouts == s.fanouts
    requires forall y :: y in n.fans && y != x ==> y in s.fans && n.fans[y] == s.fans[y]
    ensures forall y :: y in n.fans && y != x && n.fans[y].reading.Some? ==> ReadingTraced(run + [n], n, y)
    ensures forall y, e :: y in n.fans && y != x && e in n.fans[y].done ==>
      e in n.events && WasSpread(run + [n], e, n.events[e].organizationId, n.fans[y].done[e])
    ensures forall e :: x in s.fans && e in s.fans[x].done ==>
      e in n.events && WasSpread(run + [n], e, n.events[e].organizationId, s.fans[x].done[e])
    ensures forall e :: e in n.events && n.events[e].processedAt.Some? ==> ProcessedTraced(run + [n], n, e)
  {
    var m := n.(fans := n.fans - {x});
    forall y | y in n.fans && y != x && n.fans[y].reading.Some? ensures ReadingTraced(run + [n], n, y) {
      var r := s.fans[y].reading.value;
      assert FanOk(s, s.fans[y]) && ReadingTraced(run, s, y);
      ReadStays(run, n, y, r.eventId, s.events[r.eventId].organizationId, r.enabled);
    }
    forall y, e | y in s.fans && e in s.fans[y].done
      ensures e in n.events && WasSpread(run + [n], e, n.events[e].organizationId, s.fans[y].done[e])
    {
      SpreadStays(run, n, e, s.events[e].organizationId, s.fans[y].done[e]);
    }
    forall e | e in n.events && n.events[e].processedAt.Some? ensures ProcessedTraced(run + [n], n, e) {
      assert ProcessedTraced(run, s, e);
      SpreadStays(run, n, e, s.events[e].organizationId, Spread(s.events[e].processedAt.value, s.fanouts[e]));
    }
  }

  lemma InsertTraced(c: Config, run: seq<State>, s: State, x: Id, targets: map<Id, Id>)
    requires FanInv(s) && Traced(run, s) && Enabled(c, s, FanInsert(x, targets)) && |run| > 0 && run[|run| - 1] == s
    ensures Traced(run + [AfterFanInsert(s, x, targets)], AfterFanInsert(s, x, targets))
  {
    var n := AfterFanInsert(s, x, targets);
    InsertsAll(c, s, x, targets);
    OthersTraced(run, s, n, x);
    if Range(targets) <= s.destinations.Keys {
      InsertSpread(run, s, n, x);
      assert n.fans[x] == WithRows(s.fans[x], targets, s.now);
    }
    InsertedFans(s, x, targets);
    hide FanInv, Enabled, AfterFanInsert, Range, Traced, WasSpread, ProcessedTraced, ReadingTraced;
    TracedByParts(run, s, n, x);
  }

  /** After an insert the fan-out has no reading, and one event more is done, or it is gone. */
  lemma InsertedFans(s: State, x: Id, targets: map<Id, Id>)
    requires x in s.fans && s.fans[x].reading.Some?
    ensures var fans := AfterFanInsert(s, x, targets).fans;
      x in fans ==>
        var r := s.fans[x].reading.value;
        fans[x].reading.None? && fans[x].done == s.fans[x].done[r.eventId := Spread(s.now, r.enabled)]
  {
    hide Range, NewRows;
    WithRowsDone(s.fans[x], targets, s.now);
    hide WithRows;
  }

  lemma WithRowsDone(fan: FanOut, targets: map<Id, Id>, now: Time)
    requires fan.reading.Some?
    ensures var n := WithRows(fan, targets, now); var r := fan.reading.value;
      n.reading.None? && n.locked == fan.locked && n.done == fan.done[r.eventId := Spread(now, r.enabled)]
  {
  }

  lemma TracedByParts(run: seq<State>, s: State, n: State, x: Id)
    requires x in s.fans && s.fans[x].reading.Some?
    requires x in n.fans ==>
      var r := s.fans[x].reading.value;
      && n.fans[x].reading.None? && n.fans[x].done == s.fans[x].done[r.eventId := Spread(s.now, r.enabled)]
      && r.eventId in n.events && WasSpread(run + [n], r.eventId, n.events[r.eventId].organizationId, Spread(s.now, r.enabled))
    requires forall y :: y in n.fans && y != x && n.fans[y].reading.Some? ==> ReadingTraced(run + [n], n, y)
    requires forall y, e :: y in n.fans && y != x && e in n.fans[y].done ==>
      e in n.events && WasSpread(run + [n], e, n.events[e].organizationId, n.fans[y].done[e])
    requires forall e :: e in s.fans[x].done ==>
      e in n.events && WasSpread(run + [n], e, n.events[e].organizationId, s.fans[x].done[e])
    requires forall e :: e in n.events && n.events[e].processedAt.Some? ==> ProcessedTraced(run + [n], n, e)
    ensures Traced(run + [n], n)
  {
    hide WasSpread, ProcessedTraced, ReadingTraced;
  }

  /** The fan-out reads its clock in the last state, in which its destinations are still there. */
  lemma InsertSpread(run: seq<State>, s: State, n: State, x: Id)
    requires Traced(run, s) && |run| > 0 && run[|run| - 1] == s && x in s.fans && s.fans[x].reading.Some?
    requires s.fans[x].reading.value.enabled <= s.destinations.Keys
    ensures var r := s.fans[x].reading.value;
      r.eventId in s.events && WasSpread(run + [n], r.eventId, s.events[r.eventId].organizationId, Spread(s.now, r.enabled))
  {
    var r := s.fans[x].reading.value;
    assert ReadingTraced(run, s, x);
    var organization := s.events[r.eventId].organizationId;
    var i: nat :| ReadSince(run, x, r.eventId, organization, r.enabled, i);
    assert SpreadAt(run, r.eventId, organization, Spread(s.now, r.enabled), x, i, |run| - 1);
    hide Traced;
    SpreadStays(run, n, r.eventId, organization, Spread(s.now, r.enabled));
  }

  lemma CommitTraced(c: Config, run: seq<State>, s: State, x: Id)
    requires FanInv(s) && Traced(run, s) && Enabled(c, s, FanCommit(x))
    ensures Traced(run + [AfterFanCommit(s, x)], AfterFanCommit(s, x))
  {
    var n := AfterFanCommit(s, x);
    var fan := s.fans[x];
    assert FanOk(s, fan);
    forall y | y in n.fans && n.fans[y].reading.Some? ensures ReadingTraced(run + [n], n, y) {
      var r := s.fans[y].reading.value;
      assert FanOk(s, s.fans[y]) && ReadingTraced(run, s, y);
      ReadStays(run, n, y, r.eventId, s.events[r.eventId].organizationId, r.enabled);
    }
    forall y, e | y in n.fans && e in n.fans[y].done
      ensures e in n.events && WasSpread(run + [n], e, n.events[e].organizationId, n.fans[y].done[e])
    {
      SpreadStays(run, n, e, s.events[e].organizationId, s.fans[y].done[e]);
    }
    forall e | e in n.events && n.events[e].processedAt.Some? ensures ProcessedTraced(run + [n], n, e) {
      if e in fan.done {
        SpreadStays(run, n, e, s.events[e].organizationId, fan.done[e]);
        assert Spread(fan.done[e].at, fan.done[e].enabled) == fan.done[e];
      } else {
        assert ProcessedTraced(run, s, e);
        SpreadStays(run, n, e, s.events[e].organizationId, Spread(s.events[e].processedAt.value, s.fanouts[e]));
      }
    }
  }

  lemma StepTraced(c: Config, run: seq<State>, s: State, l: Label)
    requires FanInv(s) && Traced(run, s) && Enabled(c, s, l) && |run| > 0 && run[|run| - 1] == s
    ensures Traced(run + [Apply(c, s, l)], Apply(c, s, l))
  {
    hide FanInv, Traced, AfterFanRead, AfterFanInsert, AfterFanCommit;
    if Bystander(l) {
      hide Enabled, Apply;
      BystanderContinues(c, s, l);
      ContinuesTraced(run, s, Apply(c, s, l));
      return;
    }
    match l
    case FanRead(x, e) => ReadTraced(c, run, s, x, e);
    case FanInsert(x, targets) => InsertTraced(c, run, s, x, targets);
    case FanCommit(x) => CommitTraced(c, run, s, x);
  }

  lemma InitTraced(s: State)
    requires Init(s)
    ensures Traced([s], s)
  {
  }

  lemma {:induction false} RunTraced(c: Config, run: seq<State>, k: nat)
    requires Run(c, run) && k < |run|
    ensures Traced(run[..k + 1], run[k])
  {
    hide Traced, Init, Enabled, Apply, All, FanInv;
    if k == 0 {
      InitTraced(run[0]);
      assert run[..1] == [run[0]];
    } else {
      RunTraced(c, run, k - 1);
      RunFan(c, run, k - 1);
      assert Step(c, run[k - 1], run[k - 1 + 1]);
      var l :| Enabled(c, run[k - 1], l) && run[k] == Apply(c, run[k - 1], l);
      assert run[..k - 1 + 1] == run[..k] && run[..k] + [run[k]] == run[..k + 1];
      StepTraced(c, run[..k], run[k - 1], l);
    }
  }

  lemma RunFan(c: Config, run: seq<State>, k: nat)
    requires Run(c, run) && k < |run|
    ensures FanInv(run[k])
  {
    RunHolds(c, run, k);
  }

  // ----- the results

  /**
    A processed event has had exactly one row for each destination that was enabled for its
    organization when an open fan-out read them, in state i; the fan-out read its clock, the
    `processed_at`, in the later state j, and every one of them was still there.
   */
  lemma FanoutIsExact(c: Config, run: seq<State>, k: nat, e: Id) returns (x: Id, i: nat, j: nat)
    requires Run(c, run) && k < |run| && e in run[k].events && run[k].events[e].processedAt.Some?
    ensures e in run[k].fanouts && j <= k && BornFor(run[k].births, e, run[k].fanouts[e])
    ensures SpreadAt(run, e, run[k].events[e].organizationId, Spread(run[k].events[e].processedAt.value, run[k].fanouts[e]), x, i, j)
  {
    RunHolds(c, run, k);
    RunTraced(c, run, k);
    var s := run[k];
    var spread := Spread(s.events[e].processedAt.value, s.fanouts[e]);
    assert ProcessedTraced(run[..k + 1], s, e);
    assert FanInv(s) && BornFor(s.births, e, s.fanouts[e]);
    hide Run, Traced, FanInv, BornFor;
    x, i, j :| SpreadAt(run[..k + 1], e, s.events[e].organizationId, spread, x, i, j);
    PrefixSpread(run, k, e, s.events[e].organizationId, spread, x, i, j);
  }

  lemma PrefixSpread(run: seq<State>, k: nat, e: Id, organization: Id, spread: Spread, x: Id, i: nat, j: nat)
    requires k < |run| && SpreadAt(run[..k + 1], e, organization, spread, x, i, j)
    ensures SpreadAt(run, e, organization, spread, x, i, j)
  {
    assert forall p :: 0 <= p <= k ==> run[..k + 1][p] == run[p];
    hide EnabledIn, Holds;
  }

  /** A committed change of the destinations that are enabled for an organization. */
  ghost predicate Switches(s: State, n: State, organization: Id) {
    EnabledFor(s.destinations, organization) != EnabledFor(n.destinations, organization)
  }

  /** Such a change is step p of the run. */
  ghost predicate SwitchesAt(run: seq<State>, organization: Id, p: nat) {
    p + 1 < |run| && Switches(run[p], run[p + 1], organization)
  }

  lemma {:induction false} Unswitched(run: seq<State>, organization: Id, i: nat, j: nat)
    requires i <= j < |run| && forall p :: i <= p < j ==> !SwitchesAt(run, organization, p)
    ensures EnabledFor(run[i].destinations, organization) == EnabledFor(run[j].destinations, organization)
    decreases j - i
  {
    if i < j {
      Unswitched(run, organization, i, j - 1);
      assert !SwitchesAt(run, organization, j - 1);
    }
  }

  // ----- exactly when the rows fit the clock

  predicate On(destinations: map<Id, Destination>, g: Id, organization: Id) {
    g in destinations && destinations[g].organizationId == organization && destinations[g].enabled
  }

  predicate WritesDestination(l: Label, g: Id) {
    (l.PutDestination? || l.DropDestination?) && l.g == g
  }

  /** Step p is an update or a deletion of the destination g. */
  ghost predicate WritesAt(c: Config, run: seq<State>, g: Id, p: nat) {
    p + 1 < |run| && exists l :: Enabled(c, run[p], l) && run[p + 1] == Apply(c, run[p], l) && WritesDestination(l, g)
  }

  /** No update or deletion of g is committed from state i to state j. */
  ghost predicate Unwritten(c: Config, run: seq<State>, g: Id, i: nat, j: nat) {
    forall q: nat :: i <= q < j ==> !WritesAt(c, run, g, q)
  }

  /** Step p is the last one of them. */
  ghost predicate LastWrite(c: Config, run: seq<State>, g: Id, i: nat, j: nat, p: nat) {
    i <= p < j < |run| && WritesAt(c, run, g, p) && Unwritten(c, run, g, p + 1, j)
  }

  lemma UnwrittenStep(c: Config, run: seq<State>, g: Id, p: nat, organization: Id)
    requires Run(c, run) && p + 1 < |run| && !WritesAt(c, run, g, p)
    ensures On(run[p].destinations, g, organization) == On(run[p + 1].destinations, g, organization)
  {
    StepAt(c, run, p);
    hide Run;
    var l :| Enabled(c, run[p], l) && run[p + 1] == Apply(c, run[p], l);
    assert !WritesDestination(l, g);
    if l.PutDestination? || l.DropDestination? {
      OtherEntriesStay(c, run[p], l, g);
    } else {
      hide Enabled, Apply;
      OtherStepsKeepDestinations(c, run[p], l);
    }
  }

  lemma OtherEntriesStay(c: Config, s: State, l: Label, g: Id)
    requires Enabled(c, s, l) && (l.PutDestination? || l.DropDestination?) && l.g != g
    ensures g in Apply(c, s, l).destinations <==> g in s.destinations
    ensures g in s.destinations ==> Apply(c, s, l).destinations[g] == s.destinations[g]
  {
    hide WithoutDestination, DestinationInUse;
  }

  /** What a write leaves is what it wrote. */
  lemma WriteLeaves(c: Config, s: State, l: Label, g: Id, organization: Id)
    requires Enabled(c, s, l) && WritesDestination(l, g)
    ensures On(Apply(c, s, l).destinations, g, organization) <==>
      l.PutDestination? && l.destination.enabled && l.destination.organizationId == organization
  {
    hide WithoutDestination, DestinationInUse;
  }

  lemma {:induction false} UnwrittenStays(c: Config, run: seq<State>, g: Id, i: nat, j: nat, organization: Id)
    requires Run(c, run) && i <= j < |run| && Unwritten(c, run, g, i, j)
    ensures On(run[i].destinations, g, organization) == On(run[j].destinations, g, organization)
    decreases j - i
  {
    hide Run, WritesAt, On;
    if i < j {
      UnwrittenStep(c, run, g, j - 1, organization);
      UnwrittenStays(c, run, g, i, j - 1, organization);
    }
  }

  /** The last write of g in between, if any. */
  lemma {:induction false} FindLastWrite(c: Config, run: seq<State>, g: Id, i: nat, j: nat) returns (p: Option<nat>)
    requires i <= j < |run|
    ensures if p.Some? then LastWrite(c, run, g, i, j, p.value) else Unwritten(c, run, g, i, j)
    decreases j - i
  {
    hide WritesAt;
    if i == j {
      p := None;
    } else if WritesAt(c, run, g, j - 1) {
      p := Some(j - 1);
    } else {
      p := FindLastWrite(c, run, g, i, j - 1);
    }
  }

  /** What the last write says of g, if there is one, is what state i says. */
  ghost predicate Restored(c: Config, run: seq<State>, organization: Id, i: nat, j: nat, g: Id)
    requires i <= j < |run|
  {
    forall p: nat :: LastWrite(c, run, g, i, j, p) ==> (On(run[p + 1].destinations, g, organization) <==> On(run[i].destinations, g, organization))
  }

  lemma RestoredIff(c: Config, run: seq<State>, organization: Id, i: nat, j: nat, g: Id)
    requires Run(c, run) && i <= j < |run|
    ensures Restored(c, run, organization, i, j, g) <==>
      (On(run[i].destinations, g, organization) <==> On(run[j].destinations, g, organization))
  {
    var last := FindLastWrite(c, run, g, i, j);
    hide Run, On, WritesAt;
    if last.Some? {
      UnwrittenStays(c, run, g, last.value + 1, j, organization);
    } else {
      UnwrittenStays(c, run, g, i, j, organization);
    }
    forall p: nat | LastWrite(c, run, g, i, j, p)
      ensures On(run[p + 1].destinations, g, organization) == On(run[j].destinations, g, organization)
    {
      UnwrittenStays(c, run, g, p + 1, j, organization);
    }
  }

  lemma EnabledIsOn(destinations: map<Id, Destination>, organization: Id)
    ensures forall g :: g in EnabledFor(destinations, organization) <==> On(destinations, g, organization)
  {
  }

  lemma SameEnabledIff(c: Config, run: seq<State>, organization: Id, i: nat, j: nat)
    requires Run(c, run) && i <= j < |run|
    ensures EnabledFor(run[i].destinations, organization) == EnabledFor(run[j].destinations, organization)
      <==> forall g: Id :: Restored(c, run, organization, i, j, g)
  {
    var before, after := EnabledFor(run[i].destinations, organization), EnabledFor(run[j].destinations, organization);
    EnabledIsOn(run[i].destinations, organization);
    EnabledIsOn(run[j].destinations, organization);
    hide Run, Restored, EnabledFor, On;
    forall g: Id ensures Restored(c, run, organization, i, j, g) <==> (g in before <==> g in after) {
      RestoredIff(c, run, organization, i, j, g);
    }
    if forall g: Id :: Restored(c, run, organization, i, j, g) {
      forall g: Id ensures g in before <==> g in after { assert Restored(c, run, organization, i, j, g); }
      assert before == after;
    }
  }

  /**
    The rows of a processed event are those of the destinations enabled at `processed_at` if
    and only if every destination that users wrote between the fan-out's read and its clock was
    left, by its last update or deletion there, as the read found it. If not, a write that
    changes what is enabled was committed while the fan-out held the event, and a row too many is
    of a destination that is still there but not enabled any more.
   */
  lemma ExactAtTheClockIff(c: Config, run: seq<State>, k: nat, e: Id) returns (x: Id, i: nat, j: nat)
    requires Run(c, run) && k < |run| && e in run[k].events && run[k].events[e].processedAt.Some?
    ensures e in run[k].fanouts && j <= k && BornFor(run[k].births, e, run[k].fanouts[e])
    ensures SpreadAt(run, e, run[k].events[e].organizationId, Spread(run[k].events[e].processedAt.value, run[k].fanouts[e]), x, i, j)
    ensures var organization := run[k].events[e].organizationId;
      run[k].fanouts[e] == EnabledFor(run[j].destinations, organization) <==> forall g: Id :: Restored(c, run, organization, i, j, g)
    ensures var organization := run[k].events[e].organizationId;
      run[k].fanouts[e] != EnabledFor(run[j].destinations, organization)
      ==> exists p :: i <= p < j && SwitchesAt(run, organization, p) && Holds(run[p], x, e)
    ensures forall g :: g in run[k].fanouts[e] && !On(run[j].destinations, g, run[k].events[e].organizationId) ==> g in run[j].destinations
  {
    x, i, j := FanoutIsExact(c, run, k, e);
    ReadAndClock(c, run, e, run[k].events[e].organizationId, Spread(run[k].events[e].processedAt.value, run[k].fanouts[e]), x, i, j);
  }

  lemma ReadAndClock(c: Config, run: seq<State>, e: Id, organization: Id, spread: Spread, x: Id, i: nat, j: nat)
    requires Run(c, run) && SpreadAt(run, e, organization, spread, x, i, j)
    ensures spread.enabled == EnabledFor(run[j].destinations, organization) <==> forall g: Id :: Restored(c, run, organization, i, j, g)
    ensures spread.enabled != EnabledFor(run[j].destinations, organization)
      ==> exists p :: i <= p < j && SwitchesAt(run, organization, p) && Holds(run[p], x, e)
    ensures forall g :: g in spread.enabled && !On(run[j].destinations, g, organization) ==> g in run[j].destinations
  {
    hide Run, HeldFrom, EnabledFor, Restored, On;
    SameEnabledIff(c, run, organization, i, j);
    if spread.enabled != EnabledFor(run[j].destinations, organization) { SwitchBetween(run, e, organization, x, i, j); }
    assert forall g :: g in spread.enabled ==> g in run[j].destinations.Keys;
  }

  lemma SwitchBetween(run: seq<State>, e: Id, organization: Id, x: Id, i: nat, j: nat)
    requires i <= j < |run| && HeldFrom(run, x, e, i, j)
    requires EnabledFor(run[i].destinations, organization) != EnabledFor(run[j].destinations, organization)
    ensures exists p :: i <= p < j && SwitchesAt(run, organization, p) && Holds(run[p], x, e)
  {
    hide EnabledFor, Holds, SwitchesAt;
    if forall p :: i <= p < j ==> !SwitchesAt(run, organization, p) {
      Unswitched(run, organization, i, j);
    } else {
      var p :| i <= p < j && SwitchesAt(run, organization, p);
      assert Holds(run[p], x, e);
    }
  }

  /** Only a user's write or delete of a destination switches, never a step of the system. */
  lemma SwitchesAreUsers(c: Config, s: State, l: Label, organization: Id)
    requires Enabled(c, s, l) && Switches(s, Apply(c, s, l), organization)
    ensures l.PutDestination? || l.DropDestination?
  {
    if !l.PutDestination? && !l.DropDestination? { OtherStepsKeepDestinations(c, s, l); }
  }

  /** Steps of claims, outcomes and releases. */
  predicate OfTransaction(l: Label) {
    || l.ClaimSelect? || l.ClaimStamp? || l.ClaimCommit? || l.Abort? || l.OutcomeLock? || l.OutcomeCheck? || l.OutcomeCommit?
    || l.ReleaseBegin? || l.ReleaseRow? || l.ReleaseCommit?
  }

  lemma TransactionsKeepDestinations(c: Config, s: State, l: Label)
    requires Enabled(c, s, l) && OfTransaction(l)
    ensures Apply(c, s, l).destinations == s.destinations
  {
    hide Drop, AfterLoad, AfterReadRemaining, AfterStartSend, AfterEndSend, AfterOutcomeCheck, AfterFanRead, AfterFanInsert, AfterFanCommit;
    hide AfterOutcomeCommit, AfterClaimCommit, WithoutEvents, Released, Locked, LockedRows, PairTaken, EventLocked, Pending;
    hide DeliveryRemovable, EventRemovable, OneEach, Inverse;
  }

  lemma OthersKeepDestinations(c: Config, s: State, l: Label)
    requires Enabled(c, s, l) && !OfTransaction(l) && !l.PutDestination? && !l.DropDestination?
    ensures Apply(c, s, l).destinations == s.destinations
  {
    hide Drop, AfterLoad, AfterReadRemaining, AfterStartSend, AfterEndSend, AfterOutcomeCheck, AfterFanRead, AfterFanInsert, AfterFanCommit;
    hide AfterOutcomeCommit, AfterClaimCommit, WithoutEvents, Released, Locked, LockedRows, PairTaken, EventLocked, Pending;
    hide DeliveryRemovable, EventRemovable, OneEach, Inverse;
  }

  lemma OtherStepsKeepDestinations(c: Config, s: State, l: Label)
    requires Enabled(c, s, l) && !l.PutDestination? && !l.DropDestination?
    ensures Apply(c, s, l).destinations == s.destinations
  {
    hide Enabled, Apply;
    if OfTransaction(l) { TransactionsKeepDestinations(c, s, l); } else { OthersKeepDestinations(c, s, l); }
  }

  /** The insert goes through if and only if every destination that was read is still there. */
  lemma InsertSucceedsIff(c: Config, run: seq<State>, k: nat, x: Id, targets: map<Id, Id>)
    requires Run(c, run) && k < |run| && Enabled(c, run[k], FanInsert(x, targets))
    ensures x in AfterFanInsert(run[k], x, targets).fans <==> run[k].fans[x].reading.value.enabled <= run[k].destinations.Keys
    ensures Range(targets) == run[k].fans[x].reading.value.enabled
  {
    RunHolds(c, run, k);
    InsertsAll(c, run[k], x, targets);
  }

  // ----- a run in which a destination is disabled between the read and the clock

  const EXAMPLE := Config(Limits(60.0, 5.0, 5.0), 5, RetryPolicy(5, 300))

  function Bare(now: Time, events: map<Id, Event>, destinations: map<Id, Destination>, fans: map<Id, FanOut>): State {
    State(now, events, destinations, map[], fans, map[], map[], map[], {}, {1}, {}, map[], map[], [], map[])
  }

  function SwitchedState(n: nat): State {
    var event, on, off := Event(9, 0.0, None), Destination(9, true, 0.0), Destination(9, false, 0.0);
    var row := NewDelivery(4, 1, 2, 1.0);
    var inserted := Bare(1.0, map[1 := event], map[2 := off], map[3 := FanOut({1}, None, map[1 := Spread(1.0, {2})], map[4 := row])]);
    match n
    case 0 => Bare(0.0, map[], map[], map[]).(eventIds := {})
    case 1 => Bare(0.0, map[1 := event], map[], map[])
    case 2 => Bare(0.0, map[1 := event], map[2 := on], map[])
    case 3 => Bare(0.0, map[1 := event], map[2 := on], map[3 := FanOut({1}, None, map[], map[])])
    case 4 => Bare(0.0, map[1 := event], map[2 := on], map[3 := FanOut({1}, Some(Reading(1, {2})), map[], map[])])
    case 5 => Bare(0.0, map[1 := event], map[2 := off], map[3 := FanOut({1}, Some(Reading(1, {2})), map[], map[])])
    case 6 => Bare(1.0, map[1 := event], map[2 := off], map[3 := FanOut({1}, Some(Reading(1, {2})), map[], map[])])
    case 7 => inserted.(deliveryIds := {4})
    case _ => Bare(1.0, map[1 := Event(9, 0.0, Some(1.0))], map[2 := off], map[]).(
                deliveries := map[4 := row], deliveryIds := {4}, births := map[4 := Pair(1, 2)], fanouts := map[1 := {2}])
  }

  function SwitchedLabel(n: nat): Label {
    match n
    case 0 => EmitEvent(1, 9)
    case 1 => PutDestination(2, Destination(9, true, 0.0))
    case 2 => FanBegin(3, {1})
    case 3 => FanRead(3, 1)
    case 4 => PutDestination(2, Destination(9, false, 0.0))
    case 5 => Tick(1.0)
    case 6 => FanInsert(3, map[4 := 2])
    case _ => FanCommit(3)
  }

  /** The n-th label leads from the n-th state to the next. */
  ghost predicate Leads(n: nat) {
    Enabled(EXAMPLE, SwitchedState(n), SwitchedLabel(n)) && Apply(EXAMPLE, SwitchedState(n), SwitchedLabel(n)) == SwitchedState(n + 1)
  }

  lemma SwitchedStep(n: nat)
    requires n < 8
    ensures Leads(n)
  {
    hide Leads;
    match n
    case 0 => UserSteps(n);
    case 1 => UserSteps(n);
    case 2 => SwitchedBegin();
    case 3 => SwitchedRead();
    case 4 => UserSteps(n);
    case 5 => UserSteps(n);
    case 6 => SwitchedInsert();
    case _ => SwitchedCommit();
  }

  lemma SwitchedBegin()
    ensures Leads(2)
  {
    hide WithRows, NewRows;
  }

  lemma UserSteps(n: nat)
    requires n == 0 || n == 1 || n == 4 || n == 5
    ensures Leads(n)
  {
  }

  lemma SwitchedRead()
    ensures Leads(3)
  {
    assert EnabledFor(SwitchedState(3).destinations, 9) == {2};
  }

  lemma SwitchedInsert()
    ensures Leads(6)
  {
    var s := SwitchedState(6);
    assert map[4 := 2][4] == 2 && forall a :: a in map[4 := 2] <==> a == 4;
    assert Range(map[4 := 2]) == {2};
    assert (set g | g in {2} && !PairTaken(s.deliveries, 1, g)) == {2};
    OneRow(s.fans[3]);
    hide WithRows, Range;
  }

  lemma OneRow(fan: FanOut)
    requires fan == FanOut({1}, Some(Reading(1, {2})), map[], map[])
    ensures WithRows(fan, map[4 := 2], 1.0) == FanOut({1}, None, map[1 := Spread(1.0, {2})], map[4 := NewDelivery(4, 1, 2, 1.0)])
  {
    assert NewRows(1, map[4 := 2], 1.0) == map[4 := NewDelivery(4, 1, 2, 1.0)];
  }

  lemma SwitchedCommit()
    ensures Leads(7)
  {
    var s := SwitchedState(7);
    CommitOne(s, 3, 1, s.events[1], Spread(1.0, {2}), NewDelivery(4, 1, 2, 1.0));
    hide AfterFanCommit;
  }

  /** A fan-out of one event with one new row commits into empty tables. */
  lemma CommitOne(s: State, x: Id, e: Id, event: Event, spread: Spread, row: Delivery)
    requires s.fans == map[x := FanOut({e}, None, map[e := spread], map[row.id := row])] && s.events == map[e := event]
    requires s.deliveries == map[] && s.births == map[] && s.fanouts == map[]
    ensures AfterFanCommit(s, x) == s.(fans := map[], deliveries := map[row.id := row],
      events := map[e := event.(processedAt := Some(spread.at))], births := map[row.id := PairOf(row)], fanouts := map[e := spread.enabled])
  {
    assert PairsOf(map[row.id := row]) == map[row.id := PairOf(row)];
    var n := AfterFanCommit(s, x);
    assert n.events == map[e := event.(processedAt := Some(spread.at))];
    assert n.fanouts == map[e := spread.enabled];
  }

  lemma LeadsIsStep(n: nat)
    requires Leads(n)
    ensures Step(EXAMPLE, SwitchedState(n), SwitchedState(n + 1))
  {
    hide Enabled, Apply, SwitchedState, SwitchedLabel;
  }

  /** The event gets a row for a destination that was disabled throughout its `processed_at`. */
  lemma DisabledDestinationGetsARow() returns (run: seq<State>)
    ensures Run(EXAMPLE, run) && |run| == 9
    ensures 1 in run[8].events && run[8].events[1].processedAt == Some(1.0)
    ensures PairTaken(run[8].deliveries, 1, 2) && 1 in run[8].fanouts && run[8].fanouts[1] == {2}
    ensures forall p :: 0 <= p < 9 && run[p].now == 1.0 ==> EnabledFor(run[p].destinations, 9) == {}
  {
    run := seq(9, (n: nat) => SwitchedState(n));
    forall i: nat | i < 8 ensures Step(EXAMPLE, run[i], run[i + 1]) {
      SwitchedStep(i);
      LeadsIsStep(i);
    }
    assert run[8].deliveries[4] == NewDelivery(4, 1, 2, 1.0);
  }
}
