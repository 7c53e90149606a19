/**
  When no row is locked, each operation of the in-memory delivery repository is one run of
  the delivery protocol's steps, with the same rows before and after.
 */
module DeliverySimulation {
  import opened Prelude
  import opened Selection
  import opened Deliveries
  import opened Lease
  import opened DeliveryRepository
  import opened Tokens
  import opened DeliveryProtocol
  import opened DeliveryLeases
  import Fanout

  predicate AtRest(s: State) {
    s.txns == map[]
  }

  ghost predicate Keyed(rows: map<Id, Delivery>) {
    forall d :: d in rows ==> rows[d].id == d
  }

  lemma NothingLocked(s: State)
    requires AtRest(s)
    ensures LockedRows(s) == {} && forall d :: !Locked(s, d)
  {
  }

  /** With nothing locked the SQL claim has no choice but the in-memory claim's rows. */
  lemma ClaimsAgree(c: Config, s: State, x: Id, w: Id, limit: nat, exclude: set<Id>, chosen: seq<Due>, claimed: seq<Delivery>)
    requires AtRest(s) && Enabled(c, s, ClaimSelect(x, w, limit, exclude, chosen))
    requires FirstOf(Candidates(s.deliveries, exclude, c.maxAttempts, s.now), limit, DuesOf(claimed))
    ensures chosen == DuesOf(claimed)
  {
    NothingLocked(s);
    assert exclude + LockedRows(s) == exclude;
    FirstOfUnique(Candidates(s.deliveries, exclude, c.maxAttempts, s.now), limit, chosen, DuesOf(claimed));
  }

  lemma DueIds(claimed: seq<Delivery>)
    ensures (set due | due in DuesOf(claimed) :: due.id) == IdsOf(claimed)
  {
    forall d | d in claimed ensures DueOf(d) in DuesOf(claimed) {
      var i :| 0 <= i < |claimed| && claimed[i] == d;
      assert DuesOf(claimed)[i] == DueOf(d);
    }
    forall due | due in DuesOf(claimed) ensures due.id in IdsOf(claimed) {
      var i :| 0 <= i < |claimed| && DuesOf(claimed)[i] == due;
      assert claimed[i] in claimed;
    }
  }

  /** The steps of one database session: from s through the labels, each enabled in turn. */
  ghost predicate Steps(c: Config, s: State, labels: seq<Label>, n: State)
    decreases |labels|
  {
    if labels == [] then n == s
    else Enabled(c, s, labels[0]) && Steps(c, Apply(c, s, labels[0]), labels[1..], n)
  }

  lemma OneStep(c: Config, s: State, l: Label)
    requires Enabled(c, s, l)
    ensures Steps(c, s, [l], Apply(c, s, l))
  {
    assert [l][1..] == [];
  }

  lemma TwoSteps(c: Config, s: State, l: Label, m: Label)
    requires Enabled(c, s, l) && Enabled(c, Apply(c, s, l), m)
    ensures Steps(c, s, [l, m], Apply(c, Apply(c, s, l), m))
  {
    hide Enabled, Apply;
    OneStep(c, Apply(c, s, l), m);
    assert [l, m][1..] == [m];
  }

  lemma ThreeSteps(c: Config, s: State, l: Label, m: Label, k: Label)
    requires Enabled(c, s, l) && Enabled(c, Apply(c, s, l), m) && Enabled(c, Apply(c, Apply(c, s, l), m), k)
    ensures Steps(c, s, [l, m, k], Apply(c, Apply(c, Apply(c, s, l), m), k))
  {
    hide Enabled, Apply;
    TwoSteps(c, Apply(c, s, l), m, k);
    assert [l, m, k][1..] == [m, k];
  }

  function Selected(s: State, x: Id, w: Id, held: set<Id>): State {
    s.(txns := s.txns[x := Claiming(w, held, s.now, None)])
  }

  function Stamped(s: State, x: Id, w: Id, tokens: map<Id, Id>, rows: map<Id, Id>): State {
    s.(txns := s.txns[x := Claiming(w, tokens.Keys, s.now, Some(Stamping(s.now, tokens, rows)))], tokens := s.tokens + rows.Keys)
  }

  lemma SelectStep(c: Config, s: State, x: Id, w: Id, limit: nat, exclude: set<Id>, claimed: seq<Delivery>)
    requires AtRest(s) && FirstOf(Candidates(s.deliveries, exclude, c.maxAttempts, s.now), limit, DuesOf(claimed))
    ensures Enabled(c, s, ClaimSelect(x, w, limit, exclude, DuesOf(claimed)))
    ensures Apply(c, s, ClaimSelect(x, w, limit, exclude, DuesOf(claimed))) == Selected(s, x, w, IdsOf(claimed))
  {
    NothingLocked(s);
    assert exclude + LockedRows(s) == exclude;
    DueIds(claimed);
  }

  lemma StampStep(c: Config, s: State, x: Id, w: Id, tokens: map<Id, Id>, rows: map<Id, Id>)
    requires AtRest(s) && FreshTokens(tokens, s.tokens) && Inverse(tokens, rows)
    ensures Enabled(c, Selected(s, x, w, tokens.Keys), ClaimStamp(x, tokens, rows))
    ensures Apply(c, Selected(s, x, w, tokens.Keys), ClaimStamp(x, tokens, rows)) == Stamped(s, x, w, tokens, rows)
  {
    forall t | t in rows.Keys ensures t !in s.tokens {
      var a := rows[t];
      assert a in tokens && tokens[a] == t;
      assert tokens[a] !in s.tokens;
    }
    hide Inverse, FreshTokens, AtRest;
  }

  lemma CommitStep(c: Config, s: State, x: Id, w: Id, tokens: map<Id, Id>, rows: map<Id, Id>, after: map<Id, Delivery>)
    requires AtRest(s) && w !in s.waves && Inverse(tokens, rows)
    requires after == Stamp(s.deliveries, tokens, s.now + EffectiveLease(c.limits)) && tokens.Keys <= s.deliveries.Keys
    ensures Enabled(c, Stamped(s, x, w, tokens, rows), ClaimCommit(x, true))
    ensures var n := Apply(c, Stamped(s, x, w, tokens, rows), ClaimCommit(x, true));
      && n.deliveries == after
      && forall d :: d in tokens ==> tokens[d] in n.tasks && n.tasks[tokens[d]].claim.row == after[d]
  {
    var m := Stamped(s, x, w, tokens, rows);
    var n := AfterClaimCommit(c, m, x, true);
    assert n.deliveries == after;
    forall d | d in tokens ensures tokens[d] in n.tasks && n.tasks[tokens[d]].claim.row == after[d] {
      assert tokens[d] in rows && rows[tokens[d]] == d && d in s.deliveries.Keys;
    }
  }

  /**
    Select, stamp and commit at one instant do what `claim_pending` does in memory, and the
    tasks that start work on the rows it returned.
   */
  lemma ClaimSimulates(c: Config, s: State, x: Id, w: Id, limit: nat, exclude: set<Id>,
                       after: map<Id, Delivery>, claimed: seq<Delivery>, tokens: map<Id, Id>, rows: map<Id, Id>) returns (n: State)
    requires AtRest(s) && Keyed(s.deliveries) && w !in s.waves
    requires IsClaim(s.deliveries, after, claimed, tokens, Candidates(s.deliveries, exclude, c.maxAttempts, s.now), limit,
                     s.now + EffectiveLease(c.limits))
    requires FreshTokens(tokens, s.tokens) && Inverse(tokens, rows)
    ensures Steps(c, s, [ClaimSelect(x, w, limit, exclude, DuesOf(claimed)), ClaimStamp(x, tokens, rows), ClaimCommit(x, true)], n)
    ensures n.deliveries == after
    ensures forall d :: d in claimed ==> d.id in tokens && tokens[d.id] in n.tasks && n.tasks[tokens[d.id]].claim.row == d
  {
    assert forall d :: d in claimed ==> d.id in IdsOf(claimed);
    forall id | id in tokens.Keys ensures id in s.deliveries.Keys {
      var d :| d in claimed && d.id == id;
    }
    SelectStep(c, s, x, w, limit, exclude, claimed);
    StampStep(c, s, x, w, tokens, rows);
    CommitStep(c, s, x, w, tokens, rows, after);
    hide Enabled, Apply, Inverse, FreshTokens, FirstOf, Candidates;
    ThreeSteps(c, s, ClaimSelect(x, w, limit, exclude, DuesOf(claimed)), ClaimStamp(x, tokens, rows), ClaimCommit(x, true));
    n := Apply(c, Stamped(s, x, w, tokens, rows), ClaimCommit(x, true));
  }

  function Recorder(s: State, t: Id): Txn
    requires t in s.tasks && s.tasks[t].phase.Sent?
  {
    Recording(t, s.tasks[t].claim, s.tasks[t].phase.finishedAt, s.tasks[t].phase.result, None)
  }

  lemma RecordStep(c: Config, s: State, x: Id, t: Id)
    requires AtRest(s) && t in s.tasks && s.tasks[t].phase.Sent? && s.tasks[t].claim.row.id in s.deliveries
    ensures Enabled(c, s, OutcomeLock(x, t))
    ensures Apply(c, s, OutcomeLock(x, t)) == s.(txns := s.txns[x := Recorder(s, t)])
  {
    NothingLocked(s);
  }

  lemma CheckStep(c: Config, s: State, x: Id, t: Id)
    requires t in s.tasks && s.tasks[t].phase.Sent?
    ensures var s1 := s.(txns := s.txns[x := Recorder(s, t)]);
      && Enabled(c, s1, OutcomeCheck(x))
      && if RemainingLease(s.deliveries, s.tasks[t].claim.row.id, t, s.now).Some?
         then Apply(c, s1, OutcomeCheck(x)) == s.(txns := s.txns[x := Recorder(s, t).(checkedAt := Some(s.now))])
         else Apply(c, s1, OutcomeCheck(x)).deliveries == s.deliveries && x !in Apply(c, s1, OutcomeCheck(x)).txns
  {
    var s1 := s.(txns := s.txns[x := Recorder(s, t)]);
    assert s1.txns[x := Recorder(s, t).(checkedAt := Some(s.now))] == s.txns[x := Recorder(s, t).(checkedAt := Some(s.now))];
  }

  lemma WriteStep(c: Config, s: State, x: Id, t: Id, d: Id)
    requires t in s.tasks && s.tasks[t].phase.Sent? && d in s.deliveries && s.tasks[t].claim.row == s.deliveries[d] && d == s.deliveries[d].id
    requires WriteOutcome(s.tasks[t].claim.row, s.tasks[t].phase.result) == s.tasks[t].phase.result
    ensures var s2 := s.(txns := s.txns[x := Recorder(s, t).(checkedAt := Some(s.now))]);
      && Enabled(c, s2, OutcomeCommit(x))
      && Apply(c, s2, OutcomeCommit(x)).deliveries == s.deliveries[d := s.tasks[t].phase.result.(lockedUntil := None, leaseToken := None)]
  {
  }

  /** Writing the outcome: accepted under the lease, discarded otherwise, as in memory. */
  lemma UpdateSimulates(c: Config, s: State, x: Id, t: Id) returns (n: State)
    requires Inv(c, s) && AtRest(s) && t in s.tasks && s.tasks[t].phase.Sent?
    requires s.tasks[t].claim.row.id in s.deliveries
    ensures s.tasks[t].phase.result.id == s.tasks[t].claim.row.id
    ensures var d := s.tasks[t].claim.row.id;
      if RemainingLease(s.deliveries, d, t, s.now).Some?
      then Steps(c, s, [OutcomeLock(x, t), OutcomeCheck(x), OutcomeCommit(x)], n)
        && n.deliveries == s.deliveries[d := s.tasks[t].phase.result.(lockedUntil := None, leaseToken := None)]
      else Steps(c, s, [OutcomeLock(x, t), OutcomeCheck(x)], n) && n.deliveries == s.deliveries
  {
    var claim := s.tasks[t].claim;
    assert ClaimOk(c, s.tokens, s.now, t, claim) && PhaseOk(c, s.now, s.tasks[t]);
    RecordStep(c, s, x, t);
    CheckStep(c, s, x, t);
    if RemainingLease(s.deliveries, claim.row.id, t, s.now).Some? {
      assert s.deliveries[claim.row.id] == claim.row;
      WriteStep(c, s, x, t, claim.row.id);
      hide Enabled, Apply, Inv;
      ThreeSteps(c, s, OutcomeLock(x, t), OutcomeCheck(x), OutcomeCommit(x));
      n := Apply(c, s.(txns := s.txns[x := Recorder(s, t).(checkedAt := Some(s.now))]), OutcomeCommit(x));
    } else {
      hide Enabled, Apply, Inv;
      TwoSteps(c, s, OutcomeLock(x, t), OutcomeCheck(x));
      n := Apply(c, s.(txns := s.txns[x := Recorder(s, t)]), OutcomeCheck(x));
    }
  }

  lemma BeginStep(c: Config, s: State, x: Id, w: Id)
    requires AtRest(s) && w in s.waves
    ensures Enabled(c, s, ReleaseBegin(x, w)) && Apply(c, s, ReleaseBegin(x, w)) == s.(txns := map[x := Releasing(map[])])
  {
  }

  lemma RowStep(c: Config, s: State, x: Id, w: Id, t: Id, d: Id)
    requires w in s.waves && t in s.waves[w] && (forall u :: u in s.waves[w] ==> u !in s.tasks)
    requires d in s.deliveries && s.deliveries[d].leaseToken == Some(t)
    ensures var s1 := s.(txns := map[x := Releasing(map[])]);
      Enabled(c, s1, ReleaseRow(x, w, t, d)) && Apply(c, s1, ReleaseRow(x, w, t, d)) == s.(txns := map[x := Releasing(map[d := t])])
  {
    var s1 := s.(txns := map[x := Releasing(map[])]);
    assert !Locked(s1, d);
    assert s1.txns[x := Releasing(map[][d := t])] == map[x := Releasing(map[d := t])];
  }

  lemma ReleaseStep(c: Config, s: State, x: Id, t: Id, d: Id)
    requires d in s.deliveries && s.deliveries[d].leaseToken == Some(t)
    ensures var s2 := s.(txns := map[x := Releasing(map[d := t])]);
      Enabled(c, s2, ReleaseCommit(x)) && Apply(c, s2, ReleaseCommit(x)).deliveries == ReleaseLock(s.deliveries, d, t)
  {
  }

  /** Releasing one claim of a drained wave. */
  lemma ReleaseSimulates(c: Config, s: State, x: Id, w: Id, t: Id, d: Id) returns (n: State)
    requires AtRest(s) && w in s.waves && t in s.waves[w] && forall u :: u in s.waves[w] ==> u !in s.tasks
    ensures n.deliveries == ReleaseLock(s.deliveries, d, t)
    ensures Steps(c, s, if d in s.deliveries && s.deliveries[d].leaseToken == Some(t)
                        then [ReleaseBegin(x, w), ReleaseRow(x, w, t, d), ReleaseCommit(x)] else [], n)
  {
    n := s;
    if d in s.deliveries && s.deliveries[d].leaseToken == Some(t) {
      BeginStep(c, s, x, w);
      RowStep(c, s, x, w, t, d);
      ReleaseStep(c, s, x, t, d);
      hide Enabled, Apply;
      ThreeSteps(c, s, ReleaseBegin(x, w), ReleaseRow(x, w, t, d), ReleaseCommit(x));
      n := Apply(c, s.(txns := map[x := Releasing(map[d := t])]), ReleaseCommit(x));
    }
  }

  // ----- fan-out

  function Opened(s: State, x: Id, fan: FanOut): State {
    s.(fans := map[x := fan])
  }

  function ReadFan(s: State, e: Id): FanOut
    requires e in s.events
  {
    FanOut({e}, Some(Reading(e, EnabledFor(s.destinations, s.events[e].organizationId))), map[], map[])
  }

  lemma BeginFanStep(c: Config, s: State, x: Id, e: Id)
    requires s.fans == map[] && Pending(s, e)
    ensures Enabled(c, s, FanBegin(x, {e})) && Apply(c, s, FanBegin(x, {e})) == Opened(s, x, FanOut({e}, None, map[], map[]))
  {
    assert !EventLocked(s, e);
  }

  lemma ReadFanStep(c: Config, s: State, x: Id, e: Id)
    requires Pending(s, e)
    ensures var s1 := Opened(s, x, FanOut({e}, None, map[], map[]));
      Enabled(c, s1, FanRead(x, e)) && Apply(c, s1, FanRead(x, e)) == Opened(s, x, ReadFan(s, e))
  {
    var s1 := Opened(s, x, FanOut({e}, None, map[], map[]));
    assert s1.fans[x := ReadFan(s, e)] == map[x := ReadFan(s, e)];
  }

  function Inserted(s: State, x: Id, e: Id, targets: map<Id, Id>): State
    requires e in s.events
  {
    Opened(s, x, WithRows(ReadFan(s, e), targets, s.now)).(deliveryIds := s.deliveryIds + targets.Keys)
  }

  lemma InsertStep(c: Config, s: State, x: Id, e: Id, targets: map<Id, Id>)
    requires Pending(s, e) && targets.Keys !! s.deliveryIds && OneEach(targets)
    requires Range(targets) == set g | g in EnabledFor(s.destinations, s.events[e].organizationId) && !PairTaken(s.deliveries, e, g)
    ensures Enabled(c, Opened(s, x, ReadFan(s, e)), FanInsert(x, targets))
    ensures Apply(c, Opened(s, x, ReadFan(s, e)), FanInsert(x, targets)) == Inserted(s, x, e, targets)
    ensures Enabled(c, Inserted(s, x, e, targets), FanCommit(x))
  {
    InsertEnabled(c, s, x, e, targets);
    InsertApplies(c, s, x, e, targets);
    InsertedFan(s, x, e, targets);
    hide WithRows, Range, Apply;
  }

  lemma InsertEnabled(c: Config, s: State, x: Id, e: Id, targets: map<Id, Id>)
    requires Pending(s, e) && targets.Keys !! s.deliveryIds && OneEach(targets)
    requires Range(targets) == set g | g in EnabledFor(s.destinations, s.events[e].organizationId) && !PairTaken(s.deliveries, e, g)
    ensures Enabled(c, Opened(s, x, ReadFan(s, e)), FanInsert(x, targets))
  {
    hide EnabledFor, Range;
  }

  lemma InsertApplies(c: Config, s: State, x: Id, e: Id, targets: map<Id, Id>)
    requires Pending(s, e) && Enabled(c, Opened(s, x, ReadFan(s, e)), FanInsert(x, targets))
    requires Range(targets) <= EnabledFor(s.destinations, s.events[e].organizationId)
    ensures Apply(c, Opened(s, x, ReadFan(s, e)), FanInsert(x, targets)) == Inserted(s, x, e, targets)
  {
    hide Enabled, AfterFanInsert, WithRows, Range, EnabledFor, OneEach;
    InsertInto(s, x, e, targets);
  }

  lemma InsertInto(s: State, x: Id, e: Id, targets: map<Id, Id>)
    requires e in s.events && Range(targets) <= EnabledFor(s.destinations, s.events[e].organizationId)
    ensures AfterFanInsert(Opened(s, x, ReadFan(s, e)), x, targets) == Inserted(s, x, e, targets)
  {
    assert Range(targets) <= s.destinations.Keys by {
      assert forall g :: g in Range(targets) ==> g in s.destinations.Keys;
    }
    hide WithRows, Range, EnabledFor;
  }

  lemma InsertedFan(s: State, x: Id, e: Id, targets: map<Id, Id>)
    requires Pending(s, e)
    ensures var fan := WithRows(ReadFan(s, e), targets, s.now);
      && Opened(s, x, ReadFan(s, e)).fans[x := fan] == map[x := fan]
      && fan.done.Keys == {e} && fan.locked == {e}
  {
  }

  lemma CommitFanStep(c: Config, s: State, x: Id, e: Id, targets: map<Id, Id>)
    requires Pending(s, e)
    ensures var n := AfterFanCommit(Inserted(s, x, e, targets), x);
      && n.deliveries == s.deliveries + Fanout.RowsFor(targets, e, s.now)
      && n.events == s.events[e := s.events[e].(processedAt := Some(s.now))]
  {
    var fan := WithRows(ReadFan(s, e), targets, s.now);
    assert fan.inserted == Fanout.RowsFor(targets, e, s.now) && fan.done.Keys == {e} && fan.done[e].at == s.now;
    hide WithRows, ReadFan, Fanout.RowsFor, PairsOf;
  }

  /** Fanning one event out in memory is begin, read, insert and commit of the protocol. */
  lemma FanOutSimulates(c: Config, s: State, x: Id, e: Id, targets: map<Id, Id>) returns (n: State)
    requires s.fans == map[] && Pending(s, e)
    requires targets.Keys !! s.deliveryIds && OneEach(targets)
    requires Range(targets) == set g | g in EnabledFor(s.destinations, s.events[e].organizationId) && !PairTaken(s.deliveries, e, g)
    ensures Steps(c, s, [FanBegin(x, {e}), FanRead(x, e), FanInsert(x, targets), FanCommit(x)], n)
    ensures n.deliveries == s.deliveries + Fanout.RowsFor(targets, e, s.now)
    ensures n.events == s.events[e := s.events[e].(processedAt := Some(s.now))]
  {
    BeginFanStep(c, s, x, e);
    ReadFanStep(c, s, x, e);
    InsertStep(c, s, x, e, targets);
    CommitFanStep(c, s, x, e, targets);
    n := AfterFanCommit(Inserted(s, x, e, targets), x);
    assert Apply(c, Inserted(s, x, e, targets), FanCommit(x)) == n;
    hide Enabled, Apply, Range, OneEach, Opened, Inserted, ReadFan, AfterFanCommit;
    var s1 := Opened(s, x, FanOut({e}, None, map[], map[]));
    ThreeSteps(c, s1, FanRead(x, e), FanInsert(x, targets), FanCommit(x));
    assert [FanBegin(x, {e}), FanRead(x, e), FanInsert(x, targets), FanCommit(x)][1..] == [FanRead(x, e), FanInsert(x, targets), FanCommit(x)];
  }
}
