/**
  What a claim of deliveries takes and leaves, column by column: every row that is due and
  not held, however it came to be so, and no other.
 */
module DeliveryClaims {
  import opened Prelude
  import opened Selection
  import opened Deliveries
  import opened Lease
  import opened DeliveryProtocol
  import opened FanoutHistory

  /** A chosen row is unlocked, not excluded, unprocessed, has attempts left, is due and under no lease. */
  lemma ChosenRowIsFree(c: Config, s: State, x: Id, w: Id, limit: nat, exclude: set<Id>, chosen: seq<Due>, due: Due)
    requires Enabled(c, s, ClaimSelect(x, w, limit, exclude, chosen)) && due in chosen
    ensures due.id in s.deliveries && due.id !in exclude && forall y :: y in s.txns ==> due.id !in Held(s.txns[y])
    ensures var row := s.deliveries[due.id];
      && row.processedAt.None? && row.attempts < c.maxAttempts && row.nextAttemptAt <= s.now && due.at == row.nextAttemptAt
      && (row.lockedUntil.None? || row.lockedUntil.value <= s.now)
  {
    assert due in Elements(chosen);
  }

  /**
    A claim that returns fewer rows than its limit takes every row that no transaction holds,
    that is not excluded, unprocessed, with attempts left, due, and under no lease or one that has run
    out: also the rows of a worker that crashed.
   */
  lemma ShortClaimTakesAll(c: Config, s: State, x: Id, w: Id, limit: nat, exclude: set<Id>, chosen: seq<Due>, d: Id)
    requires Enabled(c, s, ClaimSelect(x, w, limit, exclude, chosen)) && |chosen| < limit
    requires d in s.deliveries && d !in exclude && forall y :: y in s.txns ==> d !in Held(s.txns[y])
    requires s.deliveries[d].processedAt.None? && s.deliveries[d].attempts < c.maxAttempts && s.deliveries[d].nextAttemptAt <= s.now
    requires s.deliveries[d].lockedUntil.None? || s.deliveries[d].lockedUntil.value <= s.now
    ensures Due(s.deliveries[d].nextAttemptAt, d) in chosen
  {
    ShortIsAll(Candidates(s.deliveries, exclude + LockedRows(s), c.maxAttempts, s.now), limit, chosen);
    assert Due(s.deliveries[d].nextAttemptAt, d) in Elements(chosen);
  }

  /** A full claim leaves such a row only for rows that were due before it, or at once with a smaller id. */
  lemma FullClaimTakesTheOldest(c: Config, s: State, x: Id, w: Id, limit: nat, exclude: set<Id>, chosen: seq<Due>, d: Id)
    requires Enabled(c, s, ClaimSelect(x, w, limit, exclude, chosen))
    requires d in s.deliveries && d !in exclude && forall y :: y in s.txns ==> d !in Held(s.txns[y])
    requires s.deliveries[d].processedAt.None? && s.deliveries[d].attempts < c.maxAttempts && s.deliveries[d].nextAttemptAt <= s.now
    requires s.deliveries[d].lockedUntil.None? || s.deliveries[d].lockedUntil.value <= s.now
    ensures |chosen| <= limit
    ensures Due(s.deliveries[d].nextAttemptAt, d) in chosen ||
      (|chosen| == limit && forall due :: due in chosen ==>
         due.at < s.deliveries[d].nextAttemptAt || (due.at == s.deliveries[d].nextAttemptAt && due.id < d))
  {
    if |chosen| < limit {
      ShortClaimTakesAll(c, s, x, w, limit, exclude, chosen, d);
    } else {
      assert Due(s.deliveries[d].nextAttemptAt, d) in Candidates(s.deliveries, exclude + LockedRows(s), c.maxAttempts, s.now);
    }
  }

  // ----- a run in which a worker crashes and another takes its delivery over

  const STAMPED := Stamping(1.0, map[4 := 7], map[7 := 4])

  /** The state in which a delivery has just been fanned out, and what happens to its row from there on. */
  function TakeoverState(n: nat): State {
    var start := SwitchedState(8);
    var leased := start.deliveries[4].(lockedUntil := Some(61.0), leaseToken := Some(7));
    var claimed := start.(deliveries := map[4 := leased], tokens := {7});
    var running := claimed.(tasks := map[7 := Task(Claim(leased, 1.0, 61.0), Loading)], waves := map[6 := {7}]);
    match n
    case 0 => start
    case 1 => start.(txns := map[5 := Claiming(6, {4}, 1.0, None)])
    case 2 => start.(txns := map[5 := Claiming(6, {4}, 1.0, Some(STAMPED))], tokens := {7})
    case 3 => running
    case 4 => claimed
    case 5 => claimed.(now := 61.0)
    case _ => claimed.(now := 61.0, txns := map[8 := Claiming(9, {4}, 61.0, None)])
  }

  function TakeoverLabel(n: nat): Label {
    match n
    case 0 => ClaimSelect(5, 6, 1, {}, [Due(1.0, 4)])
    case 1 => ClaimStamp(5, map[4 := 7], map[7 := 4])
    case 2 => ClaimCommit(5, true)
    case 3 => Crash(6)
    case 4 => Tick(61.0)
    case _ => ClaimSelect(8, 9, 2, {}, [Due(1.0, 4)])
  }

  ghost predicate Takes(n: nat) {
    Enabled(EXAMPLE, TakeoverState(n), TakeoverLabel(n)) && Apply(EXAMPLE, TakeoverState(n), TakeoverLabel(n)) == TakeoverState(n + 1)
  }

  lemma OnlyCandidate(s: State, row: Delivery, limit: nat)
    requires s.deliveries == map[4 := row] && s.txns == map[] && limit >= 1
    requires row.processedAt.None? && row.attempts == 0 && row.nextAttemptAt == 1.0 <= s.now
    requires row.lockedUntil.None? || row.lockedUntil.value <= s.now
    ensures FirstOf(Candidates(s.deliveries, {} + LockedRows(s), 5, s.now), limit, [Due(1.0, 4)])
    ensures (set due | due in [Due(1.0, 4)] :: due.id) == {4}
  {
    var all := Candidates(s.deliveries, {} + LockedRows(s), 5, s.now);
    assert LockedRows(s) == {};
    assert Due(s.deliveries[4].nextAttemptAt, 4) in all;
    assert all == {Due(1.0, 4)};
    assert Due(1.0, 4) in [Due(1.0, 4)];
  }

  lemma FirstSelect()
    ensures Takes(0)
  {
    OnlyCandidate(SwitchedState(8), NewDelivery(4, 1, 2, 1.0), 1);
    hide FirstOf, Candidates;
  }

  lemma SecondSelect()
    ensures Takes(5)
  {
    var s := TakeoverState(5);
    OnlyCandidate(s, s.deliveries[4], 2);
    hide FirstOf, Candidates;
  }

  lemma StampTakes()
    ensures Takes(1)
  {
    StampedState();
    TokenOfOne();
    hide Enabled, Apply, TakeoverState, Inverse;
    StampOf(TakeoverState(1), Claiming(6, {4}, 1.0, None), map[4 := 7], map[7 := 4]);
  }

  lemma TokenOfOne()
    ensures Inverse(map[4 := 7], map[7 := 4]) && map[4 := 7].Keys == {4} && map[7 := 4].Keys == {7}
  {
  }

  lemma StampedState()
    ensures TakeoverLabel(1) == ClaimStamp(5, map[4 := 7], map[7 := 4])
    ensures var s := TakeoverState(1);
      && s.txns == map[5 := Claiming(6, {4}, 1.0, None)] && s.tokens == {} && s.now == 1.0
      && TakeoverState(2) == s.(txns := map[5 := Claiming(6, {4}, 1.0, Some(STAMPED))], tokens := {7})
  {
  }

  lemma StampOf(s: State, txn: Txn, minted: map<Id, Id>, rows: map<Id, Id>)
    requires s.txns == map[5 := txn] && txn.Claiming? && txn.stamp.None?
    requires minted.Keys == txn.rows && rows.Keys !! s.tokens && Inverse(minted, rows)
    ensures var l := ClaimStamp(5, minted, rows);
      && Enabled(EXAMPLE, s, l)
      && Apply(EXAMPLE, s, l) == s.(txns := map[5 := txn.(stamp := Some(Stamping(s.now, minted, rows)))], tokens := s.tokens + rows.Keys)
  {
    hide Inverse;
    var stamped := txn.(stamp := Some(Stamping(s.now, minted, rows)));
    assert s.txns[5 := stamped] == map[5 := stamped];
  }

  lemma CommitTakes()
    ensures Takes(2)
  {
    ClaimedState();
    var s := TakeoverState(2);
    hide Enabled, Apply, TakeoverState, AfterClaimCommit;
    CommitOfOne(s, s.deliveries[4]);
    CommitIs(s);
  }

  lemma ClaimedState()
    ensures TakeoverLabel(2) == ClaimCommit(5, true)
    ensures var s := TakeoverState(2);
      && 4 in s.deliveries && s.deliveries == map[4 := s.deliveries[4]]
      && s.txns == map[5 := Claiming(6, {4}, 1.0, Some(STAMPED))] && s.tasks == map[] && s.waves == map[]
      && var leased := s.deliveries[4].(lockedUntil := Some(61.0), leaseToken := Some(7));
         TakeoverState(3) == s.(txns := map[], deliveries := map[4 := leased],
           tasks := map[7 := Task(Claim(leased, 1.0, 61.0), Loading)], waves := map[6 := {7}])
  {
  }

  lemma CommitIs(s: State)
    requires s.txns == map[5 := Claiming(6, {4}, 1.0, Some(STAMPED))] && s.waves == map[]
    ensures Enabled(EXAMPLE, s, ClaimCommit(5, true))
    ensures Apply(EXAMPLE, s, ClaimCommit(5, true)) == AfterClaimCommit(EXAMPLE, s, 5, true)
  {
    hide AfterClaimCommit;
  }

  /** Committing the claim of the only row. */
  lemma CommitOfOne(s: State, row: Delivery)
    requires s.deliveries == map[4 := row] && s.txns == map[5 := Claiming(6, {4}, 1.0, Some(STAMPED))]
    requires s.tasks == map[] && s.waves == map[]
    ensures var leased := row.(lockedUntil := Some(61.0), leaseToken := Some(7));
      AfterClaimCommit(EXAMPLE, s, 5, true) == s.(txns := map[], deliveries := map[4 := leased],
        tasks := map[7 := Task(Claim(leased, 1.0, 61.0), Loading)], waves := map[6 := {7}])
  {
    ClaimedOne(s, row);
    TaskOfOne(row);
    hide Claimed, NewTasks, Stamp;
    assert STAMPED.rows.Keys == {7};
  }

  lemma ClaimedOne(s: State, row: Delivery)
    requires s.deliveries == map[4 := row] && s.txns == map[5 := Claiming(6, {4}, 1.0, Some(STAMPED))]
    ensures ExpiryOf(EXAMPLE, STAMPED) == 61.0
    ensures Claimed(EXAMPLE, s, 5) == s.(txns := map[], deliveries := map[4 := row.(lockedUntil := Some(61.0), leaseToken := Some(7))])
  {
    assert s.txns - {5} == map[];
    assert Stamp(s.deliveries, STAMPED.tokens, 61.0) == map[4 := row.(lockedUntil := Some(61.0), leaseToken := Some(7))];
    hide Stamp;
  }

  lemma TaskOfOne(row: Delivery)
    ensures var leased := row.(lockedUntil := Some(61.0), leaseToken := Some(7));
      map[] + NewTasks(map[4 := leased], STAMPED, 61.0) == map[7 := Task(Claim(leased, 1.0, 61.0), Loading)]
  {
    var leased := row.(lockedUntil := Some(61.0), leaseToken := Some(7));
    assert STAMPED.rows == map[7 := 4];
    assert NewTasks(map[4 := leased], STAMPED, 61.0) == map[7 := Task(Claim(leased, 1.0, 61.0), Loading)];
  }

  lemma CrashTakes()
    ensures Takes(3)
  {
    var s := TakeoverState(3);
    RunningState();
    hide Enabled, Apply, TakeoverState, Drop;
    CrashOfOne(s);
    CrashIs(s);
  }

  lemma RunningState()
    ensures TakeoverLabel(3) == Crash(6)
    ensures var s := TakeoverState(3);
      && s.tasks.Keys == {7} && s.waves == map[6 := {7}] && s.sends == [] && TakeoverState(4) == s.(tasks := map[], waves := map[])
  {
  }

  lemma CrashIs(s: State)
    requires s.waves == map[6 := {7}]
    ensures Enabled(EXAMPLE, s, Crash(6)) && Apply(EXAMPLE, s, Crash(6)) == Drop(s, {7}).(waves := map[])
  {
    hide Drop;
    assert map[6 := {7}] - {6} == map[];
  }

  lemma CrashOfOne(s: State)
    requires s.tasks.Keys == {7} && s.sends == []
    ensures Drop(s, {7}) == s.(tasks := map[], sends := [])
  {
    assert Drop(s, {7}).tasks.Keys == {};
  }

  lemma TickTakes()
    ensures Takes(4)
  {
  }

  lemma TakeoverStep(n: nat)
    requires n < 6
    ensures Takes(n)
  {
    hide Takes;
    match n
    case 0 => FirstSelect();
    case 1 => StampTakes();
    case 2 => CommitTakes();
    case 3 => CrashTakes();
    case 4 => TickTakes();
    case _ => SecondSelect();
  }

  lemma StepOf(n: nat)
    requires n < 6
    ensures Step(EXAMPLE, TakeoverState(n), TakeoverState(n + 1))
  {
    TakeoverStep(n);
    hide Enabled, Apply;
  }

  /** Every claim of whatever limit comes back empty. */
  ghost predicate NobodyClaims(s: State) {
    forall x, w, limit, chosen :: Enabled(EXAMPLE, s, ClaimSelect(x, w, limit, {}, chosen)) ==> chosen == []
  }

  /**
    After the run that fans one delivery out, worker 6 claims it and crashes; nobody can take the
    row while its lease lasts, and at the expiry worker 9 does, with the old token still on it.
   */
  lemma CrashedClaimIsTakenOver() returns (run: seq<State>)
    ensures |run| == 15
    ensures 4 in run[12].deliveries && run[12].deliveries[4].leaseToken == Some(7) && run[12].waves == map[] && run[12].tasks == map[]
    ensures run[12].now < 61.0 == run[13].now && 4 in run[13].deliveries && run[13].deliveries[4].lockedUntil == Some(61.0)
    ensures NobodyClaims(run[12])
    ensures 8 in run[14].txns && run[14].txns[8] == Claiming(9, {4}, 61.0, None)
    ensures Run(EXAMPLE, run)
  {
    run := seq(15, (n: nat) => TakeoverRun(n));
    hide Init, Run, Step, TakeoverRun, Enabled, ValidConfig, NobodyClaims;
    TakeoverFacts();
    TakeoverRuns(run);
  }

  lemma TakeoverRuns(run: seq<State>)
    requires |run| == 15 && forall n: nat :: n < 15 ==> run[n] == TakeoverRun(n)
    ensures Run(EXAMPLE, run)
  {
    hide Init, Step, TakeoverRun, ValidConfig, NobodyClaims;
    TakeoverFacts();
    forall i | 0 <= i < 14 ensures Step(EXAMPLE, run[i], run[i + 1]) { RunStep(i); }
  }

  function TakeoverRun(n: nat): State {
    if n <= 8 then SwitchedState(n) else TakeoverState(n - 8)
  }

  lemma RunStep(i: nat)
    requires i < 14
    ensures Step(EXAMPLE, TakeoverRun(i), TakeoverRun(i + 1))
  {
    hide Step, Leads, SwitchedState, TakeoverState;
    if i < 8 {
      SwitchedStep(i);
      LeadsIsStep(i);
    } else {
      StepOf(i - 8);
      StartsThere();
    }
  }

  lemma StartsThere()
    ensures TakeoverState(0) == SwitchedState(8)
  {
    hide SwitchedState;
  }

  lemma TakeoverFacts()
    ensures Init(TakeoverRun(0)) && ValidConfig(EXAMPLE)
    ensures var s := TakeoverRun(12);
      && 4 in s.deliveries && s.deliveries[4].leaseToken == Some(7) && s.waves == map[] && s.tasks == map[] && s.now < 61.0
      && NobodyClaims(s)
    ensures var s := TakeoverRun(13); s.now == 61.0 && 4 in s.deliveries && s.deliveries[4].lockedUntil == Some(61.0)
    ensures var s := TakeoverRun(14); 8 in s.txns && s.txns[8] == Claiming(9, {4}, 61.0, None)
  {
    LeasedIsNotTaken(TakeoverState(4));
    hide Enabled;
  }

  lemma LeasedIsNotTaken(s: State)
    requires s.deliveries.Keys == {4} && s.deliveries[4].lockedUntil == Some(61.0) && s.now < 61.0
    ensures NobodyClaims(s)
  {
    forall x, w, limit, chosen | Enabled(EXAMPLE, s, ClaimSelect(x, w, limit, {}, chosen)) ensures chosen == [] {
      NoneChosen(s, x, w, limit, chosen);
    }
  }

  lemma NoneChosen(s: State, x: Id, w: Id, limit: nat, chosen: seq<Due>)
    requires s.deliveries.Keys == {4} && s.deliveries[4].lockedUntil == Some(61.0) && s.now < 61.0
    requires Enabled(EXAMPLE, s, ClaimSelect(x, w, limit, {}, chosen))
    ensures |chosen| == 0
  {
    assert Candidates(s.deliveries, {} + LockedRows(s), EXAMPLE.maxAttempts, s.now) == {};
  }
}
