/** What holds in every run of the delivery protocol, from empty tables on. */
module DeliveryTheorems {
  import opened Prelude
  import opened Selection
  import opened Deliveries
  import opened Lease
  import opened DeliveryProtocol
  import opened DeliveryLeases
  import opened DeliverySends
  import opened DeliveryOutcomes
  import opened DeliveryFanout

  ghost predicate All(c: Config, s: State) {
    Inv(c, s) && SendInv(c, s) && OutcomeInv(c, s) && FanInv(s)
  }

  lemma InitHolds(c: Config, s: State)
    requires ValidConfig(c) && Init(s)
    ensures All(c, s)
  {
  }

  lemma StepHolds(c: Config, s: State, n: State)
    requires All(c, s) && Step(c, s, n)
    ensures All(c, n)
  {
    hide Inv, SendInv, OutcomeInv, FanInv;
    var l :| Enabled(c, s, l) && n == Apply(c, s, l);
    StepKeeps(c, s, l);
    StepKeepsSends(c, s, l);
    StepKeepsOutcomes(c, s, l);
    StepKeepsFan(c, s, l);
  }

  /** Every state of every run satisfies all the invariants. */
  lemma {:induction false} RunHolds(c: Config, run: seq<State>, k: nat)
    requires Run(c, run) && k < |run|
    ensures All(c, run[k])
  {
    hide All;
    if k == 0 {
      InitHolds(c, run[0]);
    } else {
      RunHolds(c, run, k - 1);
      assert Step(c, run[k - 1], run[k - 1 + 1]);
      StepHolds(c, run[k - 1], run[k]);
    }
  }

  // ----- sends

  /** Sends of one delivery never overlap, whichever workers, crashes and expiries a run has. */
  lemma SendsNeverOverlap(c: Config, run: seq<State>, k: nat, i: nat, j: nat)
    requires Run(c, run) && k < |run| && i < j < |run[k].sends|
    requires run[k].sends[i].delivery == run[k].sends[j].delivery
    ensures run[k].sends[i].ended.Some? && run[k].sends[i].ended.value <= run[k].sends[j].start
  {
    RunHolds(c, run, k);
  }

  /** Every send ends, or will be stopped, a database timeout before its lease runs out. */
  lemma SendsFitTheirLease(c: Config, run: seq<State>, k: nat, i: nat)
    requires Run(c, run) && k < |run| && i < |run[k].sends|
    ensures var send := run[k].sends[i];
      && send.deadline <= send.expiry - c.limits.databaseTimeout
      && (send.ended.Some? ==> send.start <= send.ended.value <= send.deadline)
      && (send.ended.None? ==> run[k].now <= send.deadline)
  {
    RunHolds(c, run, k);
    var send := run[k].sends[i];
    assert SendOk(c, run[k], send);
    if send.ended.None? {
      assert PhaseOk(c, run[k].now, run[k].tasks[send.token]);
    }
  }

  /** A claim sends at most once, and while it sends its row is still its own. */
  lemma SendsOwnTheirRow(c: Config, run: seq<State>, k: nat, i: nat)
    requires Run(c, run) && k < |run| && i < |run[k].sends|
    ensures forall j :: 0 <= j < |run[k].sends| && run[k].sends[j].token == run[k].sends[i].token ==> i == j
    ensures var s := run[k]; var send := s.sends[i];
      send.ended.None? && send.delivery in s.deliveries ==>
        && s.deliveries[send.delivery].leaseToken == Some(send.token)
        && s.deliveries[send.delivery].lockedUntil == Some(send.expiry)
        && s.deliveries[send.delivery].processedAt.None?
  {
    RunHolds(c, run, k);
    var s := run[k];
    var send := s.sends[i];
    assert SendOk(c, s, send);
    if send.ended.None? {
      assert PhaseOk(c, s.now, s.tasks[send.token]) && ClaimOk(c, s.tokens, s.now, send.token, s.tasks[send.token].claim);
      assert OwnsRow(s.deliveries, s.txns, send.token, s.tasks[send.token].claim);
    }
  }

  // ----- outcomes

  /**
    Every accepted outcome was written under its claim's own token before that lease ran
    out, no token was used twice, `attempts` counts exactly the accepted outcomes and never
    exceeds the maximum, and a success is the last outcome.
   */
  lemma OutcomesAreFenced(c: Config, run: seq<State>, k: nat, d: Id)
    requires Run(c, run) && k < |run|
    ensures var h := HistoryOf(run[k], d);
      && (forall i :: 0 <= i < |h| ==> h[i].claimedAt <= h[i].checkedAt < h[i].claimedAt + EffectiveLease(c.limits))
      && (forall i, j :: 0 <= i < j < |h| ==> h[i].token != h[j].token && !h[i].success)
      && (forall i, e, j :: (0 <= i < |h| && e != d && 0 <= j < |HistoryOf(run[k], e)|) ==>
            h[i].token != HistoryOf(run[k], e)[j].token)
      && (d in run[k].deliveries ==>
            && run[k].deliveries[d].attempts == |h| <= c.maxAttempts
            && (run[k].deliveries[d].processedAt.Some? <==> h != [] && h[|h| - 1].success))
  {
    RunHolds(c, run, k);
    var s := run[k];
    var h := HistoryOf(s, d);
    if d in s.outcomes { assert HistoryOk(c, s, h); }
    if d in s.deliveries {
      assert RowTells(c.retry, s.deliveries[d], h) && RowOk(c, s.tokens, d, s.deliveries[d]);
    }
    forall i | 0 <= i < |h| ensures OutcomeOk(c, s.now, s.tokens, h[i]) {}
  }

  /** After its k-th failure a delivery is not claimed before the retry delay is over. */
  lemma NoEarlyClaim(c: Config, run: seq<State>, k: nat, x: Id, w: Id, limit: nat, exclude: set<Id>, chosen: seq<Due>, due: Due)
    requires Run(c, run) && k < |run|
    requires Enabled(c, run[k], ClaimSelect(x, w, limit, exclude, chosen)) && due in chosen
    ensures var h := HistoryOf(run[k], due.id);
      && |h| < c.maxAttempts
      && (h != [] ==>
          && !h[|h| - 1].success
          && run[k].now >= h[|h| - 1].finishedAt + Wait(c.retry, |h|) as Time)
  {
    var s := run[k];
    RunTells(c, run, k, due.id);
    ChosenIsEligible(c, s, x, w, limit, exclude, chosen, due);
    hide Run, Enabled, HistoryOf, Wait, RetryDelay;
    WaitIs(c.retry, |HistoryOf(s, due.id)|);
  }

  lemma WaitIs(policy: RetryPolicy, k: nat)
    ensures k >= 1 ==> Wait(policy, k) == RetryDelay(policy, k)
  {
    if k >= 1 { RetryDelayIs(policy, k); }
  }

  lemma RunTells(c: Config, run: seq<State>, k: nat, d: Id)
    requires Run(c, run) && k < |run|
    ensures d in run[k].deliveries ==> RowTells(c.retry, run[k].deliveries[d], HistoryOf(run[k], d))
  {
    RunHolds(c, run, k);
    hide Run, RowTells;
  }

  lemma ChosenIsEligible(c: Config, s: State, x: Id, w: Id, limit: nat, exclude: set<Id>, chosen: seq<Due>, due: Due)
    requires Enabled(c, s, ClaimSelect(x, w, limit, exclude, chosen)) && due in chosen
    ensures due.id in s.deliveries && Eligible(s.deliveries[due.id], c.maxAttempts, s.now)
  {
    assert due in Elements(chosen);
  }

  /**
    n accepted attempts of one delivery take at least the first n - 1 waits; while those are
    below the cap, that is the base times 2^(n - 1) - 1.
   */
  lemma AttemptsTakeTime(c: Config, run: seq<State>, k: nat, d: Id, n: nat)
    requires Run(c, run) && k < |run| && 1 <= n <= |HistoryOf(run[k], d)|
    ensures var h := HistoryOf(run[k], d);
      h[n - 1].finishedAt - h[0].finishedAt >= TotalWait(c.retry, n - 1) as Time
    ensures n == 1 || Doubled(c.retry.baseSeconds, n - 2) <= c.retry.maxSeconds ==>
      var h := HistoryOf(run[k], d);
      h[n - 1].finishedAt - h[0].finishedAt >= (c.retry.baseSeconds * (Pow2(n - 1) - 1)) as Time
  {
    hide Run, HistoryOk, HistoryOf, TotalWait, Pow2, Doubled;
    var h := HistoryOf(run[k], d);
    RunHistory(c, run, k, d);
    ScheduleTakes(c, run[k], h, n);
    if n == 1 || Doubled(c.retry.baseSeconds, n - 2) <= c.retry.maxSeconds { WaitsAddUp(c.retry, n - 1); }
  }

  lemma RunHistory(c: Config, run: seq<State>, k: nat, d: Id)
    requires Run(c, run) && k < |run| && HistoryOf(run[k], d) != []
    ensures HistoryOk(c, run[k], HistoryOf(run[k], d))
  {
    RunHolds(c, run, k);
    hide Run, HistoryOk;
  }

  // ----- rows over time

  ghost predicate SettledOrGone(s: State, n: State, d: Id) {
    d in s.deliveries && s.deliveries[d].processedAt.Some? ==> d !in n.deliveries || n.deliveries[d] == s.deliveries[d]
  }

  ghost predicate StaysGone(s: State, n: State, d: Id) {
    d in s.births && d !in s.deliveries ==> d !in n.deliveries
  }

  /** Steps that change rows in place. */
  predicate Rewrites(l: Label) {
    l.ClaimCommit? || l.OutcomeCommit? || l.ReleaseCommit? || l.FanCommit?
  }

  lemma OtherStepsOnlyDropRows(c: Config, s: State, l: Label)
    requires Enabled(c, s, l) && !Rewrites(l)
    ensures forall d :: d in Apply(c, s, l).deliveries ==> d in s.deliveries && Apply(c, s, l).deliveries[d] == s.deliveries[d]
    ensures Apply(c, s, l).births == s.births
  {
    if Plain(l) { PlainFrame(c, s, l); }
  }

  lemma SettledClaim(c: Config, s: State, l: Label, d: Id)
    requires Txns(c, s) && Enabled(c, s, l) && l.ClaimCommit?
    ensures SettledOrGone(s, Apply(c, s, l), d) && StaysGone(s, Apply(c, s, l), d)
  {
    assert TxnOk(c, s, s.txns[l.x]);
  }

  lemma SettledOutcome(c: Config, s: State, l: Label, d: Id)
    requires Txns(c, s) && Enabled(c, s, l) && l.OutcomeCommit?
    ensures SettledOrGone(s, Apply(c, s, l), d) && StaysGone(s, Apply(c, s, l), d)
  {
    assert TxnOk(c, s, s.txns[l.x]);
  }

  lemma SettledRelease(c: Config, s: State, l: Label, d: Id)
    requires Rows(c, s) && Enabled(c, s, l) && l.ReleaseCommit?
    ensures SettledOrGone(s, Apply(c, s, l), d) && StaysGone(s, Apply(c, s, l), d)
  {
    assert d in s.deliveries ==> RowOk(c, s.tokens, d, s.deliveries[d]);
  }

  lemma SettledFanCommit(c: Config, s: State, l: Label, d: Id)
    requires Ids(s) && Enabled(c, s, l) && l.FanCommit?
    ensures SettledOrGone(s, Apply(c, s, l), d) && StaysGone(s, Apply(c, s, l), d)
  {
    assert s.fans[l.x].inserted.Keys !! s.births.Keys && s.deliveries.Keys <= s.births.Keys;
  }

  lemma SettledStep(c: Config, s: State, l: Label, d: Id)
    requires Inv(c, s) && Enabled(c, s, l)
    ensures SettledOrGone(s, Apply(c, s, l), d) && StaysGone(s, Apply(c, s, l), d)
  {
    hide Enabled, Apply, Txns, Rows, Ids, Tasks, Mints, Ownership, OneLive, TokenRows, Locks, Carriers;
    if l.ClaimCommit? { SettledClaim(c, s, l, d); }
    else if l.OutcomeCommit? { SettledOutcome(c, s, l, d); }
    else if l.ReleaseCommit? { SettledRelease(c, s, l, d); }
    else if l.FanCommit? { SettledFanCommit(c, s, l, d); }
    else { OtherStepsOnlyDropRows(c, s, l); }
  }

  lemma BirthsGrow(c: Config, s: State, l: Label)
    requires Enabled(c, s, l)
    ensures s.births.Keys <= Apply(c, s, l).births.Keys
  {
    if !OfFan(l) {
      PairsFrame(c, s, l);
      hide Enabled, Apply;
    } else {
      hide AfterFanRead, AfterFanInsert, PairsOf;
    }
  }

  lemma BornStays(c: Config, s: State, n: State, d: Id)
    requires All(c, s) && Step(c, s, n)
    ensures SettledOrGone(s, n, d) && StaysGone(s, n, d)
    ensures d in s.births || d in s.deliveries ==> d in n.births
  {
    var l :| Enabled(c, s, l) && n == Apply(c, s, l);
    assert d in s.deliveries.Keys ==> d in s.births.Keys;
    hide Enabled, Apply, Inv, SendInv, OutcomeInv, FanInv;
    SettledStep(c, s, l, d);
    BirthsGrow(c, s, l);
    assert d in s.births.Keys ==> d in n.births.Keys;
  }

  /** A processed delivery is never claimed or changed again, and a deleted one never returns. */
  lemma {:induction false} ProcessedIsFinal(c: Config, run: seq<State>, i: nat, j: nat, d: Id)
    requires Run(c, run) && i <= j < |run|
    requires d in run[i].deliveries && run[i].deliveries[d].processedAt.Some?
    ensures d in run[j].deliveries ==> run[j].deliveries[d] == run[i].deliveries[d]
    ensures d in run[j].births
    decreases j - i
  {
    hide All;
    if i == j {
      RunHolds(c, run, i);
      BornAlready(c, run[i], d);
    } else {
      ProcessedIsFinal(c, run, i, j - 1, d);
      RunHolds(c, run, j - 1);
      assert Step(c, run[j - 1], run[j - 1 + 1]);
      BornStays(c, run[j - 1], run[j], d);
    }
  }

  lemma BornAlready(c: Config, s: State, d: Id)
    requires All(c, s) && d in s.deliveries
    ensures d in s.births
  {
    assert d in s.deliveries.Keys;
  }

  /**
    A row only ever goes with its destination or, processed and past its retention, to
    cleanup; deleting an event deletes no delivery with it.
   */
  lemma OnlyDoneOrOrphanedRowsGo(c: Config, s: State, l: Label, d: Id)
    requires Enabled(c, s, l) && d in s.deliveries
    requires l.DropDestination? ==> s.deliveries[d].destinationId != l.g
    requires l.RetainDeliveries? ==> !DeliveryRemovable(s, d, l.cutoff)
    ensures d in Apply(c, s, l).deliveries
  {
    hide Enabled, Apply;
    if Rewrites(l) {
      SurvivesRewrites(c, s, l, d);
    } else if l.DropDestination? || l.RetainDeliveries? || l.RetainEvents? {
      SurvivesCleanup(c, s, l, d);
    } else {
      SurvivesQuietSteps(c, s, l);
    }
  }

  lemma SurvivesRewrites(c: Config, s: State, l: Label, d: Id)
    requires Enabled(c, s, l) && d in s.deliveries && Rewrites(l)
    ensures d in Apply(c, s, l).deliveries
  {
    match l
    case ClaimCommit(x, returned) => assert d in AfterClaimCommit(c, s, x, returned).deliveries;
    case OutcomeCommit(x) => SurvivesOutcome(s, x, d);
    case ReleaseCommit(x) => assert d in Released(s.deliveries, s.txns[x].tokens);
    case FanCommit(x) => assert d in AfterFanCommit(s, x).deliveries;
  }

  lemma SurvivesOutcome(s: State, x: Id, d: Id)
    requires x in s.txns && s.txns[x].Recording? && s.txns[x].checkedAt.Some? && d in s.deliveries
    ensures d in AfterOutcomeCommit(s, x).deliveries
  {
    hide AfterOutcomeCommit, WriteOutcome;
    OutcomeRows(s, x);
  }

  lemma SurvivesCleanup(c: Config, s: State, l: Label, d: Id)
    requires Enabled(c, s, l) && d in s.deliveries && (l.DropDestination? || l.RetainDeliveries? || l.RetainEvents?)
    requires l.DropDestination? ==> s.deliveries[d].destinationId != l.g
    requires l.RetainDeliveries? ==> !DeliveryRemovable(s, d, l.cutoff)
    ensures d in Apply(c, s, l).deliveries
  {
  }

  lemma SurvivesQuietSteps(c: Config, s: State, l: Label)
    requires Enabled(c, s, l) && !Rewrites(l) && !l.DropDestination? && !l.RetainDeliveries? && !l.RetainEvents?
    ensures Apply(c, s, l).deliveries == s.deliveries
  {
    hide Drop, AfterLoad, AfterReadRemaining, AfterStartSend, AfterEndSend, AfterOutcomeCheck, AfterFanRead, AfterFanInsert;
  }

  /** Processed, released, and its event fanned out: what retention asks of a row besides its age. */
  predicate Finished(s: State, d: Id)
    requires d in s.deliveries
  {
    var row := s.deliveries[d];
    row.processedAt.Some? && row.leaseToken.None? && row.eventId in s.events && s.events[row.eventId].processedAt.Some?
  }

  /** The p-th step takes the row away: its destination goes too, or the row was finished. */
  ghost predicate LeavesAt(run: seq<State>, p: nat, d: Id)
    requires p + 1 < |run|
  {
    && d in run[p].deliveries && d !in run[p + 1].deliveries
    && (run[p].deliveries[d].destinationId !in run[p + 1].destinations || Finished(run[p], d))
  }

  lemma LeavingStep(c: Config, run: seq<State>, p: nat, d: Id)
    requires p + 1 < |run| && Step(c, run[p], run[p + 1]) && d in run[p].deliveries && d !in run[p + 1].deliveries
    ensures LeavesAt(run, p, d)
  {
    var s := run[p];
    var l :| Enabled(c, s, l) && run[p + 1] == Apply(c, s, l);
    if l.DropDestination? && s.deliveries[d].destinationId == l.g {
      assert l.g !in run[p + 1].destinations;
    } else if !l.RetainDeliveries? || !DeliveryRemovable(s, d, l.cutoff) {
      OnlyDoneOrOrphanedRowsGo(c, s, l, d);
    }
  }

  /** Whatever a run does, a row that is gone left with its destination or when it was finished. */
  lemma {:induction false} RowsLeaveWithReason(c: Config, run: seq<State>, i: nat, j: nat, d: Id)
    requires Run(c, run) && i <= j < |run| && d in run[i].deliveries && d !in run[j].deliveries
    ensures exists p: nat :: i <= p < j && LeavesAt(run, p, d)
    decreases j - i
  {
    hide Run, Step, LeavesAt;
    StepAt(c, run, j - 1);
    if d in run[j - 1].deliveries {
      LeavingStep(c, run, j - 1, d);
    } else {
      RowsLeaveWithReason(c, run, i, j - 1, d);
    }
  }

  lemma StepAt(c: Config, run: seq<State>, p: nat)
    requires Run(c, run) && p + 1 < |run|
    ensures Step(c, run[p], run[p + 1])
  {
  }

  // ----- fan-out

  /** In the whole history of a run, a pair of event and destination has one row at most. */
  lemma OneRowPerPair(c: Config, run: seq<State>, k: nat, d: Id, e: Id)
    requires Run(c, run) && k < |run| && d in run[k].births && e in run[k].births
    requires run[k].births[d] == run[k].births[e]
    ensures d == e
  {
    RunHolds(c, run, k);
  }
}
