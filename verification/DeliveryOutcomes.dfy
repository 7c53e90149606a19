/**
  Safety of whole runs, second half: the outcomes. A row's `attempts` counts its accepted
  outcomes, each written under its own token before that token expired; success is the
  last of them; and consecutive attempts keep the retry schedule.
 */
module DeliveryOutcomes {
  import opened Prelude
  import opened Deliveries
  import opened Lease
  import opened DeliveryProtocol
  import opened DeliveryLeases

  ghost predicate OutcomeOk(c: Config, now: Time, tokens: set<Id>, o: Outcome) {
    && o.token in tokens
    && o.claimedAt <= o.finishedAt <= o.checkedAt < o.claimedAt + EffectiveLease(c.limits)
    && o.checkedAt <= now
  }

  /** One delivery's history: failures, spaced by the retry delay, and at most a final success. */
  ghost predicate Schedule(policy: RetryPolicy, h: seq<Outcome>) {
    forall k :: 0 <= k < |h| - 1 ==>
      !h[k].success && h[k].finishedAt + RetryDelay(policy, k + 1) as Time <= h[k + 1].claimedAt
  }

  /** A spent token is on no row, is not being minted, and was spent once. */
  ghost predicate Spent(s: State, t: Id) {
    && NoRowCarries(s.deliveries, {t})
    && forall x :: x in s.txns ==> t !in Minted(s.txns[x])
  }

  ghost predicate HistoryOk(c: Config, s: State, h: seq<Outcome>) {
    && (forall k :: 0 <= k < |h| ==> OutcomeOk(c, s.now, s.tokens, h[k]) && Spent(s, h[k].token))
    && (forall k, m :: 0 <= k < m < |h| ==> h[k].token != h[m].token)
    && Schedule(c.retry, h)
  }

  /** What the row says about its history. */
  ghost predicate RowTells(policy: RetryPolicy, row: Delivery, h: seq<Outcome>) {
    && row.attempts == |h|
    && (h == [] ==> row.processedAt.None?)
    && (h != [] ==>
        var last := h[|h| - 1];
        && (last.success <==> row.processedAt.Some?)
        && (last.success ==> row.processedAt == Some(last.finishedAt))
        && (!last.success ==> row.nextAttemptAt == last.finishedAt + RetryDelay(policy, |h|) as Time))
  }

  ghost predicate Histories(c: Config, s: State) {
    forall d :: d in s.outcomes ==> d in s.births && HistoryOk(c, s, s.outcomes[d])
  }

  /** No two outcomes, of one delivery or of two, were written under one token. */
  ghost predicate TokensApart(s: State) {
    forall d, e, k, m ::
      (d in s.outcomes && e in s.outcomes && d != e && 0 <= k < |s.outcomes[d]| && 0 <= m < |s.outcomes[e]|)
      ==> s.outcomes[d][k].token != s.outcomes[e][m].token
  }

  ghost predicate RowsTell(c: Config, s: State) {
    forall d :: d in s.deliveries ==> RowTells(c.retry, s.deliveries[d], HistoryOf(s, d))
  }

  ghost predicate OutcomeInv(c: Config, s: State) {
    Histories(c, s) && TokensApart(s) && RowsTell(c, s)
  }

  // ----- steps that write no outcome

  /** Rows may go, or change their lease only, to tokens that were never spent. */
  lemma LeasesKeepOutcomes(c: Config, s: State, n: State)
    requires OutcomeInv(c, s)
    requires n.outcomes == s.outcomes && s.births.Keys <= n.births.Keys && s.now <= n.now && s.tokens <= n.tokens
    requires forall d :: d in n.deliveries ==>
      || (d in s.deliveries && LeaseOnly(s.deliveries[d], n.deliveries[d]))
      || (d !in s.outcomes && RowTells(c.retry, n.deliveries[d], []) && n.deliveries[d].leaseToken.None?)
    requires forall e, k :: e in s.outcomes && 0 <= k < |s.outcomes[e]| ==> Spent(n, s.outcomes[e][k].token)
    ensures OutcomeInv(c, n)
  {
    assert forall d :: d in s.births.Keys ==> d in n.births.Keys;
    forall d | d in n.outcomes ensures d in n.births && HistoryOk(c, n, n.outcomes[d]) {
      assert HistoryOk(c, s, s.outcomes[d]);
      forall k | 0 <= k < |n.outcomes[d]|
        ensures OutcomeOk(c, n.now, n.tokens, n.outcomes[d][k])
      {
        assert OutcomeOk(c, s.now, s.tokens, s.outcomes[d][k]);
      }
    }
  }

  predicate LeaseOnly(row: Delivery, now: Delivery) {
    now == row.(lockedUntil := now.lockedUntil, leaseToken := now.leaseToken)
  }

  /** Steps that leave rows alone, or drop some, and mint nothing. */
  predicate Plain(l: Label) {
    !(l.FanCommit? || l.ClaimStamp? || l.ClaimCommit? || l.OutcomeCommit? || l.ReleaseCommit?)
  }

  lemma PlainKeepsOutcomes(c: Config, s: State, l: Label)
    requires OutcomeInv(c, s) && Enabled(c, s, l) && Plain(l)
    ensures OutcomeInv(c, Apply(c, s, l))
  {
    var n := Apply(c, s, l);
    PlainFrame(c, s, l);
    forall e, k | e in s.outcomes && 0 <= k < |s.outcomes[e]| ensures Spent(n, s.outcomes[e][k].token) {
      assert HistoryOk(c, s, s.outcomes[e]) && Spent(s, s.outcomes[e][k].token);
      forall x | x in n.txns ensures s.outcomes[e][k].token !in Minted(n.txns[x]) {
        assert Minted(n.txns[x]) != {} ==> x in s.txns && n.txns[x] == s.txns[x];
      }
    }
    LeasesKeepOutcomes(c, s, n);
  }

  ghost predicate SameRows(s: State, n: State) {
    && n.outcomes == s.outcomes && n.births == s.births && s.now <= n.now && s.tokens <= n.tokens
    && (forall d :: d in n.deliveries ==> d in s.deliveries && n.deliveries[d] == s.deliveries[d])
    && (forall x :: x in n.txns && Minted(n.txns[x]) != {} ==> x in s.txns && n.txns[x] == s.txns[x])
  }

  predicate OfWork(l: Label) {
    l.Load? || l.ReadRemaining? || l.StartSend? || l.EndSend? || l.OutcomeCheck? || l.EndTasks? || l.Crash?
  }

  lemma PlainFrame(c: Config, s: State, l: Label)
    requires Enabled(c, s, l) && Plain(l)
    ensures SameRows(s, Apply(c, s, l))
  {
    if OfWork(l) {
      TaskFrame(c, s, l);
    } else {
      RestFrame(c, s, l);
    }
  }

  lemma SameRowsOf(s: State, n: State)
    requires n.outcomes == s.outcomes && n.births == s.births && s.now == n.now && s.tokens == n.tokens
    requires n.deliveries == s.deliveries
    requires forall x :: x in n.txns ==> x in s.txns && (n.txns[x] == s.txns[x] || n.txns[x].Recording?)
    ensures SameRows(s, n)
  {
  }

  lemma TaskFrame(c: Config, s: State, l: Label)
    requires Enabled(c, s, l) && OfWork(l)
    ensures SameRows(s, Apply(c, s, l))
  {
    if l.OutcomeCheck? {
      CheckFrame(s, l.x);
    } else {
      WorkFrame(c, s, l);
      SameRowsOf(s, Apply(c, s, l));
    }
  }

  lemma WorkFrame(c: Config, s: State, l: Label)
    requires Enabled(c, s, l) && OfWork(l) && !l.OutcomeCheck?
    ensures Apply(c, s, l) == s.(tasks := Apply(c, s, l).tasks, sends := Apply(c, s, l).sends, waves := Apply(c, s, l).waves)
  {
    hide AfterLoad, AfterReadRemaining, AfterStartSend, AfterEndSend, Drop;
  }

  lemma CheckFrame(s: State, x: Id)
    requires x in s.txns && s.txns[x].Recording?
    ensures SameRows(s, AfterOutcomeCheck(s, x))
  {
    CheckTxns(s, x);
    hide AfterOutcomeCheck, SameRows;
    SameRowsOf(s, AfterOutcomeCheck(s, x));
  }

  lemma CheckTxns(s: State, x: Id)
    requires x in s.txns && s.txns[x].Recording?
    ensures var n := AfterOutcomeCheck(s, x); forall y :: y in n.txns ==> y in s.txns && (n.txns[y] == s.txns[y] || n.txns[y].Recording?)
  {
    hide RemainingLease, Drop;
  }

  /** Steps that may take rows away. */
  predicate OfRemoval(l: Label) {
    l.DropDestination? || l.RetainDeliveries? || l.RetainEvents?
  }

  lemma RemovalFrame(c: Config, s: State, l: Label)
    requires Enabled(c, s, l) && OfRemoval(l)
    ensures SameRows(s, Apply(c, s, l))
  {
    hide Locked, DestinationInUse, EventLocked, DeliveryRemovable, EventRemovable, Minted;
  }

  lemma RestFrame(c: Config, s: State, l: Label)
    requires Enabled(c, s, l) && Plain(l) && !OfWork(l)
    ensures SameRows(s, Apply(c, s, l))
  {
    if OfRemoval(l) {
      hide Enabled, Apply;
      RemovalFrame(c, s, l);
    } else {
      hide AfterFanRead, AfterFanInsert, AfterFanCommit, AfterClaimCommit, AfterOutcomeCommit, Released, Drop, Candidates;
      hide Locked, LockedRows, PairTaken, EventLocked, Pending, OneEach;
    }
  }

  lemma StampKeepsOutcomes(c: Config, s: State, x: Id, minted: map<Id, Id>, rows: map<Id, Id>)
    requires OutcomeInv(c, s) && Enabled(c, s, ClaimStamp(x, minted, rows))
    ensures OutcomeInv(c, Apply(c, s, ClaimStamp(x, minted, rows)))
  {
    var n := Apply(c, s, ClaimStamp(x, minted, rows));
    forall e, k | e in s.outcomes && 0 <= k < |s.outcomes[e]| ensures Spent(n, s.outcomes[e][k].token) {
      assert HistoryOk(c, s, s.outcomes[e]) && Spent(s, s.outcomes[e][k].token);
      assert OutcomeOk(c, s.now, s.tokens, s.outcomes[e][k]);
    }
    LeasesKeepOutcomes(c, s, n);
  }

  lemma ClaimCommitKeepsOutcomes(c: Config, s: State, x: Id, returned: bool)
    requires Inv(c, s) && OutcomeInv(c, s) && x in s.txns && s.txns[x].Claiming? && s.txns[x].stamp.Some?
    ensures OutcomeInv(c, AfterClaimCommit(c, s, x, returned))
  {
    var n := AfterClaimCommit(c, s, x, returned);
    var st := s.txns[x].stamp.value;
    assert TxnOk(c, s, s.txns[x]) && n.deliveries == Stamp(s.deliveries, st.tokens, ExpiryOf(c, st));
    hide Inv;
    forall e, k | e in s.outcomes && 0 <= k < |s.outcomes[e]| ensures Spent(n, s.outcomes[e][k].token) {
      assert HistoryOk(c, s, s.outcomes[e]);
      ClaimLeavesSpent(c, s, x, returned, s.outcomes[e][k].token);
    }
    assert forall d :: d in n.deliveries ==> d in s.deliveries && LeaseOnly(s.deliveries[d], n.deliveries[d]);
    hide OutcomeInv, Spent, TxnOk, AfterClaimCommit;
    LeasesKeepOutcomes(c, s, n);
  }

  lemma ClaimLeavesSpent(c: Config, s: State, x: Id, returned: bool, t: Id)
    requires x in s.txns && s.txns[x].Claiming? && s.txns[x].stamp.Some? && TxnOk(c, s, s.txns[x]) && Spent(s, t)
    ensures Spent(AfterClaimCommit(c, s, x, returned), t)
  {
    var st := s.txns[x].stamp.value;
    var n := AfterClaimCommit(c, s, x, returned);
    assert t !in Minted(s.txns[x]) && n.deliveries == Stamp(s.deliveries, st.tokens, ExpiryOf(c, st)) && n.txns == s.txns - {x};
    hide AfterClaimCommit;
    forall d | d in st.tokens ensures st.tokens[d] != t { assert st.tokens[d] in st.rows; }
  }

  lemma ReleaseKeepsOutcomes(c: Config, s: State, x: Id)
    requires OutcomeInv(c, s) && x in s.txns && s.txns[x].Releasing?
    ensures OutcomeInv(c, Apply(c, s, ReleaseCommit(x)))
  {
    var n := Apply(c, s, ReleaseCommit(x));
    forall e, k | e in s.outcomes && 0 <= k < |s.outcomes[e]| ensures Spent(n, s.outcomes[e][k].token) {
      assert HistoryOk(c, s, s.outcomes[e]) && Spent(s, s.outcomes[e][k].token);
    }
    LeasesKeepOutcomes(c, s, n);
  }

  lemma FanCommitKeepsOutcomes(c: Config, s: State, x: Id)
    requires Inv(c, s) && OutcomeInv(c, s) && x in s.fans
    ensures OutcomeInv(c, AfterFanCommit(s, x))
  {
    var n := AfterFanCommit(s, x);
    forall d | d in s.fans[x].inserted
      ensures d !in s.outcomes && RowTells(c.retry, s.fans[x].inserted[d], []) && s.fans[x].inserted[d].leaseToken.None?
    {
    }
    forall e, k | e in s.outcomes && 0 <= k < |s.outcomes[e]| ensures Spent(n, s.outcomes[e][k].token) {
      assert HistoryOk(c, s, s.outcomes[e]) && Spent(s, s.outcomes[e][k].token);
    }
    hide Inv;
    LeasesKeepOutcomes(c, s, n);
  }

  // ----- the step that does

  /** The outcome a checked transaction writes extends its delivery's history. */
  lemma OutcomeExtends(c: Config, s: State, x: Id)
    requires Inv(c, s) && OutcomeInv(c, s) && x in s.txns && s.txns[x].Recording? && s.txns[x].checkedAt.Some?
    ensures var r := s.txns[x]; var d := r.claim.row.id; var h := HistoryOf(s, d);
      var o := OutcomeOf(r);
      && d in s.deliveries && s.deliveries[d] == r.claim.row && d in s.births
      && OutcomeOk(c, s.now, s.tokens, o)
      && Schedule(c.retry, h + [o])
      && RowTells(c.retry, WriteOutcome(s.deliveries[d], r.result), h + [o])
      && r.claim.row.leaseToken == Some(r.token)
  {
    var r := s.txns[x];
    var d := r.claim.row.id;
    assert TxnOk(c, s, r);
    var h := HistoryOf(s, d);
    assert RowTells(c.retry, s.deliveries[d], h);
    if h != [] {
      assert HistoryOk(c, s, s.outcomes[d]);
      assert !h[|h| - 1].success;
    }
  }

  lemma ExtendKeeps(c: Config, s: State, n: State, d: Id, o: Outcome)
    requires OutcomeInv(c, s)
    requires n.now == s.now && n.tokens == s.tokens && n.births == s.births && d in n.births
    requires n.outcomes == s.outcomes[d := HistoryOf(s, d) + [o]]
    requires OutcomeOk(c, s.now, s.tokens, o) && Schedule(c.retry, HistoryOf(s, d) + [o]) && Spent(n, o.token)
    requires forall e, k :: e in s.outcomes && 0 <= k < |s.outcomes[e]| ==>
      Spent(n, s.outcomes[e][k].token) && s.outcomes[e][k].token != o.token
    ensures Histories(c, n) && TokensApart(n)
  {
    forall e | e in n.outcomes ensures e in n.births && HistoryOk(c, n, n.outcomes[e]) {
      assert e in s.outcomes ==> HistoryOk(c, s, s.outcomes[e]);
      forall k | 0 <= k < |n.outcomes[e]|
        ensures OutcomeOk(c, n.now, n.tokens, n.outcomes[e][k]) && Spent(n, n.outcomes[e][k].token)
      {
        if e in s.outcomes && k < |s.outcomes[e]| {
          assert n.outcomes[e][k] == s.outcomes[e][k] && OutcomeOk(c, s.now, s.tokens, s.outcomes[e][k]);
        }
      }
    }
    TokensStayApart(s, n, d, o);
  }

  lemma TokensStayApart(s: State, n: State, d: Id, o: Outcome)
    requires TokensApart(s)
    requires n.outcomes == s.outcomes[d := HistoryOf(s, d) + [o]]
    requires forall e, k :: e in s.outcomes && 0 <= k < |s.outcomes[e]| ==> s.outcomes[e][k].token != o.token
    ensures TokensApart(n)
  {
  }

  lemma OutcomeCommitKeepsOutcomes(c: Config, s: State, x: Id)
    requires Inv(c, s) && OutcomeInv(c, s) && x in s.txns && s.txns[x].Recording? && s.txns[x].checkedAt.Some?
    ensures OutcomeInv(c, AfterOutcomeCommit(s, x))
  {
    var r := s.txns[x];
    var d := r.claim.row.id;
    var n := AfterOutcomeCommit(s, x);
    OutcomeExtends(c, s, x);
    var o := OutcomeOf(r);
    TokenIsSpent(c, s, x);
    hide Inv;
    forall e, k | e in s.outcomes && 0 <= k < |s.outcomes[e]|
      ensures Spent(n, s.outcomes[e][k].token) && s.outcomes[e][k].token != r.token
    {
      assert HistoryOk(c, s, s.outcomes[e]) && Spent(s, s.outcomes[e][k].token);
      StaysSpent(s, x, s.outcomes[e][k].token);
    }
    ExtendKeeps(c, s, n, d, o);
    assert RowsTell(c, n);
  }

  lemma StaysSpent(s: State, x: Id, t: Id)
    requires x in s.txns && s.txns[x].Recording? && s.txns[x].checkedAt.Some? && Spent(s, t)
    ensures Spent(AfterOutcomeCommit(s, x), t)
  {
    var n := AfterOutcomeCommit(s, x);
    assert NoRowCarries(n.deliveries, {t}) by {
      var r := s.txns[x];
      var d := r.claim.row.id;
      if d in s.deliveries {
        assert n.deliveries == s.deliveries[d := WriteOutcome(s.deliveries[d], r.result)];
      }
    }
  }

  ghost predicate NewlySpent(s: State, n: State, t: Id) {
    && Spent(n, t)
    && exists d :: d in s.deliveries && s.deliveries[d].leaseToken == Some(t)
  }

  /** Once written, the token is nowhere: no other row carried it. */
  lemma TokenIsSpent(c: Config, s: State, x: Id)
    requires Inv(c, s) && x in s.txns && s.txns[x].Recording? && s.txns[x].checkedAt.Some?
    ensures NewlySpent(s, AfterOutcomeCommit(s, x), s.txns[x].token)
  {
    var r := s.txns[x];
    var n := AfterOutcomeCommit(s, x);
    assert TxnOk(c, s, r);
    forall y | y in n.txns ensures r.token !in Minted(n.txns[y]) {
      assert r.token in RecordedToken(s.txns[x]);
    }
  }

  lemma StepKeepsOutcomes(c: Config, s: State, l: Label)
    requires Inv(c, s) && OutcomeInv(c, s) && Enabled(c, s, l)
    ensures OutcomeInv(c, Apply(c, s, l))
  {
    hide Inv, OutcomeInv;
    if Plain(l) {
      PlainKeepsOutcomes(c, s, l);
      return;
    }
    match l
    case FanCommit(x) => FanCommitKeepsOutcomes(c, s, x);
    case ClaimStamp(x, minted, rows) => StampKeepsOutcomes(c, s, x, minted, rows);
    case ClaimCommit(x, returned) => ClaimCommitKeepsOutcomes(c, s, x, returned);
    case OutcomeCommit(x) => OutcomeCommitKeepsOutcomes(c, s, x);
    case ReleaseCommit(x) => ReleaseKeepsOutcomes(c, s, x);
    case _ =>
  }

  // ----- what a schedule means

  /** The first n waits together. */
  function TotalWait(policy: RetryPolicy, n: nat): nat {
    if n == 0 then 0 else TotalWait(policy, n - 1) + Wait(policy, n)
  }

  /** As long as the waits are below the cap they double, and n of them make base * (2^n - 1) seconds. */
  lemma {:induction false} WaitsAddUp(policy: RetryPolicy, n: nat)
    requires n >= 1 ==> Doubled(policy.baseSeconds, n - 1) <= policy.maxSeconds
    ensures TotalWait(policy, n) == policy.baseSeconds * (Pow2(n) - 1)
  {
    if n > 0 {
      if n > 1 { assert Doubled(policy.baseSeconds, n - 1) == 2 * Doubled(policy.baseSeconds, n - 2); }
      WaitsAddUp(policy, n - 1);
      DoubledIsPower(policy.baseSeconds, n - 1);
      OneWaitMore(policy.baseSeconds, Pow2(n - 1));
    }
  }

  lemma OneWaitMore(base: nat, p: nat)
    ensures base * (p - 1) + base * p == base * (2 * p - 1)
  {
  }

  /** n accepted attempts take at least the sum of the first n - 1 delays. */
  lemma {:induction false} ScheduleTakes(c: Config, s: State, h: seq<Outcome>, n: nat)
    requires HistoryOk(c, s, h) && 1 <= n <= |h|
    ensures h[n - 1].finishedAt - h[0].finishedAt >= TotalWait(c.retry, n - 1) as Time
  {
    if n > 1 {
      RetryDelayIs(c.retry, n - 1);
      ScheduleTakes(c, s, h, n - 1);
      assert OutcomeOk(c, s.now, s.tokens, h[n - 1]);
      assert !h[n - 2].success && h[n - 2].finishedAt + RetryDelay(c.retry, n - 1) as Time <= h[n - 1].claimedAt;
    }
  }
}
