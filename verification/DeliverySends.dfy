/**
  Safety of whole runs, first half: the sends. Sends of one delivery never overlap, each
  ends a database timeout before its lease does, and a claim sends at most once.
 */
module DeliverySends {
  import opened Prelude
  import opened Deliveries
  import opened Lease
  import opened DeliveryProtocol
  import opened DeliveryLeases

  ghost predicate SendOk(c: Config, s: State, send: Send) {
    && send.token in s.tokens
    && send.start <= send.deadline <= send.expiry - c.limits.databaseTimeout
    && send.start <= s.now
    && (send.ended.Some? ==> send.start <= send.ended.value <= send.deadline && send.ended.value <= s.now)
    && (send.token in s.tasks ==> !EarlyPhase(s.tasks[send.token].phase))
    && (send.ended.None? ==>
        && send.token in s.tasks && s.tasks[send.token].phase == Sending(send.deadline)
        && s.tasks[send.token].claim.expiry == send.expiry && s.tasks[send.token].claim.row.id == send.delivery)
  }

  /** Phases a task can only be in before it sends. */
  predicate EarlyPhase(p: Phase) {
    p.Loading? || p.Checking? || p.Budgeting?
  }

  ghost predicate SendsOk(c: Config, s: State) {
    forall i :: 0 <= i < |s.sends| ==> SendOk(c, s, s.sends[i])
  }

  /** Sends of one delivery follow each other. */
  ghost predicate Disjoint(sends: seq<Send>) {
    forall i, j :: 0 <= i < j < |sends| && sends[i].delivery == sends[j].delivery
      ==> sends[i].ended.Some? && sends[i].ended.value <= sends[j].start
  }

  ghost predicate OncePerToken(sends: seq<Send>) {
    forall i, j :: 0 <= i < j < |sends| ==> sends[i].token != sends[j].token
  }

  /** A token being minted has not sent, and an outcome in progress follows a send. */
  ghost predicate Order(s: State) {
    && (forall x, i :: x in s.txns && 0 <= i < |s.sends| ==> s.sends[i].token !in Minted(s.txns[x]))
    && (forall x :: x in s.txns ==> AfterSend(s.tasks, s.txns[x]))
  }

  ghost predicate AfterSend(tasks: map<Id, Task>, x: Txn) {
    x.Recording? && x.token in tasks ==> tasks[x.token].phase.Sent? || tasks[x.token].phase.Finished?
  }

  ghost predicate SendInv(c: Config, s: State) {
    SendsOk(c, s) && Disjoint(s.sends) && OncePerToken(s.sends) && Order(s)
  }

  // ----- the pieces of a step

  /** Nothing about sends changes when time, tokens and finished work move on. */
  lemma QuietKeeps(c: Config, s: State, n: State)
    requires SendInv(c, s) && s.sends == n.sends
    requires s.now == n.now && s.tokens <= n.tokens && n.tasks == s.tasks
    requires forall x :: x in n.txns ==> QuietTxn(s, n.txns[x])
    ensures SendInv(c, n)
  {
  }

  /** A transaction that is not new in what it mints and records. */
  ghost predicate QuietTxn(s: State, txn: Txn) {
    && (forall i :: 0 <= i < |s.sends| ==> s.sends[i].token !in Minted(txn))
    && AfterSend(s.tasks, txn)
  }

  lemma DropKeepsSends(c: Config, s: State, gone: set<Id>)
    requires Inv(c, s) && SendInv(c, s)
    ensures SendInv(c, Drop(s, gone))
  {
    var n := Drop(s, gone);
    forall i | 0 <= i < |n.sends| ensures SendOk(c, n, n.sends[i]) {
      assert SendOk(c, s, s.sends[i]);
      if s.sends[i].ended.None? {
        assert PhaseOk(c, s.now, s.tasks[s.sends[i].token]);
      }
    }
    assert forall i :: 0 <= i < |n.sends| ==> n.sends[i].token == s.sends[i].token && n.sends[i].start == s.sends[i].start;
    forall i, j | 0 <= i < j < |n.sends| && n.sends[i].delivery == n.sends[j].delivery
      ensures n.sends[i].ended.Some? && n.sends[i].ended.value <= n.sends[j].start
    {
      assert s.sends[i].delivery == s.sends[j].delivery;
    }
  }

  lemma PhaseKeepsSends(c: Config, s: State, t: Id, phase: Phase)
    requires SendInv(c, s) && t in s.tasks && EarlyPhase(s.tasks[t].phase) && EarlyPhase(phase)
    ensures SendInv(c, WithPhase(s, t, phase))
  {
    var n := WithPhase(s, t, phase);
    forall i | 0 <= i < |n.sends| ensures SendOk(c, n, n.sends[i]) { assert SendOk(c, s, s.sends[i]); }
  }

  /** A send that starts finds every earlier send of its delivery ended. */
  lemma StartKeepsSends(c: Config, s: State, t: Id)
    requires Inv(c, s) && SendInv(c, s) && t in s.tasks && s.tasks[t].phase.Budgeting?
    ensures SendInv(c, AfterStartSend(c, s, t))
  {
    var task := s.tasks[t];
    var budget := SendBudget(c.limits, task.phase.remaining, task.phase.started, s.now);
    assert PhaseOk(c, s.now, task) && ClaimOk(c, s.tokens, s.now, t, task.claim);
    if budget <= 0.0 {
      DropKeepsSends(c, s, {t});
    } else {
      var n := AfterStartSend(c, s, t);
      var k := |s.sends|;
      forall i | 0 <= i < k
        ensures SendOk(c, n, n.sends[i]) && s.sends[i].token != t
        ensures s.sends[i].delivery == task.claim.row.id ==> s.sends[i].ended.Some?
      {
        assert SendOk(c, s, s.sends[i]);
        if s.sends[i].ended.None? {
          var u := s.sends[i].token;
          assert PhaseOk(c, s.now, s.tasks[u]) && Live(s.now, s.tasks[u]) && Live(s.now, task);
        }
      }
      assert SendOk(c, n, n.sends[k]);
    }
  }

  lemma DoneTaskKeepsSends(c: Config, s: State, t: Id, task: Task)
    requires SendInv(c, s) && (t in s.tasks ==> !s.tasks[t].phase.Sending?)
    requires task.phase.Sent? || task.phase.Finished?
    ensures SendInv(c, s.(tasks := s.tasks[t := task]))
  {
    var n := s.(tasks := s.tasks[t := task]);
    forall i | 0 <= i < |n.sends| ensures SendOk(c, n, n.sends[i]) { assert SendOk(c, s, s.sends[i]); }
  }

  lemma EndKeepsSends(c: Config, s: State, t: Id, reply: Reply)
    requires Inv(c, s) && SendInv(c, s) && t in s.tasks && s.tasks[t].phase.Sending?
    ensures SendInv(c, AfterEndSend(c, s, t, reply))
  {
    hide Inv, SendInv;
    var result := Process(c.retry, s.tasks[t].claim.row, reply, s.now);
    var m := Drop(s, {t});
    DropKeepsSends(c, s, {t});
    if result.Some? {
      var task := s.tasks[t].(phase := Sent(s.now, result.value));
      DoneTaskKeepsSends(c, m, t, task);
      assert m.tasks[t := task] == s.tasks[t := task];
      assert AfterEndSend(c, s, t, reply) == m.(tasks := m.tasks[t := task]);
    }
  }

  lemma OutcomeCommitKeepsSends(c: Config, s: State, x: Id)
    requires SendInv(c, s) && x in s.txns && s.txns[x].Recording? && s.txns[x].checkedAt.Some?
    ensures SendInv(c, AfterOutcomeCommit(s, x))
  {
    var r := s.txns[x];
    assert AfterSend(s.tasks, r);
    if r.token in s.tasks {
      DoneTaskKeepsSends(c, s, r.token, s.tasks[r.token].(phase := Finished));
    }
    hide SendInv;
    var n := AfterOutcomeCommit(s, x);
    if n.tasks == s.tasks {
      RowsKeepSends(c, s, n);
    } else {
      RowsKeepSends(c, Finish(s, r.token), n);
    }
  }

  /** Committing or aborting changes no send. */
  lemma RowsKeepSends(c: Config, s: State, n: State)
    requires SendInv(c, s)
    requires n.now == s.now && n.sends == s.sends && n.tokens == s.tokens && n.tasks == s.tasks
    requires forall x :: x in n.txns ==> x in s.txns && n.txns[x] == s.txns[x]
    ensures SendInv(c, n)
  {
  }

  lemma StartedKeepsSends(c: Config, s: State, x: Id)
    requires Inv(c, s) && SendInv(c, s) && x in s.txns && s.txns[x].Claiming? && s.txns[x].stamp.Some?
    ensures SendInv(c, Claimed(c, s, x)) && SendInv(c, Started(c, s, x))
  {
    var m := Claimed(c, s, x);
    var st := s.txns[x].stamp.value;
    var added := NewTasks(m.deliveries, st, ExpiryOf(c, st));
    ClaimedTasksJoin(c, s, x);
    hide Inv;
    assert forall t :: t in added ==> t in Minted(s.txns[x]);
    hide SendInv;
    RowsKeepSends(c, s, m);
    assert forall t, i :: t in added && 0 <= i < |s.sends| ==> s.sends[i].token != t by { MintedUnsent(c, s, x); }
    NewTasksKeepSends(c, m, added);
  }

  lemma MintedUnsent(c: Config, s: State, x: Id)
    requires SendInv(c, s) && x in s.txns
    ensures forall i :: 0 <= i < |s.sends| ==> s.sends[i].token !in Minted(s.txns[x])
  {
  }

  lemma ClaimCommitKeepsSends(c: Config, s: State, x: Id, returned: bool)
    requires Inv(c, s) && SendInv(c, s) && x in s.txns && s.txns[x].Claiming? && s.txns[x].stamp.Some?
    ensures SendInv(c, AfterClaimCommit(c, s, x, returned))
  {
    hide Inv, SendInv;
    StartedKeepsSends(c, s, x);
    RowsKeepSends(c, Started(c, s, x), Started(c, s, x).(waves := s.waves[s.txns[x].worker := s.txns[x].stamp.value.rows.Keys]));
  }

  lemma NewTasksKeepSends(c: Config, s: State, added: map<Id, Task>)
    requires SendInv(c, s)
    requires forall t :: t in added ==> Joins(c, s, t, added[t])
    requires forall t, i :: t in added && 0 <= i < |s.sends| ==> s.sends[i].token != t
    ensures SendInv(c, s.(tasks := s.tasks + added))
  {
    var n := s.(tasks := s.tasks + added);
    forall i | 0 <= i < |n.sends| ensures SendOk(c, n, n.sends[i]) { assert SendOk(c, s, s.sends[i]); }
    forall x | x in n.txns ensures AfterSend(n.tasks, n.txns[x]) {
      assert AfterSend(s.tasks, s.txns[x]);
      assert n.txns[x].Recording? ==> n.txns[x].token in RecordedToken(n.txns[x]);
    }
  }

  lemma TickKeepsSends(c: Config, s: State, to: Time)
    requires SendInv(c, s) && s.now <= to
    ensures SendInv(c, s.(now := to))
  {
    var n := s.(now := to);
    forall i | 0 <= i < |n.sends| ensures SendOk(c, n, n.sends[i]) { assert SendOk(c, s, s.sends[i]); }
  }

  lemma StampKeepsSends(c: Config, s: State, x: Id, minted: map<Id, Id>, rows: map<Id, Id>)
    requires SendInv(c, s) && Enabled(c, s, ClaimStamp(x, minted, rows))
    ensures SendInv(c, Apply(c, s, ClaimStamp(x, minted, rows)))
  {
    var n := Apply(c, s, ClaimStamp(x, minted, rows));
    forall i | 0 <= i < |n.sends| ensures SendOk(c, n, n.sends[i]) && n.sends[i].token !in rows.Keys {
      assert SendOk(c, s, s.sends[i]);
    }
  }

  /** Steps that leave the tasks, the clock and the sends alone. */
  predicate Quiet(l: Label) {
    || l.EmitEvent? || l.PutDestination? || l.DropDestination? || l.FanBegin? || l.FanRead? || l.FanInsert? || l.FanCommit?
    || l.FanAbort? || l.ClaimSelect? || l.Abort? || l.OutcomeLock? || l.ReleaseBegin? || l.ReleaseRow?
    || l.ReleaseCommit? || l.EndWave? || l.RetainDeliveries? || l.RetainEvents?
  }

  lemma QuietStepKeepsSends(c: Config, s: State, l: Label)
    requires SendInv(c, s) && Enabled(c, s, l) && Quiet(l)
    ensures SendInv(c, Apply(c, s, l))
  {
    var n := Apply(c, s, l);
    QuietFrame(c, s, l);
    hide Enabled, Apply;
    forall y | y in n.txns ensures QuietTxn(s, n.txns[y]) {
      if y in s.txns && n.txns[y] == s.txns[y] { assert QuietTxn(s, s.txns[y]); }
    }
    hide SendInv;
    QuietKeeps(c, s, n);
  }

  lemma QuietFrame(c: Config, s: State, l: Label)
    requires Enabled(c, s, l) && Quiet(l)
    ensures var n := Apply(c, s, l);
      && n.sends == s.sends && n.now == s.now && n.tokens == s.tokens && n.tasks == s.tasks
      && forall y :: y in n.txns ==>
           || (y in s.txns && n.txns[y] == s.txns[y])
           || (Minted(n.txns[y]) == {} && AfterSend(s.tasks, n.txns[y]))
  {
    hide AfterFanRead, AfterFanInsert, AfterFanCommit, WithoutEvents, WithoutDestination, Released, Locked, LockedRows;
    hide DestinationInUse, PairTaken, EventLocked, Pending, DeliveryRemovable, EventRemovable;
  }

  lemma StepKeepsSends(c: Config, s: State, l: Label)
    requires Inv(c, s) && SendInv(c, s) && Enabled(c, s, l)
    ensures SendInv(c, Apply(c, s, l))
  {
    hide Inv, SendInv;
    if Quiet(l) {
      QuietStepKeepsSends(c, s, l);
      return;
    }
    match l
    case Tick(to) => TickKeepsSends(c, s, to);
    case ClaimStamp(x, minted, rows) => StampKeepsSends(c, s, x, minted, rows);
    case ClaimCommit(x, returned) => ClaimCommitKeepsSends(c, s, x, returned);
    case Load(t) =>
      DropKeepsSends(c, s, {t});
      PhaseKeepsSends(c, s, t, Checking(s.now));
    case ReadRemaining(t) =>
      DropKeepsSends(c, s, {t});
      var remaining := RemainingLease(s.deliveries, s.tasks[t].claim.row.id, t, s.now);
      if remaining.Some? { PhaseKeepsSends(c, s, t, Budgeting(s.tasks[t].phase.started, remaining.value)); }
    case StartSend(t) => StartKeepsSends(c, s, t);
    case EndSend(t, reply) => EndKeepsSends(c, s, t, reply);
    case OutcomeCheck(x) => OutcomeCheckKeepsSends(c, s, x);
    case OutcomeCommit(x) => OutcomeCommitKeepsSends(c, s, x);
    case EndTasks(gone) => DropKeepsSends(c, s, gone);
    case Crash(w) =>
      DropKeepsSends(c, s, s.waves[w]);
      RowsKeepSends(c, Drop(s, s.waves[w]), Apply(c, s, l));
    case _ =>
  }

  lemma OutcomeCheckKeepsSends(c: Config, s: State, x: Id)
    requires Inv(c, s) && SendInv(c, s) && Enabled(c, s, OutcomeCheck(x))
    ensures SendInv(c, AfterOutcomeCheck(s, x))
  {
    var r := s.txns[x];
    CheckForms(s, x);
    hide Inv, AfterOutcomeCheck, SendInv, RemainingLease;
    if RemainingLease(s.deliveries, r.claim.row.id, r.token, s.now).Some? {
      CheckedKeepsSends(c, s, x);
    } else {
      var m := s.(txns := s.txns - {x});
      AbortKeeps(c, s, x);
      RowsKeepSends(c, s, m);
      DropKeepsSends(c, m, {r.token});
    }
  }

  lemma CheckedKeepsSends(c: Config, s: State, x: Id)
    requires SendInv(c, s) && x in s.txns && s.txns[x].Recording?
    ensures SendInv(c, s.(txns := s.txns[x := s.txns[x].(checkedAt := Some(s.now))]))
  {
    var n := s.(txns := s.txns[x := s.txns[x].(checkedAt := Some(s.now))]);
    forall y | y in n.txns ensures QuietTxn(s, n.txns[y]) { assert QuietTxn(s, s.txns[y]); }
    hide SendInv;
    QuietKeeps(c, s, n);
  }
}
