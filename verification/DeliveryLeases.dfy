/**
  What every step of the delivery protocol keeps about rows, locks, leases and tasks. The
  heart is `Ownership`: while a claim's lease has not run out, the row still is exactly
  what the claim returned, and no other transaction that holds it can change it.
 */
module DeliveryLeases {
  import opened Prelude
  import opened Selection
  import opened Deliveries
  import opened Lease
  import opened DeliveryProtocol

  // ----- the invariant

  ghost predicate RowOk(c: Config, tokens: set<Id>, d: Id, row: Delivery) {
    && row.id == d
    && (row.leaseToken.Some? ==> row.lockedUntil.Some? && row.leaseToken.value in tokens)
    && (row.processedAt.Some? ==> row.leaseToken.None? && row.lockedUntil.None?)
    && row.attempts <= c.maxAttempts
  }

  ghost predicate Rows(c: Config, s: State) {
    forall d :: d in s.deliveries ==> RowOk(c, s.tokens, d, s.deliveries[d])
  }

  /** A token is on one row at most. */
  ghost predicate Carriers(s: State) {
    forall d, e :: d in s.deliveries && e in s.deliveries && s.deliveries[d].leaseToken.Some?
      ==> (s.deliveries[d].leaseToken == s.deliveries[e].leaseToken ==> d == e)
  }

  ghost predicate Locks(s: State) {
    && (forall x :: x in s.txns ==> Held(s.txns[x]) <= s.deliveries.Keys)
    && (forall x, y :: x in s.txns && y in s.txns && x != y ==> Held(s.txns[x]) !! Held(s.txns[y]))
  }

  ghost predicate ClaimOk(c: Config, tokens: set<Id>, now: Time, t: Id, claim: Claim) {
    && t in tokens
    && claim.row.leaseToken == Some(t) && claim.row.lockedUntil == Some(claim.expiry)
    && claim.expiry == claim.claimedAt + EffectiveLease(c.limits)
    && claim.row.processedAt.None? && claim.row.attempts < c.maxAttempts
    && claim.row.nextAttemptAt <= claim.claimedAt <= now
  }

  /** `result` is what `process` returned for this claim at `finishedAt`. */
  ghost predicate ResultOk(c: Config, claim: Claim, finishedAt: Time, result: Delivery) {
    && result.attempts == claim.row.attempts + 1
    && claim.claimedAt <= finishedAt
    && WriteOutcome(claim.row, result) == result
    && (result.processedAt == Some(finishedAt)
        || (result.processedAt.None?
            && result.nextAttemptAt == finishedAt + RetryDelay(c.retry, result.attempts) as Time))
  }

  ghost predicate PhaseOk(c: Config, now: Time, task: Task) {
    match task.phase
    case Checking(started) => task.claim.claimedAt <= started <= now
    case Budgeting(started, remaining) => started <= now && started + remaining <= task.claim.expiry
    case Sending(deadline) => now <= deadline <= task.claim.expiry - c.limits.databaseTimeout
    case Sent(finishedAt, result) => finishedAt <= now && ResultOk(c, task.claim, finishedAt, result)
    case _ => true
  }

  ghost predicate Tasks(c: Config, s: State) {
    forall t :: t in s.tasks ==> ClaimOk(c, s.tokens, s.now, t, s.tasks[t].claim) && PhaseOk(c, s.now, s.tasks[t])
  }

  predicate NoRowCarries(deliveries: map<Id, Delivery>, tokens: set<Id>) {
    forall d :: d in deliveries && deliveries[d].leaseToken.Some? ==> deliveries[d].leaseToken.value !in tokens
  }

  /** Tokens in a claim's stamp are new: they are on no row and no task runs under them. */
  ghost predicate StampOk(s: State, rows: set<Id>, selectedAt: Time, st: Stamping) {
    && st.tokens.Keys == rows && Inverse(st.tokens, st.rows)
    && selectedAt <= st.at <= s.now
    && st.rows.Keys <= s.tokens && st.rows.Keys !! s.tasks.Keys
    && NoRowCarries(s.deliveries, st.rows.Keys)
  }

  ghost predicate TxnOk(c: Config, s: State, x: Txn) {
    match x
    case Claiming(_, rows, selectedAt, stamp) =>
      && selectedAt <= s.now
      && (forall d :: d in rows && d in s.deliveries ==> Eligible(s.deliveries[d], c.maxAttempts, selectedAt))
      && (stamp.Some? ==> StampOk(s, rows, selectedAt, stamp.value))
    case Recording(token, claim, finishedAt, result, checkedAt) =>
      && ClaimOk(c, s.tokens, s.now, token, claim) && ResultOk(c, claim, finishedAt, result) && finishedAt <= s.now
      && (token in s.tasks ==> s.tasks[token].claim == claim)
      && (checkedAt.Some? ==>
          && finishedAt <= checkedAt.value <= s.now && checkedAt.value < claim.expiry
          && claim.row.id in s.deliveries && s.deliveries[claim.row.id] == claim.row)
    case Releasing(tokens) =>
      forall d :: d in tokens && d in s.deliveries ==> s.deliveries[d].leaseToken == Some(tokens[d])
  }

  ghost predicate Txns(c: Config, s: State) {
    forall x :: x in s.txns ==> TxnOk(c, s, s.txns[x])
  }

  /** Tokens minted by a claim that has not committed. */
  function Minted(x: Txn): set<Id> {
    if x.Claiming? && x.stamp.Some? then x.stamp.value.rows.Keys else {}
  }

  function RecordedToken(x: Txn): set<Id> {
    if x.Recording? then {x.token} else {}
  }

  /** Claims in progress mint different tokens, none of which has an outcome on its way. */
  ghost predicate Mints(s: State) {
    forall x, y :: x in s.txns && y in s.txns && x != y ==>
      Minted(s.txns[x]) !! Minted(s.txns[y]) && Minted(s.txns[x]) !! RecordedToken(s.txns[y])
  }

  /** A claim still on its way to an outcome, whose lease has not run out. */
  predicate Live(now: Time, task: Task) {
    !task.phase.Finished? && now < task.claim.expiry
  }

  /** The claim on d under t is safe from x: x cannot commit a change to d. */
  predicate Harmless(x: Txn, d: Id, t: Id) {
    d in Held(x) ==> x.Recording? && (x.token == t || x.checkedAt.None?)
  }

  ghost predicate OwnsRow(deliveries: map<Id, Delivery>, txns: map<Id, Txn>, t: Id, claim: Claim) {
    claim.row.id in deliveries ==>
      && deliveries[claim.row.id] == claim.row
      && forall x :: x in txns ==> Harmless(txns[x], claim.row.id, t)
  }

  ghost predicate Ownership(s: State) {
    forall t :: t in s.tasks && Live(s.now, s.tasks[t]) ==> OwnsRow(s.deliveries, s.txns, t, s.tasks[t].claim)
  }

  /** A row that carries a running task's token is the row that task claimed. */
  ghost predicate TokenRows(s: State) {
    forall d, t :: d in s.deliveries && t in s.tasks && s.deliveries[d].leaseToken == Some(t)
      ==> s.deliveries[d] == s.tasks[t].claim.row
  }

  /** At most one live claim per delivery, even when its row has been deleted. */
  ghost predicate OneLive(s: State) {
    forall t, u ::
      (t in s.tasks && u in s.tasks && Live(s.now, s.tasks[t]) && Live(s.now, s.tasks[u])
       && s.tasks[t].claim.row.id == s.tasks[u].claim.row.id)
      ==> t == u
  }

  /** Row ids are fresh: what a fan-out will insert has never been a row, nor a task's row. */
  ghost predicate Ids(s: State) {
    && s.deliveries.Keys <= s.births.Keys <= s.deliveryIds
    && (forall t :: t in s.tasks ==> s.tasks[t].claim.row.id in s.births)
    && (forall x :: x in s.txns && s.txns[x].Recording? ==> s.txns[x].claim.row.id in s.births)
    && FanIds(s.fans, s.deliveryIds, s.births)
  }

  ghost predicate FanIds(fans: map<Id, FanOut>, ids: set<Id>, births: map<Id, Pair>) {
    && (forall x :: x in fans ==> fans[x].inserted.Keys <= ids && fans[x].inserted.Keys !! births.Keys)
    && (forall x, d :: x in fans && d in fans[x].inserted ==> IsNew(d, fans[x].inserted[d]))
    && (forall x, y :: x in fans && y in fans && x != y ==> fans[x].inserted.Keys !! fans[y].inserted.Keys)
  }

  predicate IsNew(d: Id, row: Delivery) {
    row == NewDelivery(d, row.eventId, row.destinationId, row.createdAt)
  }

  ghost predicate Inv(c: Config, s: State) {
    && ValidConfig(c)
    && Rows(c, s) && Carriers(s) && Locks(s) && Tasks(c, s) && Txns(c, s) && Mints(s) && TokenRows(s)
    && Ownership(s) && OneLive(s) && Ids(s)
  }

  // ----- changes that concern nothing above

  lemma HistoryKeeps(c: Config, s: State, n: State)
    requires Inv(c, s)
    requires n == s.(events := n.events, destinations := n.destinations, waves := n.waves, eventIds := n.eventIds,
                     fanouts := n.fanouts, sends := n.sends, outcomes := n.outcomes)
    ensures Inv(c, n)
  {
  }

  lemma TickKeeps(c: Config, s: State, to: Time)
    requires Inv(c, s) && s.now <= to
    requires forall t :: t in s.tasks && s.tasks[t].phase.Sending? ==> to <= s.tasks[t].phase.deadline
    ensures Inv(c, s.(now := to))
  {
  }

  // ----- tasks

  lemma DropKeeps(c: Config, s: State, gone: set<Id>)
    requires Inv(c, s)
    ensures Inv(c, Drop(s, gone))
  {
  }

  lemma SameClaimsKeep(c: Config, s: State, tasks: map<Id, Task>)
    requires Inv(c, s) && tasks.Keys == s.tasks.Keys
    requires forall t :: t in tasks ==> tasks[t].claim == s.tasks[t].claim
    requires forall t :: t in tasks ==> PhaseOk(c, s.now, tasks[t])
    requires forall t :: t in tasks && s.tasks[t].phase.Finished? ==> tasks[t].phase.Finished?
    ensures Inv(c, s.(tasks := tasks))
  {
    var n := s.(tasks := tasks);
    assert forall t :: t in n.tasks <==> t in s.tasks;
    assert forall t :: t in n.tasks && Live(n.now, n.tasks[t]) ==> Live(s.now, s.tasks[t]);
    assert Txns(c, n) by {
      forall x | x in n.txns ensures TxnOk(c, n, n.txns[x]) { assert TxnOk(c, s, s.txns[x]); }
    }
  }

  lemma PhaseKeeps(c: Config, s: State, t: Id, phase: Phase)
    requires Inv(c, s) && t in s.tasks && (s.tasks[t].phase.Finished? ==> phase.Finished?)
    requires PhaseOk(c, s.now, s.tasks[t].(phase := phase))
    ensures Inv(c, WithPhase(s, t, phase))
  {
    SameClaimsKeep(c, s, s.tasks[t := s.tasks[t].(phase := phase)]);
  }

  lemma LoadKeeps(c: Config, s: State, t: Id)
    requires Inv(c, s) && t in s.tasks && s.tasks[t].phase.Loading?
    ensures Inv(c, AfterLoad(s, t))
  {
    DropKeeps(c, s, {t});
    PhaseKeeps(c, s, t, Checking(s.now));
  }

  lemma ReadRemainingKeeps(c: Config, s: State, t: Id)
    requires Inv(c, s) && t in s.tasks && s.tasks[t].phase.Checking?
    ensures Inv(c, AfterReadRemaining(s, t))
  {
    DropKeeps(c, s, {t});
    var task := s.tasks[t];
    var remaining := RemainingLease(s.deliveries, task.claim.row.id, t, s.now);
    if remaining.Some? {
      assert s.now + remaining.value <= task.claim.expiry;
      PhaseKeeps(c, s, t, Budgeting(task.phase.started, remaining.value));
    }
  }

  lemma StartSendKeeps(c: Config, s: State, t: Id)
    requires Inv(c, s) && t in s.tasks && s.tasks[t].phase.Budgeting?
    ensures Inv(c, AfterStartSend(c, s, t))
  {
    var task := s.tasks[t];
    var budget := SendBudget(c.limits, task.phase.remaining, task.phase.started, s.now);
    if budget <= 0.0 {
      DropKeeps(c, s, {t});
    } else {
      PhaseKeeps(c, s, t, Sending(s.now + budget));
      HistoryKeeps(c, WithPhase(s, t, Sending(s.now + budget)), AfterStartSend(c, s, t));
    }
  }

  lemma ProcessResultOk(c: Config, claim: Claim, reply: Reply, now: Time)
    requires claim.claimedAt <= now && claim.row.processedAt.None?
    requires Process(c.retry, claim.row, reply, now).Some?
    ensures ResultOk(c, claim, now, Process(c.retry, claim.row, reply, now).value)
  {
  }

  lemma EndSendKeeps(c: Config, s: State, t: Id, reply: Reply)
    requires Inv(c, s) && t in s.tasks && s.tasks[t].phase.Sending?
    ensures Inv(c, AfterEndSend(c, s, t, reply))
  {
    var task := s.tasks[t];
    assert ClaimOk(c, s.tokens, s.now, t, task.claim);
    var result := Process(c.retry, task.claim.row, reply, s.now);
    if result.None? {
      DropKeeps(c, s, {t});
    } else {
      ProcessResultOk(c, task.claim, reply, s.now);
      PhaseKeeps(c, s, t, Sent(s.now, result.value));
      HistoryKeeps(c, WithPhase(s, t, Sent(s.now, result.value)), AfterEndSend(c, s, t, reply));
    }
  }

  // ----- transactions

  lemma AbortKeeps(c: Config, s: State, x: Id)
    requires Inv(c, s)
    ensures Inv(c, s.(txns := s.txns - {x}))
  {
    var n := s.(txns := s.txns - {x});
    assert forall y :: y in n.txns ==> y in s.txns && n.txns[y] == s.txns[y];
    assert Txns(c, n) by {
      forall y | y in n.txns ensures TxnOk(c, n, n.txns[y]) { assert TxnOk(c, s, s.txns[y]); }
    }
    forall t | t in n.tasks && Live(n.now, n.tasks[t]) ensures OwnsRow(n.deliveries, n.txns, t, n.tasks[t].claim) {
      assert OwnsRow(s.deliveries, s.txns, t, s.tasks[t].claim);
    }
  }

  /** A transaction takes locks on free rows, none of which a live claim owns but its own. */
  lemma LockKeeps(c: Config, s: State, x: Id, txn: Txn)
    requires Inv(c, s)
    requires TxnOk(c, s, txn) && Minted(txn) == {}
    requires Held(txn) <= s.deliveries.Keys
    requires forall y :: y in s.txns && y != x ==> Held(txn) !! Held(s.txns[y])
    requires txn.Recording? ==> txn.claim.row.id in s.births
    requires forall t :: t in s.tasks && Live(s.now, s.tasks[t]) ==> Harmless(txn, s.tasks[t].claim.row.id, t)
    requires forall y :: y in s.txns && y != x ==> RecordedToken(txn) !! Minted(s.txns[y])
    ensures Inv(c, s.(txns := s.txns[x := txn]))
  {
    LockKeepsLocks(s, x, txn);
    LockKeepsTxns(c, s, x, txn);
  }

  lemma LockKeepsLocks(s: State, x: Id, txn: Txn)
    requires Locks(s) && Mints(s) && Ownership(s)
    requires Held(txn) <= s.deliveries.Keys && Minted(txn) == {}
    requires forall y :: y in s.txns && y != x ==> Held(txn) !! Held(s.txns[y])
    requires forall y :: y in s.txns && y != x ==> RecordedToken(txn) !! Minted(s.txns[y])
    requires forall t :: t in s.tasks && Live(s.now, s.tasks[t]) ==> Harmless(txn, s.tasks[t].claim.row.id, t)
    ensures var n := s.(txns := s.txns[x := txn]); Locks(n) && Mints(n) && Ownership(n)
  {
  }

  lemma LockKeepsTxns(c: Config, s: State, x: Id, txn: Txn)
    requires Txns(c, s) && TxnOk(c, s, txn)
    ensures Txns(c, s.(txns := s.txns[x := txn]))
  {
    var n := s.(txns := s.txns[x := txn]);
    forall y | y in n.txns ensures TxnOk(c, n, n.txns[y]) { if y != x { assert TxnOk(c, s, s.txns[y]); } }
  }

  lemma ClaimSelectKeeps(c: Config, s: State, x: Id, w: Id, limit: nat, exclude: set<Id>, chosen: seq<Due>)
    requires Inv(c, s) && x !in s.txns
    requires FirstOf(Candidates(s.deliveries, exclude + LockedRows(s), c.maxAttempts, s.now), limit, chosen)
    ensures Inv(c, s.(txns := s.txns[x := Claiming(w, set due | due in chosen :: due.id, s.now, None)]))
  {
    var rows := set due | due in chosen :: due.id;
    forall d | d in rows
      ensures d in s.deliveries && d !in LockedRows(s) && Eligible(s.deliveries[d], c.maxAttempts, s.now)
    {
      var due :| due in chosen && due.id == d;
      assert due in Elements(chosen);
    }
    forall y | y in s.txns ensures rows !! Held(s.txns[y]) {
      assert forall d :: d in Held(s.txns[y]) ==> d in LockedRows(s);
    }
    forall t | t in s.tasks && Live(s.now, s.tasks[t]) ensures Harmless(Claiming(w, rows, s.now, None), s.tasks[t].claim.row.id, t) {
      assert OwnsRow(s.deliveries, s.txns, t, s.tasks[t].claim) && ClaimOk(c, s.tokens, s.now, t, s.tasks[t].claim);
    }
    LockKeeps(c, s, x, Claiming(w, rows, s.now, None));
  }

  lemma OutcomeLockKeeps(c: Config, s: State, x: Id, t: Id)
    requires Inv(c, s) && Enabled(c, s, OutcomeLock(x, t))
    ensures Inv(c, Apply(c, s, OutcomeLock(x, t)))
  {
    var task := s.tasks[t];
    var txn := Recording(t, task.claim, task.phase.finishedAt, task.phase.result, None);
    assert ClaimOk(c, s.tokens, s.now, t, task.claim) && PhaseOk(c, s.now, task);
    forall y | y in s.txns ensures t !in Minted(s.txns[y]) { assert TxnOk(c, s, s.txns[y]); }
    LockKeeps(c, s, x, txn);
  }

  lemma ClaimStampKeeps(c: Config, s: State, x: Id, minted: map<Id, Id>, rows: map<Id, Id>)
    requires Inv(c, s) && Enabled(c, s, ClaimStamp(x, minted, rows))
    ensures Inv(c, Apply(c, s, ClaimStamp(x, minted, rows)))
  {
    var txn := s.txns[x].(stamp := Some(Stamping(s.now, minted, rows)));
    var n := s.(txns := s.txns[x := txn], tokens := s.tokens + rows.Keys);
    assert TxnOk(c, s, s.txns[x]);
    StampKeepsTxns(c, s, x, txn, rows.Keys);
    StampKeepsLocks(c, s, x, txn, rows.Keys);
    assert Tasks(c, n) by {
      forall t | t in n.tasks
        ensures ClaimOk(c, n.tokens, n.now, t, n.tasks[t].claim) && PhaseOk(c, n.now, n.tasks[t])
      {
        assert ClaimOk(c, s.tokens, s.now, t, s.tasks[t].claim);
      }
    }
    assert Rows(c, n);
  }

  lemma StampKeepsTxns(c: Config, s: State, x: Id, txn: Txn, added: set<Id>)
    requires Txns(c, s) && Tasks(c, s) && Rows(c, s)
    requires x in s.txns && txn.Claiming? && txn.stamp.Some? && s.txns[x] == txn.(stamp := None)
    requires txn.stamp.value.at == s.now && txn.stamp.value.rows.Keys == added && added !! s.tokens
    requires txn.stamp.value.tokens.Keys == txn.rows && Inverse(txn.stamp.value.tokens, txn.stamp.value.rows)
    ensures Txns(c, s.(txns := s.txns[x := txn], tokens := s.tokens + added))
  {
    var n := s.(txns := s.txns[x := txn], tokens := s.tokens + added);
    assert TxnOk(c, s, s.txns[x]);
    forall y | y in n.txns ensures TxnOk(c, n, n.txns[y]) {
      if y != x {
        assert TxnOk(c, s, s.txns[y]);
      } else {
        assert forall t :: t in s.tasks ==> ClaimOk(c, s.tokens, s.now, t, s.tasks[t].claim);
        assert forall d :: d in s.deliveries ==> RowOk(c, s.tokens, d, s.deliveries[d]);
        assert StampOk(n, txn.rows, txn.selectedAt, txn.stamp.value);
      }
    }
  }

  lemma StampKeepsLocks(c: Config, s: State, x: Id, txn: Txn, added: set<Id>)
    requires Locks(s) && Mints(s) && Ownership(s) && Txns(c, s)
    requires x in s.txns && txn.Claiming? && txn.stamp.Some? && s.txns[x] == txn.(stamp := None)
    requires txn.stamp.value.rows.Keys == added && added !! s.tokens
    ensures var n := s.(txns := s.txns[x := txn], tokens := s.tokens + added); Locks(n) && Mints(n) && Ownership(n)
  {
    var n := s.(txns := s.txns[x := txn], tokens := s.tokens + added);
    assert Held(txn) == Held(s.txns[x]);
    forall y | y in s.txns && y != x
      ensures Minted(txn) !! Minted(s.txns[y]) && Minted(txn) !! RecordedToken(s.txns[y])
    {
      assert TxnOk(c, s, s.txns[y]);
    }
    forall t | t in n.tasks && Live(n.now, n.tasks[t]) ensures OwnsRow(n.deliveries, n.txns, t, n.tasks[t].claim) {
      assert OwnsRow(s.deliveries, s.txns, t, s.tasks[t].claim);
      assert Harmless(s.txns[x], s.tasks[t].claim.row.id, t);
    }
  }

  // ----- rows that disappear or appear

  lemma FewerRowsKeep(c: Config, s: State, rows: map<Id, Delivery>)
    requires Inv(c, s)
    requires forall d :: d in rows ==> d in s.deliveries && rows[d] == s.deliveries[d]
    requires forall d :: d in s.deliveries && d !in rows ==> !Locked(s, d)
    ensures Inv(c, s.(deliveries := rows))
  {
    var n := s.(deliveries := rows);
    assert forall d :: d in rows.Keys ==> d in s.deliveries.Keys;
    forall x | x in n.txns ensures TxnOk(c, n, n.txns[x]) && Held(n.txns[x]) <= rows.Keys {
      assert TxnOk(c, s, s.txns[x]);
      forall d | d in Held(s.txns[x]) ensures d in rows { assert Locked(s, d); }
    }
    forall t | t in n.tasks && Live(n.now, n.tasks[t]) ensures OwnsRow(n.deliveries, n.txns, t, n.tasks[t].claim) {
      assert OwnsRow(s.deliveries, s.txns, t, s.tasks[t].claim);
    }
  }

  lemma FanInsertKeepsIds(c: Config, s: State, x: Id, targets: map<Id, Id>)
    requires Ids(s) && Enabled(c, s, FanInsert(x, targets))
    ensures Ids(AfterFanInsert(s, x, targets))
  {
    hide FanIds, WithRows, Range;
    InsertableRows(c, s, x, targets);
    hide Enabled;
    FanIdsWithRows(s, x, targets);
    FanIdsShrink(s.fans, x, s.deliveryIds, s.births);
  }

  lemma InsertableRows(c: Config, s: State, x: Id, targets: map<Id, Id>)
    requires Enabled(c, s, FanInsert(x, targets))
    ensures x in s.fans && s.fans[x].reading.Some? && targets.Keys !! s.deliveryIds
  {
  }

  lemma FanIdsWithRows(s: State, x: Id, targets: map<Id, Id>)
    requires FanIds(s.fans, s.deliveryIds, s.births) && s.births.Keys <= s.deliveryIds
    requires x in s.fans && s.fans[x].reading.Some? && targets.Keys !! s.deliveryIds
    ensures FanIds(s.fans[x := WithRows(s.fans[x], targets, s.now)], s.deliveryIds + targets.Keys, s.births)
  {
    var fan := WithRows(s.fans[x], targets, s.now);
    assert fan.inserted.Keys == s.fans[x].inserted.Keys + targets.Keys;
    assert forall d :: d in targets ==> IsNew(d, fan.inserted[d]);
    hide FanIds;
    FanIdsGrow(s.fans, x, fan, s.deliveryIds, s.births, targets.Keys);
  }

  lemma FanIdsShrink(fans: map<Id, FanOut>, x: Id, ids: set<Id>, births: map<Id, Pair>)
    requires FanIds(fans, ids, births)
    ensures FanIds(fans - {x}, ids, births)
  {
  }

  lemma FanReadKeepsIds(s: State, x: Id, e: Id)
    requires Ids(s) && x in s.fans && e in s.events
    ensures Ids(AfterFanRead(s, x, e))
  {
    FanIdsGrow(s.fans, x, AfterFanRead(s, x, e).fans[x], s.deliveryIds, s.births, {});
    assert s.deliveryIds + {} == s.deliveryIds;
    hide FanIds;
  }

  lemma FanIdsGrow(fans: map<Id, FanOut>, x: Id, fan: FanOut, ids: set<Id>, births: map<Id, Pair>, added: set<Id>)
    requires FanIds(fans, ids, births) && x in fans && added !! ids && births.Keys <= ids
    requires fan.inserted.Keys == fans[x].inserted.Keys + added
    requires forall d :: d in fan.inserted ==> if d in added then IsNew(d, fan.inserted[d]) else fan.inserted[d] == fans[x].inserted[d]
    ensures FanIds(fans[x := fan], ids + added, births)
  {
    forall d | d in fan.inserted ensures IsNew(d, fan.inserted[d]) {
      assert d in fan.inserted.Keys;
    }
    forall y | y in fans && y != x ensures fan.inserted.Keys !! fans[y].inserted.Keys {
      assert fans[y].inserted.Keys <= ids && fans[x].inserted.Keys !! fans[y].inserted.Keys;
    }
  }

  lemma FanInsertKeeps(c: Config, s: State, x: Id, targets: map<Id, Id>)
    requires Inv(c, s) && Enabled(c, s, FanInsert(x, targets))
    ensures Inv(c, Apply(c, s, FanInsert(x, targets)))
  {
    FanInsertKeepsIds(c, s, x, targets);
    hide Inv, Ids, WithRows;
    HistoryAndFansKeep(c, s, AfterFanInsert(s, x, targets));
  }

  lemma FanReadKeeps(c: Config, s: State, x: Id, e: Id)
    requires Inv(c, s) && x in s.fans && e in s.events
    ensures Inv(c, AfterFanRead(s, x, e))
  {
    FanReadKeepsIds(s, x, e);
    hide Inv, Ids;
    HistoryAndFansKeep(c, s, AfterFanRead(s, x, e));
  }

  lemma FanBeginKeeps(c: Config, s: State, x: Id, batch: set<Id>)
    requires Inv(c, s)
    ensures Inv(c, s.(fans := s.fans[x := FanOut(batch, None, map[], map[])]))
  {
    FanBeginKeepsIds(s, x, batch);
    hide Inv, Ids;
    HistoryAndFansKeep(c, s, s.(fans := s.fans[x := FanOut(batch, None, map[], map[])]));
  }

  lemma FanBeginKeepsIds(s: State, x: Id, batch: set<Id>)
    requires Ids(s)
    ensures Ids(s.(fans := s.fans[x := FanOut(batch, None, map[], map[])]))
  {
  }

  lemma FanAbortKeeps(c: Config, s: State, x: Id)
    requires Inv(c, s)
    ensures Inv(c, s.(fans := s.fans - {x}))
  {
    HistoryAndFansKeep(c, s, s.(fans := s.fans - {x}));
  }

  lemma HistoryAndFansKeep(c: Config, s: State, n: State)
    requires Inv(c, s) && Ids(n)
    requires n == s.(events := n.events, fans := n.fans, deliveryIds := n.deliveryIds, births := n.births, fanouts := n.fanouts)
    ensures Inv(c, n)
  {
    assert Txns(c, n) by {
      forall x | x in n.txns ensures TxnOk(c, n, n.txns[x]) { assert TxnOk(c, s, s.txns[x]); }
    }
  }

  /** New rows carry no lease, and their ids are not those of any running task. */
  lemma MoreRowsKeep(c: Config, s: State, rows: map<Id, Delivery>)
    requires Inv(c, s) && rows.Keys !! s.births.Keys
    requires forall d :: d in rows ==>
      rows[d] == NewDelivery(d, rows[d].eventId, rows[d].destinationId, rows[d].createdAt)
    ensures var n := s.(deliveries := s.deliveries + rows);
      && Rows(c, n) && Carriers(n) && Locks(n) && Tasks(c, n) && Txns(c, n) && Mints(n) && TokenRows(n)
      && Ownership(n) && OneLive(n)
  {
    var n := s.(deliveries := s.deliveries + rows);
    assert forall d :: d in s.deliveries.Keys ==> d in s.births.Keys;
    MoreRowsKeepTxns(c, s, rows);
    MoreRowsKeepOwners(s, rows);
    hide Txns, Locks, Ownership, Mints, OneLive;
    assert forall d :: d in n.deliveries <==> d in s.deliveries || d in rows;
    assert forall d :: d in s.deliveries ==> n.deliveries[d] == s.deliveries[d];
  }

  lemma MoreRowsKeepOwners(s: State, rows: map<Id, Delivery>)
    requires Ownership(s) && Ids(s) && rows.Keys !! s.births.Keys
    requires forall t :: t in s.tasks ==> s.tasks[t].claim.row.id in s.births
    ensures Ownership(s.(deliveries := s.deliveries + rows))
  {
    var n := s.(deliveries := s.deliveries + rows);
    forall t | t in n.tasks && Live(n.now, n.tasks[t]) ensures OwnsRow(n.deliveries, n.txns, t, n.tasks[t].claim) {
      assert OwnsRow(s.deliveries, s.txns, t, s.tasks[t].claim) && s.tasks[t].claim.row.id in s.births.Keys;
    }
  }

  lemma MoreRowsKeepTxns(c: Config, s: State, rows: map<Id, Delivery>)
    requires Txns(c, s) && Locks(s) && rows.Keys !! s.deliveries.Keys
    requires forall d :: d in rows ==> rows[d].leaseToken.None?
    ensures var n := s.(deliveries := s.deliveries + rows); Txns(c, n) && Locks(n)
  {
    var n := s.(deliveries := s.deliveries + rows);
    forall x | x in n.txns ensures TxnOk(c, n, n.txns[x]) && Held(n.txns[x]) <= n.deliveries.Keys {
      assert TxnOk(c, s, s.txns[x]) && Held(s.txns[x]) <= s.deliveries.Keys;
      assert forall d :: d in Held(s.txns[x]) ==> d in s.deliveries;
    }
  }

  lemma FanCommitKeeps(c: Config, s: State, x: Id)
    requires Inv(c, s) && x in s.fans
    ensures Inv(c, AfterFanCommit(s, x))
  {
    var fan := s.fans[x];
    var n := AfterFanCommit(s, x);
    MoreRowsKeep(c, s, fan.inserted);
    assert n.births.Keys == s.births.Keys + fan.inserted.Keys;
    assert Ids(n) by {
      assert forall y :: y in n.fans ==> y in s.fans && y != x && n.fans[y] == s.fans[y];
    }
    var m := s.(deliveries := s.deliveries + fan.inserted);
    assert Txns(c, n) by {
      forall y | y in n.txns ensures TxnOk(c, n, n.txns[y]) { assert TxnOk(c, m, m.txns[y]); }
    }
  }

  // ----- commits

  /** The two ends of an outcome's check. */
  lemma CheckForms(s: State, x: Id)
    requires x in s.txns && s.txns[x].Recording?
    ensures var r := s.txns[x];
      AfterOutcomeCheck(s, x) ==
        if RemainingLease(s.deliveries, r.claim.row.id, r.token, s.now).Some?
        then s.(txns := s.txns[x := r.(checkedAt := Some(s.now))])
        else Drop(s.(txns := s.txns - {x}), {r.token})
  {
    hide RemainingLease, Drop;
  }

  lemma OutcomeCheckKeeps(c: Config, s: State, x: Id)
    requires Inv(c, s) && Enabled(c, s, OutcomeCheck(x))
    ensures Inv(c, AfterOutcomeCheck(s, x))
  {
    var r := s.txns[x];
    var d := r.claim.row.id;
    assert TxnOk(c, s, r);
    if RemainingLease(s.deliveries, d, r.token, s.now).Some? {
      var txn := r.(checkedAt := Some(s.now));
      assert s.deliveries[d] == r.claim.row;
      forall t | t in s.tasks && Live(s.now, s.tasks[t]) ensures Harmless(txn, s.tasks[t].claim.row.id, t) {
        assert OwnsRow(s.deliveries, s.txns, t, s.tasks[t].claim);
        assert ClaimOk(c, s.tokens, s.now, t, s.tasks[t].claim);
      }
      LockKeeps(c, s, x, txn);
    } else {
      AbortKeeps(c, s, x);
      DropKeeps(c, s.(txns := s.txns - {x}), {r.token});
    }
  }

  predicate Untouched(deliveries: map<Id, Delivery>, rows: map<Id, Delivery>, d: Id) {
    d in rows && d in deliveries ==> rows[d] == deliveries[d]
  }

  /** x commits: rows it held lose their lease, and no live claim owned one of them. */
  lemma RewriteKeeps(c: Config, s: State, x: Id, rows: map<Id, Delivery>)
    requires Inv(c, s) && x in s.txns && rows.Keys == s.deliveries.Keys
    requires forall d :: d in rows && rows[d] != s.deliveries[d] ==>
      d in Held(s.txns[x]) && RowOk(c, s.tokens, d, rows[d]) && rows[d].leaseToken.None? && rows[d].lockedUntil.None?
    requires forall t :: t in s.tasks && Live(s.now, s.tasks[t]) ==> Untouched(s.deliveries, rows, s.tasks[t].claim.row.id)
    ensures Inv(c, s.(txns := s.txns - {x}, deliveries := rows))
  {
    var n := s.(txns := s.txns - {x}, deliveries := rows);
    RewriteKeepsRows(c, s, x, rows);
    RewriteKeepsTxns(c, s, x, rows);
    RewriteKeepsOwners(s, x, rows);
    RewriteKeepsLocks(s, x, rows);
    hide Rows, Carriers, TokenRows, Txns, Ownership, Locks, Mints, FanIds;
    assert forall y :: y in n.txns ==> y in s.txns && y != x && n.txns[y] == s.txns[y];
  }

  /** A row that a commit of x changes was held by x and loses its lease. */
  ghost predicate Rewritten(c: Config, s: State, x: Id, rows: map<Id, Delivery>) {
    && x in s.txns && rows.Keys == s.deliveries.Keys
    && forall d :: d in rows && rows[d] != s.deliveries[d] ==>
         d in Held(s.txns[x]) && RowOk(c, s.tokens, d, rows[d]) && rows[d].leaseToken.None? && rows[d].lockedUntil.None?
  }

  lemma RewriteKeepsRows(c: Config, s: State, x: Id, rows: map<Id, Delivery>)
    requires Rows(c, s) && Carriers(s) && TokenRows(s) && Rewritten(c, s, x, rows)
    ensures var n := s.(txns := s.txns - {x}, deliveries := rows); Rows(c, n) && Carriers(n) && TokenRows(n)
  {
    hide RowOk, Held;
    assert forall d :: d in rows.Keys <==> d in s.deliveries.Keys;
  }

  lemma RewriteKeepsTxns(c: Config, s: State, x: Id, rows: map<Id, Delivery>)
    requires Txns(c, s) && Locks(s) && Rewritten(c, s, x, rows)
    ensures Txns(c, s.(txns := s.txns - {x}, deliveries := rows))
  {
    var n := s.(txns := s.txns - {x}, deliveries := rows);
    hide RowOk;
    assert forall d :: d in rows.Keys <==> d in s.deliveries.Keys;
    forall y | y in n.txns ensures TxnOk(c, n, n.txns[y]) {
      assert TxnOk(c, s, s.txns[y]) && Held(s.txns[x]) !! Held(s.txns[y]) && Held(s.txns[y]) <= s.deliveries.Keys;
      assert forall d :: d in Held(s.txns[y]) ==> rows[d] == s.deliveries[d];
    }
  }

  lemma RewriteKeepsOwners(s: State, x: Id, rows: map<Id, Delivery>)
    requires Ownership(s) && rows.Keys == s.deliveries.Keys
    requires forall t :: t in s.tasks && Live(s.now, s.tasks[t]) ==> Untouched(s.deliveries, rows, s.tasks[t].claim.row.id)
    ensures Ownership(s.(txns := s.txns - {x}, deliveries := rows))
  {
    var n := s.(txns := s.txns - {x}, deliveries := rows);
    forall t | t in n.tasks && Live(n.now, n.tasks[t]) ensures OwnsRow(n.deliveries, n.txns, t, n.tasks[t].claim) {
      assert OwnsRow(s.deliveries, s.txns, t, s.tasks[t].claim);
      assert s.tasks[t].claim.row.id in rows.Keys <==> s.tasks[t].claim.row.id in s.deliveries.Keys;
    }
  }

  lemma RewriteKeepsLocks(s: State, x: Id, rows: map<Id, Delivery>)
    requires Locks(s) && Mints(s) && rows.Keys == s.deliveries.Keys
    ensures var n := s.(txns := s.txns - {x}, deliveries := rows); Locks(n) && Mints(n)
  {
  }

  lemma CheckedRow(c: Config, s: State, x: Id)
    requires Inv(c, s) && x in s.txns && s.txns[x].Recording? && s.txns[x].checkedAt.Some?
    ensures var r := s.txns[x]; var d := r.claim.row.id;
      && d in s.deliveries && s.deliveries[d] == r.claim.row && d in s.births
      && RowOk(c, s.tokens, d, WriteOutcome(s.deliveries[d], r.result))
  {
    var r := s.txns[x];
    assert TxnOk(c, s, r) && RowOk(c, s.tokens, r.claim.row.id, s.deliveries[r.claim.row.id]);
  }

  lemma OutcomeWriteKeeps(c: Config, s: State, x: Id)
    requires Inv(c, s) && x in s.txns && s.txns[x].Recording? && s.txns[x].checkedAt.Some?
    requires s.txns[x].token in s.tasks ==> s.tasks[s.txns[x].token].phase.Finished?
    requires s.txns[x].claim.row.id in s.deliveries
    ensures Inv(c, Written(s, x))
  {
    var r := s.txns[x];
    var d := r.claim.row.id;
    CheckedRow(c, s, x);
    assert d in Held(r);
    var rows := s.deliveries[d := WriteOutcome(s.deliveries[d], r.result)];
    forall t | t in s.tasks && Live(s.now, s.tasks[t]) ensures s.tasks[t].claim.row.id != d {
      assert OwnsRow(s.deliveries, s.txns, t, s.tasks[t].claim);
      assert Harmless(s.txns[x], s.tasks[t].claim.row.id, t);
    }
    hide Inv;
    RewriteKeeps(c, s, x, rows);
    HistoryKeeps(c, s.(txns := s.txns - {x}, deliveries := rows), Written(s, x));
  }

  lemma FinishKeeps(c: Config, s: State, t: Id)
    requires Inv(c, s)
    ensures Inv(c, Finish(s, t))
  {
    if t in s.tasks {
      PhaseKeeps(c, s, t, Finished);
    }
  }

  lemma OutcomeCommitKeeps(c: Config, s: State, x: Id)
    requires Inv(c, s) && x in s.txns && s.txns[x].Recording? && s.txns[x].checkedAt.Some?
    ensures Inv(c, AfterOutcomeCommit(s, x))
  {
    hide Inv;
    FinishKeeps(c, s, s.txns[x].token);
    AbortKeeps(c, s, x);
    if s.txns[x].claim.row.id in s.deliveries {
      OutcomeWriteKeeps(c, Finish(s, s.txns[x].token), x);
    }
  }

  lemma ReleaseCommitKeeps(c: Config, s: State, x: Id)
    requires Inv(c, s) && Enabled(c, s, ReleaseCommit(x))
    ensures Inv(c, Apply(c, s, ReleaseCommit(x)))
  {
    var tokens := s.txns[x].tokens;
    assert TxnOk(c, s, s.txns[x]) && Held(s.txns[x]) == tokens.Keys;
    var rows := Released(s.deliveries, tokens);
    forall d | d in rows && rows[d] != s.deliveries[d]
      ensures d in tokens && RowOk(c, s.tokens, d, rows[d]) && rows[d].leaseToken.None? && rows[d].lockedUntil.None?
    {
      assert RowOk(c, s.tokens, d, s.deliveries[d]);
    }
    forall t | t in s.tasks && Live(s.now, s.tasks[t]) ensures Untouched(s.deliveries, rows, s.tasks[t].claim.row.id)
    {
      assert OwnsRow(s.deliveries, s.txns, t, s.tasks[t].claim);
      assert Harmless(s.txns[x], s.tasks[t].claim.row.id, t);
    }
    RewriteKeeps(c, s, x, rows);
  }

  lemma ReleaseRowKeeps(c: Config, s: State, x: Id, w: Id, t: Id, d: Id)
    requires Inv(c, s) && Enabled(c, s, ReleaseRow(x, w, t, d))
    ensures Inv(c, Apply(c, s, ReleaseRow(x, w, t, d)))
  {
    var txn := Releasing(s.txns[x].tokens[d := t]);
    assert TxnOk(c, s, s.txns[x]);
    assert Held(txn) == Held(s.txns[x]) + {d};
    forall y | y in s.txns && y != x ensures Held(txn) !! Held(s.txns[y]) {
      assert d in Held(s.txns[y]) ==> Locked(s, d);
    }
    forall u | u in s.tasks && Live(s.now, s.tasks[u]) ensures Harmless(txn, s.tasks[u].claim.row.id, u) {
      assert OwnsRow(s.deliveries, s.txns, u, s.tasks[u].claim) && ClaimOk(c, s.tokens, s.now, u, s.tasks[u].claim);
      assert Harmless(s.txns[x], s.tasks[u].claim.row.id, u);
    }
    LockKeeps(c, s, x, txn);
  }

  lemma ReleaseBeginKeeps(c: Config, s: State, x: Id)
    requires Inv(c, s) && x !in s.txns
    ensures Inv(c, s.(txns := s.txns[x := Releasing(map[])]))
  {
    LockKeeps(c, s, x, Releasing(map[]));
  }

  lemma ClaimedTxnsKept(c: Config, s: State, x: Id)
    requires Inv(c, s) && x in s.txns && s.txns[x].Claiming? && s.txns[x].stamp.Some?
    ensures Txns(c, Claimed(c, s, x))
  {
    var n := Claimed(c, s, x);
    var st := s.txns[x].stamp.value;
    assert TxnOk(c, s, s.txns[x]);
    forall y | y in n.txns ensures TxnOk(c, n, n.txns[y]) {
      assert TxnOk(c, s, s.txns[y]) && Held(s.txns[x]) !! Held(s.txns[y]) && Held(s.txns[y]) <= s.deliveries.Keys;
      assert forall d :: d in Held(s.txns[y]) ==> n.deliveries[d] == s.deliveries[d];
      assert Minted(s.txns[y]) !! Minted(s.txns[x]);
      if s.txns[y].Claiming? && s.txns[y].stamp.Some? {
        var tokens := s.txns[y].stamp.value.rows.Keys;
        forall d | d in n.deliveries && n.deliveries[d].leaseToken.Some?
          ensures n.deliveries[d].leaseToken.value !in tokens
        {
          if d in st.tokens { assert st.tokens[d] in st.rows; }
        }
      }
    }
  }

  lemma ClaimedKeeps(c: Config, s: State, x: Id)
    requires Inv(c, s) && x in s.txns && s.txns[x].Claiming? && s.txns[x].stamp.Some?
    ensures Inv(c, Claimed(c, s, x))
  {
    var n := Claimed(c, s, x);
    var st := s.txns[x].stamp.value;
    assert TxnOk(c, s, s.txns[x]) && Held(s.txns[x]) == st.tokens.Keys;
    ClaimedTxnsKept(c, s, x);
    forall d | d in n.deliveries ensures RowOk(c, n.tokens, d, n.deliveries[d]) {
      assert RowOk(c, s.tokens, d, s.deliveries[d]);
      if d in st.tokens { assert st.tokens[d] in st.rows; }
    }
    forall d, e | d in n.deliveries && e in n.deliveries && n.deliveries[d].leaseToken.Some?
      ensures n.deliveries[d].leaseToken == n.deliveries[e].leaseToken ==> d == e
    {
      assert d in st.tokens ==> st.tokens[d] in st.rows && st.rows[st.tokens[d]] == d;
      assert e in st.tokens ==> st.tokens[e] in st.rows && st.rows[st.tokens[e]] == e;
    }
    forall d, t | d in n.deliveries && t in n.tasks && n.deliveries[d].leaseToken == Some(t)
      ensures n.deliveries[d] == n.tasks[t].claim.row
    {
      assert t !in st.rows;
    }
    forall t | t in n.tasks && Live(n.now, n.tasks[t]) ensures OwnsRow(n.deliveries, n.txns, t, n.tasks[t].claim) {
      assert OwnsRow(s.deliveries, s.txns, t, s.tasks[t].claim);
      assert Harmless(s.txns[x], s.tasks[t].claim.row.id, t);
    }
  }

  /** The rows a claim stamped are free, no live claim owns them, and their tokens are new. */
  lemma ClaimedRowsAreFree(c: Config, s: State, x: Id, t: Id)
    requires Inv(c, s) && x in s.txns && s.txns[x].Claiming? && s.txns[x].stamp.Some?
    requires t in s.txns[x].stamp.value.rows
    ensures var n := Claimed(c, s, x); var st := s.txns[x].stamp.value; var d := st.rows[t];
      && d in n.deliveries && d in s.deliveries
      && n.deliveries[d] == s.deliveries[d].(lockedUntil := Some(ExpiryOf(c, st)), leaseToken := Some(t))
      && n.deliveries[d].id == d && d in n.births && t !in n.tasks
      && (forall e :: e in n.deliveries && n.deliveries[e].leaseToken == Some(t) ==> e == d)
      && ClaimOk(c, n.tokens, n.now, t, Claim(n.deliveries[d], st.at, ExpiryOf(c, st)))
      && (forall y :: y in n.txns ==> d !in Held(n.txns[y]) && t !in RecordedToken(n.txns[y]) && t !in Minted(n.txns[y]))
      && (forall u :: u in n.tasks && Live(n.now, n.tasks[u]) ==> n.tasks[u].claim.row.id != d)
  {
    var st := s.txns[x].stamp.value;
    var d := st.rows[t];
    assert TxnOk(c, s, s.txns[x]) && Held(s.txns[x]) == st.tokens.Keys && d in st.tokens && st.tokens[d] == t;
    assert t in Minted(s.txns[x]);
    assert RowOk(c, s.tokens, d, s.deliveries[d]) && d in s.births.Keys;
    forall u | u in s.tasks && Live(s.now, s.tasks[u]) ensures s.tasks[u].claim.row.id != d {
      assert OwnsRow(s.deliveries, s.txns, u, s.tasks[u].claim);
      assert Harmless(s.txns[x], s.tasks[u].claim.row.id, u);
    }
  }

  lemma MoreTasksKeepTxns(c: Config, s: State, added: map<Id, Task>)
    requires Txns(c, s)
    requires forall y :: y in s.txns ==> added.Keys !! RecordedToken(s.txns[y]) && added.Keys !! Minted(s.txns[y])
    ensures Txns(c, s.(tasks := s.tasks + added))
  {
    var n := s.(tasks := s.tasks + added);
    forall y | y in n.txns ensures TxnOk(c, n, n.txns[y]) {
      assert TxnOk(c, s, s.txns[y]);
      if s.txns[y].Claiming? && s.txns[y].stamp.Some? {
        assert s.txns[y].stamp.value.rows.Keys == Minted(s.txns[y]);
      }
      if s.txns[y].Recording? {
        assert s.txns[y].token in RecordedToken(s.txns[y]);
      }
    }
  }

  ghost predicate Joins(c: Config, s: State, t: Id, task: Task) {
    && t !in s.tasks && task.phase.Loading?
    && ClaimOk(c, s.tokens, s.now, t, task.claim)
    && OwnsRow(s.deliveries, s.txns, t, task.claim)
    && task.claim.row.id in s.births
    && (forall y :: y in s.txns ==> t !in RecordedToken(s.txns[y]) && t !in Minted(s.txns[y]))
    && (forall u :: u in s.tasks && Live(s.now, s.tasks[u]) ==> s.tasks[u].claim.row.id != task.claim.row.id)
    && (forall d :: d in s.deliveries && s.deliveries[d].leaseToken == Some(t) ==> s.deliveries[d] == task.claim.row)
  }

  lemma MoreTasksKeep(c: Config, s: State, added: map<Id, Task>)
    requires Inv(c, s)
    requires forall t :: t in added ==> Joins(c, s, t, added[t])
    requires forall t, u :: t in added && u in added && added[t].claim.row.id == added[u].claim.row.id ==> t == u
    ensures Inv(c, s.(tasks := s.tasks + added))
  {
    MoreTasksKeepTxns(c, s, added);
    MoreTasksKeepOwners(c, s, added);
    var n := s.(tasks := s.tasks + added);
    assert Tasks(c, n) by {
      forall t | t in n.tasks
        ensures ClaimOk(c, n.tokens, n.now, t, n.tasks[t].claim) && PhaseOk(c, n.now, n.tasks[t])
      {
        if t in added { assert Joins(c, s, t, added[t]); }
      }
    }
  }

  lemma MoreTasksKeepOwners(c: Config, s: State, added: map<Id, Task>)
    requires Ownership(s) && TokenRows(s) && OneLive(s) && Ids(s)
    requires forall t :: t in added ==> Joins(c, s, t, added[t])
    requires forall t, u :: t in added && u in added && added[t].claim.row.id == added[u].claim.row.id ==> t == u
    ensures var n := s.(tasks := s.tasks + added); Ownership(n) && TokenRows(n) && OneLive(n) && Ids(n)
  {
  }

  lemma ClaimedTasksJoin(c: Config, s: State, x: Id)
    requires Inv(c, s) && x in s.txns && s.txns[x].Claiming? && s.txns[x].stamp.Some?
    ensures var n := Claimed(c, s, x); var st := s.txns[x].stamp.value;
      var added := NewTasks(n.deliveries, st, ExpiryOf(c, st));
      && (forall t :: t in added ==> Joins(c, n, t, added[t]))
      && (forall t, u :: t in added && u in added && added[t].claim.row.id == added[u].claim.row.id ==> t == u)
  {
    var n := Claimed(c, s, x);
    var st := s.txns[x].stamp.value;
    var added := NewTasks(n.deliveries, st, ExpiryOf(c, st));
    assert TxnOk(c, s, s.txns[x]);
    forall t | t in added ensures Joins(c, n, t, added[t]) && added[t].claim.row.id == st.rows[t] {
      ClaimedRowsAreFree(c, s, x, t);
    }
  }

  lemma StartedKeeps(c: Config, s: State, x: Id)
    requires Inv(c, s) && x in s.txns && s.txns[x].Claiming? && s.txns[x].stamp.Some?
    ensures Inv(c, Started(c, s, x))
  {
    hide Inv;
    var n := Claimed(c, s, x);
    var st := s.txns[x].stamp.value;
    ClaimedKeeps(c, s, x);
    ClaimedTasksJoin(c, s, x);
    MoreTasksKeep(c, n, NewTasks(n.deliveries, st, ExpiryOf(c, st)));
  }

  lemma ClaimCommitKeeps(c: Config, s: State, x: Id, returned: bool)
    requires Inv(c, s) && x in s.txns && s.txns[x].Claiming? && s.txns[x].stamp.Some?
    ensures Inv(c, AfterClaimCommit(c, s, x, returned))
  {
    hide Inv;
    ClaimedKeeps(c, s, x);
    StartedKeeps(c, s, x);
    HistoryKeeps(c, Started(c, s, x), Started(c, s, x).(waves := s.waves[s.txns[x].worker := s.txns[x].stamp.value.rows.Keys]));
  }

  // ----- every step, every run

  predicate OfTable(l: Label) {
    l.EmitEvent? || l.PutDestination? || l.DropDestination? || l.RetainDeliveries? || l.RetainEvents?
  }

  predicate OfFanOut(l: Label) {
    l.FanBegin? || l.FanRead? || l.FanInsert? || l.FanCommit? || l.FanAbort?
  }

  predicate OfTask(l: Label) {
    l.Load? || l.ReadRemaining? || l.StartSend? || l.EndSend?
  }

  predicate OfWave(l: Label) {
    l.Tick? || l.EndTasks? || l.EndWave? || l.Crash?
  }

  lemma TableStepKeeps(c: Config, s: State, l: Label)
    requires Inv(c, s) && Enabled(c, s, l) && OfTable(l)
    ensures Inv(c, Apply(c, s, l))
  {
    hide Inv;
    match l
    case EmitEvent(_, _) => HistoryKeeps(c, s, Apply(c, s, l));
    case PutDestination(_, _) => HistoryKeeps(c, s, Apply(c, s, l));
    case DropDestination(g) =>
      FewerRowsKeep(c, s, WithoutDestination(s.deliveries, g));
      HistoryKeeps(c, s.(deliveries := WithoutDestination(s.deliveries, g)), Apply(c, s, l));
    case RetainDeliveries(_, gone) => FewerRowsKeep(c, s, s.deliveries - gone);
    case RetainEvents(_, gone) =>
      FewerRowsKeep(c, s, WithoutEvents(s.deliveries, gone));
      HistoryKeeps(c, s.(deliveries := WithoutEvents(s.deliveries, gone)), Apply(c, s, l));
  }

  lemma FanOutStepKeeps(c: Config, s: State, l: Label)
    requires Inv(c, s) && Enabled(c, s, l) && OfFanOut(l)
    ensures Inv(c, Apply(c, s, l))
  {
    hide Inv;
    match l
    case FanBegin(x, batch) => FanBeginKeeps(c, s, x, batch);
    case FanRead(x, e) => FanReadKeeps(c, s, x, e);
    case FanInsert(x, targets) => FanInsertKeeps(c, s, x, targets);
    case FanCommit(x) => FanCommitKeeps(c, s, x);
    case FanAbort(x) => FanAbortKeeps(c, s, x);
  }

  lemma TaskStepKeeps(c: Config, s: State, l: Label)
    requires Inv(c, s) && Enabled(c, s, l) && OfTask(l)
    ensures Inv(c, Apply(c, s, l))
  {
    hide Inv, AfterLoad, AfterReadRemaining, AfterStartSend, AfterEndSend;
    match l
    case Load(t) => LoadKeeps(c, s, t);
    case ReadRemaining(t) => ReadRemainingKeeps(c, s, t);
    case StartSend(t) => StartSendKeeps(c, s, t);
    case EndSend(t, reply) => EndSendKeeps(c, s, t, reply);
  }

  lemma WaveStepKeeps(c: Config, s: State, l: Label)
    requires Inv(c, s) && Enabled(c, s, l) && OfWave(l)
    ensures Inv(c, Apply(c, s, l))
  {
    hide Inv, Drop;
    match l
    case Tick(to) => TickKeeps(c, s, to);
    case EndTasks(gone) => DropKeeps(c, s, gone);
    case EndWave(w) => HistoryKeeps(c, s, Apply(c, s, l));
    case Crash(w) =>
      CrashKeeps(c, s, w);
  }

  lemma CrashKeeps(c: Config, s: State, w: Id)
    requires Inv(c, s) && w in s.waves
    ensures Inv(c, Drop(s, s.waves[w]).(waves := s.waves - {w}))
  {
    hide Inv, Drop;
    DropKeeps(c, s, s.waves[w]);
    HistoryKeeps(c, Drop(s, s.waves[w]), Drop(s, s.waves[w]).(waves := s.waves - {w}));
  }

  lemma TxnStepKeeps(c: Config, s: State, l: Label)
    requires Inv(c, s) && Enabled(c, s, l) && !OfTable(l) && !OfFanOut(l) && !OfTask(l) && !OfWave(l)
    ensures Inv(c, Apply(c, s, l))
  {
    hide Inv;
    match l
    case ClaimSelect(x, w, limit, exclude, chosen) => ClaimSelectKeeps(c, s, x, w, limit, exclude, chosen);
    case ClaimStamp(x, minted, rows) => ClaimStampKeeps(c, s, x, minted, rows);
    case ClaimCommit(x, returned) => ClaimCommitKeeps(c, s, x, returned);
    case Abort(x) => AbortKeeps(c, s, x);
    case OutcomeLock(x, t) => OutcomeLockKeeps(c, s, x, t);
    case OutcomeCheck(x) => OutcomeCheckKeeps(c, s, x);
    case OutcomeCommit(x) => OutcomeCommitKeeps(c, s, x);
    case ReleaseBegin(x, w) => ReleaseBeginKeeps(c, s, x);
    case ReleaseRow(x, w, t, d) => ReleaseRowKeeps(c, s, x, w, t, d);
    case ReleaseCommit(x) => ReleaseCommitKeeps(c, s, x);
  }

  /** Every step keeps the invariant. */
  lemma StepKeeps(c: Config, s: State, l: Label)
    requires Inv(c, s) && Enabled(c, s, l)
    ensures Inv(c, Apply(c, s, l))
  {
    hide Inv, Enabled, Apply;
    if OfTable(l) { TableStepKeeps(c, s, l); }
    else if OfFanOut(l) { FanOutStepKeeps(c, s, l); }
    else if OfTask(l) { TaskStepKeeps(c, s, l); }
    else if OfWave(l) { WaveStepKeeps(c, s, l); }
    else { TxnStepKeeps(c, s, l); }
  }
}
