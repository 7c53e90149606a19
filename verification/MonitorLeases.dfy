/**
  What every step of the monitor protocol keeps about rows, locks, leases and probes. A
  transaction that holds a monitor still has the row it read; a probe that runs within its
  lease still owns its row's lease.
 */
module MonitorLeases {
  import opened Prelude
  import opened Selection
  import opened MonitorState
  import opened CheckRecording
  import opened MonitorProtocol

  ghost predicate RowOk(tokens: set<Id>, m: Id, row: Row) {
    && row.monitor.id == m
    && (row.leaseToken.Some? <==> row.leaseUntil.Some?)
    && (row.leaseToken.Some? ==> row.leaseToken.value in tokens)
  }

  ghost predicate Rows(s: State) {
    && (forall m :: m in s.rows ==> RowOk(s.tokens, m, s.rows[m]))
    && (forall m, n ::
          (m in s.rows && n in s.rows && s.rows[m].leaseToken.Some? && s.rows[m].leaseToken == s.rows[n].leaseToken)
          ==> m == n)
  }

  ghost predicate Ids(s: State) {
    && s.rows.Keys <= s.past.Keys
    && (forall t :: t in s.probes ==> s.probes[t].monitor.id in s.past)
  }

  ghost predicate Locks(s: State) {
    && (forall x :: x in s.txns ==> Held(s.txns[x]) <= s.rows.Keys)
    && (forall x, y :: x in s.txns && y in s.txns && x != y ==> Held(s.txns[x]) !! Held(s.txns[y]))
  }

  ghost predicate ProbeOk(now: Time, tokens: set<Id>, t: Id, p: Probe) {
    t in tokens && (p.state.Running? ==> now <= p.state.deadline <= p.expiry)
  }

  ghost predicate Probes(s: State) {
    forall t :: t in s.probes ==> ProbeOk(s.now, s.tokens, t, s.probes[t])
  }

  ghost predicate NoRowCarries(rows: map<Id, Row>, tokens: set<Id>) {
    forall m :: m in rows && rows[m].leaseToken.Some? ==> rows[m].leaseToken.value !in tokens
  }

  ghost predicate StampOk(s: State, held: set<Id>, selectedAt: Time, st: Stamping) {
    && st.tokens.Keys == held && Inverse(st.tokens, st.rows)
    && selectedAt <= st.at <= s.now
    && st.rows.Keys <= s.tokens && st.rows.Keys !! s.probes.Keys
    && NoRowCarries(s.rows, st.rows.Keys)
  }

  predicate EffectOk(read: Monitor, success: bool, since: Time, now: Time, effect: Effect) {
    && since <= effect.at <= now
    && effect.op.Checked? && effect.op.success == success && effect.op.at == effect.at
    && effect.write == Recorded(read, success, effect.op.maintenance, effect.at)
  }

  ghost predicate TxnOk(s: State, x: Txn) {
    match x
    case Claiming(_, begunAt, held, selectedAt, stamp) =>
      && begunAt <= selectedAt <= s.now
      && (forall m :: m in held && m in s.rows ==> IsDue(s.rows[m], selectedAt))
      && (stamp.Some? ==> StampOk(s, held, selectedAt, stamp.value))
    case Checking(m, read, token, success, since, verified, createdAt, effect) =>
      && since <= s.now && (m in s.rows ==> s.rows[m].monitor == read)
      && (token.Some? ==> token.value in s.tokens && (token.value in s.probes ==> s.probes[token.value].state.Done?))
      && (verified ==> token.Some? && (m in s.rows ==> HoldsLease(s.rows[m], token.value, since)))
      && (createdAt.Some? ==> since <= createdAt.value <= s.now && (token.Some? ==> verified))
      && (effect.Some? ==> EffectOk(read, success, since, s.now, effect.value) && createdAt == Some(effect.value.at))
    case Editing(m, read, _) => m in s.rows ==> s.rows[m].monitor == read
    case Releasing(tokens) => forall m :: m in tokens && m in s.rows ==> s.rows[m].leaseToken == Some(tokens[m])
  }

  ghost predicate Txns(s: State) {
    forall x :: x in s.txns ==> TxnOk(s, s.txns[x])
  }

  function Minted(x: Txn): set<Id> {
    if x.Claiming? && x.stamp.Some? then x.stamp.value.rows.Keys else {}
  }

  function RecordedToken(x: Txn): set<Id> {
    if x.Checking? && x.token.Some? then {x.token.value} else {}
  }

  ghost predicate Mints(s: State) {
    forall x, y :: x in s.txns && y in s.txns && x != y ==>
      Minted(s.txns[x]) !! Minted(s.txns[y]) && Minted(s.txns[x]) !! RecordedToken(s.txns[y])
  }

  predicate Live(now: Time, p: Probe) {
    p.state.Running? && now < p.expiry
  }

  /** x cannot commit a change to the lease of m. */
  predicate Harmless(x: Txn, m: Id) {
    m in Held(x) ==> x.Editing? || (x.Checking? && !x.verified)
  }

  ghost predicate OwnsRow(rows: map<Id, Row>, txns: map<Id, Txn>, t: Id, p: Probe) {
    p.monitor.id in rows ==>
      && rows[p.monitor.id].leaseToken == Some(t) && rows[p.monitor.id].leaseUntil == Some(p.expiry)
      && forall x :: x in txns ==> Harmless(txns[x], p.monitor.id)
  }

  ghost predicate Ownership(s: State) {
    forall t :: t in s.probes && Live(s.now, s.probes[t]) ==> OwnsRow(s.rows, s.txns, t, s.probes[t])
  }

  ghost predicate Inv(s: State) {
    Rows(s) && Ids(s) && Locks(s) && Probes(s) && Txns(s) && Mints(s) && Ownership(s)
  }

  // ----- changes that concern nothing above

  lemma QuietKeeps(s: State, n: State)
    requires Inv(s)
    requires n == s.(incidents := n.incidents, windows := n.windows, outbox := n.outbox, waves := n.waves,
                     incidentIds := n.incidentIds, past := n.past, probeLog := n.probeLog, checks := n.checks)
    requires s.past.Keys <= n.past.Keys
    ensures Inv(n)
  {
    assert forall m :: m in s.past.Keys ==> m in n.past.Keys;
  }

  lemma TickKeeps(s: State, to: Time)
    requires Inv(s) && s.now <= to
    requires forall t :: t in s.probes && s.probes[t].state.Running? ==> to <= s.probes[t].state.deadline
    ensures Inv(s.(now := to))
  {
  }

  lemma DropKeeps(s: State, gone: set<Id>)
    requires Inv(s)
    ensures Inv(Drop(s, gone))
  {
  }

  lemma EndProbeKeeps(s: State, t: Id, success: bool)
    requires Inv(s) && t in s.probes
    ensures Inv(s.(probes := s.probes[t := s.probes[t].(state := Done(success))]))
  {
    var n := s.(probes := s.probes[t := s.probes[t].(state := Done(success))]);
    assert forall u :: u in n.probes <==> u in s.probes;
    assert forall u :: u in n.probes && Live(n.now, n.probes[u]) ==> u != t && Live(s.now, s.probes[u]);
    assert Txns(n) by {
      forall x | x in n.txns ensures TxnOk(n, n.txns[x]) { assert TxnOk(s, s.txns[x]); }
    }
  }

  // ----- transactions that come and go

  lemma AbortKeeps(s: State, x: Id)
    requires Inv(s)
    ensures Inv(s.(txns := s.txns - {x}))
  {
    var n := s.(txns := s.txns - {x});
    assert Txns(n) by {
      forall y | y in n.txns ensures TxnOk(n, n.txns[y]) { assert TxnOk(s, s.txns[y]); }
    }
  }

  lemma LockKeeps(s: State, x: Id, txn: Txn)
    requires Inv(s) && TxnOk(s, txn) && Minted(txn) == {}
    requires Held(txn) <= s.rows.Keys
    requires forall y :: y in s.txns && y != x ==> Held(txn) !! Held(s.txns[y])
    requires forall y :: y in s.txns && y != x ==> RecordedToken(txn) !! Minted(s.txns[y])
    requires forall t :: t in s.probes && Live(s.now, s.probes[t]) ==> Harmless(txn, s.probes[t].monitor.id)
    ensures Inv(s.(txns := s.txns[x := txn]))
  {
    LockKeepsLocks(s, x, txn);
    LockKeepsTxns(s, x, txn);
  }

  lemma LockKeepsLocks(s: State, x: Id, txn: Txn)
    requires Locks(s) && Mints(s) && Ownership(s)
    requires Held(txn) <= s.rows.Keys && Minted(txn) == {}
    requires forall y :: y in s.txns && y != x ==> Held(txn) !! Held(s.txns[y])
    requires forall y :: y in s.txns && y != x ==> RecordedToken(txn) !! Minted(s.txns[y])
    requires forall t :: t in s.probes && Live(s.now, s.probes[t]) ==> Harmless(txn, s.probes[t].monitor.id)
    ensures var n := s.(txns := s.txns[x := txn]); Locks(n) && Mints(n) && Ownership(n)
  {
  }

  lemma LockKeepsTxns(s: State, x: Id, txn: Txn)
    requires Txns(s) && TxnOk(s, txn)
    ensures Txns(s.(txns := s.txns[x := txn]))
  {
    var n := s.(txns := s.txns[x := txn]);
    forall y | y in n.txns ensures TxnOk(n, n.txns[y]) { if y != x { assert TxnOk(s, s.txns[y]); } }
  }

  lemma ClaimSelectKeeps(c: Config, s: State, x: Id, limit: nat, exclude: set<Id>, chosen: seq<Due>)
    requires Inv(s) && Enabled(c, s, ClaimSelect(x, limit, exclude, chosen))
    ensures Inv(Apply(c, s, ClaimSelect(x, limit, exclude, chosen)))
  {
    var held := set due | due in chosen :: due.id;
    var txn := s.txns[x].(rows := held, selectedAt := s.now);
    assert TxnOk(s, s.txns[x]);
    forall m | m in held ensures m in s.rows && m !in LockedRows(s) && IsDue(s.rows[m], s.now) {
      var due :| due in chosen && due.id == m;
      assert due in Elements(chosen);
    }
    forall y | y in s.txns ensures held !! Held(s.txns[y]) {
      assert forall m :: m in Held(s.txns[y]) ==> m in LockedRows(s);
    }
    forall t | t in s.probes && Live(s.now, s.probes[t]) ensures Harmless(txn, s.probes[t].monitor.id) {
      assert OwnsRow(s.rows, s.txns, t, s.probes[t]);
    }
    LockKeeps(s, x, txn);
  }

  /** Check and edit transactions lock one free row and read it. */
  lemma ReadLockKeeps(s: State, x: Id, m: Id, txn: Txn)
    requires Inv(s) && x !in s.txns && m in s.rows && !Locked(s, m)
    requires Held(txn) == {m} && (txn.Checking? || txn.Editing?) && txn.read == s.rows[m].monitor
    requires txn.Checking? ==> txn.createdAt.None? && txn.effect.None? && !txn.verified && txn.since == s.now
    requires txn.Checking? && txn.token.Some? ==>
      txn.token.value in s.probes && s.probes[txn.token.value].state.Done?
    ensures Inv(s.(txns := s.txns[x := txn]))
  {
    forall y | y in s.txns ensures Held(txn) !! Held(s.txns[y]) && RecordedToken(txn) !! Minted(s.txns[y]) {
      assert m in Held(s.txns[y]) ==> Locked(s, m);
      assert TxnOk(s, s.txns[y]);
    }
    if txn.Checking? && txn.token.Some? {
      assert ProbeOk(s.now, s.tokens, txn.token.value, s.probes[txn.token.value]);
    }
    LockKeeps(s, x, txn);
  }

  lemma CheckVerifyKeeps(s: State, x: Id)
    requires Inv(s) && x in s.txns && s.txns[x].Checking? && s.txns[x].token.Some?
    requires s.txns[x].createdAt.None? && s.txns[x].effect.None?
    ensures Inv(AfterCheckVerify(s, x))
  {
    var txn := s.txns[x];
    assert TxnOk(s, txn);
    if txn.monitorId in s.rows && HoldsLease(s.rows[txn.monitorId], txn.token.value, s.now) {
      var done := txn.(since := s.now, verified := true);
      forall t | t in s.probes && Live(s.now, s.probes[t]) ensures Harmless(done, s.probes[t].monitor.id) {
        assert OwnsRow(s.rows, s.txns, t, s.probes[t]);
      }
      LockKeeps(s, x, done);
    } else {
      AbortKeeps(s, x);
    }
  }

  lemma CheckCreateKeeps(s: State, x: Id)
    requires Inv(s) && x in s.txns && s.txns[x].Checking? && s.txns[x].createdAt.None? && s.txns[x].effect.None?
    requires s.txns[x].token.Some? ==> s.txns[x].verified
    ensures Inv(AfterCheckCreate(s, x))
  {
    var txn := s.txns[x];
    assert TxnOk(s, txn);
    var done := txn.(createdAt := Some(s.now));
    forall t | t in s.probes && Live(s.now, s.probes[t]) ensures Harmless(done, s.probes[t].monitor.id) {
      assert OwnsRow(s.rows, s.txns, t, s.probes[t]) && Harmless(txn, s.probes[t].monitor.id);
    }
    LockKeeps(s, x, done);
  }

  lemma CheckRunKeeps(s: State, x: Id, at: Time, open: Option<Incident>, incidentId: Id, eventId: Id)
    requires Inv(s) && x in s.txns && s.txns[x].Checking? && s.txns[x].effect.None? && s.txns[x].createdAt == Some(at)
    ensures Inv(AfterCheckRun(s, x, at, open, incidentId, eventId))
  {
    var txn := s.txns[x];
    assert TxnOk(s, txn);
    var done := txn.(effect := Some(EffectOf(s, txn, at, open, incidentId, eventId)));
    forall t | t in s.probes && Live(s.now, s.probes[t]) ensures Harmless(done, s.probes[t].monitor.id) {
      assert OwnsRow(s.rows, s.txns, t, s.probes[t]) && Harmless(txn, s.probes[t].monitor.id);
    }
    LockKeeps(s, x, done);
    QuietKeeps(s.(txns := s.txns[x := done]), AfterCheckRun(s, x, at, open, incidentId, eventId));
  }

  lemma ReleaseRowKeeps(c: Config, s: State, x: Id, w: Id, t: Id, m: Id)
    requires Inv(s) && Enabled(c, s, ReleaseRow(x, w, t, m))
    ensures Inv(Apply(c, s, ReleaseRow(x, w, t, m)))
  {
    var txn := Releasing(s.txns[x].tokens[m := t]);
    assert TxnOk(s, s.txns[x]);
    assert Held(txn) == Held(s.txns[x]) + {m};
    forall y | y in s.txns && y != x ensures Held(txn) !! Held(s.txns[y]) {
      assert m in Held(s.txns[y]) ==> Locked(s, m);
    }
    forall u | u in s.probes && Live(s.now, s.probes[u]) ensures Harmless(txn, s.probes[u].monitor.id) {
      assert OwnsRow(s.rows, s.txns, u, s.probes[u]);
      assert Harmless(s.txns[x], s.probes[u].monitor.id);
    }
    LockKeeps(s, x, txn);
  }

  // ----- claims

  lemma StampKeepsTxns(s: State, x: Id, txn: Txn, added: set<Id>)
    requires Txns(s) && Probes(s) && Rows(s)
    requires x in s.txns && txn.Claiming? && txn.stamp.Some? && s.txns[x] == txn.(stamp := None)
    requires txn.stamp.value.at == s.now && txn.stamp.value.rows.Keys == added && added !! s.tokens
    requires txn.stamp.value.tokens.Keys == txn.rows && Inverse(txn.stamp.value.tokens, txn.stamp.value.rows)
    ensures Txns(s.(txns := s.txns[x := txn], tokens := s.tokens + added))
  {
    var n := s.(txns := s.txns[x := txn], tokens := s.tokens + added);
    assert TxnOk(s, s.txns[x]);
    forall y | y in n.txns ensures TxnOk(n, n.txns[y]) {
      if y != x {
        assert TxnOk(s, s.txns[y]);
      } else {
        assert forall t :: t in s.probes ==> ProbeOk(s.now, s.tokens, t, s.probes[t]);
        assert forall m :: m in s.rows ==> RowOk(s.tokens, m, s.rows[m]);
        assert StampOk(n, txn.rows, txn.selectedAt, txn.stamp.value);
      }
    }
  }

  lemma StampKeepsLocks(s: State, x: Id, txn: Txn, added: set<Id>)
    requires Locks(s) && Mints(s) && Ownership(s) && Txns(s)
    requires x in s.txns && txn.Claiming? && txn.stamp.Some? && s.txns[x] == txn.(stamp := None)
    requires txn.stamp.value.rows.Keys == added && added !! s.tokens
    ensures var n := s.(txns := s.txns[x := txn], tokens := s.tokens + added); Locks(n) && Mints(n) && Ownership(n)
  {
    var n := s.(txns := s.txns[x := txn], tokens := s.tokens + added);
    assert Held(txn) == Held(s.txns[x]);
    forall y | y in s.txns && y != x
      ensures Minted(txn) !! Minted(s.txns[y]) && Minted(txn) !! RecordedToken(s.txns[y])
    {
      assert TxnOk(s, s.txns[y]);
    }
    forall t | t in n.probes && Live(n.now, n.probes[t]) ensures OwnsRow(n.rows, n.txns, t, n.probes[t]) {
      assert OwnsRow(s.rows, s.txns, t, s.probes[t]);
      assert Harmless(s.txns[x], s.probes[t].monitor.id);
    }
  }

  lemma ClaimStampKeeps(c: Config, s: State, x: Id, minted: map<Id, Id>, rows: map<Id, Id>)
    requires Inv(s) && Enabled(c, s, ClaimStamp(x, minted, rows))
    ensures Inv(Apply(c, s, ClaimStamp(x, minted, rows)))
  {
    var txn := s.txns[x].(stamp := Some(Stamping(s.now, minted, rows)));
    var n := s.(txns := s.txns[x := txn], tokens := s.tokens + rows.Keys);
    assert TxnOk(s, s.txns[x]);
    StampKeepsTxns(s, x, txn, rows.Keys);
    StampKeepsLocks(s, x, txn, rows.Keys);
    assert Probes(n) && Rows(n) by {
      forall t | t in n.probes ensures ProbeOk(n.now, n.tokens, t, n.probes[t]) {
        assert ProbeOk(s.now, s.tokens, t, s.probes[t]);
      }
      forall m | m in n.rows ensures RowOk(n.tokens, m, n.rows[m]) { assert RowOk(s.tokens, m, s.rows[m]); }
    }
  }

  lemma ClaimBeginKeeps(s: State, x: Id, w: Id)
    requires Inv(s) && x !in s.txns
    ensures Inv(s.(txns := s.txns[x := Claiming(w, s.now, {}, s.now, None)]))
  {
    LockKeeps(s, x, Claiming(w, s.now, {}, s.now, None));
  }

  lemma ReleaseBeginKeeps(s: State, x: Id)
    requires Inv(s) && x !in s.txns
    ensures Inv(s.(txns := s.txns[x := Releasing(map[])]))
  {
    LockKeeps(s, x, Releasing(map[]));
  }

  // ----- rows that appear, disappear or change

  lemma CreateKeeps(s: State, m: Id, monitor: Monitor)
    requires Inv(s) && m !in s.past && monitor.id == m
    ensures Inv(s.(rows := s.rows[m := Row(monitor, None, None)], past := s.past[m := History(monitor, [])]))
  {
    var n := s.(rows := s.rows[m := Row(monitor, None, None)], past := s.past[m := History(monitor, [])]);
    assert forall k :: k in s.rows.Keys ==> k in s.past.Keys;
    forall y | y in n.txns ensures TxnOk(n, n.txns[y]) && Held(n.txns[y]) <= n.rows.Keys {
      assert TxnOk(s, s.txns[y]) && Held(s.txns[y]) <= s.rows.Keys && m !in Held(s.txns[y]);
    }
    forall t | t in n.probes && Live(n.now, n.probes[t]) ensures OwnsRow(n.rows, n.txns, t, n.probes[t]) {
      assert OwnsRow(s.rows, s.txns, t, s.probes[t]);
    }
  }

  lemma DeleteKeeps(s: State, m: Id)
    requires Inv(s) && !Locked(s, m)
    ensures Inv(s.(rows := s.rows - {m}))
  {
    var n := s.(rows := s.rows - {m});
    assert forall k :: k in s.rows.Keys ==> k in s.past.Keys;
    forall y | y in n.txns ensures TxnOk(n, n.txns[y]) && Held(n.txns[y]) <= n.rows.Keys {
      assert TxnOk(s, s.txns[y]) && m !in Held(s.txns[y]);
    }
    forall t | t in n.probes && Live(n.now, n.probes[t]) ensures OwnsRow(n.rows, n.txns, t, n.probes[t]) {
      assert OwnsRow(s.rows, s.txns, t, s.probes[t]);
    }
  }

  predicate SameLease(a: Row, b: Row) {
    a.leaseToken == b.leaseToken && a.leaseUntil == b.leaseUntil
  }

  predicate Freed(a: Row) {
    a.leaseToken.None? && a.leaseUntil.None?
  }

  /** x commits: the rows it held keep their lease or lose it, and no live probe loses its own. */
  lemma RewriteKeeps(s: State, x: Id, rows: map<Id, Row>)
    requires Inv(s) && x in s.txns && rows.Keys == s.rows.Keys
    requires forall m :: m in rows && rows[m] != s.rows[m] ==>
      m in Held(s.txns[x]) && rows[m].monitor.id == m && (Freed(rows[m]) || SameLease(rows[m], s.rows[m]))
    requires forall t :: t in s.probes && Live(s.now, s.probes[t]) && s.probes[t].monitor.id in s.rows ==>
      SameLease(rows[s.probes[t].monitor.id], s.rows[s.probes[t].monitor.id])
    ensures Inv(s.(txns := s.txns - {x}, rows := rows))
  {
    var n := s.(txns := s.txns - {x}, rows := rows);
    RewriteKeepsRows(s, x, rows);
    RewriteKeepsTxns(s, x, rows);
    RewriteKeepsOwners(s, x, rows);
    hide Rows, Txns, Ownership;
  }

  /** What a rewrite does to one row: nothing, or it frees or keeps the lease. */
  ghost predicate Rewritten(s: State, x: Id, rows: map<Id, Row>) {
    && x in s.txns && rows.Keys == s.rows.Keys
    && forall m :: m in rows && rows[m] != s.rows[m] ==>
         m in Held(s.txns[x]) && rows[m].monitor.id == m && (Freed(rows[m]) || SameLease(rows[m], s.rows[m]))
  }

  lemma RewriteKeepsRows(s: State, x: Id, rows: map<Id, Row>)
    requires Rows(s) && Rewritten(s, x, rows)
    ensures Rows(s.(txns := s.txns - {x}, rows := rows))
  {
    assert forall m :: m in rows.Keys <==> m in s.rows.Keys;
    forall m | m in rows ensures RowOk(s.tokens, m, rows[m]) { assert RowOk(s.tokens, m, s.rows[m]); }
  }

  lemma RewriteKeepsTxns(s: State, x: Id, rows: map<Id, Row>)
    requires Txns(s) && Locks(s) && Rewritten(s, x, rows)
    ensures Txns(s.(txns := s.txns - {x}, rows := rows))
  {
    var n := s.(txns := s.txns - {x}, rows := rows);
    assert forall m :: m in rows.Keys <==> m in s.rows.Keys;
    forall y | y in n.txns ensures TxnOk(n, n.txns[y]) {
      assert TxnOk(s, s.txns[y]) && Held(s.txns[x]) !! Held(s.txns[y]) && Held(s.txns[y]) <= s.rows.Keys;
      assert forall m :: m in Held(s.txns[y]) ==> rows[m] == s.rows[m];
    }
  }

  lemma RewriteKeepsOwners(s: State, x: Id, rows: map<Id, Row>)
    requires Ownership(s) && rows.Keys == s.rows.Keys
    requires forall t :: t in s.probes && Live(s.now, s.probes[t]) && s.probes[t].monitor.id in s.rows ==>
      SameLease(rows[s.probes[t].monitor.id], s.rows[s.probes[t].monitor.id])
    ensures Ownership(s.(txns := s.txns - {x}, rows := rows))
  {
    var n := s.(txns := s.txns - {x}, rows := rows);
    forall t | t in n.probes && Live(n.now, n.probes[t]) ensures OwnsRow(n.rows, n.txns, t, n.probes[t]) {
      assert OwnsRow(s.rows, s.txns, t, s.probes[t]);
      assert n.probes[t].monitor.id in rows.Keys <==> n.probes[t].monitor.id in s.rows.Keys;
    }
  }

  lemma CheckCommitKeeps(s: State, x: Id)
    requires Inv(s) && x in s.txns && s.txns[x].Checking? && s.txns[x].effect.Some?
    ensures Inv(AfterCheckCommit(s, x))
  {
    var txn := s.txns[x];
    var m := txn.monitorId;
    var n := AfterCheckCommit(s, x);
    assert TxnOk(s, txn);
    if m in s.rows && m in s.past {
      assert m in Held(txn) && RowOk(s.tokens, m, s.rows[m]);
      forall t | t in s.probes && Live(s.now, s.probes[t]) && s.probes[t].monitor.id in s.rows
        ensures SameLease(n.rows[s.probes[t].monitor.id], s.rows[s.probes[t].monitor.id])
      {
        assert OwnsRow(s.rows, s.txns, t, s.probes[t]) && Harmless(txn, s.probes[t].monitor.id);
      }
      RewriteKeeps(s, x, n.rows);
      hide Inv;
      QuietKeeps(s.(txns := s.txns - {x}, rows := n.rows), n);
    } else {
      AbortKeeps(s, x);
    }
  }

  lemma EditCommitKeeps(s: State, x: Id)
    requires Inv(s) && x in s.txns && s.txns[x].Editing?
    ensures Inv(AfterEditCommit(s, x))
  {
    var txn := s.txns[x];
    var m := txn.monitorId;
    var n := AfterEditCommit(s, x);
    assert TxnOk(s, txn);
    if m in s.rows && m in s.past {
      assert m in Held(txn) && RowOk(s.tokens, m, s.rows[m]);
      RewriteKeeps(s, x, n.rows);
      hide Inv;
      QuietKeeps(s.(txns := s.txns - {x}, rows := n.rows), n);
    } else {
      AbortKeeps(s, x);
    }
  }

  lemma ReleaseCommitKeeps(s: State, x: Id)
    requires Inv(s) && x in s.txns && s.txns[x].Releasing?
    ensures Inv(s.(txns := s.txns - {x}, rows := Released(s.rows, s.txns[x].tokens)))
  {
    var rows := Released(s.rows, s.txns[x].tokens);
    forall m | m in rows && rows[m] != s.rows[m] ensures m in Held(s.txns[x]) && rows[m].monitor.id == m {
      assert RowOk(s.tokens, m, s.rows[m]);
    }
    forall t | t in s.probes && Live(s.now, s.probes[t]) && s.probes[t].monitor.id in s.rows
      ensures SameLease(rows[s.probes[t].monitor.id], s.rows[s.probes[t].monitor.id])
    {
      assert OwnsRow(s.rows, s.txns, t, s.probes[t]) && Harmless(s.txns[x], s.probes[t].monitor.id);
    }
    RewriteKeeps(s, x, rows);
  }

  // ----- a claim's commit

  lemma ClaimedTxnsKept(c: Config, s: State, x: Id)
    requires Inv(s) && x in s.txns && s.txns[x].Claiming? && s.txns[x].stamp.Some?
    ensures Txns(Claimed(c, s, x))
  {
    var n := Claimed(c, s, x);
    var st := s.txns[x].stamp.value;
    assert TxnOk(s, s.txns[x]);
    forall y | y in n.txns ensures TxnOk(n, n.txns[y]) {
      assert TxnOk(s, s.txns[y]) && Held(s.txns[x]) !! Held(s.txns[y]) && Held(s.txns[y]) <= s.rows.Keys;
      assert forall m :: m in Held(s.txns[y]) ==> n.rows[m] == s.rows[m];
      assert Minted(s.txns[y]) !! Minted(s.txns[x]);
      if s.txns[y].Claiming? && s.txns[y].stamp.Some? {
        var tokens := s.txns[y].stamp.value.rows.Keys;
        forall m | m in n.rows && n.rows[m].leaseToken.Some? ensures n.rows[m].leaseToken.value !in tokens {
          if m in st.tokens { assert st.tokens[m] in st.rows; }
        }
      }
    }
  }

  lemma ClaimedRowsKept(c: Config, s: State, x: Id)
    requires Inv(s) && x in s.txns && s.txns[x].Claiming? && s.txns[x].stamp.Some?
    ensures Rows(Claimed(c, s, x))
  {
    var n := Claimed(c, s, x);
    var st := s.txns[x].stamp.value;
    assert TxnOk(s, s.txns[x]);
    forall m | m in n.rows ensures RowOk(n.tokens, m, n.rows[m]) {
      assert RowOk(s.tokens, m, s.rows[m]);
      if m in st.tokens { assert st.tokens[m] in st.rows; }
    }
    forall m, k | m in n.rows && k in n.rows && n.rows[m].leaseToken.Some? && n.rows[m].leaseToken == n.rows[k].leaseToken
      ensures m == k
    {
      assert m in st.tokens ==> st.tokens[m] in st.rows && st.rows[st.tokens[m]] == m;
      assert k in st.tokens ==> st.tokens[k] in st.rows && st.rows[st.tokens[k]] == k;
    }
  }

  lemma ClaimedKeeps(c: Config, s: State, x: Id)
    requires Inv(s) && x in s.txns && s.txns[x].Claiming? && s.txns[x].stamp.Some?
    ensures Inv(Claimed(c, s, x))
  {
    var n := Claimed(c, s, x);
    assert TxnOk(s, s.txns[x]) && Held(s.txns[x]) == s.txns[x].stamp.value.tokens.Keys;
    ClaimedTxnsKept(c, s, x);
    ClaimedRowsKept(c, s, x);
    forall t | t in n.probes && Live(n.now, n.probes[t]) ensures OwnsRow(n.rows, n.txns, t, n.probes[t]) {
      assert OwnsRow(s.rows, s.txns, t, s.probes[t]);
      assert Harmless(s.txns[x], s.probes[t].monitor.id);
    }
  }

  ghost predicate Joins(s: State, t: Id, p: Probe) {
    && t !in s.probes && p.monitor.id in s.past
    && ProbeOk(s.now, s.tokens, t, p)
    && OwnsRow(s.rows, s.txns, t, p)
    && forall y :: y in s.txns ==> t !in RecordedToken(s.txns[y]) && t !in Minted(s.txns[y])
  }

  lemma MoreProbesKeep(s: State, added: map<Id, Probe>)
    requires Inv(s) && forall t :: t in added ==> Joins(s, t, added[t])
    ensures Inv(s.(probes := s.probes + added))
  {
    var n := s.(probes := s.probes + added);
    forall y | y in n.txns ensures TxnOk(n, n.txns[y]) {
      assert TxnOk(s, s.txns[y]);
      if s.txns[y].Claiming? && s.txns[y].stamp.Some? {
        assert s.txns[y].stamp.value.rows.Keys == Minted(s.txns[y]);
      }
      if s.txns[y].Checking? && s.txns[y].token.Some? {
        assert s.txns[y].token.value in RecordedToken(s.txns[y]);
      }
    }
  }

  /** A claim that returns within its timeout leaves each probe its whole lease. */
  lemma ClaimedProbesJoin(c: Config, s: State, x: Id, t: Id)
    requires Inv(s) && x in s.txns && s.txns[x].Claiming? && s.txns[x].stamp.Some?
    requires s.now <= s.txns[x].begunAt + c.leaseGrace
    ensures var n := Claimed(c, s, x); var added := NewProbes(c, n.rows, s.txns[x].stamp.value, s.now);
      t in added ==> Joins(n, t, added[t]) && added[t].monitor.id == s.txns[x].stamp.value.rows[t]
  {
    var n := Claimed(c, s, x);
    var st := s.txns[x].stamp.value;
    var added := NewProbes(c, n.rows, st, s.now);
    if t in added {
      var m := st.rows[t];
      assert TxnOk(s, s.txns[x]) && m in st.tokens && st.tokens[m] == t && t in Minted(s.txns[x]);
      assert RowOk(s.tokens, m, s.rows[m]) && m in s.rows.Keys;
      forall y | y in n.txns ensures Harmless(n.txns[y], m) && t !in RecordedToken(n.txns[y]) && t !in Minted(n.txns[y]) {
        assert Held(s.txns[x]) !! Held(s.txns[y]);
      }
    }
  }

  lemma ClaimCommitKeeps(c: Config, s: State, x: Id, returned: bool)
    requires Inv(s) && x in s.txns && s.txns[x].Claiming? && s.txns[x].stamp.Some?
    requires returned ==> s.now <= s.txns[x].begunAt + c.leaseGrace
    ensures Inv(AfterClaimCommit(c, s, x, returned))
  {
    hide Inv;
    var n := Claimed(c, s, x);
    ClaimedKeeps(c, s, x);
    if returned {
      var added := NewProbes(c, n.rows, s.txns[x].stamp.value, s.now);
      forall t | t in added ensures Joins(n, t, added[t]) { ClaimedProbesJoin(c, s, x, t); }
      MoreProbesKeep(n, added);
      if s.txns[x].stamp.value.rows != map[] {
        QuietKeeps(n.(probes := n.probes + added), AfterClaimCommit(c, s, x, returned));
      }
    }
  }

  // ----- every step

  predicate OfTable(l: Label) {
    l.Create? || l.Delete? || l.PutWindow? || l.DropWindow? || l.RetainIncidents?
  }

  predicate OfWave(l: Label) {
    l.Tick? || l.EndProbe? || l.EndTasks? || l.EndWave? || l.Crash?
  }

  predicate OfCheck(l: Label) {
    || l.CheckLock? || l.LeasedCheckLock? || l.CheckVerify? || l.CheckCreate? || l.CheckRun? || l.CheckCommit?
    || l.EditLock? || l.EditCommit?
  }

  lemma TableStepKeeps(c: Config, s: State, l: Label)
    requires Inv(s) && Enabled(c, s, l) && OfTable(l)
    ensures Inv(Apply(c, s, l))
  {
    hide Inv;
    match l
    case Create(m, monitor) => CreateKeeps(s, m, monitor);
    case Delete(m) =>
      DeleteKeeps(s, m);
      QuietKeeps(s.(rows := s.rows - {m}), Apply(c, s, l));
    case PutWindow(_, _) => QuietKeeps(s, Apply(c, s, l));
    case DropWindow(_) => QuietKeeps(s, Apply(c, s, l));
    case RetainIncidents(_) => QuietKeeps(s, Apply(c, s, l));
  }

  lemma WaveStepKeeps(c: Config, s: State, l: Label)
    requires Inv(s) && Enabled(c, s, l) && OfWave(l)
    ensures Inv(Apply(c, s, l))
  {
    hide Inv;
    match l
    case Tick(to) => TickKeeps(s, to);
    case EndProbe(t, success) =>
      EndProbeKeeps(s, t, success);
      QuietKeeps(s.(probes := s.probes[t := s.probes[t].(state := Done(success))]), Apply(c, s, l));
    case EndTasks(gone) => DropKeeps(s, gone);
    case EndWave(_) => QuietKeeps(s, Apply(c, s, l));
    case Crash(w) =>
      DropKeeps(s, s.waves[w]);
      QuietKeeps(Drop(s, s.waves[w]), Apply(c, s, l));
  }

  lemma CheckStepKeeps(c: Config, s: State, l: Label)
    requires Inv(s) && Enabled(c, s, l) && OfCheck(l)
    ensures Inv(Apply(c, s, l))
  {
    hide Inv, AfterCheckVerify, AfterCheckCreate, AfterCheckRun, AfterCheckCommit, AfterEditCommit;
    match l
    case CheckLock(x, m, success) => ReadLockKeeps(s, x, m, Checking(m, s.rows[m].monitor, None, success, s.now, false, None, None));
    case LeasedCheckLock(x, t) =>
      var m := s.probes[t].monitor.id;
      ReadLockKeeps(s, x, m, Checking(m, s.rows[m].monitor, Some(t), s.probes[t].state.success, s.now, false, None, None));
    case CheckVerify(x) => CheckVerifyKeeps(s, x);
    case CheckCreate(x) => CheckCreateKeeps(s, x);
    case CheckRun(x, at, open, incidentId, eventId) => CheckRunKeeps(s, x, at, open, incidentId, eventId);
    case CheckCommit(x) => CheckCommitKeeps(s, x);
    case EditLock(x, m, edit) => ReadLockKeeps(s, x, m, Editing(m, s.rows[m].monitor, edit));
    case EditCommit(x) => EditCommitKeeps(s, x);
  }

  lemma TxnStepKeeps(c: Config, s: State, l: Label)
    requires Inv(s) && Enabled(c, s, l) && !OfTable(l) && !OfWave(l) && !OfCheck(l)
    ensures Inv(Apply(c, s, l))
  {
    hide Inv, AfterClaimCommit;
    match l
    case ClaimBegin(x, w) => ClaimBeginKeeps(s, x, w);
    case ClaimSelect(x, limit, exclude, chosen) => ClaimSelectKeeps(c, s, x, limit, exclude, chosen);
    case ClaimStamp(x, minted, rows) => ClaimStampKeeps(c, s, x, minted, rows);
    case ClaimCommit(x, returned) => ClaimCommitKeeps(c, s, x, returned);
    case Abort(x) => AbortKeeps(s, x);
    case ReleaseBegin(x) => ReleaseBeginKeeps(s, x);
    case ReleaseRow(x, w, t, m) => ReleaseRowKeeps(c, s, x, w, t, m);
    case ReleaseCommit(x) => ReleaseCommitKeeps(s, x);
  }

  /** Every step keeps the invariant. */
  lemma StepKeeps(c: Config, s: State, l: Label)
    requires Inv(s) && Enabled(c, s, l)
    ensures Inv(Apply(c, s, l))
  {
    hide Inv, Enabled, Apply;
    if OfTable(l) { TableStepKeeps(c, s, l); }
    else if OfWave(l) { WaveStepKeeps(c, s, l); }
    else if OfCheck(l) { CheckStepKeeps(c, s, l); }
    else { TxnStepKeeps(c, s, l); }
  }
}
