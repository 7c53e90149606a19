/**
  The check table of `StatisticsProtocol` is what the transactions of `MonitorProtocol` make of
  it: its one open check for each monitor is the one that the row lock admits.
 */
module StatisticsProjection {
  import opened Prelude
  import opened MonitorProtocol
  import opened MonitorLeases
  import MonitorTheorems
  import CheckRecording
  import R = Retention
  import S = StatisticsProtocol

  /** A transaction that has created its check and has not ended. */
  predicate Created(x: Txn) {
    x.Checking? && x.createdAt.Some?
  }

  predicate SameCheck(check: R.CheckRow, m: Id, success: bool, at: Time) {
    check.monitorId == m && check.success == success && check.checkedAt == at
  }

  /** The open checks of a are those of s's transactions. */
  ghost predicate OpenChecks(txns: map<Id, Txn>, pending: map<Id, R.CheckRow>) {
    && (forall x :: x in txns && Created(txns[x]) ==>
          && txns[x].monitorId in pending
          && SameCheck(pending[txns[x].monitorId], txns[x].monitorId, txns[x].success, txns[x].createdAt.value))
    && (forall m :: m in pending ==> exists x :: x in txns && Created(txns[x]) && txns[x].monitorId == m)
  }

  ghost predicate SameHistory(checks: seq<CheckLog>, history: seq<R.CheckRow>) {
    && |checks| == |history|
    && forall i :: 0 <= i < |checks| ==> SameCheck(history[i], checks[i].monitorId, checks[i].success, checks[i].at)
  }

  /** The same clock, monitors, open checks and committed checks; response times are a's own. */
  ghost predicate Projects(s: State, a: S.State) {
    && a.now == s.now && a.created.Keys == s.rows.Keys && a.known == s.past.Keys
    && OpenChecks(s.txns, a.pending) && SameHistory(s.checks, a.history)
  }

  /** The step of a that l is; `response` is the response time of the check that l creates. */
  function View(s: State, l: Label, response: real): S.Label {
    match l
    case Tick(to) => S.Tick(to)
    case Create(m, _) => S.CreateMonitor(m)
    case Delete(m) => S.DeleteMonitor(m)
    case CheckCreate(x) =>
      if x in s.txns && s.txns[x].Checking? then S.Begin(R.CheckRow(s.txns[x].monitorId, s.txns[x].success, response, s.now))
      else S.Tick(s.now)
    case CheckCommit(x) => if x in s.txns && Created(s.txns[x]) then S.Commit(s.txns[x].monitorId) else S.Tick(s.now)
    case Abort(x) => if x in s.txns && Created(s.txns[x]) then S.Abort(s.txns[x].monitorId) else S.Tick(s.now)
    case _ => S.Tick(s.now)
  }

  // ----- steps that the check table does not see

  predicate Silent(l: Label) {
    !l.Tick? && !l.Create? && !l.Delete? && !l.CheckCreate? && !l.CheckCommit? && !l.Abort?
  }

  /** The same open checks, under the same transactions. */
  ghost predicate CreatedKept(a: map<Id, Txn>, b: map<Id, Txn>) {
    && (forall x :: x in a && Created(a[x]) ==> x in b && Created(b[x]))
    && (forall x :: x in b && Created(b[x]) ==>
          && x in a && Created(a[x]) && b[x].monitorId == a[x].monitorId && b[x].success == a[x].success
          && b[x].createdAt == a[x].createdAt)
  }

  lemma SilentCheckSteps(c: Config, s: State, l: Label)
    requires Enabled(c, s, l) && Silent(l) && OfCheck(l)
    ensures CreatedKept(s.txns, Apply(c, s, l).txns)
  {
    hide CreatedKept, Locked, HoldsLease, AfterCheckVerify, AfterCheckRun, AfterEditCommit;
    match l
    case CheckLock(x, m, success) =>
      NotCreatedAdded(s.txns, x, Checking(m, s.rows[m].monitor, None, success, s.now, false, None, None));
    case LeasedCheckLock(x, t) =>
      var m := s.probes[t].monitor.id;
      NotCreatedAdded(s.txns, x, Checking(m, s.rows[m].monitor, Some(t), s.probes[t].state.success, s.now, false, None, None));
    case CheckVerify(x) => VerifiedKept(s, x);
    case CheckRun(x, at, open, incidentId, eventId) => RunKept(s, x, at, open, incidentId, eventId);
    case EditLock(x, m, edit) => NotCreatedAdded(s.txns, x, Editing(m, s.rows[m].monitor, edit));
    case EditCommit(x) => NotCreatedRemoved(s.txns, x);
  }

  lemma NotCreatedAdded(txns: map<Id, Txn>, x: Id, txn: Txn)
    requires (x in txns ==> !Created(txns[x])) && !Created(txn)
    ensures CreatedKept(txns, txns[x := txn])
  {
  }

  lemma NotCreatedRemoved(txns: map<Id, Txn>, x: Id)
    requires x in txns && !Created(txns[x])
    ensures CreatedKept(txns, txns - {x})
  {
  }

  lemma VerifiedKept(s: State, x: Id)
    requires x in s.txns && s.txns[x].Checking? && s.txns[x].token.Some? && s.txns[x].createdAt.None?
    ensures CreatedKept(s.txns, AfterCheckVerify(s, x).txns)
  {
    hide HoldsLease, CreatedKept;
    NotCreatedAdded(s.txns, x, s.txns[x].(since := s.now, verified := true));
    NotCreatedRemoved(s.txns, x);
  }

  lemma RunKept(s: State, x: Id, at: Time, open: Option<CheckRecording.Incident>, incidentId: Id, eventId: Id)
    requires x in s.txns && s.txns[x].Checking?
    ensures CreatedKept(s.txns, AfterCheckRun(s, x, at, open, incidentId, eventId).txns)
  {
    hide EffectOf;
  }

  lemma SilentOtherSteps(c: Config, s: State, l: Label)
    requires Enabled(c, s, l) && Silent(l) && !OfCheck(l)
    ensures CreatedKept(s.txns, Apply(c, s, l).txns)
  {
    hide Stamp, NewProbes, NewLogs, Stopped, Drop, Released, Locked, LockedRows, Inverse, AfterClaimCommit, CreatedKept;
    match l
    case ClaimBegin(x, w) => NotCreatedAdded(s.txns, x, Claiming(w, s.now, {}, s.now, None));
    case ClaimSelect(x, _, _, _) => NotCreatedAdded(s.txns, x, Apply(c, s, l).txns[x]);
    case ClaimStamp(x, _, _) => NotCreatedAdded(s.txns, x, Apply(c, s, l).txns[x]);
    case ClaimCommit(x, _) => NotCreatedRemoved(s.txns, x);
    case ReleaseBegin(x) => NotCreatedAdded(s.txns, x, Releasing(map[]));
    case ReleaseRow(x, _, t, m) => NotCreatedAdded(s.txns, x, Releasing(s.txns[x].tokens[m := t]));
    case ReleaseCommit(x) => NotCreatedRemoved(s.txns, x);
    case _ => AllKept(s.txns);
  }

  lemma AllKept(txns: map<Id, Txn>)
    ensures CreatedKept(txns, txns)
  {
  }

  predicate SameTables(s: State, n: State) {
    n.now == s.now && n.rows.Keys == s.rows.Keys && n.past.Keys == s.past.Keys && n.checks == s.checks
  }

  lemma EditKeepsTables(s: State, x: Id)
    requires x in s.txns && s.txns[x].Editing?
    ensures SameTables(s, AfterEditCommit(s, x))
  {
    assert AfterEditCommit(s, x).rows.Keys == s.rows.Keys && AfterEditCommit(s, x).past.Keys == s.past.Keys;
  }

  lemma ClaimKeepsTables(c: Config, s: State, x: Id, returned: bool)
    requires x in s.txns && s.txns[x].Claiming? && s.txns[x].stamp.Some?
    ensures SameTables(s, AfterClaimCommit(c, s, x, returned))
  {
    hide NewProbes, NewLogs;
  }

  lemma QuietTables(c: Config, s: State, l: Label)
    requires Enabled(c, s, l) && Silent(l) && !l.EditCommit? && !l.ClaimCommit?
    ensures SameTables(s, Apply(c, s, l))
  {
    hide HoldsLease, EffectOf, Locked, LockedRows, AfterCheckVerify, AfterCheckRun, AfterCheckCommit, AfterEditCommit, AfterClaimCommit;
    hide NewProbes, NewLogs, Stopped, Drop, Inverse;
  }

  lemma SilentTables(c: Config, s: State, l: Label)
    requires Enabled(c, s, l) && Silent(l)
    ensures SameTables(s, Apply(c, s, l))
  {
    hide SameTables, AfterEditCommit, AfterClaimCommit;
    if l.EditCommit? { EditKeepsTables(s, l.x); }
    else if l.ClaimCommit? { ClaimKeepsTables(c, s, l.x, l.returned); }
    else {
      hide Enabled, Apply;
      QuietTables(c, s, l);
    }
  }

  lemma KeptOpenChecks(a: map<Id, Txn>, b: map<Id, Txn>, pending: map<Id, R.CheckRow>)
    requires OpenChecks(a, pending) && CreatedKept(a, b)
    ensures OpenChecks(b, pending)
  {
    forall m | m in pending ensures exists x :: x in b && Created(b[x]) && b[x].monitorId == m {
      var x :| x in a && Created(a[x]) && a[x].monitorId == m;
      assert x in b && Created(b[x]);
    }
  }

  lemma SilentProjects(c: Config, s: State, a: S.State, l: Label)
    requires Enabled(c, s, l) && Silent(l) && Projects(s, a)
    ensures Projects(Apply(c, s, l), a)
  {
    hide Enabled, Apply, OpenChecks, SameHistory, CreatedKept;
    SilentTables(c, s, l);
    if OfCheck(l) { SilentCheckSteps(c, s, l); } else { SilentOtherSteps(c, s, l); }
    KeptOpenChecks(s.txns, Apply(c, s, l).txns, a.pending);
  }

  // ----- steps that it sees

  /** No monitor has an open check unless a transaction holds its row. */
  lemma OpenIsLocked(s: State, a: S.State, m: Id)
    requires Projects(s, a) && m in a.pending
    ensures Locked(s, m)
  {
    var x :| x in s.txns && Created(s.txns[x]) && s.txns[x].monitorId == m;
    assert m in Held(s.txns[x]);
  }

  lemma BeginProjects(s: State, a: S.State, x: Id, check: R.CheckRow)
    requires Inv(s) && Projects(s, a) && x in s.txns && s.txns[x].Checking? && s.txns[x].createdAt.None?
    requires SameCheck(check, s.txns[x].monitorId, s.txns[x].success, s.now)
    ensures s.txns[x].monitorId in a.created && s.txns[x].monitorId !in a.pending
    ensures Projects(AfterCheckCreate(s, x), a.(pending := a.pending[check.monitorId := check]))
  {
    var m := s.txns[x].monitorId;
    assert Held(s.txns[x]) == {m} && Held(s.txns[x]) <= s.rows.Keys;
    assert m in s.rows.Keys;
    OnlyHolder(s, x, m);
    hide Inv;
    assert m !in a.pending;
    OpenedChecks(s.txns, a.pending, x, check, s.now);
  }

  lemma OnlyHolder(s: State, x: Id, m: Id)
    requires Inv(s) && x in s.txns && m in Held(s.txns[x])
    ensures forall y :: y in s.txns && s.txns[y].Checking? && s.txns[y].monitorId == m ==> y == x
  {
    forall y | y in s.txns && s.txns[y].Checking? && y != x ensures s.txns[y].monitorId != m {
      assert Held(s.txns[y]) == {s.txns[y].monitorId} && Held(s.txns[x]) !! Held(s.txns[y]);
    }
  }

  lemma OpenedChecks(txns: map<Id, Txn>, pending: map<Id, R.CheckRow>, x: Id, check: R.CheckRow, now: Time)
    requires OpenChecks(txns, pending) && x in txns && txns[x].Checking?
    requires SameCheck(check, txns[x].monitorId, txns[x].success, now) && check.monitorId !in pending
    ensures OpenChecks(txns[x := txns[x].(createdAt := Some(now))], pending[check.monitorId := check])
  {
    var b, more := txns[x := txns[x].(createdAt := Some(now))], pending[check.monitorId := check];
    assert Created(b[x]) && b[x].monitorId == check.monitorId;
    forall m | m in more ensures exists y :: y in b && Created(b[y]) && b[y].monitorId == m {
      if m in pending {
        var y :| y in txns && Created(txns[y]) && txns[y].monitorId == m;
        assert y in b && Created(b[y]) && b[y].monitorId == m;
      }
    }
  }

  /** The transaction that has created a check is the only one of its monitor. */
  lemma ClosedChecks(txns: map<Id, Txn>, pending: map<Id, R.CheckRow>, x: Id)
    requires OpenChecks(txns, pending) && x in txns && Created(txns[x])
    requires forall y :: y in txns && txns[y].Checking? && txns[y].monitorId == txns[x].monitorId ==> y == x
    ensures OpenChecks(txns - {x}, pending - {txns[x].monitorId})
  {
    var b, closed := txns - {x}, pending - {txns[x].monitorId};
    forall m | m in closed ensures exists y :: y in b && Created(b[y]) && b[y].monitorId == m {
      var y :| y in txns && Created(txns[y]) && txns[y].monitorId == m;
      assert y in b && Created(b[y]);
    }
  }

  lemma CommitProjects(s: State, a: S.State, x: Id)
    requires Inv(s) && Projects(s, a) && x in s.txns && s.txns[x].Checking? && s.txns[x].effect.Some?
    ensures Created(s.txns[x]) && s.txns[x].monitorId in a.pending
    ensures var m := s.txns[x].monitorId;
      Projects(AfterCheckCommit(s, x), a.(pending := a.pending - {m}, history := a.history + [a.pending[m]]))
  {
    var txn := s.txns[x];
    var m := txn.monitorId;
    assert TxnOk(s, txn) && m in Held(txn) && Held(txn) <= s.rows.Keys <= s.past.Keys;
    OnlyHolder(s, x, m);
    hide Inv;
    assert m in s.rows.Keys && m in s.past.Keys;
    ClosedChecks(s.txns, a.pending, x);
    hide OpenChecks;
    var n := AfterCheckCommit(s, x);
    assert n.rows.Keys == s.rows.Keys && n.past.Keys == s.past.Keys;
  }

  lemma AbortProjects(s: State, a: S.State, x: Id)
    requires Inv(s) && Projects(s, a) && x in s.txns
    ensures Created(s.txns[x]) ==>
      && s.txns[x].monitorId in a.pending
      && Projects(s.(txns := s.txns - {x}), a.(pending := a.pending - {s.txns[x].monitorId}))
    ensures !Created(s.txns[x]) ==> Projects(s.(txns := s.txns - {x}), a)
  {
    if Created(s.txns[x]) {
      OnlyHolder(s, x, s.txns[x].monitorId);
      ClosedChecks(s.txns, a.pending, x);
    } else {
      KeptOpenChecks(s.txns, s.txns - {x}, a.pending);
    }
  }

  lemma TablesProject(c: Config, s: State, a: S.State, l: Label, d: S.Config, response: real)
    requires Enabled(c, s, l) && Projects(s, a) && (l.Tick? || l.Create? || l.Delete?)
    requires Inv(s)
    ensures S.Enabled(d, a, View(s, l, response)) && Projects(Apply(c, s, l), S.Apply(a, View(s, l, response)))
  {
    hide Inv, OpenChecks, SameHistory;
    if l.Create? {
      assert l.m !in s.past.Keys;
    } else if l.Delete? {
      if l.m in a.pending { OpenIsLocked(s, a, l.m); }
      assert l.m in s.rows.Keys;
    }
  }

  /**
    Every step of the monitor protocol is a step of the check table, or leaves it alone: a check
    begins when its transaction, under the monitor's row lock, creates it, and commits with it.
   */
  lemma StepProjects(c: Config, s: State, l: Label, a: S.State, d: S.Config, response: real)
    requires Inv(s) && Enabled(c, s, l) && Projects(s, a)
    ensures S.Enabled(d, a, View(s, l, response)) && Projects(Apply(c, s, l), S.Apply(a, View(s, l, response)))
  {
    hide Inv, Enabled, Apply, Projects;
    if Silent(l) {
      SilentProjects(c, s, a, l);
      SilentView(s, a, l, d, response);
    } else if l.Tick? || l.Create? || l.Delete? {
      TablesProject(c, s, a, l, d, response);
    } else {
      CheckProjects(c, s, l, a, d, response);
    }
  }

  lemma SilentView(s: State, a: S.State, l: Label, d: S.Config, response: real)
    requires Silent(l) && Projects(s, a)
    ensures S.Enabled(d, a, View(s, l, response)) && S.Apply(a, View(s, l, response)) == a
  {
  }

  lemma CheckProjects(c: Config, s: State, l: Label, a: S.State, d: S.Config, response: real)
    requires Inv(s) && Enabled(c, s, l) && Projects(s, a) && (l.CheckCreate? || l.CheckCommit? || l.Abort?)
    ensures S.Enabled(d, a, View(s, l, response)) && Projects(Apply(c, s, l), S.Apply(a, View(s, l, response)))
  {
    assert a.now == s.now;
    hide Inv, Projects, AfterCheckCreate, AfterCheckCommit, S.Enabled;
    match l
    case CheckCreate(x) =>
      var check := R.CheckRow(s.txns[x].monitorId, s.txns[x].success, response, s.now);
      BeginProjects(s, a, x, check);
      BeginEnabled(d, a, check);
    case CheckCommit(x) =>
      CommitProjects(s, a, x);
      EndEnabled(d, a, s.txns[x].monitorId);
    case Abort(x) =>
      AbortProjects(s, a, x);
      EndEnabled(d, a, if Created(s.txns[x]) then s.txns[x].monitorId else 0);
  }

  lemma BeginEnabled(d: S.Config, a: S.State, check: R.CheckRow)
    requires check.monitorId in a.created && check.monitorId !in a.pending && check.checkedAt == a.now
    ensures S.Enabled(d, a, S.Begin(check))
  {
  }

  lemma EndEnabled(d: S.Config, a: S.State, m: Id)
    ensures m in a.pending ==> S.Enabled(d, a, S.Commit(m)) && S.Enabled(d, a, S.Abort(m))
    ensures S.Enabled(d, a, S.Tick(a.now))
  {
  }

  /** A retention pass of the check table waits for no monitor and moves none. */
  lemma RetainProjects(d: S.Config, s: State, a: S.State, l: S.Label)
    requires Projects(s, a) && S.Enabled(d, a, l) && l.Retain?
    ensures Projects(s, S.Apply(a, l))
  {
  }

  lemma InitProjects(s: State)
    requires Init(s)
    ensures Projects(s, Start(s))
  {
    assert s.rows.Keys == {} && s.past.Keys == {};
  }

  /** So every run of the monitor protocol is a run of the check table, state by state. */
  lemma {:induction false} RunProjects(c: Config, run: seq<State>, d: S.Config, responses: seq<real>) returns (view: seq<S.State>)
    requires Run(c, run) && |responses| == |run| > 0
    ensures S.Run(d, view) && AllProject(run, view)
    decreases |run|
  {
    hide Run, Inv, Enabled, Apply, Projects, View, S.Run, Init, AllProject;
    var k := |run| - 1;
    if k == 0 {
      Starts(c, run, d);
      view := [Start(run[0])];
    } else {
      PrefixRuns(c, run);
      var init := RunProjects(c, run[..k], d, responses[..k]);
      MonitorTheorems.RunHolds(c, run, k - 1);
      LastStep(c, run);
      LastProjects(run[..k], init);
      var l :| Enabled(c, run[k - 1], l) && run[k] == Apply(c, run[k - 1], l);
      view := Extended(c, run, d, l, init, responses[k]);
    }
  }

  function Start(s: State): S.State {
    S.State(s.now, [], {}, map[], map[], {}, None)
  }

  lemma Starts(c: Config, run: seq<State>, d: S.Config)
    requires Run(c, run) && |run| == 1
    ensures S.Run(d, [Start(run[0])]) && AllProject(run, [Start(run[0])])
  {
    InitProjects(run[0]);
  }

  lemma LastProjects(run: seq<State>, view: seq<S.State>)
    requires AllProject(run, view) && run != []
    ensures |view| == |run| && Projects(run[|run| - 1], view[|run| - 1])
  {
  }

  lemma Extended(c: Config, run: seq<State>, d: S.Config, l: Label, init: seq<S.State>, response: real) returns (view: seq<S.State>)
    requires |run| > 1 && S.Run(d, init) && |init| == |run| - 1 && AllProject(run[..|run| - 1], init)
    requires var s := run[|run| - 2]; Inv(s) && Projects(s, init[|run| - 2]) && Enabled(c, s, l) && run[|run| - 1] == Apply(c, s, l)
    ensures S.Run(d, view) && AllProject(run, view)
  {
    hide Inv, Enabled, Apply, Projects, View, S.Run, AllProject;
    var k := |run| - 1;
    StepProjects(c, run[k - 1], l, init[k - 1], d, response);
    var next := S.Apply(init[k - 1], View(run[k - 1], l, response));
    view := init + [next];
    ViewRuns(d, init, View(run[k - 1], l, response));
    OneMoreProjects(run[..k], init, run[k], next);
    assert run[..k] + [run[k]] == run;
  }

  ghost predicate AllProject(run: seq<State>, view: seq<S.State>) {
    |view| == |run| && forall k :: 0 <= k < |run| ==> Projects(run[k], view[k])
  }

  lemma OneMoreProjects(run: seq<State>, view: seq<S.State>, s: State, a: S.State)
    requires AllProject(run, view) && Projects(s, a)
    ensures AllProject(run + [s], view + [a])
  {
    hide Projects;
  }

  lemma PrefixRuns(c: Config, run: seq<State>)
    requires Run(c, run) && |run| > 1
    ensures Run(c, run[..|run| - 1])
  {
    var init := run[..|run| - 1];
    forall i | 0 <= i < |init| - 1 ensures Step(c, init[i], init[i + 1]) { assert Step(c, run[i], run[i + 1]); }
  }

  lemma LastStep(c: Config, run: seq<State>)
    requires Run(c, run) && |run| > 1
    ensures Step(c, run[|run| - 2], run[|run| - 1])
  {
    assert Step(c, run[|run| - 2], run[|run| - 2 + 1]);
  }

  lemma ViewRuns(d: S.Config, view: seq<S.State>, l: S.Label)
    requires S.Run(d, view) && S.Enabled(d, view[|view| - 1], l)
    ensures S.Run(d, view + [S.Apply(view[|view| - 1], l)])
  {
    var longer := view + [S.Apply(view[|view| - 1], l)];
    assert S.Step(d, view[|view| - 1], longer[|view|]);
    forall i | 0 <= i < |longer| - 1 ensures S.Step(d, longer[i], longer[i + 1]) {
      if i + 1 < |view| { assert S.Step(d, view[i], view[i + 1]); }
    }
  }
}
