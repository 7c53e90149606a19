/**
  Monitor statistics over a check table from which retention deletes: the window, the
  aggregates and the `is_partial` flag, computed from the rows that are left.
 */
module Statistics {
  import opened Prelude
  import R = Retention

  type Check = R.CheckRow

  datatype Period = Hours24 | Days7 | Days30

  const HOUR := 3600.0

  function Length(period: Period): Time {
    match period
    case Hours24 => 24.0 * HOUR
    case Days7 => 168.0 * HOUR
    case Days30 => 720.0 * HOUR
  }

  datatype Range = Range(from: Time, to: Time)

  /** An explicit window needs both ends; otherwise a period that ends now, 24 hours by default. */
  function Resolve(period: Option<Period>, startsAt: Option<Time>, endsAt: Option<Time>, now: Time): Range {
    if startsAt.Some? && endsAt.Some? then Range(startsAt.value, endsAt.value)
    else Range(now - Length(if period.Some? then period.value else Hours24), now)
  }

  predicate Counts(check: Check, m: Id, w: Range) {
    check.monitorId == m && w.from <= check.checkedAt < w.to
  }

  /** The rows of the aggregate query, in table order. */
  function Window(rows: seq<Check>, m: Id, w: Range): seq<Check> {
    if rows == [] then []
    else
      var last := rows[|rows| - 1];
      Window(rows[..|rows| - 1], m, w) + if Counts(last, m, w) then [last] else []
  }

  function Successes(rows: seq<Check>): (n: nat)
    ensures n <= |rows|
  {
    if rows == [] then 0 else Successes(rows[..|rows| - 1]) + if rows[|rows| - 1].success then 1 else 0
  }

  function SuccessTime(rows: seq<Check>): Time {
    if rows == [] then 0.0
    else SuccessTime(rows[..|rows| - 1]) + if rows[|rows| - 1].success then rows[|rows| - 1].responseTime else 0.0
  }

  function Earliest(rows: seq<Check>): (t: Option<Time>)
    ensures t.None? <==> rows == []
    ensures t.Some? ==> (exists i :: 0 <= i < |rows| && rows[i].checkedAt == t.value)
    ensures t.Some? ==> forall i :: 0 <= i < |rows| ==> t.value <= rows[i].checkedAt
  {
    if rows == [] then None
    else
      var before, last := Earliest(rows[..|rows| - 1]), rows[|rows| - 1].checkedAt;
      Some(if before.Some? then MinTime(before.value, last) else last)
  }

  function Latest(rows: seq<Check>): (t: Option<Time>)
    ensures t.None? <==> rows == []
    ensures t.Some? ==> (exists i :: 0 <= i < |rows| && rows[i].checkedAt == t.value)
    ensures t.Some? ==> forall i :: 0 <= i < |rows| ==> rows[i].checkedAt <= t.value
  {
    if rows == [] then None
    else
      var before, last := Latest(rows[..|rows| - 1]), rows[|rows| - 1].checkedAt;
      Some(if before.Some? then MaxTime(before.value, last) else last)
  }

  datatype Aggregates = Aggregates(
    total: nat,
    successful: nat,
    failed: nat,
    uptimePercentage: Option<real>,
    averageResponseTime: Option<Time>,
    first: Option<Time>,
    last: Option<Time>)

  /** Percentage and average are left unrounded. */
  function AggregatesOf(window: seq<Check>): Aggregates {
    var n := Successes(window);
    Aggregates(|window|, n, |window| - n,
               if |window| > 0 then Some(n as real / |window| as real * 100.0) else None,
               if n > 0 then Some(SuccessTime(window) / n as real) else None,
               Earliest(window), Latest(window))
  }

  datatype Answer = Answer(aggregates: Aggregates, availableFrom: Option<Time>, isPartial: bool)

  /** Everything of one monitor; its oldest row is where the available history starts. */
  function OldestOf(rows: seq<Check>, m: Id): Option<Time> {
    if rows == [] then None
    else
      var before, last := OldestOf(rows[..|rows| - 1], m), rows[|rows| - 1];
      if last.monitorId != m then before
      else Some(if before.Some? then MinTime(before.value, last.checkedAt) else last.checkedAt)
  }

  /** `now` is the clock the service read before its query; `retentionDays` is None when retention is off. */
  function AnswerOf(rows: seq<Check>, m: Id, createdAt: Time, w: Range, now: Time, retentionDays: Option<nat>): Answer {
    var aggregates := AggregatesOf(Window(rows, m, w));
    var available := OldestOf(rows, m);
    var partial := aggregates.total == 0 || available.None? || w.from < MaxTime(createdAt, available.value) || w.to > now;
    Answer(aggregates, available, partial || (retentionDays.Some? && w.from < R.Cutoff(now, retentionDays.value)))
  }

  // ----- windows of filtered and extended tables

  /** The rows that are left, in table order. */
  function Live(history: seq<Check>, gone: set<nat>): seq<Check> {
    if history == [] then []
    else Live(history[..|history| - 1], gone) + if |history| - 1 in gone then [] else [history[|history| - 1]]
  }

  /** Deleting rows outside a window does not change the window. */
  lemma {:induction false} WindowOfLive(history: seq<Check>, gone: set<nat>, m: Id, w: Range)
    requires forall i :: 0 <= i < |history| && i in gone ==> !Counts(history[i], m, w)
    ensures Window(Live(history, gone), m, w) == Window(history, m, w)
  {
    if history != [] {
      var init, last := history[..|history| - 1], history[|history| - 1];
      WindowOfLive(init, gone, m, w);
      if |history| - 1 in gone {
        assert Live(history, gone) == Live(init, gone);
      } else {
        assert Live(history, gone)[..|Live(history, gone)| - 1] == Live(init, gone);
      }
    }
  }

  /** Deleting a row inside a window does change it. */
  lemma {:induction false} WindowShrinks(history: seq<Check>, gone: set<nat>, m: Id, w: Range)
    ensures |Window(Live(history, gone), m, w)| <= |Window(history, m, w)|
    ensures (exists i :: 0 <= i < |history| && i in gone && Counts(history[i], m, w))
      ==> |Window(Live(history, gone), m, w)| < |Window(history, m, w)|
  {
    if history != [] {
      var init, last := history[..|history| - 1], history[|history| - 1];
      WindowShrinks(init, gone, m, w);
      assert forall i :: 0 <= i < |init| ==> init[i] == history[i];
      if |history| - 1 in gone {
        assert Live(history, gone) == Live(init, gone);
      } else {
        assert Live(history, gone)[..|Live(history, gone)| - 1] == Live(init, gone);
      }
    }
  }

  lemma {:induction false} AtMostOneCounts(rows: seq<Check>, m: Id, w: Range)
    requires forall a, b :: 0 <= a < b < |rows| ==> !Counts(rows[a], m, w) || !Counts(rows[b], m, w)
    ensures |Window(rows, m, w)| <= 1
  {
    if rows != [] {
      var init := rows[..|rows| - 1];
      assert forall i :: 0 <= i < |init| ==> init[i] == rows[i];
      AtMostOneCounts(init, m, w);
      if Counts(rows[|rows| - 1], m, w) { EmptyWindow(init, m, w); }
    }
  }

  lemma {:induction false} WindowOfSum(a: seq<Check>, b: seq<Check>, m: Id, w: Range)
    ensures Window(a + b, m, w) == Window(a, m, w) + Window(b, m, w)
  {
    if b == [] {
      assert a + b == a;
    } else {
      WindowOfSum(a, b[..|b| - 1], m, w);
      assert (a + b)[..|a + b| - 1] == a + b[..|b| - 1];
    }
  }

  lemma {:induction false} EmptyWindow(rows: seq<Check>, m: Id, w: Range)
    ensures Window(rows, m, w) == [] <==> forall i :: 0 <= i < |rows| ==> !Counts(rows[i], m, w)
  {
    if rows != [] {
      EmptyWindow(rows[..|rows| - 1], m, w);
      assert forall i :: 0 <= i < |rows| - 1 ==> rows[i] == rows[..|rows| - 1][i];
    }
  }
}

/**
  The check table as a step system: checks are created and committed, retention deletes the
  oldest expired rows, monitors are deleted with their checks, and statistics are asked for.
 */
module StatisticsProtocol {
  import opened Prelude
  import opened Statistics
  import opened Selection

  /** None when retention is disabled; the setting does not change during a run. */
  datatype Config = Config(retentionDays: Option<nat>)

  datatype State = State(
    now: Time,
    // every check ever committed, by id, and the ids deleted since
    history: seq<Check>,
    gone: set<nat>,
    // the check of each monitor whose row is locked by a transaction that has created one
    pending: map<Id, Check>,
    created: map<Id, Time>,
    known: set<Id>,
    // the latest instant at which a committed retention pass began
    lastPass: Option<Time>)

  datatype Label =
    | Tick(to: Time)
    | CreateMonitor(m: Id)
    | DeleteMonitor(m: Id)
    | Begin(check: Check)
    | Commit(m: Id)
    | Abort(m: Id)
    | Retain(startedAt: Time, limit: nat, locked: set<Id>, batch: set<Due>)

  ghost predicate Init(s: State) {
    s.history == [] && s.gone == {} && s.pending == map[] && s.created == map[] && s.known == {} && s.lastPass == None
  }

  function Table(s: State): map<Id, Check> {
    map i: Id | 0 <= i < |s.history| && i !in s.gone :: s.history[i]
  }

  ghost predicate Enabled(c: Config, s: State, l: Label) {
    match l
    case Tick(to) => s.now <= to
    case CreateMonitor(m) => m !in s.known
    case DeleteMonitor(m) => m in s.created && m !in s.pending
    // the row lock is held from before the check is created until the transaction ends
    case Begin(check) => check.monitorId in s.created && check.monitorId !in s.pending && check.checkedAt == s.now
    case Commit(m) => m in s.pending
    case Abort(m) => m in s.pending
    case Retain(startedAt, limit, locked, batch) =>
      && c.retentionDays.Some? && startedAt <= s.now
      && R.BatchOf(R.Unlocked(R.ExpiredChecks(Table(s), R.Cutoff(startedAt, c.retentionDays.value)), locked), limit, batch)
  }

  function ChecksOf(s: State, m: Id): set<nat> {
    set i: nat | 0 <= i < |s.history| && s.history[i].monitorId == m
  }

  function Deleted(s: State, batch: set<Due>): set<nat> {
    set i: nat | 0 <= i < |s.history| && i in R.IdsIn(batch)
  }

  function Later(a: Option<Time>, b: Time): Time {
    if a.Some? then MaxTime(a.value, b) else b
  }

  function Apply(s: State, l: Label): State {
    match l
    case Tick(to) => s.(now := to)
    case CreateMonitor(m) => s.(created := s.created[m := s.now], known := s.known + {m})
    case DeleteMonitor(m) => s.(created := s.created - {m}, gone := s.gone + ChecksOf(s, m))
    case Begin(check) => s.(pending := s.pending[check.monitorId := check])
    case Commit(m) => if m in s.pending then s.(pending := s.pending - {m}, history := s.history + [s.pending[m]]) else s
    case Abort(m) => s.(pending := s.pending - {m})
    case Retain(startedAt, _, _, batch) => s.(gone := s.gone + Deleted(s, batch), lastPass := Some(Later(s.lastPass, startedAt)))
  }

  ghost predicate Step(c: Config, s: State, n: State) {
    exists l :: Enabled(c, s, l) && n == Apply(s, l)
  }

  ghost predicate Run(c: Config, run: seq<State>) {
    |run| > 0 && Init(run[0]) && forall i :: 0 <= i < |run| - 1 ==> Step(c, run[i], run[i + 1])
  }

  // ----- invariant

  ghost predicate GoneOk(c: Config, s: State, i: nat) {
    && i < |s.history|
    && (s.history[i].monitorId in s.created ==>
          c.retentionDays.Some? && s.lastPass.Some? && s.history[i].checkedAt < R.Cutoff(s.lastPass.value, c.retentionDays.value))
  }

  ghost predicate Inv(c: Config, s: State) {
    && (forall i :: i in s.gone ==> GoneOk(c, s, i))
    && s.created.Keys <= s.known
    && (forall i :: 0 <= i < |s.history| ==> s.history[i].monitorId in s.known && s.history[i].checkedAt <= s.now)
    && (forall m :: m in s.pending ==> m in s.created && s.pending[m].monitorId == m && s.pending[m].checkedAt <= s.now)
    && (s.lastPass.Some? ==> s.lastPass.value <= s.now)
  }

  lemma RetainKeeps(c: Config, s: State, startedAt: Time, limit: nat, locked: set<Id>, batch: set<Due>)
    requires Inv(c, s) && Enabled(c, s, Retain(startedAt, limit, locked, batch))
    ensures Inv(c, Apply(s, Retain(startedAt, limit, locked, batch)))
  {
    var n := Apply(s, Retain(startedAt, limit, locked, batch));
    forall i | i in n.gone ensures GoneOk(c, n, i) {
      if i in s.gone {
        assert GoneOk(c, s, i);
      } else {
        assert i in R.IdsIn(batch);
        var due :| due in batch && due.id == i;
        assert due in R.ExpiredChecks(Table(s), R.Cutoff(startedAt, c.retentionDays.value));
      }
    }
  }

  lemma StepKeeps(c: Config, s: State, l: Label)
    requires Inv(c, s) && Enabled(c, s, l)
    ensures Inv(c, Apply(s, l))
  {
    if l.Retain? {
      RetainKeeps(c, s, l.startedAt, l.limit, l.locked, l.batch);
    } else {
      var n := Apply(s, l);
      forall i | i in n.gone ensures GoneOk(c, n, i) { if i in s.gone { assert GoneOk(c, s, i); } }
    }
  }

  lemma {:induction false} RunHolds(c: Config, run: seq<State>, k: nat)
    requires Run(c, run) && k < |run|
    ensures Inv(c, run[k])
  {
    if k > 0 {
      RunHolds(c, run, k - 1);
      assert Step(c, run[k - 1], run[k - 1 + 1]);
      var l :| Enabled(c, run[k - 1], l) && run[k] == Apply(run[k - 1], l);
      StepKeeps(c, run[k - 1], l);
    }
  }

  /** In every run, a check that is left belongs to a monitor that is there: deleting the monitor has taken the others. */
  lemma {:induction false} LeftChecksHaveMonitors(c: Config, run: seq<State>, k: nat)
    requires Run(c, run) && k < |run|
    ensures forall i :: 0 <= i < |run[k].history| && i !in run[k].gone ==> run[k].history[i].monitorId in run[k].created
  {
    if k > 0 {
      LeftChecksHaveMonitors(c, run, k - 1);
      RunHolds(c, run, k - 1);
      assert Step(c, run[k - 1], run[k - 1 + 1]);
      var l :| Enabled(c, run[k - 1], l) && run[k] == Apply(run[k - 1], l);
    }
  }

  /** A deletion and a pass take the checks they are for and no other, and nothing else takes one. */
  lemma GoneIs(c: Config, s: State, l: Label, i: nat)
    requires Enabled(c, s, l) && i < |s.history| && i !in s.gone
    ensures s.history <= Apply(s, l).history
    ensures i in Apply(s, l).gone <==> (l.DeleteMonitor? && s.history[i].monitorId == l.m) || (l.Retain? && exists due :: due in l.batch && due.id == i)
  {
    if l.Retain? && exists due :: due in l.batch && due.id == i { assert i in R.IdsIn(l.batch); }
  }

  // ----- what a non-partial answer says

  /** The answer to a request that read its clock at `asked` and queried in s. */
  function Ask(c: Config, s: State, m: Id, w: Range, asked: Time): Answer
    requires m in s.created
  {
    AnswerOf(Live(s.history, s.gone), m, s.created[m], w, asked, c.retentionDays)
  }

  /** The window starts where no pass so far deletes. */
  predicate Spared(c: Config, s: State, w: Range) {
    c.retentionDays.Some? && s.lastPass.Some? ==> w.from >= R.Cutoff(s.lastPass.value, c.retentionDays.value)
  }

  /** No pass whose deletes the query can see began after the request read its clock. */
  predicate NoPassSince(s: State, asked: Time) {
    s.lastPass.Some? ==> s.lastPass.value <= asked
  }

  /** The request's own check of the window is enough unless a pass began after its clock. */
  lemma NoPassSinceSpares(c: Config, s: State, m: Id, w: Range, asked: Time)
    requires m in s.created && NoPassSince(s, asked) && !Ask(c, s, m, w, asked).isPartial
    ensures Spared(c, s, w)
  {
    hide Live, Window, AggregatesOf, OldestOf;
  }

  /**
    Partial or not, an answer is the aggregate over every check ever committed in its window
    if and only if none of them has been deleted.
   */
  lemma CompleteIff(c: Config, s: State, m: Id, w: Range, asked: Time)
    requires m in s.created
    ensures Ask(c, s, m, w, asked).aggregates == AggregatesOf(Window(s.history, m, w))
      <==> forall i :: 0 <= i < |s.history| && i in s.gone ==> !Counts(s.history[i], m, w)
  {
    WindowShrinks(s.history, s.gone, m, w);
    if forall i :: 0 <= i < |s.history| && i in s.gone ==> !Counts(s.history[i], m, w) {
      WindowOfLive(s.history, s.gone, m, w);
    }
    hide Window, Live, Earliest, Latest, Successes, SuccessTime;
  }

  lemma SparedIsWhole(c: Config, s: State, m: Id, w: Range)
    requires Inv(c, s) && m in s.created && Spared(c, s, w)
    ensures forall i :: 0 <= i < |s.history| && i in s.gone ==> !Counts(s.history[i], m, w)
  {
    forall i | 0 <= i < |s.history| && i in s.gone ensures !Counts(s.history[i], m, w) {
      assert GoneOk(c, s, i);
    }
  }

  /**
    In every run, an answer whose window no pass has reached is the aggregate over every check
    ever committed in the window, although retention has been deleting rows of the same table.
   */
  lemma SparedIsComplete(c: Config, run: seq<State>, k: nat, m: Id, w: Range, asked: Time)
    requires Run(c, run) && k < |run| && m in run[k].created && Spared(c, run[k], w)
    ensures Ask(c, run[k], m, w, asked).aggregates == AggregatesOf(Window(run[k].history, m, w))
  {
    RunHolds(c, run, k);
    SparedIsWhole(c, run[k], m, w);
    CompleteIff(c, run[k], m, w, asked);
  }

  /** So a non-partial answer is complete if no pass began between the request's clock and its query. */
  lemma NonPartialIsComplete(c: Config, run: seq<State>, k: nat, m: Id, w: Range, asked: Time)
    requires Run(c, run) && k < |run| && m in run[k].created && NoPassSince(run[k], asked)
    requires !Ask(c, run[k], m, w, asked).isPartial
    ensures Ask(c, run[k], m, w, asked).aggregates == AggregatesOf(Window(run[k].history, m, w))
    ensures Window(run[k].history, m, w) != []
  {
    NoPassSinceSpares(c, run[k], m, w, asked);
    SparedIsComplete(c, run, k, m, w, asked);
  }

  // ----- how answers change

  lemma {:induction false} StaysKnown(c: Config, run: seq<State>, i: nat, j: nat, m: Id)
    requires Run(c, run) && i <= j < |run| && m in run[i].known
    ensures m in run[j].known
    decreases j - i
  {
    if i < j {
      StaysKnown(c, run, i, j - 1, m);
      assert Step(c, run[j - 1], run[j - 1 + 1]);
    }
  }

  /** A monitor that is there at both ends was there all the time. */
  lemma CreatedBefore(c: Config, run: seq<State>, i: nat, j: nat, m: Id)
    requires Run(c, run) && i < j < |run| && m in run[i].created && m in run[j].created
    ensures m in run[j - 1].created && run[j].created[m] == run[j - 1].created[m]
  {
    RunHolds(c, run, i);
    assert m in run[i].created.Keys;
    StaysKnown(c, run, i, j - 1, m);
    assert Step(c, run[j - 1], run[j - 1 + 1]);
  }

  /** A row committed after state i whose check had been created before. */
  predicate Late(run: seq<State>, i: nat, j: nat, m: Id, k: nat)
    requires i < |run| && j < |run|
  {
    |run[i].history| <= k < |run[j].history| && run[j].history[k].monitorId == m && run[j].history[k].checkedAt < run[i].now
  }

  /** The check of m that was open in state i is still open in state j. */
  predicate StillOpen(run: seq<State>, i: nat, j: nat, m: Id)
    requires i < |run| && j < |run|
  {
    m in run[j].pending && run[j].pending[m].checkedAt < run[i].now
  }

  /** What a run up to j has made of the open check of m in state i. */
  ghost predicate Followed(run: seq<State>, i: nat, j: nat, m: Id)
    requires i < |run| && j < |run|
  {
    && run[i].now <= run[j].now && run[i].history <= run[j].history
    && (forall k: nat :: Late(run, i, j, m, k) ==> Flying(run[i], m, run[j].history[k]) && !StillOpen(run, i, j, m))
    && (forall k: nat, l: nat :: Late(run, i, j, m, k) && Late(run, i, j, m, l) ==> k == l)
    && (StillOpen(run, i, j, m) ==> Flying(run[i], m, run[j].pending[m]))
  }

  /** The check that m's open transaction has created. */
  predicate Flying(s: State, m: Id, check: Check) {
    m in s.pending && s.pending[m] == check
  }

  lemma FollowStep(c: Config, run: seq<State>, i: nat, j: nat, m: Id)
    requires 0 < j && i < j < |run| && Inv(c, run[j - 1]) && Step(c, run[j - 1], run[j]) && Followed(run, i, j - 1, m)
    ensures Followed(run, i, j, m)
  {
    var s, n := run[j - 1], run[j];
    var l :| Enabled(c, s, l) && n == Apply(s, l);
    if l.Commit? {
      var row := s.pending[l.m];
      assert n.history == s.history + [row];
      forall k: nat | Late(run, i, j, m, k) ensures if k < |s.history| then Late(run, i, j - 1, m, k) else l.m == m && StillOpen(run, i, j - 1, m) {}
    } else {
      assert n.history == s.history;
      assert forall k: nat :: Late(run, i, j, m, k) ==> Late(run, i, j - 1, m, k);
      assert StillOpen(run, i, j, m) ==> StillOpen(run, i, j - 1, m);
    }
  }

  lemma {:induction false} RunFollows(c: Config, run: seq<State>, i: nat, j: nat, m: Id)
    requires Run(c, run) && i <= j < |run|
    ensures Followed(run, i, j, m)
    decreases j - i
  {
    if i < j {
      RunFollows(c, run, i, j - 1, m);
      RunHolds(c, run, j - 1);
      assert Step(c, run[j - 1], run[j - 1 + 1]);
      hide Inv, Followed, Step;
      FollowStep(c, run, i, j, m);
    }
  }

  lemma MoreChecksDiffer(window: seq<Check>, added: seq<Check>)
    ensures AggregatesOf(window + added).total == AggregatesOf(window).total + |added|
    ensures AggregatesOf(window + added) == AggregatesOf(window) <==> added == []
  {
    if added == [] { assert window + added == window; }
  }

  /** Only the check that was open in state i can be added to a window of the past. */
  lemma AddedWasOpen(c: Config, run: seq<State>, i: nat, j: nat, m: Id, w: Range)
    requires Run(c, run) && i <= j < |run| && w.to <= run[i].now
    ensures run[i].history <= run[j].history
    ensures var added := run[j].history[|run[i].history|..];
      && |Window(added, m, w)| <= 1
      && forall k :: 0 <= k < |added| && Counts(added[k], m, w) ==> Flying(run[i], m, added[k])
  {
    RunFollows(c, run, i, j, m);
    hide Run;
    var first := |run[i].history|;
    var added := run[j].history[first..];
    forall k | 0 <= k < |added| && Counts(added[k], m, w) ensures Late(run, i, j, m, first + k) && Flying(run[i], m, added[k]) {
      assert added[k] == run[j].history[first + k];
    }
    forall a, b | 0 <= a < b < |added| ensures !Counts(added[a], m, w) || !Counts(added[b], m, w) {
      assert Late(run, i, j, m, first + a) && Late(run, i, j, m, first + b) ==> first + a == first + b;
    }
    AtMostOneCounts(added, m, w);
  }

  /**
    Two answers for one window that no pass has reached differ by one check at most: the one
    that the monitor's locked transaction had created at the first request. They are equal if
    and only if that check, if it is of the window, was not committed in between.
   */
  lemma AnswersAreStable(c: Config, run: seq<State>, i: nat, j: nat, m: Id, w: Range, asked: Time, again: Time)
    requires Run(c, run) && i <= j < |run| && m in run[i].created && m in run[j].created
    requires w.to <= run[i].now && Spared(c, run[i], w) && Spared(c, run[j], w)
    ensures run[i].history <= run[j].history
    ensures var added := run[j].history[|run[i].history|..];
      var before, after := Ask(c, run[i], m, w, asked).aggregates, Ask(c, run[j], m, w, again).aggregates;
      && before.total <= after.total == before.total + |Window(added, m, w)| <= before.total + 1
      && (after == before <==> Window(added, m, w) == [])
      && (forall k :: 0 <= k < |added| && Counts(added[k], m, w) ==> Flying(run[i], m, added[k]))
  {
    SparedIsComplete(c, run, i, m, w, asked);
    SparedIsComplete(c, run, j, m, w, again);
    AddedWasOpen(c, run, i, j, m, w);
    hide Ask, AggregatesOf, Window, Run, Spared;
    var added := run[j].history[|run[i].history|..];
    assert run[j].history == run[i].history + added;
    WindowOfSum(run[i].history, added, m, w);
    MoreChecksDiffer(Window(run[i].history, m, w), Window(added, m, w));
  }

  lemma EndsInThePast(c: Config, s: State, m: Id, w: Range, asked: Time)
    requires m in s.created && !Ask(c, s, m, w, asked).isPartial
    ensures w.to <= asked
  {
    hide Live, Window, AggregatesOf, OldestOf;
  }

  /** The same of two non-partial answers, if no pass began between a request's clock and its query. */
  lemma NonPartialIsStable(c: Config, run: seq<State>, i: nat, j: nat, m: Id, w: Range, asked: Time, again: Time)
    requires Run(c, run) && i <= j < |run| && m in run[i].created && m in run[j].created
    requires asked <= run[i].now && NoPassSince(run[i], asked) && NoPassSince(run[j], again)
    requires !Ask(c, run[i], m, w, asked).isPartial && !Ask(c, run[j], m, w, again).isPartial
    ensures run[i].history <= run[j].history
    ensures var added := run[j].history[|run[i].history|..];
      var before, after := Ask(c, run[i], m, w, asked).aggregates, Ask(c, run[j], m, w, again).aggregates;
      && before.total <= after.total == before.total + |Window(added, m, w)| <= before.total + 1
      && (after == before <==> Window(added, m, w) == [])
      && (forall k :: 0 <= k < |added| && Counts(added[k], m, w) ==> Flying(run[i], m, added[k]))
  {
    EndsInThePast(c, run[i], m, w, asked);
    NoPassSinceSpares(c, run[i], m, w, asked);
    NoPassSinceSpares(c, run[j], m, w, again);
    AnswersAreStable(c, run, i, j, m, w, asked, again);
  }

  /** So an answer stays if the monitor has no open check of the window. */
  lemma SettledAnswerStays(c: Config, run: seq<State>, i: nat, j: nat, m: Id, w: Range, asked: Time, again: Time)
    requires Run(c, run) && i <= j < |run| && m in run[i].created && m in run[j].created
    requires asked <= run[i].now && NoPassSince(run[i], asked) && NoPassSince(run[j], again)
    requires !Ask(c, run[i], m, w, asked).isPartial && !Ask(c, run[j], m, w, again).isPartial
    requires m in run[i].pending ==> !Counts(run[i].pending[m], m, w)
    ensures Ask(c, run[j], m, w, again).aggregates == Ask(c, run[i], m, w, asked).aggregates
  {
    NonPartialIsStable(c, run, i, j, m, w, asked, again);
    hide Run, Ask, NoPassSince;
    EmptyWindow(run[j].history[|run[i].history|..], m, w);
  }

  // ----- the two ways in which less than that goes wrong

  ghost predicate Through(c: Config, run: seq<State>, labels: seq<Label>) {
    && |run| == |labels| + 1 && Init(run[0])
    && forall i :: 0 <= i < |labels| ==> Enabled(c, run[i], labels[i]) && run[i + 1] == Apply(run[i], labels[i])
  }

  lemma ThroughIsRun(c: Config, run: seq<State>, labels: seq<Label>)
    requires Through(c, run, labels)
    ensures Run(c, run)
  {
    forall i | 0 <= i < |run| - 1 ensures Step(c, run[i], run[i + 1]) {
      assert Enabled(c, run[i], labels[i]);
    }
  }

  function CheckAt(success: bool, at: Time): Check {
    R.CheckRow(1, success, 5.0, at)
  }

  const START := State(0.0, [], {}, map[], map[], {}, None)

  function FlightLabels(): seq<Label> {
    [CreateMonitor(1), Tick(100.0), Begin(CheckAt(true, 100.0)), Commit(1), Tick(101.0), Begin(CheckAt(false, 101.0)), Tick(200.0), Commit(1)]
  }

  function FlightState(n: nat): State {
    var a, b := CheckAt(true, 100.0), CheckAt(false, 101.0);
    var created := map[1 := 0.0];
    match n
    case 0 => START
    case 1 => State(0.0, [], {}, map[], created, {1}, None)
    case 2 => State(100.0, [], {}, map[], created, {1}, None)
    case 3 => State(100.0, [], {}, map[1 := a], created, {1}, None)
    case 4 => State(100.0, [a], {}, map[], created, {1}, None)
    case 5 => State(101.0, [a], {}, map[], created, {1}, None)
    case 6 => State(101.0, [a], {}, map[1 := b], created, {1}, None)
    case 7 => State(200.0, [a], {}, map[1 := b], created, {1}, None)
    case _ => State(200.0, [a, b], {}, map[], created, {1}, None)
  }

  lemma FlightStep(i: nat)
    requires i < 8
    ensures Enabled(Config(None), FlightState(i), FlightLabels()[i]) && Apply(FlightState(i), FlightLabels()[i]) == FlightState(i + 1)
  {
  }

  lemma FlightAnswers(a: Check, b: Check, w: Range)
    requires a == CheckAt(true, 100.0) && b == CheckAt(false, 101.0) && w == Range(100.0, 200.0)
    ensures Live([a], {}) == [a] && Live([a, b], {}) == [a, b]
    ensures Window([a], 1, w) == [a] && Window([a, b], 1, w) == [a, b]
    ensures OldestOf([a], 1) == Some(100.0) && OldestOf([a, b], 1) == Some(100.0)
  {
    assert [a, b][..1] == [a] && [a][..0] == [];
  }

  /** A check of 101 is still open when a request about 100 to 200 is answered at 200. */
  lemma InFlightCheckChangesIt() returns (run: seq<State>)
    ensures Run(Config(None), run) && |run| == 9 && 1 in run[7].created && 1 in run[8].created
    ensures var c, w := Config(None), Range(100.0, 200.0);
      && !Ask(c, run[7], 1, w, 200.0).isPartial && !Ask(c, run[8], 1, w, 200.0).isPartial
      && Ask(c, run[7], 1, w, 200.0).aggregates.total == 1 && Ask(c, run[8], 1, w, 200.0).aggregates.total == 2
  {
    run := seq(9, (i: nat) => FlightState(i));
    forall i | 0 <= i < 8 ensures Enabled(Config(None), run[i], FlightLabels()[i]) && run[i + 1] == Apply(run[i], FlightLabels()[i]) {
      FlightStep(i);
    }
    ThroughIsRun(Config(None), run, FlightLabels());
    FlightAnswers(CheckAt(true, 100.0), CheckAt(false, 101.0), Range(100.0, 200.0));
  }

  function LateLabels(): seq<Label> {
    [CreateMonitor(1), Tick(100.0), Begin(CheckAt(true, 100.0)), Commit(1), Tick(110.0), Begin(CheckAt(false, 110.0)), Commit(1),
     Tick(120.0), Begin(CheckAt(true, 120.0)), Commit(1), Tick(86520.0), Retain(86520.0, 1000, {0}, {Due(110.0, 1)})]
  }

  function LateState(n: nat): State {
    var a, b, d := CheckAt(true, 100.0), CheckAt(false, 110.0), CheckAt(true, 120.0);
    var created := map[1 := 0.0];
    match n
    case 0 => START
    case 1 => State(0.0, [], {}, map[], created, {1}, None)
    case 2 => State(100.0, [], {}, map[], created, {1}, None)
    case 3 => State(100.0, [], {}, map[1 := a], created, {1}, None)
    case 4 => State(100.0, [a], {}, map[], created, {1}, None)
    case 5 => State(110.0, [a], {}, map[], created, {1}, None)
    case 6 => State(110.0, [a], {}, map[1 := b], created, {1}, None)
    case 7 => State(110.0, [a, b], {}, map[], created, {1}, None)
    case 8 => State(120.0, [a, b], {}, map[], created, {1}, None)
    case 9 => State(120.0, [a, b], {}, map[1 := d], created, {1}, None)
    case 10 => State(120.0, [a, b, d], {}, map[], created, {1}, None)
    case 11 => State(86520.0, [a, b, d], {}, map[], created, {1}, None)
    case _ => State(86520.0, [a, b, d], {1}, map[], created, {1}, Some(86520.0))
  }

  /** The i-th label leads from the i-th state to the next. */
  ghost predicate LateLeads(i: nat)
    requires i < 12
  {
    Enabled(Config(Some(1)), LateState(i), LateLabels()[i]) && Apply(LateState(i), LateLabels()[i]) == LateState(i + 1)
  }

  lemma LateStart(i: nat)
    requires i < 6
    ensures LateLeads(i)
  {
    hide R.BatchOf, R.Unlocked, R.ExpiredChecks, Deleted, Table;
  }

  lemma LateChecks(i: nat)
    requires 6 <= i < 11
    ensures LateLeads(i)
  {
    hide R.BatchOf, R.Unlocked, R.ExpiredChecks, Deleted, Table;
  }

  lemma LatePass()
    ensures LateLeads(11)
  {
    LateBatch(LateState(11), CheckAt(true, 100.0), CheckAt(false, 110.0), CheckAt(true, 120.0));
    hide R.BatchOf, R.Unlocked, R.ExpiredChecks, Deleted, Table;
  }

  lemma LateStep(i: nat)
    requires i < 12
    ensures LateLeads(i)
  {
    hide LateLeads;
    if i < 6 { LateStart(i); } else if i < 11 { LateChecks(i); } else { LatePass(); }
  }

  /**
    With one day of history, a request reads its clock at 86500. A pass that begins at 86520
    deletes the check of 110 and skips the one of 100, which another pass has locked; what is
    left makes the history look complete from 100 on.
   */
  lemma LatePassHidesACheck() returns (run: seq<State>)
    ensures Run(Config(Some(1)), run) && |run| == 13 && 1 in run[12].created && !NoPassSince(run[12], 86500.0)
    ensures !Ask(Config(Some(1)), run[12], 1, Range(100.0, 86500.0), 86500.0).isPartial
    ensures Ask(Config(Some(1)), run[12], 1, Range(100.0, 86500.0), 86500.0).aggregates.total == 2
    ensures |Window(run[12].history, 1, Range(100.0, 86500.0))| == 3
  {
    run := seq(13, (i: nat) => LateState(i));
    forall i | 0 <= i < 12 ensures Enabled(Config(Some(1)), run[i], LateLabels()[i]) && run[i + 1] == Apply(run[i], LateLabels()[i]) {
      LateStep(i);
    }
    ThroughIsRun(Config(Some(1)), run, LateLabels());
    LateAnswer(CheckAt(true, 100.0), CheckAt(false, 110.0), CheckAt(true, 120.0), Range(100.0, 86500.0));
  }

  lemma LateBatch(s: State, a: Check, b: Check, d: Check)
    requires s.history == [a, b, d] && s.gone == {} && a == CheckAt(true, 100.0) && b == CheckAt(false, 110.0) && d == CheckAt(true, 120.0)
    ensures R.BatchOf(R.Unlocked(R.ExpiredChecks(Table(s), R.Cutoff(86520.0, 1)), {0}), 1000, {Due(110.0, 1)})
    ensures Deleted(s, {Due(110.0, 1)}) == {1}
  {
    assert R.Cutoff(86520.0, 1) == 120.0;
    var expired := R.ExpiredChecks(Table(s), 120.0);
    assert forall k :: k in Table(s) <==> k == 0 || k == 1 || k == 2;
    assert Table(s)[0] == a && Table(s)[1] == b && Table(s)[2] == d;
    assert Due(100.0, 0) in expired && Due(110.0, 1) in expired;
    assert expired == {Due(100.0, 0), Due(110.0, 1)};
    assert R.Unlocked(expired, {0}) == {Due(110.0, 1)};
    assert forall i :: i in R.IdsIn({Due(110.0, 1)}) <==> i == 1;
  }

  lemma LateAnswer(a: Check, b: Check, d: Check, w: Range)
    requires a == CheckAt(true, 100.0) && b == CheckAt(false, 110.0) && d == CheckAt(true, 120.0) && w == Range(100.0, 86500.0)
    ensures Live([a, b, d], {1}) == [a, d] && Window([a, d], 1, w) == [a, d] && Window([a, b, d], 1, w) == [a, b, d]
    ensures OldestOf([a, d], 1) == Some(100.0)
  {
    assert [a, b, d][..2] == [a, b] && [a, b][..1] == [a] && [a][..0] == [] && [a, d][..1] == [a];
    assert Live([a], {1}) == [a] && Live([a, b], {1}) == [a];
    assert Window([a], 1, w) == [a] && Window([a, b], 1, w) == [a, b];
    assert OldestOf([a], 1) == Some(100.0);
  }
}
