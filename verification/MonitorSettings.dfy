/**
  What a user's edits leave of a monitor: each setting is what the last edit that names it says,
  whatever checks ran in between.
 */
module MonitorSettings {
  import opened Prelude
  import opened MonitorState
  import opened MonitorConfig
  import opened CheckRecording
  import P = MonitorProtocol
  import MonitorTheorems

  const NAME: Edit -> Option<string> := (e: Edit) => e.name
  const CONFIG: Edit -> Option<MonitorConfig> := (e: Edit) => e.config
  const INTERVAL: Edit -> Option<nat> := (e: Edit) => e.intervalSeconds
  const TIMEOUT: Edit -> Option<nat> := (e: Edit) => e.timeoutSeconds
  const FAILURES: Edit -> Option<int> := (e: Edit) => e.failureThreshold
  const RECOVERIES: Edit -> Option<int> := (e: Edit) => e.recoveryThreshold

  /** The k-th change is an edit that names this setting. */
  predicate Names<T>(ops: seq<Op>, setting: Edit -> Option<T>, k: nat) {
    k < |ops| && ops[k].Changed? && setting(ops[k].edit).Some?
  }

  /** No later edit names it. */
  ghost predicate NamesLast<T(!new)>(ops: seq<Op>, setting: Edit -> Option<T>, k: nat) {
    Names(ops, setting, k) && forall j: nat :: j > k ==> !Names(ops, setting, j)
  }

  /** The last edit that names the setting gives it its value; without one it is the initial one. */
  ghost predicate LastNamed<T(!new)>(ops: seq<Op>, setting: Edit -> Option<T>, initial: T, value: T) {
    && (forall k: nat :: NamesLast(ops, setting, k) ==> value == setting(ops[k].edit).value)
    && ((forall k: nat :: !Names(ops, setting, k)) ==> value == initial)
  }

  lemma OneMoreChange<T(!new)>(init: seq<Op>, op: Op, setting: Edit -> Option<T>, initial: T, before: T, after: T)
    requires LastNamed(init, setting, initial, before)
    requires if op.Changed? && setting(op.edit).Some? then after == setting(op.edit).value else after == before
    ensures LastNamed(init + [op], setting, initial, after)
  {
    var ops := init + [op];
    assert ops[|init|] == op;
    forall k: nat ensures k < |init| ==> (Names(ops, setting, k) <==> Names(init, setting, k)) {}
    if Names(ops, setting, |init|) {
      assert forall k: nat :: NamesLast(ops, setting, k) ==> k == |init|;
    } else {
      forall k: nat ensures Names(ops, setting, k) <==> Names(init, setting, k) {}
      forall k: nat | NamesLast(ops, setting, k) ensures NamesLast(init, setting, k) {}
    }
  }

  /** Each of the six settings is what the last edit that names it says, or what the monitor was created with. */
  ghost predicate Settled(ops: seq<Op>, created: Monitor, row: Monitor) {
    && LastNamed(ops, NAME, created.name, row.name) && LastNamed(ops, CONFIG, created.config, row.config)
    && LastNamed(ops, INTERVAL, created.intervalSeconds, row.intervalSeconds)
    && LastNamed(ops, TIMEOUT, created.timeoutSeconds, row.timeoutSeconds)
    && LastNamed(ops, FAILURES, created.failureThreshold, row.failureThreshold)
    && LastNamed(ops, RECOVERIES, created.recoveryThreshold, row.recoveryThreshold)
  }

  lemma ChangeSettles(init: seq<Op>, op: Op, created: Monitor, before: Monitor, after: Monitor)
    requires Settled(init, created, before) && after == Perform(before, op)
    ensures Settled(init + [op], created, after)
  {
    PerformedSettings(before, op);
    hide LastNamed, Perform;
    OneMoreChange(init, op, NAME, created.name, before.name, after.name);
    OneMoreChange(init, op, CONFIG, created.config, before.config, after.config);
    OneMoreChange(init, op, INTERVAL, created.intervalSeconds, before.intervalSeconds, after.intervalSeconds);
    OneMoreChange(init, op, TIMEOUT, created.timeoutSeconds, before.timeoutSeconds, after.timeoutSeconds);
    OneMoreChange(init, op, FAILURES, created.failureThreshold, before.failureThreshold, after.failureThreshold);
    OneMoreChange(init, op, RECOVERIES, created.recoveryThreshold, before.recoveryThreshold, after.recoveryThreshold);
  }

  lemma NothingSettled(m: Monitor)
    ensures Settled([], m, m)
  {
  }

  /** The settings after any sequence of checks and edits. */
  lemma {:induction false} SettingsAreLastEdits(m: Monitor, ops: seq<Op>)
    ensures Settled(ops, m, Replay(m, ops))
  {
    hide Settled, Perform;
    if ops == [] {
      NothingSettled(m);
    } else {
      var init, op := ops[..|ops| - 1], ops[|ops| - 1];
      SettingsAreLastEdits(m, init);
      ChangeSettles(init, op, m, Replay(m, init), Replay(m, ops));
      assert ops == init + [op];
    }
  }

  lemma PerformedSettings(m: Monitor, op: Op)
    ensures var n := Perform(m, op);
      && n.name == (if op.Changed? then Or(NAME(op.edit), m.name) else m.name)
      && n.config == (if op.Changed? then Or(CONFIG(op.edit), m.config) else m.config)
      && n.intervalSeconds == (if op.Changed? then Or(INTERVAL(op.edit), m.intervalSeconds) else m.intervalSeconds)
      && n.timeoutSeconds == (if op.Changed? then Or(TIMEOUT(op.edit), m.timeoutSeconds) else m.timeoutSeconds)
      && n.failureThreshold == (if op.Changed? then Or(FAILURES(op.edit), m.failureThreshold) else m.failureThreshold)
      && n.recoveryThreshold == (if op.Changed? then Or(RECOVERIES(op.edit), m.recoveryThreshold) else m.recoveryThreshold)
  {
  }

  /** In every run, each setting of a monitor is what its last committed edit that names it says. */
  lemma RowHasLastEdits(c: P.Config, run: seq<P.State>, k: nat, m: Id)
    requires P.Run(c, run) && k < |run| && m in run[k].rows
    ensures m in run[k].past
    ensures Settled(run[k].past[m].ops, run[k].past[m].created, run[k].rows[m].monitor)
  {
    MonitorTheorems.NoLostUpdate(c, run, k, m);
    hide P.Run, Replay, Settled;
    SettingsAreLastEdits(run[k].past[m].created, run[k].past[m].ops);
  }
}
