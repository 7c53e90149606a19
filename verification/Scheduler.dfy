/**
  One cycle of the scheduler: waves of claimed monitors, each probed and recorded by a task
  group and then released, until the batch is full or nothing is due.
 */
module Scheduler {
  import opened Prelude
  import opened Identifiers
  import opened Selection
  import opened MonitorState
  import opened MonitorRepository
  import opened Waves

  /** What `run_once` did: returned its count, with or without a heartbeat, or raised. */
  datatype Ending = Returned(attempted: nat, heartbeat: bool) | Raised

  /** How one pass of the loop went; NotClaimed and Torn stand for exceptions. */
  datatype Step = Nothing | NotClaimed | Torn | Done(ids: set<Id>, ok: bool)

  /** Every other monitor is not due, paused or under a claim that has not run out. */
  predicate NothingElse(monitors: map<Id, Monitor>, stored: map<Id, MonitorClaim>, taken: set<Id>, at: Time) {
    forall m :: m in monitors && m !in taken ==>
      monitors[m].nextCheckAt > at || monitors[m].status == Paused || (m in stored && stored[m].expiresAt > at)
  }

  class Scheduler {
    const batchSize: nat
    const concurrency: nat
    const leaseGrace: Time
    const repository: InMemoryMonitors
    const ids: IdSource

    // this cycle: the waves claimed, those handed to release, and which of them went well
    ghost var waves: seq<Wave>
    ghost var released: seq<Wave>
    ghost var clean: seq<bool>
    // which waves were smaller than the claim's limit
    ghost var short: seq<bool>

    ghost predicate Valid()
      reads this, repository, ids
    {
      batchSize >= 1 && concurrency >= 1 && leaseGrace > 0.0 && repository.Valid() && ids.Valid()
    }

    /** Anything else is refused with a ValueError. */
    constructor (batchSize: nat, concurrency: nat, leaseGrace: Time, repository: InMemoryMonitors, ids: IdSource)
      requires batchSize >= 1 && concurrency >= 1 && leaseGrace > 0.0 && repository.Valid() && ids.Valid()
      ensures Valid() && this.repository == repository && this.ids == ids && this.leaseGrace == leaseGrace
    {
      this.batchSize, this.concurrency, this.leaseGrace := batchSize, concurrency, leaseGrace;
      this.repository, this.ids := repository, ids;
    }

    /** Whatever else commits on the monitor table. */
    method OthersCommit()
      requires Valid()
      modifies repository
      ensures Valid()
    {
      var monitors: map<Id, Monitor>, claims: map<Id, MonitorClaim> := *, *;
      var kept := map m | m in monitors && monitors[m].id == m :: monitors[m];
      repository.monitors := kept;
      repository.claims := map m | m in claims && m in kept :: claims[m];
    }

    /** None when the lease grace, which also limits the claim, is over; else monitors due at `at`, leased for a probe and the grace. */
    method Claim(limit: nat, exclude: set<Id>) returns (claims: Option<seq<MonitorClaim>>, ghost at: Time)
      requires Valid() && limit >= 1
      modifies repository, ids
      ensures Valid()
      ensures claims.Some? ==>
        var wave := Named(claims.value);
        |wave| <= limit && WaveIds(wave) !! exclude && |WaveIds(wave)| == |wave|
      ensures claims.Some? ==> forall i :: 0 <= i < |claims.value| ==> TakenAt(repository.monitors, repository.claims, claims.value[i], at)
      ensures claims.Some? && |claims.value| < limit ==>
        NothingElse(repository.monitors, repository.claims, exclude + WaveIds(Named(claims.value)), at)
    {
      OthersCommit();
      var now: Time, timedOut: bool := *, *;
      at := now;
      if timedOut { return None, at; }
      ghost var rows := repository.Rows();
      ghost var tokens;
      claims, tokens := repository.ClaimDue(limit, leaseGrace, exclude, now, ids);
      ClaimIsDistinct(rows, claims.value, exclude, now, limit);
      WaveIdsAreClaimed(claims.value);
    }

    /** The monitor is due and not paused, and its stored lease lasts for its timeout and the grace from `at` on. */
    predicate TakenAt(monitors: map<Id, Monitor>, stored: map<Id, MonitorClaim>, claim: MonitorClaim, at: Time)
      reads this
    {
      var m := claim.monitor.id;
      && m in monitors && monitors[m] == claim.monitor && claim.monitor.nextCheckAt <= at && claim.monitor.status != Paused
      && m in stored && stored[m] == claim && claim.expiresAt == at + claim.monitor.timeoutSeconds as Time + leaseGrace
    }

    /** The results of the wave's checks, or None when the task group raises. */
    method CheckAll(claims: seq<MonitorClaim>) returns (results: Option<seq<bool>>)
      requires Valid()
      modifies repository
      ensures Valid() && (results.Some? ==> |results.value| == |claims|)
    {
      OthersCommit();
      var raised: bool := *;
      if raised { return None; }
      var all: seq<bool> := [];
      while |all| < |claims|
        invariant |all| <= |claims|
      {
        var result: bool := *;
        all := all + [result];
      }
      results := Some(all);
    }

    /**
      Some(true): every claim's lease is off its row. Some(false): the transaction failed and
      changed nothing. None: it was cancelled.
     */
    method Release(claims: seq<MonitorClaim>) returns (ok: Option<bool>)
      requires Valid()
      modifies repository
      ensures Valid()
      ensures ok == Some(true) ==> forall i :: 0 <= i < |claims| ==> !Carries(repository.claims, claims[i])
      ensures ok != Some(true) ==> repository.claims == old(repository.claims)
      ensures repository.monitors == old(repository.monitors)
    {
      var before := repository.claims;
      var i := 0;
      while i < |claims|
        invariant 0 <= i <= |claims| && Valid() && repository.claims.Keys <= before.Keys
        invariant repository.monitors == old(repository.monitors)
        invariant forall j :: 0 <= j < i ==> !Carries(repository.claims, claims[j])
      {
        var failure: Option<bool> := *;
        if failure.Some? {
          repository.claims := before;
          return if failure.value then Some(false) else None;
        }
        var done := repository.ReleaseCheckLease(claims[i].monitor.id, claims[i].token);
        i := i + 1;
      }
      ok := Some(true);
    }

    /**
      One pass of the loop: `wave` is what it claimed, at `at`, and handed to release, if anything;
      `monitors` and `stored` are what the claim left.
     */
    method RunWave(limit: nat, attempted: set<Id>)
      returns (step: Step, ghost wave: Wave, ghost at: Time, ghost monitors: map<Id, Monitor>, ghost stored: map<Id, MonitorClaim>)
      requires Valid() && limit >= 1
      modifies this`waves, this`released, this`clean, this`short, repository, ids
      ensures Valid()
      ensures step.Nothing? ==> waves == old(waves) && released == old(released) && clean == old(clean) && short == old(short)
      ensures step.Nothing? ==> NothingElse(repository.monitors, repository.claims, attempted, at)
      ensures step.Done? || step.Torn? ==>
        && short == old(short) + [|wave| < limit] && (forall k :: k in wave ==> Leased(stored, k))
        && (|wave| < limit ==> NothingElse(monitors, stored, attempted + WaveIds(wave), at))
      ensures step.NotClaimed? ==> waves == old(waves) && released == old(released) && short == old(short)
      ensures step.Torn? ==> waves == old(waves) + [wave] && released == old(released) + [wave]
      ensures step.Done? ==>
        && waves == old(waves) + [wave] && released == old(released) + [wave] && clean == old(clean) + [step.ok]
        && step.ids == WaveIds(wave)
      ensures step.Done? || step.Torn? ==>
        0 < |wave| <= limit && WaveIds(wave) !! attempted && |WaveIds(wave)| == |wave|
      ensures step.Done? && step.ok ==> forall k :: k in wave ==> !Leased(repository.claims, k)
    {
      wave := [];
      var claims;
      claims, at := Claim(limit, attempted);
      monitors, stored := repository.monitors, repository.claims;
      if claims.None? { return NotClaimed, wave, at, monitors, stored; }
      if claims.value == [] {
        assert attempted + WaveIds(Named(claims.value)) == attempted;
        return Nothing, wave, at, monitors, stored;
      }
      wave := Named(claims.value);
      forall k | k in wave ensures Leased(stored, k) {
        var i :| 0 <= i < |wave| && wave[i] == k;
      }
      waves := waves + [wave];
      short := short + [|wave| < limit];
      var results := CheckAll(claims.value);
      released := released + [wave];
      var ok := Release(claims.value);
      if results.None? || ok.None? { return Torn, wave, at, monitors, stored; }
      var all := (forall i :: 0 <= i < |results.value| ==> results.value[i]) && ok.value;
      clean := clean + [all];
      step := Done(WaveIds(Named(claims.value)), all);
      forall k | all && k in wave ensures !Leased(repository.claims, k) {
        var i :| 0 <= i < |wave| && wave[i] == k;
        assert !Carries(repository.claims, claims.value[i]);
      }
    }

    /**
      However the cycle ends, every wave it claimed went to release, no wave exceeds the
      concurrency, the waves together do not exceed the batch, and no monitor comes twice. A wave
      is as large as both allow unless nothing else was due, and a cycle that ends before the batch is
      full ends with a claim, at `at`, that finds nothing else. The heartbeat is given exactly when every
      check and every release succeeded.
     */
    method RunOnce() returns (ending: Ending, ghost at: Time)
      requires Valid()
      modifies this, repository, ids
      ensures Valid()
      ensures released == waves
      ensures Within(waves, short, concurrency, batchSize)
      ensures ending.Returned? && ending.attempted < batchSize ==>
        NothingElse(repository.monitors, repository.claims, Attempted(waves), at)
      ensures ending.Returned? ==> ending.attempted == Total(waves) && |clean| == |waves| && (ending.heartbeat <==> AllWell(clean))
    {
      waves, released, clean, short := [], [], [], [];
      at := 0.0;
      NoWaves(concurrency, batchSize);
      OneMoreWell([], true);
      hide Within, NothingElse, Attempted, Total, WaveIds, AllWell, Leased;
      var attempted: set<Id> := {};
      var successful := true;
      while |attempted| < batchSize
        invariant Valid() && released == waves && |clean| == |waves|
        invariant attempted == Attempted(waves) && |attempted| == Total(waves) <= batchSize
        invariant Within(waves, short, concurrency, batchSize)
        invariant successful <==> AllWell(clean)
        decreases batchSize - |attempted|
      {
        ghost var before, shortBefore, cleanBefore := waves, short, clean;
        var step;
        ghost var wave;
        var limit := MinNat(concurrency, batchSize - |attempted|);
        ghost var monitors, stored;
        step, wave, at, monitors, stored := RunWave(limit, attempted);
        if step.Nothing? {
          assert NothingElse(repository.monitors, repository.claims, Attempted(waves), at);
          break;
        }
        if step.NotClaimed? { return Raised, at; }
        WithinOneMore(before, shortBefore, concurrency, batchSize, wave, |wave| < limit);
        if step.Torn? { return Raised, at; }
        attempted := attempted + step.ids;
        OneMoreWell(cleanBefore, step.ok);
        successful := successful && step.ok;
      }
      ending := Returned(|attempted|, successful);
    }
  }

  /** The same of a named claim. */
  predicate Leased(stored: map<Id, MonitorClaim>, k: Claimed) {
    k.id in stored && stored[k.id].token == k.token
  }

  /** The claim's token is still on its row. */
  predicate Carries(claims: map<Id, MonitorClaim>, claim: MonitorClaim) {
    claim.monitor.id in claims && claims[claim.monitor.id].token == claim.token
  }

  lemma ClaimIsDistinct(rows: map<Id, P.Row>, claims: seq<MonitorClaim>, exclude: set<Id>, now: Time, limit: nat)
    requires FirstOf(P.Candidates(rows, exclude, now), limit, DuesOf(claims))
    ensures var wave := Named(claims); |wave| <= limit && WaveIds(wave) !! exclude && |WaveIds(wave)| == |wave|
  {
    var dues := DuesOf(claims);
    forall i | 0 <= i < |claims| ensures ChosenOk(rows, exclude, now, dues[i]) {
      assert dues[i] in Elements(dues);
    }
    forall i, j | 0 <= i < j < |claims| ensures claims[i].monitor.id != claims[j].monitor.id {
      assert Before(dues[i], dues[j]);
    }
    CountIds(Named(claims));
    forall k | k in Named(claims) ensures k.id !in exclude {
      var i :| 0 <= i < |claims| && Named(claims)[i] == k;
      assert ChosenOk(rows, exclude, now, dues[i]);
    }
  }

  predicate ChosenOk(rows: map<Id, P.Row>, exclude: set<Id>, now: Time, due: Due) {
    due.id in rows && due.id !in exclude && rows[due.id].monitor.nextCheckAt == due.at
  }
}
