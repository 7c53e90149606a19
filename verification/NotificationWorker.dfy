/**
  One cycle of the notification worker: waves of claims, each processed by a task group and
  then released, until the batch is full or nothing is due. Other workers, users and
  retention change the rows at any moment, and any step may raise.
 */
module NotificationWorker {
  import opened Prelude
  import opened Identifiers
  import opened Selection
  import opened Deliveries
  import opened DeliveryRepository
  import opened Lease
  import opened Waves

  /** Which rows a wave claimed, and under which tokens. */
  function Named(claims: seq<Delivery>): (wave: Wave)
    requires forall d :: d in claims ==> d.leaseToken.Some?
    ensures |wave| == |claims| && forall i :: 0 <= i < |claims| ==> wave[i] == Claimed(claims[i].id, claims[i].leaseToken.value)
  {
    seq(|claims|, i requires 0 <= i < |claims| && claims[i].leaseToken.Some? => Claimed(claims[i].id, claims[i].leaseToken.value))
  }

  lemma NamedIds(claims: seq<Delivery>)
    requires forall d :: d in claims ==> d.leaseToken.Some?
    ensures WaveIds(Named(claims)) == IdsOf(claims)
  {
    forall d | d in claims ensures d.id in WaveIds(Named(claims)) {
      var i :| 0 <= i < |claims| && claims[i] == d;
      assert Named(claims)[i] in Named(claims);
    }
    forall k | k in Named(claims) ensures k.id in IdsOf(claims) {
      var i :| 0 <= i < |claims| && Named(claims)[i] == k;
      assert claims[i] in claims;
    }
  }

  /** What `run_once` did: returned its counts, with or without a heartbeat, or raised. */
  datatype Ending = Returned(fanned: nat, attempted: nat, heartbeat: bool) | Raised

  /** How one pass of the loop went; NotClaimed and Torn stand for exceptions. */
  datatype Step = Nothing | NotClaimed | Torn | Done(ids: set<Id>, ok: bool)

  /** The claim's token is still on its row. */
  predicate Carries(rows: map<Id, Delivery>, claim: Delivery) {
    claim.leaseToken.Some? && claim.id in rows && rows[claim.id].leaseToken == claim.leaseToken
  }

  /** The same of a named claim. */
  predicate Leased(rows: map<Id, Delivery>, k: Claimed) {
    k.id in rows && rows[k.id].leaseToken == Some(k.token)
  }

  class Worker {
    const batchSize: nat
    const concurrency: nat
    const maxAttempts: nat
    const limits: Limits
    const repository: InMemoryDeliveries
    const ids: IdSource

    // this cycle: the waves claimed, those handed to release, and which of them went well
    ghost var waves: seq<Wave>
    ghost var released: seq<Wave>
    ghost var clean: seq<bool>
    // which waves were smaller than the claim's limit
    ghost var short: seq<bool>

    /** Anything else is refused with a ValueError. */
    constructor (batchSize: nat, concurrency: nat, maxAttempts: nat, limits: Limits, repository: InMemoryDeliveries, ids: IdSource)
      requires batchSize >= 1 && concurrency >= 1 && maxAttempts >= 1 && Positive(limits)
      requires repository.Valid() && ids.Valid()
      ensures Valid() && this.repository == repository && this.ids == ids && this.limits == limits
    {
      this.batchSize, this.concurrency, this.maxAttempts, this.limits := batchSize, concurrency, maxAttempts, limits;
      this.repository, this.ids := repository, ids;
    }

    ghost predicate Valid()
      reads this, repository, ids
    {
      && batchSize >= 1 && concurrency >= 1 && maxAttempts >= 1 && Positive(limits)
      && repository.Valid() && ids.Valid()
    }

    /** Whatever else commits on the delivery table. */
    method OthersCommit()
      requires Valid()
      modifies repository
      ensures Valid()
    {
      var rows: map<Id, Delivery> := *;
      repository.deliveries := map d | d in rows && rows[d].id == d :: rows[d];
    }

    /** None when the database timeout fires; else rows that are due at `at`, leased for long enough to send. */
    method Claim(limit: nat, exclude: set<Id>) returns (claims: Option<seq<Delivery>>, ghost at: Time)
      requires Valid() && limit >= 1
      modifies repository, ids
      ensures Valid()
      ensures claims.Some? ==>
        && |claims.value| <= limit && IdsOf(claims.value) !! exclude && |IdsOf(claims.value)| == |claims.value|
        && (forall d :: d in claims.value ==> d.leaseToken.Some?)
        && forall d :: d in claims.value ==> TakenAt(repository.deliveries, d, at)
      ensures claims.Some? && |claims.value| < limit ==> NothingElse(repository.deliveries, exclude + IdsOf(claims.value), at)
    {
      OthersCommit();
      var now: Time, timedOut: bool := *, *;
      at := now;
      if timedOut { return None, at; }
      ghost var before := repository.deliveries;
      ghost var tokens;
      claims, tokens := repository.ClaimPending(limit, maxAttempts, EffectiveLease(limits), exclude, now, ids);
      ClaimIsDistinct(before, repository.deliveries, claims.value, tokens, exclude, maxAttempts, now, limit, now + EffectiveLease(limits));
    }

    /** The row is stored as claimed: due, unprocessed, with attempts left, and leased from `at` on. */
    predicate TakenAt(rows: map<Id, Delivery>, d: Delivery, at: Time)
      reads this
    {
      && d.id in rows && rows[d.id] == d && d.processedAt.None? && d.attempts < maxAttempts && d.nextAttemptAt <= at
      && d.lockedUntil.Some? && LongEnough(limits, d.lockedUntil.value - at)
    }

    /** Every other row is processed, out of attempts, not due or under a lease that has not run out. */
    predicate NothingElse(rows: map<Id, Delivery>, taken: set<Id>, at: Time)
      reads this
    {
      forall d :: d in rows && d !in taken ==>
        || rows[d].processedAt.Some? || rows[d].attempts >= maxAttempts || rows[d].nextAttemptAt > at
        || (rows[d].lockedUntil.Some? && rows[d].lockedUntil.value > at)
    }

    /** The results of the wave's tasks, or None when the task group raises. */
    method Process(claims: seq<Delivery>) returns (results: Option<seq<bool>>)
      requires Valid()
      modifies repository
      ensures Valid() && (results.Some? ==> |results.value| == |claims|)
    {
      OthersCommit();
      var raised: bool := *;
      if raised { return None; }
      var all: seq<bool> := [];
      while |all| < |claims|
        invariant |all| <= |claims|
      {
        var result: bool := *;
        all := all + [result];
      }
      results := Some(all);
    }

    /**
      Some(true): every claim's lease is off its row. Some(false): the transaction failed and
      changed nothing. None: it was cancelled.
     */
    method Release(claims: seq<Delivery>) returns (ok: Option<bool>)
      requires Valid()
      modifies repository
      ensures Valid()
      ensures ok == Some(true) ==> forall d :: d in claims ==> !Carries(repository.deliveries, d)
      ensures ok != Some(true) ==> repository.deliveries == old(repository.deliveries)
    {
      var before := repository.deliveries;
      var i := 0;
      while i < |claims|
        invariant 0 <= i <= |claims| && Valid() && repository.deliveries.Keys == before.Keys
        invariant forall j :: 0 <= j < i ==> !Carries(repository.deliveries, claims[j])
      {
        var failure: Option<bool> := *;
        if failure.Some? {
          repository.deliveries := before;
          return if failure.value then Some(false) else None;
        }
        if claims[i].leaseToken.Some? {
          var done := repository.Release(claims[i].id, claims[i].leaseToken.value);
        }
        i := i + 1;
      }
      ok := Some(true);
    }

    /**
      One pass of the loop: `wave` is what it claimed, at `at`, and handed to release, if anything;
      `table` is what the claim left.
     */
    method RunWave(limit: nat, attempted: set<Id>) returns (step: Step, ghost wave: Wave, ghost at: Time, ghost table: map<Id, Delivery>)
      requires Valid() && limit >= 1
      modifies this`waves, this`released, this`clean, this`short, repository, ids
      ensures Valid()
      ensures step.Nothing? ==> waves == old(waves) && released == old(released) && clean == old(clean) && short == old(short)
      ensures step.Nothing? ==> NothingElse(repository.deliveries, attempted, at)
      ensures step.Done? || step.Torn? ==>
        && short == old(short) + [|wave| < limit] && (forall k :: k in wave ==> Leased(table, k))
        && (|wave| < limit ==> NothingElse(table, attempted + WaveIds(wave), at))
      ensures step.Torn? ==> waves == old(waves) + [wave] && released == old(released) + [wave]
      ensures step.Done? ==>
        && waves == old(waves) + [wave] && released == old(released) + [wave] && clean == old(clean) + [step.ok]
        && step.ids == WaveIds(wave)
      ensures step.Done? || step.Torn? ==>
        0 < |wave| <= limit && WaveIds(wave) !! attempted && |WaveIds(wave)| == |wave|
      ensures step.NotClaimed? ==> waves == old(waves) && released == old(released) && short == old(short)
      ensures step.Done? && step.ok ==> forall k :: k in wave ==> !Leased(repository.deliveries, k)
    {
      wave := [];
      var claims;
      claims, at := Claim(limit, attempted);
      table := repository.deliveries;
      if claims.None? { return NotClaimed, wave, at, table; }
      if claims.value == [] {
        assert attempted + IdsOf(claims.value) == attempted;
        return Nothing, wave, at, table;
      }
      NamedIds(claims.value);
      wave := Named(claims.value);
      forall k | k in wave ensures Leased(table, k) {
        var i :| 0 <= i < |wave| && wave[i] == k;
        assert claims.value[i] in claims.value;
      }
      waves := waves + [wave];
      short := short + [|wave| < limit];
      var results := Process(claims.value);
      released := released + [wave];
      var ok := Release(claims.value);
      if results.None? || ok.None? { return Torn, wave, at, table; }
      var all := (forall i :: 0 <= i < |results.value| ==> results.value[i]) && ok.value;
      clean := clean + [all];
      step := Done(IdsOf(claims.value), all);
      forall k | all && k in wave ensures !Leased(repository.deliveries, k) {
        var i :| 0 <= i < |wave| && wave[i] == k;
        assert !Carries(repository.deliveries, claims.value[i]);
      }
    }

    /**
      However the cycle ends, every wave it claimed went to release, no wave exceeds the
      concurrency, the waves together do not exceed the batch, and no delivery comes twice. A wave
      is as large as both allow unless nothing else was due, and a cycle that ends before the batch is
      full ends with a claim, at `at`, that finds nothing else. The heartbeat is given exactly when every task and
      every release succeeded.
     */
    method RunOnce() returns (ending: Ending, ghost at: Time)
      requires Valid()
      modifies this, repository, ids
      ensures Valid()
      ensures released == waves
      ensures Within(waves, short, concurrency, batchSize)
      ensures ending.Returned? && ending.attempted < batchSize ==> NothingElse(repository.deliveries, Attempted(waves), at)
      ensures ending.Returned? ==> ending.attempted == Total(waves) && |clean| == |waves| && (ending.heartbeat <==> AllWell(clean))
    {
      waves, released, clean, short := [], [], [], [];
      at := 0.0;
      NoWaves(concurrency, batchSize);
      OneMoreWell([], true);
      hide Within, NothingElse, Attempted, Total, WaveIds, AllWell;
      var fanned: nat, failed: bool := *, *;
      if failed { return Raised, at; }
      var attempted: set<Id> := {};
      var successful := true;
      while |attempted| < batchSize
        invariant Valid() && released == waves && |clean| == |waves|
        invariant attempted == Attempted(waves) && |attempted| == Total(waves) <= batchSize
        invariant Within(waves, short, concurrency, batchSize)
        invariant successful <==> AllWell(clean)
        decreases batchSize - |attempted|
      {
        ghost var before, shortBefore, cleanBefore := waves, short, clean;
        var step;
        ghost var wave;
        var limit := MinNat(concurrency, batchSize - |attempted|);
        ghost var table;
        step, wave, at, table := RunWave(limit, attempted);
        if step.Nothing? { break; }
        if step.NotClaimed? { return Raised, at; }
        WithinOneMore(before, shortBefore, concurrency, batchSize, wave, |wave| < limit);
        if step.Torn? { return Raised, at; }
        attempted := attempted + step.ids;
        OneMoreWell(cleanBefore, step.ok);
        successful := step.ok && successful;
      }
      ending := Returned(fanned, |attempted|, successful);
    }
  }

  lemma ClaimIsDistinct(before: map<Id, Delivery>, after: map<Id, Delivery>, claimed: seq<Delivery>, tokens: map<Id, Id>,
                        exclude: set<Id>, maxAttempts: int, now: Time, limit: nat, until: Time)
    requires forall d :: d in before ==> before[d].id == d
    requires IsClaim(before, after, claimed, tokens, Candidates(before, exclude, maxAttempts, now), limit, until)
    ensures |claimed| <= limit && IdsOf(claimed) !! exclude && |IdsOf(claimed)| == |claimed|
    ensures forall d :: d in claimed ==> d.leaseToken.Some?
  {
    var dues := DuesOf(claimed);
    AscendingDistinct(dues);
    forall i | 0 <= i < |claimed| ensures claimed[i].id !in exclude && dues[i] in Candidates(before, exclude, maxAttempts, now) {
      assert dues[i] in Elements(dues);
    }
    forall d | d in claimed ensures d.leaseToken.Some? {
      assert d.id in IdsOf(claimed);
    }
    forall i, j | 0 <= i < j < |claimed| ensures claimed[i].id != claimed[j].id {
      assert Before(dues[i], dues[j]) && dues[i] in Elements(dues) && dues[j] in Elements(dues);
    }
    NamedIds(claimed);
    CountIds(Named(claimed));
  }
}
