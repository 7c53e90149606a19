/**
  The claims of one cycle of a worker or scheduler, wave by wave, and what it means that no
  row is claimed twice in it.
 */
module Waves {
  import opened Prelude

  datatype Claimed = Claimed(id: Id, token: Id)

  type Wave = seq<Claimed>

  function WaveIds(wave: Wave): set<Id> {
    set k | k in wave :: k.id
  }

  function Total(waves: seq<Wave>): nat {
    if waves == [] then 0 else Total(waves[..|waves| - 1]) + |waves[|waves| - 1]|
  }

  function Attempted(waves: seq<Wave>): set<Id> {
    if waves == [] then {} else Attempted(waves[..|waves| - 1]) + WaveIds(waves[|waves| - 1])
  }

  lemma OneMoreWave(waves: seq<Wave>, wave: Wave)
    ensures Total(waves + [wave]) == Total(waves) + |wave|
    ensures Attempted(waves + [wave]) == Attempted(waves) + WaveIds(wave)
  {
    assert (waves + [wave])[..|waves|] == waves;
  }

  /** A wave of new ids, each once, keeps the cycle free of repetitions. */
  lemma FreshWave(waves: seq<Wave>, wave: Wave)
    requires NoneTwice(waves) && WaveIds(wave) !! Attempted(waves) && |WaveIds(wave)| == |wave|
    ensures NoneTwice(waves + [wave]) && Total(waves + [wave]) == Total(waves) + |wave|
    ensures Attempted(waves + [wave]) == Attempted(waves) + WaveIds(wave)
  {
    OneMoreWave(waves, wave);
    assert |Attempted(waves) + WaveIds(wave)| == |Attempted(waves)| + |WaveIds(wave)|;
  }

  /** As many different ids as claims: none was claimed twice. */
  ghost predicate NoneTwice(waves: seq<Wave>) {
    |Attempted(waves)| == Total(waves)
  }

  lemma {:induction false} NoneTwiceMeans(waves: seq<Wave>, v: nat, w: nat, i: nat, j: nat)
    requires NoneTwice(waves) && v < |waves| && w < |waves| && i < |waves[v]| && j < |waves[w]|
    requires waves[v][i].id == waves[w][j].id
    ensures v == w && i == j
    decreases |waves|
  {
    var init, last := waves[..|waves| - 1], waves[|waves| - 1];
    AtMostTotal(init);
    IdsAtMost(last);
    assert |Attempted(init) + WaveIds(last)| == |Attempted(init)| + |WaveIds(last)| - |Attempted(init) * WaveIds(last)|;
    assert Attempted(init) * WaveIds(last) == {};
    forall n | 0 <= n < |last| ensures last[n].id !in Attempted(init) {
      assert last[n] in last && last[n].id in WaveIds(last);
      assert last[n].id !in Attempted(init) * WaveIds(last);
    }
    if v < |init| && w < |init| {
      NoneTwiceMeans(init, v, w, i, j);
    } else if v < |init| {
      InAttempted(init, v, i);
    } else if w < |init| {
      InAttempted(init, w, j);
    } else {
      DistinctIds(last, i, j);
    }
  }

  lemma {:induction false} AtMostTotal(waves: seq<Wave>)
    ensures |Attempted(waves)| <= Total(waves)
  {
    if waves != [] {
      AtMostTotal(waves[..|waves| - 1]);
      IdsAtMost(waves[|waves| - 1]);
    }
  }

  lemma {:induction false} IdsAtMost(wave: Wave)
    ensures |WaveIds(wave)| <= |wave|
  {
    if wave != [] {
      var init := wave[..|wave| - 1];
      IdsAtMost(init);
      assert wave == init + [wave[|wave| - 1]];
      assert WaveIds(wave) == WaveIds(init) + {wave[|wave| - 1].id};
    }
  }

  lemma {:induction false} InAttempted(waves: seq<Wave>, v: nat, i: nat)
    requires v < |waves| && i < |waves[v]|
    ensures waves[v][i].id in Attempted(waves)
  {
    if v < |waves| - 1 {
      InAttempted(waves[..|waves| - 1], v, i);
    } else {
      assert waves[v][i] in waves[v];
    }
  }

  /** A wave with as many ids as claims has no id twice. */
  lemma {:induction false} DistinctIds(wave: Wave, i: nat, j: nat)
    requires |WaveIds(wave)| == |wave| && i < |wave| && j < |wave| && wave[i].id == wave[j].id
    ensures i == j
  {
    if i != j {
      var k := if i < j then j else i;
      var rest := wave[..k] + wave[k + 1..];
      IdsAtMost(rest);
      forall d | d in wave ensures d.id in WaveIds(rest) {
        var n :| 0 <= n < |wave| && wave[n] == d;
        var other := if n != k then n else if i < j then i else j;
        assert wave[other].id == d.id;
        assert wave[other] == rest[if other < k then other else other - 1];
        assert wave[other] in rest;
      }
      SubsetSize(WaveIds(wave), WaveIds(rest));
    }
  }

  lemma {:induction false} CountIds(wave: Wave)
    requires forall i, j :: 0 <= i < j < |wave| ==> wave[i].id != wave[j].id
    ensures |WaveIds(wave)| == |wave|
  {
    if wave != [] {
      var init, last := wave[..|wave| - 1], wave[|wave| - 1];
      CountIds(init);
      assert wave == init + [last];
      assert WaveIds(wave) == WaveIds(init) + {last.id};
      assert last.id !in WaveIds(init);
    }
  }

  predicate AllWell(clean: seq<bool>) {
    false !in clean
  }

  lemma OneMoreWell(clean: seq<bool>, ok: bool)
    ensures AllWell([])
    ensures AllWell(clean + [ok]) <==> AllWell(clean) && ok
  {
  }

  /** A wave that is not empty, no larger than the concurrency and, unless it is short, as large as that and the rest of the batch allow. */
  predicate Fits(wave: Wave, isShort: bool, claimed: nat, concurrency: nat, batchSize: nat) {
    0 < |wave| <= concurrency && claimed + |wave| <= batchSize && (!isShort ==> |wave| == MinNat(concurrency, batchSize - claimed))
  }

  predicate EachFits(waves: seq<Wave>, short: seq<bool>, concurrency: nat, batchSize: nat)
    requires |short| == |waves|
  {
    waves != [] ==>
      var n := |waves| - 1;
      EachFits(waves[..n], short[..n], concurrency, batchSize) && Fits(waves[n], short[n], Total(waves[..n]), concurrency, batchSize)
  }

  /** The waves of a cycle: no id twice, each of the size it should have, together no more than the batch. */
  ghost predicate Within(waves: seq<Wave>, short: seq<bool>, concurrency: nat, batchSize: nat) {
    |short| == |waves| && NoneTwice(waves) && Total(waves) <= batchSize && EachFits(waves, short, concurrency, batchSize)
  }

  lemma NoWaves(concurrency: nat, batchSize: nat)
    ensures Within([], [], concurrency, batchSize) && Attempted([]) == {} && Total([]) == 0
  {
  }

  lemma WithinOneMore(waves: seq<Wave>, short: seq<bool>, concurrency: nat, batchSize: nat, wave: Wave, isShort: bool)
    requires Within(waves, short, concurrency, batchSize) && WaveIds(wave) !! Attempted(waves) && |WaveIds(wave)| == |wave|
    requires Total(waves) < batchSize && 0 < |wave| <= MinNat(concurrency, batchSize - Total(waves))
    requires !isShort ==> |wave| == MinNat(concurrency, batchSize - Total(waves))
    ensures Within(waves + [wave], short + [isShort], concurrency, batchSize)
    ensures Total(waves + [wave]) == Total(waves) + |wave| && Attempted(waves + [wave]) == Attempted(waves) + WaveIds(wave)
    ensures |Attempted(waves + [wave])| == Total(waves + [wave])
  {
    FreshWave(waves, wave);
    EachFitsOneMore(waves, short, concurrency, batchSize, wave, isShort);
    hide Total, Attempted, WaveIds, EachFits, MinNat;
  }

  lemma EachFitsOneMore(waves: seq<Wave>, short: seq<bool>, concurrency: nat, batchSize: nat, wave: Wave, isShort: bool)
    requires |short| == |waves| && EachFits(waves, short, concurrency, batchSize)
    requires Total(waves) < batchSize && 0 < |wave| <= MinNat(concurrency, batchSize - Total(waves))
    requires !isShort ==> |wave| == MinNat(concurrency, batchSize - Total(waves))
    ensures EachFits(waves + [wave], short + [isShort], concurrency, batchSize)
  {
    assert (waves + [wave])[..|waves|] == waves && (short + [isShort])[..|short|] == short;
    hide Total;
  }
}
