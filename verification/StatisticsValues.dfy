/**
  What a statistics answer says about the rows that are left in the check table, row by row:
  the counts, the uptime, the average, the instants and the `is_partial` flag.
 */
module StatisticsValues {
  import opened Prelude
  import opened Statistics
  import opened StatisticsProtocol

  /** The positions of the rows left of m with this result in the window. */
  ghost function Kept(history: seq<Check>, gone: set<nat>, m: Id, w: Range, success: bool): set<nat> {
    set i: nat | 0 <= i < |history| && i !in gone && history[i].monitorId == m && w.from <= history[i].checkedAt < w.to
      && history[i].success == success
  }

  /** The response times of the successful checks left in the window, row by row. */
  ghost function ResponseTimes(history: seq<Check>, gone: set<nat>, m: Id, w: Range): Time {
    if history == [] then 0.0
    else
      var k := |history| - 1;
      ResponseTimes(history[..k], gone, m, w)
      + if k !in gone && history[k].monitorId == m && w.from <= history[k].checkedAt < w.to && history[k].success
        then history[k].responseTime else 0.0
  }

  // ----- one row more

  lemma WindowOfOneMore(history: seq<Check>, gone: set<nat>, m: Id, w: Range)
    requires history != []
    ensures var k := |history| - 1;
      var before := Window(Live(history[..k], gone), m, w);
      Window(Live(history, gone), m, w) == if k !in gone && Counts(history[k], m, w) then before + [history[k]] else before
  {
    var k := |history| - 1;
    if k in gone {
      assert Live(history, gone) == Live(history[..k], gone);
    } else {
      assert Live(history, gone)[..|Live(history, gone)| - 1] == Live(history[..k], gone);
    }
  }

  lemma KeptOfOneMore(history: seq<Check>, gone: set<nat>, m: Id, w: Range, success: bool)
    requires history != []
    ensures var k := |history| - 1;
      var before, after := Kept(history[..k], gone, m, w, success), Kept(history, gone, m, w, success);
      var kept := k !in gone && Counts(history[k], m, w) && history[k].success == success;
      k !in before && after == before + (if kept then {k} else {}) && |after| == |before| + (if kept then 1 else 0)
  {
    var k := |history| - 1;
    assert forall i :: 0 <= i < k ==> history[..k][i] == history[i];
    var before, after := Kept(history[..k], gone, m, w, success), Kept(history, gone, m, w, success);
    assert after == before + if k in after then {k} else {};
  }

  lemma SumsOfOneMore(rows: seq<Check>, row: Check)
    ensures Successes(rows + [row]) == Successes(rows) + if row.success then 1 else 0
    ensures SuccessTime(rows + [row]) == SuccessTime(rows) + if row.success then row.responseTime else 0.0
  {
    assert (rows + [row])[..|rows + [row]| - 1] == rows;
  }

  lemma {:induction false} WindowSums(history: seq<Check>, gone: set<nat>, m: Id, w: Range)
    ensures var window := Window(Live(history, gone), m, w);
      && |window| == |Kept(history, gone, m, w, true)| + |Kept(history, gone, m, w, false)|
      && Successes(window) == |Kept(history, gone, m, w, true)|
      && SuccessTime(window) == ResponseTimes(history, gone, m, w)
  {
    if history != [] {
      var k := |history| - 1;
      WindowSums(history[..k], gone, m, w);
      WindowOfOneMore(history, gone, m, w);
      KeptOfOneMore(history, gone, m, w, true);
      KeptOfOneMore(history, gone, m, w, false);
      SumsOfOneMore(Window(Live(history[..k], gone), m, w), history[k]);
      hide Window, Live, Kept, Successes, SuccessTime;
    }
  }

  lemma {:induction false} WindowRows(history: seq<Check>, gone: set<nat>, m: Id, w: Range, row: Check)
    ensures row in Window(Live(history, gone), m, w) <==> exists i :: i in Kept(history, gone, m, w, row.success) && history[i] == row
  {
    if history != [] {
      var k := |history| - 1;
      var init := history[..k];
      WindowRows(init, gone, m, w, row);
      WindowOfOneMore(history, gone, m, w);
      KeptOfOneMore(history, gone, m, w, row.success);
      hide Window, Live;
      forall i | i in Kept(init, gone, m, w, row.success) && init[i] == row
        ensures i in Kept(history, gone, m, w, row.success) && history[i] == row {}
      forall i | i in Kept(history, gone, m, w, row.success) && history[i] == row
        ensures i == k || (i in Kept(init, gone, m, w, row.success) && init[i] == row) {}
      if k !in gone && Counts(history[k], m, w) && history[k] == row { assert k in Kept(history, gone, m, w, row.success); }
    }
  }

  // ----- the counts and what is computed from them

  /** `successful` and `failed` count the rows left of the window with that result. */
  lemma AnswerCounts(c: Config, s: State, m: Id, w: Range, asked: Time)
    requires m in s.created
    ensures var a := Ask(c, s, m, w, asked).aggregates;
      && a.successful == |Kept(s.history, s.gone, m, w, true)|
      && a.failed == |Kept(s.history, s.gone, m, w, false)|
      && a.total == a.successful + a.failed
  {
    WindowSums(s.history, s.gone, m, w);
    hide Window, Live, Kept;
  }

  lemma Percentage(n: nat, total: nat)
    requires n <= total && total > 0
    ensures var p := n as real / total as real * 100.0;
      && p * total as real == 100.0 * n as real && 0.0 <= p <= 100.0 && (p == 100.0 <==> n == total) && (p == 0.0 <==> n == 0)
  {
    var q := n as real / total as real;
    assert q * total as real == n as real;
    if n == total { assert q == 1.0; }
    if q == 1.0 { assert n as real == total as real; }
    assert 0.0 <= q;
    assert q <= 1.0;
  }

  /** The share of successes in percent: 100 only without a failure, 0 only without a success. */
  predicate IsShare(uptime: Option<real>, good: nat, bad: nat) {
    && (uptime.None? <==> good == 0 && bad == 0)
    && (uptime.Some? ==>
          && uptime.value * (good + bad) as real == 100.0 * good as real && 0.0 <= uptime.value <= 100.0
          && (uptime.value == 100.0 <==> bad == 0) && (uptime.value == 0.0 <==> good == 0))
  }

  lemma UptimeOf(window: seq<Check>, good: nat, bad: nat)
    requires |window| == good + bad && Successes(window) == good
    ensures IsShare(AggregatesOf(window).uptimePercentage, good, bad)
  {
    if good + bad > 0 { Percentage(good, good + bad); }
    hide Successes, SuccessTime, Earliest, Latest;
  }

  /** The uptime is the share of successes among the rows left of the window. */
  lemma UptimeIs(c: Config, s: State, m: Id, w: Range, asked: Time)
    requires m in s.created
    ensures var good, bad := Kept(s.history, s.gone, m, w, true), Kept(s.history, s.gone, m, w, false);
      IsShare(Ask(c, s, m, w, asked).aggregates.uptimePercentage, |good|, |bad|)
  {
    hide Window, Live, Kept, AggregatesOf, OldestOf, IsShare;
    WindowSums(s.history, s.gone, m, w);
    UptimeOf(Window(Live(s.history, s.gone), m, w), |Kept(s.history, s.gone, m, w, true)|, |Kept(s.history, s.gone, m, w, false)|);
  }

  lemma OneMoreTime(time: Time, n: nat)
    ensures time * (n + 1) as real == time * n as real + time
  {
  }

  /** A sum of n values between these bounds. */
  predicate Between(sum: Time, n: nat, least: Time, greatest: Time) {
    least * n as real <= sum <= greatest * n as real
  }

  lemma BetweenOneMore(sum: Time, n: nat, least: Time, greatest: Time, time: Time)
    requires Between(sum, n, least, greatest) && least <= time <= greatest
    ensures Between(sum + time, n + 1, least, greatest)
  {
    OneMoreTime(least, n);
    OneMoreTime(greatest, n);
  }

  lemma {:induction false} SumBetween(rows: seq<Check>, least: Time, greatest: Time)
    requires forall i :: 0 <= i < |rows| && rows[i].success ==> least <= rows[i].responseTime <= greatest
    ensures Between(SuccessTime(rows), Successes(rows), least, greatest)
  {
    if rows != [] {
      hide Between;
      var init, last := rows[..|rows| - 1], rows[|rows| - 1];
      SumBetween(init, least, greatest);
      if last.success { BetweenOneMore(SuccessTime(init), Successes(init), least, greatest, last.responseTime); }
    }
  }

  lemma Times(sum: Time, n: nat)
    requires n > 0
    ensures sum / n as real * n as real == sum
  {
  }

  lemma Quotient(sum: Time, n: nat, least: Time, greatest: Time)
    requires n > 0 && Between(sum, n, least, greatest)
    ensures least <= sum / n as real <= greatest
  {
    var q := sum / n as real;
    Times(sum, n);
    if q < least { Less(q, least, n); }
    if greatest < q { Less(greatest, q, n); }
  }

  lemma Less(a: Time, b: Time, n: nat)
    requires a < b && n > 0
    ensures a * n as real < b * n as real
  {
  }

  /** The average of n response times with this sum. */
  predicate IsAverage(average: Option<Time>, n: nat, sum: Time) {
    (average.None? <==> n == 0) && (average.Some? ==> average.value * n as real == sum)
  }

  lemma AverageOf(window: seq<Check>)
    ensures IsAverage(AggregatesOf(window).averageResponseTime, Successes(window), SuccessTime(window))
  {
    if Successes(window) > 0 { Times(SuccessTime(window), Successes(window)); }
    hide Successes, SuccessTime, Earliest, Latest;
  }

  lemma AverageBetween(window: seq<Check>, least: Time, greatest: Time)
    requires Successes(window) > 0
    requires forall i :: 0 <= i < |window| && window[i].success ==> least <= window[i].responseTime <= greatest
    ensures AggregatesOf(window).averageResponseTime.Some? && least <= AggregatesOf(window).averageResponseTime.value <= greatest
  {
    hide Successes, SuccessTime, AggregatesOf, Between;
    SumBetween(window, least, greatest);
    Quotient(SuccessTime(window), Successes(window), least, greatest);
    QuotientIsAverage(window);
  }

  lemma QuotientIsAverage(window: seq<Check>)
    requires Successes(window) > 0
    ensures AggregatesOf(window).averageResponseTime == Some(SuccessTime(window) / Successes(window) as real)
  {
    hide Successes, SuccessTime, Earliest, Latest;
  }

  /** The average is that of the successful checks left of the window, and there is none without one. */
  lemma AverageIs(c: Config, s: State, m: Id, w: Range, asked: Time)
    requires m in s.created
    ensures IsAverage(Ask(c, s, m, w, asked).aggregates.averageResponseTime, |Kept(s.history, s.gone, m, w, true)|,
                      ResponseTimes(s.history, s.gone, m, w))
  {
    hide Window, Live, Kept, AggregatesOf, OldestOf, IsAverage;
    WindowSums(s.history, s.gone, m, w);
    AverageOf(Window(Live(s.history, s.gone), m, w));
  }

  /** It lies between any bounds of their response times. */
  lemma AverageIsBetween(c: Config, s: State, m: Id, w: Range, asked: Time, least: Time, greatest: Time)
    requires m in s.created && Kept(s.history, s.gone, m, w, true) != {}
    requires forall i :: i in Kept(s.history, s.gone, m, w, true) ==> least <= s.history[i].responseTime <= greatest
    ensures var average := Ask(c, s, m, w, asked).aggregates.averageResponseTime;
      average.Some? && least <= average.value <= greatest
  {
    var window := Window(Live(s.history, s.gone), m, w);
    WindowSums(s.history, s.gone, m, w);
    hide Window, Live, AggregatesOf, OldestOf;
    forall i | 0 <= i < |window| && window[i].success ensures least <= window[i].responseTime <= greatest {
      WindowRows(s.history, s.gone, m, w, window[i]);
    }
    hide Kept;
    AverageBetween(window, least, greatest);
  }

  /** Joining two tables adds up the sums behind the averages; a failed check adds nothing. */
  function Total(a: Aggregates): Time {
    if a.averageResponseTime.Some? then a.averageResponseTime.value * a.successful as real else 0.0
  }

  lemma {:induction false} SumsJoin(a: seq<Check>, b: seq<Check>)
    ensures Successes(a + b) == Successes(a) + Successes(b) && SuccessTime(a + b) == SuccessTime(a) + SuccessTime(b)
  {
    if b == [] {
      assert a + b == a;
    } else {
      SumsJoin(a, b[..|b| - 1]);
      assert (a + b)[..|a + b| - 1] == a + b[..|b| - 1];
    }
  }

  lemma SuccessfulIs(rows: seq<Check>)
    ensures AggregatesOf(rows).successful == Successes(rows)
  {
  }

  lemma TotalIsTheSum(rows: seq<Check>)
    ensures Total(AggregatesOf(rows)) == SuccessTime(rows)
  {
    hide Successes, SuccessTime, AggregatesOf;
    NoSuccessNoTime(rows);
    SuccessfulIs(rows);
    AverageOf(rows);
  }

  lemma {:induction false} NoSuccessNoTime(rows: seq<Check>)
    ensures Successes(rows) == 0 ==> SuccessTime(rows) == 0.0
  {
    if rows != [] { NoSuccessNoTime(rows[..|rows| - 1]); }
  }

  /** The aggregates of joined windows add up, row by row. */
  lemma AggregatesJoin(a: seq<Check>, b: seq<Check>, row: Check)
    ensures var x, y, z := AggregatesOf(a), AggregatesOf(b), AggregatesOf(a + b);
      && z.total == x.total + y.total && z.successful == x.successful + y.successful && z.failed == x.failed + y.failed
      && Total(z) == Total(x) + Total(y)
    ensures var one := AggregatesOf([row]);
      && one.total == 1 && one.successful == (if row.success then 1 else 0) && one.failed == (if row.success then 0 else 1)
      && Total(one) == if row.success then row.responseTime else 0.0
  {
    SumsJoin(a, b);
    TotalIsTheSum(a);
    TotalIsTheSum(b);
    TotalIsTheSum(a + b);
    TotalIsTheSum([row]);
    assert [row][..0] == [];
    SumsOfOneMore([], row);
    assert [] + [row] == [row];
    hide Total, Earliest, Latest;
  }

  // ----- instants and the partial flag

  /** The positions of the rows left of m, of any time. */
  ghost function Remaining(history: seq<Check>, gone: set<nat>, m: Id): set<nat> {
    set i: nat | 0 <= i < |history| && i !in gone && history[i].monitorId == m
  }

  /** t is the earliest instant of the rows at these positions. */
  ghost predicate IsOldest(history: seq<Check>, at: set<nat>, t: Option<Time>)
    requires forall i :: i in at ==> i < |history|
  {
    && (t.None? <==> at == {})
    && (t.Some? ==> (exists i :: i in at && history[i].checkedAt == t.value) && forall i :: i in at ==> t.value <= history[i].checkedAt)
  }

  lemma {:induction false} OldestIs(history: seq<Check>, gone: set<nat>, m: Id)
    ensures IsOldest(history, Remaining(history, gone, m), OldestOf(Live(history, gone), m))
  {
    if history != [] {
      var k := |history| - 1;
      var init := history[..k];
      OldestIs(init, gone, m);
      var kept := k !in gone && history[k].monitorId == m;
      assert Remaining(history, gone, m) == Remaining(init, gone, m) + if kept then {k} else {};
      assert OldestOf(Live(history, gone), m) == OldestOneMore(OldestOf(Live(init, gone), m), kept, history[k].checkedAt) by {
        if k in gone {
          assert Live(history, gone) == Live(init, gone);
        } else {
          assert Live(history, gone)[..|Live(history, gone)| - 1] == Live(init, gone);
        }
      }
      hide Live, OldestOf;
      OldestExtends(init, history, Remaining(init, gone, m), OldestOf(Live(init, gone), m), kept);
    }
  }

  function OldestOneMore(before: Option<Time>, kept: bool, last: Time): Option<Time> {
    if !kept then before else Some(if before.Some? then MinTime(before.value, last) else last)
  }

  lemma OldestExtends(init: seq<Check>, history: seq<Check>, at: set<nat>, before: Option<Time>, kept: bool)
    requires |history| == |init| + 1 && init == history[..|init|] && (forall i :: i in at ==> i < |init|) && IsOldest(init, at, before)
    ensures IsOldest(history, at + if kept then {|init|} else {}, OldestOneMore(before, kept, history[|init|].checkedAt))
  {
    var k := |init|;
    assert forall i :: i in at ==> init[i] == history[i];
    if before.Some? {
      var i :| i in at && init[i].checkedAt == before.value;
      assert history[i].checkedAt == before.value;
    }
    if kept { assert k in at + {k}; }
  }

  /** `history_available_from` is the oldest check left of the monitor, in whatever window. */
  lemma AvailableFromIs(c: Config, s: State, m: Id, w: Range, asked: Time)
    requires m in s.created
    ensures IsOldest(s.history, Remaining(s.history, s.gone, m), Ask(c, s, m, w, asked).availableFrom)
  {
    OldestIs(s.history, s.gone, m);
    hide IsOldest, Remaining, Live, OldestOf;
  }

  /** First and last are the ends of the rows left in the window. */
  lemma EndsAre(c: Config, s: State, m: Id, w: Range, asked: Time, success: bool, i: nat)
    requires m in s.created
    ensures var a := Ask(c, s, m, w, asked).aggregates;
      && (a.first.None? <==> a.total == 0) && (a.last.None? <==> a.total == 0)
      && (i in Kept(s.history, s.gone, m, w, success) ==>
            a.first.Some? && a.last.Some? && a.first.value <= s.history[i].checkedAt <= a.last.value)
      && (a.first.Some? ==> exists k, b :: k in Kept(s.history, s.gone, m, w, b) && s.history[k].checkedAt == a.first.value)
      && (a.last.Some? ==> exists k, b :: k in Kept(s.history, s.gone, m, w, b) && s.history[k].checkedAt == a.last.value)
  {
    var window := Window(Live(s.history, s.gone), m, w);
    if i in Kept(s.history, s.gone, m, w, success) {
      WindowRows(s.history, s.gone, m, w, s.history[i]);
      assert s.history[i] in window;
    }
    if window != [] {
      var j :| 0 <= j < |window| && window[j].checkedAt == Earliest(window).value;
      WindowRows(s.history, s.gone, m, w, window[j]);
      var l :| 0 <= l < |window| && window[l].checkedAt == Latest(window).value;
      WindowRows(s.history, s.gone, m, w, window[l]);
    }
    hide Window, Live, Kept, Successes, SuccessTime;
  }

  /**
    An answer is partial if and only if the window holds no row, starts before the monitor was created,
    before every row left of it or before the retention limit, or ends after the request.
   */
  lemma PartialIff(c: Config, s: State, m: Id, w: Range, asked: Time)
    requires m in s.created
    ensures Ask(c, s, m, w, asked).isPartial <==>
      || (Kept(s.history, s.gone, m, w, true) == {} && Kept(s.history, s.gone, m, w, false) == {})
      || w.from < s.created[m]
      || (forall i :: i in Remaining(s.history, s.gone, m) ==> w.from < s.history[i].checkedAt)
      || w.to > asked
      || (c.retentionDays.Some? && w.from < asked - c.retentionDays.value as real * 86400.0)
  {
    AnswerCounts(c, s, m, w, asked);
    AvailableFromIs(c, s, m, w, asked);
    hide Window, Live, Kept, OldestOf, Successes, SuccessTime, Earliest, Latest;
    if Ask(c, s, m, w, asked).availableFrom.None? { assert Remaining(s.history, s.gone, m) == {}; }
  }

  /** In every run, an answer over a window that no pass has reached counts every check ever committed there. */
  lemma SparedCountsAll(c: Config, run: seq<State>, k: nat, m: Id, w: Range, asked: Time)
    requires Run(c, run) && k < |run| && m in run[k].created && Spared(c, run[k], w)
    ensures var a := Ask(c, run[k], m, w, asked).aggregates;
      a.successful == |Kept(run[k].history, {}, m, w, true)| && a.failed == |Kept(run[k].history, {}, m, w, false)|
  {
    RunHolds(c, run, k);
    var s := run[k];
    SparedIsWhole(c, s, m, w);
    AnswerCounts(c, s, m, w, asked);
    assert forall b :: Kept(s.history, {}, m, w, b) == Kept(s.history, s.gone, m, w, b);
  }

  /** The window of a request: both ends as given, or a period of whole days that ends now. */
  lemma WindowIs(period: Option<Period>, startsAt: Option<Time>, endsAt: Option<Time>, now: Time)
    ensures var w := Resolve(period, startsAt, endsAt, now);
      && (startsAt.Some? && endsAt.Some? ==> w.from == startsAt.value && w.to == endsAt.value)
      && (startsAt.None? || endsAt.None? ==>
            && w.to == now
            && now - w.from == if period.None? || period.value.Hours24? then 86400.0 else if period.value.Days7? then 604800.0 else 2592000.0)
  {
  }
}
