/** Matching a fine series of candles to the coarse one it refines. */
module ExecutionSchedule {
  import opened Basics

  datatype Candle = Candle(start: int, open: real, high: real, low: real, close: real)

  datatype Bucket = Bucket(primary: Candle, execution: seq<Candle>)

  datatype Schedule = Schedule(ratio: int, buckets: seq<Bucket>)

  function Abs(x: real): real {
    if x < 0.0 then -x else x
  }

  predicate CloseEnough(a: real, b: real) {
    Abs(a - b) <= Max(1.0, Max(Abs(a), Abs(b))) * EPSILON * 64.0
  }

  predicate Uniform(candles: seq<Candle>, interval: int) {
    forall i :: 0 < i < |candles| ==> candles[i].start == candles[i - 1].start + interval
  }

  function UniformInterval(candles: seq<Candle>): (r: Option<int>)
    ensures r.Some? <==> |candles| >= 2 && 0 < candles[1].start - candles[0].start <= MAX_SAFE
                         && Uniform(candles, candles[1].start - candles[0].start)
  {
    if |candles| < 2 then None
    else
      var interval := candles[1].start - candles[0].start;
      if 0 < interval <= MAX_SAFE && Uniform(candles, interval) then Some(interval) else None
  }

  function Highest(candles: seq<Candle>): (h: real)
    requires candles != []
    ensures (forall i :: 0 <= i < |candles| ==> candles[i].high <= h) && exists i :: 0 <= i < |candles| && candles[i].high == h
  {
    if |candles| == 1 then candles[0].high
    else
      var rest := Highest(candles[..|candles| - 1]);
      assert forall i :: 0 <= i < |candles| - 1 ==> candles[..|candles| - 1][i] == candles[i];
      Max(rest, candles[|candles| - 1].high)
  }

  function Lowest(candles: seq<Candle>): (l: real)
    requires candles != []
    ensures (forall i :: 0 <= i < |candles| ==> l <= candles[i].low) && exists i :: 0 <= i < |candles| && candles[i].low == l
  {
    if |candles| == 1 then candles[0].low
    else
      var rest := Lowest(candles[..|candles| - 1]);
      assert forall i :: 0 <= i < |candles| - 1 ==> candles[..|candles| - 1][i] == candles[i];
      Min(rest, candles[|candles| - 1].low)
  }

  predicate Aggregates(primary: Candle, execution: seq<Candle>) {
    && execution != []
    && CloseEnough(primary.open, execution[0].open) && CloseEnough(primary.close, execution[|execution| - 1].close)
    && CloseEnough(primary.high, Highest(execution)) && CloseEnough(primary.low, Lowest(execution))
  }

  /** What a schedule promises: the fine series cut into consecutive runs of `ratio`, run i starting with
      coarse candle i, lying inside its interval, and aggregating to it. */
  ghost predicate Partitions(s: Schedule, primary: seq<Candle>, execution: seq<Candle>) {
    && s.ratio > 0 && |s.buckets| == |primary| >= 2
    && Joined(s.buckets) == execution
    && forall i :: 0 <= i < |s.buckets| ==>
         && s.buckets[i].primary == primary[i] && |s.buckets[i].execution| == s.ratio
         && s.buckets[i].execution[0].start == primary[i].start && Aggregates(primary[i], s.buckets[i].execution)
         && Inside(s.buckets[i].execution, primary[i].start, primary[1].start - primary[0].start)
  }

  /** Every candle of a run starts in the half-open interval of its coarse candle. */
  ghost predicate Inside(run: seq<Candle>, start: int, interval: int) {
    forall k :: 0 <= k < |run| ==> start <= run[k].start < start + interval
  }

  function Joined(buckets: seq<Bucket>): seq<Candle> {
    if buckets == [] then [] else Joined(buckets[..|buckets| - 1]) + buckets[|buckets| - 1].execution
  }

  function OneToOne(primary: seq<Candle>): (r: Schedule)
    ensures r.ratio == 1 && |r.buckets| == |primary|
    ensures forall i :: 0 <= i < |primary| ==> r.buckets[i] == Bucket(primary[i], [primary[i]])
  {
    Schedule(1, seq(|primary|, i requires 0 <= i < |primary| => Bucket(primary[i], [primary[i]])))
  }

  /** The checks made before any bucket is cut. */
  function Refusal(primary: seq<Candle>, execution: seq<Candle>): Option<string> {
    if |primary| < 2 then Some("INSUFFICIENT_PRIMARY_CANDLES")
    else if |execution| < 2 then Some("INSUFFICIENT_EXECUTION_CANDLES")
    else if UniformInterval(primary).None? then Some("NON_UNIFORM_PRIMARY_INTERVAL")
    else
      var coarse, fine := UniformInterval(primary).value, execution[1].start - execution[0].start;
      if !(0 < fine <= MAX_SAFE) then Some("NON_UNIFORM_EXECUTION_INTERVAL")
      else if fine >= coarse || coarse % fine != 0 then Some("INVALID_EXECUTION_RATIO")
      else if |execution| != |primary| * (coarse / fine) || execution[0].start != primary[0].start then Some("MISALIGNED_EXECUTION_RANGE")
      else if UniformInterval(execution) != Some(fine) then Some("NON_UNIFORM_EXECUTION_INTERVAL")
      else None
  }

  lemma Times(i: int, n: int, d: int)
    requires 0 <= i <= n && d >= 0
    ensures 0 <= i * d <= n * d
    ensures i < n ==> i * d + d <= n * d
  {
    Product(i, d);
    Product(n - i, d);
    assert n * d == i * d + (n - i) * d;
    if i < n {
      Product(n - i - 1, d);
      assert (n - i) * d == (n - i - 1) * d + d;
    }
  }

  lemma Product(a: int, b: int)
    requires a >= 0 && b >= 0
    ensures a * b >= 0
  {
  }

  lemma PositiveFactor(a: int, b: int)
    requires a * b > 0 && b > 0
    ensures a > 0
  {
    if a <= 0 {
      Product(-a, b);
    }
  }

  lemma {:induction false} UniformStarts(candles: seq<Candle>, interval: int, k: nat)
    requires Uniform(candles, interval) && k < |candles|
    ensures candles[k].start == candles[0].start + k * interval
  {
    if k > 0 {
      UniformStarts(candles, interval, k - 1);
    }
  }

  /** Once the checks pass, run i starts with coarse candle i: the misalignment checks inside the loop are dead. */
  lemma RunsAlign(primary: seq<Candle>, execution: seq<Candle>, ratio: int, i: nat)
    requires Refusal(primary, execution).None? && i < |primary|
    requires ratio == UniformInterval(primary).value / (execution[1].start - execution[0].start)
    ensures ratio > 0 && 0 <= i * ratio && i * ratio + ratio <= |execution|
    ensures execution[i * ratio].start == primary[i].start
  {
    hide Uniform;
    var coarse, fine := UniformInterval(primary).value, execution[1].start - execution[0].start;
    assert coarse == ratio * fine;
    PositiveFactor(ratio, fine);
    Times(i, |primary|, ratio);
    UniformStarts(primary, coarse, i);
    UniformStarts(execution, fine, i * ratio);
    assert i * ratio * fine == i * (ratio * fine);
  }

  /** Candle k of run i starts k fine intervals into coarse candle i. */
  lemma RunCandleStart(primary: seq<Candle>, execution: seq<Candle>, ratio: int, fine: int, i: nat, k: nat)
    requires i < |primary| && k < ratio && fine > 0 && 0 <= i * ratio && i * ratio + k < |execution|
    requires Uniform(primary, ratio * fine) && Uniform(execution, fine) && execution[0].start == primary[0].start
    ensures primary[i].start <= execution[i * ratio + k].start < primary[i].start + ratio * fine
  {
    hide Uniform;
    UniformStarts(primary, ratio * fine, i);
    UniformStarts(execution, fine, i * ratio + k);
    Distributes(i, ratio, k, fine);
    Times(k, ratio, fine);
  }

  lemma Distributes(i: int, ratio: int, k: int, fine: int)
    ensures (i * ratio + k) * fine == i * (ratio * fine) + k * fine
  {
    assert i * ratio * fine == i * (ratio * fine);
  }

  lemma RunsStayInside(primary: seq<Candle>, execution: seq<Candle>, ratio: int, i: nat)
    requires Refusal(primary, execution).None? && i < |primary|
    requires ratio == UniformInterval(primary).value / (execution[1].start - execution[0].start)
    requires 0 <= i * ratio <= i * ratio + ratio <= |execution|
    ensures Inside(execution[i * ratio..i * ratio + ratio], primary[i].start, primary[1].start - primary[0].start)
  {
    hide Uniform;
    var coarse, fine := UniformInterval(primary).value, execution[1].start - execution[0].start;
    var run := execution[i * ratio..i * ratio + ratio];
    assert coarse == ratio * fine;
    forall k | 0 <= k < |run|
      ensures primary[i].start <= run[k].start < primary[i].start + coarse
    {
      RunCandleStart(primary, execution, ratio, fine, i, k);
    }
  }

  /** The first n runs, cut and checked. */
  ghost predicate Cut(buckets: seq<Bucket>, primary: seq<Candle>, execution: seq<Candle>, ratio: int, n: nat)
    requires n <= |primary|
  {
    && |primary| >= 2
    && |buckets| == n && 0 <= n * ratio <= |execution| && Joined(buckets) == execution[..n * ratio]
    && forall k :: 0 <= k < n ==>
         && buckets[k].primary == primary[k] && |buckets[k].execution| == ratio > 0
         && buckets[k].execution[0].start == primary[k].start && Aggregates(primary[k], buckets[k].execution)
         && Inside(buckets[k].execution, primary[k].start, primary[1].start - primary[0].start)
         && AggregatesRun(primary[k], execution, k, ratio)
  }

  lemma CutMore(buckets: seq<Bucket>, primary: seq<Candle>, execution: seq<Candle>, ratio: int, n: nat)
    requires n < |primary| && Cut(buckets, primary, execution, ratio, n) && ratio > 0
    requires 0 <= n * ratio && n * ratio + ratio <= |execution| && execution[n * ratio].start == primary[n].start
    requires Aggregates(primary[n], execution[n * ratio..n * ratio + ratio])
    requires Inside(execution[n * ratio..n * ratio + ratio], primary[n].start, primary[1].start - primary[0].start)
    ensures Cut(buckets + [Bucket(primary[n], execution[n * ratio..n * ratio + ratio])], primary, execution, ratio, n + 1)
  {
    hide Aggregates;
    hide Inside;
    var run := execution[n * ratio..n * ratio + ratio];
    var more := buckets + [Bucket(primary[n], run)];
    assert (n + 1) * ratio == n * ratio + ratio;
    assert execution[..n * ratio] + run == execution[..n * ratio + ratio];
    assert more[..n] == buckets;
  }

  /** The schedule exists exactly when the checks pass and every run aggregates to its coarse candle; then
      it partitions the fine series. */
  method CreateExecutionSchedule(primary: seq<Candle>, execution: Option<seq<Candle>>) returns (r: Result<Schedule>)
    ensures primary == [] <==> r == Fail("EMPTY_PRIMARY_SERIES")
    ensures primary != [] && execution.None? ==> r == Ok(OneToOne(primary))
    ensures primary != [] && execution.Some? && Refusal(primary, execution.value).Some? ==> r == Fail(Refusal(primary, execution.value).value)
    ensures primary != [] && execution.Some? && Refusal(primary, execution.value).None? ==>
              && (r.Ok? <==> AllAggregate(primary, execution.value))
              && (if r.Ok? then Partitions(r.value, primary, execution.value) else r == Fail("EXECUTION_AGGREGATION_MISMATCH"))
  {
    hide Refusal;
    hide Partitions;
    hide AllAggregate;
    if primary == [] {
      return Fail("EMPTY_PRIMARY_SERIES");
    }
    if execution.None? {
      return Ok(OneToOne(primary));
    }
    var refusal := Refusal(primary, execution.value);
    if refusal.Some? {
      NoEmptyRefusal(primary, execution.value);
      return Fail(refusal.value);
    }
    r := CutRuns(primary, execution.value);
  }

  method CutRuns(primary: seq<Candle>, fine: seq<Candle>) returns (r: Result<Schedule>)
    requires Refusal(primary, fine).None?
    ensures r.Ok? <==> AllAggregate(primary, fine)
    ensures if r.Ok? then Partitions(r.value, primary, fine) else r == Fail("EXECUTION_AGGREGATION_MISMATCH")
  {
    hide Aggregates;
    hide Refusal;
    hide UniformInterval;
    hide Cut;
    hide AllAggregate;
    hide AggregatesRun;
    hide Partitions;
    hide Inside;
    WhenNotRefused(primary, fine);
    var ratio := Ratio(primary, fine);
    var buckets: seq<Bucket> := [];
    NothingCut(primary, fine, ratio);
    for i := 0 to |primary|
      invariant Cut(buckets, primary, fine, ratio, i)
    {
      RunsAlign(primary, fine, ratio, i);
      RunsStayInside(primary, fine, ratio, i);
      var run := fine[i * ratio..i * ratio + ratio];
      if !Aggregates(primary[i], run) {
        OneFails(primary, fine, i);
        return Fail("EXECUTION_AGGREGATION_MISMATCH");
      }
      CutMore(buckets, primary, fine, ratio, i);
      buckets := buckets + [Bucket(primary[i], run)];
    }
    AllCut(buckets, primary, fine);
    return Ok(Schedule(ratio, buckets));
  }

  function Ratio(primary: seq<Candle>, execution: seq<Candle>): int
    requires |execution| >= 2 && UniformInterval(primary).Some? && execution[1].start > execution[0].start
  {
    UniformInterval(primary).value / (execution[1].start - execution[0].start)
  }

  ghost predicate AllAggregate(primary: seq<Candle>, execution: seq<Candle>)
    requires Refusal(primary, execution).None?
  {
    forall i :: 0 <= i < |primary| ==> AggregatesRun(primary[i], execution, i, Ratio(primary, execution))
  }

  lemma NothingCut(primary: seq<Candle>, execution: seq<Candle>, ratio: int)
    requires |primary| >= 2
    ensures Cut([], primary, execution, ratio, 0)
  {
  }

  lemma OneFails(primary: seq<Candle>, execution: seq<Candle>, i: nat)
    requires Refusal(primary, execution).None? && i < |primary|
    requires var ratio := Ratio(primary, execution);
             0 <= i * ratio <= i * ratio + ratio <= |execution| && !Aggregates(primary[i], execution[i * ratio..i * ratio + ratio])
    ensures !AllAggregate(primary, execution)
  {
    hide Aggregates;
    assert !AggregatesRun(primary[i], execution, i, Ratio(primary, execution));
  }

  lemma AllCut(buckets: seq<Bucket>, primary: seq<Candle>, execution: seq<Candle>)
    requires Refusal(primary, execution).None?
    requires Cut(buckets, primary, execution, Ratio(primary, execution), |primary|)
    ensures AllAggregate(primary, execution)
    ensures Partitions(Schedule(Ratio(primary, execution), buckets), primary, execution)
  {
    hide Aggregates;
    WhenNotRefused(primary, execution);
    RunsAlign(primary, execution, Ratio(primary, execution), 0);
    assert execution[..|primary| * Ratio(primary, execution)] == execution;
  }

  predicate AggregatesRun(primary: Candle, execution: seq<Candle>, i: nat, ratio: int) {
    0 <= i * ratio <= i * ratio + ratio <= |execution| && Aggregates(primary, execution[i * ratio..i * ratio + ratio])
  }

  lemma NoEmptyRefusal(primary: seq<Candle>, execution: seq<Candle>)
    ensures Refusal(primary, execution) != Some("EMPTY_PRIMARY_SERIES")
  {
  }

  lemma WhenNotRefused(primary: seq<Candle>, execution: seq<Candle>)
    requires Refusal(primary, execution).None?
    ensures |primary| >= 2 && |execution| >= 2 && UniformInterval(primary).Some? && execution[1].start - execution[0].start > 0
    ensures |execution| == |primary| * (UniformInterval(primary).value / (execution[1].start - execution[0].start))
  {
  }
}
