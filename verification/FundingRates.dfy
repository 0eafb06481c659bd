/** Mean funding rate per candle, in one pass over the samples. */
module FundingRates {
  import opened Basics

  datatype Sample = Sample(time: int, rate: real)

  ghost predicate Sorted(samples: seq<Sample>) {
    forall i, j :: 0 <= i < j < |samples| ==> samples[i].time <= samples[j].time
  }

  ghost predicate Ascending(candles: seq<int>) {
    forall i :: 0 < i < |candles| ==> candles[i - 1] < candles[i]
  }

  /** The gap between the last two candles; it serves as every candle's length. */
  function Timeframe(candles: seq<int>): int
    requires |candles| >= 2
  {
    candles[|candles| - 1] - candles[|candles| - 2]
  }

  predicate HasTimeframe(candles: seq<int>) {
    |candles| >= 2 && 0 < Timeframe(candles) <= MAX_SAFE
  }

  // ---- The specification: the mean over an interval

  predicate Inside(s: Sample, low: int, high: int) {
    low <= s.time < high
  }

  function Sum(samples: seq<Sample>, low: int, high: int): real {
    if samples == [] then 0.0
    else
      var last := samples[|samples| - 1];
      Sum(samples[..|samples| - 1], low, high) + if Inside(last, low, high) then last.rate else 0.0
  }

  function Count(samples: seq<Sample>, low: int, high: int): nat {
    if samples == [] then 0
    else
      var last := samples[|samples| - 1];
      Count(samples[..|samples| - 1], low, high) + if Inside(last, low, high) then 1 else 0
  }

  /** Where candle i starts to collect: its start, or the end of the candle before if that is later. */
  function From(candles: seq<int>, i: nat): int
    requires i < |candles| && |candles| >= 2
  {
    if i > 0 && candles[i - 1] + Timeframe(candles) > candles[i] then candles[i - 1] + Timeframe(candles) else candles[i]
  }

  function Until(candles: seq<int>, i: nat): int
    requires i < |candles| && |candles| >= 2
  {
    candles[i] + Timeframe(candles)
  }

  function CountOf(candles: seq<int>, samples: seq<Sample>, i: nat): nat
    requires i < |candles| && |candles| >= 2
  {
    Count(samples, From(candles, i), Until(candles, i))
  }

  function MeanOf(candles: seq<int>, samples: seq<Sample>, i: nat): real
    requires i < |candles| && |candles| >= 2 && CountOf(candles, samples, i) > 0
  {
    Sum(samples, From(candles, i), Until(candles, i)) / CountOf(candles, samples, i) as real
  }

  /** No candle starts before the one before it ends. */
  ghost predicate Separate(candles: seq<int>) {
    |candles| >= 2 ==> forall k :: 0 < k < |candles| ==> candles[k - 1] + Timeframe(candles) <= candles[k]
  }

  /** How many samples fall in candle i's own half-open interval. */
  function OwnCount(candles: seq<int>, samples: seq<Sample>, i: nat): nat
    requires i < |candles| && |candles| >= 2
  {
    Count(samples, candles[i], candles[i] + Timeframe(candles))
  }

  function OwnMean(candles: seq<int>, samples: seq<Sample>, i: nat): real
    requires i < |candles| && |candles| >= 2 && OwnCount(candles, samples, i) > 0
  {
    Sum(samples, candles[i], candles[i] + Timeframe(candles)) / OwnCount(candles, samples, i) as real
  }

  lemma SeparateCandlesCollectTheirOwn(candles: seq<int>, samples: seq<Sample>)
    requires HasTimeframe(candles) && Separate(candles)
    ensures Ascending(candles)
    ensures forall i :: 0 <= i < |candles| ==> CountOf(candles, samples, i) == OwnCount(candles, samples, i)
    ensures forall i :: 0 <= i < |candles| && OwnCount(candles, samples, i) > 0 ==>
              MeanOf(candles, samples, i) == OwnMean(candles, samples, i)
  {
    hide Sum;
    hide Count;
  }

  // ---- Sums over prefixes

  lemma {:induction false} NothingInside(samples: seq<Sample>, low: int, high: int)
    requires forall k :: 0 <= k < |samples| ==> !Inside(samples[k], low, high)
    ensures Sum(samples, low, high) == 0.0 && Count(samples, low, high) == 0
  {
    if samples != [] {
      NothingInside(samples[..|samples| - 1], low, high);
    }
  }

  /** Samples past the interval add nothing. */
  lemma {:induction false} RestAddsNothing(samples: seq<Sample>, n: nat, low: int, high: int)
    requires n <= |samples| && forall k :: n <= k < |samples| ==> !Inside(samples[k], low, high)
    ensures Sum(samples, low, high) == Sum(samples[..n], low, high) && Count(samples, low, high) == Count(samples[..n], low, high)
    decreases |samples|
  {
    if n == |samples| {
      assert samples[..n] == samples;
    } else {
      var shorter := samples[..|samples| - 1];
      RestAddsNothing(shorter, n, low, high);
      assert shorter[..n] == samples[..n];
    }
  }

  lemma OneMore(samples: seq<Sample>, n: nat, low: int, high: int)
    requires n < |samples|
    ensures Sum(samples[..n + 1], low, high) == Sum(samples[..n], low, high) + if Inside(samples[n], low, high) then samples[n].rate else 0.0
    ensures Count(samples[..n + 1], low, high) == Count(samples[..n], low, high) + if Inside(samples[n], low, high) then 1 else 0
  {
    assert samples[..n + 1][..n] == samples[..n];
  }

  // ---- The pass

  /** One candle: the cursor moves to the first sample at or past its end, collecting on the way. */
  method Collect(samples: seq<Sample>, start: int, end: int, from: nat, ghost low: int) returns (sum: real, count: nat, cursor: nat)
    requires from <= |samples|
    ensures from <= cursor <= |samples|
    ensures Sorted(samples) && start <= low && (forall k :: 0 <= k < from ==> samples[k].time < low)
            && (forall k :: from <= k < |samples| ==> start <= samples[k].time ==> low <= samples[k].time) ==>
              && sum == Sum(samples, low, end) && count == Count(samples, low, end)
              && (forall k :: from <= k < cursor ==> samples[k].time < end)
              && (forall k :: cursor <= k < |samples| ==> samples[k].time >= end)
  {
    ghost var fits := start <= low && (forall k :: 0 <= k < from ==> samples[k].time < low)
                      && (forall k :: from <= k < |samples| ==> start <= samples[k].time ==> low <= samples[k].time);
    sum, count, cursor := 0.0, 0, from;
    if fits {
      NothingInside(samples[..from], low, end);
    }
    while cursor < |samples| && samples[cursor].time < end
      invariant from <= cursor <= |samples|
      invariant forall k :: from <= k < cursor ==> samples[k].time < end
      invariant fits ==> sum == Sum(samples[..cursor], low, end) && count == Count(samples[..cursor], low, end)
    {
      OneMore(samples, cursor, low, end);
      if samples[cursor].time >= start {
        sum := sum + samples[cursor].rate;
        count := count + 1;
      }
      cursor := cursor + 1;
    }
    if fits && Sorted(samples) {
      RestAddsNothing(samples, cursor, low, end);
    }
  }

  /** On sorted samples and ascending candles the single cursor finds, for each candle, the mean of all
      samples from where the candle before left off to its own end, and the answer is null exactly when
      the timeframe is missing or some candle has no sample. */
  method FundingRatesForCandles(candles: seq<int>, samples: seq<Sample>) returns (r: Option<seq<real>>)
    ensures r.Some? ==> HasTimeframe(candles) && |r.value| == |candles|
    ensures Sorted(samples) && Ascending(candles) ==>
              (r.Some? <==> HasTimeframe(candles) && forall i :: 0 <= i < |candles| ==> CountOf(candles, samples, i) > 0)
    ensures Sorted(samples) && Ascending(candles) && r.Some? ==>
              forall i :: 0 <= i < |candles| ==> CountOf(candles, samples, i) > 0 && r.value[i] == MeanOf(candles, samples, i)
    ensures Sorted(samples) && Separate(candles) && HasTimeframe(candles) ==>
              && (r.Some? <==> forall i :: 0 <= i < |candles| ==> OwnCount(candles, samples, i) > 0)
              && (r.Some? ==> forall i :: 0 <= i < |candles| ==>
                    OwnCount(candles, samples, i) > 0 && r.value[i] == OwnMean(candles, samples, i))
  {
    hide Sum;
    hide Count;
    if |candles| < 2 {
      return None;
    }
    var timeframe := Timeframe(candles);
    if timeframe <= 0 || timeframe > MAX_SAFE {
      return None;
    }
    var rates: seq<real> := [];
    var cursor := 0;
    ghost var ordered := Sorted(samples) && Ascending(candles);
    if Separate(candles) {
      SeparateCandlesCollectTheirOwn(candles, samples);
    }
    for i := 0 to |candles|
      invariant |rates| == i && cursor <= |samples|
      invariant ordered && i > 0 ==> forall k :: 0 <= k < cursor ==> samples[k].time < Until(candles, i - 1)
      invariant ordered && i > 0 ==> forall k :: cursor <= k < |samples| ==> samples[k].time >= Until(candles, i - 1)
      invariant i == 0 ==> cursor == 0
      invariant ordered ==> forall k :: 0 <= k < i ==> CountOf(candles, samples, k) > 0 && rates[k] == MeanOf(candles, samples, k)
    {
      var sum, count;
      sum, count, cursor := Collect(samples, candles[i], candles[i] + timeframe, cursor, From(candles, i));
      if count == 0 {
        assert ordered ==> CountOf(candles, samples, i) == 0;
        return None;
      }
      rates := rates + [sum / count as real];
    }
    r := Some(rates);
  }

  /** When candles overlap, one misses the samples that fall before the end of the one before it, those and
      no others: so the mean is over the whole interval if and only if there are none. */
  lemma OverlapIsLost(candles: seq<int>, samples: seq<Sample>, i: nat)
    requires |candles| >= 2 && i < |candles| && Ascending(candles)
    ensures Count(samples, candles[i], Until(candles, i)) == CountOf(candles, samples, i) + Count(samples, candles[i], From(candles, i))
    ensures Sum(samples, candles[i], Until(candles, i))
            == Sum(samples, From(candles, i), Until(candles, i)) + Sum(samples, candles[i], From(candles, i))
  {
    SplitInterval(samples, candles[i], From(candles, i), Until(candles, i));
  }

  lemma {:induction false} SplitInterval(samples: seq<Sample>, low: int, mid: int, high: int)
    requires low <= mid && (mid <= high || low >= high)
    ensures mid <= high ==> Count(samples, low, high) == Count(samples, low, mid) + Count(samples, mid, high)
    ensures mid <= high ==> Sum(samples, low, high) == Sum(samples, low, mid) + Sum(samples, mid, high)
  {
    if samples != [] {
      SplitInterval(samples[..|samples| - 1], low, mid, high);
    }
  }
}
