/** Cutting a long range of outcome candles into fetches the market service can serve. */
module OutcomeWindows {

  const FETCH_CANDLES := 290

  /** A fetch of `limit` candles, the last one starting at `end`. */
  datatype Window = Window(end: int, limit: int)

  function Start(w: Window, d: int): int {
    w.end - (w.limit - 1) * d
  }

  predicate Reaches(w: Window, d: int, t: int) {
    Start(w, d) <= t <= w.end
  }

  function LastOutcome(to: int, d: int, horizon: int): int {
    to + (horizon - 1) * d
  }

  /** Candles from the limit down to the one before the reference, at most a fetch. */
  function Span(end: int, from: int, d: int): int
    requires d > 0
  {
    var needed := (end - (from - 2 * d)) / d + 1;
    if needed < FETCH_CANDLES then needed else FETCH_CANDLES
  }

  ghost predicate Covered(windows: seq<Window>, d: int, t: int) {
    exists i :: 0 <= i < |windows| && Reaches(windows[i], d, t)
  }

  /** The windows in order of time, each starting where the one before ends. */
  ghost predicate Chained(windows: seq<Window>, d: int) {
    && (forall i :: 0 <= i < |windows| ==> 2 <= windows[i].limit <= FETCH_CANDLES)
    && (forall i :: 0 < i < |windows| ==> Start(windows[i], d) == windows[i - 1].end)
  }

  lemma SpanSteps(end: int, from: int, d: int)
    requires d > 0 && end >= from - d
    ensures 2 <= Span(end, from, d) <= FETCH_CANDLES
    ensures (Span(end, from, d) - 1) * d >= d
    ensures Span(end, from, d) < FETCH_CANDLES ==> from - 2 * d <= end - (Span(end, from, d) - 1) * d < from - d
    ensures end - (Span(end, from, d) - 1) * d >= from - 2 * d
  {
    var x := end - (from - 2 * d);
    var q := x / d;
    assert x == q * d + x % d;
    GoesOnce(x, d);
    AtLeastOnce(Span(end, from, d) - 1, d);
    if FETCH_CANDLES <= q + 1 {
      Scales(FETCH_CANDLES - 1, q, d);
    }
  }

  lemma GoesOnce(x: int, d: int)
    requires x >= d > 0
    ensures x / d >= 1
  {
    if x / d < 1 {
      NotPositive(x / d, d);
    }
  }

  lemma NotPositive(q: int, d: int)
    requires q <= 0 && d > 0
    ensures q * d <= 0
  {
  }

  lemma AtLeastOnce(n: int, d: int)
    requires n >= 1 && d > 0
    ensures n * d >= d
  {
    Scales(1, n, d);
  }

  lemma Scales(a: int, b: int, d: int)
    requires a <= b && d > 0
    ensures a * d <= b * d
  {
    NotPositive(a - b, d);
    assert (a - b) * d == a * d - b * d;
  }

  /** The loop ends because every span is at least two; the windows cover every time from one candle
      before the reference to the last outcome, none is too large for a fetch, and neighbours share
      exactly their border candle. */
  method PlanOutcomeFetchWindows(from: int, to: int, d: int, horizon: int) returns (windows: seq<Window>)
    requires d > 0
    ensures Chained(windows, d)
    ensures windows == [] <==> LastOutcome(to, d, horizon) < from - d
    ensures windows != [] ==> windows[|windows| - 1].end == LastOutcome(to, d, horizon)
    ensures windows != [] ==> from - 2 * d <= Start(windows[0], d) < from - d
    ensures forall t :: from - d <= t <= LastOutcome(to, d, horizon) ==> Covered(windows, d, t)
  {
    hide Span;
    hide Start;
    hide Covered;
    windows := [];
    var end := LastOutcome(to, d, horizon);
    while end >= from - d
      invariant Chained(windows, d)
      invariant windows == [] ==> end == LastOutcome(to, d, horizon)
      invariant windows != [] ==> windows[|windows| - 1].end == LastOutcome(to, d, horizon) && Start(windows[0], d) == end
      invariant windows != [] ==> LastOutcome(to, d, horizon) >= from - d
      invariant end < from - d ==> windows == [] || end >= from - 2 * d
      decreases end - from + d
    {
      var span := Span(end, from, d);
      SpanSteps(end, from, d);
      var w := Window(end, span);
      StartOf(w, d);
      windows := [w] + windows;
      end := end - (span - 1) * d;
    }
    if windows != [] {
      forall t | from - d <= t <= LastOutcome(to, d, horizon)
        ensures Covered(windows, d, t)
      {
        ChainCovers(windows, d, t);
      }
    }
  }

  lemma StartOf(w: Window, d: int)
    ensures Start(w, d) == w.end - (w.limit - 1) * d
  {
  }

  lemma {:induction false} ChainCovers(windows: seq<Window>, d: int, t: int)
    requires windows != [] && Chained(windows, d)
    requires Start(windows[0], d) <= t <= windows[|windows| - 1].end
    ensures Covered(windows, d, t)
  {
    hide Start;
    if t <= windows[0].end {
      assert Reaches(windows[0], d, t);
    } else {
      ChainCovers(windows[1..], d, t);
      var i :| 0 <= i < |windows[1..]| && Reaches(windows[1..][i], d, t);
      assert windows[i + 1] == windows[1..][i];
    }
  }
}
