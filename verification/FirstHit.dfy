/** The protective machine as a whole: between position increases it finds the first candle that touches a level. */
module FirstHit {
  import opened Basics
  import opened ProtectiveOrder

  datatype Candle = Candle(start: int, open: real, high: real, low: real)

  /** A candle is shown open first, then its range. */
  function Feed(m: Machine, c: Candle): Machine {
    Next(Next(m, CandleOpened(c.start, c.open)), CandleRangeReplayed(c.start, c.high, c.low))
  }

  function After(m: Machine, candles: seq<Candle>, n: nat): Machine
    requires n <= |candles|
  {
    if n == 0 then m else Feed(After(m, candles, n - 1), candles[n - 1])
  }

  predicate Sane(c: Candle) {
    Timestamp(c.start) && c.open > 0.0 && 0.0 < c.low <= c.open <= c.high
  }

  ghost predicate InOrder(candles: seq<Candle>, armedAt: int, last: Option<int>) {
    && (forall i :: 0 <= i < |candles| ==> Sane(candles[i]) && candles[i].start >= armedAt)
    && (forall i :: 0 <= i < |candles| ==> LastBefore(candles, i, last).Some? ==> candles[i].start > LastBefore(candles, i, last).value)
  }

  function LastBefore(candles: seq<Candle>, i: nat, last: Option<int>): Option<int>
    requires i <= |candles|
  {
    if i == 0 then last else Some(candles[i - 1].start)
  }

  // ---- The specification: levels from the candles before, and the first one touched

  /** The highest of the anchor and the highs of the candles before n. */
  function Peak(anchor: real, candles: seq<Candle>, n: nat): real
    requires n <= |candles|
  {
    if n == 0 then anchor else Max(Peak(anchor, candles, n - 1), candles[n - 1].high)
  }

  function StopAt(p: Policy, plan: Plan, candles: seq<Candle>, i: nat): real
    requires i <= |candles|
  {
    if p.Trailing? then Lowered(Peak(plan.anchor, candles, i), p.trailBps) else plan.stop
  }

  /** What candle i does to the plan: the open first, then the range, the stop winning a tie. */
  function Hit(p: Policy, plan: Plan, candles: seq<Candle>, i: nat): Option<Trigger>
    requires i < |candles|
  {
    var c, stop := candles[i], StopAt(p, plan, candles, i);
    var reaches := (price: real) => plan.target.Some? && price >= plan.target.value;
    if c.open <= stop then Some(Trigger(StopLoss, GapOpen, c.open, c.start))
    else if reaches(c.open) then Some(Trigger(TakeProfit, GapOpen, c.open, c.start))
    else if c.low <= stop then
      Some(Trigger(StopLoss, if reaches(c.high) then AmbiguousStopFirst else Intrabar, stop, c.start))
    else if reaches(c.high) then Some(Trigger(TakeProfit, Intrabar, plan.target.value, c.start))
    else None
  }

  /** The outcome is that of the first candle that does something. */
  ghost predicate IsFirst(p: Policy, plan: Plan, candles: seq<Candle>, n: nat, outcome: Option<Trigger>)
    requires n <= |candles|
  {
    match outcome
    case None => forall i :: 0 <= i < n ==> Hit(p, plan, candles, i).None?
    case Some(t) => exists i :: 0 <= i < n && Hit(p, plan, candles, i) == Some(t) && forall j :: 0 <= j < i ==> Hit(p, plan, candles, j).None?
  }

  /** The plan once n candles have passed it by. */
  function Passed(p: Policy, plan: Plan, candles: seq<Candle>, n: nat): Plan
    requires n <= |candles|
  {
    if p.Trailing? then plan.(anchor := Peak(plan.anchor, candles, n), stop := StopAt(p, plan, candles, n)) else plan
  }

  // ---- Refinement

  lemma AdvanceIsPassed(p: Policy, plan: Plan, candles: seq<Candle>, n: nat)
    requires n < |candles| && Levelled(p, plan)
    ensures Advance(Passed(p, plan, candles, n), p, candles[n].high) == Passed(p, plan, candles, n + 1)
  {
    hide Lowered;
    if p.Trailing? {
      var peak := Peak(plan.anchor, candles, n);
      if candles[n].high > peak {
        LoweredIsMonotone(peak, candles[n].high, p.trailBps);
      }
      NothingPassed(p, plan, candles);
    }
  }

  lemma NothingPassed(p: Policy, plan: Plan, candles: seq<Candle>)
    requires Levelled(p, plan)
    ensures Passed(p, plan, candles, 0) == plan
  {
    hide Lowered;
  }

  /** One candle: the machine triggers exactly when the specification says so, else it moves the plan on. */
  lemma FeedIsHit(m: Machine, p: Policy, plan: Plan, candles: seq<Candle>, n: nat)
    requires n < |candles| && Sane(candles[n]) && candles[n].start >= plan.armedAt
    requires m.ctx.lastStart.Some? ==> candles[n].start > m.ctx.lastStart.value
    requires m.state == AwaitingOpen && m.ctx.plan == Some(Passed(p, plan, candles, n)) && m.ctx.policy == p
    requires Levelled(p, plan)
    ensures var f := Feed(m, candles[n]);
            match Hit(p, plan, candles, n)
            case Some(t) => f.state == Triggered && f.ctx.resolution == Some(t)
            case None => && f.state == AwaitingOpen && f.ctx.plan == Some(Passed(p, plan, candles, n + 1))
                         && f.ctx.lastStart == Some(candles[n].start) && f.ctx.policy == p
  {
    hide Lowered;
    hide Peak;
    hide Advance;
    AdvanceIsPassed(p, plan, candles, n);
    StopOfPassed(p, plan, candles, n);
    hide Passed;
    hide StopAt;
  }

  lemma StopOfPassed(p: Policy, plan: Plan, candles: seq<Candle>, n: nat)
    requires n <= |candles|
    ensures Passed(p, plan, candles, n).stop == StopAt(p, plan, candles, n)
    ensures Passed(p, plan, candles, n).target == plan.target && Passed(p, plan, candles, n).armedAt == plan.armedAt
  {
  }

  lemma {:induction false} StaysTriggered(m: Machine, candles: seq<Candle>, k: nat, n: nat)
    requires k <= n <= |candles| && After(m, candles, k).state == Triggered
    ensures After(m, candles, n) == After(m, candles, k)
  {
    if k < n {
      StaysTriggered(m, candles, k, n - 1);
    }
  }

  ghost predicate Watching(m: Machine, start: Machine, p: Policy, candles: seq<Candle>, n: nat)
    requires n <= |candles| && start.ctx.plan.Some?
  {
    && m.state == AwaitingOpen && m.ctx.plan == Some(Passed(p, start.ctx.plan.value, candles, n)) && m.ctx.policy == p
    && m.ctx.lastStart == LastBefore(candles, n, start.ctx.lastStart)
  }

  /** From any reachable armed state between candles, over any candles in order: after n of them the machine has triggered
      exactly when one of them touched a level, with the outcome of the first that did; else it is still
      armed, its trailing stop following the highest of the candles before. */
  lemma {:induction false} MachineFindsFirstHit(m: Machine, p: Policy, candles: seq<Candle>, n: nat)
    requires n <= |candles| && Guarded(m, p) && m.state == AwaitingOpen
    requires InOrder(candles, m.ctx.plan.value.armedAt, m.ctx.lastStart)
    ensures var a := After(m, candles, n);
            && IsFirst(p, m.ctx.plan.value, candles, n, if a.state == Triggered then a.ctx.resolution else None)
            && (a.state == Triggered ==> a.ctx.resolution.Some?)
            && (a.state != Triggered ==> Watching(a, m, p, candles, n))
  {
    hide Feed;
    hide Hit;
    hide Levelled;
    hide Passed;
    hide InOrder;
    hide IsFirst;
    var plan := m.ctx.plan.value;
    if n == 0 {
      NothingPassed(p, plan, candles);
      NoneYet(p, plan, candles);
    } else {
      MachineFindsFirstHit(m, p, candles, n - 1);
      var before := After(m, candles, n - 1);
      OneMore(p, plan, candles, n - 1, if before.state == Triggered then before.ctx.resolution else None);
      if before.state == Triggered {
        StaysTriggered(m, candles, n - 1, n);
      } else {
        NextInOrder(candles, plan.armedAt, m.ctx.lastStart, n - 1);
        FeedIsHit(before, p, plan, candles, n - 1);
      }
    }
  }

  // ---- A candle already open, as after an increase

  /** What the rest of an open candle does: no second look at the open, the stop winning a tie. */
  function RestOfCandle(plan: Plan, start: int, high: real, low: real): Option<Trigger> {
    var takes := plan.target.Some? && high >= plan.target.value;
    if low <= plan.stop then Some(Trigger(StopLoss, if takes then AmbiguousStopFirst else Intrabar, plan.stop, start))
    else if takes then Some(Trigger(TakeProfit, Intrabar, plan.target.value, start))
    else None
  }

  /** The rest of a candle around its open. */
  predicate FitsOpen(m: Machine, high: real, low: real) {
    m.ctx.currentOpen.Some? && 0.0 < low <= m.ctx.currentOpen.value <= high
  }

  /** From any reachable machine whose candle is open, on whatever plan it holds by then: the rest of that
      candle triggers it exactly when it touches a level of that plan, else the first of the candles that
      follow does, on the plan the candle leaves behind. */
  lemma OpenCandleComesFirst(m: Machine, p: Policy, high: real, low: real, candles: seq<Candle>, n: nat)
    requires n <= |candles| && Guarded(m, p) && m.state == AwaitingRange && FitsOpen(m, high, low)
    requires InOrder(candles, m.ctx.plan.value.armedAt, m.ctx.currentStart)
    ensures var plan, start := m.ctx.plan.value, m.ctx.currentStart.value;
            var rest := RestOfCandle(plan, start, high, low);
            var next := Next(m, CandleRangeReplayed(start, high, low));
            var a := After(next, candles, n);
            && (rest.Some? ==> a.state == Triggered && a.ctx.resolution == rest)
            && (rest.None? ==>
                  && next.ctx.plan == Some(Advance(plan, p, high))
                  && IsFirst(p, next.ctx.plan.value, candles, n, if a.state == Triggered then a.ctx.resolution else None)
                  && (a.state == Triggered ==> a.ctx.resolution.Some?)
                  && (a.state != Triggered ==> Watching(a, next, p, candles, n)))
  {
    hide Levelled;
    hide Advance;
    hide InOrder;
    hide IsFirst;
    hide Watching;
    hide Timestamp;
    var plan, start := m.ctx.plan.value, m.ctx.currentStart.value;
    var next := Next(m, CandleRangeReplayed(start, high, low));
    NextKeepsGuard(m, p, CandleRangeReplayed(start, high, low));
    if RestOfCandle(plan, start, high, low).Some? {
      StaysTriggered(next, candles, 0, n);
    } else {
      AdvanceKeepsArming(plan, p, high);
      MachineFindsFirstHit(next, p, candles, n);
    }
  }

  lemma AdvanceKeepsArming(plan: Plan, p: Policy, high: real)
    ensures Advance(plan, p, high).armedAt == plan.armedAt
  {
  }

  lemma NextInOrder(candles: seq<Candle>, armedAt: int, last: Option<int>, n: nat)
    requires n < |candles| && InOrder(candles, armedAt, last)
    ensures Sane(candles[n]) && candles[n].start >= armedAt
    ensures LastBefore(candles, n, last).Some? ==> candles[n].start > LastBefore(candles, n, last).value
  {
  }

  lemma NoneYet(p: Policy, plan: Plan, candles: seq<Candle>)
    ensures IsFirst(p, plan, candles, 0, None)
  {
  }

  lemma OneMore(p: Policy, plan: Plan, candles: seq<Candle>, n: nat, outcome: Option<Trigger>)
    requires n < |candles| && IsFirst(p, plan, candles, n, outcome)
    ensures IsFirst(p, plan, candles, n + 1, if outcome.Some? then outcome else Hit(p, plan, candles, n))
  {
    hide Hit;
  }

  /** The stop never loosens, and does not look at the candle it is tested on. */
  lemma {:induction false} StopNeverLoosens(p: Policy, plan: Plan, candles: seq<Candle>, i: nat, j: nat)
    requires i <= j <= |candles| && Levelled(p, plan)
    ensures StopAt(p, plan, candles, i) <= StopAt(p, plan, candles, j)
    ensures plan.stop <= StopAt(p, plan, candles, i)
    decreases j
  {
    hide Lowered;
    if i < j {
      StopNeverLoosens(p, plan, candles, i, j - 1);
      if p.Trailing? {
        LoweredIsMonotone(Peak(plan.anchor, candles, j - 1), Peak(plan.anchor, candles, j), p.trailBps);
      }
    } else if i > 0 {
      StopNeverLoosens(p, plan, candles, i - 1, i - 1);
      if p.Trailing? {
        LoweredIsMonotone(Peak(plan.anchor, candles, i - 1), Peak(plan.anchor, candles, i), p.trailBps);
      }
    }
  }

  // ---- Reductions and increases

  function WithQuantity(m: Machine, quantity: real): Machine {
    if m.ctx.plan.None? then m else m.(ctx := m.ctx.(plan := Some(m.ctx.plan.value.(quantity := quantity))))
  }

  /** Selling part of the position moves no level: what candles do is the same before and after. */
  lemma ReductionsAreInvisible(m: Machine, quantity: real, updatedAt: int, e: Event)
    requires Armed(m.state) && Next(m, PositionReduced(quantity, updatedAt)).state != Failed
    requires e.CandleOpened? || e.CandleRangeReplayed?
    ensures Next(m, PositionReduced(quantity, updatedAt)) == WithQuantity(m, quantity)
    ensures Next(WithQuantity(m, quantity), e) == WithQuantity(Next(m, e), quantity)
  {
    hide Lowered;
  }

  /** Buying more does move them: the trail starts again from the new average entry, so the stop is looser
      than before exactly when that entry is below the highest price seen. */
  lemma IncreasesRestartTheTrail(m: Machine, p: Policy, quantity: real, entry: real, atr: Option<real>, updatedAt: int)
    requires Guarded(m, p) && Armed(m.state) && p.Trailing?
    requires Next(m, PositionIncreased(quantity, entry, atr, updatedAt)).state != Failed
    ensures var n := Next(m, PositionIncreased(quantity, entry, atr, updatedAt));
            && n.state == m.state && n.ctx.plan.Some?
            && n.ctx.plan.value.anchor == entry && n.ctx.plan.value.stop == Lowered(entry, p.trailBps)
            && (n.ctx.plan.value.stop < m.ctx.plan.value.stop <==> entry < m.ctx.plan.value.anchor)
  {
    hide NonBlank;
    hide Lowered;
    LoweredOrders(entry, m.ctx.plan.value.anchor, p.trailBps);
  }

  const TEN_PERCENT_TRAIL := Trailing(1000.0, None)

  /** A position bought at 100, a high of 200, and more bought during the next candle at an average of 150. */
  const BOUGHT := [ArmRequested("position", 1.0, 100.0, None, 0), CandleOpened(0, 100.0), CandleRangeReplayed(0, 200.0, 95.0),
                   CandleOpened(1, 190.0)]

  const BOUGHT_MORE := PositionIncreased(2.0, 150.0, Some(3.0), 1)

  /** The stop stands at 180 before the increase and at 135 after it. */
  lemma StopsDoLoosen()
    ensures var before := Run(Create(TEN_PERCENT_TRAIL), BOUGHT);
            var later := Next(before, BOUGHT_MORE);
            && before.state == later.state == AwaitingRange && before.ctx.plan.Some? && later.ctx.plan.Some?
            && before.ctx.plan.value.stop == 180.0 && later.ctx.plan.value.stop == 135.0
  {
    var start := Create(TEN_PERCENT_TRAIL);
    assert NonBlank("position") by {
      assert "position"[0] == 'p';
    }
    var armed := Next(start, BOUGHT[0]);
    var shown := Next(armed, BOUGHT[1]);
    var passed := Next(shown, BOUGHT[2]);
    assert armed.ctx.plan.value.stop == 90.0;
    assert passed.ctx.plan.value.stop == 180.0;
    assert BOUGHT[..4] == BOUGHT && BOUGHT[..4][..3] == BOUGHT[..3] && BOUGHT[..3][..2] == BOUGHT[..2];
    assert BOUGHT[..2][..1] == BOUGHT[..1] && BOUGHT[..1][..0] == [];
    assert Run(start, []) == start;
    assert Run(start, BOUGHT[..1]) == armed;
    assert Run(start, BOUGHT[..2]) == shown;
    assert Run(start, BOUGHT[..3]) == passed;
    assert Run(start, BOUGHT[..4]) == Next(passed, BOUGHT[3]);
  }

  lemma LoweredOrders(a: real, b: real, bps: real)
    requires 0.0 < bps < 10000.0
    ensures Lowered(a, bps) < Lowered(b, bps) <==> a < b
  {
    hide Times;
    var f := 1.0 - bps / 10000.0;
    if a < b {
      Positive(b - a, f);
      TimesDiffers(b, a, f);
    } else {
      LoweredIsMonotone(b, a, bps);
    }
  }
}
