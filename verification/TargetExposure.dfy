/** The target exposure policy: an anchor within a week, and a trade towards the target that can be paid. */
module TargetExposure {
  import opened Basics

  const VOL_TARGET := 0.5
  const TREND_PERIOD := 200
  const DRIFT_THRESHOLD := 0.1
  const MIN_ORDER_NOTIONAL := 10.0
  const PAY_MARGIN := 0.999999999

  datatype Candle = Candle(start: int, close: real)

  datatype Reason = Anchor | MonthStart | Drift | InBand | BelowMinOrder | InsufficientHistory
  datatype Side = Buy | Sell | Hold

  /** Realised volatility at a candle and the month test need square roots and a calendar: they are given. */
  datatype Input = Input(
    candles: seq<Candle>,
    position: real,
    cash: real,
    feeBps: real,
    slippageBps: real,
    volatility: nat -> Option<real>,
    monthStart: bool)

  datatype Fields = Fields(target: real, exposure: real, trend: Option<bool>, vol30: Option<real>, anchorStart: int)

  datatype Decision = Decision(side: Side, quantity: real, notional: real, reason: Reason, fields: Option<Fields>)

  // ---- History

  predicate Contiguous(candles: seq<Candle>) {
    forall i :: 0 < i < |candles| ==> candles[i].start - candles[i - 1].start == DAY
  }

  /** Thursday was day zero. */
  predicate Monday(start: int) {
    (start / DAY + 4) % 7 == 1
  }

  function SumFrom(candles: seq<Candle>, from: nat, to: nat): real
    requires from <= to <= |candles|
  {
    if from == to then 0.0 else SumFrom(candles, from, to - 1) + candles[to - 1].close
  }

  /** Whether the close is above its moving average; unknown before the average exists. */
  function TrendAt(candles: seq<Candle>, i: nat): Option<bool>
    requires i < |candles|
  {
    if i + 1 < TREND_PERIOD then None
    else Some(candles[i].close > SumFrom(candles, i + 1 - TREND_PERIOD, i + 1) / TREND_PERIOD as real)
  }

  /** The trend is known here and the day before. */
  predicate Known(candles: seq<Candle>, i: nat)
    requires i < |candles|
  {
    i > 0 && TrendAt(candles, i - 1).Some? && TrendAt(candles, i).Some?
  }

  predicate IsAnchor(candles: seq<Candle>, i: nat)
    requires i < |candles|
  {
    Known(candles, i) && (Monday(candles[i].start) || TrendAt(candles, i) != TrendAt(candles, i - 1))
  }

  /** The newest candle that opens a week or turns the trend, as far back as the trend is known. */
  ghost predicate NewestAnchor(candles: seq<Candle>, anchor: Option<nat>) {
    match anchor
    case Some(a) => a < |candles| && IsAnchor(candles, a) && forall i :: a < i < |candles| ==> Known(candles, i) && !IsAnchor(candles, i)
    case None => forall i :: 0 <= i < |candles| && (forall k :: i <= k < |candles| ==> Known(candles, k)) ==> !IsAnchor(candles, i)
  }

  /** The mean of the last `period` closes up to a candle, summed in one pass; none before there are so many. */
  method SimpleMovingAverage(candles: seq<Candle>, i: nat, period: nat) returns (mean: Option<real>)
    requires i < |candles| && period > 0
    ensures mean == if i + 1 < period then None else Some(SumFrom(candles, i + 1 - period, i + 1) / period as real)
  {
    if i + 1 < period {
      return None;
    }
    var sum := 0.0;
    var from := i + 1 - period;
    for index := from to i + 1
      invariant sum == SumFrom(candles, from, index)
    {
      sum := sum + candles[index].close;
    }
    return Some(sum / period as real);
  }

  method TrendOf(candles: seq<Candle>, i: nat) returns (up: Option<bool>)
    requires i < |candles|
    ensures up == TrendAt(candles, i)
  {
    var mean := SimpleMovingAverage(candles, i, TREND_PERIOD);
    up := if mean.None? then None else Some(candles[i].close > mean.value);
  }

  method FindAnchor(candles: seq<Candle>) returns (anchor: Option<nat>)
    ensures NewestAnchor(candles, anchor)
  {
    hide TrendAt;
    hide Monday;
    var n := |candles|;
    while n > 0
      invariant 0 <= n <= |candles|
      invariant forall i :: n <= i < |candles| ==> Known(candles, i) && !IsAnchor(candles, i)
    {
      var i := n - 1;
      var current := TrendOf(candles, i);
      var previous: Option<bool> := None;
      if i > 0 {
        previous := TrendOf(candles, i - 1);
      }
      if current.None? || previous.None? {
        assert !Known(candles, i);
        return None;
      }
      if Monday(candles[i].start) || current != previous {
        return Some(i);
      }
      n := i;
    }
    anchor := None;
  }

  lemma {:induction false} DaysFollow(candles: seq<Candle>, i: nat)
    requires Contiguous(candles) && i < |candles|
    ensures candles[i].start / DAY == candles[0].start / DAY + i
  {
    if i > 0 {
      DaysFollow(candles, i - 1);
      assert candles[i].start == candles[i - 1].start + DAY;
    }
  }

  /** Seven days of known trend always hold an anchor: from 207 contiguous candles on it exists and is at
      most six days old. */
  lemma AnchorWithinAWeek(candles: seq<Candle>, anchor: Option<nat>)
    requires Contiguous(candles) && |candles| >= TREND_PERIOD + 7 && NewestAnchor(candles, anchor)
    ensures anchor.Some? && |candles| - 7 <= anchor.value < |candles|
  {
    hide TrendAt;
    var first := |candles| - 7;
    var shift := (1 - (candles[first].start / DAY + 4)) % 7;
    var monday := first + shift;
    DaysFollow(candles, first);
    DaysFollow(candles, monday);
    LateTrendsAreKnown(candles);
    assert IsAnchor(candles, monday);
  }

  lemma LateTrendsAreKnown(candles: seq<Candle>)
    ensures forall i :: TREND_PERIOD <= i < |candles| ==> Known(candles, i)
  {
  }

  // ---- The trade

  function Times(a: real, b: real): real {
    a * b
  }

  function Over(a: real, b: real): real
    requires b != 0.0
  {
    a / b
  }

  function Positive(x: real): real {
    if x > 0.0 then x else 0.0
  }

  function Holding(input: Input): real
    requires input.candles != []
  {
    Times(Positive(input.position), input.candles[|input.candles| - 1].close)
  }

  function Equity(input: Input): real
    requires input.candles != []
  {
    Positive(input.cash) + Holding(input)
  }

  function Exposure(input: Input): real
    requires input.candles != []
  {
    if Equity(input) > 0.0 then Over(Holding(input), Equity(input)) else 0.0
  }

  /** What one unit of bought notional costs with slippage and fee. */
  function CostFactor(input: Input): real {
    Times(1.0 + input.slippageBps / 10000.0, 1.0 + input.feeBps / 10000.0)
  }

  function TargetOf(trend: bool, vol: real): real
    requires vol > 0.0
  {
    if trend then Min(1.0, Over(VOL_TARGET, vol)) else 0.0
  }

  function Distance(a: real, b: real): real {
    if a < b then b - a else a - b
  }

  /** The rebalancing reason at an anchor, if there is one. */
  function ReasonFor(input: Input, anchor: nat, target: real): Option<Reason>
    requires anchor < |input.candles|
  {
    if anchor == |input.candles| - 1 then Some(Anchor)
    else if input.monthStart then Some(MonthStart)
    else if Distance(Exposure(input), target) > DRIFT_THRESHOLD then Some(Drift)
    else None
  }

  function Wanted(input: Input, target: real): real
    requires input.candles != []
  {
    Times(target, Equity(input)) - Holding(input)
  }

  function Notional(input: Input, target: real): real
    requires input.candles != [] && CostFactor(input) != 0.0
  {
    var delta := Wanted(input, target);
    if delta > 0.0 then Min(delta, Times(Over(Positive(input.cash), CostFactor(input)), PAY_MARGIN))
    else Min(-delta, Holding(input))
  }

  function HoldFor(reason: Reason, fields: Option<Fields>): Decision {
    Decision(Hold, 0.0, 0.0, reason, fields)
  }

  /** The decision once the anchor is known. */
  function DecideAt(input: Input, anchor: nat, trend: bool, vol: real): Decision
    requires anchor < |input.candles| && vol > 0.0 && CostFactor(input) != 0.0 && input.candles[|input.candles| - 1].close != 0.0
  {
    var last := |input.candles| - 1;
    var price := input.candles[last].close;
    var target := TargetOf(trend, vol);
    var fields := Some(Fields(target, Exposure(input), TrendAt(input.candles, last), input.volatility(last), input.candles[anchor].start));
    var reason := ReasonFor(input, anchor, target);
    if reason.None? then HoldFor(InBand, fields)
    else
      var notional := Notional(input, target);
      if notional < MIN_ORDER_NOTIONAL then HoldFor(BelowMinOrder, fields)
      else
        var buys := Wanted(input, target) > 0.0;
        var quantity := if buys then Over(notional, price) else Min(Over(notional, price), Positive(input.position));
        Decision(if buys then Buy else Sell, quantity, Times(quantity, price), reason.value, fields)
  }

  /** Prices and costs as the runtime validates them. */
  predicate Priced(input: Input) {
    && (forall i :: 0 <= i < |input.candles| ==> input.candles[i].close > 0.0)
    && input.feeBps >= 0.0 && input.slippageBps >= 0.0
  }

  lemma CostsAreAtLeastOne(input: Input)
    requires Priced(input)
    ensures CostFactor(input) >= 1.0
  {
    var s, f := input.slippageBps / 10000.0, input.feeBps / 10000.0;
    assert s * f >= 0.0;
    assert (1.0 + s) * (1.0 + f) == 1.0 + s + f + s * f;
  }

  method PlanTargetExposure(input: Input) returns (d: Decision)
    requires Priced(input)
    ensures !Contiguous(input.candles) ==> d == HoldFor(InsufficientHistory, None)
    ensures Contiguous(input.candles) ==>
              exists anchor :: NewestAnchor(input.candles, anchor) && d == DecisionFor(input, anchor)
  {
    hide NewestAnchor;
    hide TrendAt;
    var i := 1;
    while i < |input.candles|
      invariant 1 <= i
      invariant forall k :: 0 < k < i && k < |input.candles| ==> input.candles[k].start - input.candles[k - 1].start == DAY
    {
      if input.candles[i].start - input.candles[i - 1].start != DAY {
        return HoldFor(InsufficientHistory, None);
      }
      i := i + 1;
    }
    var anchor := FindAnchor(input.candles);
    d := DecisionFor(input, anchor);
  }

  /** With no anchor, or no volatility there, the history is too short. */
  function DecisionFor(input: Input, anchor: Option<nat>): Decision
    requires Priced(input)
  {
    if anchor.None? || anchor.value >= |input.candles| then HoldFor(InsufficientHistory, None)
    else
      match (TrendAt(input.candles, anchor.value), input.volatility(anchor.value))
      case (Some(trend), Some(vol)) =>
        CostsAreAtLeastOne(input);
        if vol <= 0.0 then HoldFor(InsufficientHistory, None) else DecideAt(input, anchor.value, trend, vol)
      case _ => HoldFor(InsufficientHistory, None)
  }

  // ---- When it trades, in amounts of money

  /** The money an order is about: what is held, all there is, the goal for the holding, and the price of one
      unit of bought notional; shorts and debts count as nothing. */
  datatype Money = Money(held: real, equity: real, goal: real, cost: real)

  predicate Counts(input: Input, target: real, m: Money)
    requires input.candles != []
  {
    && m.held == Max(input.position, 0.0) * input.candles[|input.candles| - 1].close
    && m.equity == Max(input.cash, 0.0) + m.held
    && m.goal == target * m.equity
    && m.cost == (1.0 + input.slippageBps / 10000.0) * (1.0 + input.feeBps / 10000.0)
  }

  /** The holding is within a tenth of the equity of its goal; without equity, the target within a tenth of nothing. */
  predicate Banded(m: Money, target: real) {
    if m.equity > 0.0 then -0.1 * m.equity <= m.held - m.goal <= 0.1 * m.equity else target <= 0.1
  }

  /** What a trade would move: towards the goal, as far as the cash pays for it with slippage and fee, or as far
      as there is something to sell. */
  function Size(cash: real, m: Money): real
    requires m.cost != 0.0
  {
    if m.goal > m.held then Min(m.goal - m.held, Max(cash, 0.0) / m.cost * PAY_MARGIN) else Min(m.held - m.goal, m.held)
  }

  lemma CountsAgree(input: Input, target: real, m: Money)
    requires Priced(input) && input.candles != [] && Counts(input, target, m)
    ensures Holding(input) == m.held >= 0.0 && Equity(input) == m.equity && CostFactor(input) == m.cost
    ensures Wanted(input, target) == m.goal - m.held
  {
    assert Positive(input.position) == Max(input.position, 0.0) && Positive(input.cash) == Max(input.cash, 0.0);
    assert Max(input.position, 0.0) * input.candles[|input.candles| - 1].close >= 0.0;
    assert Times(target, m.equity) == m.goal;
  }

  lemma ScaledDistance(x: real, target: real, equity: real, held: real, goal: real)
    requires equity > 0.0 && held == x * equity && goal == target * equity
    ensures Distance(x, target) > DRIFT_THRESHOLD <==> !(-0.1 * equity <= held - goal <= 0.1 * equity)
  {
    var d := x - target;
    assert d * equity == held - goal;
    if d > 0.1 { assert (d - 0.1) * equity > 0.0; } else { assert (0.1 - d) * equity >= 0.0; }
    if d < -0.1 { assert (-0.1 - d) * equity > 0.0; } else { assert (d + 0.1) * equity >= 0.0; }
  }

  lemma DriftIsOutOfBand(input: Input, target: real, m: Money)
    requires Priced(input) && input.candles != [] && target >= 0.0 && Counts(input, target, m)
    ensures Distance(Exposure(input), target) > DRIFT_THRESHOLD <==> !Banded(m, target)
    ensures if m.equity > 0.0 then Exposure(input) * m.equity == m.held else Exposure(input) == 0.0
  {
    CountsAgree(input, target, m);
    if m.equity > 0.0 {
      var x := m.held / m.equity;
      assert x * m.equity == m.held;
      assert Exposure(input) == x;
      ScaledDistance(x, target, m.equity, m.held, m.goal);
    }
  }

  lemma SizeIsNotional(input: Input, target: real, m: Money)
    requires Priced(input) && input.candles != [] && Counts(input, target, m) && m.cost >= 1.0
    ensures CostFactor(input) == m.cost && Notional(input, target) == Size(input.cash, m)
  {
    CountsAgree(input, target, m);
    assert Times(Over(Positive(input.cash), m.cost), PAY_MARGIN) == Max(input.cash, 0.0) / m.cost * PAY_MARGIN;
  }

  /** The shape of a decision: when it holds, and what it is when it trades. */
  lemma DecisionShape(input: Input, anchor: nat, trend: bool, vol: real)
    requires anchor < |input.candles| && vol > 0.0 && CostFactor(input) != 0.0 && input.candles[|input.candles| - 1].close != 0.0
    ensures var d, target, price := DecideAt(input, anchor, trend, vol), TargetOf(trend, vol), input.candles[|input.candles| - 1].close;
            var reason, size := ReasonFor(input, anchor, target), Notional(input, target);
            && (d.reason == InBand <==> reason.None?)
            && (d.reason == BelowMinOrder <==> reason.Some? && size < 10.0)
            && (d.side == Hold <==> reason.None? || size < 10.0)
            && (d.side != Hold ==>
                  && (d.side == Buy <==> Wanted(input, target) > 0.0)
                  && d.quantity == (if d.side == Buy then Over(size, price) else Min(Over(size, price), Positive(input.position)))
                  && d.notional == Times(d.quantity, price)
                  && Some(d.reason) == reason)
            && d.fields == Some(Fields(target, Exposure(input), TrendAt(input.candles, |input.candles| - 1),
                                       input.volatility(|input.candles| - 1), input.candles[anchor].start))
  {
    hide TrendAt;
    hide Notional;
    hide Exposure;
    hide Distance;
    hide Wanted;
    hide Times;
    hide Over;
  }

  /** The first reason that applies at an anchor, in money. */
  function Occasion(input: Input, anchor: nat, target: real, m: Money): Option<Reason> {
    if anchor == |input.candles| - 1 then Some(Anchor)
    else if input.monthStart then Some(MonthStart)
    else if Banded(m, target) then None
    else Some(Drift)
  }

  lemma ReasonsInMoney(input: Input, anchor: nat, target: real, m: Money)
    requires anchor < |input.candles| && (Distance(Exposure(input), target) > DRIFT_THRESHOLD <==> !Banded(m, target))
    ensures ReasonFor(input, anchor, target) == Occasion(input, anchor, target, m)
  {
    hide Distance;
    hide Exposure;
    hide Banded;
  }

  /** Half the equity at twice the target volatility, and so on; all of it at or below the target; none out of trend. */
  lemma TargetIs(trend: bool, vol: real)
    requires vol > 0.0
    ensures TargetOf(trend, vol) == (if !trend then 0.0 else if vol <= 0.5 then 1.0 else 0.5 / vol)
    ensures 0.0 <= TargetOf(trend, vol) <= 1.0
  {
    TargetHitsTheVolatility(trend, vol);
    if trend && vol > 0.5 {
      assert Over(VOL_TARGET, vol) == 0.5 / vol;
    }
  }

  /** The decision at an anchor, exactly, in money: it holds without an occasion or when the size is below the
      minimum order; otherwise it buys when the goal is above the holding, and else sells, that size. */
  lemma TradesExactly(input: Input, anchor: nat, trend: bool, vol: real, target: real, m: Money)
    requires Priced(input) && anchor < |input.candles| && vol > 0.0 && m.cost >= 1.0
    requires target == (if !trend then 0.0 else if vol <= 0.5 then 1.0 else 0.5 / vol) && Counts(input, target, m)
    ensures CostFactor(input) == m.cost
    ensures var d, price := DecideAt(input, anchor, trend, vol), input.candles[|input.candles| - 1].close;
            var occasion, size := Occasion(input, anchor, target, m), Size(input.cash, m);
            && (d.reason == InBand <==> occasion.None?)
            && (d.reason == BelowMinOrder <==> occasion.Some? && size < 10.0)
            && (d.side == Hold <==> occasion.None? || size < 10.0)
            && (d.side != Hold ==>
                  && (d.side == Buy <==> m.goal > m.held) && Some(d.reason) == occasion
                  && d.quantity == (if d.side == Buy then Over(size, price) else Min(Over(size, price), Max(input.position, 0.0)))
                  && d.notional == Times(d.quantity, price))
            && d.fields.Some? && d.fields.value.target == target && d.fields.value.anchorStart == input.candles[anchor].start
            && d.fields.value.exposure == Exposure(input)
  {
    TargetIs(trend, vol);
    DriftIsOutOfBand(input, target, m);
    CountsAgree(input, target, m);
    SizeIsNotional(input, target, m);
    DecisionShape(input, anchor, trend, vol);
    ReasonsInMoney(input, anchor, target, m);
    assert Positive(input.position) == Max(input.position, 0.0);
    hide *;
  }

  // ---- What a trade does

  lemma OverTimes(a: real, b: real)
    requires b != 0.0
    ensures Times(Over(a, b), b) == a
  {
  }

  lemma TimesKeepsOrder(a: real, b: real, f: real)
    requires a <= b && f >= 0.0
    ensures Times(a, f) <= Times(b, f)
  {
    assert (b - a) * f >= 0.0;
  }

  lemma TimesSwaps(a: real, b: real, c: real)
    ensures Times(Times(a, b), c) == Times(Times(a, c), b)
  {
  }

  /** The target is a share of the equity: none out of trend, all of it while volatility is at or below
      the target one, and otherwise the share that brings it down to exactly that. */
  lemma TargetHitsTheVolatility(trend: bool, vol: real)
    requires vol > 0.0
    ensures 0.0 <= TargetOf(trend, vol) <= 1.0
    ensures !trend ==> TargetOf(trend, vol) == 0.0
    ensures trend && vol <= VOL_TARGET ==> TargetOf(trend, vol) == 1.0
    ensures trend && vol > VOL_TARGET ==> Times(TargetOf(trend, vol), vol) == VOL_TARGET && TargetOf(trend, vol) < 1.0
  {
    hide Times;
    hide Over;
    var share := Over(VOL_TARGET, vol);
    OverTimes(VOL_TARGET, vol);
    OneTimes(vol);
    if vol <= VOL_TARGET && share < 1.0 {
      MoreTimes(1.0, share, vol);
    } else if vol > VOL_TARGET && share >= 1.0 {
      TimesKeepsOrder(1.0, share, vol);
    } else if share <= 0.0 {
      TimesKeepsOrder(share, 0.0, vol);
    }
  }

  lemma OneTimes(x: real)
    ensures Times(1.0, x) == x && Times(0.0, x) == 0.0
  {
  }

  /** A buy can be paid, fee and slippage included, and leaves the holding at or below the target share of
      the equity; a sell disposes of no more than is held and leaves it at or above; both move by at least
      the minimum order, in the direction of the target. */
  lemma TradesMoveTowardsTheTarget(input: Input, anchor: nat, trend: bool, vol: real)
    requires Priced(input) && anchor < |input.candles| && vol > 0.0 && CostFactor(input) >= 1.0
    ensures var d := DecideAt(input, anchor, trend, vol);
            var goal := Times(TargetOf(trend, vol), Equity(input));
            && (d.side == Buy ==>
                  && d.notional >= MIN_ORDER_NOTIONAL && Holding(input) + d.notional <= goal
                  && Times(d.notional, CostFactor(input)) <= Times(Positive(input.cash), PAY_MARGIN))
            && (d.side == Sell ==>
                  && d.notional >= MIN_ORDER_NOTIONAL && d.quantity <= Positive(input.position)
                  && goal <= Holding(input) - d.notional)
            && (d.side == Hold ==> d.quantity == 0.0 && d.notional == 0.0)
  {
    hide Times;
    hide Over;
    hide TargetOf;
    hide Exposure;
    hide CostFactor;
    hide TrendAt;
    hide Equity;
    hide ReasonFor;
    var price := input.candles[|input.candles| - 1].close;
    var target := TargetOf(trend, vol);
    var notional := Notional(input, target);
    var f, affordable := CostFactor(input), Over(Positive(input.cash), CostFactor(input));
    OverTimes(notional, price);
    if Wanted(input, target) > 0.0 {
      TimesKeepsOrder(notional, Times(affordable, PAY_MARGIN), f);
      TimesSwaps(affordable, PAY_MARGIN, f);
      OverTimes(Positive(input.cash), f);
    } else {
      SellsWhatIsHeld(notional, Positive(input.position), price);
    }
  }

  /** What is left of the equity once the costs of a buy are paid. */
  function EquityAfter(input: Input, notional: real): real
    requires input.candles != []
  {
    Equity(input) - (Times(notional, CostFactor(input)) - notional)
  }

  /** The target is a share of the equity before costs.  Against the equity after them a buy stays at or
      below the target share if and only if its size, plus the target share of its costs, fits in what was
      wanted; a buy of everything wanted does so if and only if slippage and fee are both zero. */
  lemma ExposureAfterCosts(input: Input, anchor: nat, trend: bool, vol: real)
    requires Priced(input) && anchor < |input.candles| && vol > 0.0 && CostFactor(input) >= 1.0
    requires DecideAt(input, anchor, trend, vol).side == Buy
    ensures var n, target := DecideAt(input, anchor, trend, vol).notional, TargetOf(trend, vol);
            var fits := Holding(input) + n <= Times(target, EquityAfter(input, n));
            && (fits <==> n + Times(target, Times(n, CostFactor(input)) - n) <= Wanted(input, target))
            && (n == Wanted(input, target) ==> (fits <==> input.slippageBps == 0.0 && input.feeBps == 0.0))
  {
    hide Times;
    hide Over;
    hide TargetOf;
    hide Exposure;
    hide TrendAt;
    hide Equity;
    hide ReasonFor;
    hide Holding;
    hide Notional;
    hide CostFactor;
    var target := TargetOf(trend, vol);
    var n, f := DecideAt(input, anchor, trend, vol).notional, CostFactor(input);
    var costs := Times(n, f) - n;
    BuysAreWanted(input, anchor, trend, vol);
    TimesDiffers(target, Equity(input), costs);
    TargetHitsTheVolatility(trend, vol);
    CostsAreFreeWhen(input);
    OneTimes(n);
    if f > 1.0 {
      MoreTimes(f, 1.0, n);
      TimesSwapped(n, f);
      TimesSwapped(target, costs);
      MoreTimes(target, 0.0, costs);
      OneTimes(costs);
    } else {
      TimesSwapped(n, f);
      TimesSwapped(target, costs);
      TimesZero(target);
    }
  }

  /** A buy has a positive target and a positive size. */
  lemma BuysAreWanted(input: Input, anchor: nat, trend: bool, vol: real)
    requires Priced(input) && anchor < |input.candles| && vol > 0.0 && CostFactor(input) >= 1.0
    requires DecideAt(input, anchor, trend, vol).side == Buy
    ensures DecideAt(input, anchor, trend, vol).notional > 0.0 && TargetOf(trend, vol) > 0.0
  {
    hide Times;
    hide Over;
    hide TargetOf;
    hide Exposure;
    hide CostFactor;
    hide TrendAt;
    hide Equity;
    hide ReasonFor;
    var target := TargetOf(trend, vol);
    TradesMoveTowardsTheTarget(input, anchor, trend, vol);
    TargetHitsTheVolatility(trend, vol);
    if target == 0.0 {
      OneTimes(Equity(input));
      HoldingIsPositive(input);
    }
  }

  lemma HoldingIsPositive(input: Input)
    requires Priced(input) && input.candles != []
    ensures Holding(input) >= 0.0
  {
    TimesKeepsOrder(0.0, Positive(input.position), input.candles[|input.candles| - 1].close);
  }

  lemma CostsAreFreeWhen(input: Input)
    requires Priced(input)
    ensures CostFactor(input) == 1.0 <==> input.slippageBps == 0.0 && input.feeBps == 0.0
  {
    var s, f := input.slippageBps / 10000.0, input.feeBps / 10000.0;
    assert s * f >= 0.0;
    assert (1.0 + s) * (1.0 + f) == 1.0 + s + f + s * f;
  }

  lemma TimesDiffers(a: real, b: real, c: real)
    ensures Times(a, b - c) == Times(a, b) - Times(a, c)
  {
  }

  lemma TimesSwapped(a: real, b: real)
    ensures Times(a, b) == Times(b, a)
  {
  }

  lemma TimesZero(a: real)
    ensures Times(a, 0.0) == 0.0
  {
  }

  lemma SellsWhatIsHeld(notional: real, position: real, price: real)
    requires price > 0.0 && notional <= Times(position, price)
    ensures Over(notional, price) <= position
  {
    OverTimes(notional, price);
    if Over(notional, price) > position {
      MoreTimes(Over(notional, price), position, price);
    }
  }

  lemma MoreTimes(a: real, b: real, f: real)
    requires a > b && f > 0.0
    ensures Times(a, f) > Times(b, f)
  {
    assert (a - b) * f > 0.0;
  }
}
