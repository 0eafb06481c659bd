/** The protective exit: plan levels, the trailing stop, and the machine that watches candles. */
module ProtectiveOrder {
  import opened Basics

  datatype Policy =
    | Fixed(stopLossBps: real, takeProfitBps: real)
    | AtrMultiple(stopMultiple: real, takeMultiple: real)
    | Trailing(trailBps: real, takeBps: Option<real>)

  datatype Mode = FixedMode | AtrMode | TrailingMode

  datatype Plan = Plan(
    positionId: string,
    quantity: real,
    entry: real,
    stop: real,
    target: Option<real>,
    anchor: real,
    armedAt: int,
    mode: Mode)

  datatype Kind = StopLoss | TakeProfit
  datatype Reason = GapOpen | Intrabar | AmbiguousStopFirst
  datatype Trigger = Trigger(kind: Kind, reason: Reason, price: real, at: int)

  predicate ValidPolicy(p: Policy) {
    match p
    case Fixed(stop, take) => 0.0 < stop < 10000.0 && 0.0 < take < 100000.0
    case AtrMultiple(stop, take) => stop > 0.0 && take > 0.0
    case Trailing(trail, take) => 0.0 < trail < 10000.0 && (take.Some? ==> 0.0 < take.value < 100000.0)
  }

  function ModeOf(p: Policy): Mode {
    match p
    case Fixed(_, _) => FixedMode
    case AtrMultiple(_, _) => AtrMode
    case Trailing(_, _) => TrailingMode
  }

  function Times(price: real, factor: real): real {
    price * factor
  }

  /** A price moved by some basis points, up or down. */
  function Raised(price: real, bps: real): real {
    Times(price, 1.0 + bps / 10000.0)
  }

  function Lowered(price: real, bps: real): real {
    Times(price, 1.0 - bps / 10000.0)
  }

  predicate ValidArming(p: Policy, positionId: string, quantity: real, entry: real, atr: Option<real>, armedAt: int) {
    && NonBlank(positionId) && quantity > 0.0 && entry > 0.0 && Timestamp(armedAt)
    && (p.AtrMultiple? ==> atr.Some? && atr.value > 0.0)
  }

  function StopOf(p: Policy, entry: real, atr: real): real {
    match p
    case Fixed(stop, _) => entry - Times(entry, stop / 10000.0)
    case AtrMultiple(stop, _) => entry - Times(atr, stop)
    case Trailing(trail, _) => Lowered(entry, trail)
  }

  function TargetOf(p: Policy, entry: real, atr: real): Option<real> {
    match p
    case Fixed(_, take) => Some(entry + Times(entry, take / 10000.0))
    case AtrMultiple(_, take) => Some(entry + Times(atr, take))
    case Trailing(_, None) => None
    case Trailing(_, Some(take)) => Some(Raised(entry, take))
  }

  function CreatePlan(p: Policy, positionId: string, quantity: real, entry: real, atr: Option<real>, armedAt: int): Result<Plan> {
    if !ValidPolicy(p) then Fail("INVALID_PROTECTIVE_POLICY")
    else if !ValidArming(p, positionId, quantity, entry, atr, armedAt) then Fail("INVALID_PROTECTIVE_PLAN")
    else
      var range := if atr.Some? then atr.value else 0.0;
      var stop, target := StopOf(p, entry, range), TargetOf(p, entry, range);
      if stop <= 0.0 || stop >= entry || (target.Some? && (target.value <= 0.0 || target.value <= entry))
      then Fail("INVALID_PROTECTIVE_PLAN")
      else Ok(Plan(positionId, quantity, entry, stop, target, entry, armedAt, ModeOf(p)))
  }

  /** A plan is refused exactly for a bad policy, a bad request, or an average range too wide for the
      entry price: the other checks on the levels never fail. */
  lemma WhenPlansExist(p: Policy, positionId: string, quantity: real, entry: real, atr: Option<real>, armedAt: int)
    ensures CreatePlan(p, positionId, quantity, entry, atr, armedAt).Ok? <==>
            && ValidPolicy(p) && ValidArming(p, positionId, quantity, entry, atr, armedAt)
            && (p.AtrMultiple? ==> Times(atr.value, p.stopMultiple) < entry)
  {
    hide NonBlank;
    hide StopOf;
    hide TargetOf;
    if ValidPolicy(p) && ValidArming(p, positionId, quantity, entry, atr, armedAt) {
      LevelsInOrder(p, entry, if atr.Some? then atr.value else 0.0);
    }
  }

  /** The levels a valid policy gives: only a wide average range can push the stop to zero or below. */
  lemma LevelsInOrder(p: Policy, entry: real, atr: real)
    requires ValidPolicy(p) && entry > 0.0 && (p.AtrMultiple? ==> atr > 0.0)
    ensures StopOf(p, entry, atr) < entry
    ensures StopOf(p, entry, atr) > 0.0 <==> (p.AtrMultiple? ==> Times(atr, p.stopMultiple) < entry)
    ensures TargetOf(p, entry, atr).Some? ==> TargetOf(p, entry, atr).value > entry
  {
    hide Raised;
    hide Lowered;
    hide Times;
    match p
    case Fixed(stop, take) =>
      Portion(entry, stop / 10000.0);
      Positive(entry, take / 10000.0);
    case AtrMultiple(stop, take) =>
      Positive(atr, stop);
      Positive(atr, take);
    case Trailing(trail, take) =>
      LoweredIsBelow(entry, trail);
      if take.Some? {
        RaisedIsAbove(entry, take.value);
      }
  }

  lemma Portion(price: real, share: real)
    requires price > 0.0 && 0.0 < share < 1.0
    ensures 0.0 < Times(price, share) < price
  {
    Positive(price, share);
    Positive(price, 1.0 - share);
    assert Times(price, 1.0 - share) == price - Times(price, share);
  }

  lemma Positive(a: real, b: real)
    requires a > 0.0 && b > 0.0
    ensures Times(a, b) > 0.0
  {
  }

  lemma LoweredIsBelow(price: real, bps: real)
    requires price > 0.0 && 0.0 < bps < 10000.0
    ensures 0.0 < Lowered(price, bps) < price
  {
    hide Times;
    Portion(price, 1.0 - bps / 10000.0);
  }

  lemma RaisedIsAbove(price: real, bps: real)
    requires price > 0.0 && bps > 0.0
    ensures Raised(price, bps) > price
  {
    Positive(price, bps / 10000.0);
    TimesAdds(price, 1.0, bps / 10000.0);
  }

  lemma TimesAdds(price: real, a: real, b: real)
    ensures Times(price, a + b) == Times(price, a) + Times(price, b)
  {
  }

  lemma TimesDiffers(high: real, low: real, f: real)
    ensures Times(high - low, f) == Times(high, f) - Times(low, f)
  {
  }

  lemma LoweredIsMonotone(low: real, high: real, bps: real)
    requires low <= high && 0.0 < bps < 10000.0
    ensures Lowered(low, bps) <= Lowered(high, bps)
  {
    hide Times;
    if low < high {
      Positive(high - low, 1.0 - bps / 10000.0);
      TimesDiffers(high, low, 1.0 - bps / 10000.0);
    }
  }

  function Advance(plan: Plan, p: Policy, high: real): Plan {
    if !p.Trailing? || plan.mode != TrailingMode || high <= plan.anchor then plan
    else plan.(anchor := high, stop := Max(plan.stop, Lowered(high, p.trailBps)))
  }

  // ---- Resolution

  function ResolveOpen(plan: Plan, start: int, open: real): Result<Option<Trigger>> {
    if !Timestamp(start) || start < plan.armedAt || open <= 0.0 then Fail("INVALID_PROTECTIVE_CANDLE")
    else if open <= plan.stop then Ok(Some(Trigger(StopLoss, GapOpen, open, start)))
    else if plan.target.Some? && open >= plan.target.value then Ok(Some(Trigger(TakeProfit, GapOpen, open, start)))
    else Ok(None)
  }

  function ResolveRange(plan: Plan, start: int, high: real, low: real): Result<Option<Trigger>> {
    if !Timestamp(start) || start < plan.armedAt || high <= 0.0 || low <= 0.0 || low > high then Fail("INVALID_PROTECTIVE_CANDLE")
    else
      var stopHit := low <= plan.stop;
      var takeHit := plan.target.Some? && high >= plan.target.value;
      if stopHit && takeHit then Ok(Some(Trigger(StopLoss, AmbiguousStopFirst, plan.stop, start)))
      else if stopHit then Ok(Some(Trigger(StopLoss, Intrabar, plan.stop, start)))
      else if takeHit then Ok(Some(Trigger(TakeProfit, Intrabar, plan.target.value, start)))
      else Ok(None)
  }

  // ---- The machine

  datatype State = Idle | AwaitingOpen | AwaitingRange | Triggered | Cancelled | Failed

  datatype Context = Context(
    policy: Policy,
    plan: Option<Plan>,
    currentStart: Option<int>,
    currentOpen: Option<real>,
    lastStart: Option<int>,
    resolution: Option<Trigger>,
    cancelReason: Option<string>,
    lastError: Option<string>)

  datatype Machine = Machine(state: State, ctx: Context)

  datatype Event =
    | ArmRequested(positionId: string, quantity: real, entry: real, atr: Option<real>, armedAt: int)
    | PositionIncreased(quantity: real, entry: real, atr: Option<real>, updatedAt: int)
    | PositionReduced(quantity: real, updatedAt: int)
    | CandleOpened(start: int, open: real)
    | CandleRangeReplayed(start: int, high: real, low: real)
    | CancelRequested(reason: string)

  function Create(p: Policy): Machine {
    Machine(Idle, Context(p, None, None, None, None, None, None, None))
  }

  function Broken(m: Machine, code: string): Machine {
    Machine(Failed, m.ctx.(lastError := Some(code)))
  }

  function Rearm(m: Machine, state: State, plan: Plan): Machine {
    Machine(state, m.ctx.(plan := Some(plan), resolution := None, cancelReason := None, lastError := None))
  }

  function Increase(m: Machine, quantity: real, entry: real, atr: Option<real>, updatedAt: int): Machine {
    match m.ctx.plan
    case None => Broken(m, "INVALID_PROTECTIVE_PLAN")
    case Some(plan) =>
      match CreatePlan(m.ctx.policy, plan.positionId, quantity, entry, atr, updatedAt)
      case Fail(_) => Broken(m, "INVALID_PROTECTIVE_PLAN")
      case Ok(created) =>
        if quantity > plan.quantity && (m.ctx.currentStart.None? || m.ctx.currentStart.value == updatedAt)
        then Rearm(m, m.state, created)
        else Broken(m, "INVALID_PROTECTIVE_PLAN")
  }

  function Reduce(m: Machine, quantity: real, updatedAt: int): Machine {
    if && m.ctx.plan.Some? && 0.0 < quantity < m.ctx.plan.value.quantity && updatedAt >= m.ctx.plan.value.armedAt
       && (m.ctx.currentStart.None? || m.ctx.currentStart.value == updatedAt)
    then m.(ctx := m.ctx.(plan := Some(m.ctx.plan.value.(quantity := quantity))))
    else Broken(m, "INVALID_PROTECTIVE_PLAN")
  }

  function Open(m: Machine, start: int, open: real): Machine {
    var c := m.ctx;
    if c.plan.None? || (c.lastStart.Some? && start <= c.lastStart.value) then Broken(m, "INVALID_PROTECTIVE_SEQUENCE")
    else
      match ResolveOpen(c.plan.value, start, open)
      case Fail(_) => Broken(m, "INVALID_PROTECTIVE_SEQUENCE")
      case Ok(Some(t)) => Machine(Triggered, c.(resolution := Some(t), lastStart := Some(start), currentStart := None, currentOpen := None))
      case Ok(None) => Machine(AwaitingRange, c.(currentStart := Some(start), currentOpen := Some(open)))
  }

  function Replay(m: Machine, start: int, high: real, low: real): Machine {
    var c := m.ctx;
    if c.plan.None? || c.currentStart != Some(start) || c.currentOpen.None? || low > c.currentOpen.value || high < c.currentOpen.value
    then Broken(m, "INVALID_PROTECTIVE_SEQUENCE")
    else
      var done := c.(lastStart := Some(start), currentStart := None, currentOpen := None);
      match ResolveRange(c.plan.value, start, high, low)
      case Fail(_) => Broken(m, "INVALID_PROTECTIVE_SEQUENCE")
      case Ok(Some(t)) => Machine(Triggered, done.(resolution := Some(t)))
      case Ok(None) => Machine(AwaitingOpen, done.(plan := Some(Advance(c.plan.value, c.policy, high))))
  }

  predicate Armed(s: State) {
    s == AwaitingOpen || s == AwaitingRange
  }

  function Next(m: Machine, e: Event): Machine {
    match e
    case ArmRequested(positionId, quantity, entry, atr, armedAt) =>
      if m.state != Idle then m
      else
        (match CreatePlan(m.ctx.policy, positionId, quantity, entry, atr, armedAt)
         case Ok(plan) => Rearm(m, AwaitingOpen, plan)
         case Fail(_) => Broken(m, "INVALID_PROTECTIVE_PLAN"))
    case PositionIncreased(quantity, entry, atr, at) => if Armed(m.state) then Increase(m, quantity, entry, atr, at) else m
    case PositionReduced(quantity, at) => if Armed(m.state) then Reduce(m, quantity, at) else m
    case CandleOpened(start, open) =>
      if m.state == AwaitingOpen then Open(m, start, open)
      else if m.state == Idle || m.state == AwaitingRange then Broken(m, "INVALID_PROTECTIVE_SEQUENCE") else m
    case CandleRangeReplayed(start, high, low) =>
      if m.state == AwaitingRange then Replay(m, start, high, low)
      else if m.state == Idle || m.state == AwaitingOpen then Broken(m, "INVALID_PROTECTIVE_SEQUENCE") else m
    case CancelRequested(reason) => if Armed(m.state) then Machine(Cancelled, m.ctx.(cancelReason := Some(reason))) else m
  }

  function Run(m: Machine, events: seq<Event>): Machine {
    if events == [] then m else Next(Run(m, events[..|events| - 1]), events[|events| - 1])
  }

  // ---- Every reachable plan

  /** The levels are in order, and a trailing stop is the trail below the anchor. */
  ghost predicate Levelled(p: Policy, plan: Plan) {
    && ValidPolicy(p) && plan.mode == ModeOf(p)
    && 0.0 < plan.stop < plan.anchor && plan.entry <= plan.anchor && plan.quantity > 0.0
    && (plan.target.Some? ==> plan.anchor < plan.target.value)
    && (if p.Trailing? then plan.stop == Lowered(plan.anchor, p.trailBps) else plan.anchor == plan.entry)
  }

  ghost predicate Guarded(m: Machine, p: Policy) {
    && m.ctx.policy == p
    && (Armed(m.state) ==> m.ctx.plan.Some?)
    && (m.ctx.plan.Some? ==> Levelled(p, m.ctx.plan.value))
    && (m.state == AwaitingOpen || m.state == Idle ==> m.ctx.currentStart.None? && m.ctx.currentOpen.None?)
    && (m.state == AwaitingRange ==>
          && m.ctx.currentStart.Some? && m.ctx.currentOpen.Some? && m.ctx.currentOpen.value > 0.0
          && Timestamp(m.ctx.currentStart.value) && m.ctx.plan.value.armedAt <= m.ctx.currentStart.value)
    && (m.state == Triggered <==> m.ctx.resolution.Some?)
  }

  lemma NewPlansAreLevelled(p: Policy, positionId: string, quantity: real, entry: real, atr: Option<real>, armedAt: int)
    requires CreatePlan(p, positionId, quantity, entry, atr, armedAt).Ok?
    ensures Levelled(p, CreatePlan(p, positionId, quantity, entry, atr, armedAt).value)
    ensures CreatePlan(p, positionId, quantity, entry, atr, armedAt).value.armedAt == armedAt
  {
    hide NonBlank;
    hide Lowered;
    hide Raised;
  }

  lemma AdvanceKeepsLevels(p: Policy, plan: Plan, high: real)
    requires Levelled(p, plan) && (plan.target.Some? ==> high < plan.target.value)
    ensures Levelled(p, Advance(plan, p, high))
    ensures Advance(plan, p, high).stop >= plan.stop
    ensures p.Trailing? ==> Advance(plan, p, high).anchor == Max(plan.anchor, high)
  {
    hide Lowered;
    if p.Trailing? && high > plan.anchor {
      LoweredIsMonotone(plan.anchor, high, p.trailBps);
      LoweredIsBelow(high, p.trailBps);
    }
  }

  lemma NextKeepsGuard(m: Machine, p: Policy, e: Event)
    requires Guarded(m, p)
    ensures Guarded(Next(m, e), p)
  {
    hide CreatePlan;
    hide Levelled;
    hide Advance;
    match e
    case ArmRequested(positionId, quantity, entry, atr, armedAt) =>
      if CreatePlan(p, positionId, quantity, entry, atr, armedAt).Ok? {
        NewPlansAreLevelled(p, positionId, quantity, entry, atr, armedAt);
      }
    case PositionIncreased(quantity, entry, atr, at) =>
      if Armed(m.state) && CreatePlan(p, m.ctx.plan.value.positionId, quantity, entry, atr, at).Ok? {
        NewPlansAreLevelled(p, m.ctx.plan.value.positionId, quantity, entry, atr, at);
      }
    case PositionReduced(quantity, at) =>
      if Armed(m.state) && quantity > 0.0 {
        SmallerIsLevelled(p, m.ctx.plan.value, quantity);
      }
    case CandleRangeReplayed(start, high, low) =>
      if m.state == AwaitingRange && (m.ctx.plan.value.target.Some? ==> high < m.ctx.plan.value.target.value) {
        AdvanceKeepsLevels(p, m.ctx.plan.value, high);
      }
    case _ =>
  }

  lemma SmallerIsLevelled(p: Policy, plan: Plan, quantity: real)
    requires Levelled(p, plan) && quantity > 0.0
    ensures Levelled(p, plan.(quantity := quantity))
  {
  }

  /** Whatever happens to the position and the market: 0 < stop < anchor < target, the stop of a trailing
      plan is the trail below its anchor, and a machine has a resolution exactly when it triggered. */
  lemma {:induction false} EveryRunIsGuarded(p: Policy, events: seq<Event>)
    ensures Guarded(Run(Create(p), events), p)
  {
    hide Next;
    if events == [] {
      assert Guarded(Create(p), p);
    } else {
      EveryRunIsGuarded(p, events[..|events| - 1]);
      NextKeepsGuard(Run(Create(p), events[..|events| - 1]), p, events[|events| - 1]);
    }
  }

  // ---- What a plan is made of

  /** The levels of a plan lie the policy's distances from the entry: in basis points of it, or in average ranges. */
  lemma PlansKeepTheirDistance(p: Policy, positionId: string, quantity: real, entry: real, atr: Option<real>, armedAt: int)
    requires CreatePlan(p, positionId, quantity, entry, atr, armedAt).Ok?
    ensures var plan := CreatePlan(p, positionId, quantity, entry, atr, armedAt).value;
            && plan.positionId == positionId && plan.quantity == quantity && plan.entry == plan.anchor == entry && plan.armedAt == armedAt
            && (match p
                case Fixed(stop, take) =>
                  10000.0 * (entry - plan.stop) == stop * entry && plan.target.Some? && 10000.0 * (plan.target.value - entry) == take * entry
                case AtrMultiple(stop, take) =>
                  atr.Some? && entry - plan.stop == stop * atr.value && plan.target.Some? && plan.target.value - entry == take * atr.value
                case Trailing(trail, take) =>
                  && 10000.0 * (entry - plan.stop) == trail * entry
                  && (plan.target.Some? <==> take.Some?) && (take.Some? ==> 10000.0 * (plan.target.value - entry) == take.value * entry))
  {
    hide NonBlank;
    match p
    case Fixed(stop, take) =>
      assert 10000.0 * (entry * (stop / 10000.0)) == stop * entry;
      assert 10000.0 * (entry * (take / 10000.0)) == take * entry;
    case AtrMultiple(_, _) =>
    case Trailing(trail, take) =>
      assert entry * (1.0 - trail / 10000.0) == entry - entry * (trail / 10000.0);
      assert 10000.0 * (entry * (trail / 10000.0)) == trail * entry;
      if take.Some? {
        assert entry * (1.0 + take.value / 10000.0) == entry + entry * (take.value / 10000.0);
        assert 10000.0 * (entry * (take.value / 10000.0)) == take.value * entry;
      }
  }

  // ---- What ends the watch

  /** A position that did not grow, shrink or belong to the open candle as it was said to, or levels nobody can set. */
  predicate Unsound(m: Machine, e: Event)
    requires m.ctx.plan.Some?
  {
    var plan, now := m.ctx.plan.value, m.ctx.currentStart;
    match e
    case PositionIncreased(quantity, entry, atr, at) =>
      || quantity <= plan.quantity || (now.Some? && now.value != at)
      || !ValidPolicy(m.ctx.policy) || !ValidArming(m.ctx.policy, plan.positionId, quantity, entry, atr, at)
      || (m.ctx.policy.AtrMultiple? && Times(atr.value, m.ctx.policy.stopMultiple) >= entry)
    case PositionReduced(quantity, at) => quantity <= 0.0 || quantity >= plan.quantity || at < plan.armedAt || (now.Some? && now.value != at)
    case CandleOpened(start, open) =>
      || m.state == AwaitingRange || (m.ctx.lastStart.Some? && start <= m.ctx.lastStart.value)
      || !Timestamp(start) || start < plan.armedAt || open <= 0.0
    case CandleRangeReplayed(start, high, low) =>
      || m.state == AwaitingOpen || now != Some(start) || m.ctx.currentOpen.None? || low > m.ctx.currentOpen.value || high < m.ctx.currentOpen.value || low <= 0.0
    case _ => false
  }

  /** While it watches, an event fails the machine exactly when it is unsound, under the error for it; cancelling
      cancels it; and a trigger closes the candle it came in. */
  lemma FailsExactly(m: Machine, p: Policy, e: Event)
    requires Guarded(m, p) && Armed(m.state)
    ensures Next(m, e).state == Failed <==> Unsound(m, e)
    ensures e.CancelRequested? ==> Next(m, e) == Machine(Cancelled, m.ctx.(cancelReason := Some(e.reason)))
    ensures Next(m, e).state == Cancelled <==> e.CancelRequested?
    ensures e.PositionIncreased? || e.PositionReduced? || e.ArmRequested? ==> Next(m, e).state == m.state || Next(m, e).state == Failed
    ensures Next(m, e).state == Failed ==>
              Next(m, e).ctx.lastError
              == Some(if e.PositionIncreased? || e.PositionReduced? then "INVALID_PROTECTIVE_PLAN" else "INVALID_PROTECTIVE_SEQUENCE")
    ensures Next(m, e).state == Triggered ==>
              && (e.CandleOpened? || e.CandleRangeReplayed?) && Next(m, e).ctx.lastStart == Some(e.start)
              && Next(m, e).ctx.currentStart.None? && Next(m, e).ctx.currentOpen.None?
  {
    hide NonBlank;
    hide Levelled;
    hide CreatePlan;
    hide Advance;
    hide Times;
    hide ValidArming;
    if e.PositionIncreased? {
      WhenPlansExist(p, m.ctx.plan.value.positionId, e.quantity, e.entry, e.atr, e.updatedAt);
    }
  }

  /** A machine that has triggered, was cancelled or failed hears nothing more. */
  lemma {:induction false} EndsAreFinal(m: Machine, events: seq<Event>)
    requires m.state == Triggered || m.state == Cancelled || m.state == Failed
    ensures Run(m, events) == m
  {
    if events != [] {
      EndsAreFinal(m, events[..|events| - 1]);
    }
  }

  /** What the events say of the position: which one, how much of it, its entry, and since when. */
  datatype Position = Position(positionId: string, quantity: real, entry: real, armedAt: int)

  function Said(p: Policy, events: seq<Event>): Option<Position> {
    if events == [] then None
    else
      var before, e := events[..|events| - 1], events[|events| - 1];
      var m, last := Run(Create(p), before), Said(p, before);
      if Next(m, e).state == Failed then last
      else
        match e
        case ArmRequested(positionId, quantity, entry, _, armedAt) =>
          if m.state == Idle then Some(Position(positionId, quantity, entry, armedAt)) else last
        case PositionIncreased(quantity, entry, _, at) =>
          if Armed(m.state) && last.Some? then Some(Position(last.value.positionId, quantity, entry, at)) else last
        case PositionReduced(quantity, _) =>
          if Armed(m.state) && last.Some? then Some(last.value.(quantity := quantity)) else last
        case _ => last
  }

  /** The plan is for the position the events tell of: reductions change its quantity alone, increases its entry too. */
  lemma {:induction false} PlansFollowThePosition(p: Policy, events: seq<Event>)
    ensures var m, said := Run(Create(p), events), Said(p, events);
            && (m.ctx.plan.Some? <==> said.Some?)
            && (m.ctx.plan.Some? ==>
                  var plan := m.ctx.plan.value;
                  said == Some(Position(plan.positionId, plan.quantity, plan.entry, plan.armedAt)))
  {
    hide NonBlank;
    hide CreatePlan;
    hide Advance;
    hide Guarded;
    if events != [] {
      var before, e := events[..|events| - 1], events[|events| - 1];
      PlansFollowThePosition(p, before);
      var m := Run(Create(p), before);
      EveryRunIsGuarded(p, before);
      PolicyStands(m, p);
      match e
      case ArmRequested(positionId, quantity, entry, atr, armedAt) =>
        if CreatePlan(p, positionId, quantity, entry, atr, armedAt).Ok? { CreatedFor(p, positionId, quantity, entry, atr, armedAt); }
      case PositionIncreased(quantity, entry, atr, at) =>
        if m.ctx.plan.Some? && CreatePlan(p, m.ctx.plan.value.positionId, quantity, entry, atr, at).Ok? {
          CreatedFor(p, m.ctx.plan.value.positionId, quantity, entry, atr, at);
        }
      case CandleRangeReplayed(_, high, _) =>
        if m.ctx.plan.Some? { AdvancedFor(p, m.ctx.plan.value, high); }
      case _ =>
    }
  }

  lemma PolicyStands(m: Machine, p: Policy)
    requires Guarded(m, p)
    ensures m.ctx.policy == p && (Armed(m.state) ==> m.ctx.plan.Some?)
  {
  }

  lemma CreatedFor(p: Policy, positionId: string, quantity: real, entry: real, atr: Option<real>, armedAt: int)
    requires CreatePlan(p, positionId, quantity, entry, atr, armedAt).Ok?
    ensures var plan := CreatePlan(p, positionId, quantity, entry, atr, armedAt).value;
            plan.positionId == positionId && plan.quantity == quantity && plan.entry == entry && plan.armedAt == armedAt
  {
    hide NonBlank;
  }

  lemma AdvancedFor(p: Policy, plan: Plan, high: real)
    ensures var advanced := Advance(plan, p, high);
            && advanced.positionId == plan.positionId && advanced.quantity == plan.quantity
            && advanced.entry == plan.entry && advanced.armedAt == plan.armedAt
  {
  }
}
