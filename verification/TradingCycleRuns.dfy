/** Every run of the trading cycle: no blind resubmission, one decision per candle, bounded submissions. */
module TradingCycleRuns {
  import opened Basics
  import opened TradingCycle

  /** An order handed to the exchange: in which cycle, with what on record, whether an earlier one was still
      without an outcome, and what its cycle and the operator had said until then. */
  datatype Submission = Submission(cycle: nat, ctx: Context, blind: bool, trail: seq<Event>, orders: seq<Event>)

  /** What has happened, told from the events alone: `trail` is what the cycle has heard since its alarm, `orders`
      what the operator has ordered since the start, `cancelled` whether an effect was cancelled since the last of
      these, and `missed` how often scheduling has failed since it last succeeded. */
  datatype History = History(
    cycle: nat, admitted: seq<int>, submissions: seq<Submission>, unresolved: bool,
    trail: seq<Event>, orders: seq<Event>, cancelled: bool, missed: nat)

  datatype Life = Life(m: Machine, h: History)

  /** The exchange has said what became of the order. */
  predicate Resolves(s: State, e: Event) {
    || (s == SubmittingOrder && (e.OrderConfirmed? || e.OrderRejected? || e.OrderNoLongerNeeded? || e.OrderProtectionFailed?))
    || (s == ReconcilingOrder && (e.OrderReconciled? || e.OrderNoLongerNeeded? || e.OrderProtectionFailed?))
  }

  predicate Resets(s: State, e: Event) {
    (s == Failed || s == Halted) && e.Reset? && e.canControl
  }

  /** A stop, kill or revocation that is obeyed. */
  predicate Orders(e: Event) {
    || (e.StopRequested? && e.canControl)
    || (e.KillEngaged? && e.canControl && NonBlank(e.controlId))
    || e.PermissionRevoked?
  }

  predicate Starts(s: State, e: Event) {
    s == State.Stopped && e.StartRequested? && e.canControl && e.canTrade
  }

  function TrailAfter(h: History, m: Machine, e: Event, n: Machine): seq<Event> {
    if Begins(m, n) then [e]
    else if Resets(m.state, e) then []
    else if 1 <= Part(m.state) <= 5 && !Control(e) && n != m then h.trail + [e]
    else h.trail
  }

  function OrdersAfter(h: History, m: Machine, e: Event): seq<Event> {
    if Starts(m.state, e) || Resets(m.state, e) then [] else if Orders(e) then h.orders + [e] else h.orders
  }

  function MissedAfter(h: History, m: Machine, e: Event): nat {
    if Starts(m.state, e) || Resets(m.state, e) || (m.state == Scheduling && e.ScheduleSucceeded?) then 0
    else if m.state == Scheduling && e.ScheduleFailed? then h.missed + 1
    else h.missed
  }

  function Noted(h: History, m: Machine, e: Event, n: Machine): History {
    h.(trail := TrailAfter(h, m, e, n), orders := OrdersAfter(h, m, e), missed := MissedAfter(h, m, e),
       cancelled := !Orders(e) && (h.cancelled || (m.state == Cancelling && e.EffectCancelled?)))
  }

  function Remember(before: History, m: Machine, e: Event, n: Machine): History {
    var h := Noted(before, m, e, n);
    if Begins(m, n) then h.(cycle := h.cycle + 1)
    else if Admits(m, e, n) then
      h.(admitted := h.admitted + [e.candleClosedAt])
    else if m.state == Authorizing && n.state == SubmittingOrder then
      h.(submissions := h.submissions + [Submission(h.cycle, n.ctx, h.unresolved, h.trail, h.orders)], unresolved := true)
    else if Resolves(m.state, e) || Resets(m.state, e) then h.(unresolved := false)
    else h
  }

  function Advance(l: Life, e: Event): Life {
    Life(Macro(l.m, e), Remember(l.h, l.m, e, Macro(l.m, e)))
  }

  function Run(l: Life, events: seq<Event>): Life {
    if events == [] then l else Advance(Run(l, events[..|events| - 1]), events[|events| - 1])
  }

  function Begin(lastDecision: Option<int>, staleness: int, limits: Budgets): Life {
    Life(Create(lastDecision, staleness, limits), History(0, [], [], false, [], [], false, 0))
  }

  // ---- The in-flight flag

  predicate OrderOut(s: State) {
    s == SubmittingOrder || s == ReconcilingOrder || s == RetryingReconciliation
  }

  /** The flag tells exactly whether an order is without an outcome, which is so in the three order
      states, possibly after a failure, and nowhere else; trade permission backs every running state. */
  predicate Flagged(l: Life) {
    l.m.ctx.mayBeInFlight == l.h.unresolved && Stable(l.m) && FlagFits(l.m) && Permitted(l.m)
  }

  predicate FlagFits(m: Machine) {
    && (OrderOut(m.state) ==> m.ctx.mayBeInFlight)
    && (m.ctx.mayBeInFlight ==> OrderOut(m.state) || m.state == Failed)
  }

  predicate Permitted(m: Machine) {
    m.ctx.shutdown == NoShutdown && Part(m.state) > 0 ==> m.ctx.canTrade
  }

  /** What one handler does to the flag, the permission and the shutdown mode. */
  predicate Fits(m: Machine, e: Event, n: Machine) {
    && FlagFits(n) && Permitted(n)
    && (m.state == Authorizing && n.state == SubmittingOrder ==> n.ctx.mayBeInFlight && n.ctx.shutdown == NoShutdown)
    && (Resolves(m.state, e) || Resets(m.state, e) ==> !n.ctx.mayBeInFlight && n.state != SubmittingOrder)
    && (n.ctx.mayBeInFlight != m.ctx.mayBeInFlight ==>
          Resolves(m.state, e) || Resets(m.state, e) || (m.state == Authorizing && n.state == SubmittingOrder))
    && (m.state != Authorizing && n.state == SubmittingOrder ==> m.state == SubmittingOrder)
  }

  lemma ControlFits(m: Machine, e: Event)
    requires FlagFits(m) && Permitted(m) && Control(e)
    ensures Fits(m, e, OnControl(m, e))
  {
    hide NonBlank;
  }

  lemma ScheduleFits(m: Machine, e: Event)
    requires FlagFits(m) && Permitted(m) && Part(m.state) == 6
    ensures Fits(m, e, OnSchedule(m, e))
  {
  }

  lemma MarketFits(m: Machine, e: Event)
    requires FlagFits(m) && Permitted(m) && Part(m.state) == 5
    ensures Fits(m, e, OnMarket(m, e))
  {
    hide Fresh;
    hide Duplicate;
  }

  lemma DecisionFits(m: Machine, e: Event)
    requires FlagFits(m) && Permitted(m) && Part(m.state) == 4
    ensures Fits(m, e, OnDecision(m, e))
  {
  }

  lemma OrderFits(m: Machine, e: Event)
    requires FlagFits(m) && Permitted(m) && Part(m.state) == 3 && Stable(m) && !Control(e)
    ensures Fits(m, e, OnOrder(m, e))
  {
    hide Usable;
  }

  lemma SettlementFits(m: Machine, e: Event)
    requires FlagFits(m) && Permitted(m) && Part(m.state) <= 2 && !Control(e)
    ensures Fits(m, e, OnSettlement(m, e))
  {
  }

  lemma SettlingFits(m: Machine, e: Event, n: Machine)
    requires Fits(m, e, n) && Stable(m)
    ensures FlagFits(Settle(n)) && Permitted(Settle(n))
    ensures Settle(n).ctx == n.ctx
    ensures m.state == Authorizing && n.state == SubmittingOrder ==> Settle(n) == n
    ensures Settle(n).state == SubmittingOrder ==> n == Settle(n)
  {
  }

  lemma HandleFits(m: Machine, e: Event)
    requires FlagFits(m) && Permitted(m) && Stable(m)
    ensures Fits(m, e, Handle(m, e))
  {
    hide Fits;
    hide FlagFits;
    hide Permitted;
    hide OnControl;
    hide OnSchedule;
    hide OnMarket;
    hide OnDecision;
    hide OnOrder;
    hide OnSettlement;
    hide Stable;
    if Control(e) {
      ControlFits(m, e);
    } else {
      match Part(m.state)
      case 6 => ScheduleFits(m, e);
      case 5 => MarketFits(m, e);
      case 4 => DecisionFits(m, e);
      case 3 => OrderFits(m, e);
      case _ => SettlementFits(m, e);
    }
  }

  lemma AdvanceKeepsFlag(l: Life, e: Event)
    requires Flagged(l)
    ensures Flagged(Advance(l, e))
  {
    hide Handle;
    hide FlagFits;
    hide Permitted;
    hide Settle;
    HandleFits(l.m, e);
    SettlingFits(l.m, e, Handle(l.m, e));
    MacroIsStable(l.m, e);
  }

  // ---- What each handler changes of the cycle's record

  /** The cycle's record is untouched. */
  predicate Kept(c: Context, d: Context) {
    && d.cycleId == c.cycleId && d.triggeredAt == c.triggeredAt && d.admission == c.admission && d.lastDecision == c.lastDecision
    && d.clientOrderId == c.clientOrderId && d.attempts.execution == c.attempts.execution
  }

  predicate Begins(m: Machine, n: Machine) {
    m.state == Waiting && n.state == ReconcilingAccount
  }

  predicate Admits(m: Machine, e: Event, n: Machine) {
    m.state == FetchingMarketData && n.state == ComputingIndicators && e.MarketDataReady?
  }

  /** The admission on record is for this cycle and for the last decided candle, and was fresh. */
  predicate FreshlyAdmitted(c: Context) {
    && c.admission.Some? && c.lastDecision == Some(c.admission.value.candleClosedAt)
    && c.admission.value.cycleId == (if c.cycleId.Some? then c.cycleId.value else "")
    && Fresh(c, c.admission.value.candleClosedAt, c.admission.value.evaluatedAt)
  }

  /** How a macrostep moves between the parts and what it writes to the record: it starts a cycle, admits
      a new candle, persists an intent, counts a refusal, restarts, resets, or leaves the record alone. */
  predicate Evolves(m: Machine, e: Event, n: Machine) {
    && n.ctx.limits == m.ctx.limits && n.ctx.staleness == m.ctx.staleness
    && (!Admits(m, e, n) ==> n.ctx.lastDecision == m.ctx.lastDecision)
    && (Part(n.state) == 5 ==> (Part(m.state) == 5 && Kept(m.ctx, n.ctx)) || Begins(m, n))
    && (Begins(m, n) ==> n.ctx.attempts.execution == 0)
    && (Part(n.state) == 4 ==> (Part(m.state) == 4 && Kept(m.ctx, n.ctx)) || Admits(m, e, n))
    && (Admits(m, e, n) ==>
          && !Duplicate(m.ctx, e.candleClosedAt) && FreshlyAdmitted(n.ctx) && n.ctx.lastDecision == Some(e.candleClosedAt)
          && n.ctx.attempts.execution == m.ctx.attempts.execution && n.ctx.shutdown == m.ctx.shutdown)
    && (Part(n.state) == 3 ==> Part(m.state) == 3 || (m.state == PersistingOrderIntent && n.state == Authorizing))
    && (Part(n.state) == 3 ==> OrderStep(m, n))
  }

  /** Into the order part with an id, and inside it with the same record except that a refusal counts. */
  predicate OrderStep(m: Machine, n: Machine) {
    if m.state == PersistingOrderIntent then
      Kept(m.ctx.(clientOrderId := n.ctx.clientOrderId), n.ctx) && n.ctx.clientOrderId.Some? && n.state == Authorizing
    else if m.state == SubmittingOrder && n.state == RetryingExecution then
      && Kept(m.ctx.(attempts := n.ctx.attempts), n.ctx) && m.ctx.attempts.execution < m.ctx.limits.execution
      && n.ctx.attempts.execution == m.ctx.attempts.execution + 1
    else
      && Kept(m.ctx, n.ctx)
      && (m.state == SubmittingOrder <==> n.state == SubmittingOrder && m.state != Authorizing)
      && (n.state == SubmittingOrder ==> m.state == SubmittingOrder || m.state == Authorizing)
  }

  lemma StandingStillEvolves(m: Machine, e: Event, n: Machine)
    requires n.state == m.state && Kept(m.ctx, n.ctx) && n.ctx.limits == m.ctx.limits && n.ctx.staleness == m.ctx.staleness
    ensures Evolves(m, e, n)
  {
    hide Fresh;
  }

  lemma ControlKeepsTheRecord(m: Machine, e: Event)
    requires Control(e)
    ensures var n := OnControl(m, e);
            && n.ctx.limits == m.ctx.limits && n.ctx.staleness == m.ctx.staleness && n.ctx.lastDecision == m.ctx.lastDecision
            && (n.state == m.state ==> Kept(m.ctx, n.ctx))
  {
    hide NonBlank;
    if e.Reset? {
      ResetKeepsTheDecision(m, e);
    } else {
      match e
      case StartRequested(_, _) =>
      case StopRequested(_) =>
      case KillEngaged(_, _) =>
      case PermissionRevoked =>
    }
  }

  lemma ResetKeepsTheDecision(m: Machine, e: Event)
    requires e.Reset?
    ensures var n := OnControl(m, e);
            && n.ctx.limits == m.ctx.limits && n.ctx.staleness == m.ctx.staleness && n.ctx.lastDecision == m.ctx.lastDecision
            && (n.state == m.state ==> Kept(m.ctx, n.ctx))
  {
  }

  lemma ControlLeavesToTheEdge(m: Machine, e: Event)
    requires Control(e)
    ensures var n := OnControl(m, e);
            n.state != m.state ==> n.state == Scheduling || n.state == Cancelling || n.state == State.Stopped
  {
    hide NonBlank;
  }

  lemma ControlEvolves(m: Machine, e: Event)
    requires Control(e)
    ensures Evolves(m, e, OnControl(m, e))
  {
    hide OnControl;
    hide Kept;
    hide FreshlyAdmitted;
    hide OrderStep;
    ControlKeepsTheRecord(m, e);
    ControlLeavesToTheEdge(m, e);
    if OnControl(m, e).state == m.state {
      StandingStillEvolves(m, e, OnControl(m, e));
    }
  }

  lemma ScheduleEvolves(m: Machine, e: Event)
    requires Part(m.state) == 6
    ensures Evolves(m, e, OnSchedule(m, e))
  {
    hide Fresh;
  }

  lemma AccountEvolves(m: Machine, e: Event)
    requires (m.state == ReconcilingAccount || m.state == RetryingAccountReconciliation) && !Control(e)
    ensures Evolves(m, e, OnMarket(m, e))
  {
    hide Fresh;
    hide Duplicate;
    hide OrderStep;
    hide FreshlyAdmitted;
  }

  lemma DataEvolves(m: Machine, e: Event)
    requires (m.state == FetchingMarketData || m.state == RetryingMarketData) && !Control(e)
    ensures Evolves(m, e, OnMarket(m, e))
  {
    hide Fresh;
    hide Duplicate;
    hide OrderStep;
    hide FreshlyAdmitted;
    if m.state == FetchingMarketData && e.MarketDataReady? && !Duplicate(m.ctx, e.candleClosedAt) && Fresh(m.ctx, e.candleClosedAt, e.evaluatedAt) {
      AdmittedIsFresh(m, e, OnMarket(m, e));
    }
  }

  lemma AdmittedIsFresh(m: Machine, e: Event, n: Machine)
    requires e.MarketDataReady? && Fresh(m.ctx, e.candleClosedAt, e.evaluatedAt)
    requires n.ctx.lastDecision == Some(e.candleClosedAt) && n.ctx.triggeredAt == m.ctx.triggeredAt && n.ctx.staleness == m.ctx.staleness
    requires n.ctx.admission == Some(Admission(if n.ctx.cycleId.Some? then n.ctx.cycleId.value else "", e.candleClosedAt, e.evaluatedAt))
    ensures FreshlyAdmitted(n.ctx)
  {
  }

  lemma DecisionEvolves(m: Machine, e: Event)
    requires Part(m.state) == 4 && !Control(e)
    ensures Evolves(m, e, OnDecision(m, e))
  {
    hide Fresh;
  }

  lemma OrderEvolves(m: Machine, e: Event)
    requires Part(m.state) == 3 && !Control(e)
    ensures Evolves(m, e, OnOrder(m, e))
  {
    hide Evolves;
    hide OnOrder;
    if m.state == SubmittingOrder { SubmissionEvolves(m, e); } else { AuthorizationEvolves(m, e); }
  }

  lemma AuthorizationEvolves(m: Machine, e: Event)
    requires Part(m.state) == 3 && m.state != SubmittingOrder && !Control(e)
    ensures Evolves(m, e, OnOrder(m, e))
  {
    hide Fresh;
    hide Usable;
  }

  lemma SubmissionEvolves(m: Machine, e: Event)
    requires m.state == SubmittingOrder && !Control(e)
    ensures Evolves(m, e, OnOrder(m, e))
  {
    hide Fresh;
    hide Usable;
  }

  lemma SettlementEvolves(m: Machine, e: Event)
    requires Part(m.state) <= 2 && !Control(e)
    ensures Evolves(m, e, OnSettlement(m, e))
  {
    hide Fresh;
  }

  lemma MacroEvolves(m: Machine, e: Event)
    requires Stable(m)
    ensures Evolves(m, e, Macro(m, e))
  {
    HandleEvolves(m, e);
    SettlingEvolves(m, e, Handle(m, e));
  }

  lemma SettlingEvolves(m: Machine, e: Event, n: Machine)
    requires Evolves(m, e, n) && Stable(m)
    ensures Evolves(m, e, Settle(n))
  {
    hide Fresh;
    hide Kept;
    hide OrderStep;
  }

  lemma HandleEvolves(m: Machine, e: Event)
    ensures Evolves(m, e, Handle(m, e))
  {
    hide Evolves;
    hide OnControl;
    hide OnSchedule;
    hide OnMarket;
    hide OnDecision;
    hide OnOrder;
    hide OnSettlement;
    if Control(e) {
      ControlEvolves(m, e);
    } else {
      match Part(m.state)
      case 6 => ScheduleEvolves(m, e);
      case 5 => if m.state == ReconcilingAccount || m.state == RetryingAccountReconciliation { AccountEvolves(m, e); } else { DataEvolves(m, e); }
      case 4 => DecisionEvolves(m, e);
      case 3 => OrderEvolves(m, e);
      case _ => SettlementEvolves(m, e);
    }
  }
}
