/** Where a trading cycle stands is what its events say: decisions, outcomes, retries and shutdowns. */
module TradingCycleTales {
  import opened Basics
  import opened TradingCycle
  import opened TradingCycleRuns
  import opened TradingCycleSafety

  // ---- The decisions of a cycle

  /** The events that decide whether the cycle trades, and for what. */
  predicate Decides(e: Event) {
    || e.AlarmFired? || e.AccountReconciled? || e.IndicatorsComputed? || e.StrategiesEvaluated? || e.AllocationCompleted?
    || e.RiskApproved? || e.RiskRejected? || e.RiskFailed? || e.OrderIntentPersisted?
  }

  function Steps(trail: seq<Event>): seq<Event> {
    if trail == [] then []
    else
      var last := trail[|trail| - 1];
      Steps(trail[..|trail| - 1]) + if Decides(last) then [last] else []
  }

  lemma StepsGrow(trail: seq<Event>, e: Event)
    ensures Steps(trail + [e]) == Steps(trail) + if Decides(e) then [e] else []
  {
    assert (trail + [e])[..|trail + [e]| - 1] == trail;
  }

  /** How many decisions a state stands on; zero where it does not matter any more. */
  function Rung(s: State): nat {
    match s
    case ReconcilingAccount => 1
    case RetryingAccountReconciliation => 1
    case FetchingMarketData => 2
    case RetryingMarketData => 2
    case ComputingIndicators => 2
    case EvaluatingStrategies => 3
    case Allocating => 4
    case CheckingRisk => 5
    case PersistingOrderIntent => 6
    case Authorizing => 7
    case RetryingAuthorization => 7
    case SubmittingOrder => 7
    case RetryingExecution => 7
    case ReconcilingOrder => 7
    case RetryingReconciliation => 7
    case _ => 0
  }

  /** The decisions, in their one order, with what each put on record. */
  ghost predicate Climbed(steps: seq<Event>, c: Context, k: nat) {
    && |steps| == k
    && (k >= 1 ==> c.cycleId.Some? && c.triggeredAt.Some? && steps[0] == AlarmFired(c.cycleId.value, c.triggeredAt.value))
    && (k >= 2 ==> c.accountSnapshotId.Some? && steps[1] == AccountReconciled(c.accountSnapshotId.value))
    && (k >= 3 ==> c.indicatorsId.Some? && steps[2] == IndicatorsComputed(c.indicatorsId.value))
    && (k >= 4 ==> c.signalsId.Some? && steps[3] == StrategiesEvaluated(c.signalsId.value))
    && (k >= 5 ==> steps[4].AllocationCompleted? && c.decisionId == Some(steps[4].decisionId) && steps[4].orderCount > 0)
    && (k >= 6 ==> steps[5] == RiskApproved)
    && (k >= 7 ==> c.clientOrderId.Some? && steps[6] == OrderIntentPersisted(c.clientOrderId.value))
  }

  ghost predicate Stands(m: Machine, steps: seq<Event>) {
    Rung(m.state) > 0 ==> Climbed(steps, m.ctx, Rung(m.state))
  }

  // ---- What the end of a cycle says

  /** The outcome an event ends a cycle with, if it can end one. */
  function Ends(e: Event): Option<Outcome> {
    match e
    case OrderConfirmed(_) => Some(Confirmed)
    case OrderReconciled(id) => Some(if id.Some? then Confirmed else Rejected)
    case OrderRejected(_) => Some(Rejected)
    case OrderNoLongerNeeded => Some(NoAction)
    case MarketDataReady(_, _, _) => Some(NoAction)
    case AllocationCompleted(_, count) => if count > 0 then None else Some(NoAction)
    case RiskRejected => Some(RiskRejectedOutcome)
    case EffectCancelled => Some(Cancelled)
    case AuthorizationReady(_, _) => Some(FailedOutcome)
    case AccountReconciliationFailed(_) => Some(FailedOutcome)
    case MarketDataFailed(_) => Some(FailedOutcome)
    case IndicatorsFailed(_) => Some(FailedOutcome)
    case StrategiesFailed(_) => Some(FailedOutcome)
    case AllocationFailed(_) => Some(FailedOutcome)
    case RiskFailed(_) => Some(FailedOutcome)
    case OrderIntentFailed(_) => Some(FailedOutcome)
    case AuthorizationFailed(_) => Some(FailedOutcome)
    case OrderProtectionFailed(_, _) => Some(FailedOutcome)
    case EffectCancelFailed(_) => Some(FailedOutcome)
    case _ => None
  }

  predicate Bookkeeping(e: Event) {
    e.PersistSucceeded? || e.PersistFailed? || e.RetryTimerElapsed?
  }

  /** The last thing heard that is not about storing it. */
  function LastTold(trail: seq<Event>): Option<Event> {
    if trail == [] then None
    else if Bookkeeping(trail[|trail| - 1]) then LastTold(trail[..|trail| - 1])
    else Some(trail[|trail| - 1])
  }

  lemma LastToldGrows(trail: seq<Event>, e: Event)
    ensures LastTold(trail + [e]) == if Bookkeeping(e) then LastTold(trail) else Some(e)
  {
    assert (trail + [e])[..|trail + [e]| - 1] == trail;
  }

  predicate Grave(e: Event) {
    e.OrderProtectionFailed? || e.EffectCancelFailed?
  }

  predicate Closing(s: State) {
    s == Persisting || s == RetryingPersistence
  }

  /** While a cycle is being stored, its outcome, its severity and its exchange order are those of the event
      that ended it. */
  ghost predicate Concludes(m: Machine, last: Option<Event>) {
    && (Closing(m.state) ==>
        && last.Some?
        && var e := last.value;
           && Ends(e) == Some(m.ctx.outcome)
           && (m.ctx.terminal <==> Grave(e))
           && (e.OrderConfirmed? ==> m.ctx.exchangeOrderId == Some(e.exchangeOrderId))
           && (e.OrderReconciled? ==> m.ctx.exchangeOrderId == e.maybeOrderId)
           && (e.OrderProtectionFailed? ==> m.ctx.exchangeOrderId == e.maybeOrderId))
    && (!Closing(m.state) && m.state != Failed ==> !m.ctx.terminal)
  }

  // ---- Retries

  datatype Kind = Account | Market | Authority | Sending | Settling | Storing

  /** The event refuses an effect of this kind. */
  predicate Refuses(e: Event, k: Kind) {
    match k
    case Account => e.AccountReconciliationFailed?
    case Market => e.MarketDataFailed? || e.MarketDataReady?
    case Authority => e.AuthorizationFailed? || (e.AuthorizationReady? && !Usable(e.expiresAt, e.issuedAt))
    case Sending => e.OrderRejected?
    case Settling => e.ReconciliationFailed?
    case Storing => e.PersistFailed?
  }

  datatype Tally = Tally(account: nat, market: nat, authority: nat, sending: nat, settling: nat, storing: nat) {
    function Of(k: Kind): nat {
      match k
      case Account => account
      case Market => market
      case Authority => authority
      case Sending => sending
      case Settling => settling
      case Storing => storing
    }
  }

  function More(t: Tally, e: Event): Tally {
    Tally(t.account + One(e, Account), t.market + One(e, Market), t.authority + One(e, Authority),
          t.sending + One(e, Sending), t.settling + One(e, Settling), t.storing + One(e, Storing))
  }

  function One(e: Event, k: Kind): nat {
    if Refuses(e, k) then 1 else 0
  }

  /** How many refusals of each kind were heard. */
  function Count(trail: seq<Event>): Tally {
    if trail == [] then Tally(0, 0, 0, 0, 0, 0) else More(Count(trail[..|trail| - 1]), trail[|trail| - 1])
  }

  lemma CountGrows(trail: seq<Event>, e: Event)
    ensures Count(trail + [e]) == More(Count(trail), e)
  {
    assert (trail + [e])[..|trail + [e]| - 1] == trail;
  }

  /** The counters of the machine count the refusals the cycle has heard. */
  ghost predicate Budgeted(m: Machine, heard: Tally) {
    var a, p := m.ctx.attempts, Part(m.state);
    && (m.state == ReconcilingAccount || m.state == RetryingAccountReconciliation ==>
          a.reconciliation == heard.account && heard.market == 0)
    && (m.state == FetchingMarketData || m.state == RetryingMarketData ==> a.reconciliation == 0)
    && (p == 5 ==> a.marketData == heard.market && heard.settling == 0)
    && (2 <= p <= 4 ==> a.reconciliation == heard.settling)
    && (3 <= p <= 5 ==> a.authorization == heard.authority && a.execution == heard.sending)
    && (m.state != Failed ==> a.persistence == heard.storing)
  }

  // ---- Shutdowns

  /** What the last order says. */
  function Mode(orders: seq<Event>): Shutdown {
    if orders == [] then NoShutdown
    else
      match orders[|orders| - 1]
      case StopRequested(_) => StopMode
      case KillEngaged(_, _) => KillMode
      case _ => RevokedMode
  }

  ghost predicate Obeys(m: Machine, h: History) {
    && m.ctx.shutdown == Mode(h.orders)
    && (m.ctx.shutdown == KillMode ==> (m.ctx.killCompleted <==> h.cancelled))
    && (m.state != Failed ==> m.ctx.attempts.schedule == h.missed)
    && (m.state == Waiting ==> h.missed == 0)
  }

  ghost predicate Continues(m: Machine, trail: seq<Event>) {
    Stands(m, Steps(trail)) && Concludes(m, LastTold(trail)) && Budgeted(m, Count(trail))
  }

  ghost predicate Telling(l: Life) {
    Continues(l.m, l.h.trail) && Obeys(l.m, l.h) && Stable(l.m) && FlagFits(l.m) && Permitted(l.m)
  }

  // ---- One handler, aspect by aspect

  function After(steps: seq<Event>, e: Event): seq<Event> {
    steps + if Decides(e) then [e] else []
  }

  function Then(last: Option<Event>, e: Event): Option<Event> {
    if Bookkeeping(e) then last else Some(e)
  }

  lemma MarketStands(m: Machine, e: Event, steps: seq<Event>)
    requires Part(m.state) == 5 && Stands(m, steps) && OnMarket(m, e) != m
    ensures Stands(OnMarket(m, e), After(steps, e))
  {
    hide OnMarket;
    hide Stands;
    hide After;
    if m.state == FetchingMarketData || m.state == RetryingMarketData { DataStands(m, e, steps); } else { AccountStands(m, e, steps); }
  }

  lemma AccountStands(m: Machine, e: Event, steps: seq<Event>)
    requires (m.state == ReconcilingAccount || m.state == RetryingAccountReconciliation) && Stands(m, steps) && OnMarket(m, e) != m
    ensures Stands(OnMarket(m, e), After(steps, e))
  {
    hide Fresh;
    hide Duplicate;
  }

  lemma DataStands(m: Machine, e: Event, steps: seq<Event>)
    requires (m.state == FetchingMarketData || m.state == RetryingMarketData) && Stands(m, steps) && OnMarket(m, e) != m
    ensures Stands(OnMarket(m, e), After(steps, e))
  {
    hide Fresh;
    hide Duplicate;
  }

  lemma MarketConcludes(m: Machine, e: Event, last: Option<Event>)
    requires Part(m.state) == 5 && Concludes(m, last) && OnMarket(m, e) != m
    ensures Concludes(OnMarket(m, e), Then(last, e))
  {
    hide Fresh;
    hide Duplicate;
    hide Usable;
  }

  lemma MarketBudgets(m: Machine, e: Event, heard: Tally)
    requires Part(m.state) == 5 && Budgeted(m, heard) && OnMarket(m, e) != m
    ensures Budgeted(OnMarket(m, e), More(heard, e))
  {
    hide OnMarket;
    hide Budgeted;
    hide More;
    if m.state == FetchingMarketData || m.state == RetryingMarketData { DataBudgets(m, e, heard); } else { AccountBudgets(m, e, heard); }
  }

  lemma AccountBudgets(m: Machine, e: Event, heard: Tally)
    requires (m.state == ReconcilingAccount || m.state == RetryingAccountReconciliation) && Budgeted(m, heard) && OnMarket(m, e) != m
    ensures Budgeted(OnMarket(m, e), More(heard, e))
  {
    hide Fresh;
    hide Duplicate;
    hide Usable;
  }

  lemma DataBudgets(m: Machine, e: Event, heard: Tally)
    requires (m.state == FetchingMarketData || m.state == RetryingMarketData) && Budgeted(m, heard) && OnMarket(m, e) != m
    ensures Budgeted(OnMarket(m, e), More(heard, e))
  {
    hide Fresh;
    hide Duplicate;
    hide Usable;
  }

  lemma DecisionStands(m: Machine, e: Event, steps: seq<Event>)
    requires Part(m.state) == 4 && m.ctx.canTrade && Stands(m, steps) && OnDecision(m, e) != m
    ensures Stands(OnDecision(m, e), After(steps, e))
  {
    hide Fresh;
    hide Duplicate;
    hide Usable;
  }

  lemma DecisionConcludes(m: Machine, e: Event, last: Option<Event>)
    requires Part(m.state) == 4 && m.ctx.canTrade && Concludes(m, last) && OnDecision(m, e) != m
    ensures Concludes(OnDecision(m, e), Then(last, e))
  {
    hide Fresh;
    hide Duplicate;
    hide Usable;
  }

  lemma DecisionBudgets(m: Machine, e: Event, heard: Tally)
    requires Part(m.state) == 4 && m.ctx.canTrade && Budgeted(m, heard) && OnDecision(m, e) != m
    ensures Budgeted(OnDecision(m, e), More(heard, e))
  {
    hide Fresh;
    hide Duplicate;
    hide Usable;
  }

  /** The same decisions are on record. */
  predicate SameRecord(c: Context, d: Context) {
    SameOrigin(c, d) && SameSignals(c, d) && SamePlan(c, d)
  }

  predicate SameOrigin(c: Context, d: Context) {
    d.cycleId == c.cycleId && d.triggeredAt == c.triggeredAt && d.accountSnapshotId == c.accountSnapshotId
  }

  predicate SameSignals(c: Context, d: Context) {
    d.indicatorsId == c.indicatorsId && d.signalsId == c.signalsId
  }

  predicate SamePlan(c: Context, d: Context) {
    d.decisionId == c.decisionId && d.clientOrderId == c.clientOrderId
  }

  lemma OrdersHearNoDecision(m: Machine, e: Event)
    requires Part(m.state) == 3 && Decides(e)
    ensures OnOrder(m, e) == m
  {
    hide Usable;
  }

  lemma OrdersKeepTheRecord(m: Machine, e: Event)
    requires Part(m.state) == 3
    ensures SameRecord(m.ctx, OnOrder(m, e).ctx)
  {
    hide OnOrder;
    hide SameOrigin;
    hide SamePlan;
    hide SameSignals;
    OrdersKeepTheOrigin(m, e);
    OrdersKeepTheSignals(m, e);
    OrdersKeepThePlan(m, e);
  }

  lemma OrdersKeepTheOrigin(m: Machine, e: Event)
    requires Part(m.state) == 3
    ensures SameOrigin(m.ctx, OnOrder(m, e).ctx)
  {
    hide Usable;
  }

  lemma OrdersKeepTheSignals(m: Machine, e: Event)
    requires Part(m.state) == 3
    ensures SameSignals(m.ctx, OnOrder(m, e).ctx)
  {
    hide Usable;
  }

  lemma OrdersKeepThePlan(m: Machine, e: Event)
    requires Part(m.state) == 3
    ensures SamePlan(m.ctx, OnOrder(m, e).ctx)
  {
    hide Usable;
  }

  lemma OrdersStayOrEnd(m: Machine, e: Event)
    requires Part(m.state) == 3
    ensures Rung(OnOrder(m, e).state) in {0, 7}
  {
    hide Usable;
  }

  lemma OrderStands(m: Machine, e: Event, steps: seq<Event>)
    requires Part(m.state) == 3 && Stands(m, steps) && OnOrder(m, e) != m
    ensures Stands(OnOrder(m, e), After(steps, e))
  {
    hide OnOrder;
    if Decides(e) { OrdersHearNoDecision(m, e); }
    OrdersKeepTheRecord(m, e);
    OrdersStayOrEnd(m, e);
    assert Rung(m.state) == 7;
  }

  lemma OrderConcludes(m: Machine, e: Event, last: Option<Event>)
    requires Part(m.state) == 3 && Concludes(m, last) && OnOrder(m, e) != m
    ensures Concludes(OnOrder(m, e), Then(last, e))
  {
    hide Fresh;
    hide Duplicate;
    hide Usable;
  }

  lemma OrderBudgets(m: Machine, e: Event, heard: Tally)
    requires Part(m.state) == 3 && Budgeted(m, heard) && OnOrder(m, e) != m
    ensures Budgeted(OnOrder(m, e), More(heard, e))
  {
    hide Fresh;
    hide Duplicate;
    hide Usable;
  }

  lemma SettlementsHearNoDecision(m: Machine, e: Event)
    requires 1 <= Part(m.state) <= 2 && Decides(e)
    ensures OnSettlement(m, e) == m
  {
  }

  lemma SettlementsKeepTheRecord(m: Machine, e: Event)
    requires 1 <= Part(m.state) <= 2
    ensures SameRecord(m.ctx, OnSettlement(m, e).ctx)
  {
    hide OnSettlement;
    hide SameOrigin;
    hide SamePlan;
    hide SameSignals;
    SettlementsKeepTheSignals(m, e);
    if Part(m.state) == 1 {
      ClosingKeepsTheOrigin(m, e);
      ClosingKeepsThePlan(m, e);
    } else {
      ReconcilingKeepsTheOrigin(m, e);
      ReconcilingKeepsThePlan(m, e);
    }
  }

  lemma SettlementsKeepTheSignals(m: Machine, e: Event)
    requires 1 <= Part(m.state) <= 2
    ensures SameSignals(m.ctx, OnSettlement(m, e).ctx)
  {
  }

  lemma ClosingKeepsTheOrigin(m: Machine, e: Event)
    requires Part(m.state) == 1
    ensures SameOrigin(m.ctx, OnSettlement(m, e).ctx)
  {
  }

  lemma ClosingKeepsThePlan(m: Machine, e: Event)
    requires Part(m.state) == 1
    ensures SamePlan(m.ctx, OnSettlement(m, e).ctx)
  {
  }

  lemma ReconcilingKeepsTheOrigin(m: Machine, e: Event)
    requires Part(m.state) == 2
    ensures SameOrigin(m.ctx, OnSettlement(m, e).ctx)
  {
  }

  lemma ReconcilingKeepsThePlan(m: Machine, e: Event)
    requires Part(m.state) == 2
    ensures SamePlan(m.ctx, OnSettlement(m, e).ctx)
  {
  }

  lemma SettlementsStayOrEnd(m: Machine, e: Event)
    requires 1 <= Part(m.state) <= 2
    ensures Rung(OnSettlement(m, e).state) == 0 || Rung(OnSettlement(m, e).state) == Rung(m.state)
  {
  }

  lemma SettlementStands(m: Machine, e: Event, steps: seq<Event>)
    requires 1 <= Part(m.state) <= 2 && Stands(m, steps) && OnSettlement(m, e) != m
    ensures Stands(OnSettlement(m, e), After(steps, e))
  {
    hide OnSettlement;
    if Decides(e) { SettlementsHearNoDecision(m, e); }
    SettlementsKeepTheRecord(m, e);
    SettlementsStayOrEnd(m, e);
  }

  lemma SettlementConcludes(m: Machine, e: Event, last: Option<Event>)
    requires 1 <= Part(m.state) <= 2 && Concludes(m, last) && OnSettlement(m, e) != m
    ensures Concludes(OnSettlement(m, e), Then(last, e))
  {
    hide Fresh;
    hide Duplicate;
    hide Usable;
  }

  lemma SettlementBudgets(m: Machine, e: Event, heard: Tally)
    requires 1 <= Part(m.state) <= 2 && Budgeted(m, heard) && OnSettlement(m, e) != m
    ensures Budgeted(OnSettlement(m, e), More(heard, e))
  {
    hide OnSettlement;
    hide Budgeted;
    hide More;
    if Part(m.state) == 1 { ClosingBudgets(m, e, heard); } else { ReconcilingBudgets(m, e, heard); }
  }

  lemma ClosingBudgets(m: Machine, e: Event, heard: Tally)
    requires Part(m.state) == 1 && Budgeted(m, heard) && OnSettlement(m, e) != m
    ensures Budgeted(OnSettlement(m, e), More(heard, e))
  {
    hide Usable;
  }

  lemma ReconcilingBudgets(m: Machine, e: Event, heard: Tally)
    requires Part(m.state) == 2 && Budgeted(m, heard) && OnSettlement(m, e) != m
    ensures Budgeted(OnSettlement(m, e), More(heard, e))
  {
    hide Usable;
  }

  // ---- Control and the eventless transitions

  /** Control events leave the record alone, or leave the cycle. */
  lemma ControlContinues(m: Machine, e: Event, trail: seq<Event>)
    requires Control(e) && Continues(m, trail) && !Resets(m.state, e)
    ensures Continues(OnControl(m, e), trail)
  {
    hide NonBlank;
    hide Steps;
    hide LastTold;
    hide Count;
    ControlMoves(m, e);
    hide OnControl;
    var n := OnControl(m, e);
    if n.state == m.state {
      assert SameRecord(m.ctx, n.ctx);
    }
  }

  lemma ControlMoves(m: Machine, e: Event)
    requires Control(e) && !Resets(m.state, e)
    ensures var n := OnControl(m, e);
            && SameRecord(m.ctx, n.ctx) && n.ctx.exchangeOrderId == m.ctx.exchangeOrderId
            && (n.state == m.state || (m.state == State.Stopped && n.state in {Scheduling, Cancelling}))
            && n.ctx.attempts == (if Starts(m.state, e) then m.ctx.attempts.(schedule := 0) else m.ctx.attempts)
            && (n.state == m.state ==> n.ctx.outcome == m.ctx.outcome)
            && n.ctx.terminal == (if Starts(m.state, e) then false else m.ctx.terminal)
  {
    hide NonBlank;
    match e
    case StartRequested(_, _) => StartMoves(m, e);
    case _ => OtherControlMoves(m, e);
  }

  lemma StartMoves(m: Machine, e: Event)
    requires e.StartRequested?
    ensures var n := OnControl(m, e);
            if Starts(m.state, e)
            then && n.state == Scheduling && SameRecord(m.ctx, n.ctx) && n.ctx.exchangeOrderId == m.ctx.exchangeOrderId
                 && n.ctx.attempts == m.ctx.attempts.(schedule := 0) && !n.ctx.terminal
            else n == m.(ctx := m.ctx.(lastError := n.ctx.lastError))
  {
  }

  lemma OtherControlMoves(m: Machine, e: Event)
    requires Control(e) && !e.StartRequested? && !Resets(m.state, e)
    ensures var n := OnControl(m, e);
            && SameRecord(m.ctx, n.ctx) && n.ctx.exchangeOrderId == m.ctx.exchangeOrderId
            && n.ctx.attempts == m.ctx.attempts && n.ctx.outcome == m.ctx.outcome && n.ctx.terminal == m.ctx.terminal
            && (n.state == m.state || (m.state == State.Stopped && n.state == Cancelling))
  {
    hide NonBlank;
    match e
    case StopRequested(_) =>
    case KillEngaged(_, _) =>
    case PermissionRevoked =>
    case Reset(_) =>
  }

  lemma SettlingContinues(m: Machine, trail: seq<Event>)
    requires Continues(m, trail)
    ensures Continues(Settle(m), trail)
  {
    hide Steps;
    hide LastTold;
    hide Count;
    hide Climbed;
  }

  /** A new cycle starts its tale with its alarm. */
  lemma AlarmContinues(m: Machine, e: Event, trail: seq<Event>)
    requires Begins(m, OnSchedule(m, e)) && Continues(m, trail)
    ensures Continues(OnSchedule(m, e), [e])
  {
    assert [e][..0] == [];
  }

  lemma ScheduleContinues(m: Machine, e: Event, trail: seq<Event>)
    requires Part(m.state) == 6 && !Control(e) && !Begins(m, OnSchedule(m, e)) && Continues(m, trail)
    ensures Continues(OnSchedule(m, e), trail)
  {
    hide Steps;
    hide LastTold;
    hide Count;
  }

  lemma OutsideContinues(m: Machine, e: Event, trail: seq<Event>)
    requires Part(m.state) == 0 && !Control(e)
    ensures OnSettlement(m, e) == m
  {
  }

  lemma ResetContinues(m: Machine, e: Event)
    requires Resets(m.state, e)
    ensures Continues(OnControl(m, e), [])
  {
  }

  /** An event a handler listens to changes the state, and the eventless transitions do not change it back. */
  lemma HeardMoves(m: Machine, e: Event)
    requires Stable(m) && !Control(e) && 1 <= Part(m.state) <= 5 && Handle(m, e) != m
    ensures Macro(m, e) != m
  {
    hide OnMarket;
    hide OnDecision;
    hide OnOrder;
    hide OnSettlement;
    match Part(m.state)
    case 5 => MarketMoves(m, e);
    case 4 => DecisionMoves(m, e);
    case 3 => OrderMoves(m, e);
    case _ => SettlementMoves(m, e);
  }

  lemma MarketMoves(m: Machine, e: Event)
    requires Part(m.state) == 5
    ensures OnMarket(m, e) == m || (OnMarket(m, e).state != m.state && OnMarket(m, e).ctx.shutdown == m.ctx.shutdown)
  {
    hide Fresh;
    hide Duplicate;
  }

  lemma DecisionMoves(m: Machine, e: Event)
    requires Part(m.state) == 4
    ensures OnDecision(m, e) == m || OnDecision(m, e).state == Cancelling
            || (OnDecision(m, e).state != m.state && OnDecision(m, e).ctx.shutdown == m.ctx.shutdown)
  {
  }

  lemma OrderMoves(m: Machine, e: Event)
    requires Part(m.state) == 3
    ensures OnOrder(m, e) == m || (OnOrder(m, e).state != m.state && OnOrder(m, e).ctx.shutdown == m.ctx.shutdown)
  {
    hide Usable;
  }

  lemma SettlementMoves(m: Machine, e: Event)
    requires 1 <= Part(m.state) <= 2
    ensures OnSettlement(m, e) == m || Settle(OnSettlement(m, e)).state != m.state
  {
  }

  lemma EffectContinues(m: Machine, e: Event, trail: seq<Event>)
    requires !Control(e) && 1 <= Part(m.state) <= 5 && Stable(m) && Permitted(m) && Continues(m, trail) && Handle(m, e) != m
    ensures Continues(Handle(m, e), trail + [e])
  {
    hide Stands;
    hide Concludes;
    hide Budgeted;
    hide OnMarket;
    hide OnDecision;
    hide OnOrder;
    hide OnSettlement;
    StepsGrow(trail, e);
    LastToldGrows(trail, e);
    CountGrows(trail, e);
    match Part(m.state)
    case 5 =>
      MarketStands(m, e, Steps(trail));
      MarketConcludes(m, e, LastTold(trail));
      MarketBudgets(m, e, Count(trail));
    case 4 =>
      DecisionStands(m, e, Steps(trail));
      DecisionConcludes(m, e, LastTold(trail));
      DecisionBudgets(m, e, Count(trail));
    case 3 =>
      OrderStands(m, e, Steps(trail));
      OrderConcludes(m, e, LastTold(trail));
      OrderBudgets(m, e, Count(trail));
    case _ =>
      SettlementStands(m, e, Steps(trail));
      SettlementConcludes(m, e, LastTold(trail));
      SettlementBudgets(m, e, Count(trail));
  }

  lemma AdvanceContinues(l: Life, e: Event)
    requires Telling(l)
    ensures Continues(Advance(l, e).m, Advance(l, e).h.trail)
  {
    hide Continues;
    hide Handle;
    hide Settle;
    hide Permitted;
    hide FlagFits;
    hide Obeys;
    TrailFollows(l, e);
    if Control(e) {
      ControlAdvances(l, e);
    } else if Part(l.m.state) == 6 {
      ScheduleAdvances(l, e);
    } else if Handle(l.m, e) == l.m {
      SettlingContinues(l.m, l.h.trail);
    } else {
      OutsideIsQuiet(l.m, e);
      EffectContinues(l.m, e, l.h.trail);
      SettlingContinues(Handle(l.m, e), l.h.trail + [e]);
    }
  }

  lemma ControlAdvances(l: Life, e: Event)
    requires Continues(l.m, l.h.trail) && Control(e)
    ensures Continues(Macro(l.m, e), if Resets(l.m.state, e) then [] else l.h.trail)
  {
    hide Continues;
    hide Handle;
    hide Settle;
    hide OnControl;
    ControlIsHandled(l.m, e);
    if Resets(l.m.state, e) {
      ResetContinues(l.m, e);
      SettlingContinues(OnControl(l.m, e), []);
    } else {
      ControlContinues(l.m, e, l.h.trail);
      SettlingContinues(OnControl(l.m, e), l.h.trail);
    }
  }

  lemma ScheduleAdvances(l: Life, e: Event)
    requires Continues(l.m, l.h.trail) && Part(l.m.state) == 6 && !Control(e) && Stable(l.m)
    ensures Continues(Macro(l.m, e), if Begins(l.m, Macro(l.m, e)) then [e] else l.h.trail)
  {
    hide Continues;
    hide Handle;
    hide Settle;
    hide OnSchedule;
    SchedulesAreHandled(l.m, e);
    if Begins(l.m, OnSchedule(l.m, e)) {
      AlarmContinues(l.m, e, l.h.trail);
      SettlingContinues(OnSchedule(l.m, e), [e]);
    } else {
      ScheduleContinues(l.m, e, l.h.trail);
      SettlingContinues(OnSchedule(l.m, e), l.h.trail);
    }
  }

  lemma ControlIsHandled(m: Machine, e: Event)
    requires Control(e)
    ensures Handle(m, e) == OnControl(m, e)
  {
  }

  lemma SchedulesAreHandled(m: Machine, e: Event)
    requires Part(m.state) == 6 && !Control(e) && Stable(m)
    ensures Handle(m, e) == OnSchedule(m, e)
    ensures Begins(m, Macro(m, e)) <==> Begins(m, OnSchedule(m, e))
  {
  }

  lemma OutsideIsQuiet(m: Machine, e: Event)
    requires !Control(e)
    ensures Part(m.state) == 0 ==> Handle(m, e) == m
  {
  }

  /** Which of its three courses the trail takes. */
  lemma TrailFollows(l: Life, e: Event)
    requires Stable(l.m)
    ensures var m, n, t := l.m, Macro(l.m, e), Advance(l, e).h.trail;
            && (Control(e) ==> t == if Resets(m.state, e) then [] else l.h.trail)
            && (!Control(e) && Part(m.state) == 6 ==> t == if Begins(m, n) then [e] else l.h.trail)
            && (!Control(e) && Part(m.state) == 0 ==> t == l.h.trail)
            && (!Control(e) && 1 <= Part(m.state) <= 5 ==> t == if Handle(m, e) == m then l.h.trail else l.h.trail + [e])
  {
    if !Control(e) && 1 <= Part(l.m.state) <= 5 && Handle(l.m, e) != l.m {
      HeardMoves(l.m, e);
    }
    if Control(e) {
      hide OnControl;
      ControlLeavesToTheEdge(l.m, e);
    }
    hide Handle;
    hide OnControl;
  }

  // ---- Orders

  /** The eventless transitions touch no record. */
  lemma SettlingObeys(m: Machine, h: History)
    requires Obeys(m, h)
    ensures Obeys(Settle(m), h)
  {
  }

  lemma OrdersObey(m: Machine, e: Event, h: History)
    requires Obeys(m, h) && (e.StopRequested? || e.KillEngaged? || e.PermissionRevoked?)
    ensures forall n :: Obeys(OnControl(m, e), Noted(h, m, e, n))
  {
    hide NonBlank;
    hide TrailAfter;
    if Orders(e) {
      assert (h.orders + [e])[|h.orders + [e]| - 1] == e;
    }
  }

  lemma StartsObey(m: Machine, e: Event, h: History)
    requires Obeys(m, h) && (e.StartRequested? || e.Reset?)
    ensures forall n :: Obeys(OnControl(m, e), Noted(h, m, e, n))
  {
    hide TrailAfter;
  }

  lemma ControlObeys(m: Machine, e: Event, h: History)
    requires Obeys(m, h) && Control(e)
    ensures Obeys(Settle(OnControl(m, e)), Noted(h, m, e, Settle(OnControl(m, e))))
  {
    hide Obeys;
    hide Noted;
    hide OnControl;
    hide Settle;
    if e.StartRequested? || e.Reset? {
      StartsObey(m, e, h);
    } else {
      OrdersObey(m, e, h);
    }
    SettlingObeys(OnControl(m, e), Noted(h, m, e, Settle(OnControl(m, e))));
  }

  lemma ScheduleObeys(m: Machine, e: Event, h: History)
    requires Obeys(m, h) && Part(m.state) == 6 && !Control(e) && Stable(m)
    ensures Obeys(Settle(OnSchedule(m, e)), Noted(h, m, e, Settle(OnSchedule(m, e))))
  {
    hide TrailAfter;
  }

  /** An effect handler leaves alone what the operator ordered and what scheduling used up. */
  predicate Unordered(m: Machine, n: Machine) {
    && n.ctx.shutdown == m.ctx.shutdown && n.ctx.killCompleted == m.ctx.killCompleted
    && n.ctx.attempts.schedule == m.ctx.attempts.schedule && n.state != Waiting
  }

  lemma MarketIsUnordered(m: Machine, e: Event)
    requires Part(m.state) == 5
    ensures Unordered(m, OnMarket(m, e))
  {
    hide Fresh;
    hide Duplicate;
  }

  lemma DecisionIsUnordered(m: Machine, e: Event)
    requires Part(m.state) == 4 && m.ctx.canTrade
    ensures Unordered(m, OnDecision(m, e))
  {
  }

  lemma OrderIsUnordered(m: Machine, e: Event)
    requires Part(m.state) == 3
    ensures Unordered(m, OnOrder(m, e))
  {
    hide Usable;
  }

  lemma SettlementIsUnordered(m: Machine, e: Event)
    requires Part(m.state) <= 2
    ensures if m.state == Cancelling && e.EffectCancelled?
            then Unordered(m.(ctx := m.ctx.(killCompleted := m.ctx.shutdown == KillMode || m.ctx.killCompleted)), OnSettlement(m, e))
            else Unordered(m, OnSettlement(m, e))
  {
    hide OnSettlement;
    hide Unordered;
    if Closing(m.state) { StoringIsUnordered(m, e); } else if m.state == Cancelling { CancellingIsUnordered(m, e); } else { ReconcilingIsUnordered(m, e); }
  }

  lemma StoringIsUnordered(m: Machine, e: Event)
    requires Closing(m.state)
    ensures Unordered(m, OnSettlement(m, e))
  {
  }

  lemma CancellingIsUnordered(m: Machine, e: Event)
    requires m.state == Cancelling
    ensures if e.EffectCancelled?
            then Unordered(m.(ctx := m.ctx.(killCompleted := m.ctx.shutdown == KillMode || m.ctx.killCompleted)), OnSettlement(m, e))
            else Unordered(m, OnSettlement(m, e))
  {
  }

  lemma ReconcilingIsUnordered(m: Machine, e: Event)
    requires Part(m.state) == 2 || Part(m.state) == 0
    ensures Unordered(m, OnSettlement(m, e))
  {
  }

  lemma UnorderedObeys(m: Machine, e: Event, n: Machine, h: History)
    requires Obeys(m, h) && !Control(e) && 0 <= Part(m.state) <= 5 && m.state != Failed
    requires if m.state == Cancelling && e.EffectCancelled?
             then Unordered(m.(ctx := m.ctx.(killCompleted := m.ctx.shutdown == KillMode || m.ctx.killCompleted)), n)
             else Unordered(m, n)
    ensures Obeys(Settle(n), Noted(h, m, e, Settle(n)))
  {
    hide TrailAfter;
  }

  lemma FailedObeys(m: Machine, e: Event, h: History)
    requires Obeys(m, h) && m.state == Failed && !Control(e)
    ensures Obeys(Macro(m, e), Noted(h, m, e, Macro(m, e)))
  {
    hide TrailAfter;
  }

  lemma MacroObeys(m: Machine, e: Event, h: History)
    requires Obeys(m, h) && Stable(m) && Permitted(m)
    ensures Obeys(Macro(m, e), Noted(h, m, e, Macro(m, e)))
  {
    hide Obeys;
    hide Noted;
    hide OnControl;
    hide OnSchedule;
    hide OnMarket;
    hide OnDecision;
    hide OnOrder;
    hide OnSettlement;
    if Control(e) {
      ControlObeys(m, e, h);
    } else {
      if m.state == Failed {
        FailedObeys(m, e, h);
      } else if Part(m.state) == 6 {
        ScheduleObeys(m, e, h);
      } else {
        EffectObeys(m, e, h);
      }
    }
  }

  lemma EffectObeys(m: Machine, e: Event, h: History)
    requires Obeys(m, h) && Stable(m) && Permitted(m) && !Control(e) && Part(m.state) <= 5 && m.state != Failed
    ensures Obeys(Macro(m, e), Noted(h, m, e, Macro(m, e)))
  {
    hide Obeys;
    hide Noted;
    hide OnMarket;
    hide OnDecision;
    hide OnOrder;
    hide OnSettlement;
    hide Unordered;
    hide Settle;
    match Part(m.state)
    case 5 => MarketIsUnordered(m, e); UnorderedObeys(m, e, OnMarket(m, e), h);
    case 4 => TradingIsPermitted(m); DecisionIsUnordered(m, e); UnorderedObeys(m, e, OnDecision(m, e), h);
    case 3 => OrderIsUnordered(m, e); UnorderedObeys(m, e, OnOrder(m, e), h);
    case _ => SettlementIsUnordered(m, e); UnorderedObeys(m, e, OnSettlement(m, e), h);
  }

  lemma TradingIsPermitted(m: Machine)
    requires Stable(m) && Permitted(m) && Part(m.state) == 4
    ensures m.ctx.canTrade
  {
  }

  lemma AdvanceTells(l: Life, e: Event)
    requires Telling(l)
    ensures Telling(Advance(l, e))
  {
    hide Continues;
    hide Handle;
    hide Settle;
    hide Permitted;
    hide FlagFits;
    hide Noted;
    AdvanceContinues(l, e);
    MacroObeys(l.m, e, l.h);
    RememberingKeepsNotes(l.h, l.m, e, Macro(l.m, e));
    HandleFits(l.m, e);
    SettlingFits(l.m, e, Handle(l.m, e));
    MacroIsStable(l.m, e);
  }

  lemma RememberingKeepsNotes(h: History, m: Machine, e: Event, n: Machine)
    ensures var a, b := Noted(h, m, e, n), Remember(h, m, e, n);
            b.orders == a.orders && b.cancelled == a.cancelled && b.missed == a.missed && b.trail == a.trail
  {
    hide Noted;
  }

  lemma {:induction false} EveryRunTells(lastDecision: Option<int>, staleness: int, limits: Budgets, events: seq<Event>)
    ensures Telling(Run(Begin(lastDecision, staleness, limits), events))
  {
    hide Telling;
    hide Advance;
    if events == [] {
      BeginTells(lastDecision, staleness, limits);
    } else {
      EveryRunTells(lastDecision, staleness, limits, events[..|events| - 1]);
      AdvanceTells(Run(Begin(lastDecision, staleness, limits), events[..|events| - 1]), events[|events| - 1]);
    }
  }

  lemma BeginTells(lastDecision: Option<int>, staleness: int, limits: Budgets)
    ensures Telling(Begin(lastDecision, staleness, limits))
  {
  }

  // ---- Submissions are earned

  /** What had to be said before an order was handed over: every decision in favour, in order and as recorded,
      no order of the operator since the start, and at last an authorization that is usable. */
  ghost predicate Earned(s: Submission) {
    && Climbed(Steps(s.trail), s.ctx, 7) && s.orders == []
    && s.trail != []
    && var e := s.trail[|s.trail| - 1];
       e.AuthorizationReady? && Usable(e.expiresAt, e.issuedAt) && s.ctx.authorizationExpiresAt == Some(e.expiresAt)
  }

  /** An event after which the cycle must not trade. */
  predicate Spoils(e: Event) {
    e.RiskRejected? || e.RiskFailed? || (e.AllocationCompleted? && e.orderCount <= 0)
  }

  ghost predicate Spoiled(trail: seq<Event>) {
    exists i :: 0 <= i < |trail| && Spoils(trail[i])
  }

  ghost predicate Untraded(h: History) {
    forall i :: 0 <= i < |h.submissions| ==> h.submissions[i].cycle < h.cycle
  }

  ghost predicate Honest(l: Life) {
    && (forall i :: 0 <= i < |l.h.submissions| ==> Earned(l.h.submissions[i]) && l.h.submissions[i].cycle <= l.h.cycle)
    && (Spoiled(l.h.trail) ==> Untraded(l.h))
    && (4 <= Part(l.m.state) <= 5 ==> Untraded(l.h))
  }

  lemma {:induction false} SpoilsAreSteps(trail: seq<Event>, i: nat)
    requires i < |trail| && Spoils(trail[i])
    ensures trail[i] in Steps(trail)
  {
    if i < |trail| - 1 {
      SpoilsAreSteps(trail[..|trail| - 1], i);
    }
  }

  lemma ClimbedIsUnspoiled(trail: seq<Event>, c: Context)
    requires Climbed(Steps(trail), c, 7)
    ensures !Spoiled(trail)
  {
    hide Steps;
    if i :| 0 <= i < |trail| && Spoils(trail[i]) {
      SpoilsAreSteps(trail, i);
      assert exists k :: 0 <= k < 7 && Steps(trail)[k] == trail[i];
    }
  }

  lemma AuthorizingSubmits(m: Machine, e: Event)
    requires m.state == Authorizing && Macro(m, e).state == SubmittingOrder && Stable(m)
    ensures e.AuthorizationReady? && Usable(e.expiresAt, e.issuedAt)
    ensures Macro(m, e).ctx.authorizationExpiresAt == Some(e.expiresAt) && Macro(m, e).ctx.shutdown == NoShutdown
  {
    hide Usable;
    if Control(e) {
      hide OnControl;
      ControlLeavesToTheEdge(m, e);
    }
  }

  lemma SubmissionIsEarned(l: Life, e: Event)
    requires Telling(l) && l.m.state == Authorizing && Macro(l.m, e).state == SubmittingOrder
    ensures var n := Advance(l, e);
            && n.h.submissions == l.h.submissions + [Submission(l.h.cycle, n.m.ctx, l.h.unresolved, n.h.trail, n.h.orders)]
            && Earned(n.h.submissions[|l.h.submissions|]) && n.h.cycle == l.h.cycle && !Spoiled(n.h.trail)
  {
    hide Macro;
    hide Steps;
    hide Continues;
    hide Usable;
    hide Telling;
    hide Climbed;
    hide Spoiled;
    TellingIsStable(l);
    AuthorizingSubmits(l.m, e);
    AdvanceTells(l, e);
    var n := Advance(l, e);
    StandsOf(n);
    ModeOf(n);
    ClimbedIsUnspoiled(n.h.trail, n.m.ctx);
  }

  lemma ModeOf(l: Life)
    requires Telling(l)
    ensures l.m.ctx.shutdown == Mode(l.h.orders)
    ensures Mode(l.h.orders) == NoShutdown ==> l.h.orders == []
  {
    hide Continues;
  }

  lemma StandsOf(l: Life)
    requires Telling(l) && Rung(l.m.state) == 7
    ensures Climbed(Steps(l.h.trail), l.m.ctx, 7)
  {
  }

  lemma SpoilersAreHeardEarly(m: Machine, e: Event)
    requires Stable(m) && !Control(e) && Macro(m, e) != m && Spoils(e)
    ensures Part(m.state) == 4
  {
    hide OnMarket;
    MarketHearsNoSpoiler(m, e);
  }

  lemma MarketHearsNoSpoiler(m: Machine, e: Event)
    requires Spoils(e)
    ensures OnMarket(m, e) == m
  {
  }

  lemma AdvanceKeepsHonest(l: Life, e: Event)
    requires Telling(l) && Honest(l)
    ensures Honest(Advance(l, e))
  {
    hide Macro;
    hide Telling;
    hide Earned;
    hide Stable;
    var n := Advance(l, e);
    TellingIsStable(l);
    MacroEvolves(l.m, e);
    if l.m.state == Authorizing && Macro(l.m, e).state == SubmittingOrder {
      SubmissionIsEarned(l, e);
    }
    if Spoiled(n.h.trail) && !Spoiled(l.h.trail) {
      NewSpoiler(l, e);
    }
  }

  lemma NewSpoiler(l: Life, e: Event)
    requires Stable(l.m) && Spoiled(Advance(l, e).h.trail) && !Spoiled(l.h.trail)
    ensures Part(l.m.state) == 4
  {
    hide Macro;
    var n := Macro(l.m, e);
    var trail := TrailAfter(l.h, l.m, e, n);
    var i :| 0 <= i < |trail| && Spoils(trail[i]);
    NoSpoilerBefore(l.h.trail, e, trail, i);
    if Begins(l.m, n) {
      AlarmsSpoilNothing(l.m, e);
    } else {
      SpoilersAreHeardEarly(l.m, e);
    }
  }

  lemma NoSpoilerBefore(before: seq<Event>, e: Event, trail: seq<Event>, i: nat)
    requires !Spoiled(before) && i < |trail| && Spoils(trail[i])
    requires trail == before + [e] || trail == [e] || trail == [] || trail == before
    ensures trail[i] == e && trail != before
  {
    hide Spoils;
  }

  lemma AlarmsSpoilNothing(m: Machine, e: Event)
    requires Begins(m, Macro(m, e)) && Stable(m)
    ensures e.AlarmFired?
  {
    if Control(e) {
      hide OnControl;
      ControlLeavesToTheEdge(m, e);
    }
  }

  lemma TellingIsStable(l: Life)
    requires Telling(l)
    ensures Stable(l.m)
  {
  }

  lemma {:induction false} EveryRunIsHonest(lastDecision: Option<int>, staleness: int, limits: Budgets, events: seq<Event>)
    ensures Honest(Run(Begin(lastDecision, staleness, limits), events))
  {
    hide Honest;
    hide Advance;
    if events == [] {
      NothingToAnswer(lastDecision, staleness, limits);
    } else {
      EveryRunIsHonest(lastDecision, staleness, limits, events[..|events| - 1]);
      EveryRunTells(lastDecision, staleness, limits, events[..|events| - 1]);
      AdvanceKeepsHonest(Run(Begin(lastDecision, staleness, limits), events[..|events| - 1]), events[|events| - 1]);
    }
  }

  lemma NothingToAnswer(lastDecision: Option<int>, staleness: int, limits: Budgets)
    ensures Honest(Begin(lastDecision, staleness, limits))
  {
  }

  // ---- The guarantees

  /** Every submission of every run follows an alarm, an account read, indicators, signals, an allocation of at
      least one order, an approval by risk and a stored intent of its own cycle, in this order and each on
      record; its authorization is usable; and the operator has ordered nothing since the start. */
  lemma SubmissionsAreEarned(lastDecision: Option<int>, staleness: int, limits: Budgets, events: seq<Event>, i: nat)
    requires i < |Run(Begin(lastDecision, staleness, limits), events).h.submissions|
    ensures var s := Run(Begin(lastDecision, staleness, limits), events).h.submissions[i];
            && Earned(s)
            && s.trail != [] && s.trail[|s.trail| - 1].AuthorizationReady?
            && 0 < s.trail[|s.trail| - 1].expiresAt - s.trail[|s.trail| - 1].issuedAt <= 120_000
  {
    hide Earned;
    EveryRunIsHonest(lastDecision, staleness, limits, events);
    EarnedIsUsable(Run(Begin(lastDecision, staleness, limits), events).h.submissions[i]);
  }

  lemma EarnedIsUsable(s: Submission)
    requires Earned(s)
    ensures s.trail != [] && s.trail[|s.trail| - 1].AuthorizationReady?
    ensures 0 < s.trail[|s.trail| - 1].expiresAt - s.trail[|s.trail| - 1].issuedAt <= 120_000
  {
    hide Climbed;
  }

  /** A cycle that has heard a rejection or a failure of risk, or an allocation of nothing, has not submitted
      and never will. */
  lemma SpoiledCyclesTradeNothing(lastDecision: Option<int>, staleness: int, limits: Budgets, events: seq<Event>, i: nat)
    requires Spoiled(Run(Begin(lastDecision, staleness, limits), events).h.trail)
    requires i < |Run(Begin(lastDecision, staleness, limits), events).h.submissions|
    ensures var h := Run(Begin(lastDecision, staleness, limits), events).h; h.submissions[i].cycle != h.cycle
  {
    hide Earned;
    EveryRunIsHonest(lastDecision, staleness, limits, events);
  }

  /** While a cycle is stored, its outcome is the one of the event that ended it: confirmed exactly when the
      exchange said so, rejected by risk exactly when risk did. */
  lemma OutcomesAreTold(lastDecision: Option<int>, staleness: int, limits: Budgets, events: seq<Event>)
    requires Closing(Run(Begin(lastDecision, staleness, limits), events).m.state)
    ensures var l := Run(Begin(lastDecision, staleness, limits), events);
            && LastTold(l.h.trail).Some? && Ends(LastTold(l.h.trail).value) == Some(l.m.ctx.outcome)
            && (l.m.ctx.terminal <==> Grave(LastTold(l.h.trail).value))
            && (l.m.ctx.outcome == Confirmed ==>
                  && l.m.ctx.exchangeOrderId.Some?
                  && (|| LastTold(l.h.trail) == Some(OrderConfirmed(l.m.ctx.exchangeOrderId.value))
                      || LastTold(l.h.trail) == Some(OrderReconciled(l.m.ctx.exchangeOrderId))))
  {
    hide LastTold;
    hide Telling;
    EveryRunTells(lastDecision, staleness, limits, events);
    var l := Run(Begin(lastDecision, staleness, limits), events);
    WhatIsTold(l);
    if l.m.ctx.outcome == Confirmed {
      ConfirmationsAreTold(l.m, LastTold(l.h.trail));
    }
  }

  lemma WhatIsTold(l: Life)
    requires Telling(l)
    ensures Concludes(l.m, LastTold(l.h.trail)) && Obeys(l.m, l.h) && Stable(l.m)
  {
    hide Stands;
    hide Concludes;
    hide Budgeted;
    hide Obeys;
  }

  lemma ConfirmationsAreTold(m: Machine, last: Option<Event>)
    requires Closing(m.state) && Concludes(m, last) && m.ctx.outcome == Confirmed
    ensures m.ctx.exchangeOrderId.Some?
    ensures last == Some(OrderConfirmed(m.ctx.exchangeOrderId.value)) || last == Some(OrderReconciled(m.ctx.exchangeOrderId))
  {
  }

  // ---- Perseverance

  /** The state that waits for an effect of this kind, the one a retry waits in, and the end of trying. */
  function AskedIn(k: Kind): State {
    match k
    case Account => ReconcilingAccount
    case Market => FetchingMarketData
    case Authority => Authorizing
    case Sending => SubmittingOrder
    case Settling => ReconcilingOrder
    case Storing => Persisting
  }

  function RetriedFrom(k: Kind): State {
    match k
    case Account => RetryingAccountReconciliation
    case Market => RetryingMarketData
    case Authority => RetryingAuthorization
    case Sending => RetryingExecution
    case Settling => RetryingReconciliation
    case Storing => RetryingPersistence
  }

  function LimitOf(l: Budgets, k: Kind): nat {
    match k
    case Account => l.reconciliation
    case Market => l.marketData
    case Authority => l.authorization
    case Sending => l.execution
    case Settling => l.reconciliation
    case Storing => l.persistence
  }

  predicate Retryable(e: Event) {
    match e
    case AccountReconciliationFailed(error) => error.retryable
    case MarketDataFailed(error) => error.retryable
    case AuthorizationFailed(error) => error.retryable
    case OrderRejected(error) => error.retryable
    case ReconciliationFailed(error) => error.retryable
    case PersistFailed(error) => error.retryable
    case _ => true
  }

  /** A refusal, market data that is neither a repeated candle nor fresh being one too. */
  predicate Refusal(m: Machine, e: Event, k: Kind) {
    Refuses(e, k) && (e.MarketDataReady? ==> !Duplicate(m.ctx, e.candleClosedAt) && !Fresh(m.ctx, e.candleClosedAt, e.evaluatedAt))
  }

  /** How a refusal is answered when so many of its kind were heard before. */
  function AnswerTo(e: Event, k: Kind, heard: nat, limit: nat): State {
    if Retryable(e) && heard < limit then RetriedFrom(k)
    else if k == Settling || k == Storing then Failed
    else Persisting
  }

  lemma MarketAnswers(m: Machine, e: Event, k: Kind, heard: Tally)
    requires (k == Account || k == Market) && m.state == AskedIn(k) && Refusal(m, e, k) && Budgeted(m, heard)
    ensures OnMarket(m, e).state == AnswerTo(e, k, heard.Of(k), LimitOf(m.ctx.limits, k)) && OnMarket(m, e).ctx.shutdown == m.ctx.shutdown
  {
    hide Fresh;
    hide Duplicate;
    hide Usable;
  }

  lemma OrderAnswers(m: Machine, e: Event, k: Kind, heard: Tally)
    requires (k == Authority || k == Sending) && m.state == AskedIn(k) && Refusal(m, e, k) && Budgeted(m, heard)
    ensures OnOrder(m, e).state == AnswerTo(e, k, heard.Of(k), LimitOf(m.ctx.limits, k)) && OnOrder(m, e).ctx.shutdown == m.ctx.shutdown
  {
    hide Usable;
  }

  lemma SettlementAnswers(m: Machine, e: Event, k: Kind, heard: Tally)
    requires (k == Settling || k == Storing) && m.state == AskedIn(k) && Refusal(m, e, k) && Budgeted(m, heard)
    ensures OnSettlement(m, e).state == AnswerTo(e, k, heard.Of(k), LimitOf(m.ctx.limits, k))
  {
  }

  lemma RefusalsAreAnswered(m: Machine, e: Event, k: Kind, heard: Tally)
    requires m.state == AskedIn(k) && Refusal(m, e, k) && Budgeted(m, heard) && Stable(m)
    ensures Macro(m, e).state == AnswerTo(e, k, heard.Of(k), LimitOf(m.ctx.limits, k))
  {
    hide OnMarket;
    hide OnOrder;
    hide OnSettlement;
    hide Budgeted;
    RefusalsAreNoControls(m, e, k);
    hide Refusal;
    match k
    case Account => MarketAnswers(m, e, k, heard);
    case Market => MarketAnswers(m, e, k, heard);
    case Authority => OrderAnswers(m, e, k, heard);
    case Sending => OrderAnswers(m, e, k, heard);
    case Settling => SettlementAnswers(m, e, k, heard);
    case Storing => SettlementAnswers(m, e, k, heard);
  }

  lemma RefusalsAreNoControls(m: Machine, e: Event, k: Kind)
    requires Refusal(m, e, k)
    ensures !Control(e)
  {
    hide Usable;
  }

  /** A refused effect is asked for again exactly while the refusal is retryable and the cycle has heard fewer
      of its kind than the limit; otherwise the cycle is stored as it is, or fails if that or the fate of an
      order is what cannot be had.  A retry goes back to asking. */
  lemma GivesUpExactly(lastDecision: Option<int>, staleness: int, limits: Budgets, events: seq<Event>, e: Event, k: Kind)
    ensures var l := Run(Begin(lastDecision, staleness, limits), events);
            && (l.m.state == AskedIn(k) && Refusal(l.m, e, k) ==>
                  Macro(l.m, e).state == AnswerTo(e, k, Count(l.h.trail).Of(k), LimitOf(limits, k)))
            && (l.m.state == RetriedFrom(k) ==>
                  Macro(l.m, RetryTimerElapsed).state == if k == Sending then Authorizing else AskedIn(k))
  {
    hide Refusal;
    hide Telling;
    hide Macro;
    hide Count;
    EveryRunTells(lastDecision, staleness, limits, events);
    LimitsStand(lastDecision, staleness, limits, events);
    var l := Run(Begin(lastDecision, staleness, limits), events);
    TalliesAreKept(l);
    if l.m.state == AskedIn(k) && Refusal(l.m, e, k) {
      RefusalsAreAnswered(l.m, e, k, Count(l.h.trail));
    }
    if l.m.state == RetriedFrom(k) {
      TimersReturn(l.m, k);
    }
  }

  lemma TimersReturn(m: Machine, k: Kind)
    requires m.state == RetriedFrom(k) && Stable(m)
    ensures Macro(m, RetryTimerElapsed).state == if k == Sending then Authorizing else AskedIn(k)
  {
  }

  lemma TalliesAreKept(l: Life)
    requires Telling(l)
    ensures Budgeted(l.m, Count(l.h.trail)) && Stable(l.m)
  {
  }

  lemma {:induction false} LimitsStand(lastDecision: Option<int>, staleness: int, limits: Budgets, events: seq<Event>)
    ensures Run(Begin(lastDecision, staleness, limits), events).m.ctx.limits == limits
    ensures Run(Begin(lastDecision, staleness, limits), events).m.ctx.staleness == staleness
  {
    hide Macro;
    hide Telling;
    if events != [] {
      var before := events[..|events| - 1];
      LimitsStand(lastDecision, staleness, limits, before);
      EveryRunTells(lastDecision, staleness, limits, before);
      var l := Run(Begin(lastDecision, staleness, limits), before);
      TellingIsStable(l);
      MacroEvolves(l.m, events[|events| - 1]);
    }
  }

  /** Scheduling is retried by the same rule, over the failures since it last succeeded. */
  lemma SchedulingGivesUpExactly(lastDecision: Option<int>, staleness: int, limits: Budgets, events: seq<Event>, error: WorkflowError)
    requires Run(Begin(lastDecision, staleness, limits), events).m.state == Scheduling
    ensures var l := Run(Begin(lastDecision, staleness, limits), events);
            && Macro(l.m, ScheduleFailed(error)).state == (if error.retryable && l.h.missed < limits.schedule then RetryingSchedule else Failed)
            && (forall at :: Macro(l.m, ScheduleSucceeded(at)).state == Waiting)
  {
    EveryRunTells(lastDecision, staleness, limits, events);
    LimitsStand(lastDecision, staleness, limits, events);
  }

  // ---- Where a stored cycle goes

  /** After it is stored, a cycle fails if something grave ended it; else it obeys the last order: stopped after
      a stop, halted after a revocation or after a kill whose cancellation has been heard since, cancelling for
      one that has not; and without an order it schedules the next. */
  lemma StoredCyclesObey(lastDecision: Option<int>, staleness: int, limits: Budgets, events: seq<Event>)
    requires Run(Begin(lastDecision, staleness, limits), events).m.state == Persisting
    ensures var l := Run(Begin(lastDecision, staleness, limits), events);
            var n := Macro(l.m, PersistSucceeded);
            && n.ctx == l.m.ctx
            && LastTold(l.h.trail).Some?
            && n.state == if Grave(LastTold(l.h.trail).value) then Failed
                          else if Mode(l.h.orders) == StopMode then State.Stopped
                          else if Mode(l.h.orders) == KillMode && !l.h.cancelled then Cancelling
                          else if Mode(l.h.orders) != NoShutdown then Halted
                          else Scheduling
  {
    hide LastTold;
    hide Mode;
    hide Telling;
    EveryRunTells(lastDecision, staleness, limits, events);
    var l := Run(Begin(lastDecision, staleness, limits), events);
    WhatIsTold(l);
    StoredGoes(l.m, LastTold(l.h.trail), l.h);
  }

  lemma StoredGoes(m: Machine, last: Option<Event>, h: History)
    requires m.state == Persisting && Concludes(m, last) && Obeys(m, h)
    ensures var n := Macro(m, PersistSucceeded);
            && n.ctx == m.ctx
            && n.state == if Grave(last.value) then Failed
                          else if Mode(h.orders) == StopMode then State.Stopped
                          else if Mode(h.orders) == KillMode && !h.cancelled then Cancelling
                          else if Mode(h.orders) != NoShutdown then Halted
                          else Scheduling
  {
    hide Mode;
  }

  /** An order takes effect wherever it is heard: nothing is sent any more, what may be out is asked about, what
      was not sent is cancelled, and a kill ordered in peace is carried out as well. */
  lemma OrdersTakeEffect(lastDecision: Option<int>, staleness: int, limits: Budgets, events: seq<Event>, e: Event)
    requires Orders(e)
    ensures var l := Run(Begin(lastDecision, staleness, limits), events);
            var n := Macro(l.m, e);
            && n.ctx.shutdown == Mode([e])
            && (e.PermissionRevoked? ==> !n.ctx.canTrade && n.ctx.lastError == Some(REVOKED))
            && (e.KillEngaged? ==> n.ctx.killRequestId == Some(e.controlId) && !n.ctx.killCompleted)
            && (3 <= Part(l.m.state) <= 6 && l.m.state != SubmittingOrder ==> n.state == Cancelling)
            && (l.m.state == SubmittingOrder ==> n.state == ReconcilingOrder)
            && (l.m.state == State.Stopped ==> n.state == if e.KillEngaged? then Cancelling else State.Stopped)
            && (1 <= Part(l.m.state) <= 2 || l.m.state == Failed || l.m.state == Halted ==> n.state == l.m.state)
  {
    hide NonBlank;
    hide Telling;
    assert Mode([e]) != NoShutdown;
  }

  /** Without control permission an order of the operator changes nothing but the error on record; a start needs
      both permissions and a stopped machine, a reset control permission and a failed or halted one, and it
      forgets all but the last decision and the configuration. */
  lemma PermissionsDecide(m: Machine, e: Event)
    requires Control(e) && Stable(m)
    ensures var n := Macro(m, e);
            && (!Orders(e) && !Starts(m.state, e) && !Resets(m.state, e) ==> n == m.(ctx := m.ctx.(lastError := n.ctx.lastError)))
            && ((e.StopRequested? || e.KillEngaged?) && !Orders(e) ==> n.ctx.lastError == Some(CONTROL_DENIED))
            && (Starts(m.state, e) ==> n.state == Scheduling && n.ctx.canTrade && n.ctx.canControl && n.ctx.shutdown == NoShutdown)
            && (Resets(m.state, e) ==> n == Create(m.ctx.lastDecision, m.ctx.staleness, m.ctx.limits))
  {
    hide NonBlank;
    match e
    case StartRequested(_, _) => StartsAreTaken(m, e);
    case Reset(_) => ResetsAreTaken(m, e);
    case _ => if !Orders(e) { OrdersAreTaken(m, e); }
  }

  lemma StartsAreTaken(m: Machine, e: Event)
    requires e.StartRequested? && Stable(m)
    ensures var n := Macro(m, e);
            if Starts(m.state, e) then n.state == Scheduling && n.ctx.canTrade && n.ctx.canControl && n.ctx.shutdown == NoShutdown
            else n == m.(ctx := m.ctx.(lastError := n.ctx.lastError))
  {
  }

  lemma ResetsAreTaken(m: Machine, e: Event)
    requires e.Reset? && Stable(m)
    ensures var n := Macro(m, e);
            if Resets(m.state, e) then n == Create(m.ctx.lastDecision, m.ctx.staleness, m.ctx.limits)
            else n == m.(ctx := m.ctx.(lastError := n.ctx.lastError))
  {
  }

  lemma OrdersAreTaken(m: Machine, e: Event)
    requires Stable(m) && (e.StopRequested? || e.KillEngaged? || e.PermissionRevoked?) && !Orders(e)
    ensures Macro(m, e) == m.(ctx := m.ctx.(lastError := Some(CONTROL_DENIED)))
  {
    hide NonBlank;
  }

  /** An alarm under a new id begins a cycle with nothing on record; one under the id of the last cycle is refused. */
  lemma CyclesBeginClean(m: Machine, cycleId: string, triggeredAt: int)
    requires m.state == Waiting && Stable(m)
    ensures var n := Macro(m, AlarmFired(cycleId, triggeredAt));
            if m.ctx.cycleId == Some(cycleId) then n == m.(ctx := m.ctx.(lastError := Some(DUPLICATE_ALARM)))
            else
              && n.state == ReconcilingAccount && n.ctx.cycleId == Some(cycleId) && n.ctx.triggeredAt == Some(triggeredAt)
              && n.ctx.admission.None? && n.ctx.clientOrderId.None? && n.ctx.exchangeOrderId.None? && n.ctx.decisionId.None?
              && n.ctx.lastError.None? && n.ctx.outcome == Running && n.ctx.attempts == NO_ATTEMPTS
              && n.ctx.lastDecision == m.ctx.lastDecision && n.ctx.canTrade == m.ctx.canTrade
  {
  }

  /** A candle is admitted exactly when it is newer than every candle admitted before, closed by the alarm that is
      not later than its evaluation, and evaluated within the staleness limit. */
  lemma AdmittedExactly(lastDecision: Option<int>, staleness: int, limits: Budgets, events: seq<Event>, e: Event)
    requires Run(Begin(lastDecision, staleness, limits), events).m.state == FetchingMarketData && e.MarketDataReady?
    ensures var l := Run(Begin(lastDecision, staleness, limits), events);
            var newer := && (lastDecision.Some? ==> lastDecision.value < e.candleClosedAt)
                         && forall i :: 0 <= i < |l.h.admitted| ==> l.h.admitted[i] < e.candleClosedAt;
            var timely := && l.m.ctx.triggeredAt.Some? && Timestamp(l.m.ctx.triggeredAt.value)
                          && Timestamp(e.candleClosedAt) && Timestamp(e.evaluatedAt)
                          && e.candleClosedAt <= l.m.ctx.triggeredAt.value <= e.evaluatedAt
                          && e.evaluatedAt - e.candleClosedAt <= staleness;
            && (Macro(l.m, e).state == ComputingIndicators <==> newer && timely)
            && (!newer ==> Macro(l.m, e).state == Persisting && Macro(l.m, e).ctx.outcome == NoAction)
  {
    hide Fresh;
    hide Flagged;
    hide Tracked;
    hide Serial;
    hide AllSound;
    hide Telling;
    hide Macro;
    hide Run;
    hide Decided;
    RunIsSafe(lastDecision, staleness, limits, events);
    EveryRunTells(lastDecision, staleness, limits, events);
    var l := Run(Begin(lastDecision, staleness, limits), events);
    TellingIsStable(l);
    DataIsJudged(l.m, e);
    NewestIsLast(l, lastDecision, e.candleClosedAt);
    LimitsStand(lastDecision, staleness, limits, events);
    FreshnessIs(l.m.ctx, e.candleClosedAt, e.evaluatedAt);
  }

  lemma FreshnessIs(c: Context, candle: int, evaluated: int)
    ensures Fresh(c, candle, evaluated) <==>
              && c.triggeredAt.Some? && Timestamp(c.triggeredAt.value) && Timestamp(candle) && Timestamp(evaluated)
              && candle <= c.triggeredAt.value <= evaluated && evaluated - candle <= c.staleness
  {
  }

  /** A candle is newer than every admitted one exactly when it is newer than the last. */
  lemma NewestIsLast(l: Life, initial: Option<int>, candle: int)
    requires Decided(l, initial)
    ensures !Duplicate(l.m.ctx, candle) <==>
              && (initial.Some? ==> initial.value < candle) && forall i :: 0 <= i < |l.h.admitted| ==> l.h.admitted[i] < candle
  {
    if l.h.admitted != [] {
      var last := |l.h.admitted| - 1;
      assert l.m.ctx.lastDecision == Some(l.h.admitted[last]);
    }
  }

  lemma DataIsJudged(m: Machine, e: Event)
    requires m.state == FetchingMarketData && e.MarketDataReady? && Stable(m)
    ensures Macro(m, e).state == ComputingIndicators <==> !Duplicate(m.ctx, e.candleClosedAt) && Fresh(m.ctx, e.candleClosedAt, e.evaluatedAt)
    ensures Duplicate(m.ctx, e.candleClosedAt) ==> Macro(m, e).state == Persisting && Macro(m, e).ctx.outcome == NoAction
  {
    hide Fresh;
    hide Duplicate;
  }

  /** Whatever fails, its error is on record when it has been heard. */
  lemma FailuresAreRecorded(m: Machine, e: Event, error: WorkflowError)
    requires Stable(m) && Macro(m, e) != m && ErrorOf(e) == Some(error)
    ensures Macro(m, e).ctx.lastError == Some(error)
  {
    hide OnMarket;
    hide OnDecision;
    hide OnOrder;
    hide OnSettlement;
    hide OnSchedule;
    match Part(m.state)
    case 6 => ScheduleRecords(m, e, error);
    case 5 => MarketRecords(m, e, error);
    case 4 => DecisionRecords(m, e, error);
    case 3 => OrderRecords(m, e, error);
    case _ => SettlementRecords(m, e, error);
  }

  function ErrorOf(e: Event): Option<WorkflowError> {
    match e
    case ScheduleFailed(error) => Some(error)
    case AccountReconciliationFailed(error) => Some(error)
    case MarketDataFailed(error) => Some(error)
    case IndicatorsFailed(error) => Some(error)
    case StrategiesFailed(error) => Some(error)
    case AllocationFailed(error) => Some(error)
    case RiskFailed(error) => Some(error)
    case OrderIntentFailed(error) => Some(error)
    case AuthorizationFailed(error) => Some(error)
    case OrderRejected(error) => Some(error)
    case OrderOutcomeUnknown(error) => Some(error)
    case OrderProtectionFailed(_, error) => Some(error)
    case ReconciliationFailed(error) => Some(error)
    case PersistFailed(error) => Some(error)
    case EffectCancelFailed(error) => Some(error)
    case _ => None
  }

  lemma ScheduleRecords(m: Machine, e: Event, error: WorkflowError)
    requires Part(m.state) == 6 && ErrorOf(e) == Some(error)
    ensures OnSchedule(m, e) == m || OnSchedule(m, e).ctx.lastError == Some(error)
  {
  }

  lemma MarketRecords(m: Machine, e: Event, error: WorkflowError)
    requires Part(m.state) == 5 && ErrorOf(e) == Some(error)
    ensures OnMarket(m, e) == m || OnMarket(m, e).ctx.lastError == Some(error)
  {
  }

  lemma DecisionRecords(m: Machine, e: Event, error: WorkflowError)
    requires Part(m.state) == 4 && ErrorOf(e) == Some(error)
    ensures OnDecision(m, e) == m || OnDecision(m, e).ctx.lastError == Some(error)
  {
  }

  lemma OrderRecords(m: Machine, e: Event, error: WorkflowError)
    requires Part(m.state) == 3 && ErrorOf(e) == Some(error)
    ensures OnOrder(m, e) == m || OnOrder(m, e).ctx.lastError == Some(error)
  {
  }

  lemma SettlementRecords(m: Machine, e: Event, error: WorkflowError)
    requires Part(m.state) <= 2 && ErrorOf(e) == Some(error)
    ensures OnSettlement(m, e) == m || OnSettlement(m, e).ctx.lastError == Some(error)
  {
  }
}
