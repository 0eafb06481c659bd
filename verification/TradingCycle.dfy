/** The trading cycle machine: one macrostep is a handler followed by the eventless shutdown transitions. */
module TradingCycle {
  import opened Basics
  import Kill = KillSwitch

  type WorkflowError = Kill.WorkflowError

  datatype State =
    | Stopped | Scheduling | RetryingSchedule | Waiting
    | ReconcilingAccount | RetryingAccountReconciliation
    | FetchingMarketData | RetryingMarketData
    | ComputingIndicators | EvaluatingStrategies | Allocating | CheckingRisk | PersistingOrderIntent
    | Authorizing | RetryingAuthorization
    | SubmittingOrder | RetryingExecution
    | ReconcilingOrder | RetryingReconciliation
    | Cancelling | Persisting | RetryingPersistence
    | Failed | Halted

  datatype Shutdown = NoShutdown | StopMode | KillMode | RevokedMode

  datatype Outcome = IdleOutcome | Running | NoAction | RiskRejectedOutcome | Confirmed | Rejected | Cancelled | FailedOutcome

  datatype Budgets = Budgets(schedule: nat, marketData: nat, authorization: nat, execution: nat, reconciliation: nat, persistence: nat)

  const DEFAULT_LIMITS := Budgets(3, 3, 2, 1, 4, 5)
  const NO_ATTEMPTS := Budgets(0, 0, 0, 0, 0, 0)

  datatype Admission = Admission(cycleId: string, candleClosedAt: int, evaluatedAt: int)

  datatype Context = Context(
    canControl: bool,
    canTrade: bool,
    cycleId: Option<string>,
    triggeredAt: Option<int>,
    nextWakeAt: Option<int>,
    marketSnapshotId: Option<string>,
    accountSnapshotId: Option<string>,
    lastDecision: Option<int>,
    admission: Option<Admission>,
    indicatorsId: Option<string>,
    signalsId: Option<string>,
    decisionId: Option<string>,
    clientOrderId: Option<string>,
    exchangeOrderId: Option<string>,
    mayBeInFlight: bool,
    authorizationExpiresAt: Option<int>,
    shutdown: Shutdown,
    killRequestId: Option<string>,
    killCompleted: bool,
    outcome: Outcome,
    terminal: bool,
    lastError: Option<WorkflowError>,
    staleness: int,
    limits: Budgets,
    attempts: Budgets)

  datatype Machine = Machine(state: State, ctx: Context)

  datatype Event =
    // control
    | StartRequested(canControl: bool, canTrade: bool)
    | StopRequested(canControl: bool)
    | KillEngaged(canControl: bool, controlId: string)
    | PermissionRevoked
    | Reset(canControl: bool)
    // schedule
    | ScheduleSucceeded(nextWakeAt: int)
    | ScheduleFailed(error: WorkflowError)
    | AlarmFired(cycleId: string, triggeredAt: int)
    // decision
    | AccountReconciled(snapshotId: string)
    | AccountReconciliationFailed(error: WorkflowError)
    | MarketDataReady(snapshotId: string, candleClosedAt: int, evaluatedAt: int)
    | MarketDataFailed(error: WorkflowError)
    | IndicatorsComputed(indicatorsId: string)
    | IndicatorsFailed(error: WorkflowError)
    | StrategiesEvaluated(signalsId: string)
    | StrategiesFailed(error: WorkflowError)
    | AllocationCompleted(decisionId: string, orderCount: int)
    | AllocationFailed(error: WorkflowError)
    | RiskApproved
    | RiskRejected
    | RiskFailed(error: WorkflowError)
    // order
    | OrderIntentPersisted(clientOrderId: string)
    | OrderIntentFailed(error: WorkflowError)
    | AuthorizationReady(expiresAt: int, issuedAt: int)
    | AuthorizationFailed(error: WorkflowError)
    | OrderConfirmed(exchangeOrderId: string)
    | OrderRejected(error: WorkflowError)
    | OrderNoLongerNeeded
    | OrderOutcomeUnknown(error: WorkflowError)
    | OrderProtectionFailed(maybeOrderId: Option<string>, error: WorkflowError)
    | OrderReconciled(maybeOrderId: Option<string>)
    | ReconciliationFailed(error: WorkflowError)
    // shared
    | PersistSucceeded
    | PersistFailed(error: WorkflowError)
    | EffectCancelled
    | EffectCancelFailed(error: WorkflowError)
    | RetryTimerElapsed

  function Create(lastDecision: Option<int>, staleness: int, limits: Budgets): Machine {
    Machine(State.Stopped, Context(false, false, None, None, None, None, None, lastDecision, None, None, None, None, None, None, false,
                             None, NoShutdown, None, false, IdleOutcome, false, None, staleness, limits, NO_ATTEMPTS))
  }

  // ---- Guards and recorded errors

  const CONTROL_DENIED := Kill.WorkflowError("cancellation", "CONTROL_PERMISSION_REQUIRED", false)
  const STALE_MARKET_DATA := Kill.WorkflowError("market-data", "STALE_MARKET_DATA", true)
  const AUTHORIZATION_EXPIRED := Kill.WorkflowError("authorization", "AUTHORIZATION_EXPIRED", true)
  const REVOKED := Kill.WorkflowError("execution", "PERMISSION_REVOKED", false)
  const DUPLICATE_ALARM := Kill.WorkflowError("schedule", "DUPLICATE_ALARM", false)

  predicate Duplicate(c: Context, candle: int) {
    c.lastDecision.Some? && candle <= c.lastDecision.value
  }

  predicate Fresh(c: Context, candle: int, evaluated: int) {
    && c.triggeredAt.Some? && Timestamp(c.triggeredAt.value) && Timestamp(candle) && Timestamp(evaluated)
    && evaluated >= c.triggeredAt.value && candle <= c.triggeredAt.value && evaluated - candle <= c.staleness
  }

  predicate Usable(expiresAt: int, issuedAt: int) {
    0 < expiresAt - issuedAt <= 120_000
  }

  function Revoke(c: Context): Context {
    c.(canTrade := false, shutdown := RevokedMode, lastError := Some(REVOKED))
  }

  /** A failed effect that ends the cycle. */
  function GiveUp(c: Context, e: WorkflowError): Machine {
    Machine(Persisting, c.(lastError := Some(e), outcome := FailedOutcome))
  }

  function BeginCycle(c: Context, cycleId: string, triggeredAt: int): Context {
    c.(cycleId := Some(cycleId), triggeredAt := Some(triggeredAt), admission := None, nextWakeAt := None, marketSnapshotId := None,
       accountSnapshotId := None, indicatorsId := None, signalsId := None, decisionId := None, clientOrderId := None,
       exchangeOrderId := None, mayBeInFlight := false, authorizationExpiresAt := None, killCompleted := false,
       outcome := Running, terminal := false, lastError := None, attempts := NO_ATTEMPTS)
  }

  /** RESET forgets everything but the last decided candle and the configuration. */
  function ResetContext(c: Context): Context {
    Create(c.lastDecision, c.staleness, c.limits).ctx
  }

  // ---- Handlers

  function OnControl(m: Machine, e: Event): Machine {
    var c := m.ctx;
    match e
    case StopRequested(canControl) =>
      m.(ctx := if canControl then c.(shutdown := StopMode) else c.(lastError := Some(CONTROL_DENIED)))
    case KillEngaged(canControl, controlId) =>
      if canControl && NonBlank(controlId) then
        Machine(if m.state == State.Stopped then Cancelling else m.state,
                c.(shutdown := KillMode, killRequestId := Some(controlId), killCompleted := false))
      else m.(ctx := c.(lastError := Some(CONTROL_DENIED)))
    case PermissionRevoked => m.(ctx := Revoke(c))
    case StartRequested(canControl, canTrade) =>
      if m.state != State.Stopped then m
      else if canControl && canTrade then
        Machine(Scheduling, c.(canControl := canControl, canTrade := canTrade, admission := None, shutdown := NoShutdown,
                               killCompleted := false, outcome := IdleOutcome, terminal := false, lastError := None,
                               attempts := c.attempts.(schedule := 0)))
      else
        m.(ctx := c.(lastError := Some(Kill.WorkflowError("schedule",
          if canControl then "TRADE_PERMISSION_REQUIRED" else "CONTROL_PERMISSION_REQUIRED", false))))
    case Reset(canControl) =>
      if m.state != Failed && m.state != Halted then m
      else if canControl then Machine(State.Stopped, ResetContext(c))
      else m.(ctx := c.(lastError := Some(CONTROL_DENIED)))
    case _ => m
  }

  function OnSchedule(m: Machine, e: Event): Machine {
    var c := m.ctx;
    match (m.state, e)
    case (Scheduling, ScheduleSucceeded(at)) =>
      Machine(Waiting, c.(nextWakeAt := Some(at), attempts := c.attempts.(schedule := 0)))
    case (Scheduling, ScheduleFailed(error)) =>
      if error.retryable && c.attempts.schedule < c.limits.schedule
      then Machine(RetryingSchedule, c.(lastError := Some(error), attempts := c.attempts.(schedule := c.attempts.schedule + 1)))
      else Machine(Failed, c.(lastError := Some(error), outcome := FailedOutcome))
    case (RetryingSchedule, RetryTimerElapsed) => Machine(Scheduling, c)
    case (Waiting, AlarmFired(cycleId, triggeredAt)) =>
      if c.cycleId != Some(cycleId) then Machine(ReconcilingAccount, BeginCycle(c, cycleId, triggeredAt))
      else m.(ctx := c.(lastError := Some(DUPLICATE_ALARM)))
    case _ => m
  }

  function OnMarket(m: Machine, e: Event): Machine {
    var c := m.ctx;
    match (m.state, e)
    case (ReconcilingAccount, AccountReconciled(id)) =>
      Machine(FetchingMarketData, c.(accountSnapshotId := Some(id), attempts := c.attempts.(reconciliation := 0)))
    case (ReconcilingAccount, AccountReconciliationFailed(error)) =>
      if error.retryable && c.attempts.reconciliation < c.limits.reconciliation
      then Machine(RetryingAccountReconciliation,
                   c.(lastError := Some(error), attempts := c.attempts.(reconciliation := c.attempts.reconciliation + 1)))
      else GiveUp(c, error)
    case (RetryingAccountReconciliation, RetryTimerElapsed) => Machine(ReconcilingAccount, c)
    case (FetchingMarketData, MarketDataReady(id, candle, evaluated)) =>
      if Duplicate(c, candle) then
        Machine(Persisting, c.(marketSnapshotId := Some(id), outcome := NoAction, attempts := c.attempts.(marketData := 0)))
      else if Fresh(c, candle, evaluated) then
        Machine(ComputingIndicators,
                c.(marketSnapshotId := Some(id), lastDecision := Some(candle), attempts := c.attempts.(marketData := 0),
                   admission := Some(Admission(if c.cycleId.Some? then c.cycleId.value else "", candle, evaluated))))
      else
        var stale := c.(lastError := Some(STALE_MARKET_DATA), attempts := c.attempts.(marketData := c.attempts.marketData + 1));
        if c.attempts.marketData < c.limits.marketData then Machine(RetryingMarketData, stale)
        else Machine(Persisting, stale.(outcome := NoAction))
    case (FetchingMarketData, MarketDataFailed(error)) =>
      if error.retryable && c.attempts.marketData < c.limits.marketData
      then Machine(RetryingMarketData, c.(lastError := Some(error), attempts := c.attempts.(marketData := c.attempts.marketData + 1)))
      else GiveUp(c, error)
    case (RetryingMarketData, RetryTimerElapsed) => Machine(FetchingMarketData, c)
    case _ => m
  }

  function OnDecision(m: Machine, e: Event): Machine {
    var c := m.ctx;
    match (m.state, e)
    case (ComputingIndicators, IndicatorsComputed(id)) => Machine(EvaluatingStrategies, c.(indicatorsId := Some(id)))
    case (ComputingIndicators, IndicatorsFailed(error)) => GiveUp(c, error)
    case (EvaluatingStrategies, StrategiesEvaluated(id)) => Machine(Allocating, c.(signalsId := Some(id)))
    case (EvaluatingStrategies, StrategiesFailed(error)) => GiveUp(c, error)
    case (Allocating, AllocationCompleted(id, count)) =>
      if count > 0 then Machine(CheckingRisk, c.(decisionId := Some(id)))
      else Machine(Persisting, c.(decisionId := Some(id), outcome := NoAction))
    case (Allocating, AllocationFailed(error)) => GiveUp(c, error)
    case (CheckingRisk, RiskApproved) => if c.canTrade then Machine(PersistingOrderIntent, c) else Machine(Cancelling, Revoke(c))
    case (CheckingRisk, RiskRejected) => Machine(Persisting, c.(outcome := RiskRejectedOutcome))
    case (CheckingRisk, RiskFailed(error)) => GiveUp(c, error)
    case (PersistingOrderIntent, OrderIntentPersisted(id)) => Machine(Authorizing, c.(clientOrderId := Some(id)))
    case (PersistingOrderIntent, OrderIntentFailed(error)) => GiveUp(c, error)
    case _ => m
  }

  function OnOrder(m: Machine, e: Event): Machine {
    var c := m.ctx;
    match (m.state, e)
    case (Authorizing, AuthorizationReady(expiresAt, issuedAt)) =>
      if Usable(expiresAt, issuedAt) then Machine(SubmittingOrder, c.(authorizationExpiresAt := Some(expiresAt), mayBeInFlight := true))
      else
        var invalid := c.(authorizationExpiresAt := None, lastError := Some(AUTHORIZATION_EXPIRED));
        if c.attempts.authorization < c.limits.authorization
        then Machine(RetryingAuthorization, invalid.(attempts := c.attempts.(authorization := c.attempts.authorization + 1)))
        else Machine(Persisting, invalid.(outcome := FailedOutcome))
    case (Authorizing, AuthorizationFailed(error)) =>
      if error.retryable && c.attempts.authorization < c.limits.authorization
      then Machine(RetryingAuthorization,
                   c.(lastError := Some(error), attempts := c.attempts.(authorization := c.attempts.authorization + 1)))
      else GiveUp(c, error)
    case (RetryingAuthorization, RetryTimerElapsed) => Machine(Authorizing, c)
    case (SubmittingOrder, OrderConfirmed(id)) =>
      Machine(Persisting, c.(exchangeOrderId := Some(id), mayBeInFlight := false, outcome := Confirmed))
    case (SubmittingOrder, OrderRejected(error)) =>
      if error.retryable && c.attempts.execution < c.limits.execution
      then Machine(RetryingExecution,
                   c.(lastError := Some(error), mayBeInFlight := false, authorizationExpiresAt := None,
                      attempts := c.attempts.(execution := c.attempts.execution + 1)))
      else Machine(Persisting, c.(lastError := Some(error), mayBeInFlight := false, outcome := Rejected))
    case (SubmittingOrder, OrderNoLongerNeeded) => Machine(Persisting, c.(mayBeInFlight := false, outcome := NoAction))
    case (SubmittingOrder, OrderOutcomeUnknown(error)) => Machine(ReconcilingOrder, c.(lastError := Some(error)))
    case (SubmittingOrder, OrderProtectionFailed(id, error)) => ProtectionFailed(c, id, error)
    case (RetryingExecution, RetryTimerElapsed) => Machine(Authorizing, c)
    case _ => m
  }

  function ProtectionFailed(c: Context, id: Option<string>, error: WorkflowError): Machine {
    Machine(Persisting, c.(exchangeOrderId := id, mayBeInFlight := false, outcome := FailedOutcome, terminal := true,
                           lastError := Some(error)))
  }

  function OnSettlement(m: Machine, e: Event): Machine {
    var c := m.ctx;
    match (m.state, e)
    case (ReconcilingOrder, OrderReconciled(id)) =>
      Machine(Persisting, c.(exchangeOrderId := id, mayBeInFlight := false, outcome := if id.None? then Rejected else Confirmed))
    case (ReconcilingOrder, ReconciliationFailed(error)) =>
      if error.retryable && c.attempts.reconciliation < c.limits.reconciliation
      then Machine(RetryingReconciliation,
                   c.(lastError := Some(error), attempts := c.attempts.(reconciliation := c.attempts.reconciliation + 1)))
      else Machine(Failed, c.(lastError := Some(error), outcome := FailedOutcome))
    case (ReconcilingOrder, OrderProtectionFailed(id, error)) => ProtectionFailed(c, id, error)
    case (ReconcilingOrder, OrderNoLongerNeeded) => Machine(Persisting, c.(mayBeInFlight := false, outcome := NoAction))
    case (RetryingReconciliation, RetryTimerElapsed) => Machine(ReconcilingOrder, c)
    case (Cancelling, EffectCancelled) =>
      Machine(Persisting, c.(outcome := Cancelled, mayBeInFlight := false,
                             killCompleted := c.shutdown == KillMode || c.killCompleted))
    case (Cancelling, EffectCancelFailed(error)) =>
      Machine(Persisting, c.(lastError := Some(error), outcome := FailedOutcome, terminal := true, mayBeInFlight := false))
    case (Persisting, PersistSucceeded) =>
      if c.terminal then Machine(Failed, c)
      else if c.shutdown == StopMode then Machine(State.Stopped, c)
      else if c.shutdown == KillMode && !c.killCompleted then Machine(Cancelling, c)
      else if c.shutdown == KillMode || c.shutdown == RevokedMode then Machine(Halted, c)
      else Machine(Scheduling, c)
    case (Persisting, PersistFailed(error)) =>
      if error.retryable && c.attempts.persistence < c.limits.persistence
      then Machine(RetryingPersistence,
                   c.(lastError := Some(error), attempts := c.attempts.(persistence := c.attempts.persistence + 1)))
      else Machine(Failed, c.(lastError := Some(error), outcome := FailedOutcome))
    case (RetryingPersistence, RetryTimerElapsed) => Machine(Persisting, c)
    case _ => m
  }

  predicate Control(e: Event) {
    e.StartRequested? || e.StopRequested? || e.KillEngaged? || e.PermissionRevoked? || e.Reset?
  }

  /** Which part of the machine a state belongs to, counted down towards the end of a cycle. */
  function Part(s: State): nat {
    match s
    case Scheduling => 6
    case RetryingSchedule => 6
    case Waiting => 6
    case ReconcilingAccount => 5
    case RetryingAccountReconciliation => 5
    case FetchingMarketData => 5
    case RetryingMarketData => 5
    case ComputingIndicators => 4
    case EvaluatingStrategies => 4
    case Allocating => 4
    case CheckingRisk => 4
    case PersistingOrderIntent => 4
    case Authorizing => 3
    case RetryingAuthorization => 3
    case SubmittingOrder => 3
    case RetryingExecution => 3
    case ReconcilingOrder => 2
    case RetryingReconciliation => 2
    case Cancelling => 1
    case Persisting => 1
    case RetryingPersistence => 1
    case Stopped => 0
    case Failed => 0
    case Halted => 0
  }

  /** The handler alone: control events anywhere, the others by part. */
  function Handle(m: Machine, e: Event): Machine {
    if Control(e) then OnControl(m, e)
    else
      match Part(m.state)
      case 6 => OnSchedule(m, e)
      case 5 => OnMarket(m, e)
      case 4 => OnDecision(m, e)
      case 3 => OnOrder(m, e)
      case _ => OnSettlement(m, e)
  }

  /** The states that give way to a shutdown before anything reaches the exchange. */
  predicate BeforeSubmission(s: State) {
    Part(s) >= 3 && s != SubmittingOrder
  }

  /** The eventless transitions. */
  function Settle(m: Machine): Machine {
    if m.ctx.shutdown == NoShutdown then m
    else if BeforeSubmission(m.state) then m.(state := Cancelling)
    else if m.state == SubmittingOrder then m.(state := ReconcilingOrder)
    else m
  }

  function Macro(m: Machine, e: Event): Machine {
    Settle(Handle(m, e))
  }

  predicate Stable(m: Machine) {
    Settle(m) == m
  }

  lemma MacroIsStable(m: Machine, e: Event)
    ensures Stable(Macro(m, e))
  {
    hide Handle;
  }
}
