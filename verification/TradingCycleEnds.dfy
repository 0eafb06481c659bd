/** A cycle that nobody interrupts comes to an end: every accepted event burns a measure. */
module TradingCycleEnds {
  import opened Basics
  import opened TradingCycle
  import Kill = KillSwitch

  function Left(limit: nat, used: nat): nat {
    if used < limit then limit - used else 0
  }

  /** From the alarm to the moment the cycle is over. */
  predicate InCycle(s: State) {
    1 <= Part(s) <= 5
  }

  predicate Over(s: State) {
    s == Scheduling || Part(s) == 0
  }

  /** Whether a kill still has to be executed once the cycle is persisted. */
  predicate KillPending(c: Context) {
    c.shutdown == KillMode && !c.killCompleted && !c.terminal
  }

  function Closing(m: Machine): nat {
    2 * Left(m.ctx.limits.persistence, m.ctx.attempts.persistence)
    + match m.state
      case Persisting => if KillPending(m.ctx) then 3 else 1
      case RetryingPersistence => if KillPending(m.ctx) then 4 else 2
      case Cancelling => 2
      case _ => 0
  }

  function Reconciling(m: Machine): nat {
    2 * Left(m.ctx.limits.reconciliation, m.ctx.attempts.reconciliation) + if m.state == ReconcilingOrder then 1 else 2
  }

  function Ordering(m: Machine): nat {
    2 * Left(m.ctx.limits.authorization, m.ctx.attempts.authorization)
    + 3 * Left(m.ctx.limits.execution, m.ctx.attempts.execution)
    + match m.state
      case Authorizing => 2
      case SubmittingOrder => 1
      case _ => 3
  }

  function Deciding(m: Machine): nat {
    match m.state
    case PersistingOrderIntent => 0
    case CheckingRisk => 1
    case Allocating => 2
    case EvaluatingStrategies => 3
    case _ => 4
  }

  function Observing(m: Machine): nat {
    match m.state
    case FetchingMarketData => 2 * Left(m.ctx.limits.marketData, m.ctx.attempts.marketData)
    case RetryingMarketData => 2 * Left(m.ctx.limits.marketData, m.ctx.attempts.marketData) + 1
    case ReconcilingAccount => 2 * m.ctx.limits.marketData + 2 * Left(m.ctx.limits.reconciliation, m.ctx.attempts.reconciliation) + 2
    case _ => 2 * m.ctx.limits.marketData + 2 * Left(m.ctx.limits.reconciliation, m.ctx.attempts.reconciliation) + 3
  }

  function Within(m: Machine): nat {
    match Part(m.state)
    case 5 => Observing(m)
    case 4 => Deciding(m)
    case 3 => Ordering(m)
    case 2 => Reconciling(m)
    case 1 => Closing(m)
    case _ => 0
  }

  /** The most a part can cost, whatever has been used. */
  function Cap(l: Budgets, part: nat): nat {
    match part
    case 5 => 2 * l.marketData + 2 * l.reconciliation + 4
    case 4 => 5
    case 3 => 2 * l.authorization + 3 * l.execution + 4
    case 2 => 2 * l.reconciliation + 3
    case 1 => 2 * l.persistence + 5
    case _ => 1
  }

  function Below(l: Budgets, part: nat): nat {
    if part == 0 then 0 else Below(l, part - 1) + Cap(l, part - 1)
  }

  /** The measure: the parts still ahead, at their dearest, and what is left of this one. */
  function Measure(m: Machine): nat {
    if InCycle(m.state) then Below(m.ctx.limits, Part(m.state)) + Within(m) else 0
  }

  lemma WithinItsCap(m: Machine)
    ensures Within(m) < Cap(m.ctx.limits, Part(m.state))
  {
  }

  lemma {:induction false} LaterPartsAreCheaper(l: Budgets, low: nat, high: nat)
    requires low < high
    ensures Below(l, low) + Cap(l, low) <= Below(l, high)
    decreases high
  {
    if low < high - 1 {
      LaterPartsAreCheaper(l, low, high - 1);
    }
  }

  /** What an event other than a control may do inside a cycle. */
  ghost predicate Burns(m: Machine, n: Machine) {
    && n.ctx.limits == m.ctx.limits
    && (n == m || n.state == Scheduling || Part(n.state) < Part(m.state) || (Part(n.state) == Part(m.state) && Within(n) < Within(m)))
    && (InCycle(n.state) || Over(n.state))
  }

  lemma AccountBurns(m: Machine, e: Event)
    requires (m.state == ReconcilingAccount || m.state == RetryingAccountReconciliation) && m.ctx.shutdown == NoShutdown
    ensures Burns(m, OnMarket(m, e)) && Stable(OnMarket(m, e))
  {
    hide Duplicate;
    hide Fresh;
  }

  lemma DataBurns(m: Machine, e: Event)
    requires (m.state == FetchingMarketData || m.state == RetryingMarketData) && m.ctx.shutdown == NoShutdown
    ensures Burns(m, OnMarket(m, e)) && Stable(OnMarket(m, e))
  {
    hide Duplicate;
    hide Fresh;
  }

  lemma DecisionBurns(m: Machine, e: Event)
    requires Part(m.state) == 4 && m.ctx.shutdown == NoShutdown
    ensures Burns(m, OnDecision(m, e)) && Stable(OnDecision(m, e))
  {
  }

  lemma AuthorizationBurns(m: Machine, e: Event)
    requires (m.state == Authorizing || m.state == RetryingAuthorization) && m.ctx.shutdown == NoShutdown
    ensures Burns(m, OnOrder(m, e)) && Stable(OnOrder(m, e))
  {
    hide Usable;
  }

  lemma SubmissionBurns(m: Machine, e: Event)
    requires (m.state == SubmittingOrder || m.state == RetryingExecution) && m.ctx.shutdown == NoShutdown
    ensures Burns(m, OnOrder(m, e)) && Stable(OnOrder(m, e))
  {
  }

  lemma SettlementBurns(m: Machine, e: Event)
    requires 1 <= Part(m.state) <= 2
    ensures Burns(m, OnSettlement(m, e)) && Stable(OnSettlement(m, e))
  {
  }

  /** Inside a cycle every accepted effect event strictly lowers the measure, and the cycle can only
      be left for scheduling, stopped, halted or failed. */
  lemma EveryEventBurns(m: Machine, e: Event)
    requires Stable(m) && InCycle(m.state) && !Control(e)
    ensures Macro(m, e) == m || Measure(Macro(m, e)) < Measure(m)
    ensures InCycle(Macro(m, e).state) || Over(Macro(m, e).state)
    ensures Macro(m, e).ctx.limits == m.ctx.limits
  {
    hide OnMarket;
    hide OnDecision;
    hide OnOrder;
    hide OnSettlement;
    hide OnSchedule;
    hide OnControl;
    hide Burns;
    match Part(m.state) {
      case 5 => if m.state == ReconcilingAccount || m.state == RetryingAccountReconciliation { AccountBurns(m, e); } else { DataBurns(m, e); }
      case 4 => DecisionBurns(m, e);
      case 3 => if m.state == Authorizing || m.state == RetryingAuthorization { AuthorizationBurns(m, e); } else { SubmissionBurns(m, e); }
      case _ => SettlementBurns(m, e);
    }
    assert Macro(m, e) == Handle(m, e) && Burns(m, Macro(m, e));
    BurningLowers(m, Macro(m, e));
  }

  lemma {:induction false} SomethingBelow(l: Budgets, part: nat)
    requires part >= 1
    ensures Below(l, part) >= 1
  {
    if part > 1 {
      SomethingBelow(l, part - 1);
    }
  }

  lemma BurningLowers(m: Machine, n: Machine)
    requires Burns(m, n) && InCycle(m.state)
    ensures n == m || Measure(n) < Measure(m)
    ensures InCycle(n.state) || Over(n.state)
    ensures n.ctx.limits == m.ctx.limits
  {
    hide Within;
    hide Cap;
    hide Below;
    hide Part;
    WithinItsCap(m);
    if InCycle(n.state) && Part(n.state) < Part(m.state) {
      WithinItsCap(n);
      LaterPartsAreCheaper(m.ctx.limits, Part(n.state), Part(m.state));
    }
    SomethingBelow(m.ctx.limits, Part(m.state));
    OverIsOutside(n.state);
  }

  lemma OverIsOutside(s: State)
    ensures Over(s) ==> !InCycle(s)
  {
  }

  /** Every event of the run is accepted while the cycle lasts. */
  ghost predicate Accepted(m: Machine, events: seq<Event>)
    decreases |events|
  {
    events == [] || (InCycle(m.state) && !Control(events[0]) && Macro(m, events[0]) != m && Accepted(Macro(m, events[0]), events[1..]))
  }

  /** So a cycle accepts no more events than its measure. */
  lemma {:induction false} CyclesEnd(m: Machine, events: seq<Event>)
    requires Stable(m) && Accepted(m, events)
    ensures |events| <= Measure(m)
    decreases |events|
  {
    hide Macro;
    hide Measure;
    if events != [] {
      EveryEventBurns(m, events[0]);
      MacroIsStable(m, events[0]);
      CyclesEnd(Macro(m, events[0]), events[1..]);
    }
  }

  // ---- Progress

  const SOME_ERROR := Kill.WorkflowError("execution", "UNAVAILABLE", false)

  /** An answer each state of a cycle is waiting for. */
  function AnswerFor(s: State): Event {
    match s
    case ReconcilingAccount => AccountReconciled("account")
    case FetchingMarketData => MarketDataFailed(SOME_ERROR)
    case ComputingIndicators => IndicatorsComputed("indicators")
    case EvaluatingStrategies => StrategiesEvaluated("signals")
    case Allocating => AllocationCompleted("decision", 1)
    case CheckingRisk => RiskApproved
    case PersistingOrderIntent => OrderIntentPersisted("order")
    case Authorizing => AuthorizationFailed(SOME_ERROR)
    case SubmittingOrder => OrderNoLongerNeeded
    case ReconcilingOrder => OrderNoLongerNeeded
    case Cancelling => EffectCancelled
    case Persisting => PersistSucceeded
    case _ => RetryTimerElapsed
  }

  /** Every stable state of a cycle accepts some effect event. */
  lemma CyclesListen(m: Machine)
    requires Stable(m) && InCycle(m.state)
    ensures !Control(AnswerFor(m.state)) && Macro(m, AnswerFor(m.state)) != m
  {
    hide Macro;
    if Part(m.state) >= 4 { EarlyCyclesListen(m); } else { LateCyclesListen(m); }
  }

  lemma EarlyCyclesListen(m: Machine)
    requires Stable(m) && InCycle(m.state) && Part(m.state) >= 4
    ensures !Control(AnswerFor(m.state)) && Macro(m, AnswerFor(m.state)) != m
  {
    hide Fresh;
    hide Duplicate;
  }

  lemma LateCyclesListen(m: Machine)
    requires Stable(m) && InCycle(m.state) && Part(m.state) <= 3
    ensures !Control(AnswerFor(m.state)) && Macro(m, AnswerFor(m.state)) != m
  {
    hide Usable;
  }

  function After(m: Machine, events: seq<Event>): Machine
    decreases |events|
  {
    if events == [] then m else After(Macro(m, events[0]), events[1..])
  }

  /** Inside a cycle, no effect event is accepted any more. */
  ghost predicate Deaf(m: Machine) {
    InCycle(m.state) && forall e :: Control(e) || Macro(m, e) == m
  }

  /** So a cycle that goes on being answered ends: once no further effect event is accepted, after at most
      as many as the measure, the machine is in scheduling, stopped, halted or failed. */
  lemma {:induction false} AnsweredCyclesEnd(m: Machine, events: seq<Event>)
    requires Stable(m) && InCycle(m.state) && Accepted(m, events)
    ensures |events| <= Measure(m)
    ensures InCycle(After(m, events).state) || Over(After(m, events).state)
    ensures !Deaf(After(m, events))
    ensures |events| == Measure(m) ==> Over(After(m, events).state)
    decreases |events|
  {
    hide Macro;
    hide Measure;
    CyclesEnd(m, events);
    if events == [] {
      CyclesListen(m);
      MeasureIsPositive(m);
    } else {
      var n := Macro(m, events[0]);
      EveryEventBurns(m, events[0]);
      MacroIsStable(m, events[0]);
      if events[1..] == [] {
        if InCycle(n.state) {
          CyclesListen(n);
          MeasureIsPositive(n);
        }
      } else {
        AnsweredCyclesEnd(n, events[1..]);
      }
    }
  }

  lemma MeasureIsPositive(m: Machine)
    requires InCycle(m.state)
    ensures Measure(m) >= 1
  {
    hide Within;
    hide Below;
    SomethingBelow(m.ctx.limits, Part(m.state));
  }

  /** An alarm starts a cycle whose measure depends on the retry limits only: with the default limits a
      cycle left alone accepts at most 60 events. */
  lemma AlarmsStartBoundedCycles(m: Machine, cycleId: string, triggeredAt: int)
    requires Stable(m) && m.state == Waiting && m.ctx.cycleId != Some(cycleId)
    ensures var n := Macro(m, AlarmFired(cycleId, triggeredAt));
            && n.state == ReconcilingAccount && Stable(n)
            && Measure(n) == Below(m.ctx.limits, 5) + 2 * m.ctx.limits.marketData + 2 * m.ctx.limits.reconciliation + 2
    ensures m.ctx.limits == DEFAULT_LIMITS ==> Measure(Macro(m, AlarmFired(cycleId, triggeredAt))) <= 60
  {
    var l := m.ctx.limits;
    assert Below(l, 1) == 1;
    assert Below(l, 2) == Below(l, 1) + Cap(l, 1);
    assert Below(l, 3) == Below(l, 2) + Cap(l, 2);
    assert Below(l, 4) == Below(l, 3) + Cap(l, 3);
    assert Below(l, 5) == Below(l, 4) + Cap(l, 4);
  }
}
