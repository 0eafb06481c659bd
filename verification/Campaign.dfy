/** The local campaign: its phase machine and the safety evaluation that drives it. */
module Campaign {
  import opened Basics
  import opened Marks
  import opened Drawdown
  import L = Ledger

  datatype CampaignState = CampaignState(
    phase: CampaignPhase, boundAt: Option<int>, lastEvaluatedAt: int, maxDrawdown: real, reasons: seq<string>)

  datatype Signal = Begin | Suspend | Stop | Invalidate | End

  datatype Kind = BeginLocalSimulation | CheckLocalSafety | RecoverLocal | StopLocal

  const DRAWDOWN_LIMIT := 0.5

  function Initial(registeredAt: int): CampaignState {
    CampaignState(Registered, None, registeredAt, 0.0, [])
  }

  function NextPhase(phase: CampaignPhase, signal: Signal): CampaignPhase {
    match (phase, signal)
    case (_, Invalidate) => Invalid
    case (Registered, Begin) => LocalObserving
    case (LocalObserving, Suspend) => Suspended
    case (LocalObserving, Stop) => Stopped
    case (LocalObserving, End) => Ended
    case (Suspended, Stop) => Stopped
    case (Suspended, End) => Ended
    case _ => phase
  }

  function Transition(st: CampaignState, signal: Signal, reason: Option<string>): CampaignState {
    st.(phase := NextPhase(st.phase, signal),
        reasons := if reason.None? || reason.value in st.reasons then st.reasons else st.reasons + [reason.value])
  }

  /** The available equities of the hourly slots up to now, in slot order. */
  function HourlyPoints(slots: seq<MarkSlot>, now: int): seq<Point> {
    if slots == [] then [] else HourlyPoints(slots[..|slots| - 1], now) + PointOf(slots[|slots| - 1].observation, now)
  }

  function PointOf(o: Option<Observation>, now: int): seq<Point> {
    if o.Some? && o.value.consolidated.Equity? && o.value.asOf <= now
    then [Point(o.value.asOf, o.value.consolidated.equity)] else []
  }

  function EventPoints(observations: seq<Observation>, now: int): seq<Point> {
    if observations == [] then []
    else EventPoints(observations[..|observations| - 1], now) + PointOf(Some(observations[|observations| - 1]), now)
  }

  /** The full series the evaluation samples: hourly marks then event marks, stably sorted by time. */
  function Series(marks: MarkState, events: seq<Observation>, now: int): seq<Point> {
    SortByTime(HourlyPoints(marks.slots, now) + EventPoints(events, now))
  }

  predicate AnyRequested(slots: seq<MarkSlot>) {
    exists i :: 0 <= i < |slots| && slots[i].phase == Requested
  }

  predicate LedgerRequested(ledger: L.State) {
    exists k :: k in ledger.slots && ledger.slots[k].phase == L.Requested
  }

  predicate ValidPortfolio(p: L.Portfolio) {
    p.cash >= 0.0 && p.position >= 0.0
  }

  /** What the evaluation sees besides the campaign state. */
  datatype View = View(
    ledger: L.State, marks: MarkState, benchmarkMarks: MarkState, events: seq<Observation>, benchmarkPending: bool)

  predicate ClockBehind(st: CampaignState, v: View, now: int) {
    now < st.lastEvaluatedAt || now < v.ledger.lastRecordedAt || now < v.marks.lastRecordedAt
  }

  /** Phase decision once the drawdown is known; fails only where the coverage report throws. */
  function Decide(st: CampaignState, v: View, now: int, recovering: bool): Result<CampaignState> {
    var m := v.ledger.manifest;
    if st.phase == Invalid then Ok(st)
    else if st.maxDrawdown > DRAWDOWN_LIMIT && st.phase != Ended then Ok(Transition(st, Stop, Some("SAMPLED_DRAWDOWN_EXCEEDED")))
    else if st.phase == Stopped || st.phase == Ended then Ok(st)
    else if now >= m.endAt then Ok(Transition(st, End, Some("PERIOD_ENDED")))
    else if st.phase == Suspended then Ok(st)
    else if !ReportScope(m.startAt, m.endAt, now) then Fail("INVALID_MARK_REPORT_SCOPE")
    else if ProofGapExceeded(v.marks, m.startAt, m.endAt, now) then Ok(Transition(st, Suspend, Some("MARK_PROOF_GAP_EXCEEDED")))
    else if ProofGapExceeded(v.benchmarkMarks, m.startAt, m.endAt, now)
    then Ok(Transition(st, Suspend, Some("BENCHMARK_MARK_PROOF_GAP_EXCEEDED")))
    else if recovering && (v.benchmarkPending || AnyRequested(v.marks.slots) || LedgerRequested(v.ledger))
    then Ok(Transition(st, Suspend, Some("RESPONSE_UNOBSERVED_AT_RECOVERY")))
    else Ok(st)
  }

  function Evaluate(st: CampaignState, v: View, now: int, recovering: bool): Result<CampaignState> {
    if !Timestamp(now) || ClockBehind(st, v, now) || now < v.benchmarkMarks.lastRecordedAt then Fail("INVALID_CAMPAIGN_CLOCK")
    else
      var next := st.(lastEvaluatedAt := now);
      if st.boundAt.None? then Ok(next)
      else if !ValidPortfolio(v.ledger.portfolios.btc) || !ValidPortfolio(v.ledger.portfolios.eth)
      then Ok(Transition(next, Invalidate, Some("ACCOUNTING_INVARIANT_BREACH")))
      else
        var series := Series(v.marks, v.events, now);
        if !NonNegative(series) then Ok(Transition(next, Invalidate, Some("MARK_INVARIANT_BREACH")))
        else Decide(next.(maxDrawdown := Worst(series, START_PEAK, st.maxDrawdown)), v, now, recovering)
  }

  /** The evaluation in the source's form: one pass updating the peak and the worst fall. */
  method EvaluateSafety(st: CampaignState, v: View, now: int, recovering: bool) returns (r: Result<CampaignState>)
    ensures r == Evaluate(st, v, now, recovering)
  {
    hide Fall;
    hide Decide;
    hide Series;
    if !Timestamp(now) || ClockBehind(st, v, now) || now < v.benchmarkMarks.lastRecordedAt {
      return Fail("INVALID_CAMPAIGN_CLOCK");
    }
    var next := st.(lastEvaluatedAt := now);
    if st.boundAt.None? {
      return Ok(next);
    }
    if !ValidPortfolio(v.ledger.portfolios.btc) || !ValidPortfolio(v.ledger.portfolios.eth) {
      return Ok(Transition(next, Invalidate, Some("ACCOUNTING_INVARIANT_BREACH")));
    }
    var observations := Series(v.marks, v.events, now);
    var peak, maxDrawdown := START_PEAK, st.maxDrawdown;
    for n := 0 to |observations|
      invariant peak >= START_PEAK
      invariant forall i :: 0 <= i < n ==> observations[i].equity >= 0.0
      invariant Worst(observations[n..], peak, maxDrawdown) == Worst(observations, START_PEAK, st.maxDrawdown)
    {
      var equity := observations[n].equity;
      if equity < 0.0 {
        return Ok(Transition(next, Invalidate, Some("MARK_INVARIANT_BREACH")));
      }
      assert observations[n..][1..] == observations[n + 1..];
      peak := Max(peak, equity);
      maxDrawdown := Max(maxDrawdown, Fall(peak, equity));
    }
    assert observations[|observations|..] == [];
    next := next.(maxDrawdown := maxDrawdown);
    r := Decide(next, v, now, recovering);
  }

  /** One campaign command. */
  function ApplyCampaign(st: CampaignState, v: View, campaignId: string, commandId: string, kind: Kind, now: int): Result<CampaignState> {
    var m := v.ledger.manifest;
    if campaignId != m.campaignId || !Identifier(commandId) then Fail("INVALID_LOCAL_CAMPAIGN_COMMAND")
    else if !Timestamp(now) || ClockBehind(st, v, now) then Fail("INVALID_CAMPAIGN_CLOCK")
    else
      match kind
      case BeginLocalSimulation =>
        if st.boundAt.Some? || !m.clockVerified || now < m.startAt || now >= m.endAt then Fail("LOCAL_SIMULATION_NOT_READY")
        else Evaluate(Transition(st, Begin, None).(boundAt := Some(now)), v, now, false)
      case StopLocal =>
        if st.boundAt.None? || (st.phase != LocalObserving && st.phase != Suspended) then Fail("INVALID_CAMPAIGN_PHASE")
        else Evaluate(Transition(st, Stop, Some("LOCAL_OPERATOR_STOP")), v, now, false)
      case CheckLocalSafety => Evaluate(st, v, now, false)
      case RecoverLocal => Evaluate(st, v, now, true)
  }
}
