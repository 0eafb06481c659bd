/** What every run of the trading cycle guarantees about decisions and submissions. */
module TradingCycleSafety {
  import opened Basics
  import opened TradingCycle
  import opened TradingCycleRuns

  // ---- One decision per candle

  ghost predicate Increasing(initial: Option<int>, admitted: seq<int>) {
    && (forall i, j :: 0 <= i < j < |admitted| ==> admitted[i] < admitted[j])
    && (forall i :: 0 <= i < |admitted| && initial.Some? ==> initial.value < admitted[i])
  }

  ghost predicate Decided(l: Life, initial: Option<int>) {
    && Increasing(initial, l.h.admitted)
    && l.m.ctx.lastDecision == (if l.h.admitted == [] then initial else Some(l.h.admitted[|l.h.admitted| - 1]))
  }

  /** Only an admission adds a candle, only an order handed over a submission, and only an alarm counts a cycle. */
  lemma RecordsGrow(h: History, m: Machine, e: Event, n: Machine)
    ensures var after := Remember(h, m, e, n);
            && after.admitted == h.admitted + (if Admits(m, e, n) then [e.candleClosedAt] else [])
            && after.cycle == h.cycle + (if Begins(m, n) then 1 else 0)
            && after.submissions
               == h.submissions + (if m.state == Authorizing && n.state == SubmittingOrder
                                   then [Submission(h.cycle, n.ctx, h.unresolved, after.trail, after.orders)] else [])
  {
    hide TrailAfter;
    hide OrdersAfter;
    hide MissedAfter;
  }

  lemma AdvanceKeepsDecided(l: Life, e: Event, initial: Option<int>)
    requires Decided(l, initial) && Flagged(l)
    ensures Decided(Advance(l, e), initial)
  {
    hide Macro;
    hide FlagFits;
    hide Permitted;
    hide Kept;
    hide OrderStep;
    hide FreshlyAdmitted;
    MacroEvolves(l.m, e);
    RecordsGrow(l.h, l.m, e, Macro(l.m, e));
    hide Remember;
  }

  // ---- Submissions

  /** What a submission must have on record. */
  ghost predicate Sound(s: Submission, limits: Budgets) {
    && !s.blind && s.ctx.canTrade && s.ctx.clientOrderId.Some? && FreshlyAdmitted(s.ctx)
    && s.ctx.attempts.execution <= limits.execution && s.ctx.limits == limits
  }

  ghost predicate AllSound(h: History, limits: Budgets) {
    forall i :: 0 <= i < |h.submissions| ==> Sound(h.submissions[i], limits) && h.submissions[i].cycle <= h.cycle
  }

  /** Submissions of one cycle follow each other, each after one more refusal, with one id. */
  ghost predicate Serial(h: History) {
    forall i, j :: 0 <= i < j < |h.submissions| && h.submissions[i].cycle == h.submissions[j].cycle ==>
      && h.submissions[i].ctx.clientOrderId == h.submissions[j].ctx.clientOrderId
      && h.submissions[j].ctx.attempts.execution - h.submissions[i].ctx.attempts.execution == j - i
  }

  /** The cycle's record so far: nothing submitted before the order part, and inside it one submission
      per refusal, plus the one at the exchange. */
  ghost predicate Tracked(l: Life) {
    var c, h := l.m.ctx, l.h;
    && (Part(l.m.state) == 4 || Part(l.m.state) == 3 ==> FreshlyAdmitted(c))
    && (Part(l.m.state) == 5 || Part(l.m.state) == 4 ==>
          c.attempts.execution == 0 && forall i :: 0 <= i < |h.submissions| ==> h.submissions[i].cycle < h.cycle)
    && (Part(l.m.state) == 3 ==>
          && c.clientOrderId.Some? && c.attempts.execution <= c.limits.execution
          && forall i :: 0 <= i < |h.submissions| && h.submissions[i].cycle == h.cycle ==>
               && h.submissions[i].ctx.clientOrderId == c.clientOrderId
               && h.submissions[i].ctx.attempts.execution + |h.submissions| - i
                  == c.attempts.execution + (if l.m.state == SubmittingOrder then 1 else 0))
  }

  lemma AdmissionIsKept(c: Context, d: Context)
    requires Kept(c.(clientOrderId := d.clientOrderId, attempts := d.attempts), d) && d.staleness == c.staleness && FreshlyAdmitted(c)
    ensures FreshlyAdmitted(d)
  {
    hide Timestamp;
  }

  lemma AdvanceKeepsTracked(l: Life, e: Event, limits: Budgets)
    requires Tracked(l) && Flagged(l) && AllSound(l.h, limits)
    ensures Tracked(Advance(l, e))
  {
    hide Macro;
    hide FlagFits;
    hide Permitted;
    hide FreshlyAdmitted;
    hide Sound;
    var n := Macro(l.m, e);
    MacroEvolves(l.m, e);
    RecordsGrow(l.h, l.m, e, n);
    hide Remember;
    if (Part(n.state) == 4 && !Admits(l.m, e, n)) || Part(n.state) == 3 {
      AdmissionIsKept(l.m.ctx, n.ctx);
    }
  }

  lemma AdvanceKeepsSerial(l: Life, e: Event, limits: Budgets)
    requires Tracked(l) && Flagged(l) && AllSound(l.h, limits) && Serial(l.h)
    ensures Serial(Advance(l, e).h)
  {
    hide Macro;
    hide FlagFits;
    hide Permitted;
    hide FreshlyAdmitted;
    hide Sound;
    MacroEvolves(l.m, e);
  }

  /** A submission starts with the permission, a fresh admission and an id, and with no order out. */
  lemma SubmissionsAreSound(l: Life, e: Event)
    requires Tracked(l) && Flagged(l) && l.m.state == Authorizing && Macro(l.m, e).state == SubmittingOrder
    ensures forall trail, orders :: Sound(Submission(l.h.cycle, Macro(l.m, e).ctx, l.h.unresolved, trail, orders), l.m.ctx.limits)
  {
    hide Macro;
    hide FreshlyAdmitted;
    MacroEvolves(l.m, e);
    AdvanceKeepsFlag(l, e);
    AdmissionIsKept(l.m.ctx, Macro(l.m, e).ctx);
  }

  lemma AdvanceKeepsSound(l: Life, e: Event)
    requires Tracked(l) && Flagged(l) && AllSound(l.h, l.m.ctx.limits)
    ensures AllSound(Advance(l, e).h, Advance(l, e).m.ctx.limits)
  {
    hide Macro;
    hide FlagFits;
    hide Permitted;
    hide Tracked;
    hide Sound;
    hide OrderStep;
    hide Kept;
    hide FreshlyAdmitted;
    hide Evolves;
    hide Stable;
    AdvanceKeepsLimits(l, e);
    RecordsGrow(l.h, l.m, e, Macro(l.m, e));
    hide Remember;
    if l.m.state == Authorizing && Macro(l.m, e).state == SubmittingOrder {
      SubmissionsAreSound(l, e);
    }
  }

  lemma {:induction false} RunIsSafe(lastDecision: Option<int>, staleness: int, limits: Budgets, events: seq<Event>)
    ensures var l := Run(Begin(lastDecision, staleness, limits), events);
            && Flagged(l) && Decided(l, lastDecision) && Tracked(l) && Serial(l.h) && AllSound(l.h, limits) && l.m.ctx.limits == limits
  {
    hide Flagged;
    hide Decided;
    hide Tracked;
    hide Serial;
    hide AllSound;
    hide Advance;
    if events == [] {
      BeginIsSafe(lastDecision, staleness, limits);
    } else {
      RunIsSafe(lastDecision, staleness, limits, events[..|events| - 1]);
      var l, e := Run(Begin(lastDecision, staleness, limits), events[..|events| - 1]), events[|events| - 1];
      AdvanceKeepsFlag(l, e);
      AdvanceKeepsDecided(l, e, lastDecision);
      AdvanceKeepsTracked(l, e, limits);
      AdvanceKeepsSerial(l, e, limits);
      AdvanceKeepsSound(l, e);
      AdvanceKeepsLimits(l, e);
    }
  }

  lemma AdvanceKeepsLimits(l: Life, e: Event)
    requires Flagged(l)
    ensures Advance(l, e).m.ctx.limits == l.m.ctx.limits
  {
    hide Macro;
    MacroEvolves(l.m, e);
  }

  lemma BeginIsSafe(lastDecision: Option<int>, staleness: int, limits: Budgets)
    ensures var l := Begin(lastDecision, staleness, limits);
            Flagged(l) && Decided(l, lastDecision) && Tracked(l) && Serial(l.h) && AllSound(l.h, limits) && l.m.ctx.limits == limits
  {
  }

  // ---- The guarantees

  /** In every reachable state the flag is up exactly when an order handed over has had no outcome since,
      whatever stops, kills and revocations came in between: so in the three order states, never in
      another but failed, from which only a reset leads out. */
  lemma FlagIsTruth(lastDecision: Option<int>, staleness: int, limits: Budgets, events: seq<Event>)
    ensures var l := Run(Begin(lastDecision, staleness, limits), events);
            && l.m.ctx.mayBeInFlight == l.h.unresolved
            && (OrderOut(l.m.state) ==> l.h.unresolved)
            && (l.h.unresolved ==> OrderOut(l.m.state) || l.m.state == Failed)
  {
    RunIsSafe(lastDecision, staleness, limits, events);
  }

  /** The candle closed by the alarm, was evaluated after it, and was at most the allowed age then. */
  predicate AdmittedInTime(c: Context) {
    && c.admission.Some? && c.triggeredAt.Some?
    && c.admission.value.candleClosedAt <= c.triggeredAt.value <= c.admission.value.evaluatedAt
    && c.admission.value.evaluatedAt - c.admission.value.candleClosedAt <= c.staleness
  }

  lemma AdmissionBounds(c: Context)
    requires FreshlyAdmitted(c)
    ensures AdmittedInTime(c)
  {
  }

  /** Every submission of every run: none while an earlier order had no outcome, all with trade
      permission, a persisted id and a fresh admission of their own cycle's newest candle; the
      submissions of a cycle share one id and are at most the execution limit plus one. */
  lemma SubmissionsAreSafe(lastDecision: Option<int>, staleness: int, limits: Budgets, events: seq<Event>, i: nat, j: nat)
    requires i <= j < |Run(Begin(lastDecision, staleness, limits), events).h.submissions|
    ensures var subs := Run(Begin(lastDecision, staleness, limits), events).h.submissions;
            && !subs[i].blind && subs[i].ctx.canTrade && subs[i].ctx.clientOrderId.Some? && FreshlyAdmitted(subs[i].ctx)
            && AdmittedInTime(subs[i].ctx)
            && (subs[i].cycle == subs[j].cycle ==>
                  subs[i].ctx.clientOrderId == subs[j].ctx.clientOrderId && j - i <= limits.execution)
  {
    hide FreshlyAdmitted;
    hide Flagged;
    hide Decided;
    hide Tracked;
    hide Run;
    hide AdmittedInTime;
    RunIsSafe(lastDecision, staleness, limits, events);
    var subs := Run(Begin(lastDecision, staleness, limits), events).h.submissions;
    assert Sound(subs[i], limits) && Sound(subs[j], limits);
    AdmissionBounds(subs[i].ctx);
  }

  /** Decision candles strictly increase over the life of the agent, across resets too. */
  lemma CandlesIncrease(lastDecision: Option<int>, staleness: int, limits: Budgets, events: seq<Event>)
    ensures Increasing(lastDecision, Run(Begin(lastDecision, staleness, limits), events).h.admitted)
  {
    RunIsSafe(lastDecision, staleness, limits, events);
  }

  /** Approved risk always has trade permission: the branch that revokes it there is never taken. */
  lemma ApprovedRiskIsPermitted(lastDecision: Option<int>, staleness: int, limits: Budgets, events: seq<Event>)
    requires Run(Begin(lastDecision, staleness, limits), events).m.state == CheckingRisk
    ensures var m := Run(Begin(lastDecision, staleness, limits), events).m;
            m.ctx.canTrade && Macro(m, RiskApproved).state == PersistingOrderIntent
  {
    hide Decided;
    hide Tracked;
    hide Serial;
    hide AllSound;
    hide Run;
    RunIsSafe(lastDecision, staleness, limits, events);
    ApprovalIsPermitted(Run(Begin(lastDecision, staleness, limits), events));
  }

  lemma ApprovalIsPermitted(l: Life)
    requires Flagged(l) && l.m.state == CheckingRisk
    ensures l.m.ctx.canTrade && Macro(l.m, RiskApproved).state == PersistingOrderIntent
  {
  }
}
