/** The regime filter: warm-up, confirmation streaks and switching, against a short specification. */
module RegimeFilter {
  import opened Basics

  datatype Kind = Bullish | Bearish | Range

  datatype Policy =
    | Threshold(thresholdBps: real, bearishBps: Option<real>, minObservations: int, confirmationCount: int)
    | Slope(slopeBps: real, slopePeriods: int, minObservations: int, confirmationCount: int)

  datatype Observation = Observation(start: int, emaFast: real, emaSlow: real)

  datatype State = WarmingUp | InRegime(kind: Kind) | Stopped | Failed

  datatype Context = Context(
    policy: Policy,
    regime: Option<Kind>,
    observationCount: int,
    pendingKind: Option<Kind>,
    pendingCount: int,
    opposingKind: Option<Kind>,
    opposingCount: int,
    lastStart: Option<int>,
    history: seq<real>,
    lastError: Option<string>,
    stopReason: Option<string>)

  datatype Machine = Machine(state: State, ctx: Context)

  datatype Event = CandleClosed(observation: Observation) | StopRequested(reason: string)

  predicate ValidBps(x: real) {
    0.0 < x < 10000.0
  }

  predicate ValidPolicy(p: Policy) {
    && p.minObservations >= 1 && p.confirmationCount >= 1
    && match p
       case Threshold(bps, bearish, _, _) => ValidBps(bps) && (bearish.Some? ==> ValidBps(bearish.value))
       case Slope(bps, periods, _, _) => ValidBps(bps) && periods >= 1
  }

  predicate ValidObservation(o: Observation, lastStart: Option<int>) {
    && 0 < o.start <= MAX_SAFE && (lastStart.Some? ==> o.start > lastStart.value) && o.emaFast > 0.0 && o.emaSlow > 0.0
  }

  // ---- Classification

  const SLOPE_EPSILON := 0.000001

  function ClassifyGap(p: Policy, o: Observation): Kind
    requires p.Threshold?
  {
    var bearish := if p.bearishBps.Some? then p.bearishBps.value else p.thresholdBps;
    if o.emaFast > o.emaSlow * (1.0 + p.thresholdBps / 10000.0) then Bullish
    else if o.emaFast < o.emaSlow * (2.0 - (1.0 + bearish / 10000.0)) then Bearish
    else Range
  }

  function ClassifySlope(p: Policy, now: real, reference: real): Kind
    requires p.Slope? && reference > 0.0
  {
    var slope := (now / reference - 1.0) * 10000.0;
    if slope > p.slopeBps + SLOPE_EPSILON then Bullish
    else if slope < -(p.slopeBps + SLOPE_EPSILON) then Bearish
    else Range
  }

  function Classify(p: Policy, o: Observation, history: seq<real>): Option<Kind> {
    if p.Threshold? then Some(ClassifyGap(p, o))
    else if |history| < p.slopePeriods then None
    else if |history| == 0 || history[0] <= 0.0 then None
    else Some(ClassifySlope(p, o.emaSlow, history[0]))
  }

  // ---- The machine

  function Create(p: Policy): Machine {
    var c := Context(p, None, 0, None, 0, None, 0, None, [], None, None);
    if ValidPolicy(p) then Machine(WarmingUp, c) else Machine(Failed, c.(lastError := Some("INVALID_REGIME_POLICY")))
  }

  function HistoryCap(p: Policy): int {
    if p.Slope? then p.slopePeriods else 0
  }

  function LastOf(s: seq<real>, cap: int): seq<real> {
    if cap < 0 || |s| <= cap then s else s[|s| - cap..]
  }

  function Counted(c: Context, o: Observation): Context {
    c.(observationCount := c.observationCount + 1, lastStart := Some(o.start),
       history := if HistoryCap(c.policy) == 0 then c.history else LastOf(c.history + [o.emaSlow], HistoryCap(c.policy)))
  }

  function PendingStreak(c: Context, raw: Kind): int {
    if c.pendingKind == Some(raw) then c.pendingCount + 1 else 1
  }

  function OpposingStreak(c: Context, raw: Kind): int {
    if c.opposingKind == Some(raw) then c.opposingCount + 1 else 1
  }

  function Enter(c: Context, o: Observation, raw: Kind): Machine {
    Machine(InRegime(raw), Counted(c, o).(regime := Some(raw), pendingKind := None, pendingCount := 0,
                                          opposingKind := None, opposingCount := 0))
  }

  function OnCandle(m: Machine, o: Observation): Machine {
    var c := m.ctx;
    if !ValidObservation(o, c.lastStart) then Machine(Failed, c.(lastError := Some("INVALID_REGIME_OBSERVATION")))
    else
      match (m.state, Classify(c.policy, o, c.history))
      case (WarmingUp, None) => m.(ctx := Counted(c, o))
      case (WarmingUp, Some(raw)) =>
        if c.observationCount + 1 >= c.policy.minObservations && PendingStreak(c, raw) >= c.policy.confirmationCount then Enter(c, o, raw)
        else m.(ctx := Counted(c, o).(pendingKind := Some(raw), pendingCount := PendingStreak(c, raw)))
      case (InRegime(_), None) => if c.regime.None? then m else m.(ctx := Counted(c, o))
      case (InRegime(_), Some(raw)) =>
        if Some(raw) != c.regime && OpposingStreak(c, raw) >= c.policy.confirmationCount then Enter(c, o, raw)
        else if c.regime.None? then m
        else if Some(raw) == c.regime then m.(ctx := Counted(c, o).(opposingKind := None, opposingCount := 0))
        else m.(ctx := Counted(c, o).(opposingKind := Some(raw), opposingCount := OpposingStreak(c, raw)))
      case _ => m
  }

  function Next(m: Machine, e: Event): Machine {
    if m.state == State.Stopped || m.state == Failed then m
    else
      match e
      case CandleClosed(o) => OnCandle(m, o)
      case StopRequested(reason) => Machine(State.Stopped, m.ctx.(stopReason := Some(reason)))
  }

  /** The machine after the first n candles. */
  function After(p: Policy, obs: seq<Observation>, n: nat): Machine
    requires n <= |obs|
  {
    if n == 0 then Create(p) else Next(After(p, obs, n - 1), CandleClosed(obs[n - 1]))
  }

  // ---- The specification: no streaks, no history

  ghost predicate ValidRun(obs: seq<Observation>) {
    forall i :: 0 <= i < |obs| ==> ValidObservation(obs[i], StartBefore(obs, i))
  }

  function StartBefore(obs: seq<Observation>, i: nat): Option<int>
    requires i <= |obs|
  {
    if i == 0 then None else Some(obs[i - 1].start)
  }

  /** The class of observation i by itself, or in slope mode against the one slopePeriods earlier. */
  function Raw(p: Policy, obs: seq<Observation>, i: nat): Option<Kind>
    requires i < |obs| && ValidPolicy(p) && ValidRun(obs)
  {
    if p.Threshold? then Some(ClassifyGap(p, obs[i]))
    else if i < p.slopePeriods then None
    else Some(ClassifySlope(p, obs[i].emaSlow, obs[i - p.slopePeriods].emaSlow))
  }

  /** The last confirmationCount observations before n all have the same, defined class. */
  ghost predicate Agreed(p: Policy, obs: seq<Observation>, n: nat)
    requires n <= |obs| && ValidPolicy(p) && ValidRun(obs)
  {
    && n >= p.confirmationCount
    && forall k :: n - p.confirmationCount <= k < n ==> Raw(p, obs, k).Some? && Raw(p, obs, k) == Raw(p, obs, n - 1)
  }

  /** The regime after n observations: the class at the latest point, no earlier than minObservations,
      at which the classes agreed. */
  ghost function RegimeAt(p: Policy, obs: seq<Observation>, n: nat): Option<Kind>
    requires n <= |obs| && ValidPolicy(p) && ValidRun(obs)
  {
    if n == 0 then None
    else if n >= p.minObservations && Agreed(p, obs, n) then Raw(p, obs, n - 1)
    else RegimeAt(p, obs, n - 1)
  }

  // ---- Refinement

  /** How many observations before n share the last one's class. */
  ghost function Streak(p: Policy, obs: seq<Observation>, n: nat): nat
    requires n <= |obs| && ValidPolicy(p) && ValidRun(obs)
  {
    if n == 0 || Raw(p, obs, n - 1).None? then 0
    else if n >= 2 && Raw(p, obs, n - 2) == Raw(p, obs, n - 1) then Streak(p, obs, n - 1) + 1
    else 1
  }

  lemma {:induction false} StreakIsAgreement(p: Policy, obs: seq<Observation>, n: nat, c: nat)
    requires n <= |obs| && ValidPolicy(p) && ValidRun(obs) && c >= 1
    ensures Streak(p, obs, n) >= c <==>
            n >= c && forall k :: n - c <= k < n ==> Raw(p, obs, k).Some? && Raw(p, obs, k) == Raw(p, obs, n - 1)
  {
    hide Raw;
    if n >= 2 && Raw(p, obs, n - 1).Some? && Raw(p, obs, n - 2) == Raw(p, obs, n - 1) && c >= 2 {
      StreakIsAgreement(p, obs, n - 1, c - 1);
      if n >= c && forall k :: n - c <= k < n ==> Raw(p, obs, k).Some? && Raw(p, obs, k) == Raw(p, obs, n - 1) {
        assert forall k :: n - 1 - (c - 1) <= k < n - 1 ==> Raw(p, obs, k).Some? && Raw(p, obs, k) == Raw(p, obs, n - 2);
      }
    } else if c >= 2 && n >= c && Raw(p, obs, n - 1).Some? {
      assert Raw(p, obs, n - 2) != Raw(p, obs, n - 1);
    }
  }

  /** The last slopePeriods slow averages before n; none in threshold mode. */
  ghost function RecentEmas(p: Policy, obs: seq<Observation>, n: nat): (r: seq<real>)
    requires ValidPolicy(p) && n <= |obs|
    ensures |r| == if p.Threshold? then 0 else if n <= p.slopePeriods then n else p.slopePeriods
    ensures forall i :: 0 <= i < |r| ==> r[i] == obs[n - |r| + i].emaSlow
  {
    var first := if p.Threshold? then n else if n <= p.slopePeriods then 0 else n - p.slopePeriods;
    seq(n - first, i requires 0 <= i < n - first => obs[first + i].emaSlow)
  }

  /** The machine after n observations, spelled out from the specification. */
  ghost predicate Refines(m: Machine, p: Policy, obs: seq<Observation>, n: nat)
    requires n <= |obs| && ValidPolicy(p) && ValidRun(obs)
  {
    && m.ctx.policy == p
    && m.ctx.regime == RegimeAt(p, obs, n)
    && m.state == (if m.ctx.regime.Some? then InRegime(m.ctx.regime.value) else WarmingUp)
    && m.ctx.observationCount == n
    && m.ctx.lastStart == StartBefore(obs, n)
    && m.ctx.history == RecentEmas(p, obs, n)
    && (if m.ctx.regime.Some? then Opposes(m.ctx, p, obs, n) else Pends(m.ctx, p, obs, n))
  }

  ghost predicate Pends(c: Context, p: Policy, obs: seq<Observation>, n: nat)
    requires n <= |obs| && ValidPolicy(p) && ValidRun(obs)
  {
    c.pendingCount == Streak(p, obs, n) && c.pendingKind == (if n == 0 then None else Raw(p, obs, n - 1))
  }

  ghost predicate Opposes(c: Context, p: Policy, obs: seq<Observation>, n: nat)
    requires n <= |obs| && ValidPolicy(p) && ValidRun(obs)
  {
    && n > 0 && Raw(p, obs, n - 1).Some?
    && (if Raw(p, obs, n - 1) == c.regime then c.opposingKind == None && c.opposingCount == 0
        else c.opposingKind == Raw(p, obs, n - 1) && c.opposingCount == Streak(p, obs, n))
  }

  /** The history makes the machine's classification the specified one. */
  lemma ClassifyIsRaw(p: Policy, obs: seq<Observation>, n: nat)
    requires n < |obs| && ValidPolicy(p) && ValidRun(obs)
    ensures Classify(p, obs[n], RecentEmas(p, obs, n)) == Raw(p, obs, n)
  {
    hide ClassifySlope;
    hide ClassifyGap;
  }

  lemma HistoryIsRecent(p: Policy, obs: seq<Observation>, n: nat)
    requires n < |obs| && ValidPolicy(p)
    ensures RecentEmas(p, obs, n + 1)
            == if HistoryCap(p) == 0 then RecentEmas(p, obs, n)
               else LastOf(RecentEmas(p, obs, n) + [obs[n].emaSlow], HistoryCap(p))
  {
    var before, now := RecentEmas(p, obs, n), RecentEmas(p, obs, n + 1);
    if HistoryCap(p) == 0 {
      assert now == before;
    } else {
      assert now == LastOf(before + [obs[n].emaSlow], HistoryCap(p));
    }
  }

  lemma {:induction false} RegimeNeedsWarmUp(p: Policy, obs: seq<Observation>, n: nat)
    requires n <= |obs| && ValidPolicy(p) && ValidRun(obs)
    ensures RegimeAt(p, obs, n).Some? ==> n >= p.minObservations
  {
    if n > 0 {
      RegimeNeedsWarmUp(p, obs, n - 1);
    }
  }

  /** A class stays defined once it is. */
  lemma OnceDefined(p: Policy, obs: seq<Observation>, n: nat)
    requires n < |obs| && ValidPolicy(p) && ValidRun(obs)
    ensures n > 0 && Raw(p, obs, n - 1).Some? ==> Raw(p, obs, n).Some?
  {
  }

  lemma AgreementIsStreak(p: Policy, obs: seq<Observation>, n: nat)
    requires n <= |obs| && ValidPolicy(p) && ValidRun(obs)
    ensures Agreed(p, obs, n) <==> Streak(p, obs, n) >= p.confirmationCount
  {
    StreakIsAgreement(p, obs, n, p.confirmationCount);
  }

  lemma NextIsValid(obs: seq<Observation>, n: nat)
    requires n < |obs| && ValidRun(obs)
    ensures ValidObservation(obs[n], StartBefore(obs, n))
  {
  }

  /** One candle keeps the machine what the specification says it is. */
  lemma CandleRefines(m: Machine, p: Policy, obs: seq<Observation>, n: nat)
    requires n < |obs| && ValidPolicy(p) && ValidRun(obs) && Refines(m, p, obs, n)
    ensures Refines(OnCandle(m, obs[n]), p, obs, n + 1)
  {
    hide Raw;
    hide RecentEmas;
    hide Classify;
    hide Agreed;
    hide ValidRun;
    hide ValidObservation;
    hide LastOf;
    hide ValidPolicy;
    ClassifyIsRaw(p, obs, n);
    HistoryIsRecent(p, obs, n);
    RegimeNeedsWarmUp(p, obs, n);
    AgreementIsStreak(p, obs, n + 1);
    OnceDefined(p, obs, n);
    NextIsValid(obs, n);
  }

  /** The incremental machine refines the specification on every run of valid observations: its regime is
      the one RegimeAt gives, and its history is the last slopePeriods slow averages. */
  lemma {:induction false} MachineRefines(p: Policy, obs: seq<Observation>, n: nat)
    requires n <= |obs| && ValidPolicy(p) && ValidRun(obs)
    ensures Refines(After(p, obs, n), p, obs, n)
  {
    hide OnCandle;
    hide Refines;
    hide Create;
    hide ValidRun;
    hide ValidPolicy;
    if n == 0 {
      StartRefines(p, obs);
    } else {
      MachineRefines(p, obs, n - 1);
      CandleRefines(After(p, obs, n - 1), p, obs, n - 1);
      StillRunning(After(p, obs, n - 1), p, obs, n - 1);
    }
  }

  lemma StartRefines(p: Policy, obs: seq<Observation>)
    requires ValidPolicy(p) && ValidRun(obs)
    ensures Refines(Create(p), p, obs, 0)
  {
  }

  lemma StillRunning(m: Machine, p: Policy, obs: seq<Observation>, n: nat)
    requires n <= |obs| && ValidPolicy(p) && ValidRun(obs) && Refines(m, p, obs, n)
    ensures m.state != State.Stopped && m.state != Failed
  {
  }

  /** After warm-up no observation is left unclassified. */
  lemma NeverPendingInRegime(p: Policy, obs: seq<Observation>, n: nat)
    requires n < |obs| && ValidPolicy(p) && ValidRun(obs) && After(p, obs, n).state.InRegime?
    ensures Classify(p, obs[n], After(p, obs, n).ctx.history).Some?
  {
    hide Raw;
    hide RecentEmas;
    hide Classify;
    MachineRefines(p, obs, n);
    ClassifyIsRaw(p, obs, n);
    OnceDefined(p, obs, n);
  }

  /** The first observation that is out of order or not positive fails the machine, for good. */
  lemma {:induction false} FailsAtFirstInvalid(p: Policy, obs: seq<Observation>, valid: nat, n: nat)
    requires valid < n <= |obs| && ValidPolicy(p) && ValidRun(obs[..valid])
    requires Unusable(obs[valid]) || (valid > 0 && obs[valid].start <= obs[valid - 1].start)
    ensures After(p, obs, n).state == Failed && After(p, obs, n).ctx.observationCount == valid
    ensures After(p, obs, n).ctx.lastError == Some("INVALID_REGIME_OBSERVATION")
    ensures After(p, obs, n).ctx.regime == RegimeAt(p, obs[..valid], valid)
  {
    hide OnCandle;
    hide ValidObservation;
    if n > valid + 1 {
      FailsAtFirstInvalid(p, obs, valid, n - 1);
    } else {
      SameOnPrefix(p, obs, obs[..valid], valid);
      MachineRefines(p, obs[..valid], valid);
      UnusableIsInvalid(obs, valid);
      InvalidCandleFails(After(p, obs, valid), p, obs[..valid], obs[valid]);
      assert StartBefore(obs[..valid], valid) == StartBefore(obs, valid);
    }
  }

  predicate Unusable(o: Observation) {
    o.start <= 0 || o.start > 9_007_199_254_740_991 || o.emaFast <= 0.0 || o.emaSlow <= 0.0
  }

  lemma UnusableIsInvalid(obs: seq<Observation>, i: nat)
    requires i < |obs| && (Unusable(obs[i]) || (i > 0 && obs[i].start <= obs[i - 1].start))
    ensures !ValidObservation(obs[i], StartBefore(obs, i))
  {
  }

  lemma InvalidCandleFails(m: Machine, p: Policy, obs: seq<Observation>, o: Observation)
    requires ValidPolicy(p) && ValidRun(obs) && Refines(m, p, obs, |obs|)
    requires !ValidObservation(o, StartBefore(obs, |obs|))
    ensures m.state != State.Stopped && m.state != Failed
    ensures OnCandle(m, o) == Machine(Failed, m.ctx.(lastError := Some("INVALID_REGIME_OBSERVATION")))
    ensures m.ctx.observationCount == |obs|
  {
    hide ValidObservation;
  }

  lemma {:induction false} SameOnPrefix(p: Policy, obs: seq<Observation>, prefix: seq<Observation>, n: nat)
    requires n <= |prefix| <= |obs| && prefix == obs[..|prefix|]
    ensures After(p, obs, n) == After(p, prefix, n)
  {
    hide OnCandle;
    if n > 0 {
      SameOnPrefix(p, obs, prefix, n - 1);
    }
  }

  // ---- What the classes mean

  /** A bullish class needs the averages apart upwards, a bearish one downwards; equal averages are a range. */
  lemma ClassesFollowTheAverages(p: Policy, o: Observation)
    requires p.Threshold? && ValidPolicy(p) && o.emaFast > 0.0 && o.emaSlow > 0.0
    ensures ClassifyGap(p, o) == Bullish ==> o.emaFast > o.emaSlow
    ensures ClassifyGap(p, o) == Bearish ==> o.emaFast < o.emaSlow
    ensures o.emaFast == o.emaSlow ==> ClassifyGap(p, o) == Range
  {
    var up := p.thresholdBps / 10000.0;
    var down := (if p.bearishBps.Some? then p.bearishBps.value else p.thresholdBps) / 10000.0;
    assert o.emaSlow * (1.0 + up) == o.emaSlow + o.emaSlow * up && o.emaSlow * up > 0.0;
    assert o.emaSlow * (2.0 - (1.0 + down)) == o.emaSlow - o.emaSlow * down && o.emaSlow * down > 0.0;
  }

  lemma ClassesFollowTheSlope(p: Policy, now: real, reference: real)
    requires p.Slope? && ValidPolicy(p) && now > 0.0 && reference > 0.0
    ensures ClassifySlope(p, now, reference) == Bullish ==> now > reference
    ensures ClassifySlope(p, now, reference) == Bearish ==> now < reference
    ensures now == reference ==> ClassifySlope(p, now, reference) == Range
  {
    RatioOrders(now, reference);
  }

  /** In basis points of the slow average, exactly: bullish beyond the threshold above it, bearish beyond the
      bearish threshold, or failing that the same one, below it; a gap at a threshold is a range. */
  lemma GapsInBasisPoints(p: Policy, o: Observation)
    requires p.Threshold? && ValidPolicy(p) && o.emaSlow > 0.0
    ensures var gap, bearish := 10000.0 * (o.emaFast - o.emaSlow), if p.bearishBps.Some? then p.bearishBps.value else p.thresholdBps;
            && (ClassifyGap(p, o) == Bullish <==> gap > p.thresholdBps * o.emaSlow)
            && (ClassifyGap(p, o) == Bearish <==> gap < -(bearish * o.emaSlow))
  {
    var bearish := if p.bearishBps.Some? then p.bearishBps.value else p.thresholdBps;
    var up, down := p.thresholdBps / 10000.0, bearish / 10000.0;
    assert o.emaSlow * (1.0 + up) == o.emaSlow + o.emaSlow * up && 10000.0 * (o.emaSlow * up) == p.thresholdBps * o.emaSlow;
    assert o.emaSlow * (2.0 - (1.0 + down)) == o.emaSlow - o.emaSlow * down && 10000.0 * (o.emaSlow * down) == bearish * o.emaSlow;
    assert p.thresholdBps * o.emaSlow > 0.0 && bearish * o.emaSlow > 0.0;
  }

  /** The same of the slope, over the average slopePeriods before, with a margin of a millionth of a basis point. */
  lemma SlopesInBasisPoints(p: Policy, now: real, reference: real)
    requires p.Slope? && ValidPolicy(p) && reference > 0.0
    ensures var rise, margin := 10000.0 * (now - reference), (p.slopeBps + 0.000001) * reference;
            && (ClassifySlope(p, now, reference) == Bullish <==> rise > margin)
            && (ClassifySlope(p, now, reference) == Bearish <==> rise < -margin)
  {
    var slope, limit := (now / reference - 1.0) * 10000.0, p.slopeBps + 0.000001;
    RiseIsSlope(now, reference);
    if slope > limit {
      ProductOrders(slope, limit, reference);
    } else if slope < -limit {
      ProductOrders(-limit, slope, reference);
    }
    if slope <= limit {
      NoMore(slope, limit, reference);
    }
    if slope >= -limit {
      NoMore(-limit, slope, reference);
    }
    assert limit * reference > 0.0 && -limit * reference == -(limit * reference);
  }

  lemma RiseIsSlope(now: real, reference: real)
    requires reference > 0.0
    ensures (now / reference - 1.0) * 10000.0 * reference == 10000.0 * (now - reference)
  {
    var r := now / reference;
    assert r * reference == now;
    assert (r - 1.0) * 10000.0 * reference == 10000.0 * (r * reference - reference);
  }

  lemma NoMore(less: real, more: real, b: real)
    requires less <= more && b > 0.0
    ensures less * b <= more * b
  {
    assert (more - less) * b >= 0.0;
  }

  // ---- Bad policies and stops

  /** A machine with a bad policy fails at once, a stopped one keeps its reason, and neither hears anything more. */
  lemma {:induction false} EndedForGood(m: Machine, events: seq<Event>)
    requires m.state == State.Stopped || m.state == Failed
    ensures Heard(m, events) == m
  {
    if events != [] {
      EndedForGood(m, events[..|events| - 1]);
    }
  }

  function Heard(m: Machine, events: seq<Event>): Machine {
    if events == [] then m else Next(Heard(m, events[..|events| - 1]), events[|events| - 1])
  }

  lemma {:induction false} BadPoliciesAndStopsEnd(p: Policy, before: seq<Event>, reason: string, later: seq<Event>)
    ensures !ValidPolicy(p) ==> Heard(Create(p), later).state == Failed && Heard(Create(p), later).ctx.lastError == Some("INVALID_REGIME_POLICY")
    ensures var m := Heard(Create(p), before);
            m.state != Failed && m.state != State.Stopped ==>
              && Heard(Next(m, StopRequested(reason)), later).state == State.Stopped
              && Heard(Next(m, StopRequested(reason)), later).ctx == m.ctx.(stopReason := Some(reason))
  {
    hide OnCandle;
    var m := Heard(Create(p), before);
    if !ValidPolicy(p) {
      EndedForGood(Create(p), later);
    }
    if m.state != Failed && m.state != State.Stopped {
      EndedForGood(Next(m, StopRequested(reason)), later);
    }
  }

  lemma RatioOrders(a: real, b: real)
    requires b > 0.0
    ensures a <= b ==> a / b <= 1.0
    ensures a >= b ==> a / b >= 1.0
  {
    var r := a / b;
    assert r * b == a;
    if r > 1.0 {
      ProductOrders(r, 1.0, b);
    } else if r < 1.0 {
      ProductOrders(1.0, r, b);
    }
  }

  lemma ProductOrders(more: real, less: real, b: real)
    requires more > less && b > 0.0
    ensures more * b > less * b
  {
    assert (more - less) * b > 0.0;
  }
}
