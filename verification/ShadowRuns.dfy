/** Whole runs of the campaign runner, across ledger, benchmark, marks, events and safety. */
module ShadowRuns {
  import opened Basics
  import opened Marks
  import opened EventMarks
  import opened Campaign
  import opened Drawdown
  import opened Shadow
  import L = Ledger
  import B = Benchmark
  import J = JointMarks

  // ---- The sampled points

  function HourlyObservations(slots: seq<MarkSlot>): seq<Option<Observation>> {
    seq(|slots|, i requires 0 <= i < |slots| => slots[i].observation)
  }

  function EventObservations(slots: seq<EventSlot>): seq<Option<Observation>> {
    seq(|slots|, i requires 0 <= i < |slots| => slots[i].observation)
  }

  function Collect(os: seq<Option<Observation>>, now: int): seq<Point> {
    if os == [] then [] else Collect(os[..|os| - 1], now) + PointOf(os[|os| - 1], now)
  }

  lemma {:induction false} HourlyIsCollect(slots: seq<MarkSlot>, now: int)
    ensures HourlyPoints(slots, now) == Collect(HourlyObservations(slots), now)
  {
    if slots != [] {
      HourlyIsCollect(slots[..|slots| - 1], now);
      assert HourlyObservations(slots)[..|slots| - 1] == HourlyObservations(slots[..|slots| - 1]);
    }
  }

  lemma {:induction false} EventsIsCollect(slots: seq<EventSlot>, now: int)
    ensures EventPoints(Observations(slots), now) == Collect(EventObservations(slots), now)
  {
    if slots != [] {
      var n := |slots| - 1;
      EventsIsCollect(slots[..n], now);
      assert EventObservations(slots)[..n] == EventObservations(slots[..n]);
      if slots[n].observation.Some? {
        assert Observations(slots)[..|Observations(slots)| - 1] == Observations(slots[..n]);
      } else {
        assert Observations(slots) == Observations(slots[..n]);
      }
    }
  }

  /** Observations made by a given instant. */
  predicate Past(os: seq<Option<Observation>>, now: int) {
    forall i :: 0 <= i < |os| && os[i].Some? ==>
      os[i].value.asOf <= now && (os[i].value.consolidated.Equity? ==> os[i].value.consolidated.equity >= 0.0)
  }

  lemma {:induction false} CollectIsTimeless(os: seq<Option<Observation>>, now: int, later: int)
    requires Past(os, now) && now <= later
    ensures Collect(os, later) == Collect(os, now) && NonNegative(Collect(os, now))
  {
    if os != [] { CollectIsTimeless(os[..|os| - 1], now, later); }
  }

  /** Filling one empty place adds at most one point, somewhere. */
  ghost predicate Grows(a: seq<Point>, b: seq<Point>) {
    b == a || exists x, k: nat :: InsertedAt(a, b, x, k)
  }

  lemma {:induction false} CollectGrows(os: seq<Option<Observation>>, i: nat, o: Option<Observation>, now: int)
    requires i < |os| && (os[i].None? || o == os[i])
    ensures Grows(Collect(os, now), Collect(os[i := o], now))
  {
    var n := |os| - 1;
    var a, b := Collect(os, now), Collect(os[i := o], now);
    if i == n {
      assert os[i := o][..n] == os[..n];
      if o != os[i] && PointOf(o, now) != [] {
        var x := PointOf(o, now)[0];
        assert InsertedAt(a, b, x, |a|);
      }
    } else {
      CollectGrows(os[..n], i, o, now);
      assert os[i := o][..n] == os[..n][i := o];
      GrowsAppend(Collect(os[..n], now), Collect(os[..n][i := o], now), PointOf(os[n], now));
    }
  }

  lemma GrowsAppend(a: seq<Point>, b: seq<Point>, tail: seq<Point>)
    requires Grows(a, b)
    ensures Grows(a + tail, b + tail)
  {
    if b != a {
      var x, k: nat :| InsertedAt(a, b, x, k);
      assert InsertedAt(a + tail, b + tail, x, k);
    }
  }

  lemma GrowsPrepend(head: seq<Point>, a: seq<Point>, b: seq<Point>)
    requires Grows(a, b)
    ensures Grows(head + a, head + b)
  {
    if b != a {
      var x, k: nat :| InsertedAt(a, b, x, k);
      assert InsertedAt(head + a, head + b, x, |head| + k);
    }
  }

  function Points(marks: MarkState, slots: seq<EventSlot>, now: int): seq<Point> {
    Collect(HourlyObservations(marks.slots), now) + Collect(EventObservations(slots), now)
  }

  /** The drawdown of everything sampled so far. */
  function SampledDrawdown(s: Projection): real {
    MaxDrawdown(SortByTime(Points(s.marks, s.events.slots, s.lastAt)), START_PEAK)
  }

  lemma SeriesIsSortedPoints(s: Projection, now: int)
    ensures Series(s.marks, Observations(s.events.slots), now) == SortByTime(Points(s.marks, s.events.slots, now))
  {
    HourlyIsCollect(s.marks.slots, now);
    EventsIsCollect(s.events.slots, now);
  }

  // ---- The invariant

  ghost predicate Clocks(s: Projection) {
    && Timestamp(s.lastAt)
    && s.ledger.lastRecordedAt <= s.lastAt && s.marks.lastRecordedAt <= s.lastAt && s.benchmarkMarks.lastRecordedAt <= s.lastAt
    && s.events.lastRecordedAt <= s.lastAt && s.benchmarks.lastRecordedAt <= s.lastAt && s.campaign.lastEvaluatedAt <= s.lastAt
  }

  ghost predicate Parts(s: Projection) {
    && L.Invariant(s.ledger)
    && B.EntriesSound(s.benchmarks) && s.benchmarks.active
    && MarkInvariant(s.marks) && MarkInvariant(s.benchmarkMarks) && J.Lockstep(s.marks, s.benchmarkMarks)
    && s.events.active && EventsSound(s.events, s.ledger.manifest.endAt)
  }

  /** An unbound campaign is registered and has sampled nothing; a bound one has sampled everything,
      and a fall beyond the limit has stopped it. */
  ghost predicate CampaignSound(c: CampaignState, startAt: int, now: int, drawdown: real) {
    if c.boundAt.None? then c.phase == Registered && c.maxDrawdown == 0.0
    else
      && c.phase != Registered && c.phase != Invalid
      && startAt <= c.boundAt.value <= now
      && c.maxDrawdown == drawdown
      && (c.maxDrawdown > DRAWDOWN_LIMIT ==> c.phase == Stopped || c.phase == Ended)
  }

  ghost predicate Sound(s: Projection) {
    s.campaign.lastEvaluatedAt == s.lastAt && Clocks(s) && Parts(s) && CampaignSound(s.campaign, s.ledger.manifest.startAt, s.lastAt, SampledDrawdown(s))
  }

  lemma PointsArePast(s: Projection, now: int)
    requires Clocks(s) && Parts(s) && s.lastAt <= now
    ensures Points(s.marks, s.events.slots, now) == Points(s.marks, s.events.slots, s.lastAt)
    ensures NonNegative(SortByTime(Points(s.marks, s.events.slots, now)))
  {
    forall i | 0 <= i < |s.marks.slots| ensures SlotSound(s.marks.slots[i], s.marks.lastRecordedAt) {}
    forall i | 0 <= i < |s.events.slots|
      ensures EventSlotSound(s.events.slots[i], s.ledger.manifest.endAt, s.events.lastRecordedAt) {}
    CollectIsTimeless(HourlyObservations(s.marks.slots), s.lastAt, now);
    CollectIsTimeless(EventObservations(s.events.slots), s.lastAt, now);
    SortKeepsNonNegative(Points(s.marks, s.events.slots, now));
  }

  /** Whether the phase has gone past observing for good. */
  predicate Left(p: CampaignPhase) {
    p == Suspended || p == Stopped || p == Ended
  }

  // ---- The safety evaluation inside a run

  /** On sound parts, from a campaign that has sampled some earlier part of the series, the evaluation
      neither throws nor invalidates; it brings the drawdown up to date and never resumes observing. */
  lemma EvaluationIsSafe(s: Projection, c: CampaignState, at: int, recovering: bool)
    requires Clocks(s) && Parts(s) && Timestamp(at) && s.lastAt <= at
    requires c.lastEvaluatedAt <= at
    requires c.boundAt.Some? ==>
               && s.ledger.manifest.startAt <= c.boundAt.value <= at && c.phase != Registered && c.phase != Invalid
               && 0.0 <= c.maxDrawdown <= SampledDrawdown(s)
    requires c.boundAt.None? ==> c.phase == Registered && c.maxDrawdown == 0.0
    ensures var r := Evaluate(c, ViewOf(s), at, recovering);
            && r.Ok? && r.value.lastEvaluatedAt == at && r.value.boundAt == c.boundAt
            && CampaignSound(r.value, s.ledger.manifest.startAt, at, SampledDrawdown(s))
            && (r.value.phase == c.phase || (c.phase == LocalObserving && Left(r.value.phase)) || (c.phase == Suspended && Left(r.value.phase)))
  {
    hide MaxDrawdown;
    hide Worst;
    hide SortByTime;
    hide Points;
    hide Series;
    hide Decide;
    hide MarkInvariant;
    hide L.SlotShape;
    hide L.OneOpenIntent;
    hide EventsSound;
    hide Pending;
    hide AnyRequested;
    hide LedgerRequested;
    hide J.Lockstep;
    hide B.EntriesSound;
    var series := Series(s.marks, Observations(s.events.slots), at);
    SeriesIsSortedPoints(s, at);
    PointsArePast(s, at);
    DrawdownIsPeakToTrough(series, START_PEAK);
    if c.boundAt.Some? {
      WorstIsMax(series, START_PEAK, c.maxDrawdown);
      ManifestScope(s.ledger, at);
      assert s.ledger.portfolios.At(Btc).cash >= 0.0 && s.ledger.portfolios.At(Eth).cash >= 0.0;
      var next := c.(lastEvaluatedAt := at, maxDrawdown := Worst(series, START_PEAK, c.maxDrawdown));
      assert next.maxDrawdown == SampledDrawdown(s);
      DecisionIsSafe(next, ViewOf(s), at, recovering);
    }
  }

  lemma DecisionIsSafe(c: CampaignState, v: View, at: int, recovering: bool)
    requires c.phase != Invalid && c.phase != Registered
    requires ReportScope(v.ledger.manifest.startAt, v.ledger.manifest.endAt, at)
    ensures var r := Decide(c, v, at, recovering);
            && r.Ok? && r.value.phase != Invalid && r.value.phase != Registered
            && r.value == c.(phase := r.value.phase, reasons := r.value.reasons)
            && (c.maxDrawdown > DRAWDOWN_LIMIT ==> r.value.phase == Stopped || r.value.phase == Ended)
            && (r.value.phase == c.phase || (c.phase == LocalObserving && Left(r.value.phase)) || (c.phase == Suspended && Left(r.value.phase)))
  {
    hide ProofGapExceeded;
    hide AnyRequested;
    hide LedgerRequested;
  }

  lemma ManifestScope(ledger: L.State, at: int)
    requires L.Invariant(ledger) && Timestamp(at) && ledger.manifest.startAt <= at
    ensures ReportScope(ledger.manifest.startAt, ledger.manifest.endAt, at)
  {
    var w :| L.ValidManifest(ledger.manifest, w);
  }

  lemma SafetyOf(s: Projection, at: int, recovering: bool)
    requires Sound(s) && Timestamp(at) && s.lastAt <= at
    ensures var r := Safety(s, at, recovering);
            && r.Ok? && r.value.phase != Invalid
            && CampaignSound(r.value, s.ledger.manifest.startAt, at, SampledDrawdown(s))
            && (Left(s.campaign.phase) ==> Left(r.value.phase))
            && (r.value.phase == LocalObserving ==> s.campaign.phase == LocalObserving)
            && (r.value.boundAt == s.campaign.boundAt && r.value.lastEvaluatedAt == at)
  {
    hide Parts;
    DrawdownOfSound(s);
    EvaluationIsSafe(s, s.campaign, at, recovering);
  }

  lemma DrawdownOfSound(s: Projection)
    requires Clocks(s) && Parts(s)
    ensures 0.0 <= SampledDrawdown(s) <= 1.0
  {
    PointsArePast(s, s.lastAt);
    DrawdownIsPeakToTrough(SortByTime(Points(s.marks, s.events.slots, s.lastAt)), START_PEAK);
  }

  // ---- What each kind of command does to the parts

  /** The parts stay sound, the clock moves to the command, and sampling only grows. */
  ghost predicate Carries(s: Projection, next: Projection, at: int) {
    && Clocks(next) && Parts(next) && next.lastAt == at
    && next.ledger.manifest == s.ledger.manifest
    && Advances(s.events.slots, next.events.slots)
    && SampledDrawdown(s) <= SampledDrawdown(next)
  }

  lemma DrawdownCarries(s: Projection, next: Projection)
    requires Clocks(s) && Parts(s) && Clocks(next) && Parts(next) && s.lastAt <= next.lastAt
    requires Grows(Points(s.marks, s.events.slots, next.lastAt), Points(next.marks, next.events.slots, next.lastAt))
    ensures SampledDrawdown(s) <= SampledDrawdown(next)
  {
    hide MaxDrawdown;
    hide SortByTime;
    hide Parts;
    PointsArePast(s, next.lastAt);
    var a, b := Points(s.marks, s.events.slots, next.lastAt), Points(next.marks, next.events.slots, next.lastAt);
    if b != a {
      var x, k: nat :| InsertedAt(a, b, x, k);
      UnsortedNonNegative(next);
      DrawdownNeverDecreases(a, b, x, k);
    }
  }

  lemma UnsortedNonNegative(s: Projection)
    requires Clocks(s) && Parts(s)
    ensures NonNegative(Points(s.marks, s.events.slots, s.lastAt))
  {
    forall i | 0 <= i < |s.marks.slots| ensures SlotSound(s.marks.slots[i], s.marks.lastRecordedAt) {}
    forall i | 0 <= i < |s.events.slots|
      ensures EventSlotSound(s.events.slots[i], s.ledger.manifest.endAt, s.events.lastRecordedAt) {}
    CollectIsTimeless(HourlyObservations(s.marks.slots), s.lastAt, s.lastAt);
    CollectIsTimeless(EventObservations(s.events.slots), s.lastAt, s.lastAt);
  }

  lemma LedgerCarries(s: Projection, c: L.Command, at: int)
    requires Sound(s) && s.lastAt <= at <= MAX_SAFE && LedgerStep(s, c, at).Ok?
    ensures Carries(s, LedgerStep(s, c, at).value, at)
  {
    hide LedgerGate;
    hide L.Apply;
    hide L.Invariant;
    hide MarkInvariant;
    hide EventsSound;
    hide J.Lockstep;
    hide B.EntriesSound;
    hide SampledDrawdown;
    hide CampaignSound;
    hide FillClockRefusal;
    L.StepKeepsInvariant(s.ledger, c, at);
    DrawdownCarries(s, LedgerStep(s, c, at).value);
  }

  lemma BenchmarkCarries(s: Projection, c: B.EntryCommand, at: int)
    requires Sound(s) && s.lastAt <= at <= MAX_SAFE && BenchmarkStep(s, c, at).Ok?
    ensures Carries(s, BenchmarkStep(s, c, at).value, at)
  {
    hide Safety;
    hide B.ApplyEntry;
    hide L.Invariant;
    hide MarkInvariant;
    hide EventsSound;
    hide J.Lockstep;
    hide B.EntriesSound;
    hide SampledDrawdown;
    hide CampaignSound;
    B.EntryStep(s.benchmarks, s.ledger, Some(s.profile), Safety(s, at, false).value.phase, c, at);
    EntriesStayActive(s, c, at);
    DrawdownCarries(s, BenchmarkStep(s, c, at).value);
  }

  lemma EntriesStayActive(s: Projection, c: B.EntryCommand, at: int)
    requires BenchmarkStep(s, c, at).Ok?
    ensures BenchmarkStep(s, c, at).value.benchmarks.active
  {
    hide Safety;
    hide B.OnLeg;
  }

  lemma MarkCarries(s: Projection, c: MarkCommand, at: int)
    requires Sound(s) && s.lastAt <= at <= MAX_SAFE && MarkStep(s, c, at).Ok?
    ensures Carries(s, MarkStep(s, c, at).value, at)
  {
    hide ApplyMark;
    hide J.ApplyJoint;
    hide L.Invariant;
    hide MarkInvariant;
    hide EventsSound;
    hide J.Lockstep;
    hide B.EntriesSound;
    hide SampledDrawdown;
    hide CampaignSound;
    hide CommitClockRefusal;
    var next := MarkStep(s, c, at).value;
    J.JointKeepsLockstep(s.marks, s.benchmarkMarks, s.ledger, s.benchmarks, c, at);
    MarkStepKeepsInvariant(s.marks, s.ledger, c, at);
    MarkClock(s, c, at);
    MarkPointsGrow(s.marks, s.ledger, c, at, at);
    GrowsAppend(Collect(HourlyObservations(s.marks.slots), at), Collect(HourlyObservations(next.marks.slots), at),
                Collect(EventObservations(s.events.slots), at));
    DrawdownCarries(s, next);
  }

  lemma MarkClock(s: Projection, c: MarkCommand, at: int)
    requires J.ApplyJoint(s.marks, s.benchmarkMarks, s.ledger, s.benchmarks, c, at).Ok?
    ensures var joint := J.ApplyJoint(s.marks, s.benchmarkMarks, s.ledger, s.benchmarks, c, at).value;
            joint.state.lastRecordedAt == at && joint.benchmarkState.lastRecordedAt == at
  {
    hide NextSlot;
  }

  lemma MarkPointsGrow(marks: MarkState, ledger: L.State, c: MarkCommand, at: int, now: int)
    requires MarkInvariant(marks) && ApplyMark(marks, ledger, c, at).Ok?
    ensures Grows(Collect(HourlyObservations(marks.slots), now),
                  Collect(HourlyObservations(ApplyMark(marks, ledger, c, at).value.slots), now))
  {
    hide MarkOf;
    hide Identifier;
    hide Sha256;
    var next, slot := ApplyMark(marks, ledger, c, at).value, NextSlot(marks, ledger, c, at).value.0;
    var i := IndexOf(marks.slots, c.scheduledAt);
    var os, os' := HourlyObservations(marks.slots), HourlyObservations(next.slots);
    if i.Some? {
      assert SlotSound(marks.slots[i.value], marks.lastRecordedAt);
      assert os' == os[i.value := slot.observation];
      CollectGrows(os, i.value, slot.observation, now);
    } else {
      assert os'[..|os|] == os && os'[|os|].None?;
      assert Collect(os', now) == Collect(os, now) + [];
    }
  }

  lemma EventCarries(s: Projection, c: EventCommand, at: int)
    requires Sound(s) && s.lastAt <= at <= MAX_SAFE && EventStepOf(s, c, at).Ok?
    ensures Carries(s, EventStepOf(s, c, at).value, at)
  {
    hide ApplyEventMark;
    hide L.Invariant;
    hide MarkInvariant;
    hide EventsSound;
    hide J.Lockstep;
    hide B.EntriesSound;
    hide SampledDrawdown;
    hide CampaignSound;
    hide EventClockRefusal;
    var next := EventStepOf(s, c, at).value;
    var scene := Scene(s.events, s.marks, s.benchmarkMarks, s.ledger, s.benchmarks);
    EventStep(scene, s.hasFills, c, at);
    EventPointsGrow(s.events, next.events, s.ledger.manifest.endAt, at);
    GrowsPrepend(Collect(HourlyObservations(s.marks.slots), at), Collect(EventObservations(s.events.slots), at),
                 Collect(EventObservations(next.events.slots), at));
    DrawdownCarries(s, next);
  }

  lemma EventPointsGrow(a: EventState, b: EventState, endAt: int, now: int)
    requires EventsSound(a, endAt) && Advances(a.slots, b.slots) && |a.slots| == |b.slots|
    ensures Grows(Collect(EventObservations(a.slots), now), Collect(EventObservations(b.slots), now))
  {
    var os, os' := EventObservations(a.slots), EventObservations(b.slots);
    if i :| 0 <= i < |a.slots| && a.slots[i] != b.slots[i] {
      forall j | 0 <= j < |os| && j != i ensures os'[j] == os[j] {
        if j < i { assert a.slots[j] == b.slots[j]; } else { assert a.slots[j] == b.slots[j]; }
      }
      assert EventSlotSound(a.slots[i], endAt, a.lastRecordedAt);
      assert os' == os[i := os'[i]];
      CollectGrows(os, i, os'[i], now);
    } else {
      assert os' == os;
    }
  }

  /** The campaign a command hands to the end of the step. */
  ghost predicate Handed(s: Projection, c: CampaignState, at: int) {
    && c.lastEvaluatedAt <= at
    && (c.boundAt.Some? ==>
        && s.ledger.manifest.startAt <= c.boundAt.value <= at && c.phase != Registered && c.phase != Invalid
        && 0.0 <= c.maxDrawdown <= SampledDrawdown(s))
    && (c.boundAt.None? ==> c.phase == Registered && c.maxDrawdown == 0.0)
    && (s.campaign.boundAt.Some? ==> c.boundAt == s.campaign.boundAt)
    && (Left(s.campaign.phase) ==> Left(c.phase))
  }

  lemma CampaignCarries(s: Projection, kind: Kind, campaignId: string, commandId: string, at: int)
    requires Sound(s) && s.lastAt <= at <= MAX_SAFE && CampaignStep(s, kind, campaignId, commandId, at).Ok?
    ensures var next := CampaignStep(s, kind, campaignId, commandId, at).value;
            && Carries(s, next, at) && Handed(s, next.campaign, at)
            && next.events == s.events && next.ledger == s.ledger && next.benchmarks == s.benchmarks
  {
    hide Evaluate;
    hide Parts;
    hide SampledDrawdown;
    hide Identifier;
    var next := CampaignStep(s, kind, campaignId, commandId, at).value;
    DrawdownOfSound(s);
    DrawdownCarriesCampaign(s, next);
    match kind
    case BeginLocalSimulation =>
      EvaluationIsSafe(s, Transition(s.campaign, Begin, None).(boundAt := Some(at)), at, false);
    case StopLocal =>
      EvaluationIsSafe(s, Transition(s.campaign, Stop, Some("LOCAL_OPERATOR_STOP")), at, false);
    case CheckLocalSafety =>
      EvaluationIsSafe(s, s.campaign, at, false);
    case RecoverLocal =>
      EvaluationIsSafe(s, s.campaign, at, true);
  }

  lemma DrawdownCarriesCampaign(s: Projection, next: Projection)
    requires Clocks(s) && Parts(s) && next == s.(lastAt := next.lastAt, campaign := next.campaign) && s.lastAt <= next.lastAt
    ensures Parts(next) && SampledDrawdown(next) == SampledDrawdown(s)
  {
    PointsArePast(s, next.lastAt);
  }

  lemma TouchedCarries(s: Projection, input: Command, at: int)
    requires Sound(s) && s.lastAt <= at <= MAX_SAFE && Touched(s, input, at).Ok?
    ensures var next := Touched(s, input, at).value; Carries(s, next, at) && Handed(s, next.campaign, at)
  {
    hide LedgerStep;
    hide BenchmarkStep;
    hide MarkStep;
    hide EventStepOf;
    hide CampaignStep;
    hide Parts;
    hide SampledDrawdown;
    DrawdownOfSound(s);
    if !input.OnCampaign? {
      CampaignUntouched(s, input, at);
    }
    match input
    case OnLedger(c) => LedgerCarries(s, c, at);
    case OnBenchmark(c) => BenchmarkCarries(s, c, at);
    case OnMark(c) => MarkCarries(s, c, at);
    case OnEvent(c) => EventCarries(s, c, at);
    case OnCampaign(kind, campaignId, commandId) => CampaignCarries(s, kind, campaignId, commandId, at);
  }

  lemma CampaignUntouched(s: Projection, input: Command, at: int)
    requires Touched(s, input, at).Ok? && !input.OnCampaign?
    ensures Touched(s, input, at).value.campaign == s.campaign
  {
  }

  lemma ExpectationCarries(s: Projection, sequence: int, at: int)
    requires Clocks(s) && Parts(s) && s.lastAt == at && ExpectAfterFill(s.events, sequence, at).Ok?
    ensures var next := s.(events := ExpectAfterFill(s.events, sequence, at).value, hasFills := true);
            Carries(s, next, at) && SampledDrawdown(next) == SampledDrawdown(s)
  {
    hide L.Invariant;
    hide MarkInvariant;
    hide EventsSound;
    hide J.Lockstep;
    hide B.EntriesSound;
    hide MaxDrawdown;
    hide SortByTime;
    ExpectationStep(s.events, sequence, at, s.ledger.manifest.endAt);
    var next := ExpectAfterFill(s.events, sequence, at).value;
    var os, os' := EventObservations(s.events.slots), EventObservations(next.slots);
    assert os'[..|os|] == os && os'[|os|].None?;
    assert Collect(os', at) == Collect(os, at) + [] == Collect(os, at);
    assert Points(s.marks, next.slots, at) == Points(s.marks, s.events.slots, at);
  }

  /** The projection a step hands to its final safety evaluation. */
  ghost predicate Marked(s: Projection, input: Command, at: int, sequence: int, marked: Projection) {
    && Touched(s, input, at).Ok?
    && var next := Touched(s, input, at).value;
       if Filled(next, input)
       then ExpectAfterFill(next.events, sequence, at).Ok?
            && marked == next.(events := ExpectAfterFill(next.events, sequence, at).value, hasFills := true)
       else marked == next.(hasFills := s.hasFills)
  }

  lemma MarkedCarries(s: Projection, input: Command, at: int, sequence: int, marked: Projection)
    requires Sound(s) && s.lastAt <= at <= MAX_SAFE && Marked(s, input, at, sequence, marked)
    ensures Carries(s, marked, at) && Handed(s, marked.campaign, at)
    ensures marked.ledger == Touched(s, input, at).value.ledger && marked.benchmarks == Touched(s, input, at).value.benchmarks
    ensures Filled(Touched(s, input, at).value, input) ==>
              |marked.events.slots| > 0 && marked.events.slots[|marked.events.slots| - 1].id == FillMark(sequence)
  {
    hide Touched;
    hide Parts;
    hide SampledDrawdown;
    hide Filled;
    var next := Touched(s, input, at).value;
    TouchedCarries(s, input, at);
    if Filled(next, input) {
      FilledKeepsSlots(s, input, at);
      ExpectationCarries(next, sequence, at);
      AppendsExpectation(next, sequence, at);
      AdvancesOnce(s.events.slots, next.events.slots, marked.events.slots);
    } else {
      FlagIsNotAPart(next, s.hasFills);
    }
  }

  lemma FlagIsNotAPart(s: Projection, flag: bool)
    ensures Parts(s.(hasFills := flag)) == Parts(s) && SampledDrawdown(s.(hasFills := flag)) == SampledDrawdown(s)
  {
  }

  lemma FilledKeepsSlots(s: Projection, input: Command, at: int)
    requires Touched(s, input, at).Ok? && Filled(Touched(s, input, at).value, input)
    ensures Touched(s, input, at).value.events == s.events
  {
  }

  lemma AppendsExpectation(s: Projection, sequence: int, at: int)
    requires Clocks(s) && Parts(s) && ExpectAfterFill(s.events, sequence, at).Ok?
    ensures var slots := ExpectAfterFill(s.events, sequence, at).value.slots;
            |slots| == |s.events.slots| + 1 && slots[|slots| - 1].id == FillMark(sequence)
  {
  }

  lemma AdvancesOnce(a: seq<EventSlot>, b: seq<EventSlot>, c: seq<EventSlot>)
    requires b == a && Advances(b, c)
    ensures Advances(a, c)
  {
  }

  /** Nothing but the touched component can refuse a step, except a reused fill number; and every
      accepted step keeps the whole invariant. */
  lemma StepKeepsSound(s: Projection, input: Command, at: int, sequence: int)
    requires Sound(s) && s.lastAt <= at <= MAX_SAFE
    ensures var t, r := Touched(s, input, at), Step(s, input, at, sequence);
            && (t.Fail? ==> r == Fail(t.error))
            && (t.Ok? && !(Filled(t.value, input) && ExpectAfterFill(t.value.events, sequence, at).Fail?) ==> r.Ok?)
            && (r.Ok? ==>
                && Sound(r.value) && r.value.ledger == t.value.ledger && r.value.benchmarks == t.value.benchmarks
                && r.value.ledger.manifest == s.ledger.manifest
                && Advances(s.events.slots, r.value.events.slots)
                && r.value.campaign.maxDrawdown >= s.campaign.maxDrawdown
                && (Left(s.campaign.phase) ==> Left(r.value.campaign.phase))
                && (Filled(t.value, input) ==>
                    |r.value.events.slots| > 0 && r.value.events.slots[|r.value.events.slots| - 1].id == FillMark(sequence)))
  {
    hide Touched;
    hide Filled;
    hide Parts;
    hide SampledDrawdown;
    hide Safety;
    hide Advances;
    if Touched(s, input, at).Ok? {
      var next := Touched(s, input, at).value;
      if !(Filled(next, input) && ExpectAfterFill(next.events, sequence, at).Fail?) {
        var marked :=
          if Filled(next, input) then next.(events := ExpectAfterFill(next.events, sequence, at).value, hasFills := true)
          else next.(hasFills := s.hasFills);
        assert Marked(s, input, at, sequence, marked);
        MarkedCarries(s, input, at, sequence, marked);
        FinalEvaluation(s, marked, at);
        DrawdownOfSound(s);
        DrawdownOfSound(marked);
        FlagIsNotAPart(next, s.hasFills || Filled(next, input));
      }
    }
  }

  lemma FinalEvaluation(s: Projection, marked: Projection, at: int)
    requires Sound(s) && Carries(s, marked, at) && Handed(s, marked.campaign, at)
    ensures var r := Safety(marked, at, false);
            && r.Ok? && Sound(marked.(campaign := r.value))
            && r.value.maxDrawdown >= s.campaign.maxDrawdown
            && (Left(s.campaign.phase) ==> Left(r.value.phase))
  {
    hide Parts;
    hide SampledDrawdown;
    hide Evaluate;
    DrawdownOfSound(marked);
    EvaluationIsSafe(marked, marked.campaign, at, false);
    CampaignIsNotAPart(marked, Safety(marked, at, false).value);
    assert s.campaign.boundAt.Some? ==> s.campaign.maxDrawdown == SampledDrawdown(s);
  }

  lemma CampaignIsNotAPart(s: Projection, c: CampaignState)
    ensures Parts(s.(campaign := c)) == Parts(s) && SampledDrawdown(s.(campaign := c)) == SampledDrawdown(s)
  {
  }

  // ---- Money and fills

  /** Every balance of the experiment: the campaign portfolios and the benchmark holdings. */
  datatype Balances = Balances(btcCash: real, btcPosition: real, ethCash: real, ethPosition: real, btc: B.Holding, eth: B.Holding)

  function BalancesOf(s: Projection): Balances {
    var p := s.ledger.portfolios;
    Balances(p.btc.cash, p.btc.position, p.eth.cash, p.eth.position, J.LegHolding(s.benchmarks, Btc), J.LegHolding(s.benchmarks, Eth))
  }

  /** A balance moves only in a filling step of a campaign that still observes. */
  lemma MoneyMovesOnlyWhileObserving(s: Projection, input: Command, at: int)
    requires Sound(s) && s.lastAt <= at <= MAX_SAFE && Touched(s, input, at).Ok?
    ensures BalancesOf(Touched(s, input, at).value) != BalancesOf(s) ==> s.campaign.phase == LocalObserving
  {
    hide Safety;
    hide Parts;
    hide Clocks;
    hide CampaignSound;
    hide SampledDrawdown;
    hide L.Apply;
    hide B.ApplyEntry;
    hide J.ApplyJoint;
    hide ApplyEventMark;
    hide ApplyCampaign;
    hide PlanShadowPricing;
    hide FillClockRefusal;
    hide Blocked;
    ClockOf(s, at);
    SafetyOf(s, at, false);
    PartsOf(s);
    match input
    case OnLedger(c) =>
      L.StepKeepsInvariant(s.ledger, c, at);
      var next := L.Apply(s.ledger, c, at).value;
      assert !L.IsFill(c.event) ==> forall p :: next.portfolios.At(p).cash == s.ledger.portfolios.At(p).cash
                                              && next.portfolios.At(p).position == s.ledger.portfolios.At(p).position;
      assert !L.IsFill(c.event) ==> next.portfolios.At(Btc).cash == s.ledger.portfolios.At(Btc).cash
                                    && next.portfolios.At(Eth).cash == s.ledger.portfolios.At(Eth).cash;
    case OnBenchmark(c) =>
      var phase := Safety(s, at, false).value.phase;
      B.EntryStep(s.benchmarks, s.ledger, Some(s.profile), phase, c, at);
      var entries := B.ApplyEntry(s.benchmarks, s.ledger, Some(s.profile), phase, c, at, false).value;
      LegsOf(s.benchmarks, entries, c);
    case _ =>
  }

  lemma ClockOf(s: Projection, at: int)
    requires Sound(s) && s.lastAt <= at <= MAX_SAFE
    ensures Timestamp(at)
  {
  }

  lemma PartsOf(s: Projection)
    requires Parts(s)
    ensures L.Invariant(s.ledger) && B.EntriesSound(s.benchmarks)
  {
  }

  /** An entry command that initializes no leg leaves every holding as it was. */
  lemma LegsOf(a: B.Entries, b: B.Entries, c: B.EntryCommand)
    requires B.EntriesSound(a) && B.EntriesSound(b)
    requires forall p :: p != c.product ==> b.products.At(p) == a.products.At(p)
    requires a.products.At(c.product).Some? ==> !B.Closed(a.products.At(c.product).value)
    requires b.products.At(c.product).Some?
    ensures b.products.At(c.product).value.phase != B.Initialized ==>
              J.LegHolding(b, Btc) == J.LegHolding(a, Btc) && J.LegHolding(b, Eth) == J.LegHolding(a, Eth)
  {
  }

  /** A ledger fill is accepted only when no mark blocks. */
  lemma LedgerFillNeedsMarks(s: Projection, c: L.Command, at: int)
    requires L.IsFill(c.event) && Touched(s, OnLedger(c), at).Ok?
    ensures !Blocked(s.events)
  {
    hide Safety;
    hide L.Apply;
  }

  // ---- Runs

  datatype Input =
    | Do(command: Command, at: int, sequence: int)
    | Gap(at: int, reason: string)

  function Attempt(s: Projection, input: Input): Result<Projection> {
    match input
    case Do(command, at, sequence) => Step(s, command, at, sequence)
    case Gap(at, reason) => SuspendForRequestGap(s, at, reason)
  }

  /** The projection after a run of inputs; refused inputs leave no trace. */
  function Run(s: Projection, inputs: seq<Input>): Projection {
    if inputs == [] then s
    else
      var before := Run(s, inputs[..|inputs| - 1]);
      match Attempt(before, inputs[|inputs| - 1])
      case Ok(next) => next
      case Fail(_) => before
  }

  ghost predicate Start(s: Projection) {
    exists m, profile, at :: Shadow.Initialize(m, profile, at) == Ok(s)
  }

  lemma StartIsSound(s: Projection)
    requires Start(s)
    ensures Sound(s)
  {
    hide Safety;
    var m, profile, at :| Shadow.Initialize(m, profile, at) == Ok(s);
    assert L.ValidManifest(m, at);
    assert s.marks.slots == [] && |s.events.slots| == 1;
    assert Observations(s.events.slots) == [];
  }

  /** What one input, accepted or refused, leaves true. */
  lemma InputKeepsSound(s: Projection, input: Input)
    requires Sound(s)
    ensures var next := Run(s, [input]);
            && Sound(next)
            && Advances(s.events.slots, next.events.slots)
            && next.campaign.maxDrawdown >= s.campaign.maxDrawdown
            && (Left(s.campaign.phase) ==> Left(next.campaign.phase))
            && (BalancesOf(next) != BalancesOf(s) ==> s.campaign.phase == LocalObserving)
  {
    hide Parts;
    hide SampledDrawdown;
    hide Safety;
    hide Touched;
    assert [input][..0] == [] && Run(s, []) == s;
    if Attempt(s, input).Ok? {
      match input
      case Do(command, at, sequence) =>
        StepKeepsSound(s, command, at, sequence);
        MoneyMovesOnlyWhileObserving(s, command, at);
      case Gap(at, reason) =>
        GapKeepsSound(s, at, reason);
    }
  }

  lemma GapKeepsSound(s: Projection, at: int, reason: string)
    requires Sound(s) && SuspendForRequestGap(s, at, reason).Ok?
    ensures var next := SuspendForRequestGap(s, at, reason).value;
            && Sound(next) && next.events == s.events && BalancesOf(next) == BalancesOf(s)
            && next.campaign.maxDrawdown >= s.campaign.maxDrawdown
            && next.campaign.phase != LocalObserving
            && (Left(s.campaign.phase) ==> Left(next.campaign.phase))
  {
    hide Parts;
    hide SampledDrawdown;
    var next := SuspendForRequestGap(s, at, reason).value;
    GapClock(s, at);
    SafetyOf(s, at, true);
    DrawdownOfSound(s);
    DrawdownCarriesCampaign(s, next);
  }

  lemma GapClock(s: Projection, at: int)
    requires Safety(s, at, true).Ok?
    ensures Timestamp(at) && s.campaign.lastEvaluatedAt <= at
  {
  }

  lemma RunStep(s: Projection, inputs: seq<Input>, n: nat)
    requires n < |inputs|
    ensures Run(s, inputs[..n + 1]) == Run(Run(s, inputs[..n]), [inputs[n]])
  {
    assert inputs[..n + 1][..n] == inputs[..n];
    assert [inputs[n]][..0] == [];
  }

  /** In every run of the runner: the invalid phase is never reached, the drawdown is that of the full
      time-sorted series of samples once the campaign is bound, it lies between zero and one, and above
      one half the campaign is stopped or ended. */
  lemma {:induction false} EveryRunIsSound(s: Projection, inputs: seq<Input>)
    requires Start(s)
    ensures var now := Run(s, inputs);
            && Sound(now)
            && now.campaign.phase != Invalid
            && (now.campaign.boundAt.Some? ==>
                now.campaign.maxDrawdown == MaxDrawdown(Series(now.marks, Observations(now.events.slots), now.lastAt), START_PEAK))
            && 0.0 <= now.campaign.maxDrawdown <= 1.0
            && (now.campaign.maxDrawdown > DRAWDOWN_LIMIT ==> now.campaign.phase == Stopped || now.campaign.phase == Ended)
  {
    if inputs == [] {
      StartIsSound(s);
    } else {
      var n := |inputs| - 1;
      EveryRunIsSound(s, inputs[..n]);
      assert inputs[..n + 1] == inputs;
      RunStep(s, inputs, n);
      InputKeepsSound(Run(s, inputs[..n]), inputs[n]);
    }
    var now := Run(s, inputs);
    SoundMeans(now);
  }

  lemma SoundMeans(now: Projection)
    requires Sound(now)
    ensures now.campaign.phase != Invalid && 0.0 <= now.campaign.maxDrawdown <= 1.0
    ensures now.campaign.boundAt.Some? ==>
              now.campaign.maxDrawdown == MaxDrawdown(Series(now.marks, Observations(now.events.slots), now.lastAt), START_PEAK)
    ensures now.campaign.maxDrawdown > DRAWDOWN_LIMIT ==> now.campaign.phase == Stopped || now.campaign.phase == Ended
  {
    hide Parts;
    hide MaxDrawdown;
    hide SortByTime;
    hide Series;
    DrawdownOfSound(now);
    SeriesIsSortedPoints(now, now.lastAt);
  }

  /** The safety evaluation never throws inside a run: neither the clock nor the coverage scope. */
  lemma SafetyNeverThrows(s: Projection, inputs: seq<Input>, at: int, recovering: bool)
    requires Start(s) && Run(s, inputs).lastAt <= at <= MAX_SAFE
    ensures Safety(Run(s, inputs), at, recovering).Ok?
  {
    EveryRunIsSound(s, inputs);
    SafetyOf(Run(s, inputs), at, recovering);
  }

  /** Once a campaign has left observation it never observes again and no balance ever moves again. */
  lemma {:induction false} LeavingIsForever(s: Projection, inputs: seq<Input>, i: nat, j: nat)
    requires Start(s) && i <= j <= |inputs|
    requires Left(Run(s, inputs[..i]).campaign.phase)
    ensures Left(Run(s, inputs[..j]).campaign.phase)
    ensures BalancesOf(Run(s, inputs[..j])) == BalancesOf(Run(s, inputs[..i]))
    decreases j - i
  {
    hide Sound;
    hide Run;
    hide BalancesOf;
    hide Start;
    hide Series;
    hide MaxDrawdown;
    hide Observations;
    hide Advances;
    if i < j {
      LeavingIsForever(s, inputs, i, j - 1);
      EveryRunIsSound(s, inputs[..j - 1]);
      RunStep(s, inputs, j - 1);
      InputKeepsSound(Run(s, inputs[..j - 1]), inputs[j - 1]);
    }
  }

  /** Event slots keep their place and identity over a run. */
  lemma {:induction false} SlotsStay(s: Projection, inputs: seq<Input>, i: nat, j: nat, k: nat)
    requires Start(s) && i <= j <= |inputs| && k < |Run(s, inputs[..i]).events.slots|
    ensures k < |Run(s, inputs[..j]).events.slots|
    ensures Run(s, inputs[..j]).events.slots[k].id == Run(s, inputs[..i]).events.slots[k].id
    decreases j - i
  {
    hide Sound;
    hide Run;
    hide BalancesOf;
    hide Start;
    hide Series;
    hide MaxDrawdown;
    hide Observations;
    if i < j {
      SlotsStay(s, inputs, i, j - 1, k);
      EveryRunIsSound(s, inputs[..j - 1]);
      RunStep(s, inputs, j - 1);
      InputKeepsSound(Run(s, inputs[..j - 1]), inputs[j - 1]);
    }
  }

  /** Input n is accepted in the run and fills something, in the ledger or a benchmark leg. */
  ghost predicate FillsAt(s: Projection, inputs: seq<Input>, n: nat) {
    && n < |inputs| && inputs[n].Do?
    && Attempt(Run(s, inputs[..n]), inputs[n]).Ok?
    && Touched(Run(s, inputs[..n]), inputs[n].command, inputs[n].at).Ok?
    && Filled(Touched(Run(s, inputs[..n]), inputs[n].command, inputs[n].at).value, inputs[n].command)
  }

  /** A fill leaves its own expectation as the last event slot. */
  lemma FillIsExpected(s: Projection, inputs: seq<Input>, i: nat)
    requires Start(s) && FillsAt(s, inputs, i)
    ensures var slots := Run(s, inputs[..i + 1]).events.slots;
            |slots| > 0 && slots[|slots| - 1].id == FillMark(inputs[i].sequence)
  {
    hide Sound;
    hide Touched;
    hide Filled;
    hide Start;
    hide Series;
    hide MaxDrawdown;
    hide Observations;
    hide Advances;
    hide Step;
    hide Run;
    var before := Run(s, inputs[..i]);
    EveryRunIsSound(s, inputs[..i]);
    AcceptedClock(before, inputs[i]);
    StepKeepsSound(before, inputs[i].command, inputs[i].at, inputs[i].sequence);
    RunStep(s, inputs, i);
    OneInput(before, inputs[i]);
  }

  /** No ledger fill is accepted while any earlier fill lacks an available mark on both portfolios. */
  lemma EarlierFillsAreMarked(s: Projection, inputs: seq<Input>, i: nat, j: nat)
    requires Start(s) && i < j && FillsAt(s, inputs, i) && FillsAt(s, inputs, j) && inputs[j].command.OnLedger?
    ensures exists k :: var slots := Run(s, inputs[..j]).events.slots;
            && 0 <= k < |slots| && slots[k].id == FillMark(inputs[i].sequence)
            && Seen(slots[k].observation) && Seen(slots[k].benchmarkObservation)
  {
    hide Sound;
    hide Touched;
    hide Filled;
    hide Start;
    hide Series;
    hide MaxDrawdown;
    hide Observations;
    hide Run;
    hide Attempt;
    FillIsExpected(s, inputs, i);
    var k := |Run(s, inputs[..i + 1]).events.slots| - 1;
    SlotsStay(s, inputs, i + 1, j, k);
    var late := Run(s, inputs[..j]);
    EveryRunIsSound(s, inputs[..j]);
    FillIsLedgerFill(late, inputs[j].command, inputs[j].at);
    LedgerFillNeedsMarks(late, inputs[j].command.ledgerCommand, inputs[j].at);
    ActiveEvents(late);
    assert !Blocks(late.events.slots[k]);
  }

  lemma AcceptedClock(s: Projection, input: Input)
    requires input.Do? && Attempt(s, input).Ok?
    ensures s.lastAt <= input.at <= MAX_SAFE
  {
    hide Touched;
  }

  lemma OneInput(s: Projection, input: Input)
    requires input.Do? && Attempt(s, input).Ok?
    ensures Run(s, [input]) == Step(s, input.command, input.at, input.sequence).value
  {
    assert [input][..0] == [];
    hide Step;
  }

  lemma FillIsLedgerFill(s: Projection, command: Command, at: int)
    requires command.OnLedger? && Touched(s, command, at).Ok? && Filled(Touched(s, command, at).value, command)
    ensures L.IsFill(command.ledgerCommand.event)
  {
    hide Touched;
  }

  lemma ActiveEvents(s: Projection)
    requires Sound(s)
    ensures s.events.active
  {
  }
}
