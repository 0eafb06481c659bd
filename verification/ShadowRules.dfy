/** The rules of the campaign and its runner: when it begins, stops, suspends and ends, and what it lets the ledger do. */
module ShadowRules {
  import opened Basics
  import opened Depth
  import opened Evidence
  import opened Marks
  import opened EventMarks
  import opened Campaign
  import opened Drawdown
  import opened Shadow
  import L = Ledger
  import B = Benchmark
  import J = JointMarks
  import MarkRules

  // ---- The phase of a campaign

  predicate Exceeded(v: View, now: int) {
    ProofGapExceeded(v.marks, v.ledger.manifest.startAt, v.ledger.manifest.endAt, now)
    || ProofGapExceeded(v.benchmarkMarks, v.ledger.manifest.startAt, v.ledger.manifest.endAt, now)
  }

  /** A response was asked for and not recorded before the process went down. */
  predicate LeftOpen(v: View) {
    || v.benchmarkPending
    || (exists i :: 0 <= i < |v.marks.slots| && v.marks.slots[i].phase == Requested)
    || exists k :: k in v.ledger.slots && v.ledger.slots[k].phase == L.Requested
  }

  lemma OpenIsPending(v: View)
    ensures LeftOpen(v) <==> v.benchmarkPending || AnyRequested(v.marks.slots) || LedgerRequested(v.ledger)
  {
  }

  /** The phase a bound campaign goes to: stopped for good beyond half the peak, ended at the end, suspended by a proof
      gap or by a response left open at a recovery, and otherwise what it was. */
  function PhaseAfter(phase: CampaignPhase, drawdown: real, v: View, now: int, recovering: bool): CampaignPhase {
    if phase == Invalid || phase == Ended then phase
    else if drawdown > 0.5 || phase == Stopped then (if phase == Registered then Registered else Stopped)
    else if now >= v.ledger.manifest.endAt then (if phase == Registered then Registered else Ended)
    else if phase == LocalObserving && (Exceeded(v, now) || (recovering && LeftOpen(v))) then Suspended
    else phase
  }

  /** Why it went there. */
  function ReasonAfter(phase: CampaignPhase, drawdown: real, v: View, now: int): string {
    if drawdown > 0.5 then "SAMPLED_DRAWDOWN_EXCEEDED"
    else if now >= v.ledger.manifest.endAt then "PERIOD_ENDED"
    else if ProofGapExceeded(v.marks, v.ledger.manifest.startAt, v.ledger.manifest.endAt, now) then "MARK_PROOF_GAP_EXCEEDED"
    else if ProofGapExceeded(v.benchmarkMarks, v.ledger.manifest.startAt, v.ledger.manifest.endAt, now) then "BENCHMARK_MARK_PROOF_GAP_EXCEEDED"
    else "RESPONSE_UNOBSERVED_AT_RECOVERY"
  }

  /** The evaluation of a bound campaign with sound accounts: the drawdown is brought up to that of the series, and
      phase and reason follow from it. */
  lemma PhasesExactly(st: CampaignState, v: View, now: int, recovering: bool)
    requires Evaluate(st, v, now, recovering).Ok? && st.boundAt.Some? && st.maxDrawdown >= 0.0
    requires ValidPortfolio(v.ledger.portfolios.btc) && ValidPortfolio(v.ledger.portfolios.eth) && NonNegative(Series(v.marks, v.events, now))
    ensures var n, drawdown := Evaluate(st, v, now, recovering).value, Max(st.maxDrawdown, MaxDrawdown(Series(v.marks, v.events, now), 20_000.0));
            && n.maxDrawdown == drawdown && n.lastEvaluatedAt == now && n.boundAt == st.boundAt
            && n.phase == PhaseAfter(st.phase, drawdown, v, now, recovering)
            && (n.phase == st.phase && n.phase != Registered && !(drawdown > 0.5) ==> n.reasons == st.reasons)
            && (n.phase != st.phase ==> ReasonAfter(st.phase, drawdown, v, now) in n.reasons)
  {
    hide Series;
    hide MaxDrawdown;
    hide Worst;
    hide ProofGapExceeded;
    hide ReportScope;
    OpenIsPending(v);
    hide LeftOpen;
    WorstIsMax(Series(v.marks, v.events, now), START_PEAK, st.maxDrawdown);
  }

  /** The equity of a mark that counts by now. */
  predicate Counts(o: Option<Observation>, now: int, x: Point) {
    o.Some? && o.value.asOf <= now && o.value.consolidated.Equity? && o.value.consolidated.equity == x.equity && x.at == o.value.asOf
  }

  predicate Sampled(marks: seq<MarkSlot>, events: seq<EventSlot>, now: int, x: Point) {
    || (exists i :: 0 <= i < |marks| && Counts(marks[i].observation, now, x))
    || exists j :: 0 <= j < |events| && Counts(events[j].observation, now, x)
  }

  /** The drawdown is taken over exactly the hourly and the event marks that are priced and not in the future. */
  lemma SeriesIsTheMarks(marks: MarkState, events: seq<EventSlot>, now: int, x: Point)
    ensures x in Series(marks, Observations(events), now) <==> Sampled(marks.slots, events, now, x)
  {
    HourlyPointsAre(marks.slots, now, x);
    EventPointsAre(events, now, x);
    SortKeepsPoints(HourlyPoints(marks.slots, now) + EventPoints(Observations(events), now), x);
  }

  lemma {:induction false} HourlyPointsAre(slots: seq<MarkSlot>, now: int, x: Point)
    ensures x in HourlyPoints(slots, now) <==> exists i :: 0 <= i < |slots| && Counts(slots[i].observation, now, x)
  {
    if slots != [] {
      var n := |slots| - 1;
      HourlyPointsAre(slots[..n], now, x);
      assert forall i :: 0 <= i < n ==> slots[..n][i] == slots[i];
      assert x in PointOf(slots[n].observation, now) <==> Counts(slots[n].observation, now, x);
    }
  }

  lemma {:induction false} EventPointsAre(slots: seq<EventSlot>, now: int, x: Point)
    ensures x in EventPoints(Observations(slots), now) <==> exists i :: 0 <= i < |slots| && Counts(slots[i].observation, now, x)
  {
    if slots != [] {
      var n := |slots| - 1;
      EventPointsAre(slots[..n], now, x);
      assert forall i :: 0 <= i < n ==> slots[..n][i] == slots[i];
      var o := slots[n].observation;
      if o.Some? {
        assert Observations(slots)[..|Observations(slots)| - 1] == Observations(slots[..n]);
      } else {
        assert Observations(slots) == Observations(slots[..n]);
      }
      assert x in PointOf(o, now) <==> Counts(o, now, x);
    }
  }

  lemma {:induction false} SortKeepsPoints(points: seq<Point>, x: Point)
    ensures x in SortByTime(points) <==> x in points
  {
    if points != [] {
      SortKeepsPoints(points[1..], x);
      InsertAdds(points[0], SortByTime(points[1..]), x);
      assert points == [points[0]] + points[1..];
    }
  }

  lemma {:induction false} InsertAdds(p: Point, points: seq<Point>, x: Point)
    ensures x in Insert(p, points) <==> x == p || x in points
  {
    if points != [] {
      InsertAdds(p, points[1..], x);
      assert points == [points[0]] + points[1..];
    }
  }

  /** A breach of the accounts or of the marks invalidates a bound campaign; an unbound one is only dated. */
  lemma BreachesInvalidate(st: CampaignState, v: View, now: int, recovering: bool)
    requires Evaluate(st, v, now, recovering).Ok?
    ensures var n := Evaluate(st, v, now, recovering).value;
            && (st.boundAt.None? ==> n == st.(lastEvaluatedAt := now))
            && (st.boundAt.Some? && !(ValidPortfolio(v.ledger.portfolios.btc) && ValidPortfolio(v.ledger.portfolios.eth)) ==>
                  n.phase == Invalid && "ACCOUNTING_INVARIANT_BREACH" in n.reasons)
            && (st.boundAt.Some? && ValidPortfolio(v.ledger.portfolios.btc) && ValidPortfolio(v.ledger.portfolios.eth) ==>
                  NonNegative(Series(v.marks, v.events, now)) || (n.phase == Invalid && "MARK_INVARIANT_BREACH" in n.reasons))
  {
    hide Series;
    hide Decide;
    hide Worst;
  }

  /** A campaign begins once, with a verified clock, inside its period; it is stopped by the operator only while it
      observes or is suspended; checks and recoveries are always taken. */
  predicate CampaignAllowed(st: CampaignState, v: View, campaignId: string, commandId: string, kind: Kind, now: int) {
    var m := v.ledger.manifest;
    && campaignId == m.campaignId && Identifier(commandId) && Timestamp(now)
    && now >= st.lastEvaluatedAt && now >= v.ledger.lastRecordedAt && now >= v.marks.lastRecordedAt
    && match kind
       case BeginLocalSimulation => st.boundAt.None? && m.clockVerified && m.startAt <= now < m.endAt
       case StopLocal => st.boundAt.Some? && (st.phase == LocalObserving || st.phase == Suspended)
       case _ => true
  }

  /** What is evaluated: the campaign as it is, just begun, or stopped. */
  function Prepared(st: CampaignState, kind: Kind, now: int): CampaignState {
    match kind
    case BeginLocalSimulation => st.(boundAt := Some(now), phase := if st.phase == Registered then LocalObserving else st.phase)
    case StopLocal =>
      st.(phase := Stopped, reasons := if "LOCAL_OPERATOR_STOP" in st.reasons then st.reasons else st.reasons + ["LOCAL_OPERATOR_STOP"])
    case _ => st
  }

  lemma CampaignCommandsExactly(st: CampaignState, v: View, campaignId: string, commandId: string, kind: Kind, now: int)
    ensures ApplyCampaign(st, v, campaignId, commandId, kind, now).Ok?
            <==> CampaignAllowed(st, v, campaignId, commandId, kind, now) && Evaluate(Prepared(st, kind, now), v, now, kind == RecoverLocal).Ok?
    ensures CampaignAllowed(st, v, campaignId, commandId, kind, now) ==>
              ApplyCampaign(st, v, campaignId, commandId, kind, now) == Evaluate(Prepared(st, kind, now), v, now, kind == RecoverLocal)
  {
    hide Identifier;
    hide Evaluate;
    assert kind == StopLocal && CampaignAllowed(st, v, campaignId, commandId, kind, now) ==>
             Transition(st, Stop, Some("LOCAL_OPERATOR_STOP")) == Prepared(st, kind, now);
    assert kind == BeginLocalSimulation ==> Transition(st, Begin, None).(boundAt := Some(now)) == Prepared(st, kind, now);
  }

  // ---- What the runner lets the ledger do

  /** The price of a fill: the depth of the book recorded for the slot, for the quantity and side of its intent. */
  ghost predicate PricedNow(s: Projection, c: L.Command, at: int)
    requires L.IsFill(c.event)
  {
    && c.key in s.ledger.slots && s.ledger.slots[c.key].phase == L.Quoted && s.ledger.slots[c.key].intent.Some? && IsPriced(s, c.key, at)
    && var i, vwap := s.ledger.slots[c.key].intent.value, PlanShadowPricing(s, c.key, at).value.vwap;
       && c.event.outcome.price == vwap * (if i.side == Buy then 1.0002 else 0.9998)
       && c.event.outcome.fee == c.event.outcome.price * i.quantity * 0.006
  }

  predicate IsPriced(s: Projection, key: L.Key, at: int) {
    PlanShadowPricing(s, key, at).Ok? && PlanShadowPricing(s, key, at).value.Priced?
  }

  predicate StillFresh(s: Projection, key: L.Key, at: int) {
    && key in s.books && s.books[key].Some? && Known(s.books[key].value.sourceObservedAt)
    && 0 <= at - s.books[key].value.sourceObservedAt.value <= 5_000 && at <= key.close + 7_200_000 && at < s.ledger.manifest.endAt
  }

  /** Intents, quote requests and fills go through only while the campaign observes and no mark blocks; a fill moreover
      only at the price and fee of the recorded book, still fresh when it is committed; everything else is the ledger's. */
  lemma LedgerStepsExactly(s: Projection, c: L.Command, at: int)
    requires Timestamp(at)
    ensures LedgerStep(s, c, at).Ok? <==>
              && L.Apply(s.ledger, c, at).Ok?
              && (c.event.MakeIntent? || c.event.RequestQuote? || L.IsFill(c.event) ==>
                    Safety(s, at, false).Ok? && Safety(s, at, false).value.phase == LocalObserving && !Blocked(s.events))
              && (L.IsFill(c.event) ==> PricedNow(s, c, at) && StillFresh(s, c.key, at))
    ensures LedgerStep(s, c, at).Ok? ==>
              var n := LedgerStep(s, c, at).value;
              && n.ledger == L.Apply(s.ledger, c, at).value && n.lastAt == at
              && n.books == (if c.event.ObserveQuote? then s.books[c.key := c.event.book]
                             else if c.event.Terminate? then s.books - {c.key} else s.books)
  {
    hide Safety;
    hide L.Apply;
    hide Blocked;
    PricingNeedsTheQuote(s, c.key, at);
    hide PlanShadowPricing;
  }

  lemma PricingNeedsTheQuote(s: Projection, key: L.Key, at: int)
    ensures PlanShadowPricing(s, key, at).Ok? <==>
              key in s.ledger.slots && s.ledger.slots[key].phase == L.Quoted && s.ledger.slots[key].intent.Some?
  {
    hide PlanPricing;
  }

  // ---- What the runner lets the marks do

  /** The runner takes a mark command exactly when both mark states do: a mark that was just taken is inside its hour
      and its books are still fresh, so the clock check before the commit refuses nothing. */
  lemma MarkStepsExactly(s: Projection, c: MarkCommand, at: int)
    ensures var joint := J.ApplyJoint(s.marks, s.benchmarkMarks, s.ledger, s.benchmarks, c, at);
            && (MarkStep(s, c, at).Ok? <==> joint.Ok?)
            && (joint.Ok? ==>
                  MarkStep(s, c, at).value == s.(lastAt := at, marks := joint.value.state, benchmarkMarks := joint.value.benchmarkState))
  {
    hide ApplyMark;
    hide Stale;
    var joint := J.ApplyJoint(s.marks, s.benchmarkMarks, s.ledger, s.benchmarks, c, at);
    if joint.Ok? {
      var sequences := J.BenchmarkSequences(s.benchmarkMarks, s.ledger, s.benchmarks);
      var marks, ledger := s.benchmarkMarks.(lastSequences := sequences), J.BenchmarkLedger(s.benchmarkMarks, s.ledger, s.benchmarks);
      JustTaken(s.marks, s.ledger, c, at);
      JustTaken(marks, ledger, c, at);
      var bh := ApplyMark(marks, ledger, c, at).value;
      MaskingStaysFresh(s.benchmarks, bh.slots, c, s.ledger.manifest.endAt, at);
    }
  }

  lemma JustTaken(st: MarkState, ledger: L.State, c: MarkCommand, at: int)
    requires ApplyMark(st, ledger, c, at).Ok?
    ensures CommitClockRefusal(c, ObservationAt(ApplyMark(st, ledger, c, at).value, c.scheduledAt), ledger.manifest.endAt, at, at).None?
  {
    hide Identifier;
    hide Sha256;
    hide MarkOf;
    hide Stale;
    hide Put;
    var slot := NextSlot(st, ledger, c, at).value.0;
    PutIsFound(st.slots, slot);
    MarkRules.SlotAtIsThere(st.slots, c.scheduledAt);
    if c.event.ObserveMark? {
      var requested := SlotAt(st.slots, c.scheduledAt).value.requestedAt.value;
      JustValued(Btc, st, ledger, requested, c.event.books.btc, at);
      JustValued(Eth, st, ledger, requested, c.event.books.eth, at);
    }
  }

  lemma {:induction false} PutIsFound(slots: seq<MarkSlot>, slot: MarkSlot)
    ensures SlotAt(Put(slots, slot), slot.scheduledAt) == Some(slot)
  {
    var last := |slots| - 1;
    if last >= 0 && slots[last].scheduledAt != slot.scheduledAt && IndexOf(slots, slot.scheduledAt).Some? {
      PutIsFound(slots[..last], slot);
      assert Put(slots, slot)[..last] == Put(slots[..last], slot);
    }
  }

  lemma {:induction false} WrittenIsFound(slots: seq<EventSlot>, slot: EventSlot)
    requires Find(slots, slot.id).Some?
    ensures var i := Find(slots, slot.id).value; Find(slots[i := slot], slot.id) == Some(i)
  {
    var last := |slots| - 1;
    if slots[last].id != slot.id {
      WrittenIsFound(slots[..last], slot);
      var i := Find(slots, slot.id).value;
      assert slots[i := slot][..last] == slots[..last][i := slot];
    }
  }

  lemma JustValued(p: Product, st: MarkState, ledger: L.State, requestedAt: int, item: Option<BookItem>, at: int)
    ensures !Stale(MarkOf(p, st, ledger, requestedAt, item, at), item, at)
  {
    hide DepthBook;
    hide ValidMarkScope;
    hide Consumed;
  }

  lemma MaskingStaysFresh(entries: B.Entries, slots: seq<MarkSlot>, c: MarkCommand, endAt: int, at: int)
    requires SlotAt(slots, c.scheduledAt).Some?
    requires CommitClockRefusal(c, SlotAt(slots, c.scheduledAt).value.observation, endAt, at, at).None?
    ensures var masked := J.Masked(entries, SlotAt(slots, c.scheduledAt).value, at);
            && SlotAt(Put(slots, masked), c.scheduledAt) == Some(masked)
            && CommitClockRefusal(c, masked.observation, endAt, at, at).None?
  {
    hide Put;
    MarkRules.SlotAtIsThere(slots, c.scheduledAt);
    PutIsFound(slots, J.Masked(entries, SlotAt(slots, c.scheduledAt).value, at));
  }

  /** And so with the event marks. */
  lemma EventStepsExactly(s: Projection, c: EventCommand, at: int)
    ensures var applied := ApplyEventMark(Scene(s.events, s.marks, s.benchmarkMarks, s.ledger, s.benchmarks), true, s.hasFills, c, at);
            && (EventStepOf(s, c, at).Ok? <==> applied.Ok?)
            && (applied.Ok? ==> EventStepOf(s, c, at).value == s.(lastAt := at, events := applied.value))
  {
    hide Observe;
    hide AnyStale;
    hide Identifier;
    hide Sha256;
    hide SequencesAfter;
    var scene := Scene(s.events, s.marks, s.benchmarkMarks, s.ledger, s.benchmarks);
    var applied := ApplyEventMark(scene, true, s.hasFills, c, at);
    if applied.Ok? && !c.event.RegisterEventMarks? {
      var i := Find(s.events.slots, c.id).value;
      var slot := applied.value.slots[i];
      WrittenIsFound(s.events.slots, slot);
      if c.event.ObserveEventMark? {
        var asOf := if slot.id.FillMark? then at else s.ledger.manifest.endAt;
        ObservedIsFresh(scene, false, slot.requestedAt.value, c.event.books, asOf, at);
        ObservedIsFresh(scene, true, slot.requestedAt.value, c.event.books, asOf, at);
      }
    }
  }

  lemma ObservedIsFresh(scene: Scene, benchmark: bool, requestedAt: int, books: PerProduct<Option<BookItem>>, asOf: int, at: int)
    ensures !AnyStale(Some(Observe(scene, benchmark, requestedAt, books, asOf, at)), Some(books), at)
  {
    hide Stale;
    hide EventMarkOf;
    EventMarkIsFresh(scene, benchmark, Btc, requestedAt, books.btc, asOf, at);
    EventMarkIsFresh(scene, benchmark, Eth, requestedAt, books.eth, asOf, at);
  }

  lemma EventMarkIsFresh(scene: Scene, benchmark: bool, p: Product, requestedAt: int, item: Option<BookItem>, asOf: int, at: int)
    ensures !Stale(EventMarkOf(scene, benchmark, p, requestedAt, item, asOf, at), item, at)
  {
    hide ValueLiquidation;
  }

  // ---- Whole steps

  /** An accepted command is what its own part makes of it, and the campaign is evaluated on what results. */
  lemma CommandsReachTheirPart(s: Projection, input: Command, at: int, sequence: int)
    requires Step(s, input, at, sequence).Ok?
    ensures var n := Step(s, input, at, sequence).value;
            match input
            case OnLedger(c) => L.Apply(s.ledger, c, at) == Ok(n.ledger) && Evaluate(s.campaign, ViewOf(n), at, false) == Ok(n.campaign)
            case OnBenchmark(c) =>
              && Safety(s, at, false).Ok?
              && B.ApplyEntry(s.benchmarks, s.ledger, Some(s.profile), Safety(s, at, false).value.phase, c, at, false) == Ok(n.benchmarks)
              && Evaluate(s.campaign, ViewOf(n), at, false) == Ok(n.campaign)
            case OnMark(c) =>
              && J.ApplyJoint(s.marks, s.benchmarkMarks, s.ledger, s.benchmarks, c, at) == Ok(J.Joint(n.marks, n.benchmarkMarks))
              && Evaluate(s.campaign, ViewOf(n), at, false) == Ok(n.campaign)
            case OnEvent(c) =>
              && ApplyEventMark(Scene(s.events, s.marks, s.benchmarkMarks, s.ledger, s.benchmarks), true, s.hasFills, c, at) == Ok(n.events)
              && Evaluate(s.campaign, ViewOf(n), at, false) == Ok(n.campaign)
            case OnCampaign(kind, campaignId, commandId) =>
              && ApplyCampaign(s.campaign, ViewOf(s), campaignId, commandId, kind, at).Ok?
              && Evaluate(ApplyCampaign(s.campaign, ViewOf(s), campaignId, commandId, kind, at).value, ViewOf(n), at, false) == Ok(n.campaign)
  {
    hide Evaluate;
    hide ApplyCampaign;
    hide L.Apply;
    hide B.ApplyEntry;
    hide J.ApplyJoint;
    hide ApplyEventMark;
    hide LedgerGate;
    hide FillClockRefusal;
    hide MarkStep;
    hide EventStepOf;
    hide ExpectAfterFill;
    hide ViewOf;
    var n := Step(s, input, at, sequence).value;
    ViewsIgnoreTheCampaign(n, s.campaign);
    match input
    case OnMark(c) => MarkStepsExactly(s, c, at);
    case OnEvent(c) => EventStepsExactly(s, c, at);
    case OnCampaign(kind, campaignId, commandId) =>
      ViewsIgnoreTheCampaign(n, ApplyCampaign(s.campaign, ViewOf(s), campaignId, commandId, kind, at).value);
    case _ =>
  }

  lemma ViewsIgnoreTheCampaign(s: Projection, campaign: CampaignState)
    ensures ViewOf(s.(campaign := campaign)) == ViewOf(s)
  {
  }

  /** What a recovery finds left open: an answer asked for and not recorded, by the ledger, for an hour, for a benchmark
      leg or for an event. */
  lemma LeftOpenAnywhere(s: Projection)
    ensures LeftOpen(ViewOf(s)) <==>
              || (exists k :: k in s.ledger.slots && s.ledger.slots[k].phase == L.Requested)
              || (exists i :: 0 <= i < |s.marks.slots| && s.marks.slots[i].phase == Requested)
              || (exists p: Product :: s.benchmarks.products.At(p).Some? && s.benchmarks.products.At(p).value.phase == B.Requested)
              || exists j :: 0 <= j < |s.events.slots| && s.events.slots[j].phase == Requested
  {
    if p: Product :| s.benchmarks.products.At(p).Some? && s.benchmarks.products.At(p).value.phase == B.Requested {
      assert p == Btc || p == Eth;
    }
  }

  /** A gap in the request log suspends a campaign that still observes after its evaluation, says so, and touches
      nothing else. */
  lemma GapsSuspend(s: Projection, at: int, reason: string)
    ensures SuspendForRequestGap(s, at, reason).Ok? <==> Safety(s, at, true).Ok?
    ensures Safety(s, at, true).Ok? ==>
              var n, before := SuspendForRequestGap(s, at, reason).value, Safety(s, at, true).value;
              && n == s.(lastAt := at, campaign := n.campaign)
              && (before.phase == LocalObserving ==>
                    n.campaign.phase == Suspended && n.campaign.reasons == before.reasons + [reason]
                    && n.campaign == before.(phase := Suspended, reasons := n.campaign.reasons))
              && (before.phase != LocalObserving ==> n.campaign == before)
  {
    hide Safety;
  }
}
