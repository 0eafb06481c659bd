/** What every reachable projection records about legs, fill marks and their requests. */
module MarkRecords {
  import opened Basics
  import opened Evidence
  import opened Marks
  import opened EventMarks
  import opened Campaign
  import opened Drawdown
  import opened Shadow
  import opened ShadowRuns
  import L = Ledger
  import B = Benchmark
  import J = JointMarks

  ghost predicate ProfileKept(s: Projection) {
    && Identifier(s.ledger.manifest.sourceProfileId) && s.profile.sourceProfileId == s.ledger.manifest.sourceProfileId
    && Sha256(s.profile.profileSha256)
    && 0 <= s.profile.quantityDecimals.btc <= 12 && 0 <= s.profile.quantityDecimals.eth <= 12
  }

  /** A leg that was requested knows when; a quoted one holds a book already received. */
  ghost predicate LegKept(leg: B.Leg, now: int) {
    && (leg.phase == B.Requested || leg.phase == B.Quoted ==> leg.requestedAt.Some?)
    && (leg.phase == B.Quoted ==>
        leg.book.Some? && Known(leg.book.value.receivedAt) && leg.book.value.receivedAt.value <= now)
  }

  ghost predicate LegsKept(s: Projection) {
    forall p: Product :: s.benchmarks.products.At(p).Some? && LegKept(s.benchmarks.products.At(p).value, s.lastAt)
  }

  /** A snapshot taken earlier: no version is ahead of the ledger's, and an equal version means equal balances. */
  ghost predicate Earlier(snapshot: PerProduct<L.Portfolio>, now: PerProduct<L.Portfolio>) {
    forall p: Product ::
      && snapshot.At(p).version <= now.At(p).version
      && (snapshot.At(p).version == now.At(p).version ==> snapshot.At(p) == now.At(p))
  }

  ghost predicate FillSlotKept(slot: EventSlot, s: Projection) {
    && slot.expectedAt <= s.lastAt
    && s.campaign.boundAt.Some?
    && (slot.phase == Requested ==>
        && slot.requestedAt.Some? && slot.portfolios.Some? && slot.benchmarks.Some?
        && s.ledger.manifest.startAt <= slot.requestedAt.value <= s.lastAt
        && slot.benchmarks.value.products == s.benchmarks.products
        && LegClosed(s.benchmarks, Btc) && LegClosed(s.benchmarks, Eth)
        && Earlier(slot.portfolios.value, s.ledger.portfolios))
  }

  ghost predicate SlotsKept(s: Projection) {
    forall i :: 0 <= i < |s.events.slots| && s.events.slots[i].id.FillMark? ==> FillSlotKept(s.events.slots[i], s)
  }

  /** Bound campaigns have a verified clock; one that observes is what its own evaluation says. */
  ghost predicate CampaignKept(s: Projection) {
    && (s.campaign.boundAt.Some? ==> s.ledger.manifest.clockVerified)
    && (s.campaign.phase == LocalObserving ==> s.campaign.boundAt.Some? && Safety(s, s.lastAt, false) == Ok(s.campaign))
  }

  ghost predicate Kept(s: Projection) {
    Sound(s) && ProfileKept(s) && LegsKept(s) && SlotsKept(s) && CampaignKept(s)
  }

  // ---- The start

  lemma StartIsKept(s: Projection)
    requires Start(s)
    ensures Kept(s)
  {
    hide Safety;
    hide Sound;
    StartIsSound(s);
    var m, profile, at :| Shadow.Initialize(m, profile, at) == Ok(s);
  }

  // ---- The campaign

  lemma EvaluationKeepsBound(c: CampaignState, v: View, at: int, recovering: bool)
    requires Evaluate(c, v, at, recovering).Ok?
    ensures Evaluate(c, v, at, recovering).value.boundAt == c.boundAt
    ensures Evaluate(c, v, at, recovering).value.phase == LocalObserving ==> c.phase == LocalObserving
  {
    hide Series;
    hide ProofGapExceeded;
    hide ReportScope;
    hide AnyRequested;
    hide LedgerRequested;
    hide Worst;
  }

  /** What the evaluation reads of a projection, the recovery flag aside. */
  ghost predicate SameView(s: Projection, t: Projection) {
    && s.ledger == t.ledger && s.marks == t.marks && s.benchmarkMarks == t.benchmarkMarks
    && Observations(s.events.slots) == Observations(t.events.slots)
  }

  lemma EvaluationOfSameView(s: Projection, t: Projection, c: CampaignState, at: int)
    requires SameView(s, t)
    ensures Evaluate(c, ViewOf(s), at, false) == Evaluate(c, ViewOf(t), at, false)
  {
    hide Series;
    hide ProofGapExceeded;
    hide ReportScope;
    hide AnyRequested;
    hide LedgerRequested;
    hide Worst;
    hide Pending;
  }

  /** Evaluating twice at one instant changes nothing while the campaign observes. */
  lemma EvaluationSettles(c: CampaignState, v: View, at: int)
    requires Evaluate(c, v, at, false).Ok? && Evaluate(c, v, at, false).value.phase == LocalObserving
    requires c.boundAt.Some? && c.maxDrawdown >= 0.0
    ensures var r := Evaluate(c, v, at, false).value; Evaluate(r, v, at, false) == Ok(r)
  {
    hide Series;
    hide ProofGapExceeded;
    hide ReportScope;
    hide AnyRequested;
    hide LedgerRequested;
    hide Worst;
    var series := Series(v.marks, v.events, at);
    if NonNegative(series) {
      WorstIsMax(series, START_PEAK, c.maxDrawdown);
      WorstIsMax(series, START_PEAK, Worst(series, START_PEAK, c.maxDrawdown));
    }
  }

  lemma TouchedBinds(s: Projection, input: Command, at: int)
    requires Touched(s, input, at).Ok?
    ensures var next := Touched(s, input, at).value;
            next.campaign.boundAt.Some? ==> s.campaign.boundAt.Some? || s.ledger.manifest.clockVerified
  {
    hide LedgerStep;
    hide BenchmarkStep;
    hide MarkStep;
    hide EventStepOf;
    hide Evaluate;
    hide Identifier;
    if input.OnCampaign? {
      BindingNeedsTheClock(s, input, at);
    } else {
      CampaignUntouched(s, input, at);
    }
  }

  lemma BindingNeedsTheClock(s: Projection, input: Command, at: int)
    requires input.OnCampaign? && Touched(s, input, at).Ok?
    ensures var next := Touched(s, input, at).value;
            next.campaign.boundAt.Some? ==> s.campaign.boundAt.Some? || s.ledger.manifest.clockVerified
  {
    hide Evaluate;
    hide Identifier;
    hide Pending;
    hide Observations;
    var v, c := ViewOf(s), s.campaign;
    if Evaluate(c, v, at, false).Ok? { EvaluationKeepsBound(c, v, at, false); }
    if Evaluate(c, v, at, true).Ok? { EvaluationKeepsBound(c, v, at, true); }
    var stopped := Transition(c, Stop, Some("LOCAL_OPERATOR_STOP"));
    if Evaluate(stopped, v, at, false).Ok? { EvaluationKeepsBound(stopped, v, at, false); }
  }

  /** The projection before the final evaluation of an accepted step. */
  function BeforeEvaluation(s: Projection, input: Command, at: int, sequence: int): Projection
    requires Step(s, input, at, sequence).Ok?
  {
    var next := Touched(s, input, at).value;
    next.(events := if Filled(next, input) then ExpectAfterFill(next.events, sequence, at).value else next.events,
          hasFills := s.hasFills || Filled(next, input))
  }

  lemma StepEvaluates(s: Projection, input: Command, at: int, sequence: int)
    requires Sound(s) && Step(s, input, at, sequence).Ok?
    ensures var marked, n := BeforeEvaluation(s, input, at, sequence), Step(s, input, at, sequence).value;
            && s.lastAt <= at <= MAX_SAFE
            && Marked(s, input, at, sequence, marked)
            && Safety(marked, at, false) == Ok(n.campaign) && n == marked.(campaign := n.campaign)
            && n.lastAt == at
  {
    hide Touched;
    hide Filled;
    hide Safety;
    hide Sound;
    hide ExpectAfterFill;
    var marked := BeforeEvaluation(s, input, at, sequence);
    assert Marked(s, input, at, sequence, marked);
    TouchedClock(s, input, at);
  }

  lemma TouchedClock(s: Projection, input: Command, at: int)
    requires Touched(s, input, at).Ok?
    ensures Touched(s, input, at).value.lastAt == at
  {
    hide Safety;
    hide LedgerGate;
    hide L.Apply;
    hide B.ApplyEntry;
    hide J.ApplyJoint;
    hide ApplyEventMark;
    hide ApplyCampaign;
    hide FillClockRefusal;
    hide CommitClockRefusal;
    hide EventClockRefusal;
  }

  lemma StepKeepsCampaign(s: Projection, input: Command, at: int, sequence: int)
    requires Kept(s) && Step(s, input, at, sequence).Ok?
    ensures var n := Step(s, input, at, sequence).value;
            && Sound(n) && CampaignKept(n) && n.ledger.manifest == s.ledger.manifest && n.profile == s.profile
            && (s.campaign.boundAt.Some? ==> n.campaign.boundAt == s.campaign.boundAt)
            && (s.campaign.boundAt.Some? && n.campaign.phase == LocalObserving ==> s.campaign.phase == LocalObserving)
  {
    hide Touched;
    hide Filled;
    hide Parts;
    hide SampledDrawdown;
    hide Evaluate;
    hide Pending;
    hide Observations;
    hide Step;
    hide ProfileKept;
    hide LegsKept;
    hide SlotsKept;
    hide Advances;
    hide Marked;
    var n, marked := Step(s, input, at, sequence).value, BeforeEvaluation(s, input, at, sequence);
    StepEvaluates(s, input, at, sequence);
    StepTouchesOne(s, input, at, sequence);
    StepKeepsSound(s, input, at, sequence);
    MarkedCarries(s, input, at, sequence, marked);
    EvaluationKeepsBound(marked.campaign, ViewOf(marked), at, false);
    TouchedBinds(s, input, at);
    SameCampaign(s, input, at, sequence);
    if n.campaign.phase == LocalObserving {
      EvaluationSettles(marked.campaign, ViewOf(marked), at);
      EvaluationOfSameView(n, marked, n.campaign, at);
    }
  }

  lemma SameCampaign(s: Projection, input: Command, at: int, sequence: int)
    requires Step(s, input, at, sequence).Ok?
    ensures BeforeEvaluation(s, input, at, sequence).campaign == Touched(s, input, at).value.campaign
  {
    hide Touched;
    hide Filled;
    hide Safety;
    hide ExpectAfterFill;
  }

  // ---- What the other commands do to the records

  /** A command of one leg is applied by the benchmark under the phase of the evaluation. */
  lemma BenchmarkCommand(s: Projection, c: B.EntryCommand, at: int, sequence: int)
    requires Sound(s) && Step(s, OnBenchmark(c), at, sequence).Ok?
    ensures exists phase ::
              && B.ApplyEntry(s.benchmarks, s.ledger, Some(s.profile), phase, c, at, false)
                 == Ok(Step(s, OnBenchmark(c), at, sequence).value.benchmarks)
              && (phase == LocalObserving ==> s.campaign.phase == LocalObserving)
  {
    hide Sound;
    hide B.ApplyEntry;
    hide Evaluate;
    hide ExpectAfterFill;
    hide ViewOf;
    EvaluationKeepsBound(s.campaign, ViewOf(s), at, false);
  }

  lemma LegStepKept(leg: B.Leg, m: L.Manifest, profile: Option<B.Profile>, phase: CampaignPhase, c: B.EntryCommand, now: int, at: int)
    requires LegKept(leg, now) && now <= at && B.OnLeg(leg, m, profile, phase, c, at).Ok?
    ensures LegKept(B.OnLeg(leg, m, profile, phase, c, at).value, at)
  {
    hide ExecutionRefusal;
    hide Sha256;
    hide B.SizeOfQuote;
    hide PlanPricing;
    hide B.Remainder;
  }

  lemma EntriesStepKept(st: B.Entries, ledger: L.State, profile: Option<B.Profile>, phase: CampaignPhase, c: B.EntryCommand, now: int, at: int)
    requires forall p: Product :: st.products.At(p).Some? && LegKept(st.products.At(p).value, now)
    requires now <= at && B.ApplyEntry(st, ledger, profile, phase, c, at, false).Ok?
    ensures var next := B.ApplyEntry(st, ledger, profile, phase, c, at, false).value;
            && (forall p: Product :: next.products.At(p).Some? && LegKept(next.products.At(p).value, at))
            && (forall p: Product :: LegClosed(st, p) ==> next.products.At(p) == st.products.At(p))
            && !LegClosed(st, c.product) && !c.event.ExpectBenchmark?
            && B.OnLeg(st.products.At(c.product).value, ledger.manifest, profile, phase, c, at) == Ok(next.products.At(c.product).value)
            && (forall p: Product :: p != c.product ==> next.products.At(p) == st.products.At(p))
  {
    hide B.OnLeg;
    hide Identifier;
    LegStepKept(st.products.At(c.product).value, ledger.manifest, profile, phase, c, now, at);
  }

  lemma StepKeepsLegs(s: Projection, input: Command, at: int, sequence: int)
    requires Kept(s) && Step(s, input, at, sequence).Ok?
    ensures var n := Step(s, input, at, sequence).value;
            && LegsKept(n)
            && (forall p: Product :: LegClosed(s.benchmarks, p) ==> n.benchmarks.products.At(p) == s.benchmarks.products.At(p))
  {
    hide Step;
    hide Sound;
    hide B.ApplyEntry;
    hide SlotsKept;
    hide CampaignKept;
    StepTouchesOne(s, input, at, sequence);
    if input.OnBenchmark? {
      BenchmarkCommand(s, input.entryCommand, at, sequence);
      var phase :| B.ApplyEntry(s.benchmarks, s.ledger, Some(s.profile), phase, input.entryCommand, at, false)
                   == Ok(Step(s, input, at, sequence).value.benchmarks);
      EntriesStepKept(s.benchmarks, s.ledger, Some(s.profile), phase, input.entryCommand, s.lastAt, at);
    }
  }

  /** Snapshots stay behind a ledger that moves on. */
  lemma StepKeepsEarlier(s: Projection, input: Command, at: int, sequence: int, snapshot: PerProduct<L.Portfolio>)
    requires Sound(s) && Step(s, input, at, sequence).Ok? && Earlier(snapshot, s.ledger.portfolios)
    ensures Earlier(snapshot, Step(s, input, at, sequence).value.ledger.portfolios)
    ensures snapshot == Step(s, input, at, sequence).value.ledger.portfolios ==> snapshot == s.ledger.portfolios
  {
    hide Step;
    hide Sound;
    StepTouchesOne(s, input, at, sequence);
    if input.OnLedger? {
      LedgerCommand(s, input.ledgerCommand, at, sequence);
      LedgerIsSound(s);
      LedgerVersions(s.ledger, input.ledgerCommand, at);
    }
    var now := Step(s, input, at, sequence).value.ledger.portfolios;
    if snapshot == now {
      assert snapshot.At(Btc) == s.ledger.portfolios.At(Btc) && snapshot.At(Eth) == s.ledger.portfolios.At(Eth);
    }
  }

  lemma LedgerCommand(s: Projection, c: L.Command, at: int, sequence: int)
    requires Step(s, OnLedger(c), at, sequence).Ok?
    ensures L.Apply(s.ledger, c, at) == Ok(Step(s, OnLedger(c), at, sequence).value.ledger)
    ensures Economic(c.event) ==> Safety(s, at, false).Ok? && Safety(s, at, false).value.phase == LocalObserving
  {
    hide L.Apply;
    hide Safety;
    hide ExpectAfterFill;
    hide FillClockRefusal;
    hide PlanShadowPricing;
    hide Blocked;
  }

  lemma LedgerIsSound(s: Projection)
    requires Sound(s)
    ensures L.Invariant(s.ledger)
  {
  }

  lemma LedgerVersions(ledger: L.State, c: L.Command, at: int)
    requires L.Invariant(ledger) && L.Apply(ledger, c, at).Ok?
    ensures Earlier(ledger.portfolios, L.Apply(ledger, c, at).value.portfolios)
  {
    hide L.Apply;
    L.StepKeepsInvariant(ledger, c, at);
  }

  /** A fill needs a campaign that observes. */
  lemma FillsObserve(s: Projection, input: Command, at: int, sequence: int)
    requires Sound(s) && Step(s, input, at, sequence).Ok? && FillsNow(Step(s, input, at, sequence).value, input)
    requires forall p: Product :: s.benchmarks.products.At(p).Some?
    ensures s.campaign.phase == LocalObserving
  {
    hide Step;
    hide Sound;
    hide Evaluate;
    hide ViewOf;
    hide B.ApplyEntry;
    if input.OnLedger? {
      LedgerCommand(s, input.ledgerCommand, at, sequence);
      EvaluationKeepsBound(s.campaign, ViewOf(s), at, false);
    } else {
      var c := input.entryCommand;
      BenchmarkCommand(s, c, at, sequence);
      var phase :|
        && B.ApplyEntry(s.benchmarks, s.ledger, Some(s.profile), phase, c, at, false)
           == Ok(Step(s, input, at, sequence).value.benchmarks)
        && (phase == LocalObserving ==> s.campaign.phase == LocalObserving);
      EntriesAreSound(s);
      B.EntryStep(s.benchmarks, s.ledger, Some(s.profile), phase, c, at);
    }
  }

  lemma EntriesAreSound(s: Projection)
    requires Sound(s)
    ensures B.EntriesSound(s.benchmarks) && s.events.active
  {
  }

  // ---- What an event command does to its slot

  ghost predicate RequestedNow(a: EventSlot, b: EventSlot, s: Projection, at: int) {
    && a.phase == Expected && s.ledger.manifest.startAt <= at < s.ledger.manifest.endAt
    && (a.id.FillMark? ==> LegClosed(s.benchmarks, Btc) && LegClosed(s.benchmarks, Eth))
    && b == a.(phase := Requested, requestedAt := Some(at), portfolios := Some(s.ledger.portfolios), benchmarks := Some(s.benchmarks))
  }

  function SceneOf(s: Projection): Scene {
    Scene(s.events, s.marks, s.benchmarkMarks, s.ledger, s.benchmarks)
  }

  ghost predicate ObservedNow(a: EventSlot, b: EventSlot, s: Projection, books: PerProduct<Option<BookItem>>, at: int) {
    && b.id == a.id && a.phase == Requested && a.requestedAt.Some? && a.portfolios == Some(s.ledger.portfolios)
    && (a.id.FillMark? ==>
        && at < s.ledger.manifest.endAt
        && b == a.(phase := Observed,
                   observation := Some(Observe(SceneOf(s), false, a.requestedAt.value, books, at, at)),
                   benchmarkObservation := Some(Observe(SceneOf(s), true, a.requestedAt.value, books, at, at))))
  }

  lemma EventCommandChanges(s: Projection, c: EventCommand, at: int, sequence: int, i: nat)
    requires s.events.active && Step(s, OnEvent(c), at, sequence).Ok? && i < |s.events.slots|
    ensures var b := Step(s, OnEvent(c), at, sequence).value.events.slots;
            && |b| == |s.events.slots|
            && (|| b[i] == s.events.slots[i]
                || RequestedNow(s.events.slots[i], b[i], s, at)
                || (c.event.ObserveEventMark? && ObservedNow(s.events.slots[i], b[i], s, c.event.books, at)))
  {
    hide Safety;
    hide Observe;
    hide SequencesAfter;
    hide Identifier;
    hide Sha256;
    hide EventClockRefusal;
    hide Find;
    hide ExpectAfterFill;
  }

  lemma StepKeepsSlots(s: Projection, input: Command, at: int, sequence: int)
    requires Kept(s) && Step(s, input, at, sequence).Ok?
    ensures SlotsKept(Step(s, input, at, sequence).value)
  {
    hide Sound;
    hide Step;
    hide FillSlotKept;
    hide ProfileKept;
    hide CampaignKept;
    var n := Step(s, input, at, sequence).value;
    EntriesAreSound(s);
    StepTouchesOne(s, input, at, sequence);
    forall i | 0 <= i < |n.events.slots| && n.events.slots[i].id.FillMark?
      ensures FillSlotKept(n.events.slots[i], n)
    {
      SlotAfterStep(s, input, at, sequence, i);
      if i < |s.events.slots| && n.events.slots[i] == s.events.slots[i] {
        SameSlotKept(s, input, at, sequence, n.events.slots[i]);
      } else if i < |s.events.slots| {
        ChangedSlotKept(s, input, at, sequence, i);
      } else {
        NewSlotKept(s, input, at, sequence);
      }
    }
  }

  /** Where a slot of the next state comes from. */
  lemma SlotAfterStep(s: Projection, input: Command, at: int, sequence: int, i: nat)
    requires s.events.active && Step(s, input, at, sequence).Ok? && i < |Step(s, input, at, sequence).value.events.slots|
    ensures var a, n := s.events.slots, Step(s, input, at, sequence).value;
            if i < |a|
            then || n.events.slots[i] == a[i]
                 || (input.OnEvent? && (|| RequestedNow(a[i], n.events.slots[i], s, at)
                                        || (input.eventCommand.event.ObserveEventMark?
                                            && ObservedNow(a[i], n.events.slots[i], s, input.eventCommand.event.books, at))))
            else FillsNow(n, input) && n.events.slots[i] == EmptySlot(FillMark(sequence), at)
  {
    hide Step;
    hide RequestedNow;
    hide ObservedNow;
    hide FillsNow;
    StepTouchesOne(s, input, at, sequence);
    if input.OnEvent? && i < |s.events.slots| {
      EventCommandChanges(s, input.eventCommand, at, sequence, i);
    }
    EventsFillNothing(Step(s, input, at, sequence).value, input);
  }

  lemma EventsFillNothing(n: Projection, input: Command)
    ensures input.OnEvent? ==> !FillsNow(n, input)
  {
  }

  lemma SameSlotKept(s: Projection, input: Command, at: int, sequence: int, slot: EventSlot)
    requires Kept(s) && Step(s, input, at, sequence).Ok? && slot.id.FillMark? && slot in s.events.slots
    ensures FillSlotKept(slot, Step(s, input, at, sequence).value)
  {
    hide Sound;
    hide Step;
    hide Earlier;
    StepTouchesOne(s, input, at, sequence);
    StepKeepsCampaign(s, input, at, sequence);
    StepKeepsLegs(s, input, at, sequence);
    var n := Step(s, input, at, sequence).value;
    if slot.phase == Requested {
      StepKeepsEarlier(s, input, at, sequence, slot.portfolios.value);
      assert n.benchmarks.products.At(Btc) == s.benchmarks.products.At(Btc);
      assert n.benchmarks.products.At(Eth) == s.benchmarks.products.At(Eth);
    }
  }

  lemma ChangedSlotKept(s: Projection, input: Command, at: int, sequence: int, i: nat)
    requires Kept(s) && Step(s, input, at, sequence).Ok? && i < |s.events.slots|
    requires i < |Step(s, input, at, sequence).value.events.slots|
    requires var b := Step(s, input, at, sequence).value.events.slots[i];
             b.id.FillMark? && b != s.events.slots[i]
    ensures FillSlotKept(Step(s, input, at, sequence).value.events.slots[i], Step(s, input, at, sequence).value)
  {
    hide Sound;
    hide Step;
    hide Observe;
    EntriesAreSound(s);
    SlotAfterStep(s, input, at, sequence, i);
    StepTouchesOne(s, input, at, sequence);
    StepKeepsCampaign(s, input, at, sequence);
    assert FillSlotKept(s.events.slots[i], s);
  }

  lemma NewSlotKept(s: Projection, input: Command, at: int, sequence: int)
    requires Kept(s) && Step(s, input, at, sequence).Ok? && FillsNow(Step(s, input, at, sequence).value, input)
    ensures FillSlotKept(EmptySlot(FillMark(sequence), at), Step(s, input, at, sequence).value)
  {
    hide Sound;
    hide Step;
    hide FillsNow;
    FillsObserve(s, input, at, sequence);
    StepTouchesOne(s, input, at, sequence);
    StepKeepsCampaign(s, input, at, sequence);
  }

  // ---- Runs

  lemma InputKeepsKept(s: Projection, input: Input)
    requires Kept(s)
    ensures Kept(Run(s, [input]))
  {
    hide Sound;
    hide Step;
    hide SuspendForRequestGap;
    hide LegsKept;
    hide SlotsKept;
    hide CampaignKept;
    InputKeepsSound(s, input);
    assert [input][..0] == [] && Run(s, []) == s;
    if Attempt(s, input).Ok? {
      match input
      case Do(command, at, sequence) =>
        StepKeepsCampaign(s, command, at, sequence);
        StepKeepsLegs(s, command, at, sequence);
        StepKeepsSlots(s, command, at, sequence);
      case Gap(at, reason) =>
        GapIsKept(s, at, reason);
    }
  }

  lemma GapIsKept(s: Projection, at: int, reason: string)
    requires Kept(s) && SuspendForRequestGap(s, at, reason).Ok?
    ensures var n := SuspendForRequestGap(s, at, reason).value;
            && ProfileKept(n) && LegsKept(n) && SlotsKept(n) && CampaignKept(n)
            && n == s.(lastAt := at, campaign := n.campaign) && s.lastAt <= at && n.campaign.phase != LocalObserving
  {
    hide Sound;
    hide Evaluate;
    hide ViewOf;
    var n := SuspendForRequestGap(s, at, reason).value;
    EvaluationKeepsBound(s.campaign, ViewOf(s), at, true);
    GapKeepsSound(s, at, reason);
    GapClockOf(s, at);
    forall i | 0 <= i < |n.events.slots| && n.events.slots[i].id.FillMark? ensures FillSlotKept(n.events.slots[i], n) {
      assert FillSlotKept(s.events.slots[i], s);
    }
  }

  lemma GapClockOf(s: Projection, at: int)
    requires Sound(s) && Safety(s, at, true).Ok?
    ensures s.lastAt <= at
  {
    GapClock(s, at);
  }

  lemma {:induction false} EveryRunIsKept(s: Projection, inputs: seq<Input>)
    requires Start(s)
    ensures Kept(Run(s, inputs))
  {
    hide Kept;
    hide Run;
    if inputs == [] {
      StartIsKept(s);
      RunNothing(s);
    } else {
      var n := |inputs| - 1;
      EveryRunIsKept(s, inputs[..n]);
      assert inputs[..n + 1] == inputs;
      RunStep(s, inputs, n);
      InputKeepsKept(Run(s, inputs[..n]), inputs[n]);
    }
  }

  lemma RunNothing(s: Projection)
    ensures Run(s, []) == s
  {
  }
}
