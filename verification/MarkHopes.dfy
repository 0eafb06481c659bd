/** Which unobserved fill mark can still lift its block: whatever fails the condition never will. */
module MarkHopes {
  import opened Basics
  import opened Depth
  import opened Evidence
  import opened Marks
  import opened EventMarks
  import opened Shadow
  import opened ShadowRuns
  import opened MarkRecords
  import L = Ledger
  import B = Benchmark
  import J = JointMarks

  /** A quote that still buys a lot: it was asked for under this profile, its book funds a lot, and it may be
      used now for that quantity. */
  predicate Funded(leg: B.Leg, m: L.Manifest, profile: B.Profile, p: Product, at: int) {
    var sizing := B.SizeOfQuote(leg.book, profile.quantityDecimals.At(p));
    && leg.requestedAt.Some? && leg.profileSha256 == Some(profile.profileSha256) && sizing.Sized?
    && PlanPricing(B.EntryScope(m, p, leg.requestedAt.value), leg.book, Buy, sizing.quantity, at).Priced?
  }

  lemma FundedQuotesResolve(leg: B.Leg, m: L.Manifest, profile: B.Profile, p: Product, at: int)
    requires leg.phase == B.Quoted && leg.requestedAt.Some? && B.OpeningWindow(m, at)
    ensures Funded(leg, m, profile, p, at)
            <==> B.Resolve(leg, leg.requestedAt.value, m, Some(profile), LocalObserving, p, at).phase == B.Initialized
  {
    hide B.Resolve;
    hide B.SizeOfQuote;
    hide PlanPricing;
    hide B.Remainder;
    B.ResolutionSpendsTheBudget(leg, leg.requestedAt.value, m, Some(profile), LocalObserving, p, at);
  }

  /** A leg already bought, or one that can still be: its window is open, the campaign observes, and a
      quote it already holds still buys a lot. */
  ghost predicate Winnable(s: Projection, p: Product) {
    var leg, m := s.benchmarks.products.At(p), s.ledger.manifest;
    leg.Some? &&
    (|| leg.value.phase == B.Initialized
     || (&& leg.value.phase != B.Failed && B.OpeningWindow(m, s.lastAt) && s.campaign.phase == LocalObserving
         && (leg.value.phase == B.Quoted ==> Funded(leg.value, m, s.profile, p, s.lastAt))))
  }

  /** The mark is unobserved and the end not reached; both legs are bought or can be; and if the mark is
      already requested, no balance has been versioned since and a book of that request is not yet stale. */
  ghost predicate Hopeful(s: Projection, k: nat)
    requires k < |s.events.slots|
  {
    var slot := s.events.slots[k];
    && slot.phase != Observed && s.lastAt < s.ledger.manifest.endAt
    && Winnable(s, Btc) && Winnable(s, Eth)
    && (slot.phase == Requested ==>
        && slot.portfolios == Some(s.ledger.portfolios)
        && slot.requestedAt.Some? && s.lastAt <= slot.requestedAt.value + 2 * FRESHNESS)
  }

  ghost predicate FillSlot(s: Projection, k: nat) {
    k < |s.events.slots| && s.events.slots[k].id.FillMark?
  }

  ghost predicate LiftedOrHopeful(s: Projection, k: nat)
    requires FillSlot(s, k)
  {
    !Blocks(s.events.slots[k]) || Hopeful(s, k)
  }

  // ---- Time only takes hope away

  lemma EarlierResolution(leg: B.Leg, requestedAt: int, m: L.Manifest, profile: Option<B.Profile>, phase: CampaignPhase, p: Product,
                          now: int, at: int)
    requires leg.phase == B.Quoted && LegKept(leg, now) && Timestamp(now) && m.startAt <= now <= at
    requires B.Resolve(leg, requestedAt, m, profile, phase, p, at).phase == B.Initialized
    ensures phase == LocalObserving && B.OpeningWindow(m, now)
    ensures B.Resolve(leg, requestedAt, m, profile, phase, p, now).phase == B.Initialized
  {
    hide B.Resolve;
    hide B.SizeOfQuote;
    hide Consumed;
    hide ExecutionRefusal;
    hide B.Remainder;
    B.ResolutionSpendsTheBudget(leg, requestedAt, m, profile, phase, p, at);
    B.ResolutionSpendsTheBudget(leg, requestedAt, m, profile, phase, p, now);
  }

  lemma LegWasWinnable(s: Projection, leg: B.Leg, p: Product, phase: CampaignPhase, c: B.EntryCommand, at: int)
    requires s.benchmarks.products.At(p) == Some(leg) && LegKept(leg, s.lastAt) && !B.Closed(leg)
    requires Timestamp(s.lastAt) && s.ledger.manifest.startAt <= s.lastAt <= at
    requires c.product == p && B.OnLeg(leg, s.ledger.manifest, Some(s.profile), phase, c, at).Ok?
    requires phase == LocalObserving ==> s.campaign.phase == LocalObserving
    requires var next := B.OnLeg(leg, s.ledger.manifest, Some(s.profile), phase, c, at).value;
             next.phase == B.Initialized || (next.phase != B.Failed && B.OpeningWindow(s.ledger.manifest, at) && s.campaign.phase == LocalObserving)
    ensures Winnable(s, p)
  {
    hide ExecutionRefusal;
    hide B.Resolve;
    hide Funded;
    hide Sha256;
    if c.event.ResolveBenchmark? {
      ResolutionCloses(leg, s.ledger.manifest, Some(s.profile), phase, p, at);
      EarlierResolution(leg, leg.requestedAt.value, s.ledger.manifest, Some(s.profile), phase, p, s.lastAt, at);
      FundedQuotesResolve(leg, s.ledger.manifest, s.profile, p, s.lastAt);
    }
  }

  lemma ResolutionCloses(leg: B.Leg, m: L.Manifest, profile: Option<B.Profile>, phase: CampaignPhase, p: Product, at: int)
    requires leg.phase == B.Quoted && leg.requestedAt.Some?
    ensures B.Closed(B.Resolve(leg, leg.requestedAt.value, m, profile, phase, p, at))
  {
    hide B.SizeOfQuote;
    hide PlanPricing;
    hide B.Remainder;
  }

  /** A leg that can be bought after a step could be bought before it. */
  lemma WinnableBefore(s: Projection, input: Command, at: int, sequence: int, p: Product)
    requires Kept(s) && s.campaign.boundAt.Some? && Step(s, input, at, sequence).Ok?
    requires Winnable(Step(s, input, at, sequence).value, p)
    ensures Winnable(s, p)
  {
    hide Sound;
    hide Step;
    hide B.ApplyEntry;
    hide B.Resolve;
    hide Funded;
    hide SlotsKept;
    hide CampaignKept;
    hide ProfileKept;
    var n := Step(s, input, at, sequence).value;
    BoundMeans(s);
    StepTouchesOne(s, input, at, sequence);
    StepKeepsCampaign(s, input, at, sequence);
    StepKeepsLegs(s, input, at, sequence);
    var leg := s.benchmarks.products.At(p).value;
    if input.OnBenchmark? {
      var c := input.entryCommand;
      BenchmarkCommand(s, c, at, sequence);
      var phase :|
        && B.ApplyEntry(s.benchmarks, s.ledger, Some(s.profile), phase, c, at, false) == Ok(n.benchmarks)
        && (phase == LocalObserving ==> s.campaign.phase == LocalObserving);
      EntriesStepKept(s.benchmarks, s.ledger, Some(s.profile), phase, c, s.lastAt, at);
      if c.product == p {
        LegWasWinnable(s, leg, p, phase, c, at);
      } else {
        SameLegBefore(s, n, p);
      }
    } else {
      SameLegBefore(s, n, p);
    }
  }

  lemma BoundMeans(s: Projection)
    requires Sound(s) && s.campaign.boundAt.Some?
    ensures Timestamp(s.lastAt) && s.ledger.manifest.startAt <= s.lastAt
  {
  }

  lemma SameLegBefore(s: Projection, n: Projection, p: Product)
    requires LegsKept(s) && n.benchmarks.products.At(p) == s.benchmarks.products.At(p) && n.profile == s.profile
    requires n.ledger.manifest == s.ledger.manifest && Timestamp(s.lastAt) && s.ledger.manifest.startAt <= s.lastAt <= n.lastAt
    requires n.campaign.phase == LocalObserving ==> s.campaign.phase == LocalObserving
    requires Winnable(n, p)
    ensures Winnable(s, p)
  {
    hide B.Resolve;
    hide Funded;
    var leg := s.benchmarks.products.At(p).value;
    if leg.phase == B.Quoted {
      FundedQuotesResolve(leg, s.ledger.manifest, s.profile, p, n.lastAt);
      FundedQuotesResolve(leg, s.ledger.manifest, s.profile, p, s.lastAt);
      EarlierResolution(leg, leg.requestedAt.value, s.ledger.manifest, Some(s.profile), LocalObserving, p, s.lastAt, n.lastAt);
    }
  }

  // ---- What an available observation took

  /** A benchmark mark that is available needed a started leg and a book no older than two freshness spans. */
  lemma AvailableBenchmark(scene: Scene, p: Product, requestedAt: int, item: Option<BookItem>, at: int)
    requires B.EntriesSound(scene.entries)
    requires EventMarkOf(scene, true, p, requestedAt, item, at, at).Available?
    ensures J.Started(scene.entries, p) && at <= requestedAt + 2 * FRESHNESS
  {
    hide PreviousSequence;
    hide Consumed;
    hide DepthBook;
    hide ValidMarkScope;
  }

  lemma ObservedWasHopeful(s: Projection, a: EventSlot, b: EventSlot, books: PerProduct<Option<BookItem>>, at: int)
    requires s.lastAt <= at && B.EntriesSound(s.benchmarks) && a.id.FillMark? && ObservedNow(a, b, s, books, at) && !Blocks(b)
    ensures s.lastAt < s.ledger.manifest.endAt && a.phase == Requested && a.portfolios == Some(s.ledger.portfolios)
    ensures Winnable(s, Btc) && Winnable(s, Eth) && a.requestedAt.Some? && s.lastAt <= a.requestedAt.value + 2 * FRESHNESS
  {
    hide EventMarkOf;
    hide B.Resolve;
    hide Funded;
    AvailableBenchmark(SceneOf(s), Btc, a.requestedAt.value, books.btc, at);
    AvailableBenchmark(SceneOf(s), Eth, a.requestedAt.value, books.eth, at);
  }

  // ---- One step, then runs

  lemma HopeBeforeStep(s: Projection, input: Command, at: int, sequence: int, k: nat)
    requires Kept(s) && FillSlot(s, k) && Step(s, input, at, sequence).Ok?
    requires FillSlot(Step(s, input, at, sequence).value, k) && LiftedOrHopeful(Step(s, input, at, sequence).value, k)
    ensures LiftedOrHopeful(s, k)
  {
    hide Sound;
    hide Step;
    hide Winnable;
    hide Observe;
    hide LegsKept;
    hide CampaignKept;
    hide ProfileKept;
    hide Earlier;
    var n := Step(s, input, at, sequence).value;
    var a, b := s.events.slots[k], n.events.slots[k];
    assert FillSlotKept(a, s);
    EntriesAreSound(s);
    StepTouchesOne(s, input, at, sequence);
    StepKeepsCampaign(s, input, at, sequence);
    SlotAfterStep(s, input, at, sequence, k);
    if !Blocks(b) {
      if a != b && !RequestedNow(a, b, s, at) {
        ObservedWasHopeful(s, a, b, input.eventCommand.event.books, at);
      }
    } else {
      WinnableBefore(s, input, at, sequence, Btc);
      WinnableBefore(s, input, at, sequence, Eth);
      if a == b && a.phase == Requested {
        StepKeepsEarlier(s, input, at, sequence, a.portfolios.value);
      }
    }
  }

  lemma HopeBefore(s: Projection, input: Input, k: nat)
    requires Kept(s) && FillSlot(s, k)
    ensures FillSlot(Run(s, [input]), k) && (LiftedOrHopeful(Run(s, [input]), k) ==> LiftedOrHopeful(s, k))
  {
    hide Sound;
    hide Step;
    hide SuspendForRequestGap;
    hide LiftedOrHopeful;
    InputKeepsSound(s, input);
    assert [input][..0] == [] && Run(s, []) == s;
    if Attempt(s, input).Ok? && LiftedOrHopeful(Run(s, [input]), k) {
      match input
      case Do(command, at, sequence) =>
        HopeBeforeStep(s, command, at, sequence, k);
      case Gap(at, reason) =>
        HopeBeforeGap(s, at, reason, k);
    }
  }

  lemma HopeBeforeGap(s: Projection, at: int, reason: string, k: nat)
    requires Kept(s) && FillSlot(s, k) && SuspendForRequestGap(s, at, reason).Ok?
    requires FillSlot(SuspendForRequestGap(s, at, reason).value, k) && LiftedOrHopeful(SuspendForRequestGap(s, at, reason).value, k)
    ensures LiftedOrHopeful(s, k)
  {
    hide Sound;
    hide SuspendForRequestGap;
    hide B.Resolve;
    hide Funded;
    GapIsKept(s, at, reason);
  }

  /** No continuation lifts the block of a mark that is neither lifted nor hopeful. */
  lemma {:induction false} HopelessForever(s: Projection, more: seq<Input>, k: nat)
    requires Kept(s) && FillSlot(s, k) && !LiftedOrHopeful(s, k)
    ensures Kept(Run(s, more)) && FillSlot(Run(s, more), k) && !LiftedOrHopeful(Run(s, more), k)
  {
    hide Kept;
    hide FillSlot;
    hide LiftedOrHopeful;
    hide Run;
    if more == [] {
      RunNothing(s);
    } else {
      var n := |more| - 1;
      HopelessForever(s, more[..n], k);
      assert more[..n + 1] == more;
      RunStep(s, more, n);
      InputKeepsKept(Run(s, more[..n]), more[n]);
      HopeBefore(Run(s, more[..n]), more[n], k);
    }
  }
}
