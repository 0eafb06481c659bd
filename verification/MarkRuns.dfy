/** Two short histories of an observing campaign that will never trade again. */
module MarkRuns {
  import opened Basics
  import opened Depth
  import opened Sizing
  import opened Evidence
  import opened Marks
  import opened EventMarks
  import opened Campaign
  import opened Drawdown
  import opened Shadow
  import opened ShadowRuns
  import opened MarkRecords
  import opened MarkHopes
  import opened MarkCounts
  import opened MarkLifts
  import opened BlockedMarks
  import opened LedgerStuck
  import L = Ledger
  import B = Benchmark
  import J = JointMarks

  function SomeProfile(): B.Profile {
    B.Profile(NAME, SomeHash(), PerProduct(8, 8))
  }

  function FirstLedger(): L.State {
    LedgerStuck.Opening()
  }

  function First(): Projection {
    Projection(FirstLedger(), Campaign.Initial(0), B.Entries(true, 0, PerProduct(Some(B.FRESH_LEG), Some(B.FRESH_LEG))), SomeProfile(),
               Marks.EMPTY, Marks.EMPTY, EventState(true, 0, PerProduct(None, None), [EmptySlot(FinalMark, DAY + CAMPAIGN)]),
               map[], 0, false)
  }

  lemma FirstStarts()
    ensures Start(First())
  {
    hide Sha256;
    NamesAreValid();
    OtherNames();
    assert Shadow.Initialize(SomeManifest(), SomeProfile(), 0) == Ok(First());
  }

  lemma OtherNames()
    ensures Identifier("profile") && Identifier("event-marks") && Identifier("expect-bh-BTC-USD") && Identifier("expect-bh-ETH-USD")
  {
  }

  function Beginning(): Input {
    Do(OnCampaign(BeginLocalSimulation, NAME, NAME), DAY, 1)
  }

  function Observing(): Projection {
    First().(lastAt := DAY, campaign := CampaignState(LocalObserving, Some(DAY), DAY, 0.0, []))
  }

  lemma NothingSampled(s: Projection)
    requires s.marks == Marks.EMPTY && s.events.slots == [EmptySlot(FinalMark, DAY + CAMPAIGN)]
    ensures Series(s.marks, Observations(s.events.slots), DAY) == []
    ensures !ProofGapExceeded(Marks.EMPTY, DAY, DAY + CAMPAIGN, DAY)
  {
    assert Observations([EmptySlot(FinalMark, DAY + CAMPAIGN)]) == [];
  }

  /** With nothing sampled the evaluation at the start leaves a bound, observing campaign as it is. */
  lemma NothingToJudge(s: Projection)
    requires s.ledger == FirstLedger() && s.marks == Marks.EMPTY && s.benchmarkMarks == Marks.EMPTY
    requires s.events.slots == [EmptySlot(FinalMark, DAY + CAMPAIGN)]
    ensures Evaluate(Observing().campaign.(lastEvaluatedAt := 0), ViewOf(s), DAY, false) == Ok(Observing().campaign)
    ensures Evaluate(Observing().campaign, ViewOf(s), DAY, false) == Ok(Observing().campaign)
  {
    hide Series;
    hide ProofGapExceeded;
    hide Pending;
    hide Observations;
    NamesAreValid();
    NothingSampled(s);
  }

  lemma BeginningObserves()
    ensures Run(First(), [Beginning()]) == Observing() && Kept(Observing())
  {
    hide Identifier;
    hide Sha256;
    FirstStarts();
    StartIsKept(First());
    InputKeepsKept(First(), Beginning());
    BeginningIsTaken();
    hide Kept;
    hide Step;
    OneInput(First(), Beginning());
  }

  lemma BeginningIsTaken()
    ensures Step(First(), Beginning().command, DAY, 1) == Ok(Observing())
  {
    hide Identifier;
    hide Sha256;
    hide Evaluate;
    hide Pending;
    hide Observations;
    NamesAreValid();
    NothingToJudge(First());
    NothingToJudge(Observing());
    assert Transition(First().campaign, Begin, None).(boundAt := Some(DAY)) == Observing().campaign.(lastEvaluatedAt := 0);
  }

  // ---- A mark observed without books

  const NO_BOOKS: PerProduct<Option<BookItem>> := PerProduct(None, None)

  /** Both legs are bought; the mark of the first fill is requested, and recorded without a response. */
  function UnseenHistory(): seq<Input> {
    [Beginning()] + Buying(Observing(), Btc, 1) + Buying(Observing(), Eth, 2)
    + [EventInput(Observing(), FillMark(1), RequestEventMark)] + [EventInput(Observing(), FillMark(1), ObserveEventMark(NO_BOOKS))]
  }

  /** The projection in which a leg has just been bought by `Buying`. */
  lemma BuyingFrom(s: Projection, p: Product, sequence: int)
    requires Meanwhile(Observing(), s) && s.benchmarks.products.At(p) == Some(B.FRESH_LEG)
    requires 0 < sequence <= MAX_SAFE && Unused(s.events.slots, sequence)
    ensures var n := Run(s, Buying(Observing(), p, sequence));
            && LegBought(s, p, n) && n.events.slots == s.events.slots + [EmptySlot(FillMark(sequence), DAY)]
  {
    hide Kept;
    hide Run;
    BuyingBuys(s, p, sequence);
    assert Buying(Observing(), p, sequence) == Buying(s, p, sequence);
  }

  lemma BothBought() returns (s: Projection)
    ensures s == Run(First(), [Beginning()] + Buying(Observing(), Btc, 1) + Buying(Observing(), Eth, 2))
    ensures Meanwhile(Observing(), s) && J.Started(s.benchmarks, Btc) && J.Started(s.benchmarks, Eth)
    ensures s.events.slots == [EmptySlot(FinalMark, DAY + CAMPAIGN), EmptySlot(FillMark(1), DAY), EmptySlot(FillMark(2), DAY)]
  {
    hide Kept;
    hide Run;
    BeginningObserves();
    BuyingFrom(Observing(), Btc, 1);
    var one := Run(Observing(), Buying(Observing(), Btc, 1));
    BuyingFrom(one, Eth, 2);
    RunJoins(First(), [Beginning()], Buying(Observing(), Btc, 1));
    RunJoins(First(), [Beginning()] + Buying(Observing(), Btc, 1), Buying(Observing(), Eth, 2));
    s := Run(one, Buying(Observing(), Eth, 2));
  }

  /** Without books the campaign's cash is worth itself, and the bought legs have no value. */
  lemma NothingToValue(scene: Scene)
    requires scene.ledger == FirstLedger() && B.EntriesSound(scene.entries)
    requires J.Started(scene.entries, Btc) && J.Started(scene.entries, Eth)
    ensures var mine, theirs := Observe(scene, false, DAY, NO_BOOKS, DAY, DAY), Observe(scene, true, DAY, NO_BOOKS, DAY, DAY);
            && mine.consolidated == Equity(20_000.0, DAY) && mine.asOf == DAY && theirs.consolidated == NoEquity
            && !AnyStale(Some(mine), Some(NO_BOOKS), DAY) && !AnyStale(Some(theirs), Some(NO_BOOKS), DAY)
  {
    hide PreviousSequence;
    assert NonBlank(NAME) by { assert NAME[0] !in " \t\n\r\U{b}\U{c}\U{a0}"; }
  }

  lemma SortOne(p: Point)
    ensures SortByTime([p]) == [p]
  {
  }

  lemma CashKeepsObserving(c: CampaignState, v: View, o: Observation)
    requires c.phase == LocalObserving && c.boundAt.Some? && c.maxDrawdown == 0.0 && c.lastEvaluatedAt == DAY
    requires v.ledger == FirstLedger() && v.marks == Marks.EMPTY && v.benchmarkMarks == Marks.EMPTY
    requires v.events == [o] && o.asOf == DAY && o.consolidated == Equity(20_000.0, DAY)
    requires Evaluate(c, v, DAY, false).Ok?
    ensures Evaluate(c, v, DAY, false).value.phase == LocalObserving
  {
    NothingSampled(First());
    var point := Point(DAY, 20_000.0);
    assert [o][..0] == [];
    assert EventPoints([], DAY) == [] && PointOf(Some(o), DAY) == [point];
    assert EventPoints([o], DAY) == [point];
    assert HourlyPoints(v.marks.slots, DAY) == [];
    SortOne(point);
    assert Series(v.marks, v.events, DAY) == [point];
    assert Worst([point], START_PEAK, 0.0) == 0.0 by { assert Fall(START_PEAK, 20_000.0) == 0.0; assert [point][1..] == []; }
    assert NonNegative([point]);
    hide Series;
    hide Worst;
    hide NonNegative;
    hide ProofGapExceeded;
  }

  /** Requesting the first mark changes nothing the evaluation reads. */
  lemma FirstMarkRequested(two: Projection) returns (s: Projection)
    requires Meanwhile(Observing(), two) && J.Started(two.benchmarks, Btc) && J.Started(two.benchmarks, Eth)
    requires two.events.slots == [EmptySlot(FinalMark, DAY + CAMPAIGN), EmptySlot(FillMark(1), DAY), EmptySlot(FillMark(2), DAY)]
    ensures s == Run(two, [EventInput(Observing(), FillMark(1), RequestEventMark)])
    ensures Recorded(two, s, two.events.slots[1 := AsRequested(two, two.events.slots[1])]) && s.campaign == Observing().campaign
  {
    hide Sound;
    hide Run;
    hide ProfileKept;
    hide LegsKept;
    hide SlotsKept;
    hide Safety;
    RequestOpens(two, 1);
    s := Run(two, [EventInput(two, FillMark(1), RequestEventMark)]);
    UnobservedSlots(two.events.slots);
    UnobservedSlots(s.events.slots);
    SafetyOfSameView(two, s.(campaign := two.campaign));
  }

  lemma {:induction false} UnobservedSlots(slots: seq<EventSlot>)
    requires forall i :: 0 <= i < |slots| ==> slots[i].observation.None?
    ensures Observations(slots) == []
  {
    if slots != [] {
      UnobservedSlots(slots[..|slots| - 1]);
    }
  }

  lemma OneObserved(slots: seq<EventSlot>, o: Observation)
    requires |slots| == 3 && slots[0].observation.None? && slots[1].observation == Some(o) && slots[2].observation.None?
    ensures Observations(slots) == [o]
  {
    UnobservedSlots(slots[..1]);
    assert slots[..2][..1] == slots[..1] && slots[..3] == slots && slots[..3][..2] == slots[..2];
  }

  /** The campaign still observes, its first fill mark was seen in vain, and it will never trade again. */
  lemma UnseenMarkStrands()
    ensures Start(First())
    ensures var s := Run(First(), UnseenHistory());
            && FillSlot(s, 1) && SeenInVain(s.events.slots[1]) && !Hopeful(s, 1)
            && s.campaign.phase == LocalObserving
  {
    hide Sound;
    hide Run;
    hide ProfileKept;
    hide LegsKept;
    hide SlotsKept;
    hide CampaignKept;
    hide Evaluate;
    hide Observe;
    hide AnyStale;
    hide Pending;
    FirstStarts();
    var two := BothBought();
    var three := FirstMarkRequested(two);
    EntriesAreSound(three);
    NothingToValue(SceneOf(three));
    ObservationRuns(three, 1, NO_BOOKS);
    var s := Run(three, [ObserveInput(three, 1, NO_BOOKS)]);
    RunJoins(First(), [Beginning()] + Buying(Observing(), Btc, 1) + Buying(Observing(), Eth, 2),
             [EventInput(Observing(), FillMark(1), RequestEventMark)]);
    RunJoins(First(), [Beginning()] + Buying(Observing(), Btc, 1) + Buying(Observing(), Eth, 2)
                      + [EventInput(Observing(), FillMark(1), RequestEventMark)], [ObserveInput(three, 1, NO_BOOKS)]);
    var o := Observe(SceneOf(three), false, DAY, NO_BOOKS, DAY, DAY);
    OneObserved(s.events.slots, o);
    CashKeepsObserving(three.campaign, ViewOf(s.(campaign := three.campaign)), o);
  }

  // ---- A second leg that cannot be afforded

  /** One lot of asks, at twice the budget. */
  const DEAR_BOOK := Book([Level(1.0, 1.0)], [Level(20_000.0 * Pow10(8) as real, Lots(1, Pow10(8)))])

  lemma DearBookBuysNothing()
    ensures DepthBook(DEAR_BOOK) && SizingOf(DEAR_BOOK, 8) == Unsized("ZERO_FUNDED_LOTS")
  {
    hide Lots;
    hide Pow10;
    hide Value;
    hide Cost;
    hide Average;
    var scale := Pow10(8);
    var price, depth := DEAR_BOOK.asks[0].price, DEAR_BOOK.asks[0].quantity;
    LotsOrder(0, 1, scale);
    LotsOrder(1, 2, scale);
    LotsWithin(1, scale, depth);
    LotsWithin(2, scale, depth);
    ShallowCost(price, depth, Lots(1, scale));
    DearLot(scale);
    assert LotCapacity(DEAR_BOOK.asks, scale) == 1;
    assert !Affordable(DEAR_BOOK.asks, scale, 1);
    assert Best(DEAR_BOOK.asks, scale, 1) == Best(DEAR_BOOK.asks, scale, 0) == 0;
  }

  lemma DearLot(scale: nat)
    requires scale >= 1
    ensures Value(Lots(1, scale), 20_000.0 * scale as real) == 20_000.0
  {
    LotsOrder(0, 1, scale);
    var q, s := Lots(1, scale), scale as real;
    assert q * (20_000.0 * s) == 20_000.0 * (q * s);
  }

  const QUOTING := B.ObserveBenchmarkBook(Some(BookNow(SomeManifest(), Eth, DAY, DEAR_BOOK)), SomeHash())

  /** The first leg is bought; the second is quoted at a price of which the budget affords no lot. */
  function HalfHistory(): seq<Input> {
    [Beginning()] + Buying(Observing(), Btc, 1) + Failing()
  }

  function Failing(): seq<Input> {
    [LegInput(Observing(), Eth, B.RequestBenchmark, 2)] + [LegInput(Observing(), Eth, QUOTING, 2)]
    + [LegInput(Observing(), Eth, B.ResolveBenchmark, 2)]
  }

  function Asked(): B.Leg {
    B.FRESH_LEG.(phase := B.Requested, attempt := 1, requestedAt := Some(DAY), profileSha256 := Some(SomeProfile().profileSha256))
  }

  function Dear(): B.Leg {
    Asked().(phase := B.Quoted, book := Some(BookNow(SomeManifest(), Eth, DAY, DEAR_BOOK)), bodySha256 := Some(SomeHash()),
             quoteCommandId := Some(NAME), refusal := Some(None), reason := None)
  }

  lemma DearLegFails()
    ensures B.OnLeg(B.FRESH_LEG, SomeManifest(), Some(SomeProfile()), LocalObserving,
                    LegCommand(Observing(), Eth, B.RequestBenchmark), DAY) == Ok(Asked())
    ensures B.OnLeg(Asked(), SomeManifest(), Some(SomeProfile()), LocalObserving, LegCommand(Observing(), Eth, QUOTING), DAY) == Ok(Dear())
    ensures B.OnLeg(Dear(), SomeManifest(), Some(SomeProfile()), LocalObserving, LegCommand(Observing(), Eth, B.ResolveBenchmark), DAY)
            == Ok(B.Failing(Dear(), "ZERO_FUNDED_LOTS"))
  {
    hide SizingOf;
    hide ExecutionRefusal;
    hide DepthBook;
    NamesAreValid();
    DearBookBuysNothing();
    BookIsEligible(SomeManifest(), Eth, DAY, DEAR_BOOK);
  }

  lemma Unasked(n: int)
    requires n > 1
    ensures Unused([EmptySlot(FinalMark, DAY + CAMPAIGN)] + [EmptySlot(FillMark(1), DAY)], n)
  {
  }

  lemma FailingFails(one: Projection)
    requires Meanwhile(Observing(), one) && one.benchmarks.products.At(Eth) == Some(B.FRESH_LEG) && Unused(one.events.slots, 2)
    ensures var n := Run(one, Failing());
            && Meanwhile(one, n) && n.events.slots == one.events.slots
            && n.benchmarks.products == one.benchmarks.products.With(Eth, Some(B.Failing(Dear(), "ZERO_FUNDED_LOTS")))
  {
    hide Kept;
    hide Run;
    hide B.OnLeg;
    DearLegFails();
    var requested, quoted, resolved := LegInput(Observing(), Eth, B.RequestBenchmark, 2), LegInput(Observing(), Eth, QUOTING, 2),
                                       LegInput(Observing(), Eth, B.ResolveBenchmark, 2);
    LegStepPasses(one, Eth, B.RequestBenchmark, 2, Asked());
    var two := Run(one, [requested]);
    LegStepPasses(two, Eth, QUOTING, 2, Dear());
    var three := Run(two, [quoted]);
    LegStepPasses(three, Eth, B.ResolveBenchmark, 2, B.Failing(Dear(), "ZERO_FUNDED_LOTS"));
    RunJoins(one, [requested], [quoted]);
    RunJoins(one, [requested] + [quoted], [resolved]);
  }

  /** The campaign still observes, one leg is bought and the other failed, and it will never trade again. */
  lemma HalfBoughtStrands()
    ensures Start(First())
    ensures var s := Run(First(), HalfHistory());
            && FillSlot(s, 1) && s.events.slots[1].phase == Expected && Blocks(s.events.slots[1]) && !Hopeful(s, 1)
            && J.Started(s.benchmarks, Btc) && LegClosed(s.benchmarks, Eth) && !J.Started(s.benchmarks, Eth)
            && s.campaign.phase == LocalObserving
  {
    hide Kept;
    hide Run;
    hide Buying;
    hide Failing;
    FirstStarts();
    BeginningObserves();
    Unasked(2);
    BuyingFrom(Observing(), Btc, 1);
    var one := Run(Observing(), Buying(Observing(), Btc, 1));
    FailingFails(one);
    RunJoins(First(), [Beginning()], Buying(Observing(), Btc, 1));
    RunJoins(First(), [Beginning()] + Buying(Observing(), Btc, 1), Failing());
  }
}
