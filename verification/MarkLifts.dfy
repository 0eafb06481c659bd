/** The other half: from every hopeful state explicit commands lift the block, all at the present instant. */
module MarkLifts {
  import opened Basics
  import opened Depth
  import opened Sizing
  import opened Evidence
  import opened Marks
  import opened EventMarks
  import opened Campaign
  import opened Shadow
  import opened ShadowRuns
  import opened MarkRecords
  import opened MarkHopes
  import opened MarkCounts
  import L = Ledger
  import B = Benchmark
  import J = JointMarks
  import LedgerStuck
  import BlockedMarks

  // ---- Books that always serve

  /** Two lots of asks, of which the budget affords exactly one, and bids for any position. */
  function DeepBook(scale: nat, bid: real): Book
    requires scale >= 1
  {
    Book([Level(1.0, bid)], [Level(9_000.0 * scale as real, Lots(2, scale))])
  }

  lemma ShallowCost(price: real, quantity: real, q: real)
    requires 0.0 <= q <= quantity
    ensures Cost([Level(price, quantity)], q) == Value(q, price) && Capacity([Level(price, quantity)]) == quantity
  {
    assert [Level(price, quantity)][1..] == [];
  }

  lemma LotValue(scale: nat, units: nat)
    requires scale >= 1
    ensures Value(Lots(units, scale), 9_000.0 * scale as real) == 9_000.0 * units as real
  {
    LotsOrder(0, units, scale);
    var q, s := Lots(units, scale), scale as real;
    assert q * (9_000.0 * s) == 9_000.0 * (q * s);
  }

  lemma OneLot(decimals: nat, bid: real)
    requires decimals <= 12 && bid > 0.0
    ensures var scale, book := Pow10(decimals), DeepBook(Pow10(decimals), bid);
            DepthBook(book) && SizingOf(book, decimals).Sized? && SizingOf(book, decimals).quantity == Lots(1, scale)
            && Consumed(book, Buy, Lots(1, scale)).Priced?
  {
    hide Lots;
    hide Pow10;
    hide Value;
    hide Cost;
    hide Average;
    var scale, book := Pow10(decimals), DeepBook(Pow10(decimals), bid);
    var price, depth := book.asks[0].price, book.asks[0].quantity;
    LotsOrder(0, 1, scale);
    LotsOrder(1, 2, scale);
    LotsWithin(2, scale, depth);
    LotsWithin(3, scale, depth);
    LotsOrder(2, 3, scale);
    ShallowCost(price, depth, Lots(1, scale));
    ShallowCost(price, depth, Lots(2, scale));
    LotValue(scale, 1);
    LotValue(scale, 2);
    assert LotCapacity(book.asks, scale) == 2;
    assert !Affordable(book.asks, scale, 2) && Affordable(book.asks, scale, 1);
    assert Best(book.asks, scale, 2) == Best(book.asks, scale, 1) == 1;
  }

  lemma BidsServe(book: Book, position: real)
    requires DepthBook(book) && |book.bids| == 1 && 0.0 < position <= book.bids[0].quantity
    ensures Consumed(book, Sell, position).Priced?
  {
    ShallowCost(book.bids[0].price, book.bids[0].quantity, position);
  }

  // ---- A book that makes a requested mark available

  function Smaller(a: int, b: int): int {
    if a <= b then a else b
  }

  /** Requested with the mark, received as late as the freshness of a response allows, and deep enough for
      both positions of the product. */
  function MarkBook(scene: Scene, p: Product, requestedAt: int, at: int): BookEvidence {
    var previous := PreviousSequence(scene.st, scene.hourly, scene.benchmarkHourly, scene.ledger, scene.entries, p);
    var received := Smaller(at, requestedAt + FRESHNESS);
    var positions := scene.ledger.portfolios.At(p).position + J.LegHolding(scene.entries, p).position;
    BookEvidence(Some(p), scene.ledger.manifest.sourceProfileId, true, Some(if previous.Some? then previous.value else 0),
                 Some(requestedAt), Some(received), Some(received), DeepBook(1, Max(positions, 1.0)))
  }

  function MarkItem(scene: Scene, p: Product, requestedAt: int, at: int): Option<BookItem> {
    Some(BookItem(LedgerStuck.SomeHash(), Some(MarkBook(scene, p, requestedAt, at))))
  }

  ghost predicate Timely(scene: Scene, requestedAt: int, at: int) {
    var m := scene.ledger.manifest;
    && (exists w :: L.ValidManifest(m, w)) && m.clockVerified
    && m.startAt <= requestedAt <= at < m.endAt && at <= requestedAt + 2 * FRESHNESS
  }

  lemma MarkBookServes(scene: Scene, benchmark: bool, p: Product, requestedAt: int, at: int)
    requires L.Invariant(scene.ledger) && B.EntriesSound(scene.entries) && Timely(scene, requestedAt, at)
    requires benchmark ==> J.Started(scene.entries, p)
    ensures var mark := EventMarkOf(scene, benchmark, p, requestedAt, MarkItem(scene, p, requestedAt, at), at, at);
            mark.Available? && !Stale(mark, MarkItem(scene, p, requestedAt, at), at)
  {
    hide PreviousSequence;
    hide Consumed;
    hide Lots;
    hide L.SlotShape;
    hide L.OneOpenIntent;
    var m, book := scene.ledger.manifest, MarkBook(scene, p, requestedAt, at);
    var w :| L.ValidManifest(m, w);
    LotsOrder(0, 2, 1);
    assert NonBlank(m.sourceProfileId) by { assert m.sourceProfileId[0] !in " \t\n\r\U{b}\U{c}\U{a0}"; }
    var position := if benchmark then J.BenchmarkPortfolio(scene.entries, p).position else scene.ledger.portfolios.At(p).position;
    if position > 0.0 {
      BidsServe(book.depth, position);
    }
  }

  function MarkItems(scene: Scene, requestedAt: int, at: int): PerProduct<Option<BookItem>> {
    PerProduct(MarkItem(scene, Btc, requestedAt, at), MarkItem(scene, Eth, requestedAt, at))
  }

  lemma ObservationIsSeen(scene: Scene, benchmark: bool, requestedAt: int, at: int)
    requires L.Invariant(scene.ledger) && B.EntriesSound(scene.entries) && Timely(scene, requestedAt, at)
    requires benchmark ==> J.Started(scene.entries, Btc) && J.Started(scene.entries, Eth)
    ensures var books := MarkItems(scene, requestedAt, at);
            var o := Some(Observe(scene, benchmark, requestedAt, books, at, at));
            Seen(o) && !AnyStale(o, Some(books), at)
  {
    hide EventMarkOf;
    hide Stale;
    hide MarkItem;
    hide L.SlotShape;
    hide L.OneOpenIntent;
    MarkBookServes(scene, benchmark, Btc, requestedAt, at);
    MarkBookServes(scene, benchmark, Eth, requestedAt, at);
    var w :| L.ValidManifest(scene.ledger.manifest, w);
  }

  // ---- Requesting and observing now

  function EventInput(s: Projection, id: MarkId, event: EventKind): Input {
    Do(OnEvent(EventCommand(s.ledger.manifest.campaignId, LedgerStuck.NAME, id, event)), s.lastAt, 1)
  }

  lemma {:induction false} FindIsThere(slots: seq<EventSlot>, k: nat)
    requires k < |slots| && forall i, j :: 0 <= i < j < |slots| ==> slots[i].id != slots[j].id
    ensures Find(slots, slots[k].id) == Some(k)
  {
    if k < |slots| - 1 {
      FindIsThere(slots[..|slots| - 1], k);
    }
  }

  /** The clocks and the name of a reachable state's mark pass the general tests of an event command. */
  ghost predicate EventGate(s: Projection, k: nat, next: EventSlot) {
    && Identifier(LedgerStuck.NAME) && Timestamp(s.lastAt) && s.events.active
    && s.ledger.lastRecordedAt <= s.lastAt && s.events.lastRecordedAt <= s.lastAt
    && k < |s.events.slots| && next.id == s.events.slots[k].id
    && Find(s.events.slots, next.id) == Some(k) && Find(s.events.slots[k := next], next.id) == Some(k)
  }

  lemma EventGateIsOpen(s: Projection, k: nat, next: EventSlot)
    requires Kept(s) && k < |s.events.slots| && next.id == s.events.slots[k].id
    ensures EventGate(s, k, next)
  {
    hide L.Invariant;
    hide SampledDrawdown;
    LedgerStuck.NamesAreValid();
    FindIsThere(s.events.slots, k);
    FindIsThere(s.events.slots[k := next], k);
  }

  /** Later at the same instant: the event slots are these, the campaign is evaluated, the rest stands. */
  ghost predicate Recorded(s: Projection, n: Projection, slots: seq<EventSlot>) {
    && Kept(n) && n.lastAt == s.lastAt && n.benchmarks == s.benchmarks && n.ledger == s.ledger && n.profile == s.profile
    && n.marks == s.marks && n.benchmarkMarks == s.benchmarkMarks && n.events.slots == slots
    && Safety(n.(campaign := s.campaign), s.lastAt, false) == Ok(n.campaign)
  }

  /** An accepted command of the event marks is carried out. */
  lemma EventInputRuns(s: Projection, c: EventCommand)
    requires Kept(s) && EventStepOf(s, c, s.lastAt).Ok?
    ensures Recorded(s, Run(s, [Do(OnEvent(c), s.lastAt, 1)]), EventStepOf(s, c, s.lastAt).value.events.slots)
  {
    hide EventStepOf;
    hide Sound;
    hide Safety;
    hide ProfileKept;
    hide LegsKept;
    hide SlotsKept;
    hide CampaignKept;
    var input := Do(OnEvent(c), s.lastAt, 1);
    InputKeepsKept(s, input);
    ClockIsSafe(s);
    StepKeepsSound(s, OnEvent(c), s.lastAt, 1);
    StepTouchesOne(s, OnEvent(c), s.lastAt, 1);
    StepEvaluates(s, OnEvent(c), s.lastAt, 1);
    SameCampaign(s, OnEvent(c), s.lastAt, 1);
    CampaignUntouched(s, OnEvent(c), s.lastAt);
    OneInput(s, input);
    var n := Run(s, [input]);
    assert n.(campaign := s.campaign) == BeforeEvaluation(s, OnEvent(c), s.lastAt, 1);
  }

  lemma ClockIsSafe(s: Projection)
    requires Sound(s)
    ensures s.lastAt <= MAX_SAFE
  {
  }

  function AsRequested(s: Projection, slot: EventSlot): EventSlot {
    slot.(phase := Requested, requestedAt := Some(s.lastAt), portfolios := Some(s.ledger.portfolios), benchmarks := Some(s.benchmarks))
  }

  function EventCommandOf(s: Projection, id: MarkId, event: EventKind): EventCommand {
    EventCommand(s.ledger.manifest.campaignId, LedgerStuck.NAME, id, event)
  }

  lemma RequestIsAccepted(s: Projection, k: nat)
    requires FillSlot(s, k) && EventGate(s, k, AsRequested(s, s.events.slots[k]))
    requires var slot := s.events.slots[k];
             && slot.phase == Expected && slot.expectedAt <= s.lastAt
             && s.ledger.manifest.startAt <= s.lastAt < s.ledger.manifest.endAt
             && LegClosed(s.benchmarks, Btc) && LegClosed(s.benchmarks, Eth)
    ensures var slot := s.events.slots[k];
            var r := EventStepOf(s, EventCommandOf(s, slot.id, RequestEventMark), s.lastAt);
            r.Ok? && r.value.events.slots == s.events.slots[k := AsRequested(s, slot)]
  {
    hide Identifier;
    hide Find;
  }

  lemma RequestOpens(s: Projection, k: nat)
    requires Kept(s) && FillSlot(s, k) && s.events.slots[k].phase == Expected && s.lastAt < s.ledger.manifest.endAt
    requires J.Started(s.benchmarks, Btc) && J.Started(s.benchmarks, Eth)
    ensures var n := Run(s, [EventInput(s, s.events.slots[k].id, RequestEventMark)]);
            Recorded(s, n, s.events.slots[k := AsRequested(s, s.events.slots[k])]) && FillSlot(n, k)
  {
    hide Sound;
    hide Run;
    hide EventGate;
    hide EventStepOf;
    var slot := s.events.slots[k];
    assert FillSlotKept(slot, s);
    EventGateIsOpen(s, k, AsRequested(s, slot));
    BoundMeans(s);
    RequestIsAccepted(s, k);
    EventInputRuns(s, EventCommandOf(s, slot.id, RequestEventMark));
  }

  function ObserveInput(s: Projection, k: nat, books: PerProduct<Option<BookItem>>): Input
    requires k < |s.events.slots|
  {
    EventInput(s, s.events.slots[k].id, ObserveEventMark(books))
  }

  function AsObserved(s: Projection, slot: EventSlot, books: PerProduct<Option<BookItem>>): EventSlot
    requires slot.requestedAt.Some?
  {
    slot.(phase := Observed,
          observation := Some(Observe(SceneOf(s), false, slot.requestedAt.value, books, s.lastAt, s.lastAt)),
          benchmarkObservation := Some(Observe(SceneOf(s), true, slot.requestedAt.value, books, s.lastAt, s.lastAt)))
  }

  lemma ObservationIsAccepted(s: Projection, k: nat, books: PerProduct<Option<BookItem>>)
    requires FillSlot(s, k)
    requires var slot := s.events.slots[k];
             && slot.phase == Requested && slot.requestedAt.Some? && slot.portfolios == Some(s.ledger.portfolios)
             && slot.benchmarks.Some? && slot.benchmarks.value.products == s.benchmarks.products
             && s.lastAt < s.ledger.manifest.endAt
             && ValidItem(books.btc) && ValidItem(books.eth)
             && EventGate(s, k, AsObserved(s, slot, books))
             && !AnyStale(AsObserved(s, slot, books).observation, Some(books), s.lastAt)
             && !AnyStale(AsObserved(s, slot, books).benchmarkObservation, Some(books), s.lastAt)
    ensures var slot := s.events.slots[k];
            var r := EventStepOf(s, EventCommandOf(s, slot.id, ObserveEventMark(books)), s.lastAt);
            r.Ok? && r.value.events.slots == s.events.slots[k := AsObserved(s, slot, books)]
  {
    hide Identifier;
    hide Find;
    hide Observe;
    hide SequencesAfter;
    hide AnyStale;
    hide ValidItem;
  }

  /** On a requested mark whose snapshot stands, an observation that is not stale is recorded whatever it shows. */
  lemma ObservationRuns(s: Projection, k: nat, books: PerProduct<Option<BookItem>>)
    requires Kept(s) && FillSlot(s, k) && s.events.slots[k].phase == Requested && s.lastAt < s.ledger.manifest.endAt
    requires s.events.slots[k].requestedAt.Some? && s.events.slots[k].portfolios == Some(s.ledger.portfolios)
    requires ValidItem(books.btc) && ValidItem(books.eth)
    requires var seen := AsObserved(s, s.events.slots[k], books);
             !AnyStale(seen.observation, Some(books), s.lastAt) && !AnyStale(seen.benchmarkObservation, Some(books), s.lastAt)
    ensures var n := Run(s, [ObserveInput(s, k, books)]);
            Recorded(s, n, s.events.slots[k := AsObserved(s, s.events.slots[k], books)]) && FillSlot(n, k)
  {
    hide Sound;
    hide Run;
    hide EventGate;
    hide EventStepOf;
    hide Observe;
    hide AnyStale;
    hide ValidItem;
    var slot := s.events.slots[k];
    assert FillSlotKept(slot, s);
    EventGateIsOpen(s, k, AsObserved(s, slot, books));
    ObservationIsAccepted(s, k, books);
    EventInputRuns(s, EventCommandOf(s, slot.id, ObserveEventMark(books)));
  }

  function ItemsFor(s: Projection, k: nat): PerProduct<Option<BookItem>>
    requires k < |s.events.slots| && s.events.slots[k].requestedAt.Some?
  {
    MarkItems(SceneOf(s), s.events.slots[k].requestedAt.value, s.lastAt)
  }

  lemma ObservationLifts(s: Projection, k: nat)
    requires Kept(s) && FillSlot(s, k) && s.events.slots[k].phase == Requested && Hopeful(s, k)
    ensures var n := Run(s, [ObserveInput(s, k, ItemsFor(s, k))]); FillSlot(n, k) && !Blocks(n.events.slots[k])
  {
    hide Sound;
    hide Run;
    hide Observe;
    hide MarkItem;
    hide AnyStale;
    hide ValidItem;
    hide Seen;
    var slot, scene := s.events.slots[k], SceneOf(s);
    var requested := slot.requestedAt.value;
    assert FillSlotKept(slot, s);
    EntriesAreSound(s);
    LedgerIsSound(s);
    BoundMeans(s);
    ItemsAreValid(scene, requested, s.lastAt);
    ObservationIsSeen(scene, false, requested, s.lastAt);
    ObservationIsSeen(scene, true, requested, s.lastAt);
    ObservationRuns(s, k, ItemsFor(s, k));
  }

  lemma ItemsAreValid(scene: Scene, requestedAt: int, at: int)
    ensures ValidItem(MarkItem(scene, Btc, requestedAt, at)) && ValidItem(MarkItem(scene, Eth, requestedAt, at))
  {
    LedgerStuck.NamesAreValid();
  }

  // ---- Buying the legs that are still open

  /** Later at the same instant: ledger, profile, campaign and hourly marks stand, the event slots only grew. */
  ghost predicate Meanwhile(s: Projection, n: Projection) {
    && Kept(n) && n.lastAt == s.lastAt && n.ledger == s.ledger && n.profile == s.profile && n.campaign == s.campaign
    && n.marks == s.marks && n.benchmarkMarks == s.benchmarkMarks && s.events.slots <= n.events.slots
  }

  function LegInput(s: Projection, p: Product, event: B.EntryEvent, sequence: int): Input {
    Do(OnBenchmark(LegCommand(s, p, event)), s.lastAt, sequence)
  }

  function LegCommand(s: Projection, p: Product, event: B.EntryEvent): B.EntryCommand {
    B.EntryCommand(s.ledger.manifest.campaignId, LedgerStuck.NAME, p, event)
  }

  lemma UnseenObserve(slots: seq<EventSlot>, slot: EventSlot)
    requires slot.observation.None?
    ensures Observations(slots + [slot]) == Observations(slots)
  {
    assert (slots + [slot])[..|slots|] == slots;
  }

  /** A leg command given now, while the campaign observes, passes through the runner unchanged. */
  lemma LegStepPasses(s: Projection, p: Product, event: B.EntryEvent, sequence: int, leg: B.Leg)
    requires Kept(s) && s.campaign.phase == LocalObserving
    requires s.benchmarks.products.At(p).Some? && !B.Closed(s.benchmarks.products.At(p).value) && !event.ExpectBenchmark?
    requires B.OnLeg(s.benchmarks.products.At(p).value, s.ledger.manifest, Some(s.profile), LocalObserving,
                     LegCommand(s, p, event), s.lastAt) == Ok(leg)
    requires event.ResolveBenchmark? ==> 0 < sequence <= MAX_SAFE && Unused(s.events.slots, sequence)
    ensures var n := Run(s, [LegInput(s, p, event, sequence)]);
            && Meanwhile(s, n) && n.benchmarks.products == s.benchmarks.products.With(p, Some(leg))
            && n.events.slots == s.events.slots +
                                 if event.ResolveBenchmark? && leg.phase == B.Initialized
                                 then [EmptySlot(FillMark(sequence), s.lastAt)] else []
  {
    hide Sound;
    hide Safety;
    hide B.OnLeg;
    hide Identifier;
    hide ProfileKept;
    hide LegsKept;
    hide SlotsKept;
    hide Run;
    hide Find;
    var c, input := LegCommand(s, p, event), LegInput(s, p, event, sequence);
    LedgerStuck.NamesAreValid();
    Clocked(s);
    InputKeepsKept(s, input);
    var entries := B.ApplyEntry(s.benchmarks, s.ledger, Some(s.profile), LocalObserving, c, s.lastAt, false).value;
    var next := s.(benchmarks := entries);
    assert Touched(s, OnBenchmark(c), s.lastAt) == Ok(next);
    var filled := Filled(next, OnBenchmark(c));
    var slots := if filled then s.events.slots + [EmptySlot(FillMark(sequence), s.lastAt)] else s.events.slots;
    UnseenObserve(s.events.slots, EmptySlot(FillMark(sequence), s.lastAt));
    NewNumber(s.events.slots, sequence);
    var marked := next.(events := if filled then ExpectAfterFill(s.events, sequence, s.lastAt).value else s.events,
                        hasFills := s.hasFills || filled);
    SafetyOfSameView(s, marked);
    assert Step(s, OnBenchmark(c), s.lastAt, sequence) == Ok(marked);
    OneInput(s, input);
  }

  lemma SafetyOfSameView(s: Projection, marked: Projection)
    requires SameView(s, marked) && marked.campaign == s.campaign
    ensures Safety(marked, s.lastAt, false) == Safety(s, s.lastAt, false)
  {
    hide Evaluate;
    EvaluationOfSameView(s, marked, s.campaign, s.lastAt);
  }

  lemma NewNumber(slots: seq<EventSlot>, n: int)
    ensures Unused(slots, n) ==> Find(slots, FillMark(n)).None?
  {
  }

  lemma Clocked(s: Projection)
    requires Sound(s)
    ensures Timestamp(s.lastAt) && s.ledger.lastRecordedAt <= s.lastAt && s.events.lastRecordedAt <= s.lastAt
    ensures s.benchmarks.lastRecordedAt <= s.lastAt && s.events.active
  {
    hide Parts;
    SoundIsActive(s);
  }

  lemma SoundIsActive(s: Projection)
    requires Sound(s)
    ensures s.events.active
  {
  }

  /** A book of a leg, requested, observed and received now. */
  function BookNow(m: L.Manifest, p: Product, at: int, depth: Book): BookEvidence {
    BookEvidence(Some(p), m.sourceProfileId, true, Some(0), Some(at), Some(at), Some(at), depth)
  }

  /** One of which the budget buys one lot. */
  function LegBook(m: L.Manifest, profile: B.Profile, p: Product, at: int): BookEvidence
    requires 0 <= profile.quantityDecimals.At(p) <= 12
  {
    BookNow(m, p, at, DeepBook(Pow10(profile.quantityDecimals.At(p)), 1.0))
  }

  ghost predicate Opening(m: L.Manifest, at: int) {
    (exists w :: L.ValidManifest(m, w)) && m.clockVerified && B.OpeningWindow(m, at) && Timestamp(at)
  }

  lemma BookIsEligible(m: L.Manifest, p: Product, at: int, depth: Book)
    requires Opening(m, at) && DepthBook(depth)
    ensures ExecutionRefusal(B.EntryScope(m, p, at), Some(BookNow(m, p, at, depth))).None?
  {
    hide DepthBook;
    hide Sha256;
    var w :| L.ValidManifest(m, w);
    assert NonBlank(m.sourceProfileId) by { assert m.sourceProfileId[0] !in " \t\n\r\U{b}\U{c}\U{a0}"; }
  }

  lemma FreshQuoteFills(leg: B.Leg, m: L.Manifest, profile: B.Profile, p: Product, at: int, c: B.EntryCommand)
    requires Opening(m, at) && 0 <= profile.quantityDecimals.At(p) <= 12
    requires leg.phase == B.Requested && leg.requestedAt == Some(at) && leg.profileSha256 == Some(profile.profileSha256)
    requires c.product == p && c.event == B.ObserveBenchmarkBook(Some(LegBook(m, profile, p, at)), LedgerStuck.SomeHash())
    ensures var r := B.OnLeg(leg, m, Some(profile), LocalObserving, c, at);
            && r.Ok? && r.value.phase == B.Quoted && r.value.requestedAt == Some(at)
            && B.Resolve(r.value, at, m, Some(profile), LocalObserving, p, at).phase == B.Initialized
  {
    hide B.Resolve;
    hide ExecutionRefusal;
    hide Pow10;
    hide DeepBook;
    hide Consumed;
    hide SizingOf;
    hide Lots;
    OneLot(profile.quantityDecimals.At(p), 1.0);
    BookIsEligible(m, p, at, DeepBook(Pow10(profile.quantityDecimals.At(p)), 1.0));
    var quoted := B.OnLeg(leg, m, Some(profile), LocalObserving, c, at).value;
    B.ResolutionSpendsTheBudget(quoted, at, m, Some(profile), LocalObserving, p, at);
  }

  function Resolving(s: Projection, p: Product, sequence: int): seq<Input> {
    [LegInput(s, p, B.ResolveBenchmark, sequence)]
  }

  function Buying(s: Projection, p: Product, sequence: int): seq<Input>
    requires 0 <= s.profile.quantityDecimals.At(p) <= 12
  {
    [LegInput(s, p, B.RequestBenchmark, sequence)]
    + [LegInput(s, p, B.ObserveBenchmarkBook(Some(LegBook(s.ledger.manifest, s.profile, p, s.lastAt)), LedgerStuck.SomeHash()), sequence)]
    + Resolving(s, p, sequence)
  }

  lemma {:induction false} RunJoins(s: Projection, a: seq<Input>, b: seq<Input>)
    ensures Run(s, a + b) == Run(Run(s, a), b)
  {
    hide Attempt;
    if b == [] {
      assert a + b == a;
    } else {
      RunJoins(s, a, b[..|b| - 1]);
      assert (a + b)[..|a + b| - 1] == a + b[..|b| - 1];
    }
  }

  /** A leg bought now, and nothing else changed but the mark its fill expects. */
  ghost predicate LegBought(s: Projection, p: Product, n: Projection) {
    && Meanwhile(s, n) && J.Started(n.benchmarks, p) && |n.events.slots| <= |s.events.slots| + 1
    && n.benchmarks.products == s.benchmarks.products.With(p, n.benchmarks.products.At(p))
  }

  lemma ResolvingBuys(s: Projection, p: Product, sequence: int)
    requires Kept(s) && s.campaign.phase == LocalObserving && 0 < sequence <= MAX_SAFE && Unused(s.events.slots, sequence)
    requires s.benchmarks.products.At(p).Some? && s.benchmarks.products.At(p).value.phase == B.Quoted && Winnable(s, p)
    ensures LegBought(s, p, Run(s, Resolving(s, p, sequence)))
    ensures Run(s, Resolving(s, p, sequence)).events.slots == s.events.slots + [EmptySlot(FillMark(sequence), s.lastAt)]
  {
    hide Kept;
    hide Run;
    hide B.Resolve;
    var leg := s.benchmarks.products.At(p).value;
    FundedQuotesResolve(leg, s.ledger.manifest, s.profile, p, s.lastAt);
    var bought := B.Resolve(leg, leg.requestedAt.value, s.ledger.manifest, Some(s.profile), LocalObserving, p, s.lastAt);
    LegStepPasses(s, p, B.ResolveBenchmark, sequence, bought);
  }

  lemma BuyingBuys(s: Projection, p: Product, sequence: int)
    requires Kept(s) && s.campaign.phase == LocalObserving && 0 < sequence <= MAX_SAFE && Unused(s.events.slots, sequence)
    requires s.benchmarks.products.At(p).Some?
    requires var phase := s.benchmarks.products.At(p).value.phase; phase == B.Expected || phase == B.LegPhase.Rejected
    requires B.OpeningWindow(s.ledger.manifest, s.lastAt)
    ensures LegBought(s, p, Run(s, Buying(s, p, sequence)))
    ensures Run(s, Buying(s, p, sequence)).events.slots == s.events.slots + [EmptySlot(FillMark(sequence), s.lastAt)]
  {
    hide Kept;
    hide Run;
    hide B.Resolve;
    hide Sha256;
    hide ExecutionRefusal;
    hide LegBook;
    ProfileOf(s, p);
    OpeningOf(s);
    var m, at := s.ledger.manifest, s.lastAt;
    var request, observe := LegCommand(s, p, B.RequestBenchmark),
      LegCommand(s, p, B.ObserveBenchmarkBook(Some(LegBook(m, s.profile, p, at)), LedgerStuck.SomeHash()));
    var requested := B.OnLeg(s.benchmarks.products.At(p).value, m, Some(s.profile), LocalObserving, request, at).value;
    LegStepPasses(s, p, request.event, sequence, requested);
    var one := Run(s, [LegInput(s, p, request.event, sequence)]);
    FreshQuoteFills(requested, m, s.profile, p, at, observe);
    var quoted := B.OnLeg(requested, m, Some(s.profile), LocalObserving, observe, at).value;
    LegStepPasses(one, p, observe.event, sequence, quoted);
    var two := Run(one, [LegInput(s, p, observe.event, sequence)]);
    FundedQuotesResolve(quoted, m, s.profile, p, at);
    ResolvingBuys(two, p, sequence);
    RunJoins(s, [LegInput(s, p, request.event, sequence)], [LegInput(s, p, observe.event, sequence)]);
    RunJoins(s, [LegInput(s, p, request.event, sequence)] + [LegInput(s, p, observe.event, sequence)], Resolving(s, p, sequence));
  }

  lemma ProfileOf(s: Projection, p: Product)
    requires Kept(s)
    ensures 0 <= s.profile.quantityDecimals.At(p) <= 12 && s.profile.sourceProfileId == s.ledger.manifest.sourceProfileId
  {
    hide Sound;
  }

  lemma OpeningOf(s: Projection)
    requires Kept(s) && s.campaign.phase == LocalObserving && B.OpeningWindow(s.ledger.manifest, s.lastAt)
    ensures Opening(s.ledger.manifest, s.lastAt)
  {
    hide Sound;
    LedgerIsSound(s);
    ClocksOf(s);
  }

  lemma ClocksOf(s: Projection)
    requires Sound(s)
    ensures Timestamp(s.lastAt)
  {
  }

  lemma LegCanBeBought(s: Projection, p: Product) returns (more: seq<Input>)
    requires Kept(s) && Winnable(s, p) && |s.events.slots| < MAX_SAFE
    ensures LegBought(s, p, Run(s, more))
  {
    hide Sound;
    hide Run;
    hide B.Resolve;
    hide ProfileKept;
    hide SlotsKept;
    hide CampaignKept;
    var leg := s.benchmarks.products.At(p).value;
    var sequence := SomeNumberIsUnused(s.events.slots, MAX_SAFE);
    ProfileOf(s, p);
    if leg.phase == B.Initialized {
      RunNothing(s);
      more := [];
    } else if leg.phase == B.Quoted {
      ResolvingBuys(s, p, sequence);
      more := Resolving(s, p, sequence);
    } else if leg.phase == B.Requested {
      more := DroppingBuys(s, p, sequence);
    } else {
      BuyingBuys(s, p, sequence);
      more := Buying(s, p, sequence);
    }
  }

  /** A pending response is recorded as missing, and the leg asked for again. */
  lemma DroppingBuys(s: Projection, p: Product, sequence: int) returns (more: seq<Input>)
    requires Kept(s) && s.campaign.phase == LocalObserving && 0 < sequence <= MAX_SAFE && Unused(s.events.slots, sequence)
    requires s.benchmarks.products.At(p).Some? && s.benchmarks.products.At(p).value.phase == B.Requested
    requires s.benchmarks.products.At(p).value.requestedAt.Some? && B.OpeningWindow(s.ledger.manifest, s.lastAt)
    ensures LegBought(s, p, Run(s, more))
  {
    hide Kept;
    hide Run;
    hide Sha256;
    LedgerStuck.NamesAreValid();
    var event := B.ObserveBenchmarkBook(None, LedgerStuck.SomeHash());
    var leg := s.benchmarks.products.At(p).value;
    var rejected := B.OnLeg(leg, s.ledger.manifest, Some(s.profile), LocalObserving, LegCommand(s, p, event), s.lastAt).value;
    LegStepPasses(s, p, event, sequence, rejected);
    var one := Run(s, [LegInput(s, p, event, sequence)]);
    BuyingBuys(one, p, sequence);
    ProfileOf(one, p);
    RunJoins(s, [LegInput(s, p, event, sequence)], Buying(one, p, sequence));
    more := [LegInput(s, p, event, sequence)] + Buying(one, p, sequence);
  }

  ghost predicate Lifts(s: Projection, more: seq<Input>, k: nat) {
    FillSlot(Run(s, more), k) && !Blocks(Run(s, more).events.slots[k])
  }

  /** From a hopeful state: buy what is open, request the mark, observe it, all at one instant. */
  lemma HopefulLifts(s: Projection, k: nat) returns (more: seq<Input>)
    requires Kept(s) && FillSlot(s, k) && Hopeful(s, k) && |s.events.slots| <= 363
    ensures Lifts(s, more, k)
  {
    hide Kept;
    hide Run;
    hide B.Resolve;
    var btc := LegCanBeBought(s, Btc);
    var one := Run(s, btc);
    var eth := LegCanBeBought(one, Eth);
    var two := Run(one, eth);
    RunJoins(s, btc, eth);
    more := btc + eth;
    var three := two;
    if two.events.slots[k].phase == Expected {
      RequestOpens(two, k);
      var request := EventInput(two, two.events.slots[k].id, RequestEventMark);
      three := Run(two, [request]);
      RunJoins(s, more, [request]);
      more := more + [request];
    }
    ObservationLifts(three, k);
    var observe := ObserveInput(three, k, ItemsFor(three, k));
    RunJoins(s, more, [observe]);
    more := more + [observe];
  }

  // ---- The exact condition, over every continuation of every run

  /** The block of a fill can still be lifted by some continuation exactly when its mark is hopeful. */
  lemma LiftedExactlyWhenHopeful(start: Projection, inputs: seq<Input>, k: nat)
    requires Start(start) && FillSlot(Run(start, inputs), k) && Blocks(Run(start, inputs).events.slots[k])
    ensures (exists more :: Lifts(Run(start, inputs), more, k)) <==> Hopeful(Run(start, inputs), k)
  {
    hide Kept;
    hide Run;
    hide Start;
    hide Hopeful;
    hide Blocks;
    var s := Run(start, inputs);
    EveryRunIsKept(start, inputs);
    NumbersAreLeft(start, inputs);
    if Hopeful(s, k) {
      var more := HopefulLifts(s, k);
    } else {
      forall more ensures !Lifts(s, more, k) {
        HopelessForever(s, more, k);
      }
    }
  }

  /** And once it is not, the campaign never trades again: in every continuation the mark blocks, and no
      intent, quote request or fill of the ledger is accepted. */
  lemma HopelessEndsTrading(start: Projection, inputs: seq<Input>, k: nat, more: seq<Input>)
    requires Start(start) && FillSlot(Run(start, inputs), k) && Blocks(Run(start, inputs).events.slots[k])
    requires !Hopeful(Run(start, inputs), k)
    ensures Blocked(Run(Run(start, inputs), more).events)
    ensures forall c: L.Command, at, sequence ::
              Economic(c.event) ==> Attempt(Run(Run(start, inputs), more), Do(OnLedger(c), at, sequence)).Fail?
  {
    hide Run;
    hide Start;
    hide Hopeful;
    hide Sound;
    hide Economic;
    hide Attempt;
    hide SlotsKept;
    hide CampaignKept;
    var s := Run(start, inputs);
    EveryRunIsKept(start, inputs);
    HopelessForever(s, more, k);
    EntriesAreSound(Run(s, more));
    forall c: L.Command, at, sequence | Economic(c.event)
      ensures Attempt(Run(s, more), Do(OnLedger(c), at, sequence)).Fail?
    {
      BlockedMarks.BlockedRefuses(Run(s, more), c, at, sequence);
    }
  }
}
