/** The campaign runner: every recorded command re-validated against the whole projection. */
module Shadow {
  import opened Basics
  import opened Depth
  import opened Evidence
  import opened Marks
  import opened EventMarks
  import opened Campaign
  import L = Ledger
  import B = Benchmark
  import J = JointMarks

  datatype Projection = Projection(
    ledger: L.State,
    campaign: CampaignState,
    benchmarks: B.Entries,
    profile: B.Profile,
    marks: MarkState,
    benchmarkMarks: MarkState,
    events: EventState,
    books: map<L.Key, Option<BookEvidence>>,
    lastAt: int,
    hasFills: bool)

  datatype Command =
    | OnLedger(ledgerCommand: L.Command)
    | OnBenchmark(entryCommand: B.EntryCommand)
    | OnMark(markCommand: MarkCommand)
    | OnEvent(eventCommand: EventCommand)
    | OnCampaign(kind: Kind, campaignId: string, commandId: string)

  function Expecting(entries: B.Entries, ledger: L.State, profile: B.Profile, p: Product, at: int): Result<B.Entries> {
    var name := if p == Btc then "expect-bh-BTC-USD" else "expect-bh-ETH-USD";
    B.ApplyEntry(entries, ledger, Some(profile), Registered, B.EntryCommand(ledger.manifest.campaignId, name, p, B.ExpectBenchmark), at, false)
  }

  function Initialize(m: L.Manifest, profile: B.Profile, at: int): Result<Projection> {
    match L.Initialize(m, at)
    case Fail(error) => Fail(error)
    case Ok(ledger) =>
      match B.RegisterProfile(None, m, profile, m.campaignId, "profile", at)
      case Fail(error) => Fail(error)
      case Ok(checked) =>
        match Expecting(B.NO_ENTRIES, ledger, checked, Btc, at)
        case Fail(error) => Fail(error)
        case Ok(one) =>
          match Expecting(one, ledger, checked, Eth, at)
          case Fail(error) => Fail(error)
          case Ok(entries) =>
            var scene := Scene(NO_EVENTS, Marks.EMPTY, Marks.EMPTY, ledger, entries);
            match ApplyEventMark(scene, true, false, EventCommand(m.campaignId, "event-marks", FinalMark, RegisterEventMarks), at)
            case Fail(error) => Fail(error)
            case Ok(events) =>
              Ok(Projection(ledger, Campaign.Initial(at), entries, checked, Marks.EMPTY, Marks.EMPTY, events, map[], at, false))
  }

  predicate LegRequested(entries: B.Entries, p: Product) {
    entries.products.At(p).Some? && entries.products.At(p).value.phase == B.Requested
  }

  predicate Pending(s: Projection) {
    || LegRequested(s.benchmarks, Btc) || LegRequested(s.benchmarks, Eth)
    || exists i :: 0 <= i < |s.events.slots| && s.events.slots[i].phase == Requested
  }

  function Observations(slots: seq<EventSlot>): seq<Observation> {
    if slots == [] then []
    else
      var last := slots[|slots| - 1].observation;
      Observations(slots[..|slots| - 1]) + if last.Some? then [last.value] else []
  }

  function ViewOf(s: Projection): View {
    View(s.ledger, s.marks, s.benchmarkMarks, Observations(s.events.slots), Pending(s))
  }

  function Safety(s: Projection, at: int, recovery: bool): Result<CampaignState> {
    Evaluate(s.campaign, ViewOf(s), at, recovery)
  }

  /** The price at which the persisted quote of a slot would fill now. */
  function PlanShadowPricing(s: Projection, key: L.Key, at: int): Result<DepthPrice> {
    if key !in s.ledger.slots || s.ledger.slots[key].phase != L.Quoted || s.ledger.slots[key].intent.None?
    then Fail("QUOTE_NOT_PERSISTED")
    else
      var m, i := s.ledger.manifest, s.ledger.slots[key].intent.value;
      var scope := QuoteScope(key.product, m.sourceProfileId, m.clockVerified, m.startAt, m.endAt, key.close, i.persistedAt,
                              s.ledger.lastSequences.At(key.product));
      Ok(PlanPricing(scope, if key in s.books then s.books[key] else None, i.side, i.quantity, at))
  }

  /** Buys, quote requests and fills are the commands that need a healthy campaign. */
  predicate Economic(e: L.Event) {
    e.MakeIntent? || e.RequestQuote? || L.IsFill(e)
  }

  function FillPrice(vwap: real, side: Side): real {
    vwap * (if side == Buy then 1.0002 else 0.9998)
  }

  /** The commit-time check of a fill, or None. */
  function FillClockRefusal(s: Projection, key: L.Key, at: int): Option<string> {
    var book := if key in s.books then s.books[key] else None;
    var observed := if book.Some? then book.value.sourceObservedAt else None;
    if !Timestamp(at) then Some("COMMIT_CLOCK_INVALID")
    else if || !Known(observed) || observed.value > at || at - observed.value > FRESHNESS
            || at > key.close + WINDOW || at >= s.ledger.manifest.endAt
    then Some("PRICING_EXPIRED_BEFORE_COMMIT")
    else None
  }

  /** Why the runner refuses a ledger command before the ledger sees it. */
  function LedgerGate(s: Projection, c: L.Command, at: int): Option<string> {
    var safety := Safety(s, at, false);
    if Economic(c.event) && safety.Fail? then Some(safety.error)
    else if Economic(c.event) && safety.value.phase != LocalObserving then Some("CAMPAIGN_SAFETY_BLOCKED")
    else if Economic(c.event) && Blocked(s.events) then Some("AFTER_FILL_MARK_REQUIRED")
    else if L.IsFill(c.event) then
      var pricing := PlanShadowPricing(s, c.key, at);
      if pricing.Fail? then Some(pricing.error)
      else if pricing.value.Rejected? then Some("PRICING_REVALIDATION_FAILED")
      else
        var i := s.ledger.slots[c.key].intent.value;
        var price := FillPrice(pricing.value.vwap, i.side);
        if c.event.outcome.price != price || c.event.outcome.fee != price * i.quantity * 0.006 then Some("CALLER_FILL_MISMATCH")
        else None
    else None
  }

  function BooksAfter(books: map<L.Key, Option<BookEvidence>>, c: L.Command): map<L.Key, Option<BookEvidence>> {
    match c.event
    case ObserveQuote(book, _) => books[c.key := book]
    case Terminate(_) => books - {c.key}
    case _ => books
  }

  function LedgerStep(s: Projection, c: L.Command, at: int): Result<Projection> {
    var gate := LedgerGate(s, c, at);
    if gate.Some? then Fail(gate.value)
    else
      match L.Apply(s.ledger, c, at)
      case Fail(error) => Fail(error)
      case Ok(ledger) =>
        var clock := FillClockRefusal(s, c.key, at);
        if L.IsFill(c.event) && clock.Some? then Fail(clock.value)
        else Ok(s.(lastAt := at, ledger := ledger, books := BooksAfter(s.books, c)))
  }

  function BenchmarkStep(s: Projection, c: B.EntryCommand, at: int): Result<Projection> {
    match Safety(s, at, false)
    case Fail(error) => Fail(error)
    case Ok(safety) =>
      match B.ApplyEntry(s.benchmarks, s.ledger, Some(s.profile), safety.phase, c, at, false)
      case Fail(error) => Fail(error)
      case Ok(entries) => Ok(s.(lastAt := at, benchmarks := entries))
  }

  predicate LegFilled(s: Projection, c: B.EntryCommand) {
    c.event.ResolveBenchmark? && J.Started(s.benchmarks, c.product)
  }

  function ObservationAt(st: MarkState, scheduledAt: int): Option<Observation> {
    var slot := SlotAt(st.slots, scheduledAt);
    if slot.None? then None else slot.value.observation
  }

  function MarkStep(s: Projection, c: MarkCommand, at: int): Result<Projection> {
    match J.ApplyJoint(s.marks, s.benchmarkMarks, s.ledger, s.benchmarks, c, at)
    case Fail(error) => Fail(error)
    case Ok(joint) =>
      var endAt := s.ledger.manifest.endAt;
      var refusal := CommitClockRefusal(c, ObservationAt(joint.state, c.scheduledAt), endAt, at, at);
      var other := CommitClockRefusal(c, ObservationAt(joint.benchmarkState, c.scheduledAt), endAt, at, at);
      if refusal.Some? then Fail(refusal.value)
      else if other.Some? then Fail(other.value)
      else Ok(s.(lastAt := at, marks := joint.state, benchmarkMarks := joint.benchmarkState))
  }

  function EventStepOf(s: Projection, c: EventCommand, at: int): Result<Projection> {
    match ApplyEventMark(Scene(s.events, s.marks, s.benchmarkMarks, s.ledger, s.benchmarks), true, s.hasFills, c, at)
    case Fail(error) => Fail(error)
    case Ok(events) =>
      var i := Find(events.slots, c.id);
      var books := if c.event.ObserveEventMark? then Some(c.event.books) else None;
      var refusal := if i.None? then None else EventClockRefusal(events.slots[i.value], books, s.ledger.manifest.endAt, at, at);
      if refusal.Some? then Fail(refusal.value) else Ok(s.(lastAt := at, events := events))
  }

  function CampaignStep(s: Projection, kind: Kind, campaignId: string, commandId: string, at: int): Result<Projection> {
    match ApplyCampaign(s.campaign, ViewOf(s), campaignId, commandId, kind, at)
    case Fail(error) => Fail(error)
    case Ok(campaign) => Ok(s.(lastAt := at, campaign := campaign))
  }

  /** The component a command touches, before the shared end of the step. */
  function Touched(s: Projection, input: Command, at: int): Result<Projection> {
    match input
    case OnLedger(c) => LedgerStep(s, c, at)
    case OnBenchmark(c) => BenchmarkStep(s, c, at)
    case OnMark(c) => MarkStep(s, c, at)
    case OnEvent(c) => EventStepOf(s, c, at)
    case OnCampaign(kind, campaignId, commandId) => CampaignStep(s, kind, campaignId, commandId, at)
  }

  /** Whether the accepted command filled something: `next` is the projection after it. */
  predicate Filled(next: Projection, input: Command) {
    match input
    case OnLedger(c) => L.IsFill(c.event)
    case OnBenchmark(c) => LegFilled(next, c)
    case _ => false
  }

  /** One step: refused as a whole, or applied, marked and re-evaluated. */
  function Step(s: Projection, input: Command, at: int, sequence: int): Result<Projection> {
    if at > MAX_SAFE || at < s.lastAt then Fail("INVALID_CLOCK")
    else
      match Touched(s, input, at)
      case Fail(error) => Fail(error)
      case Ok(next) =>
        var expected := if Filled(next, input) then ExpectAfterFill(next.events, sequence, at) else Ok(next.events);
        match expected
        case Fail(error) => Fail(error)
        case Ok(events) =>
          var marked := next.(events := events, hasFills := s.hasFills || Filled(next, input));
          match Safety(marked, at, false)
          case Fail(error) => Fail(error)
          case Ok(campaign) => Ok(marked.(campaign := campaign))
  }

  /** A gap in the request log suspends an observing campaign. */
  function SuspendForRequestGap(s: Projection, at: int, reason: string): Result<Projection> {
    match Safety(s, at, true)
    case Fail(error) => Fail(error)
    case Ok(campaign) =>
      Ok(s.(lastAt := at,
            campaign := if campaign.phase == LocalObserving
                        then campaign.(phase := Suspended, reasons := campaign.reasons + [reason]) else campaign))
  }

  /** What an accepted step changes: the clock, the one component its command is for, the flag and the
      expectation of a fill, and the campaign, which is evaluated last. */
  predicate TouchesOne(s: Projection, input: Command, at: int, sequence: int, n: Projection) {
    && s.lastAt <= at <= MAX_SAFE && n.lastAt == at && n.campaign.lastEvaluatedAt == at && n.profile == s.profile
    && (!input.OnLedger? ==> n.ledger == s.ledger && n.books == s.books)
    && (!input.OnBenchmark? ==> n.benchmarks == s.benchmarks)
    && (!input.OnMark? ==> n.marks == s.marks && n.benchmarkMarks == s.benchmarkMarks)
    && (if FillsNow(n, input)
        then && n.hasFills && n.events.active == s.events.active
             && n.events.slots == s.events.slots + if s.events.active then [EmptySlot(FillMark(sequence), at)] else []
        else && n.hasFills == s.hasFills && (!input.OnEvent? ==> n.events == s.events)
             && (s.events.active ==> n.events.active && |n.events.slots| == |s.events.slots|))
  }

  /** A fill of the ledger, or of a benchmark leg by the step just made. */
  predicate FillsNow(n: Projection, input: Command) {
    (input.OnLedger? && L.IsFill(input.ledgerCommand.event)) || (input.OnBenchmark? && LegFilled(n, input.entryCommand))
  }

  /** So a fill, and nothing else, leaves one more event slot; a refused command leaves no projection at all. */
  lemma StepTouchesOne(s: Projection, input: Command, at: int, sequence: int)
    requires Step(s, input, at, sequence).Ok?
    ensures TouchesOne(s, input, at, sequence, Step(s, input, at, sequence).value)
  {
    hide Safety;
    hide LedgerGate;
    hide FillClockRefusal;
    hide ApplyEventMark;
    hide Find;
    hide EventClockRefusal;
    hide J.ApplyJoint;
    hide B.ApplyEntry;
    hide L.Apply;
    hide ApplyCampaign;
    hide CommitClockRefusal;
    var next := Touched(s, input, at).value;
    var marked := next.(events := if Filled(next, input) then ExpectAfterFill(next.events, sequence, at).value else next.events,
                        hasFills := s.hasFills || Filled(next, input));
    SafetyIsDated(marked, at);
    if input.OnEvent? && s.events.active {
      EventsKeepTheirSlots(Scene(s.events, s.marks, s.benchmarkMarks, s.ledger, s.benchmarks), s.hasFills, input.eventCommand, at);
    }
    if Filled(next, input) {
      ExpectationAppends(next.events, sequence, at);
    }
  }

  lemma SafetyIsDated(s: Projection, at: int)
    requires Safety(s, at, false).Ok?
    ensures Safety(s, at, false).value.lastEvaluatedAt == at
  {
    hide Series;
    hide ProofGapExceeded;
    hide ReportScope;
    hide AnyRequested;
    hide LedgerRequested;
  }

  lemma EventsKeepTheirSlots(scene: Scene, hasFills: bool, c: EventCommand, at: int)
    requires ApplyEventMark(scene, true, hasFills, c, at).Ok? && scene.st.active
    ensures ApplyEventMark(scene, true, hasFills, c, at).value.active
    ensures |ApplyEventMark(scene, true, hasFills, c, at).value.slots| == |scene.st.slots|
  {
    hide Observe;
    hide SequencesAfter;
    hide Identifier;
  }

  lemma ExpectationAppends(st: EventState, sequence: int, at: int)
    requires ExpectAfterFill(st, sequence, at).Ok?
    ensures var next := ExpectAfterFill(st, sequence, at).value;
            next.active == st.active && next.slots == st.slots + if st.active then [EmptySlot(FillMark(sequence), at)] else []
  {
    hide Find;
  }

  /** The runner in the source's form: a local projection whose fields are assigned as the step goes. */
  method ApplyShadow(s: Projection, input: Command, at: int, sequence: int) returns (r: Result<Projection>)
    ensures r == Step(s, input, at, sequence)
    ensures r.Ok? ==> TouchesOne(s, input, at, sequence, r.value)
    ensures at < s.lastAt || at > MAX_SAFE ==> r.Fail?
  {
    hide Safety;
    hide LedgerStep;
    hide BenchmarkStep;
    hide MarkStep;
    hide EventStepOf;
    hide CampaignStep;
    hide TouchesOne;
    if at > MAX_SAFE || at < s.lastAt {
      return Fail("INVALID_CLOCK");
    }
    var next := s.(lastAt := at);
    var fill := false;
    match input {
      case OnCampaign(kind, campaignId, commandId) =>
        var result := CampaignStep(s, kind, campaignId, commandId, at);
        if result.Fail? { return Fail(result.error); }
        next := result.value;
      case OnLedger(c) =>
        var result := LedgerStep(s, c, at);
        if result.Fail? { return Fail(result.error); }
        next := result.value;
        fill := L.IsFill(c.event);
      case OnBenchmark(c) =>
        var result := BenchmarkStep(s, c, at);
        if result.Fail? { return Fail(result.error); }
        next := result.value;
        fill := c.event.ResolveBenchmark? && J.Started(next.benchmarks, c.product);
      case OnMark(c) =>
        var result := MarkStep(s, c, at);
        if result.Fail? { return Fail(result.error); }
        next := result.value;
      case OnEvent(c) =>
        var result := EventStepOf(s, c, at);
        if result.Fail? { return Fail(result.error); }
        next := result.value;
    }
    next := next.(hasFills := s.hasFills);
    if fill {
      next := next.(hasFills := true);
      var events := ExpectAfterFill(next.events, sequence, at);
      if events.Fail? { return Fail(events.error); }
      next := next.(events := events.value);
    }
    var campaign := Safety(next, at, false);
    if campaign.Fail? { return Fail(campaign.error); }
    next := next.(campaign := campaign.value);
    assert Step(s, input, at, sequence) == Ok(next);
    StepTouchesOne(s, input, at, sequence);
    return Ok(next);
  }
}
