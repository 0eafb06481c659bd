/** The P7 campaign ledger: one slot per product and day, driven by recorded commands, with
    optimistic concurrency on a per-product portfolio version. */
module Ledger {
  import opened Basics
  import opened Depth
  import opened Evidence

  datatype Phase = Expected | Admitted | Intended | Requested | Quoted | Terminal

  datatype Manifest = Manifest(
    campaignId: string, manifestSha256: string, startAt: int, endAt: int, sourceProfileId: string, clockVerified: bool)

  datatype Portfolio = Portfolio(cash: real, position: real, version: nat)

  datatype CloseKind = Hold | RiskRejected | QuoteRejected | BrokerRejected | Missed

  datatype Outcome =
    | Closed(kind: CloseKind, reason: Option<string>)
    | SimulatedFill(price: real, fee: real)

  datatype Admission = Admission(evaluatedAt: int, windowSha256: string, portfolioVersion: nat)

  datatype Intent = Intent(side: Side, quantity: real, portfolioVersion: nat, persistedAt: int)

  /** `refusal` is None for an eligible quote. */
  datatype Quote = Quote(bodySha256: string, receivedAt: Option<int>, sequence: Option<nat>, refusal: Option<string>)

  datatype Slot = Slot(
    phase: Phase,
    revision: nat,
    admission: Option<Admission>,
    intent: Option<Intent>,
    requestedAt: Option<int>,
    quote: Option<Quote>,
    outcome: Option<Outcome>)

  /** The source's slot key `product:close`. */
  datatype Key = Key(product: Product, close: int)

  datatype State = State(
    manifest: Manifest,
    lastRecordedAt: int,
    portfolios: PerProduct<Portfolio>,
    lastSequences: PerProduct<Option<nat>>,
    slots: map<Key, Slot>)

  datatype Event =
    | Expect
    | Admit(evaluatedAt: int, windowSha256: string)
    | MakeIntent(side: Side, quantity: real, portfolioVersion: int)
    | RequestQuote
    | ObserveQuote(book: Option<BookEvidence>, bodySha256: string)
    | Terminate(outcome: Outcome)

  datatype Command = Command(campaignId: string, commandId: string, key: Key, event: Event)

  const START_CASH := 10_000.0

  predicate ValidManifest(m: Manifest, recordedAt: int) {
    && Identifier(m.campaignId) && Identifier(m.sourceProfileId) && Sha256(m.manifestSha256)
    && Timestamp(recordedAt) && Timestamp(m.startAt) && Timestamp(m.endAt)
    && recordedAt < m.startAt && m.startAt % DAY == 0 && m.endAt - m.startAt == CAMPAIGN
  }

  function Initialize(m: Manifest, recordedAt: int): Result<State> {
    if !ValidManifest(m, recordedAt) then Fail("INVALID_MANIFEST")
    else
      var start := Portfolio(START_CASH, 0.0, 0);
      Ok(State(m, recordedAt, PerProduct(start, start), PerProduct(None, None), map[]))
  }

  predicate ValidKey(m: Manifest, key: Key) {
    Timestamp(key.close) && key.close % DAY == 0 && m.startAt <= key.close < m.endAt
  }

  predicate InWindow(m: Manifest, key: Key, at: int) {
    key.close <= at <= key.close + WINDOW && at < m.endAt
  }

  predicate OpenIntent(s: Slot) {
    s.intent.Some? && s.phase != Terminal
  }

  predicate ProductBusy(slots: map<Key, Slot>, p: Product) {
    exists k :: k in slots && k.product == p && OpenIntent(slots[k])
  }

  function Tolerance(amount: real): real {
    Max(1.0, if amount >= 0.0 then amount else -amount) * EPSILON * 16.0
  }

  function Abs(x: real): real {
    if x >= 0.0 then x else -x
  }

  function Snap(x: real, tolerance: real): real {
    if Abs(x) <= tolerance then 0.0 else x
  }

  function CashDelta(i: Intent, price: real, fee: real): real {
    if i.side == Buy then -Value(price, i.quantity) - fee else Value(price, i.quantity) - fee
  }

  function PositionDelta(i: Intent): real {
    if i.side == Buy then i.quantity else -i.quantity
  }

  /** Apply a fill to a portfolio, or refuse it. */
  function FillPortfolio(p: Portfolio, i: Intent, price: real, fee: real): Result<Portfolio> {
    if price <= 0.0 || fee < 0.0 then Fail("INVALID_FILL")
    else
      var expectedFee := Value(price, i.quantity) * 0.006;
      if Abs(fee - expectedFee) > Max(1.0, expectedFee) * EPSILON * 16.0 then Fail("INVALID_FILL_FEE")
      else
        var cash := p.cash + CashDelta(i, price, fee);
        var position := p.position + PositionDelta(i);
        if cash < -Tolerance(p.cash) || position < -Tolerance(p.position) then Fail("PORTFOLIO_INVARIANT_FAILED")
        else Ok(Portfolio(Snap(cash, Tolerance(p.cash)), Snap(position, Tolerance(p.position)), p.version))
  }

  /** Which terminations a phase allows, in the source's order of refusals. */
  function TerminationRefusal(s: Slot, m: Manifest, key: Key, o: Outcome, at: int): Option<string> {
    if o.Closed? && o.reason.Some? && !ReasonCode(o.reason.value) then Some("INVALID_OUTCOME")
    else
      match o
      case Closed(kind, reason) =>
        (match kind
         case Missed => if s.phase != Expected || at <= key.close + WINDOW then Some("INVALID_PHASE") else None
         case Hold => if s.phase != Admitted || !InWindow(m, key, at) then Some("INVALID_PHASE") else None
         case RiskRejected => if s.phase != Admitted || !InWindow(m, key, at) then Some("INVALID_PHASE") else None
         case QuoteRejected =>
           if s.phase != Quoted && s.phase != Requested then Some("INVALID_PHASE")
           else if s.phase == Requested && reason != Some("QUOTE_RESPONSE_UNOBSERVED") then Some("PROOF_GAP_REASON_REQUIRED")
           else None
         case BrokerRejected => ExecutionOutcomeRefusal(s, m, key, at))
      case SimulatedFill(_, _) => ExecutionOutcomeRefusal(s, m, key, at)
  }

  function ExecutionOutcomeRefusal(s: Slot, m: Manifest, key: Key, at: int): Option<string> {
    if s.phase != Quoted || s.quote.None? || s.quote.value.refusal.Some? || s.intent.None? then Some("INVALID_PHASE")
    else if !InWindow(m, key, at) then Some("WINDOW_EXPIRED")
    else None
  }

  function ExpectedVersion(s: Slot, p: Portfolio): nat {
    if s.intent.Some? then s.intent.value.portfolioVersion
    else if s.admission.Some? then s.admission.value.portfolioVersion
    else p.version
  }

  /** The slot, portfolio and sequence after one accepted event on an existing, non-terminal slot. */
  datatype Change = Change(slot: Slot, portfolio: Portfolio, sequence: Option<nat>)

  function OnSlot(st: State, c: Command, at: int): Result<Change>
    requires c.key in st.slots
  {
    var m, key, s, p := st.manifest, c.key, st.slots[c.key], st.portfolios.At(c.key.product);
    var sequence := st.lastSequences.At(key.product);
    var next := s.(revision := s.revision + 1);
    match c.event
    case Expect => Fail("INVALID_PHASE")
    case Admit(evaluatedAt, windowSha256) =>
      if s.phase != Expected then Fail("INVALID_PHASE")
      else if || !InWindow(m, key, at) || !Timestamp(evaluatedAt) || evaluatedAt < key.close || evaluatedAt > at
              || !Sha256(windowSha256)
      then Fail("INVALID_ADMISSION")
      else Ok(Change(next.(phase := Admitted, admission := Some(Admission(evaluatedAt, windowSha256, p.version))), p, sequence))
    case MakeIntent(side, quantity, portfolioVersion) =>
      if s.phase != Admitted then Fail("INVALID_PHASE")
      else if !InWindow(m, key, at) || quantity <= 0.0 then Fail("INVALID_INTENT")
      else if portfolioVersion != p.version || s.admission.None? || s.admission.value.portfolioVersion != p.version
      then Fail("PORTFOLIO_VERSION_CONFLICT")
      else if ProductBusy(st.slots, key.product) then Fail("PRODUCT_BUSY")
      else Ok(Change(next.(phase := Intended, intent := Some(Intent(side, quantity, p.version, at))), p, sequence))
    case RequestQuote =>
      if s.phase != Intended then Fail("INVALID_PHASE")
      else if !InWindow(m, key, at) then Fail("WINDOW_EXPIRED")
      else Ok(Change(next.(phase := Requested, requestedAt := Some(at)), p, sequence))
    case ObserveQuote(book, bodySha256) =>
      if s.phase != Requested || s.intent.None? || s.requestedAt.None? then Fail("INVALID_PHASE")
      else if !Sha256(bodySha256) then Fail("INVALID_QUOTE_HASH")
      else
        var scope := QuoteScope(key.product, m.sourceProfileId, m.clockVerified, m.startAt, m.endAt, key.close,
                                s.intent.value.persistedAt, sequence);
        var refusal :=
          if || book.None? || book.value.requestedAt != s.requestedAt || !Known(book.value.receivedAt)
             || book.value.receivedAt.value > at
          then Some("INVALID_TIMELINE")
          else ExecutionRefusal(scope, book);
        var quote := Quote(bodySha256,
                           if book.Some? && Known(book.value.receivedAt) then book.value.receivedAt else None,
                           if book.Some? then book.value.sequence else None,
                           refusal);
        Ok(Change(next.(phase := Quoted, quote := Some(quote)), p, if refusal.None? then book.value.sequence else sequence))
    case Terminate(outcome) =>
      var refusal := TerminationRefusal(s, m, key, outcome, at);
      if refusal.Some? then Fail(refusal.value)
      else if ExpectedVersion(s, p) != p.version then Fail("PORTFOLIO_VERSION_CONFLICT")
      else
        var filled :=
          if outcome.SimulatedFill? && s.intent.Some? then FillPortfolio(p, s.intent.value, outcome.price, outcome.fee)
          else Ok(p);
        match filled
        case Fail(error) => Fail(error)
        case Ok(q) => Ok(Change(next.(phase := Terminal, outcome := Some(outcome)), q.(version := p.version + 1), sequence))
  }

  /** One recorded command: refused with a reason, or applied in full. */
  function Apply(st: State, c: Command, at: int): Result<State> {
    var key := c.key;
    if || !Identifier(c.commandId) || c.campaignId != st.manifest.campaignId || !ValidKey(st.manifest, key)
       || !Timestamp(at) || at < st.lastRecordedAt
    then Fail("INVALID_COMMAND")
    else if c.event.Expect? then
      if key in st.slots then Fail("INVALID_PHASE")
      else Ok(st.(lastRecordedAt := at, slots := st.slots[key := Slot(Expected, 1, None, None, None, None, None)]))
    else if key !in st.slots || st.slots[key].phase == Terminal then Fail("INVALID_PHASE")
    else
      match OnSlot(st, c, at)
      case Fail(error) => Fail(error)
      case Ok(change) =>
        Ok(st.(lastRecordedAt := at,
               slots := st.slots[key := change.slot],
               portfolios := st.portfolios.With(key.product, change.portfolio),
               lastSequences := st.lastSequences.With(key.product, change.sequence)))
  }

  // ---- What every accepted command does

  function Rank(p: Phase): nat {
    match p
    case Expected => 1
    case Admitted => 2
    case Intended => 3
    case Requested => 4
    case Quoted => 5
    case Terminal => 6
  }

  predicate IsFill(e: Event) {
    e.Terminate? && e.outcome.SimulatedFill?
  }

  /** The recorded parts of a slot agree with its phase. */
  ghost predicate SlotShape(s: Slot) {
    && s.revision <= Rank(s.phase)
    && (s.phase == Expected ==> s.admission.None?)
    && (Rank(s.phase) <= 2 ==> s.intent.None?)
    && (2 <= Rank(s.phase) <= 5 ==> s.admission.Some?)
    && (3 <= Rank(s.phase) <= 5 ==> s.intent.Some?)
    && (s.intent.Some? ==> s.admission.Some? && s.intent.value.portfolioVersion == s.admission.value.portfolioVersion
                           && s.intent.value.quantity > 0.0)
    && (s.phase == Requested ==> s.requestedAt.Some?)
    && (s.outcome.Some? <==> s.phase == Terminal)
    && (s.outcome.Some? && s.outcome.value.SimulatedFill? ==> s.intent.Some?)
  }

  /** At most one slot per product holds an intent that is not yet closed. */
  ghost predicate OneOpenIntent(slots: map<Key, Slot>) {
    forall k, j | k in slots && j in slots && k.product == j.product :: OpenIntent(slots[k]) && OpenIntent(slots[j]) ==> k == j
  }

  /** Everything but the summed accounts, for one product-independent state. */
  ghost predicate Invariant(st: State) {
    && (exists at :: ValidManifest(st.manifest, at))
    && Timestamp(st.lastRecordedAt)
    && (forall k :: k in st.slots ==> ValidKey(st.manifest, k) && SlotShape(st.slots[k]))
    && (forall p :: st.portfolios.At(p).cash >= 0.0 && st.portfolios.At(p).position >= 0.0)
    && OneOpenIntent(st.slots)
  }

  lemma FillKeepsSigns(p: Portfolio, i: Intent, price: real, fee: real)
    requires p.cash >= 0.0 && p.position >= 0.0
    ensures var r := FillPortfolio(p, i, price, fee);
            r.Ok? ==> r.value.cash >= 0.0 && r.value.position >= 0.0 && r.value.version == p.version
  {
    hide Value;
  }

  /** What an accepted event does to its own slot and to the portfolio of its product. */
  ghost predicate ProperChange(s: Slot, p: Portfolio, c: Command, r: Change) {
    && SlotShape(r.slot)
    && r.slot.revision == s.revision + 1
    && Rank(r.slot.phase) > Rank(s.phase)
    && (s.admission.Some? ==> r.slot.admission == s.admission)
    && (s.intent.Some? ==> r.slot.intent == s.intent)
    && (c.event.Admit? ==> r.slot.admission == Some(Admission(c.event.evaluatedAt, c.event.windowSha256, p.version)))
    && (s.admission.None? && !c.event.Admit? ==> r.slot.admission.None?)
    && r.portfolio.cash >= 0.0 && r.portfolio.position >= 0.0
    && (if c.event.Terminate? then r.slot.phase == Terminal && r.portfolio.version == p.version + 1 else r.portfolio == p)
    && (!IsFill(c.event) ==> r.portfolio.cash == p.cash && r.portfolio.position == p.position)
  }

  lemma OnSlotIsProper(st: State, c: Command, at: int)
    requires c.key in st.slots && SlotShape(st.slots[c.key]) && st.slots[c.key].phase != Terminal
    requires st.portfolios.At(c.key.product).cash >= 0.0 && st.portfolios.At(c.key.product).position >= 0.0
    requires OnSlot(st, c, at).Ok?
    ensures ProperChange(st.slots[c.key], st.portfolios.At(c.key.product), c, OnSlot(st, c, at).value)
    ensures var s, r := st.slots[c.key], OnSlot(st, c, at).value.slot;
            s.intent.None? && r.intent.Some? ==> !ProductBusy(st.slots, c.key.product)
  {
    hide FillPortfolio;
    hide Value;
    hide ExecutionRefusal;
    hide ProductBusy;
    hide InWindow;
    hide Sha256;
    if c.event.Terminate? && st.slots[c.key].intent.Some? && c.event.outcome.SimulatedFill? {
      FillKeepsSigns(st.portfolios.At(c.key.product), st.slots[c.key].intent.value, c.event.outcome.price, c.event.outcome.fee);
    }
  }

  /** Every accepted command keeps the invariant and moves exactly one slot strictly forward, by one
      revision; a terminal slot never changes; only terminations touch the portfolio of that product,
      and every termination raises its version by one. */
  lemma StepKeepsInvariant(st: State, c: Command, at: int)
    requires Invariant(st) && Apply(st, c, at).Ok?
    ensures var next := Apply(st, c, at).value;
            && Invariant(next)
            && next.manifest == st.manifest && st.lastRecordedAt <= next.lastRecordedAt == at
            && next.slots.Keys == st.slots.Keys + {c.key}
            && (forall k :: k in st.slots && k != c.key ==> next.slots[k] == st.slots[k])
            && (c.key in st.slots ==> st.slots[c.key].phase != Terminal && Rank(next.slots[c.key].phase) > Rank(st.slots[c.key].phase)
                                      && next.slots[c.key].revision == st.slots[c.key].revision + 1)
            && (forall p :: p != c.key.product ==> next.portfolios.At(p) == st.portfolios.At(p))
            && (if c.event.Terminate?
                then next.portfolios.At(c.key.product).version == st.portfolios.At(c.key.product).version + 1
                else next.portfolios == st.portfolios)
            && (!IsFill(c.event) ==>
                forall p :: && next.portfolios.At(p).cash == st.portfolios.At(p).cash
                            && next.portfolios.At(p).position == st.portfolios.At(p).position)
  {
    hide OnSlot;
    hide ValidManifest;
    hide SlotShape;
    var next := Apply(st, c, at).value;
    if c.event.Expect? {
      FreshSlotShape();
    } else {
      OnSlotIsProper(st, c, at);
      ShapeOf(st, c, at);
    }
  }

  lemma FreshSlotShape()
    ensures SlotShape(Slot(Expected, 1, None, None, None, None, None))
  {
  }

  lemma ShapeOf(st: State, c: Command, at: int)
    requires c.key in st.slots && OnSlot(st, c, at).Ok?
    requires ProperChange(st.slots[c.key], st.portfolios.At(c.key.product), c, OnSlot(st, c, at).value)
    ensures SlotShape(OnSlot(st, c, at).value.slot)
  {
  }

  lemma SnapError(x: real, t: real)
    requires t >= 0.0
    ensures -t <= Snap(x, t) - x <= t
  {
  }

  lemma TolerancePositive(x: real)
    ensures Tolerance(x) > 0.0
  {
  }

  /** A fill is a trade at its price: cash plus position at that price falls by the fee alone, and the
      position moves by the quantity to the intent's side, each within the snap tolerance. */
  lemma FillsCostTheirFee(p: Portfolio, i: Intent, price: real, fee: real)
    requires FillPortfolio(p, i, price, fee).Ok?
    ensures var q := FillPortfolio(p, i, price, fee).value;
            var drift := Tolerance(p.cash) + Value(price, Tolerance(p.position));
            && Abs((q.cash + Value(price, q.position)) - (p.cash + Value(price, p.position) - fee)) <= drift
            && Abs(q.position - (if i.side == Buy then p.position + i.quantity else p.position - i.quantity)) <= Tolerance(p.position)
            && fee >= 0.0 && Abs(fee - Value(price, i.quantity) * 0.006) <= Max(1.0, Value(price, i.quantity) * 0.006) * EPSILON * 16.0
  {
    hide Value;
    hide Tolerance;
    hide Snap;
    var q := FillPortfolio(p, i, price, fee).value;
    var cash, position := p.cash + CashDelta(i, price, fee), p.position + PositionDelta(i);
    TolerancePositive(p.cash);
    TolerancePositive(p.position);
    SnapError(cash, Tolerance(p.cash));
    SnapError(position, Tolerance(p.position));
    ValueOfSum(price, p.position, PositionDelta(i));
    ValueOfSum(price, i.quantity, -i.quantity);
    ValueOfSum(price, position, q.position - position);
    ValueWithin(price, q.position - position, Tolerance(p.position));
  }

  lemma ValueOfSum(price: real, a: real, b: real)
    ensures Value(price, a + b) == Value(price, a) + Value(price, b)
    ensures Value(price, 0.0) == 0.0
  {
  }

  lemma ValueWithin(price: real, x: real, tolerance: real)
    requires price > 0.0 && Abs(x) <= tolerance
    ensures Abs(Value(price, x)) <= Value(price, tolerance)
  {
    assert price * (tolerance - x) >= 0.0 && price * (tolerance + x) >= 0.0;
  }
}
