/** The rules of the campaign ledger: exactly which commands it accepts, and what it writes down for each. */
module LedgerRules {
  import opened Basics
  import opened Depth
  import opened Evidence
  import opened Ledger

  /** The phases of a slot in which an event has a place. */
  function PhasesFor(e: Event): set<Phase> {
    match e
    case Expect => {}
    case Admit(_, _) => {Expected}
    case MakeIntent(_, _, _) => {Admitted}
    case RequestQuote => {Intended}
    case ObserveQuote(_, _) => {Requested}
    case Terminate(SimulatedFill(_, _)) => {Quoted}
    case Terminate(Closed(kind, _)) =>
      match kind
      case Missed => {Expected}
      case Hold => {Admitted}
      case RiskRejected => {Admitted}
      case QuoteRejected => {Requested, Quoted}
      case BrokerRejected => {Quoted}
  }

  /** Decisions, quote requests and executions need the window of the slot; a quote may come and be refused late. */
  predicate NeedsWindow(e: Event) {
    match e
    case ObserveQuote(_, _) => false
    case Terminate(Closed(kind, _)) => kind != Missed && kind != QuoteRejected
    case _ => true
  }

  /** Intents and terminations need the portfolio they were decided on. */
  predicate OnCurrentPortfolio(st: State, c: Command)
    requires c.key in st.slots
  {
    var s, version := st.slots[c.key], st.portfolios.At(c.key.product).version;
    match c.event
    case MakeIntent(_, _, v) => v == version && s.admission.Some? && s.admission.value.portfolioVersion == version
    case Terminate(_) => s.phase == Expected || (s.admission.Some? && s.admission.value.portfolioVersion == version)
    case _ => true
  }

  predicate Executable(s: Slot) {
    s.quote.Some? && s.quote.value.refusal.None?
  }

  /** Sixteen times the gap between a number of this size and the next double, for numbers of at least one. */
  function Slack(x: real): real {
    if x > 1.0 then x * 16.0 / 4503599627370496.0 else if x < -1.0 then -x * 16.0 / 4503599627370496.0 else 16.0 / 4503599627370496.0
  }

  lemma SlackIsTolerance(x: real)
    ensures Tolerance(x) == Slack(x)
  {
  }

  /** A fill names a price and the fee of 0.6 percent on it, and the balances can bear it. */
  predicate Payable(p: Portfolio, i: Intent, price: real, fee: real) {
    var traded := Value(price, i.quantity);
    && price > 0.0 && fee >= 0.0 && i.quantity > 0.0
    && -Slack(traded * 0.006) <= fee - traded * 0.006 <= Slack(traded * 0.006)
    && (if i.side == Buy then p.cash - traded - fee >= -Slack(p.cash) && p.position + i.quantity >= -Slack(p.position)
        else p.cash + traded - fee >= -Slack(p.cash) && p.position - i.quantity >= -Slack(p.position))
  }

  /** What an event must bring of its own. */
  predicate Substantiated(st: State, c: Command, at: int)
    requires c.key in st.slots
  {
    var s := st.slots[c.key];
    match c.event
    case Admit(evaluatedAt, window) => Timestamp(evaluatedAt) && c.key.close <= evaluatedAt <= at && Sha256(window)
    case MakeIntent(_, quantity, _) => quantity > 0.0 && !ProductBusy(st.slots, c.key.product)
    case ObserveQuote(_, body) => Sha256(body)
    case Terminate(SimulatedFill(price, fee)) =>
      Executable(s) && s.intent.Some? && Payable(st.portfolios.At(c.key.product), s.intent.value, price, fee)
    case Terminate(Closed(kind, reason)) =>
      && (reason.Some? ==> ReasonCode(reason.value))
      && (kind == Missed ==> at > c.key.close + WINDOW)
      && (kind == BrokerRejected ==> Executable(s))
      && (kind == QuoteRejected && s.phase == Requested ==> reason == Some("QUOTE_RESPONSE_UNOBSERVED"))
    case _ => true
  }

  /** A midnight of the campaign. */
  predicate OfCampaign(m: Manifest, key: Key) {
    Timestamp(key.close) && key.close % 86_400_000 == 0 && m.startAt <= key.close < m.endAt
  }

  /** The two hours from the close of the slot's candle, inside the campaign. */
  predicate OpenFor(m: Manifest, key: Key, at: int) {
    key.close <= at <= key.close + 7_200_000 && at < m.endAt
  }

  predicate Addressed(st: State, c: Command, at: int) {
    Identifier(c.commandId) && c.campaignId == st.manifest.campaignId && OfCampaign(st.manifest, c.key) && Timestamp(at) && at >= st.lastRecordedAt
  }

  predicate Allowed(st: State, c: Command, at: int) {
    && Addressed(st, c, at)
    && if c.event.Expect? then c.key !in st.slots
       else && c.key in st.slots && st.slots[c.key].phase in PhasesFor(c.event)
            && (NeedsWindow(c.event) ==> OpenFor(st.manifest, c.key, at))
            && OnCurrentPortfolio(st, c) && Substantiated(st, c, at)
  }

  /** A command is accepted exactly when it is addressed to this campaign and time, its slot is in a phase for it,
      the window and the portfolio version allow it, and it brings what it must. */
  lemma AcceptedExactly(st: State, c: Command, at: int)
    requires Invariant(st)
    ensures Apply(st, c, at).Ok? <==> Allowed(st, c, at)
  {
    hide Identifier;
    hide Sha256;
    hide ReasonCode;
    hide OnSlot;
    hide OneOpenIntent;
    hide ValidManifest;
    hide PhasesFor;
    hide NeedsWindow;
    hide OnCurrentPortfolio;
    hide Substantiated;
    WindowsAgree(st.manifest, c.key, at);
    hide InWindow;
    hide OpenFor;
    if !c.event.Expect? && c.key in st.slots && st.slots[c.key].phase != Terminal {
      assert SlotShape(st.slots[c.key]);
      SlotRules(st, c, at);
    }
    NoPhaseIsTerminal(c.event);
  }

  lemma WindowsAgree(m: Manifest, key: Key, at: int)
    ensures InWindow(m, key, at) <==> OpenFor(m, key, at)
    ensures ValidKey(m, key) <==> OfCampaign(m, key)
  {
  }

  lemma NoPhaseIsTerminal(e: Event)
    ensures Terminal !in PhasesFor(e)
  {
  }

  predicate OnSlotAllowed(st: State, c: Command, at: int)
    requires c.key in st.slots
  {
    && st.slots[c.key].phase in PhasesFor(c.event) && (NeedsWindow(c.event) ==> OpenFor(st.manifest, c.key, at))
    && OnCurrentPortfolio(st, c) && Substantiated(st, c, at)
  }

  lemma SlotRules(st: State, c: Command, at: int)
    requires c.key in st.slots && SlotShape(st.slots[c.key]) && st.slots[c.key].phase != Terminal && !c.event.Expect?
    ensures OnSlot(st, c, at).Ok? <==> OnSlotAllowed(st, c, at)
  {
    hide Identifier;
    hide Sha256;
    hide ReasonCode;
    WindowsAgree(st.manifest, c.key, at);
    hide InWindow;
    hide OpenFor;
    hide ProductBusy;
    hide ExecutionRefusal;
    if c.event.Terminate? {
      hide OnSlot;
      TerminationRules(st, c, at);
    }
  }

  lemma TerminationRules(st: State, c: Command, at: int)
    requires c.key in st.slots && SlotShape(st.slots[c.key]) && st.slots[c.key].phase != Terminal && c.event.Terminate?
    ensures OnSlot(st, c, at).Ok? <==> OnSlotAllowed(st, c, at)
  {
    hide ReasonCode;
    WindowsAgree(st.manifest, c.key, at);
    hide InWindow;
    hide OpenFor;
    hide FillPortfolio;
    hide Payable;
    if IsFill(c.event) && st.slots[c.key].intent.Some? {
      PayableFills(st.portfolios.At(c.key.product), st.slots[c.key].intent.value, c.event.outcome.price, c.event.outcome.fee);
    }
  }

  lemma PayableFills(p: Portfolio, i: Intent, price: real, fee: real)
    requires i.quantity > 0.0
    ensures FillPortfolio(p, i, price, fee).Ok? <==> Payable(p, i, price, fee)
  {
    SlackIsTolerance(p.cash);
    SlackIsTolerance(p.position);
    if price > 0.0 {
      TradesArePositive(price, i.quantity);
      SlackIsTolerance(Value(price, i.quantity) * 0.006);
    }
    hide Value;
    hide Tolerance;
    hide Snap;
    hide Slack;
  }

  lemma TradesArePositive(price: real, quantity: real)
    requires price > 0.0 && quantity > 0.0
    ensures Value(price, quantity) > 0.0
    ensures Tolerance(Value(price, quantity) * 0.006) == Max(1.0, Value(price, quantity) * 0.006) * EPSILON * 16.0
  {
  }

  /** A ledger starts on a manifest with valid names and digest, before a period of 180 days that begins at midnight,
      and with ten thousand for each product. */
  lemma StartsExactly(m: Manifest, at: int)
    ensures Initialize(m, at).Ok? <==>
              && Identifier(m.campaignId) && Identifier(m.sourceProfileId) && Sha256(m.manifestSha256)
              && 0 <= at < m.startAt && m.startAt % 86_400_000 == 0 && m.endAt == m.startAt + 180 * 86_400_000 && m.endAt <= MAX_SAFE
    ensures Initialize(m, at).Ok? ==>
              var st, purse := Initialize(m, at).value, Portfolio(10_000.0, 0.0, 0);
              st == State(m, at, PerProduct(purse, purse), PerProduct(None, None), map[])
  {
    hide Identifier;
    hide Sha256;
  }

  // ---- What is written down

  /** A book answers a request when it was asked for then, has been received by now, and may price an execution. */
  predicate Eligible(st: State, key: Key, s: Slot, book: Option<BookEvidence>, at: int)
    requires s.intent.Some?
  {
    var m := st.manifest;
    && book.Some? && book.value.requestedAt == s.requestedAt && Known(book.value.receivedAt) && book.value.receivedAt.value <= at
    && ExecutionRefusal(QuoteScope(key.product, m.sourceProfileId, m.clockVerified, m.startAt, m.endAt, key.close,
                                   s.intent.value.persistedAt, st.lastSequences.At(key.product)), book).None?
  }

  /** The slot after an event: everything it had, one revision more, and what the event adds. */
  ghost predicate Written(st: State, c: Command, at: int, t: Slot)
    requires c.key in st.slots
  {
    var s, version := st.slots[c.key], st.portfolios.At(c.key.product).version;
    && t.revision == s.revision + 1
    && (if c.event.Admit? then t.phase == Admitted && t.admission == Some(Admission(c.event.evaluatedAt, c.event.windowSha256, version))
        else t.admission == s.admission)
    && (if c.event.MakeIntent? then t.phase == Intended && t.intent == Some(Intent(c.event.side, c.event.quantity, version, at))
        else t.intent == s.intent)
    && (if c.event.RequestQuote? then t.phase == Requested && t.requestedAt == Some(at) else t.requestedAt == s.requestedAt)
    && (if c.event.ObserveQuote?
        then && t.phase == Quoted && t.quote.Some? && t.quote.value.bodySha256 == c.event.bodySha256
             && (s.intent.Some? ==> (Executable(t) <==> Eligible(st, c.key, s, c.event.book, at)))
             && t.quote.value.sequence == (if c.event.book.Some? then c.event.book.value.sequence else None)
             && (t.quote.value.receivedAt.Some? ==> c.event.book.Some? && t.quote.value.receivedAt == c.event.book.value.receivedAt)
        else t.quote == s.quote)
    && (if c.event.Terminate? then t.phase == Terminal && t.outcome == Some(c.event.outcome) else t.outcome == s.outcome)
  }

  lemma SlotIsWritten(st: State, c: Command, at: int)
    requires c.key in st.slots && OnSlot(st, c, at).Ok?
    ensures Written(st, c, at, OnSlot(st, c, at).value.slot)
    ensures var n := OnSlot(st, c, at).value;
            && n.sequence == (if c.event.ObserveQuote? && Executable(n.slot) then c.event.book.value.sequence
                              else st.lastSequences.At(c.key.product))
            && (c.event.Terminate? ==> n.portfolio.version == st.portfolios.At(c.key.product).version + 1)
            && (IsFill(c.event) && st.slots[c.key].intent.Some? ==>
                  FillPortfolio(st.portfolios.At(c.key.product), st.slots[c.key].intent.value, c.event.outcome.price, c.event.outcome.fee)
                  == Ok(n.portfolio.(version := st.portfolios.At(c.key.product).version)))
            && (!c.event.Terminate? ==> n.portfolio == st.portfolios.At(c.key.product))
  {
    hide Sha256;
    hide ReasonCode;
    hide InWindow;
    hide ProductBusy;
    hide ExecutionRefusal;
    if c.event.Terminate? {
      hide OnSlot;
      TerminationIsWritten(st, c, at);
    } else if c.event.ObserveQuote? {
      hide OnSlot;
      QuoteIsWritten(st, c, at);
    }
  }

  lemma TerminationIsWritten(st: State, c: Command, at: int)
    requires c.key in st.slots && OnSlot(st, c, at).Ok? && c.event.Terminate?
    ensures Written(st, c, at, OnSlot(st, c, at).value.slot)
    ensures var n, p := OnSlot(st, c, at).value, st.portfolios.At(c.key.product);
            && n.sequence == st.lastSequences.At(c.key.product) && n.portfolio.version == p.version + 1
            && (IsFill(c.event) && st.slots[c.key].intent.Some? ==>
                  FillPortfolio(p, st.slots[c.key].intent.value, c.event.outcome.price, c.event.outcome.fee) == Ok(n.portfolio.(version := p.version)))
  {
    hide TerminationRefusal;
    FillsKeepTheVersion(st, c);
    hide FillPortfolio;
  }

  lemma FillsKeepTheVersion(st: State, c: Command)
    requires c.key in st.slots
    ensures IsFill(c.event) && st.slots[c.key].intent.Some? ==>
              var r := FillPortfolio(st.portfolios.At(c.key.product), st.slots[c.key].intent.value, c.event.outcome.price, c.event.outcome.fee);
              r.Ok? ==> r.value.version == st.portfolios.At(c.key.product).version
  {
    hide Value;
  }

  lemma QuoteIsWritten(st: State, c: Command, at: int)
    requires c.key in st.slots && OnSlot(st, c, at).Ok? && c.event.ObserveQuote?
    ensures Written(st, c, at, OnSlot(st, c, at).value.slot)
    ensures var n := OnSlot(st, c, at).value;
            && n.sequence == (if Executable(n.slot) then c.event.book.value.sequence else st.lastSequences.At(c.key.product))
            && n.portfolio == st.portfolios.At(c.key.product)
  {
    hide Sha256;
    hide ExecutionRefusal;
  }

  /** An accepted command is written down as it was given: its slot, the balances of its product after a fill, one
      version more after a termination, the newest sequence after an eligible quote, and the time. */
  lemma AcceptedIsWritten(st: State, c: Command, at: int)
    requires Invariant(st) && Apply(st, c, at).Ok?
    ensures var n, p := Apply(st, c, at).value, st.portfolios.At(c.key.product);
            && n.lastRecordedAt == at && c.key in n.slots
            && (c.event.Expect? ==> n.slots[c.key] == Slot(Expected, 1, None, None, None, None, None) && n.portfolios == st.portfolios)
            && (!c.event.Expect? ==>
                  && c.key in st.slots && Written(st, c, at, n.slots[c.key])
                  && (IsFill(c.event) ==>
                        && st.slots[c.key].intent.Some?
                        && FillPortfolio(p, st.slots[c.key].intent.value, c.event.outcome.price, c.event.outcome.fee)
                           == Ok(n.portfolios.At(c.key.product).(version := p.version)))
                  && n.lastSequences.At(c.key.product)
                     == (if c.event.ObserveQuote? && Executable(n.slots[c.key]) then c.event.book.value.sequence
                         else st.lastSequences.At(c.key.product)))
            && (forall q :: q != c.key.product ==> n.portfolios.At(q) == st.portfolios.At(q) && n.lastSequences.At(q) == st.lastSequences.At(q))
  {
    hide OnSlot;
    hide Written;
    hide Identifier;
    hide Invariant;
    AcceptedExactly(st, c, at);
    if !c.event.Expect? {
      SlotIsWritten(st, c, at);
      FillsHaveIntents(st, c, at);
    }
  }

  lemma FillsHaveIntents(st: State, c: Command, at: int)
    requires Allowed(st, c, at) && !c.event.Expect?
    ensures IsFill(c.event) ==> st.slots[c.key].intent.Some?
  {
    hide Identifier;
  }
}
