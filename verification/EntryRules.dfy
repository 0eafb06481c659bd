/** The rules of the benchmark entry: exactly which commands a leg accepts, and what they make of it. */
module EntryRules {
  import opened Basics
  import opened Depth
  import opened Evidence
  import opened Benchmark
  import opened Sizing
  import L = Ledger

  /** A profile is registered once, before the campaign starts, for its source, with lot precisions of 0 to 12 places. */
  lemma ProfilesExactly(current: Option<Profile>, m: L.Manifest, profile: Profile, campaignId: string, commandId: string, at: int)
    ensures var r := RegisterProfile(current, m, profile, campaignId, commandId, at);
            && (r.Ok? <==>
                  && current.None? && campaignId == m.campaignId && Identifier(commandId) && Timestamp(at) && at < m.startAt
                  && profile.sourceProfileId == m.sourceProfileId && Sha256(profile.profileSha256)
                  && forall p: Product :: 0 <= profile.quantityDecimals.At(p) <= 12)
            && (r.Ok? ==> r.value == profile)
  {
    hide Identifier;
    hide Sha256;
    var d := profile.quantityDecimals;
    assert (forall p: Product :: 0 <= d.At(p) <= 12) <==> 0 <= d.At(Btc) <= 12 && 0 <= d.At(Eth) <= 12;
  }

  predicate PhaseFor(e: EntryEvent, phase: LegPhase) {
    match e
    case ExpectBenchmark => false
    case RequestBenchmark => phase == Expected || phase == LegPhase.Rejected
    case ObserveBenchmarkBook(_, _) => phase == Requested
    case ResolveBenchmark => phase == Quoted
    case ExpireBenchmark => phase == Expected || phase == LegPhase.Rejected || phase == Quoted
  }

  /** A leg command needs its phase; a request the opening window, the profile and an observing campaign; an
      expiry the end of the window. */
  predicate EntryAllowed(st: Entries, ledger: L.State, profile: Option<Profile>, phase: CampaignPhase, c: EntryCommand, at: int) {
    var m, leg := ledger.manifest, st.products.At(c.product);
    && c.campaignId == m.campaignId && Identifier(c.commandId) && Timestamp(at) && at >= st.lastRecordedAt && at >= ledger.lastRecordedAt
    && if c.event.ExpectBenchmark? then leg.None?
       else
         && leg.Some? && PhaseFor(c.event, leg.value.phase)
         && match c.event
            case RequestBenchmark =>
              && m.startAt <= at <= m.startAt + 7_200_000 && at < m.endAt && phase == LocalObserving
              && profile.Some? && profile.value.sourceProfileId == m.sourceProfileId
            case ObserveBenchmarkBook(_, body) => Sha256(body) && leg.value.requestedAt.Some?
            case ResolveBenchmark => leg.value.requestedAt.Some?
            case ExpireBenchmark => at > m.startAt + 7_200_000
            case ExpectBenchmark => false
  }

  lemma EntriesAcceptedExactly(st: Entries, ledger: L.State, profile: Option<Profile>, phase: CampaignPhase, c: EntryCommand, at: int)
    ensures ApplyEntry(st, ledger, profile, phase, c, at, false).Ok? <==> EntryAllowed(st, ledger, profile, phase, c, at)
  {
    hide Identifier;
    hide Sha256;
    hide Resolve;
    hide ExecutionRefusal;
  }

  /** A book is taken as a quote when it answers the request, is received by now, inside the window, may price an
      execution, and is still fresh. */
  predicate Quotable(leg: Leg, m: L.Manifest, p: Product, book: Option<BookEvidence>, at: int) {
    && leg.requestedAt.Some? && book.Some? && book.value.requestedAt == leg.requestedAt
    && Known(book.value.receivedAt) && book.value.receivedAt.value <= at
    && m.startAt <= at <= m.startAt + 7_200_000 && at < m.endAt
    && ExecutionRefusal(EntryScope(m, p, leg.requestedAt.value), book).None?
    && Known(book.value.sourceObservedAt) && at - book.value.sourceObservedAt.value <= 5_000
  }

  /** The leg after a command. */
  ghost predicate LegAfter(st: Entries, ledger: L.State, profile: Option<Profile>, phase: CampaignPhase, c: EntryCommand, at: int, t: Leg) {
    match c.event
    case ExpectBenchmark => t == FRESH_LEG
    case RequestBenchmark =>
      var s := st.products.At(c.product);
      && s.Some? && profile.Some? && t.phase == Requested && t.attempt == s.value.attempt + 1 && t.requestedAt == Some(at)
      && t.profileSha256 == Some(profile.value.profileSha256) && t.portfolio == s.value.portfolio && t.fill == s.value.fill
      && t.book.None? && t.bodySha256.None? && t.quoteCommandId.None? && t.refusal.None? && t.reason.None?
    case ObserveBenchmarkBook(book, body) =>
      var s := st.products.At(c.product);
      && s.Some? && t.book == book && t.bodySha256 == Some(body) && t.quoteCommandId == Some(c.commandId)
      && (t.phase == Quoted <==> Quotable(s.value, ledger.manifest, c.product, book, at)) && (t.phase == Quoted || t.phase == LegPhase.Rejected)
      && t.refusal == Some(t.reason) && (t.reason.None? <==> t.phase == Quoted)
      && t.requestedAt == s.value.requestedAt && t.profileSha256 == s.value.profileSha256 && t.portfolio == s.value.portfolio
    case ResolveBenchmark =>
      var s := st.products.At(c.product);
      && s.Some? && s.value.requestedAt.Some?
      && t == Resolve(s.value, s.value.requestedAt.value, ledger.manifest, profile, phase, c.product, at)
    case ExpireBenchmark =>
      var s := st.products.At(c.product);
      s.Some? && t == s.value.(phase := Failed, reason := Some("INITIAL_WINDOW_EXPIRED"))
  }

  /** An accepted command writes its own leg alone, and makes of it what it says. */
  lemma EntriesAreWritten(st: Entries, ledger: L.State, profile: Option<Profile>, phase: CampaignPhase, c: EntryCommand, at: int)
    requires ApplyEntry(st, ledger, profile, phase, c, at, false).Ok?
    ensures var n := ApplyEntry(st, ledger, profile, phase, c, at, false).value;
            && n.active && n.lastRecordedAt == at && n.products.At(c.product).Some?
            && LegAfter(st, ledger, profile, phase, c, at, n.products.At(c.product).value)
            && (forall p: Product :: p != c.product ==> n.products.At(p) == st.products.At(p))
  {
    hide Identifier;
    hide Sha256;
    hide Resolve;
    hide ExecutionRefusal;
  }

  /** The fill of a bought leg: the slipped average price of its lot on its book, that lot, the fee on it, and now;
      with its holding it adds up to the budget. */
  lemma FillsAddUp(leg: Leg, quantity: real, vwap: real, at: int)
    requires Resolved(leg, quantity, vwap, at).phase == Initialized
    ensures var t := Resolved(leg, quantity, vwap, at);
            && t.quantity == Some(quantity) && t.vwap == Some(vwap) && t.fill.Some? && t.portfolio.Some?
            && t.fill.value == LegFill(vwap * 1.0002, quantity, vwap * 1.0002 * quantity * 0.006, at)
            && t.portfolio.value.position == quantity
            && t.portfolio.value.cash == Remainder(10_000.0 - (t.fill.value.price * quantity + t.fill.value.fee))
  {
  }
}
