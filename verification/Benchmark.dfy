/** The buy-and-hold benchmark: one leg per product, filled at most once, at the opening of the campaign. */
module Benchmark {
  import opened Basics
  import opened Depth
  import opened Evidence
  import opened Sizing
  import L = Ledger

  datatype LegPhase = Expected | Requested | Rejected | Quoted | Initialized | Failed

  datatype Profile = Profile(sourceProfileId: string, profileSha256: string, quantityDecimals: PerProduct<int>)

  datatype Holding = Holding(cash: real, position: real)

  datatype LegFill = LegFill(price: real, quantity: real, fee: real, executedAt: int)

  /** `refusal` is None before a quote, Some(None) for an eligible one, Some(Some(reason)) otherwise. */
  datatype Leg = Leg(
    phase: LegPhase,
    attempt: nat,
    requestedAt: Option<int>,
    profileSha256: Option<string>,
    book: Option<BookEvidence>,
    bodySha256: Option<string>,
    quoteCommandId: Option<string>,
    refusal: Option<Option<string>>,
    reason: Option<string>,
    quantity: Option<real>,
    vwap: Option<real>,
    fill: Option<LegFill>,
    portfolio: Option<Holding>)

  datatype Entries = Entries(active: bool, lastRecordedAt: int, products: PerProduct<Option<Leg>>)

  datatype EntryEvent =
    | ExpectBenchmark
    | RequestBenchmark
    | ObserveBenchmarkBook(book: Option<BookEvidence>, bodySha256: string)
    | ResolveBenchmark
    | ExpireBenchmark

  datatype EntryCommand = EntryCommand(campaignId: string, commandId: string, product: Product, event: EntryEvent)

  const NO_ENTRIES := Entries(false, 0, PerProduct(None, None))
  const FRESH_LEG := Leg(Expected, 0, None, None, None, None, None, None, None, None, None, None, None)

  predicate Closed(leg: Leg) {
    leg.phase == Initialized || leg.phase == Failed
  }

  predicate OpeningWindow(m: L.Manifest, at: int) {
    m.startAt <= at <= m.startAt + WINDOW && at < m.endAt
  }

  function EntryScope(m: L.Manifest, p: Product, requestedAt: int): QuoteScope {
    QuoteScope(p, m.sourceProfileId, m.clockVerified, m.startAt, m.endAt, m.startAt, requestedAt, None)
  }

  function RegisterProfile(current: Option<Profile>, m: L.Manifest, profile: Profile, campaignId: string, commandId: string, at: int): Result<Profile> {
    if current.Some? then Fail("BENCHMARK_PROFILE_IMMUTABLE")
    else if || campaignId != m.campaignId || !Identifier(commandId) || !Timestamp(at) || at >= m.startAt
            || profile.sourceProfileId != m.sourceProfileId || !Sha256(profile.profileSha256)
            || !(0 <= profile.quantityDecimals.btc <= 12) || !(0 <= profile.quantityDecimals.eth <= 12)
    then Fail("INVALID_BENCHMARK_PROFILE")
    else Ok(profile)
  }

  function Failing(leg: Leg, reason: string): Leg {
    leg.(phase := Failed, reason := Some(reason))
  }

  function SizeOfQuote(book: Option<BookEvidence>, decimals: int): Sizing {
    if book.Some? then SizingOf(book.value.depth, decimals)
    else if !(0 <= decimals <= 12) then Unsized("INVALID_PRECISION")
    else Unsized("BOOK_INVALID")
  }

  /** A remainder within tolerance of zero is dropped. */
  function Remainder(cash: real): real {
    if cash <= L.START_CASH * EPSILON * 16.0 then 0.0 else cash
  }

  /** The fill of a sized and re-priced quote, or the failure of the leg. */
  function Resolved(leg: Leg, quantity: real, vwap: real, at: int): Leg {
    var price := vwap * 1.0002;
    var notional := price * quantity;
    var fee := notional * 0.006;
    var cash := L.START_CASH - (notional + fee);
    if cash < 0.0 || fee <= 0.0 then Failing(leg, "NUMERIC_RANGE")
    else leg.(phase := Initialized, quantity := Some(quantity), vwap := Some(vwap),
              fill := Some(LegFill(price, quantity, fee, at)),
              portfolio := Some(Holding(Remainder(cash), quantity)),
              reason := None)
  }

  function Resolve(leg: Leg, requestedAt: int, m: L.Manifest, profile: Option<Profile>, phase: CampaignPhase, p: Product, at: int): Leg {
    if !OpeningWindow(m, at) then Failing(leg, "INITIAL_WINDOW_EXPIRED")
    else if phase != LocalObserving then Failing(leg, "CAMPAIGN_SAFETY_BLOCKED")
    else if profile.None? || leg.profileSha256 != Some(profile.value.profileSha256) then Failing(leg, "PROFILE_UNVERIFIABLE")
    else
      var sizing := SizeOfQuote(leg.book, profile.value.quantityDecimals.At(p));
      if sizing.Unsized? then Failing(leg, sizing.reason)
      else
        var pricing := PlanPricing(EntryScope(m, p, requestedAt), leg.book, Buy, sizing.quantity, at);
        if pricing.Rejected? then Failing(leg, pricing.reason)
        else Resolved(leg, sizing.quantity, pricing.vwap, at)
  }

  function OnLeg(leg: Leg, m: L.Manifest, profile: Option<Profile>, phase: CampaignPhase, c: EntryCommand, at: int): Result<Leg> {
    match c.event
    case ExpectBenchmark => Fail("INVALID_BENCHMARK_ENTRY_PHASE")
    case RequestBenchmark =>
      if leg.phase != Expected && leg.phase != LegPhase.Rejected then Fail("INVALID_BENCHMARK_ENTRY_PHASE")
      else if || !OpeningWindow(m, at) || profile.None? || profile.value.sourceProfileId != m.sourceProfileId
              || phase != LocalObserving
      then Fail("BENCHMARK_ENTRY_BLOCKED")
      else Ok(leg.(phase := Requested, attempt := leg.attempt + 1, requestedAt := Some(at),
                   profileSha256 := Some(profile.value.profileSha256), book := None, bodySha256 := None,
                   quoteCommandId := None, refusal := None, reason := None))
    case ObserveBenchmarkBook(book, bodySha256) =>
      if leg.phase != Requested || leg.requestedAt.None? then Fail("INVALID_BENCHMARK_ENTRY_PHASE")
      else if !Sha256(bodySha256) then Fail("INVALID_BENCHMARK_BOOK_HASH")
      else
        var timeline :=
          if || book.None? || book.value.requestedAt != leg.requestedAt || !Known(book.value.receivedAt)
             || book.value.receivedAt.value > at || !OpeningWindow(m, at)
          then Some("INVALID_TIMELINE")
          else ExecutionRefusal(EntryScope(m, c.product, leg.requestedAt.value), book);
        var refusal :=
          if timeline.None? && (!Known(book.value.sourceObservedAt) || at - book.value.sourceObservedAt.value > FRESHNESS)
          then Some("SOURCE_TIME_INVALID") else timeline;
        Ok(leg.(phase := if refusal.None? then Quoted else LegPhase.Rejected, book := book, bodySha256 := Some(bodySha256),
                quoteCommandId := Some(c.commandId), refusal := Some(refusal), reason := refusal))
    case ResolveBenchmark =>
      if leg.phase != Quoted || leg.requestedAt.None? then Fail("INVALID_BENCHMARK_ENTRY_PHASE")
      else Ok(Resolve(leg, leg.requestedAt.value, m, profile, phase, c.product, at))
    case ExpireBenchmark =>
      if leg.phase == Requested then Fail("BENCHMARK_RESPONSE_UNOBSERVED")
      else if at <= m.startAt + WINDOW then Fail("BENCHMARK_WINDOW_NOT_ENDED")
      else Ok(Failing(leg, "INITIAL_WINDOW_EXPIRED"))
  }

  /** One entry command; the receipt is the leg of its product. */
  function ApplyEntry(st: Entries, ledger: L.State, profile: Option<Profile>, phase: CampaignPhase, c: EntryCommand,
                      at: int, initialMarketPublished: bool): Result<Entries> {
    if || c.campaignId != ledger.manifest.campaignId || !Identifier(c.commandId)
       || !Timestamp(at) || at < st.lastRecordedAt || at < ledger.lastRecordedAt
    then Fail("INVALID_BENCHMARK_ENTRY_COMMAND")
    else
      var current := st.products.At(c.product);
      if c.event.ExpectBenchmark? then
        if !st.active && initialMarketPublished then Fail("BENCHMARK_MODE_ALREADY_OBSERVED")
        else if current.Some? then Fail("INVALID_BENCHMARK_ENTRY_PHASE")
        else Ok(Entries(true, at, st.products.With(c.product, Some(FRESH_LEG))))
      else if current.None? || Closed(current.value) then Fail("INVALID_BENCHMARK_ENTRY_PHASE")
      else
        match OnLeg(current.value, ledger.manifest, profile, phase, c, at)
        case Fail(error) => Fail(error)
        case Ok(leg) => Ok(Entries(true, at, st.products.With(c.product, Some(leg))))
  }

  // ---- What a leg can hold

  ghost predicate LegSound(leg: Leg) {
    && (leg.phase == Initialized <==> leg.portfolio.Some?)
    && (leg.portfolio.Some? ==> leg.portfolio.value.cash >= 0.0 && leg.portfolio.value.position > 0.0)
  }

  ghost predicate EntriesSound(st: Entries) {
    && (st.products.btc.Some? ==> LegSound(st.products.btc.value))
    && (st.products.eth.Some? ==> LegSound(st.products.eth.value))
  }

  /** The money of a fill: price, notional and fee of a priced lot add up to its fee-laden cost. */
  lemma FillCost(vwap: real, quantity: real, notional: real)
    requires Value(vwap, quantity) == notional
    ensures var n := vwap * 1.0002 * quantity; n == notional * 1.0002 && n + n * 0.006 == FeeLaden(notional)
  {
    assert vwap * 1.0002 * quantity == (vwap * quantity) * 1.0002;
  }

  /** A quoted leg is filled exactly when the window is open, the campaign observes, the profile is the
      one requested under, the book funds a lot and still prices it; the numeric guards never matter.
      The leg then holds the greatest funded lot count and what is left of the budget. */
  lemma ResolutionSpendsTheBudget(leg: Leg, requestedAt: int, m: L.Manifest, profile: Option<Profile>,
                                  phase: CampaignPhase, p: Product, at: int)
    requires leg.phase == Quoted
    ensures var r := Resolve(leg, requestedAt, m, profile, phase, p, at);
            if && OpeningWindow(m, at) && phase == LocalObserving
               && profile.Some? && leg.profileSha256 == Some(profile.value.profileSha256)
               && SizeOfQuote(leg.book, profile.value.quantityDecimals.At(p)).Sized?
               && var q := SizeOfQuote(leg.book, profile.value.quantityDecimals.At(p)).quantity;
                  PlanPricing(EntryScope(m, p, requestedAt), leg.book, Buy, q, at).Priced?
            then var sizing := SizeOfQuote(leg.book, profile.value.quantityDecimals.At(p));
                 && r.phase == Initialized
                 && r.portfolio == Some(Holding(Remainder(L.START_CASH - sizing.cost), sizing.quantity))
                 && 0.0 <= L.START_CASH - sizing.cost && sizing.quantity > 0.0
            else r.phase == Failed && r.portfolio == leg.portfolio
  {
    hide Resolved;
    hide Value;
    hide Average;
    hide SizingOf;
    hide ExecutionRefusal;
    hide FeeLaden;
    hide Lots;
    if profile.Some? && leg.book.Some? {
      var decimals := profile.value.quantityDecimals.At(p);
      var sizing := SizeOfQuote(leg.book, decimals);
      if sizing.Sized? {
        SizedIsGreatestEverywhere(leg.book.value.depth, decimals);
        SizedDecimals(leg.book.value.depth, decimals);
        LotsOrder(0, sizing.units, Pow10(decimals));
        var pricing := PlanPricing(EntryScope(m, p, requestedAt), leg.book, Buy, sizing.quantity, at);
        if pricing.Priced? {
          PricedResolution(leg, leg.book.value.depth, sizing.quantity, pricing, at);
        }
      }
    }
  }

  lemma PricedResolution(leg: Leg, depth: Book, quantity: real, pricing: DepthPrice, at: int)
    requires pricing == Consumed(depth, Buy, quantity) && pricing.Priced?
    ensures var cost := FeeLaden(Cost(depth.asks, quantity));
            var r := Resolved(leg, quantity, pricing.vwap, at);
            if cost <= L.START_CASH
            then && r.phase == Initialized
                 && r.portfolio == Some(Holding(Remainder(L.START_CASH - cost), quantity))
            else r == Failing(leg, "NUMERIC_RANGE")
  {
    hide Value;
    hide Average;
    hide Cost;
    hide DepthBook;
    hide FeeLaden;
    LevelsPositive(depth, Buy);
    CostPositive(depth.asks, quantity);
    AverageRestores(pricing.notional, quantity);
    FillCost(pricing.vwap, quantity, pricing.notional);
    var notional := pricing.vwap * 1.0002 * quantity;
    var cash := L.START_CASH - (notional + notional * 0.006);
    assert cash == L.START_CASH - FeeLaden(Cost(depth.asks, quantity));
    assert notional > 0.0;
    var r := Resolved(leg, quantity, pricing.vwap, at);
    if cash >= 0.0 {
      assert r.phase == Initialized;
      assert r.portfolio.Some?;
      assert r.portfolio.value.position == quantity;
      assert r.portfolio.value.cash == Remainder(cash);
    }
  }

  /** Every accepted command keeps the legs sound; closed legs never change, and a leg receives its
      holding only from a resolution made while the campaign observes. */
  lemma EntryStep(st: Entries, ledger: L.State, profile: Option<Profile>, phase: CampaignPhase, c: EntryCommand, at: int)
    requires EntriesSound(st) && ApplyEntry(st, ledger, profile, phase, c, at, false).Ok?
    ensures var next := ApplyEntry(st, ledger, profile, phase, c, at, false).value;
            && EntriesSound(next) && next.lastRecordedAt == at
            && (forall p :: p != c.product ==> next.products.At(p) == st.products.At(p))
            && (st.products.At(c.product).Some? ==> !Closed(st.products.At(c.product).value))
            && next.products.At(c.product).Some?
            && (next.products.At(c.product).value.phase == Initialized ==> phase == LocalObserving && c.event.ResolveBenchmark?)
  {
    hide Resolve;
    hide ExecutionRefusal;
    hide Identifier;
    hide Sha256;
    if c.event.ResolveBenchmark? {
      var leg := st.products.At(c.product).value;
      ResolutionSpendsTheBudget(leg, leg.requestedAt.value, ledger.manifest, profile, phase, c.product, at);
    }
  }

  lemma SizedDecimals(book: Book, decimals: int)
    requires SizingOf(book, decimals).Sized?
    ensures 0 <= decimals <= 12 && DepthBook(book)
  {
  }
}
