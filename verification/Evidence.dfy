/** Recorded market evidence: which order book may price an execution, which may value a position,
    and what that value is. */
module Evidence {
  import opened Basics
  import opened Depth

  /** The fields of a recorded book.  `None` stands for a value of the wrong JSON type. */
  datatype BookEvidence = BookEvidence(
    product: Option<Product>,
    sourceProfileId: string,
    uncached: bool,
    sequence: Option<nat>,
    requestedAt: Option<int>,
    receivedAt: Option<int>,
    sourceObservedAt: Option<int>,
    depth: Book)

  datatype QuoteScope = QuoteScope(
    product: Product,
    sourceProfileId: string,
    clockVerified: bool,
    campaignStartAt: int,
    campaignEndAt: int,
    candleClosedAt: int,
    intentPersistedAt: int,
    previousSequence: Option<nat>)

  datatype MarkScope = MarkScope(
    product: Product,
    sourceProfileId: string,
    clockVerified: bool,
    campaignStartAt: int,
    campaignEndAt: int,
    previousSequence: Option<nat>)

  const CAMPAIGN := 180 * DAY
  const WINDOW := 7_200_000
  const FRESHNESS := 5_000

  predicate Known(t: Option<int>) {
    t.Some? && Timestamp(t.value)
  }

  predicate SequenceAdvances(previous: Option<nat>, sequence: Option<nat>) {
    sequence.Some? && (previous.Some? ==> sequence.value >= previous.value)
  }

  /** None when eligible, otherwise the first reason that refuses the book for an execution. */
  function ExecutionRefusal(scope: QuoteScope, book: Option<BookEvidence>): Option<string> {
    if || !NonBlank(scope.sourceProfileId)
       || !Timestamp(scope.campaignStartAt) || !Timestamp(scope.campaignEndAt)
       || !Timestamp(scope.candleClosedAt) || !Timestamp(scope.intentPersistedAt)
       || scope.campaignEndAt - scope.campaignStartAt != CAMPAIGN
       || scope.campaignStartAt % DAY != 0 || scope.candleClosedAt % DAY != 0
       || scope.candleClosedAt < scope.campaignStartAt || scope.candleClosedAt >= scope.campaignEndAt
       || scope.intentPersistedAt < scope.candleClosedAt
    then Some("INVALID_SCOPE")
    else if !scope.clockVerified then Some("CLOCK_UNVERIFIED")
    else if book.None? || book.value.product != Some(scope.product) || book.value.sourceProfileId != scope.sourceProfileId
    then Some("IDENTITY_MISMATCH")
    else if !book.value.uncached then Some("CACHE_UNVERIFIED")
    else
      var b := book.value;
      if || !Known(b.requestedAt) || !Known(b.receivedAt) || b.requestedAt.value < scope.intentPersistedAt
         || b.receivedAt.value < b.requestedAt.value || b.receivedAt.value - b.requestedAt.value > FRESHNESS
         || b.receivedAt.value >= scope.campaignEndAt || b.receivedAt.value - scope.candleClosedAt > WINDOW
      then Some("INVALID_TIMELINE")
      else if b.sourceObservedAt.None? then Some("SOURCE_TIME_UNAVAILABLE")
      else if || !Timestamp(b.sourceObservedAt.value) || b.sourceObservedAt.value > b.receivedAt.value
              || b.receivedAt.value - b.sourceObservedAt.value > FRESHNESS
      then Some("SOURCE_TIME_INVALID")
      else if !SequenceAdvances(scope.previousSequence, b.sequence) then Some("SEQUENCE_INVALID")
      else if !DepthBook(b.depth) then Some("BOOK_INVALID")
      else None
  }

  predicate FreshAtUse(b: BookEvidence, asOf: int) {
    && Timestamp(asOf) && Known(b.receivedAt) && Known(b.sourceObservedAt)
    && asOf >= b.receivedAt.value && b.sourceObservedAt.value <= b.receivedAt.value
    && asOf - b.sourceObservedAt.value <= FRESHNESS
  }

  function PlanPricing(scope: QuoteScope, book: Option<BookEvidence>, side: Side, quantity: real, asOf: int): DepthPrice {
    var refusal := ExecutionRefusal(scope, book);
    if refusal.Some? then Rejected(refusal.value)
    else if !FreshAtUse(book.value, asOf) then Rejected("STALE_AT_USE")
    else if asOf > scope.candleClosedAt + WINDOW || asOf >= scope.campaignEndAt then Rejected("WINDOW_EXPIRED")
    else Consumed(book.value.depth, side, quantity)
  }

  /** A response received within the freshness span of its request, before the end, from then on. */
  predicate Prompt(b: BookEvidence, earliest: int, endAt: int) {
    && Known(b.requestedAt) && Known(b.receivedAt) && earliest <= b.requestedAt.value <= b.receivedAt.value
    && b.receivedAt.value - b.requestedAt.value <= 5_000 && b.receivedAt.value < endAt
  }

  /** The source stamped it, no later than it was received and at most the freshness span before. */
  predicate Stamped(b: BookEvidence) {
    && b.sourceObservedAt.Some? && Timestamp(b.sourceObservedAt.value) && b.receivedAt.Some?
    && 0 <= b.receivedAt.value - b.sourceObservedAt.value <= 5_000
  }

  predicate FromSource(b: BookEvidence, p: Product, sourceProfileId: string, previous: Option<nat>) {
    && b.product == Some(p) && b.sourceProfileId == sourceProfileId && b.uncached && DepthBook(b.depth)
    && b.sequence.Some? && (previous.Some? ==> previous.value <= b.sequence.value)
  }

  /** A book may price an execution exactly when it comes uncached and in sequence from the campaign's source for
      that product, was asked for after the intent, came promptly and within two hours of the candle, is stamped,
      and is a depth book; the clock is verified, and the slot lies in a campaign of 180 days. */
  lemma EligibleExactly(scope: QuoteScope, book: Option<BookEvidence>)
    ensures ExecutionRefusal(scope, book).None? <==>
              && NonBlank(scope.sourceProfileId) && scope.clockVerified
              && Timestamp(scope.campaignStartAt) && Timestamp(scope.campaignEndAt) && Timestamp(scope.candleClosedAt)
              && Timestamp(scope.intentPersistedAt)
              && scope.campaignEndAt == scope.campaignStartAt + 180 * DAY
              && scope.campaignStartAt % DAY == 0 && scope.candleClosedAt % DAY == 0
              && scope.campaignStartAt <= scope.candleClosedAt < scope.campaignEndAt && scope.candleClosedAt <= scope.intentPersistedAt
              && book.Some? && FromSource(book.value, scope.product, scope.sourceProfileId, scope.previousSequence)
              && Prompt(book.value, scope.intentPersistedAt, scope.campaignEndAt) && Stamped(book.value)
              && book.value.receivedAt.value <= scope.candleClosedAt + 7_200_000
  {
    hide NonBlank;
    hide DepthBook;
  }

  /** A price comes from an eligible book alone, used after it came, at most the freshness span after it was stamped,
      within two hours of the candle and before the end; and it is the price of its depth. */
  lemma PricesExactly(scope: QuoteScope, book: Option<BookEvidence>, side: Side, quantity: real, asOf: int)
    ensures var r := PlanPricing(scope, book, side, quantity, asOf);
            && (r.Priced? <==>
                  && ExecutionRefusal(scope, book).None? && book.Some? && Consumed(book.value.depth, side, quantity).Priced?
                  && Timestamp(asOf) && Known(book.value.sourceObservedAt) && Known(book.value.receivedAt)
                  && book.value.sourceObservedAt.value <= book.value.receivedAt.value <= asOf <= book.value.sourceObservedAt.value + 5_000
                  && asOf <= scope.candleClosedAt + 7_200_000 && asOf < scope.campaignEndAt)
            && (r.Priced? ==> r == Consumed(book.value.depth, side, quantity))
  {
    hide Consumed;
    hide NonBlank;
    hide DepthBook;
    if ExecutionRefusal(scope, book).None? {
      assert book.Some?;
    }
    hide ExecutionRefusal;
  }

  // ---- Liquidation marks

  datatype MarkSource = Cash | BidLiquidation

  datatype Mark =
    | Unavailable(product: Product, asOf: int, reason: string)
    | Available(product: Product, asOf: int, equity: real, source: MarkSource, exitFee: real, positionValue: real)

  datatype Consolidated = NoEquity | Equity(equity: real, asOf: int)

  const EXIT_SLIPPAGE := 0.0002
  const EXIT_FEE := 0.006

  predicate ValidMarkScope(s: MarkScope, asOf: int) {
    && NonBlank(s.sourceProfileId)
    && Timestamp(s.campaignStartAt) && Timestamp(s.campaignEndAt) && Timestamp(asOf)
    && s.campaignStartAt % DAY == 0 && s.campaignEndAt - s.campaignStartAt == CAMPAIGN
    && s.campaignStartAt <= asOf <= s.campaignEndAt
  }

  function MarkRefusal(scope: MarkScope, book: Option<BookEvidence>, asOf: int): Option<string> {
    if !scope.clockVerified then Some("CLOCK_UNVERIFIED")
    else if book.None? || book.value.product != Some(scope.product) || book.value.sourceProfileId != scope.sourceProfileId
    then Some("IDENTITY_MISMATCH")
    else
      var b := book.value;
      if !b.uncached then Some("CACHE_UNVERIFIED")
      else if || !Known(b.requestedAt) || !Known(b.receivedAt) || b.requestedAt.value < scope.campaignStartAt
              || b.receivedAt.value < b.requestedAt.value || b.receivedAt.value - b.requestedAt.value > FRESHNESS
              || b.receivedAt.value >= scope.campaignEndAt
      then Some("INVALID_TIMELINE")
      else if !FreshAtUse(b, asOf) then Some("STALE_AT_USE")
      else if !SequenceAdvances(scope.previousSequence, b.sequence) then Some("SEQUENCE_INVALID")
      else if !DepthBook(b.depth) then Some("BOOK_INVALID")
      else None
  }

  /** What the position would bring now, sold into the recorded bids. */
  function ValueLiquidation(scope: MarkScope, book: Option<BookEvidence>, cash: real, position: real, asOf: int): (m: Mark)
    ensures m.product == scope.product && m.asOf == asOf
  {
    if !ValidMarkScope(scope, asOf) then Unavailable(scope.product, asOf, "INVALID_SCOPE")
    else if cash < 0.0 || position < 0.0 then Unavailable(scope.product, asOf, "INVALID_PORTFOLIO")
    else if position == 0.0 then Available(scope.product, asOf, cash, Cash, 0.0, 0.0)
    else
      var refusal := MarkRefusal(scope, book, asOf);
      if refusal.Some? then Unavailable(scope.product, asOf, refusal.value)
      else
        var price := Consumed(book.value.depth, Sell, position);
        if price.Rejected? then Unavailable(scope.product, asOf, price.reason)
        else
          var notional := price.notional * (1.0 - EXIT_SLIPPAGE);
          var fee := notional * EXIT_FEE;
          Available(scope.product, asOf, cash + (notional - fee), BidLiquidation, fee, notional - fee)
  }

  /** Marks are asked for inside a campaign of 180 days that begins at midnight, both ends included, and of balances that
      are not negative. */
  lemma ScopesExactly(scope: MarkScope, book: Option<BookEvidence>, cash: real, position: real, asOf: int)
    ensures var m := ValueLiquidation(scope, book, cash, position, asOf);
            (m.Unavailable? && m.reason == "INVALID_SCOPE") <==>
              !(&& NonBlank(scope.sourceProfileId) && 0 <= scope.campaignStartAt <= asOf <= scope.campaignEndAt <= MAX_SAFE
                && scope.campaignStartAt % 86_400_000 == 0 && scope.campaignEndAt == scope.campaignStartAt + 180 * 86_400_000)
  {
    hide NonBlank;
    hide DepthBook;
    hide FreshAtUse;
    RefusalsAreNotScopes(scope, book, asOf);
    hide MarkRefusal;
  }

  lemma RefusalsAreNotScopes(scope: MarkScope, book: Option<BookEvidence>, asOf: int)
    ensures MarkRefusal(scope, book, asOf) != Some("INVALID_SCOPE")
  {
    hide DepthBook;
    hide FreshAtUse;
  }

  /** A book may value a position exactly when it comes uncached and in sequence from the campaign's source for that
      product, was asked for since the start, came promptly, is stamped and still fresh, and is a depth book. */
  lemma MarkableExactly(scope: MarkScope, book: Option<BookEvidence>, asOf: int)
    ensures MarkRefusal(scope, book, asOf).None? <==>
              && scope.clockVerified && book.Some? && Timestamp(asOf)
              && FromSource(book.value, scope.product, scope.sourceProfileId, scope.previousSequence)
              && Prompt(book.value, scope.campaignStartAt, scope.campaignEndAt)
              && Known(book.value.sourceObservedAt) && book.value.sourceObservedAt.value <= book.value.receivedAt.value <= asOf
              && asOf - book.value.sourceObservedAt.value <= 5_000
  {
    hide DepthBook;
  }

  /** The sum of one mark per product taken at one instant, or nothing. */
  function Consolidate(first: Mark, second: Mark): Consolidated {
    if || first.Unavailable? || second.Unavailable? || first.product == second.product || first.asOf != second.asOf
       || !Timestamp(first.asOf) || first.equity < 0.0 || second.equity < 0.0
    then NoEquity
    else Equity(first.equity + second.equity, first.asOf)
  }

  /** The source divides the notional by the quantity and multiplies it back: the same number. */
  lemma ExitNotional(book: BookEvidence, position: real)
    requires Consumed(book.depth, Sell, position).Priced?
    ensures var price := Consumed(book.depth, Sell, position);
            && price.notional > 0.0
            && price.vwap * (1.0 - EXIT_SLIPPAGE) * position == price.notional * (1.0 - EXIT_SLIPPAGE)
  {
    LevelsPositive(book.depth, Sell);
    CostPositive(book.depth.bids, position);
    var price := Consumed(book.depth, Sell, position);
    AverageRestores(price.notional, position);
    var v := price.vwap;
    assert v * (1.0 - EXIT_SLIPPAGE) * position == (v * position) * (1.0 - EXIT_SLIPPAGE);
  }

  /** An available mark is worth at least the cash, and at most cash plus the position at the best bid. */
  lemma MarkBounds(scope: MarkScope, book: Option<BookEvidence>, cash: real, position: real, asOf: int)
    ensures var m := ValueLiquidation(scope, book, cash, position, asOf);
            m.Available? ==>
              && 0.0 <= cash <= m.equity
              && (m.source == Cash <==> position == 0.0)
              && (position > 0.0 ==>
                  && book.Some? && DepthBook(book.value.depth)
                  && m.equity < cash + Value(position, book.value.depth.bids[0].price))
  {
    hide Value;
    hide DepthBook;
    hide Consumed;
    hide ValidMarkScope;
    var m := ValueLiquidation(scope, book, cash, position, asOf);
    if m.Available? && position > 0.0 {
      MarkableExactly(scope, book, asOf);
      hide MarkRefusal;
      SalesPayNoMoreThanTheTop(book.value, position);
    }
  }

  lemma SalesPayNoMoreThanTheTop(book: BookEvidence, position: real)
    requires Consumed(book.depth, Sell, position).Priced?
    ensures DepthBook(book.depth) && book.depth.bids != [] && position > 0.0
    ensures 0.0 < Consumed(book.depth, Sell, position).notional <= Value(position, book.depth.bids[0].price)
  {
    hide Value;
    var bids := book.depth.bids;
    ExitNotional(book, position);
    NegatedCost(bids, position);
    CostBoundedByTop(Negated(bids), position);
    ValueMonotone(position, bids[0].price, bids[0].price);
  }

  /** Buying on a book and marking the purchase on the same depth always shows a loss. */
  lemma BuyThenMarkLoses(scope: MarkScope, book: Option<BookEvidence>, cash: real, position: real, paid: real, asOf: int)
    requires book.Some? && Consumed(book.value.depth, Buy, position).Priced?
    requires paid == Cost(book.value.depth.asks, position) * 1.0002 * 1.006
    ensures var m := ValueLiquidation(scope, book, cash - paid, position, asOf);
            m.Available? ==> m.equity < cash
  {
    hide Value;
    var m := ValueLiquidation(scope, book, cash - paid, position, asOf);
    if m.Available? {
      ExitNotional(book.value, position);
      RoundTripNeverGains(book.value.depth, position);
    }
  }
}
