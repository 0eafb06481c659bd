/** What a fill accepted by the runner paid. */
module ShadowFills {
  import opened Basics
  import opened Depth
  import opened Evidence
  import L = Ledger
  import S = Shadow

  /** The book a ledger fill is priced on. */
  function BookFor(s: S.Projection, key: L.Key): Option<BookEvidence> {
    if key in s.books then s.books[key] else None
  }

  ghost predicate Fair(b: BookEvidence, i: L.Intent, price: real) {
    && DepthBook(b.depth)
    && (i.side == Buy ==> price > b.depth.asks[0].price)
    && (i.side == Sell ==> price < b.depth.bids[0].price)
  }

  /** Every ledger fill the runner accepts is priced on a recorded, eligible and still fresh book, inside
      the slot's window, and on the worse side of its top: above the best ask for a buy, below the best bid
      for a sell; its fee is 0.6 percent of what it trades. */
  lemma FillsPayTheSpread(s: S.Projection, c: L.Command, at: int)
    requires S.LedgerStep(s, c, at).Ok? && L.IsFill(c.event)
    ensures c.key in s.ledger.slots && s.ledger.slots[c.key].intent.Some? && BookFor(s, c.key).Some?
    ensures Fair(BookFor(s, c.key).value, s.ledger.slots[c.key].intent.value, c.event.outcome.price)
    ensures c.event.outcome.fee == c.event.outcome.price * s.ledger.slots[c.key].intent.value.quantity * 0.006
    ensures var b := BookFor(s, c.key).value;
            && Known(b.sourceObservedAt) && 0 <= at - b.sourceObservedAt.value <= FRESHNESS
            && at <= c.key.close + WINDOW && at < s.ledger.manifest.endAt
  {
    hide S.Safety;
    hide S.FillPrice;
    hide S.PlanShadowPricing;
    hide L.Apply;
    var i := PricedOn(s, c, at);
    var vwap := S.PlanShadowPricing(s, c.key, at).value.vwap;
    var b := BookFor(s, c.key).value;
    NeverBetterThanTheTop(b.depth, i.side, i.quantity);
    SpreadIsPaid(vwap, i.side);
  }

  lemma SpreadIsPaid(vwap: real, side: Side)
    requires vwap > 0.0
    ensures if side == Buy then S.FillPrice(vwap, side) > vwap else S.FillPrice(vwap, side) < vwap
  {
  }

  lemma PricedOn(s: S.Projection, c: L.Command, at: int) returns (i: L.Intent)
    requires S.LedgerGate(s, c, at).None? && L.IsFill(c.event)
    ensures c.key in s.ledger.slots && s.ledger.slots[c.key].intent == Some(i) && BookFor(s, c.key).Some?
    ensures var r := S.PlanShadowPricing(s, c.key, at);
            && r.Ok? && r.value == Consumed(BookFor(s, c.key).value.depth, i.side, i.quantity) && r.value.Priced?
            && DepthBook(BookFor(s, c.key).value.depth)
            && c.event.outcome.price == S.FillPrice(r.value.vwap, i.side)
            && c.event.outcome.fee == c.event.outcome.price * i.quantity * 0.006
  {
    hide S.Safety;
    hide S.FillPrice;
    hide Consumed;
    hide DepthBook;
    i := s.ledger.slots[c.key].intent.value;
    var m := s.ledger.manifest;
    var scope := QuoteScope(c.key.product, m.sourceProfileId, m.clockVerified, m.startAt, m.endAt, c.key.close, i.persistedAt,
                            s.ledger.lastSequences.At(c.key.product));
    EligibleHasBook(scope, BookFor(s, c.key));
  }

  lemma EligibleHasBook(scope: QuoteScope, book: Option<BookEvidence>)
    ensures ExecutionRefusal(scope, book).None? ==> book.Some? && DepthBook(book.value.depth)
  {
    hide DepthBook;
    hide NonBlank;
  }

  /** The runner's fee on a sale. */
  function SaleFee(price: real, quantity: real): real {
    price * quantity * 0.006
  }

  /** The mark is what the ledger would make of selling the whole position at this price and fee. */
  ghost predicate SoldAs(m: Mark, cash: real, position: real, i: L.Intent, version: nat, price: real, fee: real) {
    && m.Available? && m.source == BidLiquidation
    && L.FillPortfolio(L.Portfolio(cash, position, version), i, price, fee)
       == Ok(L.Portfolio(L.Snap(m.equity, L.Tolerance(cash)), 0.0, version))
    && m.exitFee == fee && m.positionValue == m.equity - cash
  }

  /** A liquidation mark is the cash of a sale: the equity is what the ledger's cash would be after selling the
      whole position on that book, at the runner's price and with the runner's fee, before the snap to zero; the
      exit fee is the fee of that sale, and the value of the position is what the sale adds to the cash. */
  lemma MarksAreSales(scope: MarkScope, book: Option<BookEvidence>, cash: real, position: real, asOf: int, i: L.Intent, version: nat)
    requires cash >= 0.0 && position > 0.0 && i.side == Sell && i.quantity == position
    requires ValueLiquidation(scope, book, cash, position, asOf).Available?
    ensures book.Some? && Consumed(book.value.depth, Sell, position).Priced?
    ensures var price := S.FillPrice(Consumed(book.value.depth, Sell, position).vwap, Sell);
            SoldAs(ValueLiquidation(scope, book, cash, position, asOf), cash, position, i, version, price, SaleFee(price, position))
  {
    hide Consumed;
    hide ValueLiquidation;
    hide L.FillPortfolio;
    hide L.Snap;
    hide L.Tolerance;
    MarkAmounts(scope, book, cash, position, asOf);
    var priced := Consumed(book.value.depth, Sell, position);
    var price, sold := S.FillPrice(priced.vwap, Sell), priced.notional * 0.9998;
    ExitNotional(book.value, position);
    LevelsPositiveFor(book.value, position);
    assert price == priced.vwap * (1.0 - EXIT_SLIPPAGE);
    assert price * position == sold;
    SaleAddsUp(cash, position, price, i, version);
    var m, fee := ValueLiquidation(scope, book, cash, position, asOf), SaleFee(price, position);
    assert m.equity == cash + (price * position - fee);
    assert L.FillPortfolio(L.Portfolio(cash, position, version), i, price, fee)
           == Ok(L.Portfolio(L.Snap(m.equity, L.Tolerance(cash)), 0.0, version));
  }

  /** The amounts of a liquidation, from the priced depth. */
  lemma MarkAmounts(scope: MarkScope, book: Option<BookEvidence>, cash: real, position: real, asOf: int)
    requires cash >= 0.0 && position > 0.0 && ValueLiquidation(scope, book, cash, position, asOf).Available?
    ensures book.Some? && Consumed(book.value.depth, Sell, position).Priced?
    ensures var m := ValueLiquidation(scope, book, cash, position, asOf);
            var sold := Consumed(book.value.depth, Sell, position).notional * 0.9998;
            && m.equity == cash + (sold - sold * 0.006) && m.exitFee == sold * 0.006 && m.positionValue == sold - sold * 0.006
            && m.source == BidLiquidation
  {
    hide Consumed;
    hide MarkRefusal;
    hide ValidMarkScope;
    EligibleMarkHasBook(scope, book, asOf);
  }

  lemma EligibleMarkHasBook(scope: MarkScope, book: Option<BookEvidence>, asOf: int)
    ensures MarkRefusal(scope, book, asOf).None? ==> book.Some?
  {
    hide DepthBook;
  }

  lemma LevelsPositiveFor(b: BookEvidence, position: real)
    requires Consumed(b.depth, Sell, position).Priced?
    ensures Consumed(b.depth, Sell, position).vwap > 0.0
  {
    LevelsPositive(b.depth, Sell);
    CostPositive(b.depth.bids, position);
    AverageRestores(Cost(b.depth.bids, position), position);
  }

  lemma SaleAddsUp(cash: real, position: real, price: real, i: L.Intent, version: nat)
    requires cash >= 0.0 && position > 0.0 && price > 0.0 && i.side == Sell && i.quantity == position
    ensures var fee := SaleFee(price, position);
            L.FillPortfolio(L.Portfolio(cash, position, version), i, price, fee)
            == Ok(L.Portfolio(L.Snap(cash + (price * position - fee), L.Tolerance(cash)), 0.0, version))
  {
    L.TolerancePositive(cash);
    L.TolerancePositive(position);
    assert Value(price, position) == price * position > 0.0;
  }
}
