/** What marks are worth and when they are taken: hourly, for the benchmark, and for events. */
module MarkRules {
  import opened Basics
  import opened Depth
  import opened Evidence
  import opened Marks
  import opened EventMarks
  import L = Ledger
  import B = Benchmark
  import J = JointMarks

  // ---- One mark

  /** The bids take the whole position. */
  predicate Absorbs(book: BookEvidence, position: real) {
    DepthBook(book.depth) && position <= Capacity(book.depth.bids)
  }

  /** What selling the position into the bids brings, after slippage and before the fee. */
  function Proceeds(book: BookEvidence, position: real): real {
    Cost(book.depth.bids, position) * 0.9998
  }

  /** A valuation: cash is worth itself; a position is available exactly when its book answers the request, may value
      it and absorbs it, and then the equity is the cash and the proceeds less their fee of 0.6 percent. */
  ghost predicate Values(m: Mark, scope: MarkScope, book: Option<BookEvidence>, answers: bool, cash: real, position: real, asOf: int) {
    && m.product == scope.product && m.asOf == asOf
    && (m.Available? <==>
          && ValidMarkScope(scope, asOf) && cash >= 0.0 && position >= 0.0
          && (position == 0.0 || (answers && MarkRefusal(scope, book, asOf).None? && book.Some? && Absorbs(book.value, position))))
    && (m.Available? ==>
          if position == 0.0 then m == Available(scope.product, asOf, cash, Cash, 0.0, 0.0)
          else
            var sold := Proceeds(book.value, position);
            m == Available(scope.product, asOf, cash + (sold - sold * 0.006), BidLiquidation, sold * 0.006, sold - sold * 0.006))
  }

  lemma LiquidationsValue(scope: MarkScope, book: Option<BookEvidence>, cash: real, position: real, asOf: int)
    ensures Values(ValueLiquidation(scope, book, cash, position, asOf), scope, book, true, cash, position, asOf)
  {
    hide DepthBook;
    hide Capacity;
    hide Cost;
    hide Average;
    hide ValidMarkScope;
    hide FreshAtUse;
    if MarkRefusal(scope, book, asOf).None? {
      MarkableBooks(scope, book, asOf);
    }
    hide MarkRefusal;
  }

  lemma MarkableBooks(scope: MarkScope, book: Option<BookEvidence>, asOf: int)
    requires MarkRefusal(scope, book, asOf).None?
    ensures book.Some? && DepthBook(book.value.depth)
  {
    hide DepthBook;
  }

  // ---- The hourly marks

  function HourlyScope(st: MarkState, ledger: L.State, p: Product): MarkScope {
    var m := ledger.manifest;
    MarkScope(p, m.sourceProfileId, m.clockVerified, m.startAt, m.endAt, Newest(st.lastSequences.At(p), ledger.lastSequences.At(p)))
  }

  predicate Answers(book: Option<BookEvidence>, requestedAt: int) {
    book.Some? && book.value.requestedAt == Some(requestedAt)
  }

  lemma HourlyMarksValue(p: Product, st: MarkState, ledger: L.State, requestedAt: int, item: Option<BookItem>, at: int)
    ensures Values(MarkOf(p, st, ledger, requestedAt, item, at), HourlyScope(st, ledger, p), BookOf(item), Answers(BookOf(item), requestedAt),
                   ledger.portfolios.At(p).cash, ledger.portfolios.At(p).position, at)
  {
    hide ValueLiquidation;
    hide MarkRefusal;
    hide ValidMarkScope;
    hide Absorbs;
    hide Proceeds;
    var q := ledger.portfolios.At(p);
    LiquidationsValue(HourlyScope(st, ledger, p), BookOf(item), q.cash, q.position, at);
  }

  /** Both marks valued at one instant, and their sum exactly when both are available. */
  ghost predicate Sums(o: Observation, asOf: int) {
    && o.asOf == asOf
    && o.consolidated == if o.marks.btc.Available? && o.marks.eth.Available?
                         then Equity(o.marks.btc.equity + o.marks.eth.equity, asOf) else NoEquity
  }

  lemma ConsolidationSums(btc: Mark, eth: Mark, asOf: int)
    requires btc.product == Btc && eth.product == Eth && btc.asOf == eth.asOf == asOf && Timestamp(asOf)
    requires btc.Available? ==> btc.equity >= 0.0
    requires eth.Available? ==> eth.equity >= 0.0
    ensures Consolidate(btc, eth) == if btc.Available? && eth.Available? then Equity(btc.equity + eth.equity, asOf) else NoEquity
  {
  }

  /** The phase of a slot in which a mark command has a place, and what else it needs. */
  predicate MarkAllowed(st: MarkState, ledger: L.State, c: MarkCommand, at: int) {
    var m, current := ledger.manifest, SlotAt(st.slots, c.scheduledAt);
    && c.campaignId == m.campaignId && Identifier(c.commandId) && Timestamp(c.scheduledAt) && c.scheduledAt % 3_600_000 == 0
    && m.startAt <= c.scheduledAt < m.endAt && Timestamp(at) && at >= ledger.lastRecordedAt && at >= st.lastRecordedAt
    && match c.event
       case ExpectMark => current.None?
       case RequestMark => current.Some? && current.value.phase == Expected && c.scheduledAt <= at < c.scheduledAt + 3_600_000 && at < m.endAt
       case ObserveMark(books) =>
         && current.Some? && current.value.phase == Requested && current.value.requestedAt.Some?
         && c.scheduledAt <= at < c.scheduledAt + 3_600_000 && at < m.endAt && ValidItem(books.btc) && ValidItem(books.eth)
  }

  /** A mark command is accepted exactly for a whole hour of the campaign, in order, and within that hour; an
      observation is then made of the balances as they are, at that instant, and a slot is written nowhere else. */
  lemma HourlyMarksExactly(st: MarkState, ledger: L.State, c: MarkCommand, at: int)
    ensures ApplyMark(st, ledger, c, at).Ok? <==> MarkAllowed(st, ledger, c, at)
    ensures ApplyMark(st, ledger, c, at).Ok? ==>
              var n := ApplyMark(st, ledger, c, at).value;
              && n.lastRecordedAt == at
              && exists slot :: n.slots == Put(st.slots, slot) && slot.scheduledAt == c.scheduledAt && HourlySlot(st, ledger, c, at, slot)
  {
    hide Identifier;
    hide Sha256;
    hide MarkOf;
    hide Put;
    if MarkAllowed(st, ledger, c, at) {
      var slot := NextSlot(st, ledger, c, at).value.0;
      if c.event.ObserveMark? {
        var requested := SlotAt(st.slots, c.scheduledAt).value.requestedAt.value;
        HourlyMarksValue(Btc, st, ledger, requested, c.event.books.btc, at);
        HourlyMarksValue(Eth, st, ledger, requested, c.event.books.eth, at);
        ConsolidationSums(MarkOf(Btc, st, ledger, requested, c.event.books.btc, at), MarkOf(Eth, st, ledger, requested, c.event.books.eth, at), at);
      }
      SlotAtIsThere(st.slots, c.scheduledAt);
      assert HourlySlot(st, ledger, c, at, slot);
    }
  }

  lemma SlotAtIsThere(slots: seq<MarkSlot>, scheduledAt: int)
    ensures SlotAt(slots, scheduledAt).Some? ==> SlotAt(slots, scheduledAt).value.scheduledAt == scheduledAt
  {
  }

  ghost predicate HourlySlot(st: MarkState, ledger: L.State, c: MarkCommand, at: int, slot: MarkSlot) {
    match c.event
    case ExpectMark => slot == MarkSlot(c.scheduledAt, Expected, None, None)
    case RequestMark => slot.phase == Requested && slot.requestedAt == Some(at)
    case ObserveMark(books) =>
      var before := SlotAt(st.slots, c.scheduledAt);
      && before.Some? && before.value.requestedAt.Some? && slot.phase == Observed && slot.requestedAt == before.value.requestedAt
      && slot.observation.Some? && slot.observation.value.portfolios == ledger.portfolios
      && Sums(slot.observation.value, at)
      && Values(slot.observation.value.marks.btc, HourlyScope(st, ledger, Btc), BookOf(books.btc),
                Answers(BookOf(books.btc), slot.requestedAt.value), ledger.portfolios.btc.cash, ledger.portfolios.btc.position, at)
      && Values(slot.observation.value.marks.eth, HourlyScope(st, ledger, Eth), BookOf(books.eth),
                Answers(BookOf(books.eth), slot.requestedAt.value), ledger.portfolios.eth.cash, ledger.portfolios.eth.position, at)
  }

  // ---- The benchmark's hourly marks

  /** On the benchmark's side only legs that were bought are valued, with their holdings; the other marks are unavailable. */
  lemma BenchmarkMarksMask(entries: B.Entries, slot: MarkSlot, at: int)
    requires slot.observation.Some? && slot.observation.value.marks.btc.product == Btc && slot.observation.value.marks.eth.product == Eth
    requires slot.observation.value.marks.btc.asOf == slot.observation.value.marks.eth.asOf == at && Timestamp(at)
    requires forall p: Product ::
               var m := slot.observation.value.marks.At(p); m.Available? ==> m.equity >= 0.0
    ensures var o, masked := slot.observation.value, J.Masked(entries, slot, at);
            && masked.phase == slot.phase && masked.requestedAt == slot.requestedAt && masked.scheduledAt == slot.scheduledAt
            && masked.observation.Some? && masked.observation.value.asOf == o.asOf
            && (forall p: Product ::
                  var m := masked.observation.value.marks.At(p);
                  if J.Started(entries, p) then m == o.marks.At(p) else m.Unavailable? && m.product == p && m.asOf == at)
            && masked.observation.value.consolidated
               == (var a, b := masked.observation.value.marks.btc, masked.observation.value.marks.eth;
                   if a.Available? && b.Available? then Equity(a.equity + b.equity, at) else NoEquity)
  {
    var masked, o := J.Masked(entries, slot, at).observation.value, slot.observation.value;
    assert o.marks.At(Btc) == o.marks.btc && o.marks.At(Eth) == o.marks.eth;
    ConsolidationSums(masked.marks.btc, masked.marks.eth, at);
  }

  // ---- Event marks

  function EventScope(scene: Scene, p: Product): MarkScope {
    var m := scene.ledger.manifest;
    MarkScope(p, m.sourceProfileId, m.clockVerified, m.startAt, m.endAt,
              PreviousSequence(scene.st, scene.hourly, scene.benchmarkHourly, scene.ledger, scene.entries, p))
  }

  /** Still within the freshness span when it is used. */
  predicate FreshNow(book: Option<BookEvidence>, at: int) {
    book.Some? && Known(book.value.sourceObservedAt) && at - book.value.sourceObservedAt.value <= 5_000
  }

  /** The balances an event mark values: the ledger's, or the holding of a bought leg. */
  function Balances(scene: Scene, benchmark: bool, p: Product): (real, real) {
    if benchmark then (J.LegHolding(scene.entries, p).cash, J.LegHolding(scene.entries, p).position)
    else (scene.ledger.portfolios.At(p).cash, scene.ledger.portfolios.At(p).position)
  }

  /** An event mark is unavailable for a leg not bought; otherwise it is a valuation on a book that answers the request
      and is still fresh. */
  ghost predicate EventValue(m: Mark, scene: Scene, benchmark: bool, p: Product, requestedAt: int, item: Option<BookItem>, asOf: int, at: int) {
    if benchmark && !J.Started(scene.entries, p) then m.Unavailable? && m.product == p && m.asOf == asOf
    else Values(m, EventScope(scene, p), BookOf(item), Answers(BookOf(item), requestedAt) && FreshNow(BookOf(item), at),
                Balances(scene, benchmark, p).0, Balances(scene, benchmark, p).1, asOf)
  }

  lemma EventMarksValue(scene: Scene, benchmark: bool, p: Product, requestedAt: int, item: Option<BookItem>, asOf: int, at: int)
    ensures EventValue(EventMarkOf(scene, benchmark, p, requestedAt, item, asOf, at), scene, benchmark, p, requestedAt, item, asOf, at)
  {
    hide ValueLiquidation;
    hide MarkRefusal;
    hide ValidMarkScope;
    hide Absorbs;
    hide Proceeds;
    hide PreviousSequence;
    var q := Balances(scene, benchmark, p);
    LiquidationsValue(EventScope(scene, p), BookOf(item), q.0, q.1, asOf);
  }

  ghost predicate EventObservation(o: Observation, scene: Scene, benchmark: bool, requestedAt: int, books: PerProduct<Option<BookItem>>, asOf: int, at: int) {
    && Sums(o, asOf)
    && EventValue(o.marks.btc, scene, benchmark, Btc, requestedAt, books.btc, asOf, at)
    && EventValue(o.marks.eth, scene, benchmark, Eth, requestedAt, books.eth, asOf, at)
    && (forall p: Product :: o.portfolios.At(p).cash == Balances(scene, benchmark, p).0 && o.portfolios.At(p).position == Balances(scene, benchmark, p).1)
  }

  lemma EventObservationsValue(scene: Scene, benchmark: bool, requestedAt: int, books: PerProduct<Option<BookItem>>, asOf: int, at: int)
    requires Timestamp(asOf)
    ensures EventObservation(Observe(scene, benchmark, requestedAt, books, asOf, at), scene, benchmark, requestedAt, books, asOf, at)
  {
    hide EventMarkOf;
    hide EventValue;
    EventMarksValue(scene, benchmark, Btc, requestedAt, books.btc, asOf, at);
    EventMarksValue(scene, benchmark, Eth, requestedAt, books.eth, asOf, at);
    ConsolidationSums(EventMarkOf(scene, benchmark, Btc, requestedAt, books.btc, asOf, at),
                      EventMarkOf(scene, benchmark, Eth, requestedAt, books.eth, asOf, at), asOf);
  }

  /** What an event-mark command needs: a fill's mark is requested once both legs are closed and observed before the end;
      the final one is requested in the last hour and observed from the end on; in between nothing may have moved. */
  predicate EventAllowed(scene: Scene, hasFills: bool, c: EventCommand, at: int) {
    var st, m, i := scene.st, scene.ledger.manifest, Find(scene.st.slots, c.id);
    && c.campaignId == m.campaignId && Identifier(c.commandId) && Timestamp(at) && at >= scene.ledger.lastRecordedAt && at >= st.lastRecordedAt
    && match c.event
       case RegisterEventMarks => !st.active && scene.entries.active && !hasFills && c.id == FinalMark && at < m.endAt
       case RequestEventMark =>
         && st.active && i.Some? && st.slots[i.value].phase == Expected && m.startAt <= at < m.endAt
         && (if c.id.FillMark? then at >= st.slots[i.value].expectedAt && LegClosed(scene.entries, Btc) && LegClosed(scene.entries, Eth)
             else at >= m.endAt - 3_600_000)
       case ObserveEventMark(books) =>
         && st.active && i.Some?
         && var slot := st.slots[i.value];
            && slot.phase == Requested && slot.requestedAt.Some? && slot.benchmarks.Some?
            && slot.portfolios == Some(scene.ledger.portfolios) && slot.benchmarks.value.products == scene.entries.products
            && (if c.id.FillMark? then at < m.endAt else at >= m.endAt) && ValidItem(books.btc) && ValidItem(books.eth)
  }

  ghost predicate EventSlotAfter(scene: Scene, c: EventCommand, at: int, before: EventSlot, slot: EventSlot) {
    && slot.id == before.id && slot.expectedAt == before.expectedAt
    && match c.event
       case RegisterEventMarks => false
       case RequestEventMark =>
         && slot.phase == Requested && slot.requestedAt == Some(at) && slot.portfolios == Some(scene.ledger.portfolios)
         && slot.benchmarks == Some(scene.entries)
       case ObserveEventMark(books) =>
         && slot.phase == Observed && slot.requestedAt == before.requestedAt && before.requestedAt.Some?
         && slot.observation.Some? && slot.benchmarkObservation.Some?
         && var asOf := if c.id.FillMark? then at else scene.ledger.manifest.endAt;
            && EventObservation(slot.observation.value, scene, false, before.requestedAt.value, books, asOf, at)
            && EventObservation(slot.benchmarkObservation.value, scene, true, before.requestedAt.value, books, asOf, at)
  }

  lemma EventMarksExactly(scene: Scene, hasFills: bool, c: EventCommand, at: int)
    ensures ApplyEventMark(scene, true, hasFills, c, at).Ok? <==> EventAllowed(scene, hasFills, c, at)
  {
    hide Identifier;
    hide Observe;
    hide SequencesAfter;
    hide ValidItem;
  }

  /** An accepted command writes its own slot alone, and writes there what it says: the snapshots of a request, or the
      valuations of both portfolios at the instant of a fill's mark, and at the end for the final one. */
  lemma EventMarksAreWritten(scene: Scene, hasFills: bool, c: EventCommand, at: int)
    requires ApplyEventMark(scene, true, hasFills, c, at).Ok? && Timestamp(scene.ledger.manifest.endAt)
    ensures var n := ApplyEventMark(scene, true, hasFills, c, at).value;
            && n.active && n.lastRecordedAt == at
            && (c.event.RegisterEventMarks? ==> n.slots == [EmptySlot(FinalMark, scene.ledger.manifest.endAt)])
            && (!c.event.RegisterEventMarks? ==>
                  var i := Find(scene.st.slots, c.id);
                  && i.Some? && |n.slots| == |scene.st.slots| && n.slots == scene.st.slots[i.value := n.slots[i.value]]
                  && EventSlotAfter(scene, c, at, scene.st.slots[i.value], n.slots[i.value]))
  {
    hide Identifier;
    hide Observe;
    hide SequencesAfter;
    hide ValidItem;
    hide EventObservation;
    if c.event.ObserveEventMark? {
      var slot := scene.st.slots[Find(scene.st.slots, c.id).value];
      var asOf := if c.id.FillMark? then at else scene.ledger.manifest.endAt;
      EventObservationsValue(scene, false, slot.requestedAt.value, c.event.books, asOf, at);
      EventObservationsValue(scene, true, slot.requestedAt.value, c.event.books, asOf, at);
    }
  }
}
