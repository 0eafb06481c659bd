/** Marks tied to events: one after every fill, one at the end of the campaign. */
module EventMarks {
  import opened Basics
  import opened Evidence
  import opened Marks
  import L = Ledger
  import B = Benchmark
  import J = JointMarks

  datatype MarkId = FillMark(sequence: int) | FinalMark | OtherMark(name: string)

  datatype EventSlot = EventSlot(
    id: MarkId,
    expectedAt: int,
    phase: MarkPhase,
    requestedAt: Option<int>,
    portfolios: Option<PerProduct<L.Portfolio>>,
    benchmarks: Option<B.Entries>,
    observation: Option<Observation>,
    benchmarkObservation: Option<Observation>)

  datatype EventState = EventState(active: bool, lastRecordedAt: int, lastSequences: PerProduct<Option<nat>>, slots: seq<EventSlot>)

  datatype EventKind = RegisterEventMarks | RequestEventMark | ObserveEventMark(books: PerProduct<Option<BookItem>>)

  datatype EventCommand = EventCommand(campaignId: string, commandId: string, id: MarkId, event: EventKind)

  const NO_EVENTS := EventState(false, 0, PerProduct(None, None), [])

  function EmptySlot(id: MarkId, expectedAt: int): EventSlot {
    EventSlot(id, expectedAt, Expected, None, None, None, None, None)
  }

  function Find(slots: seq<EventSlot>, id: MarkId): (r: Option<nat>)
    ensures r.Some? ==> r.value < |slots| && slots[r.value].id == id
    ensures r.None? <==> forall i :: 0 <= i < |slots| ==> slots[i].id != id
  {
    if slots == [] then None
    else if slots[|slots| - 1].id == id then Some(|slots| - 1)
    else Find(slots[..|slots| - 1], id)
  }

  /** A durable fill creates its own expectation; a reused sequence number is an error. */
  function ExpectAfterFill(st: EventState, sequence: int, at: int): Result<EventState> {
    if !st.active then Ok(st)
    else if || !(0 < sequence <= MAX_SAFE) || !Timestamp(at) || at < st.lastRecordedAt
            || Find(st.slots, FillMark(sequence)).Some?
    then Fail("INVALID_AFTER_FILL_EXPECTATION")
    else Ok(st.(lastRecordedAt := at, slots := st.slots + [EmptySlot(FillMark(sequence), at)]))
  }

  predicate Seen(o: Option<Observation>) {
    o.Some? && o.value.consolidated.Equity?
  }

  predicate Blocks(s: EventSlot) {
    if s.id.FillMark? then !Seen(s.observation) || !Seen(s.benchmarkObservation) else s.phase == Requested
  }

  predicate Blocked(st: EventState) {
    st.active && exists i :: 0 <= i < |st.slots| && Blocks(st.slots[i])
  }

  predicate LegClosed(entries: B.Entries, p: Product) {
    entries.products.At(p).Some? && B.Closed(entries.products.At(p).value)
  }

  /** The latest sequence any recorded fact has shown for the product. */
  function PreviousSequence(st: EventState, hourly: MarkState, benchmarkHourly: MarkState, ledger: L.State, entries: B.Entries, p: Product): Option<nat> {
    J.Later(J.Later(J.Later(J.Later(st.lastSequences.At(p), hourly.lastSequences.At(p)), benchmarkHourly.lastSequences.At(p)),
                    ledger.lastSequences.At(p)), J.EntrySequence(entries, p))
  }

  datatype Scene = Scene(st: EventState, hourly: MarkState, benchmarkHourly: MarkState, ledger: L.State, entries: B.Entries)

  function EventMarkOf(scene: Scene, benchmark: bool, p: Product, requestedAt: int, item: Option<BookItem>, asOf: int, at: int): (m: Mark)
    ensures m.product == p && m.asOf == asOf
    ensures m.Available? ==> m.equity >= 0.0
    ensures m.Available? && m.source == BidLiquidation ==> BookOf(item).Some?
  {
    var ledger, book := scene.ledger, BookOf(item);
    if benchmark && !J.Started(scene.entries, p) then Unavailable(p, asOf, "BENCHMARK_NOT_INITIALIZED")
    else
      var q := if benchmark then J.BenchmarkPortfolio(scene.entries, p) else ledger.portfolios.At(p);
      var scope := MarkScope(p, ledger.manifest.sourceProfileId, ledger.manifest.clockVerified, ledger.manifest.startAt,
                             ledger.manifest.endAt,
                             PreviousSequence(scene.st, scene.hourly, scene.benchmarkHourly, ledger, scene.entries, p));
      MarkBounds(scope, book, q.cash, q.position, asOf);
      var mark := ValueLiquidation(scope, book, q.cash, q.position, asOf);
      if mark.Available? && mark.source != Cash then
        if book.value.requestedAt != Some(requestedAt) then Unavailable(p, asOf, "REQUEST_CHECKPOINT_MISMATCH")
        else if !Known(book.value.sourceObservedAt) || at - book.value.sourceObservedAt.value > FRESHNESS
        then Unavailable(p, asOf, "STALE_AT_USE")
        else mark
      else mark
  }

  function Observe(scene: Scene, benchmark: bool, requestedAt: int, books: PerProduct<Option<BookItem>>, asOf: int, at: int): Observation {
    var btc := EventMarkOf(scene, benchmark, Btc, requestedAt, books.btc, asOf, at);
    var eth := EventMarkOf(scene, benchmark, Eth, requestedAt, books.eth, asOf, at);
    var portfolios :=
      if benchmark then PerProduct(J.BenchmarkPortfolio(scene.entries, Btc), J.BenchmarkPortfolio(scene.entries, Eth))
      else scene.ledger.portfolios;
    Observation(asOf, PerProduct(btc, eth), Consolidate(btc, eth), portfolios)
  }

  function SequencesAfter(scene: Scene, requestedAt: int, books: PerProduct<Option<BookItem>>, asOf: int, at: int): PerProduct<Option<nat>> {
    var last := scene.st.lastSequences;
    PerProduct(
      NextSequence(NextSequence(last.btc, EventMarkOf(scene, false, Btc, requestedAt, books.btc, asOf, at), books.btc),
                   EventMarkOf(scene, true, Btc, requestedAt, books.btc, asOf, at), books.btc),
      NextSequence(NextSequence(last.eth, EventMarkOf(scene, false, Eth, requestedAt, books.eth, asOf, at), books.eth),
                   EventMarkOf(scene, true, Eth, requestedAt, books.eth, asOf, at), books.eth))
  }

  /** One event-mark command; the receipt is the slot it names. */
  function ApplyEventMark(scene: Scene, jointMode: bool, hasFills: bool, c: EventCommand, at: int): Result<EventState> {
    var st, ledger, entries := scene.st, scene.ledger, scene.entries;
    var endAt := ledger.manifest.endAt;
    if || c.campaignId != ledger.manifest.campaignId || !Identifier(c.commandId)
       || !Timestamp(at) || at < ledger.lastRecordedAt || at < st.lastRecordedAt
    then Fail("INVALID_EVENT_MARK_COMMAND")
    else if c.event.RegisterEventMarks? then
      if st.active || !jointMode || !entries.active || hasFills || c.id != FinalMark || at >= endAt
      then Fail("EVENT_MARK_MODE_NOT_READY")
      else Ok(st.(active := true, lastRecordedAt := at, slots := [EmptySlot(FinalMark, endAt)]))
    else
      var i := Find(st.slots, c.id);
      if !st.active || i.None? || st.slots[i.value].phase == Observed then Fail("INVALID_EVENT_MARK_PHASE")
      else
        var current := st.slots[i.value];
        match c.event
        case RequestEventMark =>
          if current.id.FillMark? && !(LegClosed(entries, Btc) && LegClosed(entries, Eth)) then Fail("BENCHMARK_BOOTSTRAP_INCOMPLETE")
          else if || current.phase != Expected || at < ledger.manifest.startAt || at >= endAt
                  || (if current.id.FillMark? then at < current.expectedAt else at < endAt - HOUR)
          then Fail("EVENT_MARK_WINDOW_EXPIRED")
          else Ok(st.(lastRecordedAt := at,
                      slots := st.slots[i.value := current.(phase := Requested, requestedAt := Some(at),
                                                            portfolios := Some(ledger.portfolios), benchmarks := Some(entries))]))
        case ObserveEventMark(books) =>
          if current.phase != Requested || current.requestedAt.None? || current.portfolios.None? || current.benchmarks.None?
          then Fail("INVALID_EVENT_MARK_PHASE")
          else if (if current.id.FillMark? then at >= endAt else at < endAt) then Fail("EVENT_MARK_WINDOW_EXPIRED")
          else if current.portfolios.value != ledger.portfolios || current.benchmarks.value.products != entries.products
          then Fail("EVENT_MARK_PORTFOLIO_CHANGED")
          else if !ValidItem(books.btc) || !ValidItem(books.eth) then Fail("INVALID_MARK_EVIDENCE")
          else
            var asOf := if current.id.FillMark? then at else endAt;
            var requested := current.requestedAt.value;
            var slot := current.(phase := Observed,
                                 observation := Some(Observe(scene, false, requested, books, asOf, at)),
                                 benchmarkObservation := Some(Observe(scene, true, requested, books, asOf, at)));
            Ok(st.(lastRecordedAt := at, lastSequences := SequencesAfter(scene, requested, books, asOf, at),
                   slots := st.slots[i.value := slot]))
        case RegisterEventMarks => Fail("INVALID_EVENT_MARK_COMMAND")
  }

  /** The check repeated immediately before the commit. */
  function EventClockRefusal(slot: EventSlot, books: Option<PerProduct<Option<BookItem>>>, endAt: int, recordedAt: int, checkedAt: int): Option<string> {
    if !Timestamp(checkedAt) || checkedAt < recordedAt then Some("COMMIT_CLOCK_INVALID")
    else if slot.phase != Observed then if checkedAt >= endAt then Some("EVENT_MARK_WINDOW_EXPIRED") else None
    else if slot.id.FillMark? && checkedAt >= endAt then Some("EVENT_MARK_WINDOW_EXPIRED")
    else if AnyStale(slot.observation, books, checkedAt) || AnyStale(slot.benchmarkObservation, books, checkedAt)
    then Some("MARK_EXPIRED_BEFORE_COMMIT")
    else None
  }

  predicate AnyStale(o: Option<Observation>, books: Option<PerProduct<Option<BookItem>>>, checkedAt: int) {
    o.Some? && (Stale(o.value.marks.btc, if books.Some? then books.value.btc else None, checkedAt)
                || Stale(o.value.marks.eth, if books.Some? then books.value.eth else None, checkedAt))
  }

  // ---- What every command keeps

  ghost predicate EventSlotSound(s: EventSlot, endAt: int, now: int) {
    && (s.observation.Some? <==> s.phase == Observed) && (s.benchmarkObservation.Some? <==> s.phase == Observed)
    && !s.id.OtherMark?
    && (s.observation.Some? ==>
        && s.observation.value.asOf <= now && s.observation.value.asOf <= endAt
        && (s.observation.value.consolidated.Equity? ==> s.observation.value.consolidated.equity >= 0.0))
  }

  ghost predicate EventsSound(st: EventState, endAt: int) {
    && (forall i :: 0 <= i < |st.slots| ==> EventSlotSound(st.slots[i], endAt, st.lastRecordedAt))
    && (forall i, j :: 0 <= i < j < |st.slots| ==> st.slots[i].id != st.slots[j].id)
  }

  /** Slots are never removed or reordered, an observed slot never changes, and at most one slot, not
      yet observed, changes at a time. */
  ghost predicate Advances(a: seq<EventSlot>, b: seq<EventSlot>) {
    && |a| <= |b| <= |a| + 1
    && (forall i :: 0 <= i < |a| ==> a[i].id == b[i].id && (a[i].phase == Observed ==> b[i] == a[i]))
    && (|b| == |a| + 1 ==> a == b[..|a|] && b[|a|].phase == Expected && b[|a|].observation.None?)
    && (forall i, j :: 0 <= i < j < |a| ==> a[i] == b[i] || a[j] == b[j])
  }

  lemma EventStep(scene: Scene, hasFills: bool, c: EventCommand, at: int)
    requires EventsSound(scene.st, scene.ledger.manifest.endAt) && scene.st.active
    requires ApplyEventMark(scene, true, hasFills, c, at).Ok?
    ensures var next := ApplyEventMark(scene, true, hasFills, c, at).value;
            && next.active && next.lastRecordedAt == at && EventsSound(next, scene.ledger.manifest.endAt)
            && Advances(scene.st.slots, next.slots) && |next.slots| == |scene.st.slots|
  {
    hide EventMarkOf;
    hide SequencesAfter;
    hide Identifier;
    hide Sha256;
    hide Find;
    var st, next := scene.st, ApplyEventMark(scene, true, hasFills, c, at).value;
    var i := Find(st.slots, c.id).value;
    assert EventSlotSound(next.slots[i], scene.ledger.manifest.endAt, at) by {
      assert EventSlotSound(st.slots[i], scene.ledger.manifest.endAt, st.lastRecordedAt);
    }
    forall j | 0 <= j < |next.slots|
      ensures EventSlotSound(next.slots[j], scene.ledger.manifest.endAt, at)
    {
      assert j != i ==> next.slots[j] == st.slots[j];
      assert EventSlotSound(st.slots[j], scene.ledger.manifest.endAt, st.lastRecordedAt);
    }
  }

  lemma ExpectationStep(st: EventState, sequence: int, at: int, endAt: int)
    requires EventsSound(st, endAt) && st.active && ExpectAfterFill(st, sequence, at).Ok?
    ensures var next := ExpectAfterFill(st, sequence, at).value;
            && next.active && next.lastRecordedAt == at && EventsSound(next, endAt)
            && Advances(st.slots, next.slots)
            && next.slots == st.slots + [EmptySlot(FillMark(sequence), at)]
  {
    var next := ExpectAfterFill(st, sequence, at).value;
    forall j | 0 <= j < |next.slots| ensures EventSlotSound(next.slots[j], endAt, at) {
      assert j < |st.slots| ==> next.slots[j] == st.slots[j] && EventSlotSound(st.slots[j], endAt, st.lastRecordedAt);
    }
  }
}
