/** Hourly liquidation marks: a slot per hour, a request checkpoint, one immutable observation. */
module Marks {
  import opened Basics
  import opened Evidence
  import L = Ledger

  datatype MarkPhase = Expected | Requested | Observed

  /** A recorded response: the hash of its body and the book read from it. */
  datatype BookItem = BookItem(bodySha256: string, book: Option<BookEvidence>)

  datatype MarkEvent =
    | ExpectMark
    | RequestMark
    | ObserveMark(books: PerProduct<Option<BookItem>>)

  datatype MarkCommand = MarkCommand(campaignId: string, commandId: string, scheduledAt: int, event: MarkEvent)

  datatype Observation = Observation(
    asOf: int, marks: PerProduct<Mark>, consolidated: Consolidated, portfolios: PerProduct<L.Portfolio>)

  datatype MarkSlot = MarkSlot(scheduledAt: int, phase: MarkPhase, requestedAt: Option<int>, observation: Option<Observation>)

  /** The slots in the order in which they were first recorded. */
  datatype MarkState = MarkState(lastRecordedAt: int, slots: seq<MarkSlot>, lastSequences: PerProduct<Option<nat>>)

  const EMPTY := MarkState(0, [], PerProduct(None, None))

  function IndexOf(slots: seq<MarkSlot>, scheduledAt: int): (r: Option<nat>)
    ensures r.Some? ==> r.value < |slots| && slots[r.value].scheduledAt == scheduledAt
    ensures r.None? <==> forall i :: 0 <= i < |slots| ==> slots[i].scheduledAt != scheduledAt
  {
    if slots == [] then None
    else if slots[|slots| - 1].scheduledAt == scheduledAt then Some(|slots| - 1)
    else IndexOf(slots[..|slots| - 1], scheduledAt)
  }

  function SlotAt(slots: seq<MarkSlot>, scheduledAt: int): Option<MarkSlot> {
    var i := IndexOf(slots, scheduledAt);
    if i.None? then None else Some(slots[i.value])
  }

  function Put(slots: seq<MarkSlot>, slot: MarkSlot): seq<MarkSlot> {
    var i := IndexOf(slots, slot.scheduledAt);
    if i.None? then slots + [slot] else slots[i.value := slot]
  }

  function Newest(a: Option<nat>, b: Option<nat>): Option<nat> {
    if a.None? then b else if b.None? then a else if a.value >= b.value then a else b
  }

  function BookOf(item: Option<BookItem>): Option<BookEvidence> {
    if item.None? then None else item.value.book
  }

  predicate ValidItem(item: Option<BookItem>) {
    item.Some? ==> Sha256(item.value.bodySha256)
  }

  /** One product's mark, tied to the request checkpoint when it was priced on a book. */
  function MarkOf(p: Product, st: MarkState, ledger: L.State, requestedAt: int, item: Option<BookItem>, at: int): (m: Mark)
    ensures m.product == p && m.asOf == at
    ensures m.Available? ==> m.equity >= 0.0
    ensures m.Available? && m.source == BidLiquidation ==> BookOf(item).Some?
  {
    var book, q := BookOf(item), ledger.portfolios.At(p);
    var scope := MarkScope(p, ledger.manifest.sourceProfileId, ledger.manifest.clockVerified, ledger.manifest.startAt,
                           ledger.manifest.endAt, Newest(st.lastSequences.At(p), ledger.lastSequences.At(p)));
    MarkBounds(scope, book, q.cash, q.position, at);
    var mark := ValueLiquidation(scope, book, q.cash, q.position, at);
    if mark.Available? && mark.source != Cash && book.value.requestedAt != Some(requestedAt)
    then Unavailable(p, at, "REQUEST_CHECKPOINT_MISMATCH")
    else mark
  }

  function NextSequence(previous: Option<nat>, mark: Mark, item: Option<BookItem>): Option<nat>
    requires mark.Available? && mark.source == BidLiquidation ==> BookOf(item).Some?
  {
    if mark.Available? && mark.source == BidLiquidation then BookOf(item).value.sequence else previous
  }

  predicate InHour(scheduledAt: int, at: int) {
    scheduledAt <= at < scheduledAt + HOUR
  }

  /** The slot a command writes, with the sequences seen afterwards. */
  function NextSlot(st: MarkState, ledger: L.State, c: MarkCommand, at: int): Result<(MarkSlot, PerProduct<Option<nat>>)> {
    var current := SlotAt(st.slots, c.scheduledAt);
    match c.event
    case ExpectMark =>
      if current.Some? then Fail("INVALID_MARK_PHASE")
      else Ok((MarkSlot(c.scheduledAt, Expected, None, None), st.lastSequences))
    case RequestMark =>
      if current.None? || current.value.phase == Observed then Fail("INVALID_MARK_PHASE")
      else if !InHour(c.scheduledAt, at) || at >= ledger.manifest.endAt then Fail("MARK_WINDOW_EXPIRED")
      else if current.value.phase != Expected then Fail("INVALID_MARK_PHASE")
      else Ok((current.value.(phase := Requested, requestedAt := Some(at)), st.lastSequences))
    case ObserveMark(books) =>
      if current.None? || current.value.phase == Observed then Fail("INVALID_MARK_PHASE")
      else if !InHour(c.scheduledAt, at) || at >= ledger.manifest.endAt then Fail("MARK_WINDOW_EXPIRED")
      else if current.value.phase != Requested || current.value.requestedAt.None? then Fail("INVALID_MARK_PHASE")
      else if !ValidItem(books.btc) || !ValidItem(books.eth) then Fail("INVALID_MARK_EVIDENCE")
      else
        var requested := current.value.requestedAt.value;
        var btc := MarkOf(Btc, st, ledger, requested, books.btc, at);
        var eth := MarkOf(Eth, st, ledger, requested, books.eth, at);
        var sequences := PerProduct(NextSequence(st.lastSequences.btc, btc, books.btc),
                                    NextSequence(st.lastSequences.eth, eth, books.eth));
        var observation := Observation(at, PerProduct(btc, eth), Consolidate(btc, eth), ledger.portfolios);
        Ok((current.value.(phase := Observed, observation := Some(observation)), sequences))
  }

  /** One mark command: refused, or recorded as a fact.  The receipt is the slot at its hour. */
  function ApplyMark(st: MarkState, ledger: L.State, c: MarkCommand, at: int): Result<MarkState> {
    if || c.campaignId != ledger.manifest.campaignId || !Identifier(c.commandId)
       || !Timestamp(c.scheduledAt) || c.scheduledAt % HOUR != 0
       || c.scheduledAt < ledger.manifest.startAt || c.scheduledAt >= ledger.manifest.endAt
       || !Timestamp(at) || at < ledger.lastRecordedAt || at < st.lastRecordedAt
    then Fail("INVALID_MARK_COMMAND")
    else
      match NextSlot(st, ledger, c, at)
      case Fail(error) => Fail(error)
      case Ok((slot, sequences)) => Ok(MarkState(at, Put(st.slots, slot), sequences))
  }

  /** The check repeated immediately before the commit. */
  function CommitClockRefusal(c: MarkCommand, observation: Option<Observation>, endAt: int, recordedAt: int, checkedAt: int): Option<string> {
    if !Timestamp(checkedAt) || checkedAt < recordedAt then Some("COMMIT_CLOCK_INVALID")
    else if c.event.ExpectMark? then None
    else if checkedAt >= c.scheduledAt + HOUR || checkedAt >= endAt then Some("MARK_EXPIRED_BEFORE_COMMIT")
    else if c.event.ObserveMark? && observation.Some?
            && (Stale(observation.value.marks.btc, c.event.books.btc, checkedAt)
                || Stale(observation.value.marks.eth, c.event.books.eth, checkedAt))
    then Some("MARK_EXPIRED_BEFORE_COMMIT")
    else None
  }

  predicate Stale(mark: Mark, item: Option<BookItem>, checkedAt: int) {
    && mark.Available? && mark.source != Cash
    && (var book := BookOf(item);
        book.None? || !Known(book.value.sourceObservedAt) || checkedAt - book.value.sourceObservedAt.value > FRESHNESS)
  }

  // ---- Coverage report

  predicate AvailableSlot(s: MarkSlot) {
    s.observation.Some? && s.observation.value.consolidated.Equity?
  }

  datatype HourStatus = HourAvailable | HourUnavailable | HourUnobserved

  function StatusOf(slots: seq<MarkSlot>, scheduledAt: int, end: int): HourStatus {
    var slot := SlotAt(slots, scheduledAt);
    if slot.None? || slot.value.observation.None? || slot.value.observation.value.asOf > end then HourUnobserved
    else if slot.value.observation.value.consolidated.Equity? then HourAvailable
    else HourUnavailable
  }

  function Hours(slots: seq<MarkSlot>, startAt: int, end: int, n: nat, status: HourStatus): nat {
    if n == 0 then 0
    else Hours(slots, startAt, end, n - 1, status) + if StatusOf(slots, startAt + (n - 1) * HOUR, end) == status then 1 else 0
  }

  /** The instants of the available observations between the two bounds, in slot order. */
  function Times(slots: seq<MarkSlot>, startAt: int, end: int): seq<int> {
    if slots == [] then []
    else
      var s := slots[0];
      (if AvailableSlot(s) && startAt <= s.observation.value.asOf <= end then [s.observation.value.asOf] else [])
      + Times(slots[1..], startAt, end)
  }

  function InsertTime(t: int, ts: seq<int>): seq<int> {
    if ts == [] || t <= ts[0] then [t] + ts else [ts[0]] + InsertTime(t, ts[1..])
  }

  function SortTimes(ts: seq<int>): seq<int> {
    if ts == [] then [] else InsertTime(ts[0], SortTimes(ts[1..]))
  }

  /** The longest stretch without an instant, from `previous` to `end`. */
  function Gap(times: seq<int>, previous: int, end: int): int {
    if times == [] then end - previous
    else
      var rest := Gap(times[1..], times[0], end);
      if times[0] - previous >= rest then times[0] - previous else rest
  }

  function MaxGap(st: MarkState, startAt: int, end: int): int {
    Gap(SortTimes(Times(st.slots, startAt, end)), startAt, end)
  }

  predicate ReportScope(startAt: int, endAt: int, asOf: int) {
    && Timestamp(asOf) && asOf >= startAt && Timestamp(startAt) && Timestamp(endAt)
    && startAt % DAY == 0 && endAt - startAt == CAMPAIGN
  }

  function End(endAt: int, asOf: int): int {
    if asOf <= endAt then asOf else endAt
  }

  predicate ProofGapExceeded(st: MarkState, startAt: int, endAt: int, asOf: int) {
    MaxGap(st, startAt, End(endAt, asOf)) > WINDOW
  }

  datatype Coverage = Coverage(
    expectedToDate: nat,
    available: nat,
    unavailable: nat,
    unobserved: nat,
    pending: nat,
    unregistered: nat,
    missing: seq<int>,
    maxGap: int,
    proofGapExceeded: bool,
    currentHour: Option<(int, HourStatus)>)

  /** The unobserved hours among the first n, in order of time. */
  function MissingHours(slots: seq<MarkSlot>, startAt: int, end: int, n: nat): seq<int> {
    if n == 0 then []
    else
      MissingHours(slots, startAt, end, n - 1)
      + if StatusOf(slots, startAt + (n - 1) * HOUR, end) == HourUnobserved then [startAt + (n - 1) * HOUR] else []
  }

  /** How many of these hours wait for an answer, or have no slot at all. */
  function PendingAmong(slots: seq<MarkSlot>, hours: seq<int>): nat {
    if hours == [] then 0
    else
      var slot := SlotAt(slots, hours[|hours| - 1]);
      PendingAmong(slots, hours[..|hours| - 1]) + if slot.Some? && slot.value.phase == Requested then 1 else 0
  }

  function UnregisteredAmong(slots: seq<MarkSlot>, hours: seq<int>): nat {
    if hours == [] then 0
    else UnregisteredAmong(slots, hours[..|hours| - 1]) + if SlotAt(slots, hours[|hours| - 1]).None? then 1 else 0
  }

  /** The missing hours are exactly the elapsed hours without an observation, each once, ascending. */
  lemma {:induction false} MissingIsUnobserved(slots: seq<MarkSlot>, startAt: int, end: int, n: nat)
    ensures |MissingHours(slots, startAt, end, n)| == Hours(slots, startAt, end, n, HourUnobserved)
    ensures forall t :: t in MissingHours(slots, startAt, end, n)
              <==> startAt <= t < startAt + n * HOUR && (t - startAt) % HOUR == 0 && StatusOf(slots, t, end) == HourUnobserved
    ensures forall i, j :: 0 <= i < j < |MissingHours(slots, startAt, end, n)| ==>
              MissingHours(slots, startAt, end, n)[i] < MissingHours(slots, startAt, end, n)[j]
  {
    hide StatusOf;
    if n > 0 {
      MissingIsUnobserved(slots, startAt, end, n - 1);
      var before, last := MissingHours(slots, startAt, end, n - 1), startAt + (n - 1) * HOUR;
      forall k | 0 <= k < |before| ensures before[k] < last {
        assert before[k] in before;
      }
    }
  }

  /** The calendar report, with its counting and gap loops. */
  method ReportCoverage(st: MarkState, startAt: int, endAt: int, asOf: int) returns (r: Result<Coverage>)
    ensures r.Fail? <==> !ReportScope(startAt, endAt, asOf)
    ensures r.Ok? ==>
      var end, c := End(endAt, asOf), r.value;
      && c.expectedToDate == (end - startAt) / HOUR
      && c.available == Hours(st.slots, startAt, end, c.expectedToDate, HourAvailable)
      && c.unavailable == Hours(st.slots, startAt, end, c.expectedToDate, HourUnavailable)
      && c.unobserved == Hours(st.slots, startAt, end, c.expectedToDate, HourUnobserved)
      && c.available + c.unavailable + c.unobserved == c.expectedToDate
      && c.missing == MissingHours(st.slots, startAt, end, c.expectedToDate)
      && c.pending == PendingAmong(st.slots, c.missing) && c.unregistered == UnregisteredAmong(st.slots, c.missing)
      && c.maxGap == MaxGap(st, startAt, end)
      && (c.proofGapExceeded <==> ProofGapExceeded(st, startAt, endAt, asOf))
      && c.currentHour == (var current := startAt + c.expectedToDate * HOUR;
                           if end < endAt then Some((current, StatusOf(st.slots, current, end))) else None)
  {
    if !ReportScope(startAt, endAt, asOf) {
      return Fail("INVALID_MARK_REPORT_SCOPE");
    }
    hide StatusOf;
    var end := End(endAt, asOf);
    var expected: nat := (end - startAt) / HOUR;
    var available, unavailable, unobserved, missing := CountHours(st.slots, startAt, end, expected);
    var pending, unregistered := CountMissing(st.slots, missing);
    var maxGap := LongestGap(st, startAt, end);
    var current := startAt + expected * HOUR;
    return Ok(Coverage(expected, available, unavailable, unobserved, pending, unregistered, missing, maxGap, maxGap > WINDOW,
                       if end < endAt then Some((current, StatusOf(st.slots, current, end))) else None));
  }

  method CountHours(slots: seq<MarkSlot>, startAt: int, end: int, expected: nat)
    returns (available: nat, unavailable: nat, unobserved: nat, missing: seq<int>)
    ensures available == Hours(slots, startAt, end, expected, HourAvailable)
    ensures unavailable == Hours(slots, startAt, end, expected, HourUnavailable)
    ensures unobserved == Hours(slots, startAt, end, expected, HourUnobserved)
    ensures available + unavailable + unobserved == expected
    ensures missing == MissingHours(slots, startAt, end, expected)
  {
    hide StatusOf;
    available, unavailable, unobserved, missing := 0, 0, 0, [];
    for i := 0 to expected
      invariant available == Hours(slots, startAt, end, i, HourAvailable)
      invariant unavailable == Hours(slots, startAt, end, i, HourUnavailable)
      invariant unobserved == Hours(slots, startAt, end, i, HourUnobserved)
      invariant available + unavailable + unobserved == i
      invariant missing == MissingHours(slots, startAt, end, i)
    {
      var at := startAt + i * HOUR;
      match StatusOf(slots, at, end) {
        case HourAvailable => available := available + 1;
        case HourUnavailable => unavailable := unavailable + 1;
        case HourUnobserved =>
          unobserved := unobserved + 1;
          missing := missing + [at];
      }
    }
  }

  method CountMissing(slots: seq<MarkSlot>, missing: seq<int>) returns (pending: nat, unregistered: nat)
    ensures pending == PendingAmong(slots, missing) && unregistered == UnregisteredAmong(slots, missing)
  {
    pending, unregistered := 0, 0;
    for i := 0 to |missing|
      invariant pending == PendingAmong(slots, missing[..i]) && unregistered == UnregisteredAmong(slots, missing[..i])
    {
      assert missing[..i + 1][..i] == missing[..i];
      var slot := SlotAt(slots, missing[i]);
      if slot.Some? && slot.value.phase == Requested {
        pending := pending + 1;
      }
      if slot.None? {
        unregistered := unregistered + 1;
      }
    }
    assert missing[..|missing|] == missing;
  }

  method LongestGap(st: MarkState, startAt: int, end: int) returns (maxGap: int)
    requires startAt <= end
    ensures maxGap == MaxGap(st, startAt, end)
  {
    var times := SortTimes(Times(st.slots, startAt, end));
    var previous := startAt;
    maxGap := 0;
    GapNonNegative(st.slots, startAt, end);
    for i := 0 to |times|
      invariant previous == if i == 0 then startAt else times[i - 1]
      invariant maxGap >= 0
      invariant Larger(maxGap, Gap(times[i..], previous, end)) == Larger(0, Gap(times, startAt, end))
    {
      assert times[i..][1..] == times[i + 1..];
      maxGap := Larger(maxGap, times[i] - previous);
      previous := times[i];
    }
    assert times[|times|..] == [];
    maxGap := Larger(maxGap, end - previous);
  }

  function Larger(a: int, b: int): int {
    if a >= b then a else b
  }

  // ---- What the gap means

  predicate Sorted(ts: seq<int>) {
    forall i, j :: 0 <= i < j < |ts| ==> ts[i] <= ts[j]
  }

  lemma PrependSorted(first: int, rest: seq<int>)
    requires Sorted(rest) && forall x :: x in rest ==> first <= x
    ensures Sorted([first] + rest)
  {
    var r := [first] + rest;
    forall i, j | 0 <= i < j < |r| ensures r[i] <= r[j] {
      assert r[j] == rest[j - 1] && rest[j - 1] in rest;
    }
  }

  lemma {:induction false} InsertKeepsSorted(t: int, ts: seq<int>)
    requires Sorted(ts)
    ensures Sorted(InsertTime(t, ts))
    ensures forall x :: x in InsertTime(t, ts) <==> x == t || x in ts
  {
    if ts == [] || t <= ts[0] {
      assert InsertTime(t, ts) == [t] + ts;
    } else {
      assert InsertTime(t, ts) == [ts[0]] + InsertTime(t, ts[1..]);
      var r := InsertTime(t, ts[1..]);
      InsertKeepsSorted(t, ts[1..]);
      assert ts == [ts[0]] + ts[1..];
      forall x | x in r ensures ts[0] <= x {
        if x != t {
          var i :| 0 <= i < |ts[1..]| && ts[1..][i] == x;
        }
      }
      PrependSorted(ts[0], r);
    }
  }

  lemma {:induction false} SortTimesSorts(ts: seq<int>)
    ensures Sorted(SortTimes(ts))
    ensures forall x :: x in SortTimes(ts) <==> x in ts
  {
    if ts != [] {
      SortTimesSorts(ts[1..]);
      InsertKeepsSorted(ts[0], SortTimes(ts[1..]));
      assert ts == [ts[0]] + ts[1..];
    }
  }

  lemma {:induction false} TimesAreObservations(slots: seq<MarkSlot>, startAt: int, end: int, t: int)
    ensures t in Times(slots, startAt, end) <==>
            startAt <= t <= end && exists i :: 0 <= i < |slots| && AvailableSlot(slots[i]) && slots[i].observation.value.asOf == t
  {
    if slots != [] {
      TimesAreObservations(slots[1..], startAt, end, t);
      if i :| 0 <= i < |slots| && AvailableSlot(slots[i]) && slots[i].observation.value.asOf == t {
        assert i > 0 ==> slots[1..][i - 1] == slots[i];
      }
      if startAt <= t <= end && t in Times(slots[1..], startAt, end) {
        var i :| 0 <= i < |slots[1..]| && AvailableSlot(slots[1..][i]) && slots[1..][i].observation.value.asOf == t;
        assert slots[i + 1] == slots[1..][i];
      }
    }
  }

  /** A silence: `from` is the start or an instant, and nothing happens in the next `length` milliseconds. */
  predicate Silence(times: seq<int>, previous: int, end: int, length: int, from: int) {
    (from == previous || from in times) && from + length < end && forall t :: t in times ==> t <= from || from + length < t
  }

  predicate Within(times: seq<int>, previous: int, end: int) {
    Sorted(times) && forall t :: t in times ==> previous <= t <= end
  }

  lemma TailWithin(times: seq<int>, previous: int, end: int)
    requires Within(times, previous, end) && times != []
    ensures Within(times[1..], times[0], end) && times[0] in times
    ensures forall t :: t in times <==> t == times[0] || t in times[1..]
  {
    forall t | t in times[1..] ensures times[0] <= t <= end {
      var i :| 0 <= i < |times[1..]| && times[1..][i] == t;
      assert times[i + 1] in times;
    }
    assert times == [times[0]] + times[1..];
  }

  lemma SilenceInTail(times: seq<int>, previous: int, end: int, length: int, from: int)
    requires Within(times, previous, end) && times != [] && length >= 0
    ensures Silence(times[1..], times[0], end, length, from) ==> Silence(times, previous, end, length, from)
    ensures Silence(times, previous, end, length, from) ==>
              times[0] - previous > length || Silence(times[1..], times[0], end, length, from)
    ensures times[0] - previous > length ==> Silence(times, previous, end, length, previous)
  {
    hide Sorted;
    TailWithin(times, previous, end);
  }

  /** The gap exceeds a length exactly when there is a longer silence. */
  lemma {:induction false} GapIsLongestSilence(times: seq<int>, previous: int, end: int, length: int)
    requires Within(times, previous, end) && length >= 0
    ensures Gap(times, previous, end) > length <==> exists from :: Silence(times, previous, end, length, from)
  {
    if times == [] {
      if end - previous > length {
        assert Silence(times, previous, end, length, previous);
      }
    } else {
      GapInTail(times, previous, end, length);
      TailWithin(times, previous, end);
      GapIsLongestSilence(times[1..], times[0], end, length);
    }
  }

  lemma GapInTail(times: seq<int>, previous: int, end: int, length: int)
    requires Within(times, previous, end) && times != [] && length >= 0
    ensures (exists from :: Silence(times, previous, end, length, from)) <==>
            times[0] - previous > length || exists from :: Silence(times[1..], times[0], end, length, from)
  {
    hide Silence;
    hide Within;
    forall from
      ensures Silence(times[1..], times[0], end, length, from) ==> Silence(times, previous, end, length, from)
      ensures Silence(times, previous, end, length, from) ==>
                times[0] - previous > length || Silence(times[1..], times[0], end, length, from)
    {
      SilenceInTail(times, previous, end, length, from);
    }
    SilenceInTail(times, previous, end, length, previous);
  }

  lemma GapNonNegative(slots: seq<MarkSlot>, startAt: int, end: int)
    requires startAt <= end
    ensures Gap(SortTimes(Times(slots, startAt, end)), startAt, end) >= 0
  {
    var ts := SortTimes(Times(slots, startAt, end));
    GapOfBounded(ts, startAt, end);
    SortTimesSorts(Times(slots, startAt, end));
    if ts != [] {
      assert ts[0] in ts;
      TimesAreObservations(slots, startAt, end, ts[0]);
    }
  }

  lemma {:induction false} GapOfBounded(times: seq<int>, previous: int, end: int)
    ensures times == [] ==> Gap(times, previous, end) == end - previous
    ensures times != [] ==> Gap(times, previous, end) >= times[0] - previous
  {
  }

  /** Requests and observations lie in their own hour, the request first, and slots have distinct hours:
      kept by every command. */
  ghost predicate MarkInvariant(st: MarkState) {
    && (forall i, j :: 0 <= i < j < |st.slots| ==> st.slots[i].scheduledAt != st.slots[j].scheduledAt)
    && (forall i :: 0 <= i < |st.slots| ==> SlotSound(st.slots[i], st.lastRecordedAt))
  }

  ghost predicate SlotSound(s: MarkSlot, now: int) {
    && (s.observation.Some? <==> s.phase == Observed)
    && (s.requestedAt.Some? <==> s.phase != Expected)
    && (s.requestedAt.Some? ==> InHour(s.scheduledAt, s.requestedAt.value) && s.requestedAt.value <= now)
    && (s.observation.Some? ==>
        var o := s.observation.value;
        && InHour(s.scheduledAt, o.asOf) && s.requestedAt.value <= o.asOf <= now
        && (o.consolidated.Equity? ==> o.consolidated.equity >= 0.0))
  }

  lemma MarkStepKeepsInvariant(st: MarkState, ledger: L.State, c: MarkCommand, at: int)
    requires MarkInvariant(st) && ApplyMark(st, ledger, c, at).Ok?
    ensures MarkInvariant(ApplyMark(st, ledger, c, at).value)
  {
    hide ValueLiquidation;
    hide Sha256;
    hide Identifier;
    var next := ApplyMark(st, ledger, c, at).value;
    var slot := NextSlot(st, ledger, c, at).value.0;
    assert SlotSound(slot, at);
    forall i | 0 <= i < |next.slots| ensures SlotSound(next.slots[i], at) {
      assert next.slots[i] == slot || (i < |st.slots| && next.slots[i] == st.slots[i]);
    }
  }

  lemma {:induction false} HoursAddUp(slots: seq<MarkSlot>, startAt: int, end: int, n: nat)
    ensures Hours(slots, startAt, end, n, HourAvailable) <= n
    ensures Hours(slots, startAt, end, n, HourAvailable) == n ==>
              forall i :: 0 <= i < n ==> StatusOf(slots, startAt + i * HOUR, end) == HourAvailable
  {
    if n > 0 { HoursAddUp(slots, startAt, end, n - 1); }
  }

  lemma HourHasTime(st: MarkState, startAt: int, end: int, scheduled: int) returns (t: int)
    requires MarkInvariant(st) && startAt <= scheduled
    requires StatusOf(st.slots, scheduled, end) == HourAvailable
    ensures InHour(scheduled, t) && t in Times(st.slots, startAt, end)
  {
    var k := IndexOf(st.slots, scheduled).value;
    t := st.slots[k].observation.value.asOf;
    assert SlotSound(st.slots[k], st.lastRecordedAt);
    TimesAreObservations(st.slots, startAt, end, t);
  }

  /** Full hourly coverage leaves every gap strictly below two hours, hence no proof gap. */
  lemma FullCoverageHasNoProofGap(st: MarkState, startAt: int, endAt: int, asOf: int)
    requires MarkInvariant(st) && ReportScope(startAt, endAt, asOf)
    requires var end := End(endAt, asOf);
             Hours(st.slots, startAt, end, (end - startAt) / HOUR, HourAvailable) == (end - startAt) / HOUR
    ensures MaxGap(st, startAt, End(endAt, asOf)) < 2 * HOUR
    ensures !ProofGapExceeded(st, startAt, endAt, asOf)
  {
    hide MarkInvariant;
    hide StatusOf;
    var end := End(endAt, asOf);
    var raw := Times(st.slots, startAt, end);
    var times, n, length := SortTimes(raw), (end - startAt) / HOUR, 2 * HOUR - 1;
    SortTimesSorts(raw);
    forall t | t in times ensures startAt <= t <= end {
      TimesAreObservations(st.slots, startAt, end, t);
    }
    HoursAddUp(st.slots, startAt, end, n);
    GapIsLongestSilence(times, startAt, end, length);
    if from :| Silence(times, startAt, end, length, from) {
      var i := (from - startAt) / HOUR + 1;
      assert from < startAt + i * HOUR <= from + HOUR;
      var t := HourHasTime(st, startAt, end, startAt + i * HOUR);
      assert false;
    }
  }
}
