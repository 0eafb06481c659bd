/** One hourly command applied to the campaign marks and the benchmark marks together. */
module JointMarks {
  import opened Basics
  import opened Evidence
  import opened Marks
  import L = Ledger
  import B = Benchmark

  datatype Joint = Joint(state: MarkState, benchmarkState: MarkState)

  function LegHolding(entries: B.Entries, p: Product): B.Holding {
    var leg := entries.products.At(p);
    if leg.Some? && leg.value.portfolio.Some? then leg.value.portfolio.value else B.Holding(0.0, 0.0)
  }

  predicate Started(entries: B.Entries, p: Product) {
    entries.products.At(p).Some? && entries.products.At(p).value.phase == B.Initialized
  }

  /** The sequence of the book a filled leg was bought on. */
  function EntrySequence(entries: B.Entries, p: Product): Option<nat> {
    if Started(entries, p) && entries.products.At(p).value.book.Some? then entries.products.At(p).value.book.value.sequence
    else None
  }

  /** The later of two sequences; the first when they tie. */
  function Later(a: Option<nat>, b: Option<nat>): Option<nat> {
    if b.Some? && (a.None? || b.value > a.value) then b else a
  }

  function JointSequence(benchmarkMarks: MarkState, ledger: L.State, entries: B.Entries, p: Product): Option<nat> {
    Later(Later(benchmarkMarks.lastSequences.At(p), ledger.lastSequences.At(p)), EntrySequence(entries, p))
  }

  function BenchmarkPortfolio(entries: B.Entries, p: Product): L.Portfolio {
    var holding := LegHolding(entries, p);
    L.Portfolio(holding.cash, holding.position, 0)
  }

  function UnlessStarted(entries: B.Entries, mark: Mark, at: int): Mark {
    if Started(entries, mark.product) then mark else Unavailable(mark.product, at, "BENCHMARK_NOT_INITIALIZED")
  }

  /** The benchmark observation values only the legs that were really bought. */
  function Masked(entries: B.Entries, slot: MarkSlot, at: int): MarkSlot {
    if slot.observation.None? then slot
    else
      var o := slot.observation.value;
      var btc, eth := UnlessStarted(entries, o.marks.btc, at), UnlessStarted(entries, o.marks.eth, at);
      slot.(observation := Some(o.(marks := PerProduct(btc, eth), consolidated := Consolidate(btc, eth))))
  }

  function BenchmarkLedger(benchmarkMarks: MarkState, ledger: L.State, entries: B.Entries): L.State {
    ledger.(portfolios := PerProduct(BenchmarkPortfolio(entries, Btc), BenchmarkPortfolio(entries, Eth)),
            lastSequences := BenchmarkSequences(benchmarkMarks, ledger, entries))
  }

  function BenchmarkSequences(benchmarkMarks: MarkState, ledger: L.State, entries: B.Entries): PerProduct<Option<nat>> {
    PerProduct(JointSequence(benchmarkMarks, ledger, entries, Btc), JointSequence(benchmarkMarks, ledger, entries, Eth))
  }

  function ApplyJoint(marks: MarkState, benchmarkMarks: MarkState, ledger: L.State, entries: B.Entries, c: MarkCommand, at: int): Result<Joint> {
    if !entries.active then Fail("INDEPENDENT_BENCHMARK_REQUIRED")
    else
      match ApplyMark(marks, ledger, c, at)
      case Fail(error) => Fail(error)
      case Ok(p7) =>
        var sequences := BenchmarkSequences(benchmarkMarks, ledger, entries);
        match ApplyMark(benchmarkMarks.(lastSequences := sequences), BenchmarkLedger(benchmarkMarks, ledger, entries), c, at)
        case Fail(error) => Fail(error)
        case Ok(bh) =>
          var receipt := SlotAt(bh.slots, c.scheduledAt);
          if receipt.None? then Fail("INVALID_MARK_PHASE")
          else Ok(Joint(p7, bh.(slots := Put(bh.slots, Masked(entries, receipt.value, at)))))
  }

  /** The source's form: two records rewritten in place, product by product, before the second application. */
  method ApplyJointMark(marks: MarkState, benchmarkMarks: MarkState, ledger: L.State, entries: B.Entries, c: MarkCommand, at: int)
    returns (r: Result<Joint>)
    ensures r == ApplyJoint(marks, benchmarkMarks, ledger, entries, c, at)
  {
    hide ApplyMark;
    if !entries.active {
      return Fail("INDEPENDENT_BENCHMARK_REQUIRED");
    }
    var p7 := ApplyMark(marks, ledger, c, at);
    if p7.Fail? {
      return Fail(p7.error);
    }
    var portfolios, lastSequences := ledger.portfolios, benchmarkMarks.lastSequences;
    var products := [Btc, Eth];
    for n := 0 to 2
      invariant n >= 1 ==> portfolios.btc == BenchmarkPortfolio(entries, Btc)
                           && lastSequences.btc == JointSequence(benchmarkMarks, ledger, entries, Btc)
      invariant n >= 2 ==> portfolios.eth == BenchmarkPortfolio(entries, Eth)
                           && lastSequences.eth == JointSequence(benchmarkMarks, ledger, entries, Eth)
      invariant n <= 1 ==> lastSequences.eth == benchmarkMarks.lastSequences.eth
      invariant n == 0 ==> lastSequences.btc == benchmarkMarks.lastSequences.btc
    {
      var product := products[n];
      var holding := LegHolding(entries, product);
      portfolios := portfolios.With(product, L.Portfolio(holding.cash, holding.position, 0));
      var execution := ledger.lastSequences.At(product);
      if execution.Some? && (lastSequences.At(product).None? || execution.value > lastSequences.At(product).value) {
        lastSequences := lastSequences.With(product, execution);
      }
      var entry := EntrySequence(entries, product);
      if entry.Some? && (lastSequences.At(product).None? || entry.value > lastSequences.At(product).value) {
        lastSequences := lastSequences.With(product, entry);
      }
    }
    var bh := ApplyMark(benchmarkMarks.(lastSequences := lastSequences),
                        ledger.(portfolios := portfolios, lastSequences := lastSequences), c, at);
    if bh.Fail? {
      return Fail(bh.error);
    }
    var receipt := SlotAt(bh.value.slots, c.scheduledAt);
    if receipt.None? {
      return Fail("INVALID_MARK_PHASE");
    }
    return Ok(Joint(p7.value, bh.value.(slots := Put(bh.value.slots, Masked(entries, receipt.value, at)))));
  }

  // ---- Lockstep

  /** Same hours in the same order, same phases, same request checkpoints, same clock. */
  ghost predicate Lockstep(a: MarkState, b: MarkState) {
    && a.lastRecordedAt == b.lastRecordedAt
    && |a.slots| == |b.slots|
    && (forall i :: 0 <= i < |a.slots| ==> InStep(a.slots[i], b.slots[i]))
  }

  ghost predicate InStep(s: MarkSlot, t: MarkSlot) {
    && s.scheduledAt == t.scheduledAt && s.phase == t.phase && s.requestedAt == t.requestedAt
    && (s.observation.Some? <==> t.observation.Some?)
    && (s.observation.Some? ==> s.observation.value.asOf == t.observation.value.asOf)
  }

  lemma {:induction false} SameIndex(a: seq<MarkSlot>, b: seq<MarkSlot>, scheduledAt: int)
    requires |a| == |b| && forall i :: 0 <= i < |a| ==> a[i].scheduledAt == b[i].scheduledAt
    ensures IndexOf(a, scheduledAt) == IndexOf(b, scheduledAt)
  {
    if a != [] {
      SameIndex(a[..|a| - 1], b[..|b| - 1], scheduledAt);
    }
  }

  lemma PutInStep(a: seq<MarkSlot>, b: seq<MarkSlot>, s: MarkSlot, t: MarkSlot)
    requires |a| == |b| && forall i :: 0 <= i < |a| ==> InStep(a[i], b[i])
    requires InStep(s, t)
    ensures |Put(a, s)| == |Put(b, t)| && forall i :: 0 <= i < |Put(a, s)| ==> InStep(Put(a, s)[i], Put(b, t)[i])
  {
    SameIndex(a, b, s.scheduledAt);
  }

  lemma PutFinds(slots: seq<MarkSlot>, s: MarkSlot)
    ensures IndexOf(Put(slots, s), s.scheduledAt).Some?
    ensures (forall i, j :: 0 <= i < j < |slots| ==> slots[i].scheduledAt != slots[j].scheduledAt) ==>
              SlotAt(Put(slots, s), s.scheduledAt) == Some(s)
  {
    var i, put := IndexOf(slots, s.scheduledAt), Put(slots, s);
    assert put[if i.Some? then i.value else |slots|] == s;
  }

  /** On states in lockstep a command is accepted for one portfolio exactly when it is for the other. */
  lemma SlotsInStep(a: MarkState, b: MarkState, la: L.State, lb: L.State, c: MarkCommand, at: int)
    requires |a.slots| == |b.slots| && (forall i :: 0 <= i < |a.slots| ==> InStep(a.slots[i], b.slots[i]))
    requires la.manifest == lb.manifest
    ensures var ra, rb := NextSlot(a, la, c, at), NextSlot(b, lb, c, at);
            && (ra.Ok? <==> rb.Ok?)
            && (ra.Fail? ==> ra == Fail(rb.error))
            && (ra.Ok? ==> InStep(ra.value.0, rb.value.0))
            && (ra.Ok? ==> ra.value.0.scheduledAt == c.scheduledAt)
            && (ra.Ok? && ra.value.0.observation.Some? && !c.event.ObserveMark? ==>
                SlotAt(a.slots, c.scheduledAt).Some? && SlotAt(a.slots, c.scheduledAt).value.observation.Some?)
  {
    hide MarkOf;
    hide Sha256;
    SameIndex(a.slots, b.slots, c.scheduledAt);
  }

  lemma MaskedInStep(entries: B.Entries, s: MarkSlot, t: MarkSlot, at: int)
    requires InStep(s, t)
    ensures InStep(s, Masked(entries, t, at))
  {
  }

  /** Lockstep is kept, and the benchmark side never refuses on its own: the joint command fails
      exactly when the campaign side fails, with that same error. */
  lemma JointKeepsLockstep(marks: MarkState, benchmarkMarks: MarkState, ledger: L.State, entries: B.Entries, c: MarkCommand, at: int)
    requires Lockstep(marks, benchmarkMarks) && entries.active && MarkInvariant(benchmarkMarks)
    ensures var r, p7 := ApplyJoint(marks, benchmarkMarks, ledger, entries, c, at), ApplyMark(marks, ledger, c, at);
            && (p7.Fail? ==> r == Fail(p7.error))
            && (p7.Ok? ==> r.Ok? && r.value.state == p7.value
                           && Lockstep(r.value.state, r.value.benchmarkState) && MarkInvariant(r.value.benchmarkState))
  {
    hide MarkOf;
    hide NextSlot;
    hide Masked;
    hide Identifier;
    hide InStep;
    hide SlotSound;
    hide Put;
    hide IndexOf;
    var p7 := ApplyMark(marks, ledger, c, at);
    if p7.Ok? {
      var other, lb := benchmarkMarks.(lastSequences := BenchmarkSequences(benchmarkMarks, ledger, entries)),
                       BenchmarkLedger(benchmarkMarks, ledger, entries);
      SlotsInStep(marks, other, ledger, lb, c, at);
      var s, t := NextSlot(marks, ledger, c, at).value.0, NextSlot(other, lb, c, at).value.0;
      var bh := ApplyMark(other, lb, c, at).value;
      SameScheduled(s, t);
      MarkStepKeepsInvariant(other, lb, c, at);
      PutInStep(marks.slots, other.slots, s, t);
      PutFinds(other.slots, t);
      assert SlotAt(bh.slots, c.scheduledAt) == Some(t);
      MaskedInStep(entries, s, t, at);
      SameScheduled(s, Masked(entries, t, at));
      PutTwice(marks.slots, other.slots, s, t, Masked(entries, t, at));
      MaskingKeepsInvariant(bh, entries, t, at);
    }
  }

  lemma SameScheduled(s: MarkSlot, t: MarkSlot)
    requires InStep(s, t)
    ensures s.scheduledAt == t.scheduledAt
  {
  }

  lemma PutTwice(a: seq<MarkSlot>, b: seq<MarkSlot>, s: MarkSlot, t: MarkSlot, masked: MarkSlot)
    requires |a| == |b| && forall i :: 0 <= i < |a| ==> InStep(a[i], b[i])
    requires InStep(s, t) && InStep(s, masked)
    ensures var x, y := Put(a, s), Put(Put(b, t), masked);
            |x| == |y| && forall i :: 0 <= i < |x| ==> InStep(x[i], y[i])
  {
    PutInStep(a, b, s, t);
    PutFinds(b, t);
    var y := Put(b, t);
    var k := IndexOf(y, masked.scheduledAt).value;
    SameIndex(Put(a, s), y, s.scheduledAt);
    LastIndex(a, s, k);
  }

  /** The slot found after writing is the slot written. */
  lemma LastIndex(a: seq<MarkSlot>, s: MarkSlot, k: nat)
    requires IndexOf(Put(a, s), s.scheduledAt) == Some(k)
    ensures k < |Put(a, s)| && Put(a, s)[k] == s
  {
    var i := IndexOf(a, s.scheduledAt);
    if i.Some? {
      IndexAfterUpdate(a, s, i.value);
    }
  }

  lemma {:induction false} IndexAfterUpdate(a: seq<MarkSlot>, s: MarkSlot, i: nat)
    requires IndexOf(a, s.scheduledAt) == Some(i)
    ensures i < |a| && IndexOf(a[i := s], s.scheduledAt) == Some(i)
  {
    var n := |a| - 1;
    if a[n].scheduledAt != s.scheduledAt {
      IndexAfterUpdate(a[..n], s, i);
      assert a[i := s][..n] == a[..n][i := s];
    }
  }

  lemma MaskingKeepsInvariant(bh: MarkState, entries: B.Entries, t: MarkSlot, at: int)
    requires MarkInvariant(bh) && SlotAt(bh.slots, t.scheduledAt) == Some(t)
    ensures MarkInvariant(bh.(slots := Put(bh.slots, Masked(entries, t, at))))
  {
    var k := IndexOf(bh.slots, t.scheduledAt).value;
    assert bh.slots[k] == t && SlotSound(t, bh.lastRecordedAt);
    assert SlotSound(Masked(entries, t, at), bh.lastRecordedAt);
  }
}
