/** A campaign fills at most two legs and one slot per product and day: fill numbers never run out. */
module MarkCounts {
  import opened Basics
  import opened EventMarks
  import opened Shadow
  import opened ShadowRuns
  import opened MarkRecords
  import L = Ledger
  import B = Benchmark
  import J = JointMarks

  function Done(ledger: L.State): set<L.Key> {
    set k | k in ledger.slots && ledger.slots[k].phase == L.Terminal
  }

  function Bought(s: Projection, p: Product): nat {
    if J.Started(s.benchmarks, p) then 1 else 0
  }

  /** One slot for the end, and at most one for every leg bought and every ledger slot closed. */
  ghost predicate Counted(s: Projection) {
    |s.events.slots| <= 1 + Bought(s, Btc) + Bought(s, Eth) + |Done(s.ledger)|
  }

  lemma LedgerDone(ledger: L.State, c: L.Command, at: int)
    requires L.Invariant(ledger) && L.Apply(ledger, c, at).Ok?
    ensures |Done(L.Apply(ledger, c, at).value)| >= |Done(ledger)| + if L.IsFill(c.event) then 1 else 0
  {
    hide L.OnSlot;
    L.StepKeepsInvariant(ledger, c, at);
    var next := L.Apply(ledger, c, at).value;
    var before, after := Done(ledger), Done(next);
    assert before <= after;
    if L.IsFill(c.event) {
      TerminatedIsDone(ledger, c, at);
      assert c.key in after && c.key !in before;
      Within(before + {c.key}, after);
    } else {
      Within(before, after);
    }
  }

  lemma TerminatedIsDone(ledger: L.State, c: L.Command, at: int)
    requires L.Invariant(ledger) && L.Apply(ledger, c, at).Ok? && L.IsFill(c.event)
    ensures c.key in L.Apply(ledger, c, at).value.slots && L.Apply(ledger, c, at).value.slots[c.key].phase == L.Terminal
    ensures c.key !in Done(ledger)
  {
    hide L.TerminationRefusal;
    hide L.FillPortfolio;
  }

  lemma {:induction false} Within<T>(a: set<T>, b: set<T>)
    requires a <= b
    ensures |a| <= |b|
  {
    if x :| x in a {
      Within(a - {x}, b - {x});
    }
  }

  lemma StepKeepsCount(s: Projection, input: Command, at: int, sequence: int)
    requires Kept(s) && Counted(s) && Step(s, input, at, sequence).Ok?
    ensures Counted(Step(s, input, at, sequence).value)
  {
    hide Sound;
    hide Step;
    hide Done;
    hide SlotsKept;
    hide CampaignKept;
    hide B.ApplyEntry;
    EntriesAreSound(s);
    StepTouchesOne(s, input, at, sequence);
    var n := Step(s, input, at, sequence).value;
    if input.OnLedger? {
      LedgerCommand(s, input.ledgerCommand, at, sequence);
      LedgerIsSound(s);
      LedgerDone(s.ledger, input.ledgerCommand, at);
    } else if input.OnBenchmark? {
      LegsBought(s, input.entryCommand, at, sequence);
    }
  }

  lemma LegsBought(s: Projection, c: B.EntryCommand, at: int, sequence: int)
    requires Kept(s) && Step(s, OnBenchmark(c), at, sequence).Ok?
    ensures var n := Step(s, OnBenchmark(c), at, sequence).value;
            Bought(n, Btc) + Bought(n, Eth) >= Bought(s, Btc) + Bought(s, Eth) + if FillsNow(n, OnBenchmark(c)) then 1 else 0
  {
    hide Sound;
    hide Step;
    hide SlotsKept;
    hide CampaignKept;
    hide B.ApplyEntry;
    hide B.OnLeg;
    BenchmarkCommand(s, c, at, sequence);
    StepTouchesOne(s, OnBenchmark(c), at, sequence);
    var n := Step(s, OnBenchmark(c), at, sequence).value;
    var phase :|
      && B.ApplyEntry(s.benchmarks, s.ledger, Some(s.profile), phase, c, at, false) == Ok(n.benchmarks)
      && (phase == LocalObserving ==> s.campaign.phase == LocalObserving);
    EntriesStepKept(s.benchmarks, s.ledger, Some(s.profile), phase, c, s.lastAt, at);
  }

  lemma {:induction false} EveryRunIsCounted(s: Projection, inputs: seq<Input>)
    requires Start(s)
    ensures Counted(Run(s, inputs))
  {
    hide Kept;
    hide Counted;
    hide Step;
    hide SuspendForRequestGap;
    hide Start;
    if inputs == [] {
      StartIsCounted(s);
    } else {
      var n := |inputs| - 1;
      EveryRunIsCounted(s, inputs[..n]);
      EveryRunIsKept(s, inputs[..n]);
      var before := Run(s, inputs[..n]);
      if Attempt(before, inputs[n]).Ok? {
        match inputs[n]
        case Do(command, at, sequence) => StepKeepsCount(before, command, at, sequence);
        case Gap(at, reason) => GapKeepsCount(before, at, reason);
      }
    }
  }

  lemma StartIsCounted(s: Projection)
    requires Start(s)
    ensures Counted(s)
  {
    hide Safety;
    var m, profile, at :| Shadow.Initialize(m, profile, at) == Ok(s);
  }

  lemma GapKeepsCount(s: Projection, at: int, reason: string)
    requires Counted(s) && SuspendForRequestGap(s, at, reason).Ok?
    ensures Counted(SuspendForRequestGap(s, at, reason).value)
  {
    hide Safety;
  }

  // ---- The slots of a campaign

  /** Every key of the first n days. */
  function Days(startAt: int, n: nat): (r: set<L.Key>)
    ensures |r| <= 2 * n
    decreases n
  {
    if n == 0 then {}
    else
      Days(startAt + DAY, n - 1) + {L.Key(Btc, startAt)} + {L.Key(Eth, startAt)}
  }

  lemma {:induction false} KeyIsADay(startAt: int, k: L.Key, n: nat)
    requires startAt <= k.close < startAt + n * DAY && startAt % DAY == 0 && k.close % DAY == 0
    ensures k in Days(startAt, n)
    decreases n
  {
    assert k.product.Btc? || k.product.Eth?;
    if k.close > startAt {
      KeyIsADay(startAt + DAY, k, n - 1);
    }
  }

  lemma AtMostThreeHundredSixty(ledger: L.State)
    requires L.Invariant(ledger)
    ensures |Done(ledger)| <= 360
  {
    hide L.SlotShape;
    var w :| L.ValidManifest(ledger.manifest, w);
    var m := ledger.manifest;
    forall k | k in Done(ledger) ensures k in Days(m.startAt, 180) {
      assert L.ValidKey(m, k);
      KeyIsADay(m.startAt, k, 180);
    }
    Within(Done(ledger), Days(m.startAt, 180));
  }

  // ---- A number nobody used

  predicate Unused(slots: seq<EventSlot>, n: int) {
    forall i :: 0 <= i < |slots| ==> slots[i].id != FillMark(n)
  }

  lemma {:induction false} SomeNumberIsUnused(slots: seq<EventSlot>, limit: nat) returns (n: int)
    requires |slots| < limit
    ensures 0 < n <= limit && Unused(slots, n)
    decreases limit
  {
    if exists i :: 0 <= i < |slots| && slots[i].id == FillMark(limit) {
      var rest := Without(slots, FillMark(limit));
      n := SomeNumberIsUnused(rest, limit - 1);
      UnusedWithout(slots, FillMark(limit), n);
    } else {
      n := limit;
    }
  }

  function Without(slots: seq<EventSlot>, id: MarkId): (r: seq<EventSlot>)
    ensures |r| <= |slots|
    ensures (exists i :: 0 <= i < |slots| && slots[i].id == id) ==> |r| < |slots|
  {
    if slots == [] then []
    else Without(slots[..|slots| - 1], id) + if slots[|slots| - 1].id == id then [] else [slots[|slots| - 1]]
  }

  lemma {:induction false} UnusedWithout(slots: seq<EventSlot>, id: MarkId, n: int)
    requires Unused(Without(slots, id), n) && id != FillMark(n)
    ensures Unused(slots, n)
  {
    if slots != [] {
      var rest := Without(slots[..|slots| - 1], id);
      assert forall i :: 0 <= i < |rest| ==> rest[i] == Without(slots, id)[i];
      UnusedWithout(slots[..|slots| - 1], id, n);
      if slots[|slots| - 1].id != id {
        assert Without(slots, id)[|rest|] == slots[|slots| - 1];
      }
    }
  }

  /** In every run a fill number is left for each of two more legs. */
  lemma NumbersAreLeft(s: Projection, inputs: seq<Input>)
    requires Start(s)
    ensures |Run(s, inputs).events.slots| <= 363
  {
    hide Run;
    hide Start;
    hide Sound;
    hide Done;
    EveryRunIsCounted(s, inputs);
    EveryRunIsSound(s, inputs);
    LedgerIsSound(Run(s, inputs));
    AtMostThreeHundredSixty(Run(s, inputs).ledger);
  }
}
