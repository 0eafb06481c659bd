/** Two short histories that strand an intent: one by the clock, one by another slot of its product. */
module LedgerStuck {
  import opened Basics
  import opened Depth
  import opened Evidence
  import opened Ledger
  import opened LedgerRuns
  import opened LedgerEnds

  const NAME := "campaign"

  /** A digest; which one does not matter. */
  function SomeHash(): (s: string)
    ensures Sha256(s)
  {
    Letters(64)
  }

  function Letters(n: nat): (s: string)
    ensures |s| == n && forall i :: 0 <= i < n ==> s[i] == 'a'
  {
    if n == 0 then "" else Letters(n - 1) + "a"
  }

  function SomeManifest(): Manifest {
    Manifest(NAME, SomeHash(), DAY, DAY + CAMPAIGN, NAME, true)
  }

  lemma NamesAreValid()
    ensures Identifier(NAME) && Sha256(SomeHash()) && ValidManifest(SomeManifest(), 0)
  {
  }

  function Opening(): State {
    var start := Portfolio(START_CASH, 0.0, 0);
    State(SomeManifest(), 0, PerProduct(start, start), PerProduct(None, None), map[])
  }

  lemma OpeningStarts()
    ensures Start(Opening())
  {
    NamesAreValid();
    assert Ledger.Initialize(SomeManifest(), 0) == Ok(Opening());
  }

  function Say(k: Key, event: Event, at: int): Entry {
    Entry(Command(NAME, NAME, k, event), at)
  }

  lemma {:induction false} AfterJoins(st: State, a: seq<Entry>, b: seq<Entry>)
    ensures After(st, a + b) == After(After(st, a), b)
  {
    hide Apply;
    if b == [] {
      assert a + b == a;
    } else {
      AfterJoins(st, a, b[..|b| - 1]);
      assert (a + b)[..|a + b| - 1] == a + b[..|b| - 1];
    }
  }

  lemma AfterOne(st: State, e: Entry)
    requires Apply(st, e.command, e.at).Ok?
    ensures After(st, [e]) == Apply(st, e.command, e.at).value
  {
    hide Apply;
    assert [e][..0] == [];
  }

  /** Expected, admitted and decided at one instant. */
  function Deciding(k: Key, at: int, version: nat): seq<Entry> {
    [Say(k, Expect, at)] + [Say(k, Admit(at, SomeHash()), at)] + [Say(k, MakeIntent(Buy, 1.0, version), at)]
  }

  function Decided(at: int, version: nat): Slot {
    Slot(Intended, 3, Some(Admission(at, SomeHash(), version)), Some(Intent(Buy, 1.0, version, at)), None, None, None)
  }

  /** A fresh slot of an idle product, in its window, is decided by these three commands. */
  lemma DecidingIsAccepted(st: State, k: Key, at: int)
    requires st.manifest == SomeManifest() && k !in st.slots && ValidKey(SomeManifest(), k)
    requires InWindow(SomeManifest(), k, at) && Timestamp(at) && st.lastRecordedAt <= at && !ProductBusy(st.slots, k.product)
    ensures var version := st.portfolios.At(k.product).version;
            After(st, Deciding(k, at, version)) == st.(lastRecordedAt := at, slots := st.slots[k := Decided(at, version)])
  {
    hide Identifier;
    hide Sha256;
    hide InWindow;
    hide ValidKey;
    hide After;
    hide ProductBusy;
    NamesAreValid();
    var version := st.portfolios.At(k.product).version;
    var e1, e2, e3 := Say(k, Expect, at), Say(k, Admit(at, SomeHash()), at), Say(k, MakeIntent(Buy, 1.0, version), at);
    var s1 := st.(lastRecordedAt := at, slots := st.slots[k := Slot(Expected, 1, None, None, None, None, None)]);
    var s2 := s1.(slots := st.slots[k := Slot(Admitted, 2, Some(Admission(at, SomeHash(), version)), None, None, None, None)]);
    KeyIsInTime(k, at);
    SamePortfolio(st.portfolios, k.product);
    SameSequence(st.lastSequences, k.product);
    StillIdle(st.slots, k, s2.slots[k]);
    assert Apply(st, e1.command, at) == Ok(s1);
    assert s1.slots[k := s2.slots[k]] == s2.slots;
    assert Apply(s1, e2.command, at) == Ok(s2);
    assert s2.slots[k := Decided(at, version)] == st.slots[k := Decided(at, version)];
    AfterOne(st, e1);
    AfterOne(s1, e2);
    AfterOne(s2, e3);
    AfterJoins(st, [e1], [e2]);
    AfterJoins(st, [e1] + [e2], [e3]);
  }

  lemma KeyIsInTime(k: Key, at: int)
    requires InWindow(SomeManifest(), k, at)
    ensures k.close <= at
  {
  }

  lemma SameSequence(p: PerProduct<Option<nat>>, product: Product)
    ensures p.With(product, p.At(product)) == p
  {
  }

  lemma StillIdle(slots: map<Key, Slot>, k: Key, s: Slot)
    requires !ProductBusy(slots, k.product) && s.intent.None?
    ensures !ProductBusy(slots[k := s], k.product)
  {
  }

  // ---- By the clock

  const TODAY := Key(Btc, DAY)

  /** The other product's slot of the same day is recorded two hours and a millisecond after the close. */
  const LATE_BY_CLOCK := Deciding(TODAY, DAY, 0) + [Say(Key(Eth, DAY), Expect, DAY + WINDOW + 1)]

  lemma ClockStrands()
    ensures Start(Opening())
    ensures var st := After(Opening(), LATE_BY_CLOCK);
            && TODAY in st.slots && OpenIntent(st.slots[TODAY]) && Stuck(st, TODAY)
            && st.slots[TODAY].intent.value.portfolioVersion == st.portfolios.At(Btc).version
  {
    hide Identifier;
    hide After;
    hide OnSlot;
    OpeningStarts();
    NamesAreValid();
    DecidingIsAccepted(Opening(), TODAY, DAY);
    var decided := Opening().(lastRecordedAt := DAY, slots := map[TODAY := Decided(DAY, 0)]);
    var late := Say(Key(Eth, DAY), Expect, DAY + WINDOW + 1);
    AfterJoins(Opening(), Deciding(TODAY, DAY, 0), [late]);
    assert Opening().slots[TODAY := Decided(DAY, 0)] == decided.slots;
    AfterOne(decided, late);
  }

  // ---- By another slot

  const TOMORROW := Key(Btc, 2 * DAY)

  /** Today's slot is only expected; tomorrow's is decided, and then today's is closed as missed. */
  const LATE_BY_VERSION := [Say(TODAY, Expect, DAY)] + Deciding(TOMORROW, 2 * DAY, 0) + [Say(TODAY, Terminate(Closed(Missed, None)), 2 * DAY)]

  lemma MissedSlotStrands()
    ensures Start(Opening())
    ensures var st := After(Opening(), LATE_BY_VERSION);
            && TOMORROW in st.slots && OpenIntent(st.slots[TOMORROW]) && Stuck(st, TOMORROW)
            && InWindow(st.manifest, TOMORROW, st.lastRecordedAt)
  {
    hide Identifier;
    hide After;
    hide ProductBusy;
    OpeningStarts();
    NamesAreValid();
    var first, missed := Say(TODAY, Expect, DAY), Say(TODAY, Terminate(Closed(Missed, None)), 2 * DAY);
    var waiting := Opening().(lastRecordedAt := DAY, slots := map[TODAY := Slot(Expected, 1, None, None, None, None, None)]);
    AfterOne(Opening(), first);
    assert Apply(Opening(), first.command, DAY) == Ok(waiting);
    NobodyDecided(waiting.slots);
    DecidingIsAccepted(waiting, TOMORROW, 2 * DAY);
    var decided := waiting.(lastRecordedAt := 2 * DAY, slots := waiting.slots[TOMORROW := Decided(2 * DAY, 0)]);
    AfterJoins(Opening(), [first], Deciding(TOMORROW, 2 * DAY, 0));
    AfterJoins(Opening(), [first] + Deciding(TOMORROW, 2 * DAY, 0), [missed]);
    AfterOne(decided, missed);
  }

  lemma NobodyDecided(slots: map<Key, Slot>)
    requires forall k :: k in slots ==> slots[k].intent.None?
    ensures !ProductBusy(slots, Btc)
  {
  }
}
