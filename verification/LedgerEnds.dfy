/** Which slots of the ledger can still be closed, and what the others cost. */
module LedgerEnds {
  import opened Basics
  import opened Evidence
  import opened Ledger
  import opened LedgerRuns

  /** An open intent on an outdated portfolio, or one whose window closed before a quote was requested. */
  predicate Stuck(st: State, k: Key)
    requires k in st.slots && OpenIntent(st.slots[k])
  {
    || st.slots[k].intent.value.portfolioVersion != st.portfolios.At(k.product).version
    || (st.slots[k].phase == Intended && (st.lastRecordedAt > k.close + WINDOW || st.lastRecordedAt >= st.manifest.endAt))
  }

  /** No slot was decided on a portfolio of the future. */
  ghost predicate NotAhead(st: State) {
    forall k :: k in st.slots && st.slots[k].admission.Some? ==>
      st.slots[k].admission.value.portfolioVersion <= st.portfolios.At(k.product).version
  }

  lemma StepKeepsNotAhead(st: State, c: Command, at: int)
    requires Invariant(st) && NotAhead(st) && Apply(st, c, at).Ok?
    ensures NotAhead(Apply(st, c, at).value)
  {
    hide Apply;
    hide OnSlot;
    hide OneOpenIntent;
    StepKeepsInvariant(st, c, at);
    AdmissionsComeFromTheVersion(st, c, at);
  }

  lemma AdmissionsComeFromTheVersion(st: State, c: Command, at: int)
    requires Invariant(st) && Apply(st, c, at).Ok?
    ensures var s := Apply(st, c, at).value.slots[c.key];
            s.admission.Some? ==>
              || (c.key in st.slots && st.slots[c.key].admission == s.admission)
              || s.admission.value.portfolioVersion == st.portfolios.At(c.key.product).version
    ensures c.key in st.slots && st.slots[c.key].intent.Some? ==>
              Apply(st, c, at).value.slots[c.key].intent == st.slots[c.key].intent
  {
    hide OnSlot;
    hide ValidManifest;
    hide SlotShape;
    if !c.event.Expect? {
      OnSlotIsProper(st, c, at);
    }
  }

  lemma {:induction false} RunsStayBehind(st: State, log: seq<Entry>)
    requires Invariant(st) && NotAhead(st)
    ensures Invariant(After(st, log)) && NotAhead(After(st, log)) && After(st, log).manifest == st.manifest
  {
    hide Invariant;
    hide NotAhead;
    if log != [] {
      var n := |log| - 1;
      RunsStayBehind(st, log[..n]);
      var before := After(st, log[..n]);
      if Apply(before, log[n].command, log[n].at).Ok? {
        StepKeepsInvariant(before, log[n].command, log[n].at);
        StepKeepsNotAhead(before, log[n].command, log[n].at);
      }
    }
  }

  // ---- A stuck intent stays, and blocks its product

  /** A command on a stuck slot closes nothing, and one on another slot does not free it. */
  lemma StuckStaysStuck(st: State, c: Command, at: int, k: Key)
    requires Invariant(st) && NotAhead(st) && k in st.slots && OpenIntent(st.slots[k]) && Stuck(st, k)
    requires Apply(st, c, at).Ok?
    ensures var next := Apply(st, c, at).value;
            k in next.slots && OpenIntent(next.slots[k]) && Stuck(next, k) && next.slots[k].intent == st.slots[k].intent
    ensures c.event.MakeIntent? ==> c.key.product != k.product
  {
    hide OneOpenIntent;
    hide ValidManifest;
    StepKeepsInvariant(st, c, at);
    StepKeepsNotAhead(st, c, at);
    AdmissionsComeFromTheVersion(st, c, at);
    if c.event.MakeIntent? && c.key.product == k.product {
      BusyRefuses(st, c, at, k);
    }
    if c.key == k {
      StuckSlotMoves(st, c, at);
    } else if c.key.product == k.product && c.event.Terminate? {
      assert st.slots[k].intent.value.portfolioVersion <= st.portfolios.At(k.product).version by {
        assert SlotShape(st.slots[k]);
      }
    }
  }

  lemma BusyRefuses(st: State, c: Command, at: int, k: Key)
    requires k in st.slots && OpenIntent(st.slots[k]) && c.key.product == k.product && c.event.MakeIntent?
    ensures Apply(st, c, at).Fail?
  {
    assert ProductBusy(st.slots, k.product);
  }

  /** On the stuck slot itself: with an old version it may still ask for a quote and see it, but not close;
      past its window it does nothing at all. */
  lemma StuckSlotMoves(st: State, c: Command, at: int)
    requires c.key in st.slots && OpenIntent(st.slots[c.key]) && Stuck(st, c.key) && SlotShape(st.slots[c.key])
    requires Apply(st, c, at).Ok?
    ensures !c.event.Terminate? && Apply(st, c, at).value.portfolios == st.portfolios
    ensures st.slots[c.key].intent.value.portfolioVersion != st.portfolios.At(c.key.product).version
    ensures Apply(st, c, at).value.slots[c.key].phase != Terminal
  {
    hide ExecutionRefusal;
    hide FillPortfolio;
    hide ProductBusy;
    hide Sha256;
    hide Identifier;
    SamePortfolio(st.portfolios, c.key.product);
  }

  lemma SamePortfolio(p: PerProduct<Portfolio>, product: Product)
    ensures p.With(product, p.At(product)) == p
  {
  }

  lemma {:induction false} StuckForever(st: State, log: seq<Entry>, k: Key)
    requires Invariant(st) && NotAhead(st) && k in st.slots && OpenIntent(st.slots[k]) && Stuck(st, k)
    ensures var after := After(st, log);
            k in after.slots && OpenIntent(after.slots[k]) && Stuck(after, k)
    ensures forall i :: 0 <= i < |log| && log[i].command.event.MakeIntent? && log[i].command.key.product == k.product ==> !Accepted(st, log, i)
  {
    hide Invariant;
    hide NotAhead;
    hide Stuck;
    hide OpenIntent;
    hide Apply;
    if log != [] {
      var n := |log| - 1;
      StuckForever(st, log[..n], k);
      RunsStayBehind(st, log[..n]);
      var before := After(st, log[..n]);
      if Apply(before, log[n].command, log[n].at).Ok? {
        StuckStaysStuck(before, log[n].command, log[n].at, k);
      }
      forall i | 0 <= i < |log| && log[i].command.event.MakeIntent? && log[i].command.key.product == k.product
        ensures !Accepted(st, log, i)
      {
        if i < n {
          assert log[..n][i] == log[i] && log[..n][..i] == log[..i];
          assert !Accepted(st, log[..n], i);
        }
      }
    }
  }

  // ---- Any other open intent can be closed

  const COMMAND_ID := "close"

  function Closing(st: State, k: Key): Command {
    Command(st.manifest.campaignId, COMMAND_ID, k, Terminate(Closed(QuoteRejected, Some("QUOTE_RESPONSE_UNOBSERVED"))))
  }

  function Asking(st: State, k: Key): Command {
    Command(st.manifest.campaignId, COMMAND_ID, k, RequestQuote)
  }

  function CloseTime(st: State, k: Key): int {
    if st.lastRecordedAt < k.close then k.close else st.lastRecordedAt
  }

  /** One or two commands that close it. */
  function CloseLog(st: State, k: Key): seq<Entry>
    requires k in st.slots
  {
    var at := CloseTime(st, k);
    if st.slots[k].phase == Intended then [Entry(Asking(st, k), at), Entry(Closing(st, k), at)] else [Entry(Closing(st, k), at)]
  }

  lemma NamesAreValid()
    ensures Identifier(COMMAND_ID) && ReasonCode("QUOTE_RESPONSE_UNOBSERVED")
  {
  }

  lemma AskingIsAccepted(st: State, k: Key)
    requires Invariant(st) && k in st.slots && OpenIntent(st.slots[k]) && !Stuck(st, k) && st.slots[k].phase == Intended
    ensures var r := Apply(st, Asking(st, k), CloseTime(st, k));
            && r.Ok? && k in r.value.slots && r.value.slots[k].phase == Requested && OpenIntent(r.value.slots[k])
            && !Stuck(r.value, k) && CloseTime(r.value, k) == CloseTime(st, k) && r.value.manifest == st.manifest
  {
    hide Identifier;
    hide OneOpenIntent;
    NamesAreValid();
    assert ValidKey(st.manifest, k) && SlotShape(st.slots[k]);
    SamePortfolio(st.portfolios, k.product);
  }

  lemma ClosingIsAccepted(st: State, k: Key)
    requires Invariant(st) && k in st.slots && OpenIntent(st.slots[k]) && !Stuck(st, k) && st.slots[k].phase != Intended
    ensures var r := Apply(st, Closing(st, k), CloseTime(st, k));
            r.Ok? && k in r.value.slots && r.value.slots[k].phase == Terminal
  {
    hide Identifier;
    hide ReasonCode;
    hide OneOpenIntent;
    NamesAreValid();
    assert ValidKey(st.manifest, k) && SlotShape(st.slots[k]);
  }

  lemma CloseLogCloses(st: State, k: Key)
    requires Invariant(st) && k in st.slots && OpenIntent(st.slots[k]) && !Stuck(st, k)
    ensures var after := After(st, CloseLog(st, k)); k in after.slots && after.slots[k].phase == Terminal
  {
    hide Apply;
    hide Stuck;
    hide OpenIntent;
    hide Invariant;
    var log := CloseLog(st, k);
    if st.slots[k].phase == Intended {
      AskingIsAccepted(st, k);
      var next := Apply(st, Asking(st, k), CloseTime(st, k)).value;
      StepKeepsInvariant(st, Asking(st, k), CloseTime(st, k));
      ClosingIsAccepted(next, k);
      assert log[..1] == [log[0]] && log[..1][..0] == [];
      assert After(st, log[..1]) == next;
    } else {
      ClosingIsAccepted(st, k);
      assert log[..0] == [];
    }
  }

  ghost predicate CanClose(st: State, k: Key) {
    exists log :: Closes(st, log, k)
  }

  ghost predicate Closes(st: State, log: seq<Entry>, k: Key) {
    k in After(st, log).slots && After(st, log).slots[k].phase == Terminal
  }

  /** In every reachable state an open intent can be closed by some further commands if and only if it is
      not stuck; and a stuck one keeps every later intent of its product out for good. */
  lemma OpenIntentsCloseUnlessStuck(start: State, past: seq<Entry>, k: Key, later: seq<Entry>)
    requires Start(start) && k in After(start, past).slots && OpenIntent(After(start, past).slots[k])
    ensures CanClose(After(start, past), k) <==> !Stuck(After(start, past), k)
    ensures Stuck(After(start, past), k) ==>
              forall i :: 0 <= i < |later| && later[i].command.event.MakeIntent? && later[i].command.key.product == k.product ==>
                !Accepted(After(start, past), later, i)
  {
    hide Stuck;
    hide OpenIntent;
    hide Invariant;
    hide NotAhead;
    var st := After(start, past);
    EveryReachableStateIsSound(start, []);
    StartIsBehind(start);
    RunsStayBehind(start, past);
    if Stuck(st, k) {
      StuckForever(st, later, k);
      forall log ensures !Closes(st, log, k) {
        StuckForever(st, log, k);
        OpenIsNotTerminal(After(st, log), k);
      }
    } else {
      CloseLogCloses(st, k);
      assert Closes(st, CloseLog(st, k), k);
    }
  }

  lemma StartIsBehind(start: State)
    requires Start(start)
    ensures NotAhead(start)
  {
    StartIsEmpty(start);
  }

  lemma OpenIsNotTerminal(st: State, k: Key)
    requires k in st.slots && OpenIntent(st.slots[k])
    ensures st.slots[k].phase != Terminal
  {
  }

  // ---- Slots without an intent

  predicate TooLate(st: State, k: Key) {
    st.lastRecordedAt > k.close + WINDOW || st.lastRecordedAt >= st.manifest.endAt
  }

  /** Admitted on an outdated portfolio or past its window, or holding an intent that is stuck. */
  predicate Stranded(st: State, k: Key)
    requires k in st.slots
  {
    if st.slots[k].phase == Admitted
    then TooLate(st, k) || st.slots[k].admission.None? || st.slots[k].admission.value.portfolioVersion != st.portfolios.At(k.product).version
    else OpenIntent(st.slots[k]) && Stuck(st, k)
  }

  lemma AdmittedStaysStranded(st: State, c: Command, at: int, k: Key)
    requires Invariant(st) && NotAhead(st) && k in st.slots && st.slots[k].phase == Admitted && Stranded(st, k)
    requires Apply(st, c, at).Ok?
    ensures var next := Apply(st, c, at).value;
            k in next.slots && next.slots[k].phase == Admitted && Stranded(next, k)
  {
    hide OneOpenIntent;
    hide ValidManifest;
    assert SlotShape(st.slots[k]);
    StepKeepsInvariant(st, c, at);
    if c.key == k {
      StrandedRefuses(st, c, at);
    }
  }

  lemma StrandedRefuses(st: State, c: Command, at: int)
    requires c.key in st.slots && st.slots[c.key].phase == Admitted && Stranded(st, c.key) && SlotShape(st.slots[c.key])
    ensures Apply(st, c, at).Fail?
  {
    hide ExecutionRefusal;
    hide FillPortfolio;
    hide ProductBusy;
    hide Sha256;
    hide Identifier;
  }

  lemma {:induction false} AdmittedForever(st: State, log: seq<Entry>, k: Key)
    requires Invariant(st) && NotAhead(st) && k in st.slots && st.slots[k].phase == Admitted && Stranded(st, k)
    ensures var after := After(st, log); k in after.slots && after.slots[k].phase == Admitted && Stranded(after, k)
  {
    hide Invariant;
    hide NotAhead;
    hide Stranded;
    hide Apply;
    if log != [] {
      var n := |log| - 1;
      AdmittedForever(st, log[..n], k);
      RunsStayBehind(st, log[..n]);
      var before := After(st, log[..n]);
      if Apply(before, log[n].command, log[n].at).Ok? {
        AdmittedStaysStranded(before, log[n].command, log[n].at, k);
      }
    }
  }

  /** The closing of a slot without an intent: held inside its window, missed after it. */
  function LeavingOf(st: State, k: Key): Entry
    requires k in st.slots
  {
    var missed := k.close + WINDOW + 1;
    if st.slots[k].phase == Admitted
    then Entry(Command(st.manifest.campaignId, COMMAND_ID, k, Terminate(Closed(Hold, None))), CloseTime(st, k))
    else Entry(Command(st.manifest.campaignId, COMMAND_ID, k, Terminate(Closed(Missed, None))),
               if st.lastRecordedAt < missed then missed else st.lastRecordedAt)
  }

  lemma LeavingIsAccepted(st: State, k: Key)
    requires Invariant(st) && k in st.slots && (st.slots[k].phase == Expected || (st.slots[k].phase == Admitted && !Stranded(st, k)))
    ensures var e := LeavingOf(st, k);
            var r := Apply(st, e.command, e.at);
            r.Ok? && k in r.value.slots && r.value.slots[k].phase == Terminal
  {
    hide Identifier;
    hide OneOpenIntent;
    NamesAreValid();
    assert ValidKey(st.manifest, k) && SlotShape(st.slots[k]);
    DayFits(st.manifest, k);
  }

  /** A key closes at least a day before the end. */
  lemma DayFits(m: Manifest, k: Key)
    requires (exists at :: ValidManifest(m, at)) && ValidKey(m, k)
    ensures k.close + WINDOW + 1 <= m.endAt <= MAX_SAFE
  {
    hide Identifier;
    hide Sha256;
    var at :| ValidManifest(m, at);
    WholeDays(m.startAt);
    DaysApart(k.close, m.endAt);
  }

  lemma WholeDays(startAt: int)
    requires startAt % DAY == 0
    ensures (startAt + CAMPAIGN) % DAY == 0
  {
  }

  lemma DaysApart(a: int, b: int)
    requires a % DAY == 0 && b % DAY == 0 && a < b
    ensures a + DAY <= b
  {
  }

  /** In every reachable state a slot that is not yet closed can be closed by some further commands if and
      only if it is not stranded. */
  lemma SlotsCloseUnlessStranded(start: State, past: seq<Entry>, k: Key)
    requires Start(start) && k in After(start, past).slots && After(start, past).slots[k].phase != Terminal
    ensures CanClose(After(start, past), k) <==> !Stranded(After(start, past), k)
  {
    hide Stuck;
    hide Invariant;
    hide NotAhead;
    hide Apply;
    var st := After(start, past);
    EveryReachableStateIsSound(start, []);
    StartIsBehind(start);
    RunsStayBehind(start, past);
    ShapeIsKept(st, k);
    if OpenIntent(st.slots[k]) {
      OpenIntentsCloseUnlessStuck(start, past, k, []);
    } else if Stranded(st, k) {
      forall log ensures !Closes(st, log, k) {
        AdmittedForever(st, log, k);
      }
    } else {
      LeavingIsAccepted(st, k);
      var e := LeavingOf(st, k);
      assert [e][..0] == [] && After(st, []) == st;
      assert After(st, [e]) == Apply(st, e.command, e.at).value;
      assert Closes(st, [e], k);
    }
  }

  lemma ShapeIsKept(st: State, k: Key)
    requires Invariant(st) && k in st.slots && st.slots[k].phase != Terminal
    ensures OpenIntent(st.slots[k]) <==> st.slots[k].phase != Expected && st.slots[k].phase != Admitted
  {
  }
}
