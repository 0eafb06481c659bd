/** Whole runs of the ledger: what every recorded history preserves. */
module LedgerRuns {
  import opened Basics
  import opened Depth
  import opened Evidence
  import opened Ledger

  datatype Entry = Entry(command: Command, at: int)

  /** The state after a history; refused commands leave no trace. */
  ghost function After(st: State, log: seq<Entry>): State {
    if log == [] then st
    else
      var before, e := After(st, log[..|log| - 1]), log[|log| - 1];
      match Apply(before, e.command, e.at)
      case Ok(next) => next
      case Fail(_) => before
  }

  ghost predicate Accepted(st: State, log: seq<Entry>, i: nat)
    requires i < |log|
  {
    Apply(After(st, log[..i]), log[i].command, log[i].at).Ok?
  }

  lemma AfterStep(st: State, log: seq<Entry>, i: nat)
    requires i < |log|
    ensures After(st, log[..i + 1]) ==
            if Accepted(st, log, i) then Apply(After(st, log[..i]), log[i].command, log[i].at).value
            else After(st, log[..i])
  {
    assert log[..i + 1][..i] == log[..i];
  }

  ghost predicate Start(st: State) {
    exists m, at :: Initialize(m, at) == Ok(st)
  }

  lemma {:induction false} EveryReachableStateIsSound(st: State, log: seq<Entry>)
    requires Start(st)
    ensures Invariant(After(st, log)) && After(st, log).manifest == st.manifest
  {
    if log == [] {
      var m, at :| Initialize(m, at) == Ok(st);
    } else {
      var n := |log| - 1;
      EveryReachableStateIsSound(st, log[..n]);
      var before := After(st, log[..n]);
      if Apply(before, log[n].command, log[n].at).Ok? {
        StepKeepsInvariant(before, log[n].command, log[n].at);
      }
    }
  }

  lemma StartIsEmpty(st: State)
    requires Start(st)
    ensures st.slots == map[]
  {
  }

  /** How many commands a slot has accepted over a history. */
  ghost function AcceptedOn(st: State, log: seq<Entry>, k: Key): nat {
    if log == [] then 0
    else
      var n := |log| - 1;
      AcceptedOn(st, log[..n], k) +
      if log[n].command.key == k && Apply(After(st, log[..n]), log[n].command, log[n].at).Ok? then 1 else 0
  }

  /** The revision of a slot counts the commands it accepted: never more than six, the last of which
      made it terminal. */
  lemma {:induction false} SixCommandsPerSlot(st: State, log: seq<Entry>, k: Key)
    requires Start(st)
    ensures k !in After(st, log).slots ==> AcceptedOn(st, log, k) == 0
    ensures k in After(st, log).slots ==>
              var s := After(st, log).slots[k];
              AcceptedOn(st, log, k) == s.revision <= Rank(s.phase) <= 6
  {
    hide OnSlot;
    if log == [] {
      StartIsEmpty(st);
    } else {
      var n := |log| - 1;
      SixCommandsPerSlot(st, log[..n], k);
      EveryReachableStateIsSound(st, log[..n]);
      EveryReachableStateIsSound(st, log);
      var before, e := After(st, log[..n]), log[n];
      if Apply(before, e.command, e.at).Ok? {
        StepKeepsInvariant(before, e.command, e.at);
      }
    }
  }

  // ---- Serialisability

  /** While a product's version stands still, so do its cash and position. */
  lemma {:induction false} VersionFixesPortfolio(st: State, log: seq<Entry>, i: nat, j: nat, p: Product)
    requires Start(st) && i <= j <= |log|
    ensures var a, b := After(st, log[..i]).portfolios.At(p), After(st, log[..j]).portfolios.At(p);
            a.version <= b.version && (a.version == b.version ==> a == b)
    decreases j - i
  {
    if i < j {
      VersionFixesPortfolio(st, log, i, j - 1, p);
      AfterStep(st, log, j - 1);
      EveryReachableStateIsSound(st, log[..j - 1]);
      if Accepted(st, log, j - 1) {
        StepKeepsInvariant(After(st, log[..j - 1]), log[j - 1].command, log[j - 1].at);
      }
    }
  }

  /** An accepted admission of slot k at step i, made at the given portfolio version. */
  ghost predicate AdmittedAt(st: State, log: seq<Entry>, i: nat, k: Key, version: nat) {
    && i < |log| && Accepted(st, log, i)
    && log[i].command.key == k && log[i].command.event.Admit?
    && After(st, log[..i]).portfolios.At(k.product).version == version
  }

  lemma {:induction false} AdmissionWasRecorded(st: State, log: seq<Entry>, n: nat, k: Key) returns (i: nat)
    requires Start(st) && n <= |log|
    requires k in After(st, log[..n]).slots && After(st, log[..n]).slots[k].admission.Some?
    ensures i < n && AdmittedAt(st, log, i, k, After(st, log[..n]).slots[k].admission.value.portfolioVersion)
    decreases n
  {
    hide OnSlot;
    StartIsEmpty(st);
    if n == 0 {
      assert false;
    }
    var before := After(st, log[..n - 1]);
    var e := log[n - 1];
    AfterStep(st, log, n - 1);
    EveryReachableStateIsSound(st, log[..n - 1]);
    if Accepted(st, log, n - 1) && e.command.key == k && !e.command.event.Expect? {
      OnSlotIsProper(before, e.command, e.at);
      if e.command.event.Admit? {
        return n - 1;
      }
    }
    i := AdmissionWasRecorded(st, log, n - 1, k);
  }

  lemma FillMatchesAdmission(st: State, c: Command, at: int)
    requires Invariant(st) && Apply(st, c, at).Ok? && IsFill(c.event)
    ensures c.key in st.slots && st.slots[c.key].admission.Some? && st.slots[c.key].intent.Some?
    ensures st.slots[c.key].admission.value.portfolioVersion == st.portfolios.At(c.key.product).version
  {
  }

  /** Serialisability: the portfolio a fill is applied to is, at every step back to the admission of
      its slot, the portfolio that admission saw, whatever other slots did in between. */
  lemma FillSeesAdmittedPortfolio(st: State, log: seq<Entry>, j: nat) returns (i: nat)
    requires Start(st) && j < |log| && Accepted(st, log, j) && IsFill(log[j].command.event)
    ensures i < j && Accepted(st, log, i) && log[i].command.key == log[j].command.key && log[i].command.event.Admit?
    ensures var p := log[j].command.key.product;
            forall n :: i <= n <= j ==> After(st, log[..n]).portfolios.At(p) == After(st, log[..i]).portfolios.At(p)
  {
    var k := log[j].command.key;
    EveryReachableStateIsSound(st, log[..j]);
    FillMatchesAdmission(After(st, log[..j]), log[j].command, log[j].at);
    i := AdmissionWasRecorded(st, log, j, k);
    forall n | i <= n <= j
      ensures After(st, log[..n]).portfolios.At(k.product) == After(st, log[..i]).portfolios.At(k.product)
    {
      VersionFixesPortfolio(st, log, i, n, k.product);
      VersionFixesPortfolio(st, log, n, j, k.product);
    }
  }

  // ---- Conservation

  /** A quantity of a slot that can be summed over the campaign days. */
  datatype Measure = CashMoved | PositionMoved | Terminated

  ghost function Of(w: Measure, s: Slot): real {
    match w
    case Terminated => if s.phase == Terminal then 1.0 else 0.0
    case CashMoved =>
      if s.outcome.Some? && s.outcome.value.SimulatedFill? && s.intent.Some?
      then CashDelta(s.intent.value, s.outcome.value.price, s.outcome.value.fee) else 0.0
    case PositionMoved =>
      if s.outcome.Some? && s.outcome.value.SimulatedFill? && s.intent.Some? then PositionDelta(s.intent.value) else 0.0
  }

  function DayKey(p: Product, startAt: int, day: nat): Key {
    Key(p, startAt + day * DAY)
  }

  ghost function At(w: Measure, slots: map<Key, Slot>, k: Key): real {
    if k in slots then Of(w, slots[k]) else 0.0
  }

  /** The sum of a measure over the slots of one product on the first `days` campaign days. */
  ghost function Total(w: Measure, slots: map<Key, Slot>, p: Product, startAt: int, days: nat): real {
    if days == 0 then 0.0 else Total(w, slots, p, startAt, days - 1) + At(w, slots, DayKey(p, startAt, days - 1))
  }

  lemma {:induction false} TotalAfterUpdate(w: Measure, slots: map<Key, Slot>, k: Key, s: Slot, p: Product, startAt: int, days: nat)
    ensures Total(w, slots[k := s], p, startAt, days) - Total(w, slots, p, startAt, days) ==
            if k.product == p && (k.close - startAt) % DAY == 0 && 0 <= (k.close - startAt) / DAY < days
            then Of(w, s) - At(w, slots, k) else 0.0
  {
    hide Of;
    if days > 0 {
      TotalAfterUpdate(w, slots, k, s, p, startAt, days - 1);
      var d := days - 1;
      DayArithmetic(k.close - startAt, d);
    }
  }

  lemma DayArithmetic(offset: int, d: nat)
    ensures offset == d * DAY <==> offset % DAY == 0 && offset / DAY == d
  {
  }

  lemma {:induction false} EmptyTotal(w: Measure, p: Product, startAt: int, days: nat)
    ensures Total(w, map[], p, startAt, days) == 0.0
  {
    if days > 0 { EmptyTotal(w, p, startAt, days - 1); }
  }

  /** One snap tolerance for each accepted fill of the product, at the balance it was applied to. */
  ghost function Slack(w: Measure, st: State, log: seq<Entry>, p: Product): real {
    if log == [] then 0.0
    else
      var n := |log| - 1;
      var before, e := After(st, log[..n]), log[n];
      Slack(w, st, log[..n], p) +
      if Apply(before, e.command, e.at).Ok? && IsFill(e.command.event) && e.command.key.product == p
      then Tolerance(Balance(w, before.portfolios.At(p))) else 0.0
  }

  function Balance(w: Measure, q: Portfolio): real {
    match w
    case Terminated => q.version as real
    case CashMoved => q.cash
    case PositionMoved => q.position
  }

  function Opening(w: Measure): real {
    if w == CashMoved then START_CASH else 0.0
  }

  /** What the slots of the product account for. */
  ghost function Booked(w: Measure, st: State, p: Product): real {
    Opening(w) + Total(w, st.slots, p, st.manifest.startAt, 180)
  }

  /** The balance moves by what the slot's own record says, up to one snap on a fill. */
  lemma StepBalance(w: Measure, st: State, c: Command, at: int)
    requires Invariant(st) && Apply(st, c, at).Ok?
    ensures var next, p := Apply(st, c, at).value, c.key.product;
            var error := (Balance(w, next.portfolios.At(p)) - Balance(w, st.portfolios.At(p)))
                         - (Of(w, next.slots[c.key]) - At(w, st.slots, c.key));
            if IsFill(c.event) && w != Terminated
            then -Tolerance(Balance(w, st.portfolios.At(p))) <= error <= Tolerance(Balance(w, st.portfolios.At(p)))
            else error == 0.0
  {
    hide ExecutionRefusal;
    hide Tolerance;
    hide Value;
    hide Snap;
    hide InWindow;
    hide ProductBusy;
    hide OneOpenIntent;
    var p := st.portfolios.At(c.key.product);
    TolerancePositive(p.cash);
    TolerancePositive(p.position);
    if IsFill(c.event) {
      var i := st.slots[c.key].intent.value;
      SnapError(p.cash + CashDelta(i, c.event.outcome.price, c.event.outcome.fee), Tolerance(p.cash));
      SnapError(p.position + PositionDelta(i), Tolerance(p.position));
    }
  }

  lemma BookedAfterStep(w: Measure, st: State, c: Command, at: int, p: Product)
    requires Invariant(st) && Apply(st, c, at).Ok?
    ensures var next := Apply(st, c, at).value;
            Booked(w, next, p) - Booked(w, st, p) ==
            if p == c.key.product then Of(w, next.slots[c.key]) - At(w, st.slots, c.key) else 0.0
  {
    hide Of;
    hide OnSlot;
    hide SlotShape;
    hide OneOpenIntent;
    var next := Apply(st, c, at).value;
    var offset := c.key.close - st.manifest.startAt;
    DaysInCampaign(st.manifest, c.key);
    assert next.slots == st.slots[c.key := next.slots[c.key]];
    TotalAfterUpdate(w, st.slots, c.key, next.slots[c.key], p, st.manifest.startAt, 180);
  }

  lemma DaysInCampaign(m: Manifest, k: Key)
    requires ValidKey(m, k) && exists at :: ValidManifest(m, at)
    ensures (k.close - m.startAt) % DAY == 0 && 0 <= (k.close - m.startAt) / DAY < 180
  {
  }

  /** Conservation: in every reachable state each product's cash and position are the opening balance
      plus the replay of its filled slots, up to one snap tolerance per fill, and neither is negative;
      its version is the number of its terminal slots. */
  lemma {:induction false} BalancesAreTheReplayOfFills(w: Measure, st: State, log: seq<Entry>, p: Product)
    requires Start(st)
    ensures var q, error := After(st, log).portfolios.At(p), Balance(w, After(st, log).portfolios.At(p)) - Booked(w, After(st, log), p);
            && (if w == Terminated then error == 0.0 else -Slack(w, st, log, p) <= error <= Slack(w, st, log, p))
            && q.cash >= 0.0 && q.position >= 0.0
  {
    EveryReachableStateIsSound(st, log);
    if log == [] {
      var m, at :| Initialize(m, at) == Ok(st);
      EmptyTotal(w, p, st.manifest.startAt, 180);
    } else {
      var n := |log| - 1;
      var before, e := After(st, log[..n]), log[n];
      BalancesAreTheReplayOfFills(w, st, log[..n], p);
      EveryReachableStateIsSound(st, log[..n]);
      if Apply(before, e.command, e.at).Ok? {
        StepBalance(w, before, e.command, e.at);
        BookedAfterStep(w, before, e.command, e.at, p);
        StepKeepsInvariant(before, e.command, e.at);
      }
    }
  }
}
