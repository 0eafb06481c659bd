/** What a fill whose mark could not be observed does to the rest of the campaign. */
module BlockedMarks {
  import opened Marks
  import opened EventMarks
  import opened Campaign
  import opened Shadow
  import opened ShadowRuns
  import L = Ledger

  /** The mark of a fill, observed without an equity on both portfolios. */
  predicate SeenInVain(s: EventSlot) {
    s.id.FillMark? && s.phase == Observed && Blocks(s)
  }

  /** Such a mark is never replaced: it stands in every later state and blocks it. */
  lemma {:induction false} StandsForever(s: Projection, inputs: seq<Input>, i: nat, j: nat, k: nat)
    requires Start(s) && i <= j <= |inputs|
    requires k < |Run(s, inputs[..i]).events.slots| && SeenInVain(Run(s, inputs[..i]).events.slots[k])
    ensures k < |Run(s, inputs[..j]).events.slots|
    ensures Run(s, inputs[..j]).events.slots[k] == Run(s, inputs[..i]).events.slots[k]
    ensures Blocked(Run(s, inputs[..j]).events)
    decreases j - i
  {
    hide Sound;
    hide Run;
    hide BalancesOf;
    hide Start;
    hide Series;
    hide Observations;
    hide Blocks;
    if i < j {
      StandsForever(s, inputs, i, j - 1, k);
      EveryRunIsSound(s, inputs[..j - 1]);
      RunStep(s, inputs, j - 1);
      InputKeepsSound(Run(s, inputs[..j - 1]), inputs[j - 1]);
    }
    EveryRunIsSound(s, inputs[..j]);
    ActiveEvents(Run(s, inputs[..j]));
  }

  lemma BlockedRefuses(s: Projection, c: L.Command, at: int, sequence: int)
    requires Blocked(s.events) && Economic(c.event)
    ensures Attempt(s, Do(OnLedger(c), at, sequence)).Fail?
  {
    hide Safety;
    hide L.Apply;
    hide Blocked;
  }

  /** From then on no intent, no quote request and no fill of the ledger is accepted, whenever it comes. */
  lemma BlockedForever(s: Projection, inputs: seq<Input>, i: nat, n: nat, k: nat)
    requires Start(s) && i <= n <= |inputs|
    requires k < |Run(s, inputs[..i]).events.slots| && SeenInVain(Run(s, inputs[..i]).events.slots[k])
    ensures k < |Run(s, inputs[..n]).events.slots|
    ensures Run(s, inputs[..n]).events.slots[k] == Run(s, inputs[..i]).events.slots[k] && Blocked(Run(s, inputs[..n]).events)
    ensures forall c: L.Command, at, sequence :: Economic(c.event) ==> Attempt(Run(s, inputs[..n]), Do(OnLedger(c), at, sequence)).Fail?
  {
    hide Run;
    hide Attempt;
    hide Blocked;
    hide Start;
    hide SeenInVain;
    hide Economic;
    StandsForever(s, inputs, i, n, k);
    forall c: L.Command, at, sequence | Economic(c.event)
      ensures Attempt(Run(s, inputs[..n]), Do(OnLedger(c), at, sequence)).Fail?
    {
      BlockedRefuses(Run(s, inputs[..n]), c, at, sequence);
    }
  }
}
