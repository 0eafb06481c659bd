/** A kill started where something is left at the exchange that it does not know: after a crash of an earlier
    kill, or after a sell whose outcome was never learnt. */
module KillRestart {
  import opened Basics
  import opened KillSwitch
  import opened KillVenue
  import P = ProtectedSell

  /** A new kill, the exchange as it is. */
  function FreshKill(v: Venue): System {
    System(Create(DEFAULT_LIMITS), v, None, false, [])
  }

  /** The exchange executes no sell beyond the free balance. */
  predicate Backed(s: System, a: Action) {
    match a
    case FlattenFills(x) => x <= s.venue.free
    case FlattenAnswerLost(Executed(x)) => x <= s.venue.free
    case LateFill(x) => x <= s.venue.free
    case _ => true
  }

  ghost predicate BackedFrom(s: System, actions: seq<Action>, dust: real) {
    actions == []
    || (BackedFrom(s, actions[..|actions| - 1], dust) && Backed(Run(s, actions[..|actions| - 1], dust), actions[|actions| - 1]))
  }

  /** Some run reports the account flat, and goes on to sell. */
  ghost predicate SellsAfterCompletion(s: System, dust: real) {
    exists actions, later :: CompletesAndSells(s, actions, later, dust)
  }

  ghost predicate CompletesAndSells(s: System, actions: seq<Action>, later: seq<Action>, dust: real) {
    && BackedFrom(s, actions, dust) && BackedFrom(Run(s, actions, dust), later, dust)
    && Run(s, actions, dust).m.state == Completed
    && Run(Run(s, actions, dust), later, dust).venue.sold > Run(s, actions, dust).venue.sold
  }

  /** On an exchange that would let any sell through: some run sells what is not there. */
  ghost predicate MayOversell(s: System, dust: real) {
    exists actions :: Run(FreshKill(s.venue), actions, dust).venue.free < 0.0
  }

  /** Some backed run leads there. */
  ghost predicate Reaches(s: System, t: System, dust: real) {
    exists actions :: BackedFrom(s, actions, dust) && Run(s, actions, dust) == t
  }

  lemma ReachesItself(s: System, dust: real)
    ensures Reaches(s, s, dust)
  {
    assert BackedFrom(s, [], dust) && Run(s, [], dust) == s;
  }

  lemma ReachesOn(s: System, t: System, a: Action, dust: real)
    requires Reaches(s, t, dust) && Backed(t, a)
    ensures Reaches(s, Step(t, a, dust), dust)
  {
    hide Step;
    hide Backed;
    var actions :| BackedFrom(s, actions, dust) && Run(s, actions, dust) == t;
    assert (actions + [a])[..|actions + [a]| - 1] == actions;
    assert BackedFrom(s, actions + [a], dust) && Run(s, actions + [a], dust) == Step(t, a, dust);
  }

  /** The orders still open can all be closed, nothing filled, everything released. */
  lemma {:induction false} OrdersCanClose(s: System, t: System, dust: real) returns (u: System)
    requires Reaches(s, t, dust) && t.venue.reserved >= 0.0 && (t.venue.open == 0 ==> t.venue.reserved == 0.0)
    ensures Reaches(s, u, dust)
    ensures u == t.(venue := t.venue.(open := 0, reserved := 0.0, free := t.venue.free + t.venue.reserved))
    decreases t.venue.open
  {
    if t.venue.open == 0 {
      u := t;
    } else {
      var a := OrderCloses(if t.venue.open == 1 then t.venue.reserved else 0.0);
      ReachesOn(s, t, a, dust);
      ClosingCloses(t, a.released, dust);
      hide Reaches;
      hide Step;
      u := OrdersCanClose(s, Step(t, a, dust), dust);
    }
  }

  lemma ClosingCloses(t: System, released: real, dust: real)
    requires t.venue.open > 0 && t.venue.reserved >= 0.0 && released == (if t.venue.open == 1 then t.venue.reserved else 0.0)
    ensures Step(t, OrderCloses(released), dust)
            == t.(venue := t.venue.(open := t.venue.open - 1, reserved := t.venue.reserved - released, free := t.venue.free + released))
  {
  }

  const PRODUCT := "BTC-USD"

  lemma NamesAreGiven()
    ensures NonBlank(PRODUCT)
  {
    assert PRODUCT[0] == 'B';
  }

  ghost predicate Holds(v: Venue) {
    v.free >= 0.0 && v.reserved >= 0.0 && (v.open == 0 ==> v.reserved == 0.0)
  }

  /** A new kill can clear the orders, everything they reserved coming free. */
  lemma NewKillClears(v: Venue, dust: real) returns (u: System)
    requires Holds(v)
    ensures Reaches(FreshKill(v), u, dust)
    ensures u.m.state == ReconcilingPosition && !u.listing && u.m.ctx.attempts == NO_ATTEMPTS && u.m.ctx.limits == DEFAULT_LIMITS
    ensures !u.m.ctx.outcomeUnknown && u.venue == v.(open := 0, reserved := 0.0, free := v.free + v.reserved)
  {
    var begin := FreshKill(v);
    NamesAreGiven();
    ReachesItself(begin, dust);
    var start := Start(PRODUCT, PRODUCT, true, true);
    ReachesOn(begin, begin, start, dust);
    StartCancels(begin, start, dust);
    var closed := OrdersCanClose(begin, Step(begin, start, dust), dust);
    ReachesOn(begin, closed, CancelsConfirmed, dust);
    u := Step(closed, CancelsConfirmed, dust);
    ClearingReconciles(closed, dust);
  }

  lemma StartCancels(begin: System, a: Action, dust: real)
    requires begin.m == Create(DEFAULT_LIMITS) && NonBlank(PRODUCT) && a == Start(PRODUCT, PRODUCT, true, true)
    ensures var t := Step(begin, a, dust);
            && t == begin.(m := t.m) && t.m.state == CancellingOrders && !t.m.ctx.outcomeUnknown
            && t.m.ctx.attempts == NO_ATTEMPTS && t.m.ctx.limits == DEFAULT_LIMITS
  {
    hide NonBlank;
  }

  lemma ClearingReconciles(closed: System, dust: real)
    requires closed.m.state == CancellingOrders && closed.venue.open == 0
    ensures var u := Step(closed, CancelsConfirmed, dust);
            u == closed.(m := closed.m.(state := ReconcilingPosition))
  {
  }

  /** What a read of everything as free leads to: done when it is dust, and a flatten of all of it otherwise. */
  lemma ReadingDecides(u: System, dust: real)
    requires (u.m.state == ReconcilingPosition || u.m.state == VerifyingFlat) && !u.listing
    requires u.venue.open == 0 && u.venue.reserved == 0.0 && u.venue.free >= 0.0 && dust > 0.0
    requires !u.m.ctx.outcomeUnknown && u.m.ctx.attempts.flatten < u.m.ctx.limits.flatten && NonBlank(PRODUCT)
    ensures var t := Step(Step(u, BalanceRead(PRODUCT, u.venue.free), dust), OrdersListed, dust);
            && t.venue == u.venue && !t.listing && !t.m.ctx.outcomeUnknown
            && (u.venue.free <= dust ==> t.m.state == Completed)
            && (u.venue.free > dust ==> t.m.state == FlatteningPosition && AskedQuantity(t) == u.venue.free
                                        && t.m.ctx.attempts.flatten == u.m.ctx.attempts.flatten + 1 && t.m.ctx.limits == u.m.ctx.limits)
  {
    hide NonBlank;
  }

  lemma ReadingIsReached(s: System, u: System, dust: real)
    requires Reaches(s, u, dust)
    ensures Reaches(s, Step(Step(u, BalanceRead(PRODUCT, u.venue.free), dust), OrdersListed, dust), dust)
  {
    hide Step;
    var read := BalanceRead(PRODUCT, u.venue.free);
    ReachesOn(s, u, read, dust);
    ReachesOn(s, Step(u, read, dust), OrdersListed, dust);
  }

  /** The new kill clears the orders, reads everything as free, and sets out to sell all of it. */
  lemma NewKillFlattens(v: Venue, dust: real) returns (u: System)
    requires Holds(v) && v.free + v.reserved > dust > 0.0
    ensures Reaches(FreshKill(v), u, dust)
    ensures u.m.state == FlatteningPosition && AskedQuantity(u) == u.venue.free == v.free + v.reserved
    ensures u.venue == v.(open := 0, reserved := 0.0, free := v.free + v.reserved) && !u.listing && !u.m.ctx.outcomeUnknown
    ensures u.m.ctx.attempts.flatten == 1 && u.m.ctx.limits == DEFAULT_LIMITS
  {
    hide Step;
    NamesAreGiven();
    var cleared := NewKillClears(v, dust);
    ReadingDecides(cleared, dust);
    ReadingIsReached(FreshKill(v), cleared, dust);
    u := Step(Step(cleared, BalanceRead(PRODUCT, cleared.venue.free), dust), OrdersListed, dust);
  }

  lemma AllSold(u: System, dust: real)
    requires u.m.state == FlatteningPosition && AskedQuantity(u) == u.venue.free >= 0.0
    ensures var t := Step(u, FlattenFills(u.venue.free), dust);
            && t.m.state == VerifyingFlat && !t.m.ctx.outcomeUnknown && t.listing == u.listing
            && t.m.ctx.attempts == u.m.ctx.attempts && t.m.ctx.limits == u.m.ctx.limits
            && t.venue == Sell(u.venue, u.venue.free) && t.venue.free == 0.0
  {
  }

  /** It sells everything there is, verifies, and completes; what was pending is pending still. */
  lemma NewKillCompletes(v: Venue, dust: real) returns (u: System)
    requires Holds(v) && dust > 0.0
    ensures Reaches(FreshKill(v), u, dust) && u.m.state == Completed && u.venue.pending == v.pending && u.venue.free >= 0.0
  {
    hide Step;
    NamesAreGiven();
    if v.free + v.reserved > dust {
      var flattening := NewKillFlattens(v, dust);
      AllSold(flattening, dust);
      ReachesOn(FreshKill(v), flattening, FlattenFills(flattening.venue.free), dust);
      var sold := Step(flattening, FlattenFills(flattening.venue.free), dust);
      ReadingDecides(sold, dust);
      ReadingIsReached(FreshKill(v), sold, dust);
      u := Step(Step(sold, BalanceRead(PRODUCT, sold.venue.free), dust), OrdersListed, dust);
    } else {
      var cleared := NewKillClears(v, dust);
      ReadingDecides(cleared, dust);
      ReadingIsReached(FreshKill(v), cleared, dust);
      u := Step(Step(cleared, BalanceRead(PRODUCT, cleared.venue.free), dust), OrdersListed, dust);
    }
  }

  /** Then coins come in, and the pending sell takes them. */
  lemma CreditsAreSold(s: System, u: System, dust: real)
    requires Reaches(s, u, dust) && u.m.state == Completed && u.venue.pending.Some? && u.venue.pending.value > 0.0 && u.venue.free >= 0.0
    ensures SellsAfterCompletion(s, dust)
  {
    var q := u.venue.pending.value;
    var credited := Step(u, Credit(q), dust);
    var later := [Credit(q)] + [LateFill(q)];
    assert later[..1] == [Credit(q)] && [Credit(q)][..0] == [];
    assert Run(u, [], dust) == u && Run(u, [Credit(q)], dust) == credited;
    assert Run(u, later, dust) == Step(credited, LateFill(q), dust);
    assert BackedFrom(u, [], dust) && BackedFrom(u, [Credit(q)], dust) && BackedFrom(u, later, dust);
    var actions :| BackedFrom(s, actions, dust) && Run(s, actions, dust) == u;
    assert CompletesAndSells(s, actions, later, dust);
  }

  lemma {:induction false} CompletedSellsNothing(s: System, later: seq<Action>, dust: real)
    requires s.m.state == Completed && s.venue.pending.None?
    ensures var t := Run(s, later, dust); t.m.state == Completed && t.venue.pending.None? && t.venue.sold == s.venue.sold
  {
    hide Next;
    if later != [] {
      CompletedSellsNothing(s, later[..|later| - 1], dust);
    }
  }

  /** A kill that completes may still see a sell go through afterwards if and only if something was already
      pending where it started; that holds on an exchange that executes no sell beyond the free balance. */
  lemma CompletionHoldsUnlessPending(v: Venue, initial: real, dust: real)
    requires Balanced(v, initial) && dust > 0.0 && (v.pending.Some? ==> v.pending.value > 0.0)
    ensures SellsAfterCompletion(FreshKill(v), dust) <==> v.pending.Some?
  {
    hide Step;
    hide Run;
    var s := FreshKill(v);
    if v.pending.Some? {
      var u := NewKillCompletes(v, dust);
      CreditsAreSold(s, u, dust);
    } else {
      forall actions, later ensures !CompletesAndSells(s, actions, later, dust) {
        RunKeepsSound(s, actions, dust, initial);
        if Run(s, actions, dust).m.state == Completed {
          CompletedSellsNothing(Run(s, actions, dust), later, dust);
        }
      }
    }
  }

  /** So a kill started again after a crash anywhere in the first one reports the account flat for good if
      and only if the crash left no flatten that can still execute. */
  lemma RestartsCompleteUnlessPending(limits: Limits, free: real, reserved: real, open: nat, first: seq<Action>, dust: real)
    requires free >= 0.0 && reserved >= 0.0 && dust > 0.0 && (open == 0 ==> reserved == 0.0)
    ensures var v := Run(Begin(limits, free, reserved, open), first, dust).venue;
            SellsAfterCompletion(FreshKill(v), dust) <==> v.pending.Some?
  {
    hide SellsAfterCompletion;
    RunIsSound(limits, free, reserved, open, first, dust);
    CompletionHoldsUnlessPending(Run(Begin(limits, free, reserved, open), first, dust).venue, free + reserved, dust);
  }

  /** And the safety flatten of a protected sell, whose own sell had met its fate without an answer, does so
      if and only if that sell is not still on its way. */
  lemma DoubtfulSellsOutliveTheFlatten(free: real, reserved: real, open: nat, quantity: real, fate: Fate, dust: real)
    requires free >= 0.0 && reserved >= 0.0 && dust > 0.0 && (open == 0 ==> reserved == 0.0) && 0.0 < quantity
    requires fate.Executed? ==> 0.0 <= fate.x <= free
    ensures var v := Fated(Begin(DEFAULT_LIMITS, free, reserved, open).venue, quantity, fate);
            SellsAfterCompletion(FreshKill(v), dust) <==> fate.Pending?
  {
    hide SellsAfterCompletion;
    CompletionHoldsUnlessPending(Fated(Begin(DEFAULT_LIMITS, free, reserved, open).venue, quantity, fate), free + reserved, dust);
  }

  /** Such a sell does lead to the flatten: its answer is lost, and lost again when it is asked for once more. */
  lemma DoubtLeadsToTheFlatten(policy: P.Policy, increment: real, r: P.Run, first: P.Reply, second: P.Reply)
    requires r.m.state == P.SubmittingSell && r.account.Some?
    requires first.submitAuthorization.Got? && first.submitted == P.Unknown(None)
    requires second.submitAuthorization.Got? && second.submitted == P.Unknown(None)
    ensures P.Act(policy, increment, P.Act(policy, increment, r, first), second).m.state == P.SafetyFlattening
  {
  }

  // ---- On an exchange without a balance check

  /** A kill may be started again after a crash anywhere in the first one: no run of the second ever sells
      more than is held if and only if the crash left no flatten at the exchange that can still execute. */
  lemma RestartsAreSafeUnlessPending(limits: Limits, free: real, reserved: real, open: nat, first: seq<Action>, dust: real)
    requires free >= 0.0 && reserved >= 0.0 && dust > 0.0 && (open == 0 ==> reserved == 0.0)
    ensures var s := Run(Begin(limits, free, reserved, open), first, dust);
            MayOversell(s, dust) <==> s.venue.pending.Some?
  {
    hide Step;
    hide Run;
    var s := Run(Begin(limits, free, reserved, open), first, dust);
    RunIsSound(limits, free, reserved, open, first, dust);
    if s.venue.pending.Some? {
      var u := NewKillFlattens(s.venue, dust);
      SellsTwice(FreshKill(s.venue), u, dust);
    } else {
      forall actions ensures Run(FreshKill(s.venue), actions, dust).venue.free >= 0.0 {
        RunKeepsSound(FreshKill(s.venue), actions, dust, free + reserved);
      }
    }
  }

  /** What is free is sold, and then the old flatten executes too. */
  lemma SellsTwice(s: System, u: System, dust: real)
    requires Reaches(s, u, dust) && u.m.state == FlatteningPosition && AskedQuantity(u) == u.venue.free
    requires u.venue.pending.Some? && 0.0 < u.venue.pending.value <= u.venue.free
    ensures exists actions :: Run(s, actions, dust).venue.free < 0.0
  {
    hide Step;
    var fill, late := FlattenFills(u.venue.free), LateFill(u.venue.pending.value);
    var sold := Step(u, fill, dust);
    AllSold(u, dust);
    ReachesOn(s, u, fill, dust);
    LateGoesBelow(sold, dust);
    var actions :| BackedFrom(s, actions, dust) && Run(s, actions, dust) == sold;
    assert (actions + [late])[..|actions + [late]| - 1] == actions;
    assert Run(s, actions + [late], dust) == Step(sold, late, dust);
  }

  lemma LateGoesBelow(sold: System, dust: real)
    requires sold.venue.pending.Some? && sold.venue.pending.value > 0.0 && sold.venue.free == 0.0
    ensures Step(sold, LateFill(sold.venue.pending.value), dust).venue.free < 0.0
  {
    hide Next;
  }
}
