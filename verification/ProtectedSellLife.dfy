/** A protected sell over its whole life: checkpoints, crashes between any two steps, and resumes. */
module ProtectedSellLife {
  import opened Basics
  import opened ProtectedSell

  /** The checkpoint on disk, the process if one is up (and whether it has stored the state it is in),
      and everything ever sent that can move money. */
  datatype Life = Life(stored: Option<Run>, live: Option<Run>, ready: bool, log: seq<Effect>)

  datatype Action =
    | Launch(canControl: bool, canTrade: bool)
    | Persist
    | PersistFails(written: bool)
    | Pass(reply: Reply)
    | PassThenCrash(reply: Reply)
    | Crash

  function Step(intent: Intent, policy: Policy, increment: real, l: Life, a: Action): Life {
    match a
    case Launch(canControl, canTrade) =>
      if l.live.Some? then l
      else l.(live := Some(if l.stored.Some? then l.stored.value else Requested(intent, canControl, canTrade)), ready := false)
    case Persist => if l.live.Some? then l.(stored := l.live, ready := true) else l
    case PersistFails(written) =>
      if l.live.Some? then l.(stored := if written then l.live else l.stored, live := None, ready := false) else l
    case Pass(reply) =>
      if l.live.Some? && l.ready && !Stops(l.live.value.m.state)
      then l.(live := Some(Act(policy, increment, l.live.value, reply)), ready := false,
              log := l.log + Effects(intent, policy, l.live.value, reply))
      else l
    case PassThenCrash(reply) =>
      if l.live.Some? && l.ready && !Stops(l.live.value.m.state)
      then l.(live := None, ready := false, log := l.log + Effects(intent, policy, l.live.value, reply))
      else l
    case Crash => l.(live := None, ready := false)
  }

  const UNBORN := Life(None, None, false, [])

  function Live(intent: Intent, policy: Policy, increment: real, actions: seq<Action>): Life {
    if actions == [] then UNBORN
    else Step(intent, policy, increment, Live(intent, policy, increment, actions[..|actions| - 1]), actions[|actions| - 1])
  }

  // ---- The invariant

  function Phase(e: Effect): nat {
    match e
    case Sell(_, _, _) => 0
    case Protect(_, _, _, _) => 1
    case Flatten(_) => 2
  }

  predicate Fell(s: State) {
    s == SafetyFlattening || s == SafetyCompleted || s == Failed
  }

  function PhaseAt(s: State): nat {
    if Rank(s) >= 5 then 0 else if Rank(s) >= 2 then 1 else 2
  }

  /** What one logged effect must be, given the checkpoint. */
  ghost predicate Expected(e: Effect, intent: Intent, policy: Policy, r: Run) {
    && Phase(e) <= PhaseAt(r.m.state)
    && match e
       case Sell(id, product, quantity) => id == Own(intent.clientOrderId) && product == intent.productId && quantity == intent.quantity
       case Protect(_, _, _, _) => Rank(r.m.state) <= 3 && Arms(r.m.ctx) && e == ProtectionOf(intent, policy, r.m.ctx.seen.value)
       case Flatten(prefix) => prefix == "sell-safety-" + intent.clientOrderId && Fell(r.m.state)
  }

  function ProtectionOf(intent: Intent, policy: Policy, a: Account): Effect {
    Protect(Residual(intent.clientOrderId), intent.productId, a.total, PlanFor(a.averageEntryPrice, policy))
  }

  ghost predicate AllExpected(log: seq<Effect>, intent: Intent, policy: Policy, r: Run) {
    forall i :: 0 <= i < |log| ==> Expected(log[i], intent, policy, r)
  }

  ghost predicate InOrder(log: seq<Effect>) {
    forall i, j :: 0 <= i < j < |log| ==> Phase(log[i]) <= Phase(log[j])
  }

  ghost predicate Flattened(log: seq<Effect>) {
    exists i :: 0 <= i < |log| && log[i].Flatten?
  }

  predicate Accepted(r: Run, intent: Intent) {
    r.m.ctx.canControl && r.m.ctx.canTrade && NonBlank(intent.productId) && NonBlank(intent.clientOrderId) && intent.quantity > 0.0
  }

  /** A run is refused at once, or it is accepted and then fails only after a flatten. */
  ghost predicate Explained(r: Run, intent: Intent, log: seq<Effect>) {
    && (r.m.state != Failed ==> Accepted(r, intent))
    && (r.m.state == SafetyCompleted || (r.m.state == Failed && Accepted(r, intent)) ==> Flattened(log))
  }

  ghost predicate Tidy(intent: Intent, policy: Policy, increment: real, l: Life) {
    && (l.stored.Some? ==> Sound(l.stored.value, intent, policy, increment) && Explained(l.stored.value, intent, l.log))
    && (l.live.Some? ==> Sound(l.live.value, intent, policy, increment) && Explained(l.live.value, intent, l.log))
    && (l.stored.None? ==> l.log == [])
    && (l.stored.Some? ==> AllExpected(l.log, intent, policy, l.stored.value))
    && (l.live.Some? && l.stored.Some? ==> Follows(l.live.value, l.stored.value))
    && (l.ready ==> l.live.Some? && l.stored == l.live)
    && InOrder(l.log)
  }

  /** The live run is the stored one or a step after it. */
  ghost predicate Follows(live: Run, stored: Run) {
    && Rank(live.m.state) <= Rank(stored.m.state)
    && (Rank(stored.m.state) <= 3 ==> live.m.ctx.seen == stored.m.ctx.seen)
    && (Fell(stored.m.state) ==> Fell(live.m.state))
  }

  // ---- Preservation

  /** A pass keeps the account on record once a protection can exist, and turns to failure only from a flatten. */
  lemma ActFollows(intent: Intent, policy: Policy, increment: real, r: Run, reply: Reply)
    requires !Stops(r.m.state)
    ensures Rank(r.m.state) <= 3 ==> Act(policy, increment, r, reply).m.ctx.seen == r.m.ctx.seen
    ensures Act(policy, increment, r, reply).m.ctx.canControl == r.m.ctx.canControl
    ensures Act(policy, increment, r, reply).m.ctx.canTrade == r.m.ctx.canTrade
    ensures Act(policy, increment, r, reply).m.state in {Failed, SafetyCompleted} ==> r.m.state == SafetyFlattening
    ensures r.m.state == SafetyFlattening ==> Fell(Act(policy, increment, r, reply).m.state)
  {
    hide NonBlank;
    hide PlanFor;
    hide Flat;
    hide Valid;
    hide CanSell;
    hide Protectable;
  }

  lemma EffectsAreExpected(intent: Intent, policy: Policy, r: Run, reply: Reply)
    requires !Stops(r.m.state)
    ensures |Effects(intent, policy, r, reply)| <= 1
    ensures forall e :: e in Effects(intent, policy, r, reply) ==> Expected(e, intent, policy, r) && Phase(e) == PhaseAt(r.m.state)
    ensures r.m.state == SafetyFlattening ==> |Effects(intent, policy, r, reply)| == 1 && Effects(intent, policy, r, reply)[0].Flatten?
  {
    hide PlanFor;
  }

  lemma LogGrows(log: seq<Effect>, more: seq<Effect>, intent: Intent, policy: Policy, r: Run)
    requires AllExpected(log, intent, policy, r) && InOrder(log) && |more| <= 1
    requires forall e :: e in more ==> Expected(e, intent, policy, r) && Phase(e) == PhaseAt(r.m.state)
    ensures AllExpected(log + more, intent, policy, r) && InOrder(log + more)
    ensures Flattened(log) ==> Flattened(log + more)
    ensures |more| == 1 && more[0].Flatten? ==> Flattened(log + more)
  {
    hide PlanFor;
    if Flattened(log) {
      var i :| 0 <= i < |log| && log[i].Flatten?;
      assert (log + more)[i].Flatten?;
    }
    if |more| == 1 && more[0].Flatten? {
      assert (log + more)[|log|].Flatten?;
    }
  }

  lemma ExpectedLater(log: seq<Effect>, intent: Intent, policy: Policy, r: Run, later: Run)
    requires AllExpected(log, intent, policy, r) && Follows(later, r)
    ensures AllExpected(log, intent, policy, later)
  {
    hide PlanFor;
  }

  lemma PassKeepsTidy(intent: Intent, policy: Policy, increment: real, l: Life, reply: Reply)
    requires Tidy(intent, policy, increment, l)
    ensures Tidy(intent, policy, increment, Step(intent, policy, increment, l, Pass(reply)))
    ensures Tidy(intent, policy, increment, Step(intent, policy, increment, l, PassThenCrash(reply)))
  {
    hide Act;
    hide Sound;
    hide AllExpected;
    hide InOrder;
    hide Flattened;
    hide Effects;
    hide NonBlank;
    hide Expected;
    if l.live.Some? && l.ready && !Stops(l.live.value.m.state) {
      var r := l.live.value;
      ActFollows(intent, policy, increment, r, reply);
      ActProgresses(policy, increment, r, reply);
      ActKeepsSound(intent, policy, increment, r, reply);
      EffectsAreExpected(intent, policy, r, reply);
      LogGrows(l.log, Effects(intent, policy, r, reply), intent, policy, r);
    }
  }

  lemma StepKeepsTidy(intent: Intent, policy: Policy, increment: real, l: Life, a: Action)
    requires Tidy(intent, policy, increment, l)
    ensures Tidy(intent, policy, increment, Step(intent, policy, increment, l, a))
  {
    match a
    case Pass(reply) => PassKeepsTidy(intent, policy, increment, l, reply);
    case PassThenCrash(reply) => PassKeepsTidy(intent, policy, increment, l, reply);
    case Launch(canControl, canTrade) => LaunchKeepsTidy(intent, policy, increment, l, canControl, canTrade);
    case _ => StorageKeepsTidy(intent, policy, increment, l, a);
  }

  lemma LaunchKeepsTidy(intent: Intent, policy: Policy, increment: real, l: Life, canControl: bool, canTrade: bool)
    requires Tidy(intent, policy, increment, l)
    ensures Tidy(intent, policy, increment, Step(intent, policy, increment, l, Launch(canControl, canTrade)))
  {
    hide Sound;
    hide AllExpected;
    hide InOrder;
    hide Flattened;
    RequestedIsSound(intent, canControl, canTrade, policy, increment);
  }

  lemma StorageKeepsTidy(intent: Intent, policy: Policy, increment: real, l: Life, a: Action)
    requires Tidy(intent, policy, increment, l) && (a.Persist? || a.PersistFails? || a.Crash?)
    ensures Tidy(intent, policy, increment, Step(intent, policy, increment, l, a))
  {
    hide Sound;
    hide AllExpected;
    hide InOrder;
    hide Flattened;
    hide NonBlank;
    if l.live.Some? {
      if l.stored.Some? {
        ExpectedLater(l.log, intent, policy, l.stored.value, l.live.value);
      } else {
        NothingLogged(intent, policy, l.live.value);
      }
    }
  }

  lemma NothingLogged(intent: Intent, policy: Policy, r: Run)
    ensures AllExpected([], intent, policy, r)
  {
  }

  lemma {:induction false} EveryLifeIsTidy(intent: Intent, policy: Policy, increment: real, actions: seq<Action>)
    ensures Tidy(intent, policy, increment, Live(intent, policy, increment, actions))
  {
    hide Step;
    if actions != [] {
      EveryLifeIsTidy(intent, policy, increment, actions[..|actions| - 1]);
      StepKeepsTidy(intent, policy, increment, Live(intent, policy, increment, actions[..|actions| - 1]), actions[|actions| - 1]);
    }
  }

  // ---- The guarantees

  /** Over any number of crashes and resumes, every sell sent is the one the intent asked for under its
      one client order id, every protection sent is the same order under its one derived id, and no sell
      follows a protection, nor anything a flatten. */
  lemma ResubmissionsAreIdentical(intent: Intent, policy: Policy, increment: real, actions: seq<Action>, i: nat, j: nat)
    requires i < j < |Live(intent, policy, increment, actions).log|
    ensures var log := Live(intent, policy, increment, actions).log;
            && (log[i].Sell? ==> log[i] == Sell(Own(intent.clientOrderId), intent.productId, intent.quantity))
            && (log[i].Protect? ==> log[i].protectId == Residual(intent.clientOrderId))
            && (log[i].Sell? && log[j].Sell? ==> log[i] == log[j])
            && (log[i].Protect? && log[j].Protect? ==> log[i] == log[j])
            && (log[j].Sell? ==> log[i].Sell?)
            && (log[i].Flatten? ==> log[j] == log[i])
  {
    hide PlanFor;
    hide Sound;
    EveryLifeIsTidy(intent, policy, increment, actions);
    var l := Live(intent, policy, increment, actions);
    assert Expected(l.log[i], intent, policy, l.stored.value);
    assert Expected(l.log[j], intent, policy, l.stored.value);
  }

  /** Once the request is accepted, a run that ends without completing has flattened first; one that
      completes has nothing left unprotected, and no flatten was ever sent. */
  lemma FailuresFlatten(intent: Intent, policy: Policy, increment: real, actions: seq<Action>)
    requires Live(intent, policy, increment, actions).live.Some?
    ensures var l := Live(intent, policy, increment, actions);
            var r := l.live.value;
            && (r.m.state in {SafetyCompleted, Failed} && Accepted(r, intent) ==> Flattened(l.log))
            && (r.m.state == Completed ==> Done(r, policy, increment) && !Flattened(l.log))
  {
    hide NonBlank;
    hide PlanFor;
    EveryLifeIsTidy(intent, policy, increment, actions);
  }
}
