/** What a protected sell reports is what the exchange answered: confirmed sells, read accounts, acknowledged protections. */
module SellTruth {
  import opened Basics
  import opened ProtectedSell
  import opened ProtectedSellLife
  import Kill = KillSwitch

  predicate Selling(s: State) {
    s == SubmittingSell || s == ReconcilingSell
  }

  predicate Reading(s: State) {
    s == ReconcilingBeforeSell || s == ReconcilingResidual
  }

  // ---- What the exchange said of the sell

  /** Whether the pass sends the sell, for the first time or once more. */
  predicate Sends(r: Run) {
    r.m.state == SubmittingSell || Replays(r)
  }

  /** Whether it asks for the order: the exchange gave an id before, or gives one instead of an outcome. */
  predicate Asks(r: Run, reply: Reply) {
    && r.m.state == ReconcilingSell && r.account.Some?
    && (r.m.ctx.exchangeOrderId.Some? || (reply.submitAuthorization.Got? && reply.submitted.Unknown? && reply.submitted.maybeId.Some?))
  }

  /** The word of the exchange on the sell in this pass, if it gives one that settles it. */
  function Word(r: Run, reply: Reply): Option<Submission> {
    if Sends(r) && reply.submitAuthorization.Got? && !reply.submitted.Unknown? then Some(reply.submitted)
    else if Asks(r, reply) && reply.lookupAuthorization.Got? && reply.lookup.Got? && !reply.lookup.value.Unknown? then Some(reply.lookup.value)
    else None
  }

  predicate Confirms(r: Run, reply: Reply, id: string) {
    Word(r, reply) == Some(Confirmed(id))
  }

  predicate Rejects(r: Run, reply: Reply) {
    Word(r, reply).Some? && Word(r, reply).value.Rejected?
  }

  // ---- What was told last

  /** The sell that was confirmed, over n passes. */
  function LastSale(policy: Policy, increment: real, start: Run, world: seq<Reply>, n: nat): Option<string>
    requires n <= |world|
  {
    if n == 0 then start.sell
    else
      var before, reply := After(policy, increment, start, world, n - 1), world[n - 1];
      if Word(before, reply).Some? && Word(before, reply).value.Confirmed? then Some(Word(before, reply).value.id)
      else LastSale(policy, increment, start, world, n - 1)
  }

  /** The account that was read, or left by the safety flatten. */
  function LastAccount(policy: Policy, increment: real, start: Run, world: seq<Reply>, n: nat): Option<Account>
    requires n <= |world|
  {
    if n == 0 then start.account
    else
      var s, reply := After(policy, increment, start, world, n - 1).m.state, world[n - 1];
      if Reading(s) && reply.account.Got? then Some(reply.account.value)
      else if s == SafetyFlattening && reply.killed.Got? then Some(reply.killed.value)
      else LastAccount(policy, increment, start, world, n - 1)
  }

  /** The protection that was acknowledged. */
  function LastProtection(policy: Policy, increment: real, start: Run, world: seq<Reply>, n: nat): Option<string>
    requires n <= |world|
  {
    if n == 0 then start.m.ctx.protectiveOrderId
    else
      var before, reply := After(policy, increment, start, world, n - 1), world[n - 1];
      if before.m.state == ArmingResidual && Arms(before.m.ctx) && reply.protection.Got? then Some(reply.protection.value)
      else LastProtection(policy, increment, start, world, n - 1)
  }

  lemma PassTells(policy: Policy, increment: real, r: Run, reply: Reply)
    ensures var n := Act(policy, increment, r, reply);
            && n.sell == (if Word(r, reply).Some? && Word(r, reply).value.Confirmed? then Some(Word(r, reply).value.id) else r.sell)
            && n.account == (if Reading(r.m.state) && reply.account.Got? then Some(reply.account.value)
                             else if r.m.state == SafetyFlattening && reply.killed.Got? then Some(reply.killed.value) else r.account)
            && n.m.ctx.protectiveOrderId
               == (if r.m.state == ArmingResidual && Arms(r.m.ctx) && reply.protection.Got? then Some(reply.protection.value)
                   else r.m.ctx.protectiveOrderId)
  {
    hide PlanFor;
    hide Valid;
    hide CanSell;
    hide Protectable;
    hide Flat;
  }

  /** The exchange's own id for the sell: the one it confirmed, or the one it gave without an outcome. */
  function IdAfter(r: Run, reply: Reply): Option<string> {
    if r.m.state == SubmittingSell && reply.submitAuthorization.Got? then
      match reply.submitted
      case Confirmed(id) => Some(id)
      case Unknown(id) => id
      case _ => r.m.ctx.exchangeOrderId
    else if Word(r, reply).Some? && Word(r, reply).value.Confirmed? then
      if r.m.ctx.exchangeOrderId.Some? then r.m.ctx.exchangeOrderId
      else if reply.submitted.Confirmed? then Some(reply.submitted.id)
      else reply.submitted.maybeId
    else r.m.ctx.exchangeOrderId
  }

  lemma PassIdentifies(policy: Policy, increment: real, r: Run, reply: Reply)
    ensures Act(policy, increment, r, reply).m.ctx.exchangeOrderId == IdAfter(r, reply)
  {
    hide PlanFor;
    hide Valid;
    hide CanSell;
    hide Protectable;
    hide Flat;
  }

  /** What a pass sends, exactly: the sell when it submits it or replays it with authorization, the protection when it
      arms it, the flatten when it flattens, and nothing else. */
  lemma EffectsExactly(intent: Intent, policy: Policy, r: Run, reply: Reply)
    ensures var effects := Effects(intent, policy, r, reply);
            && |effects| <= 1
            && (effects != [] && effects[0].Sell? <==> Sends(r) && reply.submitAuthorization.Got?)
            && (effects != [] && effects[0].Protect? <==> r.m.state == ArmingResidual && Arms(r.m.ctx))
            && (effects != [] && effects[0].Flatten? <==> r.m.state == SafetyFlattening)
  {
  }

  /** A request starts by clearing the protections exactly with both permissions, names and a quantity; otherwise it
      fails for want of permission. */
  lemma RequestsStart(intent: Intent, canControl: bool, canTrade: bool)
    ensures var r := Requested(intent, canControl, canTrade);
            && Matches(r, intent) && r.account.None? && r.sell.None? && r.plan.None? && r.m.ctx.canControl == canControl && r.m.ctx.canTrade == canTrade
            && r.m.ctx.exchangeOrderId.None? && r.m.ctx.protectiveOrderId.None?
            && if canControl && canTrade && NonBlank(intent.productId) && NonBlank(intent.clientOrderId) && intent.quantity > 0.0
               then r.m.state == CancellingProtections && r.m.ctx.lastError.None?
               else r.m.state == Failed && r.m.ctx.lastError == Some(Kill.WorkflowError("authorization", "TRADE_PERMISSION_REQUIRED", false))
  {
    hide NonBlank;
  }

  /** What the driver holds is what it was told last, from any start. */
  lemma {:induction false} LocalsAreTold(policy: Policy, increment: real, start: Run, world: seq<Reply>, n: nat)
    requires n <= |world|
    ensures var r := After(policy, increment, start, world, n);
            && r.sell == LastSale(policy, increment, start, world, n)
            && r.account == LastAccount(policy, increment, start, world, n)
            && r.m.ctx.protectiveOrderId == LastProtection(policy, increment, start, world, n)
  {
    hide Act;
    hide Word;
    if n > 0 {
      LocalsAreTold(policy, increment, start, world, n - 1);
      PassTells(policy, increment, After(policy, increment, start, world, n - 1), world[n - 1]);
    }
  }

  // ---- Where a pass leads

  /** The exchange holds all that is to be sold, to within the increment, and all of what it holds is free. */
  predicate Covers(a: Account, quantity: real, increment: real) {
    && a.total > increment && a.total + increment >= quantity && a.available + increment >= quantity && a.total - a.available <= increment
  }

  /** A residue with a known entry price, all of it free. */
  predicate Residue(a: Account, increment: real) {
    && a.total > increment && a.averageEntryPrice > 0.0 && a.available > increment && a.total - a.available <= increment
  }

  predicate Readable(a: Account, increment: real) {
    && NonBlank(a.snapshotId) && a.total >= 0.0 && a.available >= 0.0 && a.averageEntryPrice >= 0.0 && increment > 0.0
    && a.available <= a.total + increment
  }

  /** The state after a pass, from its answers: forward on an answer in favour, to the doubt about a sell only
      from sending it, and otherwise down to the safety flatten. */
  function Leads(r: Run, intent: Intent, increment: real, reply: Reply): State {
    match r.m.state
    case CancellingProtections => if reply.cleared.Got? then ReconcilingBeforeSell else SafetyFlattening
    case ReconcilingBeforeSell =>
      if reply.account.Lost? || !Readable(reply.account.value, increment) then SafetyFlattening
      else if reply.account.value.total <= increment then Completed
      else if Covers(reply.account.value, intent.quantity, increment) then SubmittingSell
      else SafetyFlattening
    case SubmittingSell =>
      if Word(r, reply).Some? then if Word(r, reply).value.Confirmed? then ReconcilingResidual else SafetyFlattening
      else if reply.submitAuthorization.Got? then ReconcilingSell
      else SafetyFlattening
    case ReconcilingSell => if Word(r, reply).Some? && Word(r, reply).value.Confirmed? then ReconcilingResidual else SafetyFlattening
    case ReconcilingResidual =>
      if reply.account.Lost? || !Readable(reply.account.value, increment) then SafetyFlattening
      else if reply.account.value.total <= increment then Completed
      else if Residue(reply.account.value, increment) then ArmingResidual
      else SafetyFlattening
    case ArmingResidual => if reply.protection.Got? then ConfirmingResidualProtection else SafetyFlattening
    case ConfirmingResidualProtection => if reply.confirmation.Got? then Completed else SafetyFlattening
    case SafetyFlattening => if reply.killed.Got? then SafetyCompleted else Failed
    case _ => r.m.state
  }

  lemma ReadsLead(intent: Intent, policy: Policy, increment: real, r: Run, reply: Reply)
    requires Sound(r, intent, policy, increment) && Reading(r.m.state)
    ensures Act(policy, increment, r, reply).m.state == Leads(r, intent, increment, reply)
  {
    hide PlanFor;
    hide NonBlank;
    hide Done;
  }

  lemma SalesLead(intent: Intent, policy: Policy, increment: real, r: Run, reply: Reply)
    requires Sound(r, intent, policy, increment) && Selling(r.m.state)
    ensures Act(policy, increment, r, reply).m.state == Leads(r, intent, increment, reply)
  {
    hide PlanFor;
    hide Done;
    hide Readable;
    hide Covers;
    hide Residue;
  }

  lemma PassesLead(intent: Intent, policy: Policy, increment: real, r: Run, reply: Reply)
    requires Sound(r, intent, policy, increment)
    ensures Act(policy, increment, r, reply).m.state == Leads(r, intent, increment, reply)
  {
    hide PlanFor;
    hide Readable;
    hide Covers;
    hide Residue;
    hide Word;
    hide Reconciled;
    hide Lookup;
    hide Replay;
    if Reading(r.m.state) {
      ReadsLead(intent, policy, increment, r, reply);
    } else if Selling(r.m.state) {
      SalesLead(intent, policy, increment, r, reply);
    }
  }

  /** Why a pass gave up: the error it was answered, or that the answer made no sense. */
  function Why(r: Run, reply: Reply): WorkflowError {
    match r.m.state
    case CancellingProtections => if reply.cleared.Lost? then reply.cleared.error else FALLBACK
    case ReconcilingBeforeSell => if reply.account.Lost? then reply.account.error else FALLBACK
    case ReconcilingResidual => if reply.account.Lost? then reply.account.error else FALLBACK
    case ArmingResidual => if reply.protection.Lost? then reply.protection.error else FALLBACK
    case ConfirmingResidualProtection => if reply.confirmation.Lost? then reply.confirmation.error else FALLBACK
    case SafetyFlattening => if reply.killed.Lost? then reply.killed.error else FALLBACK
    case SubmittingSell => if reply.submitAuthorization.Lost? then reply.submitAuthorization.error else ErrorIn(reply.submitted)
    case ReconcilingSell =>
      if Sends(r) && reply.submitAuthorization.Lost? then reply.submitAuthorization.error
      else if Sends(r) && reply.submitted.Rejected? then reply.submitted.error
      else if !Asks(r, reply) then Kill.WorkflowError("reconciliation", "ORDER_OUTCOME_UNKNOWN", false)
      else if reply.lookupAuthorization.Lost? then reply.lookupAuthorization.error
      else if reply.lookup.Lost? then reply.lookup.error
      else ErrorIn(reply.lookup.value)
    case _ => FALLBACK
  }

  function ErrorIn(s: Submission): WorkflowError {
    match s
    case Rejected(error) => error
    case Other(error) => error
    case _ => FALLBACK
  }

  lemma FallsAreExplained(intent: Intent, policy: Policy, increment: real, r: Run, reply: Reply)
    requires Sound(r, intent, policy, increment) && !Stops(r.m.state)
    requires Act(policy, increment, r, reply).m.state == SafetyFlattening || Act(policy, increment, r, reply).m.state == Failed
    ensures Act(policy, increment, r, reply).m.ctx.lastError == Some(Why(r, reply))
  {
    hide PlanFor;
    hide NonBlank;
    hide Valid;
    hide Done;
  }

  /** A sell the exchange rejects, at once, on the second sending or when asked for, is followed by the safety
      flatten, and the run never reports it executed. */
  lemma RejectedSellsFlatten(intent: Intent, policy: Policy, increment: real, start: Run, world: seq<Reply>, i: nat, n: nat, reply: Reply)
    requires i < n <= |world| && Sound(start, intent, policy, increment)
    requires Rejects(After(policy, increment, start, world, i), world[i])
    ensures var next := After(policy, increment, start, world, i + 1);
            next.m.state == SafetyFlattening && Effects(intent, policy, next, reply) == [Flatten("sell-safety-" + intent.clientOrderId)]
    ensures var r := After(policy, increment, start, world, n);
            r.m.state in {SafetyFlattening, SafetyCompleted, Failed} && !Outcome(r).Executed? && !Outcome(r).Untouched?
    decreases n
  {
    hide Act;
    hide Sound;
    if i + 1 < n {
      RejectedSellsFlatten(intent, policy, increment, start, world, i, n - 1, reply);
      RunsStaySound(intent, policy, increment, start, world, n - 1);
      PassesLead(intent, policy, increment, After(policy, increment, start, world, n - 1), world[n - 1]);
    } else {
      RunsStaySound(intent, policy, increment, start, world, i);
      PassesLead(intent, policy, increment, After(policy, increment, start, world, i), world[i]);
    }
  }

  lemma {:induction false} RunsStaySound(intent: Intent, policy: Policy, increment: real, start: Run, world: seq<Reply>, n: nat)
    requires n <= |world| && Sound(start, intent, policy, increment)
    ensures Sound(After(policy, increment, start, world, n), intent, policy, increment)
  {
    hide Act;
    hide Sound;
    if n > 0 {
      RunsStaySound(intent, policy, increment, start, world, n - 1);
      var before := After(policy, increment, start, world, n - 1);
      if Stops(before.m.state) {
        StoppedStays(policy, increment, before, world[n - 1]);
      } else {
        ActKeepsSound(intent, policy, increment, before, world[n - 1]);
      }
    }
  }

  lemma StoppedStays(policy: Policy, increment: real, r: Run, reply: Reply)
    requires Stops(r.m.state)
    ensures Act(policy, increment, r, reply) == r
  {
  }

  // ---- The report

  /** Whatever is reported was answered: the sell was confirmed under that very id in a pass that sent it or
      asked for it, the account is the one read last, and the protection the one acknowledged last; without a
      protection the account read last holds no more than the increment. */
  lemma ReportsAreTold(intent: Intent, policy: Policy, increment: real, canControl: bool, canTrade: bool, world: seq<Reply>, n: nat)
    requires n <= |world|
    ensures var start := Requested(intent, canControl, canTrade);
            var status := Outcome(After(policy, increment, start, world, n));
            && (status.Executed? ==>
                  && (exists i :: 0 <= i < n && Confirms(After(policy, increment, start, world, i), world[i], status.exchangeOrderId))
                  && LastAccount(policy, increment, start, world, n) == Some(status.account)
                  && LastProtection(policy, increment, start, world, n) == status.protectiveOrderId)
            && (status.Untouched? || status.ProtectionFailed? ==> LastAccount(policy, increment, start, world, n) == Some(status.account))
  {
    hide Act;
    hide Word;
    hide Next;
    var start := Requested(intent, canControl, canTrade);
    LocalsAreTold(policy, increment, start, world, n);
    var status := Outcome(After(policy, increment, start, world, n));
    if status.Executed? {
      NothingSoldBefore(intent, canControl, canTrade);
      var i := SaleWasConfirmed(policy, increment, start, world, n, status.exchangeOrderId);
    }
  }

  lemma NothingSoldBefore(intent: Intent, canControl: bool, canTrade: bool)
    ensures Requested(intent, canControl, canTrade).sell.None?
  {
  }

  lemma {:induction false} SaleWasConfirmed(policy: Policy, increment: real, start: Run, world: seq<Reply>, n: nat, id: string) returns (i: nat)
    requires n <= |world| && start.sell.None? && LastSale(policy, increment, start, world, n) == Some(id)
    ensures i < n && Confirms(After(policy, increment, start, world, i), world[i], id)
  {
    hide Act;
    hide Word;
    var before, reply := After(policy, increment, start, world, n - 1), world[n - 1];
    if Word(before, reply).Some? && Word(before, reply).value.Confirmed? {
      i := n - 1;
    } else {
      i := SaleWasConfirmed(policy, increment, start, world, n - 1, id);
    }
  }

  /** Over crashes and resumes too: a sell on record was confirmed in some pass of this life that was not lost. */
  lemma {:induction false} RecordedSellsWereConfirmed(intent: Intent, policy: Policy, increment: real, actions: seq<Action>, id: string)
    ensures var l := Live(intent, policy, increment, actions);
            (l.live.Some? && l.live.value.sell == Some(id)) || (l.stored.Some? && l.stored.value.sell == Some(id)) ==>
              exists k :: ConfirmedAt(intent, policy, increment, actions, k, id)
  {
    hide Act;
    hide Word;
    hide Next;
    hide Effects;
    if actions != [] {
      var shorter, last := actions[..|actions| - 1], actions[|actions| - 1];
      RecordedSellsWereConfirmed(intent, policy, increment, shorter, id);
      var before, l := Live(intent, policy, increment, shorter), Live(intent, policy, increment, actions);
      if k :| ConfirmedAt(intent, policy, increment, shorter, k, id) {
        assert shorter[..k] == actions[..k];
        assert ConfirmedAt(intent, policy, increment, actions, k, id);
      }
      if last.Launch? {
        NothingSoldBefore(intent, last.canControl, last.canTrade);
      }
      if last.Pass? && before.live.Some? {
        PassTells(policy, increment, before.live.value, last.reply);
        assert Confirms(before.live.value, last.reply, id) ==> ConfirmedAt(intent, policy, increment, actions, |shorter|, id);
      }
    }
  }

  ghost predicate ConfirmedAt(intent: Intent, policy: Policy, increment: real, actions: seq<Action>, k: int, id: string) {
    && 0 <= k < |actions| && actions[k].Pass?
    && var l := Live(intent, policy, increment, actions[..k]);
       l.live.Some? && Confirms(l.live.value, actions[k].reply, id)
  }
}
