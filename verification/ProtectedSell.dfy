/** The protected sell: clear protections, sell, protect what is left, or fall back to flattening. */
module ProtectedSell {
  import opened Basics
  import Kill = KillSwitch

  type WorkflowError = Kill.WorkflowError

  datatype State =
    | Idle
    | CancellingProtections
    | ReconcilingBeforeSell
    | SubmittingSell
    | ReconcilingSell
    | ReconcilingResidual
    | ArmingResidual
    | ConfirmingResidualProtection
    | SafetyFlattening
    | Completed
    | SafetyCompleted
    | Failed

  datatype Verdict = Undecided | NoSellNeeded | SoldFlat | SoldReprotected | FlattenedAfterFailure | GaveUp

  datatype Account = Account(snapshotId: string, total: real, available: real, averageEntryPrice: real, dust: real)

  datatype Context = Context(
    productId: Option<string>,
    clientOrderId: Option<string>,
    requested: Option<real>,
    canControl: bool,
    canTrade: bool,
    seen: Option<Account>,
    exchangeOrderId: Option<string>,
    protectiveOrderId: Option<string>,
    outcome: Verdict,
    lastError: Option<WorkflowError>)

  datatype Machine = Machine(state: State, ctx: Context)

  datatype Event =
    | SellRequested(productId: string, clientOrderId: string, quantity: real, canControl: bool, canTrade: bool)
    | ProtectionsCleared
    | AccountReconciled(account: Account)
    | SellAcknowledged(acknowledgedId: string)
    | SellOutcomeUnknown(unknownId: Option<string>)
    | SellConfirmed(confirmedId: string)
    | SellRejected(error: WorkflowError)
    | ProtectionAcknowledged(protectiveOrderId: string)
    | ProtectionConfirmed
    | OperationFailed(error: WorkflowError)
    | SafetyFlattenSucceeded
    | SafetyFlattenFailed(error: WorkflowError)

  const FALLBACK := Kill.WorkflowError("reconciliation", "INVALID_RESPONSE", false)

  const FRESH := Machine(Idle, Context(None, None, None, false, false, None, None, None, Undecided, None))

  predicate Valid(a: Account) {
    && NonBlank(a.snapshotId) && a.total >= 0.0 && a.available >= 0.0 && a.averageEntryPrice >= 0.0 && a.dust > 0.0
    && a.available <= a.total + a.dust
  }

  predicate Flat(a: Account) {
    Valid(a) && a.total <= a.dust
  }

  predicate CanSell(c: Context, a: Account) {
    && Valid(a) && c.requested.Some? && a.total > a.dust && a.total + a.dust >= c.requested.value
    && a.available + a.dust >= c.requested.value && a.total - a.available <= a.dust
  }

  predicate Protectable(a: Account) {
    && Valid(a) && a.total > a.dust && a.averageEntryPrice > 0.0 && a.available > a.dust && a.total - a.available <= a.dust
  }

  function Record(c: Context, a: Account): Context {
    if Valid(a) then c.(seen := Some(a)) else c
  }

  function Fallen(c: Context, e: WorkflowError): Machine {
    Machine(SafetyFlattening, c.(lastError := Some(e)))
  }

  function Next(m: Machine, e: Event): Machine {
    var c := m.ctx;
    match (m.state, e)
    case (Idle, SellRequested(productId, clientOrderId, quantity, canControl, canTrade)) =>
      var asked := c.(productId := Some(productId), clientOrderId := Some(clientOrderId), requested := Some(quantity),
                      canControl := canControl, canTrade := canTrade, outcome := Undecided, lastError := None);
      if canControl && canTrade && NonBlank(productId) && NonBlank(clientOrderId) && quantity > 0.0
      then Machine(CancellingProtections, asked)
      else Machine(Failed, asked.(outcome := GaveUp,
                                  lastError := Some(Kill.WorkflowError("authorization", "TRADE_PERMISSION_REQUIRED", false))))
    case (CancellingProtections, ProtectionsCleared) => Machine(ReconcilingBeforeSell, c)
    case (ReconcilingBeforeSell, AccountReconciled(a)) =>
      if Flat(a) then Machine(Completed, Record(c, a).(outcome := NoSellNeeded))
      else if CanSell(c, a) then Machine(SubmittingSell, Record(c, a))
      else Fallen(Record(c, a), FALLBACK)
    case (SubmittingSell, SellConfirmed(id)) => Machine(ReconcilingResidual, c.(exchangeOrderId := Some(id)))
    case (SubmittingSell, SellAcknowledged(id)) => Machine(ReconcilingSell, c.(exchangeOrderId := Some(id)))
    case (SubmittingSell, SellOutcomeUnknown(id)) => Machine(ReconcilingSell, c.(exchangeOrderId := id))
    case (SubmittingSell, SellRejected(error)) => Fallen(c, error)
    case (ReconcilingSell, SellConfirmed(id)) => Machine(ReconcilingResidual, c.(exchangeOrderId := Some(id)))
    case (ReconcilingSell, SellRejected(error)) => Fallen(c, error)
    case (ReconcilingResidual, AccountReconciled(a)) =>
      if Flat(a) then Machine(Completed, Record(c, a).(outcome := SoldFlat))
      else if Protectable(a) then Machine(ArmingResidual, Record(c, a))
      else Fallen(Record(c, a), FALLBACK)
    case (ArmingResidual, ProtectionAcknowledged(id)) => Machine(ConfirmingResidualProtection, c.(protectiveOrderId := Some(id)))
    case (ConfirmingResidualProtection, ProtectionConfirmed) => Machine(Completed, c.(outcome := SoldReprotected))
    case (SafetyFlattening, SafetyFlattenSucceeded) => Machine(SafetyCompleted, c.(outcome := FlattenedAfterFailure))
    case (SafetyFlattening, SafetyFlattenFailed(error)) => Machine(Failed, c.(lastError := Some(error), outcome := GaveUp))
    case (_, OperationFailed(error)) =>
      if m.state in {CancellingProtections, ReconcilingBeforeSell, SubmittingSell, ReconcilingSell, ReconcilingResidual,
                     ArmingResidual, ConfirmingResidualProtection}
      then Fallen(c, error) else m
    case _ => m
  }

  function Rank(s: State): nat {
    match s
    case Idle => 9
    case CancellingProtections => 8
    case ReconcilingBeforeSell => 7
    case SubmittingSell => 6
    case ReconcilingSell => 5
    case ReconcilingResidual => 4
    case ArmingResidual => 3
    case ConfirmingResidualProtection => 2
    case SafetyFlattening => 1
    case Completed => 0
    case SafetyCompleted => 0
    case Failed => 0
  }

  /** The machine has no cycle, and once a request is accepted the only way to fail leads through
      the safety flatten. */
  lemma RankFalls(m: Machine, e: Event)
    ensures Next(m, e) == m || Rank(Next(m, e).state) < Rank(m.state)
    ensures Next(m, e).state == Failed ==> m.state in {Idle, SafetyFlattening, Failed}
    ensures Next(m, e).state == SafetyCompleted ==> m.state in {SafetyFlattening, SafetyCompleted}
  {
    hide NonBlank;
    hide Valid;
    hide Flat;
    hide CanSell;
    hide Protectable;
  }

  // ---- The driver

  datatype Intent = Intent(productId: string, clientOrderId: string, quantity: real, sells: bool)

  datatype Policy = Policy(stopLossBps: real, takeProfitBps: real)

  datatype Plan = Plan(stopLossPrice: real, takeProfitPrice: real)

  /** What the driver keeps between steps, which is also what a checkpoint stores. */
  datatype Run = Run(m: Machine, account: Option<Account>, sell: Option<string>, plan: Option<Plan>)

  datatype Submission = Confirmed(id: string) | Unknown(maybeId: Option<string>) | Rejected(error: WorkflowError) | Other(error: WorkflowError)

  datatype Answer<T> = Got(value: T) | Lost(error: WorkflowError)

  /** Everything the outside answers during one step. */
  datatype Reply = Reply(
    persisted: bool,
    persistError: WorkflowError,
    cleared: Answer<()>,
    account: Answer<Account>,
    submitAuthorization: Answer<()>,
    submitted: Submission,
    lookupAuthorization: Answer<()>,
    lookup: Answer<Submission>,
    protection: Answer<string>,
    confirmation: Answer<()>,
    killed: Answer<Account>)

  datatype ClientId = Own(clientOrderId: string) | Residual(parent: string)

  /** What a step sends that can move money. */
  datatype Effect =
    | Sell(sellId: ClientId, productId: string, quantity: real)
    | Protect(protectId: ClientId, protectedProduct: string, protectedQuantity: real, plan: Plan)
    | Flatten(prefix: string)

  function PlanFor(entry: real, p: Policy): Plan {
    Plan(entry * (1.0 - p.stopLossBps / 10000.0), entry * (1.0 + p.takeProfitBps / 10000.0))
  }

  predicate Arms(c: Context) {
    c.seen.Some? && c.seen.value.averageEntryPrice > 0.0
  }

  /** The sell is replayed only while the exchange has not given its own id. */
  predicate Replays(r: Run) {
    r.m.state == ReconcilingSell && r.account.Some? && r.m.ctx.exchangeOrderId.None?
  }

  function Effects(intent: Intent, policy: Policy, r: Run, reply: Reply): seq<Effect> {
    if (r.m.state == SubmittingSell || Replays(r)) && reply.submitAuthorization.Got? then
      [Sell(Own(intent.clientOrderId), intent.productId, intent.quantity)]
    else if r.m.state == ArmingResidual && Arms(r.m.ctx) then
      [Protect(Residual(intent.clientOrderId), intent.productId, r.m.ctx.seen.value.total,
               PlanFor(r.m.ctx.seen.value.averageEntryPrice, policy))]
    else if r.m.state == SafetyFlattening then [Flatten("sell-safety-" + intent.clientOrderId)]
    else []
  }

  function Sold(r: Run, id: string): Run {
    r.(m := Next(r.m, SellConfirmed(id)), sell := Some(id))
  }

  function Lookup(r: Run, id: string, reply: Reply): Run {
    match (reply.lookupAuthorization, reply.lookup)
    case (Lost(error), _) => r.(m := Next(r.m, OperationFailed(error)))
    case (_, Lost(error)) => r.(m := Next(r.m, OperationFailed(error)))
    case (_, Got(Confirmed(found))) => r.(m := Next(r.m, SellConfirmed(id)), sell := Some(found))
    case (_, Got(Rejected(error))) => r.(m := Next(r.m, SellRejected(error)))
    case (_, Got(Unknown(_))) => r.(m := Next(r.m, OperationFailed(FALLBACK)))
    case (_, Got(Other(error))) => r.(m := Next(r.m, OperationFailed(error)))
  }

  function Replay(r: Run, reply: Reply): Run {
    if reply.submitAuthorization.Lost? then r.(m := Next(r.m, OperationFailed(reply.submitAuthorization.error)))
    else
      match reply.submitted
      case Confirmed(id) => Sold(r, id)
      case Rejected(error) => r.(m := Next(r.m, SellRejected(error)))
      case Unknown(Some(id)) => Lookup(r, id, reply)
      case _ => r.(m := Next(r.m, OperationFailed(Kill.WorkflowError("reconciliation", "ORDER_OUTCOME_UNKNOWN", false))))
  }

  /** One pass through the switch: the machine's next state and the locals the driver updates. */
  function Act(policy: Policy, increment: real, r: Run, reply: Reply): Run {
    match r.m.state
    case CancellingProtections =>
      r.(m := Next(r.m, if reply.cleared.Got? then ProtectionsCleared else OperationFailed(reply.cleared.error)))
    case ReconcilingBeforeSell => Reconciled(increment, r, reply)
    case ReconcilingResidual => Reconciled(increment, r, reply)
    case SubmittingSell =>
      if reply.submitAuthorization.Lost? then r.(m := Next(r.m, OperationFailed(reply.submitAuthorization.error)))
      else
        (match reply.submitted
         case Confirmed(id) => Sold(r, id)
         case Unknown(id) => r.(m := Next(r.m, SellOutcomeUnknown(id)))
         case Rejected(error) => r.(m := Next(r.m, SellRejected(error)))
         case Other(error) => r.(m := Next(r.m, OperationFailed(error))))
    case ReconcilingSell =>
      if r.account.None? then r.(m := Next(r.m, OperationFailed(FALLBACK)))
      else if r.m.ctx.exchangeOrderId.None? then Replay(r, reply)
      else Lookup(r, r.m.ctx.exchangeOrderId.value, reply)
    case ArmingResidual =>
      if !Arms(r.m.ctx) then r.(m := Next(r.m, OperationFailed(FALLBACK)))
      else
        r.(plan := Some(PlanFor(r.m.ctx.seen.value.averageEntryPrice, policy)),
           m := Next(r.m, if reply.protection.Got? then ProtectionAcknowledged(reply.protection.value)
                          else OperationFailed(reply.protection.error)))
    case ConfirmingResidualProtection =>
      if r.m.ctx.protectiveOrderId.None? || r.m.ctx.seen.None? || r.plan.None? then r.(m := Next(r.m, OperationFailed(FALLBACK)))
      else r.(m := Next(r.m, if reply.confirmation.Got? then ProtectionConfirmed else OperationFailed(reply.confirmation.error)))
    case SafetyFlattening =>
      (match reply.killed
       case Got(a) => r.(account := Some(a), m := Next(r.m, SafetyFlattenSucceeded))
       case Lost(error) => r.(m := Next(r.m, SafetyFlattenFailed(error))))
    case _ => r
  }

  function Reconciled(increment: real, r: Run, reply: Reply): Run {
    match reply.account
    case Lost(error) => r.(m := Next(r.m, OperationFailed(error)))
    case Got(a) => r.(account := Some(a), m := Next(r.m, AccountReconciled(a.(dust := increment))))
  }

  datatype Status =
    | TerminalFailed
    | PersistenceUnknown
    | Untouched(account: Account)
    | Executed(exchangeOrderId: string, protectiveOrderId: Option<string>, account: Account)
    | ProtectionFailed(account: Account)

  function Outcome(r: Run): Status {
    match r.m.state
    case Completed =>
      if r.account.None? then TerminalFailed
      else if r.m.ctx.outcome == NoSellNeeded then Untouched(r.account.value)
      else if r.sell.None? then TerminalFailed
      else Executed(r.sell.value, r.m.ctx.protectiveOrderId, r.account.value)
    case SafetyCompleted => if r.account.None? then TerminalFailed else ProtectionFailed(r.account.value)
    case _ => TerminalFailed
  }

  // ---- What holds at every loop head

  predicate Matches(r: Run, intent: Intent) {
    && r.m.ctx.productId == Some(intent.productId) && r.m.ctx.clientOrderId == Some(intent.clientOrderId)
    && r.m.ctx.requested == Some(intent.quantity)
  }

  /** The locals agree with the state: a sell is on record from the residual check on, an account from
      the first read on, a plan and an id from the acknowledgement on; completion has one of three causes. */
  ghost predicate Sound(r: Run, intent: Intent, policy: Policy, increment: real) {
    && r.m.state != Idle
    && Matches(r, intent)
    && (2 <= Rank(r.m.state) <= 6 || r.m.state == Completed || r.m.state == SafetyCompleted ==> r.account.Some?)
    && (2 <= Rank(r.m.state) <= 4 ==> r.sell.Some?)
    && (2 <= Rank(r.m.state) <= 3 ==> Arms(r.m.ctx))
    && (r.m.state == ConfirmingResidualProtection ==>
          r.m.ctx.protectiveOrderId.Some? && r.plan == Some(PlanFor(r.m.ctx.seen.value.averageEntryPrice, policy)))
    && (r.m.ctx.protectiveOrderId.Some? ==> Rank(r.m.state) <= 2)
    && (r.m.state == Completed ==> Done(r, policy, increment))
  }

  /** Completed means nothing had to be sold, everything was, or the rest is under a confirmed protection. */
  ghost predicate Done(r: Run, policy: Policy, increment: real) {
    && r.m.ctx.seen.Some? && r.account.Some?
    && match r.m.ctx.outcome
       case NoSellNeeded => r.m.ctx.seen.value.total <= increment && r.m.ctx.protectiveOrderId.None?
       case SoldFlat => r.sell.Some? && r.m.ctx.seen.value.total <= increment && r.m.ctx.protectiveOrderId.None?
       case SoldReprotected =>
         && r.sell.Some? && r.m.ctx.protectiveOrderId.Some? && Arms(r.m.ctx)
         && r.plan == Some(PlanFor(r.m.ctx.seen.value.averageEntryPrice, policy))
       case _ => false
  }

  predicate Stops(s: State) {
    s == Completed || s == SafetyCompleted || s == Failed || s == Idle
  }

  /** Every pass that does something moves the machine to a state of lower rank, whatever is answered
      and whatever the locals hold. */
  lemma ActProgresses(policy: Policy, increment: real, r: Run, reply: Reply)
    requires !Stops(r.m.state)
    ensures Rank(Act(policy, increment, r, reply).m.state) < Rank(r.m.state)
    ensures Act(policy, increment, r, reply).m.state != Idle
  {
    hide NonBlank;
    hide PlanFor;
    hide Flat;
    hide Valid;
    hide CanSell;
    hide Protectable;
  }

  /** The sale part: submitting and looking the order up. */
  lemma SellingKeepsSound(intent: Intent, policy: Policy, increment: real, r: Run, reply: Reply)
    requires Sound(r, intent, policy, increment) && (r.m.state == SubmittingSell || r.m.state == ReconcilingSell)
    ensures Sound(Act(policy, increment, r, reply), intent, policy, increment)
  {
    hide NonBlank;
    hide PlanFor;
    hide Done;
    if r.m.state == ReconcilingSell && r.account.Some? {
      match r.m.ctx.exchangeOrderId
      case Some(id) => LookupKeepsSound(intent, policy, increment, r, id, reply);
      case None =>
        if reply.submitAuthorization.Got? && reply.submitted.Unknown? && reply.submitted.maybeId.Some? {
          LookupKeepsSound(intent, policy, increment, r, reply.submitted.maybeId.value, reply);
        }
    }
  }

  lemma LookupKeepsSound(intent: Intent, policy: Policy, increment: real, r: Run, id: string, reply: Reply)
    requires Sound(r, intent, policy, increment) && r.m.state == ReconcilingSell
    ensures Sound(Lookup(r, id, reply), intent, policy, increment)
  {
    hide NonBlank;
    hide PlanFor;
    hide Done;
  }

  lemma ReconcilingKeepsSound(intent: Intent, policy: Policy, increment: real, r: Run, reply: Reply)
    requires Sound(r, intent, policy, increment) && (r.m.state == ReconcilingBeforeSell || r.m.state == ReconcilingResidual)
    ensures Sound(Reconciled(increment, r, reply), intent, policy, increment)
  {
    hide NonBlank;
    hide PlanFor;
  }

  /** The locals stay in agreement with the state. */
  lemma ActKeepsSound(intent: Intent, policy: Policy, increment: real, r: Run, reply: Reply)
    requires Sound(r, intent, policy, increment) && !Stops(r.m.state)
    ensures Sound(Act(policy, increment, r, reply), intent, policy, increment)
  {
    hide NonBlank;
    hide PlanFor;
    match r.m.state
    case SubmittingSell => SellingKeepsSound(intent, policy, increment, r, reply);
    case ReconcilingSell => SellingKeepsSound(intent, policy, increment, r, reply);
    case ReconcilingBeforeSell => ReconcilingKeepsSound(intent, policy, increment, r, reply);
    case ReconcilingResidual => ReconcilingKeepsSound(intent, policy, increment, r, reply);
    case _ =>
  }

  function Requested(intent: Intent, canControl: bool, canTrade: bool): Run {
    Run(Next(FRESH, SellRequested(intent.productId, intent.clientOrderId, intent.quantity, canControl, canTrade)), None, None, None)
  }

  predicate Configured(intent: Intent, policy: Policy, supported: bool) {
    intent.sells && 0.0 < policy.stopLossBps < 10000.0 && policy.takeProfitBps > 0.0 && supported
  }

  const MAX_CONTROL_STEPS := 64

  /** The run after n passes. */
  function After(policy: Policy, increment: real, start: Run, world: seq<Reply>, n: nat): Run
    requires n <= |world|
  {
    if n == 0 then start else Act(policy, increment, After(policy, increment, start, world, n - 1), world[n - 1])
  }

  /** The whole operation, fresh or resumed from any checkpoint: it stops within eight passes, so its
      cap of 64 is never reached; the answer is what the last state says, or UNKNOWN at the first
      checkpoint that could not be stored. */
  method ExecuteProtectedSell(intent: Intent, canControl: bool, canTrade: bool, policy: Policy, supported: bool, increment: real,
                              persistence: bool, restored: Option<Run>, world: seq<Reply>)
    returns (status: Status, ghost steps: nat, ghost start: Run)
    requires |world| >= MAX_CONTROL_STEPS
    ensures steps <= 8
    ensures !(intent.sells && 0.0 < policy.stopLossBps < 10000.0 && policy.takeProfitBps > 0.0 && supported) ==> status == TerminalFailed
    ensures restored.Some? && restored.value.m.ctx.productId != Some(intent.productId) ==> status == TerminalFailed
    ensures restored.Some? && restored.value.m.ctx.clientOrderId != Some(intent.clientOrderId) ==> status == TerminalFailed
    ensures restored.Some? && restored.value.m.ctx.requested != Some(intent.quantity) ==> status == TerminalFailed
    ensures Configured(intent, policy, supported) && (restored.Some? ==> Matches(restored.value, intent)) ==>
              && start == (if restored.Some? then restored.value else Requested(intent, canControl, canTrade))
              && (Sound(start, intent, policy, increment) ==>
                    Sound(After(policy, increment, start, world, steps), intent, policy, increment))
              && (if persistence && !world[steps].persisted then status == PersistenceUnknown
                  else Stops(After(policy, increment, start, world, steps).m.state)
                       && status == Outcome(After(policy, increment, start, world, steps)))
  {
    hide Act;
    hide Next;
    hide Sound;
    hide Outcome;
    steps, start := 0, Requested(intent, canControl, canTrade);
    if !Configured(intent, policy, supported) || (restored.Some? && !Matches(restored.value, intent)) {
      return TerminalFailed, 0, start;
    }
    var run := if restored.Some? then restored.value else Requested(intent, canControl, canTrade);
    start := run;
    RequestedIsSound(intent, canControl, canTrade, policy, increment);
    var step := 0;
    while step < MAX_CONTROL_STEPS
      invariant 0 <= step <= MAX_CONTROL_STEPS && steps == step
      invariant Sound(start, intent, policy, increment) ==> Sound(run, intent, policy, increment)
      invariant run == After(policy, increment, start, world, step)
      invariant Stops(run.m.state) || Rank(run.m.state) + step <= 8
      invariant step <= 8
    {
      if persistence && !world[step].persisted {
        return PersistenceUnknown, step, start;
      }
      if Stops(run.m.state) {
        return Outcome(run), step, start;
      }
      ActProgresses(policy, increment, run, world[step]);
      if Sound(start, intent, policy, increment) {
        ActKeepsSound(intent, policy, increment, run, world[step]);
      }
      run := Act(policy, increment, run, world[step]);
      step := step + 1;
      steps := step;
    }
    assert false;
    status := TerminalFailed;
  }

  lemma RequestedIsSound(intent: Intent, canControl: bool, canTrade: bool, policy: Policy, increment: real)
    ensures Sound(Requested(intent, canControl, canTrade), intent, policy, increment)
  {
    hide NonBlank;
  }

  /** A sound run ends TERMINAL_FAILED only through the failed state; a completed one reports what it did. */
  lemma CompletedReports(r: Run, intent: Intent, policy: Policy, increment: real)
    requires Sound(r, intent, policy, increment) && Stops(r.m.state)
    ensures Outcome(r) == TerminalFailed <==> r.m.state == Failed
    ensures Outcome(r).ProtectionFailed? <==> r.m.state == SafetyCompleted
    ensures Outcome(r).Untouched? ==> r.m.ctx.seen.Some? && r.m.ctx.seen.value.total <= increment
    ensures Outcome(r).Executed? ==> r.m.ctx.seen.Some? && (r.m.ctx.seen.value.total <= increment || Outcome(r).protectiveOrderId.Some?)
  {
    hide PlanFor;
  }

  /** Under a valid policy the protection lies around the entry price, the stop below and above zero. */
  lemma PlanBrackets(entry: real, p: Policy)
    requires entry > 0.0 && 0.0 < p.stopLossBps < 10000.0 && p.takeProfitBps > 0.0
    ensures 0.0 < PlanFor(entry, p).stopLossPrice < entry < PlanFor(entry, p).takeProfitPrice
    ensures 10000.0 * (entry - PlanFor(entry, p).stopLossPrice) == p.stopLossBps * entry
    ensures 10000.0 * (PlanFor(entry, p).takeProfitPrice - entry) == p.takeProfitBps * entry
  {
    Distances(entry, p.stopLossBps);
    Distances(entry, p.takeProfitBps);
    Scales(entry, 1.0 - p.stopLossBps / 10000.0, 1.0);
    Scales(entry, 1.0, 1.0 + p.takeProfitBps / 10000.0);
  }

  lemma Distances(entry: real, bps: real)
    ensures 10000.0 * (entry - entry * (1.0 - bps / 10000.0)) == bps * entry
    ensures 10000.0 * (entry * (1.0 + bps / 10000.0) - entry) == bps * entry
  {
    var share := bps / 10000.0;
    assert entry * (1.0 - share) == entry - entry * share && entry * (1.0 + share) == entry + entry * share;
    assert 10000.0 * (entry * share) == bps * entry;
  }

  lemma Scales(price: real, low: real, high: real)
    requires price > 0.0 && 0.0 < low < high
    ensures 0.0 < price * low < price * high
  {
    var gap := high - low;
    assert price * gap > 0.0;
    assert price * high == price * low + price * gap;
  }
}
