/** The kill switch against a venue whose answers may be lost and whose orders may execute late. */
module KillVenue {
  import opened Basics
  import opened KillSwitch

  /** What the exchange holds.  `pending` is a flatten whose answer was lost and which may still
      execute; the last three fields are running totals of what left and entered the account. */
  datatype Venue = Venue(free: real, reserved: real, open: nat, pending: Option<real>, sold: real, drained: real, credited: real)

  /** A balance read, and the credits up to that moment. */
  datatype Reading = Reading(snapshotId: string, total: real, available: real, credited: real)

  datatype Submission = Submission(attempt: nat, quantity: real, unknown: bool)

  datatype System = System(m: Machine, venue: Venue, reading: Option<Reading>, listing: bool, submissions: seq<Submission>)

  datatype Fate = Executed(x: real) | Pending | Dropped

  datatype Action =
    | Start(productId: string, prefix: string, canControl: bool, canTrade: bool)
    | CancelsConfirmed
    | CancelFailed(cancelError: WorkflowError)
    | BalanceRead(snapshotId: string, available: real)
    | OrdersListed
    | ReadFailed(readError: WorkflowError)
    | FlattenFills(filled: real)
    | FlattenRefused(refusal: WorkflowError)
    | FlattenAnswerLost(fate: Fate)
    | TimerElapses
    // the venue on its own
    | OrderFills(x: real)
    | OrderCloses(released: real)
    | Credit(amount: real)
    | LateFill(late: real)
    | LateExpiry

  predicate Reads(s: State) {
    s == ReconcilingPosition || s == VerifyingFlat
  }

  predicate Waits(s: State) {
    s == RetryingCancellation || s == RetryingReconciliation || s == RetryingVerification
  }

  function AskedQuantity(s: System): real {
    if s.m.ctx.flattenQuantity.Some? then s.m.ctx.flattenQuantity.value else 0.0
  }

  /** When an action can happen.  Balances are current when read and the free part excludes what
      orders reserve; a flatten executes at most what it asked for; nobody opens a new order. */
  predicate Enabled(s: System, a: Action) {
    match a
    case Start(_, _, _, _) => s.m.state == Idle
    case CancelsConfirmed => s.m.state == CancellingOrders && s.venue.open == 0
    case CancelFailed(_) => s.m.state == CancellingOrders
    case BalanceRead(_, available) => Reads(s.m.state) && !s.listing && available <= s.venue.free
    case OrdersListed => Reads(s.m.state) && s.listing && s.reading.Some?
    case ReadFailed(_) => Reads(s.m.state)
    case FlattenFills(x) => s.m.state == FlatteningPosition && 0.0 <= x <= AskedQuantity(s)
    case FlattenRefused(_) => s.m.state == FlatteningPosition
    case FlattenAnswerLost(fate) => s.m.state == FlatteningPosition && (fate.Executed? ==> 0.0 <= fate.x <= AskedQuantity(s))
    case TimerElapses => Waits(s.m.state)
    case OrderFills(x) => 0.0 <= x <= s.venue.reserved
    case OrderCloses(released) =>
      s.venue.open > 0 && 0.0 <= released <= s.venue.reserved && (s.venue.open == 1 ==> released == s.venue.reserved)
    case Credit(amount) => amount >= 0.0
    case LateFill(late) => s.venue.pending.Some? && 0.0 <= late <= s.venue.pending.value
    case LateExpiry => s.venue.pending.Some?
  }

  function Sell(v: Venue, x: real): Venue {
    v.(free := v.free - x, sold := v.sold + x)
  }

  function Fated(v: Venue, quantity: real, fate: Fate): Venue {
    match fate
    case Executed(x) => Sell(v, x)
    case Pending => v.(pending := Some(quantity))
    case Dropped => v
  }

  function Submitted(s: System, unknown: bool): seq<Submission> {
    s.submissions + [Submission(s.m.ctx.attempts.flatten, AskedQuantity(s), unknown)]
  }

  function AccountOf(s: System, dust: real): Account
    requires s.reading.Some?
  {
    Account(s.reading.value.snapshotId, s.reading.value.total, s.reading.value.available, dust, s.venue.open)
  }

  /** One step of machine and venue together; an action that cannot happen changes nothing. */
  function Step(s: System, a: Action, dust: real): System {
    if !Enabled(s, a) then s
    else
      match a
      case Start(productId, prefix, canControl, canTrade) =>
        s.(m := Next(s.m, KillRequested(productId, prefix, canControl, canTrade)))
      case CancelsConfirmed => s.(m := Next(s.m, OrdersCleared))
      case CancelFailed(error) => s.(m := Next(s.m, OperationFailed(error)))
      case BalanceRead(id, available) =>
        s.(reading := Some(Reading(id, s.venue.free + s.venue.reserved, available, s.venue.credited)), listing := true)
      case OrdersListed => s.(m := Next(s.m, AccountReconciled(AccountOf(s, dust))), listing := false)
      case ReadFailed(error) => s.(m := Next(s.m, OperationFailed(error)), listing := false)
      case FlattenFills(x) =>
        s.(m := Next(s.m, FlattenConfirmed), venue := Sell(s.venue, x), submissions := Submitted(s, false))
      case FlattenRefused(error) => s.(m := Next(s.m, FlattenRejected(error)), submissions := Submitted(s, false))
      case FlattenAnswerLost(fate) =>
        s.(m := Next(s.m, FlattenOutcomeUnknown), venue := Fated(s.venue, AskedQuantity(s), fate), submissions := Submitted(s, true))
      case TimerElapses => s.(m := Next(s.m, RetryTimerElapsed))
      case OrderFills(x) => s.(venue := s.venue.(reserved := s.venue.reserved - x, drained := s.venue.drained + x))
      case OrderCloses(released) =>
        s.(venue := s.venue.(open := s.venue.open - 1, reserved := s.venue.reserved - released, free := s.venue.free + released))
      case Credit(amount) => s.(venue := s.venue.(free := s.venue.free + amount, credited := s.venue.credited + amount))
      case LateFill(x) => s.(venue := Sell(s.venue, x).(pending := None))
      case LateExpiry => s.(venue := s.venue.(pending := None))
  }

  function Run(s: System, actions: seq<Action>, dust: real): System {
    if actions == [] then s else Step(Run(s, actions[..|actions| - 1], dust), actions[|actions| - 1], dust)
  }

  function Begin(limits: Limits, free: real, reserved: real, open: nat): System {
    System(Create(limits), Venue(free, reserved, open, None, 0.0, 0.0, 0.0), None, false, [])
  }

  function Holding(v: Venue): real {
    v.free + v.reserved
  }

  // ---- The invariant

  ghost predicate Balanced(v: Venue, initial: real) {
    && v.free >= 0.0 && v.reserved >= 0.0 && v.sold >= 0.0 && v.drained >= 0.0 && v.credited >= 0.0
    && (v.open == 0 ==> v.reserved == 0.0)
    && v.free + v.reserved + v.sold + v.drained == initial + v.credited
  }

  /** Everything still able to sell is covered by what is free. */
  ghost predicate Covered(s: System, dust: real) {
    && (!s.m.ctx.outcomeUnknown ==> s.venue.pending.None?)
    && (s.venue.pending.Some? ==> dust < s.venue.pending.value <= s.venue.free)
    && (s.m.state == FlatteningPosition ==>
          s.m.ctx.flattenQuantity.Some? && dust < AskedQuantity(s) <= s.venue.free && !s.m.ctx.outcomeUnknown)
    && (s.listing ==> Reads(s.m.state) && s.reading.Some?)
    && (s.listing && !s.m.ctx.outcomeUnknown ==> s.reading.value.available <= s.venue.free)
    && (s.listing && s.venue.pending.Some? ==> s.reading.value.total > dust)
    && (s.reading.Some? ==> Holding(s.venue) <= s.reading.value.total + (s.venue.credited - s.reading.value.credited))
    && (s.m.state == Completed ==>
          s.reading.Some? && s.reading.value.total <= dust && s.venue.open == 0 && s.venue.pending.None?)
  }

  /** One submission per counted attempt, numbered 1, 2, ...; only the last can be unknown. */
  ghost predicate Numbered(s: System) {
    && s.m.ctx.attempts.flatten <= s.m.ctx.limits.flatten
    && |s.submissions| == s.m.ctx.attempts.flatten - (if s.m.state == FlatteningPosition then 1 else 0)
    && (forall i :: 0 <= i < |s.submissions| ==> s.submissions[i].attempt == i + 1)
    && (forall i :: 0 <= i < |s.submissions| && s.submissions[i].unknown ==> i == |s.submissions| - 1 && s.m.ctx.outcomeUnknown)
    && (s.m.state == Idle ==> s.m.ctx.attempts == NO_ATTEMPTS)
  }

  // ---- What the machine's own events guarantee

  /** A snapshot starts a flatten only for what it shows available, with budget left and no doubt
      outstanding, and completes only when flat with no open order. */
  lemma AccountEventFacts(m: Machine, a: Account)
    requires Reads(m.state)
    ensures var n := Next(m, AccountReconciled(a));
            && n.ctx.limits == m.ctx.limits && n.ctx.outcomeUnknown == m.ctx.outcomeUnknown && n.state != Idle
            && n.ctx.attempts.flatten == m.ctx.attempts.flatten + (if n.state == FlatteningPosition then 1 else 0)
            && (n.state == FlatteningPosition ==>
                  && n.ctx.flattenQuantity == Some(a.available) && a.available > a.dust && !m.ctx.outcomeUnknown
                  && m.ctx.attempts.flatten < m.ctx.limits.flatten)
            && (n.state == Completed ==> a.openOrderCount == 0 && a.total <= a.dust)
  {
    hide NonBlank;
    if CanFlatten(m.ctx, a) {
      FlatteningIsBudgeted(m.ctx, a);
    }
  }

  lemma OtherEventFacts(m: Machine, e: Event)
    requires !e.AccountReconciled? && (e.KillRequested? ==> m.state == Idle && m.ctx.attempts == NO_ATTEMPTS)
    requires m.state == Idle ==> e.KillRequested?
    ensures var n := Next(m, e);
            && n.ctx.limits == m.ctx.limits && n.state != Idle
            && n.ctx.attempts.flatten == m.ctx.attempts.flatten
            && (n.state == Completed ==> m.state == Completed)
            && (n.state == FlatteningPosition ==> m.state == FlatteningPosition)
            && (e.FlattenOutcomeUnknown? && m.state == FlatteningPosition ==> n.ctx.outcomeUnknown)
            && (!e.FlattenOutcomeUnknown? && !e.FlattenConfirmed? ==> n.ctx.outcomeUnknown == m.ctx.outcomeUnknown)
            && (e.FlattenConfirmed? && m.state == FlatteningPosition ==> !n.ctx.outcomeUnknown)
            && (m.state == FlatteningPosition && (e.FlattenConfirmed? || e.FlattenOutcomeUnknown? || e.FlattenRejected?)
                ==> n.state != FlatteningPosition)
  {
    hide NonBlank;
  }

  // ---- Preservation

  lemma StepKeepsBalance(s: System, a: Action, dust: real, initial: real)
    requires Balanced(s.venue, initial) && Covered(s, dust) && dust > 0.0
    ensures Balanced(Step(s, a, dust).venue, initial)
  {
    hide Next;
  }

  lemma StepKeepsCover(s: System, a: Action, dust: real, initial: real)
    requires Balanced(s.venue, initial) && Covered(s, dust) && Numbered(s) && dust > 0.0
    ensures Covered(Step(s, a, dust), dust)
  {
    hide Next;
    if Enabled(s, a) {
      match a
      case OrdersListed => AccountEventFacts(s.m, AccountOf(s, dust));
      case Start(productId, prefix, canControl, canTrade) => OtherEventFacts(s.m, KillRequested(productId, prefix, canControl, canTrade));
      case CancelsConfirmed => OtherEventFacts(s.m, OrdersCleared);
      case CancelFailed(error) => OtherEventFacts(s.m, OperationFailed(error));
      case ReadFailed(error) => OtherEventFacts(s.m, OperationFailed(error));
      case FlattenFills(x) => OtherEventFacts(s.m, FlattenConfirmed);
      case FlattenRefused(error) => OtherEventFacts(s.m, FlattenRejected(error));
      case FlattenAnswerLost(fate) => OtherEventFacts(s.m, FlattenOutcomeUnknown);
      case TimerElapses => OtherEventFacts(s.m, RetryTimerElapsed);
      case _ =>
    }
  }

  lemma StepKeepsNumbering(s: System, a: Action, dust: real)
    requires Numbered(s) && Covered(s, dust)
    ensures Numbered(Step(s, a, dust))
  {
    hide Next;
    if Enabled(s, a) {
      match a
      case OrdersListed => AccountEventFacts(s.m, AccountOf(s, dust));
      case Start(productId, prefix, canControl, canTrade) => OtherEventFacts(s.m, KillRequested(productId, prefix, canControl, canTrade));
      case CancelsConfirmed => OtherEventFacts(s.m, OrdersCleared);
      case CancelFailed(error) => OtherEventFacts(s.m, OperationFailed(error));
      case ReadFailed(error) => OtherEventFacts(s.m, OperationFailed(error));
      case FlattenFills(x) => OtherEventFacts(s.m, FlattenConfirmed);
      case FlattenRefused(error) => OtherEventFacts(s.m, FlattenRejected(error));
      case FlattenAnswerLost(fate) => OtherEventFacts(s.m, FlattenOutcomeUnknown);
      case TimerElapses => OtherEventFacts(s.m, RetryTimerElapsed);
      case _ =>
    }
  }

  /** Both invariants and the numbering are kept from any state that has them. */
  lemma {:induction false} RunKeepsSound(s: System, actions: seq<Action>, dust: real, initial: real)
    requires Balanced(s.venue, initial) && Covered(s, dust) && Numbered(s) && dust > 0.0
    ensures var t := Run(s, actions, dust); Balanced(t.venue, initial) && Covered(t, dust) && Numbered(t)
  {
    hide Step;
    hide Balanced;
    hide Covered;
    hide Numbered;
    if actions != [] {
      RunKeepsSound(s, actions[..|actions| - 1], dust, initial);
      var before, last := Run(s, actions[..|actions| - 1], dust), actions[|actions| - 1];
      StepKeepsBalance(before, last, dust, initial);
      StepKeepsCover(before, last, dust, initial);
      StepKeepsNumbering(before, last, dust);
    }
  }

  lemma RunIsSound(limits: Limits, free: real, reserved: real, open: nat, actions: seq<Action>, dust: real)
    requires free >= 0.0 && reserved >= 0.0 && dust > 0.0 && (open == 0 ==> reserved == 0.0)
    ensures var s := Run(Begin(limits, free, reserved, open), actions, dust);
            Balanced(s.venue, free + reserved) && Covered(s, dust) && Numbered(s)
  {
    RunKeepsSound(Begin(limits, free, reserved, open), actions, dust, free + reserved);
  }

  // ---- The guarantees

  /** Whatever answers are lost and however late orders execute, flattening never sells more than was
      held: what the flattens sold, plus one still pending, fits in the start and the credits. */
  lemma NeverOversells(limits: Limits, free: real, reserved: real, open: nat, actions: seq<Action>, dust: real)
    requires free >= 0.0 && reserved >= 0.0 && dust > 0.0 && (open == 0 ==> reserved == 0.0)
    ensures var v := Run(Begin(limits, free, reserved, open), actions, dust).venue;
            && v.free >= 0.0 && v.reserved >= 0.0
            && v.sold + (if v.pending.Some? then v.pending.value else 0.0) <= free + reserved + v.credited
            && Holding(v) == free + reserved + v.credited - v.sold - v.drained
  {
    RunIsSound(limits, free, reserved, open, actions, dust);
  }

  /** Completion means no open order, no flatten still able to execute, and at most dust held apart
      from what came in after the balance was read. */
  lemma CompletedIsFlat(limits: Limits, free: real, reserved: real, open: nat, actions: seq<Action>, dust: real)
    requires free >= 0.0 && reserved >= 0.0 && dust > 0.0 && (open == 0 ==> reserved == 0.0)
    requires Run(Begin(limits, free, reserved, open), actions, dust).m.state == Completed
    ensures var s := Run(Begin(limits, free, reserved, open), actions, dust);
            && s.venue.open == 0 && s.venue.pending.None? && s.reading.Some?
            && Holding(s.venue) <= dust + (s.venue.credited - s.reading.value.credited)
  {
    RunIsSound(limits, free, reserved, open, actions, dust);
  }

  /** Flattens are numbered 1, 2, ... up to at most the limit, so their client order ids differ, and
      one whose outcome is unknown is the last there will be. */
  lemma FlattensAreNumbered(limits: Limits, free: real, reserved: real, open: nat, actions: seq<Action>, later: seq<Action>, dust: real)
    requires free >= 0.0 && reserved >= 0.0 && dust > 0.0 && (open == 0 ==> reserved == 0.0)
    ensures var s := Run(Begin(limits, free, reserved, open), actions, dust);
            var after := Run(Begin(limits, free, reserved, open), actions + later, dust);
            && |s.submissions| <= |after.submissions| <= limits.flatten
            && (forall i :: 0 <= i < |s.submissions| ==> s.submissions[i] == after.submissions[i] && s.submissions[i].attempt == i + 1)
            && (forall i :: 0 <= i < |s.submissions| && s.submissions[i].unknown ==> after.submissions == s.submissions)
  {
    var begin := Begin(limits, free, reserved, open);
    RunIsSound(limits, free, reserved, open, actions, dust);
    RunIsSound(limits, free, reserved, open, actions + later, dust);
    LimitsAreFixed(begin, actions + later, dust);
    SubmissionsGrow(begin, actions, later, dust);
  }

  lemma {:induction false} LimitsAreFixed(s: System, actions: seq<Action>, dust: real)
    ensures Run(s, actions, dust).m.ctx.limits == s.m.ctx.limits
  {
    hide Step;
    if actions != [] {
      LimitsAreFixed(s, actions[..|actions| - 1], dust);
      StepKeepsLimits(Run(s, actions[..|actions| - 1], dust), actions[|actions| - 1], dust);
    }
  }

  lemma NextKeepsLimits(m: Machine, e: Event)
    ensures Next(m, e).ctx.limits == m.ctx.limits
  {
    hide NonBlank;
    hide Valid;
  }

  lemma StepKeepsLimits(s: System, a: Action, dust: real)
    ensures Step(s, a, dust).m.ctx.limits == s.m.ctx.limits
  {
    hide Next;
    if Enabled(s, a) {
      match a
      case OrdersListed => NextKeepsLimits(s.m, AccountReconciled(AccountOf(s, dust)));
      case Start(productId, prefix, canControl, canTrade) => NextKeepsLimits(s.m, KillRequested(productId, prefix, canControl, canTrade));
      case CancelsConfirmed => NextKeepsLimits(s.m, OrdersCleared);
      case CancelFailed(error) => NextKeepsLimits(s.m, OperationFailed(error));
      case ReadFailed(error) => NextKeepsLimits(s.m, OperationFailed(error));
      case FlattenFills(x) => NextKeepsLimits(s.m, FlattenConfirmed);
      case FlattenRefused(error) => NextKeepsLimits(s.m, FlattenRejected(error));
      case FlattenAnswerLost(fate) => NextKeepsLimits(s.m, FlattenOutcomeUnknown);
      case TimerElapses => NextKeepsLimits(s.m, RetryTimerElapsed);
      case _ =>
    }
  }

  lemma {:induction false} SubmissionsGrow(s: System, actions: seq<Action>, later: seq<Action>, dust: real)
    ensures Run(s, actions, dust).submissions <= Run(s, actions + later, dust).submissions
  {
    if later == [] {
      assert actions + later == actions;
    } else {
      var shorter := later[..|later| - 1];
      SubmissionsGrow(s, actions, shorter, dust);
      assert (actions + later)[..|actions + later| - 1] == actions + shorter;
      StepAppends(Run(s, actions + shorter, dust), later[|later| - 1], dust);
    }
  }

  lemma StepAppends(s: System, a: Action, dust: real)
    ensures s.submissions <= Step(s, a, dust).submissions
  {
    hide Next;
  }
}
