/** The account kill switch: cancel every order, reconcile, sell what is available, verify. */
module KillSwitch {
  import opened Basics

  datatype State =
    | Idle
    | CancellingOrders
    | RetryingCancellation
    | ReconcilingPosition
    | RetryingReconciliation
    | FlatteningPosition
    | VerifyingFlat
    | RetryingVerification
    | Completed
    | Failed

  datatype WorkflowError = WorkflowError(phase: string, code: string, retryable: bool)

  datatype Limits = Limits(cancellation: nat, reconciliation: nat, flatten: nat, verification: nat)

  datatype Account = Account(snapshotId: string, total: real, available: real, dust: real, openOrderCount: int)

  datatype Context = Context(
    productId: Option<string>,
    prefix: Option<string>,
    canControl: bool,
    canTrade: bool,
    account: Option<Account>,
    flattenQuantity: Option<real>,
    outcomeUnknown: bool,
    lastError: Option<WorkflowError>,
    limits: Limits,
    attempts: Limits)

  datatype Machine = Machine(state: State, ctx: Context)

  datatype Event =
    | KillRequested(productId: string, prefix: string, canControl: bool, canTrade: bool)
    | OrdersCleared
    | AccountReconciled(account: Account)
    | FlattenConfirmed
    | FlattenOutcomeUnknown
    | FlattenRejected(error: WorkflowError)
    | OperationFailed(error: WorkflowError)
    | RetryTimerElapsed

  const DEFAULT_LIMITS := Limits(3, 4, 2, 4)
  const NO_ATTEMPTS := Limits(0, 0, 0, 0)

  function Create(limits: Limits): Machine {
    Machine(Idle, Context(None, None, false, false, None, None, false, None, limits, NO_ATTEMPTS))
  }

  const INVALID_ACCOUNT := WorkflowError("reconciliation", "INVALID_RESPONSE", false)
  const HELD_QUANTITY := WorkflowError("reconciliation", "RECONCILIATION_FAILURE", true)

  predicate Valid(a: Account) {
    && NonBlank(a.snapshotId) && a.total >= 0.0 && a.available >= 0.0 && a.dust > 0.0
    && 0 <= a.openOrderCount <= MAX_SAFE && a.available <= a.total + a.dust
  }

  predicate HasOpenOrders(a: Account) {
    Valid(a) && a.openOrderCount > 0
  }

  predicate Flat(a: Account) {
    Valid(a) && a.openOrderCount == 0 && a.total <= a.dust
  }

  predicate CanFlatten(c: Context, a: Account) {
    && Valid(a) && a.openOrderCount == 0 && a.total > a.dust && a.available > a.dust && a.total - a.available <= a.dust
    && c.attempts.flatten < c.limits.flatten && !c.outcomeUnknown
  }

  predicate Held(a: Account) {
    Valid(a) && a.openOrderCount == 0 && a.total > a.dust && (a.available <= a.dust || a.total - a.available > a.dust)
  }

  function Unflattenable(c: Context): WorkflowError {
    if c.outcomeUnknown then WorkflowError("execution", "ORDER_OUTCOME_UNKNOWN", false)
    else WorkflowError("execution", "ORDER_REJECTED", false)
  }

  function Bump(attempts: Limits, s: State): Limits {
    match s
    case RetryingCancellation => attempts.(cancellation := attempts.cancellation + 1)
    case RetryingReconciliation => attempts.(reconciliation := attempts.reconciliation + 1)
    case RetryingVerification => attempts.(verification := attempts.verification + 1)
    case FlatteningPosition => attempts.(flatten := attempts.flatten + 1)
    case _ => attempts
  }

  predicate Retries(c: Context, s: State) {
    match s
    case RetryingCancellation => c.attempts.cancellation < c.limits.cancellation
    case RetryingReconciliation => c.attempts.reconciliation < c.limits.reconciliation
    case RetryingVerification => c.attempts.verification < c.limits.verification
    case _ => false
  }

  /** A snapshot arrives while reconciling or verifying; the two states differ only in the retry budget. */
  function OnAccount(c: Context, a: Account, retry: State): Machine {
    if !Valid(a) then Machine(Failed, c.(lastError := Some(INVALID_ACCOUNT)))
    else
      var seen := c.(account := Some(a));
      if HasOpenOrders(a) then Machine(CancellingOrders, seen)
      else if Flat(a) then Machine(Completed, seen)
      else if CanFlatten(c, a) then
        Machine(FlatteningPosition, seen.(flattenQuantity := Some(a.available), attempts := Bump(c.attempts, FlatteningPosition),
                                          outcomeUnknown := false))
      else if Held(a) && Retries(c, retry) then
        Machine(retry, seen.(lastError := Some(HELD_QUANTITY), attempts := Bump(c.attempts, retry)))
      else if Held(a) then Machine(Failed, seen.(lastError := Some(HELD_QUANTITY.(retryable := false))))
      else Machine(Failed, seen.(lastError := Some(Unflattenable(c))))
  }

  function OnFailure(c: Context, e: WorkflowError, phase: string, retry: State): Machine {
    var noted := c.(lastError := Some(e));
    if e.phase == phase && e.retryable && Retries(c, retry) then Machine(retry, noted.(attempts := Bump(c.attempts, retry)))
    else Machine(Failed, noted)
  }

  /** One event; an event the state does not listen to changes nothing. */
  function Next(m: Machine, e: Event): Machine {
    var c := m.ctx;
    match (m.state, e)
    case (Idle, KillRequested(productId, prefix, canControl, canTrade)) =>
      if canControl && NonBlank(productId) && NonBlank(prefix) then
        Machine(CancellingOrders, c.(productId := Some(productId), prefix := Some(prefix), canControl := canControl,
                                     canTrade := canTrade, lastError := None, attempts := NO_ATTEMPTS))
      else
        Machine(Failed, c.(lastError := Some(WorkflowError("cancellation",
          if !canControl then "CONTROL_PERMISSION_REQUIRED" else "INVALID_RESPONSE", false))))
    case (CancellingOrders, OrdersCleared) => Machine(ReconcilingPosition, c)
    case (CancellingOrders, OperationFailed(error)) => OnFailure(c, error, "cancellation", RetryingCancellation)
    case (RetryingCancellation, RetryTimerElapsed) => Machine(CancellingOrders, c)
    case (ReconcilingPosition, AccountReconciled(a)) => OnAccount(c, a, RetryingReconciliation)
    case (ReconcilingPosition, OperationFailed(error)) => OnFailure(c, error, "reconciliation", RetryingReconciliation)
    case (RetryingReconciliation, RetryTimerElapsed) => Machine(ReconcilingPosition, c)
    case (FlatteningPosition, FlattenConfirmed) => Machine(VerifyingFlat, c.(outcomeUnknown := false))
    case (FlatteningPosition, FlattenOutcomeUnknown) => Machine(VerifyingFlat, c.(outcomeUnknown := true))
    case (FlatteningPosition, FlattenRejected(error)) =>
      var noted := c.(lastError := Some(error));
      if error.retryable && c.attempts.flatten < c.limits.flatten then Machine(ReconcilingPosition, noted) else Machine(Failed, noted)
    case (VerifyingFlat, AccountReconciled(a)) => OnAccount(c, a, RetryingVerification)
    case (VerifyingFlat, OperationFailed(error)) => OnFailure(c, error, "reconciliation", RetryingVerification)
    case (RetryingVerification, RetryTimerElapsed) => Machine(VerifyingFlat, c)
    case _ => m
  }

  // ---- How long it can run

  function Rank(s: State): nat {
    match s
    case Idle => 4
    case RetryingCancellation => 4
    case CancellingOrders => 3
    case RetryingReconciliation => 3
    case FlatteningPosition => 3
    case ReconcilingPosition => 2
    case RetryingVerification => 2
    case VerifyingFlat => 1
    case Completed => 0
    case Failed => 0
  }

  ghost predicate WithinLimits(c: Context) {
    && c.attempts.cancellation <= c.limits.cancellation && c.attempts.reconciliation <= c.limits.reconciliation
    && c.attempts.flatten <= c.limits.flatten && c.attempts.verification <= c.limits.verification
  }

  /** What is left to run: two steps per remaining retry, three per remaining flatten, and the phase. */
  function Fuel(m: Machine): int {
    var l, a := m.ctx.limits, m.ctx.attempts;
    2 * (l.cancellation - a.cancellation + l.reconciliation - a.reconciliation + l.verification - a.verification)
    + 3 * (l.flatten - a.flatten) + Rank(m.state)
  }

  predicate ShowsOpenOrders(e: Event) {
    e.AccountReconciled? && HasOpenOrders(e.account)
  }

  /** Every accepted event burns fuel, except a snapshot with open orders, which may add two; the
      attempts never exceed their limits. */
  lemma EventsBurnFuel(m: Machine, e: Event)
    requires WithinLimits(m.ctx) && (m.state == Idle ==> m.ctx.attempts == NO_ATTEMPTS)
    ensures WithinLimits(Next(m, e).ctx) && Fuel(Next(m, e)) >= 0
    ensures Next(m, e).ctx.limits == m.ctx.limits
    ensures Next(m, e) == m || Next(m, e).state != Idle
    ensures Next(m, e) == m || ShowsOpenOrders(e) || Fuel(Next(m, e)) < Fuel(m)
    ensures Fuel(Next(m, e)) <= Fuel(m) + 2
    ensures m.ctx.attempts.flatten <= Next(m, e).ctx.attempts.flatten || m.state == Idle
  {
    hide NonBlank;
    hide OnAccount;
    hide OnFailure;
    match e
    case AccountReconciled(a) =>
      if m.state == ReconcilingPosition {
        AccountBurnsFuel(m, a, RetryingReconciliation);
      } else if m.state == VerifyingFlat {
        AccountBurnsFuel(m, a, RetryingVerification);
      }
    case OperationFailed(error) =>
      FailureBurnsFuel(m, error, "cancellation", RetryingCancellation);
      FailureBurnsFuel(m, error, "reconciliation", RetryingReconciliation);
      FailureBurnsFuel(m, error, "reconciliation", RetryingVerification);
    case _ =>
  }

  lemma AccountBurnsFuel(m: Machine, a: Account, retry: State)
    requires WithinLimits(m.ctx)
    requires Paired(m.state, retry) && m.state != CancellingOrders
    ensures var n := OnAccount(m.ctx, a, retry);
            && WithinLimits(n.ctx) && n.ctx.limits == m.ctx.limits && n.state != Idle
            && m.ctx.attempts.flatten <= n.ctx.attempts.flatten
            && 0 <= Fuel(n) <= Fuel(m) + 2 && (HasOpenOrders(a) || Fuel(n) < Fuel(m))
  {
    hide Valid;
    hide HasOpenOrders;
    hide Flat;
    hide Held;
    hide CanFlatten;
    if CanFlatten(m.ctx, a) {
      FlatteningIsBudgeted(m.ctx, a);
    }
  }

  lemma FlatteningIsBudgeted(c: Context, a: Account)
    requires CanFlatten(c, a)
    ensures c.attempts.flatten < c.limits.flatten && !c.outcomeUnknown && a.openOrderCount == 0
    ensures a.dust < a.available <= a.total + a.dust
  {
  }

  lemma FailureBurnsFuel(m: Machine, e: WorkflowError, phase: string, retry: State)
    requires WithinLimits(m.ctx)
    ensures var n := OnFailure(m.ctx, e, phase, retry);
            && WithinLimits(n.ctx) && n.ctx.limits == m.ctx.limits && n.state != Idle
            && m.ctx.attempts.flatten <= n.ctx.attempts.flatten
            && (Paired(m.state, retry) ==> 0 <= Fuel(n) < Fuel(m))
  {
  }

  predicate Paired(s: State, retry: State) {
    || (s == CancellingOrders && retry == RetryingCancellation)
    || (s == ReconcilingPosition && retry == RetryingReconciliation)
    || (s == VerifyingFlat && retry == RetryingVerification)
  }

  // ---- What bounds a run of the machine

  function After(m: Machine, events: seq<Event>): Machine
    decreases |events|
  {
    if events == [] then m else After(Next(m, events[0]), events[1..])
  }

  /** Every event of the run is accepted: it changes the machine. */
  ghost predicate Accepted(m: Machine, events: seq<Event>)
    decreases |events|
  {
    events == [] || (Next(m, events[0]) != m && Accepted(Next(m, events[0]), events[1..]))
  }

  /** How many snapshots of the run show open orders. */
  function Shown(events: seq<Event>): nat {
    if events == [] then 0 else (if ShowsOpenOrders(events[0]) then 1 else 0) + Shown(events[1..])
  }

  /** Each snapshot with open orders pays for at most three events; everything else is paid by the fuel. */
  lemma {:induction false} OnlyOpenOrdersProlong(m: Machine, events: seq<Event>)
    requires WithinLimits(m.ctx) && m.state != Idle && Fuel(m) >= 0 && Accepted(m, events)
    ensures |events| <= Fuel(m) + 3 * Shown(events)
    decreases |events|
  {
    hide Next;
    hide Fuel;
    hide ShowsOpenOrders;
    if events != [] {
      EventsBurnFuel(m, events[0]);
      OnlyOpenOrdersProlong(Next(m, events[0]), events[1..]);
    }
  }

  /** Round and round: cancel, reconcile, find an order again. */
  function Rounds(a: Account, n: nat): seq<Event> {
    if n == 0 then [] else [OrdersCleared, AccountReconciled(a)] + Rounds(a, n - 1)
  }

  lemma {:induction false} RoundsAreAccepted(m: Machine, a: Account, n: nat)
    requires m.state == CancellingOrders && HasOpenOrders(a)
    ensures Accepted(m, Rounds(a, n)) && |Rounds(a, n)| == 2 * n && Shown(Rounds(a, n)) == n
    decreases n
  {
    if n > 0 {
      var rest := Rounds(a, n - 1);
      var waiting := Next(m, OrdersCleared);
      var back := Next(waiting, AccountReconciled(a));
      RoundsAreAccepted(back, a, n - 1);
      var events := Rounds(a, n);
      assert events[0] == OrdersCleared && events[1..] == [AccountReconciled(a)] + rest;
      assert events[1..][0] == AccountReconciled(a) && events[1..][1..] == rest;
      assert Accepted(waiting, events[1..]);
    }
  }

  /** An allowance of snapshots with open orders bounds the accepted runs if and only if it is finite: from
      any cancelling state, k of them allow at most Fuel + 3k events, and every k allows 2k. */
  lemma RunsAreBoundedByOpenOrders(m: Machine, events: seq<Event>, a: Account, k: nat)
    requires WithinLimits(m.ctx) && m.state == CancellingOrders && HasOpenOrders(a)
    ensures Accepted(m, events) && Shown(events) <= k ==> |events| <= Fuel(m) + 3 * k
    ensures exists longer :: Accepted(m, longer) && Shown(longer) == k && |longer| == 2 * k
  {
    FuelIsPositive(m);
    if Accepted(m, events) {
      OnlyOpenOrdersProlong(m, events);
    }
    RoundsAreAccepted(m, a, k);
  }

  lemma FuelIsPositive(m: Machine)
    requires WithinLimits(m.ctx)
    ensures Fuel(m) >= 0
  {
  }

  // ---- The driver

  /** What the venue answers to the effect of one step. */
  datatype Reply = Reply(cleared: Result<()>, clearError: WorkflowError, account: Result<Account>, accountError: WorkflowError, flatten: FlattenReply)

  datatype FlattenReply = Confirmed | Unknown | Refused(error: WorkflowError)

  const MAX_CONTROL_STEPS := 64

  /** The event the driver sends in a state, given the venue's answer. */
  function Send(m: Machine, lastAccount: Option<Account>, r: Reply): Event {
    match m.state
    case CancellingOrders => if r.cleared.Ok? then OrdersCleared else OperationFailed(r.clearError)
    case ReconcilingPosition => if r.account.Ok? then AccountReconciled(r.account.value) else OperationFailed(r.accountError)
    case VerifyingFlat => if r.account.Ok? then AccountReconciled(r.account.value) else OperationFailed(r.accountError)
    case FlatteningPosition =>
      if lastAccount.None? || m.ctx.flattenQuantity.None? || m.ctx.prefix.None?
      then FlattenRejected(WorkflowError("execution", "INVALID_RESPONSE", false))
      else
        (match r.flatten
         case Confirmed => FlattenConfirmed
         case Unknown => FlattenOutcomeUnknown
         case Refused(error) => FlattenRejected(error))
    case _ => RetryTimerElapsed
  }

  datatype KillResult = Done(account: Account) | Error(error: WorkflowError)

  predicate Final(s: State) {
    s == Completed || s == Failed
  }

  lemma DriverEventIsAccepted(m: Machine, lastAccount: Option<Account>, r: Reply)
    requires m.state != Idle && !Final(m.state)
    ensures Next(m, Send(m, lastAccount, r)).state != m.state
  {
    hide NonBlank;
  }

  /** How many of the first n answers show an open order. */
  function OpenAnswers(venue: seq<Reply>, n: nat): nat
    requires n <= |venue|
  {
    if n == 0 then 0 else OpenAnswers(venue, n - 1) + if ShowsOrder(venue[n - 1]) then 1 else 0
  }

  predicate ShowsOrder(r: Reply) {
    r.account.Ok? && HasOpenOrders(r.account.value)
  }

  function Started(productId: string, prefix: string, canControl: bool, canTrade: bool): Machine {
    Next(Create(DEFAULT_LIMITS), KillRequested(productId, prefix, canControl, canTrade))
  }

  /** The machine after n answers, and the last account that was read. */
  datatype Driven = Driven(m: Machine, last: Option<Account>)

  function Drive(start: Machine, venue: seq<Reply>, n: nat): Driven
    requires n <= |venue|
  {
    if n == 0 then Driven(start, None) else Answered(Drive(start, venue, n - 1), venue[n - 1])
  }

  function Answered(d: Driven, r: Reply): Driven {
    if d.m.state == Idle || Final(d.m.state) then d
    else
      var event := Send(d.m, d.last, r);
      Driven(Next(d.m, event), if event.AccountReconciled? then Some(event.account) else d.last)
  }

  function Report(d: Driven): KillResult {
    if d.m.state == Completed then if d.last.None? then Error(INVALID_ACCOUNT) else Done(d.last.value)
    else Error(if d.m.ctx.lastError.Some? then d.m.ctx.lastError.value else HELD_QUANTITY.(retryable := false))
  }

  /** The step loop.  It reports the first final state it finds at the head of a step, or fails at the cap.
      Success means the last account read was flat with no open order; and k answers that show an open
      order allow at most 31 + 3k steps, so that the cap takes at least eleven of them. */
  method ExecuteKill(supported: bool, productId: string, prefix: string, canControl: bool, canTrade: bool, venue: seq<Reply>)
    returns (r: KillResult, ghost steps: nat, ghost capped: bool)
    requires |venue| >= MAX_CONTROL_STEPS
    ensures r.Done? ==> Flat(r.account)
    ensures steps <= MAX_CONTROL_STEPS
    ensures steps <= 31 + 3 * OpenAnswers(venue, steps)
    ensures capped ==> steps == MAX_CONTROL_STEPS && OpenAnswers(venue, steps) >= 11
    ensures capped ==> r == Error(WorkflowError("reconciliation", "RECONCILIATION_FAILURE", false))
    ensures capped <==> supported && !Final(Drive(Started(productId, prefix, canControl, canTrade), venue, MAX_CONTROL_STEPS - 1).m.state)
    ensures supported && !capped ==>
              var d := Drive(Started(productId, prefix, canControl, canTrade), venue, steps); Final(d.m.state) && r == Report(d)
  {
    hide Next;
    hide Fuel;
    hide NonBlank;
    hide HasOpenOrders;
    hide Flat;
    hide Send;
    steps, capped := 0, false;
    if !supported {
      return Error(INVALID_ACCOUNT), 0, false;
    }
    ghost var start := Started(productId, prefix, canControl, canTrade);
    var m := Next(Create(DEFAULT_LIMITS), KillRequested(productId, prefix, canControl, canTrade));
    var lastAccount: Option<Account> := None;
    StartOfKill(productId, prefix, canControl, canTrade);
    var step := 0;
    while step < MAX_CONTROL_STEPS
      invariant 0 <= step <= MAX_CONTROL_STEPS && steps == step
      invariant WithinLimits(m.ctx) && m.state != Idle && Fuel(m) >= 0
      invariant Fuel(m) + step <= 31 + 3 * OpenAnswers(venue, step)
      invariant m.state == Completed ==> lastAccount.Some? && Flat(lastAccount.value)
      invariant Drive(start, venue, step) == Driven(m, lastAccount)
      invariant step > 0 ==> !Final(Drive(start, venue, step - 1).m.state)
    {
      if m.state == Completed {
        StaysFinal(start, venue, step, MAX_CONTROL_STEPS - 1);
        return if lastAccount.None? then Error(INVALID_ACCOUNT) else Done(lastAccount.value), steps, false;
      }
      if m.state == Failed {
        StaysFinal(start, venue, step, MAX_CONTROL_STEPS - 1);
        return Error(if m.ctx.lastError.Some? then m.ctx.lastError.value else HELD_QUANTITY.(retryable := false)), steps, false;
      }
      var reply := venue[step];
      var event := Send(m, lastAccount, reply);
      EventsBurnFuel(m, event);
      DriverEventIsAccepted(m, lastAccount, reply);
      SendFollowsTheAnswer(m, lastAccount, reply);
      SendDependsOnPresence(m, event, reply);
      if event.AccountReconciled? {
        lastAccount := Some(event.account);
      }
      m := Next(m, event);
      step := step + 1;
      steps := step;
    }
    return Error(WorkflowError("reconciliation", "RECONCILIATION_FAILURE", false)), steps, true;
  }

  lemma StartOfKill(productId: string, prefix: string, canControl: bool, canTrade: bool)
    ensures var m := Next(Create(DEFAULT_LIMITS), KillRequested(productId, prefix, canControl, canTrade));
            && WithinLimits(m.ctx) && (m.state == CancellingOrders || m.state == Failed) && 0 <= Fuel(m) <= 31
  {
  }

  lemma SendDependsOnPresence(m: Machine, e: Event, r: Reply)
    requires m.state != Idle && !Final(m.state)
    requires e.AccountReconciled? ==> r.account == Ok(e.account)
    ensures Next(m, e).state == Completed ==> e.AccountReconciled? && Flat(e.account)
    ensures ShowsOpenOrders(e) ==> r.account.Ok? && HasOpenOrders(r.account.value)
  {
  }

  lemma SendFollowsTheAnswer(m: Machine, last: Option<Account>, r: Reply)
    ensures Send(m, last, r).AccountReconciled? ==> r.account == Ok(Send(m, last, r).account)
  {
  }

  lemma {:induction false} StaysFinal(start: Machine, venue: seq<Reply>, k: nat, n: nat)
    requires k <= n <= |venue| && Final(Drive(start, venue, k).m.state)
    ensures Drive(start, venue, n) == Drive(start, venue, k)
  {
    hide Answered;
    if k < n {
      StaysFinal(start, venue, k, n - 1);
      FinalAnswersNothing(Drive(start, venue, n - 1), venue[n - 1]);
    }
  }

  lemma FinalAnswersNothing(d: Driven, r: Reply)
    requires Final(d.m.state)
    ensures Answered(d, r) == d
  {
  }

  /** Orders that keep reappearing hold the loop to its cap: on a venue that confirms every cancellation
      and shows an open order in every account it is never final. */
  lemma {:induction false} ReappearingOrdersReachTheCap(productId: string, prefix: string, canTrade: bool, venue: seq<Reply>, n: nat)
    requires NonBlank(productId) && NonBlank(prefix) && n <= |venue|
    requires forall i :: 0 <= i < |venue| ==> venue[i].cleared.Ok? && ShowsOrder(venue[i])
    ensures Drive(Started(productId, prefix, true, canTrade), venue, n).m.state
            == if n % 2 == 0 then CancellingOrders else ReconcilingPosition
  {
    hide NonBlank;
    hide HasOpenOrders;
    if n > 0 {
      ReappearingOrdersReachTheCap(productId, prefix, canTrade, venue, n - 1);
      OpenAnswerTurns(Drive(Started(productId, prefix, true, canTrade), venue, n - 1), venue[n - 1]);
    }
  }

  lemma OpenAnswerTurns(d: Driven, r: Reply)
    requires r.cleared.Ok? && ShowsOrder(r)
    ensures d.m.state == CancellingOrders ==> Answered(d, r).m.state == ReconcilingPosition
    ensures d.m.state == ReconcilingPosition ==> Answered(d, r).m.state == CancellingOrders
  {
  }

  const OPEN_ACCOUNT := Account("snapshot", 1.0, 1.0, 0.1, 1)
  const NO_ERROR := WorkflowError("", "", false)
  const OPEN_REPLY := Reply(Ok(()), NO_ERROR, Ok(OPEN_ACCOUNT), NO_ERROR, Unknown)

  /** Sixty-four such answers, on which the loop ends at its cap. */
  method CapIsReached() returns (r: KillResult, ghost steps: nat, ghost capped: bool)
    ensures capped && steps == MAX_CONTROL_STEPS && r.Error?
  {
    hide Drive;
    hide NonBlank;
    SomeNames();
    var venue := seq(MAX_CONTROL_STEPS, i => OPEN_REPLY);
    ReappearingOrdersReachTheCap("BTC-USD", "kill", true, venue, MAX_CONTROL_STEPS - 1);
    r, steps, capped := ExecuteKill(true, "BTC-USD", "kill", true, true, venue);
  }

  lemma SomeNames()
    ensures NonBlank("BTC-USD") && NonBlank("kill") && NonBlank("snapshot") && HasOpenOrders(OPEN_ACCOUNT)
  {
    assert "BTC-USD"[0] == 'B' && "kill"[0] == 'k' && "snapshot"[0] == 's';
  }
}
