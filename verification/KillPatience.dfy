/** What the kill switch puts up with: which answers it retries, which it gives up on, and how it ends. */
module KillPatience {
  import opened Basics
  import opened KillSwitch

  /** An event, and the state that heard it. */
  datatype Heard = Heard(state: State, event: Event)

  datatype Story = Story(m: Machine, trail: seq<Heard>)

  function Hear(s: Story, e: Event): Story {
    Story(Next(s.m, e), if Next(s.m, e) == s.m then s.trail else s.trail + [Heard(s.m.state, e)])
  }

  /** The story of a kill over the events it is told. */
  function Told(limits: Limits, events: seq<Event>): Story {
    if events == [] then Story(Create(limits), [])
    else Hear(Told(limits, events[..|events| - 1]), events[|events| - 1])
  }

  // ---- What has been heard

  datatype Kind = Cancelling | Reconciling | Verifying | Flattening

  /** A refused cancellation, a read that failed or showed quantity still held, or any answer to a flatten. */
  predicate Spends(h: Heard, k: Kind) {
    match k
    case Cancelling => h.state == CancellingOrders && h.event.OperationFailed?
    case Reconciling => h.state == ReconcilingPosition && Unhelpful(h.event)
    case Verifying => h.state == VerifyingFlat && Unhelpful(h.event)
    case Flattening => h.state == FlatteningPosition
  }

  predicate Unhelpful(e: Event) {
    e.OperationFailed? || (e.AccountReconciled? && Legible(e.account) && e.account.openOrderCount == 0 && StillHeld(e.account))
  }

  /** A snapshot that makes sense: named, with amounts that are not negative, and no more free than there is. */
  predicate Legible(a: Account) {
    && NonBlank(a.snapshotId) && a.total >= 0.0 && a.available >= 0.0 && a.dust > 0.0
    && 0 <= a.openOrderCount <= 9_007_199_254_740_991 && a.available <= a.total + a.dust
  }

  /** More than dust, of which too little is free, or too much is not. */
  predicate StillHeld(a: Account) {
    a.total > a.dust && (a.available <= a.dust || a.total - a.available > a.dust)
  }

  lemma AccountsRead(a: Account)
    ensures Valid(a) <==> Legible(a)
    ensures Held(a) <==> Legible(a) && a.openOrderCount == 0 && StillHeld(a)
    ensures Legible(a) && a.openOrderCount == 0 && a.total > a.dust && !StillHeld(a) ==>
              a.available > a.dust && a.total - a.available <= a.dust
  {
  }

  datatype Spent = Spent(cancelling: nat, reconciling: nat, verifying: nat, flattening: nat)

  function One(h: Heard, k: Kind): nat {
    if Spends(h, k) then 1 else 0
  }

  function More(t: Spent, h: Heard): Spent {
    Spent(t.cancelling + One(h, Cancelling), t.reconciling + One(h, Reconciling), t.verifying + One(h, Verifying),
          t.flattening + One(h, Flattening))
  }

  function Count(trail: seq<Heard>): Spent {
    if trail == [] then Spent(0, 0, 0, 0) else More(Count(trail[..|trail| - 1]), trail[|trail| - 1])
  }

  lemma CountGrows(trail: seq<Heard>, h: Heard)
    ensures Count(trail + [h]) == More(Count(trail), h)
  {
    assert (trail + [h])[..|trail + [h]| - 1] == trail;
  }

  /** A flatten was sent whose outcome nobody knows. */
  predicate InDoubt(trail: seq<Heard>) {
    exists i :: 0 <= i < |trail| && trail[i].event.FlattenOutcomeUnknown?
  }

  lemma DoubtGrows(trail: seq<Heard>, h: Heard)
    ensures InDoubt(trail + [h]) <==> InDoubt(trail) || h.event.FlattenOutcomeUnknown?
  {
    if InDoubt(trail) {
      var i :| 0 <= i < |trail| && trail[i].event.FlattenOutcomeUnknown?;
      assert (trail + [h])[i].event.FlattenOutcomeUnknown?;
    }
    assert (trail + [h])[|trail|] == h;
  }

  /** The counters of the machine count what was heard; the doubt of the machine is the one of the story. */
  ghost predicate Accounted(m: Machine, heard: Spent, doubt: bool) {
    !Final(m.state) ==>
      && m.ctx.attempts == Limits(heard.cancelling, heard.reconciling,
                                  heard.flattening + (if m.state == FlatteningPosition then 1 else 0), heard.verifying)
      && m.ctx.outcomeUnknown == doubt
      && (m.state == FlatteningPosition ==> !doubt)
      && (m.state == Idle ==> heard == Spent(0, 0, 0, 0) && !doubt)
  }

  lemma NextAccounts(m: Machine, e: Event, heard: Spent, doubt: bool)
    requires Accounted(m, heard, doubt) && Next(m, e) != m
    ensures Accounted(Next(m, e), More(heard, Heard(m.state, e)), doubt || e.FlattenOutcomeUnknown?)
  {
    hide NonBlank;
    if e.AccountReconciled? {
      AccountsRead(e.account);
    }
    hide Valid;
    hide Legible;
    hide StillHeld;
  }

  lemma {:induction false} EveryStoryAccounts(limits: Limits, events: seq<Event>)
    ensures var s := Told(limits, events); Accounted(s.m, Count(s.trail), InDoubt(s.trail)) && s.m.ctx.limits == limits
  {
    hide Next;
    hide Accounted;
    if events == [] {
      NothingHeard(limits);
    } else {
      var before, e := Told(limits, events[..|events| - 1]), events[|events| - 1];
      EveryStoryAccounts(limits, events[..|events| - 1]);
      if Next(before.m, e) != before.m {
        NextAccounts(before.m, e, Count(before.trail), InDoubt(before.trail));
        CountGrows(before.trail, Heard(before.m.state, e));
        DoubtGrows(before.trail, Heard(before.m.state, e));
        LimitsStand(before.m, e);
      }
    }
  }

  lemma NothingHeard(limits: Limits)
    ensures Accounted(Create(limits), Count([]), InDoubt([]))
  {
  }

  lemma LimitsStand(m: Machine, e: Event)
    ensures Next(m, e).ctx.limits == m.ctx.limits
  {
    hide NonBlank;
    hide Valid;
  }

  // ---- Exactly what it retries, and what it gives up on

  /** Where a failed operation leads when so many of its kind were spent before. */
  function AfterFailure(e: WorkflowError, phase: string, spent: nat, limit: nat, retry: State): State {
    if e.phase == phase && e.retryable && spent < limit then retry else Failed
  }

  /** Where an account leads: quantity still held is waited for; everything free is sold unless an earlier
      flatten is in doubt or the flattens are used up. */
  function AfterRead(a: Account, doubt: bool, flattened: nat, flattens: nat, spent: nat, limit: nat, retry: State): State {
    if !Legible(a) then Failed
    else if a.openOrderCount > 0 then CancellingOrders
    else if a.total <= a.dust then Completed
    else if StillHeld(a) then if spent < limit then retry else Failed
    else if doubt || flattened >= flattens then Failed
    else FlatteningPosition
  }

  /** The next state as a function of the story so far and the event alone. */
  function Answer(s: State, e: Event, heard: Spent, doubt: bool, l: Limits): State {
    match (s, e)
    case (CancellingOrders, OrdersCleared) => ReconcilingPosition
    case (CancellingOrders, OperationFailed(error)) =>
      AfterFailure(error, "cancellation", heard.cancelling, l.cancellation, RetryingCancellation)
    case (ReconcilingPosition, OperationFailed(error)) =>
      AfterFailure(error, "reconciliation", heard.reconciling, l.reconciliation, RetryingReconciliation)
    case (VerifyingFlat, OperationFailed(error)) =>
      AfterFailure(error, "reconciliation", heard.verifying, l.verification, RetryingVerification)
    case (ReconcilingPosition, AccountReconciled(a)) =>
      AfterRead(a, doubt, heard.flattening, l.flatten, heard.reconciling, l.reconciliation, RetryingReconciliation)
    case (VerifyingFlat, AccountReconciled(a)) =>
      AfterRead(a, doubt, heard.flattening, l.flatten, heard.verifying, l.verification, RetryingVerification)
    case (FlatteningPosition, FlattenConfirmed) => VerifyingFlat
    case (FlatteningPosition, FlattenOutcomeUnknown) => VerifyingFlat
    case (FlatteningPosition, FlattenRejected(error)) =>
      if error.retryable && heard.flattening + 1 < l.flatten then ReconcilingPosition else Failed
    case (RetryingCancellation, RetryTimerElapsed) => CancellingOrders
    case (RetryingReconciliation, RetryTimerElapsed) => ReconcilingPosition
    case (RetryingVerification, RetryTimerElapsed) => VerifyingFlat
    case _ => s
  }

  lemma NextAnswers(m: Machine, e: Event, heard: Spent, doubt: bool)
    requires Accounted(m, heard, doubt) && m.state != Idle
    ensures Next(m, e).state == Answer(m.state, e, heard, doubt, m.ctx.limits)
  {
    hide NonBlank;
    if e.AccountReconciled? {
      AccountsRead(e.account);
    }
    hide Legible;
    hide StillHeld;
  }

  /** In every story the kill goes on exactly as long as this says: a wrong phase, an error that is not
      retryable, one failure more than the limit, an invalid account, quantity held once too often, or a
      balance that may not be sold again ends it in failure, and nothing else does. */
  lemma GivesUpExactly(limits: Limits, events: seq<Event>, e: Event)
    requires Told(limits, events).m.state != Idle
    ensures var s := Told(limits, events);
            Next(s.m, e).state == Answer(s.m.state, e, Count(s.trail), InDoubt(s.trail), limits)
  {
    hide Next;
    hide Accounted;
    EveryStoryAccounts(limits, events);
    var s := Told(limits, events);
    NextAnswers(s.m, e, Count(s.trail), InDoubt(s.trail));
  }

  /** The error of a failure: the one of the operation, or what the account was like. */
  function Blame(s: State, e: Event, doubt: bool): WorkflowError {
    match e
    case OperationFailed(error) => error
    case FlattenRejected(error) => error
    case AccountReconciled(a) =>
      if !Legible(a) then INVALID_ACCOUNT
      else if StillHeld(a) then WorkflowError("reconciliation", "RECONCILIATION_FAILURE", false)
      else WorkflowError("execution", if doubt then "ORDER_OUTCOME_UNKNOWN" else "ORDER_REJECTED", false)
    case _ => INVALID_ACCOUNT
  }

  /** A kill that gives up says why; one that goes on to sell sells what the account shows as available. */
  lemma FailuresAreBlamed(limits: Limits, events: seq<Event>, e: Event)
    requires Told(limits, events).m.state != Idle && !Final(Told(limits, events).m.state)
    ensures var s := Told(limits, events);
            var n := Next(s.m, e);
            && (n.state == Failed ==> n.ctx.lastError == Some(Blame(s.m.state, e, InDoubt(s.trail))))
            && (n.state == FlatteningPosition && n != s.m ==> e.AccountReconciled? && n.ctx.flattenQuantity == Some(e.account.available))
            && (n.state == Completed ==> e.AccountReconciled? && n.ctx.account == Some(e.account))
  {
    hide Accounted;
    hide NonBlank;
    EveryStoryAccounts(limits, events);
    var s := Told(limits, events);
    DoubtIsKept(s.m, Count(s.trail), InDoubt(s.trail));
    BlameOf(s.m, e);
  }

  lemma DoubtIsKept(m: Machine, heard: Spent, doubt: bool)
    requires Accounted(m, heard, doubt) && !Final(m.state)
    ensures m.ctx.outcomeUnknown == doubt
  {
  }

  /** A kill is taken on exactly with control permission and names, and then for that product under that prefix;
      otherwise it fails, saying which of these it lacked. */
  lemma KillsAreTakenOn(limits: Limits, productId: string, prefix: string, canControl: bool, canTrade: bool)
    ensures var n := Next(Create(limits), KillRequested(productId, prefix, canControl, canTrade));
            && n.ctx.limits == limits && n.ctx.attempts == Limits(0, 0, 0, 0) && !n.ctx.outcomeUnknown
            && if canControl && NonBlank(productId) && NonBlank(prefix)
               then && n.state == CancellingOrders && n.ctx.productId == Some(productId) && n.ctx.prefix == Some(prefix)
                    && n.ctx.canControl && n.ctx.canTrade == canTrade && n.ctx.lastError.None?
               else && n.state == Failed
                    && n.ctx.lastError == Some(WorkflowError("cancellation", if canControl then "INVALID_RESPONSE" else "CONTROL_PERMISSION_REQUIRED", false))
  {
    hide NonBlank;
  }

  lemma BlameOf(m: Machine, e: Event)
    requires m.state != Idle && !Final(m.state)
    ensures var n := Next(m, e);
            && (n.state == Failed ==> n.ctx.lastError == Some(Blame(m.state, e, m.ctx.outcomeUnknown)))
            && (n.state == FlatteningPosition && n != m ==> e.AccountReconciled? && n.ctx.flattenQuantity == Some(e.account.available))
            && (n.state == Completed ==> e.AccountReconciled? && n.ctx.account == Some(e.account))
  {
    hide NonBlank;
    if e.AccountReconciled? {
      AccountsRead(e.account);
    }
    hide Legible;
    hide StillHeld;
  }

  // ---- Patience rewarded

  /** The driver over some answers, from wherever it is. */
  function DriveOn(d: Driven, venue: seq<Reply>): Driven {
    if venue == [] then d else Answered(DriveOn(d, venue[..|venue| - 1]), venue[|venue| - 1])
  }

  lemma {:induction false} DriveIsDriveOn(start: Machine, venue: seq<Reply>, n: nat)
    requires n <= |venue|
    ensures Drive(start, venue, n) == DriveOn(Driven(start, None), venue[..n])
  {
    hide Answered;
    if n > 0 {
      DriveIsDriveOn(start, venue, n - 1);
      assert venue[..n][..n - 1] == venue[..n - 1];
    }
  }

  lemma {:induction false} DriveJoins(d: Driven, a: seq<Reply>, b: seq<Reply>)
    ensures DriveOn(d, a + b) == DriveOn(DriveOn(d, a), b)
  {
    hide Answered;
    if b == [] {
      assert a + b == a;
    } else {
      DriveJoins(d, a, b[..|b| - 1]);
      assert (a + b)[..|a + b| - 1] == a + b[..|b| - 1];
    }
  }

  /** The same answer twice over, n times: once for the operation, once for the timer, which heeds none. */
  function Twice(r: Reply, n: nat): seq<Reply> {
    if n == 0 then [] else Twice(r, n - 1) + [r, r]
  }

  lemma DriveTwo(d: Driven, r: Reply)
    ensures DriveOn(d, [r, r]) == Answered(Answered(d, r), r)
  {
    hide Answered;
    assert [r, r][..1] == [r] && [r][..0] == [];
    assert DriveOn(d, []) == d;
    assert DriveOn(d, [r]) == Answered(d, r);
  }

  lemma DriveOne(d: Driven, r: Reply)
    ensures DriveOn(d, [r]) == Answered(d, r)
  {
    hide Answered;
    assert [r][..0] == [] && DriveOn(d, []) == d;
  }

  predicate CancellationFails(r: Reply) {
    r.cleared.Fail? && r.clearError.phase == "cancellation" && r.clearError.retryable
  }

  predicate ReadFails(r: Reply) {
    r.account.Fail? && r.accountError.phase == "reconciliation" && r.accountError.retryable
  }

  lemma CancellationRefused(d: Driven, r: Reply)
    requires d.m.state == CancellingOrders && CancellationFails(r) && d.m.ctx.attempts.cancellation < d.m.ctx.limits.cancellation
    ensures var t := Answered(Answered(d, r), r);
            && t.m.state == CancellingOrders && t.last == d.last
            && t.m.ctx == d.m.ctx.(attempts := d.m.ctx.attempts.(cancellation := d.m.ctx.attempts.cancellation + 1), lastError := t.m.ctx.lastError)
  {
  }

  lemma {:induction false} CancellationsAreRetried(d: Driven, r: Reply, n: nat)
    requires d.m.state == CancellingOrders && CancellationFails(r)
    requires d.m.ctx.attempts.cancellation + n <= d.m.ctx.limits.cancellation
    ensures var t := DriveOn(d, Twice(r, n));
            && t.m.state == CancellingOrders && t.last == d.last
            && t.m.ctx == d.m.ctx.(attempts := d.m.ctx.attempts.(cancellation := d.m.ctx.attempts.cancellation + n), lastError := t.m.ctx.lastError)
  {
    hide Answered;
    if n > 0 {
      CancellationsAreRetried(d, r, n - 1);
      DriveJoins(d, Twice(r, n - 1), [r, r]);
      DriveTwo(DriveOn(d, Twice(r, n - 1)), r);
      CancellationRefused(DriveOn(d, Twice(r, n - 1)), r);
    }
  }

  lemma ReadRefused(d: Driven, r: Reply)
    requires d.m.state == ReconcilingPosition && ReadFails(r) && d.m.ctx.attempts.reconciliation < d.m.ctx.limits.reconciliation
    ensures var t := Answered(Answered(d, r), r);
            && t.m.state == ReconcilingPosition && t.last == d.last
            && t.m.ctx == d.m.ctx.(attempts := d.m.ctx.attempts.(reconciliation := d.m.ctx.attempts.reconciliation + 1), lastError := t.m.ctx.lastError)
  {
  }

  lemma {:induction false} ReadsAreRetried(d: Driven, r: Reply, n: nat)
    requires d.m.state == ReconcilingPosition && ReadFails(r)
    requires d.m.ctx.attempts.reconciliation + n <= d.m.ctx.limits.reconciliation
    ensures var t := DriveOn(d, Twice(r, n));
            && t.m.state == ReconcilingPosition && t.last == d.last
            && t.m.ctx == d.m.ctx.(attempts := d.m.ctx.attempts.(reconciliation := d.m.ctx.attempts.reconciliation + n), lastError := t.m.ctx.lastError)
  {
    hide Answered;
    if n > 0 {
      ReadsAreRetried(d, r, n - 1);
      DriveJoins(d, Twice(r, n - 1), [r, r]);
      DriveTwo(DriveOn(d, Twice(r, n - 1)), r);
      ReadRefused(DriveOn(d, Twice(r, n - 1)), r);
    }
  }

  lemma VerificationRefused(d: Driven, r: Reply)
    requires d.m.state == VerifyingFlat && ReadFails(r) && d.m.ctx.attempts.verification < d.m.ctx.limits.verification
    ensures var t := Answered(Answered(d, r), r);
            && t.m.state == VerifyingFlat && t.last == d.last
            && t.m.ctx == d.m.ctx.(attempts := d.m.ctx.attempts.(verification := d.m.ctx.attempts.verification + 1), lastError := t.m.ctx.lastError)
  {
  }

  lemma {:induction false} VerificationsAreRetried(d: Driven, r: Reply, n: nat)
    requires d.m.state == VerifyingFlat && ReadFails(r)
    requires d.m.ctx.attempts.verification + n <= d.m.ctx.limits.verification
    ensures var t := DriveOn(d, Twice(r, n));
            && t.m.state == VerifyingFlat && t.last == d.last
            && t.m.ctx == d.m.ctx.(attempts := d.m.ctx.attempts.(verification := d.m.ctx.attempts.verification + n), lastError := t.m.ctx.lastError)
  {
    hide Answered;
    if n > 0 {
      VerificationsAreRetried(d, r, n - 1);
      DriveJoins(d, Twice(r, n - 1), [r, r]);
      DriveTwo(DriveOn(d, Twice(r, n - 1)), r);
      VerificationRefused(DriveOn(d, Twice(r, n - 1)), r);
    }
  }

  predicate Sellable(a: Account) {
    Valid(a) && a.openOrderCount == 0 && a.total > a.dust && a.available > a.dust && a.total - a.available <= a.dust
  }

  /** A venue that refuses a cancellations, b reads and c verifications before it answers each, shows everything
      free, confirms the flatten, and shows the account flat. */
  function Trying(refused: Reply, cleared: Reply, unread: Reply, held: Reply, sold: Reply, flat: Reply, a: nat, b: nat, c: nat): seq<Reply> {
    Twice(refused, a) + [cleared] + Twice(unread, b) + [held] + [sold] + Twice(unread, c) + [flat]
  }

  /** Up to the limits the kill puts up with all of it and completes on the flat account. */
  lemma PatienceIsRewarded(productId: string, prefix: string, canTrade: bool, refused: Reply, cleared: Reply, unread: Reply, held: Reply, sold: Reply,
                           flat: Reply, a: nat, b: nat, c: nat)
    requires NonBlank(productId) && NonBlank(prefix) && a <= 3 && b <= 4 && c <= 4
    requires CancellationFails(refused) && cleared.cleared.Ok? && ReadFails(unread) && held.account.Ok? && Sellable(held.account.value)
    requires sold.flatten.Confirmed? && flat.account.Ok? && Flat(flat.account.value)
    ensures var d := DriveOn(Driven(Started(productId, prefix, true, canTrade), None), Trying(refused, cleared, unread, held, sold, flat, a, b, c));
            d.m.state == Completed && Report(d) == Done(flat.account.value)
  {
    hide NonBlank;
    hide Answered;
    var d0 := Driven(Started(productId, prefix, true, canTrade), None);
    CancellationsAreRetried(d0, refused, a);
    var d1 := DriveOn(d0, Twice(refused, a));
    DriveOne(d1, cleared);
    var d2 := Answered(d1, cleared);
    ClearingAnswers(d1, cleared);
    ReadsAreRetried(d2, unread, b);
    var d3 := DriveOn(d2, Twice(unread, b));
    DriveOne(d3, held);
    SellableAnswers(d3, held);
    var d4 := Answered(d3, held);
    DriveOne(d4, sold);
    SoldAnswers(d4, sold);
    var d5 := Answered(d4, sold);
    VerificationsAreRetried(d5, unread, c);
    var d6 := DriveOn(d5, Twice(unread, c));
    DriveOne(d6, flat);
    FlatAnswers(d6, flat);
    DriveJoins(d0, Twice(refused, a), [cleared]);
    DriveJoins(d0, Twice(refused, a) + [cleared], Twice(unread, b));
    DriveJoins(d0, Twice(refused, a) + [cleared] + Twice(unread, b), [held]);
    DriveJoins(d0, Twice(refused, a) + [cleared] + Twice(unread, b) + [held], [sold]);
    DriveJoins(d0, Twice(refused, a) + [cleared] + Twice(unread, b) + [held] + [sold], Twice(unread, c));
    DriveJoins(d0, Twice(refused, a) + [cleared] + Twice(unread, b) + [held] + [sold] + Twice(unread, c), [flat]);
  }

  lemma ClearingAnswers(d: Driven, r: Reply)
    requires d.m.state == CancellingOrders && r.cleared.Ok?
    ensures Answered(d, r) == Driven(d.m.(state := ReconcilingPosition), d.last)
  {
  }

  lemma SellableAnswers(d: Driven, r: Reply)
    requires d.m.state == ReconcilingPosition && r.account.Ok? && Sellable(r.account.value)
    requires d.m.ctx.attempts.flatten == 0 < d.m.ctx.limits.flatten && !d.m.ctx.outcomeUnknown
    ensures var t := Answered(d, r);
            && t.m.state == FlatteningPosition && t.last == Some(r.account.value) && t.m.ctx.flattenQuantity == Some(r.account.value.available)
            && t.m.ctx.prefix == d.m.ctx.prefix && t.m.ctx.limits == d.m.ctx.limits && t.m.ctx.attempts.verification == d.m.ctx.attempts.verification
  {
    hide NonBlank;
  }

  lemma SoldAnswers(d: Driven, r: Reply)
    requires d.m.state == FlatteningPosition && r.flatten.Confirmed? && d.last.Some? && d.m.ctx.flattenQuantity.Some? && d.m.ctx.prefix.Some?
    ensures var t := Answered(d, r);
            t.m.state == VerifyingFlat && t.m.ctx.limits == d.m.ctx.limits && t.m.ctx.attempts == d.m.ctx.attempts
  {
  }

  lemma FlatAnswers(d: Driven, r: Reply)
    requires d.m.state == VerifyingFlat && r.account.Ok? && Flat(r.account.value)
    ensures Answered(d, r).m.state == Completed && Report(Answered(d, r)) == Done(r.account.value)
  {
    hide NonBlank;
  }

  /** One refusal more than the limit ends it, with the error of that refusal. */
  lemma PatienceEnds(productId: string, prefix: string, canTrade: bool, refused: Reply)
    requires NonBlank(productId) && NonBlank(prefix) && CancellationFails(refused)
    ensures var d := DriveOn(Driven(Started(productId, prefix, true, canTrade), None), Twice(refused, 3) + [refused]);
            d.m.state == Failed && Report(d) == Error(refused.clearError)
  {
    hide NonBlank;
    var d0 := Driven(Started(productId, prefix, true, canTrade), None);
    CancellationsAreRetried(d0, refused, 3);
    DriveJoins(d0, Twice(refused, 3), [refused]);
    DriveOne(DriveOn(d0, Twice(refused, 3)), refused);
  }

  /** The driver itself, on such a venue: it reports success with that account. */
  method PatientKill(productId: string, prefix: string, canTrade: bool, refused: Reply, cleared: Reply, unread: Reply, held: Reply, sold: Reply,
                     flat: Reply, a: nat, b: nat, c: nat)
    returns (r: KillResult, ghost steps: nat, ghost capped: bool)
    requires NonBlank(productId) && NonBlank(prefix) && a <= 3 && b <= 4 && c <= 4
    requires CancellationFails(refused) && cleared.cleared.Ok? && ReadFails(unread) && held.account.Ok? && Sellable(held.account.value)
    requires sold.flatten.Confirmed? && flat.account.Ok? && Flat(flat.account.value)
    ensures r == Done(flat.account.value) && !capped
  {
    hide NonBlank;
    hide Answered;
    hide Started;
    hide CancellationFails;
    hide ReadFails;
    hide Sellable;
    hide Flat;
    var trying := Trying(refused, cleared, unread, held, sold, flat, a, b, c);
    var venue := trying + seq(MAX_CONTROL_STEPS, i => flat);
    TryingIsShort(refused, cleared, unread, held, sold, flat, a, b, c);
    PatienceIsRewarded(productId, prefix, canTrade, refused, cleared, unread, held, sold, flat, a, b, c);
    DriveIsDriveOn(Started(productId, prefix, true, canTrade), venue, |trying|);
    assert venue[..|trying|] == trying;
    StaysFinal(Started(productId, prefix, true, canTrade), venue, |trying|, MAX_CONTROL_STEPS - 1);
    r, steps, capped := ExecuteKill(true, productId, prefix, true, canTrade, venue);
    if steps <= |trying| {
      StaysFinal(Started(productId, prefix, true, canTrade), venue, steps, |trying|);
    } else {
      StaysFinal(Started(productId, prefix, true, canTrade), venue, |trying|, steps);
    }
  }

  lemma {:induction false} TwiceIsTwice(r: Reply, n: nat)
    ensures |Twice(r, n)| == 2 * n
  {
    if n > 0 {
      TwiceIsTwice(r, n - 1);
    }
  }

  lemma TryingIsShort(refused: Reply, cleared: Reply, unread: Reply, held: Reply, sold: Reply, flat: Reply, a: nat, b: nat, c: nat)
    requires a <= 3 && b <= 4 && c <= 4
    ensures |Trying(refused, cleared, unread, held, sold, flat, a, b, c)| <= 26
  {
    TwiceIsTwice(refused, a);
    TwiceIsTwice(unread, b);
    TwiceIsTwice(unread, c);
  }
}
