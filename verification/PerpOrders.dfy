/** Perp orders from intent to outcome, over crashes at every await and any interleaving of jobs. */
module PerpOrders {
  import opened Basics
  import opened PerpStore

  // ---- The order machine

  datatype State = Idle | PersistingIntent | Signing | Submitting | Reconciling | PersistingOutcome | Settled | Failed

  datatype Machine = Machine(state: State, id: Option<string>, intent: Option<Intent>, outcome: Option<Outcome>, lastError: Option<string>)

  datatype Event =
    | IntentRequested(intent: Intent, approved: bool, id: string, signerReady: bool)
    | RecoveryRequested(intent: Intent, id: string)
    | IntentPersisted
    | IntentPersistFailed
    | ActionSigned
    | SignFailed
    | SubmitAccepted
    | SubmitRejected
    | SubmitUnknown
    | ReconciliationResolved(outcome: Outcome)
    | ReconciliationFailed
    | PersistSucceeded
    | PersistFailed

  const NEW := Machine(Idle, None, None, None, None)

  /** `^[a-zA-Z0-9-]{8,64}$` */
  predicate ClientOrderId(s: string) {
    8 <= |s| <= 64 && forall i :: 0 <= i < |s| ==> AlphaNumeric(s[i]) || s[i] == '-'
  }

  predicate WellFormed(i: Intent) {
    && (i.productId == "BTC-PERP" || i.productId == "ETH-PERP") && i.quantity > 0.0 && i.markPrice > 0.0
    && 1 <= i.leverage <= MAX_SAFE
  }

  function Next(m: Machine, e: Event): Machine {
    match (m.state, e)
    case (Idle, IntentRequested(intent, approved, id, signerReady)) =>
      if signerReady && ClientOrderId(id) && WellFormed(intent) && approved
      then Machine(PersistingIntent, Some(id), Some(intent), None, None)
      else NEW
    case (Idle, RecoveryRequested(intent, id)) =>
      if ClientOrderId(id) && WellFormed(intent) then Machine(Reconciling, Some(id), Some(intent), None, None) else m
    case (PersistingIntent, IntentPersisted) => m.(state := Signing)
    case (PersistingIntent, IntentPersistFailed) => m.(state := Failed, lastError := Some("PERSIST_INTENT_FAILED"))
    case (Signing, ActionSigned) => m.(state := Submitting)
    case (Signing, SignFailed) => m.(state := Failed, lastError := Some("SIGN_FAILED"))
    case (Submitting, SubmitAccepted) => m.(state := PersistingOutcome, outcome := Some(Accepted), lastError := None)
    case (Submitting, SubmitRejected) => m.(state := PersistingOutcome, outcome := Some(Rejected), lastError := None)
    case (Submitting, SubmitUnknown) => m.(state := Reconciling)
    case (Reconciling, ReconciliationResolved(outcome)) => m.(state := PersistingOutcome, outcome := Some(outcome), lastError := None)
    case (Reconciling, ReconciliationFailed) => m.(state := Failed, lastError := Some("RECONCILIATION_FAILED"))
    case (PersistingOutcome, PersistSucceeded) => m.(state := Settled)
    case (PersistingOutcome, PersistFailed) => m.(state := Failed, lastError := Some("PERSIST_OUTCOME_FAILED"))
    case _ => m
  }

  // ---- The runner

  /** A call in progress: one order, or a recovery working through its queue. */
  datatype Job =
    | Order(m: Machine)
    | Recovery(loaded: bool, queue: seq<Pending>, m: Machine)

  datatype Sent = Sent(id: string, intent: Intent)

  /** What becomes of a request: the venue takes it in, turns it down or never gets it, or has yet to get it. */
  datatype Fate = Taken | Turned | InFlight

  /** The table, every order sent, the requests that may still reach the venue, the ids it took in, and
      the calls running. */
  datatype World = World(orders: map<string, Row>, log: seq<Sent>, flight: multiset<string>, placed: set<string>, jobs: seq<Job>)

  datatype Action =
    | StartOrder(id: string, intent: Intent, approved: bool)
    | StartRecovery
    | StoreIntent(j: nat, ok: bool, written: bool, at: int)
    | Sign(j: nat, ok: bool)
    | Submit(j: nat, fate: Fate, answer: Event)
    | SubmitThenCrash(j: nat, fate: Fate)
    | Load(j: nat, queue: seq<Pending>)
    | Take(j: nat)
    | Reconcile(j: nat, found: Option<Outcome>)
    | StoreOutcome(j: nat, ok: bool, written: bool, at: int)
    | Crash
    // the network on its own
    | Arrive(id: string)
    | Lapse(id: string)

  predicate At(w: World, j: nat, s: State) {
    j < |w.jobs| && w.jobs[j].m.state == s && w.jobs[j].m.id.Some? && w.jobs[j].m.intent.Some?
  }

  /** The venue tells what it knows by now: an order it took in is never denied, one it did not is never confirmed. */
  predicate Truthful(w: World, id: string, found: Option<Outcome>) {
    found.Some? ==> (found.value == Accepted <==> id in w.placed)
  }

  /** When an action can happen.  A definite answer settles the fate of its request; a lost one leaves it open. */
  ghost predicate Enabled(w: World, a: Action) {
    match a
    case StoreIntent(j, ok, written, _) => At(w, j, PersistingIntent) && (ok ==> written)
    case Sign(j, _) => At(w, j, Signing)
    case Submit(j, fate, answer) =>
      && At(w, j, Submitting)
      && ((answer.SubmitAccepted? && fate.Taken?) || (answer.SubmitRejected? && fate.Turned?) || answer.SubmitUnknown?)
    case SubmitThenCrash(j, _) => At(w, j, Submitting)
    case Load(j, queue) => j < |w.jobs| && w.jobs[j].Recovery? && !w.jobs[j].loaded && IsQueue(queue, w.orders)
    case Take(j) =>
      && j < |w.jobs| && w.jobs[j].Recovery? && w.jobs[j].loaded && w.jobs[j].queue != []
      && w.jobs[j].m.state in {Idle, Settled, Failed}
    case Reconcile(j, found) => At(w, j, Reconciling) && Truthful(w, w.jobs[j].m.id.value, found)
    case StoreOutcome(j, ok, written, _) => At(w, j, PersistingOutcome) && w.jobs[j].m.outcome.Some? && (ok ==> written)
    case Arrive(id) => id in w.flight
    case Lapse(id) => id in w.flight
    case _ => true
  }

  function Send(w: World, j: nat, e: Event): World
    requires j < |w.jobs|
  {
    w.(jobs := w.jobs[j := w.jobs[j].(m := Next(w.jobs[j].m, e))])
  }

  function Sending(w: World, j: nat, fate: Fate): World
    requires At(w, j, Submitting)
  {
    var m := w.jobs[j].m;
    w.(log := w.log + [Sent(m.id.value, m.intent.value)],
       placed := if fate.Taken? then w.placed + {m.id.value} else w.placed,
       flight := if fate.InFlight? then w.flight + multiset{m.id.value} else w.flight)
  }

  function Asked(id: string, intent: Intent, approved: bool): Machine {
    Next(NEW, IntentRequested(intent, approved, id, true))
  }

  ghost function Step(w: World, a: Action): World {
    if !Enabled(w, a) then w
    else
      match a
      case StartOrder(id, intent, approved) =>
        var m := Asked(id, intent, approved);
        if m.state == Idle then w else w.(jobs := w.jobs + [Order(m)])
      case StartRecovery => w.(jobs := w.jobs + [Recovery(false, [], NEW)])
      case StoreIntent(j, ok, written, at) =>
        var m := w.jobs[j].m;
        Send(if written then w.(orders := Insert(w.orders, m.id.value, m.intent.value, at)) else w, j,
             if ok then IntentPersisted else IntentPersistFailed)
      case Sign(j, ok) => Send(w, j, if ok then ActionSigned else SignFailed)
      case Submit(j, fate, answer) => Send(Sending(w, j, fate), j, answer)
      case SubmitThenCrash(j, fate) => Sending(w, j, fate).(jobs := [])
      case Load(j, queue) => w.(jobs := w.jobs[j := Recovery(true, queue, NEW)])
      case Take(j) =>
        var head := w.jobs[j].queue[0];
        w.(jobs := w.jobs[j := Recovery(true, w.jobs[j].queue[1..], Next(NEW, RecoveryRequested(head.intent, head.id)))])
      case Reconcile(j, found) => Send(w, j, if found.Some? then ReconciliationResolved(found.value) else ReconciliationFailed)
      case StoreOutcome(j, ok, written, at) =>
        var m := w.jobs[j].m;
        Send(if written then w.(orders := Settle(w.orders, m.id.value, m.outcome.value, at)) else w, j,
             if ok then PersistSucceeded else PersistFailed)
      case Crash => w.(jobs := [])
      case Arrive(id) => w.(flight := w.flight - multiset{id}, placed := w.placed + {id})
      case Lapse(id) => w.(flight := w.flight - multiset{id})
  }

  ghost function Run(w: World, actions: seq<Action>): World {
    if actions == [] then w else Step(Run(w, actions[..|actions| - 1]), actions[|actions| - 1])
  }

  const DAWN := World(map[], [], multiset{}, {}, [])

  lemma RunMore(w: World, actions: seq<Action>, a: Action)
    ensures Run(w, actions + [a]) == Step(Run(w, actions), a)
  {
    hide Step;
    assert (actions + [a])[..|actions + [a]| - 1] == actions;
  }

  lemma {:induction false} RunJoins(w: World, a: seq<Action>, b: seq<Action>)
    ensures Run(w, a + b) == Run(Run(w, a), b)
  {
    hide Step;
    if b == [] {
      assert a + b == a;
    } else {
      RunJoins(w, a, b[..|b| - 1]);
      assert (a + b)[..|a + b| - 1] == a + b[..|b| - 1];
    }
  }

  // ---- What every run keeps, reused ids included

  /** A row the runner wrote: its key and intent pass the recovery's check. */
  predicate Recoverable(id: string, row: Row) {
    ClientOrderId(id) && WellFormed(row.intent)
  }

  ghost predicate InStore(w: World, id: string, intent: Intent) {
    id in w.orders && w.orders[id].intent == intent
  }

  /** What holds of one call. */
  ghost predicate JobFits(w: World, job: Job) {
    var m := job.m;
    && (m.state != Idle ==> m.id.Some? && m.intent.Some? && ClientOrderId(m.id.value) && WellFormed(m.intent.value))
    && (job.Order? ==> m.state != Idle)
    && (job.Recovery? ==> m.state in {Idle, Reconciling, PersistingOutcome, Settled, Failed})
    && (job.Recovery? ==> forall x :: x in job.queue ==> InStore(w, x.id, x.intent))
    && (job.Recovery? && !job.loaded ==> job.queue == [] && m.state == Idle)
    && (m.state in {Signing, Submitting, Reconciling, PersistingOutcome} ==> m.id.value in w.orders)
    && (m.state == PersistingOutcome ==> m.outcome.Some?)
  }

  ghost predicate Kept(w: World) {
    && (forall i :: 0 <= i < |w.log| ==> w.log[i].id in w.orders)
    && (forall id :: id in w.orders ==> Recoverable(id, w.orders[id]))
    && (forall j :: 0 <= j < |w.jobs| ==> JobFits(w, w.jobs[j]))
  }

  lemma QueueIsStored(w: World, queue: seq<Pending>)
    requires IsQueue(queue, w.orders)
    ensures forall x :: x in queue ==> InStore(w, x.id, x.intent)
  {
    forall x | x in queue ensures InStore(w, x.id, x.intent) {
      var k :| 0 <= k < |queue| && queue[k] == x;
      assert Unresolved(queue[k], w.orders);
    }
  }

  lemma StartKeeps(w: World, a: Action)
    requires Kept(w) && (a.StartOrder? || a.StartRecovery? || a.Crash? || a.Arrive? || a.Lapse?)
    ensures Kept(Step(w, a)) && Extends(Step(w, a).orders, w.orders)
  {
    hide ClientOrderId;
    hide WellFormed;
  }

  lemma RecoveryKeeps(w: World, a: Action)
    requires Kept(w) && (a.Load? || a.Take?)
    ensures Kept(Step(w, a)) && Extends(Step(w, a).orders, w.orders)
  {
    hide ClientOrderId;
    hide WellFormed;
    hide IsQueue;
    if Enabled(w, a) {
      var job := w.jobs[a.j];
      assert JobFits(w, job);
      if a.Load? {
        QueueIsStored(w, a.queue);
      } else {
        assert job.queue[0] in job.queue;
      }
    }
  }

  lemma QuietKeeps(w: World, a: Action)
    requires Kept(w) && (a.Sign? || a.Reconcile?)
    ensures Kept(Step(w, a)) && Extends(Step(w, a).orders, w.orders)
  {
    hide ClientOrderId;
    hide WellFormed;
    if Enabled(w, a) {
      assert JobFits(w, w.jobs[a.j]);
    }
  }

  lemma StoreKeeps(w: World, a: Action)
    requires Kept(w) && (a.StoreIntent? || a.StoreOutcome?)
    ensures Kept(Step(w, a)) && Extends(Step(w, a).orders, w.orders)
  {
    hide JobFits;
    hide ClientOrderId;
    hide WellFormed;
    if Enabled(w, a) {
      var v := Step(w, a);
      StoredJobFits(w, a);
      forall k | 0 <= k < |v.jobs| ensures JobFits(v, v.jobs[k]) {
        StillFits(w, v, w.jobs[k]);
      }
    }
  }

  lemma StillFits(w: World, v: World, job: Job)
    requires JobFits(w, job) && Extends(v.orders, w.orders)
    ensures JobFits(v, job)
  {
    hide ClientOrderId;
    hide WellFormed;
  }

  lemma StoredJobFits(w: World, a: Action)
    requires Kept(w) && (a.StoreIntent? || a.StoreOutcome?) && Enabled(w, a)
    ensures Extends(Step(w, a).orders, w.orders) && JobFits(Step(w, a), Step(w, a).jobs[a.j])
    ensures forall id :: id in Step(w, a).orders ==> Recoverable(id, Step(w, a).orders[id])
  {
    hide ClientOrderId;
    hide WellFormed;
    assert JobFits(w, w.jobs[a.j]);
  }

  lemma SubmitKeeps(w: World, a: Action)
    requires Kept(w) && (a.Submit? || a.SubmitThenCrash?)
    ensures Kept(Step(w, a)) && Extends(Step(w, a).orders, w.orders)
  {
    hide ClientOrderId;
    hide WellFormed;
    if Enabled(w, a) {
      assert JobFits(w, w.jobs[a.j]);
    }
  }

  lemma StepKeeps(w: World, a: Action)
    requires Kept(w)
    ensures Kept(Step(w, a)) && Extends(Step(w, a).orders, w.orders)
  {
    hide Kept;
    hide Enabled;
    match a
    case StoreIntent(_, _, _, _) => StoreKeeps(w, a);
    case Sign(_, _) => QuietKeeps(w, a);
    case Reconcile(_, _) => QuietKeeps(w, a);
    case StoreOutcome(_, _, _, _) => StoreKeeps(w, a);
    case Submit(_, _, _) => SubmitKeeps(w, a);
    case SubmitThenCrash(_, _) => SubmitKeeps(w, a);
    case Load(_, _) => RecoveryKeeps(w, a);
    case Take(_) => RecoveryKeeps(w, a);
    case _ => StartKeeps(w, a);
  }

  lemma {:induction false} RunKeeps(w: World, actions: seq<Action>)
    requires Kept(w)
    ensures Kept(Run(w, actions)) && Extends(Run(w, actions).orders, w.orders)
  {
    hide Step;
    hide Kept;
    if actions != [] {
      RunKeeps(w, actions[..|actions| - 1]);
      StepKeeps(Run(w, actions[..|actions| - 1]), actions[|actions| - 1]);
    }
  }

  lemma EveryRunKeeps(actions: seq<Action>)
    ensures Kept(Run(DAWN, actions))
  {
    RunKeeps(DAWN, actions);
  }

  // ---- What fresh starts keep

  predicate Early(m: Machine) {
    m.state == PersistingIntent || m.state == Signing || m.state == Submitting
  }

  /** A call for this order that has yet to send it. */
  predicate Bound(job: Job, id: string) {
    job.Order? && Early(job.m) && job.m.id == Some(id)
  }

  predicate Underway(w: World, id: string) {
    exists j :: 0 <= j < |w.jobs| && Bound(w.jobs[j], id)
  }

  ghost predicate IsSent(w: World, id: string) {
    exists i :: 0 <= i < |w.log| && w.log[i].id == id
  }

  /** No order is asked for under an id already sent, about to be sent, or stored for another intent. */
  ghost predicate Fresh(w: World, a: Action) {
    a.StartOrder? && Asked(a.id, a.intent, a.approved).state != Idle ==>
      && !IsSent(w, a.id) && !Underway(w, a.id)
      && (a.id in w.orders ==> w.orders[a.id].intent == a.intent)
  }

  ghost predicate FreshFrom(w: World, actions: seq<Action>) {
    actions == []
    || (FreshFrom(w, actions[..|actions| - 1]) && Fresh(Run(w, actions[..|actions| - 1]), actions[|actions| - 1]))
  }

  /** Every order was sent once, and with the very intent stored for it. */
  ghost predicate EachOnce(w: World) {
    && (forall i :: 0 <= i < |w.log| ==> InStore(w, w.log[i].id, w.log[i].intent))
    && (forall i, j :: 0 <= i < j < |w.log| ==> w.log[i].id != w.log[j].id)
  }

  ghost predicate BoundFits(w: World, job: Job) {
    job.Order? && Early(job.m) && job.m.id.Some? && job.m.intent.Some? ==>
      && !IsSent(w, job.m.id.value)
      && (job.m.id.value in w.orders ==> w.orders[job.m.id.value].intent == job.m.intent.value)
  }

  ghost predicate Single(w: World) {
    && EachOnce(w)
    && (forall j :: 0 <= j < |w.jobs| ==> BoundFits(w, w.jobs[j]))
    && (forall i, j, id :: 0 <= i < j < |w.jobs| && Bound(w.jobs[i], id) ==> !Bound(w.jobs[j], id))
  }

  lemma StartKeepsSingle(w: World, a: Action)
    requires Kept(w) && Single(w) && Fresh(w, a)
    requires a.StartOrder? || a.StartRecovery? || a.Crash? || a.Load? || a.Take? || a.Arrive? || a.Lapse?
    ensures Single(Step(w, a))
  {
    hide ClientOrderId;
    hide WellFormed;
    hide IsQueue;
  }

  /** One call moves on without sending: it becomes bound to nothing new, and stores at most its own intent. */
  ghost predicate Quietly(w: World, v: World, j: nat) {
    && j < |w.jobs| == |v.jobs| && v.log == w.log && v.jobs == w.jobs[j := v.jobs[j]]
    && (forall id :: Bound(v.jobs[j], id) ==> Bound(w.jobs[j], id))
    && v.jobs[j].m.id == w.jobs[j].m.id && v.jobs[j].m.intent == w.jobs[j].m.intent
    && Extends(v.orders, w.orders)
    && (forall id :: id in v.orders && id !in w.orders ==>
          Bound(w.jobs[j], id) && w.jobs[j].m.intent == Some(v.orders[id].intent))
  }

  lemma QuietlySingle(w: World, v: World, j: nat)
    requires Single(w) && Quietly(w, v, j)
    ensures Single(v)
  {
    forall k | 0 <= k < |v.jobs| ensures BoundFits(v, v.jobs[k]) {
      assert BoundFits(w, w.jobs[k]) && BoundFits(w, w.jobs[j]);
      if BoundFits(v, v.jobs[k]) {
      } else {
        var id := v.jobs[k].m.id.value;
        assert Bound(v.jobs[k], id) && Bound(w.jobs[k], id);
        assert IsSent(v, id) == IsSent(w, id);
      }
    }
  }

  lemma CallIsQuiet(w: World, a: Action)
    requires Kept(w) && Enabled(w, a) && (a.StoreIntent? || a.Sign? || a.Reconcile? || a.StoreOutcome?)
    ensures Quietly(w, Step(w, a), a.j)
  {
    hide ClientOrderId;
    hide WellFormed;
    assert JobFits(w, w.jobs[a.j]);
  }

  lemma CallKeepsSingle(w: World, a: Action)
    requires Kept(w) && Single(w) && (a.StoreIntent? || a.Sign? || a.Reconcile? || a.StoreOutcome?)
    ensures Single(Step(w, a))
  {
    hide Single;
    hide Kept;
    hide Enabled;
    hide Quietly;
    if Enabled(w, a) {
      CallIsQuiet(w, a);
      QuietlySingle(w, Step(w, a), a.j);
    }
  }

  lemma SubmitKeepsSingle(w: World, a: Action)
    requires Kept(w) && Single(w) && (a.Submit? || a.SubmitThenCrash?)
    ensures Single(Step(w, a))
  {
    hide ClientOrderId;
    hide WellFormed;
    if Enabled(w, a) {
      var job, v := w.jobs[a.j], Step(w, a);
      var id := job.m.id.value;
      assert JobFits(w, job) && BoundFits(w, job);
      SentGrows(w, a.j, a.fate);
      assert job.Order? && Bound(job, id);
      forall k | 0 <= k < |v.jobs| ensures BoundFits(v, v.jobs[k]) {
        assert BoundFits(w, w.jobs[k]);
        assert k != a.j ==> !Bound(w.jobs[k], id);
      }
    }
  }

  lemma SentGrows(w: World, j: nat, fate: Fate)
    requires At(w, j, Submitting)
    ensures forall id :: IsSent(Sending(w, j, fate), id) <==> IsSent(w, id) || id == w.jobs[j].m.id.value
    ensures !IsSent(w, w.jobs[j].m.id.value) ==> forall i :: 0 <= i < |w.log| ==> w.log[i].id != w.jobs[j].m.id.value
  {
    var v := Sending(w, j, fate);
    assert v.log[|w.log|].id == w.jobs[j].m.id.value;
    forall id | IsSent(w, id) ensures IsSent(v, id) {
      var i :| 0 <= i < |w.log| && w.log[i].id == id;
      assert v.log[i].id == id;
    }
  }

  lemma StepKeepsSingle(w: World, a: Action)
    requires Kept(w) && Single(w) && Fresh(w, a)
    ensures Single(Step(w, a))
  {
    hide Kept;
    hide Single;
    hide Fresh;
    hide Enabled;
    match a
    case StoreIntent(_, _, _, _) => CallKeepsSingle(w, a);
    case Sign(_, _) => CallKeepsSingle(w, a);
    case Reconcile(_, _) => CallKeepsSingle(w, a);
    case StoreOutcome(_, _, _, _) => CallKeepsSingle(w, a);
    case Submit(_, _, _) => SubmitKeepsSingle(w, a);
    case SubmitThenCrash(_, _) => SubmitKeepsSingle(w, a);
    case _ => StartKeepsSingle(w, a);
  }

  lemma {:induction false} FreshRunsAreSingle(w: World, actions: seq<Action>)
    requires Kept(w) && Single(w) && FreshFrom(w, actions)
    ensures Single(Run(w, actions))
  {
    hide Step;
    hide Kept;
    hide Single;
    hide Fresh;
    if actions != [] {
      FreshRunsAreSingle(w, actions[..|actions| - 1]);
      RunKeeps(w, actions[..|actions| - 1]);
      StepKeepsSingle(Run(w, actions[..|actions| - 1]), actions[|actions| - 1]);
    }
  }

  // ---- The guarantees

  /** Whatever crashes and interleavings: every order sent has a row, which is either resolved or in the list
      the next recovery loads; and while starts are fresh, that row holds the very intent sent and no other
      request was sent under its id. */
  lemma NoOrderIsLost(actions: seq<Action>, i: nat, pending: seq<Pending>)
    requires i < |Run(DAWN, actions).log| && IsQueue(pending, Run(DAWN, actions).orders)
    ensures var w := Run(DAWN, actions);
            var id := w.log[i].id;
            && id in w.orders && (w.orders[id].outcome.Some? || Pending(id, w.orders[id].intent) in pending)
            && (FreshFrom(DAWN, actions) ==>
                  && w.orders[id].intent == w.log[i].intent
                  && (forall j :: 0 <= j < |w.log| && j != i ==> w.log[j].id != id))
  {
    hide JobFits;
    hide Recoverable;
    hide FreshFrom;
    EveryRunKeeps(actions);
    if FreshFrom(DAWN, actions) {
      FreshRunsAreSingle(DAWN, actions);
    }
  }

  /** A recovery skips none of the orders it loaded, and sends nothing. */
  lemma RecoveryOnlyReconciles(actions: seq<Action>, j: nat)
    requires j < |Run(DAWN, actions).jobs| && Run(DAWN, actions).jobs[j].Recovery?
    ensures var w := Run(DAWN, actions);
            && !At(w, j, Submitting) && !At(w, j, PersistingIntent)
            && (Enabled(w, Take(j)) ==>
                  && At(Step(w, Take(j)), j, Reconciling)
                  && Step(w, Take(j)).jobs[j].m.id == Some(w.jobs[j].queue[0].id))
  {
    hide ClientOrderId;
    hide WellFormed;
    EveryRunKeeps(actions);
    var w := Run(DAWN, actions);
    assert JobFits(w, w.jobs[j]);
    if Enabled(w, Take(j)) {
      TakingReconciles(w, j);
    }
  }

  lemma TakingReconciles(w: World, j: nat)
    requires Kept(w) && Enabled(w, Take(j))
    ensures At(Step(w, Take(j)), j, Reconciling)
    ensures Step(w, Take(j)).jobs[j].m.id == Some(w.jobs[j].queue[0].id)
  {
    hide ClientOrderId;
    hide WellFormed;
    assert JobFits(w, w.jobs[j]);
    var head := w.jobs[j].queue[0];
    assert InStore(w, head.id, head.intent) && Recoverable(head.id, w.orders[head.id]);
  }

  /** Rows stay, intents never change, and an outcome once written is final. */
  lemma OutcomesAreFinal(actions: seq<Action>, later: seq<Action>)
    ensures Extends(Run(DAWN, actions + later).orders, Run(DAWN, actions).orders)
  {
    hide Run;
    EveryRunKeeps(actions);
    RunJoins(DAWN, actions, later);
    RunKeeps(Run(DAWN, actions), later);
  }
}
