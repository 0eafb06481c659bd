/** The perp runner without crashes: one order from intent to outcome, and one recovery. */
module PerpRunner {
  import opened Basics
  import opened PerpStore
  import opened PerpOrders
  import PerpReuse

  datatype SubmitAnswer = Taken | Turned | NoAnswer

  /** What the outside answers during one order. */
  datatype OrderReplies = OrderReplies(
    approved: bool,
    intentStored: bool,
    signed: bool,
    submit: SubmitAnswer,
    found: Option<Outcome>,
    outcomeStored: bool,
    now: int)

  /** What it answers for one order of a recovery. */
  datatype RecoveryReply = RecoveryReply(found: Option<Outcome>, outcomeStored: bool, now: int)

  datatype RunResult = Refused | Done(outcome: Outcome) | Broken(error: string)

  function SubmitEvent(answer: SubmitAnswer): Event {
    match answer
    case Taken => SubmitAccepted
    case Turned => SubmitRejected
    case NoAnswer => SubmitUnknown
  }

  function ReconcileEvent(found: Option<Outcome>): Event {
    if found.Some? then ReconciliationResolved(found.value) else ReconciliationFailed
  }

  /** What the venue has said of an order that was sent: at once, or when asked. */
  function Said(replies: OrderReplies): Option<Outcome> {
    match replies.submit
    case Taken => Some(Accepted)
    case Turned => Some(Rejected)
    case NoAnswer => replies.found
  }

  /** A fate of the request that agrees with it. */
  function FateOf(replies: OrderReplies): Fate {
    match replies.submit
    case Taken => Fate.Taken
    case Turned => Fate.Turned
    case NoAnswer => if replies.found == Some(Accepted) then Fate.Taken else InFlight
  }

  predicate Admitted(intent: Intent, id: string, replies: OrderReplies) {
    replies.approved && ClientOrderId(id) && WellFormed(intent)
  }

  predicate Sends(intent: Intent, id: string, replies: OrderReplies) {
    Admitted(intent, id, replies) && replies.intentStored && replies.signed
  }

  /** Where an order that is not done got stuck. */
  function FirstFailure(replies: OrderReplies): string {
    if !replies.intentStored then "PERSIST_INTENT_FAILED"
    else if !replies.signed then "SIGN_FAILED"
    else if Said(replies).None? then "RECONCILIATION_FAILED"
    else "PERSIST_OUTCOME_FAILED"
  }

  /** What is admitted: a known perp, a positive quantity and price, a whole leverage, and an id of 8 to 64 letters,
      digits and dashes. */
  lemma AdmittedExactly(intent: Intent, id: string, replies: OrderReplies)
    ensures Admitted(intent, id, replies) <==>
              && replies.approved && intent.productId in {"BTC-PERP", "ETH-PERP"} && intent.quantity > 0.0 && intent.markPrice > 0.0
              && 1 <= intent.leverage <= 9_007_199_254_740_991
              && 8 <= |id| <= 64 && forall i :: 0 <= i < |id| ==> IdCharacter(id[i])
  {
    hide WellFormed;
    WellFormedIs(intent);
  }

  predicate IdCharacter(c: char) {
    'a' <= c <= 'z' || 'A' <= c <= 'Z' || '0' <= c <= '9' || c == '-'
  }

  lemma WellFormedIs(intent: Intent)
    ensures WellFormed(intent) <==>
              && intent.productId in {"BTC-PERP", "ETH-PERP"} && intent.quantity > 0.0 && intent.markPrice > 0.0
              && 1 <= intent.leverage <= 9_007_199_254_740_991
  {
  }

  /** The table after one order: the intent, and for an order sent what the venue said of it. */
  function TableAfter(orders: map<string, Row>, intent: Intent, id: string, replies: OrderReplies): map<string, Row> {
    if !Admitted(intent, id, replies) || !replies.intentStored then orders
    else
      var stored := Insert(orders, id, intent, replies.now);
      if replies.signed && Said(replies).Some? && replies.outcomeStored then Settle(stored, id, Said(replies).value, replies.now) else stored
  }

  function LogAfter(log: seq<Sent>, intent: Intent, id: string, replies: OrderReplies): seq<Sent> {
    if Sends(intent, id, replies) then log + [Sent(id, intent)] else log
  }

  class Runner {
    const store: Store
    var log: seq<Sent>

    constructor (store: Store)
      ensures this.store == store && log == []
    {
      this.store := store;
      log := [];
    }

    /** Writes the outcome the machine reached and reports where it ended. */
    method FinishOutcome(start: Machine, id: string, stored: bool, now: int) returns (m: Machine, r: RunResult)
      requires start.state == PersistingOutcome || start.state == Failed
      requires start.state == PersistingOutcome ==> start.outcome.Some?
      modifies store`orders
      ensures store.orders == if start.state == PersistingOutcome && stored then Settle(old(store.orders), id, start.outcome.value, now)
                              else old(store.orders)
      ensures r == if start.state == PersistingOutcome && stored then Done(start.outcome.value)
                   else Broken(if start.state == Failed && start.lastError.Some? then start.lastError.value else "PERSIST_OUTCOME_FAILED")
      ensures m.state == if start.state == PersistingOutcome && stored then Settled else Failed
    {
      m := start;
      if m.state == PersistingOutcome {
        if stored {
          store.PersistOutcome(id, m.outcome.value, now);
          m := Next(m, PersistSucceeded);
        } else {
          m := Next(m, PersistFailed);
        }
      }
      if m.state == Settled {
        return m, Done(m.outcome.value);
      }
      r := Broken(if m.lastError.Some? then m.lastError.value else "PERSIST_OUTCOME_FAILED");
    }

    /** One order: nothing is sent before its intent is in the store, it is sent at most once, and for a
        fresh id the reported outcome is the one stored.  A refusal touches nothing.  An order sent is done
        exactly when its outcome is known and could be stored, and the outcome is what the venue said. */
    method RunOrder(intent: Intent, id: string, replies: OrderReplies) returns (r: RunResult)
      modifies this`log, store`orders
      ensures Extends(store.orders, old(store.orders))
      ensures log == old(log) || log == old(log) + [Sent(id, intent)]
      ensures log != old(log) ==> id in store.orders && (id !in old(store.orders) ==> store.orders[id].intent == intent)
      ensures log != old(log) <==> replies.approved && ClientOrderId(id) && WellFormed(intent) && replies.intentStored && replies.signed
      ensures r.Refused? ==> store.orders == old(store.orders) && log == old(log)
      ensures r.Refused? <==> !Admitted(intent, id, replies)
      ensures r.Broken? ==> r.error == FirstFailure(replies)
      ensures r.Done? && id !in old(store.orders) ==> id in store.orders && store.orders[id].outcome == Some(r.outcome)
      ensures log != old(log) && id !in old(store.orders) && !r.Done? ==> store.orders[id].outcome.None?
      ensures r.Done? ==> log != old(log)
      ensures log != old(log) ==> forall o :: r == Done(o) <==> replies.outcomeStored && Said(replies) == Some(o)
      ensures store.orders == TableAfter(old(store.orders), intent, id, replies) && log == LogAfter(old(log), intent, id, replies)
    {
      hide ClientOrderId;
      hide WellFormed;
      var m := Next(NEW, IntentRequested(intent, replies.approved, id, true));
      if m.state == Idle {
        return Refused;
      }
      if replies.intentStored {
        store.PersistOrderIntent(id, intent, replies.now);
        m := Next(m, IntentPersisted);
      } else {
        m := Next(m, IntentPersistFailed);
      }
      if m.state == Failed {
        return Broken("PERSIST_INTENT_FAILED");
      }
      m := Next(m, if replies.signed then ActionSigned else SignFailed);
      if m.state == Failed {
        return Broken("SIGN_FAILED");
      }
      log := log + [Sent(id, intent)];
      m := Next(m, SubmitEvent(replies.submit));
      if m.state == Reconciling {
        m := Next(m, ReconcileEvent(replies.found));
      }
      m, r := FinishOutcome(m, id, replies.outcomeStored, replies.now);
    }

    /** One unresolved order of a recovery. */
    method RecoverOne(p: Pending, reply: RecoveryReply) returns (settled: bool)
      modifies store`orders
      ensures settled == Settles(p, reply)
      ensures store.orders == RecoveredOne(old(store.orders), p, reply)
    {
      hide ClientOrderId;
      hide WellFormed;
      var m := Next(NEW, RecoveryRequested(p.intent, p.id));
      if m.state != Reconciling {
        return false;
      }
      m := Next(m, ReconcileEvent(reply.found));
      var r;
      m, r := FinishOutcome(m, p.id, reply.outcomeStored, reply.now);
      settled := r.Done?;
    }

    /** A recovery asks about every unresolved order and settles those the venue knows about; it counts
        what it settled and what it left, and sends nothing. */
    method RecoverPending(replies: seq<RecoveryReply>) returns (recovered: nat, unresolved: nat, ghost pending: seq<Pending>)
      requires |replies| >= |store.orders|
      modifies store`orders
      ensures IsQueue(pending, old(store.orders)) && recovered + unresolved == |pending| <= |replies|
      ensures store.orders == RecoveredAll(old(store.orders), pending, replies, |pending|)
      ensures recovered == Count(pending, replies, |pending|)
    {
      hide Settles;
      hide RecoveredOne;
      hide NewestFirst;
      hide Unresolved;
      var queue := store.LoadUnresolved();
      pending := queue;
      QueueIsUnresolved(queue, store.orders);
      QueueFits(queue, store.orders);
      recovered := 0;
      for k := 0 to |queue|
        invariant recovered == Count(queue, replies, k) <= k
        invariant store.orders == RecoveredAll(old(store.orders), queue, replies, k)
      {
        var settled := RecoverOne(queue[k], replies[k]);
        if settled {
          recovered := recovered + 1;
        }
      }
      unresolved := |queue| - recovered;
    }
  }

  // ---- What a recovery does to the table

  /** The venue knows the order, the check on its row passes, and the outcome could be stored. */
  predicate Settles(p: Pending, reply: RecoveryReply) {
    ClientOrderId(p.id) && WellFormed(p.intent) && reply.found.Some? && reply.outcomeStored
  }

  function RecoveredOne(orders: map<string, Row>, p: Pending, reply: RecoveryReply): map<string, Row> {
    if Settles(p, reply) then Settle(orders, p.id, reply.found.value, reply.now) else orders
  }

  function RecoveredAll(orders: map<string, Row>, queue: seq<Pending>, replies: seq<RecoveryReply>, n: nat): map<string, Row>
    requires n <= |queue| && n <= |replies|
  {
    if n == 0 then orders else RecoveredOne(RecoveredAll(orders, queue, replies, n - 1), queue[n - 1], replies[n - 1])
  }

  function Count(queue: seq<Pending>, replies: seq<RecoveryReply>, n: nat): (c: nat)
    requires n <= |queue| && n <= |replies|
    ensures c <= n
  {
    if n == 0 then 0 else Count(queue, replies, n - 1) + if Settles(queue[n - 1], replies[n - 1]) then 1 else 0
  }

  /** Row by row: an order of the queue takes the venue's answer exactly when it settles, an order not in
      the queue keeps its row, and the rest of every row stays. */
  lemma {:induction false} RecoveryRowByRow(orders: map<string, Row>, queue: seq<Pending>, replies: seq<RecoveryReply>, n: nat)
    requires n <= |queue| && n <= |replies| && IsQueue(queue, orders)
    ensures var after := RecoveredAll(orders, queue, replies, n);
            && after.Keys == orders.Keys && Extends(after, orders)
            && (forall k :: 0 <= k < n ==>
                  && queue[k].id in after
                  && after[queue[k].id].outcome == if Settles(queue[k], replies[k]) then replies[k].found else None)
            && (forall k :: n <= k < |queue| ==> queue[k].id in after && after[queue[k].id] == orders[queue[k].id])
            && (forall id :: id in orders && orders[id].outcome.Some? ==> after[id] == orders[id])
  {
    hide Settles;
    hide Unresolved;
    if n == 0 {
      QueueIsUnresolved(queue, orders);
    } else {
      RecoveryRowByRow(orders, queue, replies, n - 1);
      QueueIsUnresolved(queue, orders);
      SettlesFinds(queue[n - 1], replies[n - 1]);
    }
  }

  lemma SettlesFinds(p: Pending, reply: RecoveryReply)
    ensures Settles(p, reply) ==> reply.found.Some?
  {
  }

  lemma QueueIsUnresolved(queue: seq<Pending>, orders: map<string, Row>)
    requires IsQueue(queue, orders)
    ensures forall k :: 0 <= k < |queue| ==> queue[k].id in orders && orders[queue[k].id].outcome.None?
    ensures Distinct(queue)
  {
  }

  /** A queue is no longer than the table. */
  lemma {:induction false} QueueFits(queue: seq<Pending>, orders: map<string, Row>)
    requires (forall k :: 0 <= k < |queue| ==> queue[k].id in orders) && Distinct(queue)
    ensures |queue| <= |orders|
  {
    if queue != [] {
      var last := queue[|queue| - 1].id;
      var rest := queue[..|queue| - 1];
      QueueFits(rest, orders - {last});
      assert orders.Keys == (orders - {last}).Keys + {last};
    }
  }

  // ---- One order is a run of one call

  /** What the call does after its intent is asked for. */
  function CallOf(replies: OrderReplies): seq<Action> {
    if !replies.intentStored then [StoreIntent(0, false, false, replies.now)]
    else [StoreIntent(0, true, true, replies.now)] + SigningOf(replies)
  }

  function SigningOf(replies: OrderReplies): seq<Action> {
    if !replies.signed then [Sign(0, false)]
    else [Sign(0, true)] + ([Submit(0, FateOf(replies), SubmitEvent(replies.submit))] + SettlingOf(replies))
  }

  function SettlingOf(replies: OrderReplies): seq<Action> {
    (if replies.submit.NoAnswer? then [Reconcile(0, replies.found)] else [])
    + (if Said(replies).Some? then [StoreOutcome(0, replies.outcomeStored, replies.outcomeStored, replies.now)] else [])
  }

  lemma SettlingIsARun(w: World, id: string, replies: OrderReplies)
    requires |w.jobs| == 1 && w.jobs[0].m.id == Some(id) && w.jobs[0].m.intent.Some?
    requires w.jobs[0].m.state == if replies.submit.NoAnswer? then Reconciling else PersistingOutcome
    requires !replies.submit.NoAnswer? ==> w.jobs[0].m.outcome == Said(replies)
    requires replies.submit.NoAnswer? ==> Truthful(w, id, replies.found)
    ensures var v := PerpOrders.Run(w, SettlingOf(replies));
            && v.log == w.log
            && v.orders == if Said(replies).Some? && replies.outcomeStored then Settle(w.orders, id, Said(replies).value, replies.now) else w.orders
  {
    hide PerpOrders.Run;
    var store := StoreOutcome(0, replies.outcomeStored, replies.outcomeStored, replies.now);
    var ask := Reconcile(0, replies.found);
    var asked := if replies.submit.NoAnswer? then Step(w, ask) else w;
    PerpReuse.NothingRun(w);
    PerpReuse.NothingRun(asked);
    PerpReuse.NothingRun(Step(asked, store));
    PerpReuse.RunFirst(asked, store, []);
    PerpReuse.RunFirst(w, ask, []);
    PerpReuse.RunFirst(w, ask, [store]);
    assert [store] + [] == [store] && [ask] + [] == [ask] && [] + [store] == [store];
  }

  lemma SubmittingIsARun(w: World, id: string, intent: Intent, replies: OrderReplies)
    requires |w.jobs| == 1 && w.jobs[0].m.id == Some(id) && w.jobs[0].m.intent == Some(intent) && w.jobs[0].m.state == Submitting
    requires id !in w.placed
    ensures var v := PerpOrders.Run(w, [Submit(0, FateOf(replies), SubmitEvent(replies.submit))] + SettlingOf(replies));
            && v.log == w.log + [Sent(id, intent)]
            && v.orders == if Said(replies).Some? && replies.outcomeStored then Settle(w.orders, id, Said(replies).value, replies.now) else w.orders
  {
    hide PerpOrders.Run;
    hide SettlingOf;
    var submit := Submit(0, FateOf(replies), SubmitEvent(replies.submit));
    PerpReuse.RunFirst(w, submit, SettlingOf(replies));
    SettlingIsARun(Step(w, submit), id, replies);
  }

  lemma SigningIsARun(w: World, id: string, intent: Intent, replies: OrderReplies)
    requires |w.jobs| == 1 && w.jobs[0].m.id == Some(id) && w.jobs[0].m.intent == Some(intent) && w.jobs[0].m.state == Signing
    requires id !in w.placed
    ensures var v := PerpOrders.Run(w, SigningOf(replies));
            && v.log == (if replies.signed then w.log + [Sent(id, intent)] else w.log)
            && v.orders == if replies.signed && Said(replies).Some? && replies.outcomeStored
                           then Settle(w.orders, id, Said(replies).value, replies.now) else w.orders
  {
    hide PerpOrders.Run;
    hide SettlingOf;
    if replies.signed {
      var rest := [Submit(0, FateOf(replies), SubmitEvent(replies.submit))] + SettlingOf(replies);
      PerpReuse.RunFirst(w, Sign(0, true), rest);
      SubmittingIsARun(Step(w, Sign(0, true)), id, intent, replies);
    } else {
      PerpReuse.RunFirst(w, Sign(0, false), []);
      assert [Sign(0, false)] + [] == [Sign(0, false)];
      PerpReuse.NothingRun(Step(w, Sign(0, false)));
    }
  }

  lemma CallIsARun(w: World, id: string, intent: Intent, replies: OrderReplies)
    requires |w.jobs| == 1 && w.jobs[0].m.id == Some(id) && w.jobs[0].m.intent == Some(intent) && w.jobs[0].m.state == PersistingIntent
    requires id !in w.placed
    ensures var v := PerpOrders.Run(w, CallOf(replies));
            && v.log == (if replies.intentStored && replies.signed then w.log + [Sent(id, intent)] else w.log)
            && v.orders == if !replies.intentStored then w.orders
                           else if replies.signed && Said(replies).Some? && replies.outcomeStored
                           then Settle(Insert(w.orders, id, intent, replies.now), id, Said(replies).value, replies.now)
                           else Insert(w.orders, id, intent, replies.now)
  {
    hide PerpOrders.Run;
    hide SigningOf;
    if replies.intentStored {
      PerpReuse.RunFirst(w, StoreIntent(0, true, true, replies.now), SigningOf(replies));
      SigningIsARun(Step(w, StoreIntent(0, true, true, replies.now)), id, intent, replies);
    } else {
      var failing := StoreIntent(0, false, false, replies.now);
      PerpReuse.RunFirst(w, failing, []);
      assert [failing] + [] == [failing];
      PerpReuse.NothingRun(Step(w, failing));
    }
  }

  /** What one order does to the table and to what was sent is what a run of one call does, whose request has
      the fate the venue told of; so the theorems about runs hold of it. */
  lemma OrdersAreRuns(orders: map<string, Row>, log: seq<Sent>, intent: Intent, id: string, replies: OrderReplies)
    ensures var v := PerpOrders.Run(World(orders, log, multiset{}, {}, []), [StartOrder(id, intent, replies.approved)] + CallOf(replies));
            Admitted(intent, id, replies) ==> v.orders == TableAfter(orders, intent, id, replies) && v.log == LogAfter(log, intent, id, replies)
  {
    hide PerpOrders.Run;
    hide CallOf;
    hide ClientOrderId;
    hide WellFormed;
    if Admitted(intent, id, replies) {
      var start := StartOrder(id, intent, replies.approved);
      var w := World(orders, log, multiset{}, {}, []);
      PerpReuse.RunFirst(w, start, CallOf(replies));
      CallIsARun(Step(w, start), id, intent, replies);
    }
  }
}
