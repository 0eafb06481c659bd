/** When the stored outcome of a perp order is the truth: it turns on what a recovery loads, on which answers
    are believed, and on which ids are asked for again. */
module PerpTruth {
  import opened Basics
  import opened PerpStore
  import opened PerpOrders

  predicate Tells(outcome: Outcome, id: string, placed: set<string>) {
    outcome == Accepted <==> id in placed
  }

  /** Every stored outcome is what the venue did, by now. */
  ghost predicate Faithful(w: World) {
    forall id :: id in w.orders && w.orders[id].outcome.Some? ==> Tells(w.orders[id].outcome.value, id, w.placed)
  }

  /** No outcome is stored for the order. */
  predicate Open(w: World, id: string) {
    id in w.orders ==> w.orders[id].outcome.None?
  }

  predicate Waits(job: Job, id: string) {
    job.Recovery? && exists k :: 0 <= k < |job.queue| && job.queue[k].id == id
  }

  /** A call may still send this order, ask about it, or settle it. */
  predicate Involved(job: Job, id: string) {
    || Bound(job, id)
    || ((job.m.state == Reconciling || job.m.state == PersistingOutcome) && job.m.id == Some(id))
    || Waits(job, id)
  }

  predicate Unheard(w: World, id: string) {
    && Open(w, id) && id !in w.placed && id !in w.flight
    && forall j :: 0 <= j < |w.jobs| ==> !Involved(w.jobs[j], id)
  }

  /** An id is asked for again only if the venue cannot know it and no call is concerned with it, or if it is
      stored as accepted; a recovery loads no order yet to be sent; and no answer that an order was never
      placed is believed while its request may still arrive. */
  ghost predicate Clean(w: World, a: Action) {
    match a
    case StartOrder(id, intent, approved) =>
      Asked(id, intent, approved).state != Idle ==>
        Unheard(w, id) || (id in w.orders && w.orders[id].outcome == Some(Accepted))
    case Load(_, queue) => Enabled(w, a) ==> forall x :: x in queue && Underway(w, x.id) ==> x.id in w.placed
    case Reconcile(j, found) => Enabled(w, a) && found == Some(Rejected) ==> w.jobs[j].m.id.value !in w.flight
    case _ => true
  }

  ghost predicate CleanFrom(w: World, actions: seq<Action>) {
    actions == []
    || (CleanFrom(w, actions[..|actions| - 1]) && Clean(Run(w, actions[..|actions| - 1]), actions[|actions| - 1]))
  }

  // ---- What clean runs keep

  /** A rejected order cannot turn up any more. */
  ghost predicate RejectedIsOver(w: World) {
    forall id :: id in w.orders && w.orders[id].outcome == Some(Rejected) ==> id !in w.flight && !Underway(w, id)
  }

  /** An order yet to be sent is unknown to the venue, and no other call is concerned with it. */
  ghost predicate BoundAlone(w: World) {
    forall j, id :: 0 <= j < |w.jobs| && Bound(w.jobs[j], id) && Open(w, id) ==>
      && id !in w.placed && id !in w.flight
      && forall k :: 0 <= k < |w.jobs| && k != j ==> !Involved(w.jobs[k], id)
  }

  /** What a call is about to store is true, and a rejection final. */
  ghost predicate JobTells(w: World, m: Machine) {
    m.state == PersistingOutcome && m.id.Some? && m.outcome.Some? && Open(w, m.id.value) ==>
      && Tells(m.outcome.value, m.id.value, w.placed)
      && (m.outcome == Some(Rejected) ==> m.id.value !in w.flight)
  }

  ghost predicate AllTell(w: World) {
    forall j :: 0 <= j < |w.jobs| ==> JobTells(w, w.jobs[j].m)
  }

  ghost predicate True(w: World) {
    Faithful(w) && RejectedIsOver(w) && BoundAlone(w) && AllTell(w)
  }

  // ---- Preservation

  lemma AdmittedIsBound(id: string, intent: Intent, approved: bool)
    requires Asked(id, intent, approved).state != Idle
    ensures forall x :: Bound(Order(Asked(id, intent, approved)), x) <==> x == id
    ensures forall x :: Involved(Order(Asked(id, intent, approved)), x) <==> x == id
    ensures Asked(id, intent, approved).state == PersistingIntent
  {
    hide ClientOrderId;
    hide WellFormed;
  }

  lemma StartKeepsTrue(w: World, a: Action)
    requires True(w) && Clean(w, a) && a.StartOrder?
    ensures True(Step(w, a))
  {
    hide Asked;
    hide Involved;
    hide Bound;
    hide Tells;
    if Asked(a.id, a.intent, a.approved).state != Idle {
      AdmittedIsBound(a.id, a.intent, a.approved);
      var v := Step(w, a);
      assert forall j :: 0 <= j < |w.jobs| ==> v.jobs[j] == w.jobs[j];
      BoundMeansInvolved(w);
      forall id | id in v.orders && v.orders[id].outcome == Some(Rejected) ensures id !in v.flight && !Underway(v, id) {
        assert !Underway(w, id);
      }
    }
  }

  lemma BoundMeansInvolved(w: World)
    ensures forall j, id :: 0 <= j < |w.jobs| && Bound(w.jobs[j], id) ==> Involved(w.jobs[j], id)
  {
  }

  /** The calls change as one of them does; the venue and the table stand. */
  ghost predicate OneCall(w: World, v: World, j: nat) {
    && j < |w.jobs| == |v.jobs| && v == w.(jobs := w.jobs[j := v.jobs[j]])
  }

  /** A call that is concerned with no more than before, and tells no lie, keeps the truth. */
  lemma OneCallKeepsTrue(w: World, v: World, j: nat)
    requires True(w) && OneCall(w, v, j) && JobTells(v, v.jobs[j].m)
    requires forall id :: Involved(v.jobs[j], id) && Open(w, id) && Underway(w, id) ==> Involved(w.jobs[j], id)
    requires forall id :: Bound(v.jobs[j], id) ==> Bound(w.jobs[j], id)
    ensures True(v)
  {
    hide Involved;
    hide Tells;
    forall id | id in v.orders && v.orders[id].outcome == Some(Rejected) ensures !Underway(v, id) {
      assert !Underway(w, id);
    }
    forall i, id | 0 <= i < |v.jobs| && Bound(v.jobs[i], id) && Open(v, id)
      ensures id !in v.placed && id !in v.flight
      ensures forall k :: 0 <= k < |v.jobs| && k != i ==> !Involved(v.jobs[k], id)
    {
      assert Bound(w.jobs[i], id) && Open(w, id) && Underway(w, id);
    }
    forall i | 0 <= i < |v.jobs| ensures JobTells(v, v.jobs[i].m) {
      assert i != j ==> JobTells(w, w.jobs[i].m);
    }
  }

  lemma RecoveryKeepsTrue(w: World, a: Action)
    requires Kept(w) && True(w) && Clean(w, a) && Enabled(w, a) && (a.Load? || a.Take?)
    ensures True(Step(w, a))
  {
    hide ClientOrderId;
    hide WellFormed;
    hide True;
    var v, job := Step(w, a), w.jobs[a.j];
    assert JobFits(w, job);
    if a.Load? {
      LoadConcernsNobody(w, a);
    } else {
      TakingReconciles(w, a.j);
      TakeConcernsNoMore(w, a);
    }
    OneCallKeepsTrue(w, v, a.j);
  }

  lemma LoadConcernsNobody(w: World, a: Action)
    requires True(w) && Clean(w, a) && a.Load? && Enabled(w, a)
    ensures forall id :: Involved(Step(w, a).jobs[a.j], id) ==> !Underway(w, id)
  {
    var v := Step(w, a);
    forall id | Involved(v.jobs[a.j], id) ensures !Underway(w, id) {
      var k :| 0 <= k < |a.queue| && a.queue[k].id == id;
      assert a.queue[k] in a.queue && Unresolved(a.queue[k], w.orders);
    }
  }

  lemma TakeConcernsNoMore(w: World, a: Action)
    requires Kept(w) && a.Take? && Enabled(w, a)
    ensures forall id :: Involved(Step(w, a).jobs[a.j], id) ==> Involved(w.jobs[a.j], id)
  {
    hide ClientOrderId;
    hide WellFormed;
    TakingReconciles(w, a.j);
    var job, next := w.jobs[a.j], Step(w, a).jobs[a.j];
    forall id | Involved(next, id) ensures Involved(job, id) {
      if k :| 0 <= k < |next.queue| && next.queue[k].id == id {
        assert job.queue[k + 1].id == id;
      } else {
        assert job.queue[0].id == id;
      }
    }
  }

  lemma QuietKeepsTrue(w: World, a: Action)
    requires Kept(w) && True(w) && Clean(w, a) && Enabled(w, a) && (a.Sign? || a.Reconcile?)
    ensures True(Step(w, a))
  {
    hide ClientOrderId;
    hide WellFormed;
    hide True;
    assert JobFits(w, w.jobs[a.j]);
    OneCallKeepsTrue(w, Step(w, a), a.j);
  }

  lemma StoreIntentKeepsTrue(w: World, a: Action)
    requires Kept(w) && True(w) && Enabled(w, a) && a.StoreIntent?
    ensures True(Step(w, a))
  {
    hide ClientOrderId;
    hide WellFormed;
    hide True;
    var v := Step(w, a);
    var stored := w.(orders := v.orders);
    assert JobFits(w, w.jobs[a.j]);
    StoringKeepsTrue(w, stored);
    OneCallKeepsTrue(stored, v, a.j);
  }

  /** A new row without an outcome changes nothing. */
  lemma StoringKeepsTrue(w: World, v: World)
    requires True(w) && v == w.(orders := v.orders) && Extends(v.orders, w.orders)
    requires forall id :: id in v.orders ==> Open(v, id) || id in w.orders
    requires forall id :: id in w.orders ==> v.orders[id] == w.orders[id]
    ensures True(v)
  {
    hide Involved;
    assert forall id :: Open(v, id) <==> Open(w, id);
    forall id | id in v.orders && v.orders[id].outcome == Some(Rejected) ensures !Underway(v, id) {
      assert !Underway(w, id);
    }
    forall j | 0 <= j < |v.jobs| ensures JobTells(v, v.jobs[j].m) {
      assert JobTells(w, w.jobs[j].m);
    }
  }

  /** Sending: what the venue learns is about an id that no other open call is concerned with. */
  lemma SubmitKeepsTrue(w: World, a: Action)
    requires Kept(w) && True(w) && Enabled(w, a) && a.Submit?
    ensures True(Step(w, a))
  {
    hide ClientOrderId;
    hide WellFormed;
    hide Involved;
    var v, id := Step(w, a), w.jobs[a.j].m.id.value;
    assert JobFits(w, w.jobs[a.j]);
    assert Bound(w.jobs[a.j], id) && Underway(w, id);
    SentConcernsNoMore(w, a);
    OthersTell(w, a.j, id, v);
    forall x | x in v.orders && v.orders[x].outcome == Some(Rejected) ensures x !in v.flight && !Underway(v, x) {
      assert !Underway(w, x);
    }
    forall i, x | 0 <= i < |v.jobs| && Bound(v.jobs[i], x) && Open(v, x)
      ensures x !in v.placed && x !in v.flight
      ensures forall k :: 0 <= k < |v.jobs| && k != i ==> !Involved(v.jobs[k], x)
    {
      assert Bound(w.jobs[i], x) && i != a.j;
      assert !Involved(w.jobs[a.j], x);
    }
  }

  lemma SentConcernsNoMore(w: World, a: Action)
    requires Kept(w) && Enabled(w, a) && a.Submit?
    ensures forall x :: !Bound(Step(w, a).jobs[a.j], x)
    ensures forall x :: Involved(Step(w, a).jobs[a.j], x) ==> Involved(w.jobs[a.j], x)
    ensures forall x :: Bound(w.jobs[a.j], x) ==> Involved(w.jobs[a.j], x)
  {
    assert JobFits(w, w.jobs[a.j]);
  }

  /** What the venue learns of one id leaves what the other calls tell true. */
  lemma OthersTell(w: World, j: nat, id: string, v: World)
    requires True(w) && j < |w.jobs| && Bound(w.jobs[j], id) && v.orders == w.orders
    requires forall x :: x != id ==> (x in v.placed <==> x in w.placed) && (x in v.flight <==> x in w.flight)
    ensures forall k :: 0 <= k < |w.jobs| && k != j ==> JobTells(v, w.jobs[k].m)
  {
    forall k | 0 <= k < |w.jobs| && k != j ensures JobTells(v, w.jobs[k].m) {
      assert JobTells(w, w.jobs[k].m);
      assert Open(w, id) ==> !Involved(w.jobs[k], id);
    }
  }

  lemma CrashKeepsTrue(w: World, a: Action)
    requires Kept(w) && True(w) && (a.Crash? || (a.SubmitThenCrash? && Enabled(w, a)))
    ensures True(Step(w, a))
  {
    hide ClientOrderId;
    hide WellFormed;
    hide Involved;
    if a.SubmitThenCrash? {
      var id := w.jobs[a.j].m.id.value;
      assert JobFits(w, w.jobs[a.j]);
      assert Bound(w.jobs[a.j], id) && Underway(w, id);
    }
    assert forall id :: !Underway(Step(w, a), id);
  }

  /** A late request is for an order nobody has called rejected. */
  lemma NetworkKeepsTrue(w: World, a: Action)
    requires True(w) && Enabled(w, a) && (a.Arrive? || a.Lapse?)
    ensures True(Step(w, a))
  {
    hide Involved;
    var v := Step(w, a);
    assert v.jobs == w.jobs && v.orders == w.orders;
    assert forall id :: id in v.flight ==> id in w.flight;
    forall j | 0 <= j < |v.jobs| ensures JobTells(v, v.jobs[j].m) {
      assert JobTells(w, w.jobs[j].m);
    }
    forall id | id in v.orders && v.orders[id].outcome == Some(Rejected) ensures !Underway(v, id) {
      assert !Underway(w, id);
    }
  }

  /** Writing a true outcome closes its order: nobody is still to send it. */
  lemma SettlingKeepsTrue(w: World, v: World, j: nat, at: int)
    requires True(w) && j < |w.jobs| && w.jobs[j].m.state == PersistingOutcome && w.jobs[j].m.id.Some? && w.jobs[j].m.outcome.Some?
    requires v == w.(orders := Settle(w.orders, w.jobs[j].m.id.value, w.jobs[j].m.outcome.value, at))
    ensures True(v)
  {
    hide Involved;
    var id, outcome := w.jobs[j].m.id.value, w.jobs[j].m.outcome.value;
    assert JobTells(w, w.jobs[j].m);
    SettlingIsInvolved(w, j);
    assert forall x :: Open(v, x) ==> Open(w, x);
    forall x | x in v.orders && v.orders[x].outcome == Some(Rejected) ensures x !in v.flight && !Underway(v, x) {
      if w.orders[x].outcome != Some(Rejected) {
        NobodyIsBound(w, j, id);
      } else {
        assert !Underway(w, x);
      }
    }
    forall k | 0 <= k < |v.jobs| ensures JobTells(v, v.jobs[k].m) {
      assert JobTells(w, w.jobs[k].m);
    }
  }

  lemma SettlingIsInvolved(w: World, j: nat)
    requires j < |w.jobs| && w.jobs[j].m.state == PersistingOutcome && w.jobs[j].m.id.Some?
    ensures Involved(w.jobs[j], w.jobs[j].m.id.value) && !Bound(w.jobs[j], w.jobs[j].m.id.value)
  {
  }

  lemma NobodyIsBound(w: World, j: nat, id: string)
    requires BoundAlone(w) && Open(w, id) && j < |w.jobs| && Involved(w.jobs[j], id) && !Bound(w.jobs[j], id)
    ensures !Underway(w, id)
  {
    hide Involved;
  }

  lemma StoreOutcomeKeepsTrue(w: World, a: Action)
    requires Kept(w) && True(w) && Enabled(w, a) && a.StoreOutcome?
    ensures True(Step(w, a))
  {
    hide ClientOrderId;
    hide WellFormed;
    hide True;
    var v := Step(w, a);
    var stored := w.(orders := v.orders);
    assert JobFits(w, w.jobs[a.j]);
    if a.written {
      SettlingKeepsTrue(w, stored, a.j, a.at);
    }
    OneCallKeepsTrue(stored, v, a.j);
  }

  lemma NewRecoveryKeepsTrue(w: World)
    requires True(w)
    ensures True(Step(w, StartRecovery))
  {
    var v := Step(w, StartRecovery);
    assert forall id :: !Involved(v.jobs[|w.jobs|], id);
    assert forall j :: 0 <= j < |w.jobs| ==> v.jobs[j] == w.jobs[j];
    hide Involved;
    forall id | id in v.orders && v.orders[id].outcome == Some(Rejected) ensures !Underway(v, id) {
      assert !Underway(w, id);
    }
  }

  lemma StepKeepsTrue(w: World, a: Action)
    requires Kept(w) && True(w) && Clean(w, a)
    ensures True(Step(w, a))
  {
    hide Kept;
    hide True;
    hide Clean;
    hide Enabled;
    if Enabled(w, a) {
      match a
      case StartOrder(_, _, _) => StartKeepsTrue(w, a);
      case StartRecovery => NewRecoveryKeepsTrue(w);
      case StoreIntent(_, _, _, _) => StoreIntentKeepsTrue(w, a);
      case Sign(_, _) => QuietKeepsTrue(w, a);
      case Submit(_, _, _) => SubmitKeepsTrue(w, a);
      case SubmitThenCrash(_, _) => CrashKeepsTrue(w, a);
      case Load(_, _) => RecoveryKeepsTrue(w, a);
      case Take(_) => RecoveryKeepsTrue(w, a);
      case Reconcile(_, _) => QuietKeepsTrue(w, a);
      case StoreOutcome(_, _, _, _) => StoreOutcomeKeepsTrue(w, a);
      case Crash => CrashKeepsTrue(w, a);
      case Arrive(_) => NetworkKeepsTrue(w, a);
      case Lapse(_) => NetworkKeepsTrue(w, a);
    }
  }

  lemma {:induction false} CleanRunsAreTrue(actions: seq<Action>)
    requires CleanFrom(DAWN, actions)
    ensures True(Run(DAWN, actions))
  {
    hide Step;
    hide True;
    hide Kept;
    hide Clean;
    if actions == [] {
      DawnIsTrue();
    } else {
      var before, a := Run(DAWN, actions[..|actions| - 1]), actions[|actions| - 1];
      CleanRunsAreTrue(actions[..|actions| - 1]);
      EveryRunKeeps(actions[..|actions| - 1]);
      StepKeepsTrue(before, a);
    }
  }

  lemma DawnIsTrue()
    ensures True(DAWN)
  {
  }

  lemma TrueIsFaithful(w: World)
    requires True(w)
    ensures Faithful(w)
  {
    hide RejectedIsOver;
    hide BoundAlone;
    hide AllTell;
  }

  /** While every action is clean, a stored outcome is what the venue did, over any crashes, lost answers,
      late arrivals and any other interleaving; and a rejection stays true whatever the network still does. */
  lemma StoredOutcomesAreTrue(actions: seq<Action>, id: string)
    requires CleanFrom(DAWN, actions) && id in Run(DAWN, actions).orders && Run(DAWN, actions).orders[id].outcome.Some?
    ensures var w := Run(DAWN, actions);
            && (w.orders[id].outcome.value == Accepted <==> id in w.placed)
            && (w.orders[id].outcome.value == Rejected ==> id !in w.flight)
  {
    hide AllTell;
    hide BoundAlone;
    CleanRunsAreTrue(actions);
  }
}
