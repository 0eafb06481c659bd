/** The conditions on perp orders are exact: whatever breaks one can end with a false outcome in the table. */
module PerpDoubt {
  import opened Basics
  import opened PerpStore
  import opened PerpOrders
  import opened PerpReuse
  import opened PerpTruth

  /** Some clean continuation stores what the venue did not do. */
  ghost predicate Betrays(w: World) {
    exists more :: CleanFrom(w, more) && !Faithful(Run(w, more))
  }

  lemma BetraysNow(w: World)
    requires !Faithful(w)
    ensures Betrays(w)
  {
    assert CleanFrom(w, []) && Run(w, []) == w;
  }

  lemma {:induction false} CleanJoins(w: World, a: seq<Action>, b: seq<Action>)
    requires CleanFrom(w, a) && CleanFrom(Run(w, a), b)
    ensures CleanFrom(w, a + b)
  {
    hide Clean;
    hide Step;
    if b == [] {
      assert a + b == a;
    } else {
      var shorter := b[..|b| - 1];
      CleanJoins(w, a, shorter);
      RunJoins(w, a, shorter);
      assert (a + b)[..|a + b| - 1] == a + shorter;
    }
  }

  lemma BetraysAfter(w: World, actions: seq<Action>)
    requires CleanFrom(w, actions) && Betrays(Run(w, actions))
    ensures Betrays(w)
  {
    hide Faithful;
    hide CleanFrom;
    hide Run;
    var more :| CleanFrom(Run(w, actions), more) && !Faithful(Run(Run(w, actions), more));
    CleanJoins(w, actions, more);
    RunJoins(w, actions, more);
  }

  lemma BetraysOn(w: World, a: Action)
    requires Clean(w, a) && Betrays(Step(w, a))
    ensures Betrays(w)
  {
    hide Faithful;
    hide Clean;
    hide Step;
    hide Betrays;
    assert [a][..0] == [];
    assert CleanFrom(w, []) && CleanFrom(w, [a]) && Run(w, [a]) == Step(w, a);
    BetraysAfter(w, [a]);
  }

  lemma DrivingIsClean(w: World, s: State, j: nat, fate: Fate, answer: Event)
    ensures CleanFrom(w, Drive(s, j, fate, answer))
  {
    hide Step;
    var actions := Drive(s, j, fate, answer);
    PlainIsClean(w, actions);
  }

  lemma {:induction false} PlainIsClean(w: World, actions: seq<Action>)
    requires forall i :: 0 <= i < |actions| ==> !actions[i].StartOrder? && !actions[i].Load? && !actions[i].Reconcile?
    ensures CleanFrom(w, actions)
  {
    hide Step;
    if actions != [] {
      PlainIsClean(w, actions[..|actions| - 1]);
    }
  }

  // ---- A rejection ahead of the sending

  ghost predicate Sendable(w: World, i: nat, id: string) {
    Kept(w) && i < |w.jobs| && Bound(w.jobs[i], id)
  }

  /** Stored as rejected, and then sent and taken in. */
  lemma RejectedThenSent(w: World, i: nat, id: string)
    requires Sendable(w, i, id) && id in w.orders && w.orders[id].outcome == Some(Rejected)
    ensures Betrays(w)
  {
    hide Kept;
    hide Run;
    hide Drive;
    hide Betrays;
    KeptIntent(w, i);
    var drive := Drive(w.jobs[i].m.state, i, Taken, SubmitAccepted);
    DrivingIsClean(w, w.jobs[i].m.state, i, Taken, SubmitAccepted);
    DriveSends(w, i, Taken, SubmitAccepted);
    assert !Tells(Rejected, id, Run(w, drive).placed);
    BetraysNow(Run(w, drive));
    BetraysAfter(w, drive);
  }

  /** A call is about to store a rejection of the order another call is about to send. */
  lemma StoredThenSent(w: World, i: nat, j: nat, id: string)
    requires Sendable(w, i, id) && j != i && At(w, j, PersistingOutcome) && w.jobs[j].m.id == Some(id)
    requires w.jobs[j].m.outcome == Some(Rejected) && id in w.orders && Open(w, id)
    ensures Betrays(w)
  {
    hide Kept;
    hide Betrays;
    var a := StoreOutcome(j, true, true, 0);
    StepKeeps(w, a);
    RejectedThenSent(Step(w, a), i, id);
    BetraysOn(w, a);
  }

  /** A call asks about an order the venue does not know, while another is about to send it. */
  lemma AskedThenSent(w: World, i: nat, j: nat, id: string)
    requires Sendable(w, i, id) && j != i && At(w, j, Reconciling) && w.jobs[j].m.id == Some(id)
    requires Open(w, id) && id !in w.placed
    ensures Betrays(w)
    decreases w.flight[id]
  {
    hide Kept;
    hide Betrays;
    IsStored(w, j);
    if id in w.flight {
      StepKeeps(w, Lapse(id));
      AskedThenSent(Step(w, Lapse(id)), i, j, id);
      BetraysOn(w, Lapse(id));
    } else {
      var a := Reconcile(j, Some(Rejected));
      StepKeeps(w, a);
      StoredThenSent(Step(w, a), i, j, id);
      BetraysOn(w, a);
    }
  }

  lemma IsStored(w: World, j: nat)
    requires Kept(w) && (At(w, j, Reconciling) || At(w, j, PersistingOutcome))
    ensures w.jobs[j].m.id.value in w.orders
  {
    assert JobFits(w, w.jobs[j]);
  }

  predicate Free(m: Machine) {
    m.state in {Idle, Settled, Failed}
  }

  /** A recovery will ask about it after k others. */
  lemma QueuedThenSent(w: World, i: nat, j: nat, k: nat, id: string)
    requires Sendable(w, i, id) && j != i && j < |w.jobs| && w.jobs[j].Recovery? && w.jobs[j].loaded && Free(w.jobs[j].m)
    requires k < |w.jobs[j].queue| && w.jobs[j].queue[k].id == id && Open(w, id) && id !in w.placed
    ensures Betrays(w)
    decreases k
  {
    hide Kept;
    hide Betrays;
    var take, skip := Take(j), Reconcile(j, None);
    TakingReconciles(w, j);
    StepKeeps(w, take);
    var taken := Step(w, take);
    if k == 0 {
      AskedThenSent(taken, i, j, id);
    } else {
      StepKeeps(taken, skip);
      QueuedThenSent(Step(taken, skip), i, j, k - 1, id);
      BetraysOn(taken, skip);
    }
    BetraysOn(w, take);
  }

  /** It may first have to finish with another order. */
  lemma WaitsThenSent(w: World, i: nat, j: nat, id: string)
    requires Sendable(w, i, id) && j != i && j < |w.jobs| && Waits(w.jobs[j], id) && Open(w, id) && id !in w.placed
    ensures Betrays(w)
  {
    hide Betrays;
    hide ClientOrderId;
    hide WellFormed;
    var k :| 0 <= k < |w.jobs[j].queue| && w.jobs[j].queue[k].id == id;
    assert JobFits(w, w.jobs[j]);
    if Free(w.jobs[j].m) {
      QueuedThenSent(w, i, j, k, id);
    } else {
      var a := if w.jobs[j].m.state == Reconciling then Reconcile(j, None) else StoreOutcome(j, false, false, 0);
      StepKeeps(w, a);
      GivingUpFrees(w, i, j, id, a);
      hide Sendable;
      hide Open;
      hide Step;
      QueuedThenSent(Step(w, a), i, j, k, id);
      BetraysOn(w, a);
    }
  }

  /** A recovery that gets no answer, or cannot store it, is free again, and nothing else has changed. */
  lemma GivingUpFrees(w: World, i: nat, j: nat, id: string, a: Action)
    requires Sendable(w, i, id) && j != i && j < |w.jobs| && Waits(w.jobs[j], id) && Open(w, id) && id !in w.placed
    requires !Free(w.jobs[j].m) && JobFits(w, w.jobs[j]) && Kept(Step(w, a))
    requires a == if w.jobs[j].m.state == Reconciling then Reconcile(j, None) else StoreOutcome(j, false, false, 0)
    ensures var v := Step(w, a);
            && Sendable(v, i, id) && |v.jobs| == |w.jobs| && v.jobs[j].Recovery? && v.jobs[j].loaded && Free(v.jobs[j].m)
            && v.jobs[j].queue == w.jobs[j].queue && Open(v, id) && id !in v.placed
  {
    hide Kept;
    hide ClientOrderId;
    hide WellFormed;
  }

  /** Two calls send the same order: the venue turns one request down and takes the other in. */
  lemma SentTwiceOver(w: World, i: nat, j: nat, id: string)
    requires Sendable(w, i, id) && j != i && j < |w.jobs| && Bound(w.jobs[j], id) && Open(w, id)
    ensures Betrays(w)
  {
    hide Kept;
    hide Run;
    hide Drive;
    hide Betrays;
    KeptIntent(w, j);
    var state := w.jobs[j].m.state;
    var drive := Drive(state, j, Turned, SubmitRejected);
    DrivingIsClean(w, state, j, Turned, SubmitRejected);
    DriveSends(w, j, Turned, SubmitRejected);
    RunKeeps(w, drive);
    var v := Run(w, drive);
    IsStored(v, j);
    StoredThenSent(v, i, j, id);
    BetraysAfter(w, drive);
  }

  lemma InvolvedThenSent(w: World, i: nat, j: nat, id: string)
    requires Sendable(w, i, id) && j != i && j < |w.jobs| && Involved(w.jobs[j], id) && JobTells(w, w.jobs[j].m)
    requires Open(w, id) && id !in w.placed
    ensures Betrays(w)
  {
    hide Betrays;
    hide ClientOrderId;
    hide WellFormed;
    hide Waits;
    assert JobFits(w, w.jobs[j]);
    if Bound(w.jobs[j], id) {
      SentTwiceOver(w, i, j, id);
    } else if Waits(w.jobs[j], id) {
      WaitsThenSent(w, i, j, id);
    } else if w.jobs[j].m.state == Reconciling {
      AskedThenSent(w, i, j, id);
    } else {
      StoredThenSent(w, i, j, id);
    }
  }

  /** The venue turns this request down, yet another one was taken in or still arrives. */
  lemma TurnedAway(w: World, i: nat, id: string)
    requires Sendable(w, i, id) && Open(w, id) && (id in w.placed || id in w.flight)
    ensures Betrays(w)
  {
    hide Kept;
    hide Run;
    hide Drive;
    hide Betrays;
    KeptIntent(w, i);
    var state := w.jobs[i].m.state;
    var drive := Drive(state, i, Turned, SubmitRejected);
    DrivingIsClean(w, state, i, Turned, SubmitRejected);
    DriveSends(w, i, Turned, SubmitRejected);
    RunKeeps(w, drive);
    var v := Run(w, drive);
    IsStored(v, i);
    var a := StoreOutcome(i, true, true, 0);
    StoredRejected(v, i, id);
    RejectedYetKnown(Step(v, a), id);
    BetraysOn(v, a);
    BetraysAfter(w, drive);
  }

  lemma StoredRejected(v: World, i: nat, id: string)
    requires At(v, i, PersistingOutcome) && v.jobs[i].m.id == Some(id) && v.jobs[i].m.outcome == Some(Rejected)
    requires id in v.orders && Open(v, id)
    ensures var u := Step(v, StoreOutcome(i, true, true, 0));
            id in u.orders && u.orders[id].outcome == Some(Rejected) && u.placed == v.placed && u.flight == v.flight
  {
  }

  lemma RejectedYetKnown(w: World, id: string)
    requires id in w.orders && w.orders[id].outcome == Some(Rejected) && (id in w.placed || id in w.flight)
    ensures Betrays(w)
  {
    hide Betrays;
    if id in w.placed {
      assert !Tells(Rejected, id, w.placed);
      BetraysNow(w);
    } else {
      var v := Step(w, Arrive(id));
      assert !Tells(Rejected, id, v.placed);
      BetraysNow(v);
      BetraysOn(w, Arrive(id));
    }
  }

  // ---- What an unclean action does

  lemma UncleanStartBetrays(w: World, a: Action)
    requires Kept(w) && True(w) && a.StartOrder? && !Clean(w, a)
    ensures Betrays(Step(w, a))
  {
    hide Betrays;
    hide Kept;
    hide Involved;
    hide Asked;
    AdmittedIsBound(a.id, a.intent, a.approved);
    StepKeeps(w, a);
    var v, n := Step(w, a), |w.jobs|;
    assert v.jobs[n] == Order(Asked(a.id, a.intent, a.approved));
    if !Open(w, a.id) {
      RejectedThenSent(v, n, a.id);
    } else if a.id in w.placed || a.id in w.flight {
      TurnedAway(v, n, a.id);
    } else {
      var j :| 0 <= j < |w.jobs| && Involved(w.jobs[j], a.id);
      assert v.jobs[j] == w.jobs[j] && JobTells(w, w.jobs[j].m);
      InvolvedThenSent(v, n, j, a.id);
    }
  }

  lemma UncleanLoadBetrays(w: World, a: Action)
    requires Kept(w) && a.Load? && Enabled(w, a) && !Clean(w, a)
    ensures Betrays(Step(w, a))
  {
    hide Betrays;
    hide Kept;
    var x :| x in a.queue && Underway(w, x.id) && x.id !in w.placed;
    var k :| 0 <= k < |a.queue| && a.queue[k] == x;
    var i :| 0 <= i < |w.jobs| && Bound(w.jobs[i], x.id);
    StepKeeps(w, a);
    assert Unresolved(a.queue[k], w.orders);
    QueuedThenSent(Step(w, a), i, a.j, k, x.id);
  }

  lemma UncleanAnswerBetrays(w: World, a: Action)
    requires Kept(w) && a.Reconcile? && Enabled(w, a) && !Clean(w, a)
    ensures Betrays(Step(w, a))
  {
    hide Betrays;
    hide Kept;
    var id, v := w.jobs[a.j].m.id.value, Step(w, a);
    IsStored(w, a.j);
    if Open(w, id) {
      StoredRejected(v, a.j, id);
      RejectedYetKnown(Step(v, StoreOutcome(a.j, true, true, 0)), id);
      BetraysOn(v, StoreOutcome(a.j, true, true, 0));
    } else if w.orders[id].outcome == Some(Rejected) {
      RejectedYetKnown(v, id);
    } else {
      assert !Tells(Accepted, id, v.placed);
      BetraysNow(v);
    }
  }

  // ---- The theorems

  /** Whatever came before, a load of an order yet to be sent has a clean continuation with a false outcome. */
  lemma DirtyLoadMisjudges(actions: seq<Action>, a: Action)
    requires a.Load? && Enabled(Run(DAWN, actions), a) && !Clean(Run(DAWN, actions), a)
    ensures exists more :: CleanFrom(Run(DAWN, actions + [a]), more) && !Faithful(Run(Run(DAWN, actions + [a]), more))
  {
    hide Step;
    hide Clean;
    hide Enabled;
    EveryRunKeeps(actions);
    RunMore(DAWN, actions, a);
    UncleanLoadBetrays(Run(DAWN, actions), a);
  }

  /** And so has an answer that an order was never placed, taken while its request may still arrive. */
  lemma HastyAnswerMisjudges(actions: seq<Action>, a: Action)
    requires a.Reconcile? && Enabled(Run(DAWN, actions), a) && !Clean(Run(DAWN, actions), a)
    ensures exists more :: CleanFrom(Run(DAWN, actions + [a]), more) && !Faithful(Run(Run(DAWN, actions + [a]), more))
  {
    hide Step;
    hide Clean;
    hide Enabled;
    EveryRunKeeps(actions);
    RunMore(DAWN, actions, a);
    UncleanAnswerBetrays(Run(DAWN, actions), a);
  }

  /** The condition is exact, action by action: after a clean run, a further start, load or answer leaves every
      clean continuation faithful if and only if it is clean itself. */
  lemma ActionsDecide(actions: seq<Action>, a: Action)
    requires CleanFrom(DAWN, actions) && Enabled(Run(DAWN, actions), a)
    ensures Clean(Run(DAWN, actions), a)
            <==> forall more :: CleanFrom(Run(DAWN, actions + [a]), more) ==> Faithful(Run(DAWN, actions + [a] + more))
  {
    hide Clean;
    hide Enabled;
    hide Step;
    hide True;
    hide Kept;
    hide Faithful;
    var w := Run(DAWN, actions);
    EveryRunKeeps(actions);
    CleanRunsAreTrue(actions);
    RunMore(DAWN, actions, a);
    if Clean(w, a) {
      forall more | CleanFrom(Run(DAWN, actions + [a]), more) ensures Faithful(Run(DAWN, actions + [a] + more)) {
        assert (actions + [a])[..|actions + [a]| - 1] == actions;
        CleanJoins(DAWN, actions + [a], more);
        CleanRunsAreTrue(actions + [a] + more);
        TrueIsFaithful(Run(DAWN, actions + [a] + more));
      }
    } else {
      UncleanBetrays(w, a);
      var more :| CleanFrom(Step(w, a), more) && !Faithful(Run(Step(w, a), more));
      RunJoins(DAWN, actions + [a], more);
    }
  }

  lemma UncleanBetrays(w: World, a: Action)
    requires Kept(w) && True(w) && Enabled(w, a) && !Clean(w, a)
    ensures Betrays(Step(w, a))
  {
    hide Betrays;
    hide Enabled;
    hide Kept;
    hide True;
    OnlyThreeAreUnclean(w, a);
    hide Clean;
    if a.StartOrder? {
      UncleanStartBetrays(w, a);
    } else if a.Load? {
      UncleanLoadBetrays(w, a);
    } else {
      UncleanAnswerBetrays(w, a);
    }
  }

  lemma OnlyThreeAreUnclean(w: World, a: Action)
    requires !Clean(w, a)
    ensures a.StartOrder? || a.Load? || a.Reconcile?
  {
  }

  // ---- Both happen

  /** An order is sent and its answer lost; asked at once, the venue has not seen it; then it arrives. */
  function Hasty(): seq<Action> {
    [StartOrder(ORDER_ID, FIRST_INTENT, true)] + Drive(PersistingIntent, 0, InFlight, SubmitUnknown)
  }

  function Judged(): seq<Action> {
    Hasty() + [Reconcile(0, Some(Rejected))] + [StoreOutcome(0, true, true, 0)]
  }

  lemma AnswerIsLost() returns (w: World)
    ensures w == Run(DAWN, Hasty())
    ensures w.orders.Keys == {ORDER_ID} && w.orders[ORDER_ID].outcome.None? && w.placed == {} && w.flight == multiset{ORDER_ID}
    ensures |w.jobs| == 1 && At(w, 0, Reconciling) && w.jobs[0].m.id == Some(ORDER_ID) && w.log == [Sent(ORDER_ID, FIRST_INTENT)]
  {
    hide Run;
    assert ClientOrderId(ORDER_ID);
    var start := StartOrder(ORDER_ID, FIRST_INTENT, true);
    var one := Step(DAWN, start);
    RunFirst(DAWN, start, Drive(PersistingIntent, 0, InFlight, SubmitUnknown));
    DriveSends(one, 0, InFlight, SubmitUnknown);
    w := Run(one, Drive(PersistingIntent, 0, InFlight, SubmitUnknown));
  }

  /** No recovery is involved: the call that sent the order misjudges it. */
  lemma LateArrivalHappens()
    ensures Enabled(Run(DAWN, Hasty()), Reconcile(0, Some(Rejected))) && !Clean(Run(DAWN, Hasty()), Reconcile(0, Some(Rejected)))
    ensures var before, after := Run(DAWN, Judged()), Run(DAWN, Judged() + [Arrive(ORDER_ID)]);
            && Faithful(before)
            && ORDER_ID in after.orders && after.orders[ORDER_ID].outcome == Some(Rejected) && ORDER_ID in after.placed
  {
    hide Run;
    hide Drive;
    hide Hasty;
    var w := AnswerIsLost();
    var ask, store := Reconcile(0, Some(Rejected)), StoreOutcome(0, true, true, 0);
    RunMore(DAWN, Hasty(), ask);
    RunMore(DAWN, Hasty() + [ask], store);
    RunMore(DAWN, Judged(), Arrive(ORDER_ID));
    var judged := Step(Step(w, ask), store);
    assert judged.orders[ORDER_ID].outcome == Some(Rejected) && judged.placed == {} && judged.flight == w.flight;
  }

  /** A recovery that starts right after an order was stored. */
  const OVERLAP := [StartOrder(ORDER_ID, FIRST_INTENT, true)] + [StoreIntent(0, true, true, 0)] + [StartRecovery]
  const OVERLAPPING := Load(1, [Pending(ORDER_ID, FIRST_INTENT)])

  lemma OverlapBegins() returns (w: World)
    ensures w == Run(DAWN, OVERLAP)
    ensures w.orders == map[ORDER_ID := Row(FIRST_INTENT, None, 0, None)] && w.placed == {}
    ensures |w.jobs| == 2 && At(w, 0, Signing) && w.jobs[0].Order? && w.jobs[0].m.id == Some(ORDER_ID)
    ensures w.jobs[1] == Recovery(false, [], NEW)
  {
    hide Run;
    assert ClientOrderId(ORDER_ID);
    var start, store := StartOrder(ORDER_ID, FIRST_INTENT, true), StoreIntent(0, true, true, 0);
    RunFirst(DAWN, start, [store] + [StartRecovery]);
    assert [start] + ([store] + [StartRecovery]) == OVERLAP;
    RunFirst(Step(DAWN, start), store, [StartRecovery]);
    assert [StartRecovery] == [StartRecovery] + [];
    var stored := Step(Step(DAWN, start), store);
    RunFirst(stored, StartRecovery, []);
    NothingRun(Step(stored, StartRecovery));
    w := Step(stored, StartRecovery);
  }

  /** Its load returns that order, whose call is about to sign, and it goes on to ask about it. */
  lemma OverlapHappens()
    ensures Enabled(Run(DAWN, OVERLAP), OVERLAPPING) && !Clean(Run(DAWN, OVERLAP), OVERLAPPING)
    ensures var w := Run(DAWN, OVERLAP + [OVERLAPPING] + [Take(1)]);
            && At(w, 0, Signing) && At(w, 1, Reconciling) && w.jobs[0].m.id == Some(ORDER_ID) == w.jobs[1].m.id
            && ORDER_ID in w.orders && w.orders[ORDER_ID].outcome.None? && ORDER_ID !in w.placed
  {
    hide Run;
    assert ClientOrderId(ORDER_ID);
    var w := OverlapBegins();
    var queue := [Pending(ORDER_ID, FIRST_INTENT)];
    assert IsQueue(queue, w.orders);
    assert Bound(w.jobs[0], ORDER_ID) && queue[0] in queue;
    RunMore(DAWN, OVERLAP, OVERLAPPING);
    RunMore(DAWN, OVERLAP + [OVERLAPPING], Take(1));
    assert queue[1..] == [];
  }
}
