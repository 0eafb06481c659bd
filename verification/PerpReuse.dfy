/** Which starts of perp orders keep every order sent once, with the intent stored for it. */
module PerpReuse {
  import opened Basics
  import opened PerpStore
  import opened PerpOrders

  // ---- A call carried through to its sending

  /** What is left to do until the request of a call is answered. */
  function Drive(s: State, j: nat, fate: Fate, answer: Event): seq<Action> {
    (if s == PersistingIntent then [StoreIntent(j, true, true, 0)] else [])
    + (if s == PersistingIntent || s == Signing then [Sign(j, true)] else [])
    + [Submit(j, fate, answer)]
  }

  predicate Answers(fate: Fate, answer: Event) {
    (answer.SubmitAccepted? && fate.Taken?) || (answer.SubmitRejected? && fate.Turned?) || answer.SubmitUnknown?
  }

  /** The world in which call j has sent its order. */
  ghost predicate SentBy(w: World, j: nat, fate: Fate, answer: Event, v: World)
    requires j < |w.jobs| && w.jobs[j].m.id.Some? && w.jobs[j].m.intent.Some?
  {
    var m := w.jobs[j].m;
    var id := m.id.value;
    && v.log == w.log + [Sent(id, m.intent.value)]
    && v.orders == (if m.state == PersistingIntent then Insert(w.orders, id, m.intent.value, 0) else w.orders)
    && v.placed == (if fate.Taken? then w.placed + {id} else w.placed)
    && v.flight == (if fate.InFlight? then w.flight + multiset{id} else w.flight)
    && v.jobs == w.jobs[j := w.jobs[j].(m := Next(m.(state := Submitting), answer))]
  }

  lemma RunFirst(w: World, a: Action, rest: seq<Action>)
    ensures Run(w, [a] + rest) == Run(Step(w, a), rest)
  {
    hide Step;
    RunJoins(w, [a], rest);
    assert [a] == [] + [a];
    RunMore(w, [], a);
  }

  lemma SubmittingSends(w: World, j: nat, fate: Fate, answer: Event)
    requires At(w, j, Submitting) && Answers(fate, answer)
    ensures SentBy(w, j, fate, answer, Step(w, Submit(j, fate, answer)))
  {
  }

  lemma SigningSigns(w: World, j: nat)
    requires At(w, j, Signing)
    ensures var v := Step(w, Sign(j, true));
            v == w.(jobs := w.jobs[j := w.jobs[j].(m := w.jobs[j].m.(state := Submitting))]) && At(v, j, Submitting)
  {
  }

  lemma PersistingPersists(w: World, j: nat)
    requires At(w, j, PersistingIntent)
    ensures var v := Step(w, StoreIntent(j, true, true, 0));
            && v == w.(orders := Insert(w.orders, w.jobs[j].m.id.value, w.jobs[j].m.intent.value, 0),
                       jobs := w.jobs[j := w.jobs[j].(m := w.jobs[j].m.(state := Signing))])
            && At(v, j, Signing)
  {
  }

  lemma DriveFromSubmitting(w: World, j: nat, fate: Fate, answer: Event)
    requires At(w, j, Submitting) && Answers(fate, answer)
    ensures SentBy(w, j, fate, answer, Run(w, Drive(Submitting, j, fate, answer)))
  {
    hide Run;
    hide Step;
    SubmittingSends(w, j, fate, answer);
    RunFirst(w, Submit(j, fate, answer), []);
    assert Drive(Submitting, j, fate, answer) == [Submit(j, fate, answer)] + [];
    NothingRun(Step(w, Submit(j, fate, answer)));
  }

  lemma DriveFromSigning(w: World, j: nat, fate: Fate, answer: Event)
    requires At(w, j, Signing) && Answers(fate, answer)
    ensures SentBy(w, j, fate, answer, Run(w, Drive(Signing, j, fate, answer)))
  {
    hide Run;
    hide Step;
    SigningSigns(w, j);
    var v := Step(w, Sign(j, true));
    DriveFromSubmitting(v, j, fate, answer);
    RunFirst(w, Sign(j, true), Drive(Submitting, j, fate, answer));
    assert Drive(Signing, j, fate, answer) == [Sign(j, true)] + Drive(Submitting, j, fate, answer);
  }

  lemma DriveFromPersisting(w: World, j: nat, fate: Fate, answer: Event)
    requires At(w, j, PersistingIntent) && Answers(fate, answer)
    ensures SentBy(w, j, fate, answer, Run(w, Drive(PersistingIntent, j, fate, answer)))
  {
    hide Run;
    hide Step;
    PersistingPersists(w, j);
    var v := Step(w, StoreIntent(j, true, true, 0));
    DriveFromSigning(v, j, fate, answer);
    RunFirst(w, StoreIntent(j, true, true, 0), Drive(Signing, j, fate, answer));
    assert Drive(PersistingIntent, j, fate, answer) == [StoreIntent(j, true, true, 0)] + Drive(Signing, j, fate, answer);
  }

  lemma DriveSends(w: World, j: nat, fate: Fate, answer: Event)
    requires j < |w.jobs| && w.jobs[j].m.id.Some? && w.jobs[j].m.intent.Some? && Early(w.jobs[j].m) && Answers(fate, answer)
    ensures SentBy(w, j, fate, answer, Run(w, Drive(w.jobs[j].m.state, j, fate, answer)))
  {
    hide Run;
    hide SentBy;
    hide Drive;
    match w.jobs[j].m.state
    case PersistingIntent => DriveFromPersisting(w, j, fate, answer);
    case Signing => DriveFromSigning(w, j, fate, answer);
    case Submitting => DriveFromSubmitting(w, j, fate, answer);
  }

  lemma NothingRun(w: World)
    ensures Run(w, []) == w
  {
  }

  ghost predicate NoStarts(actions: seq<Action>) {
    forall i :: 0 <= i < |actions| ==> !actions[i].StartOrder?
  }

  lemma DriveStartsNothing(s: State, j: nat, fate: Fate, answer: Event)
    ensures NoStarts(Drive(s, j, fate, answer))
  {
  }

  lemma {:induction false} NoStartsAreFresh(w: World, actions: seq<Action>)
    requires NoStarts(actions)
    ensures FreshFrom(w, actions)
  {
    hide Step;
    if actions != [] {
      NoStartsAreFresh(w, actions[..|actions| - 1]);
    }
  }

  lemma {:induction false} FreshJoins(w: World, a: seq<Action>, b: seq<Action>)
    requires FreshFrom(w, a) && FreshFrom(Run(w, a), b)
    ensures FreshFrom(w, a + b)
  {
    hide Fresh;
    hide Step;
    if b == [] {
      assert a + b == a;
    } else {
      var shorter := b[..|b| - 1];
      FreshJoins(w, a, shorter);
      RunJoins(w, a, shorter);
      assert (a + b)[..|a + b| - 1] == a + shorter;
    }
  }

  // ---- The condition is exact

  /** After a start that is not fresh, sending what is asked for breaks a promise. */
  lemma StaleStartSpoils(w: World, a: Action) returns (more: seq<Action>)
    requires Kept(w) && a.StartOrder? && !Fresh(w, a)
    ensures NoStarts(more) && !EachOnce(Run(Step(w, a), more))
  {
    hide ClientOrderId;
    hide WellFormed;
    hide Kept;
    hide Run;
    hide IsSent;
    hide EachOnce;
    var v, n := Step(w, a), |w.jobs|;
    var m := v.jobs[n].m;
    more := Drive(m.state, n, Taken, SubmitAccepted);
    DriveStartsNothing(m.state, n, Taken, SubmitAccepted);
    DriveSends(v, n, Taken, SubmitAccepted);
    var u := Run(v, more);
    if IsSent(w, a.id) {
      SentTwice(w, u, a.id);
    } else if Underway(w, a.id) {
      var j :| 0 <= j < |w.jobs| && Bound(w.jobs[j], a.id);
      KeptIntent(w, j);
      assert u.jobs[j] == w.jobs[j];
      var again := Drive(u.jobs[j].m.state, j, Taken, SubmitAccepted);
      DriveStartsNothing(u.jobs[j].m.state, j, Taken, SubmitAccepted);
      DriveSends(u, j, Taken, SubmitAccepted);
      RunJoins(v, more, again);
      more := more + again;
      LastIsSent(u, a.id);
      SentTwice(u, Run(v, more), a.id);
    } else {
      assert w.orders[a.id].intent != a.intent;
      LastIsMisstored(u, a.id, a.intent);
    }
  }

  lemma KeptIntent(w: World, j: nat)
    requires Kept(w) && j < |w.jobs| && Early(w.jobs[j].m)
    ensures w.jobs[j].m.intent.Some? && w.jobs[j].m.id.Some?
  {
    assert JobFits(w, w.jobs[j]);
  }

  lemma LastIsSent(u: World, id: string)
    requires u.log != [] && u.log[|u.log| - 1].id == id
    ensures IsSent(u, id)
  {
  }

  lemma LastIsMisstored(u: World, id: string, intent: Intent)
    requires u.log != [] && u.log[|u.log| - 1] == Sent(id, intent) && id in u.orders && u.orders[id].intent != intent
    ensures !EachOnce(u)
  {
    assert !InStore(u, u.log[|u.log| - 1].id, u.log[|u.log| - 1].intent);
  }

  lemma SentTwice(w: World, u: World, id: string)
    requires IsSent(w, id) && |u.log| == |w.log| + 1 && u.log[..|w.log|] == w.log && u.log[|w.log|].id == id
    ensures !EachOnce(u)
  {
    var i :| 0 <= i < |w.log| && w.log[i].id == id;
    assert u.log[i] == u.log[..|w.log|][i];
  }

  /** After fresh starts, one more start keeps every order sent once and with its stored intent, in all that
      follows without a stale start, if and only if it is fresh itself. */
  lemma StartsDecide(actions: seq<Action>, a: Action)
    requires FreshFrom(DAWN, actions) && a.StartOrder?
    ensures Fresh(Run(DAWN, actions), a)
            <==> forall more :: FreshFrom(Run(DAWN, actions + [a]), more) ==> EachOnce(Run(DAWN, actions + [a] + more))
  {
    hide Fresh;
    hide Step;
    hide Kept;
    hide EachOnce;
    var w := Run(DAWN, actions);
    EveryRunKeeps(actions);
    RunMore(DAWN, actions, a);
    if Fresh(w, a) {
      forall more | FreshFrom(Run(DAWN, actions + [a]), more) ensures EachOnce(Run(DAWN, actions + [a] + more)) {
        assert (actions + [a])[..|actions + [a]| - 1] == actions;
        FreshJoins(DAWN, actions + [a], more);
        EveryRunKeeps([]);
        NothingRun(DAWN);
        DawnIsSingle();
        FreshRunsAreSingle(DAWN, actions + [a] + more);
      }
    } else {
      var more := StaleStartSpoils(w, a);
      NoStartsAreFresh(Run(DAWN, actions + [a]), more);
      RunJoins(DAWN, actions + [a], more);
    }
  }

  lemma DawnIsSingle()
    ensures Single(DAWN)
  {
  }

  // ---- It happens

  const ORDER_ID := "order-01"
  const FIRST_INTENT := Intent("BTC-PERP", Buy, 1.0, 1.0, 1)
  const SECOND_INTENT := Intent("BTC-PERP", Sell, 2.0, 1.0, 1)

  /** An order goes through; then the same id is asked for again, for another order. */
  function Reused(): seq<Action> {
    [StartOrder(ORDER_ID, FIRST_INTENT, true)] + Drive(PersistingIntent, 0, Taken, SubmitAccepted) + [StoreOutcome(0, true, true, 0)]
    + [StartOrder(ORDER_ID, SECOND_INTENT, true)] + Drive(PersistingIntent, 1, Taken, SubmitAccepted)
  }

  lemma FirstRound() returns (w: World)
    ensures w == Run(DAWN, [StartOrder(ORDER_ID, FIRST_INTENT, true)] + Drive(PersistingIntent, 0, Taken, SubmitAccepted) + [StoreOutcome(0, true, true, 0)])
    ensures ORDER_ID in w.orders && w.orders[ORDER_ID].intent == FIRST_INTENT && w.orders[ORDER_ID].outcome == Some(Accepted)
    ensures w.log == [Sent(ORDER_ID, FIRST_INTENT)] && |w.jobs| == 1
  {
    hide Run;
    assert ClientOrderId(ORDER_ID);
    var start := StartOrder(ORDER_ID, FIRST_INTENT, true);
    var drive := Drive(PersistingIntent, 0, Taken, SubmitAccepted);
    var one := Step(DAWN, start);
    RunFirst(DAWN, start, drive);
    DriveSends(one, 0, Taken, SubmitAccepted);
    RunMore(DAWN, [start] + drive, StoreOutcome(0, true, true, 0));
    w := Step(Run(one, drive), StoreOutcome(0, true, true, 0));
  }

  /** Both orders went out under one id, and the table knows the first intent only. */
  lemma ReuseSendsTwice()
    ensures var w := Run(DAWN, Reused());
            && w.log == [Sent(ORDER_ID, FIRST_INTENT), Sent(ORDER_ID, SECOND_INTENT)]
            && ORDER_ID in w.orders && w.orders[ORDER_ID].intent == FIRST_INTENT
  {
    hide Run;
    hide Drive;
    assert ClientOrderId(ORDER_ID);
    var w := FirstRound();
    var again := StartOrder(ORDER_ID, SECOND_INTENT, true);
    var drive := Drive(PersistingIntent, 1, Taken, SubmitAccepted);
    var first := [StartOrder(ORDER_ID, FIRST_INTENT, true)] + Drive(PersistingIntent, 0, Taken, SubmitAccepted) + [StoreOutcome(0, true, true, 0)];
    var two := Step(w, again);
    RunMore(DAWN, first, again);
    DriveSends(two, 1, Taken, SubmitAccepted);
    RunJoins(DAWN, first + [again], drive);
  }
}
