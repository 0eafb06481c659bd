/** Planning the runner's work: which due jobs the next page holds, and that nothing due is left out. */
module ShadowJobs {
  import opened Basics
  import opened Marks
  import opened EventMarks
  import B = Benchmark
  import S = Shadow

  datatype JobId =
    | BenchmarkJob(product: Product)
    | MarkJob(id: MarkId)
    | DailyJob(product: Product, close: int)
    | HourlyJob(at: int)
    | AssessmentJob(days: int)

  datatype Job = Job(id: JobId, at: int)

  predicate Economic(phase: CampaignPhase) {
    phase == Registered || phase == LocalObserving
  }

  predicate LegSettled(entries: B.Entries, p: Product) {
    entries.products.At(p).Some? && (entries.products.At(p).value.phase == B.Initialized || entries.products.At(p).value.phase == B.Failed)
  }

  // ---- What is due, in order

  function BenchmarksDue(s: S.Projection): seq<Job> {
    var at := s.ledger.manifest.startAt;
    (if LegSettled(s.benchmarks, Btc) then [] else [Job(BenchmarkJob(Btc), at)])
    + (if LegSettled(s.benchmarks, Eth) then [] else [Job(BenchmarkJob(Eth), at)])
  }

  function AfterFillsDue(slots: seq<EventSlot>): seq<Job> {
    if slots == [] then []
    else (if slots[0].id.FillMark? && slots[0].phase != Observed then [Job(MarkJob(slots[0].id), slots[0].expectedAt)] else [])
         + AfterFillsDue(slots[1..])
  }

  predicate FinalSeen(slots: seq<EventSlot>) {
    Find(slots, FinalMark).Some? && slots[Find(slots, FinalMark).value].phase == Observed
  }

  function FinalDue(s: S.Projection, now: int): seq<Job> {
    if now >= s.ledger.manifest.endAt - 4_000 && !FinalSeen(s.events.slots) then [Job(MarkJob(FinalMark), s.ledger.manifest.endAt)] else []
  }

  function DailiesDue(at: int, now: int, endAt: int): seq<Job>
    decreases endAt - at
  {
    if at <= now && at < endAt then [Job(DailyJob(Btc, at), at), Job(DailyJob(Eth, at), at)] + DailiesDue(at + DAY, now, endAt) else []
  }

  function HourliesDue(at: int, now: int, endAt: int): seq<Job>
    decreases endAt - at
  {
    if at <= now && at < endAt then [Job(HourlyJob(at), at)] + HourliesDue(at + HOUR, now, endAt) else []
  }

  function AssessmentDue(days: int, startAt: int, now: int): seq<Job> {
    if now >= startAt + days * DAY then [Job(AssessmentJob(days), startAt + days * DAY)] else []
  }

  function AssessmentsDue(startAt: int, now: int): seq<Job> {
    AssessmentDue(30, startAt, now) + AssessmentDue(90, startAt, now) + AssessmentDue(180, startAt, now)
  }

  /** The current agenda: an invalid campaign is only assessed; the two benchmark legs come first, then the
      marks after fills, then the rest, dailies before hourlies. */
  function Agenda(s: S.Projection, now: int, completed: set<JobId>): seq<Job> {
    var startAt, endAt := s.ledger.manifest.startAt, s.ledger.manifest.endAt;
    if s.campaign.phase == Invalid then AssessmentsDue(startAt, now)
    else if Economic(s.campaign.phase) && now >= startAt && BenchmarksDue(s) != [] then BenchmarksDue(s)
    else if Economic(s.campaign.phase) && Remaining(AfterFillsDue(s.events.slots), completed) != [] then AfterFillsDue(s.events.slots)
    else FinalDue(s, now) + DailiesDue(startAt, now, endAt) + HourliesDue(startAt, now, endAt) + AssessmentsDue(startAt, now)
  }

  function Remaining(jobs: seq<Job>, completed: set<JobId>): seq<Job> {
    if jobs == [] then []
    else Open(jobs[0], completed) + Remaining(jobs[1..], completed)
  }

  function Open(job: Job, completed: set<JobId>): seq<Job> {
    if job.id in completed then [] else [job]
  }

  function First(jobs: seq<Job>, limit: nat): seq<Job> {
    if |jobs| <= limit then jobs else jobs[..limit]
  }

  // ---- Adding one by one is taking the first of the remaining

  function Add(jobs: seq<Job>, job: Job, completed: set<JobId>, limit: nat): seq<Job> {
    if job.id !in completed && |jobs| < limit then jobs + [job] else jobs
  }

  function AddAll(jobs: seq<Job>, more: seq<Job>, completed: set<JobId>, limit: nat): seq<Job>
    decreases |more|
  {
    if more == [] then jobs else AddAll(Add(jobs, more[0], completed, limit), more[1..], completed, limit)
  }

  lemma {:induction false} AddAllIsFirst(jobs: seq<Job>, more: seq<Job>, completed: set<JobId>, limit: nat)
    requires |jobs| <= limit
    ensures AddAll(jobs, more, completed, limit) == First(jobs + Remaining(more, completed), limit)
    decreases |more|
  {
    hide Open;
    hide First;
    hide Add;
    if more == [] {
      assert jobs + Remaining(more, completed) == jobs;
      AlreadyFirst(jobs, limit);
    } else {
      AddIsFirst(jobs, more[0], Remaining(more[1..], completed), completed, limit);
      AddAllIsFirst(Add(jobs, more[0], completed, limit), more[1..], completed, limit);
    }
  }

  lemma AlreadyFirst(jobs: seq<Job>, limit: nat)
    requires |jobs| <= limit
    ensures First(jobs, limit) == jobs
  {
  }

  lemma AddIsFirst(jobs: seq<Job>, job: Job, tail: seq<Job>, completed: set<JobId>, limit: nat)
    requires |jobs| <= limit
    ensures |Add(jobs, job, completed, limit)| <= limit
    ensures First(Add(jobs, job, completed, limit) + tail, limit) == First(jobs + (Open(job, completed) + tail), limit)
  {
    if job.id in completed {
      assert Open(job, completed) + tail == tail;
    } else if |jobs| < limit {
      assert jobs + ([job] + tail) == (jobs + [job]) + tail;
    } else {
      assert First(jobs + ([job] + tail), limit) == jobs;
      assert First(jobs + tail, limit) == jobs;
    }
  }

  lemma {:induction false} AddAllJoins(jobs: seq<Job>, a: seq<Job>, b: seq<Job>, completed: set<JobId>, limit: nat)
    ensures AddAll(jobs, a + b, completed, limit) == AddAll(AddAll(jobs, a, completed, limit), b, completed, limit)
    decreases |a|
  {
    if a == [] {
      assert a + b == b;
    } else {
      AddAllJoins(Add(jobs, a[0], completed, limit), a[1..], b, completed, limit);
      assert (a + b)[1..] == a[1..] + b;
    }
  }

  lemma {:induction false} FullTakesNoMore(jobs: seq<Job>, more: seq<Job>, completed: set<JobId>, limit: nat)
    requires |jobs| >= limit
    ensures AddAll(jobs, more, completed, limit) == jobs
    decreases |more|
  {
    if more != [] {
      FullTakesNoMore(jobs, more[1..], completed, limit);
    }
  }

  // ---- The planner

  method AddDailies(start: seq<Job>, startAt: int, now: int, endAt: int, completed: set<JobId>, limit: nat) returns (jobs: seq<Job>)
    ensures jobs == AddAll(start, DailiesDue(startAt, now, endAt), completed, limit)
  {
    jobs := start;
    var at := startAt;
    while at <= now && at < endAt && |jobs| < limit
      invariant AddAll(jobs, DailiesDue(at, now, endAt), completed, limit) == AddAll(start, DailiesDue(startAt, now, endAt), completed, limit)
      decreases endAt - at
    {
      var btc, eth := Job(DailyJob(Btc, at), at), Job(DailyJob(Eth, at), at);
      AddAllJoins(jobs, [btc, eth], DailiesDue(at + DAY, now, endAt), completed, limit);
      assert [btc, eth][1..] == [eth];
      jobs := Add(jobs, btc, completed, limit);
      jobs := Add(jobs, eth, completed, limit);
      at := at + DAY;
    }
    if |jobs| >= limit {
      FullTakesNoMore(jobs, DailiesDue(at, now, endAt), completed, limit);
    }
  }

  method AddHourlies(start: seq<Job>, startAt: int, now: int, endAt: int, completed: set<JobId>, limit: nat) returns (jobs: seq<Job>)
    ensures jobs == AddAll(start, HourliesDue(startAt, now, endAt), completed, limit)
  {
    jobs := start;
    var at := startAt;
    while at <= now && at < endAt && |jobs| < limit
      invariant AddAll(jobs, HourliesDue(at, now, endAt), completed, limit) == AddAll(start, HourliesDue(startAt, now, endAt), completed, limit)
      decreases endAt - at
    {
      var hourly := Job(HourlyJob(at), at);
      AddAllJoins(jobs, [hourly], HourliesDue(at + HOUR, now, endAt), completed, limit);
      assert [hourly][1..] == [];
      jobs := Add(jobs, hourly, completed, limit);
      at := at + HOUR;
    }
    if |jobs| >= limit {
      FullTakesNoMore(jobs, HourliesDue(at, now, endAt), completed, limit);
    }
  }

  method AddEach(start: seq<Job>, more: seq<Job>, completed: set<JobId>, limit: nat) returns (jobs: seq<Job>)
    ensures jobs == AddAll(start, more, completed, limit)
  {
    jobs := start;
    for i := 0 to |more|
      invariant AddAll(jobs, more[i..], completed, limit) == AddAll(start, more, completed, limit)
    {
      assert more[i..][1..] == more[i + 1..];
      jobs := Add(jobs, more[i], completed, limit);
    }
  }

  /** A page of at most `limit` jobs: the first ones of the agenda that are not completed. */
  method PlanShadowJobs(s: S.Projection, now: int, completed: set<JobId>, limit: int) returns (r: Result<seq<Job>>)
    ensures r.Ok? <==> -MAX_SAFE <= now <= MAX_SAFE && now >= s.lastAt && 1 <= limit <= 64
    ensures r.Ok? ==> r.value == First(Remaining(Agenda(s, now, completed), completed), limit)
  {
    hide DailiesDue;
    hide HourliesDue;
    hide AssessmentsDue;
    hide AfterFillsDue;
    hide BenchmarksDue;
    hide FinalDue;
    if !(-MAX_SAFE <= now <= MAX_SAFE) || now < s.lastAt || limit < 1 || limit > 64 {
      return Fail("INVALID_SCHEDULE");
    }
    var startAt, endAt := s.ledger.manifest.startAt, s.ledger.manifest.endAt;
    ghost var agenda := Agenda(s, now, completed);
    AddAllIsFirst([], agenda, completed, limit);
    assert [] + Remaining(agenda, completed) == Remaining(agenda, completed);
    var jobs: seq<Job>;
    if s.campaign.phase == Invalid {
      jobs := AddEach([], AssessmentsDue(startAt, now), completed, limit);
      return Ok(jobs);
    }
    if Economic(s.campaign.phase) && now >= startAt && BenchmarksDue(s) != [] {
      jobs := AddEach([], BenchmarksDue(s), completed, limit);
      return Ok(jobs);
    }
    jobs := [];
    if Economic(s.campaign.phase) {
      var fills := AfterFillsDue(s.events.slots);
      jobs := AddEach([], fills, completed, limit);
      AddAllIsFirst([], fills, completed, limit);
      assert [] + Remaining(fills, completed) == Remaining(fills, completed);
    }
    if jobs != [] {
      return Ok(jobs);
    }
    ghost var final, daily, hourly, assessed := FinalDue(s, now), DailiesDue(startAt, now, endAt), HourliesDue(startAt, now, endAt), AssessmentsDue(startAt, now);
    AddAllJoins([], final + daily + hourly, assessed, completed, limit);
    AddAllJoins([], final + daily, hourly, completed, limit);
    AddAllJoins([], final, daily, completed, limit);
    jobs := AddEach([], FinalDue(s, now), completed, limit);
    jobs := AddDailies(jobs, startAt, now, endAt, completed, limit);
    jobs := AddHourlies(jobs, startAt, now, endAt, completed, limit);
    jobs := AddEach(jobs, AssessmentsDue(startAt, now), completed, limit);
    r := Ok(jobs);
  }

  // ---- What the pages promise

  lemma {:induction false} RemainingIsWhatIsLeft(jobs: seq<Job>, completed: set<JobId>, j: Job)
    ensures j in Remaining(jobs, completed) <==> j in jobs && j.id !in completed
  {
    if jobs != [] {
      RemainingIsWhatIsLeft(jobs[1..], completed, j);
    }
  }

  lemma {:induction false} RemainingJoins(a: seq<Job>, b: seq<Job>, completed: set<JobId>)
    ensures Remaining(a + b, completed) == Remaining(a, completed) + Remaining(b, completed)
  {
    hide Open;
    if a == [] {
      assert a + b == b;
    } else {
      RemainingJoins(a[1..], b, completed);
      assert (a + b)[0] == a[0] && (a + b)[1..] == a[1..] + b;
      assert Open(a[0], completed) + (Remaining(a[1..], completed) + Remaining(b, completed))
          == (Open(a[0], completed) + Remaining(a[1..], completed)) + Remaining(b, completed);
    }
  }

  /** A page is empty exactly when the whole agenda is completed; otherwise it holds only due jobs that
      are not. */
  lemma NothingDueIsLeftOut(s: S.Projection, now: int, completed: set<JobId>, limit: nat, j: Job)
    requires limit >= 1
    ensures var page := First(Remaining(Agenda(s, now, completed), completed), limit);
            && |page| <= limit
            && (j in page ==> j in Agenda(s, now, completed) && j.id !in completed)
            && (page == [] ==> j in Agenda(s, now, completed) ==> j.id in completed)
  {
    hide Agenda;
    var agenda := Agenda(s, now, completed);
    RemainingIsWhatIsLeft(agenda, completed, j);
    var page := First(Remaining(agenda, completed), limit);
    if j in page {
      var i :| 0 <= i < |page| && page[i] == j;
      assert Remaining(agenda, completed)[i] == j;
    }
  }

  /** The daily agenda is complete: one job per product and day from the start, up to now and before the end. */
  lemma {:induction false} EveryDayIsDue(startAt: int, now: int, endAt: int, p: Product, close: int)
    ensures Job(DailyJob(p, close), close) in DailiesDue(startAt, now, endAt)
            <==> startAt <= close <= now && close < endAt && (close - startAt) % DAY == 0
    decreases endAt - startAt
  {
    if startAt <= now && startAt < endAt {
      EveryDayIsDue(startAt + DAY, now, endAt, p, close);
      var j := Job(DailyJob(p, close), close);
      assert (close - startAt) % DAY == (close - (startAt + DAY)) % DAY;
      var today := [Job(DailyJob(Btc, startAt), startAt), Job(DailyJob(Eth, startAt), startAt)];
      assert DailiesDue(startAt, now, endAt) == today + DailiesDue(startAt + DAY, now, endAt);
      if close == startAt {
        assert j == today[0] || j == today[1];
      } else {
        assert j !in today;
        if startAt < close < startAt + DAY {
          assert (close - startAt) % DAY == close - startAt;
        }
      }
    }
  }

  /** So is the hourly agenda: one job for every hour from the start, up to now and before the end. */
  lemma {:induction false} EveryHourIsDue(startAt: int, now: int, endAt: int, at: int)
    ensures Job(HourlyJob(at), at) in HourliesDue(startAt, now, endAt)
            <==> startAt <= at <= now && at < endAt && (at - startAt) % HOUR == 0
    decreases endAt - startAt
  {
    if startAt <= now && startAt < endAt {
      EveryHourIsDue(startAt + HOUR, now, endAt, at);
      var first, rest := Job(HourlyJob(startAt), startAt), HourliesDue(startAt + HOUR, now, endAt);
      assert HourliesDue(startAt, now, endAt) == [first] + rest;
      assert (at - startAt) % HOUR == (at - (startAt + HOUR)) % HOUR;
      if at == startAt {
        assert ([first] + rest)[0] == first;
      } else if startAt < at < startAt + HOUR {
        assert (at - startAt) % HOUR == at - startAt;
      }
    }
  }

  /** An hourly job is only on the general agenda, the one that ends with hourlies and assessments. */
  lemma HourliesAreGeneral(s: S.Projection, now: int, completed: set<JobId>, j: Job)
    requires j in Agenda(s, now, completed) && j.id.HourlyJob?
    ensures var startAt, endAt := s.ledger.manifest.startAt, s.ledger.manifest.endAt;
            Agenda(s, now, completed)
            == FinalDue(s, now) + DailiesDue(startAt, now, endAt) + (HourliesDue(startAt, now, endAt) + AssessmentsDue(startAt, now))
  {
    hide DailiesDue;
    hide HourliesDue;
    hide AfterFillsDue;
    hide FinalDue;
    hide Remaining;
    if j in AfterFillsDue(s.events.slots) {
      AfterFillsAreMarks(s.events.slots, j);
    }
    var startAt, endAt := s.ledger.manifest.startAt, s.ledger.manifest.endAt;
    var final, daily, hourly, last := FinalDue(s, now), DailiesDue(startAt, now, endAt), HourliesDue(startAt, now, endAt), AssessmentsDue(startAt, now);
    assert final + daily + hourly + last == final + daily + (hourly + last);
  }

  lemma {:induction false} AfterFillsAreMarks(slots: seq<EventSlot>, j: Job)
    requires j in AfterFillsDue(slots)
    ensures j.id.MarkJob?
  {
    if slots != [] && j in AfterFillsDue(slots[1..]) {
      AfterFillsAreMarks(slots[1..], j);
    }
  }

  /** No page holds an hourly job unless every product's every due day is completed or on the page: a late
      catch-up never skips a day. */
  lemma DailiesComeFirst(s: S.Projection, now: int, completed: set<JobId>, limit: nat, hourly: Job, p: Product, close: int)
    requires hourly in First(Remaining(Agenda(s, now, completed), completed), limit) && hourly.id.HourlyJob?
    requires s.ledger.manifest.startAt <= close <= now && close < s.ledger.manifest.endAt
    requires (close - s.ledger.manifest.startAt) % DAY == 0
    ensures DailyJob(p, close) in completed
            || Job(DailyJob(p, close), close) in First(Remaining(Agenda(s, now, completed), completed), limit)
  {
    hide Agenda;
    hide Remaining;
    hide DailiesDue;
    hide HourliesDue;
    hide AssessmentsDue;
    hide FinalDue;
    var startAt, endAt := s.ledger.manifest.startAt, s.ledger.manifest.endAt;
    var agenda := Agenda(s, now, completed);
    var page := First(Remaining(agenda, completed), limit);
    RemainingIsWhatIsLeft(agenda, completed, hourly);
    var i :| 0 <= i < |page| && page[i] == hourly;
    assert Remaining(agenda, completed)[i] == hourly;
    HourliesAreGeneral(s, now, completed, hourly);
    EveryDayIsDue(startAt, now, endAt, p, close);
    if DailyJob(p, close) !in completed {
      FinalIsAMark(s, now, hourly);
      EarlierGoesFirst(FinalDue(s, now), DailiesDue(startAt, now, endAt), HourliesDue(startAt, now, endAt) + AssessmentsDue(startAt, now),
                       startAt, now, endAt, completed, limit, hourly, Job(DailyJob(p, close), close));
    }
  }

  lemma FinalIsAMark(s: S.Projection, now: int, hourly: Job)
    requires hourly.id.HourlyJob?
    ensures hourly !in FinalDue(s, now)
  {
  }

  /** What precedes the rest of an agenda is on every page that reaches into the rest. */
  lemma EarlierGoesFirst(final: seq<Job>, dailies: seq<Job>, rest: seq<Job>, startAt: int, now: int, endAt: int,
                         completed: set<JobId>, limit: nat, hourly: Job, daily: Job)
    requires dailies == DailiesDue(startAt, now, endAt) && hourly !in final && hourly.id.HourlyJob?
    requires daily in dailies && daily.id !in completed
    requires hourly in First(Remaining(final + dailies + rest, completed), limit)
    ensures daily in First(Remaining(final + dailies + rest, completed), limit)
  {
    hide Remaining;
    hide DailiesDue;
    var head := final + dailies;
    RemainingJoins(head, rest, completed);
    var all := Remaining(head + rest, completed);
    var page := First(all, limit);
    var i :| 0 <= i < |page| && page[i] == hourly;
    RemainingIsWhatIsLeft(head, completed, hourly);
    RemainingIsWhatIsLeft(head, completed, daily);
    if hourly in dailies {
      DailiesAreDailies(startAt, now, endAt, hourly);
    }
    assert all[i] == hourly;
    var k :| 0 <= k < |Remaining(head, completed)| && Remaining(head, completed)[k] == daily;
    assert i >= |Remaining(head, completed)|;
    assert page[k] == daily;
  }

  lemma {:induction false} DailiesAreDailies(at: int, now: int, endAt: int, j: Job)
    requires j in DailiesDue(at, now, endAt)
    ensures j.id.DailyJob?
    decreases endAt - at
  {
    if at <= now && at < endAt && j != Job(DailyJob(Btc, at), at) && j != Job(DailyJob(Eth, at), at) {
      assert j in DailiesDue(at + DAY, now, endAt);
      DailiesAreDailies(at + DAY, now, endAt, j);
    }
  }
}
