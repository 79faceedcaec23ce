/** Two short runs from a new pool: a worker lost for good, and a token lost for good. */
module PoolExamples {
  import opened Pool
  import opened PoolGuarantees

  // ---------- building runs ----------

  lemma {:induction false} RunInParts(s: Pool, first: seq<Step>, second: seq<Step>)
    ensures Run(s, first + second) == Run(Run(s, first), second)
    decreases |first|
  {
    hide Next;
    if first == [] {
      assert first + second == second;
    } else {
      assert (first + second)[1..] == first[1..] + second;
      RunInParts(Next(s, first[0]), first[1..], second);
    }
  }

  lemma Follow(s: Pool, steps: seq<Step>, t: Pool, step: Step, u: Pool)
    requires Run(s, steps) == t && Next(t, step) == u
    ensures Run(s, steps + [step]) == u
  {
    hide Next;
    RunInParts(s, steps, [step]);
    var last := [step];
    assert last[1..] == [];
    assert Run(t, last) == u;
  }

  lemma NoStep(s: Pool)
    ensures Run(s, []) == s
  {
  }

  lemma Follow3(s: Pool, steps: seq<Step>, t: Pool, a: Step, u: Pool, b: Step, v: Pool, c: Step, w: Pool)
    requires Run(s, steps) == t && Next(t, a) == u && Next(u, b) == v && Next(v, c) == w
    ensures Run(s, steps + [a, b, c]) == w
  {
    hide Run, Next;
    Follow(s, steps, t, a, u);
    Follow(s, steps + [a], u, b, v);
    Follow(s, steps + [a] + [b], v, c, w);
    assert steps + [a] + [b] + [c] == steps + [a, b, c];
  }

  /** A job goes from the queue to a thread. */
  function Launch(s: Pool): seq<Step> {
    [Submit(Task(0)), RunnerPut, RunnerGet(|s.items|), RunnerDecide]
  }

  function Launched(s: Pool): Pool {
    s.(items := s.items + [Task(0)], unfinished := s.unfinished + 1, jobs := s.jobs + [With(s.nextThread)], tokens := s.tokens + 1,
       threads := s.threads[s.nextThread := Thread(|s.items|, ReadBusy(9))], nextThread := s.nextThread + 1)
  }

  predicate MayLaunch(s: Pool) {
    s.runner == AtPut && s.tokens < s.size && s.queued == {} && |s.jobs| == |s.items| && |s.items| !in s.done
  }

  lemma LaunchReaches(s: Pool)
    requires MayLaunch(s)
    ensures Run(s, Launch(s)) == Launched(s)
  {
    hide Run, Next;
    var j, n := |s.items|, s.nextThread;
    var a := s.(items := s.items + [Task(0)], queued := {j}, unfinished := s.unfinished + 1, jobs := s.jobs + [Queued]);
    var b := a.(runner := AtGet, tokens := s.tokens + 1);
    var c := b.(runner := InHand(j), queued := {}, jobs := s.jobs + [AtRunner]);
    var none: seq<Step> := [];
    NoStep(s);
    TaskSubmitted(s, a, b);
    TaskDispatched(s, b, c, Launched(s));
    Follow3(s, none, s, Submit(Task(0)), a, RunnerPut, b, RunnerGet(j), c);
    Follow(s, none + [Submit(Task(0)), RunnerPut, RunnerGet(j)], c, RunnerDecide, Launched(s));
    assert Launch(s) == none + [Submit(Task(0)), RunnerPut, RunnerGet(j)] + [RunnerDecide];
  }

  /** And the thread finds no reason to add a worker. */
  function Start(s: Pool): seq<Step> {
    Launch(s) + [ThreadStep(s.nextThread), ThreadStep(s.nextThread)]
  }

  function Started(s: Pool): Pool {
    s.(items := s.items + [Task(0)], unfinished := s.unfinished + 1, jobs := s.jobs + [With(s.nextThread)], tokens := s.tokens + 1,
       threads := s.threads[s.nextThread := Thread(|s.items|, Getting(9))], nextThread := s.nextThread + 1)
  }

  predicate MayStart(s: Pool) {
    MayLaunch(s) && (s.idle != {} || |s.busy| >= s.size)
  }

  lemma StartReaches(s: Pool)
    requires MayStart(s)
    ensures Run(s, Start(s)) == Started(s)
  {
    hide Run, Next, Launch;
    var n := s.nextThread;
    var e := Launched(s).(threads := s.threads[n := Thread(|s.items|, ReadIdle(9, |s.busy|))]);
    LaunchReaches(s);
    TaskCounts(s, Launched(s), e);
    Follow(s, Launch(s), Launched(s), ThreadStep(n), e);
    Follow(s, Launch(s) + [ThreadStep(n)], e, ThreadStep(n), Started(s));
    assert Start(s) == Launch(s) + [ThreadStep(n)] + [ThreadStep(n)];
  }

  lemma TaskSubmitted(s: Pool, a: Pool, b: Pool)
    requires MayLaunch(s)
    requires a == s.(items := s.items + [Task(0)], queued := {|s.items|}, unfinished := s.unfinished + 1, jobs := s.jobs + [Queued])
    requires b == a.(runner := AtGet, tokens := s.tokens + 1)
    ensures Next(s, Submit(Task(0))) == a && Next(a, RunnerPut) == b
  {
  }

  lemma TaskDispatched(s: Pool, b: Pool, c: Pool, d: Pool)
    requires MayLaunch(s)
    requires b == s.(items := s.items + [Task(0)], queued := {|s.items|}, unfinished := s.unfinished + 1, jobs := s.jobs + [Queued],
                     runner := AtGet, tokens := s.tokens + 1)
    requires c == b.(runner := InHand(|s.items|), queued := {}, jobs := s.jobs + [AtRunner])
    requires d == c.(jobs := s.jobs + [With(s.nextThread)], threads := s.threads[s.nextThread := Thread(|s.items|, ReadBusy(9))],
                     nextThread := s.nextThread + 1, runner := AtPut)
    ensures Next(b, RunnerGet(|s.items|)) == c && Next(c, RunnerDecide) == d
  {
    var j := |s.items|;
    assert First(b, j);
    assert b.jobs[j := AtRunner] == s.jobs + [AtRunner];
    assert c.jobs[j := With(s.nextThread)] == s.jobs + [With(s.nextThread)];
    assert b.queued - {j} == {};
  }

  lemma TaskCounts(s: Pool, d: Pool, e: Pool)
    requires MayStart(s) && s.nextThread in d.threads && d.threads[s.nextThread] == Thread(|s.items|, ReadBusy(9))
    requires d.busy == s.busy && d.idle == s.idle && d.size == s.size
    requires e == d.(threads := d.threads[s.nextThread := Thread(|s.items|, ReadIdle(9, |s.busy|))])
    ensures Next(d, ThreadStep(s.nextThread)) == e
    ensures Next(e, ThreadStep(s.nextThread)) == d.(threads := d.threads[s.nextThread := Thread(|s.items|, Getting(9))])
  {
  }

  // ---------- one worker, lost ----------

  /** A pool of one worker whose first task thread is at `pc`. */
  function First1(pc: Pc, idle: set<WorkerId>, busy: set<WorkerId>, place: Whereabouts, done: set<JobId>): Pool {
    Init(1, 1).(items := [Task(0)], unfinished := 1, jobs := [With(0)], tokens := 1, nextThread := 1,
                threads := map[0 := Thread(0, pc)], idle := idle, busy := busy, workers := [place], done := done)
  }

  /** The job is counted off and its thread gone. */
  function Over1(idle: set<WorkerId>, busy: set<WorkerId>, place: Whereabouts, tokens: nat): Pool {
    First1(Ending, idle, busy, place, {0}).(threads := map[], unfinished := 0, jobs := [Finished], tokens := tokens, lostTokens := tokens)
  }

  lemma FirstStarted()
    ensures Started(Init(1, 1)) == First1(Getting(9), {0}, {}, Idle, {}) && MayStart(Init(1, 1))
    ensures Start(Init(1, 1)) == [Submit(Task(0)), RunnerPut, RunnerGet(0), RunnerDecide, ThreadStep(0), ThreadStep(0)]
  {
    assert Upto(1) == {0};
    assert Init(1, 1).workers == [Idle];
  }

  const LEAK := [TakeIdle(0, 0), ThreadStep(0), Cancel(0), Answer(0, Unpicklable), ThreadStep(0), ThreadStep(0), ThreadStep(0)]

  lemma LeakSteps()
    ensures Run(First1(Getting(9), {0}, {}, Idle, {}), LEAK) == Over1({}, {0}, Leaked, 0)
  {
    hide Run, Next;
    var s := First1(Getting(9), {0}, {}, Idle, {});
    var none: seq<Step> := [];
    NoStep(s);
    OfferedThenCancelled();
    LeakedThenEnded();
    Follow(s, none, s, TakeIdle(0, 0), First1(Marking(9, 0), {}, {}, Held(0), {}));
    Follow(s, none + [TakeIdle(0, 0)], First1(Marking(9, 0), {}, {}, Held(0), {}), ThreadStep(0), First1(Offering(9, 0), {}, {0}, Held(0), {}));
    Follow(s, none + [TakeIdle(0, 0)] + [ThreadStep(0)], First1(Offering(9, 0), {}, {0}, Held(0), {}), Cancel(0),
           First1(Offering(9, 0), {}, {0}, Held(0), {0}));
    var run := [TakeIdle(0, 0), ThreadStep(0), Cancel(0)];
    assert run == none + [TakeIdle(0, 0)] + [ThreadStep(0)] + [Cancel(0)];
    Follow(s, run, First1(Offering(9, 0), {}, {0}, Held(0), {0}), Answer(0, Unpicklable), First1(Ending, {}, {0}, Leaked, {0}));
    var ended := First1(Ended, {}, {0}, Leaked, {0}).(unfinished := 0, jobs := [Finished]);
    var returning := First1(Returning, {}, {0}, Leaked, {0}).(unfinished := 0, jobs := [Finished]);
    Follow(s, run + [Answer(0, Unpicklable)], First1(Ending, {}, {0}, Leaked, {0}), ThreadStep(0), ended);
    Follow(s, run + [Answer(0, Unpicklable)] + [ThreadStep(0)], ended, ThreadStep(0), returning);
    Follow(s, run + [Answer(0, Unpicklable)] + [ThreadStep(0)] + [ThreadStep(0)], returning, ThreadStep(0), Over1({}, {0}, Leaked, 0));
    assert LEAK == run + [Answer(0, Unpicklable)] + [ThreadStep(0)] + [ThreadStep(0)] + [ThreadStep(0)];
  }

  lemma OfferedThenCancelled()
    ensures Next(First1(Getting(9), {0}, {}, Idle, {}), TakeIdle(0, 0)) == First1(Marking(9, 0), {}, {}, Held(0), {})
    ensures Next(First1(Marking(9, 0), {}, {}, Held(0), {}), ThreadStep(0)) == First1(Offering(9, 0), {}, {0}, Held(0), {})
    ensures Next(First1(Offering(9, 0), {}, {0}, Held(0), {}), Cancel(0)) == First1(Offering(9, 0), {}, {0}, Held(0), {0})
  {
    assert {0 as WorkerId} - {0} == {} && {} + {0 as WorkerId} == {0};
  }

  lemma LeakedThenEnded()
    ensures Next(First1(Offering(9, 0), {}, {0}, Held(0), {0}), Answer(0, Unpicklable)) == First1(Ending, {}, {0}, Leaked, {0})
    ensures var ended := First1(Ended, {}, {0}, Leaked, {0}).(unfinished := 0, jobs := [Finished]);
            var returning := First1(Returning, {}, {0}, Leaked, {0}).(unfinished := 0, jobs := [Finished]);
            && Next(First1(Ending, {}, {0}, Leaked, {0}), ThreadStep(0)) == ended && Next(ended, ThreadStep(0)) == returning
            && Next(returning, ThreadStep(0)) == Over1({}, {0}, Leaked, 0)
  {
    assert map[0 as ThreadId := Thread(0, Returning)] - {0} == map[];
  }

  /**
   With one worker: a job whose future is cancelled just before its arguments fail to pickle leaves the worker in
   `busy_workers` for good, and the next task waits in `workers.get()` whatever happens.
   */
  lemma LeakedPoolHangs(later: seq<Step>)
    ensures var s := Run(Init(1, 1), Start(Init(1, 1)) + LEAK);
            var t := Run(s, Start(s));
            && Orphan(s, 0) && t.threads == map[1 := Thread(1, Getting(9))]
            && 1 in Run(t, later).threads && Run(t, later).threads[1] == t.threads[1] && Run(t, later).unfinished > 0
            && forall r, w :: !HasWorker(Run(t, later), r, w)
  {
    hide Run, Next, Invariant, LEAK;
    var i := Init(1, 1);
    FirstStarted();
    StartReaches(i);
    LeakSteps();
    RunInParts(i, Start(i), LEAK);
    var s := Over1({}, {0}, Leaked, 0);
    StartReaches(s);
    LeakStarves();
    var t := Started(s);
    InitKept(1, 1);
    RunKeepsPool(i, Start(i) + LEAK);
    RunKeepsPool(s, Start(s));
    StarvedForGood(t, later);
    WaitsForGood(t, later, 1);
  }

  lemma LeakStarves()
    ensures var s := Over1({}, {0}, Leaked, 0);
            && Orphan(s, 0) && MayStart(s) && Starved(Started(s)) && Started(s).threads == map[1 := Thread(1, Getting(9))]
  {
  }

  // ---------- one token, lost ----------

  const REFUSED := [TakeIdle(0, 0), ThreadStep(0), Answer(0, Refused), ThreadStep(0), ThreadStep(0), ThreadStep(0), Judge(0, true),
                    ThreadStep(0), ThreadStep(0), Cancel(0), ThreadStep(0)]

  lemma LoseSteps()
    ensures Run(First1(Getting(9), {0}, {}, Idle, {}), REFUSED) == Over1({0}, {}, Idle, 1)
  {
    hide Run, Next;
    var s := First1(Getting(9), {0}, {}, Idle, {});
    var none: seq<Step> := [];
    NoStep(s);
    OfferedThenCancelled();
    RefusedThenCounted();
    KeptThenEnded();
    CancelledWhileFailing();
    Follow(s, none, s, TakeIdle(0, 0), First1(Marking(9, 0), {}, {}, Held(0), {}));
    Follow(s, none + [TakeIdle(0, 0)], First1(Marking(9, 0), {}, {}, Held(0), {}), ThreadStep(0), First1(Offering(9, 0), {}, {0}, Held(0), {}));
    Follow(s, none + [TakeIdle(0, 0)] + [ThreadStep(0)], First1(Offering(9, 0), {}, {0}, Held(0), {}), Answer(0, Refused),
           First1(Unmarking(0, Finish), {}, {0}, Held(0), {}));
    var run := [TakeIdle(0, 0), ThreadStep(0), Answer(0, Refused)];
    assert run == none + [TakeIdle(0, 0)] + [ThreadStep(0)] + [Answer(0, Refused)];
    Follow(s, run, First1(Unmarking(0, Finish), {}, {0}, Held(0), {}), ThreadStep(0), First1(CountIdle(0, 0, Finish), {}, {}, Held(0), {}));
    Follow(s, run + [ThreadStep(0)], First1(CountIdle(0, 0, Finish), {}, {}, Held(0), {}), ThreadStep(0),
           First1(CountBacklog(0, 1, Finish), {}, {}, Held(0), {}));
    Follow(s, run + [ThreadStep(0)] + [ThreadStep(0)], First1(CountBacklog(0, 1, Finish), {}, {}, Held(0), {}), ThreadStep(0),
           First1(Judging(0, Finish), {}, {}, Held(0), {}));
    assert run + [ThreadStep(0)] + [ThreadStep(0)] + [ThreadStep(0)]
        == [TakeIdle(0, 0), ThreadStep(0), Answer(0, Refused), ThreadStep(0), ThreadStep(0), ThreadStep(0)];
    run := [TakeIdle(0, 0), ThreadStep(0), Answer(0, Refused), ThreadStep(0), ThreadStep(0), ThreadStep(0)];
    Follow(s, run, First1(Judging(0, Finish), {}, {}, Held(0), {}), Judge(0, true), First1(Ending, {0}, {}, Idle, {}));
    var ended := First1(Ended, {0}, {}, Idle, {}).(unfinished := 0, jobs := [Finished]);
    var failing := First1(Failing, {0}, {}, Idle, {}).(unfinished := 0, jobs := [Finished]);
    Follow(s, run + [Judge(0, true)], First1(Ending, {0}, {}, Idle, {}), ThreadStep(0), ended);
    Follow(s, run + [Judge(0, true)] + [ThreadStep(0)], ended, ThreadStep(0), failing);
    Follow(s, run + [Judge(0, true)] + [ThreadStep(0)] + [ThreadStep(0)], failing, Cancel(0), failing.(done := {0}));
    Follow(s, run + [Judge(0, true)] + [ThreadStep(0)] + [ThreadStep(0)] + [Cancel(0)], failing.(done := {0}), ThreadStep(0), Over1({0}, {}, Idle, 1));
    assert REFUSED == run + [Judge(0, true)] + [ThreadStep(0)] + [ThreadStep(0)] + [Cancel(0)] + [ThreadStep(0)];
  }

  lemma RefusedThenCounted()
    ensures Next(First1(Offering(9, 0), {}, {0}, Held(0), {}), Answer(0, Refused)) == First1(Unmarking(0, Finish), {}, {0}, Held(0), {})
    ensures Next(First1(Unmarking(0, Finish), {}, {0}, Held(0), {}), ThreadStep(0)) == First1(CountIdle(0, 0, Finish), {}, {}, Held(0), {})
    ensures Next(First1(CountIdle(0, 0, Finish), {}, {}, Held(0), {}), ThreadStep(0)) == First1(CountBacklog(0, 1, Finish), {}, {}, Held(0), {})
  {
    assert {0 as WorkerId} - {0} == {};
  }

  lemma KeptThenEnded()
    ensures Next(First1(CountBacklog(0, 1, Finish), {}, {}, Held(0), {}), ThreadStep(0)) == First1(Judging(0, Finish), {}, {}, Held(0), {})
    ensures Next(First1(Judging(0, Finish), {}, {}, Held(0), {}), Judge(0, true)) == First1(Ending, {0}, {}, Idle, {})
  {
    assert {} + {0 as WorkerId} == {0};
  }

  lemma CancelledWhileFailing()
    ensures var ended := First1(Ended, {0}, {}, Idle, {}).(unfinished := 0, jobs := [Finished]);
            var failing := First1(Failing, {0}, {}, Idle, {}).(unfinished := 0, jobs := [Finished]);
            && Next(First1(Ending, {0}, {}, Idle, {}), ThreadStep(0)) == ended && Next(ended, ThreadStep(0)) == failing
            && Next(failing, Cancel(0)) == failing.(done := {0})
            && Next(failing.(done := {0}), ThreadStep(0)) == Over1({0}, {}, Idle, 1)
  {
    assert map[0 as ThreadId := Thread(0, Failing)] - {0} == map[];
  }

  /**
   With one worker: a task refused before it was sent, whose future is cancelled between the check and `set_exception`,
   leaves its token in `running_jobs`, and no task ever gets a thread again, with the worker idle.
   */
  lemma LostTokenStops(later: seq<Step>)
    ensures var s := Run(Init(1, 1), Start(Init(1, 1)) + REFUSED);
            && s.idle == {0} && Excess(s) == 1
            && Run(s, later).threads == map[] && !Run(s, later).runner.InHand?
  {
    hide Run, Next, Invariant, REFUSED;
    var i := Init(1, 1);
    FirstStarted();
    StartReaches(i);
    LoseSteps();
    RunInParts(i, Start(i), REFUSED);
    InitKept(1, 1);
    RunKeepsPool(i, Start(i) + REFUSED);
    ExcessForGood(Over1({0}, {}, Idle, 1), later);
  }

  // ---------- one worker lost, and as many as before ----------

  /** Two workers: the first task loses worker 0. */
  function First2(pc: Pc, busy: set<WorkerId>, place: Whereabouts): Pool {
    Init(2, 2).(items := [Task(0)], unfinished := 1, jobs := [With(0)], tokens := 1, nextThread := 1,
                threads := map[0 := Thread(0, pc)], idle := {1}, busy := busy, workers := [place, Idle])
  }

  function Lost2(): Pool {
    Init(2, 2).(items := [Task(0)], jobs := [Finished], done := {0}, idle := {1}, busy := {0}, workers := [Leaked, Idle], nextThread := 1)
  }

  /** The second is through with worker 1 but has not put it back. */
  function Second2(pc: Pc, busy: set<WorkerId>, done: set<JobId>): Pool {
    Init(2, 2).(items := [Task(0), Task(0)], unfinished := 1, jobs := [Finished, With(1)], tokens := 1, nextThread := 2,
                threads := map[1 := Thread(1, pc)], idle := {}, busy := busy, workers := [Leaked, Held(1)], done := done)
  }

  /** And the third has added worker 2. */
  function Third2(pc: Pc, idle: set<WorkerId>, workers: seq<Whereabouts>): Pool {
    var s := Launched(Second2(CountBacklog(1, 2, Finish), {0}, {0, 1}));
    s.(threads := s.threads[2 := Thread(2, pc)], idle := idle, workers := workers)
  }

  const LOSE_FIRST := [TakeIdle(0, 0), ThreadStep(0), Answer(0, OtherError), ThreadStep(0), ThreadStep(0), ThreadStep(0), ThreadStep(0)]
  const USE_SECOND := [TakeIdle(1, 1), ThreadStep(1), Answer(1, Sent), Outcome(1), ThreadStep(1), ThreadStep(1)]

  lemma Marks2()
    ensures Next(First2(Marking(9, 0), {}, Held(0)), ThreadStep(0)) == First2(Offering(9, 0), {0}, Held(0))
  {
  }

  lemma Takes2()
    ensures Next(Started(Init(2, 2)), TakeIdle(0, 0)) == First2(Marking(9, 0), {}, Held(0))
  {
    assert Upto(2) == {0, 1} && {0 as WorkerId, 1} - {0} == {1};
    assert Init(2, 2).workers == [Idle, Idle];
  }

  lemma Fails2()
    ensures Next(First2(Offering(9, 0), {0}, Held(0)), Answer(0, OtherError)) == First2(Ending, {0}, Leaked)
    ensures Next(First2(Ending, {0}, Leaked), ThreadStep(0)) == First2(Ended, {0}, Leaked).(unfinished := 0, jobs := [Finished])
  {
  }

  lemma Leaves2()
    ensures Next(First2(Ended, {0}, Leaked).(unfinished := 0, jobs := [Finished]), ThreadStep(0))
            == First2(Failing, {0}, Leaked).(unfinished := 0, jobs := [Finished])
  {
  }

  lemma Reports2()
    ensures Next(First2(Failing, {0}, Leaked).(unfinished := 0, jobs := [Finished]), ThreadStep(0))
            == First2(Returning, {0}, Leaked).(unfinished := 0, jobs := [Finished], done := {0})
  {
  }

  lemma Gone2()
    ensures Next(First2(Returning, {0}, Leaked).(unfinished := 0, jobs := [Finished], done := {0}), ThreadStep(0)) == Lost2()
  {
    assert map[0 as ThreadId := Thread(0, Returning)] - {0} == map[];
  }

  lemma LoseFirstReaches()
    ensures Run(Started(Init(2, 2)), LOSE_FIRST) == Lost2()
  {
    hide Run, Next, First2, Lost2;
    var s := Started(Init(2, 2));
    var none: seq<Step> := [];
    NoStep(s);
    Takes2();
    Marks2();
    Fails2();
    Leaves2();
    Reports2();
    Gone2();
    var ended := First2(Ended, {0}, Leaked).(unfinished := 0, jobs := [Finished]);
    var failing := First2(Failing, {0}, Leaked).(unfinished := 0, jobs := [Finished]);
    var returning := First2(Returning, {0}, Leaked).(unfinished := 0, jobs := [Finished], done := {0});
    Follow3(s, none, s, TakeIdle(0, 0), First2(Marking(9, 0), {}, Held(0)), ThreadStep(0), First2(Offering(9, 0), {0}, Held(0)),
            Answer(0, OtherError), First2(Ending, {0}, Leaked));
    var run := none + [TakeIdle(0, 0), ThreadStep(0), Answer(0, OtherError)];
    Follow(s, run, First2(Ending, {0}, Leaked), ThreadStep(0), ended);
    Follow3(s, run + [ThreadStep(0)], ended, ThreadStep(0), failing, ThreadStep(0), returning, ThreadStep(0), Lost2());
    assert LOSE_FIRST == run + [ThreadStep(0)] + [ThreadStep(0), ThreadStep(0), ThreadStep(0)];
  }

  lemma Uses2()
    ensures Next(Started(Lost2()), TakeIdle(1, 1)) == Second2(Marking(9, 1), {0}, {0})
    ensures Next(Second2(Marking(9, 1), {0}, {0}), ThreadStep(1)) == Second2(Offering(9, 1), {0, 1}, {0})
    ensures Next(Second2(Offering(9, 1), {0, 1}, {0}), Answer(1, Sent)) == Second2(Waiting(1), {0, 1}, {0})
  {
    assert {1 as WorkerId} - {1} == {};
  }

  lemma Counts2()
    ensures Next(Second2(Waiting(1), {0, 1}, {0}), Outcome(1)) == Second2(Unmarking(1, Finish), {0, 1}, {0, 1})
    ensures Next(Second2(Unmarking(1, Finish), {0, 1}, {0, 1}), ThreadStep(1)) == Second2(CountIdle(1, 1, Finish), {0}, {0, 1})
    ensures Next(Second2(CountIdle(1, 1, Finish), {0}, {0, 1}), ThreadStep(1)) == Second2(CountBacklog(1, 2, Finish), {0}, {0, 1})
  {
    assert {0 as WorkerId, 1} - {1} == {0};
  }

  lemma UseSecondReaches()
    ensures Run(Started(Lost2()), USE_SECOND) == Second2(CountBacklog(1, 2, Finish), {0}, {0, 1})
  {
    hide Run, Next, Second2, Lost2;
    var s := Started(Lost2());
    var none: seq<Step> := [];
    NoStep(s);
    Uses2();
    Counts2();
    Follow3(s, none, s, TakeIdle(1, 1), Second2(Marking(9, 1), {0}, {0}), ThreadStep(1), Second2(Offering(9, 1), {0, 1}, {0}),
            Answer(1, Sent), Second2(Waiting(1), {0, 1}, {0}));
    Follow3(s, none + [TakeIdle(1, 1), ThreadStep(1), Answer(1, Sent)], Second2(Waiting(1), {0, 1}, {0}),
            Outcome(1), Second2(Unmarking(1, Finish), {0, 1}, {0, 1}), ThreadStep(1), Second2(CountIdle(1, 1, Finish), {0}, {0, 1}),
            ThreadStep(1), Second2(CountBacklog(1, 2, Finish), {0}, {0, 1}));
    assert USE_SECOND == none + [TakeIdle(1, 1), ThreadStep(1), Answer(1, Sent)] + [Outcome(1), ThreadStep(1), ThreadStep(1)];
  }

  lemma Adds2()
    ensures var s := Launched(Second2(CountBacklog(1, 2, Finish), {0}, {0, 1}));
            && Next(s, ThreadStep(2)) == Third2(ReadIdle(9, 1), {}, [Leaked, Held(1)])
            && Next(Third2(ReadIdle(9, 1), {}, [Leaked, Held(1)]), ThreadStep(2)) == Third2(Adding(9), {}, [Leaked, Held(1)])
            && Next(Third2(Adding(9), {}, [Leaked, Held(1)]), ThreadStep(2)) == Third2(Getting(9), {2}, [Leaked, Held(1), Idle])
  {
  }

  /**
   An orphan need not leave one worker fewer: while a thread is between taking its worker out of `busy_workers` and
   putting it back, another counts only the orphan, and adds one.
   */
  lemma OrphanAndFullPool()
    ensures var i := Init(2, 2);
            var lost := Run(i, Start(i) + LOSE_FIRST);
            var used := Run(lost, Start(lost) + USE_SECOND);
            var s := Run(used, Launch(used) + [ThreadStep(2), ThreadStep(2), ThreadStep(2)]);
            && s.size == 2 && Orphan(s, 0) && s.idle == {2} && HasWorker(s, 1, 1)
            && forall t :: t in s.threads ==> t == 1 || s.threads[t].pc.Getting?
  {
    hide Run, Next, LOSE_FIRST, USE_SECOND, Launch, Launched, First2, Started;
    var i := Init(2, 2);
    Ready2();
    StartReaches(i);
    LoseFirstReaches();
    RunInParts(i, Start(i), LOSE_FIRST);
    StartReaches(Lost2());
    UseSecondReaches();
    RunInParts(Lost2(), Start(Lost2()), USE_SECOND);
    var used := Second2(CountBacklog(1, 2, Finish), {0}, {0, 1});
    LaunchReaches(used);
    Adds2();
    Follow3(used, Launch(used), Launched(used), ThreadStep(2), Third2(ReadIdle(9, 1), {}, [Leaked, Held(1)]),
            ThreadStep(2), Third2(Adding(9), {}, [Leaked, Held(1)]), ThreadStep(2), Third2(Getting(9), {2}, [Leaked, Held(1), Idle]));
    Full2();
  }

  lemma Ready2()
    ensures MayStart(Init(2, 2)) && MayStart(Lost2()) && MayLaunch(Second2(CountBacklog(1, 2, Finish), {0}, {0, 1}))
  {
    assert 0 in Init(2, 2).idle && 1 in Lost2().idle;
  }

  lemma Full2()
    ensures var s := Third2(Getting(9), {2}, [Leaked, Held(1), Idle]);
            && s.size == 2 && Orphan(s, 0) && s.idle == {2} && HasWorker(s, 1, 1)
            && forall t :: t in s.threads ==> t == 1 || s.threads[t].pc.Getting?
  {
  }
}
