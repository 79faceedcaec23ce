/**
 Exactly when a thread that waits for a worker can always be served: when at least one worker is kept, or there is but
 one. Otherwise two threads may count on the same last idle worker, whatever the size of the pool.
 */
module PoolWaiting {
  import opened Pool
  import opened PoolSteps
  import opened PoolGuarantees
  import opened PoolSupply
  import opened PoolExamples

  ghost predicate Waits(s: Pool, t: ThreadId) {
    t in s.threads && s.threads[t].pc.Getting? && s.idle == {}
  }

  /** The steps of the other threads alone put a worker on the idle queue while `t` waits. */
  ghost predicate Serves(s: Pool, t: ThreadId, later: seq<Step>) {
    && t in s.threads && CarefulRun(s, later) && (forall step :: step in later ==> OwnStep(step, t))
    && Run(s, later).idle != {} && t in Run(s, later).threads && Run(s, later).threads[t] == s.threads[t]
  }

  /** In every run that loses no worker, a waiting thread can be served. */
  ghost predicate AlwaysServable(size: nat, minWorkers: int) {
    forall steps, t :: CarefulRun(Init(size, minWorkers), steps) && Waits(Run(Init(size, minWorkers), steps), t) ==>
      exists later :: Serves(Run(Init(size, minWorkers), steps), t, later)
  }

  /** In every run that loses no worker, another thread has or adds a worker while one waits. */
  ghost predicate AlwaysSupplied(size: nat, minWorkers: int) {
    forall steps, t :: CarefulRun(Init(size, minWorkers), steps) && Waits(Run(Init(size, minWorkers), steps), t) ==>
      exists r :: r != t && Supplier(Run(Init(size, minWorkers), steps), r)
  }

  // ---------- a pool of one ----------

  /** The one thread read no busy worker, and goes on to wait only for a worker it has seen. */
  ghost predicate Solo(s: Pool) {
    && s.size == 1
    && forall t :: t in s.threads ==>
         (s.threads[t].pc.Getting? ==> s.idle != {}) && (s.threads[t].pc.ReadIdle? ==> s.threads[t].pc.busy == 0)
  }

  lemma OneThread(s: Pool, t: ThreadId)
    requires TokensExact(s) && s.size == 1 && t in s.threads
    ensures s.threads == map[t := s.threads[t]]
  {
    OneLess(s.threads, t);
    assert s.threads - {t} == map[];
    forall u | u in s.threads ensures u == t { assert u != t ==> u in s.threads - {t}; }
  }

  lemma NoneBusy(s: Pool, t: ThreadId)
    requires Invariant(s) && NothingLeaked(s) && s.size == 1 && t in s.threads && !Busy(s.threads[t].pc)
    ensures s.busy == {}
  {
    OneThread(s, t);
    if s.busy != {} {
      var w :| w in s.busy;
      BusySupplies(s, w);
    }
  }

  lemma SoloStep(s: Pool, step: Step)
    requires Invariant(s) && NothingLeaked(s) && Solo(s) && Careful(s, step)
    ensures Solo(Next(s, step))
  {
    hide Within, Exclusive, TokensExact, JobsExact, FreshThreads, NothingLeaked, Advance, Answered, TaskDone, Decided, First;
    match step
    case ThreadStep(t) => if t in s.threads { SoloAdvance(s, t); }
    case Answer(t, offer) => if t in s.threads && s.threads[t].pc.Offering? { SoloAnswered(s, t, offer); }
    case TakeIdle(t, _) => if Next(s, step) != s { OneThread(s, t); }
    case RunnerDecide => SoloDecided(s);
    case CancelTaken(j) => assert TaskDone(s, j).threads == s.threads;
    case _ =>
  }

  lemma SoloAdvance(s: Pool, t: ThreadId)
    requires Invariant(s) && NothingLeaked(s) && Solo(s) && t in s.threads
    ensures Solo(Advance(s, t))
  {
    hide Within, Exclusive, TokensExact, JobsExact, FreshThreads, NothingLeaked, Advance;
    OneThread(s, t);
    if s.threads[t].pc.ReadBusy? { NoneBusy(s, t); }
    AdvanceIntoGet(s, t);
    AdvanceSize(s, t);
  }

  /** What a thread saw when it gets as far as reading the idle workers, or waiting for one. */
  lemma AdvanceIntoGet(s: Pool, t: ThreadId)
    requires t in s.threads
    ensures var u, pc := Advance(s, t), s.threads[t].pc;
            && u.threads.Keys <= s.threads.Keys
            && (t in u.threads && u.threads[t].pc.ReadIdle? ==> (pc.ReadBusy? && u.threads[t].pc.busy == |s.busy|))
            && (t in u.threads && u.threads[t].pc.Getting? ==>
                  (pc.Getting? && u.idle == s.idle) || (pc.Adding? && u.idle != {}) ||
                  (pc.ReadIdle? && u.idle == s.idle && (s.idle != {} || pc.busy >= s.size)))
  {
    hide TaskDone;
  }

  lemma AdvanceSize(s: Pool, t: ThreadId)
    requires t in s.threads
    ensures Advance(s, t).size == s.size
  {
    hide TaskDone;
  }

  lemma SoloAnswered(s: Pool, t: ThreadId, offer: Offer)
    requires Solo(s) && t in s.threads && s.threads[t].pc.Offering?
    ensures Solo(Answered(s, t, offer))
  {
  }

  lemma SoloDecided(s: Pool)
    requires Solo(s)
    ensures Solo(Decided(s))
  {
    hide TaskDone;
  }

  lemma {:induction false} SoloRun(s: Pool, steps: seq<Step>)
    requires Invariant(s) && NothingLeaked(s) && Solo(s) && CarefulRun(s, steps)
    ensures Solo(Run(s, steps))
    decreases |steps|
  {
    hide Invariant, NothingLeaked, Solo, Next, Careful;
    if steps != [] {
      StepKeepsPool(s, steps[0]);
      CarefulLeaks(s, steps[0]);
      SoloStep(s, steps[0]);
      SoloRun(Next(s, steps[0]), steps[1..]);
    }
  }

  /** With one worker there is one thread, and it never waits without one. */
  lemma OneNeverWaits(minWorkers: int, steps: seq<Step>, t: ThreadId)
    requires CarefulRun(Init(1, minWorkers), steps)
    ensures !Waits(Run(Init(1, minWorkers), steps), t)
  {
    hide Run, CarefulRun, Invariant, NothingLeaked;
    InitSupplied(1, minWorkers);
    SoloRun(Init(1, minWorkers), steps);
  }

  // ---------- no minimum: a thread that waits for nobody ----------

  /** The waiting thread `t` takes worker `w`, runs its job, and retires the worker. */
  function Retire(t: ThreadId, w: WorkerId): seq<Step> {
    [TakeIdle(t, w), ThreadStep(t), Answer(t, Sent), Outcome(t), ThreadStep(t), ThreadStep(t), ThreadStep(t), ThreadStep(t), ThreadStep(t), ThreadStep(t)]
  }

  predicate MayRetire(s: Pool, t: ThreadId, w: WorkerId) {
    && t in s.threads && s.threads[t].pc == Getting(9) && s.threads[t].job < |s.jobs|
    && w in s.idle && w < |s.workers| && w !in s.busy && s.queued == {} && s.minWorkers <= 0 && s.tokens > 0
  }

  function Retired(s: Pool, t: ThreadId, w: WorkerId): Pool
    requires MayRetire(s, t, w)
  {
    var j := s.threads[t].job;
    s.(idle := s.idle - {w}, workers := s.workers[w := Gone], threads := s.threads - {t}, tokens := s.tokens - 1,
       unfinished := s.unfinished - 1, done := s.done + {j}, jobs := s.jobs[j := Finished])
  }

  function Taken(s: Pool, t: ThreadId, w: WorkerId, pc: Pc): Pool
    requires MayRetire(s, t, w)
  {
    Move(s.(idle := s.idle - {w}, workers := s.workers[w := Held(t)], busy := if Busy(pc) then s.busy + {w} else s.busy), t, pc)
  }

  function Counted(s: Pool, t: ThreadId, w: WorkerId, pc: Pc): Pool
    requires MayRetire(s, t, w)
  {
    var j := s.threads[t].job;
    Move(s.(idle := s.idle - {w}, done := s.done + {j}, workers := s.workers[w := if Holds(pc) then Held(t) else Gone],
            busy := if Busy(pc) then s.busy + {w} else s.busy,
            unfinished := if Holds(pc) || pc.Ending? then s.unfinished else s.unfinished - 1,
            jobs := if Holds(pc) || pc.Ending? then s.jobs else s.jobs[j := Finished]), t, pc)
  }

  lemma TakenSteps(s: Pool, t: ThreadId, w: WorkerId)
    requires MayRetire(s, t, w)
    ensures Next(s, TakeIdle(t, w)) == Taken(s, t, w, Marking(9, w))
    ensures Next(Taken(s, t, w, Marking(9, w)), ThreadStep(t)) == Taken(s, t, w, Offering(9, w))
  {
  }

  lemma SentSteps(s: Pool, t: ThreadId, w: WorkerId)
    requires MayRetire(s, t, w)
    ensures Next(Taken(s, t, w, Offering(9, w)), Answer(t, Sent)) == Taken(s, t, w, Waiting(w))
    ensures Next(Taken(s, t, w, Waiting(w)), Outcome(t)) == Counted(s, t, w, Unmarking(w, Finish))
  {
  }

  lemma CountedSteps(s: Pool, t: ThreadId, w: WorkerId)
    requires MayRetire(s, t, w)
    ensures Next(Counted(s, t, w, Unmarking(w, Finish)), ThreadStep(t)) == Counted(s, t, w, CountIdle(w, |s.busy|, Finish))
  {
    assert s.busy + {w} - {w} == s.busy;
  }

  lemma CountingStep(s: Pool, t: ThreadId, w: WorkerId)
    requires MayRetire(s, t, w)
    ensures Next(Counted(s, t, w, CountIdle(w, |s.busy|, Finish)), ThreadStep(t))
            == Counted(s, t, w, CountBacklog(w, |s.busy| + |s.idle - {w}| + 1, Finish))
  {
  }

  lemma RetiringStep(s: Pool, t: ThreadId, w: WorkerId)
    requires MayRetire(s, t, w)
    ensures Next(Counted(s, t, w, CountBacklog(w, |s.busy| + |s.idle - {w}| + 1, Finish)), ThreadStep(t)) == Counted(s, t, w, Ending)
  {
  }

  lemma LeavingSteps(s: Pool, t: ThreadId, w: WorkerId)
    requires MayRetire(s, t, w)
    ensures Next(Counted(s, t, w, Ending), ThreadStep(t)) == Counted(s, t, w, Ended)
    ensures Next(Counted(s, t, w, Ended), ThreadStep(t)) == Counted(s, t, w, Returning)
    ensures Next(Counted(s, t, w, Returning), ThreadStep(t)) == Retired(s, t, w)
  {
    assert s.threads[t := s.threads[t].(pc := Returning)] - {t} == s.threads - {t};
  }

  lemma RetireReaches(s: Pool, t: ThreadId, w: WorkerId)
    requires MayRetire(s, t, w)
    ensures Run(s, Retire(t, w)) == Retired(s, t, w)
  {
    hide Run, Next, Taken, Counted, Retired;
    var total := |s.busy| + |s.idle - {w}| + 1;
    var none: seq<Step> := [];
    NoStep(s);
    TakenSteps(s, t, w);
    SentSteps(s, t, w);
    CountedSteps(s, t, w);
    CountingStep(s, t, w);
    RetiringStep(s, t, w);
    LeavingSteps(s, t, w);
    Follow(s, none, s, TakeIdle(t, w), Taken(s, t, w, Marking(9, w)));
    Follow(s, none + [TakeIdle(t, w)], Taken(s, t, w, Marking(9, w)), ThreadStep(t), Taken(s, t, w, Offering(9, w)));
    Follow(s, none + [TakeIdle(t, w)] + [ThreadStep(t)], Taken(s, t, w, Offering(9, w)), Answer(t, Sent), Taken(s, t, w, Waiting(w)));
    var run := [TakeIdle(t, w), ThreadStep(t), Answer(t, Sent)];
    assert run == none + [TakeIdle(t, w)] + [ThreadStep(t)] + [Answer(t, Sent)];
    Follow(s, run, Taken(s, t, w, Waiting(w)), Outcome(t), Counted(s, t, w, Unmarking(w, Finish)));
    Follow(s, run + [Outcome(t)], Counted(s, t, w, Unmarking(w, Finish)), ThreadStep(t), Counted(s, t, w, CountIdle(w, |s.busy|, Finish)));
    Follow(s, run + [Outcome(t)] + [ThreadStep(t)], Counted(s, t, w, CountIdle(w, |s.busy|, Finish)), ThreadStep(t),
           Counted(s, t, w, CountBacklog(w, total, Finish)));
    Follow(s, run + [Outcome(t)] + [ThreadStep(t)] + [ThreadStep(t)], Counted(s, t, w, CountBacklog(w, total, Finish)), ThreadStep(t),
           Counted(s, t, w, Ending));
    var after := [TakeIdle(t, w), ThreadStep(t), Answer(t, Sent), Outcome(t), ThreadStep(t), ThreadStep(t), ThreadStep(t)];
    assert run + [Outcome(t)] + [ThreadStep(t)] + [ThreadStep(t)] + [ThreadStep(t)] == after;
    Follow(s, after, Counted(s, t, w, Ending), ThreadStep(t), Counted(s, t, w, Ended));
    Follow(s, after + [ThreadStep(t)], Counted(s, t, w, Ended), ThreadStep(t), Counted(s, t, w, Returning));
    Follow(s, after + [ThreadStep(t)] + [ThreadStep(t)], Counted(s, t, w, Returning), ThreadStep(t), Retired(s, t, w));
    assert Retire(t, w) == after + [ThreadStep(t)] + [ThreadStep(t)] + [ThreadStep(t)];
  }

  predicate Plain(step: Step) {
    !step.ClearIdle? && !step.AddFails? && !step.DoneFails? && !step.LoopFails? && (step.Answer? ==> step.offer == Sent)
  }

  lemma {:induction false} PlainIsCareful(s: Pool, steps: seq<Step>)
    requires forall step :: step in steps ==> Plain(step)
    ensures CarefulRun(s, steps)
    decreases |steps|
  {
    hide Next;
    if steps != [] {
      assert steps[0] in steps;
      PlainIsCareful(Next(s, steps[0]), steps[1..]);
    }
  }

  ghost predicate AllPlain(steps: seq<Step>) {
    forall step :: step in steps ==> Plain(step)
  }

  lemma PlainParts(s: Pool, t: ThreadId, w: WorkerId)
    ensures AllPlain(Start(s)) && AllPlain(Retire(t, w))
  {
  }

  /** Nothing runs and nothing waits in a pool that keeps no minimum. */
  predicate Rested(s: Pool) {
    && s.runner == AtPut && s.tokens == 0 && s.queued == {} && |s.jobs| == |s.items| && s.threads == map[] && s.busy == {}
    && (forall j :: j in s.done ==> j < |s.items|) && (forall w :: w in s.idle ==> w < |s.workers|)
    && s.minWorkers <= 0 && s.size >= 2
  }

  lemma OneCycle(s: Pool, w: WorkerId)
    requires Rested(s) && w in s.idle
    ensures MayStart(s) && MayRetire(Started(s), s.nextThread, w)
    ensures var t := Retired(Started(s), s.nextThread, w); Rested(t) && t.idle == s.idle - {w}
  {
    var t := Retired(Started(s), s.nextThread, w);
    assert t.threads == map[];
  }

  /** One task after the other retires its worker, down to the last. */
  lemma {:induction false} RetireDownToOne(s: Pool) returns (steps: seq<Step>)
    requires Rested(s) && s.idle != {}
    ensures AllPlain(steps) && Rested(Run(s, steps)) && |Run(s, steps).idle| == 1
    decreases |s.idle|
  {
    hide Run, Next, Rested, Start, Started, Retire, Retired, MayRetire, Plain;
    steps := [];
    NoStep(s);
    if |s.idle| > 1 {
      var w :| w in s.idle;
      OneCycle(s, w);
      StartReaches(s);
      RetireReaches(Started(s), s.nextThread, w);
      RunInParts(s, Start(s), Retire(s.nextThread, w));
      var t := Retired(Started(s), s.nextThread, w);
      var rest := RetireDownToOne(t);
      RunInParts(s, Start(s) + Retire(s.nextThread, w), rest);
      steps := Start(s) + Retire(s.nextThread, w) + rest;
      PlainParts(s, s.nextThread, w);
    }
  }

  /** No worker at all, the thread `t` waiting, nothing queued. */
  ghost predicate Alone(s: Pool, t: ThreadId) {
    && s.idle == {} && s.queued == {} && (s.runner == AtPut || s.runner == AtGet)
    && s.threads.Keys == {t} && s.threads[t].pc.Getting?
  }

  lemma {:induction false} AloneUntilSubmit(s: Pool, t: ThreadId, steps: seq<Step>)
    requires Alone(s, t) && forall step :: step in steps ==> !step.Submit?
    ensures Alone(Run(s, steps), t) && Run(s, steps).threads == s.threads
    decreases |steps|
  {
    hide Next;
    if steps != [] {
      AloneStep(s, t, steps[0]);
      AloneUntilSubmit(Next(s, steps[0]), t, steps[1..]);
    }
  }

  lemma AloneStep(s: Pool, t: ThreadId, step: Step)
    requires Alone(s, t) && !step.Submit?
    ensures Alone(Next(s, step), t) && Next(s, step).threads == s.threads
  {
    hide TaskDone;
    assert step.CancelTaken? ==> TaskDone(s, step.job).threads == s.threads;
  }

  lemma AloneUnsupplied(s: Pool, t: ThreadId)
    requires Alone(s, t)
    ensures Waits(s, t) && !Supplied(s)
  {
    assert t in s.threads.Keys;
    forall r ensures !Supplier(s, r) { assert r in s.threads ==> r in s.threads.Keys; }
  }

  /** The last worker: two threads see it and wait for it, and the first retires it. */
  lemma LastWorker(s: Pool, w: WorkerId)
    requires Rested(s) && s.idle == {w}
    ensures var n, two := s.nextThread, Started(Started(s));
            && MayStart(s) && MayStart(Started(s)) && MayRetire(two, n, w) && Alone(Retired(two, n, w), n + 1)
  {
    var n, two := s.nextThread, Started(Started(s));
    assert Retired(two, n, w).threads.Keys == {n + 1};
    assert {w} - {w} == {};
  }

  /**
   Without a minimum, in a pool of two or more: a run that loses no worker, after which a thread waits for nobody until
   another task is submitted.
   */
  lemma WithoutMinimumNobodyServes(size: nat, minWorkers: int) returns (steps: seq<Step>, t: ThreadId)
    requires size >= 2 && minWorkers <= 0
    ensures CarefulRun(Init(size, minWorkers), steps)
    ensures var s := Run(Init(size, minWorkers), steps);
            && Waits(s, t) && !Supplied(s)
            && forall later: seq<Step> :: (forall step :: step in later ==> !step.Submit?) ==>
                 Run(s, later).threads == s.threads && Run(s, later).idle == {}
  {
    hide Run, Next, Rested, Start, Started, Retire, Retired, MayStart, MayRetire, CarefulRun, Plain, Alone;
    var i := Init(size, minWorkers);
    InitRested(size, minWorkers);
    var down := RetireDownToOne(i);
    var s := Run(i, down);
    var w := OnlyOne(s.idle);
    LastWorker(s, w);
    var n := s.nextThread;
    StartReaches(s);
    StartReaches(Started(s));
    RetireReaches(Started(Started(s)), n, w);
    RunInParts(i, down, Start(s));
    RunInParts(i, down + Start(s), Start(Started(s)));
    RunInParts(i, down + Start(s) + Start(Started(s)), Retire(n, w));
    steps, t := down + Start(s) + Start(Started(s)) + Retire(n, w), n + 1;
    PlainParts(s, n, w);
    PlainParts(Started(s), n, w);
    PlainIsCareful(i, steps);
    var u := Run(i, steps);
    AloneUnsupplied(u, t);
    forall later: seq<Step> | forall step :: step in later ==> !step.Submit?
      ensures Run(u, later).threads == u.threads && Run(u, later).idle == {}
    {
      AloneUntilSubmit(u, t, later);
      AloneUnsupplied(Run(u, later), t);
    }
  }

  lemma InitRested(size: nat, minWorkers: int)
    requires size >= 2 && minWorkers <= 0
    ensures Rested(Init(size, minWorkers)) && Init(size, minWorkers).idle != {}
  {
    assert 0 in Init(size, minWorkers).idle;
  }

  lemma OnlyOne(ws: set<WorkerId>) returns (w: WorkerId)
    requires |ws| == 1
    ensures ws == {w}
  {
    w :| w in ws;
    assert |ws - {w}| == 0;
    assert ws - {w} == {};
  }

  // ---------- the exact condition ----------

  /** Waiting threads can always be served if and only if a worker is kept or the pool is of size one. */
  lemma ServableExactlyWhen(size: nat, minWorkers: int)
    requires size >= 1
    ensures AlwaysServable(size, minWorkers) <==> minWorkers >= 1 || size == 1
    ensures AlwaysSupplied(size, minWorkers) <==> minWorkers >= 1 || size == 1
  {
    hide Run, CarefulRun, Waits, Supplier, Supplied, OwnStep;
    if minWorkers >= 1 || size == 1 {
      forall steps, t | CarefulRun(Init(size, minWorkers), steps) && Waits(Run(Init(size, minWorkers), steps), t)
        ensures exists later :: Serves(Run(Init(size, minWorkers), steps), t, later)
        ensures exists r :: r != t && Supplier(Run(Init(size, minWorkers), steps), r)
      {
        if minWorkers >= 1 {
          WaitsParts(Run(Init(size, minWorkers), steps), t);
          var later := WaiterIsServed(size, minWorkers, steps, t);
          assert Serves(Run(Init(size, minWorkers), steps), t, later);
        } else {
          OneNeverWaits(minWorkers, steps, t);
        }
      }
    } else {
      var steps, t := WithoutMinimumNobodyServes(size, minWorkers);
      var s := Run(Init(size, minWorkers), steps);
      NoneSupplies(s);
      forall later ensures !Serves(s, t, later) {
        if Serves(s, t, later) { OwnNotSubmit(later, t); }
      }
    }
  }

  lemma WaitsParts(s: Pool, t: ThreadId)
    requires Waits(s, t)
    ensures t in s.threads && s.threads[t].pc.Getting? && s.idle == {}
  {
  }

  lemma NoneSupplies(s: Pool)
    requires !Supplied(s)
    ensures forall r :: !Supplier(s, r)
  {
  }

  lemma OwnNotSubmit(steps: seq<Step>, t: ThreadId)
    requires forall step :: step in steps ==> OwnStep(step, t)
    ensures forall step :: step in steps ==> !step.Submit?
  {
  }
}
