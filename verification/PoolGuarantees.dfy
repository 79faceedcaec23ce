/** What the pool's accounting promises in every interleaving. */
module PoolGuarantees {
  import opened Sums
  import opened Pool
  import opened PoolSteps

  lemma StepKeepsPool(s: Pool, step: Step)
    requires Invariant(s)
    ensures Invariant(Next(s, step))
  {
    hide Within, Exclusive, TokensExact, JobsExact, FreshThreads, Next;
    StepWithin(s, step);
    StepExclusive(s, step);
    StepTokens(s, step);
    StepJobs(s, step);
  }

  lemma InitKept(size: nat, minWorkers: int)
    ensures Invariant(Init(size, minWorkers))
  {
    var s := Init(size, minWorkers);
    assert Weights(map[]) == map[];
    assert forall w: WorkerId :: At(s, w, Idle) <==> w < size;
  }

  lemma {:induction false} RunKeepsPool(s: Pool, steps: seq<Step>)
    requires Invariant(s)
    ensures Invariant(Run(s, steps))
    decreases |steps|
  {
    hide Invariant, Next;
    if steps != [] {
      StepKeepsPool(s, steps[0]);
      RunKeepsPool(Next(s, steps[0]), steps[1..]);
    }
  }

  /**
   However stale the counts a thread decides on, idle workers, workers with a thread and decisions to add one never
   exceed the pool size, and no worker is idle and held, or held twice.
   */
  lemma WorkersWithinSize(size: nat, minWorkers: int, steps: seq<Step>)
    ensures var s := Run(Init(size, minWorkers), steps);
            && |s.idle| + Sum(Weights(s.threads)) <= s.size
            && (forall t, w :: HasWorker(s, t, w) ==> w !in s.idle)
            && (forall t, u, w :: HasWorker(s, t, w) && HasWorker(s, u, w) ==> t == u)
  {
    hide Run, Sum, JobsExact, TokensExact;
    InitKept(size, minWorkers);
    RunKeepsPool(Init(size, minWorkers), steps);
    OnePlace(Run(Init(size, minWorkers), steps));
  }

  lemma OnePlace(s: Pool)
    requires Exclusive(s)
    ensures forall t, w :: HasWorker(s, t, w) ==> w !in s.idle
    ensures forall t, u, w :: HasWorker(s, t, w) && HasWorker(s, u, w) ==> t == u
  {
    forall t: ThreadId, w: WorkerId | HasWorker(s, t, w) ensures w !in s.idle && At(s, w, Held(t)) {
      assert At(s, w, Held(t));
    }
    forall t: ThreadId, u: ThreadId, w: WorkerId | HasWorker(s, t, w) && HasWorker(s, u, w) ensures t == u {
      assert At(s, w, Held(t)) && At(s, w, Held(u));
    }
  }

  /** Tokens: one for each live thread and the runner's job, so that giving one back never finds `running_jobs` empty. */
  lemma TokenAlwaysThere(s: Pool, t: ThreadId)
    requires Invariant(s) && t in s.threads
    ensures s.tokens == |s.threads| + RunnerToken(s.runner) + s.lostTokens <= s.size
    ensures s.threads[t].pc.Returning? ==> s.tokens > 0 && Next(s, ThreadStep(t)).tokens == s.tokens - 1
  {
    OneLess(s.threads, t);
  }

  /** Each `done_with_process` finds its worker in `busy_workers`: it pairs with the `get_process` that put it there. */
  lemma RemovePairsWithAdd(s: Pool, t: ThreadId)
    requires Invariant(s) && t in s.threads && Busy(s.threads[t].pc)
    ensures s.threads[t].pc.w in s.busy
  {
    HeldByThread(s, t);
  }

  /** Besides the workers of running tasks, `busy_workers` holds the leaked ones and no other. */
  lemma BusyIsHeldOrLeaked(s: Pool, w: WorkerId)
    requires Invariant(s) && w in s.busy
    ensures w < |s.workers| && (s.workers[w].Leaked? || (s.workers[w].Held? && HasWorker(s, s.workers[w].t, w)))
  {
    assert InUse(s, w);
    assert s.workers[w].Held? ==> At(s, w, s.workers[w]);
  }

  // ---------- workers that nobody gives back ----------

  /** In `busy_workers` while no thread has it, so that no `done_with_process` will take it out. */
  ghost predicate Orphan(s: Pool, w: WorkerId) {
    w in s.busy && forall t: ThreadId :: !HasWorker(s, t, w)
  }

  lemma OrphanIsLeaked(s: Pool, w: WorkerId)
    requires Exclusive(s)
    ensures Orphan(s, w) <==> At(s, w, Leaked)
  {
    assert w in s.busy <==> InUse(s, w);
    forall t: ThreadId ensures HasWorker(s, t, w) <==> At(s, w, Held(t)) { }
    if w < |s.workers| && s.workers[w].Held? { assert HasWorker(s, s.workers[w].t, w); }
  }

  /** A step orphans a worker if and only if its thread fails in sending the job or awaiting its result, past `done_with_process`. */
  lemma OrphanedExactlyWhen(s: Pool, step: Step, w: WorkerId)
    requires Invariant(s) && !Orphan(s, w)
    ensures Orphan(Next(s, step), w) <==>
            || (step.LoopFails? && HasWorker(s, step.t, w) && s.threads[step.t].pc.Waiting?)
            || (step.Answer? && HasWorker(s, step.t, w) && s.threads[step.t].pc.Offering? &&
                  (step.offer == OtherError || (step.offer == Unpicklable && s.threads[step.t].job in s.done)))
  {
    hide Within, Exclusive, TokensExact, JobsExact, FreshThreads, Next, Orphan;
    StepKeepsPool(s, step);
    OrphanIsLeaked(s, w);
    OrphanIsLeaked(Next(s, step), w);
    if w < |s.workers| { LeaksWhen(s, step, w); } else { NewNotLeaked(s, step, w); }
  }

  lemma NewNotLeaked(s: Pool, step: Step, w: WorkerId)
    requires Exclusive(s) && w >= |s.workers|
    ensures !At(Next(s, step), w, Leaked)
    ensures forall t: ThreadId :: !HasWorker(s, t, w)
  {
    hide TaskDone, Decided, Advance;
    forall t: ThreadId ensures !HasWorker(s, t, w) { assert !At(s, w, Held(t)); }
    match step
    case ThreadStep(t) => if t in s.threads { NewlyIdle(s, t, w); }
    case RunnerDecide => DecidedWorkers(s);
    case CancelTaken(j) => assert TaskDone(s, j).workers == s.workers;
    case _ =>
  }

  lemma NewlyIdle(s: Pool, t: ThreadId, w: WorkerId)
    requires t in s.threads && w >= |s.workers|
    ensures !At(Advance(s, t), w, Leaked)
  {
    hide TaskDone;
  }

  lemma LeaksWhen(s: Pool, step: Step, w: WorkerId)
    requires Exclusive(s) && w < |s.workers| && !s.workers[w].Leaked?
    ensures At(Next(s, step), w, Leaked) <==>
            || (step.LoopFails? && HasWorker(s, step.t, w) && s.threads[step.t].pc.Waiting?)
            || (step.Answer? && HasWorker(s, step.t, w) && s.threads[step.t].pc.Offering? &&
                  (step.offer == OtherError || (step.offer == Unpicklable && s.threads[step.t].job in s.done)))
  {
    hide Within, TokensExact, JobsExact, FreshThreads, Advance, Decided, TaskDone;
    match step
    case Answer(t, _) => if t in s.threads && s.threads[t].pc.Offering? { HeldByThread(s, t); }
    case LoopFails(t) => if t in s.threads && s.threads[t].pc.Waiting? { HeldByThread(s, t); }
    case ThreadStep(t) => if t in s.threads { AdvanceNeverLeaks(s, t, w); }
    case RunnerDecide => DecidedWorkers(s);
    case _ =>
  }

  lemma AdvanceNeverLeaks(s: Pool, t: ThreadId, w: WorkerId)
    requires t in s.threads && w < |s.workers| && !s.workers[w].Leaked?
    ensures !At(Advance(s, t), w, Leaked)
  {
    hide TaskDone;
  }

  lemma DecidedWorkers(s: Pool)
    ensures Decided(s).workers == s.workers
  {
    hide TaskDone;
  }

  lemma LeakedStays(s: Pool, step: Step, w: WorkerId)
    requires Exclusive(s) && At(s, w, Leaked)
    ensures At(Next(s, step), w, Leaked)
  {
    hide Exclusive, Advance, Decided, TaskDone, Answered;
    match step
    case ThreadStep(t) => if t in s.threads { AdvanceLeavesLeaked(s, t, w); }
    case Answer(t, offer) =>
      if t in s.threads && s.threads[t].pc.Offering? {
        HeldByThread(s, t);
        AnsweredLeavesLeaked(s, t, offer, w);
      }
    case Judge(t, _) => if t in s.threads && s.threads[t].pc.Judging? { HeldByThread(s, t); }
    case DoneFails(t) => if Next(s, step) != s { HeldByThread(s, t); }
    case LoopFails(t) => if Next(s, step) != s { HeldByThread(s, t); }
    case TakeIdle(_, v) => if v in s.idle { IdleKnown(s, v); }
    case ClearIdle(v) => if v in s.idle { IdleKnown(s, v); }
    case RunnerDecide => DecidedWorkers(s);
    case CancelTaken(j) => assert TaskDone(s, j).workers == s.workers;
    case _ =>
  }

  lemma AnsweredLeavesLeaked(s: Pool, t: ThreadId, offer: Offer, w: WorkerId)
    requires At(s, w, Leaked) && t in s.threads && s.threads[t].pc.Offering? && s.threads[t].pc.w != w
    ensures At(Answered(s, t, offer), w, Leaked)
  {
  }

  lemma AdvanceLeavesLeaked(s: Pool, t: ThreadId, w: WorkerId)
    requires Exclusive(s) && At(s, w, Leaked) && t in s.threads
    ensures At(Advance(s, t), w, Leaked)
  {
    hide Exclusive, TaskDone;
    if Holds(s.threads[t].pc) { HeldByThread(s, t); }
  }

  /** Once orphaned, for good: it is never idle, never held and never out of `busy_workers` again. */
  lemma {:induction false} OrphanForGood(s: Pool, steps: seq<Step>, w: WorkerId)
    requires Invariant(s) && Orphan(s, w)
    ensures Orphan(Run(s, steps), w) && w !in Run(s, steps).idle
    decreases |steps|
  {
    hide Within, Exclusive, TokensExact, JobsExact, FreshThreads, Next, Orphan;
    OrphanIsLeaked(s, w);
    if steps == [] {
      LeakedNotIdle(s, w);
    } else {
      StepKeepsPool(s, steps[0]);
      LeakedStays(s, steps[0], w);
      OrphanIsLeaked(Next(s, steps[0]), w);
      OrphanForGood(Next(s, steps[0]), steps[1..], w);
    }
  }

  lemma LeakedNotIdle(s: Pool, w: WorkerId)
    requires Exclusive(s) && At(s, w, Leaked)
    ensures w !in s.idle
  {
    assert !At(s, w, Idle);
  }

  // ---------- a pool that has lost its workers ----------

  /** The thread has no worker, and the counts it goes by will not make it add one. */
  ghost predicate Hungry(s: Pool, pc: Pc) {
    pc.ReadBusy? || (pc.ReadIdle? && pc.busy >= s.size) || pc.Getting? || pc.Killing? || pc.Ending? || pc.Ended? || pc.Failing? || pc.Returning?
  }

  /** `busy_workers` is full of workers no thread has, and there is no other. */
  ghost predicate Starved(s: Pool) {
    s.idle == {} && |s.busy| >= s.size && forall t :: t in s.threads ==> Hungry(s, s.threads[t].pc)
  }

  lemma StarvedStep(s: Pool, step: Step)
    requires Starved(s)
    ensures Starved(Next(s, step))
    ensures forall t :: t in s.threads && s.threads[t].pc.Getting? && t != s.nextThread ==>
              t in Next(s, step).threads && Next(s, step).threads[t] == s.threads[t]
  {
    hide Advance, TaskDone, Decided, First;
    match step
    case ThreadStep(t) => if t in s.threads { StarvedAdvance(s, t); }
    case RunnerDecide => StarvedDecided(s);
    case CancelTaken(j) => assert TaskDone(s, j).threads == s.threads;
    case _ => if Driven(step) { StarvedDriven(s, step); }
  }

  /** A thread without a worker may at most fail to kill a process. */
  lemma StarvedDriven(s: Pool, step: Step)
    requires Starved(s) && Driven(step)
    ensures Starved(Next(s, step))
    ensures forall t :: t in s.threads && s.threads[t].pc.Getting? ==> t in Next(s, step).threads && Next(s, step).threads[t] == s.threads[t]
  {
    assert step.t in s.threads ==> Hungry(s, s.threads[step.t].pc);
  }

  lemma StarvedAdvance(s: Pool, t: ThreadId)
    requires Starved(s) && t in s.threads
    ensures Starved(Advance(s, t))
    ensures forall u :: u in s.threads && s.threads[u].pc.Getting? ==> u in Advance(s, t).threads && Advance(s, t).threads[u] == s.threads[u]
  {
    hide TaskDone;
  }

  lemma StarvedDecided(s: Pool)
    requires Starved(s)
    ensures Starved(Decided(s))
    ensures forall t :: t in s.threads && t != s.nextThread ==> t in Decided(s).threads && Decided(s).threads[t] == s.threads[t]
  {
    hide TaskDone;
  }

  /** From then on no thread ever has a worker, whatever is submitted, cancelled or answered. */
  lemma {:induction false} StarvedForGood(s: Pool, steps: seq<Step>)
    requires Starved(s)
    ensures Starved(Run(s, steps)) && forall t, w :: !HasWorker(Run(s, steps), t, w)
    decreases |steps|
  {
    hide Next, Starved;
    if steps == [] {
      StarvedHoldsNone(s);
    } else {
      StarvedStep(s, steps[0]);
      StarvedForGood(Next(s, steps[0]), steps[1..]);
    }
  }

  lemma StarvedHoldsNone(s: Pool)
    requires Starved(s)
    ensures forall t, w :: !HasWorker(s, t, w)
  {
    forall t: ThreadId, w: WorkerId ensures !HasWorker(s, t, w) {
      assert t in s.threads ==> Hungry(s, s.threads[t].pc);
    }
  }

  /** A thread in `workers.get()` stays there, and `submitted_jobs.join()` never returns. */
  lemma {:induction false} WaitsForGood(s: Pool, steps: seq<Step>, t: ThreadId)
    requires Invariant(s) && Starved(s) && t in s.threads && s.threads[t].pc.Getting?
    ensures var u := Run(s, steps); t in u.threads && u.threads[t] == s.threads[t] && u.unfinished > 0
    decreases |steps|
  {
    hide Within, Exclusive, TokensExact, JobsExact, Next, Starved;
    assert t != s.nextThread;
    if steps == [] {
      OwedUnfinished(s, t);
    } else {
      StarvedStep(s, steps[0]);
      StepKeepsPool(s, steps[0]);
      WaitsForGood(Next(s, steps[0]), steps[1..], t);
    }
  }

  lemma OwedUnfinished(s: Pool, t: ThreadId)
    requires JobsExact(s) && t in s.threads && s.threads[t].pc.Getting?
    ensures s.unfinished > 0
  {
    assert Owes(s, t, s.threads[t].job);
    assert JobAt(s, s.threads[t].job, With(t));
    if CountOpen(s.jobs) == 0 { AllFinished(s.jobs); }
  }

  /** In a pool of size one the first orphan starves the pool. */
  lemma OrphanStarvesOne(s: Pool, step: Step, w: WorkerId)
    requires Invariant(s) && s.size == 1 && !Orphan(s, w) && Orphan(Next(s, step), w)
    ensures Starved(Next(s, step))
  {
    hide Exclusive, JobsExact, Next;
    OrphanedExactlyWhen(s, step, w);
    OnlyThread(s, step.t);
    OrphanedHow(s, step, w);
  }

  lemma OnlyThread(s: Pool, t: ThreadId)
    requires Within(s) && TokensExact(s) && s.size == 1 && t in s.threads && Weight(s.threads[t].pc) == 1
    ensures s.idle == {} && forall u :: u in s.threads ==> u == t
  {
    OneLess(s.threads, t);
    assert s.threads - {t} == map[];
    forall u | u in s.threads ensures u == t { assert u != t ==> u in s.threads - {t}; }
    WeightGone(s, t);
    assert Weights(map[]) == map[];
  }

  lemma OrphanedHow(s: Pool, step: Step, w: WorkerId)
    requires (step.Answer? || step.LoopFails?) && HasWorker(s, step.t, w) && w in Next(s, step).busy
    requires s.idle == {} && s.size == 1 && forall u :: u in s.threads ==> u == step.t
    requires if step.LoopFails? then s.threads[step.t].pc.Waiting?
             else s.threads[step.t].pc.Offering?
                  && (step.offer == OtherError || (step.offer == Unpicklable && s.threads[step.t].job in s.done))
    ensures Starved(Next(s, step))
  {
    assert |Next(s, step).busy| >= 1;
  }

  // ---------- tokens that nobody gives back ----------

  /** Tokens in `running_jobs` beyond one for each live thread and the one of the runner's job. */
  function Excess(s: Pool): int {
    s.tokens - |s.threads| - RunnerToken(s.runner)
  }

  /** A step leaves a token behind if and only if a finishing task's future is completed between its check and its own attempt. */
  lemma TokenLostExactlyWhen(s: Pool, step: Step)
    requires Invariant(s)
    ensures Excess(Next(s, step)) == Excess(s) +
              if step.ThreadStep? && step.t in s.threads && s.threads[step.t].pc.Failing? && s.threads[step.t].job in s.done then 1 else 0
  {
    hide Within, Exclusive, JobsExact, FreshThreads, Next;
    StepKeepsPool(s, step);
    LostWhen(s, step);
  }

  lemma LostWhen(s: Pool, step: Step)
    ensures Next(s, step).lostTokens == s.lostTokens +
              if step.ThreadStep? && step.t in s.threads && s.threads[step.t].pc.Failing? && s.threads[step.t].job in s.done then 1 else 0
  {
    hide TaskDone;
  }

  /** A token left behind is never given back: that many fewer jobs run at once, and with `size` of them none runs any more. */
  lemma {:induction false} ExcessForGood(s: Pool, steps: seq<Step>)
    requires Invariant(s)
    ensures var u := Run(s, steps);
            && Excess(u) >= Excess(s)
            && |u.threads| + RunnerToken(u.runner) <= u.size - Excess(s)
            && (Excess(s) == s.size ==> u.threads == map[] && !u.runner.InHand?)
    decreases |steps|
  {
    hide Within, Exclusive, JobsExact, FreshThreads, Next;
    if steps != [] {
      StepKeepsPool(s, steps[0]);
      TokenLostExactlyWhen(s, steps[0]);
      SizeStays(s, steps[0]);
      ExcessForGood(Next(s, steps[0]), steps[1..]);
    }
  }

  lemma SizeStays(s: Pool, step: Step)
    ensures Next(s, step).size == s.size && Next(s, step).minWorkers == s.minWorkers
  {
    hide TaskDone;
  }

  /** A job that is finished stays so: whether run, skipped or cancelled, it is counted off once. */
  lemma FinishedOnce(s: Pool, step: Step, j: JobId)
    requires Invariant(s) && JobAt(s, j, Finished)
    ensures JobAt(Next(s, step), j, Finished)
    ensures Next(s, step).unfinished >= s.unfinished - 1
  {
    hide Within, Exclusive, TokensExact, FreshThreads, JobsExact;
    FinishedStays(s, step, j);
    CountedOffAtMostOne(s, step);
  }

  lemma FinishedStays(s: Pool, step: Step, j: JobId)
    requires JobsExact(s) && JobAt(s, j, Finished)
    ensures JobAt(Next(s, step), j, Finished)
  {
    NotElsewhere(s, j);
    if step.ThreadStep? && step.t in s.threads && s.threads[step.t].pc.Ending? {
      assert Owes(s, step.t, s.threads[step.t].job);
    }
  }

  lemma CountedOffAtMostOne(s: Pool, step: Step)
    ensures Next(s, step).unfinished >= s.unfinished - 1
  {
  }

  lemma {:induction false} AllFinished(jobs: seq<Place>)
    requires CountOpen(jobs) == 0
    ensures forall j :: 0 <= j < |jobs| ==> jobs[j] == Finished
    decreases |jobs|
  {
    if jobs != [] { AllFinished(jobs[..|jobs| - 1]); }
  }

  /** When `submitted_jobs.join()` returns, every job ever submitted is finished and no task thread has a worker any more. */
  lemma JoinedMeansQuiet(s: Pool)
    requires Invariant(s) && s.unfinished == 0
    ensures forall j :: 0 <= j < |s.items| ==> JobAt(s, j, Finished)
    ensures s.queued == {} && s.cancelling == {} && !s.runner.InHand?
    ensures forall t :: t in s.threads ==> !Holds(s.threads[t].pc)
  {
    hide Within, Exclusive, TokensExact, FreshThreads;
    AllFinished(s.jobs);
    forall t | t in s.threads ensures !Holds(s.threads[t].pc) {
      var j := s.threads[t].job;
      assert Owes(s, t, j) ==> JobAt(s, j, With(t));
    }
    forall j: JobId ensures j !in s.queued && j !in s.cancelling {
      assert !JobAt(s, j, Queued) && !JobAt(s, j, Cancelling);
    }
    assert s.runner.InHand? ==> JobAt(s, s.runner.job, AtRunner);
  }
}
