/** What becomes of the jobs: which is taken first, how often one is offered to a worker, and when its future is done. */
module PoolJobs {
  import opened Pool
  import opened PoolSteps
  import opened PoolGuarantees

  // ---------- which job is taken ----------

  /** Of the waiting jobs it has the least priority, and of those with that priority it was submitted first. */
  ghost predicate NextInLine(s: Pool, j: JobId) {
    && j in s.queued && j < |s.items|
    && forall k: JobId :: k in s.queued && k < |s.items| && k != j ==>
         s.items[j].priority < s.items[k].priority || (s.items[j].priority == s.items[k].priority && j < k)
  }

  /** Runner and shutdown take a job if and only if it is next in line, the runner only at its `get`; nothing else moves. */
  lemma TakenExactlyWhen(s: Pool, j: JobId)
    requires Invariant(s)
    ensures var u := Next(s, RunnerGet(j));
            if s.runner == AtGet && NextInLine(s, j)
            then u == s.(runner := InHand(j), queued := s.queued - {j}, jobs := s.jobs[j := AtRunner])
            else u == s
    ensures Next(s, TakeToCancel(j)) ==
            if NextInLine(s, j)
            then s.(queued := s.queued - {j}, cancelling := s.cancelling + {j}, jobs := s.jobs[j := Cancelling])
            else s
  {
    hide Within, Exclusive, TokensExact;
  }

  /** Whenever a job waits, exactly one is next in line, so the runner at its `get` is never stuck. */
  lemma OneIsNext(s: Pool)
    requires Invariant(s) && s.queued != {}
    ensures exists j: JobId :: NextInLine(s, j)
    ensures forall j: JobId, k: JobId :: NextInLine(s, j) && NextInLine(s, k) ==> j == k
  {
    hide Within, Exclusive, TokensExact;
    forall j | j in s.queued ensures j < |s.items| { assert JobAt(s, j, Queued); }
    LeastOf(s, s.queued);
    var j: JobId :| j in s.queued && LeastIn(s, s.queued, j);
    assert NextInLine(s, j);
  }

  ghost predicate LeastIn(s: Pool, js: set<JobId>, j: JobId)
    requires j < |s.items|
  {
    forall k: JobId :: k in js && k < |s.items| ==> Before(s, j, k)
  }

  lemma {:induction false} LeastOf(s: Pool, js: set<JobId>)
    requires js != {} && forall j :: j in js ==> j < |s.items|
    ensures exists j: JobId :: j in js && LeastIn(s, js, j)
    decreases |js|
  {
    var x: JobId :| x in js;
    var rest := js - {x};
    assert js == rest + {x};
    if rest == {} {
      assert LeastIn(s, js, x);
    } else {
      LeastOf(s, rest);
      var y: JobId :| y in rest && LeastIn(s, rest, y);
      assert LeastIn(s, js, if Before(s, x, y) then x else y);
    }
  }

  // ---------- when a future is done ----------

  /** The job's thread had an answer or a dead worker, cannot pickle it, saw every offer break, or found it not completed at its end. */
  predicate Completes(s: Pool, step: Step, j: JobId) {
    || (step.Outcome? && step.t in s.threads && s.threads[step.t] == Thread(j, s.threads[step.t].pc) && s.threads[step.t].pc.Waiting?)
    || (step.Answer? && step.offer == Unpicklable && step.t in s.threads && s.threads[step.t].job == j && s.threads[step.t].pc.Offering?)
    || (step.ThreadStep? && step.t in s.threads && s.threads[step.t].job == j &&
          (s.threads[step.t].pc == Killing(0) || s.threads[step.t].pc == Failing))
  }

  /** A future is completed by its cancellation, by its worker, or by its thread giving the job up; never otherwise, and for good. */
  lemma DoneExactlyWhen(s: Pool, step: Step, j: JobId)
    ensures j in Next(s, step).done <==>
              j in s.done || step == Cancel(j) || (step == CancelTaken(j) && j in s.cancelling) || Completes(s, step, j)
  {
    hide Decided, TaskDone, Advance, First, Answered;
    match step
    case CancelTaken(k) => assert TaskDone(s, k).done == s.done;
    case RunnerDecide => DecidedDone(s);
    case ThreadStep(t) => if t in s.threads { AdvancedDone(s, t); }
    case Answer(t, offer) => if t in s.threads && s.threads[t].pc.Offering? { AnsweredDone(s, t, offer); }
    case _ =>
  }

  lemma AdvancedDone(s: Pool, t: ThreadId)
    requires t in s.threads
    ensures Advance(s, t).done == s.done + (if s.threads[t].pc == Killing(0) || s.threads[t].pc == Failing then {s.threads[t].job} else {})
  {
    hide TaskDone;
    assert TaskDone(s, s.threads[t].job).done == s.done;
  }

  lemma AnsweredDone(s: Pool, t: ThreadId, offer: Offer)
    requires t in s.threads && s.threads[t].pc.Offering?
    ensures Answered(s, t, offer).done == s.done + (if offer == Unpicklable then {s.threads[t].job} else {})
  {
  }

  lemma DecidedDone(s: Pool)
    ensures Decided(s).done == s.done
  {
    hide TaskDone;
  }

  /** A finished job's future is done, or the thread that finished it is about to see to that. */
  ghost predicate Settled(s: Pool, j: JobId) {
    JobAt(s, j, Finished) && j < |s.items| && s.items[j].Task? ==> j in s.done || exists t: ThreadId :: Closing(s, t, j)
  }

  ghost predicate Closing(s: Pool, t: ThreadId, j: JobId) {
    t in s.threads && s.threads[t].job == j && (s.threads[t].pc.Ended? || s.threads[t].pc.Failing?)
  }

  lemma {:induction false} RunSettles(s: Pool, steps: seq<Step>, j: JobId)
    requires Invariant(s) && Settled(s, j)
    ensures Settled(Run(s, steps), j)
    decreases |steps|
  {
    hide Invariant, Settled, Next;
    if steps != [] {
      StepKeepsPool(s, steps[0]);
      StepSettles(s, steps[0], j);
      RunSettles(Next(s, steps[0]), steps[1..], j);
    }
  }

  lemma StepSettles(s: Pool, step: Step, j: JobId)
    requires Invariant(s) && Settled(s, j)
    ensures Settled(Next(s, step), j)
  {
    hide Invariant, Next, JobAt;
    DoneExactlyWhen(s, step, j);
    SameItems(s, step, j);
    FinishedNow(s, step, j);
    if j !in Next(s, step).done {
      forall t: ThreadId | Closing(s, t, j) ensures Closing(Next(s, step), t, j) { StaysClosing(s, step, t, j); }
    }
  }

  lemma SameItems(s: Pool, step: Step, j: JobId)
    ensures |s.items| <= |Next(s, step).items| && (j < |s.items| ==> Next(s, step).items[j] == s.items[j])
  {
    hide Advance, Answered, Decided, First, TaskDone;
    if step.ThreadStep? && step.t in s.threads {
      AdvancedItems(s, step.t);
    } else if step.RunnerDecide? {
      DecidedItems(s);
    } else if step.Answer? && Next(s, step) != s {
      assert Answered(s, step.t, step.offer).items == s.items by { AnsweredItems(s, step.t, step.offer); }
    }
  }

  lemma AdvancedItems(s: Pool, t: ThreadId)
    requires t in s.threads
    ensures Advance(s, t).items == s.items
    ensures !s.threads[t].pc.Ending? ==> Advance(s, t).jobs == s.jobs
    ensures s.threads[t].pc.Ending? ==> Advance(s, t) == Move(TaskDone(s, s.threads[t].job), t, Ended)
  {
    hide TaskDone;
  }

  lemma AnsweredItems(s: Pool, t: ThreadId, offer: Offer)
    requires t in s.threads && s.threads[t].pc.Offering?
    ensures Answered(s, t, offer).items == s.items && Answered(s, t, offer).jobs == s.jobs
  {
  }

  lemma DecidedItems(s: Pool)
    ensures Decided(s).items == s.items
    ensures forall j: JobId :: JobAt(Decided(s), j, Finished) && !JobAt(s, j, Finished) ==>
              j < |s.items| && (s.items[j].Sentinel? || j in s.done)
  {
  }

  /** The steps that count a job off: its thread's, the runner's for a sentinel or a done job, and the cancelling one's. */
  lemma FinishedNow(s: Pool, step: Step, j: JobId)
    requires Invariant(s)
    ensures JobAt(Next(s, step), j, Finished) && !JobAt(s, j, Finished) ==>
              || Closing(Next(s, step), if step.ThreadStep? then step.t else 0, j)
              || (j < |s.items| && (s.items[j].Sentinel? || j in s.done))
              || (step == CancelTaken(j) && j in s.cancelling)
    ensures JobAt(s, j, Finished) ==> j < |s.items|
  {
    hide Within, Exclusive, TokensExact, FreshThreads, First, Advance, Decided, Answered;
    match step
    case ThreadStep(t) => if t in s.threads { AdvancedItems(s, t); }
    case RunnerDecide => DecidedItems(s);
    case Answer(t, offer) => if t in s.threads && s.threads[t].pc.Offering? { AnsweredItems(s, t, offer); }
    case _ =>
  }

  /** Only its own steps move a closing thread, and they leave its future done. */
  lemma StaysClosing(s: Pool, step: Step, t: ThreadId, j: JobId)
    requires Invariant(s) && Closing(s, t, j) && j !in Next(s, step).done
    ensures Closing(Next(s, step), t, j)
  {
    hide Within, Exclusive, TokensExact, JobsExact, First, Advance, Decided, Answered, TaskDone;
    match step
    case ThreadStep(u) => if u in s.threads { StaysClosingAdvance(s, u, t, j); }
    case RunnerDecide => DecidedThreads(s);
    case Answer(u, offer) => if u in s.threads && s.threads[u].pc.Offering? { AnsweredThreads(s, u, offer); }
    case CancelTaken(k) => assert TaskDone(s, k).threads == s.threads;
    case _ =>
  }

  lemma StaysClosingAdvance(s: Pool, u: ThreadId, t: ThreadId, j: JobId)
    requires u in s.threads && Closing(s, t, j) && j !in Advance(s, u).done
    ensures Closing(Advance(s, u), t, j)
  {
    hide Advance;
    OneAdvances(s, u);
    if u == t { OwnClosing(s, t); }
  }

  lemma OwnClosing(s: Pool, t: ThreadId)
    requires t in s.threads && (s.threads[t].pc.Ended? || s.threads[t].pc.Failing?)
    ensures var v, j := Advance(s, t), s.threads[t].job;
            j in v.done || (t in v.threads && v.threads[t].job == j && v.threads[t].pc.Failing?)
  {
    hide TaskDone;
  }

  lemma DecidedThreads(s: Pool)
    ensures Decided(s).threads == s.threads ||
            (s.runner.InHand? && Decided(s).threads == s.threads[s.nextThread := Thread(s.runner.job, ReadBusy(9))])
  {
    hide TaskDone;
  }

  lemma AnsweredThreads(s: Pool, t: ThreadId, offer: Offer)
    requires t in s.threads && s.threads[t].pc.Offering?
    ensures t in Answered(s, t, offer).threads && Answered(s, t, offer).threads == s.threads[t := Answered(s, t, offer).threads[t]]
    ensures Answered(s, t, offer).threads[t].job == s.threads[t].job
  {
  }

  /** In every run: once no task is unfinished and no thread is left, every future of a task is done. */
  lemma JoinedMeansDone(size: nat, minWorkers: int, steps: seq<Step>, j: JobId)
    requires var u := Run(Init(size, minWorkers), steps); u.unfinished == 0 && u.threads == map[] && j < |u.items| && u.items[j].Task?
    ensures j in Run(Init(size, minWorkers), steps).done
  {
    hide Run, Within, Exclusive, TokensExact, FreshThreads;
    InitKept(size, minWorkers);
    RunKeepsPool(Init(size, minWorkers), steps);
    RunSettles(Init(size, minWorkers), steps, j);
    var u := Run(Init(size, minWorkers), steps);
    AllFinished(u.jobs);
    assert JobAt(u, j, Finished);
  }

  // ---------- how often a job is offered ----------

  /** Before the job is with a worker for good; `tries` counts what is left after the present attempt. */
  predicate Trying(pc: Pc) {
    || pc.ReadBusy? || pc.ReadIdle? || pc.Adding? || pc.Getting? || pc.Marking? || pc.Offering? || pc.Killing?
    || ((pc.Unmarking? || pc.CountIdle? || pc.CountBacklog? || pc.Judging? || pc.Replacing?) && pc.after.Retry?)
  }

  /** How many more offers of this thread may break before it gives up. */
  function Left(pc: Pc): int
    requires Trying(pc)
  {
    if pc.Killing? then pc.tries
    else if pc.Unmarking? || pc.CountIdle? || pc.CountBacklog? || pc.Judging? || pc.Replacing? then pc.after.tries
    else pc.tries + 1
  }

  predicate Breaks(s: Pool, step: Step, t: ThreadId) {
    step == Answer(t, BrokenPipe) && t in s.threads && s.threads[t].pc.Offering?
  }

  /** The offers of this thread that met a broken pipe in this run. */
  function Broken(s: Pool, steps: seq<Step>, t: ThreadId): nat
    decreases |steps|
  {
    if steps == [] then 0 else (if Breaks(s, steps[0], t) then 1 else 0) + Broken(Next(s, steps[0]), steps[1..], t)
  }

  /** Ten for a thread not started yet. */
  ghost predicate Allows(s: Pool, t: ThreadId, n: int) {
    if t in s.threads then Trying(s.threads[t].pc) ==> Left(s.threads[t].pc) == n else t >= s.nextThread ==> n == 10
  }

  lemma StepAllows(s: Pool, step: Step, t: ThreadId, n: int)
    requires FreshThreads(s) && Allows(s, t, n)
    ensures Allows(Next(s, step), t, if Breaks(s, step, t) then n - 1 else n)
  {
    hide Advance, Decided, Answered, First, TaskDone;
    match step
    case ThreadStep(u) => if u in s.threads { AdvanceAllows(s, u, t, n); }
    case RunnerDecide => DecidedAllows(s, t, n);
    case Answer(u, offer) => if u in s.threads && s.threads[u].pc.Offering? { AnsweredAllows(s, u, offer, t, n); }
    case CancelTaken(k) => assert TaskDone(s, k).threads == s.threads;
    case _ => if Driven(step) && Next(s, step) != s { DrivenAllows(s, step, t, n); }
  }

  lemma DrivenAllows(s: Pool, step: Step, t: ThreadId, n: int)
    requires Allows(s, t, n) && Driven(step)
    ensures Allows(Next(s, step), t, n)
  {
  }

  lemma AdvanceAllows(s: Pool, u: ThreadId, t: ThreadId, n: int)
    requires FreshThreads(s) && Allows(s, t, n) && u in s.threads
    ensures Allows(Advance(s, u), t, n)
  {
    hide Advance;
    OneAdvances(s, u);
    if u == t { OwnAdvance(s, t); }
  }

  lemma OneAdvances(s: Pool, u: ThreadId)
    requires u in s.threads
    ensures var v := Advance(s, u);
            && v.nextThread == s.nextThread
            && (v.threads == s.threads - {u} || (u in v.threads && v.threads == s.threads[u := v.threads[u]]))
  {
    hide Advance;
    AdvancedItems(s, u);
    if !s.threads[u].pc.Ending? { AdvancePlain(s, u); }
  }

  lemma OwnAdvance(s: Pool, t: ThreadId)
    requires t in s.threads
    ensures var v := Advance(s, t);
            t in v.threads && Trying(v.threads[t].pc) ==> Trying(s.threads[t].pc) && Left(v.threads[t].pc) == Left(s.threads[t].pc)
  {
    hide TaskDone;
  }

  lemma AnsweredAllows(s: Pool, u: ThreadId, offer: Offer, t: ThreadId, n: int)
    requires Allows(s, t, n) && u in s.threads && s.threads[u].pc.Offering?
    ensures Allows(Answered(s, u, offer), t, if u == t && offer == BrokenPipe then n - 1 else n)
  {
  }

  lemma DecidedAllows(s: Pool, t: ThreadId, n: int)
    requires FreshThreads(s) && Allows(s, t, n)
    ensures Allows(Decided(s), t, n)
  {
    hide TaskDone;
  }

  lemma {:induction false} RunAllows(s: Pool, steps: seq<Step>, t: ThreadId, n: int)
    requires Invariant(s) && Allows(s, t, n)
    ensures Allows(Run(s, steps), t, n - Broken(s, steps, t))
    decreases |steps|
  {
    hide Within, Exclusive, TokensExact, JobsExact, FreshThreads, Next, Allows, Breaks;
    if steps != [] {
      StepKeepsPool(s, steps[0]);
      StepAllows(s, steps[0], t, n);
      RunAllows(Next(s, steps[0]), steps[1..], t, if Breaks(s, steps[0], t) then n - 1 else n);
    }
  }

  /** After a broken pipe the thread tries again if and only if fewer than ten of its offers have broken; with the tenth the future fails. */
  lemma GivesUpExactlyWhen(size: nat, minWorkers: int, steps: seq<Step>, t: ThreadId)
    requires var u := Run(Init(size, minWorkers), steps); t in u.threads && u.threads[t].pc.Killing?
    ensures var s, u := Init(size, minWorkers), Run(Init(size, minWorkers), steps);
            var v := Next(u, ThreadStep(t));
            && Broken(s, steps, t) <= 10
            && t in v.threads
            && if Broken(s, steps, t) == 10 then v.threads[t].pc == Ending && u.threads[t].job in v.done
               else v.threads[t].pc.ReadBusy? && v.done == u.done
  {
    hide Run, Broken, Within, Exclusive, TokensExact, JobsExact;
    InitKept(size, minWorkers);
    RunAllows(Init(size, minWorkers), steps, t, 10);
  }
}
