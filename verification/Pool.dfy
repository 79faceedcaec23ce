/**
 The worker accounting of deadpool/_pool.py: the runner and its task threads, interleaved at every read and write
 of what they share. A worker is an identity; whether it is alive, fit or over a limit is an arbitrary answer.
 */
module Pool {
  import opened Sums

  type WorkerId = nat
  type ThreadId = nat
  type JobId = nat

  /** What follows `done_with_process`: another attempt, or the end of the job. */
  datatype After = Retry(tries: nat) | Finish

  datatype Pc =
    | ReadBusy(tries: nat)                                   // get_process: len(busy_workers)
    | ReadIdle(tries: nat, busy: nat)                        //   workers.qsize(), and the decision to add
    | Adding(tries: nat)                                     //   add_worker_to_pool
    | Getting(tries: nat)                                    //   workers.get()
    | Marking(tries: nat, w: WorkerId)                       //   busy_workers.add
    | Offering(tries: nat, w: WorkerId)                      // before_submit and submit_job
    | Waiting(w: WorkerId)                                   // the result loop
    | Unmarking(w: WorkerId, after: After)                   // done_with_process: busy_workers.remove
    | CountIdle(w: WorkerId, busy: nat, after: After)        //   workers.qsize()
    | CountBacklog(w: WorkerId, total: nat, after: After)    //   submitted_jobs.qsize(), and the decision to retire
    | Judging(w: WorkerId, after: After)                     //   is_alive, ok, limits
    | Replacing(after: After)                                //   add_worker_to_pool
    | Killing(tries: nat)                                    // kill_proc_tree, after a broken pipe
    | Ending                                                 // finally: task_done
    | Ended                                                  //   fut.done()
    | Failing                                                //   fut.set_exception
    | Returning                                              //   running_jobs.get_nowait

  datatype Thread = Thread(job: JobId, pc: Pc)

  datatype Runner = AtPut | AtGet | InHand(job: JobId) | Releasing(stop: bool) | Stopped

  /** `None` is the sentinel that stops the runner. */
  datatype Item = Task(priority: int) | Sentinel(priority: int)

  /** History: where a worker is, and where a job is. */
  datatype Whereabouts = Idle | Held(t: ThreadId) | Leaked | Gone
  datatype Place = Queued | Cancelling | AtRunner | With(t: ThreadId) | Finished

  /** `workers`, `jobs` and `lostTokens` are history; a worker or job is named by its position in them. */
  datatype Pool = Pool(
    size: nat, minWorkers: int, idle: set<WorkerId>, busy: set<WorkerId>, threads: map<ThreadId, Thread>, tokens: nat,
    items: seq<Item>, queued: set<JobId>, cancelling: set<JobId>, runner: Runner, unfinished: int, done: set<JobId>,
    nextThread: ThreadId, workers: seq<Whereabouts>, jobs: seq<Place>, lostTokens: nat)

  /** How offering a job to a worker may end. */
  datatype Offer = Refused | Sent | BrokenPipe | Unpicklable | OtherError

  datatype Step =
    | Submit(item: Item)
    | Cancel(job: JobId)                                     // a future is cancelled, or given a result from outside
    | TakeToCancel(job: JobId)                               // cancel_all_futures_on_queue: get_nowait
    | CancelTaken(job: JobId)                                //   task_done and fut.cancel
    | ClearIdle(w: WorkerId)                                 // clear_workers, or the end of shutdown
    | RunnerPut | RunnerGet(job: JobId) | RunnerDecide | RunnerRelease
    | ThreadStep(t: ThreadId)
    | TakeIdle(t: ThreadId, w: WorkerId)
    | AddFails(t: ThreadId)
    | Answer(t: ThreadId, offer: Offer)
    | Judge(t: ThreadId, fit: bool)
    | DoneFails(t: ThreadId)                                 // done_with_process raises: shutting a worker down, or reading its memory
    | Outcome(t: ThreadId)                                   // a result, an error or a dead worker
    | LoopFails(t: ThreadId)                                 // the result loop raises: polling, or describing a death
    | KillFails(t: ThreadId)                                 // kill_proc_tree raises

  function Upto(n: nat): (ws: set<WorkerId>)
    ensures |ws| == n && forall w: WorkerId :: w in ws <==> w < n
  {
    if n == 0 then {} else Upto(n - 1) + {n - 1}
  }

  function Init(size: nat, minWorkers: int): Pool {
    Pool(size, minWorkers, Upto(size), {}, map[], 0, [], {}, {}, AtPut, 0, {}, 0, seq(size, _ => Idle), [], 0)
  }

  /** `PrioritizedItem` orders by priority, then by submission sequence. */
  predicate Before(s: Pool, j: JobId, k: JobId)
    requires j < |s.items| && k < |s.items|
  {
    s.items[j].priority < s.items[k].priority || (s.items[j].priority == s.items[k].priority && j <= k)
  }

  predicate First(s: Pool, j: JobId) {
    j in s.queued && j < |s.items| && forall k :: k in s.queued && k < |s.items| ==> Before(s, j, k)
  }

  function Move(s: Pool, t: ThreadId, pc: Pc): Pool
    requires t in s.threads
  {
    s.(threads := s.threads[t := s.threads[t].(pc := pc)])
  }

  function Resume(after: After): Pc {
    match after
    case Retry(tries) => Killing(tries)
    case Finish => Ending
  }

  function Moved(s: Pool, w: WorkerId, place: Whereabouts): Pool {
    if w < |s.workers| then s.(workers := s.workers[w := place]) else s
  }

  function Put(s: Pool, j: JobId, place: Place): Pool {
    if j < |s.jobs| then s.(jobs := s.jobs[j := place]) else s
  }

  function TaskDone(s: Pool, j: JobId): (u: Pool)
    ensures u == s.(unfinished := u.unfinished, jobs := u.jobs)
  {
    Put(s.(unfinished := s.unfinished - 1), j, Finished)
  }

  function NewIdle(s: Pool): Pool {
    s.(idle := s.idle + {|s.workers|}, workers := s.workers + [Idle])
  }

  /** More workers than the minimum were counted, and no task waits. */
  predicate Retires(s: Pool, total: int) {
    total > s.minWorkers && |s.queued| == 0
  }

  /** One step of a task thread that no one else answers. */
  function Advance(s: Pool, t: ThreadId): Pool
    requires t in s.threads
  {
    var j := s.threads[t].job;
    match s.threads[t].pc
    case ReadBusy(tries) => Move(s, t, ReadIdle(tries, |s.busy|))
    case ReadIdle(tries, busy) => Move(s, t, if busy + |s.idle| < s.size && |s.idle| == 0 then Adding(tries) else Getting(tries))
    case Adding(tries) => Move(NewIdle(s), t, Getting(tries))
    case Marking(tries, w) => Move(s.(busy := s.busy + {w}), t, Offering(tries, w))
    case Unmarking(w, after) => Move(s.(busy := s.busy - {w}), t, CountIdle(w, |s.busy - {w}|, after))
    case CountIdle(w, busy, after) => Move(s, t, CountBacklog(w, busy + |s.idle| + 1, after))
    case CountBacklog(w, total, after) =>
      if Retires(s, total) then Move(Moved(s, w, Gone), t, Resume(after)) else Move(s, t, Judging(w, after))
    case Replacing(after) => Move(NewIdle(s), t, Resume(after))
    case Killing(tries) =>
      // the tries may be exhausted, and then the future is failed
      if tries == 0 then Move(s.(done := s.done + {j}), t, Ending) else Move(s, t, ReadBusy(tries - 1))
    case Ending => Move(TaskDone(s, j), t, Ended)
    case Ended => Move(s, t, if j in s.done then Returning else Failing)
    case Failing =>
      if j in s.done then s.(threads := s.threads - {t}, lostTokens := s.lostTokens + 1)
      else Move(s.(done := s.done + {j}), t, Returning)
    case Returning => s.(threads := s.threads - {t}, tokens := if s.tokens > 0 then s.tokens - 1 else 0)
    case _ => s
  }

  function Answered(s: Pool, t: ThreadId, offer: Offer): Pool
    requires t in s.threads && s.threads[t].pc.Offering?
  {
    var w, tries, j := s.threads[t].pc.w, s.threads[t].pc.tries, s.threads[t].job;
    match offer
    case Refused => Move(s, t, Unmarking(w, Finish))
    case Sent => Move(s, t, Waiting(w))
    case BrokenPipe => Move(s, t, Unmarking(w, Retry(tries)))
    case Unpicklable =>
      // set_exception on a future that is already done raises, past done_with_process
      if j in s.done then Move(Moved(s, w, Leaked), t, Ending)
      else Move(s.(done := s.done + {j}), t, Unmarking(w, Finish))
    case OtherError => Move(Moved(s, w, Leaked), t, Ending)
  }

  function Decided(s: Pool): Pool {
    if !s.runner.InHand? || s.runner.job >= |s.items| then s
    else
      var j := s.runner.job;
      if s.items[j].Sentinel? then TaskDone(s, j).(runner := Releasing(true))
      else if j in s.done then TaskDone(s, j).(runner := Releasing(false))
      else
        Put(s, j, With(s.nextThread))
          .(threads := s.threads[s.nextThread := Thread(j, ReadBusy(9))], nextThread := s.nextThread + 1, runner := AtPut)
  }

  /** A step of one thread that depends on an answer. */
  predicate Driven(step: Step) {
    step.TakeIdle? || step.AddFails? || step.Judge? || step.DoneFails? || step.LoopFails? || step.KillFails? || step.Outcome?
  }

  function Next(s: Pool, step: Step): Pool {
    match step
    case Submit(item) =>
      s.(items := s.items + [item], queued := s.queued + {|s.items|}, unfinished := s.unfinished + 1, jobs := s.jobs + [Queued])
    case Cancel(j) => s.(done := s.done + {j})
    case TakeToCancel(j) => if First(s, j) then Put(s, j, Cancelling).(queued := s.queued - {j}, cancelling := s.cancelling + {j}) else s
    case CancelTaken(j) =>
      if j in s.cancelling then TaskDone(s, j).(cancelling := s.cancelling - {j}, done := s.done + {j}) else s
    case ClearIdle(w) => if w in s.idle then Moved(s, w, Gone).(idle := s.idle - {w}) else s
    case RunnerPut => if s.runner == AtPut && s.tokens < s.size then s.(runner := AtGet, tokens := s.tokens + 1) else s
    case RunnerGet(j) => if s.runner == AtGet && First(s, j) then Put(s, j, AtRunner).(runner := InHand(j), queued := s.queued - {j}) else s
    case RunnerDecide => Decided(s)
    case RunnerRelease =>
      if s.runner.Releasing?
      then s.(runner := if s.runner.stop then Stopped else AtPut, tokens := if s.tokens > 0 then s.tokens - 1 else 0) else s
    case ThreadStep(t) => if t in s.threads then Advance(s, t) else s
    case TakeIdle(t, w) =>
      if t in s.threads && s.threads[t].pc.Getting? && w in s.idle
      then Move(Moved(s, w, Held(t)).(idle := s.idle - {w}), t, Marking(s.threads[t].pc.tries, w)) else s
    case AddFails(t) =>
      if t in s.threads && (s.threads[t].pc.Adding? || s.threads[t].pc.Replacing?) then Move(s, t, Ending) else s
    case Answer(t, offer) => if t in s.threads && s.threads[t].pc.Offering? then Answered(s, t, offer) else s
    case Judge(t, fit) =>
      if t in s.threads && s.threads[t].pc.Judging? then
        var w, after := s.threads[t].pc.w, s.threads[t].pc.after;
        // a worker whose pipe broke is marked, and never fit
        if fit && after.Finish? then Move(Moved(s, w, Idle).(idle := s.idle + {w}), t, Resume(after)) else Move(Moved(s, w, Gone), t, Replacing(after))
      else s
    case DoneFails(t) =>
      if t in s.threads && (s.threads[t].pc.Judging? || (s.threads[t].pc.CountBacklog? && Retires(s, s.threads[t].pc.total)))
      then Move(Moved(s, s.threads[t].pc.w, Gone), t, Ending) else s
    case LoopFails(t) =>
      if t in s.threads && s.threads[t].pc.Waiting? then Move(Moved(s, s.threads[t].pc.w, Leaked), t, Ending) else s
    case KillFails(t) => if t in s.threads && s.threads[t].pc.Killing? then Move(s, t, Ending) else s
    case Outcome(t) =>
      if t in s.threads && s.threads[t].pc.Waiting?
      then Move(s.(done := s.done + {s.threads[t].job}), t, Unmarking(s.threads[t].pc.w, Finish)) else s
  }

  function Run(s: Pool, steps: seq<Step>): Pool
    decreases |steps|
  {
    if steps == [] then s else Run(Next(s, steps[0]), steps[1..])
  }

  // ---------- workers ----------

  predicate Holds(pc: Pc) {
    pc.Marking? || pc.Offering? || pc.Waiting? || pc.Unmarking? || pc.CountIdle? || pc.CountBacklog? || pc.Judging?
  }

  /** From `busy_workers.add` to `busy_workers.remove`. */
  predicate Busy(pc: Pc) {
    pc.Offering? || pc.Waiting? || pc.Unmarking?
  }

  /** A worker held, or a decision to add one that is still to be carried out. */
  function Weight(pc: Pc): int {
    if Holds(pc) || pc.Adding? || pc.Replacing? then 1 else 0
  }

  ghost function Weights(threads: map<ThreadId, Thread>): map<ThreadId, int> {
    map t | t in threads :: Weight(threads[t].pc)
  }

  ghost predicate Within(s: Pool) {
    |s.idle| + Sum(Weights(s.threads)) <= s.size
  }

  ghost predicate HasWorker(s: Pool, t: ThreadId, w: WorkerId) {
    t in s.threads && Holds(s.threads[t].pc) && s.threads[t].pc.w == w
  }

  ghost predicate At(s: Pool, w: WorkerId, place: Whereabouts) {
    w < |s.workers| && s.workers[w] == place
  }

  /** Every worker is in one place: idle, with one thread, lost to a leak, or gone. */
  ghost predicate Exclusive(s: Pool) {
    && (forall w: WorkerId :: w in s.idle <==> At(s, w, Idle))
    && (forall t: ThreadId, w: WorkerId :: HasWorker(s, t, w) <==> At(s, w, Held(t)))
    && (forall w: WorkerId :: w in s.busy <==> InUse(s, w))
  }

  /** What `busy_workers` holds: the workers of threads between its add and its remove, and the leaked ones. */
  ghost predicate InUse(s: Pool, w: WorkerId) {
    w < |s.workers| &&
    (s.workers[w].Leaked? || (s.workers[w].Held? && s.workers[w].t in s.threads && Busy(s.threads[s.workers[w].t].pc)))
  }

  // ---------- tokens and jobs ----------

  function RunnerToken(r: Runner): nat {
    if r.AtGet? || r.InHand? || r.Releasing? then 1 else 0
  }

  /** `running_jobs` has one token for each live thread, one for the runner's job, and those lost in a race. */
  ghost predicate TokensExact(s: Pool) {
    s.tokens == |s.threads| + RunnerToken(s.runner) + s.lostTokens && s.tokens <= s.size
  }

  /** The thread has not called `task_done` yet. */
  ghost predicate Owes(s: Pool, t: ThreadId, j: JobId) {
    t in s.threads && s.threads[t].job == j && !s.threads[t].pc.Ended? && !s.threads[t].pc.Failing? && !s.threads[t].pc.Returning?
  }

  ghost predicate JobAt(s: Pool, j: JobId, place: Place) {
    j < |s.jobs| && s.jobs[j] == place
  }

  ghost function CountOpen(jobs: seq<Place>): nat {
    if jobs == [] then 0
    else CountOpen(jobs[..|jobs| - 1]) + if jobs[|jobs| - 1].Finished? then 0 else 1
  }

  /** Each job is in exactly one place, and the unfinished count is the number of jobs not yet finished. */
  ghost predicate JobsExact(s: Pool) {
    && |s.jobs| == |s.items| && s.unfinished == CountOpen(s.jobs)
    && (forall j: JobId :: j in s.queued <==> JobAt(s, j, Queued))
    && (forall j: JobId :: j in s.cancelling <==> JobAt(s, j, Cancelling))
    && (forall j: JobId :: s.runner == InHand(j) <==> JobAt(s, j, AtRunner))
    && (forall t: ThreadId, j: JobId :: Owes(s, t, j) <==> JobAt(s, j, With(t)))
  }

  ghost predicate FreshThreads(s: Pool) {
    forall t :: t in s.threads ==> t < s.nextThread
  }

  ghost predicate Invariant(s: Pool) {
    Within(s) && Exclusive(s) && TokensExact(s) && JobsExact(s) && FreshThreads(s)
  }

  // ---------- one thread moves ----------

  lemma WeightMoved(s: Pool, t: ThreadId, pc: Pc)
    requires t in s.threads
    ensures Sum(Weights(Move(s, t, pc).threads)) == Sum(Weights(s.threads)) + Weight(pc) - Weight(s.threads[t].pc)
    ensures |Move(s, t, pc).threads| == |s.threads|
  {
    SumUpdate(Weights(s.threads), t, Weight(pc));
    assert Weights(Move(s, t, pc).threads) == Weights(s.threads)[t := Weight(pc)];
    assert Move(s, t, pc).threads.Keys == s.threads.Keys;
  }

  lemma WeightGone(s: Pool, t: ThreadId)
    requires t in s.threads
    ensures Sum(Weights(s.threads - {t})) == Sum(Weights(s.threads)) - Weight(s.threads[t].pc)
    ensures |s.threads - {t}| == |s.threads| - 1
  {
    SumRemove(Weights(s.threads), t);
    assert Weights(s.threads - {t}) == Weights(s.threads) - {t};
    assert (s.threads - {t}).Keys == s.threads.Keys - {t};
  }

  /** A thread that neither holds nor awaits a worker leaves room for one: the others have one each at most. */
  lemma RoomForOne(s: Pool, t: ThreadId)
    requires t in s.threads && Weight(s.threads[t].pc) == 0
    ensures Sum(Weights(s.threads)) + 1 <= |s.threads|
  {
    WeightGone(s, t);
    SumBounds(Weights(s.threads - {t}));
    assert Weights(s.threads - {t}).Keys == (s.threads - {t}).Keys;
    assert |Weights(s.threads - {t})| == |Weights(s.threads - {t}).Keys| && |s.threads - {t}| == |(s.threads - {t}).Keys|;
  }
}
