/** What a thread does from one call to the next, when no other thread comes in between, and when the runner starts and stops. */
module PoolTurns {
  import opened Pool
  import opened PoolSteps

  /** The thread at another place, and the rest as given. */
  function Placed(s: Pool, t: ThreadId, pc: Pc): map<ThreadId, Thread>
    requires t in s.threads
  {
    s.threads[t := Thread(s.threads[t].job, pc)]
  }

  function Own(t: ThreadId, n: nat): seq<Step> {
    if n == 0 then [] else [ThreadStep(t)] + Own(t, n - 1)
  }

  lemma OwnStep(s: Pool, t: ThreadId, n: nat)
    requires n > 0
    ensures Run(s, Own(t, n)) == Run(Next(s, ThreadStep(t)), Own(t, n - 1))
  {
    assert Own(t, n)[1..] == Own(t, n - 1);
  }

  lemma OwnNone(s: Pool, t: ThreadId)
    ensures Run(s, Own(t, 0)) == s
  {
  }

  // ---------- get_process ----------

  /** A worker is added if and only if none is idle and fewer than the pool size exist; then the thread waits for one. */
  lemma GetProcess(s: Pool, t: ThreadId, tries: nat)
    requires t in s.threads && s.threads[t].pc == ReadBusy(tries)
    ensures Run(s, Own(t, 2)) ==
              s.(threads := Placed(s, t, if s.idle == {} && |s.busy| < s.size then Adding(tries) else Getting(tries)))
  {
    hide Run, Own;
    OwnStep(s, t, 2);
    OwnStep(Next(s, ThreadStep(t)), t, 1);
    OwnNone(Next(Next(s, ThreadStep(t)), ThreadStep(t)), t);
    assert |s.idle| == 0 <==> s.idle == {};
  }

  /** The new worker is idle until some thread takes it. */
  lemma AddWorker(s: Pool, t: ThreadId, tries: nat)
    requires t in s.threads && s.threads[t].pc == Adding(tries)
    ensures Next(s, ThreadStep(t)) ==
              s.(threads := Placed(s, t, Getting(tries)), idle := s.idle + {|s.workers|}, workers := s.workers + [Idle])
  {
  }

  /** The worker taken is no longer idle, is this thread's, and then counts as busy. */
  lemma TakeWorker(s: Pool, t: ThreadId, tries: nat, w: WorkerId)
    requires t in s.threads && s.threads[t].pc == Getting(tries) && w in s.idle && w < |s.workers|
    ensures Next(Next(s, TakeIdle(t, w)), ThreadStep(t)) ==
              s.(threads := Placed(s, t, Offering(tries, w)), idle := s.idle - {w}, busy := s.busy + {w}, workers := s.workers[w := Held(t)])
  {
  }

  // ---------- run_task ----------

  /** A refused job is not sent; a sent one is awaited; a broken pipe costs a try; what cannot be pickled fails. */
  lemma OfferEnds(s: Pool, t: ThreadId, tries: nat, w: WorkerId)
    requires t in s.threads && s.threads[t].pc == Offering(tries, w) && w < |s.workers|
    ensures Next(s, Answer(t, Refused)) == s.(threads := Placed(s, t, Unmarking(w, Finish)))
    ensures Next(s, Answer(t, Sent)) == s.(threads := Placed(s, t, Waiting(w)))
    ensures Next(s, Answer(t, BrokenPipe)) == s.(threads := Placed(s, t, Unmarking(w, Retry(tries))))
    ensures s.threads[t].job !in s.done ==>
              Next(s, Answer(t, Unpicklable)) == s.(threads := Placed(s, t, Unmarking(w, Finish)), done := s.done + {s.threads[t].job})
    ensures s.threads[t].job in s.done ==>
              Next(s, Answer(t, Unpicklable)) == s.(threads := Placed(s, t, Ending), workers := s.workers[w := Leaked])
    ensures Next(s, Answer(t, OtherError)) == s.(threads := Placed(s, t, Ending), workers := s.workers[w := Leaked])
  {
    assert s.threads[t] == Thread(s.threads[t].job, s.threads[t].pc);
  }

  /** The result, the error or the death of the worker completes the future, and the worker is given back. */
  lemma ResultEnds(s: Pool, t: ThreadId, w: WorkerId)
    requires t in s.threads && s.threads[t].pc == Waiting(w)
    ensures Next(s, Outcome(t)) == s.(threads := Placed(s, t, Unmarking(w, Finish)), done := s.done + {s.threads[t].job})
  {
  }

  /** Whatever raises on the way, the job is counted off once, its future is done and its token is given back. */
  lemma FailureReported(s: Pool, t: ThreadId, step: Step)
    requires Invariant(s) && t in s.threads && Raises(s, t, step)
    ensures var u, j := Run(Next(s, step), Own(t, 4)), s.threads[t].job;
            && t !in u.threads && u.unfinished == s.unfinished - 1 && u.tokens == s.tokens - 1
            && j in u.done && j < |u.jobs| && u.jobs[j] == Finished
            && u.idle == s.idle && u.busy == s.busy && u.done == s.done + {j} && u.lostTokens == s.lostTokens
  {
    hide Run, Own, Within, Exclusive, Invariant;
    RaiseEnds(s, t, step);
    OwedJob(s, t);
    EndReported(Next(s, step), t);
    assert Placed(s, t, Ending) - {t} == s.threads - {t};
  }

  predicate Raises(s: Pool, t: ThreadId, step: Step)
    requires t in s.threads
  {
    var pc := s.threads[t].pc;
    || (step == AddFails(t) && (pc.Adding? || pc.Replacing?))
    || (step == DoneFails(t) && (pc.Judging? || (pc.CountBacklog? && pc.total > s.minWorkers && s.queued == {})))
    || (step == LoopFails(t) && pc.Waiting?)
    || (step == KillFails(t) && pc.Killing?)
    || (step == Answer(t, OtherError) && pc.Offering?)
  }

  lemma RaiseEnds(s: Pool, t: ThreadId, step: Step)
    requires t in s.threads && Raises(s, t, step)
    ensures var u := Next(s, step);
            u == s.(threads := Placed(s, t, Ending), workers := u.workers)
  {
    assert |s.queued| == 0 <==> s.queued == {};
  }

  lemma OwedJob(s: Pool, t: ThreadId)
    requires Invariant(s) && t in s.threads && !s.threads[t].pc.Ended? && !s.threads[t].pc.Failing? && !s.threads[t].pc.Returning?
    ensures s.tokens > 0 && s.threads[t].job < |s.jobs|
  {
    assert Owes(s, t, s.threads[t].job);
    OneLess(s.threads, t);
    assert JobAt(s, s.threads[t].job, With(t));
  }

  lemma CountedOff(s: Pool, t: ThreadId)
    requires t in s.threads && s.threads[t].pc == Ending && s.threads[t].job < |s.jobs|
    ensures Next(s, ThreadStep(t)) ==
              s.(threads := Placed(s, t, Ended), unfinished := s.unfinished - 1, jobs := s.jobs[s.threads[t].job := Finished])
  {
  }

  lemma FutureSeen(s: Pool, t: ThreadId)
    requires t in s.threads && s.threads[t].pc == Ended
    ensures Next(s, ThreadStep(t)) == s.(threads := Placed(s, t, if s.threads[t].job in s.done then Returning else Failing))
  {
  }

  lemma FutureFailed(s: Pool, t: ThreadId)
    requires t in s.threads && s.threads[t].pc == Failing && s.threads[t].job !in s.done
    ensures Next(s, ThreadStep(t)) == s.(threads := Placed(s, t, Returning), done := s.done + {s.threads[t].job})
  {
  }

  lemma TokenReturned(s: Pool, t: ThreadId)
    requires t in s.threads && s.threads[t].pc == Returning && s.tokens > 0
    ensures Next(s, ThreadStep(t)) == s.(threads := s.threads - {t}, tokens := s.tokens - 1)
  {
  }

  lemma EndReported(s: Pool, t: ThreadId)
    requires t in s.threads && s.threads[t].pc == Ending && s.tokens > 0 && s.threads[t].job < |s.jobs|
    ensures var j := s.threads[t].job;
            Run(s, Own(t, 4)) == s.(threads := s.threads - {t}, unfinished := s.unfinished - 1, jobs := s.jobs[j := Finished],
                                    done := s.done + {j}, tokens := s.tokens - 1)
  {
    hide Run, Own, Next;
    var j := s.threads[t].job;
    var a := Next(s, ThreadStep(t));
    CountedOff(s, t);
    OwnStep(s, t, 4);
    FutureSeen(a, t);
    var b := Next(a, ThreadStep(t));
    OwnStep(a, t, 3);
    OwnStep(b, t, 2);
    if j in s.done {
      TokenReturned(b, t);
      var c := Next(b, ThreadStep(t));
      assert s.done + {j} == s.done && c.threads == s.threads - {t};
      GoneThread(c, t);
      OwnStep(c, t, 1);
      OwnNone(c, t);
    } else {
      FutureFailed(b, t);
      var c := Next(b, ThreadStep(t));
      OwnStep(c, t, 1);
      TokenReturned(c, t);
      assert Next(c, ThreadStep(t)).threads == s.threads - {t};
      OwnNone(Next(c, ThreadStep(t)), t);
    }
  }

  lemma GoneThread(s: Pool, t: ThreadId)
    requires t !in s.threads
    ensures Next(s, ThreadStep(t)) == s
  {
  }

  // ---------- done_with_process ----------

  lemma Unmarked(s: Pool, t: ThreadId, w: WorkerId, after: After)
    requires t in s.threads && s.threads[t].pc == Unmarking(w, after)
    ensures Next(s, ThreadStep(t)) == s.(threads := Placed(s, t, CountIdle(w, |s.busy - {w}|, after)), busy := s.busy - {w})
  {
  }

  lemma IdleCounted(s: Pool, t: ThreadId, w: WorkerId, busy: nat, after: After)
    requires t in s.threads && s.threads[t].pc == CountIdle(w, busy, after)
    ensures Next(s, ThreadStep(t)) == s.(threads := Placed(s, t, CountBacklog(w, busy + |s.idle| + 1, after)))
  {
  }

  /** Whatever happened since the counts were read, the decision is theirs and the backlog's. */
  lemma RetiresExactlyWhen(s: Pool, t: ThreadId, w: WorkerId, total: nat, after: After)
    requires t in s.threads && s.threads[t].pc == CountBacklog(w, total, after) && w < |s.workers|
    ensures Next(s, ThreadStep(t)) ==
              if total > s.minWorkers && s.queued == {}
              then s.(threads := Placed(s, t, if after == Finish then Ending else Killing(after.tries)), workers := s.workers[w := Gone])
              else s.(threads := Placed(s, t, Judging(w, after)))
  {
    assert |s.queued| == 0 <==> s.queued == {};
  }

  /** A worker is retired if and only if more than the minimum exist, this one among them, and no job waits. */
  lemma GiveBack(s: Pool, t: ThreadId, w: WorkerId, after: After)
    requires t in s.threads && s.threads[t].pc == Unmarking(w, after) && w < |s.workers|
    ensures Run(s, Own(t, 3)) ==
              if |s.busy - {w}| + |s.idle| + 1 > s.minWorkers && s.queued == {}
              then s.(threads := Placed(s, t, if after == Finish then Ending else Killing(after.tries)), busy := s.busy - {w}, workers := s.workers[w := Gone])
              else s.(threads := Placed(s, t, Judging(w, after)), busy := s.busy - {w})
  {
    hide Run, Own, Next;
    var a := Next(s, ThreadStep(t));
    Unmarked(s, t, w, after);
    OwnStep(s, t, 3);
    var b := Next(a, ThreadStep(t));
    IdleCounted(a, t, w, |s.busy - {w}|, after);
    OwnStep(a, t, 2);
    RetiresExactlyWhen(b, t, w, |s.busy - {w}| + |s.idle| + 1, after);
    OwnStep(b, t, 1);
    OwnNone(Next(b, ThreadStep(t)), t);
  }

  /** A fit worker whose pipe did not break is idle again; any other is replaced by a new one. */
  lemma Judged(s: Pool, t: ThreadId, w: WorkerId, after: After, fit: bool)
    requires t in s.threads && s.threads[t].pc == Judging(w, after) && w < |s.workers|
    ensures fit && after == Finish ==>
              Next(s, Judge(t, fit)) == s.(threads := Placed(s, t, Ending), idle := s.idle + {w}, workers := s.workers[w := Idle])
    ensures !fit || after != Finish ==>
              Next(Next(s, Judge(t, fit)), ThreadStep(t)) ==
              s.(threads := Placed(s, t, if after == Finish then Ending else Killing(after.tries)),
                 idle := s.idle + {|s.workers|}, workers := s.workers[w := Gone] + [Idle])
  {
  }

  // ---------- the runner ----------

  /** A thread is started if and only if the runner has a task whose future is not done, and with ten tries. */
  lemma StartsExactlyWhen(s: Pool, step: Step)
    requires Invariant(s)
    ensures var u := Next(s, step);
            if step == RunnerDecide && s.runner.InHand? && s.items[s.runner.job].Task? && s.runner.job !in s.done
            then u.nextThread == s.nextThread + 1 && u.threads == s.threads[s.nextThread := Thread(s.runner.job, ReadBusy(9))] && u.runner == AtPut
            else u.nextThread == s.nextThread && u.threads.Keys <= s.threads.Keys
  {
    hide Within, Exclusive, TokensExact, Advance, Answered, First, TaskDone;
    match step
    case ThreadStep(t) => if t in s.threads { NoneStarted(s, t); }
    case Answer(t, offer) => if t in s.threads && s.threads[t].pc.Offering? { AnsweredKeepsThreads(s, t, offer); }
    case CancelTaken(j) => TaskDoneThreads(s, j);
    case RunnerDecide => DecidedStarts(s);
    case _ =>
  }

  lemma NoneStarted(s: Pool, t: ThreadId)
    requires t in s.threads
    ensures Advance(s, t).threads.Keys <= s.threads.Keys && Advance(s, t).nextThread == s.nextThread
  {
    hide TaskDone;
  }

  lemma DecidedStarts(s: Pool)
    requires JobsExact(s)
    ensures var u := Decided(s);
            if s.runner.InHand? && s.items[s.runner.job].Task? && s.runner.job !in s.done
            then u.nextThread == s.nextThread + 1 && u.threads == s.threads[s.nextThread := Thread(s.runner.job, ReadBusy(9))] && u.runner == AtPut
            else u.nextThread == s.nextThread && u.threads == s.threads
  {
    hide TaskDone;
    if s.runner.InHand? { assert JobAt(s, s.runner.job, AtRunner); }
  }

  /** The runner waits for a token while as many jobs run as there are workers. */
  lemma RunnerBlocksExactlyWhen(s: Pool)
    requires Invariant(s) && s.runner == AtPut
    ensures Next(s, RunnerPut) == if s.tokens == s.size then s else s.(runner := AtGet, tokens := s.tokens + 1)
  {
    hide Within, Exclusive, JobsExact;
  }

  /** A sentinel stops the runner, a job whose future is done is skipped; both are counted off and give the token back. */
  lemma RunnerSkips(s: Pool, j: JobId)
    requires Invariant(s) && s.runner == InHand(j) && (s.items[j].Sentinel? || j in s.done)
    ensures Next(Next(s, RunnerDecide), RunnerRelease) ==
              s.(runner := if s.items[j].Sentinel? then Stopped else AtPut, tokens := s.tokens - 1,
                 unfinished := s.unfinished - 1, jobs := s.jobs[j := Finished])
  {
    hide Within, Exclusive;
    assert JobAt(s, j, AtRunner);
  }

  /** A sentinel in hand, or nothing more to do. */
  predicate Leaving(s: Pool) {
    s.runner == Stopped || s.runner == Releasing(true) || (s.runner.InHand? && s.runner.job < |s.items| && s.items[s.runner.job].Sentinel?)
  }

  lemma StillLeaving(s: Pool, step: Step)
    requires Leaving(s)
    ensures Leaving(Next(s, step)) && Next(s, step).nextThread == s.nextThread
  {
    hide First;
  }

  /** Once the runner has a sentinel no job is started in any later run. */
  lemma {:induction false} SentinelStops(s: Pool, steps: seq<Step>)
    requires Leaving(s)
    ensures Leaving(Run(s, steps)) && Run(s, steps).nextThread == s.nextThread
    decreases |steps|
  {
    hide Leaving, Next;
    if steps != [] {
      StillLeaving(s, steps[0]);
      SentinelStops(Next(s, steps[0]), steps[1..]);
    }
  }
}
