/** Every interleaving of the runner and its task threads keeps the pool's accounts. */
module PoolSteps {
  import opened Sums
  import opened Pool

  // ---------- workers never exceed the pool size ----------

  /** A thread moves on, and what it holds or awaits together with the idle workers does not grow. */
  ghost predicate Trades(s: Pool, u: Pool, t: ThreadId, pc: Pc)
    requires t in s.threads
  {
    && u.size == s.size && u.threads == s.threads[t := s.threads[t].(pc := pc)]
    && |u.idle| + Weight(pc) <= |s.idle| + Weight(s.threads[t].pc)
  }

  /** Or it decides to add a worker, having seen no idle one; or it ends. */
  ghost predicate Tradeable(s: Pool, u: Pool, t: ThreadId)
    requires t in s.threads
  {
    || (t in u.threads && Trades(s, u, t, u.threads[t].pc))
    || (u.size == s.size && s.idle == u.idle == {} && Weight(s.threads[t].pc) == 0 && t in u.threads
        && u.threads == s.threads[t := s.threads[t].(pc := u.threads[t].pc)])
    || (u.size == s.size && u.idle == s.idle && u.threads == s.threads - {t})
  }

  lemma TradeWithin(s: Pool, u: Pool, t: ThreadId)
    requires Within(s) && TokensExact(s) && t in s.threads && Tradeable(s, u, t)
    ensures Within(u)
  {
    WeightGone(s, t);
    if t in u.threads {
      WeightMoved(s, t, u.threads[t].pc);
      if Weight(s.threads[t].pc) == 0 { RoomForOne(s, t); }
    }
    WeightRange(s.threads[t].pc);
  }

  lemma WeightRange(pc: Pc)
    ensures 0 <= Weight(pc) <= 1
  {
  }

  lemma GrowsByOne(ws: set<WorkerId>)
    ensures forall x: WorkerId :: |ws + {x}| <= |ws| + 1
  {
  }

  /** The steps that leave the idle workers alone, and those that do not. */
  lemma AdvanceTradesPlain(s: Pool, t: ThreadId)
    requires t in s.threads && !s.threads[t].pc.Adding? && !s.threads[t].pc.Replacing? && !s.threads[t].pc.CountBacklog?
    ensures Tradeable(s, Advance(s, t), t)
  {
    assert s.threads[t := s.threads[t]] == s.threads;
  }

  lemma AdvanceTrades(s: Pool, t: ThreadId)
    requires t in s.threads
    ensures Tradeable(s, Advance(s, t), t)
  {
    GrowsByOne(s.idle);
    if !s.threads[t].pc.Adding? && !s.threads[t].pc.Replacing? && !s.threads[t].pc.CountBacklog? {
      hide Tradeable, Advance;
      AdvanceTradesPlain(s, t);
    }
  }

  lemma AnsweredTrades(s: Pool, t: ThreadId, offer: Offer)
    requires t in s.threads && s.threads[t].pc.Offering?
    ensures Tradeable(s, Answered(s, t, offer), t)
  {
  }

  lemma StepWithin(s: Pool, step: Step)
    requires Within(s) && TokensExact(s) && FreshThreads(s)
    ensures Within(Next(s, step))
  {
    hide Within, Tradeable, TokensExact, Advance, Answered;
    var u := Next(s, step);
    match step
    case ClearIdle(w) => SameWeights(s, u);
    case RunnerDecide =>
      if u.threads != s.threads { StartedWithin(s, u); } else { SameWeights(s, u); }
    case ThreadStep(t) =>
      if t in s.threads {
        AdvanceTrades(s, t);
        TradeWithin(s, u, t);
      }
    case TakeIdle(t, w) => if u != s { TakeTrades(s, t, w); TradeWithin(s, u, t); }
    case AddFails(t) => if u != s { FailTrades(s, t); TradeWithin(s, u, t); }
    case Answer(t, offer) =>
      if t in s.threads && s.threads[t].pc.Offering? {
        AnsweredTrades(s, t, offer);
        TradeWithin(s, u, t);
      }
    case Judge(t, fit) => if u != s { JudgeTrades(s, t, fit); TradeWithin(s, u, t); }
    case DoneFails(t) => if u != s { FailsTrades(s, step); TradeWithin(s, u, t); }
    case LoopFails(t) => if u != s { FailsTrades(s, step); TradeWithin(s, u, t); }
    case KillFails(t) => if u != s { FailsTrades(s, step); TradeWithin(s, u, t); }
    case Outcome(t) => if u != s { OutcomeTrades(s, t); TradeWithin(s, u, t); }
    case _ => SameWeights(s, u);
  }

  lemma SameWeights(s: Pool, u: Pool)
    requires u.threads == s.threads && u.size == s.size && u.idle <= s.idle
    ensures Within(s) ==> Within(u)
  {
    assert s.idle == u.idle + (s.idle - u.idle);
  }

  lemma StartedWithin(s: Pool, u: Pool)
    requires FreshThreads(s) && u.size == s.size && u.idle == s.idle
    requires exists j :: u.threads == s.threads[s.nextThread := Thread(j, ReadBusy(9))]
    ensures Within(s) ==> Within(u)
  {
    SumUpdate(Weights(s.threads), s.nextThread, 0);
    assert Weights(u.threads) == Weights(s.threads)[s.nextThread := 0];
  }

  lemma TakeTrades(s: Pool, t: ThreadId, w: WorkerId)
    requires t in s.threads && s.threads[t].pc.Getting? && w in s.idle
    ensures Tradeable(s, Next(s, TakeIdle(t, w)), t)
  {
  }

  lemma FailTrades(s: Pool, t: ThreadId)
    requires t in s.threads && (s.threads[t].pc.Adding? || s.threads[t].pc.Replacing?)
    ensures Tradeable(s, Next(s, AddFails(t)), t)
  {
  }

  lemma JudgeTrades(s: Pool, t: ThreadId, fit: bool)
    requires t in s.threads && s.threads[t].pc.Judging?
    ensures Tradeable(s, Next(s, Judge(t, fit)), t)
  {
    assert forall x: WorkerId :: |s.idle + {x}| <= |s.idle| + 1;
  }

  lemma FailsTrades(s: Pool, step: Step)
    requires (step.DoneFails? || step.LoopFails? || step.KillFails?) && Next(s, step) != s
    ensures step.t in s.threads && Tradeable(s, Next(s, step), step.t)
  {
  }

  lemma OutcomeTrades(s: Pool, t: ThreadId)
    requires t in s.threads && s.threads[t].pc.Waiting?
    ensures Tradeable(s, Next(s, Outcome(t)), t)
  {
  }

  // ---------- tokens ----------

  /** The threads are the same, or one of them ended. */
  ghost predicate SameThreads(s: Pool, u: Pool) {
    u.threads.Keys == s.threads.Keys && u.nextThread == s.nextThread && u.runner == s.runner && u.size == s.size
    && u.tokens == s.tokens && u.lostTokens == s.lostTokens
  }

  lemma SameTokens(s: Pool, u: Pool)
    requires SameThreads(s, u)
    ensures TokensExact(s) ==> TokensExact(u)
    ensures FreshThreads(s) ==> FreshThreads(u)
  {
    assert |u.threads| == |u.threads.Keys| == |s.threads.Keys| == |s.threads|;
    assert forall t: ThreadId :: t in u.threads <==> t in s.threads.Keys;
  }

  lemma AdvanceTokens(s: Pool, t: ThreadId)
    requires TokensExact(s) && FreshThreads(s) && t in s.threads
    ensures TokensExact(Advance(s, t)) && FreshThreads(Advance(s, t))
  {
    hide TokensExact, FreshThreads;
    var u := Advance(s, t);
    if t in u.threads { AdvanceKeepsThreads(s, t); SameTokens(s, u); } else { AdvanceEnds(s, t); }
  }

  lemma AdvanceKeepsThreads(s: Pool, t: ThreadId)
    requires t in s.threads && t in Advance(s, t).threads
    ensures SameThreads(s, Advance(s, t))
  {
    if s.threads[t].pc.Ending? {
      TaskDoneThreads(s, s.threads[t].job);
    } else {
      hide Advance;
      AdvancePlain(s, t);
    }
  }

  lemma OneLess(threads: map<ThreadId, Thread>, t: ThreadId)
    requires t in threads
    ensures |threads - {t}| == |threads| - 1
  {
    assert (threads - {t}).Keys == threads.Keys - {t};
  }

  lemma AdvanceEndsHow(s: Pool, t: ThreadId)
    requires t in s.threads && t !in Advance(s, t).threads
    ensures var u := Advance(s, t);
            || u == s.(threads := s.threads - {t}, lostTokens := s.lostTokens + 1)
            || u == s.(threads := s.threads - {t}, tokens := if s.tokens > 0 then s.tokens - 1 else 0)
  {
  }

  lemma AdvanceEnds(s: Pool, t: ThreadId)
    requires TokensExact(s) && FreshThreads(s) && t in s.threads && t !in Advance(s, t).threads
    ensures TokensExact(Advance(s, t)) && FreshThreads(Advance(s, t)) && s.tokens > 0
  {
    hide Advance;
    AdvanceEndsHow(s, t);
    OneLess(s.threads, t);
  }

  lemma StepTokens(s: Pool, step: Step)
    requires TokensExact(s) && FreshThreads(s)
    ensures TokensExact(Next(s, step)) && FreshThreads(Next(s, step))
  {
    hide Advance, Answered, Decided, First, TaskDone, TokensExact, FreshThreads;
    var u := Next(s, step);
    match step
    case RunnerPut => RunnerTokens(s, step);
    case RunnerGet(_) => RunnerTokens(s, step);
    case RunnerRelease => RunnerTokens(s, step);
    case RunnerDecide => DecidedTokens(s);
    case ThreadStep(t) => if t in s.threads { AdvanceTokens(s, t); }
    case Answer(t, offer) => if t in s.threads && s.threads[t].pc.Offering? { AnsweredKeepsThreads(s, t, offer); SameTokens(s, u); }
    case CancelTaken(j) => TaskDoneThreads(s, j); SameTokens(s, u);
    case _ => if Driven(step) { DrivenTokens(s, step); } else { SameTokens(s, u); }
  }

  lemma DrivenTokens(s: Pool, step: Step)
    requires TokensExact(s) && FreshThreads(s) && Driven(step)
    ensures TokensExact(Next(s, step)) && FreshThreads(Next(s, step))
  {
    hide TokensExact, FreshThreads;
    SameTokens(s, Next(s, step));
  }

  lemma RunnerTokens(s: Pool, step: Step)
    requires TokensExact(s) && FreshThreads(s) && (step.RunnerPut? || step.RunnerGet? || step.RunnerRelease?)
    ensures TokensExact(Next(s, step)) && FreshThreads(Next(s, step))
  {
    hide First;
  }

  lemma TaskDoneThreads(s: Pool, j: JobId)
    ensures SameThreads(s, TaskDone(s, j)) && TaskDone(s, j).threads == s.threads
  {
  }

  lemma AnsweredKeepsThreads(s: Pool, t: ThreadId, offer: Offer)
    requires t in s.threads && s.threads[t].pc.Offering?
    ensures SameThreads(s, Answered(s, t, offer))
  {
  }

  lemma DecidedTokens(s: Pool)
    requires TokensExact(s) && FreshThreads(s)
    ensures TokensExact(Decided(s)) && FreshThreads(Decided(s))
  {
    var u := Decided(s);
    if u.nextThread != s.nextThread { assert u.threads.Keys == s.threads.Keys + {s.nextThread}; }
  }

  // ---------- each worker in one place ----------

  lemma ExclusiveMoved(s: Pool, u: Pool, t: ThreadId, w: WorkerId)
    requires Exclusive(s) && t in s.threads && t in u.threads && w < |s.workers|
    requires u.threads == s.threads[t := u.threads[t]] && |u.workers| == |s.workers| && u.workers == s.workers[w := u.workers[w]]
    requires forall x: WorkerId :: x != w ==> (x in u.idle <==> x in s.idle) && (x in u.busy <==> x in s.busy)
    requires HasWorker(s, t, w) || (w in s.idle && !Holds(s.threads[t].pc))
    requires if Holds(u.threads[t].pc) then u.threads[t].pc.w == w && u.workers[w] == Held(t) && w !in u.idle && (w in u.busy <==> Busy(u.threads[t].pc))
             else !u.workers[w].Held? && (w in u.idle <==> u.workers[w].Idle?) && (w in u.busy <==> u.workers[w].Leaked?)
    ensures Exclusive(u)
  {
    assert At(s, w, Held(t)) || At(s, w, Idle);
    forall r: ThreadId, x: WorkerId ensures HasWorker(u, r, x) <==> At(u, x, Held(r)) {
      assert HasWorker(s, r, x) <==> At(s, x, Held(r));
      assert HasWorker(s, t, x) <==> At(s, x, Held(t));
    }
    forall x: WorkerId ensures x in u.idle <==> At(u, x, Idle) {
      assert x in s.idle <==> At(s, x, Idle);
    }
    forall x: WorkerId ensures x in u.busy <==> InUse(u, x) {
      assert x in s.busy <==> InUse(s, x);
      assert HasWorker(s, t, x) <==> At(s, x, Held(t));
    }
  }

  /** A thread that holds no worker before or after, and possibly a new idle worker. */
  lemma ExclusiveBare(s: Pool, u: Pool, t: ThreadId)
    requires Exclusive(s) && t in s.threads && !Holds(s.threads[t].pc)
    requires u.threads == s.threads - {t} || (t in u.threads && !Holds(u.threads[t].pc) && u.threads == s.threads[t := u.threads[t]])
    requires u.busy == s.busy
    requires (u.idle == s.idle && u.workers == s.workers) || (u.idle == s.idle + {|s.workers|} && u.workers == s.workers + [Idle])
    ensures Exclusive(u)
  {
    forall r: ThreadId, x: WorkerId ensures HasWorker(u, r, x) <==> At(u, x, Held(r)) {
      assert HasWorker(s, r, x) <==> At(s, x, Held(r));
    }
    forall x: WorkerId ensures x in u.idle <==> At(u, x, Idle) {
      assert x in s.idle <==> At(s, x, Idle);
    }
    forall x: WorkerId ensures x in u.busy <==> InUse(u, x) {
      assert x in s.busy <==> InUse(s, x);
      assert HasWorker(s, t, x) <==> At(s, x, Held(t));
    }
  }

  lemma HeldByThread(s: Pool, t: ThreadId)
    requires Exclusive(s) && t in s.threads && Holds(s.threads[t].pc)
    ensures var w := s.threads[t].pc.w;
            && HasWorker(s, t, w) && w < |s.workers| && s.workers[w] == Held(t) && w !in s.idle && (w in s.busy <==> Busy(s.threads[t].pc))
  {
    var w := s.threads[t].pc.w;
    assert HasWorker(s, t, w);
    assert At(s, w, Held(t));
    assert w in s.busy <==> InUse(s, w);
    assert w in s.idle <==> At(s, w, Idle);
  }

  lemma AdvanceHolding(s: Pool, t: ThreadId)
    requires t in s.threads && Holds(s.threads[t].pc)
    requires var w := s.threads[t].pc.w;
             w < |s.workers| && s.workers[w] == Held(t) && w !in s.idle && (w in s.busy <==> Busy(s.threads[t].pc))
    ensures var u, w := Advance(s, t), s.threads[t].pc.w;
            && t in u.threads && u.threads == s.threads[t := u.threads[t]]
            && |u.workers| == |s.workers| && u.workers == s.workers[w := u.workers[w]]
            && (forall x: WorkerId :: x != w ==> (x in u.idle <==> x in s.idle) && (x in u.busy <==> x in s.busy))
            && if Holds(u.threads[t].pc)
               then u.threads[t].pc.w == w && u.workers[w] == Held(t) && w !in u.idle && (w in u.busy <==> Busy(u.threads[t].pc))
               else !u.workers[w].Held? && (w in u.idle <==> u.workers[w].Idle?) && (w in u.busy <==> u.workers[w].Leaked?)
  {
    var w := s.threads[t].pc.w;
    assert s.workers[w := Held(t)] == s.workers;
    assert s.threads[t := s.threads[t]] == s.threads;
  }

  predicate Late(pc: Pc) {
    pc.Replacing? || pc.Ending? || pc.Ended? || pc.Failing? || pc.Returning?
  }

  lemma AdvanceEarly(s: Pool, t: ThreadId)
    requires t in s.threads && !Holds(s.threads[t].pc) && !Late(s.threads[t].pc)
    ensures var u := Advance(s, t);
            && (u.threads == s.threads - {t} || (t in u.threads && !Holds(u.threads[t].pc) && u.threads == s.threads[t := u.threads[t]]))
            && u.busy == s.busy
            && ((u.idle == s.idle && u.workers == s.workers) || (u.idle == s.idle + {|s.workers|} && u.workers == s.workers + [Idle]))
  {
    hide TaskDone;
    assert s.threads[t := s.threads[t]] == s.threads;
  }

  lemma AdvanceBare(s: Pool, t: ThreadId)
    requires t in s.threads && !Holds(s.threads[t].pc)
    ensures var u := Advance(s, t);
            && (u.threads == s.threads - {t} || (t in u.threads && !Holds(u.threads[t].pc) && u.threads == s.threads[t := u.threads[t]]))
            && u.busy == s.busy
            && ((u.idle == s.idle && u.workers == s.workers) || (u.idle == s.idle + {|s.workers|} && u.workers == s.workers + [Idle]))
  {
    hide TaskDone;
    if !Late(s.threads[t].pc) {
      hide Advance;
      AdvanceEarly(s, t);
    }
  }

  lemma AdvanceExclusive(s: Pool, t: ThreadId)
    requires Exclusive(s) && t in s.threads
    ensures Exclusive(Advance(s, t))
  {
    hide Exclusive, Advance;
    if Holds(s.threads[t].pc) {
      HeldByThread(s, t);
      AdvanceHolding(s, t);
      ExclusiveMoved(s, Advance(s, t), t, s.threads[t].pc.w);
    } else {
      AdvanceBare(s, t);
      ExclusiveBare(s, Advance(s, t), t);
    }
  }

  lemma AnsweredExclusive(s: Pool, t: ThreadId, offer: Offer)
    requires Exclusive(s) && t in s.threads && s.threads[t].pc.Offering?
    ensures Exclusive(Answered(s, t, offer))
  {
    hide Exclusive;
    HeldByThread(s, t);
    var w := s.threads[t].pc.w;
    assert s.workers[w := Held(t)] == s.workers;
    ExclusiveMoved(s, Answered(s, t, offer), t, w);
  }

  lemma ThreadExclusive(s: Pool, step: Step)
    requires Exclusive(s) && Driven(step) && Next(s, step) != s
    ensures Exclusive(Next(s, step))
  {
    hide Exclusive;
    var t, u := step.t, Next(s, step);
    if step.TakeIdle? {
      IdleKnown(s, step.w);
      ExclusiveMoved(s, u, t, step.w);
    } else if step.AddFails? || step.KillFails? {
      ExclusiveBare(s, u, t);
    } else {
      HeldByThread(s, t);
      var w := s.threads[t].pc.w;
      assert s.workers[w := Held(t)] == s.workers;
      ExclusiveMoved(s, u, t, w);
    }
  }

  lemma IdleKnown(s: Pool, w: WorkerId)
    requires Exclusive(s) && w in s.idle
    ensures w < |s.workers| && s.workers[w] == Idle && w !in s.busy
  {
    assert At(s, w, Idle);
    assert w in s.busy <==> InUse(s, w);
  }

  lemma SameExclusive(s: Pool, u: Pool)
    requires Exclusive(s) && u.idle == s.idle && u.busy == s.busy && u.workers == s.workers
    requires u.threads == s.threads || (FreshThreads(s) && s.nextThread in u.threads && !Holds(u.threads[s.nextThread].pc)
                                        && u.threads == s.threads[s.nextThread := u.threads[s.nextThread]])
    ensures Exclusive(u)
  {
    forall r: ThreadId, x: WorkerId ensures HasWorker(u, r, x) <==> At(u, x, Held(r)) {
      assert HasWorker(s, r, x) <==> At(s, x, Held(r));
    }
    forall x: WorkerId ensures x in u.idle <==> At(u, x, Idle) { assert x in s.idle <==> At(s, x, Idle); }
    forall x: WorkerId ensures x in u.busy <==> InUse(u, x) {
      assert x in s.busy <==> InUse(s, x);
      assert x < |s.workers| && s.workers[x].Held? ==> HasWorker(s, s.workers[x].t, x) by {
        if x < |s.workers| && s.workers[x].Held? { assert At(s, x, Held(s.workers[x].t)); }
      }
    }
  }

  lemma ClearedExclusive(s: Pool, w: WorkerId)
    requires Exclusive(s) && w in s.idle
    ensures Exclusive(Next(s, ClearIdle(w)))
  {
    var u := Next(s, ClearIdle(w));
    IdleKnown(s, w);
    forall r: ThreadId, x: WorkerId ensures HasWorker(u, r, x) <==> At(u, x, Held(r)) {
      assert HasWorker(s, r, x) <==> At(s, x, Held(r));
    }
    forall x: WorkerId ensures x in u.idle <==> At(u, x, Idle) { assert x in s.idle <==> At(s, x, Idle); }
    forall x: WorkerId ensures x in u.busy <==> InUse(u, x) { assert x in s.busy <==> InUse(s, x); }
  }

  lemma StepExclusive(s: Pool, step: Step)
    requires Exclusive(s) && FreshThreads(s)
    ensures Exclusive(Next(s, step))
  {
    hide Exclusive, Advance, Answered, FreshThreads, First;
    var u := Next(s, step);
    match step
    case ClearIdle(w) => if w in s.idle { ClearedExclusive(s, w); }
    case ThreadStep(t) => if t in s.threads { AdvanceExclusive(s, t); }
    case Answer(t, offer) => if t in s.threads && s.threads[t].pc.Offering? { AnsweredExclusive(s, t, offer); }
    case _ => if !Driven(step) { SameExclusive(s, u); } else if u != s { ThreadExclusive(s, step); }
  }

  // ---------- each job in one place ----------

  lemma {:induction false} OpenUpdate(jobs: seq<Place>, j: JobId, place: Place)
    requires j < |jobs|
    ensures CountOpen(jobs[j := place]) == CountOpen(jobs) - (if jobs[j].Finished? then 0 else 1) + (if place.Finished? then 0 else 1)
    decreases |jobs|
  {
    var n := |jobs| - 1;
    if j < n {
      OpenUpdate(jobs[..n], j, place);
      assert jobs[j := place][..n] == jobs[..n][j := place];
    } else {
      assert jobs[j := place][..n] == jobs[..n];
    }
  }

  lemma OpenAppend(jobs: seq<Place>)
    ensures CountOpen(jobs + [Queued]) == CountOpen(jobs) + 1
  {
    assert (jobs + [Queued])[..|jobs|] == jobs;
  }

  /** A job moves from its place to another and nothing else does. */
  lemma JobMoved(s: Pool, u: Pool, j: JobId, place: Place)
    requires JobsExact(s) && j < |s.jobs| && u.jobs == s.jobs[j := place] && u.items == s.items && s.jobs[j] != place
    requires u.unfinished == s.unfinished - (if s.jobs[j].Finished? then 0 else 1) + (if place.Finished? then 0 else 1)
    requires forall k: JobId :: k != j ==> (k in u.queued <==> k in s.queued) && (k in u.cancelling <==> k in s.cancelling)
                                           && (u.runner == InHand(k) <==> s.runner == InHand(k))
    requires (j in u.queued <==> place.Queued?) && (j in u.cancelling <==> place.Cancelling?) && (u.runner == InHand(j) <==> place.AtRunner?)
    requires forall t: ThreadId, k: JobId :: k != j ==> (Owes(u, t, k) <==> Owes(s, t, k))
    requires forall t: ThreadId :: Owes(u, t, j) <==> place == With(t)
    ensures JobsExact(u)
  {
    OpenUpdate(s.jobs, j, place);
    forall k: JobId, at: Place | k != j ensures JobAt(u, k, at) <==> JobAt(s, k, at) {
    }
    assert forall at :: JobAt(u, j, at) <==> at == place;
  }

  lemma JobsSame(s: Pool, u: Pool)
    requires JobsExact(s) && u.items == s.items && u.jobs == s.jobs && u.queued == s.queued && u.cancelling == s.cancelling
    requires u.unfinished == s.unfinished && forall j: JobId :: u.runner == InHand(j) <==> s.runner == InHand(j)
    requires forall t: ThreadId, j: JobId :: Owes(u, t, j) <==> Owes(s, t, j)
    ensures JobsExact(u)
  {
    forall j: JobId, at: Place ensures JobAt(u, j, at) <==> JobAt(s, j, at) {
    }
  }

  lemma SubmittedJobs(s: Pool, item: Item)
    requires JobsExact(s)
    ensures JobsExact(Next(s, Submit(item)))
  {
    var u := Next(s, Submit(item));
    OpenAppend(s.jobs);
    var n := |s.jobs|;
    forall j: JobId, at: Place ensures JobAt(u, j, at) <==> (JobAt(s, j, at) || (j == n && at == Queued)) {
    }
    assert forall t: ThreadId, j: JobId :: Owes(u, t, j) <==> Owes(s, t, j);
    assert JobAt(u, n, Queued);
  }

  /** A thread that goes on owing its job, or goes on owing none. */
  lemma ThreadJobs(s: Pool, u: Pool, t: ThreadId, pc: Pc)
    requires JobsExact(s) && t in s.threads && u.threads == s.threads[t := s.threads[t].(pc := pc)]
    requires (pc.Ended? || pc.Failing? || pc.Returning?) <==> (s.threads[t].pc.Ended? || s.threads[t].pc.Failing? || s.threads[t].pc.Returning?)
    requires u == s.(threads := u.threads, idle := u.idle, busy := u.busy, workers := u.workers, done := u.done)
    ensures JobsExact(u)
  {
    forall r: ThreadId, j: JobId ensures Owes(u, r, j) <==> Owes(s, r, j) {
    }
    JobsSame(s, u);
  }

  lemma GoneJobs(s: Pool, u: Pool, t: ThreadId)
    requires JobsExact(s) && t in s.threads && u.threads == s.threads - {t} && (s.threads[t].pc.Failing? || s.threads[t].pc.Returning?)
    requires u == s.(threads := u.threads, tokens := u.tokens, lostTokens := u.lostTokens)
    ensures JobsExact(u)
  {
    forall r: ThreadId, j: JobId ensures Owes(u, r, j) <==> Owes(s, r, j) {
    }
    JobsSame(s, u);
  }

  lemma EndedJobs(s: Pool, t: ThreadId)
    requires JobsExact(s) && t in s.threads && s.threads[t].pc.Ending?
    ensures JobsExact(Advance(s, t))
  {
    var j, u := s.threads[t].job, Advance(s, t);
    assert Owes(s, t, j);
    assert JobAt(s, j, With(t));
    forall r: ThreadId, k: JobId ensures Owes(u, r, k) <==> (Owes(s, r, k) && !(r == t)) {
    }
    forall r: ThreadId ensures !Owes(u, r, j) {
      assert Owes(s, r, j) ==> JobAt(s, j, With(r));
    }
    forall r: ThreadId, k: JobId | k != j ensures Owes(u, r, k) <==> Owes(s, r, k) {
      assert Owes(s, t, k) ==> k == j;
    }
    assert j !in s.queued && j !in s.cancelling && s.runner != InHand(j) by {
      assert !JobAt(s, j, Queued) && !JobAt(s, j, Cancelling) && !JobAt(s, j, AtRunner);
    }
    JobMoved(s, u, j, Finished);
  }

  /** What a thread does before it ends, in one form. */
  lemma AdvancePlain(s: Pool, t: ThreadId)
    requires t in s.threads && !s.threads[t].pc.Ending?
    ensures var u, pc := Advance(s, t), s.threads[t].pc;
            || (u == s.(threads := s.threads - {t}, tokens := u.tokens, lostTokens := u.lostTokens) && (pc.Failing? || pc.Returning?))
            || (t in u.threads && u.threads == s.threads[t := s.threads[t].(pc := u.threads[t].pc)]
                && u == s.(threads := u.threads, idle := u.idle, busy := u.busy, workers := u.workers, done := u.done)
                && ((u.threads[t].pc.Ended? || u.threads[t].pc.Failing? || u.threads[t].pc.Returning?) <==> (pc.Ended? || pc.Failing? || pc.Returning?)))
  {
    hide TaskDone;
    if !Late(s.threads[t].pc) {
      hide Advance;
      AdvancePlainEarly(s, t);
    }
  }

  lemma AdvancePlainEarly(s: Pool, t: ThreadId)
    requires t in s.threads && !Late(s.threads[t].pc)
    ensures var u, pc := Advance(s, t), s.threads[t].pc;
            || (u == s.(threads := s.threads - {t}, tokens := u.tokens, lostTokens := u.lostTokens) && (pc.Failing? || pc.Returning?))
            || (t in u.threads && u.threads == s.threads[t := s.threads[t].(pc := u.threads[t].pc)]
                && u == s.(threads := u.threads, idle := u.idle, busy := u.busy, workers := u.workers, done := u.done)
                && ((u.threads[t].pc.Ended? || u.threads[t].pc.Failing? || u.threads[t].pc.Returning?) <==> (pc.Ended? || pc.Failing? || pc.Returning?)))
  {
    hide TaskDone;
    assert s.threads[t := s.threads[t]] == s.threads;
  }

  lemma AdvanceJobs(s: Pool, t: ThreadId)
    requires JobsExact(s) && t in s.threads
    ensures JobsExact(Advance(s, t))
  {
    hide JobsExact, Advance;
    if s.threads[t].pc.Ending? {
      EndedJobs(s, t);
    } else {
      AdvancePlain(s, t);
      var u := Advance(s, t);
      if t in u.threads { ThreadJobs(s, u, t, u.threads[t].pc); } else { GoneJobs(s, u, t); }
    }
  }

  lemma DecidedJobs(s: Pool)
    requires JobsExact(s) && FreshThreads(s)
    ensures JobsExact(Decided(s))
  {
    var u := Decided(s);
    if s.runner.InHand? {
      var j := s.runner.job;
      assert JobAt(s, j, AtRunner);
      NotElsewhere(s, j);
      if u.nextThread != s.nextThread {
        forall r: ThreadId, k: JobId ensures Owes(u, r, k) <==> (Owes(s, r, k) || (r == s.nextThread && k == j)) {
        }
        JobMoved(s, u, j, With(s.nextThread));
      } else {
        assert forall r: ThreadId, k: JobId :: Owes(u, r, k) <==> Owes(s, r, k);
        JobMoved(s, u, j, Finished);
      }
    }
  }

  lemma NotElsewhere(s: Pool, j: JobId)
    requires JobsExact(s) && j < |s.jobs|
    ensures !s.jobs[j].Queued? ==> j !in s.queued
    ensures !s.jobs[j].Cancelling? ==> j !in s.cancelling
    ensures !s.jobs[j].AtRunner? ==> s.runner != InHand(j)
    ensures !s.jobs[j].With? ==> forall t: ThreadId :: !Owes(s, t, j)
  {
    assert forall at: Place :: JobAt(s, j, at) <==> at == s.jobs[j];
  }

  lemma QueueJobs(s: Pool, step: Step)
    requires JobsExact(s) && (step.TakeToCancel? || step.CancelTaken? || step.RunnerGet?)
    ensures JobsExact(Next(s, step))
  {
    var u, j := Next(s, step), step.job;
    if u != s {
      assert forall r: ThreadId, k: JobId :: Owes(u, r, k) <==> Owes(s, r, k);
      assert j in s.queued ==> JobAt(s, j, Queued);
      assert j in s.cancelling ==> JobAt(s, j, Cancelling);
      NotElsewhere(s, j);
      JobMoved(s, u, j, u.jobs[j]);
    }
  }

  lemma StepJobs(s: Pool, step: Step)
    requires JobsExact(s) && FreshThreads(s)
    ensures JobsExact(Next(s, step))
  {
    hide JobsExact, FreshThreads, Advance, Decided, First, TaskDone;
    var u := Next(s, step);
    match step
    case Submit(item) => SubmittedJobs(s, item);
    case TakeToCancel(_) => QueueJobs(s, step);
    case CancelTaken(_) => QueueJobs(s, step);
    case RunnerGet(_) => QueueJobs(s, step);
    case RunnerDecide => DecidedJobs(s);
    case ThreadStep(t) => if t in s.threads { AdvanceJobs(s, t); }
    case Answer(t, _) => if u != s { ThreadJobs(s, u, t, u.threads[t].pc); }
    case _ => if Driven(step) { DrivenJobs(s, step); } else { UntouchedJobs(s, u); }
  }

  lemma DrivenJobs(s: Pool, step: Step)
    requires JobsExact(s) && Driven(step)
    ensures JobsExact(Next(s, step))
  {
    hide JobsExact;
    if Next(s, step) != s { ThreadJobs(s, Next(s, step), step.t, Next(s, step).threads[step.t].pc); }
  }

  lemma UntouchedJobs(s: Pool, u: Pool)
    requires JobsExact(s) && u.items == s.items && u.jobs == s.jobs && u.queued == s.queued && u.cancelling == s.cancelling
    requires u.unfinished == s.unfinished && u.threads == s.threads && forall j: JobId :: u.runner == InHand(j) <==> s.runner == InHand(j)
    ensures JobsExact(u)
  {
    assert forall t: ThreadId, j: JobId :: Owes(u, t, j) <==> Owes(s, t, j);
    JobsSame(s, u);
  }
}
