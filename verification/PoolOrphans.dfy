/** What orphaned workers do to a pool of any size: as many as the pool is large, and its workers can only become fewer. */
module PoolOrphans {
  import opened Sums
  import opened Pool
  import opened PoolSteps
  import opened PoolGuarantees
  import opened PoolSupply

  ghost function Orphans(s: Pool): set<WorkerId> {
    set w | w in s.busy && Orphan(s, w)
  }

  /** The thread has a worker, is adding one, or goes by a count that may make it add one. */
  function Claims(size: nat, pc: Pc): int {
    if Weight(pc) == 1 || (pc.ReadIdle? && pc.busy < size) then 1 else 0
  }

  ghost function AllClaims(s: Pool): map<ThreadId, int> {
    map t | t in s.threads :: Claims(s.size, s.threads[t].pc)
  }

  /** Idle workers, workers with a thread, and workers that a thread may still add. */
  ghost function Supply(s: Pool): int {
    |s.idle| + Sum(AllClaims(s))
  }

  // ---------- one thread moves ----------

  lemma ClaimMoved(s: Pool, u: Pool, t: ThreadId)
    requires t in s.threads && t in u.threads && u.size == s.size && u.threads == s.threads[t := u.threads[t]]
    ensures Sum(AllClaims(u)) == Sum(AllClaims(s)) + Claims(s.size, u.threads[t].pc) - Claims(s.size, s.threads[t].pc)
  {
    SumUpdate(AllClaims(s), t, Claims(s.size, u.threads[t].pc));
    assert AllClaims(u) == AllClaims(s)[t := Claims(s.size, u.threads[t].pc)];
  }

  lemma ClaimGone(s: Pool, u: Pool, t: ThreadId)
    requires t in s.threads && u.size == s.size && u.threads == s.threads - {t}
    ensures Sum(AllClaims(u)) == Sum(AllClaims(s)) - Claims(s.size, s.threads[t].pc)
  {
    SumRemove(AllClaims(s), t);
    assert AllClaims(u) == AllClaims(s) - {t};
  }

  /** A thread moves on and claims no more than it gives up, or ends. */
  ghost predicate Shrinks(s: Pool, u: Pool, t: ThreadId)
    requires t in s.threads
  {
    && u.size == s.size
    && if t in u.threads
       then u.threads == s.threads[t := u.threads[t]]
            && |u.idle| + Claims(s.size, u.threads[t].pc) <= |s.idle| + Claims(s.size, s.threads[t].pc)
       else u.threads == s.threads - {t} && u.idle == s.idle
  }

  lemma ShrinksSupply(s: Pool, u: Pool, t: ThreadId)
    requires t in s.threads && Shrinks(s, u, t)
    ensures Supply(u) <= Supply(s)
  {
    if t in u.threads { ClaimMoved(s, u, t); } else { ClaimGone(s, u, t); }
  }

  lemma AdvanceShrinks(s: Pool, t: ThreadId)
    requires t in s.threads && |s.busy| >= s.size
    ensures Shrinks(s, Advance(s, t), t)
  {
    hide Advance, Shrinks;
    var pc := s.threads[t].pc;
    if pc.Adding? || pc.Replacing? {
      NewShrinks(s, t);
    } else if Holds(pc) {
      HoldingShrinks(s, t);
    } else if Late(pc) {
      LateShrinks(s, t);
    } else {
      EarlyShrinks(s, t);
    }
  }

  lemma NewShrinks(s: Pool, t: ThreadId)
    requires t in s.threads && (s.threads[t].pc.Adding? || s.threads[t].pc.Replacing?)
    ensures Shrinks(s, Advance(s, t), t)
  {
    hide TaskDone;
    GrowsByOne(s.idle);
  }

  lemma HoldingShrinks(s: Pool, t: ThreadId)
    requires t in s.threads && Holds(s.threads[t].pc)
    ensures Shrinks(s, Advance(s, t), t)
  {
    hide TaskDone;
    assert s.threads[t := s.threads[t]] == s.threads;
  }

  lemma LateShrinks(s: Pool, t: ThreadId)
    requires t in s.threads && Late(s.threads[t].pc) && !s.threads[t].pc.Replacing?
    ensures Shrinks(s, Advance(s, t), t)
  {
    hide TaskDone;
  }

  lemma EarlyShrinks(s: Pool, t: ThreadId)
    requires t in s.threads && |s.busy| >= s.size
    requires !Holds(s.threads[t].pc) && !Late(s.threads[t].pc) && !s.threads[t].pc.Adding?
    ensures Shrinks(s, Advance(s, t), t)
  {
    hide TaskDone;
    assert s.threads[t := s.threads[t]] == s.threads;
  }

  lemma AnsweredShrinks(s: Pool, t: ThreadId, offer: Offer)
    requires t in s.threads && s.threads[t].pc.Offering?
    ensures Shrinks(s, Answered(s, t, offer), t)
  {
  }

  lemma TakeShrinks(s: Pool, step: Step)
    requires step.TakeIdle? && Next(s, step) != s
    ensures step.t in s.threads && Shrinks(s, Next(s, step), step.t)
  {
  }

  lemma JudgeShrinks(s: Pool, step: Step)
    requires step.Judge? && Next(s, step) != s
    ensures step.t in s.threads && Shrinks(s, Next(s, step), step.t)
  {
    GrowsByOne(s.idle);
  }

  lemma ThreadShrinks(s: Pool, step: Step)
    requires Driven(step) && !step.TakeIdle? && !step.Judge? && Next(s, step) != s
    ensures step.t in s.threads && Shrinks(s, Next(s, step), step.t)
  {
  }

  lemma SameSupplied(s: Pool, u: Pool)
    requires u.threads == s.threads && u.size == s.size && u.idle <= s.idle
    ensures Supply(u) <= Supply(s)
  {
    assert AllClaims(u) == AllClaims(s);
    assert s.idle == u.idle + (s.idle - u.idle);
  }

  lemma StartedSupply(s: Pool)
    requires FreshThreads(s)
    ensures Supply(Decided(s)) <= Supply(s)
  {
    var u := Decided(s);
    if u.threads == s.threads {
      SameSupplied(s, u);
    } else {
      SumUpdate(AllClaims(s), s.nextThread, 0);
      assert AllClaims(u) == AllClaims(s)[s.nextThread := 0];
    }
  }

  lemma SupplyStep(s: Pool, step: Step)
    requires FreshThreads(s) && |s.busy| >= s.size
    ensures Supply(Next(s, step)) <= Supply(s)
  {
    hide Shrinks, Advance, Answered, TaskDone, Decided, First, Supply;
    var u := Next(s, step);
    match step
    case ThreadStep(t) => if t in s.threads { AdvanceShrinks(s, t); ShrinksSupply(s, u, t); }
    case Answer(t, offer) => if t in s.threads && s.threads[t].pc.Offering? { AnsweredShrinks(s, t, offer); ShrinksSupply(s, u, t); }
    case RunnerDecide => StartedSupply(s);
    case CancelTaken(j) => SameSupplied(s, TaskDone(s, j)); SameSupplied(TaskDone(s, j), u);
    case _ => if Driven(step) { DrivenShrinks(s, step); } else { SameSupplied(s, u); }
  }

  lemma DrivenShrinks(s: Pool, step: Step)
    requires Driven(step)
    ensures Supply(Next(s, step)) <= Supply(s)
  {
    hide Next, Shrinks;
    if Next(s, step) != s {
      if step.TakeIdle? {
        TakeShrinks(s, step);
      } else if step.Judge? {
        JudgeShrinks(s, step);
      } else {
        ThreadShrinks(s, step);
      }
      ShrinksSupply(s, Next(s, step), step.t);
    }
  }

  // ---------- over whole runs ----------

  lemma OrphansStay(s: Pool, step: Step)
    requires Invariant(s)
    ensures Orphans(s) <= Orphans(Next(s, step)) && |Orphans(s)| <= |Orphans(Next(s, step))|
  {
    hide Within, Exclusive, TokensExact, JobsExact, FreshThreads, Next, Orphan;
    StepKeepsPool(s, step);
    forall w | w in Orphans(s) ensures w in Orphans(Next(s, step)) {
      OrphanIsLeaked(s, w);
      LeakedStays(s, step, w);
      OrphanIsLeaked(Next(s, step), w);
      OrphanBusy(Next(s, step), w);
    }
    Smaller(Orphans(s), Orphans(Next(s, step)));
  }

  lemma OrphanBusy(s: Pool, w: WorkerId)
    requires Orphan(s, w)
    ensures w in s.busy
  {
  }

  lemma OrphansBusy(s: Pool)
    ensures |Orphans(s)| <= |s.busy|
  {
    Smaller(Orphans(s), s.busy);
  }

  /** With as many orphans as the pool is large no worker is ever added again: whatever happens, their number only falls. */
  lemma {:induction false} SupplyOnlyFalls(s: Pool, steps: seq<Step>)
    requires Invariant(s) && |Orphans(s)| >= s.size
    ensures Supply(Run(s, steps)) <= Supply(s)
    decreases |steps|
  {
    hide Within, Exclusive, TokensExact, JobsExact, Next, Orphans, Supply;
    if steps != [] {
      OrphansBusy(s);
      SupplyStep(s, steps[0]);
      OrphansStay(s, steps[0]);
      StepKeepsPool(s, steps[0]);
      SizeStays(s, steps[0]);
      SupplyOnlyFalls(Next(s, steps[0]), steps[1..]);
    }
  }

  /** And when it has fallen to nothing the pool is starved. */
  lemma NoSupplyStarves(s: Pool)
    requires |Orphans(s)| >= s.size && Supply(s) <= 0
    ensures Starved(s)
  {
    OrphansBusy(s);
    SumNonNegative(AllClaims(s));
    forall t | t in s.threads ensures Hungry(s, s.threads[t].pc) { SummandLeSum(AllClaims(s), t); }
  }

  /** Every further orphan takes one away. */
  lemma OrphanCosts(s: Pool, step: Step, w: WorkerId)
    requires Invariant(s) && !Orphan(s, w) && Orphan(Next(s, step), w)
    ensures Supply(Next(s, step)) == Supply(s) - 1
  {
    hide Within, Exclusive, TokensExact, JobsExact, FreshThreads, Orphan, Next;
    OrphanedExactlyWhen(s, step, w);
    OrphaningMove(s, step);
    ClaimMoved(s, Next(s, step), step.t);
  }

  lemma OrphaningMove(s: Pool, step: Step)
    requires (step.LoopFails? && step.t in s.threads && s.threads[step.t].pc.Waiting?)
             || (step.Answer? && step.t in s.threads && s.threads[step.t].pc.Offering?
                 && (step.offer == OtherError || (step.offer == Unpicklable && s.threads[step.t].job in s.done)))
    ensures var u, t := Next(s, step), step.t;
            && t in u.threads && u.size == s.size && u.idle == s.idle && u.threads == s.threads[t := u.threads[t]]
            && Claims(s.size, s.threads[t].pc) == 1 && Claims(s.size, u.threads[t].pc) == 0
  {
  }
}
