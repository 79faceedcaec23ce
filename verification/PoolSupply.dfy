/** Whether a thread that waits for a worker can be served: always, when a worker is kept and none is lost. */
module PoolSupply {
  import opened Pool
  import opened PoolSteps
  import opened PoolGuarantees

  /** The thread has a worker or is adding one, and has read nothing that would let it retire the worker. */
  predicate Supplies(pc: Pc) {
    match pc
    case Adding(_) => true
    case Marking(_, _) => true
    case Offering(_, _) => true
    case Waiting(_) => true
    case Unmarking(_, _) => true
    case CountIdle(_, busy, _) => busy == 0
    case CountBacklog(_, total, _) => total <= 1
    case Judging(_, _) => true
    case Replacing(_) => true
    case _ => false
  }

  ghost predicate Supplier(s: Pool, t: ThreadId) {
    t in s.threads && Supplies(s.threads[t].pc)
  }

  /** A worker is idle, or some thread is going to make one so. */
  ghost predicate Supplied(s: Pool) {
    s.idle != {} || exists t :: Supplier(s, t)
  }

  ghost predicate NothingLeaked(s: Pool) {
    forall w: WorkerId :: !At(s, w, Leaked)
  }

  /** No worker is lost in the step: starting, judging and shutting one down succeed, and a failed job reaches `done_with_process`. */
  predicate Careful(s: Pool, step: Step) {
    && !step.ClearIdle? && !step.AddFails? && !step.DoneFails? && !step.LoopFails?
    && (step.Answer? && step.t in s.threads ==>
          step.offer != OtherError && (step.offer == Unpicklable ==> s.threads[step.t].job !in s.done))
  }

  predicate CarefulRun(s: Pool, steps: seq<Step>)
    decreases |steps|
  {
    steps == [] || (Careful(s, steps[0]) && CarefulRun(Next(s, steps[0]), steps[1..]))
  }

  /** The thread that moved still supplies, or another one does, or a worker is idle. */
  lemma StillSupplied(s: Pool, u: Pool, t: ThreadId)
    requires Supplied(s) && t in s.threads
    requires forall r :: r in s.threads && r != t ==> r in u.threads && u.threads[r] == s.threads[r]
    requires (s.idle <= u.idle && !Supplies(s.threads[t].pc)) || u.idle != {} || Supplier(u, t) || exists r :: Supplier(u, r)
    ensures Supplied(u)
  {
    if s.idle == {} {
      var r :| Supplier(s, r);
      if r != t { assert Supplier(u, r); }
    }
  }

  /** While nothing is leaked, a worker in `busy_workers` is with a thread that has yet to call `done_with_process`. */
  lemma BusySupplies(s: Pool, w: WorkerId)
    requires Exclusive(s) && NothingLeaked(s) && w in s.busy
    ensures exists t :: HasWorker(s, t, w) && Busy(s.threads[t].pc)
  {
    assert InUse(s, w);
    assert !At(s, w, Leaked);
    assert At(s, w, Held(s.workers[w].t));
    assert HasWorker(s, s.workers[w].t, w);
  }

  lemma UnmarkSupplied(s: Pool, t: ThreadId)
    requires Exclusive(s) && NothingLeaked(s) && t in s.threads && s.threads[t].pc.Unmarking?
    ensures Supplied(Advance(s, t))
  {
    var w, u := s.threads[t].pc.w, Advance(s, t);
    if s.busy - {w} != {} {
      var x :| x in s.busy - {w};
      BusySupplies(s, x);
      var r :| HasWorker(s, r, x) && Busy(s.threads[r].pc);
      assert r != t;
      assert Supplier(u, r);
    } else {
      assert Supplier(u, t);
    }
  }

  lemma AdvanceSupplied(s: Pool, t: ThreadId)
    requires Exclusive(s) && NothingLeaked(s) && Supplied(s) && t in s.threads && s.minWorkers >= 1
    ensures Supplied(Advance(s, t))
  {
    hide Exclusive, NothingLeaked, TaskDone;
    if s.threads[t].pc.Unmarking? {
      UnmarkSupplied(s, t);
    } else {
      AdvanceSupplies(s, t);
      StillSupplied(s, Advance(s, t), t);
    }
  }

  lemma AdvanceSupplies(s: Pool, t: ThreadId)
    requires t in s.threads && s.minWorkers >= 1 && !s.threads[t].pc.Unmarking?
    ensures var u := Advance(s, t);
            && s.idle <= u.idle
            && (forall r :: r in s.threads && r != t ==> r in u.threads && u.threads[r] == s.threads[r])
            && (Supplies(s.threads[t].pc) ==> u.idle != {} || Supplier(u, t))
  {
    hide Supplier, Supplies;
    AdvanceLeaves(s, t);
    if Supplies(s.threads[t].pc) {
      hide Advance;
      SupplierAdvances(s, t);
    }
  }

  lemma AdvanceLeaves(s: Pool, t: ThreadId)
    requires t in s.threads
    ensures var u := Advance(s, t);
            s.idle <= u.idle && forall r :: r in s.threads && r != t ==> r in u.threads && u.threads[r] == s.threads[r]
  {
    hide TaskDone;
    if !Late(s.threads[t].pc) {
      hide Advance;
      EarlyLeaves(s, t);
    }
  }

  lemma EarlyLeaves(s: Pool, t: ThreadId)
    requires t in s.threads && !Late(s.threads[t].pc)
    ensures var u := Advance(s, t);
            s.idle <= u.idle && forall r :: r in s.threads && r != t ==> r in u.threads && u.threads[r] == s.threads[r]
  {
    hide TaskDone;
  }

  lemma SupplierAdvances(s: Pool, t: ThreadId)
    requires t in s.threads && s.minWorkers >= 1 && !s.threads[t].pc.Unmarking? && Supplies(s.threads[t].pc)
    ensures Advance(s, t).idle != {} || Supplier(Advance(s, t), t)
  {
    hide TaskDone;
  }

  lemma StepSupplied(s: Pool, step: Step)
    requires Invariant(s) && NothingLeaked(s) && Supplied(s) && s.minWorkers >= 1 && Careful(s, step)
    ensures Supplied(Next(s, step)) && NothingLeaked(Next(s, step))
  {
    hide Within, Exclusive, TokensExact, JobsExact, Advance, Answered, TaskDone, Decided, NothingLeaked, First;
    CarefulLeaks(s, step);
    match step
    case ThreadStep(t) => if t in s.threads { AdvanceSupplied(s, t); }
    case Answer(t, offer) =>
      if t in s.threads && s.threads[t].pc.Offering? {
        AnsweredSupplies(s, t, offer);
        StillSupplied(s, Answered(s, t, offer), t);
      }
    case TakeIdle(t, w) => if Next(s, step) != s { StillSupplied(s, Next(s, step), t); }
    case Judge(t, fit) => if Next(s, step) != s { JudgedSupplied(s, t, fit); }
    case Outcome(t) => if Next(s, step) != s { StillSupplied(s, Next(s, step), t); }
    case KillFails(t) => if Next(s, step) != s { StillSupplied(s, Next(s, step), t); }
    case RunnerDecide => DecidedSupplied(s);
    case CancelTaken(j) => SameSupply(s, TaskDone(s, j)); SameSupply(s, Next(s, step));
    case _ => SameSupply(s, Next(s, step));
  }

  lemma AnsweredSupplies(s: Pool, t: ThreadId, offer: Offer)
    requires t in s.threads && s.threads[t].pc.Offering? && Careful(s, Answer(t, offer))
    ensures var u := Answered(s, t, offer);
            && Supplier(u, t) && forall r :: r in s.threads && r != t ==> r in u.threads && u.threads[r] == s.threads[r]
  {
  }

  lemma JudgedSupplied(s: Pool, t: ThreadId, fit: bool)
    requires t in s.threads && s.threads[t].pc.Judging?
    ensures Supplied(Next(s, Judge(t, fit)))
  {
    var u := Next(s, Judge(t, fit));
    if fit && s.threads[t].pc.after.Finish? { assert s.threads[t].pc.w in u.idle; } else { assert Supplier(u, t); }
  }

  lemma SameSupply(s: Pool, u: Pool)
    requires u.idle == s.idle && u.threads == s.threads
    ensures Supplied(s) ==> Supplied(u)
  {
    forall t | Supplier(s, t) ensures Supplier(u, t) { }
  }

  lemma DecidedSupplied(s: Pool)
    requires Supplied(s) && FreshThreads(s)
    ensures Supplied(Decided(s))
  {
    hide TaskDone;
    var u := Decided(s);
    forall t | Supplier(s, t) ensures Supplier(u, t) { assert t != s.nextThread; }
  }

  lemma CarefulLeaks(s: Pool, step: Step)
    requires Invariant(s) && NothingLeaked(s) && Careful(s, step)
    ensures NothingLeaked(Next(s, step))
  {
    hide Within, Exclusive, TokensExact, JobsExact, FreshThreads, Next, Orphan;
    StepKeepsPool(s, step);
    forall w: WorkerId ensures !At(Next(s, step), w, Leaked) {
      OrphanIsLeaked(s, w);
      OrphanIsLeaked(Next(s, step), w);
      OrphanedExactlyWhen(s, step, w);
    }
  }

  lemma {:induction false} CarefulRunSupplied(s: Pool, steps: seq<Step>)
    requires Invariant(s) && NothingLeaked(s) && Supplied(s) && s.minWorkers >= 1 && CarefulRun(s, steps)
    ensures Invariant(Run(s, steps)) && NothingLeaked(Run(s, steps)) && Supplied(Run(s, steps))
    decreases |steps|
  {
    hide Invariant, NothingLeaked, Supplied, Next, Careful;
    if steps != [] {
      StepKeepsPool(s, steps[0]);
      StepSupplied(s, steps[0]);
      SizeStays(s, steps[0]);
      CarefulRunSupplied(Next(s, steps[0]), steps[1..]);
    }
  }

  // ---------- the supply arrives ----------

  /** What a supplier does next when everything goes well. */
  function Toward(pc: Pc, t: ThreadId): Step {
    match pc
    case Offering(_, _) => Answer(t, Sent)
    case Waiting(_) => Outcome(t)
    case Judging(_, after) => Judge(t, after.Finish?)
    case _ => ThreadStep(t)
  }

  function Distance(pc: Pc): nat {
    match pc
    case Marking(_, _) => 8
    case Offering(_, _) => 7
    case Waiting(_) => 6
    case Unmarking(_, _) => 5
    case CountIdle(_, _, _) => 4
    case CountBacklog(_, _, _) => 3
    case Judging(_, _) => 2
    case _ => 1
  }

  /** The threads that have yet to reach `done_with_process` with their worker. */
  ghost function Working(s: Pool): set<ThreadId> {
    set t | t in s.threads && (s.threads[t].pc.Marking? || Busy(s.threads[t].pc))
  }

  ghost predicate OwnStep(step: Step, t: ThreadId) {
    (step.ThreadStep? || step.Answer? || step.Outcome? || step.Judge?) && step.t != t
  }

  /** A supplier that moves has put a worker on the idle queue, or is nearer to it, or has left that to another. */
  lemma SupplierMoves(s: Pool, r: ThreadId)
    requires Supplier(s, r) && s.minWorkers >= 1 && s.idle == {}
    ensures var v := Next(s, Toward(s.threads[r].pc, r));
            && Careful(s, Toward(s.threads[r].pc, r))
            && (forall t :: t in s.threads && t != r ==> t in v.threads && v.threads[t] == s.threads[t])
            && (v.idle != {}
                || (Supplier(v, r) && Working(v) <= Working(s) && Distance(v.threads[r].pc) < Distance(s.threads[r].pc))
                || Working(v) < Working(s))
  {
    hide TaskDone, Advance;
    var pc, v := s.threads[r].pc, Next(s, Toward(s.threads[r].pc, r));
    match pc
    case Offering(_, _) =>
    case Waiting(_) =>
    case Judging(w, after) => if after.Finish? { assert w in v.idle; }
    case _ =>
      AdvanceLeaves(s, r);
      if pc.Unmarking? { UnmarkedWorking(s, r); } else { SupplierAdvancesNearer(s, r); }
  }

  lemma UnmarkedWorking(s: Pool, r: ThreadId)
    requires r in s.threads && s.threads[r].pc.Unmarking?
    ensures Working(Advance(s, r)) < Working(s)
  {
    assert r in Working(s) && r !in Working(Advance(s, r));
  }

  lemma SupplierAdvancesNearer(s: Pool, r: ThreadId)
    requires Supplier(s, r) && s.minWorkers >= 1 && s.idle == {}
    requires var pc := s.threads[r].pc; pc.Marking? || pc.CountIdle? || pc.CountBacklog? || pc.Adding? || pc.Replacing?
    ensures var v := Advance(s, r);
            v.idle != {} || (Supplier(v, r) && Working(v) <= Working(s) && Distance(v.threads[r].pc) < Distance(s.threads[r].pc))
  {
    hide TaskDone;
  }

  lemma Smaller(a: set<ThreadId>, b: set<ThreadId>)
    requires a <= b
    ensures |a| <= |b| && (a < b ==> |a| < |b|)
  {
    assert b == a + (b - a);
  }

  /** From a state with a supplier, the suppliers' own steps put a worker on the idle queue. */
  lemma {:induction false} SupplyArrives(s: Pool, t: ThreadId, r: ThreadId) returns (steps: seq<Step>)
    requires Invariant(s) && NothingLeaked(s) && s.minWorkers >= 1 && s.idle == {}
    requires t in s.threads && s.threads[t].pc.Getting? && Supplier(s, r)
    ensures CarefulRun(s, steps) && forall step :: step in steps ==> OwnStep(step, t)
    ensures var u := Run(s, steps); u.idle != {} && t in u.threads && u.threads[t] == s.threads[t]
    decreases |Working(s)|, Distance(s.threads[r].pc)
  {
    hide Invariant, NothingLeaked, Working, Next, Careful;
    var step := Toward(s.threads[r].pc, r);
    var v := Next(s, step);
    SupplierMoves(s, r);
    StepKeepsPool(s, step);
    StepSupplied(s, step);
    SizeStays(s, step);
    var rest: seq<Step> := [];
    if v.idle == {} {
      var next: ThreadId := r;
      if !(Supplier(v, r) && Working(v) <= Working(s) && Distance(v.threads[r].pc) < Distance(s.threads[r].pc)) {
        next :| Supplier(v, next);
      }
      if Working(v) <= Working(s) { Smaller(Working(v), Working(s)); }
      rest := SupplyArrives(v, t, next);
    }
    steps := [step] + rest;
    assert steps[1..] == rest;
  }

  /**
   When at least one worker is kept and none was lost, a thread that finds no idle worker is not the only hope: another
   thread has or adds one, and the others' own steps alone bring one to the idle queue while it waits.
   */
  lemma WaiterIsServed(size: nat, minWorkers: int, steps: seq<Step>, t: ThreadId) returns (later: seq<Step>)
    requires size >= 1 && minWorkers >= 1 && CarefulRun(Init(size, minWorkers), steps)
    requires var s := Run(Init(size, minWorkers), steps); t in s.threads && s.threads[t].pc.Getting? && s.idle == {}
    ensures var s := Run(Init(size, minWorkers), steps);
            && (exists r :: r != t && Supplier(s, r))
            && CarefulRun(s, later) && (forall step :: step in later ==> OwnStep(step, t))
            && Run(s, later).idle != {} && t in Run(s, later).threads && Run(s, later).threads[t] == s.threads[t]
  {
    hide Run, CarefulRun, Invariant, NothingLeaked;
    var init := Init(size, minWorkers);
    InitSupplied(size, minWorkers);
    CarefulRunSupplied(init, steps);
    RunSize(init, steps);
    var s := Run(init, steps);
    var r: ThreadId :| Supplier(s, r);
    assert r != t;
    later := SupplyArrives(s, t, r);
  }

  lemma InitSupplied(size: nat, minWorkers: int)
    requires size >= 1
    ensures Invariant(Init(size, minWorkers)) && NothingLeaked(Init(size, minWorkers)) && Supplied(Init(size, minWorkers))
  {
    InitKept(size, minWorkers);
    assert 0 in Init(size, minWorkers).idle;
  }

  lemma {:induction false} RunSize(s: Pool, steps: seq<Step>)
    ensures Run(s, steps).size == s.size && Run(s, steps).minWorkers == s.minWorkers
    decreases |steps|
  {
    hide Next;
    if steps != [] {
      SizeStays(s, steps[0]);
      RunSize(Next(s, steps[0]), steps[1..]);
    }
  }
}
