/** Every interleaving keeps the client honest about what it has sent, and leaves no future behind at a loss. */
module ClientSteps {
  import opened Options
  import opened RemoteFutures
  import opened Client

  lemma StartKept()
    ensures Invariant(START)
  {
  }

  // ---------- what the small pieces leave alone ----------

  /** Only futures change, and the sets of requests. */
  ghost predicate FuturesOnly(s: Client, t: Client) {
    && t == s.(futures := t.futures, registered := t.registered, terminalReceived := t.terminalReceived)
    && |t.futures| == |s.futures| && t.registered <= s.registered && t.terminalReceived <= s.terminalReceived
  }

  /** A future may be decided, never undecided, and never looks unsent again. */
  ghost predicate FutureForward(f: Future, g: Future) {
    && (f.Done() ==> g.Done() && g.outcome == f.outcome && g.state == f.state)
    && (f.state != LocalPending ==> g.state != LocalPending)
  }

  ghost predicate Forward(s: Client, t: Client) {
    |s.futures| <= |t.futures| && forall id: RequestId :: id < |s.futures| ==> FutureForward(s.futures[id], t.futures[id])
  }

  lemma DecideForward(s: Client, id: RequestId, o: Outcome)
    ensures FuturesOnly(s, Decide(s, id, o)) && Forward(s, Decide(s, id, o))
    ensures id < |s.futures| ==> Fut(Decide(s, id, o), id).Done()
    ensures forall x: RequestId :: x != id ==> Fut(Decide(s, id, o), x) == Fut(s, x)
    ensures !Fut(s, id).Done() && id < |s.futures| ==> Fut(Decide(s, id, o), id).outcome == Some(o)
  {
  }

  lemma WithForward(s: Client, id: RequestId, f: Future)
    requires FutureForward(Fut(s, id), f)
    ensures FuturesOnly(s, With(s, id, f)) && Forward(s, With(s, id, f))
  {
  }

  lemma WorkForward(s: Client, w: Work)
    ensures FuturesOnly(s, WorkDone(s, w)) && Forward(s, WorkDone(s, w))
  {
    hide Decide, With;
    match w
    case Accept(id) => WithForward(s, id, Accepted(Fut(s, id)));
    case Run(id) => WithForward(s, id, NowRunning(Fut(s, id)));
    case Complete(id, o) => DecideForward(s, id, o);
    case Reject(id) => DecideForward(s, id, Error(Told));
    case Fail(id, c) => DecideForward(s, id, Error(c));
  }

  lemma StepForward(s: Client, step: Step)
    ensures Forward(s, Next(s, step))
  {
    hide Decide, WorkDone, With;
    match step
    case CancelLocal(id) => WithForward(s, id, CancelledLocally(Fut(s, id)));
    case BrokerCancelled(id) => DecideForward(s, id, CancelledOutcome);
    case Mark => if s.sender.Took? { WithForward(s, s.sender.id, Sent(Fut(s, s.sender.id))); }
    case Lane => if s.lane != [] { WorkForward(s.(lane := s.lane[1..]), s.lane[0]); }
    case _ =>
  }

  // ---------- ranges ----------

  lemma FuturesInRange(s: Client, t: Client)
    requires InRange(s) && FuturesOnly(s, t)
    ensures InRange(t)
  {
  }

  lemma PlainInRange(s: Client, step: Step)
    requires InRange(s) && (step.Register? || step.Enqueue? || step.Withdraw? || step.Take? || step.ReadSocket? || step.Write? || step.CloseSocket?)
    ensures InRange(Next(s, step))
  {
    assert s.outbound != [] ==> s.outbound[0] in s.outbound && forall id :: id in s.outbound[1..] ==> id in s.outbound;
  }

  lemma ReceiverInRange(s: Client, step: Step)
    requires InRange(s) && (step.Receive? || step.NoteTerminal? || step.Schedule? || step.Lose?)
    ensures InRange(Next(s, step))
  {
    hide Lists;
  }

  lemma StepInRange(s: Client, step: Step)
    requires InRange(s)
    ensures InRange(Next(s, step))
  {
    hide Decide, WorkDone, With, Lists, LossStepped;
    var t := Next(s, step);
    match step
    case CancelLocal(id) =>
      WithForward(s, id, CancelledLocally(Fut(s, id)));
      FuturesInRange(s, t);
    case BrokerCancelled(id) =>
      DecideForward(s, id, CancelledOutcome);
      FuturesInRange(s, t);
    case Mark => MarkInRange(s);
    case Lane => LaneInRange(s);
    case LossStep => LossInRange(s);
    case Receive(_) => ReceiverInRange(s, step);
    case NoteTerminal => ReceiverInRange(s, step);
    case Schedule => ReceiverInRange(s, step);
    case Lose(_) => ReceiverInRange(s, step);
    case _ => PlainInRange(s, step);
  }

  lemma MarkInRange(s: Client)
    requires InRange(s)
    ensures InRange(Next(s, Mark))
  {
    hide With;
    if s.sender.Took? {
      WithForward(s, s.sender.id, Sent(Fut(s, s.sender.id)));
      if !Fut(s, s.sender.id).Done() { FuturesInRange(s, With(s, s.sender.id, Sent(Fut(s, s.sender.id)))); }
    }
  }

  lemma LaneInRange(s: Client)
    requires InRange(s)
    ensures InRange(Next(s, Lane))
  {
    hide WorkDone;
    if s.lane != [] {
      var u := s.(lane := s.lane[1..]);
      assert forall w :: w in u.lane ==> w in s.lane;
      WorkForward(u, s.lane[0]);
      FuturesInRange(u, Next(s, Lane));
    }
  }

  lemma LossInRange(s: Client)
    requires InRange(s)
    ensures InRange(LossStepped(s))
  {
    var t := LossStepped(s);
    forall w | w in t.lane ensures w.Fail? || FromServer(w) {
      assert w in s.lane || w.Fail?;
    }
  }

  // ---------- honesty ----------

  /** The same sender, and no new conclusion that a request was never accepted. */
  lemma SameHonest(s: Client, t: Client)
    requires Honest(s) && Forward(s, t) && t.sender == s.sender && t.written == s.written && (t.socket ==> s.socket)
    requires forall id: RequestId :: Verdict(t, id, NotAccepted) ==> Verdict(s, id, NotAccepted)
    ensures Honest(t)
  {
    forall id: RequestId | MarkedSent(t, id) ensures id < |t.futures| && !NeverSent(t, id) {
      assert MarkedSent(s, id);
      assert FutureForward(s.futures[id], t.futures[id]);
    }
    forall id: RequestId | Verdict(t, id, NotAccepted) ensures !OnTheWire(t, id) && !t.socket {
      assert Verdict(s, id, NotAccepted) && (OnTheWire(t, id) ==> OnTheWire(s, id));
    }
  }

  lemma SenderHonest(s: Client, step: Step)
    requires InRange(s) && Honest(s) && (step.Take? || step.ReadSocket? || step.Write?)
    ensures Honest(Next(s, step))
  {
    hide InRange, Honest;
    var t := Next(s, step);
    forall id: RequestId
      ensures Fut(t, id) == Fut(s, id) && (Verdict(t, id, NotAccepted) ==> Verdict(s, id, NotAccepted))
      ensures (OnTheWire(t, id) ==> OnTheWire(s, id) || s.socket) && (MarkedSent(t, id) ==> MarkedSent(s, id))
    {
    }
    SenderMoved(s, t);
  }

  lemma SenderMoved(s: Client, t: Client)
    requires Honest(s) && |t.futures| == |s.futures| && t.socket == s.socket
    requires forall id: RequestId :: Fut(t, id) == Fut(s, id) && (Verdict(t, id, NotAccepted) ==> Verdict(s, id, NotAccepted))
    requires forall id: RequestId :: (OnTheWire(t, id) ==> OnTheWire(s, id) || s.socket) && (MarkedSent(t, id) ==> MarkedSent(s, id))
    ensures Honest(t)
  {
    hide Verdict, OnTheWire, MarkedSent;
  }

  lemma MarkHonest(s: Client)
    requires InRange(s) && Honest(s) && s.sender.Took?
    ensures Honest(Next(s, Mark))
  {
    hide InRange;
    var t, x := Next(s, Mark), s.sender.id;
    TookInRange(s);
    forall id: RequestId
      ensures Verdict(t, id, NotAccepted) ==> Verdict(s, id, NotAccepted)
      ensures OnTheWire(t, id) ==> OnTheWire(s, id)
      ensures id != x || Fut(s, x).Done() ==> Fut(t, id) == Fut(s, id) && (MarkedSent(t, id) ==> MarkedSent(s, id))
    {
    }
    if Fut(s, x).Done() { SenderMoved(s, t); } else { MarkTaken(s, t, x); }
  }

  lemma TookInRange(s: Client)
    requires InRange(s) && s.sender.Took?
    ensures s.sender.id < |s.futures|
  {
  }

  lemma MarkTaken(s: Client, t: Client, x: RequestId)
    requires Honest(s) && |t.futures| == |s.futures| && t.socket == s.socket && x < |s.futures|
    requires forall id: RequestId :: Verdict(t, id, NotAccepted) ==> Verdict(s, id, NotAccepted)
    requires forall id: RequestId :: OnTheWire(t, id) ==> OnTheWire(s, id)
    requires forall id: RequestId :: id != x ==> Fut(t, id) == Fut(s, id) && (MarkedSent(t, id) ==> MarkedSent(s, id))
    requires Fut(t, x).state != LocalPending
    ensures Honest(t)
  {
    hide Verdict, OnTheWire, MarkedSent;
  }

  lemma DecidedHonest(s: Client, t: Client, id: RequestId, o: Outcome)
    requires InRange(s) && Honest(s) && t == Decide(s, id, o)
    requires o != Error(NotAccepted) || Verdict(s, id, NotAccepted)
    ensures Honest(t)
  {
    hide Honest, MarkedSent, OnTheWire, NeverSent;
    DecideForward(s, id, o);
    hide Decide, Forward;
    forall x: RequestId | Verdict(t, x, NotAccepted) ensures Verdict(s, x, NotAccepted) {
      if x == id { assert Fut(s, id).Done() ==> t == s by { DecideAgain(s, id, o); } }
    }
    SameHonest(s, t);
  }

  lemma DecideAgain(s: Client, id: RequestId, o: Outcome)
    ensures Fut(s, id).Done() ==> Decide(s, id, o) == s
    ensures id >= |s.futures| ==> Decide(s, id, o) == s
  {
  }

  lemma LaneHonest(s: Client)
    requires InRange(s) && Honest(s)
    ensures Honest(Next(s, Lane))
  {
    hide Honest, MarkedSent, OnTheWire, NeverSent, Decide;
    if s.lane != [] {
      var w, u, t := s.lane[0], s.(lane := s.lane[1..]), Next(s, Lane);
      WorkForward(u, w);
      LaneOutcome(s);
      forall x: RequestId | Verdict(t, x, NotAccepted) ensures Verdict(s, x, NotAccepted) {
        assert Fail(x, NotAccepted) in s.lane[1..] ==> Fail(x, NotAccepted) in s.lane;
      }
      SameHonest(s, t);
    }
  }

  lemma LaneOutcome(s: Client)
    requires InRange(s) && s.lane != []
    ensures var w, t := s.lane[0], WorkDone(s.(lane := s.lane[1..]), s.lane[0]);
            && w in s.lane && forall x: RequestId :: Fut(t, x).outcome == Some(Error(NotAccepted)) ==>
                 Fut(s, x).outcome == Some(Error(NotAccepted)) || w == Fail(x, NotAccepted)
  {
    var w := s.lane[0];
    assert w in s.lane;
    assert w.Fail? || FromServer(w);
  }

  /** A request that looks unsent when the loss reads it has no bytes under way, and never will. */
  lemma LossHonest(s: Client)
    requires InRange(s) && Honest(s)
    ensures Honest(LossStepped(s))
  {
    var t := LossStepped(s);
    forall id: RequestId | Verdict(t, id, NotAccepted) ensures !OnTheWire(t, id) && !t.socket {
      if !Verdict(s, id, NotAccepted) {
        assert s.loss.Reading? && s.loss.todo[0] == id && NeverSent(s, id);
        assert !MarkedSent(s, id);
      }
    }
    assert forall id: RequestId :: MarkedSent(t, id) == MarkedSent(s, id) && NeverSent(t, id) == NeverSent(s, id);
  }

  lemma StepHonest(s: Client, step: Step)
    requires InRange(s) && Honest(s)
    ensures Honest(Next(s, step))
  {
    hide Honest, Decide, WorkDone, Lists, MarkedSent, OnTheWire, NeverSent, LossStepped;
    var t := Next(s, step);
    match step
    case Take => SenderHonest(s, step);
    case ReadSocket => SenderHonest(s, step);
    case Write => SenderHonest(s, step);
    case Mark => if s.sender.Took? { MarkHonest(s); }
    case Lane => LaneHonest(s);
    case LossStep => LossHonest(s);
    case BrokerCancelled(id) => DecidedHonest(s, t, id, CancelledOutcome);
    case _ =>
      StepForward(s, step);
      SameHonest(s, t);
  }

  // ---------- no future is left behind ----------

  lemma StillComing(s: Client, t: Client, id: RequestId)
    requires Coming(s, id) && Forward(s, t) && id < |s.futures|
    requires forall w :: w in s.lane ==> w in t.lane
    requires s.receiver.Receiving? ==> t.receiver == s.receiver || s.receiver.w in t.lane
    ensures Coming(t, id)
  {
    assert FutureForward(s.futures[id], t.futures[id]);
  }

  lemma SameCovered(s: Client, t: Client)
    requires Covered(s) && Forward(s, t) && t.snapshot == s.snapshot && t.terminalReceived <= s.terminalReceived
    requires (forall w :: w in s.lane <==> w in t.lane) && t.receiver == s.receiver && t.loss == s.loss
    ensures Covered(t)
  {
    forall id: RequestId | id < |s.futures| && Coming(s, id) ensures Coming(t, id) { StillComing(s, t, id); }
    assert forall id: RequestId :: Todo(t, id) == Todo(s, id);
  }

  lemma LaneCovered(s: Client)
    requires InRange(s) && Covered(s)
    ensures Covered(Next(s, Lane))
  {
    hide Decide;
    if s.lane != [] {
      var w, u, t := s.lane[0], s.(lane := s.lane[1..]), Next(s, Lane);
      assert w in s.lane && forall x :: x in s.lane[1..] ==> x in s.lane;
      assert s.lane == [w] + s.lane[1..];
      WorkForward(u, w);
      WorkDecides(u, w);
      hide WorkDone;
      forall id: RequestId | id < |s.futures| && Coming(s, id) ensures Coming(t, id) {
        assert FutureForward(s.futures[id], t.futures[id]);
        if w.id == id && (w.Fail? || w.Complete?) {
          assert Fut(t, id).Done();
        } else {
          assert forall x :: x in s.lane && x.id == id && (x.Fail? || x.Complete?) ==> x in t.lane;
        }
      }
      assert forall id: RequestId :: Todo(t, id) == Todo(s, id);
    }
  }

  lemma WorkDecides(s: Client, w: Work)
    requires w.id < |s.futures|
    ensures w.Fail? || w.Complete? ==> Fut(WorkDone(s, w), w.id).Done()
  {
  }

  lemma LossCovered(s: Client)
    requires InRange(s) && Covered(s)
    ensures Covered(LossStepped(s))
  {
    var t := LossStepped(s);
    if !s.loss.NotLost? && s.loss.todo != [] {
      var x := s.loss.todo[0];
      assert x in s.loss.todo && forall id :: id in s.loss.todo[1..] ==> id in s.loss.todo;
      assert s.loss.todo == [x] + s.loss.todo[1..];
      assert Todo(s, x);
      forall id: RequestId | id < |s.futures| && Coming(s, id) ensures Coming(t, id) { StillComing(s, t, id); }
      if s.loss.Scheduling? {
        assert Fail(x, s.loss.c) in t.lane;
        assert Coming(t, x);
      }
      forall id: RequestId | id in t.snapshot ensures Todo(t, id) || Coming(t, id) {
        assert Todo(s, id) && id != x ==> Todo(t, id);
      }
    }
  }

  lemma ReceiverCovered(s: Client, step: Step)
    requires InRange(s) && Covered(s) && (step.NoteTerminal? || step.Schedule? || step.Receive?)
    ensures Covered(Next(s, step))
  {
    var t := Next(s, step);
    if step.Schedule? && s.receiver.Receiving? {
      assert s.receiver.w in t.lane;
      forall w | w in t.lane ensures w.id < |t.futures| { assert w in s.lane || w == s.receiver.w; }
    }
    forall id: RequestId | id < |s.futures| && Coming(s, id) ensures Coming(t, id) { StillComing(s, t, id); }
    assert forall id: RequestId :: Todo(t, id) == Todo(s, id);
  }

  lemma LoseCovered(s: Client, order: seq<RequestId>)
    requires InRange(s) && Covered(s)
    ensures Covered(Next(s, Lose(order)))
  {
    var t := Next(s, Lose(order));
    if t != s {
      forall id: RequestId | id < |s.futures| && Coming(s, id) ensures Coming(t, id) { StillComing(s, t, id); }
    }
  }

  lemma StepCovered(s: Client, step: Step)
    requires InRange(s) && Covered(s)
    ensures Covered(Next(s, step))
  {
    hide Covered, Decide, WorkDone, Lists, LossStepped, InRange;
    var t := Next(s, step);
    match step
    case Lane => LaneCovered(s);
    case LossStep => LossCovered(s);
    case Receive(_) => ReceiverCovered(s, step);
    case NoteTerminal => ReceiverCovered(s, step);
    case Schedule => ReceiverCovered(s, step);
    case Lose(order) => LoseCovered(s, order);
    case BrokerCancelled(id) =>
      DecideForward(s, id, CancelledOutcome);
      SameCovered(s, t);
    case _ =>
      StepForward(s, step);
      SameCovered(s, t);
  }

  lemma StepKeepsClient(s: Client, step: Step)
    requires Invariant(s)
    ensures Invariant(Next(s, step)) && Forward(s, Next(s, step))
  {
    hide InRange, Honest, Covered, Next, Forward;
    StepInRange(s, step);
    StepHonest(s, step);
    StepCovered(s, step);
    StepForward(s, step);
  }

  lemma {:induction false} RunKeepsClient(s: Client, steps: seq<Step>)
    requires Invariant(s)
    ensures Invariant(After(s, steps)) && Forward(s, After(s, steps))
    decreases |steps|
  {
    hide Invariant, Next, Forward;
    ForwardSelf(s);
    if steps != [] {
      StepKeepsClient(s, steps[0]);
      RunKeepsClient(Next(s, steps[0]), steps[1..]);
      ForwardTransitive(s, Next(s, steps[0]), After(s, steps));
    }
  }

  lemma ForwardSelf(s: Client)
    ensures Forward(s, s)
  {
  }

  lemma ForwardTransitive(s: Client, t: Client, u: Client)
    requires Forward(s, t) && Forward(t, u)
    ensures Forward(s, u)
  {
    forall id: RequestId | id < |s.futures| ensures FutureForward(s.futures[id], u.futures[id]) {
      assert FutureForward(s.futures[id], t.futures[id]) && FutureForward(t.futures[id], u.futures[id]);
    }
  }

  // ---------- what the application may conclude ----------

  /** A future that fails as not accepted because it was still local at the loss was never written, and never will be. */
  lemma NotAcceptedNeverWritten(steps: seq<Step>, later: seq<Step>, id: RequestId)
    requires Fut(After(START, steps), id).outcome == Some(Error(NotAccepted))
    ensures id !in After(After(START, steps), later).written
  {
    hide InRange, Covered, After;
    StartKept();
    RunKeepsClient(START, steps);
    var s := After(START, steps);
    RunKeepsClient(s, later);
    var t := After(s, later);
    assert FutureForward(s.futures[id], t.futures[id]);
    assert Verdict(t, id, NotAccepted);
    assert !OnTheWire(t, id);
  }

  /** A decided request the sender has not marked is never marked. */
  lemma DecidedUnmarkedStep(s: Client, step: Step, id: RequestId)
    requires InRange(s) && id < |s.futures| && Fut(s, id).Done() && !MarkedSent(s, id)
    ensures !MarkedSent(Next(s, step), id)
  {
    hide Decide, WorkDone, Lists, LossStepped, InRange;
    match step
    case Lane => if s.lane != [] { WorkForward(s.(lane := s.lane[1..]), s.lane[0]); }
    case LossStep => LossSender(s);
    case BrokerCancelled(x) => DecideForward(s, x, CancelledOutcome);
    case _ =>
  }

  lemma LossSender(s: Client)
    ensures LossStepped(s).sender == s.sender && LossStepped(s).written == s.written
  {
  }

  lemma {:induction false} DecidedUnmarked(s: Client, steps: seq<Step>, id: RequestId)
    requires Invariant(s) && id < |s.futures| && Fut(s, id).Done() && !MarkedSent(s, id)
    ensures id !in After(s, steps).written
    decreases |steps|
  {
    if steps != [] {
      hide Invariant, Next, Honest, Covered, InRange;
      StepKeepsClient(s, steps[0]);
      var t := Next(s, steps[0]);
      assert InRange(s) by { RangeOf(s); }
      DecidedUnmarkedStep(s, steps[0], id);
      assert FutureForward(s.futures[id], t.futures[id]);
      DecidedUnmarked(t, steps[1..], id);
    }
  }

  lemma RangeOf(s: Client)
    requires Invariant(s)
    ensures InRange(s)
  {
  }

  /** When `cancel` decides locally and says so, no byte of the request is ever written. */
  lemma LocalCancelNeverWritten(steps: seq<Step>, later: seq<Step>, id: RequestId)
    requires var f := Fut(After(START, steps), id);
             id < |After(START, steps).futures| && !f.Done() && f.state == LocalPending
    ensures var s := Next(After(START, steps), CancelLocal(id));
            Fut(s, id).outcome == Some(CancelledOutcome) && id !in After(s, later).written
  {
    hide InRange, Covered, After;
    StartKept();
    RunKeepsClient(START, steps);
    var s := After(START, steps);
    assert NeverSent(s, id);
    assert !MarkedSent(s, id);
    var t := Next(s, CancelLocal(id));
    StepKeepsClient(s, CancelLocal(id));
    DecidedUnmarked(t, later, id);
  }

  /** When the loss has been worked off, every future that was registered at it is decided. */
  lemma NobodyWaitsAfterLoss(steps: seq<Step>, id: RequestId)
    requires var s := After(START, steps);
             s.loss == Checking([]) && s.lane == [] && s.receiver == Listening && id in s.snapshot
    ensures Fut(After(START, steps), id).Done()
  {
    hide InRange, Honest, After;
    StartKept();
    RunKeepsClient(START, steps);
    var s := After(START, steps);
    assert !Todo(s, id);
    assert Coming(s, id);
  }
}
