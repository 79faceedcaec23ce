/** In which order the client sends and works off, which requests it keeps, and that a result that arrived is never given up. */
module ClientOrder {
  import opened Options
  import opened RemoteFutures
  import opened Client
  import opened ClientSteps

  // ---------- first in, first out ----------

  ghost function EnqueuedBy(s: Client, step: Step): seq<RequestId> {
    if step.Enqueue? && step.id < |s.futures| then [step.id] else []
  }

  ghost function TakenBy(s: Client, step: Step): seq<RequestId> {
    if step == Take && s.sender == Waiting && s.outbound != [] && Next(s, step).sender.Took? then [Next(s, step).sender.id] else []
  }

  ghost function Enqueued(s: Client, steps: seq<Step>): seq<RequestId>
    decreases |steps|
  {
    if steps == [] then [] else EnqueuedBy(s, steps[0]) + Enqueued(Next(s, steps[0]), steps[1..])
  }

  ghost function Taken(s: Client, steps: seq<Step>): seq<RequestId>
    decreases |steps|
  {
    if steps == [] then [] else TakenBy(s, steps[0]) + Taken(Next(s, steps[0]), steps[1..])
  }

  lemma OneInOut(s: Client, step: Step)
    ensures s.outbound + EnqueuedBy(s, step) == TakenBy(s, step) + Next(s, step).outbound
  {
    match step
    case Lane => if s.lane != [] { assert WorkDone(s.(lane := s.lane[1..]), s.lane[0]).outbound == s.outbound; }
    case Mark => assert Next(s, step).outbound == s.outbound;
    case Take => assert s.outbound != [] ==> s.outbound == [s.outbound[0]] + s.outbound[1..];
    case _ =>
  }

  /** The sender takes requests exactly in the order they were enqueued, over any run. */
  lemma {:induction false} SentInOrder(s: Client, steps: seq<Step>)
    ensures s.outbound + Enqueued(s, steps) == Taken(s, steps) + After(s, steps).outbound
    decreases |steps|
  {
    hide Next, EnqueuedBy, TakenBy;
    if steps == [] {
      assert s.outbound + [] == [] + s.outbound;
    } else {
      var t := Next(s, steps[0]);
      OneInOut(s, steps[0]);
      SentInOrder(t, steps[1..]);
      var a, b := EnqueuedBy(s, steps[0]), TakenBy(s, steps[0]);
      assert s.outbound + (a + Enqueued(t, steps[1..])) == (s.outbound + a) + Enqueued(t, steps[1..]);
      assert (b + t.outbound) + Enqueued(t, steps[1..]) == b + (t.outbound + Enqueued(t, steps[1..]));
      assert b + (Taken(t, steps[1..]) + After(s, steps).outbound) == (b + Taken(t, steps[1..])) + After(s, steps).outbound;
    }
  }

  /** What the receiver hands over, and what a loss concludes. */
  ghost function HandedBy(s: Client, step: Step): seq<Work> {
    if step == Schedule && s.receiver.Receiving? then [s.receiver.w]
    else if step == LossStep && s.loss.Scheduling? && s.loss.todo != [] then [Fail(s.loss.todo[0], s.loss.c)]
    else []
  }

  ghost function WorkedBy(s: Client, step: Step): seq<Work> {
    if step == Lane && s.lane != [] then [s.lane[0]] else []
  }

  ghost function Handed(s: Client, steps: seq<Step>): seq<Work>
    decreases |steps|
  {
    if steps == [] then [] else HandedBy(s, steps[0]) + Handed(Next(s, steps[0]), steps[1..])
  }

  ghost function WorkedOff(s: Client, steps: seq<Step>): seq<Work>
    decreases |steps|
  {
    if steps == [] then [] else WorkedBy(s, steps[0]) + WorkedOff(Next(s, steps[0]), steps[1..])
  }

  lemma OneWorked(s: Client, step: Step)
    ensures s.lane + HandedBy(s, step) == WorkedBy(s, step) + Next(s, step).lane
  {
    match step
    case Lane =>
      if s.lane != [] {
        assert WorkDone(s.(lane := s.lane[1..]), s.lane[0]).lane == s.lane[1..];
        assert s.lane == [s.lane[0]] + s.lane[1..];
      }
    case Mark => assert Next(s, step).lane == s.lane;
    case _ =>
  }

  /** The lane works off what it is handed, in that order and each once, over any run. */
  lemma {:induction false} WorkedInOrder(s: Client, steps: seq<Step>)
    ensures s.lane + Handed(s, steps) == WorkedOff(s, steps) + After(s, steps).lane
    decreases |steps|
  {
    hide Next, HandedBy, WorkedBy;
    if steps == [] {
      assert s.lane + [] == [] + s.lane;
    } else {
      var t := Next(s, steps[0]);
      OneWorked(s, steps[0]);
      WorkedInOrder(t, steps[1..]);
      var a, b := HandedBy(s, steps[0]), WorkedBy(s, steps[0]);
      assert s.lane + (a + Handed(t, steps[1..])) == (s.lane + a) + Handed(t, steps[1..]);
      assert (b + t.lane) + Handed(t, steps[1..]) == b + (t.lane + Handed(t, steps[1..]));
      assert b + (WorkedOff(t, steps[1..]) + After(s, steps).lane) == (b + WorkedOff(t, steps[1..])) + After(s, steps).lane;
    }
  }

  // ---------- which requests are kept ----------

  /** The submission was withdrawn, the lane settled it, or the sender found it decided. */
  ghost predicate Forgets(s: Client, step: Step, id: RequestId) {
    || step == Withdraw(id)
    || (step == Lane && s.lane != [] && s.lane[0].id == id && (s.lane[0].Complete? || s.lane[0].Reject? || s.lane[0].Fail?))
    || (step == Mark && s.sender == Took(id) && id < |s.futures| && s.futures[id].outcome.Some?)
  }

  /** A request is kept from its registration, which a lost connection refuses, until it is settled; no other step changes that. */
  lemma KeptExactlyWhile(s: Client, step: Step, id: RequestId)
    requires InRange(s)
    ensures id in Next(s, step).registered <==>
              || (id in s.registered && !Forgets(s, step, id))
              || (step == Register && !s.failed && s.socket && id == |s.futures|)
  {
    match step
    case Lane => if s.lane != [] { WorkKeeps(s.(lane := s.lane[1..]), s.lane[0], id); }
    case Mark => assert s.sender.Took? ==> Fut(s, s.sender.id) == s.futures[s.sender.id];
    case BrokerCancelled(x) => assert Next(s, step).registered == s.registered;
    case CancelLocal(x) => assert Next(s, step).registered == s.registered;
    case _ =>
  }

  lemma WorkKeeps(s: Client, w: Work, id: RequestId)
    ensures id in WorkDone(s, w).registered <==> id in s.registered && !(w.id == id && (w.Complete? || w.Reject? || w.Fail?))
  {
  }

  // ---------- a result that arrived ----------

  /** The result is here or was here first, and no failure of this request has been concluded, is under way or has reached it. */
  ghost predicate Arrived(s: Client, id: RequestId) {
    && id < |s.futures|
    && (s.futures[id].Done() || id in s.terminalReceived)
    && (forall w :: w in s.lane ==> !ConcludedFor(w, id))
    && (s.futures[id].Done() ==> s.futures[id].outcome.value.Error? ==> s.futures[id].outcome.value.certainty == Certainty.Told)
    && ((s.loss.Reading? || s.loss.Scheduling?) && s.loss.todo != [] ==> s.loss.todo[0] != id)
  }

  predicate ConcludedFor(w: Work, id: RequestId) {
    w.Fail? && w.id == id && w.c != Certainty.Told
  }

  lemma ArrivedWork(s: Client, id: RequestId)
    requires InRange(s) && s.lane != [] && Arrived(s, id)
    ensures Arrived(WorkDone(s.(lane := s.lane[1..]), s.lane[0]), id)
  {
    var w := s.lane[0];
    assert w in s.lane && !ConcludedFor(w, id) && (w.Fail? || FromServer(w));
    assert forall x :: x in s.lane[1..] ==> x in s.lane;
    WorkedFor(s.(lane := s.lane[1..]), w, id);
  }

  lemma WorkedFor(s: Client, w: Work, id: RequestId)
    requires id < |s.futures| && !ConcludedFor(w, id) && (w.Fail? || FromServer(w))
    ensures var t := WorkDone(s, w);
            && |t.futures| == |s.futures| && t.lane == s.lane && t.loss == s.loss
            && (s.futures[id].Done() ==> t.futures[id] == s.futures[id])
            && (id in s.terminalReceived ==> t.futures[id].Done() || id in t.terminalReceived)
            && (!s.futures[id].Done() && t.futures[id].Done() && t.futures[id].outcome.value.Error? ==>
                  t.futures[id].outcome.value.certainty == Certainty.Told)
  {
  }

  lemma ArrivedLoss(s: Client, id: RequestId)
    requires Arrived(s, id)
    ensures Arrived(LossStepped(s), id)
  {
    assert id < |s.futures| ==> Fut(s, id) == s.futures[id];
  }

  lemma ArrivedReceiver(s: Client, step: Step, id: RequestId)
    requires InRange(s) && Arrived(s, id) && (step.Receive? || step.NoteTerminal? || step.Schedule?)
    ensures Arrived(Next(s, step), id)
  {
  }

  lemma ArrivedStep(s: Client, step: Step, id: RequestId)
    requires InRange(s) && Arrived(s, id)
    ensures Arrived(Next(s, step), id)
  {
    hide InRange, LossStepped, WorkDone;
    match step
    case Lane => if s.lane != [] { ArrivedWork(s, id); }
    case LossStep => ArrivedLoss(s, id);
    case Receive(_) => ArrivedReceiver(s, step, id);
    case NoteTerminal => ArrivedReceiver(s, step, id);
    case Schedule => ArrivedReceiver(s, step, id);
    case _ =>
  }

  lemma {:induction false} ArrivedForGood(s: Client, steps: seq<Step>, id: RequestId)
    requires Invariant(s) && Arrived(s, id)
    ensures Arrived(After(s, steps), id)
    decreases |steps|
  {
    hide InRange, Honest, Covered, Next, Arrived, Forward;
    if steps != [] {
      ArrivedStep(s, steps[0], id);
      StepKeepsClient(s, steps[0]);
      ArrivedForGood(Next(s, steps[0]), steps[1..], id);
    }
  }

  /** A result received before the loss looks at its future is never given up for lost, in any later run. */
  lemma ReceivedResultStands(s: Client, steps: seq<Step>, id: RequestId)
    requires Invariant(s) && id in s.terminalReceived && !Fut(s, id).Done()
    requires (s.loss.Reading? || s.loss.Scheduling? ==> s.loss.todo[0] != id) && forall w :: w in s.lane ==> !(w.Fail? && w.id == id)
    ensures forall c :: c != Certainty.Told ==> Fut(After(s, steps), id).outcome != Some(Error(c))
    ensures forall c :: c != Certainty.Told ==> Fail(id, c) !in After(s, steps).lane
  {
    hide After, Honest;
    ArrivedForGood(s, steps, id);
    assert forall c :: c != Certainty.Told ==> ConcludedFor(Fail(id, c), id);
  }
}
