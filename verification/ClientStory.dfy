/** What the application is told, against the history of what was sent, received and cancelled. */
module ClientStory {
  import opened Options
  import opened RemoteFutures
  import opened Client
  import opened ClientSteps

  /** The steps that concern a future: marked sent, work of the lane done, cancelled here or on the broker's answer, and what a loss concluded. */
  datatype Event =
    | SentOff(id: RequestId) | Worked(w: Work) | CancelledHere(id: RequestId) | CancelledThere(id: RequestId)
    | Concluded(id: RequestId, c: Certainty)

  ghost function EventOf(s: Client, step: Step): seq<Event> {
    match step
    case Mark => if s.sender.Took? && !Fut(s, s.sender.id).Done() then [SentOff(s.sender.id)] else []
    case Lane => if s.lane != [] then [Worked(s.lane[0])] else []
    case CancelLocal(id) => if id < |s.futures| && !Fut(s, id).Done() && Fut(s, id).state == LocalPending then [CancelledHere(id)] else []
    case BrokerCancelled(id) => if id < |s.futures| && !Fut(s, id).Done() then [CancelledThere(id)] else []
    case LossStep =>
      if s.loss.Reading? && s.loss.todo != [] && Next(s, step).loss.Scheduling? then [Concluded(s.loss.todo[0], Next(s, step).loss.c)] else []
    case _ => []
  }

  ghost function LogOf(s: Client, steps: seq<Step>): seq<Event>
    decreases |steps|
  {
    if steps == [] then [] else EventOf(s, steps[0]) + LogOf(Next(s, steps[0]), steps[1..])
  }

  // ---------- what a history says of a future ----------

  /** The request was marked, or the client worked off that the broker accepted or runs it. */
  predicate Progress(e: Event, id: RequestId) {
    e == SentOff(id) || Acknowledged(e, id)
  }

  predicate Acknowledged(e: Event, id: RequestId) {
    e == Worked(Accept(id)) || e == Worked(Run(id))
  }

  /** Decides the future, if it is the first to. */
  predicate Decides(e: Event, id: RequestId) {
    match e
    case Worked(Complete(x, _)) => x == id
    case Worked(Reject(x)) => x == id
    case Worked(Fail(x, _)) => x == id
    case CancelledHere(x) => x == id
    case CancelledThere(x) => x == id
    case _ => false
  }

  function OutcomeBy(e: Event): Outcome {
    match e
    case Worked(Complete(_, o)) => o
    case Worked(Fail(_, c)) => Error(c)
    case CancelledHere(_) => CancelledOutcome
    case CancelledThere(_) => CancelledOutcome
    case _ => Error(Certainty.Told)
  }

  ghost predicate Undecided(log: seq<Event>, id: RequestId) {
    forall i :: 0 <= i < |log| ==> !Decides(log[i], id)
  }

  ghost predicate Unsent(log: seq<Event>, id: RequestId) {
    forall i :: 0 <= i < |log| ==> !Progress(log[i], id)
  }

  /** The latest progress of the request is event `k`. */
  ghost predicate Latest(log: seq<Event>, id: RequestId, k: nat) {
    k < |log| && Progress(log[k], id) && forall i :: k < i < |log| ==> !Progress(log[i], id)
  }

  ghost predicate FirstDecision(log: seq<Event>, id: RequestId, k: nat) {
    k < |log| && Decides(log[k], id) && forall i :: 0 <= i < k ==> !Decides(log[i], id)
  }

  /** Marked, and nothing heard of since. */
  ghost predicate Unanswered(log: seq<Event>, id: RequestId) {
    exists k: nat :: Latest(log, id, k) && log[k] == SentOff(id)
  }

  ghost predicate Heard(log: seq<Event>, id: RequestId) {
    exists k: nat :: Latest(log, id, k) && Acknowledged(log[k], id)
  }

  // ---------- one more event ----------

  lemma Longer(log: seq<Event>, e: Event, id: RequestId)
    ensures Undecided(log + [e], id) <==> Undecided(log, id) && !Decides(e, id)
    ensures Unsent(log + [e], id) <==> Unsent(log, id) && !Progress(e, id)
    ensures Unanswered(log + [e], id) <==> e == SentOff(id) || (!Progress(e, id) && Unanswered(log, id))
    ensures Heard(log + [e], id) <==> Acknowledged(e, id) || (!Progress(e, id) && Heard(log, id))
  {
    var n := |log|;
    var more := log + [e];
    assert more[n] == e && forall i :: 0 <= i < n ==> more[i] == log[i];
    if Progress(e, id) {
      assert Latest(more, id, n);
      assert forall k :: Latest(more, id, k) ==> k == n;
    } else {
      forall k: nat ensures Latest(more, id, k) <==> Latest(log, id, k) {
        LatestKept(log, e, id, k);
      }
    }
  }

  lemma LatestKept(log: seq<Event>, e: Event, id: RequestId, k: nat)
    requires !Progress(e, id)
    ensures Latest(log + [e], id, k) <==> Latest(log, id, k)
  {
    var more := log + [e];
    assert more[|log|] == e && forall i :: 0 <= i < |log| ==> more[i] == log[i];
  }

  lemma FirstLonger(log: seq<Event>, e: Event, id: RequestId, k: nat)
    ensures FirstDecision(log + [e], id, k) <==> FirstDecision(log, id, k) || (k == |log| && Undecided(log, id) && Decides(e, id))
  {
    var more := log + [e];
    assert more[|log|] == e && forall i :: 0 <= i < |log| ==> more[i] == log[i];
  }

  // ---------- the client and its history ----------

  /** The future is as the history says. */
  ghost predicate AsTold(f: Future, log: seq<Event>, id: RequestId) {
    && (f.Done() <==> !Undecided(log, id))
    && (f.state == LocalPending <==> Undecided(log, id) && Unsent(log, id))
    && (f.state == SentUnacknowledged <==> Undecided(log, id) && Unanswered(log, id))
    && (f.state == AcceptedQueued || f.state == SubmissionState.Running <==> Undecided(log, id) && Heard(log, id))
    && (forall k: nat :: FirstDecision(log, id, k) ==> f.outcome == Some(OutcomeBy(log[k])))
  }

  ghost predicate Tells(s: Client, log: seq<Event>) {
    && (forall id: RequestId :: id < |s.futures| ==> AsTold(s.futures[id], log, id))
    && (forall id: RequestId :: id >= |s.futures| ==> Undecided(log, id) && Unsent(log, id))
    && (forall id, c :: Fail(id, c) in s.lane ==> Concluded(id, c) in log)
    && (s.loss.Scheduling? && s.loss.todo != [] ==> Concluded(s.loss.todo[0], s.loss.c) in log)
  }

  lemma StartTold()
    ensures Tells(START, [])
  {
  }

  /** Nothing happened to a future: it and the history say the same as before. */
  lemma Unchanged(s: Client, t: Client, log: seq<Event>)
    requires Tells(s, log) && |t.futures| == |s.futures| && (forall id: RequestId :: id < |s.futures| ==> t.futures[id] == s.futures[id])
    requires forall w :: w in t.lane && w.Fail? ==> w in s.lane
    requires t.loss.Scheduling? && t.loss.todo != [] ==> t.loss == s.loss
    ensures Tells(t, log)
  {
    hide AsTold;
  }

  /** One event for one future. */
  lemma OneTold(s: Client, t: Client, log: seq<Event>, e: Event, id: RequestId)
    requires Tells(s, log) && |t.futures| == |s.futures| && id < |s.futures|
    requires forall x: RequestId :: x < |s.futures| && x != id ==> t.futures[x] == s.futures[x]
    requires forall x: RequestId :: x != id ==> !Progress(e, x) && !Decides(e, x)
    requires AsTold(t.futures[id], log + [e], id)
    requires forall w :: w in t.lane && w.Fail? ==> w in s.lane
    requires t.loss.Scheduling? && t.loss.todo != [] ==> t.loss == s.loss
    ensures Tells(t, log + [e])
  {
    hide AsTold, Progress, Decides, Undecided, Unsent;
    forall x: RequestId | x != id ensures (x < |s.futures| ==> AsTold(t.futures[x], log + [e], x)) && (x >= |s.futures| ==> Undecided(log + [e], x) && Unsent(log + [e], x)) {
      Longer(log, e, x);
      if x < |s.futures| { SameTold(s.futures[x], log, e, x); }
    }
  }

  lemma SameTold(f: Future, log: seq<Event>, e: Event, id: RequestId)
    requires AsTold(f, log, id) && !Progress(e, id) && !Decides(e, id)
    ensures AsTold(f, log + [e], id)
  {
    hide Undecided, Unsent, Unanswered, Heard, Decides;
    Longer(log, e, id);
    assert e != SentOff(id) && !Acknowledged(e, id);
    forall k: nat | FirstDecision(log + [e], id, k) ensures f.outcome == Some(OutcomeBy((log + [e])[k])) {
      FirstLonger(log, e, id, k);
      assert (log + [e])[k] == log[k] by { FirstWithin(log, id, k); }
    }
  }

  lemma FirstWithin(log: seq<Event>, id: RequestId, k: nat)
    requires FirstDecision(log, id, k)
    ensures k < |log| && !Undecided(log, id)
  {
  }

  /** The first decision stands; it came with this outcome. */
  lemma DecidedTold(f: Future, g: Future, log: seq<Event>, e: Event, id: RequestId)
    requires AsTold(f, log, id) && Decides(e, id)
    requires if f.Done() then g == f
             else g.outcome == Some(OutcomeBy(e)) && g.state !in {LocalPending, SentUnacknowledged, AcceptedQueued, SubmissionState.Running}
    ensures AsTold(g, log + [e], id)
  {
    hide Unsent, Unanswered, Heard;
    Longer(log, e, id);
    forall k: nat | FirstDecision(log + [e], id, k) ensures g.outcome == Some(OutcomeBy((log + [e])[k])) {
      FirstLonger(log, e, id, k);
    }
  }

  /** Progress of an undecided request shows in its state; a decided one keeps its own. */
  lemma ProgressTold(f: Future, g: Future, log: seq<Event>, e: Event, id: RequestId)
    requires AsTold(f, log, id) && Progress(e, id)
    requires if f.Done() then g == f
             else g.outcome == None && if e == SentOff(id) then g.state == SentUnacknowledged else g.state in {AcceptedQueued, SubmissionState.Running}
    ensures AsTold(g, log + [e], id)
  {
    hide Unsent, Unanswered, Heard;
    Longer(log, e, id);
    forall k: nat | FirstDecision(log + [e], id, k) ensures g.outcome == Some(OutcomeBy((log + [e])[k])) {
      FirstLonger(log, e, id, k);
    }
  }

  lemma MarkTold(s: Client, log: seq<Event>)
    requires Tells(s, log) && InRange(s)
    ensures Tells(Next(s, Mark), log + EventOf(s, Mark))
  {
    hide AsTold;
    var t := Next(s, Mark);
    if s.sender.Took? && !Fut(s, s.sender.id).Done() {
      var id := s.sender.id;
      ProgressTold(s.futures[id], t.futures[id], log, SentOff(id), id);
      OneTold(s, t, log, SentOff(id), id);
    } else {
      Unchanged(s, t, log);
      assert log + [] == log;
    }
  }

  lemma WorkTold(s: Client, log: seq<Event>)
    requires Tells(s, log) && InRange(s) && Covered(s)
    ensures Tells(Next(s, Lane), log + EventOf(s, Lane))
  {
    hide AsTold, InRange, Covered;
    var t := Next(s, Lane);
    if s.lane == [] {
      assert log + [] == log;
    } else {
      var w, u := s.lane[0], s.(lane := s.lane[1..]);
      LaneHead(s);
      WorkedFuture(u, w);
      hide WorkDone;
      var id := w.id;
      if w.Accept? || w.Run? {
        ProgressTold(s.futures[id], t.futures[id], log, Worked(w), id);
      } else {
        DecidedTold(s.futures[id], t.futures[id], log, Worked(w), id);
      }
      OneTold(s, t, log, Worked(w), id);
    }
  }

  lemma LaneHead(s: Client)
    requires Covered(s) && s.lane != []
    ensures s.lane[0].id < |s.futures| && s.lane[0] in s.lane && forall w :: w in s.lane[1..] ==> w in s.lane
  {
  }

  lemma WorkedFuture(s: Client, w: Work)
    requires w.id < |s.futures|
    ensures var t := WorkDone(s, w);
            && |t.futures| == |s.futures| && (forall x: RequestId :: x < |s.futures| && x != w.id ==> t.futures[x] == s.futures[x])
            && t.lane == s.lane && t.loss == s.loss
            && if s.futures[w.id].Done() then t.futures[w.id] == s.futures[w.id]
               else if w.Accept? || w.Run?
               then t.futures[w.id].outcome == None && t.futures[w.id].state in {AcceptedQueued, SubmissionState.Running}
               else t.futures[w.id].outcome == Some(OutcomeBy(Worked(w)))
                    && t.futures[w.id].state !in {LocalPending, SentUnacknowledged, AcceptedQueued, SubmissionState.Running}
  {
  }

  lemma CancelTold(s: Client, log: seq<Event>, step: Step)
    requires Tells(s, log) && (step.CancelLocal? || step.BrokerCancelled?)
    ensures Tells(Next(s, step), log + EventOf(s, step))
  {
    hide AsTold;
    var t, id := Next(s, step), step.id;
    if EventOf(s, step) != [] {
      var e := EventOf(s, step)[0];
      DecidedTold(s.futures[id], t.futures[id], log, e, id);
      OneTold(s, t, log, e, id);
    } else {
      Unchanged(s, t, log);
      assert log + [] == log;
    }
  }

  lemma LossTold(s: Client, log: seq<Event>)
    requires Tells(s, log) && InRange(s)
    ensures Tells(Next(s, LossStep), log + EventOf(s, LossStep))
  {
    hide AsTold, InRange;
    var t := Next(s, LossStep);
    if EventOf(s, LossStep) != [] {
      var e := EventOf(s, LossStep)[0];
      ConcludedTold(s, s.(loss := NotLost), log, e);
      assert (log + [e])[|log|] == e;
    } else {
      assert log + [] == log;
    }
  }

  /** A conclusion changes no future. */
  lemma ConcludedTold(s: Client, t: Client, log: seq<Event>, e: Event)
    requires Tells(s, log) && e.Concluded? && t.futures == s.futures && t.lane == s.lane && t.loss == NotLost
    ensures Tells(t, log + [e])
  {
    hide AsTold, Undecided, Unsent;
    forall x: RequestId ensures (x < |s.futures| ==> AsTold(t.futures[x], log + [e], x)) && (x >= |s.futures| ==> Undecided(log + [e], x) && Unsent(log + [e], x)) {
      Longer(log, e, x);
      if x < |s.futures| { SameTold(s.futures[x], log, e, x); }
    }
  }

  lemma RegisterTold(s: Client, log: seq<Event>)
    requires Tells(s, log)
    ensures Tells(Next(s, Register), log)
  {
    var t := Next(s, Register);
    if t != s {
      hide Latest, FirstDecision, Undecided, Unsent;
      NewTold(log, |s.futures|);
    }
  }

  lemma NewTold(log: seq<Event>, id: RequestId)
    requires Undecided(log, id) && Unsent(log, id)
    ensures AsTold(NEW, log, id)
  {
    Stages(log, id);
    forall k: nat ensures !FirstDecision(log, id, k) { if FirstDecision(log, id, k) { FirstWithin(log, id, k); } }
  }

  lemma StepTold(s: Client, step: Step, log: seq<Event>)
    requires Tells(s, log) && Invariant(s)
    ensures Tells(Next(s, step), log + EventOf(s, step))
  {
    hide Tells, Honest, Lists, With, Decide, WorkDone, LossStepped;
    match step
    case Mark => MarkTold(s, log);
    case Lane => WorkTold(s, log);
    case CancelLocal(_) => CancelTold(s, log, step);
    case BrokerCancelled(_) => CancelTold(s, log, step);
    case LossStep => LossTold(s, log);
    case Register => RegisterTold(s, log); assert log + [] == log;
    case _ => OtherTold(s, step, log);
  }

  lemma OtherTold(s: Client, step: Step, log: seq<Event>)
    requires Tells(s, log) && InRange(s)
    requires !step.Mark? && !step.Lane? && !step.CancelLocal? && !step.BrokerCancelled? && !step.LossStep? && !step.Register?
    ensures Tells(Next(s, step), log + EventOf(s, step))
  {
    hide Tells, Lists;
    assert log + [] == log;
    Unchanged(s, Next(s, step), log);
  }

  lemma {:induction false} RunTold(s: Client, steps: seq<Step>, log: seq<Event>)
    requires Tells(s, log) && Invariant(s)
    ensures Tells(After(s, steps), log + LogOf(s, steps))
    decreases |steps|
  {
    hide Tells, Invariant, Next, EventOf;
    if steps == [] {
      assert log + [] == log;
    } else {
      StepTold(s, steps[0], log);
      StepKeepsClient(s, steps[0]);
      RunTold(Next(s, steps[0]), steps[1..], log + EventOf(s, steps[0]));
      assert log + EventOf(s, steps[0]) + LogOf(Next(s, steps[0]), steps[1..]) == log + LogOf(s, steps);
    }
  }

  // ---------- what the loss concludes ----------

  /** The conclusion fits what had happened when it was drawn. */
  ghost predicate Right(pre: seq<Event>, id: RequestId, c: Certainty) {
    && (c == NotAccepted <==> Undecided(pre, id) && Unsent(pre, id))
    && (c == OutcomeUnknown <==> Undecided(pre, id) && Unanswered(pre, id))
    && (c == AcceptedMayHaveRun <==> !Undecided(pre, id) || Heard(pre, id))
  }

  ghost predicate AllRight(log: seq<Event>) {
    forall i :: 0 <= i < |log| && log[i].Concluded? ==> Right(log[..i], log[i].id, log[i].c)
  }

  /** A request has never been sent, was sent and not answered, or has been heard of. */
  lemma {:induction false} Stages(log: seq<Event>, id: RequestId)
    ensures Unsent(log, id) || Unanswered(log, id) || Heard(log, id)
    ensures !(Unsent(log, id) && Unanswered(log, id)) && !(Unsent(log, id) && Heard(log, id)) && !(Unanswered(log, id) && Heard(log, id))
    decreases |log|
  {
    if log != [] {
      var n := |log| - 1;
      assert log == log[..n] + [log[n]];
      Stages(log[..n], id);
      Longer(log[..n], log[n], id);
    }
  }

  lemma ConclusionRight(s: Client, log: seq<Event>)
    requires Tells(s, log) && Invariant(s) && EventOf(s, LossStep) != []
    ensures Right(log, EventOf(s, LossStep)[0].id, EventOf(s, LossStep)[0].c)
  {
    hide Undecided, Unsent, Unanswered, Heard, FirstDecision;
    var id := s.loss.todo[0];
    ReadInRange(s);
    assert AsTold(s.futures[id], log, id);
    Stages(log, id);
  }

  lemma ReadInRange(s: Client)
    requires Covered(s) && s.loss.Reading? && s.loss.todo != []
    ensures s.loss.todo[0] < |s.futures|
  {
    assert Todo(s, s.loss.todo[0]);
  }

  lemma {:induction false} RunRight(s: Client, steps: seq<Step>, log: seq<Event>)
    requires Tells(s, log) && Invariant(s) && AllRight(log)
    ensures AllRight(log + LogOf(s, steps))
    decreases |steps|
  {
    hide Tells, Invariant, Next, Right;
    if steps == [] {
      assert log + [] == log;
    } else {
      var es := EventOf(s, steps[0]);
      StepTold(s, steps[0], log);
      StepKeepsClient(s, steps[0]);
      forall i | 0 <= i < |log + es| && (log + es)[i].Concluded? ensures Right((log + es)[..i], (log + es)[i].id, (log + es)[i].c) {
        if i < |log| {
          assert (log + es)[..i] == log[..i];
        } else {
          assert (log + es)[..i] == log;
          ConclusionRight(s, log);
        }
      }
      RunRight(Next(s, steps[0]), steps[1..], log + es);
      assert log + es + LogOf(Next(s, steps[0]), steps[1..]) == log + LogOf(s, steps);
    }
  }

  /**
   Over every run from a new client, each conclusion of a connection loss is the right one: not accepted if and only if
   the request had not even been marked, outcome unknown if and only if it had been and nothing had been heard of it
   since, and otherwise accepted; and a pending failure always carries such a conclusion.
   */
  lemma ConclusionsExact(steps: seq<Step>, id: RequestId, c: Certainty)
    ensures AllRight(LogOf(START, steps))
    ensures Verdict(After(START, steps), id, c) && c != Certainty.Told ==> Concluded(id, c) in LogOf(START, steps)
  {
    hide Invariant, After, LogOf, Right;
    StartKept();
    StartTold();
    RunTold(START, steps, []);
    RunRight(START, steps, []);
    var s, log := After(START, steps), LogOf(START, steps);
    assert [] + log == log;
    RunKeepsClient(START, steps);
    if Fut(s, id).outcome == Some(Error(c)) && c != Certainty.Told { FailureConcluded(steps, id, c); }
  }

  // ---------- outcomes ----------

  /** The outcome of a future is that of the first event that decides it: nothing is made up and nothing is overwritten. */
  lemma OutcomesExact(steps: seq<Step>, id: RequestId)
    requires id < |After(START, steps).futures|
    ensures var f, log := After(START, steps).futures[id], LogOf(START, steps);
            && (f.Done() <==> exists i :: 0 <= i < |log| && Decides(log[i], id))
            && forall k: nat :: FirstDecision(log, id, k) ==> f.outcome == Some(OutcomeBy(log[k]))
  {
    hide After, LogOf;
    StartKept();
    StartTold();
    RunTold(START, steps, []);
    assert [] + LogOf(START, steps) == LogOf(START, steps);
    assert AsTold(After(START, steps).futures[id], LogOf(START, steps), id);
  }

  lemma {:induction false} HasFirst(log: seq<Event>, id: RequestId) returns (k: nat)
    requires !Undecided(log, id)
    ensures FirstDecision(log, id, k)
    decreases |log|
  {
    var n := |log| - 1;
    assert log == log[..n] + [log[n]];
    if Undecided(log[..n], id) {
      Longer(log[..n], log[n], id);
      k := n;
    } else {
      k := HasFirst(log[..n], id);
      FirstLonger(log[..n], log[n], id, k);
    }
  }

  /** Failures the lane has carried out were concluded before. */
  ghost predicate FailuresConcluded(log: seq<Event>) {
    forall j :: 0 <= j < |log| && log[j].Worked? && log[j].w.Fail? ==> Concluded(log[j].w.id, log[j].w.c) in log[..j]
  }

  lemma StepConcluded(s: Client, step: Step, log: seq<Event>)
    requires Tells(s, log) && FailuresConcluded(log)
    ensures FailuresConcluded(log + EventOf(s, step))
  {
    hide Next;
    var es := EventOf(s, step);
    var more := log + es;
    forall j | 0 <= j < |more| && more[j].Worked? && more[j].w.Fail? ensures Concluded(more[j].w.id, more[j].w.c) in more[..j] {
      if j < |log| { assert more[..j] == log[..j]; } else {
        assert more[..j] == log;
        assert s.lane[0] in s.lane;
      }
    }
  }

  lemma {:induction false} RunConcluded(s: Client, steps: seq<Step>, log: seq<Event>)
    requires Tells(s, log) && Invariant(s) && FailuresConcluded(log)
    ensures FailuresConcluded(log + LogOf(s, steps))
    decreases |steps|
  {
    hide Invariant, Next, Tells, FailuresConcluded, EventOf;
    if steps == [] {
      assert log + [] == log;
    } else {
      var es := EventOf(s, steps[0]);
      StepTold(s, steps[0], log);
      StepKeepsClient(s, steps[0]);
      StepConcluded(s, steps[0], log);
      RunConcluded(Next(s, steps[0]), steps[1..], log + es);
      assert log + es + LogOf(Next(s, steps[0]), steps[1..]) == log + LogOf(s, steps);
    }
  }

  lemma FailureConcluded(steps: seq<Step>, id: RequestId, c: Certainty)
    requires Fut(After(START, steps), id).outcome == Some(Error(c)) && c != Certainty.Told
    ensures Concluded(id, c) in LogOf(START, steps)
  {
    var i := FailureAt(steps, id, c);
  }

  /** No frame carries the client's own conclusions. */
  ghost predicate FramesHonest(log: seq<Event>) {
    forall j :: 0 <= j < |log| && log[j].Worked? && log[j].w.Complete? && log[j].w.o.Error? ==> log[j].w.o.certainty == Certainty.Told
  }

  lemma {:induction false} RunFrames(s: Client, steps: seq<Step>, log: seq<Event>)
    requires Invariant(s) && FramesHonest(log)
    ensures FramesHonest(log + LogOf(s, steps))
    decreases |steps|
  {
    hide Honest, Covered, Next;
    if steps == [] {
      assert log + [] == log;
    } else {
      var es := EventOf(s, steps[0]);
      StepKeepsClient(s, steps[0]);
      assert s.lane != [] ==> s.lane[0] in s.lane;
      assert FramesHonest(log + es);
      hide InRange, FramesHonest;
      RunFrames(Next(s, steps[0]), steps[1..], log + es);
      assert log + es + LogOf(Next(s, steps[0]), steps[1..]) == log + LogOf(s, steps);
    }
  }

  lemma LogFacts(steps: seq<Step>)
    ensures FailuresConcluded(LogOf(START, steps)) && FramesHonest(LogOf(START, steps))
  {
    hide LogOf, Invariant, Tells;
    StartKept();
    StartTold();
    RunConcluded(START, steps, []);
    RunFrames(START, steps, []);
    assert [] + LogOf(START, steps) == LogOf(START, steps);
  }

  lemma DecidedSome(log: seq<Event>, id: RequestId)
    ensures (exists i :: 0 <= i < |log| && Decides(log[i], id)) ==> !Undecided(log, id)
  {
  }

  lemma FailedBy(log: seq<Event>, id: RequestId, c: Certainty, k: nat)
    requires FirstDecision(log, id, k) && OutcomeBy(log[k]) == Error(c) && c != Certainty.Told && FramesHonest(log)
    ensures log[k] == Worked(Fail(id, c))
  {
  }

  /** Where the conclusion that a failed future carries was drawn; the future was undecided then. */
  lemma FailureAt(steps: seq<Step>, id: RequestId, c: Certainty) returns (i: nat)
    requires Fut(After(START, steps), id).outcome == Some(Error(c)) && c != Certainty.Told
    ensures var log := LogOf(START, steps);
            i < |log| && log[i] == Concluded(id, c) && Undecided(log[..i], id)
  {
    hide After, LogOf, FramesHonest, OutcomeBy, Decides, FirstDecision;
    var s, log := After(START, steps), LogOf(START, steps);
    LogFacts(steps);
    assert id < |s.futures|;
    OutcomesExact(steps, id);
    assert !Undecided(log, id) by { DecidedSome(log, id); }
    var k := HasFirst(log, id);
    FailedBy(log, id, c, k);
    i :| 0 <= i < k && log[..k][i] == Concluded(id, c);
    assert forall j :: 0 <= j < i ==> log[..i][j] == log[j];
  }

  /** A future that failed as accepted had been heard of; one that failed with its outcome unknown was marked and never answered since. */
  lemma FailuresRight(steps: seq<Step>, id: RequestId, c: Certainty) returns (i: nat)
    requires Fut(After(START, steps), id).outcome == Some(Error(c)) && c != Certainty.Told
    ensures var log := LogOf(START, steps);
            && i < |log| && log[i] == Concluded(id, c)
            && (c == NotAccepted <==> Unsent(log[..i], id))
            && (c == OutcomeUnknown <==> Unanswered(log[..i], id))
            && (c == AcceptedMayHaveRun <==> Heard(log[..i], id))
  {
    hide After, LogOf, Unsent, Unanswered, Heard, Undecided;
    i := FailureAt(steps, id, c);
    ConclusionsExact(steps, id, c);
    Stages(LogOf(START, steps)[..i], id);
  }
}
