/** Exactly which steps decide a request. */
module BrokerDecides {
  import opened Options
  import opened SchedulerSpec
  import opened BrokerState
  import opened BrokerInvariant
  import opened BrokerWithin
  import opened BrokerDispatch
  import opened BrokerDispatchSteps
  import opened BrokerRetention
  import opened BrokerQuiet
  import opened BrokerSteps
  import opened BrokerRestSteps

  ghost predicate Spared(s: Broker, t: Broker, r: RecordId) {
    t.Rec(r).state == s.Rec(r).state
  }

  lemma CompleteSpares(s: Broker, a: AttemptId, o: Outcome, r: RecordId)
    requires s.Att(a).record != r
    ensures Spared(s, Complete(s, a, o), r)
  {
    hide PurgeIfClosed, Post;
    var d := Decide(s, s.Att(a).record, FrameOf(o));
    DecideSpares(s, s.Att(a).record, FrameOf(o), r);
    PurgeFrame(GiveBack(d, a), s.Rec(s.Att(a).record).session);
  }

  lemma DecideSpares(s: Broker, x: RecordId, f: Frame, r: RecordId)
    requires x != r
    ensures Spared(s, Decide(s, x, f), r)
  {
  }

  lemma CancelFutureSpares(s: Broker, x: RecordId, r: RecordId)
    requires Paired(s) && x < |s.records| && x != r
    ensures Spared(s, CancelFuture(s, x), r)
  {
    hide Complete;
    if s.records[x].future.Some? {
      var a := s.records[x].future.value;
      CompleteSpares(s.WithAtt(a, s.attempts[a].(future := CancelledFuture)), a, OutcomeOf(CancelledFuture), r);
    }
  }

  lemma CancelQueuedSpares(s: Broker, x: RecordId, f: Frame, r: RecordId)
    requires Dispatch(s) && x < |s.records| && x != r && f.TerminalFrame?
    ensures Spared(s, CancelQueued(s, x, f), r)
  {
    hide QueueExact, SlotsExact, AttemptsOk, ClaimsOk, CancelFuture, Decide;
    DecideSpares(Dequeue(s, x), x, f, r);
    DecideDispatch(s, x, f);
    DecideWithin(Dequeue(s, x), x, f);
    SizesWithin(Dequeue(s, x), Decide(Dequeue(s, x), x, f));
    CancelFutureSpares(Decide(Dequeue(s, x), x, f), x, r);
  }

  lemma SettleSpares(s: Broker, x: RecordId, f: Frame, r: RecordId)
    requires Dispatch(s) && x < |s.records| && x != r && f.TerminalFrame? && !Unstaged(s, x)
    ensures Spared(s, Settle(s, x, f), r)
  {
    NotInQueue(s, x);
    CancelQueuedSpares(s, x, f, r);
  }

  lemma VisitSpares(s: Broker, pass: Pass, x: RecordId, r: RecordId)
    requires Dispatch(s) && x < |s.records| && (x != r || Ruling(s, pass, r).None?)
    ensures Spared(s, Visit(s, pass, x), r)
  {
    hide Dispatch, CancelQueued, Settle;
    var ruling := Ruling(s, pass, x);
    if ruling.Some? {
      if s.records[x].state == Queued {
        CancelQueuedSpares(s, x, ruling.value, r);
      } else {
        SettleSpares(s, x, ruling.value, r);
      }
    }
  }

  lemma SameRuling(s: Broker, t: Broker, pass: Pass, r: RecordId)
    requires Within(s, t) && r < |s.records| && Spared(s, t, r)
    ensures Ruling(t, pass, r) == Ruling(s, pass, r)
  {
    assert RecordWithin(s.records[r], t.records[r]);
  }

  /** A pass leaves a request alone exactly when it had no verdict for it at the start. */
  lemma {:induction false} VisitAllSpares(s: Broker, pass: Pass, todo: seq<RecordId>, r: RecordId)
    requires Dispatch(s) && (forall x :: x in todo ==> x < |s.records|) && r < |s.records|
    requires r !in todo || Ruling(s, pass, r).None?
    ensures Spared(s, VisitAll(s, pass, todo), r)
    decreases |todo|
  {
    hide Dispatch, Visit, Ruling, Within;
    if todo != [] {
      var t := Visit(s, pass, todo[0]);
      assert todo[0] in todo && forall x :: x in todo[1..] ==> x in todo;
      VisitSpares(s, pass, todo[0], r);
      VisitDispatch(s, pass, todo[0]);
      VisitWithin(s, pass, todo[0]);
      SizesWithin(s, t);
      SameRuling(s, t, pass, r);
      VisitAllSpares(t, pass, todo[1..], r);
    }
  }

  /** A pass decides an undecided request if and only if it visits it with a verdict. */
  lemma VisitAllDecides(s: Broker, pass: Pass, todo: seq<RecordId>, r: RecordId)
    requires Dispatch(s) && (forall x :: x in todo ==> x < |s.records|) && r < |s.records| && !s.Decided(r)
    ensures VisitAll(s, pass, todo).Decided(r) <==> r in todo && Ruling(s, pass, r).Some?
    ensures !VisitAll(s, pass, todo).Decided(r) ==> Spared(s, VisitAll(s, pass, todo), r)
  {
    hide Dispatch, Ruling, Within;
    VisitAllWithin(s, pass, todo);
    if r !in todo || Ruling(s, pass, r).None? { VisitAllSpares(s, pass, todo, r); }
  }

  // ---------- the exact condition ----------

  /** Still queued when its queue timeout has run out. */
  ghost predicate PastQueueTime(s: Broker, r: RecordId) {
    s.Rec(r).state == Queued && s.Rec(r).deadline.Some? && s.now >= s.Rec(r).deadline.value
  }

  /** The step that decides the undecided request `r`. */
  ghost predicate Decides(s: Broker, action: Action, r: RecordId) {
    match action
    case Cancel(sid, id, hard, authorized) =>
      && !s.Sess(sid).disconnected && Find(s, s.Sess(sid).requests, id) == Some(r)
      && (s.Rec(r).state == Queued || (hard && authorized))
    case CancelGroup(sid, group, killable) =>
      && !s.Sess(sid).disconnected && r in s.Sess(sid).requests && s.Rec(r).group == Some(group)
      && (s.Rec(r).state == Queued || r in killable)
    case Disconnect(sid) =>
      && !s.Sess(sid).disconnected && !s.Sess(sid).cleanClose && r in s.Sess(sid).requests
      && (s.config.policy == TerminateWork || (s.config.policy == CancelQueuedWork && s.Rec(r).state == Queued))
    case Expire => PastQueueTime(s, r)
    case Claim(a, _) => s.Att(a).phase == Started && s.Att(a).record == r && PastQueueTime(s, r)
    case GiveUp(_) => s.lane.Broken? && s.Att(s.lane.a).record == r
    case Notify(a) => s.Att(a).watched && !s.Att(a).future.Pending? && !s.Att(a).over && s.Att(a).record == r
    case FinishShutdown =>
      && s.server == Draining
      && ((s.shutdownCancel && s.Rec(r).state == Queued) || (s.shutdownDeadline.Some? && s.now >= s.shutdownDeadline.value))
    case _ => false
  }

  lemma CancelDecides(s: Broker, sid: SessionId, id: RequestId, hard: bool, authorized: bool, r: RecordId)
    requires Dispatch(s) && ListsOk(s) && r < |s.records| && !s.Decided(r)
    ensures CancelledBy(s, sid, id, hard, authorized).Decided(r) <==> Decides(s, Cancel(sid, id, hard, authorized), r)
  {
    hide Dispatch, Post, CancelQueued, Settle, Within;
    FindIn(s, s.Sess(sid).requests, id);
    var known := Find(s, s.Sess(sid).requests, id);
    PostFrame(s, sid, []);
    if known.Some? {
      var x := known.value;
      if s.records[x].state == Queued {
        var t := CancelQueued(s, x, Because(Cancelled, "cancelled"));
        PostFrame(t, sid, []);
        CancelQueuedWithin(s, x, Because(Cancelled, "cancelled"));
        if x != r { CancelQueuedSpares(s, x, Because(Cancelled, "cancelled"), r); }
      } else {
        var t := Settle(s, x, Because(Cancelled, "terminated"));
        PostFrame(t, sid, []);
        SettleWithin(s, x, Because(Cancelled, "terminated"));
        if x != r { SettleSpares(s, x, Because(Cancelled, "terminated"), r); }
      }
    }
  }

  lemma GroupDecides(s: Broker, sid: SessionId, group: string, killable: set<RecordId>, r: RecordId)
    requires Dispatch(s) && ListsOk(s) && r < |s.records| && !s.Decided(r)
    ensures GroupCancelledBy(s, sid, group, killable).Decided(r) <==> Decides(s, CancelGroup(sid, group, killable), r)
  {
    hide Dispatch, Post, VisitAll;
    var t := VisitAll(s, GroupPass(group, killable), s.Sess(sid).requests);
    VisitAllDecides(s, GroupPass(group, killable), s.Sess(sid).requests, r);
    PostFrame(t, sid, []);
  }

  lemma DisconnectDecides(s: Broker, sid: SessionId, r: RecordId)
    requires Dispatch(s) && Paired(s) && AttemptsOk(s) && ListsOk(s) && r < |s.records| && !s.Decided(r)
    ensures Disconnected(s, sid).Decided(r) <==> Decides(s, Disconnect(sid), r)
  {
    hide Dispatch, VisitAll, Purge;
    var c := s.Sess(sid);
    if !c.disconnected {
      var t := s.WithSess(sid, c.(closed := true, disconnected := true));
      SessionOnlyDispatch(s, sid, c.(closed := true, disconnected := true));
      VisitAllDecides(t, DisconnectPass, c.requests, r);
      var v := if !c.cleanClose && s.config.policy != ContinueWork then VisitAll(t, DisconnectPass, c.requests) else t;
      PurgeFrame(v, sid);
      VisitAllWithin(t, DisconnectPass, c.requests);
      SizesWithin(t, VisitAll(t, DisconnectPass, c.requests));
      assert SameRole(v.records[r], Purge(v, sid).records[r]);
    }
  }

  lemma ShutdownRulings(s: Broker, r: RecordId)
    requires Paired(s) && AttemptsOk(s) && r < |s.records| && !s.Decided(r)
    ensures Ruling(s, ShutdownCancelPass, r).Some? <==> s.records[r].state == Queued
    ensures s.records[r].state == Queued ==> Ruling(s, ShutdownCancelPass, r) == Some(TerminalFrame(Cancelled, "server_shutdown", []))
    ensures Ruling(s, ShutdownDeadlinePass, r) == Some(TerminalFrame(Cancelled, "shutdown_deadline", []))
  {
  }

  lemma ShutdownDecides(s: Broker, r: RecordId)
    requires Dispatch(s) && Paired(s) && AttemptsOk(s) && Kept(s) && ListsOk(s) && r < |s.records| && !s.Decided(r)
    ensures ShutdownRound(s).Decided(r) <==> Decides(s, FinishShutdown, r)
  {
    hide Dispatch, VisitAll, Kept, Within, Ruling, AttemptsOk, Paired;
    KeptRetains(s, r);
    ShutdownRulings(s, r);
    if s.server == Draining {
      var t := if s.shutdownCancel then VisitAll(s, ShutdownCancelPass, s.requests) else s;
      VisitAllDecides(s, ShutdownCancelPass, s.requests, r);
      VisitAllDispatch(s, ShutdownCancelPass, s.requests);
      VisitAllKept(s, ShutdownCancelPass, s.requests);
      VisitAllWithin(s, ShutdownCancelPass, s.requests);
      SizesWithin(s, VisitAll(s, ShutdownCancelPass, s.requests));
      SameDeadline(s, VisitAll(s, ShutdownCancelPass, s.requests));
      DispatchParts(t);
      var u := VisitAll(t, ShutdownDeadlinePass, t.requests);
      if t.Decided(r) {
        VisitAllWithin(t, ShutdownDeadlinePass, t.requests);
        DecidedStays(t, u, r);
      } else {
        KeptRetains(t, r);
        ShutdownRulings(t, r);
        VisitAllDecides(t, ShutdownDeadlinePass, t.requests, r);
      }
    }
  }

  lemma KeptRetains(s: Broker, r: RecordId)
    requires Kept(s) && r < |s.records| && !s.Decided(r)
    ensures r in s.requests && r in s.Sess(s.records[r].session).requests
  {
    assert RecordRetained(s, r);
  }

  lemma ClaimDecides(s: Broker, a: AttemptId, pid: int, r: RecordId)
    requires Dispatch(s) && Paired(s) && AttemptsOk(s) && ClaimsOk(s) && r < |s.records| && !s.Decided(r)
    ensures ClaimAnswered(s, a, pid).Decided(r) <==> Decides(s, Claim(a, pid), r)
  {
    hide Dispatch, Settle, Granted, Within;
    if a < |s.attempts| && s.attempts[a].phase == Started {
      var x := s.attempts[a].record;
      assert AttemptOk(s, a);
      if Expired(s, s.records[x]) {
        SettleWithin(s, x, Because(QueueTimedOut, "queue_timeout"));
        if x != r { SettleSpares(s, x, Because(QueueTimedOut, "queue_timeout"), r); }
      } else if !s.Decided(x) {
        GrantedFields(s, x, pid);
      }
    }
  }

  lemma AttemptEndDecides(s: Broker, action: Action, r: RecordId)
    requires Paired(s) && r < |s.records| && !s.Decided(r) && (action.Notify? || action.GiveUp?)
    ensures Next(s, action).Decided(r) <==> Decides(s, action, r)
  {
    hide Complete, Within;
    if action.GiveUp? && s.lane.Broken? {
      CompleteWithin(s, s.lane.a, Raised(action.message));
      if s.attempts[s.lane.a].record != r { CompleteSpares(s, s.lane.a, Raised(action.message), r); }
    } else if action.Notify? && action.a < |s.attempts| {
      CompleteWithin(s, action.a, OutcomeOf(s.attempts[action.a].future));
      if s.attempts[action.a].record != r { CompleteSpares(s, action.a, OutcomeOf(s.attempts[action.a].future), r); }
    }
  }

  lemma SubmittedSpares(s: Broker, sid: SessionId, msg: Submission, authorized: bool, r: RecordId)
    requires r < |s.records|
    ensures Spared(s, Submitted(s, sid, msg, authorized), r)
  {
    hide Post, Admit, HasRoom, CurrentFrame;
    var c := s.Sess(sid);
    var known := Find(s, c.requests, msg.id);
    if known.Some? && CurrentFrame(s, known.value).Some? {
      PostFrame(s, s.Rec(known.value).session, [(known.value, CurrentFrame(s, known.value).value)]);
    }
    PostFrame(s, sid, []);
    var t := s.WithSess(sid, c.(watermark := msg.id.sequence));
    PostFrame(t, sid, []);
    AdmitFields(t, sid, msg);
  }

  lemma StageSpares(s: Broker, r: RecordId)
    ensures Spared(s, Next(s, Stage), r) && Spared(s, Restored(s), r)
  {
    hide Staged, Restored;
    RestoredFields(s);
    assert r < |s.records| ==> Restored(s).records[r] == s.records[r].(future := Restored(s).records[r].future);
    if p :| MayStage(s, p) && Next(s, Stage) == Staged(s, p) { StagedSpares(s, p, r); }
  }

  lemma StagedSpares(s: Broker, p: int, r: RecordId)
    requires CanPop(s.queue, p)
    ensures Spared(s, Staged(s, p), r)
  {
    hide SchedulerSpec.Pop, SchedulerSpec.PopItem;
  }

  lemma ClosedCleanlySpares(s: Broker, sid: SessionId, r: RecordId)
    ensures Spared(s, ClosedCleanly(s, sid), r)
  {
    hide Post;
    PostFrame(s.WithSess(sid, s.Sess(sid).(cleanClose := true)), sid, []);
  }

  lemma AcknowledgedSpares(s: Broker, sid: SessionId, id: RequestId, r: RecordId)
    ensures Spared(s, Acknowledged(s, sid, id), r)
  {
    hide Forget;
    var known := Find(s, s.Sess(sid).requests, id);
    if known.Some? {
      ForgetFrame(s, known.value);
      assert r < |s.records| ==> SameRole(s.records[r], Forget(s, known.value).records[r]);
    }
  }

  /** A step decides an undecided request if and only if the condition above holds before it. */
  lemma StepDecides(s: Broker, action: Action, r: RecordId)
    requires Dispatch(s) && Paired(s) && AttemptsOk(s) && ClaimsOk(s) && Kept(s) && Retained(s) && ListsOk(s)
    requires r < |s.records| && !s.Decided(r)
    ensures Next(s, action).Decided(r) <==> Decides(s, action, r)
  {
    hide Dispatch, Paired, AttemptsOk, ClaimsOk, Kept, Retained, ListsOk, Unmoved, Staged, Restored, ClaimAnswered, Submitted, Acknowledged,
         ClosedCleanly, CancelledBy, Disconnected, VisitAll, Handshaken, ShutdownRound, GivenUp, Notified, Post, Watched, OfferAnswered,
         ResolvedTo, GroupCancelledBy;
    if Quiet(action) {
      QuietUnmoved(s, action);
      UnmovedSpares(s, Next(s, action), r);
    } else {
      match action
      case Handshake(client, principal, offered) => HandshakenSpares(s, client, principal, offered, r);
      case Submit(sid, msg, authorized) => SubmittedSpares(s, sid, msg, authorized, r);
      case Acknowledge(sid, id) => AcknowledgedSpares(s, sid, id, r);
      case CloseSession(sid) => ClosedCleanlySpares(s, sid, r);
      case Cancel(sid, id, hard, authorized) => CancelDecides(s, sid, id, hard, authorized, r);
      case CancelGroup(sid, group, killable) => GroupDecides(s, sid, group, killable, r);
      case Disconnect(sid) => DisconnectDecides(s, sid, r);
      case Expire => ExpireDecides(s, r);
      case Stage => StageSpares(s, r);
      case Restore => StageSpares(s, r);
      case GiveUp(_) => AttemptEndDecides(s, action, r);
      case Notify(_) => AttemptEndDecides(s, action, r);
      case Claim(a, pid) => ClaimDecides(s, a, pid, r);
      case FinishShutdown => ShutdownDecides(s, r);
    }
  }

  lemma ExpireDecides(s: Broker, r: RecordId)
    requires Dispatch(s) && ListsOk(s) && Kept(s) && r < |s.records| && !s.Decided(r)
    ensures VisitAll(s, ExpirePass, s.requests).Decided(r) <==> Decides(s, Expire, r)
  {
    hide Dispatch, Kept;
    KeptRetains(s, r);
    VisitAllDecides(s, ExpirePass, s.requests, r);
  }

  lemma UnmovedSpares(s: Broker, t: Broker, r: RecordId)
    requires Unmoved(s, t) && r < |s.records|
    ensures Spared(s, t, r)
  {
    assert t.records[r] == s.records[r].(payload := t.records[r].payload);
  }

  lemma HandshakenSpares(s: Broker, client: string, principal: Principal, offered: nat, r: RecordId)
    ensures Spared(s, Handshaken(s, client, principal, offered), r)
  {
  }

  // ---------- the verdict ----------

  /** What the client is told of a future: the worker's own words, or that time ran out, or that there is no outcome. */
  ghost function Told(future: Future): Frame {
    match future
    case Resolved(Returned(verdict, control, payload)) => TerminalFrame(verdict, control, payload)
    case Resolved(TimedOut(message)) => TerminalFrame(ExecutionTimedOut, message, [])
    case Resolved(Raised(message)) => TerminalFrame(WorkerLost, message, [])
    case _ => TerminalFrame(WorkerLost, "CancelledError()", [])
  }

  /** The terminal frame a deciding step gives the request `r`. */
  ghost function FrameBy(s: Broker, action: Action, r: RecordId): Frame {
    var queued := s.Rec(r).state == Queued;
    match action
    case Cancel(_, _, _, _) => TerminalFrame(Cancelled, if queued then "cancelled" else "terminated", [])
    case CancelGroup(_, _, _) => TerminalFrame(Cancelled, if queued then "group_cancelled" else "group_terminated", [])
    case Disconnect(_) => TerminalFrame(Cancelled, if queued then "disconnected" else "disconnected_terminate", [])
    case Expire => TerminalFrame(QueueTimedOut, "queue_timeout", [])
    case Claim(_, _) => TerminalFrame(QueueTimedOut, "queue_timeout", [])
    case GiveUp(message) => TerminalFrame(WorkerLost, message, [])
    case Notify(a) => Told(s.Att(a).future)
    case _ => TerminalFrame(Cancelled, if s.shutdownCancel && queued then "server_shutdown" else "shutdown_deadline", [])
  }

  /** The request is decided with this frame, of which the payload may be cleared already. */
  ghost predicate Reported(t: Broker, r: RecordId, f: Frame) {
    f.TerminalFrame? && t.Rec(r).state == Terminal(f.verdict) && t.Rec(r).terminal in {Some(f), Some(f.(payload := []))}
  }

  /** What is decided on the way of a region keeps its frame to the end of it. */
  lemma ReportKept(s: Broker, t: Broker, r: RecordId, f: Frame)
    requires Within(s, t) && r < |s.records| && Reported(s, r, f)
    ensures Reported(t, r, f)
  {
    assert RecordWithin(s.records[r], t.records[r]);
  }

  lemma SettleReported(s: Broker, r: RecordId, f: Frame)
    requires r < |s.records| && !s.Decided(r) && f.TerminalFrame?
    ensures Reported(Settle(s, r, f), r, f) && Reported(CancelQueued(s, r, f), r, f)
  {
    hide CancelFuture, Decide, Dequeue;
    var q := Dequeue(s, r);
    SameRecords(s, r);
    DecideFields(s, r, f);
    DecideFields(q, r, f);
    CancelFutureWithin(Decide(s, r, f), r);
    CancelFutureWithin(Decide(q, r, f), r);
    ReportKept(Decide(s, r, f), Settle(s, r, f), r, f);
    ReportKept(Decide(q, r, f), CancelQueued(s, r, f), r, f);
  }

  lemma SameRecords(s: Broker, r: RecordId)
    ensures Dequeue(s, r).records == s.records
  {
  }

  lemma {:induction false} VisitAllReported(s: Broker, pass: Pass, todo: seq<RecordId>, r: RecordId)
    requires Dispatch(s) && (forall x :: x in todo ==> x < |s.records|) && r in todo && !s.Decided(r) && Ruling(s, pass, r).Some?
    ensures Reported(VisitAll(s, pass, todo), r, Ruling(s, pass, r).value)
    decreases |todo|
  {
    hide Dispatch, Within, CancelQueued, Settle, Reported;
    var t, f := Visit(s, pass, todo[0]), Ruling(s, pass, r).value;
    assert todo[0] in todo && forall x :: x in todo[1..] ==> x in todo;
    VisitWithin(s, pass, todo[0]);
    VisitDispatch(s, pass, todo[0]);
    SizesWithin(s, t);
    if todo[0] == r {
      SettleReported(s, r, f);
      assert Reported(t, r, f);
      VisitAllWithin(t, pass, todo[1..]);
      ReportKept(t, VisitAll(t, pass, todo[1..]), r, f);
    } else {
      VisitSpares(s, pass, todo[0], r);
      SameRuling(s, t, pass, r);
      VisitAllReported(t, pass, todo[1..], r);
    }
  }

  lemma CompleteReported(s: Broker, a: AttemptId, o: Outcome)
    requires s.Att(a).record < |s.records| && !s.Decided(s.Att(a).record)
    ensures Reported(Complete(s, a, o), s.Att(a).record, FrameOf(o))
  {
    hide Within, Decide, PurgeIfClosed;
    var r := s.Att(a).record;
    var d := Decide(s, r, FrameOf(o));
    DecideFields(s, r, FrameOf(o));
    GiveBackWithin(d, a);
    PurgeWithin(GiveBack(d, a), s.Rec(r).session);
    WithinTransitive(d, GiveBack(d, a), Complete(s, a, o));
    ReportKept(d, Complete(s, a, o), r, FrameOf(o));
  }

  lemma PassReported(s: Broker, pass: Pass, todo: seq<RecordId>, r: RecordId, t: Broker)
    requires Dispatch(s) && (forall x :: x in todo ==> x < |s.records|) && r in todo && !s.Decided(r) && Ruling(s, pass, r).Some?
    requires Within(VisitAll(s, pass, todo), t)
    ensures Reported(t, r, Ruling(s, pass, r).value)
  {
    VisitAllReported(s, pass, todo, r);
    VisitAllWithin(s, pass, todo);
    hide VisitAll, Reported;
    ReportKept(VisitAll(s, pass, todo), t, r, Ruling(s, pass, r).value);
  }

  lemma PostReported(t: Broker, sid: SessionId, r: RecordId, f: Frame)
    requires Reported(t, r, f)
    ensures Reported(Post(t, sid, []), r, f)
  {
    hide Post;
    PostFrame(t, sid, []);
  }

  lemma CancelReported(s: Broker, sid: SessionId, id: RequestId, hard: bool, authorized: bool, r: RecordId)
    requires Dispatch(s) && ListsOk(s) && r < |s.records| && !s.Decided(r) && Decides(s, Cancel(sid, id, hard, authorized), r)
    ensures Reported(CancelledBy(s, sid, id, hard, authorized), r, FrameBy(s, Cancel(sid, id, hard, authorized), r))
  {
    hide Dispatch, Post, CancelQueued, Settle, Reported;
    var queued, running := Because(Cancelled, "cancelled"), Because(Cancelled, "terminated");
    SettleReported(s, r, queued);
    SettleReported(s, r, running);
    PostReported(CancelQueued(s, r, queued), sid, r, queued);
    PostReported(Settle(s, r, running), sid, r, running);
  }

  lemma DisconnectReported(s: Broker, sid: SessionId, r: RecordId)
    requires Dispatch(s) && Paired(s) && AttemptsOk(s) && ListsOk(s) && r < |s.records| && !s.Decided(r) && Decides(s, Disconnect(sid), r)
    ensures Reported(Disconnected(s, sid), r, FrameBy(s, Disconnect(sid), r))
  {
    hide Dispatch, VisitAll, Purge, Within, Reported;
    var c := s.Sess(sid);
    var t := s.WithSess(sid, c.(closed := true, disconnected := true));
    SessionOnlyDispatch(s, sid, c.(closed := true, disconnected := true));
    PurgeWithin(VisitAll(t, DisconnectPass, c.requests), sid);
    assert Ruling(t, DisconnectPass, r) == Some(FrameBy(s, Disconnect(sid), r));
    PassReported(t, DisconnectPass, c.requests, r, Purge(VisitAll(t, DisconnectPass, c.requests), sid));
  }

  lemma ShutdownReported(s: Broker, r: RecordId)
    requires Dispatch(s) && Paired(s) && AttemptsOk(s) && Kept(s) && ListsOk(s) && r < |s.records| && !s.Decided(r)
    requires Decides(s, FinishShutdown, r)
    ensures Reported(ShutdownRound(s), r, FrameBy(s, FinishShutdown, r))
  {
    hide Dispatch, VisitAll, Kept, Within, Ruling, AttemptsOk, Paired, Reported;
    KeptRetains(s, r);
    ShutdownRulings(s, r);
    var v := VisitAll(s, ShutdownCancelPass, s.requests);
    var t := if s.shutdownCancel then v else s;
    VisitAllDispatch(s, ShutdownCancelPass, s.requests);
    VisitAllKept(s, ShutdownCancelPass, s.requests);
    VisitAllWithin(s, ShutdownCancelPass, s.requests);
    SizesWithin(s, v);
    SameDeadline(s, v);
    DispatchParts(t);
    var u := VisitAll(t, ShutdownDeadlinePass, t.requests);
    VisitAllWithin(t, ShutdownDeadlinePass, t.requests);
    WithinReflexive(v);
    WithinReflexive(u);
    if s.shutdownCancel && s.records[r].state == Queued {
      PassReported(s, ShutdownCancelPass, s.requests, r, v);
      ReportKept(t, u, r, Because(Cancelled, "server_shutdown"));
    } else {
      if s.shutdownCancel { VisitAllDecides(s, ShutdownCancelPass, s.requests, r); }
      KeptRetains(t, r);
      ShutdownRulings(t, r);
      PassReported(t, ShutdownDeadlinePass, t.requests, r, u);
    }
    StoppingReported(t, u, r);
  }

  lemma StoppingReported(t: Broker, u: Broker, r: RecordId)
    ensures forall f :: Reported(u, r, f) ==> Reported(u.(server := Stopping), r, f)
  {
  }

  /** A request is decided with the frame that belongs to the step: nothing else is ever reported. */
  lemma StepReports(s: Broker, action: Action, r: RecordId)
    requires Dispatch(s) && Paired(s) && AttemptsOk(s) && ClaimsOk(s) && Kept(s) && ListsOk(s)
    requires r < |s.records| && !s.Decided(r) && Decides(s, action, r)
    ensures Reported(Next(s, action), r, FrameBy(s, action, r))
  {
    hide Dispatch, AttemptsOk, ClaimsOk, Kept, ListsOk, CancelledBy, Disconnected, VisitAll, ShutdownRound, Complete, Post, Settle, Within, FrameOf;
    match action
    case Cancel(sid, id, hard, authorized) => CancelReported(s, sid, id, hard, authorized, r);
    case CancelGroup(sid, group, killable) => GroupReported(s, sid, group, killable, r);
    case Disconnect(sid) => DisconnectReported(s, sid, r);
    case Expire => ExpireReported(s, r);
    case GiveUp(message) =>
      CompleteReported(s, s.lane.a, Raised(message));
      FramesOfOutcomes(Resolved(Raised(message)));
    case Notify(a) =>
      CompleteReported(s, a, OutcomeOf(s.Att(a).future));
      FramesOfOutcomes(s.Att(a).future);
    case Claim(a, pid) => SettleReported(s, r, Because(QueueTimedOut, "queue_timeout"));
    case FinishShutdown => ShutdownReported(s, r);
  }

  lemma FramesOfOutcomes(future: Future)
    requires !future.Pending?
    ensures FrameOf(OutcomeOf(future)) == Told(future)
  {
  }

  lemma GroupReported(s: Broker, sid: SessionId, group: string, killable: set<RecordId>, r: RecordId)
    requires Dispatch(s) && ListsOk(s) && r < |s.records| && !s.Decided(r) && Decides(s, CancelGroup(sid, group, killable), r)
    ensures Reported(GroupCancelledBy(s, sid, group, killable), r, FrameBy(s, CancelGroup(sid, group, killable), r))
  {
    hide Dispatch, Post, VisitAll, Within, Reported;
    var t := VisitAll(s, GroupPass(group, killable), s.Sess(sid).requests);
    PostWithin(t, sid, []);
    PassReported(s, GroupPass(group, killable), s.Sess(sid).requests, r, Post(t, sid, []));
  }

  lemma ExpireReported(s: Broker, r: RecordId)
    requires Dispatch(s) && ListsOk(s) && Kept(s) && r < |s.records| && !s.Decided(r) && Decides(s, Expire, r)
    ensures Reported(VisitAll(s, ExpirePass, s.requests), r, FrameBy(s, Expire, r))
  {
    hide Dispatch, Kept, VisitAll, Within, Reported;
    KeptRetains(s, r);
    WithinReflexive(VisitAll(s, ExpirePass, s.requests));
    PassReported(s, ExpirePass, s.requests, r, VisitAll(s, ExpirePass, s.requests));
  }
}
