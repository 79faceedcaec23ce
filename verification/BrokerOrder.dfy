/** In which order the broker stages: the least submitted priority first, and each principal's requests as they were admitted. */
module BrokerOrder {
  import opened Options
  import opened Seqs
  import opened SchedulerSpec
  import Fairness
  import opened BrokerState
  import opened BrokerInvariant
  import opened BrokerWithin
  import opened BrokerDispatch
  import opened BrokerDispatchSteps
  import opened BrokerQuiet
  import opened BrokerCounts
  import opened BrokerSteps
  import opened BrokerForward
  import opened BrokerTheorems
  import opened BrokerGuarantees
  import opened BrokerAnswers

  /** Records are numbered as they are admitted. */
  ghost predicate Rising(rs: seq<RecordId>) {
    forall i, j :: 0 <= i < j < |rs| ==> rs[i] < rs[j]
  }

  /** The request is on its way between the queue and the pool, and every later one of its stream is behind it. */
  ghost predicate AheadOf(s: Broker, r: RecordId) {
    s.Rec(r).state == Queued ==> forall x :: x in Stream(s.queue, s.Rec(r).priority, s.Rec(r).principal) ==> r < x
  }

  ghost predicate Ordered(s: Broker) {
    && (forall p, q :: Rising(Stream(s.queue, p, q)))
    && (s.lane.Offering? || s.lane.Refused? ==> AheadOf(s, s.Att(s.lane.a).record))
  }

  // ---------- steps that only take out of the queue ----------

  /** Streams lose elements and keep their order, requests may be decided, and the loop is where it was or past its offer. */
  ghost predicate Thinner(s: Broker, t: Broker) {
    && (forall p, q :: Rising(Stream(s.queue, p, q)) ==> Rising(Stream(t.queue, p, q)))
    && (forall p, q, x :: x in Stream(t.queue, p, q) ==> x in Stream(s.queue, p, q))
    && (forall r: RecordId :: t.Rec(r).priority == s.Rec(r).priority && t.Rec(r).principal == s.Rec(r).principal &&
                              (t.Rec(r).state == Queued ==> s.Rec(r).state == Queued))
    && (t.lane.Offering? || t.lane.Refused? ==>
          (s.lane.Offering? || s.lane.Refused?) && t.lane.a == s.lane.a && t.Att(t.lane.a).record == s.Att(s.lane.a).record)
  }

  lemma ThinnerOrdered(s: Broker, t: Broker)
    requires Thinner(s, t) && Ordered(s)
    ensures Ordered(t)
  {
    hide Rising;
  }

  lemma ThinnerTransitive(s: Broker, t: Broker, u: Broker)
    requires Thinner(s, t) && Thinner(t, u)
    ensures Thinner(s, u)
  {
    hide Rising, Stream;
  }

  /** A region that leaves the queue alone. */
  lemma WithinThinner(s: Broker, t: Broker)
    requires Within(s, t) && t.queue == s.queue
    ensures Thinner(s, t)
  {
    hide Rising, Stream;
    forall r: RecordId ensures t.Rec(r).priority == s.Rec(r).priority && t.Rec(r).principal == s.Rec(r).principal &&
                              (t.Rec(r).state == Queued ==> s.Rec(r).state == Queued) {
      assert r < |s.records| ==> RecordWithin(s.records[r], t.records[r]);
    }
    if !s.lane.AtTop? { assert s.lane.a < |s.attempts| ==> AttemptWithin(s.attempts[s.lane.a], t.attempts[s.lane.a]); }
  }

  lemma SameThinner(s: Broker, t: Broker)
    requires t.queue == s.queue && t.attempts == s.attempts && t.lane == s.lane
    requires forall r: RecordId :: t.Rec(r).priority == s.Rec(r).priority && t.Rec(r).principal == s.Rec(r).principal &&
                                   t.Rec(r).state == s.Rec(r).state
    ensures Thinner(s, t)
  {
    hide Rising, Stream;
  }

  lemma RemoveRising(rs: seq<RecordId>, r: RecordId)
    requires r in rs && Rising(rs)
    ensures Rising(RemoveFirst(rs, r))
  {
    var i, t := IndexOf(rs, r), RemoveFirst(rs, r);
    assert forall k :: 0 <= k < |t| ==> t[k] == if k < i then rs[k] else rs[k + 1];
  }

  lemma DequeueThinner(s: Broker, r: RecordId)
    requires Ok(s.queue) && (forall p, q :: NoDup(Stream(s.queue, p, q)))
    ensures Thinner(s, Dequeue(s, r))
  {
    hide Rising, Stream, Remove, RemoveFirst, Ok, NoDup;
    var rec := s.Rec(r);
    if r in Stream(s.queue, rec.priority, rec.principal) {
      RemoveStreams(s.queue, rec.priority, rec.principal, r);
      RemoveFirstElements(Stream(s.queue, rec.priority, rec.principal), r);
      if Rising(Stream(s.queue, rec.priority, rec.principal)) { RemoveRising(Stream(s.queue, rec.priority, rec.principal), r); }
    }
  }

  lemma CompleteQueue(s: Broker, a: AttemptId, o: Outcome)
    ensures Complete(s, a, o).queue == s.queue
  {
    hide PurgeIfClosed, Post;
    var r := s.Att(a).record;
    DecideQueue(s, r, FrameOf(o));
    PurgeFrame(GiveBack(Decide(s, r, FrameOf(o)), a), s.Rec(r).session);
  }

  lemma DecideQueue(s: Broker, r: RecordId, f: Frame)
    ensures Decide(s, r, f).queue == s.queue
  {
  }

  lemma SettleQueue(s: Broker, r: RecordId, f: Frame)
    ensures Settle(s, r, f).queue == s.queue
  {
    hide Complete, Decide;
    var d := Decide(s, r, f);
    DecideQueue(s, r, f);
    if d.Rec(r).future.Some? {
      var a := d.Rec(r).future.value;
      CompleteQueue(d.WithAtt(a, d.Att(a).(future := CancelledFuture)), a, OutcomeOf(CancelledFuture));
    }
  }

  lemma CancelQueuedThinner(s: Broker, r: RecordId, f: Frame)
    requires Dispatch(s)
    ensures Thinner(s, CancelQueued(s, r, f)) && Thinner(s, Settle(s, r, f))
  {
    hide Thinner, Within, Settle, Dequeue, Stream, NoDup, Ok;
    DequeueThinner(s, r);
    SettleQueue(s, r, f);
    SettleQueue(Dequeue(s, r), r, f);
    SettleWithin(s, r, f);
    SettleWithin(Dequeue(s, r), r, f);
    WithinThinner(s, Settle(s, r, f));
    WithinThinner(Dequeue(s, r), Settle(Dequeue(s, r), r, f));
    ThinnerTransitive(s, Dequeue(s, r), CancelQueued(s, r, f));
  }

  lemma Unthinned(s: Broker)
    ensures Thinner(s, s)
  {
  }

  lemma {:induction false} VisitAllThinner(s: Broker, pass: Pass, todo: seq<RecordId>)
    requires Dispatch(s) && forall r :: r in todo ==> r < |s.records|
    ensures Thinner(s, VisitAll(s, pass, todo))
    decreases |todo|
  {
    hide Dispatch, Thinner, Within, CancelQueued, Settle;
    Unthinned(s);
    if todo != [] {
      var t := Visit(s, pass, todo[0]);
      assert todo[0] in todo && forall x :: x in todo[1..] ==> x in todo;
      if Ruling(s, pass, todo[0]).Some? { CancelQueuedThinner(s, todo[0], Ruling(s, pass, todo[0]).value); }
      VisitDispatch(s, pass, todo[0]);
      VisitWithin(s, pass, todo[0]);
      SizesWithin(s, t);
      VisitAllThinner(t, pass, todo[1..]);
      ThinnerTransitive(s, t, VisitAll(s, pass, todo));
    }
  }

  lemma PostThinner(s: Broker, sid: SessionId, entry: seq<(RecordId, Frame)>)
    ensures Thinner(s, Post(s, sid, entry))
  {
    hide Thinner, Post;
    PostFrame(s, sid, entry);
    SameThinner(s, Post(s, sid, entry));
  }

  lemma SessionThinner(s: Broker, sid: SessionId, c: Session)
    ensures Thinner(s, s.WithSess(sid, c))
  {
    hide Thinner;
    SameThinner(s, s.WithSess(sid, c));
  }

  lemma ServerThinner(s: Broker, server: ServerState)
    ensures Thinner(s, s.(server := server))
  {
    hide Thinner;
    SameThinner(s, s.(server := server));
  }

  lemma PurgeThinner(s: Broker, sid: SessionId)
    ensures Thinner(s, Purge(s, sid))
  {
    hide Thinner, Purge, Within;
    PurgeFrame(s, sid);
    PurgeWithin(s, sid);
    WithinThinner(s, Purge(s, sid));
  }

  // ---------- every step ----------

  lemma UnmovedThinner(s: Broker, t: Broker)
    requires Unmoved(s, t)
    requires t.lane.Offering? || t.lane.Refused? ==> (s.lane.Offering? || s.lane.Refused?) && t.lane.a == s.lane.a
    ensures Thinner(s, t)
  {
    hide Rising, Stream;
    forall r: RecordId ensures t.Rec(r).priority == s.Rec(r).priority && t.Rec(r).principal == s.Rec(r).principal && t.Rec(r).state == s.Rec(r).state {
      assert r < |s.records| ==> t.records[r] == s.records[r].(payload := t.records[r].payload);
    }
  }

  lemma QuietLaneMoves(s: Broker, action: Action)
    requires Quiet(action)
    ensures var t := Next(s, action);
            t.lane.Offering? || t.lane.Refused? ==> (s.lane.Offering? || s.lane.Refused?) && t.lane.a == s.lane.a
  {
    hide Next;
    if action.OfferToPool? || action.Watch? { LoopLaneMoves(s, action); } else { OtherLanesStay(s, action); }
  }

  lemma LoopLaneMoves(s: Broker, action: Action)
    requires action.OfferToPool? || action.Watch?
    ensures var t := Next(s, action);
            t.lane.Offering? || t.lane.Refused? ==> (s.lane.Offering? || s.lane.Refused?) && t.lane.a == s.lane.a
  {
  }

  lemma OtherLanesStay(s: Broker, action: Action)
    requires Quiet(action) && !action.OfferToPool? && !action.Watch?
    ensures Next(s, action).lane == s.lane
  {
    hide Next;
    if action.StartTask? || action.WritePipe? || action.RetryTask? || action.Resolve? {
      TaskLanesStay(s, action);
    } else {
      ServerLanesStay(s, action);
    }
  }

  lemma TaskLanesStay(s: Broker, action: Action)
    requires action.StartTask? || action.WritePipe? || action.RetryTask? || action.Resolve?
    ensures Next(s, action).lane == s.lane
  {
    hide Permitted;
    match action
    case StartTask(_) => assert Next(s, action).lane == s.lane;
    case WritePipe(_) => assert Next(s, action).lane == s.lane;
    case RetryTask(_) => assert Next(s, action).lane == s.lane;
    case Resolve(a, outcome) => assert Next(s, action) == ResolvedTo(s, a, outcome);
  }

  lemma ServerLanesStay(s: Broker, action: Action)
    requires action.Tick? || action.Answer? || action.CloseConnection? || action.WriteFrame? || action.Shutdown?
    ensures Next(s, action).lane == s.lane
  {
    hide Post;
    match action
    case Tick(_) => assert Next(s, action).lane == s.lane;
    case Answer(sid) => PostFrame(s, sid, []);
    case CloseConnection(_) => assert Next(s, action).lane == s.lane;
    case WriteFrame(_) => assert Next(s, action).lane == s.lane;
    case Shutdown(_, _) => assert Next(s, action).lane == s.lane;
  }

  lemma QuietThinner(s: Broker, action: Action)
    requires Quiet(action)
    ensures Thinner(s, Next(s, action))
  {
    hide Thinner, Unmoved, Next;
    QuietUnmoved(s, action);
    QuietLaneMoves(s, action);
    UnmovedThinner(s, Next(s, action));
  }

  lemma AdmitOrdered(s: Broker, sid: SessionId, msg: Submission)
    requires Ordered(s) && QueueExact(s) && (s.lane.Offering? || s.lane.Refused? ==> s.Att(s.lane.a).record < |s.records|)
    ensures Ordered(Admit(s, sid, msg))
  {
    hide Admit, Ordered, Stream, Rising, NoDup, Ok, SchedulerSpec.Put, NewRecord;
    AdmitFields(s, sid, msg);
    var t, rec, r := Admit(s, sid, msg), NewRecord(s, sid, msg), |s.records|;
    assert Ok(s.queue);
    PutStreams(s.queue, r, rec.priority, rec.principal, false);
    forall p, q, x | x in Stream(s.queue, p, q) ensures x < r { assert BelongsTo(s, x, p, q); }
    NewcomerOrdered(s, t, r, rec.priority, rec.principal);
  }

  lemma NewcomerOrdered(s: Broker, t: Broker, r: RecordId, priority: int, principal: Principal)
    requires Ordered(s) && t.lane == s.lane && t.attempts == s.attempts && forall x: RecordId :: x < r ==> t.Rec(x) == s.Rec(x)
    requires forall p, q :: Stream(t.queue, p, q) ==
               if p == priority && q == principal then Stream(s.queue, p, q) + [r] else Stream(s.queue, p, q)
    requires forall p, q, x :: x in Stream(s.queue, p, q) ==> x < r
    requires s.lane.Offering? || s.lane.Refused? ==> s.Att(s.lane.a).record < r
    ensures Ordered(t)
  {
    hide Stream, Rising;
    BackRising(Stream(s.queue, priority, principal), r);
  }

  lemma BackRising(rs: seq<RecordId>, r: RecordId)
    requires Rising(rs) && forall x :: x in rs ==> x < r
    ensures Rising(rs + [r])
  {
    var t := rs + [r];
    assert forall k :: 0 <= k < |rs| ==> t[k] == rs[k] && rs[k] in rs;
  }

  lemma SubmittedOrdered(s: Broker, sid: SessionId, msg: Submission, authorized: bool)
    requires Ordered(s) && Dispatch(s)
    ensures Ordered(Submitted(s, sid, msg, authorized))
  {
    hide Ordered, Thinner, Post, Admit, Admissible, CurrentFrame, QueueExact, SlotsExact, AttemptsOk, ClaimsOk;
    var c := s.Sess(sid);
    var known := Find(s, c.requests, msg.id);
    if known.Some? && CurrentFrame(s, known.value).Some? {
      PostThinner(s, s.Rec(known.value).session, [(known.value, CurrentFrame(s, known.value).value)]);
      ThinnerOrdered(s, Tell(s, known.value, CurrentFrame(s, known.value).value));
    }
    PostThinner(s, sid, []);
    ThinnerOrdered(s, Post(s, sid, []));
    var t := s.WithSess(sid, c.(watermark := msg.id.sequence));
    SessionThinner(s, sid, c.(watermark := msg.id.sequence));
    ThinnerOrdered(s, t);
    PostThinner(t, sid, []);
    ThinnerOrdered(t, Post(t, sid, []));
    SessionOnlyDispatch(s, sid, c.(watermark := msg.id.sequence));
    AdmitOrdered(t, sid, msg);
  }

  lemma ClientThinner(s: Broker, action: Action)
    requires Dispatch(s) && ListsOk(s)
    requires action.Acknowledge? || action.CloseSession? || action.Cancel? || action.CancelGroup? || action.Disconnect?
    ensures Thinner(s, Next(s, action))
  {
    hide Thinner, Dispatch, Post, Forget, CancelQueued, Settle, VisitAll, Purge, Within;
    Unthinned(s);
    match action
    case Acknowledge(sid, id) =>
      var known := Find(s, s.Sess(sid).requests, id);
      if known.Some? {
        ForgetFrame(s, known.value);
        ForgetWithin(s, known.value);
        WithinThinner(s, Forget(s, known.value));
      }
    case CloseSession(sid) =>
      var t := s.WithSess(sid, s.Sess(sid).(cleanClose := true));
      SessionThinner(s, sid, s.Sess(sid).(cleanClose := true));
      PostThinner(t, sid, []);
      ThinnerTransitive(s, t, Post(t, sid, []));
    case Cancel(sid, id, hard, authorized) => CancelThinner(s, sid, id, hard, authorized);
    case CancelGroup(sid, group, killable) =>
      var t := VisitAll(s, GroupPass(group, killable), s.Sess(sid).requests);
      VisitAllThinner(s, GroupPass(group, killable), s.Sess(sid).requests);
      PostThinner(t, sid, []);
      ThinnerTransitive(s, t, Post(t, sid, []));
    case Disconnect(sid) => DisconnectThinner(s, sid);
  }

  lemma CancelThinner(s: Broker, sid: SessionId, id: RequestId, hard: bool, authorized: bool)
    requires Dispatch(s)
    ensures Thinner(s, CancelledBy(s, sid, id, hard, authorized))
  {
    hide Thinner, Dispatch, Post, CancelQueued, Settle;
    Unthinned(s);
    PostThinner(s, sid, []);
    var known := Find(s, s.Sess(sid).requests, id);
    if known.Some? {
      var t, u := CancelQueued(s, known.value, Because(Cancelled, "cancelled")), Settle(s, known.value, Because(Cancelled, "terminated"));
      CancelQueuedThinner(s, known.value, Because(Cancelled, "cancelled"));
      CancelQueuedThinner(s, known.value, Because(Cancelled, "terminated"));
      PostThinner(t, sid, []);
      PostThinner(u, sid, []);
      ThinnerTransitive(s, t, Post(t, sid, []));
      ThinnerTransitive(s, u, Post(u, sid, []));
    }
  }

  lemma DisconnectThinner(s: Broker, sid: SessionId)
    requires Dispatch(s) && ListsOk(s)
    ensures Thinner(s, Disconnected(s, sid))
  {
    hide Thinner, Dispatch, VisitAll, Purge;
    Unthinned(s);
    var c := s.Sess(sid);
    var t := s.WithSess(sid, c.(closed := true, disconnected := true));
    SessionThinner(s, sid, c.(closed := true, disconnected := true));
    SessionOnlyDispatch(s, sid, c.(closed := true, disconnected := true));
    VisitAllThinner(t, DisconnectPass, c.requests);
    var v := VisitAll(t, DisconnectPass, c.requests);
    PurgeThinner(t, sid);
    PurgeThinner(v, sid);
    ThinnerTransitive(s, t, v);
    ThinnerTransitive(s, t, Purge(t, sid));
    ThinnerTransitive(s, v, Purge(v, sid));
  }

  lemma ShutdownThinner(s: Broker)
    requires Dispatch(s) && ListsOk(s)
    ensures Thinner(s, ShutdownRound(s))
  {
    hide Thinner, Dispatch, VisitAll, Within;
    Unthinned(s);
    ServerThinner(s, Stopping);
    ServerThinner(s, Stopped);
    VisitAllThinner(s, ShutdownCancelPass, s.requests);
    VisitAllDispatch(s, ShutdownCancelPass, s.requests);
    VisitAllWithin(s, ShutdownCancelPass, s.requests);
    SizesWithin(s, VisitAll(s, ShutdownCancelPass, s.requests));
    var t := if s.shutdownCancel then VisitAll(s, ShutdownCancelPass, s.requests) else s;
    VisitAllThinner(t, ShutdownDeadlinePass, t.requests);
    var u := VisitAll(t, ShutdownDeadlinePass, t.requests);
    ServerThinner(u, Stopping);
    ThinnerTransitive(s, t, u);
    ThinnerTransitive(s, u, u.(server := Stopping));
  }

  lemma EndThinner(s: Broker, action: Action)
    requires action.Notify? || action.GiveUp?
    ensures Thinner(s, Next(s, action))
  {
    hide Thinner, Complete, Within;
    Unthinned(s);
    if action.GiveUp? && s.lane.Broken? {
      var t := Complete(s, s.lane.a, Raised(action.message));
      CompleteQueue(s, s.lane.a, Raised(action.message));
      CompleteWithin(s, s.lane.a, Raised(action.message));
      WithinThinner(s, t);
      TopThinner(t);
      ThinnerTransitive(s, t, t.(lane := AtTop));
    } else if action.Notify? {
      CompleteQueue(s, action.a, OutcomeOf(s.Att(action.a).future));
      CompleteWithin(s, action.a, OutcomeOf(s.Att(action.a).future));
      WithinThinner(s, Complete(s, action.a, OutcomeOf(s.Att(action.a).future)));
    }
  }

  lemma TopThinner(s: Broker)
    ensures Thinner(s, s.(lane := AtTop))
  {
  }

  lemma GrantedThinner(s: Broker, r: RecordId, pid: int)
    ensures Thinner(s, Granted(s, r, pid))
  {
    hide Post, Thinner;
    var rec := s.Rec(r);
    var t := if rec.state == Queued
             then s.WithRec(r, rec.(state := Running, claimed := true)).(running := s.running + 1) else s;
    var u := if rec.future.Some? then t.WithAtt(rec.future.value, t.Att(rec.future.value).(pid := Some(pid))) else t;
    StartedThinner(s, r);
    Unthinned(s);
    PidThinner(t, rec.future, pid);
    PostThinner(u, u.Rec(r).session, [(r, RunningFrame(Some(pid)))]);
    ThinnerTransitive(s, t, u);
    ThinnerTransitive(s, u, Granted(s, r, pid));
  }

  lemma StartedThinner(s: Broker, r: RecordId)
    ensures Thinner(s, s.WithRec(r, s.Rec(r).(state := Running, claimed := true)).(running := s.running + 1))
  {
    hide Rising, Stream;
  }

  lemma PidThinner(s: Broker, future: Option<AttemptId>, pid: int)
    ensures Thinner(s, if future.Some? then s.WithAtt(future.value, s.Att(future.value).(pid := Some(pid))) else s)
  {
    hide Rising, Stream;
  }

  lemma PhaseThinner(s: Broker, a: AttemptId, phase: Phase)
    ensures Thinner(s, s.WithAtt(a, s.Att(a).(phase := phase)))
  {
    hide Rising, Stream;
  }

  lemma ClaimThinner(s: Broker, a: AttemptId, pid: int)
    requires Dispatch(s)
    ensures Thinner(s, ClaimAnswered(s, a, pid))
  {
    hide Thinner, Dispatch, Settle, Granted, Within;
    Unthinned(s);
    var r := s.Att(a).record;
    CancelQueuedThinner(s, r, Because(QueueTimedOut, "queue_timeout"));
    GrantedThinner(s, r, pid);
    var c := Claiming(s, a, pid);
    PhaseThinner(c.0, a, if c.1 then Phase.Claimed else Finished);
    ThinnerTransitive(s, c.0, c.0.WithAtt(a, c.0.Att(a).(phase := if c.1 then Phase.Claimed else Finished)));
  }

  /** The head of a rising stream is before the rest. */
  lemma StagedOrdered(s: Broker, p: int)
    requires Ordered(s) && Dispatch(s) && MayStage(s, p)
    ensures Ordered(Staged(s, p))
  {
    hide SlotsExact, AttemptsOk, ClaimsOk, PopItem, Pop, CanPop;
    PopQueue(s, p);
    StagedDispatch(s, p);
    StreamPopped(s, p);
    var r, q, t := PopItem(s.queue, p), Turn(s.queue, p), Staged(s, p);
    hide Stream, Turn;
    assert t.Rec(r).priority == p && t.Rec(r).principal == q;
  }

  lemma StreamPopped(s: Broker, p: int)
    requires Ordered(s) && Ok(s.queue) && p in s.queue
    ensures CanPop(s.queue, p)
    ensures forall p', q' :: Rising(Stream(Pop(s.queue, p), p', q'))
    ensures forall x :: x in Stream(Pop(s.queue, p), p, Turn(s.queue, p)) ==> PopItem(s.queue, p) < x
  {
    PopStreams(s.queue, p);
    var xs := Stream(s.queue, p, Turn(s.queue, p));
    assert xs != [] && PopItem(s.queue, p) == xs[0];
    assert forall x :: x in xs[1..] ==> exists i :: 1 <= i < |xs| && xs[i] == x;
  }

  lemma RestoredOrdered(s: Broker)
    requires Ordered(s) && Dispatch(s)
    ensures Ordered(Restored(s))
  {
    hide SlotsExact, AttemptsOk, ClaimsOk, QueueExact, SchedulerSpec.Put;
    if s.lane.Refused? {
      var r := s.Att(s.lane.a).record;
      var rec := s.Rec(r);
      OkQueue(s);
      PutStreams(s.queue, r, rec.priority, rec.principal, true);
      hide Stream;
      if rec.state == Queued { FrontRising(Stream(s.queue, rec.priority, rec.principal), r); }
      assert Restored(s).lane == AtTop;
      assert rec.state == Queued ==> Restored(s).queue == SchedulerSpec.Put(s.queue, r, rec.priority, rec.principal, true);
    }
  }

  lemma FrontRising(rs: seq<RecordId>, r: RecordId)
    requires Rising(rs) && forall x :: x in rs ==> r < x
    ensures Rising([r] + rs)
  {
    var t := [r] + rs;
    assert forall k :: 1 <= k < |t| ==> t[k] == rs[k - 1] && rs[k - 1] in rs;
  }

  lemma OkQueue(s: Broker)
    requires Dispatch(s)
    ensures Ok(s.queue)
  {
  }

  /** Every other step only takes out of the queue. */
  lemma OtherThinner(s: Broker, action: Action)
    requires Dispatch(s) && ListsOk(s)
    requires !Quiet(action) && !action.Submit? && !action.Stage? && !action.Restore?
    ensures Thinner(s, Next(s, action))
  {
    hide Dispatch, ListsOk, Thinner, ClaimAnswered, Acknowledged, ClosedCleanly, CancelledBy, GroupCancelledBy, Disconnected,
         VisitAll, Handshaken, ShutdownRound, GivenUp, Notified;
    match action
    case Handshake(client, principal, offered) => HandshakeThinner(s, client, principal, offered);
    case Expire => ExpireThinner(s);
    case Claim(a, pid) => ClaimThinner(s, a, pid);
    case GiveUp(_) => EndThinner(s, action);
    case Notify(_) => EndThinner(s, action);
    case FinishShutdown => ShutdownThinner(s);
    case _ => ClientThinner(s, action);
  }

  lemma StepOrdered(s: Broker, action: Action)
    requires Dispatch(s) && ListsOk(s) && Ordered(s)
    ensures Ordered(Next(s, action))
  {
    hide Dispatch, ListsOk, Ordered, Thinner, Next;
    if Quiet(action) {
      QuietThinner(s, action);
      ThinnerOrdered(s, Next(s, action));
    } else if action.Submit? || action.Stage? || action.Restore? {
      QueueStepOrdered(s, action);
    } else {
      OtherThinner(s, action);
      ThinnerOrdered(s, Next(s, action));
    }
  }

  lemma QueueStepOrdered(s: Broker, action: Action)
    requires Dispatch(s) && Ordered(s)
    requires action.Submit? || action.Stage? || action.Restore?
    ensures Ordered(Next(s, action))
  {
    hide Dispatch, Ordered, Staged, Restored, Submitted;
    if action.Submit? {
      SubmittedOrdered(s, action.sid, action.msg, action.authorized);
    } else if action.Restore? {
      RestoredOrdered(s);
    } else if p :| MayStage(s, p) && Next(s, Stage) == Staged(s, p) {
      StagedOrdered(s, p);
    }
  }

  lemma HandshakeThinner(s: Broker, client: string, principal: Principal, offered: nat)
    ensures Thinner(s, Handshaken(s, client, principal, offered))
  {
    hide Thinner;
    SameThinner(s, Handshaken(s, client, principal, offered));
  }

  lemma ExpireThinner(s: Broker)
    requires Dispatch(s) && ListsOk(s)
    ensures Thinner(s, VisitAll(s, ExpirePass, s.requests))
  {
    hide Dispatch, Thinner;
    VisitAllThinner(s, ExpirePass, s.requests);
  }

  lemma {:induction false} RunOrdered(s: Broker, actions: seq<Action>)
    requires Invariant(s) && Ordered(s) && OrderlyRun(s, actions)
    ensures Ordered(Run(s, actions))
    decreases |actions|
  {
    hide Invariant, Dispatch, Paired, AttemptsOk, ClaimsOk, Kept, Retained, ListsOk, PayloadsFit, Departed, Story, Sequenced, Rest,
         Ordered, Next, Orderly;
    if actions != [] {
      InvariantParts(s);
      StepOrdered(s, actions[0]);
      StepKeepsInvariant(s, actions[0]);
      RunOrdered(Next(s, actions[0]), actions[1..]);
    }
  }

  // ---------- what is staged, and when ----------

  /** The loop stages if and only if it is free, the server takes work, a slot is left and a request waits. */
  lemma StagesExactlyWhen(s: Broker)
    requires Invariant(s)
    ensures Next(s, Stage) != s <==>
              && s.lane == AtTop && (s.server == Serving || s.server == Draining) && s.staged < s.config.maxStaged
              && exists r: RecordId :: r < |s.records| && Unstaged(s, r)
  {
    hide Retention, Departed, Log, Sequenced, Counted, StoppedWhenDecided, AttemptsOk, ClaimsOk, Staged, Pop, PopItem;
    if p :| MayStage(s, p) {
      StageIs(s, p);
      PoppedIsQueued(s, p);
      StagedMoves(s, p);
    }
    if s.lane == AtTop && (s.server == Serving || s.server == Draining) && s.staged < s.config.maxStaged {
      if r: RecordId :| r < |s.records| && Unstaged(s, r) {
        assert r in Stream(s.queue, s.records[r].priority, s.records[r].principal);
        var p := Fairness.Least(s.queue);
        assert MayStage(s, p);
      }
    }
  }

  lemma StagedMoves(s: Broker, p: int)
    requires CanPop(s.queue, p) && s.Rec(PopItem(s.queue, p)).state == Queued
    ensures Staged(s, p).staged == s.staged + 1
  {
    hide Pop, PopItem;
  }

  /** The request staged: none that waits has a smaller priority, and of its principal's at that priority it was admitted first. */
  ghost predicate Foremost(s: Broker, r: RecordId) {
    && r < |s.records| && Unstaged(s, r)
    && forall x: RecordId :: x < |s.records| && Unstaged(s, x) ==>
         && s.records[r].priority <= s.records[x].priority
         && (s.records[r].priority == s.records[x].priority && s.records[r].principal == s.records[x].principal ==> r <= x)
  }

  /** Staging takes the foremost request, gives it a new attempt and one slot, and touches no other. */
  lemma StagesForemost(s: Broker)
    requires Invariant(s) && Ordered(s) && Next(s, Stage) != s
    ensures exists r: RecordId :: Foremost(s, r) && TookUp(s, r, Next(s, Stage))
  {
    hide Invariant, Ordered, Staged, Pop, PopItem;
    var p :| MayStage(s, p);
    StageIs(s, p);
    PoppedIsQueued(s, p);
    TookUpPopped(s, p);
    PoppedForemost(s, p);
  }

  ghost predicate TookUp(s: Broker, r: RecordId, t: Broker) {
    var a := |s.attempts|;
    && r < |s.records| && t.records == s.records[r := s.records[r].(future := Some(a))]
    && t.attempts == s.attempts + [Attempt(r, Offered, Pending, false, false, None)]
    && t.lane == Offering(a) && t.staged == s.staged + 1 && t.sent == s.sent && t.requests == s.requests && t.sessions == s.sessions
  }

  lemma TookUpPopped(s: Broker, p: int)
    requires CanPop(s.queue, p) && PopItem(s.queue, p) < |s.records| && s.records[PopItem(s.queue, p)].state == Queued
    ensures TookUp(s, PopItem(s.queue, p), Staged(s, p))
  {
    hide Pop, PopItem;
  }

  lemma PoppedForemost(s: Broker, p: int)
    requires Invariant(s) && Ordered(s) && MayStage(s, p)
    ensures Foremost(s, PopItem(s.queue, p))
  {
    hide Retention, Departed, Log, Sequenced, Counted, StoppedWhenDecided, AttemptsOk, ClaimsOk, SlotsExact, Pop;
    PopQueue(s, p);
    var r, q := PopItem(s.queue, p), Turn(s.queue, p);
    var xs := Stream(s.queue, p, q);
    assert xs[0] == r;
    forall x: RecordId | x < |s.records| && Unstaged(s, x)
      ensures s.records[r].priority <= s.records[x].priority
      ensures s.records[r].priority == s.records[x].priority && s.records[r].principal == s.records[x].principal ==> r <= x
    {
      assert x in Stream(s.queue, s.records[x].priority, s.records[x].principal);
    }
  }

  /** In every state a server can get to, what is staged next is the foremost request. */
  lemma ReachableStagesForemost(config: Config, actions: seq<Action>)
    requires OrderlyRun(Init(config), actions)
    ensures var s := Run(Init(config), actions);
            Next(s, Stage) != s ==> exists r: RecordId :: Foremost(s, r) && TookUp(s, r, Next(s, Stage))
  {
    hide Invariant, Ordered, Run, OrderlyRun, Next, Foremost, TookUp;
    InitInvariant(config);
    assert Ordered(Init(config)) by { InitOrdered(config); }
    RunOrdered(Init(config), actions);
    RunKeepsInvariant(Init(config), actions);
    var s := Run(Init(config), actions);
    if Next(s, Stage) != s { StagesForemost(s); }
  }

  lemma InitOrdered(config: Config)
    ensures Ordered(Init(config))
  {
  }

  /** The priority, principal and deadline a request is staged and judged by are those it was submitted with, whatever happens later. */
  lemma SubmittedForGood(s: Broker, sid: SessionId, msg: Submission, authorized: bool, later: seq<Action>)
    requires Invariant(s) && Admits(s, sid, msg, authorized) && sid in s.registered
    requires OrderlyRun(Next(s, Submit(sid, msg, authorized)), later)
    ensures var u, r := Run(Next(s, Submit(sid, msg, authorized)), later), |s.records|;
            && r < |u.records| && Some(u.records[r].priority) == msg.priority && u.records[r].principal == s.Sess(sid).principal
            && u.records[r].id == msg.id && u.records[r].group == msg.group && u.records[r].reserved == s.Sess(sid).maxResult
            && u.records[r].deadline == if msg.queueTimeout.Some? then Some(s.now + msg.queueTimeout.value) else None
  {
    hide Invariant, Run, OrderlyRun, Next, Submitted, Admits;
    RegisteredHere(s, sid);
    SubmitAdmitted(s, sid, msg, authorized);
    SubmitStep(s, Submit(sid, msg, authorized));
    StepKeepsInvariant(s, Submit(sid, msg, authorized));
    var t := Next(s, Submit(sid, msg, authorized));
    RunKeepsInvariant(t, later);
    assert RecordForward(t.records[|s.records|], Run(t, later).records[|s.records|]);
  }

  lemma RegisteredHere(s: Broker, sid: SessionId)
    requires Invariant(s) && sid in s.registered
    ensures sid < |s.sessions|
  {
  }
}
