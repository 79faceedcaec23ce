/** Every step keeps the retention invariant, the clients' story, the counters and the names. */
module BrokerSteps {
  import opened Options
  import opened SchedulerSpec
  import opened BrokerState
  import opened BrokerInvariant
  import opened BrokerDispatch
  import opened BrokerDispatchSteps
  import opened BrokerRetention
  import opened BrokerDeparture
  import opened BrokerQuiet

  /** What `_submit` admits: none of its earlier branches is taken. */
  predicate Admits(s: Broker, sid: SessionId, msg: Submission, authorized: bool) {
    var c := s.Sess(sid);
    && !c.disconnected && msg.id.client == c.client
    && Find(s, c.requests, msg.id).None?
    && msg.id.sequence > c.watermark
    && Admissible(s, sid, msg, authorized)
  }

  /** Assumption on the reader threads: a SUBMIT that is admitted finds its session registered. */
  predicate Orderly(s: Broker, action: Action) {
    action.Submit? ==> action.sid in s.registered || !Admits(s, action.sid, action.msg, action.authorized)
  }

  lemma {:induction false} SamePrincipals(s: Broker, t: Broker, rs: seq<RecordId>, principal: Principal)
    requires t.records == s.records
    ensures CountPrincipal(t, rs, principal) == CountPrincipal(s, rs, principal)
    decreases |rs|
  {
    if rs != [] { SamePrincipals(s, t, rs[1..], principal); }
  }

  /** Raising the watermark does not touch the later checks. */
  lemma WatermarkApart(s: Broker, sid: SessionId, msg: Submission, authorized: bool)
    ensures Admissible(s.WithSess(sid, s.Sess(sid).(watermark := msg.id.sequence)), sid, msg, authorized) <==>
            Admissible(s, sid, msg, authorized)
  {
    SamePrincipals(s, s.WithSess(sid, s.Sess(sid).(watermark := msg.id.sequence)), s.requests, s.Sess(sid).principal);
  }

  lemma ListsInRange(s: Broker)
    requires Retained(s)
    ensures ListsOk(s)
  {
    forall sid, r | 0 <= sid < |s.sessions| && r in s.sessions[sid].requests ensures r < |s.records| { assert HeldBy(s, r, sid); }
  }

  // ---------- dispatch ----------

  lemma QuietDispatch(s: Broker, action: Action)
    requires Dispatch(s) && Quiet(action)
    ensures Dispatch(Next(s, action))
  {
    hide Dispatch, Post, OfferAnswered, Watched, ResolvedTo, SameDispatch, ShutdownRequested, Broker.WithAtt, Broker.WithSess;
    match action
    case Tick(elapsed) => TickDispatch(s, s.now + elapsed);
    case Answer(sid) => PostDispatch(s, sid, []);
    case CloseConnection(sid) => SessionOnlyDispatch(s, sid, s.Sess(sid).(closed := true));
    case WriteFrame(sid) =>
      if s.Sess(sid).outbound > 0 { SessionOnlyDispatch(s, sid, s.Sess(sid).(outbound := s.Sess(sid).outbound - 1)); }
    case Shutdown(cancel, deadline) => RequestedDispatch(s, cancel, deadline);
    case _ => AttemptDispatch(s, action);
  }

  lemma AttemptDispatch(s: Broker, action: Action)
    requires Dispatch(s)
    requires action.OfferToPool? || action.Watch? || action.StartTask? || action.WritePipe? || action.RetryTask? || action.Resolve?
    ensures Dispatch(Next(s, action))
  {
    hide Dispatch, OfferAnswered, Watched, ResolvedTo, Broker.WithAtt;
    match action
    case OfferToPool(answer) => OfferAnsweredDispatch(s, answer);
    case Watch => WatchedDispatch(s);
    case StartTask(a) => if s.Att(a).phase == Waiting { StartTaskDispatch(s, a); }
    case WritePipe(a) => if s.Att(a).phase == Phase.Claimed { WritePipeDispatch(s, a); }
    case RetryTask(a) => if s.Att(a).phase == Phase.Claimed { RetryTaskDispatch(s, a); }
    case Resolve(a, o) => ResolvedDispatch(s, a, o);
  }

  lemma TickDispatch(s: Broker, now: int)
    requires Dispatch(s)
    ensures Dispatch(s.(now := now))
  {
    hide Dispatch;
    QuietFramed(s, s.(now := now));
  }

  lemma RequestedDispatch(s: Broker, cancel: bool, deadline: Option<int>)
    requires Dispatch(s)
    ensures Dispatch(ShutdownRequested(s, cancel, deadline))
  {
    hide Dispatch;
    QuietFramed(s, ShutdownRequested(s, cancel, deadline));
  }

  lemma QuietFramed(s: Broker, t: Broker)
    requires Dispatch(s) && SameDispatch(s, t)
    ensures Dispatch(t)
  {
    DispatchFramed(s, t);
  }

  lemma ClaimedDispatchAny(s: Broker, a: AttemptId, pid: int)
    requires Dispatch(s)
    ensures Dispatch(ClaimAnswered(s, a, pid))
  {
    hide Dispatch, Claiming;
    if a < |s.attempts| { ClaimedDispatch(s, a, pid); }
  }

  lemma StageDispatch(s: Broker)
    requires Dispatch(s)
    ensures Dispatch(Next(s, Stage))
  {
    hide Dispatch, Staged;
    if p :| MayStage(s, p) && Next(s, Stage) == Staged(s, p) { StagedDispatch(s, p); }
  }

  lemma StepDispatch(s: Broker, action: Action)
    requires Dispatch(s) && ListsOk(s)
    ensures Dispatch(Next(s, action))
  {
    hide Dispatch, ListsOk, Staged, Restored, ClaimAnswered, VisitAll, ShutdownRound, GivenUp, Notified;
    if Quiet(action) {
      QuietDispatch(s, action);
    } else {
      match action
      case Handshake(client, principal, offered) => QuietFramed(s, Next(s, action));
      case Expire => ExpireDispatch(s);
      case Stage => StageDispatch(s);
      case Restore => RestoredDispatch(s);
      case GiveUp(message) => GivenUpDispatch(s, message);
      case Claim(a, pid) => ClaimedDispatchAny(s, a, pid);
      case Notify(a) => NotifiedDispatch(s, a);
      case FinishShutdown => ShutdownDispatch(s);
      case _ => ClientDispatch(s, action);
    }
  }

  lemma ExpireDispatch(s: Broker)
    requires Dispatch(s) && ListsOk(s)
    ensures Dispatch(VisitAll(s, ExpirePass, s.requests))
  {
    hide Dispatch;
    VisitAllDispatch(s, ExpirePass, s.requests);
  }

  // ---------- retention ----------

  lemma UnmovedRetention(s: Broker, t: Broker)
    requires Unmoved(s, t)
    ensures SameRetention(s, t)
  {
    forall r | 0 <= r < |s.records| ensures SameKeeping(s.records[r], t.records[r]) {
      assert t.records[r] == s.records[r].(payload := t.records[r].payload);
    }
    forall sid | 0 <= sid < |s.sessions| ensures SameAccount(s.sessions[sid], t.sessions[sid]) {
      assert SameButConnection(s.sessions[sid], t.sessions[sid]);
    }
  }

  lemma PostKept(s: Broker, sid: SessionId, entry: seq<(RecordId, Frame)>)
    requires Kept(s)
    ensures Kept(Post(s, sid, entry))
  {
    PostSame(s, sid, entry);
    RetentionFramed(s, Post(s, sid, entry));
  }

  lemma SubmittedKept(s: Broker, sid: SessionId, msg: Submission, authorized: bool)
    requires Kept(s) && Orderly(s, Submit(sid, msg, authorized))
    ensures Kept(Submitted(s, sid, msg, authorized))
  {
    hide Kept, Post, Admit, CurrentFrame, HasRoom;
    WatermarkApart(s, sid, msg, authorized);
    var c := s.Sess(sid);
    var known := Find(s, c.requests, msg.id);
    if known.Some? && CurrentFrame(s, known.value).Some? {
      PostKept(s, s.Rec(known.value).session, [(known.value, CurrentFrame(s, known.value).value)]);
    }
    PostKept(s, sid, []);
    var t := s.WithSess(sid, c.(watermark := msg.id.sequence));
    RetentionFramed(s, t);
    PostKept(t, sid, []);
    if Admits(s, sid, msg, authorized) { AdmitKept(t, sid, msg); }
  }

  lemma CancelledByKept(s: Broker, sid: SessionId, id: RequestId, hard: bool, authorized: bool)
    requires Kept(s)
    ensures Kept(CancelledBy(s, sid, id, hard, authorized))
  {
    hide Kept, Post, CancelQueued, Settle;
    var known := Find(s, s.Sess(sid).requests, id);
    PostKept(s, sid, []);
    if known.Some? {
      var r := known.value;
      CancelQueuedKept(s, r, Because(Cancelled, "cancelled"));
      PostKept(CancelQueued(s, r, Because(Cancelled, "cancelled")), sid, []);
      SettleKept(s, r, Because(Cancelled, "terminated"));
      PostKept(Settle(s, r, Because(Cancelled, "terminated")), sid, []);
    }
  }

  lemma DisconnectedKept(s: Broker, sid: SessionId)
    requires Kept(s)
    ensures Kept(Disconnected(s, sid))
  {
    hide Kept, VisitAll, Purge;
    var c := s.Sess(sid);
    var t := s.WithSess(sid, c.(closed := true, disconnected := true));
    RetentionFramed(s, t);
    VisitAllKept(t, DisconnectPass, c.requests);
    PurgeKept(t, sid);
    PurgeKept(VisitAll(t, DisconnectPass, c.requests), sid);
  }

  lemma ShutdownKept(s: Broker)
    requires Kept(s)
    ensures Kept(ShutdownRound(s))
  {
    hide Kept, VisitAll;
    RetentionFramed(s, s.(server := Stopping));
    RetentionFramed(s, s.(server := Stopped));
    VisitAllKept(s, ShutdownCancelPass, s.requests);
    var t := if s.shutdownCancel then VisitAll(s, ShutdownCancelPass, s.requests) else s;
    VisitAllKept(t, ShutdownDeadlinePass, t.requests);
    var u := VisitAll(t, ShutdownDeadlinePass, t.requests);
    RetentionFramed(u, u.(server := Stopping));
  }

  lemma ClaimedKept(s: Broker, a: AttemptId, pid: int)
    requires Kept(s)
    ensures Kept(ClaimAnswered(s, a, pid))
  {
    hide Kept, Settle, Granted;
    var r := s.Att(a).record;
    SettleKept(s, r, Because(QueueTimedOut, "queue_timeout"));
    GrantedKept(s, r, pid);
    var c := Claiming(s, a, pid);
    PhaseKept(c.0, a, if c.1 then Phase.Claimed else Finished);
  }

  lemma GrantedKept(s: Broker, r: RecordId, pid: int)
    requires Kept(s)
    ensures Kept(Granted(s, r, pid))
  {
    hide Kept, Post, SameRetention;
    var rec := s.Rec(r);
    var t := if rec.state == Queued
             then s.WithRec(r, rec.(state := Running, claimed := true)).(running := s.running + 1) else s;
    var u := if rec.future.Some? then t.WithAtt(rec.future.value, t.Att(rec.future.value).(pid := Some(pid))) else t;
    GrantedSame(s, t, u);
    RetentionFramed(s, u);
    PostKept(u, u.Rec(r).session, [(r, RunningFrame(Some(pid)))]);
  }

  lemma GrantedSame(s: Broker, t: Broker, u: Broker)
    requires t == s.(records := t.records, running := t.running) && |t.records| == |s.records| && u == t.(attempts := u.attempts)
    requires forall r :: 0 <= r < |s.records| ==> SameKeeping(s.records[r], t.records[r])
    ensures SameRetention(s, u)
  {
  }

  lemma PhaseKept(s: Broker, a: AttemptId, phase: Phase)
    requires Kept(s)
    ensures Kept(s.WithAtt(a, s.Att(a).(phase := phase)))
  {
    RetentionFramed(s, s.WithAtt(a, s.Att(a).(phase := phase)));
  }

  lemma StageKept(s: Broker)
    requires Kept(s)
    ensures Kept(Next(s, Stage))
  {
    hide Kept, SameRetention, Staged;
    if p :| MayStage(s, p) && Next(s, Stage) == Staged(s, p) {
      StagedSame(s, p);
      RetentionFramed(s, Staged(s, p));
    }
  }

  lemma StagedSame(s: Broker, p: int)
    requires CanPop(s.queue, p)
    ensures SameRetention(s, Staged(s, p))
  {
    hide SchedulerSpec.Pop, SchedulerSpec.PopItem;
  }

  /** Only futures, ended attempts, the slot count, the lane and the queue differ. */
  ghost predicate FuturesOnly(s: Broker, t: Broker) {
    && t == s.(records := t.records, attempts := t.attempts, staged := t.staged, lane := t.lane, queue := t.queue)
    && |t.records| == |s.records| && |t.attempts| == |s.attempts|
    && (forall r :: 0 <= r < |s.records| ==> t.records[r] == s.records[r].(future := t.records[r].future))
    && (forall a :: 0 <= a < |s.attempts| ==> t.attempts[a] == s.attempts[a].(over := t.attempts[a].over))
  }

  lemma FutureDropped(s: Broker, r: RecordId, a: AttemptId, staged: int, queue: Sched<RecordId>)
    ensures FuturesOnly(s, s.WithRec(r, s.Rec(r).(future := None)).WithAtt(a, s.Att(a).(over := true))
                            .(staged := staged, lane := AtTop, queue := queue))
  {
  }

  lemma RestoredFields(s: Broker)
    ensures FuturesOnly(s, Restored(s))
  {
    hide SchedulerSpec.Put, FuturesOnly;
    if s.lane.Refused? {
      FutureDropped(s, s.Att(s.lane.a).record, s.lane.a, s.staged - 1, Restored(s).queue);
    } else {
      SameFutures(s);
    }
  }

  lemma SameFutures(s: Broker)
    ensures FuturesOnly(s, s)
  {
  }

  lemma RestoredKept(s: Broker)
    requires Kept(s)
    ensures Kept(Restored(s))
  {
    hide Kept, Restored;
    RestoredFields(s);
    RetentionFramed(s, Restored(s));
  }

  lemma AttemptEndKept(s: Broker, action: Action)
    requires Kept(s) && (action.Notify? || action.GiveUp?)
    ensures Kept(Next(s, action))
  {
    hide Kept, Complete;
    if action.GiveUp? && s.lane.Broken? {
      var t := Complete(s, s.lane.a, Raised(action.message));
      CompleteKept(s, s.lane.a, Raised(action.message));
      RetentionFramed(t, t.(lane := AtTop));
    } else if action.Notify? {
      CompleteKept(s, action.a, OutcomeOf(s.Att(action.a).future));
    }
  }

  lemma AcknowledgedKept(s: Broker, sid: SessionId, id: RequestId)
    requires Kept(s)
    ensures Kept(Acknowledged(s, sid, id))
  {
    FindIn(s, s.Sess(sid).requests, id);
    var known := Find(s, s.Sess(sid).requests, id);
    if known.Some? {
      KeptInRange(s, sid);
      if s.Decided(known.value) { ForgetKept(s, known.value); }
    }
  }

  lemma ClosedCleanlyKept(s: Broker, sid: SessionId)
    requires Kept(s)
    ensures Kept(ClosedCleanly(s, sid))
  {
    hide Kept, Post;
    var t := s.WithSess(sid, s.Sess(sid).(cleanClose := true));
    RetentionFramed(s, t);
    PostKept(t, sid, []);
  }

  lemma StepKept(s: Broker, action: Action)
    requires Kept(s) && Orderly(s, action)
    ensures Kept(Next(s, action))
  {
    hide Kept, Staged, Restored, ClaimAnswered, Submitted, Acknowledged, ClosedCleanly, CancelledBy,
         Disconnected, VisitAll, Handshaken, ShutdownRound, GivenUp, Notified, Post, Watched, OfferAnswered, ResolvedTo;
    if Quiet(action) {
      QuietUnmoved(s, action);
      UnmovedRetention(s, Next(s, action));
      RetentionFramed(s, Next(s, action));
    } else {
      match action
      case Handshake(client, principal, offered) => HandshakenKept(s, client, principal, offered);
      case Submit(sid, msg, authorized) => SubmittedKept(s, sid, msg, authorized);
      case Acknowledge(sid, id) => AcknowledgedKept(s, sid, id);
      case CloseSession(sid) => ClosedCleanlyKept(s, sid);
      case Cancel(sid, id, hard, authorized) => CancelledByKept(s, sid, id, hard, authorized);
      case CancelGroup(sid, group, killable) =>
        VisitAllKept(s, GroupPass(group, killable), s.Sess(sid).requests);
        PostKept(VisitAll(s, GroupPass(group, killable), s.Sess(sid).requests), sid, []);
      case Disconnect(sid) => DisconnectedKept(s, sid);
      case Expire => VisitAllKept(s, ExpirePass, s.requests);
      case Stage => StageKept(s);
      case Restore => RestoredKept(s);
      case GiveUp(_) => AttemptEndKept(s, action);
      case Notify(_) => AttemptEndKept(s, action);
      case Claim(a, pid) => ClaimedKept(s, a, pid);
      case FinishShutdown => ShutdownKept(s);
    }
  }

  // ---------- outcome sizes ----------

  lemma UnmovedFits(s: Broker, t: Broker)
    requires Unmoved(s, t) && PayloadsFit(s)
    requires forall a :: 0 <= a < |s.attempts| && t.attempts[a].future.Resolved? && t.attempts[a].future != s.attempts[a].future ==>
               |PayloadOf(t.attempts[a].future.outcome)| <= s.Rec(s.attempts[a].record).reserved
    ensures PayloadsFit(t)
  {
    forall r | 0 <= r < |t.records| ensures PayloadSize(t.records[r]) <= t.records[r].reserved {
      assert t.records[r] == s.records[r].(payload := t.records[r].payload);
    }
    forall a | 0 <= a < |t.attempts| && t.attempts[a].future.Resolved?
      ensures |PayloadOf(t.attempts[a].future.outcome)| <= t.Rec(t.attempts[a].record).reserved
    {
      var r := s.attempts[a].record;
      assert t.attempts[a].record == r;
      assert r < |s.records| ==> t.records[r] == s.records[r].(payload := t.records[r].payload);
    }
  }

  /** A worker's outcome was capped at the size reserved for it. */
  lemma QuietFits(s: Broker, action: Action)
    requires PayloadsFit(s) && Quiet(action)
    ensures PayloadsFit(Next(s, action))
  {
    hide Unmoved, PayloadsFit, Post;
    QuietUnmoved(s, action);
    QuietFutures(s, action);
    UnmovedFits(s, Next(s, action));
  }

  /** A step that gives an attempt a result gives it one of the size reserved for it. */
  ghost predicate FittingResults(s: Broker, t: Broker) {
    && |t.attempts| == |s.attempts|
    && forall a :: 0 <= a < |s.attempts| && t.attempts[a].future.Resolved? && t.attempts[a].future != s.attempts[a].future ==>
         |PayloadOf(t.attempts[a].future.outcome)| <= s.Rec(s.attempts[a].record).reserved
  }

  lemma SameResults(s: Broker, t: Broker)
    requires |t.attempts| == |s.attempts| && forall a :: 0 <= a < |s.attempts| ==> t.attempts[a].future == s.attempts[a].future
    ensures FittingResults(s, t)
  {
  }

  lemma ResolvedResults(s: Broker, a: AttemptId, o: Outcome)
    ensures FittingResults(s, ResolvedTo(s, a, o))
  {
    assert Permitted(s, a, o) && !o.Returned? ==> PayloadOf(o) == [];
  }

  lemma LaneResults(s: Broker, answer: Offer)
    ensures FittingResults(s, OfferAnswered(s, answer)) && FittingResults(s, Watched(s))
  {
    SameResults(s, OfferAnswered(s, answer));
    SameResults(s, Watched(s));
  }

  lemma PhaseResults(s: Broker, a: AttemptId, phase: Phase)
    ensures FittingResults(s, s.WithAtt(a, s.Att(a).(phase := phase))) && FittingResults(s, s)
  {
  }

  lemma QuietFutures(s: Broker, action: Action)
    requires Quiet(action)
    ensures FittingResults(s, Next(s, action))
  {
    hide FittingResults, ResolvedTo, Post, OfferAnswered, Watched, Broker.WithAtt;
    match action
    case Answer(sid) =>
      PostFrame(s, sid, []);
      SameResults(s, Next(s, action));
    case Resolve(a, o) => ResolvedResults(s, a, o);
    case OfferToPool(answer) => LaneResults(s, answer);
    case Watch => LaneResults(s, Admitted);
    case StartTask(a) => PhaseResults(s, a, Started);
    case RetryTask(a) => PhaseResults(s, a, Started);
    case _ => OtherResults(s, action);
  }

  lemma OtherResults(s: Broker, action: Action)
    requires action.Tick? || action.CloseConnection? || action.WriteFrame? || action.WritePipe? || action.Shutdown?
    ensures FittingResults(s, Next(s, action))
  {
    SameResults(s, Next(s, action));
  }

  lemma PostFits(s: Broker, sid: SessionId, entry: seq<(RecordId, Frame)>)
    requires PayloadsFit(s)
    ensures PayloadsFit(Post(s, sid, entry))
  {
    PostNoLarger(s, sid, entry);
    NoLargerFits(s, Post(s, sid, entry));
  }

  lemma AdmitFits(s: Broker, sid: SessionId, msg: Submission)
    requires PayloadsFit(s) && Paired(s)
    ensures PayloadsFit(Admit(s, sid, msg))
  {
    AdmitFields(s, sid, msg);
    var t := Admit(s, sid, msg);
    hide Admit;
    forall a | 0 <= a < |t.attempts| && t.attempts[a].future.Resolved?
      ensures |PayloadOf(t.attempts[a].future.outcome)| <= t.Rec(t.attempts[a].record).reserved
    {
      assert s.attempts[a].record < |s.records|;
    }
  }

  lemma SubmittedFits(s: Broker, sid: SessionId, msg: Submission, authorized: bool)
    requires PayloadsFit(s) && Paired(s)
    ensures PayloadsFit(Submitted(s, sid, msg, authorized))
  {
    hide PayloadsFit, Post, Admit, CurrentFrame, HasRoom;
    var c := s.Sess(sid);
    var known := Find(s, c.requests, msg.id);
    if known.Some? && CurrentFrame(s, known.value).Some? {
      PostFits(s, s.Rec(known.value).session, [(known.value, CurrentFrame(s, known.value).value)]);
    }
    PostFits(s, sid, []);
    var t := s.WithSess(sid, c.(watermark := msg.id.sequence));
    NoLargerFits(s, t);
    PostFits(t, sid, []);
    AdmitFits(t, sid, msg);
  }

  lemma CancelledByFits(s: Broker, sid: SessionId, id: RequestId, hard: bool, authorized: bool)
    requires PayloadsFit(s)
    ensures PayloadsFit(CancelledBy(s, sid, id, hard, authorized))
  {
    hide PayloadsFit, Post, CancelQueued, Settle;
    var known := Find(s, s.Sess(sid).requests, id);
    PostFits(s, sid, []);
    if known.Some? {
      var r := known.value;
      SettleFits(s, r, Because(Cancelled, "cancelled"));
      PostFits(CancelQueued(s, r, Because(Cancelled, "cancelled")), sid, []);
      SettleFits(s, r, Because(Cancelled, "terminated"));
      PostFits(Settle(s, r, Because(Cancelled, "terminated")), sid, []);
    }
  }

  lemma DisconnectedFits(s: Broker, sid: SessionId)
    requires PayloadsFit(s)
    ensures PayloadsFit(Disconnected(s, sid))
  {
    hide PayloadsFit, VisitAll, Purge;
    var c := s.Sess(sid);
    var t := s.WithSess(sid, c.(closed := true, disconnected := true));
    NoLargerFits(s, t);
    VisitAllFits(t, DisconnectPass, c.requests);
    PurgeFits(t, sid);
    PurgeFits(VisitAll(t, DisconnectPass, c.requests), sid);
  }

  lemma ShutdownFits(s: Broker)
    requires PayloadsFit(s)
    ensures PayloadsFit(ShutdownRound(s))
  {
    hide PayloadsFit, VisitAll;
    NoLargerFits(s, s.(server := Stopping));
    NoLargerFits(s, s.(server := Stopped));
    VisitAllFits(s, ShutdownCancelPass, s.requests);
    var t := if s.shutdownCancel then VisitAll(s, ShutdownCancelPass, s.requests) else s;
    VisitAllFits(t, ShutdownDeadlinePass, t.requests);
    var u := VisitAll(t, ShutdownDeadlinePass, t.requests);
    NoLargerFits(u, u.(server := Stopping));
  }

  lemma ClaimedFits(s: Broker, a: AttemptId, pid: int)
    requires PayloadsFit(s)
    ensures PayloadsFit(ClaimAnswered(s, a, pid))
  {
    hide PayloadsFit, Settle, Post;
    var r := s.Att(a).record;
    SettleFits(s, r, Because(QueueTimedOut, "queue_timeout"));
    var rec := s.Rec(r);
    var t := if rec.state == Queued
             then s.WithRec(r, rec.(state := Running, claimed := true)).(running := s.running + 1) else s;
    var u := if rec.future.Some? then t.WithAtt(rec.future.value, t.Att(rec.future.value).(pid := Some(pid))) else t;
    NoLargerFits(s, u);
    PostFits(u, u.Rec(r).session, [(r, RunningFrame(Some(pid)))]);
    var c := Claiming(s, a, pid);
    PhaseFits(c.0, a, if c.1 then Phase.Claimed else Finished);
  }

  lemma PhaseFits(s: Broker, a: AttemptId, phase: Phase)
    requires PayloadsFit(s)
    ensures PayloadsFit(s.WithAtt(a, s.Att(a).(phase := phase)))
  {
    NoLargerFits(s, s.WithAtt(a, s.Att(a).(phase := phase)));
  }

  lemma StageFits(s: Broker)
    requires PayloadsFit(s) && Paired(s)
    ensures PayloadsFit(Next(s, Stage))
  {
    hide Staged;
    if p :| MayStage(s, p) && Next(s, Stage) == Staged(s, p) { StagedFits(s, p); }
  }

  lemma StagedFits(s: Broker, p: int)
    requires PayloadsFit(s) && Paired(s) && CanPop(s.queue, p)
    ensures PayloadsFit(Staged(s, p))
  {
    hide SchedulerSpec.Pop, SchedulerSpec.PopItem;
    var t := Staged(s, p);
    forall a | 0 <= a < |t.attempts| && t.attempts[a].future.Resolved?
      ensures |PayloadOf(t.attempts[a].future.outcome)| <= t.Rec(t.attempts[a].record).reserved
    {
      assert t.attempts[a] == s.attempts[a];
    }
  }

  lemma RestoredFits(s: Broker)
    requires PayloadsFit(s)
    ensures PayloadsFit(Restored(s))
  {
    hide Restored, PayloadsFit;
    RestoredFields(s);
    NoLargerFits(s, Restored(s));
  }

  lemma AttemptEndFits(s: Broker, action: Action)
    requires PayloadsFit(s) && Paired(s) && (action.Notify? || action.GiveUp?)
    ensures PayloadsFit(Next(s, action))
  {
    hide Complete;
    if action.GiveUp? && s.lane.Broken? {
      var t := Complete(s, s.lane.a, Raised(action.message));
      CompleteFits(s, s.lane.a, Raised(action.message));
      NoLargerFits(t, t.(lane := AtTop));
    } else if action.Notify? {
      CompleteFits(s, action.a, OutcomeOf(s.Att(action.a).future));
    }
  }

  lemma StepFits(s: Broker, action: Action)
    requires PayloadsFit(s) && Paired(s)
    ensures PayloadsFit(Next(s, action))
  {
    hide PayloadsFit, Paired, Staged, Restored, ClaimAnswered, Submitted, Acknowledged, ClosedCleanly, CancelledBy,
         Disconnected, VisitAll, Handshaken, ShutdownRound, GivenUp, Notified, Post, Watched, OfferAnswered, ResolvedTo;
    if Quiet(action) {
      QuietFits(s, action);
    } else {
      match action
      case Handshake(client, principal, offered) => HandshakenFits(s, client, principal, offered);
      case Submit(sid, msg, authorized) => SubmittedFits(s, sid, msg, authorized);
      case Acknowledge(sid, id) => AcknowledgedFits(s, sid, id);
      case CloseSession(sid) => ClosedCleanlyFits(s, sid);
      case Cancel(sid, id, hard, authorized) => CancelledByFits(s, sid, id, hard, authorized);
      case CancelGroup(sid, group, killable) =>
        VisitAllFits(s, GroupPass(group, killable), s.Sess(sid).requests);
        PostFits(VisitAll(s, GroupPass(group, killable), s.Sess(sid).requests), sid, []);
      case Disconnect(sid) => DisconnectedFits(s, sid);
      case Expire => VisitAllFits(s, ExpirePass, s.requests);
      case Stage => StageFits(s);
      case Restore => RestoredFits(s);
      case GiveUp(_) => AttemptEndFits(s, action);
      case Notify(_) => AttemptEndFits(s, action);
      case Claim(a, pid) => ClaimedFits(s, a, pid);
      case FinishShutdown => ShutdownFits(s);
    }
  }

  lemma HandshakenFits(s: Broker, client: string, principal: Principal, offered: nat)
    requires PayloadsFit(s)
    ensures PayloadsFit(Handshaken(s, client, principal, offered))
  {
    NoLargerFits(s, Handshaken(s, client, principal, offered));
  }

  lemma AcknowledgedFits(s: Broker, sid: SessionId, id: RequestId)
    requires PayloadsFit(s)
    ensures PayloadsFit(Acknowledged(s, sid, id))
  {
    hide Forget, PayloadsFit;
    var known := Find(s, s.Sess(sid).requests, id);
    if known.Some? {
      ForgetNoLarger(s, known.value);
      NoLargerFits(s, Forget(s, known.value));
    }
  }

  lemma ClosedCleanlyFits(s: Broker, sid: SessionId)
    requires PayloadsFit(s)
    ensures PayloadsFit(ClosedCleanly(s, sid))
  {
    hide PayloadsFit, Post;
    var t := s.WithSess(sid, s.Sess(sid).(cleanClose := true));
    NoLargerFits(s, t);
    PostFits(t, sid, []);
  }
}
