/** Every step keeps what the clients are told, the counters, the names and the stopped server's promise. */
module BrokerStorySteps {
  import opened Options
  import opened SchedulerSpec
  import opened BrokerState
  import opened BrokerInvariant
  import opened BrokerWithin
  import opened BrokerDispatch
  import opened BrokerDispatchSteps
  import opened BrokerRetention
  import opened BrokerQuiet
  import opened BrokerLog
  import opened BrokerCounts
  import opened BrokerSteps

  // ---------- frames and decisions ----------

  lemma AnswerStory(s: Broker, sid: SessionId)
    requires Story(s)
    ensures Story(Post(s, sid, []))
  {
    hide Story, Silent;
    AnswerUnmoved(s, sid);
    QuietSilent(s, Post(s, sid, []));
    SilentStory(s, Post(s, sid, []));
  }

  lemma SessionStory(s: Broker, sid: SessionId, c: Session)
    requires Story(s) && (s.Sess(sid).closed ==> c.closed)
    ensures Story(s.WithSess(sid, c))
  {
    SessionSilent(s, sid, c);
    SilentStory(s, s.WithSess(sid, c));
  }

  lemma ResendStory(s: Broker, sid: SessionId, id: RequestId)
    requires Story(s) && ClaimsOk(s) && Retained(s) && Find(s, s.Sess(sid).requests, id).Some?
    ensures var r := Find(s, s.Sess(sid).requests, id).value;
            CurrentFrame(s, r).Some? && Story(Tell(s, r, CurrentFrame(s, r).value))
  {
    hide Log, ClaimsOk;
    FindIn(s, s.Sess(sid).requests, id);
    var r := Find(s, s.Sess(sid).requests, id).value;
    KeptInRange(s, sid);
    assert RecordRetained(s, r);
    ResendLog(s, r);
    PostFrame(s, s.Rec(r).session, [(r, CurrentFrame(s, r).value)]);
  }

  lemma {:induction false} AppendedCounts(xs: seq<Record>, rec: Record)
    ensures CountDecided(xs + [rec]) == CountDecided(xs) + if rec.state.Terminal? then 1 else 0
    ensures CountClaimed(xs + [rec]) == CountClaimed(xs) + if rec.claimed then 1 else 0
  {
    assert (xs + [rec])[..|xs|] == xs;
  }

  lemma AdmitCounters(s: Broker, sid: SessionId, msg: Submission)
    ensures var t := Admit(s, sid, msg);
            && t.accepted == s.accepted + 1 && t.running == s.running && t.terminal == s.terminal && t.server == s.server
            && |t.sessions| == |s.sessions|
            && forall x: SessionId :: t.Sess(x).client == s.Sess(x).client && t.Sess(x).watermark == s.Sess(x).watermark
  {
    hide Post, SchedulerSpec.Put;
    var rec, r, c := NewRecord(s, sid, msg), |s.records|, s.Sess(sid);
    var v := s.WithSess(sid, c.(requests := c.requests + [r]));
    var u := Charge(v, sid, 1, rec.reserved)
               .(records := s.records + [rec], requests := s.requests + [r],
                 queue := SchedulerSpec.Put(s.queue, r, rec.priority, rec.principal, false), accepted := s.accepted + 1);
    PostFrame(u, sid, [(r, AcceptedFrame)]);
    PostNames(u, sid, [(r, AcceptedFrame)]);
  }

  lemma PostNames(s: Broker, sid: SessionId, entry: seq<(RecordId, Frame)>)
    ensures forall x: SessionId :: Post(s, sid, entry).Sess(x).client == s.Sess(x).client && Post(s, sid, entry).Sess(x).watermark == s.Sess(x).watermark
  {
  }

  lemma AdmitStory(s: Broker, sid: SessionId, msg: Submission)
    requires Story(s)
    ensures Story(Admit(s, sid, msg))
  {
    hide Log, Admit;
    AdmitLog(s, sid, msg);
    AdmitFields(s, sid, msg);
    AdmitCounters(s, sid, msg);
    AppendedCounts(s.records, NewRecord(s, sid, msg));
  }

  lemma SubmittedStory(s: Broker, sid: SessionId, msg: Submission, authorized: bool)
    requires Story(s) && ClaimsOk(s) && Retained(s)
    ensures Story(Submitted(s, sid, msg, authorized))
  {
    hide Story, ClaimsOk, Post, Admit, Admissible, CurrentFrame;
    var c := s.Sess(sid);
    var known := Find(s, c.requests, msg.id);
    if known.Some? { ResendStory(s, sid, msg.id); }
    AnswerStory(s, sid);
    var t := s.WithSess(sid, c.(watermark := msg.id.sequence));
    SessionStory(s, sid, c.(watermark := msg.id.sequence));
    AnswerStory(t, sid);
    AdmitStory(t, sid, msg);
  }

  lemma CancelledByStory(s: Broker, sid: SessionId, id: RequestId, hard: bool, authorized: bool)
    requires Story(s) && Dispatch(s) && ListsOk(s)
    ensures Story(CancelledBy(s, sid, id, hard, authorized))
  {
    hide Story, Dispatch, Post, CancelQueued, Settle;
    FindIn(s, s.Sess(sid).requests, id);
    var known := Find(s, s.Sess(sid).requests, id);
    AnswerStory(s, sid);
    if known.Some? {
      var r := known.value;
      if s.records[r].state == Queued {
        CancelQueuedStory(s, r, Because(Cancelled, "cancelled"));
        AnswerStory(CancelQueued(s, r, Because(Cancelled, "cancelled")), sid);
      } else {
        SettleStory(s, r, Because(Cancelled, "terminated"));
        AnswerStory(Settle(s, r, Because(Cancelled, "terminated")), sid);
      }
    }
  }

  lemma GroupStory(s: Broker, sid: SessionId, group: string, killable: set<RecordId>)
    requires Story(s) && Dispatch(s) && ListsOk(s)
    ensures Story(GroupCancelledBy(s, sid, group, killable))
  {
    hide Story, Dispatch, Post, VisitAll;
    VisitAllStory(s, GroupPass(group, killable), s.Sess(sid).requests);
    AnswerStory(VisitAll(s, GroupPass(group, killable), s.Sess(sid).requests), sid);
  }

  lemma DisconnectedStory(s: Broker, sid: SessionId)
    requires Story(s) && Dispatch(s) && ListsOk(s)
    ensures Story(Disconnected(s, sid))
  {
    hide Story, Dispatch, Silent, VisitAll, Purge;
    var c := s.Sess(sid);
    var t := s.WithSess(sid, c.(closed := true, disconnected := true));
    SessionStory(s, sid, c.(closed := true, disconnected := true));
    SessionOnlyDispatch(s, sid, c.(closed := true, disconnected := true));
    VisitAllStory(t, DisconnectPass, c.requests);
    var v := if !c.cleanClose && s.config.policy != ContinueWork then VisitAll(t, DisconnectPass, c.requests) else t;
    PurgeSilent(v, sid);
    SilentStory(v, Purge(v, sid));
  }

  lemma ServerStory(s: Broker, server: ServerState)
    requires Story(s)
    ensures Story(s.(server := server))
  {
    OtherSilent(s, s.(server := server));
    SilentStory(s, s.(server := server));
  }

  lemma ShutdownStory(s: Broker)
    requires Story(s) && Dispatch(s) && ListsOk(s)
    ensures Story(ShutdownRound(s))
  {
    hide Story, Dispatch, VisitAll;
    ServerStory(s, Stopping);
    ServerStory(s, Stopped);
    VisitAllStory(s, ShutdownCancelPass, s.requests);
    VisitAllDispatch(s, ShutdownCancelPass, s.requests);
    VisitAllWithin(s, ShutdownCancelPass, s.requests);
    SizesWithin(s, VisitAll(s, ShutdownCancelPass, s.requests));
    var t := if s.shutdownCancel then VisitAll(s, ShutdownCancelPass, s.requests) else s;
    VisitAllStory(t, ShutdownDeadlinePass, t.requests);
    ServerStory(VisitAll(t, ShutdownDeadlinePass, t.requests), Stopping);
  }

  lemma PhaseStory(s: Broker, a: AttemptId, phase: Phase)
    requires Story(s)
    ensures Story(s.WithAtt(a, s.Att(a).(phase := phase)))
  {
    OtherSilent(s, s.WithAtt(a, s.Att(a).(phase := phase)));
    SilentStory(s, s.WithAtt(a, s.Att(a).(phase := phase)));
  }

  lemma GrantedTally(s: Broker, r: RecordId, pid: int)
    requires Tally(s) && Paired(s) && ClaimsOk(s) && r < |s.records| && !s.Decided(r) && s.records[r].future.Some?
    ensures Tally(Granted(s, r, pid))
  {
    GrantedFields(s, r, pid);
    SameDecided(s.records, Granted(s, r, pid).records);
    GrantedCounters(s, r, pid);
  }

  lemma GrantedCounters(s: Broker, r: RecordId, pid: int)
    ensures var t := Granted(s, r, pid);
            && t.terminal == s.terminal && t.accepted == s.accepted && t.server == s.server && |t.sessions| == |s.sessions|
            && t.running == s.running + (if s.Rec(r).state == Queued then 1 else 0)
            && forall x: SessionId :: t.Sess(x).client == s.Sess(x).client && t.Sess(x).watermark == s.Sess(x).watermark
  {
    hide Post;
    var rec := s.Rec(r);
    var t := if rec.state == Queued
             then s.WithRec(r, rec.(state := Running, claimed := true)).(running := s.running + 1) else s;
    var u := if rec.future.Some? then t.WithAtt(rec.future.value, t.Att(rec.future.value).(pid := Some(pid))) else t;
    PostFrame(u, u.Rec(r).session, [(r, RunningFrame(Some(pid)))]);
    PostNames(u, u.Rec(r).session, [(r, RunningFrame(Some(pid)))]);
  }

  lemma ClaimedStory(s: Broker, a: AttemptId, pid: int)
    requires Story(s) && Dispatch(s) && a < |s.attempts|
    ensures Story(ClaimAnswered(s, a, pid))
  {
    hide Log, Tally, QueueExact, SlotsExact, Settle, Granted;
    if s.attempts[a].phase == Started {
      var r := s.attempts[a].record;
      assert AttemptOk(s, a);
      if Expired(s, s.records[r]) {
        SettleStory(s, r, Because(QueueTimedOut, "queue_timeout"));
      } else if !s.Decided(r) {
        GrantedLog(s, r, pid);
        GrantedTally(s, r, pid);
      }
      var c := Claiming(s, a, pid);
      PhaseStory(c.0, a, if c.1 then Phase.Claimed else Finished);
    }
  }

  lemma StagedSilent(s: Broker, p: int)
    requires CanPop(s.queue, p)
    ensures Silent(s, Staged(s, p))
  {
    hide SchedulerSpec.Pop, SchedulerSpec.PopItem;
  }

  lemma FuturesSilent(s: Broker, t: Broker)
    requires FuturesOnly(s, t)
    ensures Silent(s, t)
  {
    forall r | 0 <= r < |s.records| ensures SameStory(s.records[r], t.records[r]) {
      assert t.records[r] == s.records[r].(future := t.records[r].future);
    }
  }

  lemma StageStory(s: Broker)
    requires Story(s)
    ensures Story(Next(s, Stage)) && Story(Restored(s))
  {
    hide Story, Staged, Restored, Silent, FuturesOnly;
    RestoredFields(s);
    FuturesSilent(s, Restored(s));
    SilentStory(s, Restored(s));
    if p :| MayStage(s, p) && Next(s, Stage) == Staged(s, p) {
      StagedSilent(s, p);
      SilentStory(s, Staged(s, p));
    }
  }

  lemma AttemptEndStory(s: Broker, action: Action)
    requires Story(s) && Paired(s) && (action.Notify? || action.GiveUp?)
    ensures Story(Next(s, action))
  {
    hide Story, Complete;
    if action.GiveUp? && s.lane.Broken? {
      var t := Complete(s, s.lane.a, Raised(action.message));
      CompleteStory(s, s.lane.a, Raised(action.message));
      OtherSilent(t, t.(lane := AtTop));
      SilentStory(t, t.(lane := AtTop));
    } else if action.Notify? && action.a < |s.attempts| {
      CompleteStory(s, action.a, OutcomeOf(s.Att(action.a).future));
    }
  }

  lemma HandshakenStory(s: Broker, client: string, principal: Principal, offered: nat)
    requires Story(s) && Sequenced(s)
    ensures Story(Handshaken(s, client, principal, offered))
  {
    hide Story;
    var t := Handshaken(s, client, principal, offered);
    assert t.sessions == s.sessions || t.sessions[..|s.sessions|] == s.sessions;
    assert forall x: SessionId :: x < |s.sessions| ==> t.Sess(x) == s.Sess(x);
    SilentStory(s, t);
  }

  lemma AcknowledgedStory(s: Broker, sid: SessionId, id: RequestId)
    requires Story(s)
    ensures Story(Acknowledged(s, sid, id))
  {
    hide Story, Forget, Silent;
    var known := Find(s, s.Sess(sid).requests, id);
    if known.Some? {
      ForgetSilent(s, known.value);
      SilentStory(s, Forget(s, known.value));
    }
  }

  lemma ClosedCleanlyStory(s: Broker, sid: SessionId)
    requires Story(s)
    ensures Story(ClosedCleanly(s, sid))
  {
    hide Story, Post;
    var t := s.WithSess(sid, s.Sess(sid).(cleanClose := true));
    SessionStory(s, sid, s.Sess(sid).(cleanClose := true));
    AnswerStory(t, sid);
  }

  lemma StepStory(s: Broker, action: Action)
    requires Story(s) && Dispatch(s) && Paired(s) && ClaimsOk(s) && Retained(s) && ListsOk(s) && Sequenced(s)
    ensures Story(Next(s, action))
  {
    hide Story, Dispatch, Paired, ClaimsOk, Retained, ListsOk, Sequenced, Unmoved, Staged, Restored, ClaimAnswered, Submitted, Acknowledged,
         ClosedCleanly, CancelledBy, Disconnected, VisitAll, Handshaken, ShutdownRound, GivenUp, Notified, Post, Watched, OfferAnswered,
         ResolvedTo, GroupCancelledBy;
    if Quiet(action) {
      QuietUnmoved(s, action);
      QuietSilent(s, Next(s, action));
      SilentStory(s, Next(s, action));
    } else {
      match action
      case Handshake(client, principal, offered) => HandshakenStory(s, client, principal, offered);
      case Submit(sid, msg, authorized) => SubmittedStory(s, sid, msg, authorized);
      case Acknowledge(sid, id) => AcknowledgedStory(s, sid, id);
      case CloseSession(sid) => ClosedCleanlyStory(s, sid);
      case Cancel(sid, id, hard, authorized) => CancelledByStory(s, sid, id, hard, authorized);
      case CancelGroup(sid, group, killable) => GroupStory(s, sid, group, killable);
      case Disconnect(sid) => DisconnectedStory(s, sid);
      case Expire => ExpireStory(s);
      case Stage => StageStory(s);
      case Restore => StageStory(s);
      case GiveUp(_) => AttemptEndStory(s, action);
      case Notify(_) => AttemptEndStory(s, action);
      case Claim(a, pid) => ClaimedStoryAny(s, a, pid);
      case FinishShutdown => ShutdownStory(s);
    }
  }

  lemma ClaimedStoryAny(s: Broker, a: AttemptId, pid: int)
    requires Story(s) && Dispatch(s)
    ensures Story(ClaimAnswered(s, a, pid))
  {
    hide Story, Dispatch, Claiming;
    if a < |s.attempts| { ClaimedStory(s, a, pid); }
  }

  lemma ExpireStory(s: Broker)
    requires Story(s) && Dispatch(s) && ListsOk(s)
    ensures Story(VisitAll(s, ExpirePass, s.requests))
  {
    hide Story, Dispatch;
    VisitAllStory(s, ExpirePass, s.requests);
  }
}
