/** Admission numbers, the admission and claim counters, and that a stopped server owes nothing. */
module BrokerRestSteps {
  import opened SchedulerSpec
  import opened BrokerState
  import opened BrokerInvariant
  import opened BrokerWithin
  import opened BrokerDispatchSteps
  import opened BrokerRetention
  import opened BrokerQuiet
  import opened BrokerCounts
  import opened BrokerSteps
  import opened BrokerStorySteps

  lemma UnmovedNames(s: Broker, t: Broker)
    requires Unmoved(s, t)
    ensures SameNames(s, t)
  {
    forall r | 0 <= r < |s.records|
      ensures t.records[r].id == s.records[r].id && t.records[r].session == s.records[r].session
      ensures t.records[r].state == s.records[r].state && t.records[r].claimed == s.records[r].claimed
    {
      assert t.records[r] == s.records[r].(payload := t.records[r].payload);
    }
    forall sid | 0 <= sid < |s.sessions|
      ensures t.sessions[sid].client == s.sessions[sid].client && t.sessions[sid].watermark >= s.sessions[sid].watermark
    {
      assert SameButConnection(s.sessions[sid], t.sessions[sid]);
    }
  }

  lemma PostRest(s: Broker, sid: SessionId, entry: seq<(RecordId, Frame)>)
    requires Rest(s)
    ensures Rest(Post(s, sid, entry))
  {
    hide Rest, Within;
    PostWithin(s, sid, entry);
    WithinRest(s, Post(s, sid, entry));
  }

  lemma SessionRest(s: Broker, sid: SessionId, c: Session)
    requires Rest(s) && c.client == s.Sess(sid).client && c.watermark >= s.Sess(sid).watermark
    ensures Rest(s.WithSess(sid, c))
  {
    RestFramed(s, s.WithSess(sid, c));
  }

  /** An admitted sequence number is larger than every earlier one of its session. */
  lemma AdmitRest(s: Broker, t: Broker, sid: SessionId, msg: Submission)
    requires Rest(s) && sid < |s.sessions| && s.server == Serving && s.sessions[sid].client == msg.id.client
    requires s.sessions[sid].watermark < msg.id.sequence
    requires t == s.WithSess(sid, s.sessions[sid].(watermark := msg.id.sequence))
    ensures Rest(Admit(t, sid, msg))
  {
    hide Admit;
    AdmitFields(t, sid, msg);
    AdmitCounters(t, sid, msg);
    AppendedCounts(s.records, NewRecord(t, sid, msg));
    var u := Admit(t, sid, msg);
    forall x: SessionId | x < |s.sessions| ensures WatermarkRaised(s, u, sid, msg.id.sequence, x) {
      assert u.Sess(x).client == t.Sess(x).client;
    }
    AdmitSequenced(s, u, sid, NewRecord(t, sid, msg));
  }

  lemma AdmitSequenced(s: Broker, u: Broker, sid: SessionId, rec: Record)
    requires Sequenced(s) && |u.sessions| == |s.sessions| && sid < |s.sessions| && u.records == s.records + [rec]
    requires rec.session == sid && rec.id.client == s.sessions[sid].client && rec.id.sequence > s.sessions[sid].watermark
    requires forall x :: 0 <= x < |s.sessions| ==> WatermarkRaised(s, u, sid, rec.id.sequence, x)
    ensures Sequenced(u)
  {
    assert WatermarkRaised(s, u, sid, rec.id.sequence, sid);
    forall r | 0 <= r < |u.records|
      ensures u.records[r].session < |u.sessions| && u.records[r].id.client == u.sessions[u.records[r].session].client
      ensures u.records[r].id.sequence <= u.sessions[u.records[r].session].watermark
    {
      if r < |s.records| { assert WatermarkRaised(s, u, sid, rec.id.sequence, s.records[r].session); }
    }
  }

  ghost predicate WatermarkRaised(s: Broker, u: Broker, sid: SessionId, sequence: int, x: SessionId) {
    && u.Sess(x).client == s.Sess(x).client
    && u.Sess(x).watermark == if x == sid then sequence else s.Sess(x).watermark
  }

  lemma SubmittedRest(s: Broker, sid: SessionId, msg: Submission, authorized: bool)
    requires Rest(s) && (sid < |s.sessions| || !Admits(s, sid, msg, authorized))
    ensures Rest(Submitted(s, sid, msg, authorized))
  {
    hide Rest, Post, Admit, HasRoom, CurrentFrame;
    WatermarkApart(s, sid, msg, authorized);
    var c := s.Sess(sid);
    var known := Find(s, c.requests, msg.id);
    if known.Some? && CurrentFrame(s, known.value).Some? {
      PostRest(s, s.Rec(known.value).session, [(known.value, CurrentFrame(s, known.value).value)]);
    }
    PostRest(s, sid, []);
    var t := s.WithSess(sid, c.(watermark := msg.id.sequence));
    if c.watermark < msg.id.sequence {
      SessionRest(s, sid, c.(watermark := msg.id.sequence));
      PostRest(t, sid, []);
      if sid < |s.sessions| && s.server == Serving && c.client == msg.id.client { AdmitRest(s, t, sid, msg); }
    }
  }

  lemma CancelledByRest(s: Broker, sid: SessionId, id: RequestId, hard: bool, authorized: bool)
    requires Rest(s)
    ensures Rest(CancelledBy(s, sid, id, hard, authorized))
  {
    hide Rest, Within, Post, CancelQueued, Settle;
    var known := Find(s, s.Sess(sid).requests, id);
    PostRest(s, sid, []);
    if known.Some? {
      var r := known.value;
      CancelQueuedWithin(s, r, Because(Cancelled, "cancelled"));
      WithinRest(s, CancelQueued(s, r, Because(Cancelled, "cancelled")));
      PostRest(CancelQueued(s, r, Because(Cancelled, "cancelled")), sid, []);
      SettleWithin(s, r, Because(Cancelled, "terminated"));
      WithinRest(s, Settle(s, r, Because(Cancelled, "terminated")));
      PostRest(Settle(s, r, Because(Cancelled, "terminated")), sid, []);
    }
  }

  lemma GroupRest(s: Broker, sid: SessionId, group: string, killable: set<RecordId>)
    requires Rest(s) && ListsOk(s)
    ensures Rest(GroupCancelledBy(s, sid, group, killable))
  {
    hide Rest, Within, Post, VisitAll;
    VisitAllWithin(s, GroupPass(group, killable), s.Sess(sid).requests);
    WithinRest(s, VisitAll(s, GroupPass(group, killable), s.Sess(sid).requests));
    PostRest(VisitAll(s, GroupPass(group, killable), s.Sess(sid).requests), sid, []);
  }

  lemma DisconnectedRest(s: Broker, sid: SessionId)
    requires Rest(s) && ListsOk(s)
    ensures Rest(Disconnected(s, sid))
  {
    hide Rest, Within, VisitAll, Purge;
    var c := s.Sess(sid);
    var t := s.WithSess(sid, c.(closed := true, disconnected := true));
    SessionRest(s, sid, c.(closed := true, disconnected := true));
    VisitAllWithin(t, DisconnectPass, c.requests);
    var v := if !c.cleanClose && s.config.policy != ContinueWork then VisitAll(t, DisconnectPass, c.requests) else t;
    WithinReflexive(t);
    WithinRest(t, v);
    PurgeWithin(v, sid);
    WithinRest(v, Purge(v, sid));
  }

  // ---------- stopping ----------

  /** An undecided request is always still retained. */
  lemma AllRetainedDecided(s: Broker)
    requires Retained(s) && forall r :: r in s.requests ==> s.Decided(r)
    ensures forall r :: 0 <= r < |s.records| ==> s.records[r].state.Terminal?
  {
    forall r | 0 <= r < |s.records| ensures s.records[r].state.Terminal? { assert RecordRetained(s, r); }
  }

  /** The deadline pass decides every request there is. */
  lemma DeadlineDecides(s: Broker)
    requires Retained(s) && Paired(s) && AttemptsOk(s)
    ensures var v := VisitAll(s, ShutdownDeadlinePass, s.requests);
            forall r :: 0 <= r < |v.records| ==> v.records[r].state.Terminal?
  {
    hide VisitAll;
    var v := VisitAll(s, ShutdownDeadlinePass, s.requests);
    VisitAllWithin(s, ShutdownDeadlinePass, s.requests);
    forall r | 0 <= r < |v.records| ensures v.records[r].state.Terminal? {
      assert RecordRetained(s, r);
      assert RecordWithin(s.records[r], v.records[r]);
      if !s.Decided(r) {
        assert r in s.requests && Ruling(s, ShutdownDeadlinePass, r).Some?;
        assert v.Decided(r);
      }
    }
  }

  lemma StoppingRest(s: Broker)
    requires Rest(s) && forall r :: 0 <= r < |s.records| ==> s.records[r].state.Terminal?
    ensures Rest(s.(server := Stopping))
  {
  }

  lemma ShutdownRest(s: Broker)
    requires Rest(s) && ListsOk(s) && Retained(s) && Dispatch(s) && Kept(s)
    ensures Rest(ShutdownRound(s))
  {
    hide Rest, Within, VisitAll, Dispatch, Kept, Retained, ListsOk;
    if s.server == Stopping {
      StoppedRest(s);
    } else if s.server == Draining {
      if AllDecided(s, s.requests) {
        AllRetainedDecided(s);
        StoppingRest(s);
      } else {
        var t := if s.shutdownCancel then VisitAll(s, ShutdownCancelPass, s.requests) else s;
        PassRest(s, ShutdownCancelPass);
        PassRest(t, ShutdownDeadlinePass);
        DispatchParts(t);
        DeadlineDecides(t);
        StoppingRest(VisitAll(t, ShutdownDeadlinePass, t.requests));
      }
    }
  }

  lemma StoppedRest(s: Broker)
    requires Rest(s) && s.server == Stopping
    ensures Rest(s.(server := Stopped))
  {
  }

  lemma DispatchParts(s: Broker)
    requires Dispatch(s)
    ensures Paired(s) && AttemptsOk(s) && ClaimsOk(s)
  {
  }

  lemma PassRest(s: Broker, pass: Pass)
    requires Rest(s) && Dispatch(s) && Kept(s)
    ensures var t := VisitAll(s, pass, s.requests); Rest(t) && Dispatch(t) && Kept(t) && Retained(t) && ListsOk(t)
  {
    hide Rest, Within, VisitAll, Dispatch;
    ListsInRange(s);
    VisitAllWithin(s, pass, s.requests);
    WithinRest(s, VisitAll(s, pass, s.requests));
    VisitAllDispatch(s, pass, s.requests);
    VisitAllKept(s, pass, s.requests);
    ListsInRange(VisitAll(s, pass, s.requests));
  }

  // ---------- attempts ----------

  lemma ClaimedRest(s: Broker, a: AttemptId, pid: int)
    requires Rest(s) && Paired(s) && AttemptsOk(s) && ClaimsOk(s) && a < |s.attempts|
    ensures Rest(ClaimAnswered(s, a, pid))
  {
    hide Rest, Settle, Granted, Within;
    if s.attempts[a].phase == Started {
      var r := s.attempts[a].record;
      assert AttemptOk(s, a);
      SettleWithin(s, r, Because(QueueTimedOut, "queue_timeout"));
      WithinRest(s, Settle(s, r, Because(QueueTimedOut, "queue_timeout")));
      if !s.Decided(r) { GrantedRest(s, r, pid); }
      var c := Claiming(s, a, pid);
      PhaseRest(c.0, a, if c.1 then Phase.Claimed else Finished);
    }
  }

  lemma PhaseRest(s: Broker, a: AttemptId, phase: Phase)
    requires Rest(s)
    ensures Rest(s.WithAtt(a, s.Att(a).(phase := phase)))
  {
    RestFramed(s, s.WithAtt(a, s.Att(a).(phase := phase)));
  }

  lemma GrantedRest(s: Broker, r: RecordId, pid: int)
    requires Rest(s) && Paired(s) && ClaimsOk(s) && r < |s.records| && !s.Decided(r) && s.records[r].future.Some?
    ensures Rest(Granted(s, r, pid))
  {
    hide Granted;
    GrantedFields(s, r, pid);
    GrantedCounters(s, r, pid);
    var t := Granted(s, r, pid);
    if s.records[r].state == Queued {
      OneMore(s.records, r, t.records[r]);
    } else {
      SameClaimed(s.records, t.records);
    }
    GrantedSequenced(s, t);
  }

  lemma GrantedSequenced(s: Broker, t: Broker)
    requires Sequenced(s) && |t.records| == |s.records| && |t.sessions| == |s.sessions|
    requires forall r :: 0 <= r < |s.records| ==> t.records[r].id == s.records[r].id && t.records[r].session == s.records[r].session
    requires forall x: SessionId :: t.Sess(x).client == s.Sess(x).client && t.Sess(x).watermark == s.Sess(x).watermark
    ensures Sequenced(t)
  {
    forall x: SessionId | x < |s.sessions| ensures t.sessions[x].client == s.sessions[x].client && t.sessions[x].watermark == s.sessions[x].watermark {
      assert t.Sess(x).client == s.Sess(x).client;
    }
  }

  lemma StagedNames(s: Broker, p: int)
    requires CanPop(s.queue, p)
    ensures SameNames(s, Staged(s, p))
  {
    hide SchedulerSpec.Pop, SchedulerSpec.PopItem;
  }

  lemma FuturesNames(s: Broker, t: Broker)
    requires FuturesOnly(s, t)
    ensures SameNames(s, t)
  {
    forall r | 0 <= r < |s.records|
      ensures t.records[r].id == s.records[r].id && t.records[r].session == s.records[r].session
      ensures t.records[r].state == s.records[r].state && t.records[r].claimed == s.records[r].claimed
    {
      assert t.records[r] == s.records[r].(future := t.records[r].future);
    }
  }

  lemma StageRest(s: Broker)
    requires Rest(s)
    ensures Rest(Next(s, Stage)) && Rest(Restored(s))
  {
    hide Rest, Staged, Restored, SameNames, FuturesOnly;
    RestoredFields(s);
    FuturesNames(s, Restored(s));
    RestFramed(s, Restored(s));
    if p :| MayStage(s, p) && Next(s, Stage) == Staged(s, p) {
      StagedNames(s, p);
      RestFramed(s, Staged(s, p));
    }
  }

  lemma AttemptEndRest(s: Broker, action: Action)
    requires Rest(s) && (action.Notify? || action.GiveUp?)
    ensures Rest(Next(s, action))
  {
    hide Rest, Within, Complete;
    if action.GiveUp? && s.lane.Broken? {
      var t := Complete(s, s.lane.a, Raised(action.message));
      CompleteWithin(s, s.lane.a, Raised(action.message));
      WithinRest(s, t);
      RestFramed(t, t.(lane := AtTop));
    } else if action.Notify? {
      CompleteWithin(s, action.a, OutcomeOf(s.Att(action.a).future));
      WithinRest(s, Complete(s, action.a, OutcomeOf(s.Att(action.a).future)));
    }
  }

  lemma HandshakenRest(s: Broker, client: string, principal: Principal, offered: nat)
    requires Rest(s)
    ensures Rest(Handshaken(s, client, principal, offered))
  {
    RestFramed(s, Handshaken(s, client, principal, offered));
  }

  lemma AcknowledgedRest(s: Broker, sid: SessionId, id: RequestId)
    requires Rest(s)
    ensures Rest(Acknowledged(s, sid, id))
  {
    hide Rest, Forget, Within;
    var known := Find(s, s.Sess(sid).requests, id);
    if known.Some? {
      ForgetWithin(s, known.value);
      WithinRest(s, Forget(s, known.value));
    }
  }

  lemma ClosedCleanlyRest(s: Broker, sid: SessionId)
    requires Rest(s)
    ensures Rest(ClosedCleanly(s, sid))
  {
    hide Rest, Post;
    var t := s.WithSess(sid, s.Sess(sid).(cleanClose := true));
    SessionRest(s, sid, s.Sess(sid).(cleanClose := true));
    PostRest(t, sid, []);
  }

  lemma StepRest(s: Broker, action: Action)
    requires Rest(s) && Dispatch(s) && Kept(s) && Retained(s) && ListsOk(s) && Orderly(s, action)
    ensures Rest(Next(s, action))
  {
    hide Rest, Dispatch, Kept, ListsOk, Unmoved, Within, SameNames, Staged, Restored, ClaimAnswered, Submitted, Acknowledged,
         ClosedCleanly, CancelledBy, Disconnected, VisitAll, Handshaken, ShutdownRound, GivenUp, Notified, Post, Watched, OfferAnswered,
         ResolvedTo, GroupCancelledBy;
    if Quiet(action) {
      QuietUnmoved(s, action);
      UnmovedNames(s, Next(s, action));
      RestFramed(s, Next(s, action));
    } else {
      match action
      case Handshake(client, principal, offered) => HandshakenRest(s, client, principal, offered);
      case Submit(sid, msg, authorized) => SubmittedRest(s, sid, msg, authorized);
      case Acknowledge(sid, id) => AcknowledgedRest(s, sid, id);
      case CloseSession(sid) => ClosedCleanlyRest(s, sid);
      case Cancel(sid, id, hard, authorized) => CancelledByRest(s, sid, id, hard, authorized);
      case CancelGroup(sid, group, killable) => GroupRest(s, sid, group, killable);
      case Disconnect(sid) => DisconnectedRest(s, sid);
      case Expire => PassRest(s, ExpirePass);
      case Stage => StageRest(s);
      case Restore => StageRest(s);
      case GiveUp(_) => AttemptEndRest(s, action);
      case Notify(_) => AttemptEndRest(s, action);
      case Claim(a, pid) => ClaimedRestAny(s, a, pid);
      case FinishShutdown => ShutdownRest(s);
    }
  }

  lemma ClaimedRestAny(s: Broker, a: AttemptId, pid: int)
    requires Rest(s) && Dispatch(s)
    ensures Rest(ClaimAnswered(s, a, pid))
  {
    hide Rest, QueueExact, SlotsExact, AttemptsOk, ClaimsOk, Claiming;
    if a < |s.attempts| { ClaimedRest(s, a, pid); }
  }
}
