/** Every step keeps the promise about sessions left behind by an unclean disconnect. */
module BrokerDepartureSteps {
  import opened Options
  import opened SchedulerSpec
  import opened BrokerState
  import opened BrokerInvariant
  import opened BrokerWithin
  import opened BrokerDispatch
  import opened BrokerDispatchSteps
  import opened BrokerRetention
  import opened BrokerDeparture
  import opened BrokerQuiet

  lemma CancelFutureDeparted(s: Broker, r: RecordId, sid: SessionId)
    requires DispatchBut(s, r) && Kept(s) && ClosedIfGone(s) && r < |s.records| && SessionDeparted(s, sid)
    ensures SessionDeparted(CancelFuture(s, r), sid)
  {
    hide QueueExact, SlotsExact, ClaimsOk, AttemptsOk, Kept, SessionDeparted, Complete;
    if s.records[r].future.Some? {
      var a := s.records[r].future.value;
      if s.attempts[a].future.Pending? {
        var t := s.WithAtt(a, s.attempts[a].(future := CancelledFuture));
        FutureReplaced(s, a, CancelledFuture);
        RetentionFramed(s, t);
        StayFramed(s, t, sid);
        CompleteDeparted(t, a, OutcomeOf(CancelledFuture), sid);
      }
    }
  }

  lemma CancelQueuedDeparted(s: Broker, r: RecordId, f: Frame, sid: SessionId)
    requires Dispatch(s) && Kept(s) && ClosedIfGone(s) && r < |s.records| && f.TerminalFrame? && SessionDeparted(s, sid)
    ensures SessionDeparted(CancelQueued(s, r, f), sid)
  {
    hide SessionDeparted, Kept, CancelFuture, Decide, QueueExact, SlotsExact, ClaimsOk, AttemptsOk;
    var d := Dequeue(s, r);
    RetentionFramed(s, d);
    StayFramed(s, d, sid);
    DequeuedAttempts(s, r);
    DecideStay(d, r, f, sid);
    StayFramed(d, Decide(d, r, f), sid);
    DecideSame(d, r, f);
    RetentionFramed(d, Decide(d, r, f));
    DecideWithin(d, r, f);
    ClosedIfGoneWithin(d, Decide(d, r, f));
    DecideDispatch(s, r, f);
    DecideWithin(d, r, f);
    SizesWithin(d, Decide(d, r, f));
    CancelFutureDeparted(Decide(d, r, f), r, sid);
  }

  lemma DequeuedAttempts(s: Broker, r: RecordId)
    requires Paired(s) && AttemptsOk(s)
    ensures Paired(Dequeue(s, r)) && AttemptsOk(Dequeue(s, r))
  {
    var t := Dequeue(s, r);
    forall a | 0 <= a < |t.attempts| ensures AttemptOk(t, a) { assert AttemptOk(s, a); }
  }

  lemma SettleDeparted(s: Broker, r: RecordId, f: Frame, sid: SessionId)
    requires Dispatch(s) && Kept(s) && ClosedIfGone(s) && r < |s.records| && f.TerminalFrame? && SessionDeparted(s, sid)
    requires !Unstaged(s, r)
    ensures SessionDeparted(Settle(s, r, f), sid)
  {
    NotInQueue(s, r);
    CancelQueuedDeparted(s, r, f, sid);
  }

  /** What the passes over requests rely on. */
  ghost predicate Sound(s: Broker) {
    Dispatch(s) && Kept(s) && ClosedIfGone(s)
  }

  lemma VisitDeparted(s: Broker, pass: Pass, r: RecordId, sid: SessionId)
    requires Sound(s) && r < |s.records| && SessionDeparted(s, sid)
    ensures Sound(Visit(s, pass, r)) && SessionDeparted(Visit(s, pass, r), sid) && |Visit(s, pass, r).records| == |s.records|
  {
    hide SessionDeparted, Kept, Dispatch, CancelQueued, Settle;
    VisitDispatch(s, pass, r);
    VisitWithin(s, pass, r);
    SizesWithin(s, Visit(s, pass, r));
    ClosedIfGoneWithin(s, Visit(s, pass, r));
    var ruling := Ruling(s, pass, r);
    if ruling.Some? {
      if s.records[r].state == Queued {
        CancelQueuedKept(s, r, ruling.value);
        CancelQueuedDeparted(s, r, ruling.value, sid);
      } else {
        SettleKept(s, r, ruling.value);
        SettleDeparted(s, r, ruling.value, sid);
      }
    }
  }

  lemma {:induction false} VisitAllDeparted(s: Broker, pass: Pass, todo: seq<RecordId>, sid: SessionId)
    requires Sound(s) && (forall r :: r in todo ==> r < |s.records|) && SessionDeparted(s, sid)
    ensures Sound(VisitAll(s, pass, todo)) && SessionDeparted(VisitAll(s, pass, todo), sid)
    decreases |todo|
  {
    hide Sound, SessionDeparted;
    if todo != [] {
      assert todo[0] in todo && forall r :: r in todo[1..] ==> r in todo;
      VisitDeparted(s, pass, todo[0], sid);
      VisitAllDeparted(Visit(s, pass, todo[0]), pass, todo[1..], sid);
    }
  }

  // ---------- disconnecting ----------

  /** The pass leaves only work a worker already has, and nothing under `terminate`. */
  lemma LeftAfterPass(t: Broker, v: Broker, sid: SessionId, r: RecordId)
    requires Paired(t) && AttemptsOk(t) && ClaimsOk(t) && Within(t, v) && r < |t.records|
    requires t.config.policy != ContinueWork
    requires Ruling(t, DisconnectPass, r).Some? ==> v.Decided(r)
    requires !v.Decided(r)
    ensures StillRunning(v, r) && v.Rec(r).state == Running
  {
    assert RecordWithin(t.records[r], v.records[r]);
  }

  /** Right after `_disconnect`, a session left uncleanly keeps running work only. */
  lemma DisconnectedHome(s: Broker, sid: SessionId)
    requires Sound(s) && ListsOk(s) && !s.Sess(sid).disconnected && !s.Sess(sid).cleanClose && s.config.policy != ContinueWork
    ensures var u := Disconnected(s, sid);
            && (forall r :: r in u.Sess(sid).requests ==> StillRunning(u, r) && u.Rec(r).state == Running)
            && (sid in u.registered ==> u.Sess(sid).requests != [])
  {
    hide QueueExact, SlotsExact, VisitAll, Purge, StillRunning, Kept;
    var c := s.Sess(sid);
    var t := s.WithSess(sid, c.(closed := true, disconnected := true));
    LeavingSound(s, sid);
    KeptParts(t);
    KeptInRange(t, sid);
    VisitAllWithin(t, DisconnectPass, c.requests);
    var v := VisitAll(t, DisconnectPass, c.requests);
    VisitAllKept(t, DisconnectPass, c.requests);
    PurgeKept(v, sid);
    PurgeFrame(v, sid);
    var u := Purge(v, sid);
    assert sid < |t.sessions| ==> SessionWithin(t.sessions[sid], v.sessions[sid]);
    forall r | r in u.Sess(sid).requests ensures StillRunning(u, r) && u.Rec(r).state == Running {
      assert r in t.Sess(sid).requests;
      LeftAfterPass(t, v, sid, r);
      assert SameRole(v.records[r], u.records[r]);
      RunningFramed(v, u, r);
    }
  }

  lemma KeptParts(s: Broker)
    requires Kept(s)
    ensures Retained(s)
  {
  }

  lemma RunningFramed(v: Broker, u: Broker, r: RecordId)
    requires SameDispatch(v, u) && r < |v.records| && StillRunning(v, r)
    ensures StillRunning(u, r)
  {
  }

  lemma LeavingSound(s: Broker, sid: SessionId)
    requires Sound(s)
    ensures Sound(s.WithSess(sid, s.Sess(sid).(closed := true, disconnected := true)))
  {
    hide Dispatch, Kept;
    SessionOnlyDispatch(s, sid, s.Sess(sid).(closed := true, disconnected := true));
    RetentionFramed(s, s.WithSess(sid, s.Sess(sid).(closed := true, disconnected := true)));
  }

  lemma PurgeStay(s: Broker, sid: SessionId, other: SessionId)
    requires Kept(s) && other != sid
    ensures SameStay(s, Purge(s, sid), other)
  {
    KeptInRange(s, sid);
    ForgetOthers(s, sid, s.Sess(sid).requests, other);
    PurgeFrame(s, sid);
    var t := Purge(s, sid);
    forall r | r in s.Sess(other).requests && StillRunning(s, r) ensures StillRunning(t, r) {
      assert r < |s.records| ==> SameRole(s.records[r], t.records[r]);
    }
  }

  lemma DisconnectedOthers(s: Broker, sid: SessionId, other: SessionId)
    requires Sound(s) && ListsOk(s) && SessionDeparted(s, other) && other != sid
    ensures SessionDeparted(Disconnected(s, sid), other)
  {
    hide Dispatch, Kept, SessionDeparted, VisitAll, Purge;
    if !s.Sess(sid).disconnected {
      var c := s.Sess(sid);
      var t := s.WithSess(sid, c.(closed := true, disconnected := true));
      LeavingSound(s, sid);
      StayFramed(s, t, other);
      VisitAllDeparted(t, DisconnectPass, c.requests, other);
      var v := VisitAll(t, DisconnectPass, c.requests);
      PurgeStay(v, sid, other);
      StayFramed(v, Purge(v, sid), other);
      PurgeStay(t, sid, other);
      StayFramed(t, Purge(t, sid), other);
    }
  }

  // ---------- every step ----------

  lemma UnmovedStay(s: Broker, t: Broker, sid: SessionId)
    requires Paired(s) && Unmoved(s, t)
    ensures SameStay(s, t, sid)
    ensures ClosedIfGone(s) ==> ClosedIfGone(t)
  {
    assert sid < |s.sessions| ==> SameButConnection(s.sessions[sid], t.sessions[sid]);
    forall r: RecordId | r in s.Sess(sid).requests && StillRunning(s, r) ensures StillRunning(t, r) {
      assert r < |s.records| ==> t.records[r] == s.records[r].(payload := t.records[r].payload);
    }
    if ClosedIfGone(s) {
      forall x | 0 <= x < |t.sessions| && t.sessions[x].disconnected ensures t.sessions[x].closed {
        assert SameButConnection(s.sessions[x], t.sessions[x]);
      }
    }
  }

  lemma QuietStay(s: Broker, action: Action, sid: SessionId)
    requires Paired(s) && Quiet(action)
    ensures SameStay(s, Next(s, action), sid)
    ensures ClosedIfGone(s) ==> ClosedIfGone(Next(s, action))
  {
    hide Unmoved, SameStay, ClosedIfGone, Next, Paired;
    QuietUnmoved(s, action);
    UnmovedStay(s, Next(s, action), sid);
  }

  lemma StagedStay(s: Broker, p: int, sid: SessionId)
    requires Dispatch(s) && CanPop(s.queue, p) && s.lane.AtTop? && s.staged < s.config.maxStaged
    ensures SameStay(s, Staged(s, p), sid)
  {
    PopQueue(s, p);
  }

  lemma RestoredStay(s: Broker, sid: SessionId)
    requires Dispatch(s)
    ensures SameStay(s, Restored(s), sid)
  {
    hide QueueExact, SlotsExact, ClaimsOk, SchedulerSpec.Put;
    if s.lane.Refused? {
      var a := s.lane.a;
      assert AttemptOk(s, a);
      forall r | r in s.Sess(sid).requests && StillRunning(s, r) ensures StillRunning(Restored(s), r) {
        assert r < |s.records| && s.records[r].future.Some? ==> s.attempts[s.records[r].future.value].record == r;
      }
    }
  }

  lemma GrantedStay(s: Broker, r: RecordId, pid: int, sid: SessionId)
    requires Paired(s) && ClaimsOk(s) && r < |s.records| && !s.Decided(r) && s.records[r].future.Some?
    ensures SameStay(s, Granted(s, r, pid), sid)
  {
    GrantedFields(s, r, pid);
    GrantedSessions(s, r, pid, sid);
    var a := s.records[r].future.value;
    hide Granted;
    forall x | x in s.Sess(sid).requests && StillRunning(s, x) ensures StillRunning(Granted(s, r, pid), x) {
    }
  }

  lemma GrantedSessions(s: Broker, r: RecordId, pid: int, sid: SessionId)
    ensures var t := Granted(s, r, pid);
            && t.config == s.config && (sid in t.registered <==> sid in s.registered) && t.Sess(sid).requests == s.Sess(sid).requests
            && t.Sess(sid).disconnected == s.Sess(sid).disconnected && t.Sess(sid).cleanClose == s.Sess(sid).cleanClose
  {
    hide Post, SameStay;
    var rec := s.Rec(r);
    var t := if rec.state == Queued then s.WithRec(r, rec.(state := Running, claimed := true)).(running := s.running + 1) else s;
    var u := if rec.future.Some? then t.WithAtt(rec.future.value, t.Att(rec.future.value).(pid := Some(pid))) else t;
    PostStay(u, u.Rec(r).session, [(r, RunningFrame(Some(pid)))], sid);
    StayFields(u, Granted(s, r, pid), sid);
  }

  lemma StayFields(s: Broker, t: Broker, sid: SessionId)
    requires SameStay(s, t, sid)
    ensures t.config == s.config && (sid in t.registered <==> sid in s.registered) && t.Sess(sid).requests == s.Sess(sid).requests
    ensures t.Sess(sid).disconnected == s.Sess(sid).disconnected && t.Sess(sid).cleanClose == s.Sess(sid).cleanClose
  {
  }

  lemma ClaimDeparted(s: Broker, a: AttemptId, pid: int, sid: SessionId)
    requires Sound(s) && SessionDeparted(s, sid) && a < |s.attempts|
    ensures SessionDeparted(ClaimAnswered(s, a, pid), sid)
  {
    hide SessionDeparted, QueueExact, SlotsExact, Kept, Granted, Settle;
    if s.attempts[a].phase == Started {
      assert AttemptOk(s, a);
      var r := s.attempts[a].record;
      var t := Claiming(s, a, pid).0;
      if Expired(s, s.records[r]) {
        SettleDeparted(s, r, Because(QueueTimedOut, "queue_timeout"), sid);
      } else if !s.Decided(r) {
        GrantedStay(s, r, pid, sid);
        StayFramed(s, t, sid);
      }
      PhaseStay(t, a, if Claiming(s, a, pid).1 then Phase.Claimed else Finished, sid);
    }
  }

  lemma PhaseStay(t: Broker, a: AttemptId, phase: Phase, sid: SessionId)
    requires SessionDeparted(t, sid)
    ensures SessionDeparted(t.WithAtt(a, t.Att(a).(phase := phase)), sid)
  {
    StayFramed(t, t.WithAtt(a, t.Att(a).(phase := phase)), sid);
  }

  lemma HandshakenDeparted(s: Broker, client: string, principal: Principal, offered: nat, sid: SessionId)
    requires SessionDeparted(s, sid) && Retained(s)
    ensures SessionDeparted(Handshaken(s, client, principal, offered), sid)
  {
    var t := Handshaken(s, client, principal, offered);
    if sid < |s.sessions| { assert SameStay(s, t, sid); }
  }

  lemma PostStay(s: Broker, at: SessionId, entry: seq<(RecordId, Frame)>, sid: SessionId)
    ensures SameStay(s, Post(s, at, entry), sid)
  {
    PostFrame(s, at, entry);
    var t := Post(s, at, entry);
    forall r: RecordId | StillRunning(s, r) ensures StillRunning(t, r) { assert s.Rec(r) == t.Rec(r); }
  }

  /** A session other than `at` sees nothing of an admission; `at` itself is still connected. */
  lemma SubmittedDeparted(s: Broker, at: SessionId, msg: Submission, authorized: bool, sid: SessionId)
    requires Paired(s) && SessionDeparted(s, sid) && (forall r :: r in s.Sess(sid).requests ==> r < |s.records|)
    ensures SessionDeparted(Submitted(s, at, msg, authorized), sid)
  {
    hide SessionDeparted, Post, Admit, Admissible, CurrentFrame;
    var c := s.Sess(at);
    var known := Find(s, c.requests, msg.id);
    if known.Some? && CurrentFrame(s, known.value).Some? {
      PostStay(s, s.Rec(known.value).session, [(known.value, CurrentFrame(s, known.value).value)], sid);
      StayFramed(s, Post(s, s.Rec(known.value).session, [(known.value, CurrentFrame(s, known.value).value)]), sid);
    }
    PostStay(s, at, [], sid);
    StayFramed(s, Post(s, at, []), sid);
    var t := s.WithSess(at, c.(watermark := msg.id.sequence));
    StayFramed(s, t, sid);
    PostStay(t, at, [], sid);
    StayFramed(t, Post(t, at, []), sid);
    if !c.disconnected { AdmitDeparted(t, at, msg, sid); }
  }

  lemma AdmitDeparted(s: Broker, at: SessionId, msg: Submission, sid: SessionId)
    requires Paired(s) && SessionDeparted(s, sid) && !s.Sess(at).disconnected
    requires forall r :: r in s.Sess(sid).requests ==> r < |s.records|
    ensures SessionDeparted(Admit(s, at, msg), sid)
  {
    AdmitFields(s, at, msg);
    AdmitSessions(s, at, msg, sid);
    var t := Admit(s, at, msg);
    hide Admit;
    forall r | r in s.Sess(sid).requests && StillRunning(s, r) ensures StillRunning(t, r) { assert t.Rec(r) == s.Rec(r); }
  }

  lemma AdmitSessions(s: Broker, at: SessionId, msg: Submission, sid: SessionId)
    ensures var t := Admit(s, at, msg);
            && (sid in t.registered <==> sid in s.registered) && t.config == s.config
            && t.Sess(sid).disconnected == s.Sess(sid).disconnected && t.Sess(sid).cleanClose == s.Sess(sid).cleanClose
            && (sid != at ==> t.Sess(sid).requests == s.Sess(sid).requests)
  {
    hide Post, SameStay;
    var rec, r, c := NewRecord(s, at, msg), |s.records|, s.Sess(at);
    var u := Charge(s.WithSess(at, c.(requests := c.requests + [r])), at, 1, rec.reserved)
               .(records := s.records + [rec], requests := s.requests + [r],
                 queue := SchedulerSpec.Put(s.queue, r, rec.priority, rec.principal, false), accepted := s.accepted + 1);
    PostStay(u, at, [(r, AcceptedFrame)], sid);
    StayFields(u, Admit(s, at, msg), sid);
  }

  lemma AcknowledgedDeparted(s: Broker, at: SessionId, id: RequestId, sid: SessionId)
    requires Paired(s) && Retained(s) && SessionDeparted(s, sid)
    ensures SessionDeparted(Acknowledged(s, at, id), sid)
  {
    hide SessionDeparted;
    FindIn(s, s.Sess(at).requests, id);
    var known := Find(s, s.Sess(at).requests, id);
    if known.Some? && !s.Sess(at).disconnected {
      var r := known.value;
      KeptInRange(s, at);
      var t := Forget(s, r);
      ForgetFrame(s, r);
      if sid != at {
        ForgetOther(s, r, sid);
        forall x: RecordId | StillRunning(s, x) ensures StillRunning(t, x) {
          assert x < |s.records| ==> SameRole(s.records[x], t.records[x]);
        }
        StayFramed(s, t, sid);
      } else {
        ForgetWithin(s, r);
        assert sid < |s.sessions| ==> SessionWithin(s.sessions[sid], t.sessions[sid]);
        ConnectedDeparted(t, sid);
      }
    }
  }

  lemma ConnectedDeparted(t: Broker, sid: SessionId)
    requires !t.Sess(sid).disconnected
    ensures SessionDeparted(t, sid)
  {
  }

  lemma CancelledByDeparted(s: Broker, at: SessionId, id: RequestId, hard: bool, authorized: bool, sid: SessionId)
    requires Sound(s) && ListsOk(s) && SessionDeparted(s, sid)
    ensures SessionDeparted(CancelledBy(s, at, id, hard, authorized), sid)
  {
    hide SessionDeparted, Kept, Dispatch, Post, Settle, CancelQueued;
    FindIn(s, s.Sess(at).requests, id);
    var known := Find(s, s.Sess(at).requests, id);
    PostStay(s, at, [], sid);
    StayFramed(s, Post(s, at, []), sid);
    if known.Some? {
      var r := known.value;
      var t := if s.records[r].state == Queued then CancelQueued(s, r, Because(Cancelled, "cancelled"))
               else Settle(s, r, Because(Cancelled, "terminated"));
      if s.records[r].state == Queued {
        CancelQueuedDeparted(s, r, Because(Cancelled, "cancelled"), sid);
      } else {
        SettleDeparted(s, r, Because(Cancelled, "terminated"), sid);
      }
      PostStay(t, at, [], sid);
      StayFramed(t, Post(t, at, []), sid);
    }
  }

  lemma GroupDeparted(s: Broker, at: SessionId, group: string, killable: set<RecordId>, sid: SessionId)
    requires Sound(s) && ListsOk(s) && SessionDeparted(s, sid)
    ensures SessionDeparted(GroupCancelledBy(s, at, group, killable), sid)
  {
    hide SessionDeparted, Sound, Post, VisitAll;
    var t := VisitAll(s, GroupPass(group, killable), s.Sess(at).requests);
    VisitAllDeparted(s, GroupPass(group, killable), s.Sess(at).requests, sid);
    PostStay(t, at, [], sid);
    StayFramed(t, Post(t, at, []), sid);
  }

  lemma ShutdownDeparted(s: Broker, sid: SessionId)
    requires Sound(s) && ListsOk(s) && SessionDeparted(s, sid)
    ensures SessionDeparted(ShutdownRound(s), sid)
  {
    hide SessionDeparted, Sound, VisitAll;
    ServerStay(s, Stopping, sid);
    ServerStay(s, Stopped, sid);
    VisitAllDeparted(s, ShutdownCancelPass, s.requests, sid);
    var t := if s.shutdownCancel then VisitAll(s, ShutdownCancelPass, s.requests) else s;
    VisitAllWithin(s, ShutdownCancelPass, s.requests);
    SizesWithin(s, VisitAll(s, ShutdownCancelPass, s.requests));
    VisitAllDeparted(t, ShutdownDeadlinePass, t.requests, sid);
    ServerStay(VisitAll(t, ShutdownDeadlinePass, t.requests), Stopping, sid);
  }

  lemma ServerStay(s: Broker, server: ServerState, sid: SessionId)
    requires SessionDeparted(s, sid)
    ensures SessionDeparted(s.(server := server), sid)
  {
    StayFramed(s, s.(server := server), sid);
  }

  lemma AttemptEndDeparted(s: Broker, action: Action, sid: SessionId)
    requires Sound(s) && SessionDeparted(s, sid) && (action.Notify? || action.GiveUp?)
    ensures SessionDeparted(Next(s, action), sid)
  {
    hide SessionDeparted, Kept, Complete;
    if action.GiveUp? && s.lane.Broken? {
      var t := Complete(s, s.lane.a, Raised(action.message));
      CompleteDeparted(s, s.lane.a, Raised(action.message), sid);
      StayFramed(t, t.(lane := AtTop), sid);
    } else if action.Notify? && action.a < |s.attempts| {
      CompleteDeparted(s, action.a, OutcomeOf(s.attempts[action.a].future), sid);
    }
  }

  lemma StepDeparted(s: Broker, action: Action, sid: SessionId)
    requires Sound(s) && Paired(s) && Retained(s) && ListsOk(s) && SessionDeparted(s, sid)
    ensures SessionDeparted(Next(s, action), sid)
  {
    hide SessionDeparted, Paired, Dispatch, Kept, Retained, Staged, Restored, ClaimAnswered, Submitted, Acknowledged, ClosedCleanly, CancelledBy,
         GroupCancelledBy, Disconnected, VisitAll, Handshaken, Watched, OfferAnswered, ResolvedTo, ShutdownRound, ShutdownRequested;
    if Quiet(action) {
      QuietStay(s, action, sid);
      StayFramed(s, Next(s, action), sid);
    } else {
      match action
      case Handshake(client, principal, offered) => HandshakenDeparted(s, client, principal, offered, sid);
      case Submit(at, msg, authorized) => SubmittedDeparted(s, at, msg, authorized, sid);
      case Acknowledge(at, id) => AcknowledgedDeparted(s, at, id, sid);
      case CloseSession(at) => ClosedCleanlyDeparted(s, at, sid);
      case Cancel(at, id, hard, authorized) => CancelledByDeparted(s, at, id, hard, authorized, sid);
      case CancelGroup(at, group, killable) => GroupDeparted(s, at, group, killable, sid);
      case Disconnect(at) => DisconnectedDeparted(s, at, sid);
      case Expire => VisitAllDeparted(s, ExpirePass, s.requests, sid);
      case Stage => StageDeparted(s, sid);
      case Restore =>
        RestoredStay(s, sid);
        StayFramed(s, Restored(s), sid);
      case GiveUp(_) => AttemptEndDeparted(s, action, sid);
      case Claim(a, pid) => ClaimDepartedAny(s, a, pid, sid);
      case Notify(_) => AttemptEndDeparted(s, action, sid);
      case FinishShutdown => ShutdownDeparted(s, sid);
    }
  }

  lemma ClaimDepartedAny(s: Broker, a: AttemptId, pid: int, sid: SessionId)
    requires Sound(s) && SessionDeparted(s, sid)
    ensures SessionDeparted(ClaimAnswered(s, a, pid), sid)
  {
    hide SessionDeparted, Sound, Claiming;
    if a < |s.attempts| { ClaimDeparted(s, a, pid, sid); }
  }

  lemma StageDeparted(s: Broker, sid: SessionId)
    requires Sound(s) && SessionDeparted(s, sid)
    ensures SessionDeparted(Next(s, Stage), sid)
  {
    hide SessionDeparted, Dispatch, Kept, Staged;
    if p :| MayStage(s, p) && Next(s, Stage) == Staged(s, p) {
      StagedStay(s, p, sid);
      StayFramed(s, Staged(s, p), sid);
    }
  }

  lemma ClosedCleanlyDeparted(s: Broker, at: SessionId, sid: SessionId)
    requires SessionDeparted(s, sid)
    ensures SessionDeparted(ClosedCleanly(s, at), sid)
  {
    hide Post;
    var t := s.WithSess(at, s.Sess(at).(cleanClose := true));
    if sid != at {
      StayFramed(s, t, sid);
      PostStay(t, at, [], sid);
      StayFramed(t, Post(t, at, []), sid);
    } else {
      PostStay(t, at, [], sid);
    }
  }

  lemma DisconnectedDeparted(s: Broker, at: SessionId, sid: SessionId)
    requires Sound(s) && ListsOk(s) && SessionDeparted(s, sid)
    ensures SessionDeparted(Disconnected(s, at), sid)
  {
    hide Sound, Kept, VisitAll, Purge, StillRunning;
    if sid != at {
      DisconnectedOthers(s, at, sid);
    } else if !s.Sess(at).disconnected {
      DisconnectedFlags(s, at);
      if !s.Sess(at).cleanClose && s.config.policy != ContinueWork { DisconnectedHome(s, at); }
    }
  }

  lemma DisconnectedFlags(s: Broker, sid: SessionId)
    requires ListsOk(s)
    ensures Disconnected(s, sid).Sess(sid).cleanClose == s.Sess(sid).cleanClose && Disconnected(s, sid).config == s.config
    ensures ClosedIfGone(s) ==> ClosedIfGone(Disconnected(s, sid))
  {
    hide VisitAll, Purge;
    if !s.Sess(sid).disconnected {
      var c := s.Sess(sid);
      var t := s.WithSess(sid, c.(closed := true, disconnected := true));
      VisitAllWithin(t, DisconnectPass, c.requests);
      var v := if !c.cleanClose && s.config.policy != ContinueWork then VisitAll(t, DisconnectPass, c.requests) else t;
      WithinReflexive(t);
      PurgeWithin(v, sid);
      WithinTransitive(t, v, Purge(v, sid));
      assert sid < |t.sessions| ==> SessionWithin(t.sessions[sid], Purge(v, sid).sessions[sid]);
      if ClosedIfGone(s) { ClosedIfGoneWithin(t, Purge(v, sid)); }
    }
  }
}
