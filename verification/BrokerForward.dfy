/** What no step takes back. */
module BrokerForward {
  import opened Options
  import opened SchedulerSpec
  import opened BrokerState
  import opened BrokerInvariant
  import opened BrokerWithin
  import opened BrokerDispatch
  import opened BrokerDispatchSteps
  import opened BrokerQuiet
  import opened BrokerSteps

  /** A decision, a claim and a release are final. */
  ghost predicate RecordForward(x: Record, y: Record) {
    && SameIdentity(x, y)
    && (x.state.Terminal? ==> y.state == x.state && y.claimed == x.claimed)
    && (x.claimed ==> y.claimed)
    && (x.reservationReleased ==> y.reservationReleased)
  }

  ghost predicate SessionForward(x: Session, y: Session) {
    && x.client == y.client && x.principal == y.principal && x.watermark <= y.watermark
    && (x.disconnected ==> y.disconnected && y.cleanClose == x.cleanClose) && (x.closed ==> y.closed)
    && (y.disconnected ==> x.disconnected || y.closed)
  }

  ghost function ServerStage(server: ServerState): nat {
    match server
    case Serving => 0
    case Draining => 1
    case Stopping => 2
    case Stopped => 3
  }

  ghost predicate Forward(s: Broker, t: Broker) {
    && t.config == s.config && |s.records| <= |t.records| && |s.sessions| <= |t.sessions|
    && s.sent <= t.sent && s.piped <= t.piped && ServerStage(s.server) <= ServerStage(t.server)
    && (s.server != Serving ==> |t.records| == |s.records|)
    && (forall r :: 0 <= r < |s.records| ==> RecordForward(s.records[r], t.records[r]))
    && (forall sid :: 0 <= sid < |s.sessions| ==> SessionForward(s.sessions[sid], t.sessions[sid]))
    && (forall sid :: |s.sessions| <= sid < |t.sessions| && t.sessions[sid].disconnected ==> t.sessions[sid].closed)
  }

  lemma ForwardTransitive(s: Broker, t: Broker, u: Broker)
    requires Forward(s, t) && Forward(t, u)
    ensures Forward(s, u)
  {
    forall r | 0 <= r < |s.records| ensures RecordForward(s.records[r], u.records[r]) {
      assert RecordForward(s.records[r], t.records[r]) && RecordForward(t.records[r], u.records[r]);
    }
    forall sid | 0 <= sid < |s.sessions| ensures SessionForward(s.sessions[sid], u.sessions[sid]) {
      assert SessionForward(s.sessions[sid], t.sessions[sid]) && SessionForward(t.sessions[sid], u.sessions[sid]);
    }
    forall sid | |s.sessions| <= sid < |u.sessions| && u.sessions[sid].disconnected ensures u.sessions[sid].closed {
      assert sid < |t.sessions| ==> SessionForward(t.sessions[sid], u.sessions[sid]);
    }
  }

  lemma WithinForward(s: Broker, t: Broker)
    requires Within(s, t)
    ensures Forward(s, t)
  {
    forall r | 0 <= r < |s.records| ensures RecordForward(s.records[r], t.records[r]) {
      assert RecordWithin(s.records[r], t.records[r]);
    }
    forall sid | 0 <= sid < |s.sessions| ensures SessionForward(s.sessions[sid], t.sessions[sid]) {
      assert SessionWithin(s.sessions[sid], t.sessions[sid]);
    }
  }

  lemma UnmovedForward(s: Broker, t: Broker)
    requires Unmoved(s, t)
    ensures Forward(s, t)
  {
    forall r | 0 <= r < |s.records| ensures RecordForward(s.records[r], t.records[r]) {
      assert t.records[r] == s.records[r].(payload := t.records[r].payload);
    }
    forall sid | 0 <= sid < |s.sessions| ensures SessionForward(s.sessions[sid], t.sessions[sid]) {
      assert SameButConnection(s.sessions[sid], t.sessions[sid]);
    }
  }

  lemma FuturesForward(s: Broker, t: Broker)
    requires FuturesOnly(s, t)
    ensures Forward(s, t)
  {
    forall r | 0 <= r < |s.records| ensures RecordForward(s.records[r], t.records[r]) {
      assert t.records[r] == s.records[r].(future := t.records[r].future);
    }
  }

  lemma StagedForward(s: Broker, p: int)
    requires CanPop(s.queue, p)
    ensures Forward(s, Staged(s, p))
  {
    hide SchedulerSpec.Pop, SchedulerSpec.PopItem;
  }

  lemma StageForward(s: Broker)
    ensures Forward(s, Next(s, Stage)) && Forward(s, Restored(s)) && Forward(s, s)
  {
    hide Forward, Staged, Restored, FuturesOnly, Within;
    RestoredFields(s);
    FuturesForward(s, Restored(s));
    WithinReflexive(s);
    WithinForward(s, s);
    if p :| MayStage(s, p) && Next(s, Stage) == Staged(s, p) { StagedForward(s, p); }
  }

  lemma SessionForwarded(s: Broker, sid: SessionId, c: Session)
    requires SessionForward(s.Sess(sid), c)
    ensures Forward(s, s.WithSess(sid, c))
  {
  }

  lemma PostForward(s: Broker, sid: SessionId, entry: seq<(RecordId, Frame)>)
    ensures Forward(s, Post(s, sid, entry))
  {
    hide Forward, Within;
    PostWithin(s, sid, entry);
    WithinForward(s, Post(s, sid, entry));
  }

  lemma AdmitForward(s: Broker, sid: SessionId, msg: Submission)
    requires s.server == Serving
    ensures Forward(s, Admit(s, sid, msg))
  {
    hide Charge, Forward, SchedulerSpec.Put, Post;
    var rec, r, c := NewRecord(s, sid, msg), |s.records|, s.Sess(sid);
    var v := s.WithSess(sid, c.(requests := c.requests + [r]));
    ChargeFrame(v, sid, 1, rec.reserved);
    var u := Charge(v, sid, 1, rec.reserved)
               .(records := s.records + [rec], requests := s.requests + [r],
                 queue := SchedulerSpec.Put(s.queue, r, rec.priority, rec.principal, false), accepted := s.accepted + 1);
    AdmittedForward(s, u, sid, rec);
    PostForward(u, sid, [(r, AcceptedFrame)]);
    ForwardTransitive(s, u, Admit(s, sid, msg));
  }

  lemma AdmittedForward(s: Broker, u: Broker, sid: SessionId, rec: Record)
    requires s.server == Serving && u.records == s.records + [rec]
    requires u.sessions == Charge(s.WithSess(sid, s.Sess(sid).(requests := s.Sess(sid).requests + [|s.records|])), sid, 1, rec.reserved).sessions
    requires u == s.(records := u.records, sessions := u.sessions, requests := u.requests, queue := u.queue, accepted := u.accepted,
                     reservedOutcomes := u.reservedOutcomes, reservedBytes := u.reservedBytes)
    ensures Forward(s, u)
  {
  }

  lemma SubmittedForward(s: Broker, sid: SessionId, msg: Submission, authorized: bool)
    ensures Forward(s, Submitted(s, sid, msg, authorized))
  {
    hide Forward, Within, Post, Admit, HasRoom, CurrentFrame;
    var c := s.Sess(sid);
    var known := Find(s, c.requests, msg.id);
    WithinReflexive(s);
    WithinForward(s, s);
    if known.Some? && CurrentFrame(s, known.value).Some? {
      PostForward(s, s.Rec(known.value).session, [(known.value, CurrentFrame(s, known.value).value)]);
    }
    PostForward(s, sid, []);
    var t := s.WithSess(sid, c.(watermark := msg.id.sequence));
    if c.watermark < msg.id.sequence {
      SessionForwarded(s, sid, c.(watermark := msg.id.sequence));
      PostForward(t, sid, []);
      ForwardTransitive(s, t, Post(t, sid, []));
      if s.server == Serving {
        AdmitForward(t, sid, msg);
        ForwardTransitive(s, t, Admit(t, sid, msg));
      }
    }
  }

  lemma CancelledByForward(s: Broker, sid: SessionId, id: RequestId, hard: bool, authorized: bool)
    ensures Within(s, CancelledBy(s, sid, id, hard, authorized))
  {
    hide Within, Post, CancelQueued, Settle;
    var known := Find(s, s.Sess(sid).requests, id);
    WithinReflexive(s);
    PostWithin(s, sid, []);
    if known.Some? {
      var t, u := CancelQueued(s, known.value, Because(Cancelled, "cancelled")), Settle(s, known.value, Because(Cancelled, "terminated"));
      CancelQueuedWithin(s, known.value, Because(Cancelled, "cancelled"));
      PostWithin(t, sid, []);
      WithinTransitive(s, t, Post(t, sid, []));
      SettleWithin(s, known.value, Because(Cancelled, "terminated"));
      PostWithin(u, sid, []);
      WithinTransitive(s, u, Post(u, sid, []));
    }
  }

  lemma GroupForward(s: Broker, sid: SessionId, group: string, killable: set<RecordId>)
    requires ListsOk(s)
    ensures Within(s, GroupCancelledBy(s, sid, group, killable))
  {
    hide Within, Post, VisitAll;
    var t := VisitAll(s, GroupPass(group, killable), s.Sess(sid).requests);
    WithinReflexive(s);
    VisitAllWithin(s, GroupPass(group, killable), s.Sess(sid).requests);
    PostWithin(t, sid, []);
    WithinTransitive(s, t, Post(t, sid, []));
  }

  lemma DisconnectedForward(s: Broker, sid: SessionId)
    requires ListsOk(s)
    ensures Forward(s, Disconnected(s, sid))
  {
    hide Forward, Within, VisitAll, Purge;
    var c := s.Sess(sid);
    var t := s.WithSess(sid, c.(closed := true, disconnected := true));
    WithinReflexive(s);
    WithinForward(s, s);
    if !c.disconnected {
      SessionForwarded(s, sid, c.(closed := true, disconnected := true));
      VisitAllWithin(t, DisconnectPass, c.requests);
      var v := if !c.cleanClose && s.config.policy != ContinueWork then VisitAll(t, DisconnectPass, c.requests) else t;
      WithinReflexive(t);
      PurgeWithin(v, sid);
      WithinTransitive(t, v, Purge(v, sid));
      WithinForward(t, Purge(v, sid));
      ForwardTransitive(s, t, Purge(v, sid));
    }
  }

  lemma ServerForward(s: Broker, server: ServerState)
    requires ServerStage(s.server) <= ServerStage(server)
    ensures Forward(s, s.(server := server))
  {
  }

  lemma ShutdownForward(s: Broker)
    requires ListsOk(s)
    ensures Forward(s, ShutdownRound(s))
  {
    hide Forward, Within, VisitAll;
    WithinReflexive(s);
    WithinForward(s, s);
    if s.server == Stopping {
      ServerForward(s, Stopped);
    } else if s.server == Draining {
      ServerForward(s, Stopping);
      var t := if s.shutdownCancel then VisitAll(s, ShutdownCancelPass, s.requests) else s;
      VisitAllWithin(s, ShutdownCancelPass, s.requests);
      WithinForward(s, t);
      SizesWithin(s, t);
      var u := VisitAll(t, ShutdownDeadlinePass, t.requests);
      VisitAllWithin(t, ShutdownDeadlinePass, t.requests);
      WithinTransitive(s, t, u);
      WithinForward(s, u);
      SameServer(s, u);
      ServerForward(u, Stopping);
      ForwardTransitive(s, u, u.(server := Stopping));
    }
  }

  lemma SameServer(s: Broker, t: Broker)
    requires Within(s, t)
    ensures t.server == s.server
  {
  }

  lemma GrantedForward(s: Broker, r: RecordId, pid: int)
    requires Paired(s) && ClaimsOk(s) && r < |s.records| && !s.Decided(r) && s.records[r].future.Some?
    ensures Forward(s, Granted(s, r, pid))
  {
    hide Post;
    GrantedFields(s, r, pid);
    var rec := s.Rec(r);
    var t := if rec.state == Queued
             then s.WithRec(r, rec.(state := Running, claimed := true)).(running := s.running + 1) else s;
    var u := t.WithAtt(rec.future.value, t.Att(rec.future.value).(pid := Some(pid)));
    assert Forward(s, u);
    PostForward(u, u.Rec(r).session, [(r, RunningFrame(Some(pid)))]);
    ForwardTransitive(s, u, Granted(s, r, pid));
  }

  lemma PhaseForward(s: Broker, a: AttemptId, phase: Phase)
    ensures Forward(s, s.WithAtt(a, s.Att(a).(phase := phase)))
  {
  }

  lemma ClaimedForward(s: Broker, a: AttemptId, pid: int)
    requires Paired(s) && AttemptsOk(s) && ClaimsOk(s)
    ensures Forward(s, ClaimAnswered(s, a, pid))
  {
    hide Forward, Settle, Granted, Within;
    WithinReflexive(s);
    WithinForward(s, s);
    if a < |s.attempts| && s.attempts[a].phase == Started {
      var r := s.attempts[a].record;
      assert AttemptOk(s, a);
      SettleWithin(s, r, Because(QueueTimedOut, "queue_timeout"));
      WithinForward(s, Settle(s, r, Because(QueueTimedOut, "queue_timeout")));
      if !s.Decided(r) { GrantedForward(s, r, pid); }
      var c := Claiming(s, a, pid);
      PhaseForward(c.0, a, if c.1 then Phase.Claimed else Finished);
      ForwardTransitive(s, c.0, ClaimAnswered(s, a, pid));
    }
  }

  lemma AttemptEndForward(s: Broker, action: Action)
    requires action.Notify? || action.GiveUp?
    ensures Forward(s, Next(s, action))
  {
    hide Forward, Within, Complete;
    WithinReflexive(s);
    WithinForward(s, s);
    if action.GiveUp? && s.lane.Broken? {
      var t := Complete(s, s.lane.a, Raised(action.message));
      CompleteWithin(s, s.lane.a, Raised(action.message));
      WithinForward(s, t);
      LaneForward(t);
      ForwardTransitive(s, t, t.(lane := AtTop));
    } else if action.Notify? {
      CompleteWithin(s, action.a, OutcomeOf(s.Att(action.a).future));
      WithinForward(s, Complete(s, action.a, OutcomeOf(s.Att(action.a).future)));
    }
  }

  lemma LaneForward(s: Broker)
    ensures Forward(s, s.(lane := AtTop))
  {
  }

  lemma HandshakenForward(s: Broker, client: string, principal: Principal, offered: nat)
    ensures Forward(s, Handshaken(s, client, principal, offered))
  {
  }

  lemma AcknowledgedForward(s: Broker, sid: SessionId, id: RequestId)
    ensures Forward(s, Acknowledged(s, sid, id))
  {
    hide Forward, Forget, Within;
    var known := Find(s, s.Sess(sid).requests, id);
    WithinReflexive(s);
    WithinForward(s, s);
    if known.Some? {
      ForgetWithin(s, known.value);
      WithinForward(s, Forget(s, known.value));
    }
  }

  lemma ClosedCleanlyForward(s: Broker, sid: SessionId)
    ensures Forward(s, ClosedCleanly(s, sid))
  {
    hide Forward, Post, Within;
    WithinReflexive(s);
    WithinForward(s, s);
    if !s.Sess(sid).disconnected {
      var t := s.WithSess(sid, s.Sess(sid).(cleanClose := true));
      SessionForwarded(s, sid, s.Sess(sid).(cleanClose := true));
      PostForward(t, sid, []);
      ForwardTransitive(s, t, Post(t, sid, []));
    }
  }

  lemma StepForward(s: Broker, action: Action)
    requires Paired(s) && AttemptsOk(s) && ClaimsOk(s) && ListsOk(s)
    ensures Forward(s, Next(s, action))
  {
    hide Forward, Paired, AttemptsOk, ClaimsOk, ListsOk, Unmoved, Within, Staged, Restored, ClaimAnswered, Submitted, Acknowledged,
         ClosedCleanly, CancelledBy, Disconnected, VisitAll, Handshaken, ShutdownRound, GivenUp, Notified, Post, Watched, OfferAnswered,
         ResolvedTo, GroupCancelledBy;
    if Quiet(action) {
      QuietUnmoved(s, action);
      UnmovedForward(s, Next(s, action));
    } else {
      match action
      case Handshake(client, principal, offered) => HandshakenForward(s, client, principal, offered);
      case Submit(sid, msg, authorized) => SubmittedForward(s, sid, msg, authorized);
      case Acknowledge(sid, id) => AcknowledgedForward(s, sid, id);
      case CloseSession(sid) => ClosedCleanlyForward(s, sid);
      case Cancel(sid, id, hard, authorized) =>
        CancelledByForward(s, sid, id, hard, authorized);
        WithinForward(s, CancelledBy(s, sid, id, hard, authorized));
      case CancelGroup(sid, group, killable) =>
        GroupForward(s, sid, group, killable);
        WithinForward(s, GroupCancelledBy(s, sid, group, killable));
      case Disconnect(sid) => DisconnectedForward(s, sid);
      case Expire => ExpireForward(s);
      case Stage => StageForward(s);
      case Restore => StageForward(s);
      case GiveUp(_) => AttemptEndForward(s, action);
      case Notify(_) => AttemptEndForward(s, action);
      case Claim(a, pid) => ClaimedForward(s, a, pid);
      case FinishShutdown => ShutdownForward(s);
    }
  }

  lemma ExpireForward(s: Broker)
    requires ListsOk(s)
    ensures Forward(s, VisitAll(s, ExpirePass, s.requests))
  {
    hide Forward, Within;
    VisitAllWithin(s, ExpirePass, s.requests);
    WithinForward(s, VisitAll(s, ExpirePass, s.requests));
  }
}
