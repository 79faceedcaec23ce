/** What a departed client left behind and no callback will let go: it stays retained for good. */
module BrokerAbandoned {
  import opened Options
  import opened SchedulerSpec
  import opened BrokerState
  import opened BrokerInvariant
  import opened BrokerWithin
  import opened BrokerDispatch
  import opened BrokerDispatchSteps
  import opened BrokerRetention
  import opened BrokerDeparture
  import opened BrokerDepartureSteps
  import opened BrokerQuiet
  import opened BrokerCounts
  import opened BrokerSteps
  import opened BrokerRestSteps
  import opened BrokerForward
  import opened BrokerTheorems

  /** An attempt of `r` is with the pool or with the dispatch loop, and not on its way back from a full pool. */
  ghost predicate UnderWay(s: Broker, r: RecordId) {
    var f := s.Rec(r).future;
    f.Some? && !s.Att(f.value).over && s.lane != Refused(f.value)
  }

  /** Some callback of `r` can still run: its attempt is under way, or the dispatch loop may yet stage it. */
  ghost predicate Hopeful(s: Broker, r: RecordId) {
    UnderWay(s, r) || (!s.Decided(r) && s.config.maxStaged > 0)
  }

  /** No request of the session, retained or acknowledged already, will have a callback any more. */
  ghost predicate Abandoned(s: Broker, sid: SessionId) {
    forall r: RecordId :: r < |s.records| && s.records[r].session == sid ==> !Hopeful(s, r)
  }

  // ---------- what is abandoned stays as it is ----------

  ghost predicate Steady(s: Broker, t: Broker, sid: SessionId) {
    t.Sess(sid).requests == s.Sess(sid).requests && (Abandoned(s, sid) ==> Abandoned(t, sid))
  }

  lemma SteadyTransitive(s: Broker, t: Broker, u: Broker, sid: SessionId)
    requires Steady(s, t, sid) && Steady(t, u, sid)
    ensures Steady(s, u, sid)
  {
  }

  lemma WithinSteady(s: Broker, t: Broker, sid: SessionId)
    requires Within(s, t) && Paired(s) && t.Sess(sid).requests == s.Sess(sid).requests
    ensures Steady(s, t, sid)
  {
    forall r: RecordId | r < |t.records| && t.records[r].session == sid && !Hopeful(s, r) ensures !Hopeful(t, r) {
      assert RecordWithin(s.records[r], t.records[r]);
      assert s.records[r].future.Some? ==> AttemptWithin(s.attempts[s.records[r].future.value], t.attempts[s.records[r].future.value]);
    }
    forall r: RecordId | r < |t.records| ensures t.records[r].session == s.records[r].session {
      assert RecordWithin(s.records[r], t.records[r]);
    }
  }

  lemma StayRequests(s: Broker, t: Broker, sid: SessionId)
    requires SameStay(s, t, sid)
    ensures t.Sess(sid).requests == s.Sess(sid).requests
  {
  }

  /** Completing an attempt of another session does not reach this one. */
  lemma CompleteAway(s: Broker, a: AttemptId, o: Outcome, sid: SessionId)
    requires Paired(s) && AttemptsOk(s) && Kept(s) && a < |s.attempts| && s.records[s.attempts[a].record].session != sid
    ensures Complete(s, a, o).Sess(sid).requests == s.Sess(sid).requests
  {
    hide Paired, AttemptsOk, Kept, SameStay, Decide, GiveBack, PurgeIfClosed, SameRetention;
    var r, f := s.attempts[a].record, FrameOf(o);
    var d := Decide(s, r, f);
    PairedAttempt(s, a);
    DecideStay(s, r, f, sid);
    StayRequests(s, d, sid);
    DecideSame(s, r, f);
    RetentionFramed(s, d);
    CompletedParts(s, a, f);
    GiveBackSame(d, a);
    RetentionFramed(d, GiveBack(d, a));
    GiveBackStay(d, a, sid);
    StayRequests(d, GiveBack(d, a), sid);
    PurgeOthers(GiveBack(d, a), s.records[r].session, sid);
    StayRequests(GiveBack(d, a), Complete(s, a, o), sid);
  }

  lemma PairedAttempt(s: Broker, a: AttemptId)
    requires Paired(s) && a < |s.attempts|
    ensures s.attempts[a].record < |s.records|
  {
  }

  lemma CancelFutureAway(s: Broker, r: RecordId, sid: SessionId)
    requires DispatchBut(s, r) && Kept(s) && r < |s.records| && Abandoned(s, sid)
    ensures CancelFuture(s, r).Sess(sid).requests == s.Sess(sid).requests
  {
    hide QueueExact, SlotsExact, ClaimsOk, Kept, Complete;
    if s.records[r].future.Some? {
      var a := s.records[r].future.value;
      if s.attempts[a].future.Pending? {
        var t := s.WithAtt(a, s.attempts[a].(future := CancelledFuture));
        FutureReplaced(s, a, CancelledFuture);
        RetentionFramed(s, t);
        assert AttemptOk(s, a);
        assert s.records[r].session == sid ==> !UnderWay(s, r);
        if s.attempts[a].watched { CompleteAway(t, a, OutcomeOf(CancelledFuture), sid); }
      }
    }
  }

  lemma CancelQueuedAway(s: Broker, r: RecordId, f: Frame, sid: SessionId)
    requires Dispatch(s) && Kept(s) && r < |s.records| && f.TerminalFrame? && Abandoned(s, sid)
    ensures CancelQueued(s, r, f).Sess(sid).requests == s.Sess(sid).requests
  {
    hide Kept, CancelFuture, Decide, QueueExact, SlotsExact, ClaimsOk, AttemptsOk, SameStay, Within, Abandoned;
    var d := Dequeue(s, r);
    RetentionFramed(s, d);
    DequeuedAttempts(s, r);
    DecideStay(d, r, f, sid);
    StayRequests(d, Decide(d, r, f), sid);
    DecideSame(d, r, f);
    RetentionFramed(d, Decide(d, r, f));
    DequeueWithin(s, r);
    DecideWithin(d, r, f);
    WithinSteady(s, d, sid);
    WithinSteady(d, Decide(d, r, f), sid);
    DecideDispatch(s, r, f);
    SizesWithin(d, Decide(d, r, f));
    CancelFutureAway(Decide(d, r, f), r, sid);
  }

  lemma SettleAway(s: Broker, r: RecordId, f: Frame, sid: SessionId)
    requires Dispatch(s) && Kept(s) && r < |s.records| && f.TerminalFrame? && Abandoned(s, sid) && !Unstaged(s, r)
    ensures Settle(s, r, f).Sess(sid).requests == s.Sess(sid).requests
  {
    NotInQueue(s, r);
    CancelQueuedAway(s, r, f, sid);
  }

  lemma VisitAway(s: Broker, pass: Pass, r: RecordId, sid: SessionId)
    requires Dispatch(s) && Kept(s) && r < |s.records| && Abandoned(s, sid)
    ensures Dispatch(Visit(s, pass, r)) && Kept(Visit(s, pass, r)) && |Visit(s, pass, r).records| == |s.records|
    ensures Visit(s, pass, r).Sess(sid).requests == s.Sess(sid).requests && Abandoned(Visit(s, pass, r), sid)
  {
    hide Kept, Dispatch, CancelQueued, Settle, Abandoned, Within;
    VisitDispatch(s, pass, r);
    VisitWithin(s, pass, r);
    SizesWithin(s, Visit(s, pass, r));
    DispatchParts(s);
    var ruling := Ruling(s, pass, r);
    if ruling.Some? {
      if s.records[r].state == Queued {
        CancelQueuedKept(s, r, ruling.value);
        CancelQueuedAway(s, r, ruling.value, sid);
      } else {
        SettleKept(s, r, ruling.value);
        SettleAway(s, r, ruling.value, sid);
      }
    }
    WithinSteady(s, Visit(s, pass, r), sid);
  }

  lemma {:induction false} VisitAllAway(s: Broker, pass: Pass, todo: seq<RecordId>, sid: SessionId)
    requires Dispatch(s) && Kept(s) && (forall r :: r in todo ==> r < |s.records|) && Abandoned(s, sid)
    ensures VisitAll(s, pass, todo).Sess(sid).requests == s.Sess(sid).requests && Abandoned(VisitAll(s, pass, todo), sid)
    ensures Dispatch(VisitAll(s, pass, todo)) && Kept(VisitAll(s, pass, todo)) && |VisitAll(s, pass, todo).records| == |s.records|
    decreases |todo|
  {
    hide Dispatch, Kept, Abandoned, Visit;
    if todo != [] {
      assert todo[0] in todo && forall r :: r in todo[1..] ==> r in todo;
      VisitAway(s, pass, todo[0], sid);
      VisitAllAway(Visit(s, pass, todo[0]), pass, todo[1..], sid);
    }
  }

  // ---------- every step ----------

  lemma UnmovedSteady(s: Broker, t: Broker, sid: SessionId)
    requires Paired(s) && Unmoved(s, t) && (s.lane.Refused? ==> t.lane == s.lane)
    ensures Steady(s, t, sid)
  {
    assert sid < |s.sessions| ==> SameButConnection(s.sessions[sid], t.sessions[sid]);
    forall r: RecordId | r < |t.records| && t.records[r].session == sid && !Hopeful(s, r) ensures !Hopeful(t, r) {
      assert t.records[r] == s.records[r].(payload := t.records[r].payload);
    }
    forall r: RecordId | r < |t.records| ensures t.records[r].session == s.records[r].session {
      assert t.records[r] == s.records[r].(payload := t.records[r].payload);
    }
  }

  lemma QuietLane(s: Broker, action: Action)
    requires Quiet(action) && s.lane.Refused?
    ensures Next(s, action).lane == s.lane
  {
  }

  lemma QuietSteady(s: Broker, action: Action, sid: SessionId)
    requires Paired(s) && Quiet(action)
    ensures Steady(s, Next(s, action), sid)
  {
    hide Unmoved, Steady, Next, Paired;
    QuietUnmoved(s, action);
    if s.lane.Refused? { QuietLane(s, action); }
    UnmovedSteady(s, Next(s, action), sid);
  }

  lemma PostSteady(s: Broker, at: SessionId, entry: seq<(RecordId, Frame)>, sid: SessionId)
    requires Paired(s)
    ensures Steady(s, Post(s, at, entry), sid) && Paired(Post(s, at, entry))
  {
    hide Within, SameStay, Steady, Post;
    PostWithin(s, at, entry);
    PostStay(s, at, entry, sid);
    StayRequests(s, Post(s, at, entry), sid);
    WithinSteady(s, Post(s, at, entry), sid);
    PostFrame(s, at, entry);
  }

  /** Only the session `at` differs, and it is another one. */
  lemma ElsewhereSteady(s: Broker, t: Broker, sid: SessionId)
    requires t.records == s.records && t.attempts == s.attempts && t.lane == s.lane && t.config == s.config
    requires t.Sess(sid).requests == s.Sess(sid).requests
    ensures Steady(s, t, sid)
  {
    forall r: RecordId | r < |t.records| && !Hopeful(s, r) ensures !Hopeful(t, r) { assert t.Rec(r) == s.Rec(r); }
  }

  lemma AdmittedSteady(s: Broker, at: SessionId, msg: Submission, sid: SessionId)
    requires Paired(s) && at != sid
    ensures Steady(s, Admit(s, at, msg), sid)
  {
    AdmitFields(s, at, msg);
    AdmitSessions(s, at, msg, sid);
    var t := Admit(s, at, msg);
    hide Admit;
    forall r: RecordId | r < |s.records| && !Hopeful(s, r) ensures !Hopeful(t, r) { assert t.Rec(r) == s.Rec(r); }
    assert t.records[|s.records|].session == at;
    forall r: RecordId | r < |t.records| && t.records[r].session == sid ensures r < |s.records| && s.records[r].session == sid {
      assert r < |s.records| ==> t.records[r] == s.records[r];
    }
  }

  lemma SubmittedSteady(s: Broker, at: SessionId, msg: Submission, authorized: bool, sid: SessionId)
    requires Paired(s) && (at == sid ==> s.Sess(sid).disconnected)
    ensures Steady(s, Submitted(s, at, msg, authorized), sid)
  {
    hide Paired, Steady, Post, Admit, Admissible, CurrentFrame;
    var c := s.Sess(at);
    var known := Find(s, c.requests, msg.id);
    ElsewhereSteady(s, s, sid);
    if known.Some? && CurrentFrame(s, known.value).Some? {
      PostSteady(s, s.Rec(known.value).session, [(known.value, CurrentFrame(s, known.value).value)], sid);
    }
    PostSteady(s, at, [], sid);
    var t := s.WithSess(at, c.(watermark := msg.id.sequence));
    ElsewhereSteady(s, t, sid);
    assert Paired(t) by { PairedApart(s, t); }
    PostSteady(t, at, [], sid);
    SteadyTransitive(s, t, Post(t, at, []), sid);
    if at != sid {
      AdmittedSteady(t, at, msg, sid);
      SteadyTransitive(s, t, Admit(t, at, msg), sid);
    }
  }

  lemma PairedApart(s: Broker, t: Broker)
    requires Paired(s) && t.records == s.records && t.attempts == s.attempts && t.lane == s.lane
    ensures Paired(t)
  {
  }

  lemma HandshakenSteady(s: Broker, client: string, principal: Principal, offered: nat, sid: SessionId)
    requires sid < |s.sessions|
    ensures Steady(s, Handshaken(s, client, principal, offered), sid)
  {
    hide Steady;
    ElsewhereSteady(s, Handshaken(s, client, principal, offered), sid);
  }

  lemma ForgetSteady(s: Broker, r: RecordId, sid: SessionId)
    requires Paired(s) && s.Rec(r).session != sid
    ensures Steady(s, Forget(s, r), sid)
  {
    hide Within, Steady, Forget;
    ForgetOther(s, r, sid);
    ForgetWithin(s, r);
    WithinSteady(s, Forget(s, r), sid);
  }

  lemma AcknowledgedSteady(s: Broker, at: SessionId, id: RequestId, sid: SessionId)
    requires Paired(s) && Retained(s) && (at == sid ==> s.Sess(sid).disconnected)
    ensures Steady(s, Acknowledged(s, at, id), sid)
  {
    hide Steady, Forget, Paired;
    ElsewhereSteady(s, s, sid);
    FindIn(s, s.Sess(at).requests, id);
    var known := Find(s, s.Sess(at).requests, id);
    KeptInRange(s, at);
    if known.Some? && at != sid { ForgetSteady(s, known.value, sid); }
  }

  lemma ClosedCleanlySteady(s: Broker, at: SessionId, sid: SessionId)
    requires Paired(s)
    ensures Steady(s, ClosedCleanly(s, at), sid)
  {
    hide Steady, Post, Paired;
    var t := s.WithSess(at, s.Sess(at).(cleanClose := true));
    ElsewhereSteady(s, s, sid);
    ElsewhereSteady(s, t, sid);
    PairedApart(s, t);
    PostSteady(t, at, [], sid);
    SteadyTransitive(s, t, Post(t, at, []), sid);
  }

  lemma CancelledBySteady(s: Broker, at: SessionId, id: RequestId, hard: bool, authorized: bool, sid: SessionId)
    requires Dispatch(s) && Paired(s) && Kept(s) && ListsOk(s) && Abandoned(s, sid)
    ensures Steady(s, CancelledBy(s, at, id, hard, authorized), sid)
  {
    hide Steady, Abandoned, Dispatch, Paired, Kept, Post, Settle, CancelQueued, Within;
    FindIn(s, s.Sess(at).requests, id);
    var known := Find(s, s.Sess(at).requests, id);
    ElsewhereSteady(s, s, sid);
    PostSteady(s, at, [], sid);
    if known.Some? {
      var r := known.value;
      var t := if s.records[r].state == Queued then CancelQueued(s, r, Because(Cancelled, "cancelled"))
               else Settle(s, r, Because(Cancelled, "terminated"));
      if s.records[r].state == Queued {
        CancelQueuedAway(s, r, Because(Cancelled, "cancelled"), sid);
        CancelQueuedWithin(s, r, Because(Cancelled, "cancelled"));
        CancelQueuedDispatch(s, r, Because(Cancelled, "cancelled"));
      } else {
        SettleAway(s, r, Because(Cancelled, "terminated"), sid);
        SettleWithin(s, r, Because(Cancelled, "terminated"));
        SettleDispatch(s, r, Because(Cancelled, "terminated"));
      }
      WithinSteady(s, t, sid);
      DispatchParts(t);
      PostSteady(t, at, [], sid);
      SteadyTransitive(s, t, Post(t, at, []), sid);
    }
  }

  lemma PassSteady(s: Broker, pass: Pass, todo: seq<RecordId>, sid: SessionId)
    requires Dispatch(s) && Kept(s) && (forall r :: r in todo ==> r < |s.records|) && Abandoned(s, sid)
    ensures Steady(s, VisitAll(s, pass, todo), sid) && Dispatch(VisitAll(s, pass, todo)) && Kept(VisitAll(s, pass, todo))
    ensures Within(s, VisitAll(s, pass, todo)) && Abandoned(VisitAll(s, pass, todo), sid)
  {
    hide Dispatch, Kept, Abandoned, Within;
    VisitAllAway(s, pass, todo, sid);
    VisitAllWithin(s, pass, todo);
  }

  lemma GroupSteady(s: Broker, at: SessionId, group: string, killable: set<RecordId>, sid: SessionId)
    requires Dispatch(s) && Kept(s) && ListsOk(s) && Abandoned(s, sid)
    ensures Steady(s, GroupCancelledBy(s, at, group, killable), sid)
  {
    hide Steady, Abandoned, Dispatch, Kept, Post, VisitAll, Within;
    ElsewhereSteady(s, s, sid);
    PassSteady(s, GroupPass(group, killable), s.Sess(at).requests, sid);
    var t := VisitAll(s, GroupPass(group, killable), s.Sess(at).requests);
    DispatchParts(t);
    PostSteady(t, at, [], sid);
    SteadyTransitive(s, t, Post(t, at, []), sid);
  }

  lemma ShutdownSteady(s: Broker, sid: SessionId)
    requires Dispatch(s) && Kept(s) && ListsOk(s) && Abandoned(s, sid)
    ensures Steady(s, ShutdownRound(s), sid)
  {
    hide Steady, Abandoned, Dispatch, Kept, VisitAll, Within;
    ElsewhereSteady(s, s, sid);
    ElsewhereSteady(s, s.(server := Stopping), sid);
    ElsewhereSteady(s, s.(server := Stopped), sid);
    PassSteady(s, ShutdownCancelPass, s.requests, sid);
    var t := if s.shutdownCancel then VisitAll(s, ShutdownCancelPass, s.requests) else s;
    SizesWithin(s, VisitAll(s, ShutdownCancelPass, s.requests));
    PassSteady(t, ShutdownDeadlinePass, t.requests, sid);
    var u := VisitAll(t, ShutdownDeadlinePass, t.requests);
    ElsewhereSteady(u, u.(server := Stopping), sid);
    SteadyTransitive(s, t, u, sid);
    SteadyTransitive(s, u, u.(server := Stopping), sid);
  }

  lemma DisconnectedSteady(s: Broker, at: SessionId, sid: SessionId)
    requires Dispatch(s) && Kept(s) && ListsOk(s) && Abandoned(s, sid) && s.Sess(sid).disconnected
    ensures Steady(s, Disconnected(s, at), sid)
  {
    hide Steady, Abandoned, Dispatch, Kept, VisitAll, Purge, Within;
    ElsewhereSteady(s, s, sid);
    if !s.Sess(at).disconnected {
      var c := s.Sess(at);
      var t := s.WithSess(at, c.(closed := true, disconnected := true));
      SessionOnlyDispatch(s, at, c.(closed := true, disconnected := true));
      RetentionFramed(s, t);
      ElsewhereSteady(s, t, sid);
      SteadyAbandoned(s, t, sid);
      PurgeSteady(t, at, sid);
      PassSteady(t, DisconnectPass, c.requests, sid);
      var v := VisitAll(t, DisconnectPass, c.requests);
      PurgeSteady(v, at, sid);
      SteadyTransitive(s, t, v, sid);
      SteadyTransitive(s, t, Purge(t, at), sid);
      SteadyTransitive(s, v, Purge(v, at), sid);
    }
  }

  lemma SteadyAbandoned(s: Broker, t: Broker, sid: SessionId)
    requires Steady(s, t, sid) && Abandoned(s, sid)
    ensures Abandoned(t, sid)
  {
  }

  lemma PurgeSteady(s: Broker, at: SessionId, sid: SessionId)
    requires Dispatch(s) && Kept(s) && at != sid
    ensures Steady(s, Purge(s, at), sid)
  {
    hide Steady, Dispatch, Kept, Purge, Within, SameStay;
    DispatchParts(s);
    PurgeStay(s, at, sid);
    StayRequests(s, Purge(s, at), sid);
    PurgeWithin(s, at);
    WithinSteady(s, Purge(s, at), sid);
  }

  /** The dispatch loop finds no request of an abandoned session to stage. */
  lemma StagedSteady(s: Broker, p: int, sid: SessionId)
    requires Dispatch(s) && MayStage(s, p) && Abandoned(s, sid)
    ensures Steady(s, Staged(s, p), sid)
  {
    hide QueueExact, ClaimsOk, SchedulerSpec.Pop, SchedulerSpec.PopItem, SameStay;
    StagedStay(s, p, sid);
    StayRequests(s, Staged(s, p), sid);
    assert BelongsTo(s, PopItem(s.queue, p), p, Turn(s.queue, p)) by { PopQueue(s, p); }
    var r, t := PopItem(s.queue, p), Staged(s, p);
    assert Hopeful(s, r);
    forall x: RecordId | x < |s.records| && s.records[x].session == sid ensures !Hopeful(t, x) {
      assert x != r && !Hopeful(s, x) && t.Rec(x) == s.Rec(x);
    }
  }

  lemma RestoredSteady(s: Broker, sid: SessionId)
    requires Dispatch(s)
    ensures Steady(s, Restored(s), sid)
  {
    hide QueueExact, SlotsExact, ClaimsOk, SameStay, AttemptsOk, SchedulerSpec.Put;
    RestoredStay(s, sid);
    StayRequests(s, Restored(s), sid);
    if s.lane.Refused? {
      var t := Restored(s);
      forall x: RecordId | x < |s.records| && !Hopeful(s, x) ensures !Hopeful(t, x) {
        assert x != s.attempts[s.lane.a].record ==> t.Rec(x) == s.Rec(x);
      }
    }
  }

  /** A completion of an attempt that is under way belongs to a session that is not abandoned. */
  lemma CompleteSteady(s: Broker, a: AttemptId, o: Outcome, sid: SessionId)
    requires Dispatch(s) && Kept(s) && a < |s.attempts| && !s.attempts[a].over && s.lane != Refused(a) && Abandoned(s, sid)
    ensures Steady(s, Complete(s, a, o), sid)
  {
    hide QueueExact, SlotsExact, ClaimsOk, Kept, Within, Complete;
    assert AttemptOk(s, a);
    assert UnderWay(s, s.attempts[a].record);
    CompleteAway(s, a, o, sid);
    CompleteWithin(s, a, o);
    WithinSteady(s, Complete(s, a, o), sid);
  }

  lemma AttemptEndSteady(s: Broker, action: Action, sid: SessionId)
    requires Dispatch(s) && Kept(s) && Abandoned(s, sid) && (action.Notify? || action.GiveUp?)
    ensures Steady(s, Next(s, action), sid)
  {
    hide QueueExact, SlotsExact, ClaimsOk, Kept, Complete, Steady, Abandoned;
    ElsewhereSteady(s, s, sid);
    if action.GiveUp? && s.lane.Broken? {
      assert AttemptOk(s, s.lane.a);
      CompleteSteady(s, s.lane.a, Raised(action.message), sid);
      var t := Complete(s, s.lane.a, Raised(action.message));
      assert t.lane == s.lane by { CompleteLane(s, s.lane.a, Raised(action.message)); }
      LaneSteady(t, sid);
      SteadyTransitive(s, t, t.(lane := AtTop), sid);
    } else if action.Notify? && action.a < |s.attempts| && s.attempts[action.a].watched && !s.attempts[action.a].over {
      assert AttemptOk(s, action.a);
      CompleteSteady(s, action.a, OutcomeOf(s.attempts[action.a].future), sid);
    }
  }

  lemma CompleteLane(s: Broker, a: AttemptId, o: Outcome)
    ensures Complete(s, a, o).lane == s.lane
  {
    hide Complete;
    CompleteWithin(s, a, o);
  }

  lemma LaneSteady(s: Broker, sid: SessionId)
    requires s.lane.Broken?
    ensures Steady(s, s.(lane := AtTop), sid)
  {
    forall r: RecordId | !Hopeful(s, r) ensures !Hopeful(s.(lane := AtTop), r) { }
  }

  lemma GrantedSteady(s: Broker, r: RecordId, pid: int, sid: SessionId)
    requires Paired(s) && ClaimsOk(s) && r < |s.records| && !s.Decided(r) && s.records[r].future.Some?
    ensures Steady(s, Granted(s, r, pid), sid)
  {
    GrantedFields(s, r, pid);
    GrantedSessions(s, r, pid, sid);
    GrantedLane(s, r, pid);
    hide Granted;
    var t := Granted(s, r, pid);
    forall x: RecordId | x < |s.records| && !Hopeful(s, x) ensures !Hopeful(t, x) && t.records[x].session == s.records[x].session { }
  }

  lemma GrantedLane(s: Broker, r: RecordId, pid: int)
    ensures Granted(s, r, pid).lane == s.lane
  {
    hide Post;
    var rec := s.Rec(r);
    var t := if rec.state == Queued
             then s.WithRec(r, rec.(state := Running, claimed := true)).(running := s.running + 1) else s;
    var u := if rec.future.Some? then t.WithAtt(rec.future.value, t.Att(rec.future.value).(pid := Some(pid))) else t;
    PostFrame(u, u.Rec(r).session, [(r, RunningFrame(Some(pid)))]);
  }

  lemma ClaimedSteady(s: Broker, a: AttemptId, pid: int, sid: SessionId)
    requires Dispatch(s) && Kept(s) && Abandoned(s, sid)
    ensures Steady(s, ClaimAnswered(s, a, pid), sid)
  {
    hide QueueExact, SlotsExact, Kept, Granted, Settle, Abandoned, Steady, Within;
    ElsewhereSteady(s, s, sid);
    if a < |s.attempts| && s.attempts[a].phase == Started {
      assert AttemptOk(s, a);
      var r := s.attempts[a].record;
      var t := Claiming(s, a, pid).0;
      if Expired(s, s.records[r]) {
        SettleAway(s, r, Because(QueueTimedOut, "queue_timeout"), sid);
        SettleWithin(s, r, Because(QueueTimedOut, "queue_timeout"));
        WithinSteady(s, t, sid);
      } else if !s.Decided(r) {
        GrantedSteady(s, r, pid, sid);
      }
      PhaseSteady(t, a, if Claiming(s, a, pid).1 then Phase.Claimed else Finished, sid);
      SteadyTransitive(s, t, ClaimAnswered(s, a, pid), sid);
    }
  }

  lemma PhaseSteady(s: Broker, a: AttemptId, phase: Phase, sid: SessionId)
    ensures Steady(s, s.WithAtt(a, s.Att(a).(phase := phase)), sid)
  {
    forall r: RecordId | !Hopeful(s, r) ensures !Hopeful(s.WithAtt(a, s.Att(a).(phase := phase)), r) { }
  }

  lemma StageSteady(s: Broker, sid: SessionId)
    requires Dispatch(s) && Abandoned(s, sid)
    ensures Steady(s, Next(s, Stage), sid)
  {
    hide Dispatch, Abandoned, Steady, Staged;
    ElsewhereSteady(s, s, sid);
    if p :| MayStage(s, p) && Next(s, Stage) == Staged(s, p) { StagedSteady(s, p, sid); }
  }

  lemma StepSteady(s: Broker, action: Action, sid: SessionId)
    requires Dispatch(s) && Paired(s) && Kept(s) && Retained(s) && ListsOk(s)
    requires sid < |s.sessions| && s.sessions[sid].disconnected && Abandoned(s, sid)
    ensures Steady(s, Next(s, action), sid)
  {
    hide Dispatch, Paired, Kept, Retained, Abandoned, Steady, Staged, Restored, ClaimAnswered, Submitted, Acknowledged, ClosedCleanly, CancelledBy,
         GroupCancelledBy, Disconnected, VisitAll, Handshaken, Watched, OfferAnswered, ResolvedTo, ShutdownRound, ShutdownRequested, Within;
    if Quiet(action) {
      QuietSteady(s, action, sid);
    } else {
      match action
      case Handshake(client, principal, offered) => HandshakenSteady(s, client, principal, offered, sid);
      case Submit(at, msg, authorized) => SubmittedSteady(s, at, msg, authorized, sid);
      case Acknowledge(at, id) => AcknowledgedSteady(s, at, id, sid);
      case CloseSession(at) => ClosedCleanlySteady(s, at, sid);
      case Cancel(at, id, hard, authorized) => CancelledBySteady(s, at, id, hard, authorized, sid);
      case CancelGroup(at, group, killable) => GroupSteady(s, at, group, killable, sid);
      case Disconnect(at) => DisconnectedSteady(s, at, sid);
      case Expire => PassSteady(s, ExpirePass, s.requests, sid);
      case Stage => StageSteady(s, sid);
      case Restore => RestoredSteady(s, sid);
      case GiveUp(_) => AttemptEndSteady(s, action, sid);
      case Claim(a, pid) => ClaimedSteady(s, a, pid, sid);
      case Notify(_) => AttemptEndSteady(s, action, sid);
      case FinishShutdown => ShutdownSteady(s, sid);
    }
  }

  /** What an abandoned session retains it retains for good. */
  lemma {:induction false} AbandonedForGood(s: Broker, actions: seq<Action>, sid: SessionId)
    requires Invariant(s) && OrderlyRun(s, actions) && sid < |s.sessions| && s.sessions[sid].disconnected && Abandoned(s, sid)
    ensures Run(s, actions).Sess(sid).requests == s.Sess(sid).requests
    decreases |actions|
  {
    hide Invariant, Dispatch, Paired, AttemptsOk, ClaimsOk, Kept, Retained, ListsOk, PayloadsFit, Sound, Departed, Story, Sequenced, Rest,
         Abandoned, Next, Orderly;
    if actions != [] {
      var t := Next(s, actions[0]);
      InvariantParts(s);
      StepSteady(s, actions[0], sid);
      StepKeepsInvariant(s, actions[0]);
      assert SessionForward(s.sessions[sid], t.sessions[sid]);
      AbandonedForGood(t, actions[1..], sid);
    }
  }
}
