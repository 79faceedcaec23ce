/** Every step of the system keeps the dispatch invariant. */
module BrokerDispatchSteps {
  import opened Options
  import opened Seqs
  import opened SchedulerSpec
  import opened BrokerState
  import opened BrokerInvariant
  import opened BrokerWithin
  import opened BrokerDispatch

  /** A step that touches one attempt, and moves the lane at most onto or off that attempt. */
  lemma AttemptReplaced(s: Broker, a: AttemptId, x: Attempt, lane: Lane)
    requires Dispatch(s) && a < |s.attempts| && x.record == s.attempts[a].record && x.over == s.attempts[a].over
    requires ((s.lane.AtTop? || s.lane.a == a) && (lane.AtTop? || lane.a == a)) || lane == s.lane
    requires var t := s.WithAtt(a, x).(lane := lane); AttemptOk(t, a) && CancelledWithRecord(t, x.record)
    requires x.phase == Phase.Claimed ==> s.records[x.record].claimed
    ensures Dispatch(s.WithAtt(a, x).(lane := lane))
  {
    var t := s.WithAtt(a, x).(lane := lane);
    hide QueueExact, AttemptsOk;
    OutstandingUpdate(s.attempts, a, x);
    SameQueue(s, t);
    AttemptReplacedRest(s, a, x, lane);
  }

  lemma AttemptReplacedRest(s: Broker, a: AttemptId, x: Attempt, lane: Lane)
    requires Paired(s) && AttemptsOk(s) && a < |s.attempts| && x.record == s.attempts[a].record
    requires forall r :: 0 <= r < |s.records| ==> CancelledWithRecord(s, r)
    requires ((s.lane.AtTop? || s.lane.a == a) && (lane.AtTop? || lane.a == a)) || lane == s.lane
    requires var t := s.WithAtt(a, x).(lane := lane); AttemptOk(t, a) && CancelledWithRecord(t, x.record)
    ensures var t := s.WithAtt(a, x).(lane := lane);
            Paired(t) && AttemptsOk(t) && forall r :: 0 <= r < |t.records| ==> CancelledWithRecord(t, r)
  {
    var t := s.WithAtt(a, x).(lane := lane);
    forall b | 0 <= b < |t.attempts| ensures AttemptOk(t, b) {
      assert AttemptOk(s, b);
    }
    forall r | 0 <= r < |t.records| ensures CancelledWithRecord(t, r) {
      assert CancelledWithRecord(s, r);
    }
  }

  lemma OfferAnsweredDispatch(s: Broker, answer: Offer)
    requires Dispatch(s)
    ensures Dispatch(OfferAnswered(s, answer))
  {
    if s.lane.Offering? {
      var a := s.lane.a;
      assert AttemptOk(s, a);
      assert CancelledWithRecord(s, s.attempts[a].record);
      match answer
      case Admitted =>
        AttemptReplaced(s, a, s.attempts[a].(phase := Waiting), Taken(a));
      case QueueFull =>
        AttemptReplaced(s, a, s.attempts[a], Refused(a));
        assert s.WithAtt(a, s.attempts[a]) == s;
      case Failed(_) =>
        AttemptReplaced(s, a, s.attempts[a], Broken(a));
        assert s.WithAtt(a, s.attempts[a]) == s;
    }
  }

  lemma WatchedDispatch(s: Broker)
    requires Dispatch(s)
    ensures Dispatch(Watched(s))
  {
    if s.lane.Taken? {
      var a := s.lane.a;
      var r := s.attempts[a].record;
      assert AttemptOk(s, a);
      assert CancelledWithRecord(s, r);
      var x := s.attempts[a].(watched := true);
      AttemptReplaced(s, a, x, AtTop);
      DispatchFramed(s.WithAtt(a, x).(lane := AtTop), Watched(s));
    }
  }

  lemma StartTaskDispatch(s: Broker, a: AttemptId)
    requires Dispatch(s) && s.Att(a).phase == Waiting
    ensures Dispatch(s.WithAtt(a, s.Att(a).(phase := Started)))
  {
    assert AttemptOk(s, a);
    assert CancelledWithRecord(s, s.attempts[a].record);
    AttemptReplaced(s, a, s.attempts[a].(phase := Started), s.lane);
    assert s.(lane := s.lane) == s;
  }

  lemma RetryTaskDispatch(s: Broker, a: AttemptId)
    requires Dispatch(s) && s.Att(a).phase == Phase.Claimed
    ensures Dispatch(s.WithAtt(a, s.Att(a).(phase := Started)))
  {
    assert AttemptOk(s, a);
    assert CancelledWithRecord(s, s.attempts[a].record);
    AttemptReplaced(s, a, s.attempts[a].(phase := Started), s.lane);
  }

  lemma ResolvedDispatch(s: Broker, a: AttemptId, o: Outcome)
    requires Dispatch(s)
    ensures Dispatch(ResolvedTo(s, a, o))
  {
    if Permitted(s, a, o) && a < |s.attempts| {
      assert AttemptOk(s, a);
      assert CancelledWithRecord(s, s.attempts[a].record);
      AttemptReplaced(s, a, s.attempts[a].(phase := Finished, future := if s.attempts[a].future.Pending? then Resolved(o) else s.attempts[a].future), s.lane);
    }
  }

  lemma NotifiedDispatch(s: Broker, a: AttemptId)
    requires Dispatch(s)
    ensures Dispatch(Notified(s, a))
  {
    if a < |s.attempts| && s.attempts[a].watched && !s.attempts[a].future.Pending? && !s.attempts[a].over {
      CompleteDispatch(s, a, OutcomeOf(s.attempts[a].future), s.lane);
      var t := Complete(s, a, OutcomeOf(s.attempts[a].future));
      assert t.(lane := s.lane) == t;
    }
  }

  lemma GivenUpDispatch(s: Broker, message: string)
    requires Dispatch(s)
    ensures Dispatch(GivenUp(s, message))
  {
    if s.lane.Broken? {
      assert AttemptOk(s, s.lane.a);
      CompleteDispatch(s, s.lane.a, Raised(message), AtTop);
    }
  }

  lemma WritePipeDispatch(s: Broker, a: AttemptId)
    requires Dispatch(s) && s.Att(a).phase == Phase.Claimed
    ensures Dispatch(s.(piped := s.piped + [s.Att(a).record]))
  {
    var t := s.(piped := s.piped + [s.Att(a).record]);
    forall p, q, r | r in Stream(t.queue, p, q) ensures BelongsTo(t, r, p, q) { assert BelongsTo(s, r, p, q); }
    forall b | 0 <= b < |t.attempts| ensures AttemptOk(t, b) { assert AttemptOk(s, b); }
    forall r | 0 <= r < |t.records| ensures CancelledWithRecord(t, r) { assert CancelledWithRecord(s, r); }
  }

  // ---------- claiming ----------

  lemma ClaimGrantedDispatch(s: Broker, r: RecordId)
    requires Dispatch(s) && r < |s.records| && s.records[r].state == Queued && s.records[r].future.Some?
    requires s.attempts[s.records[r].future.value].phase != Offered
    ensures Dispatch(s.WithRec(r, s.records[r].(state := Running, claimed := true)))
  {
    var t := s.WithRec(r, s.records[r].(state := Running, claimed := true));
    forall p, q, x | x in Stream(t.queue, p, q) ensures BelongsTo(t, x, p, q) { assert BelongsTo(s, x, p, q); }
    forall b | 0 <= b < |t.attempts| ensures AttemptOk(t, b) { assert AttemptOk(s, b); }
    forall x | 0 <= x < |t.records| ensures CancelledWithRecord(t, x) { assert CancelledWithRecord(s, x); }
  }

  lemma TellDispatch(s: Broker, r: RecordId, f: Frame)
    requires Dispatch(s)
    ensures Dispatch(Tell(s, r, f))
  {
    PostFrame(s, s.Rec(r).session, [(r, f)]);
    DispatchFramed(s, Tell(s, r, f));
  }

  lemma GrantedDispatch(s: Broker, r: RecordId, a: AttemptId, pid: int)
    requires Dispatch(s) && r < |s.records| && !s.Decided(r) && s.records[r].future == Some(a)
    requires s.attempts[a].phase != Offered
    ensures Dispatch(Granted(s, r, pid))
  {
    hide QueueExact, SlotsExact, AttemptsOk, ClaimsOk, CancelledWithRecord, Tell;
    var rec := s.records[r].(state := Running, claimed := true);
    if s.records[r].state == Queued {
      ClaimGrantedDispatch(s, r);
      var t := s.WithRec(r, rec).(running := s.running + 1);
      RunningCounter(s.WithRec(r, rec), s.running + 1);
      PidDispatch(t, a, pid);
      TellDispatch(t.WithAtt(a, t.Att(a).(pid := Some(pid))), r, RunningFrame(Some(pid)));
    } else {
      PidDispatch(s, a, pid);
      TellDispatch(s.WithAtt(a, s.Att(a).(pid := Some(pid))), r, RunningFrame(Some(pid)));
    }
  }

  lemma RunningCounter(s: Broker, n: nat)
    requires Dispatch(s)
    ensures Dispatch(s.(running := n))
  {
    DispatchFramed(s, s.(running := n));
  }

  lemma ClaimingDispatch(s: Broker, a: AttemptId, pid: int)
    requires Dispatch(s) && a < |s.attempts| && s.attempts[a].phase == Started
    ensures Dispatch(Claiming(s, a, pid).0)
  {
    var r := s.attempts[a].record;
    assert AttemptOk(s, a);
    if Expired(s, s.records[r]) {
      SettleDispatch(s, r, Because(QueueTimedOut, "queue_timeout"));
    } else if !s.Decided(r) {
      GrantedDispatch(s, r, a, pid);
    }
  }

  lemma PidDispatch(s: Broker, a: AttemptId, pid: int)
    requires Dispatch(s) && a < |s.attempts|
    ensures Dispatch(s.WithAtt(a, s.Att(a).(pid := Some(pid))))
  {
    assert AttemptOk(s, a);
    assert CancelledWithRecord(s, s.attempts[a].record);
    assert s.attempts[a].phase == Phase.Claimed ==> s.Rec(s.attempts[a].record).claimed;
    AttemptReplaced(s, a, s.attempts[a].(pid := Some(pid)), s.lane);
  }

  lemma ClaimedDispatch(s: Broker, a: AttemptId, pid: int)
    requires Dispatch(s) && a < |s.attempts|
    ensures Dispatch(ClaimAnswered(s, a, pid))
  {
    hide Claiming, QueueExact, SlotsExact;
    if s.attempts[a].phase == Started {
      var (t, granted) := Claiming(s, a, pid);
      ClaimingDispatch(s, a, pid);
      ClaimingAttempt(s, a, pid);
      assert AttemptOk(t, a);
      assert CancelledWithRecord(t, t.attempts[a].record);
      AttemptReplaced(t, a, t.attempts[a].(phase := if granted then Phase.Claimed else Finished), t.lane);
    }
  }

  /** A refused claim finds the future done already; a granted one leaves the request running. */
  lemma ClaimingAttempt(s: Broker, a: AttemptId, pid: int)
    requires Dispatch(s) && a < |s.attempts| && s.attempts[a].phase == Started
    ensures var (t, granted) := Claiming(s, a, pid);
            && Dispatch(t) && a < |t.attempts| && t.attempts[a].record == s.attempts[a].record && t.attempts[a].phase == Started
            && (granted ==> t.Rec(t.attempts[a].record).claimed)
            && (!granted ==> !t.attempts[a].future.Pending?)
  {
    ClaimingDispatch(s, a, pid);
    var r := s.attempts[a].record;
    assert AttemptOk(s, a);
    if Expired(s, s.records[r]) {
      ExpiredClaim(s, a);
    } else if s.Decided(r) {
      assert CancelledWithRecord(s, r);
    } else {
      GrantedFields(s, r, pid);
    }
  }

  lemma ExpiredClaim(s: Broker, a: AttemptId)
    requires Dispatch(s) && a < |s.attempts| && s.attempts[a].phase == Started
    requires s.records[s.attempts[a].record].state == Queued
    ensures var t := Settle(s, s.attempts[a].record, Because(QueueTimedOut, "queue_timeout"));
            && a < |t.attempts| && t.attempts[a].record == s.attempts[a].record && t.attempts[a].phase == Started
            && !t.attempts[a].future.Pending?
  {
    var r := s.attempts[a].record;
    assert AttemptOk(s, a);
    SettleDispatch(s, r, Because(QueueTimedOut, "queue_timeout"));
    SettleWithin(s, r, Because(QueueTimedOut, "queue_timeout"));
    var t := Settle(s, r, Because(QueueTimedOut, "queue_timeout"));
    assert AttemptWithin(s.attempts[a], t.attempts[a]);
    assert RecordWithin(s.records[r], t.records[r]);
    assert CancelledWithRecord(t, r);
  }

  lemma GrantedFields(s: Broker, r: RecordId, pid: int)
    requires Paired(s) && ClaimsOk(s) && r < |s.records| && !s.Decided(r) && s.records[r].future.Some?
    ensures var t := Granted(s, r, pid);
            var a := s.records[r].future.value;
            && t.attempts == s.attempts[a := s.attempts[a].(pid := Some(pid))]
            && t.records == s.records[r := s.records[r].(state := Running, claimed := true)]
  {
  }

  // ---------- queueing ----------

  lemma AdmitDispatch(s: Broker, sid: SessionId, msg: Submission)
    requires Dispatch(s)
    ensures Dispatch(Admit(s, sid, msg))
  {
    var rec, r := NewRecord(s, sid, msg), |s.records|;
    var t := s.(records := s.records + [rec], queue := SchedulerSpec.Put(s.queue, r, rec.priority, rec.principal, false));
    NewlyQueued(s, t, r);
    AdmitFields(s, sid, msg);
    DispatchFramed(t, Admit(s, sid, msg));
  }

  lemma AdmitFields(s: Broker, sid: SessionId, msg: Submission)
    ensures var rec, r, t := NewRecord(s, sid, msg), |s.records|, Admit(s, sid, msg);
            && t.records == s.records + [rec] && t.queue == SchedulerSpec.Put(s.queue, r, rec.priority, rec.principal, false)
            && t.config == s.config && t.staged == s.staged && t.attempts == s.attempts && t.lane == s.lane && t.piped == s.piped
  {
    hide Charge, Post;
    var rec, r, c := NewRecord(s, sid, msg), |s.records|, s.Sess(sid);
    var u := s.WithSess(sid, c.(requests := c.requests + [r]));
    ChargeFrame(u, sid, 1, rec.reserved);
    var t := Charge(u, sid, 1, rec.reserved);
    PostFrame(t.(records := s.records + [rec], requests := s.requests + [r],
                 queue := SchedulerSpec.Put(s.queue, r, rec.priority, rec.principal, false),
                 accepted := s.accepted + 1), sid, [(r, AcceptedFrame)]);
  }

  lemma NewlyQueued(s: Broker, t: Broker, r: RecordId)
    requires Dispatch(s) && r == |s.records| && |t.records| == r + 1 && t.records[..r] == s.records
    requires t == s.(records := t.records, queue := t.queue)
    requires Unstaged(t, r) && !t.records[r].claimed
    requires t.queue == SchedulerSpec.Put(s.queue, r, t.records[r].priority, t.records[r].principal, false)
    ensures Dispatch(t)
  {
    forall x | 0 <= x < r ensures t.records[x] == s.records[x] { assert t.records[..r][x] == t.records[x]; }
    NewRecordQueue(s, t, r);
    NewRecordRest(s, t, r);
  }

  lemma NewRecordQueue(s: Broker, t: Broker, r: RecordId)
    requires QueueExact(s) && r == |s.records| && |t.records| == r + 1 && forall x :: 0 <= x < r ==> t.records[x] == s.records[x]
    requires Unstaged(t, r)
    requires t.queue == SchedulerSpec.Put(s.queue, r, t.records[r].priority, t.records[r].principal, false)
    ensures QueueExact(t)
  {
    hide SchedulerSpec.Put, Stream, Ok;
    var rec := t.records[r];
    PutKeepsOk(s.queue, r, rec.priority, rec.principal, false);
    PutStreams(s.queue, r, rec.priority, rec.principal, false);
    forall p, q, x | x in Stream(t.queue, p, q) ensures BelongsTo(t, x, p, q) {
      if x != r { assert BelongsTo(s, x, p, q); }
    }
    forall p, q ensures NoDup(Stream(t.queue, p, q)) {
      assert r in Stream(s.queue, p, q) ==> BelongsTo(s, r, p, q);
    }
  }

  lemma NewRecordRest(s: Broker, t: Broker, r: RecordId)
    requires Paired(s) && AttemptsOk(s) && ClaimsOk(s)
    requires forall x :: 0 <= x < |s.records| ==> CancelledWithRecord(s, x)
    requires r == |s.records| && |t.records| == r + 1 && forall x :: 0 <= x < r ==> t.records[x] == s.records[x]
    requires t == s.(records := t.records, queue := t.queue)
    requires Unstaged(t, r) && !t.records[r].claimed
    ensures Paired(t) && AttemptsOk(t) && ClaimsOk(t)
    ensures forall x :: 0 <= x < |t.records| ==> CancelledWithRecord(t, x)
  {
    forall b | 0 <= b < |t.attempts| ensures AttemptOk(t, b) { assert AttemptOk(s, b); }
    forall x | 0 <= x < |t.records| ensures CancelledWithRecord(t, x) {
      if x < r { assert CancelledWithRecord(s, x); }
    }
  }

  // ---------- the dispatch loop's queue ----------

  /** The queue has lost exactly `r`, from the head of its stream. */
  lemma PopQueue(s: Broker, p: int)
    requires QueueExact(s) && CanPop(s.queue, p)
    ensures var r, q := PopItem(s.queue, p), Pop(s.queue, p);
            && BelongsTo(s, r, p, Turn(s.queue, p))
            && Ok(q) && (forall p', q' :: NoDup(Stream(q, p', q')))
            && forall p', q', x :: x in Stream(q, p', q') <==> x in Stream(s.queue, p', q') && x != r
  {
    PopKeepsOk(s.queue, p);
    PopStreams(s.queue, p);
    var r, t := PopItem(s.queue, p), Turn(s.queue, p);
    assert r in Stream(s.queue, p, t);
    assert BelongsTo(s, r, p, t);
    var before, after := Stream(s.queue, p, t), Stream(Pop(s.queue, p), p, t);
    assert after == before[1..] && NoDup(before) && before[0] == r;
    forall p', q', x | x in Stream(s.queue, p', q') && x == r ensures p' == p && q' == t {
      assert BelongsTo(s, x, p', q');
    }
  }

  /** The least priority is unique, so the step is determined. */
  lemma StageIs(s: Broker, p: int)
    requires MayStage(s, p)
    ensures Next(s, Stage) == Staged(s, p)
  {
    assert forall q :: MayStage(s, q) ==> q == p;
  }

  lemma StagedDispatch(s: Broker, p: int)
    requires Dispatch(s) && CanPop(s.queue, p) && s.lane.AtTop? && s.staged < s.config.maxStaged
    ensures Dispatch(Staged(s, p))
    ensures s.Rec(PopItem(s.queue, p)).state == Queued
  {
    PopQueue(s, p);
    var r, a, t := PopItem(s.queue, p), |s.attempts|, Staged(s, p);
    forall p', q', x | x in Stream(t.queue, p', q') ensures BelongsTo(t, x, p', q') {
      assert BelongsTo(s, x, p', q');
    }
    assert t.attempts[..a] == s.attempts;
    StagedRest(s, t, r);
  }

  lemma StagedRest(s: Broker, t: Broker, r: RecordId)
    requires Paired(s) && AttemptsOk(s) && ClaimsOk(s) && r < |s.records| && Unstaged(s, r) && s.lane.AtTop?
    requires forall x :: 0 <= x < |s.records| ==> CancelledWithRecord(s, x)
    requires t.records == s.records[r := s.records[r].(future := Some(|s.attempts|))]
    requires t.attempts == s.attempts + [Attempt(r, Offered, Pending, false, false, None)]
    requires t.lane == Offering(|s.attempts|) && t.piped == s.piped
    ensures Paired(t) && AttemptsOk(t) && ClaimsOk(t)
    ensures forall x :: 0 <= x < |t.records| ==> CancelledWithRecord(t, x)
  {
    forall b | 0 <= b < |t.attempts| ensures AttemptOk(t, b) {
      if b < |s.attempts| { assert AttemptOk(s, b); }
    }
    forall x | 0 <= x < |t.records| ensures CancelledWithRecord(t, x) { assert CancelledWithRecord(s, x); }
  }

  /** The refused attempt is over and a request still queued is back in its stream. */
  lemma RestoredDispatch(s: Broker)
    requires Dispatch(s)
    ensures Dispatch(Restored(s))
  {
    if s.lane.Refused? {
      var a, t := s.lane.a, Restored(s);
      var r := s.attempts[a].record;
      assert AttemptOk(s, a);
      OutstandingUpdate(s.attempts, a, s.attempts[a].(over := true));
      RestoredQueue(s, a, t);
      RestoredRest(s, a, t);
    }
  }

  lemma RestoredQueue(s: Broker, a: AttemptId, t: Broker)
    requires Paired(s) && QueueExact(s) && a < |s.attempts|
    requires s.records[s.attempts[a].record].future == Some(a)
    requires var r := s.attempts[a].record;
             var rec := s.records[r];
             && t.records == s.records[r := rec.(future := None)]
             && t.queue == if rec.state == Queued then SchedulerSpec.Put(s.queue, r, rec.priority, rec.principal, true) else s.queue
    ensures QueueExact(t)
  {
    var r := s.attempts[a].record;
    var rec := s.records[r];
    PutKeepsOk(s.queue, r, rec.priority, rec.principal, true);
    PutStreams(s.queue, r, rec.priority, rec.principal, true);
    forall p, q ensures r !in Stream(s.queue, p, q) { assert r in Stream(s.queue, p, q) ==> BelongsTo(s, r, p, q); }
    forall p, q, x | x in Stream(t.queue, p, q) ensures BelongsTo(t, x, p, q) {
      if x != r { assert BelongsTo(s, x, p, q); }
    }
  }

  lemma RestoredRest(s: Broker, a: AttemptId, t: Broker)
    requires Paired(s) && AttemptsOk(s) && ClaimsOk(s) && a < |s.attempts| && s.lane == Refused(a)
    requires forall x :: 0 <= x < |s.records| ==> CancelledWithRecord(s, x)
    requires t.records == s.records[s.attempts[a].record := s.records[s.attempts[a].record].(future := None)]
    requires t.attempts == s.attempts[a := s.attempts[a].(over := true)] && t.lane == AtTop && t.piped == s.piped
    ensures Paired(t) && AttemptsOk(t) && ClaimsOk(t)
    ensures forall x :: 0 <= x < |t.records| ==> CancelledWithRecord(t, x)
  {
    assert AttemptOk(s, a);
    forall b | 0 <= b < |t.attempts| ensures AttemptOk(t, b) { assert AttemptOk(s, b); }
    forall x | 0 <= x < |t.records| ensures CancelledWithRecord(t, x) { assert CancelledWithRecord(s, x); }
  }

  // ---------- passes and client requests ----------

  lemma VisitDispatch(s: Broker, pass: Pass, r: RecordId)
    requires Dispatch(s) && r < |s.records|
    ensures Dispatch(Visit(s, pass, r))
  {
    var ruling := Ruling(s, pass, r);
    if ruling.Some? {
      if s.records[r].state == Queued {
        CancelQueuedDispatch(s, r, ruling.value);
      } else {
        SettleDispatch(s, r, ruling.value);
      }
    }
  }

  lemma {:induction false} VisitAllDispatch(s: Broker, pass: Pass, todo: seq<RecordId>)
    requires Dispatch(s) && forall r :: r in todo ==> r < |s.records|
    ensures Dispatch(VisitAll(s, pass, todo))
    decreases |todo|
  {
    if todo != [] {
      assert todo[0] in todo;
      VisitDispatch(s, pass, todo[0]);
      VisitWithin(s, pass, todo[0]);
      SizesWithin(s, Visit(s, pass, todo[0]));
      assert forall r :: r in todo[1..] ==> r in todo;
      VisitAllDispatch(Visit(s, pass, todo[0]), pass, todo[1..]);
    }
  }

  lemma {:induction false} FindIn(s: Broker, rs: seq<RecordId>, id: RequestId)
    ensures Find(s, rs, id).Some? ==> Find(s, rs, id).value in rs && s.Rec(Find(s, rs, id).value).id == id
    ensures Find(s, rs, id).None? ==> forall r :: r in rs ==> s.Rec(r).id != id
    decreases |rs|
  {
    if rs != [] { FindIn(s, rs[1..], id); }
  }

  lemma SessionOnlyDispatch(s: Broker, sid: SessionId, c: Session)
    requires Dispatch(s)
    ensures Dispatch(s.WithSess(sid, c))
  {
    DispatchFramed(s, s.WithSess(sid, c));
  }

  lemma PostDispatch(s: Broker, sid: SessionId, entry: seq<(RecordId, Frame)>)
    requires Dispatch(s)
    ensures Dispatch(Post(s, sid, entry))
  {
    PostFrame(s, sid, entry);
    DispatchFramed(s, Post(s, sid, entry));
  }

  lemma PurgeDispatch(s: Broker, sid: SessionId)
    requires Dispatch(s)
    ensures Dispatch(Purge(s, sid))
  {
    PurgeFrame(s, sid);
    DispatchFramed(s, Purge(s, sid));
  }

  /** The retained lists name records. */
  ghost predicate ListsOk(s: Broker) {
    && (forall r :: r in s.requests ==> r < |s.records|)
    && forall sid, r :: 0 <= sid < |s.sessions| && r in s.sessions[sid].requests ==> r < |s.records|
  }

  lemma ClientDispatch(s: Broker, action: Action)
    requires Dispatch(s) && ListsOk(s)
    requires action.Submit? || action.Acknowledge? || action.CloseSession? || action.Cancel? || action.CancelGroup? || action.Disconnect?
    ensures Dispatch(Next(s, action))
  {
    hide Dispatch;
    match action
    case Submit(sid, msg, authorized) => SubmittedDispatch(s, sid, msg, authorized);
    case Acknowledge(sid, id) =>
      FindIn(s, s.Sess(sid).requests, id);
      var known := Find(s, s.Sess(sid).requests, id);
      if known.Some? { ForgetDispatch(s, known.value); }
    case CloseSession(sid) =>
      var t := s.WithSess(sid, s.Sess(sid).(cleanClose := true));
      SessionOnlyDispatch(s, sid, s.Sess(sid).(cleanClose := true));
      PostDispatch(t, sid, []);
    case Cancel(sid, id, hard, authorized) => CancelledByDispatch(s, sid, id, hard, authorized);
    case CancelGroup(sid, group, killable) =>
      VisitAllDispatch(s, GroupPass(group, killable), s.Sess(sid).requests);
      PostDispatch(VisitAll(s, GroupPass(group, killable), s.Sess(sid).requests), sid, []);
    case Disconnect(sid) => DisconnectedDispatch(s, sid);
  }

  lemma ForgetDispatch(s: Broker, r: RecordId)
    requires Dispatch(s)
    ensures Dispatch(Forget(s, r))
  {
    ForgetFrame(s, r);
    DispatchFramed(s, Forget(s, r));
  }

  lemma SubmittedDispatch(s: Broker, sid: SessionId, msg: Submission, authorized: bool)
    requires Dispatch(s)
    ensures Dispatch(Submitted(s, sid, msg, authorized))
  {
    hide Dispatch, Admit, Post, Admissible, CurrentFrame;
    var c := s.Sess(sid);
    var known := Find(s, c.requests, msg.id);
    if known.Some? {
      var frame := CurrentFrame(s, known.value);
      if frame.Some? { TellDispatch(s, known.value, frame.value); }
    }
    PostDispatch(s, sid, []);
    var t := s.WithSess(sid, c.(watermark := msg.id.sequence));
    SessionOnlyDispatch(s, sid, c.(watermark := msg.id.sequence));
    PostDispatch(t, sid, []);
    AdmitDispatch(t, sid, msg);
  }

  lemma CancelledByDispatch(s: Broker, sid: SessionId, id: RequestId, hard: bool, authorized: bool)
    requires Dispatch(s) && ListsOk(s)
    ensures Dispatch(CancelledBy(s, sid, id, hard, authorized))
  {
    hide Dispatch, Post, CancelQueued, Settle;
    FindIn(s, s.Sess(sid).requests, id);
    var known := Find(s, s.Sess(sid).requests, id);
    PostDispatch(s, sid, []);
    if known.Some? {
      var r := known.value;
      if s.records[r].state == Queued {
        CancelQueuedDispatch(s, r, Because(Cancelled, "cancelled"));
        PostDispatch(CancelQueued(s, r, Because(Cancelled, "cancelled")), sid, []);
      } else {
        SettleDispatch(s, r, Because(Cancelled, "terminated"));
        PostDispatch(Settle(s, r, Because(Cancelled, "terminated")), sid, []);
      }
    }
  }

  lemma DisconnectedDispatch(s: Broker, sid: SessionId)
    requires Dispatch(s) && ListsOk(s)
    ensures Dispatch(Disconnected(s, sid))
  {
    hide Dispatch, VisitAll, Purge;
    var c := s.Sess(sid);
    var t := s.WithSess(sid, c.(closed := true, disconnected := true));
    SessionOnlyDispatch(s, sid, c.(closed := true, disconnected := true));
    PurgeDispatch(t, sid);
    VisitAllDispatch(t, DisconnectPass, c.requests);
    PurgeDispatch(VisitAll(t, DisconnectPass, c.requests), sid);
  }

  lemma ShutdownDispatch(s: Broker)
    requires Dispatch(s) && ListsOk(s)
    ensures Dispatch(ShutdownRound(s))
  {
    hide Dispatch, VisitAll;
    ServerDispatch(s, Stopping);
    ServerDispatch(s, Stopped);
    VisitAllDispatch(s, ShutdownCancelPass, s.requests);
    var t := if s.shutdownCancel then VisitAll(s, ShutdownCancelPass, s.requests) else s;
    VisitAllWithin(s, ShutdownCancelPass, s.requests);
    SizesWithin(s, VisitAll(s, ShutdownCancelPass, s.requests));
    VisitAllDispatch(t, ShutdownDeadlinePass, t.requests);
    ServerDispatch(VisitAll(t, ShutdownDeadlinePass, t.requests), Stopping);
  }

  lemma ServerDispatch(s: Broker, server: ServerState)
    requires Dispatch(s)
    ensures Dispatch(s.(server := server))
  {
    DispatchFramed(s, s.(server := server));
  }
}
