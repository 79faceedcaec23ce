/** The dispatch half of the broker's invariant: queue, staged slots, attempts and claims. */
module BrokerDispatch {
  import opened Options
  import opened Seqs
  import opened SchedulerSpec
  import opened BrokerState
  import opened BrokerInvariant

  // ---------- frames ----------

  /** Nothing the dispatch invariant speaks of differs. */
  ghost predicate SameDispatch(s: Broker, t: Broker) {
    && t.config == s.config && t.queue == s.queue && t.staged == s.staged && t.attempts == s.attempts
    && t.lane == s.lane && t.piped == s.piped && |t.records| == |s.records|
    && forall r :: 0 <= r < |s.records| ==> SameRole(s.records[r], t.records[r])
  }

  ghost predicate SameRole(x: Record, y: Record) {
    && x.state == y.state && x.future == y.future && x.priority == y.priority
    && x.principal == y.principal && x.claimed == y.claimed && x.session == y.session
  }

  lemma DispatchFramed(s: Broker, t: Broker)
    requires SameDispatch(s, t)
    ensures Paired(s) ==> Paired(t)
    ensures QueueExact(s) ==> QueueExact(t)
    ensures SlotsExact(s) ==> SlotsExact(t)
    ensures Paired(s) && AttemptsOk(s) ==> AttemptsOk(t)
    ensures (forall r :: 0 <= r < |s.records| ==> CancelledWithRecord(s, r)) ==>
            (forall r :: 0 <= r < |t.records| ==> CancelledWithRecord(t, r))
    ensures ClaimsOk(s) ==> ClaimsOk(t)
  {
    FramePaired(s, t);
    FrameQueue(s, t);
    FrameAttempts(s, t);
    FrameClaims(s, t);
  }

  lemma FramePaired(s: Broker, t: Broker)
    requires SameDispatch(s, t)
    ensures Paired(s) ==> Paired(t)
  {
  }

  lemma FrameQueue(s: Broker, t: Broker)
    requires SameDispatch(s, t)
    ensures QueueExact(s) ==> QueueExact(t)
  {
    if QueueExact(s) {
      forall p, q, r | r in Stream(t.queue, p, q) ensures BelongsTo(t, r, p, q) {
        assert BelongsTo(s, r, p, q);
      }
    }
  }

  lemma FrameAttempts(s: Broker, t: Broker)
    requires SameDispatch(s, t)
    ensures Paired(s) && AttemptsOk(s) ==> Paired(t) && AttemptsOk(t)
    ensures (forall r :: 0 <= r < |s.records| ==> CancelledWithRecord(s, r)) ==>
            (forall r :: 0 <= r < |t.records| ==> CancelledWithRecord(t, r))
  {
    if Paired(s) && AttemptsOk(s) {
      forall a | 0 <= a < |t.attempts| ensures AttemptOk(t, a) {
        assert AttemptOk(s, a);
      }
    }
    if forall r :: 0 <= r < |s.records| ==> CancelledWithRecord(s, r) {
      forall r | 0 <= r < |t.records| ensures CancelledWithRecord(t, r) {
        assert CancelledWithRecord(s, r);
      }
    }
  }

  lemma FrameClaims(s: Broker, t: Broker)
    requires SameDispatch(s, t)
    ensures ClaimsOk(s) ==> ClaimsOk(t)
  {
  }

  lemma PostFrame(s: Broker, sid: SessionId, entry: seq<(RecordId, Frame)>)
    ensures var t := Post(s, sid, entry);
            t == s.(sessions := t.sessions, sent := t.sent) && |t.sessions| == |s.sessions|
  {
  }

  lemma ReleaseFrame(s: Broker, r: RecordId)
    ensures SameDispatch(s, ReleaseReservation(s, r)) && |ReleaseReservation(s, r).sessions| == |s.sessions|
  {
    hide Charge;
    var rec := s.Rec(r);
    ChargeFrame(s.WithRec(r, rec.(reservationReleased := true)), rec.session, -1, 0 - rec.reserved);
  }

  lemma ChargeFrame(s: Broker, sid: SessionId, outcomes: int, bytes: int)
    ensures var t := Charge(s, sid, outcomes, bytes);
            && t == s.(sessions := t.sessions, reservedOutcomes := t.reservedOutcomes, reservedBytes := t.reservedBytes)
            && |t.sessions| == |s.sessions|
  {
  }

  lemma ForgetFrame(s: Broker, r: RecordId)
    ensures SameDispatch(s, Forget(s, r)) && |Forget(s, r).sessions| == |s.sessions|
  {
    hide Drop, ClearPayload, ReleaseReservation;
    ReleaseFrame(s, r);
  }

  lemma {:induction false} ForgetDecidedFrame(s: Broker, todo: seq<RecordId>)
    ensures SameDispatch(s, ForgetDecided(s, todo)) && |ForgetDecided(s, todo).sessions| == |s.sessions|
    decreases |todo|
  {
    if todo != [] {
      ForgetFrame(s, todo[0]);
      ForgetDecidedFrame(if s.Decided(todo[0]) then Forget(s, todo[0]) else s, todo[1..]);
    }
  }

  lemma PurgeFrame(s: Broker, sid: SessionId)
    ensures SameDispatch(s, Purge(s, sid)) && SameDispatch(s, PurgeIfClosed(s, sid))
    ensures |Purge(s, sid).sessions| == |s.sessions| == |PurgeIfClosed(s, sid).sessions|
  {
    ForgetDecidedFrame(s, s.Sess(sid).requests);
  }

  // ---------- deciding a request ----------

  /** What the decision leaves for the cancellation: every clause but one holds again. */
  ghost predicate DispatchBut(s: Broker, r: RecordId) {
    && Paired(s) && QueueExact(s) && SlotsExact(s) && AttemptsOk(s) && ClaimsOk(s)
    && forall x :: 0 <= x < |s.records| && x != r ==> CancelledWithRecord(s, x)
  }

  lemma DequeueQueue(s: Broker, r: RecordId)
    requires QueueExact(s) && r < |s.records|
    ensures Ok(Dequeue(s, r).queue)
    ensures forall p, q :: NoDup(Stream(Dequeue(s, r).queue, p, q))
    ensures forall p, q, x :: x in Stream(Dequeue(s, r).queue, p, q) <==> x in Stream(s.queue, p, q) && x != r
  {
    hide Ok, Stream, Remove, NoDup, RemoveFirst, BelongsTo;
    var rec := s.records[r];
    OwnStream(s, r);
    if r in Stream(s.queue, rec.priority, rec.principal) {
      RemoveKeepsOk(s.queue, rec.priority, rec.principal, r);
      RemoveStreams(s.queue, rec.priority, rec.principal, r);
      RemoveFirstElements(Stream(s.queue, rec.priority, rec.principal), r);
    }
  }

  lemma OwnStream(s: Broker, r: RecordId)
    requires QueueExact(s) && r < |s.records|
    ensures forall p, q :: r in Stream(s.queue, p, q) ==> p == s.records[r].priority && q == s.records[r].principal
  {
    hide Ok, Stream, NoDup;
  }

  lemma DecideFields(s: Broker, r: RecordId, f: Frame)
    requires r < |s.records| && f.TerminalFrame? && !s.Decided(r)
    ensures var t := Decide(s, r, f);
            && t == s.(sessions := t.sessions, sent := t.sent, terminal := s.terminal + 1,
                       records := s.records[r := s.records[r].(state := Terminal(f.verdict), payload := [], terminal := Some(f))])
            && |t.sessions| == |s.sessions|
  {
  }

  /** `t` is `s` with one record replaced by a decided version of itself. */
  ghost predicate DecidedIn(s: Broker, r: RecordId, t: Broker) {
    && r < |s.records| && |t.records| == |s.records| && t.records == s.records[r := t.records[r]]
    && t.records[r].state.Terminal?
    && SameRole(s.records[r].(state := t.records[r].state), t.records[r])
    && t.attempts == s.attempts && t.lane == s.lane && t.staged == s.staged && t.config == s.config && t.piped == s.piped
  }

  lemma DecidedQueue(s: Broker, r: RecordId, t: Broker)
    requires QueueExact(s) && DecidedIn(s, r, t) && t.queue == Dequeue(s, r).queue
    ensures QueueExact(t)
  {
    DequeueQueue(s, r);
    forall p, q, x | x in Stream(t.queue, p, q) ensures BelongsTo(t, x, p, q) {
      assert BelongsTo(s, x, p, q);
    }
  }

  lemma DecidedAttempts(s: Broker, r: RecordId, t: Broker)
    requires Paired(s) && AttemptsOk(s) && DecidedIn(s, r, t)
    ensures Paired(t) && AttemptsOk(t)
    ensures forall x :: 0 <= x < |s.records| && x != r && CancelledWithRecord(s, x) ==> CancelledWithRecord(t, x)
  {
    forall a | 0 <= a < |t.attempts| ensures AttemptOk(t, a) {
      assert AttemptOk(s, a);
    }
  }

  lemma DecidedClaims(s: Broker, r: RecordId, t: Broker)
    requires ClaimsOk(s) && DecidedIn(s, r, t)
    ensures ClaimsOk(t)
  {
  }

  /** Taking a request out of the queue and deciding it keeps the dispatch invariant, but for the cancellation still to come. */
  lemma DecideDispatch(s: Broker, r: RecordId, f: Frame)
    requires DispatchBut(s, r) && r < |s.records| && f.TerminalFrame?
    ensures DispatchBut(Decide(Dequeue(s, r), r, f), r) && Decide(Dequeue(s, r), r, f).Decided(r)
  {
    var d := Dequeue(s, r);
    var t := Decide(d, r, f);
    if s.Decided(r) {
      assert d == s;
    } else {
      DecideFields(d, r, f);
      DecidedQueue(s, r, t);
      DecidedAttempts(s, r, t);
      DecidedClaims(s, r, t);
    }
  }

  // ---------- the end of an attempt ----------

  lemma {:induction false} OutstandingUpdate(xs: seq<Attempt>, a: AttemptId, x: Attempt)
    requires a < |xs|
    ensures Outstanding(xs[a := x]) ==
            Outstanding(xs) - (if xs[a].over then 0 else 1) + (if x.over then 0 else 1)
    decreases |xs|
  {
    var n := |xs| - 1;
    if a < n {
      OutstandingUpdate(xs[..n], a, x);
      assert xs[a := x][..n] == xs[..n][a := x];
    } else {
      assert xs[a := x][..n] == xs[..n];
    }
  }

  /** The slot of a decided request's attempt is given back once, and then everything holds. */
  lemma GiveBackDispatch(s: Broker, a: AttemptId, lane: Lane)
    requires a < |s.attempts| && Paired(s) && DispatchBut(s, s.attempts[a].record) && !s.attempts[a].over
    requires s.Decided(s.attempts[a].record)
    requires (s.attempts[a].watched && !s.attempts[a].future.Pending? && lane == s.lane) || (s.lane == Broken(a) && lane == AtTop)
    ensures Dispatch(GiveBack(s, a).(lane := lane))
    ensures s.staged > 0
  {
    hide QueueExact, CancelledWithRecord, AttemptsOk;
    var t := GiveBack(s, a).(lane := lane);
    OutstandingUpdate(s.attempts, a, s.attempts[a].(over := true));
    OutstandingPositive(s.attempts, a);
    GiveBackAttempts(s, a, lane);
    SameQueue(s, t);
  }

  lemma SameQueue(s: Broker, t: Broker)
    requires t.queue == s.queue && t.records == s.records
    ensures QueueExact(s) ==> QueueExact(t)
  {
    hide Ok, Stream, NoDup;
    forall p, q, r | r in Stream(s.queue, p, q) && BelongsTo(s, r, p, q) ensures BelongsTo(t, r, p, q) { }
  }

  lemma GiveBackAttempts(s: Broker, a: AttemptId, lane: Lane)
    requires a < |s.attempts| && Paired(s) && AttemptsOk(s) && !s.attempts[a].over
    requires forall x :: 0 <= x < |s.records| && x != s.attempts[a].record ==> CancelledWithRecord(s, x)
    requires s.Decided(s.attempts[a].record)
    requires (s.attempts[a].watched && !s.attempts[a].future.Pending? && lane == s.lane) || (s.lane == Broken(a) && lane == AtTop)
    ensures var t := GiveBack(s, a).(lane := lane);
            Paired(t) && AttemptsOk(t) && forall r :: 0 <= r < |t.records| ==> CancelledWithRecord(t, r)
  {
    var t := GiveBack(s, a).(lane := lane);
    assert AttemptOk(s, a);
    forall b | 0 <= b < |t.attempts| ensures AttemptOk(t, b) {
      assert AttemptOk(s, b);
    }
    forall r | 0 <= r < |t.records| ensures CancelledWithRecord(t, r) {
      if r != s.attempts[a].record { assert CancelledWithRecord(s, r); }
    }
  }

  lemma {:induction false} OutstandingPositive(xs: seq<Attempt>, a: AttemptId)
    requires a < |xs| && !xs[a].over
    ensures Outstanding(xs) > 0
    decreases |xs|
  {
    if a < |xs| - 1 { OutstandingPositive(xs[..|xs| - 1], a); }
  }

  lemma NotInQueue(s: Broker, r: RecordId)
    requires QueueExact(s) && r < |s.records| && !Unstaged(s, r)
    ensures Dequeue(s, r) == s
  {
    var p, q := s.records[r].priority, s.records[r].principal;
    assert r in Stream(s.queue, p, q) ==> BelongsTo(s, r, p, q);
  }

  /** `_complete_local` for a finished attempt, or for one the pool refused for good. */
  lemma CompleteDispatch(s: Broker, a: AttemptId, o: Outcome, lane: Lane)
    requires a < |s.attempts| && Paired(s) && DispatchBut(s, s.attempts[a].record) && !s.attempts[a].over
    requires (s.attempts[a].watched && !s.attempts[a].future.Pending? && lane == s.lane) || (s.lane == Broken(a) && lane == AtTop)
    ensures Dispatch(Complete(s, a, o).(lane := lane)) && Complete(s, a, o).lane == s.lane
  {
    var r := s.attempts[a].record;
    assert AttemptOk(s, a);
    NotInQueue(s, r);
    DecideDispatch(s, r, FrameOf(o));
    var d := Decide(s, r, FrameOf(o));
    DecideKeepsAttempts(s, r, FrameOf(o));
    GiveBackDispatch(d, a, lane);
    CompleteTail(d, a, lane, s.records[r].session);
  }

  lemma CompleteTail(d: Broker, a: AttemptId, lane: Lane, sid: SessionId)
    requires Dispatch(GiveBack(d, a).(lane := lane))
    ensures Dispatch(PurgeIfClosed(GiveBack(d, a), sid).(lane := lane))
    ensures PurgeIfClosed(GiveBack(d, a), sid).lane == d.lane
  {
    var g := GiveBack(d, a);
    PurgeFrame(g, sid);
    DispatchFramed(g.(lane := lane), PurgeIfClosed(g, sid).(lane := lane));
  }

  lemma DecideKeepsAttempts(s: Broker, r: RecordId, f: Frame)
    ensures Decide(s, r, f).attempts == s.attempts && Decide(s, r, f).lane == s.lane
  {
  }

  /** Cancelling the future of a decided request closes the gap the decision left. */
  lemma CancelFutureDispatch(s: Broker, r: RecordId)
    requires DispatchBut(s, r) && r < |s.records| && s.Decided(r)
    ensures Dispatch(CancelFuture(s, r))
  {
    if s.records[r].future.Some? {
      var a := s.records[r].future.value;
      if s.attempts[a].future.Pending? {
        assert AttemptOk(s, a);
        FutureReplaced(s, a, CancelledFuture);
        CancelledDispatch(s.WithAtt(a, s.attempts[a].(future := CancelledFuture)), r, a);
      } else {
        assert CancelledWithRecord(s, r);
      }
    } else {
      assert CancelledWithRecord(s, r);
    }
  }

  lemma CancelledDispatch(t: Broker, r: RecordId, a: AttemptId)
    requires a < |t.attempts| && Paired(t) && DispatchBut(t, r) && r < |t.records| && t.records[r].future == Some(a)
    requires t.Decided(r) && t.attempts[a].future == CancelledFuture && !(t.attempts[a].watched && t.attempts[a].over)
    ensures Dispatch(if t.attempts[a].watched then Complete(t, a, OutcomeOf(CancelledFuture)) else t)
  {
    assert AttemptOk(t, a);
    if t.attempts[a].watched {
      CompleteDispatch(t, a, OutcomeOf(CancelledFuture), t.lane);
      var c := Complete(t, a, OutcomeOf(CancelledFuture));
      assert c.(lane := t.lane) == c;
    } else {
      assert CancelledWithRecord(t, r);
    }
  }

  lemma FutureReplaced(s: Broker, a: AttemptId, future: Future)
    requires a < |s.attempts| && Paired(s) && DispatchBut(s, s.attempts[a].record) && !future.Pending?
    ensures Paired(s.WithAtt(a, s.attempts[a].(future := future)))
    ensures DispatchBut(s.WithAtt(a, s.attempts[a].(future := future)), s.attempts[a].record)
  {
    var t := s.WithAtt(a, s.attempts[a].(future := future));
    OutstandingUpdate(s.attempts, a, s.attempts[a].(future := future));
    FrameQueue(s, t.(attempts := s.attempts));
    forall b | 0 <= b < |t.attempts| ensures AttemptOk(t, b) {
      assert AttemptOk(s, b);
    }
    forall r | 0 <= r < |t.records| && r != s.attempts[a].record ensures CancelledWithRecord(t, r) {
      assert CancelledWithRecord(s, r);
    }
  }

  lemma SettleDispatch(s: Broker, r: RecordId, f: Frame)
    requires Dispatch(s) && r < |s.records| && f.TerminalFrame? && !(Unstaged(s, r))
    ensures Dispatch(Settle(s, r, f))
  {
    NotInQueue(s, r);
    CancelQueuedDispatch(s, r, f);
  }

  lemma CancelQueuedDispatch(s: Broker, r: RecordId, f: Frame)
    requires Dispatch(s) && r < |s.records| && f.TerminalFrame?
    ensures Dispatch(CancelQueued(s, r, f))
  {
    DecideDispatch(s, r, f);
    CancelFutureDispatch(Decide(Dequeue(s, r), r, f), r);
  }
}
