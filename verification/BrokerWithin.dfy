/** What one lock-held region may do to a request or a session on the way: only decide, close and forget. */
module BrokerWithin {
  import opened Options
  import opened BrokerState

  ghost predicate SameIdentity(x: Record, y: Record) {
    && x.id == y.id && x.session == y.session && x.principal == y.principal && x.priority == y.priority
    && x.deadline == y.deadline && x.group == y.group && x.reserved == y.reserved
  }

  /** A request may be decided, once, and forgotten; nothing else about it changes. */
  ghost predicate RecordWithin(x: Record, y: Record) {
    && SameIdentity(x, y) && x.claimed == y.claimed && x.future == y.future
    && (y.state == x.state || (!x.state.Terminal? && y.state.Terminal?))
    && (x.reservationReleased ==> y.reservationReleased)
    && (x.state.Terminal? ==> y.terminal == x.terminal || y.terminal == ClearPayload(x.terminal))
  }

  ghost predicate SessionWithin(x: Session, y: Session) {
    && x.client == y.client && x.principal == y.principal && x.maxResult == y.maxResult
    && x.watermark == y.watermark && x.disconnected == y.disconnected && x.cleanClose == y.cleanClose
    && (x.closed ==> y.closed)
    && forall r :: r in y.requests ==> r in x.requests
  }

  ghost predicate AttemptWithin(x: Attempt, y: Attempt) {
    && x.record == y.record && x.phase == y.phase && x.watched == y.watched && x.pid == y.pid
    && (x.over ==> y.over) && (!x.future.Pending? ==> y.future == x.future)
    && (y.future == x.future || y.future == CancelledFuture)
  }

  ghost predicate Within(s: Broker, t: Broker) {
    && |s.records| == |t.records| && |s.sessions| == |t.sessions| && |s.attempts| == |t.attempts|
    && s.config == t.config && s.server == t.server && s.now == t.now && s.lane == t.lane
    && s.piped == t.piped && s.accepted == t.accepted && s.running == t.running
    && s.shutdownCancel == t.shutdownCancel && s.shutdownDeadline == t.shutdownDeadline
    && (forall r :: 0 <= r < |s.records| ==> RecordWithin(s.records[r], t.records[r]))
    && (forall sid :: 0 <= sid < |s.sessions| ==> SessionWithin(s.sessions[sid], t.sessions[sid]))
    && (forall a :: 0 <= a < |s.attempts| ==> AttemptWithin(s.attempts[a], t.attempts[a]))
    && t.registered <= s.registered
    && (forall r :: r in t.requests ==> r in s.requests)
    && s.sent <= t.sent
  }

  lemma WithinTransitive(s: Broker, t: Broker, u: Broker)
    requires Within(s, t) && Within(t, u)
    ensures Within(s, u)
  {
    forall r | 0 <= r < |s.records| ensures RecordWithin(s.records[r], u.records[r]) {
      assert RecordWithin(s.records[r], t.records[r]) && RecordWithin(t.records[r], u.records[r]);
    }
    forall sid | 0 <= sid < |s.sessions| ensures SessionWithin(s.sessions[sid], u.sessions[sid]) {
      assert SessionWithin(s.sessions[sid], t.sessions[sid]) && SessionWithin(t.sessions[sid], u.sessions[sid]);
    }
    forall a | 0 <= a < |s.attempts| ensures AttemptWithin(s.attempts[a], u.attempts[a]) {
      assert AttemptWithin(s.attempts[a], t.attempts[a]) && AttemptWithin(t.attempts[a], u.attempts[a]);
    }
  }

  lemma WithinReflexive(s: Broker)
    ensures Within(s, s)
  {
  }

  lemma PostWithin(s: Broker, sid: SessionId, entry: seq<(RecordId, Frame)>)
    ensures Within(s, Post(s, sid, entry))
  {
    WithinReflexive(s);
    if sid < |s.sessions| && !s.sessions[sid].closed {
      var c := s.sessions[sid];
      hide Within;
      ConnectionWithin(s, sid, c.(closed := true), []);
      ConnectionWithin(s, sid, c.(outbound := c.outbound + 1), entry);
    }
  }

  lemma ConnectionWithin(s: Broker, sid: SessionId, c: Session, entry: seq<(RecordId, Frame)>)
    requires sid < |s.sessions| && SessionWithin(s.sessions[sid], c)
    ensures Within(s, s.(sessions := s.sessions[sid := c], sent := s.sent + entry))
  {
  }

  lemma DequeueWithin(s: Broker, r: RecordId)
    ensures Within(s, Dequeue(s, r))
  {
  }

  lemma DecideWithin(s: Broker, r: RecordId, f: Frame)
    ensures Within(s, Decide(s, r, f))
    ensures r < |s.records| && f.TerminalFrame? ==> Decide(s, r, f).Decided(r)
  {
    if !s.Decided(r) && f.TerminalFrame? {
      var rec := s.Rec(r).(state := Terminal(f.verdict), payload := [], terminal := Some(f));
      var t := s.WithRec(r, rec).(terminal := s.terminal + 1);
      assert Within(s, t);
      PostWithin(t, t.Rec(r).session, [(r, f)]);
      WithinTransitive(s, t, Decide(s, r, f));
    }
  }

  lemma RecWithin(s: Broker, r: RecordId, rec: Record)
    requires RecordWithin(s.Rec(r), rec)
    ensures Within(s, s.WithRec(r, rec))
  {
  }

  lemma SessWithin(s: Broker, sid: SessionId, c: Session)
    requires SessionWithin(s.Sess(sid), c)
    ensures Within(s, s.WithSess(sid, c))
  {
  }

  lemma ChargeWithin(s: Broker, sid: SessionId, outcomes: int, bytes: int)
    ensures Within(s, Charge(s, sid, outcomes, bytes))
  {
  }

  lemma ReleaseWithin(s: Broker, r: RecordId)
    ensures Within(s, ReleaseReservation(s, r))
  {
    hide Within, Charge;
    var rec := s.Rec(r);
    WithinReflexive(s);
    RecWithin(s, r, rec.(reservationReleased := true));
    var t := s.WithRec(r, rec.(reservationReleased := true));
    ChargeWithin(t, rec.session, -1, 0 - rec.reserved);
    WithinTransitive(s, t, Charge(t, rec.session, -1, 0 - rec.reserved));
  }

  lemma DecidedStays(s: Broker, t: Broker, r: RecordId)
    requires Within(s, t) && r < |s.records| && s.Decided(r)
    ensures t.Decided(r)
  {
    assert RecordWithin(s.records[r], t.records[r]);
  }

  lemma ListsWithin(s: Broker, rs: seq<RecordId>)
    requires forall x :: x in rs ==> x in s.requests
    ensures Within(s, s.(requests := rs))
  {
  }

  lemma ForgetWithin(s: Broker, r: RecordId)
    ensures Within(s, Forget(s, r))
  {
    hide Within, ReleaseReservation, Drop;
    ReleaseWithin(s, r);
    WithinReflexive(s);
    var sid := s.Rec(r).session;
    var t := ReleaseReservation(s, r);
    var rec := t.Rec(r).(payload := [], terminal := ClearPayload(t.Rec(r).terminal));
    RecWithin(t, r, rec);
    var u := t.WithRec(r, rec);
    WithinTransitive(s, t, u);
    if sid in s.registered {
      ForgetTail(s, u, sid, Drop(t.Sess(sid).requests, r), Drop(t.requests, r));
    }
  }

  lemma ForgetTail(s: Broker, u: Broker, sid: SessionId, mine: seq<RecordId>, all: seq<RecordId>)
    requires Within(s, u) && (forall x :: x in mine ==> x in u.Sess(sid).requests) && forall x :: x in all ==> x in u.requests
    ensures Within(s, u.WithSess(sid, u.Sess(sid).(requests := mine)).(requests := all))
  {
    hide Within;
    var c := u.Sess(sid).(requests := mine);
    SessWithin(u, sid, c);
    WithinTransitive(s, u, u.WithSess(sid, c));
    ListsWithin(u.WithSess(sid, c), all);
    WithinTransitive(s, u.WithSess(sid, c), u.WithSess(sid, c).(requests := all));
  }

  lemma {:induction false} ForgetDecidedWithin(s: Broker, todo: seq<RecordId>)
    ensures Within(s, ForgetDecided(s, todo))
    decreases |todo|
  {
    hide Within;
    if todo != [] {
      var t := if s.Decided(todo[0]) then Forget(s, todo[0]) else s;
      ForgetWithin(s, todo[0]);
      WithinReflexive(s);
      ForgetDecidedWithin(t, todo[1..]);
      WithinTransitive(s, t, ForgetDecided(t, todo[1..]));
    } else {
      WithinReflexive(s);
    }
  }

  lemma EndSessionWithin(s: Broker, sid: SessionId)
    ensures Within(s, EndSession(s, sid))
  {
  }

  lemma PurgeWithin(s: Broker, sid: SessionId)
    ensures Within(s, Purge(s, sid)) && Within(s, PurgeIfClosed(s, sid))
  {
    hide Within;
    ForgetDecidedWithin(s, s.Sess(sid).requests);
    WithinReflexive(s);
    var t := ForgetDecided(s, s.Sess(sid).requests);
    EndSessionWithin(t, sid);
    WithinTransitive(s, t, EndSession(t, sid));
  }

  lemma GiveBackWithin(s: Broker, a: AttemptId)
    ensures Within(s, GiveBack(s, a))
  {
  }

  lemma FrameIsTerminal(o: Outcome)
    ensures FrameOf(o).TerminalFrame?
  {
  }

  lemma SizesWithin(s: Broker, t: Broker)
    requires Within(s, t)
    ensures |s.records| == |t.records| && |s.attempts| == |t.attempts| && |s.sessions| == |t.sessions|
    ensures forall r :: r in t.requests ==> r in s.requests
  {
  }

  lemma CompleteWithin(s: Broker, a: AttemptId, o: Outcome)
    ensures Within(s, Complete(s, a, o))
    ensures a < |s.attempts| && s.attempts[a].record < |s.records| ==> Complete(s, a, o).Decided(s.attempts[a].record)
  {
    hide Within, Decide, GiveBack, PurgeIfClosed;
    var r := s.Att(a).record;
    var d := Decide(s, r, FrameOf(o));
    DecideWithin(s, r, FrameOf(o));
    GiveBackWithin(d, a);
    PurgeWithin(GiveBack(d, a), s.Rec(r).session);
    WithinTransitive(s, d, GiveBack(d, a));
    WithinTransitive(s, GiveBack(d, a), Complete(s, a, o));
    if a < |s.attempts| && r < |s.records| {
      FrameIsTerminal(o);
      SizesWithin(s, d);
      WithinTransitive(d, GiveBack(d, a), Complete(s, a, o));
      DecidedStays(d, Complete(s, a, o), r);
    }
  }

  lemma CancelOneWithin(s: Broker, a: AttemptId)
    ensures s.Att(a).future.Pending? ==> Within(s, s.WithAtt(a, s.Att(a).(future := CancelledFuture)))
  {
  }

  lemma CancelFutureWithin(s: Broker, r: RecordId)
    ensures Within(s, CancelFuture(s, r))
  {
    hide Within;
    WithinReflexive(s);
    if s.Rec(r).future.Some? {
      var a := s.Rec(r).future.value;
      var t := s.WithAtt(a, s.Att(a).(future := CancelledFuture));
      if s.Att(a).future.Pending? {
        CancelOneWithin(s, a);
        CompleteWithin(t, a, OutcomeOf(CancelledFuture));
        WithinTransitive(s, t, Complete(t, a, OutcomeOf(CancelledFuture)));
      }
    }
  }

  lemma SettleWithin(s: Broker, r: RecordId, f: Frame)
    ensures Within(s, Settle(s, r, f))
    ensures r < |s.records| && f.TerminalFrame? ==> Settle(s, r, f).Decided(r)
  {
    hide Within, Decide, CancelFuture;
    DecideWithin(s, r, f);
    CancelFutureWithin(Decide(s, r, f), r);
    WithinTransitive(s, Decide(s, r, f), Settle(s, r, f));
    if r < |s.records| && f.TerminalFrame? {
      SizesWithin(s, Decide(s, r, f));
      DecidedStays(Decide(s, r, f), Settle(s, r, f), r);
    }
  }

  lemma CancelQueuedWithin(s: Broker, r: RecordId, f: Frame)
    ensures Within(s, CancelQueued(s, r, f))
    ensures r < |s.records| && f.TerminalFrame? ==> CancelQueued(s, r, f).Decided(r)
  {
    hide Within, Dequeue, Settle;
    DequeueWithin(s, r);
    SettleWithin(Dequeue(s, r), r, f);
    WithinTransitive(s, Dequeue(s, r), CancelQueued(s, r, f));
    SizesWithin(s, Dequeue(s, r));
  }

  lemma VisitWithin(s: Broker, pass: Pass, r: RecordId)
    ensures Within(s, Visit(s, pass, r))
    ensures r < |s.records| && Ruling(s, pass, r).Some? ==> Visit(s, pass, r).Decided(r)
  {
    WithinReflexive(s);
    if Ruling(s, pass, r).Some? {
      CancelQueuedWithin(s, r, Ruling(s, pass, r).value);
      SettleWithin(s, r, Ruling(s, pass, r).value);
    }
  }

  /** After a pass over `todo`, no request of `todo` is left in a state the pass would have decided. */
  lemma {:induction false} VisitAllWithin(s: Broker, pass: Pass, todo: seq<RecordId>)
    requires forall r :: r in todo ==> r < |s.records|
    ensures Within(s, VisitAll(s, pass, todo))
    ensures forall r :: r in todo && Ruling(s, pass, r).Some? ==> VisitAll(s, pass, todo).Decided(r)
    decreases |todo|
  {
    WithinReflexive(s);
    if todo != [] {
      var t, u := Visit(s, pass, todo[0]), VisitAll(s, pass, todo);
      VisitWithin(s, pass, todo[0]);
      assert forall r :: r in todo[1..] ==> r in todo;
      VisitAllWithin(t, pass, todo[1..]);
      WithinTransitive(s, t, u);
      forall r | r in todo && Ruling(s, pass, r).Some? ensures u.Decided(r) {
        assert RecordWithin(s.records[r], t.records[r]) && RecordWithin(t.records[r], u.records[r]);
        if r == todo[0] {
          assert t.Decided(r);
        } else {
          assert r in todo[1..];
          RulingKept(s, t, pass, r);
        }
      }
    }
  }

  lemma RulingKept(s: Broker, t: Broker, pass: Pass, r: RecordId)
    requires Within(s, t) && r < |s.records| && Ruling(s, pass, r).Some?
    ensures t.Decided(r) || Ruling(t, pass, r).Some?
  {
    assert RecordWithin(s.records[r], t.records[r]);
  }

  lemma SameDeadline(s: Broker, t: Broker)
    requires Within(s, t)
    ensures t.shutdownDeadline == s.shutdownDeadline && t.now == s.now
  {
  }
}
