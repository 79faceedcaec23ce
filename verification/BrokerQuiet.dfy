/** The steps that decide, admit and forget nothing. */
module BrokerQuiet {
  import opened BrokerState

  /** The steps that leave sessions alone but for their connections. */
  predicate Quiet(action: Action) {
    action.Tick? || action.Answer? || action.CloseConnection? || action.WriteFrame? || action.OfferToPool? ||
    action.Watch? || action.StartTask? || action.WritePipe? || action.RetryTask? || action.Resolve? || action.Shutdown?
  }

  ghost predicate SameButConnection(x: Session, y: Session) {
    y == x.(closed := y.closed, outbound := y.outbound) && (x.closed ==> y.closed)
  }

  /** Records keep everything but their invocation, attempts their slot, sessions everything but their connection. */
  ghost predicate Unmoved(s: Broker, t: Broker) {
    && t == s.(now := t.now, server := t.server, sessions := t.sessions, records := t.records, attempts := t.attempts,
               lane := t.lane, piped := t.piped, shutdownCancel := t.shutdownCancel, shutdownDeadline := t.shutdownDeadline)
    && (t.server != s.server ==> s.server == Serving && t.server == Draining) && s.piped <= t.piped
    && |t.records| == |s.records| && |t.attempts| == |s.attempts| && |t.sessions| == |s.sessions|
    && (forall r :: 0 <= r < |s.records| ==> t.records[r] == s.records[r].(payload := t.records[r].payload))
    && (forall a :: 0 <= a < |s.attempts| ==>
          t.attempts[a].over == s.attempts[a].over && t.attempts[a].record == s.attempts[a].record)
    && (forall x :: 0 <= x < |s.sessions| ==> SameButConnection(s.sessions[x], t.sessions[x]))
  }

  lemma AttemptUnmoved(s: Broker, a: AttemptId, x: Attempt, lane: Lane)
    requires x.over == s.Att(a).over && x.record == s.Att(a).record
    ensures Unmoved(s, s.WithAtt(a, x).(lane := lane)) && Unmoved(s, s.WithAtt(a, x))
  {
  }

  lemma PayloadUnmoved(s: Broker, r: RecordId)
    ensures Unmoved(s, s.WithRec(r, s.Rec(r).(payload := [])))
  {
  }

  lemma UnmovedTransitive(s: Broker, t: Broker, u: Broker)
    requires Unmoved(s, t) && Unmoved(t, u)
    ensures Unmoved(s, u)
  {
    forall x | 0 <= x < |s.sessions| ensures SameButConnection(s.sessions[x], u.sessions[x]) {
      assert SameButConnection(s.sessions[x], t.sessions[x]) && SameButConnection(t.sessions[x], u.sessions[x]);
    }
    forall r | 0 <= r < |s.records| ensures u.records[r] == s.records[r].(payload := u.records[r].payload) {
      assert t.records[r] == s.records[r].(payload := t.records[r].payload);
    }
  }

  lemma SessionUnmoved(s: Broker, sid: SessionId, c: Session)
    requires SameButConnection(s.Sess(sid), c)
    ensures Unmoved(s, s.WithSess(sid, c))
  {
  }

  lemma OtherUnmoved(s: Broker, t: Broker)
    requires t == s.(now := t.now, server := t.server, lane := t.lane, piped := t.piped,
                     shutdownCancel := t.shutdownCancel, shutdownDeadline := t.shutdownDeadline)
    requires (t.server != s.server ==> s.server == Serving && t.server == Draining) && s.piped <= t.piped
    ensures Unmoved(s, t)
  {
  }

  lemma AnswerUnmoved(s: Broker, sid: SessionId)
    ensures Unmoved(s, Post(s, sid, []))
  {
    hide Unmoved;
    var c := s.Sess(sid);
    SessionUnmoved(s, sid, c.(closed := true));
    SessionUnmoved(s, sid, c.(outbound := c.outbound + 1));
    assert s.sent + [] == s.sent;
    OtherUnmoved(s, s);
  }

  lemma QuietConnections(s: Broker, action: Action)
    requires Quiet(action) && (action.Tick? || action.Answer? || action.CloseConnection? || action.WriteFrame? || action.WritePipe? || action.Shutdown?)
    ensures Unmoved(s, Next(s, action))
  {
    hide Unmoved, Post;
    OtherUnmoved(s, s);
    match action
    case Answer(sid) => AnswerUnmoved(s, sid);
    case CloseConnection(sid) => SessionUnmoved(s, sid, s.Sess(sid).(closed := true));
    case WriteFrame(sid) =>
      if s.Sess(sid).outbound > 0 { SessionUnmoved(s, sid, s.Sess(sid).(outbound := s.Sess(sid).outbound - 1)); }
    case _ => OtherUnmoved(s, Next(s, action));
  }

  lemma WatchedUnmoved(s: Broker)
    ensures Unmoved(s, Watched(s))
  {
    hide Unmoved;
    OtherUnmoved(s, s);
    if s.lane.Taken? {
      var a := s.lane.a;
      var t := s.WithRec(s.Att(a).record, s.Rec(s.Att(a).record).(payload := []));
      PayloadUnmoved(s, s.Att(a).record);
      AttemptUnmoved(t, a, s.Att(a).(watched := true), AtTop);
      UnmovedTransitive(s, t, t.WithAtt(a, s.Att(a).(watched := true)).(lane := AtTop));
    }
  }

  lemma OfferUnmoved(s: Broker, answer: Offer)
    ensures Unmoved(s, OfferAnswered(s, answer))
  {
    hide Unmoved;
    OtherUnmoved(s, s);
    if s.lane.Offering? {
      var a := s.lane.a;
      OtherUnmoved(s, s.(lane := Refused(a)));
      OtherUnmoved(s, s.(lane := Broken(a)));
      AttemptUnmoved(s, a, s.Att(a).(phase := Waiting), Taken(a));
    }
  }

  lemma QuietAttempts(s: Broker, action: Action)
    requires Quiet(action) && (action.OfferToPool? || action.Watch? || action.StartTask? || action.RetryTask? || action.Resolve?)
    ensures Unmoved(s, Next(s, action))
  {
    hide Unmoved, Permitted, Watched, OfferAnswered;
    OtherUnmoved(s, s);
    match action
    case Watch => WatchedUnmoved(s);
    case OfferToPool(answer) => OfferUnmoved(s, answer);
    case Resolve(a, o) =>
      AttemptUnmoved(s, a, s.Att(a).(phase := Finished, future := if s.Att(a).future.Pending? then Resolved(o) else s.Att(a).future), AtTop);
    case StartTask(a) => AttemptUnmoved(s, a, s.Att(a).(phase := Started), AtTop);
    case RetryTask(a) => AttemptUnmoved(s, a, s.Att(a).(phase := Started), AtTop);
  }

  lemma QuietUnmoved(s: Broker, action: Action)
    requires Quiet(action)
    ensures Unmoved(s, Next(s, action))
  {
    hide Unmoved, Next;
    if action.Tick? || action.Answer? || action.CloseConnection? || action.WriteFrame? || action.WritePipe? || action.Shutdown? {
      QuietConnections(s, action);
    } else {
      QuietAttempts(s, action);
    }
  }
}
