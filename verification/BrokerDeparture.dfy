/** What is left of a session after an unclean disconnect, and the size of retained outcomes. */
module BrokerDeparture {
  import opened Options
  import opened BrokerState
  import opened BrokerInvariant
  import opened BrokerWithin
  import opened BrokerDispatch
  import opened BrokerRetention

  // ---------- outcome sizes ----------

  /** No outcome is new or larger. */
  ghost predicate NoLarger(s: Broker, t: Broker) {
    && |s.records| == |t.records| && |s.attempts| == |t.attempts|
    && (forall r :: 0 <= r < |s.records| ==>
          t.records[r].reserved == s.records[r].reserved && PayloadSize(t.records[r]) <= PayloadSize(s.records[r]))
    && (forall a :: 0 <= a < |s.attempts| ==>
          t.attempts[a].record == s.attempts[a].record &&
          (t.attempts[a].future.Resolved? ==> t.attempts[a].future == s.attempts[a].future))
  }

  lemma NoLargerFits(s: Broker, t: Broker)
    requires NoLarger(s, t) && PayloadsFit(s)
    ensures PayloadsFit(t)
  {
    forall a | 0 <= a < |t.attempts| && t.attempts[a].future.Resolved?
      ensures |PayloadOf(t.attempts[a].future.outcome)| <= t.Rec(t.attempts[a].record).reserved
    {
      assert s.attempts[a].record == t.attempts[a].record;
    }
  }

  lemma PostNoLarger(s: Broker, sid: SessionId, entry: seq<(RecordId, Frame)>)
    ensures NoLarger(s, Post(s, sid, entry))
  {
  }

  lemma NoLargerTransitive(s: Broker, t: Broker, u: Broker)
    requires NoLarger(s, t) && NoLarger(t, u)
    ensures NoLarger(s, u)
  {
  }

  lemma RecordNoLarger(s: Broker, r: RecordId, rec: Record)
    requires rec.reserved == s.Rec(r).reserved && PayloadSize(rec) <= PayloadSize(s.Rec(r))
    ensures NoLarger(s, s.WithRec(r, rec))
  {
  }

  lemma ReleaseNoLarger(s: Broker, r: RecordId)
    ensures NoLarger(s, ReleaseReservation(s, r))
  {
    hide Charge, NoLarger;
    var rec := s.Rec(r);
    var t := s.WithRec(r, rec.(reservationReleased := true));
    RecordNoLarger(s, r, rec.(reservationReleased := true));
    ChargeFrame(t, rec.session, -1, 0 - rec.reserved);
    SameNoLarger(t, Charge(t, rec.session, -1, 0 - rec.reserved));
    SameNoLarger(s, s);
    NoLargerTransitive(s, t, Charge(t, rec.session, -1, 0 - rec.reserved));
  }

  lemma SameNoLarger(s: Broker, t: Broker)
    requires t.records == s.records && t.attempts == s.attempts
    ensures NoLarger(s, t)
  {
  }

  lemma ForgetNoLarger(s: Broker, r: RecordId)
    ensures NoLarger(s, Forget(s, r))
  {
    hide Drop, ReleaseReservation, NoLarger;
    var t := ReleaseReservation(s, r);
    ReleaseNoLarger(s, r);
    SameNoLarger(s, s);
    var rec := t.Rec(r).(payload := [], terminal := ClearPayload(t.Rec(r).terminal));
    RecordNoLarger(t, r, rec);
    NoLargerTransitive(s, t, t.WithRec(r, rec));
    ForgetTailFields(t, s.Rec(r).session, r, rec);
    if s.Rec(r).session in s.registered {
      SameNoLarger(t.WithRec(r, rec), Forget(s, r));
      NoLargerTransitive(s, t.WithRec(r, rec), Forget(s, r));
    }
  }

  lemma ForgetTailFields(t: Broker, sid: SessionId, r: RecordId, rec: Record)
    ensures var u := t.WithRec(r, rec).WithSess(sid, t.Sess(sid).(requests := Drop(t.Sess(sid).requests, r))).(requests := Drop(t.requests, r));
            && u.records == t.WithRec(r, rec).records && u.attempts == t.WithRec(r, rec).attempts
            && u.registered == t.registered && forall other: SessionId :: other != sid ==> u.Sess(other) == t.Sess(other)
  {
    hide Drop;
  }

  lemma {:induction false} ForgetDecidedNoLarger(s: Broker, todo: seq<RecordId>)
    ensures NoLarger(s, ForgetDecided(s, todo))
    decreases |todo|
  {
    if todo != [] {
      ForgetNoLarger(s, todo[0]);
      ForgetDecidedNoLarger(if s.Decided(todo[0]) then Forget(s, todo[0]) else s, todo[1..]);
    }
  }

  lemma DecideFits(s: Broker, r: RecordId, f: Frame)
    requires PayloadsFit(s) && f.TerminalFrame? && |f.payload| <= s.Rec(r).reserved
    ensures PayloadsFit(Decide(s, r, f))
  {
    if !s.Decided(r) {
      var t := s.WithRec(r, s.Rec(r).(state := Terminal(f.verdict), payload := [], terminal := Some(f))).(terminal := s.terminal + 1);
      assert PayloadsFit(t);
      PostNoLarger(t, t.Rec(r).session, [(r, f)]);
      NoLargerFits(t, Decide(s, r, f));
    }
  }

  lemma CompleteFits(s: Broker, a: AttemptId, o: Outcome)
    requires PayloadsFit(s) && |PayloadOf(o)| <= s.Rec(s.Att(a).record).reserved
    ensures PayloadsFit(Complete(s, a, o))
  {
    var r := s.Att(a).record;
    DecideFits(s, r, FrameOf(o));
    var g := GiveBack(Decide(s, r, FrameOf(o)), a);
    NoLargerFits(Decide(s, r, FrameOf(o)), g);
    var sid := s.Rec(r).session;
    ForgetDecidedNoLarger(g, g.Sess(sid).requests);
    NoLargerFits(g, ForgetDecided(g, g.Sess(sid).requests));
    EndSessionFits(ForgetDecided(g, g.Sess(sid).requests), sid);
  }

  lemma EndSessionFits(s: Broker, sid: SessionId)
    requires PayloadsFit(s)
    ensures PayloadsFit(EndSession(s, sid))
  {
    NoLargerFits(s, EndSession(s, sid));
  }

  lemma PurgeFits(s: Broker, sid: SessionId)
    requires PayloadsFit(s)
    ensures PayloadsFit(Purge(s, sid))
  {
    ForgetDecidedNoLarger(s, s.Sess(sid).requests);
    NoLargerFits(s, ForgetDecided(s, s.Sess(sid).requests));
    EndSessionFits(ForgetDecided(s, s.Sess(sid).requests), sid);
  }

  lemma CancelFutureFits(s: Broker, r: RecordId)
    requires PayloadsFit(s)
    ensures PayloadsFit(CancelFuture(s, r))
  {
    if s.Rec(r).future.Some? {
      var a := s.Rec(r).future.value;
      var t := s.WithAtt(a, s.Att(a).(future := CancelledFuture));
      NoLargerFits(s, t);
      CompleteFits(t, a, OutcomeOf(CancelledFuture));
    }
  }

  lemma SettleFits(s: Broker, r: RecordId, f: Frame)
    requires PayloadsFit(s) && f.TerminalFrame? && f.payload == []
    ensures PayloadsFit(Settle(s, r, f)) && PayloadsFit(CancelQueued(s, r, f))
  {
    DecideFits(s, r, f);
    CancelFutureFits(Decide(s, r, f), r);
    var d := Dequeue(s, r);
    NoLargerFits(s, d);
    DecideFits(d, r, f);
    CancelFutureFits(Decide(d, r, f), r);
  }

  lemma {:induction false} VisitAllFits(s: Broker, pass: Pass, todo: seq<RecordId>)
    requires PayloadsFit(s)
    ensures PayloadsFit(VisitAll(s, pass, todo))
    decreases |todo|
  {
    if todo != [] {
      if Ruling(s, pass, todo[0]).Some? { SettleFits(s, todo[0], Ruling(s, pass, todo[0]).value); }
      VisitAllFits(Visit(s, pass, todo[0]), pass, todo[1..]);
    }
  }

  /** Together the retained outcomes fit the bytes reserved for them. */
  lemma {:induction false} PayloadsWithinReservation(records: seq<Record>, rs: seq<RecordId>)
    requires forall r :: 0 <= r < |records| ==> PayloadSize(records[r]) <= records[r].reserved
    ensures SumPayload(records, rs) <= SumReserved(records, rs)
    decreases |rs|
  {
    if rs != [] { PayloadsWithinReservation(records, rs[1..]); }
  }

  // ---------- departed sessions ----------

  ghost predicate ClosedIfGone(s: Broker) {
    forall sid :: 0 <= sid < |s.sessions| && s.sessions[sid].disconnected ==> s.sessions[sid].closed
  }

  lemma ClosedIfGoneWithin(s: Broker, t: Broker)
    requires ClosedIfGone(s) && Within(s, t)
    ensures ClosedIfGone(t)
  {
    forall sid | 0 <= sid < |t.sessions| && t.sessions[sid].disconnected ensures t.sessions[sid].closed {
      assert SessionWithin(s.sessions[sid], t.sessions[sid]);
    }
  }

  /** Nothing that matters to a departed session differs. */
  ghost predicate SameStay(s: Broker, t: Broker, sid: SessionId) {
    && t.config == s.config && (sid in t.registered <==> sid in s.registered)
    && t.Sess(sid).requests == s.Sess(sid).requests
    && t.Sess(sid).disconnected == s.Sess(sid).disconnected && t.Sess(sid).cleanClose == s.Sess(sid).cleanClose
    && forall r :: r in s.Sess(sid).requests && StillRunning(s, r) ==> StillRunning(t, r)
  }

  lemma StayFramed(s: Broker, t: Broker, sid: SessionId)
    requires SameStay(s, t, sid) && SessionDeparted(s, sid)
    ensures SessionDeparted(t, sid)
  {
  }

  lemma DecideStay(s: Broker, r: RecordId, f: Frame, sid: SessionId)
    requires Paired(s) && AttemptsOk(s) && r < |s.records|
    ensures SameStay(s, Decide(s, r, f), sid)
  {
    var t := Decide(s, r, f);
    DecideKeepsAttempts(s, r, f);
    DecideWithin(s, r, f);
    DecideSame(s, r, f);
    hide Decide;
    assert sid < |s.sessions| ==> SessionWithin(s.sessions[sid], t.sessions[sid]) && SameAccount(s.sessions[sid], t.sessions[sid]);
    forall x | x in s.Sess(sid).requests && StillRunning(s, x) ensures StillRunning(t, x) {
      if x < |s.records| {
        assert RecordWithin(s.records[x], t.records[x]);
        assert s.records[x].future.Some? ==> AttemptOk(s, s.records[x].future.value);
      }
    }
  }

  lemma {:induction false} ForgetOthers(s: Broker, sid: SessionId, todo: seq<RecordId>, other: SessionId)
    requires other != sid && forall r :: r in todo ==> r < |s.records| && s.records[r].session == sid
    ensures ForgetDecided(s, todo).Sess(other) == s.Sess(other) && ForgetDecided(s, todo).registered == s.registered
    decreases |todo|
  {
    if todo != [] {
      var t := if s.Decided(todo[0]) then Forget(s, todo[0]) else s;
      assert todo[0] in todo && forall x :: x in todo[1..] ==> x in todo;
      ForgetOther(s, todo[0], other);
      ForgetWithin(s, todo[0]);
      forall r | r in todo ensures r < |t.records| && t.records[r].session == sid {
        assert t != s ==> RecordWithin(s.records[r], t.records[r]);
      }
      ForgetOthers(t, sid, todo[1..], other);
    }
  }

  lemma ForgetOther(s: Broker, r: RecordId, other: SessionId)
    requires s.Rec(r).session != other
    ensures Forget(s, r).Sess(other) == s.Sess(other) && Forget(s, r).registered == s.registered
  {
    hide Drop, ClearPayload, ReleaseReservation;
    ForgetRegistered(s, r);
    var t := ReleaseReservation(s, r);
    ReleaseOther(s, r, other);
    ForgetTailFields(t, s.Rec(r).session, r, t.Rec(r).(payload := [], terminal := ClearPayload(t.Rec(r).terminal)));
  }

  lemma ReleaseOther(s: Broker, r: RecordId, other: SessionId)
    requires s.Rec(r).session != other
    ensures ReleaseReservation(s, r).Sess(other) == s.Sess(other)
  {
  }

  /** A purge is invisible to every other session. */
  lemma PurgeOthers(s: Broker, sid: SessionId, other: SessionId)
    requires Kept(s) && other != sid
    ensures SameStay(s, PurgeIfClosed(s, sid), other)
  {
    KeptInRange(s, sid);
    ForgetOthers(s, sid, s.Sess(sid).requests, other);
    PurgeFrame(s, sid);
    var t := PurgeIfClosed(s, sid);
    forall r | r in s.Sess(other).requests && StillRunning(s, r) ensures StillRunning(t, r) {
      assert r < |s.records| ==> SameRole(s.records[r], t.records[r]);
    }
  }

  lemma GiveBackStay(s: Broker, a: AttemptId, sid: SessionId)
    requires Paired(s) && Kept(s) && a < |s.attempts| && s.records[s.attempts[a].record].session != sid
    ensures SameStay(s, GiveBack(s, a), sid)
  {
    var t := GiveBack(s, a);
    forall r | r in s.Sess(sid).requests && StillRunning(s, r) ensures StillRunning(t, r) {
      assert HeldBy(s, r, sid);
    }
  }

  lemma CompleteDeparted(s: Broker, a: AttemptId, o: Outcome, sid: SessionId)
    requires Paired(s) && AttemptsOk(s) && Kept(s) && ClosedIfGone(s) && a < |s.attempts|
    requires SessionDeparted(s, sid)
    ensures SessionDeparted(Complete(s, a, o), sid)
  {
    var r := s.attempts[a].record;
    var f := FrameOf(o);
    var d := Decide(s, r, f);
    var home := s.records[r].session;
    DecideStay(s, r, f, sid);
    StayFramed(s, d, sid);
    DecideSame(s, r, f);
    RetentionFramed(s, d);
    DecideWithin(s, r, f);
    ClosedIfGoneWithin(s, d);
    CompletedParts(s, a, f);
    if home == sid {
      HomeDeparted(d, a, sid);
    } else {
      GiveBackSame(d, a);
      RetentionFramed(d, GiveBack(d, a));
      GiveBackStay(d, a, sid);
      StayFramed(d, GiveBack(d, a), sid);
      PurgeOthers(GiveBack(d, a), home, sid);
      StayFramed(GiveBack(d, a), Complete(s, a, o), sid);
    }
  }

  lemma CompletedParts(s: Broker, a: AttemptId, f: Frame)
    requires Paired(s) && a < |s.attempts|
    ensures var d := Decide(s, s.attempts[a].record, f);
            && Paired(d) && d.attempts == s.attempts
            && d.records[d.attempts[a].record].session == s.records[s.attempts[a].record].session
  {
  }

  lemma UnregisteredEmpty(s: Broker, sid: SessionId)
    requires Retained(s) && sid !in s.registered
    ensures s.Sess(sid).requests == []
  {
    var rs := s.Sess(sid).requests;
    assert rs != [] ==> rs[0] in rs && HeldBy(s, rs[0], sid) && RecordRetained(s, rs[0]);
  }

  /** The session whose work has just finished: its decided requests go, and it ends with the last of them. */
  lemma HomeDeparted(d: Broker, a: AttemptId, sid: SessionId)
    requires Kept(d) && ClosedIfGone(d) && SessionDeparted(d, sid)
    ensures SessionDeparted(PurgeIfClosed(GiveBack(d, a), sid), sid)
  {
    var g := GiveBack(d, a);
    GiveBackSame(d, a);
    RetentionFramed(d, g);
    PurgeKept(g, sid);
    PurgeFrame(g, sid);
    PurgeWithin(g, sid);
    var t := PurgeIfClosed(g, sid);
    if sid < |d.sessions| && d.sessions[sid].disconnected && !d.sessions[sid].cleanClose && d.config.policy != ContinueWork {
      if sid !in d.registered { UnregisteredEmpty(d, sid); } else {
        forall r | r in t.Sess(sid).requests ensures StillRunning(t, r) {
          assert StillRunning(d, r);
          assert r < |g.records| ==> SameRole(g.records[r], t.records[r]);
        }
      }
    }
    assert sid < |g.sessions| ==> SessionWithin(g.sessions[sid], t.sessions[sid]);
  }
}
