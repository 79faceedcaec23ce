/** The frames a client is sent: their order, their agreement with the requests, and that none is withheld. */
module BrokerLog {
  import opened Options
  import opened BrokerState
  import opened BrokerInvariant
  import opened BrokerDispatch
  import opened BrokerQuiet

  // ---------- steps that send nothing ----------

  ghost predicate SameStory(x: Record, y: Record) {
    && x.state == y.state && x.claimed == y.claimed && x.session == y.session
    && (x.reservationReleased ==> y.reservationReleased)
    && (y.terminal == x.terminal || (y.reservationReleased && y.terminal == ClearPayload(x.terminal)))
  }

  /** Nothing is sent and no request changes state; connections may close and outcomes may be forgotten. */
  ghost predicate Silent(s: Broker, t: Broker) {
    && t.sent == s.sent && t.terminal == s.terminal && |t.records| == |s.records|
    && (forall r :: 0 <= r < |s.records| ==> SameStory(s.records[r], t.records[r]))
    && (forall sid: SessionId :: sid < |s.sessions| && s.Sess(sid).closed ==> t.Sess(sid).closed)
    && (forall r :: 0 <= r < |s.records| && Open(t, r) ==> Open(s, r))
  }

  lemma SilentLog(s: Broker, t: Broker)
    requires Silent(s, t) && Log(s)
    ensures Log(t)
  {
    forall i | 0 <= i < |t.sent| ensures t.sent[i].0 < |t.records| && SameStory(s.records[t.sent[i].0], t.records[t.sent[i].0]) {
    }
    forall r, k: nat | 0 <= r < |t.records| && HasFrame(s, r, k) ensures HasFrame(t, r, k) { HasFrameKept(s, t, r, k); }
    forall r | 0 <= r < |t.records| && t.records[r].state.Terminal?
      ensures t.records[r].terminal.Some? && t.records[r].terminal.value.TerminalFrame?
      ensures t.records[r].terminal.value.verdict == t.records[r].state.verdict
    {
      assert SameStory(s.records[r], t.records[r]);
    }
  }

  lemma HasFrameKept(s: Broker, t: Broker, r: RecordId, k: nat)
    requires HasFrame(s, r, k) && s.sent <= t.sent
    ensures HasFrame(t, r, k)
  {
    var i :| 0 <= i < |s.sent| && s.sent[i].0 == r && Rank(s.sent[i].1) == k;
    assert t.sent[i] == s.sent[i];
  }

  lemma SilentTransitive(s: Broker, t: Broker, u: Broker)
    requires Silent(s, t) && Silent(t, u) && |t.sessions| >= |s.sessions|
    ensures Silent(s, u)
  {
    forall r | 0 <= r < |s.records| ensures SameStory(s.records[r], u.records[r]) {
      assert SameStory(s.records[r], t.records[r]) && SameStory(t.records[r], u.records[r]);
    }
    forall sid: SessionId | sid < |s.sessions| && s.Sess(sid).closed ensures u.Sess(sid).closed {
      assert t.Sess(sid).closed;
    }
  }

  lemma QuietSilent(s: Broker, t: Broker)
    requires Unmoved(s, t)
    ensures Silent(s, t)
  {
    forall r | 0 <= r < |s.records| ensures SameStory(s.records[r], t.records[r]) && (Open(t, r) ==> Open(s, r)) {
      assert t.records[r] == s.records[r].(payload := t.records[r].payload);
      var sid := s.records[r].session;
      assert sid < |s.sessions| ==> SameButConnection(s.sessions[sid], t.sessions[sid]);
    }
    forall sid: SessionId | sid < |s.sessions| && s.Sess(sid).closed ensures t.Sess(sid).closed {
      assert SameButConnection(s.sessions[sid], t.sessions[sid]);
    }
  }

  lemma SilentReflexive(s: Broker)
    ensures Silent(s, s)
  {
  }

  lemma RecordSilent(s: Broker, r: RecordId, rec: Record)
    requires SameStory(s.Rec(r), rec)
    ensures Silent(s, s.WithRec(r, rec))
  {
  }

  lemma SessionSilent(s: Broker, sid: SessionId, c: Session)
    requires s.Sess(sid).closed ==> c.closed
    ensures Silent(s, s.WithSess(sid, c))
  {
  }

  lemma OtherSilent(s: Broker, t: Broker)
    requires t.records == s.records && t.sessions == s.sessions && t.sent == s.sent && t.terminal == s.terminal
    ensures Silent(s, t)
  {
  }

  lemma ForgetSilent(s: Broker, r: RecordId)
    ensures Silent(s, Forget(s, r)) && |Forget(s, r).sessions| == |s.sessions|
  {
    hide Silent, Drop;
    SilentReflexive(s);
    var rec := s.Rec(r);
    var sid := rec.session;
    if sid in s.registered {
      var d := ReleaseReservation(s, r);
      ReleaseSilent(s, r);
      var e := d.WithRec(r, d.Rec(r).(payload := [], terminal := ClearPayload(d.Rec(r).terminal)));
      RecordSilent(d, r, d.Rec(r).(payload := [], terminal := ClearPayload(d.Rec(r).terminal)));
      SilentTransitive(s, d, e);
      var c := e.Sess(sid).(requests := Drop(e.Sess(sid).requests, r));
      SessionSilent(e, sid, c);
      SilentTransitive(s, e, e.WithSess(sid, c));
      OtherSilent(e.WithSess(sid, c), Forget(s, r));
      SilentTransitive(s, e.WithSess(sid, c), Forget(s, r));
    }
  }

  lemma ReleaseSilent(s: Broker, r: RecordId)
    ensures Silent(s, ReleaseReservation(s, r)) && |ReleaseReservation(s, r).sessions| == |s.sessions|
    ensures r < |s.records| ==> ReleaseReservation(s, r).Rec(r).reservationReleased
    ensures ReleaseReservation(s, r).Rec(r).session == s.Rec(r).session
  {
    hide Silent;
    SilentReflexive(s);
    var rec := s.Rec(r);
    if !rec.reservationReleased {
      var d := s.WithRec(r, rec.(reservationReleased := true));
      RecordSilent(s, r, rec.(reservationReleased := true));
      var c := d.Sess(rec.session);
      var e := d.WithSess(rec.session, c.(reservedOutcomes := c.reservedOutcomes - 1, reservedBytes := c.reservedBytes + (0 - rec.reserved)));
      SessionSilent(d, rec.session, c.(reservedOutcomes := c.reservedOutcomes - 1, reservedBytes := c.reservedBytes + (0 - rec.reserved)));
      SilentTransitive(s, d, e);
      OtherSilent(e, ReleaseReservation(s, r));
      SilentTransitive(s, e, ReleaseReservation(s, r));
    }
  }

  lemma {:induction false} ForgetDecidedSilent(s: Broker, todo: seq<RecordId>)
    ensures Silent(s, ForgetDecided(s, todo)) && |ForgetDecided(s, todo).sessions| == |s.sessions|
    decreases |todo|
  {
    hide Silent;
    SilentReflexive(s);
    if todo != [] {
      var t := if s.Decided(todo[0]) then Forget(s, todo[0]) else s;
      ForgetSilent(s, todo[0]);
      ForgetDecidedSilent(t, todo[1..]);
      SilentTransitive(s, t, ForgetDecided(t, todo[1..]));
    }
  }

  lemma PurgeSilent(s: Broker, sid: SessionId)
    ensures Silent(s, Purge(s, sid)) && Silent(s, PurgeIfClosed(s, sid))
    ensures |Purge(s, sid).sessions| == |s.sessions|
  {
    hide Silent;
    SilentReflexive(s);
    var t := ForgetDecided(s, s.Sess(sid).requests);
    ForgetDecidedSilent(s, s.Sess(sid).requests);
    OtherSilent(t, EndSession(t, sid));
    SilentTransitive(s, t, EndSession(t, sid));
  }

  // ---------- one frame ----------

  /** `f` may be the next frame of `r`, once everything but `r` is in order. */
  ghost predicate MayFollow(u: Broker, r: RecordId, f: Frame)
    requires r < |u.records|
  {
    var rec := u.records[r];
    && (Open(u, r) ==> HasFrame(u, r, 0) || f.AcceptedFrame?)
    && (Open(u, r) && rec.state == Running ==> HasFrame(u, r, 1) || f.RunningFrame?)
    && (Open(u, r) && rec.state.Terminal? ==> HasFrame(u, r, 2) || f.TerminalFrame?)
    && (f.RunningFrame? ==> rec.claimed)
    && (f.TerminalFrame? ==> rec.state == Terminal(f.verdict) && (!rec.reservationReleased ==> rec.terminal == Some(f)))
    && forall i :: 0 <= i < |u.sent| && u.sent[i].0 == r ==>
         Rank(u.sent[i].1) <= Rank(f) && (u.sent[i].1.TerminalFrame? ==> u.sent[i].1 == f)
  }

  ghost predicate NothingWithheldFrom(u: Broker, r: RecordId)
    requires r < |u.records|
  {
    Open(u, r) ==>
      && HasFrame(u, r, 0)
      && (u.records[r].state == Running ==> HasFrame(u, r, 1))
      && (u.records[r].state.Terminal? ==> HasFrame(u, r, 2))
  }

  /** All of the log invariant, except that `r` is still owed a frame. */
  ghost predicate LogBut(u: Broker, r: RecordId) {
    && FramesAgree(u) && FramesOrdered(u) && DecisionsKept(u)
    && forall x :: 0 <= x < |u.records| && x != r ==> NothingWithheldFrom(u, x)
  }

  lemma ToldLog(u: Broker, r: RecordId, f: Frame)
    requires r < |u.records| && LogBut(u, r) && MayFollow(u, r, f)
    ensures Log(Tell(u, r, f))
  {
    hide FramesOrdered, NothingWithheld;
    var t := Tell(u, r, f);
    PostFrame(u, u.records[r].session, [(r, f)]);
    ToldOrdered(u, r, f);
    ToldOwed(u, r, f);
    if t.sent != u.sent {
      assert t.sent == u.sent + [(r, f)];
    }
  }

  lemma ToldOrdered(u: Broker, r: RecordId, f: Frame)
    requires r < |u.records| && FramesOrdered(u) && MayFollow(u, r, f)
    ensures FramesOrdered(Tell(u, r, f))
  {
    hide OrderedFrames;
    var t := Tell(u, r, f);
    if t.sent != u.sent {
      assert t.sent == u.sent + [(r, f)];
      if !f.AcceptedFrame? {
        var i :| 0 <= i < |u.sent| && u.sent[i].0 == r && Rank(u.sent[i].1) == 0;
        assert u.sent[i] == (r, AcceptedFrame);
      }
      AppendedOrdered(u.sent, r, f);
    }
  }

  lemma AppendedOrdered(log: seq<(RecordId, Frame)>, r: RecordId, f: Frame)
    requires OrderedFrames(log) && (f.AcceptedFrame? || (r, AcceptedFrame) in log)
    requires forall i :: 0 <= i < |log| && log[i].0 == r ==>
               Rank(log[i].1) <= Rank(f) && (log[i].1.TerminalFrame? ==> log[i].1 == f)
    ensures OrderedFrames(log + [(r, f)])
  {
    var more := log + [(r, f)];
    assert forall x :: x in log ==> x in more;
    assert more[|log|] == (r, f);
  }

  lemma ToldOwed(u: Broker, r: RecordId, f: Frame)
    requires r < |u.records| && MayFollow(u, r, f)
    requires forall x :: 0 <= x < |u.records| && x != r ==> NothingWithheldFrom(u, x)
    ensures NothingWithheld(Tell(u, r, f))
  {
    var t := Tell(u, r, f);
    PostFrame(u, u.records[r].session, [(r, f)]);
    forall x | 0 <= x < |t.records| && Open(t, x)
      ensures HasFrame(t, x, 0) && (t.records[x].state == Running ==> HasFrame(t, x, 1))
      ensures t.records[x].state.Terminal? ==> HasFrame(t, x, 2)
    {
      assert Open(u, x);
      if x != r { assert NothingWithheldFrom(u, x); }
      if x == r { assert t.sent == u.sent + [(r, f)] && t.sent[|u.sent|] == (r, f); }
      forall k: nat | HasFrame(u, x, k) ensures HasFrame(t, x, k) { HasFrameKept(u, t, x, k); }
    }
  }

  // ---------- deciding ----------

  lemma DecideLog(s: Broker, r: RecordId, f: Frame)
    requires Log(s) && r < |s.records| && f.TerminalFrame?
    ensures Log(Decide(s, r, f))
  {
    hide FramesOrdered, NothingWithheld, DecisionsKept, FramesAgree, MayFollow, Tell;
    if !s.Decided(r) {
      var u := s.WithRec(r, s.Rec(r).(state := Terminal(f.verdict), payload := [], terminal := Some(f))).(terminal := s.terminal + 1);
      SameSentOrdered(s, u);
      OwedElsewhere(s, u, r);
      DecideAgrees(s, u, r, f);
      DecideMayFollow(s, u, r, f);
      ToldLog(u, r, f);
    }
  }

  lemma DecideAgrees(s: Broker, u: Broker, r: RecordId, f: Frame)
    requires FramesAgree(s) && DecisionsKept(s) && r < |s.records| && !s.Decided(r) && f.TerminalFrame? && u.sent == s.sent
    requires u.records == s.records[r := s.records[r].(state := Terminal(f.verdict), payload := [], terminal := Some(f))]
    ensures FramesAgree(u) && DecisionsKept(u)
  {
  }

  lemma DecideMayFollow(s: Broker, u: Broker, r: RecordId, f: Frame)
    requires FramesAgree(s) && NothingWithheld(s) && r < |s.records| && !s.Decided(r) && f.TerminalFrame?
    requires u.sent == s.sent && u.sessions == s.sessions
    requires u.records == s.records[r := s.records[r].(state := Terminal(f.verdict), payload := [], terminal := Some(f))]
    ensures MayFollow(u, r, f)
  {
    if HasFrame(s, r, 0) { HasFrameKept(s, u, r, 0); }
  }

  lemma OwedElsewhere(s: Broker, u: Broker, r: RecordId)
    requires NothingWithheld(s) && u.sent == s.sent && |s.records| <= |u.records| <= |s.records| + 1 && r < |u.records|
    requires |u.records| == |s.records| + 1 ==> r == |s.records|
    requires forall x :: 0 <= x < |s.records| && x != r ==>
               u.records[x].state == s.records[x].state && (Open(u, x) ==> Open(s, x))
    ensures forall x :: 0 <= x < |u.records| && x != r ==> NothingWithheldFrom(u, x)
  {
    forall x | 0 <= x < |u.records| && x != r ensures NothingWithheldFrom(u, x) {
      forall k: nat | HasFrame(s, x, k) ensures HasFrame(u, x, k) { HasFrameKept(s, u, x, k); }
    }
  }

  lemma GiveBackSilent(s: Broker, a: AttemptId)
    ensures Silent(s, GiveBack(s, a))
  {
  }

  // ---------- resending, running, admitting ----------

  /** What is resent for a retained request repeats the last frame that told its state. */
  lemma ResendLog(s: Broker, r: RecordId)
    requires Log(s) && ClaimsOk(s) && r < |s.records| && !s.records[r].reservationReleased
    ensures CurrentFrame(s, r).Some? && Log(Tell(s, r, CurrentFrame(s, r).value))
  {
    hide FramesOrdered, MayFollow, Tell;
    OwedElsewhere(s, s, r);
    ResendMayFollow(s, r);
    ToldLog(s, r, CurrentFrame(s, r).value);
  }

  lemma ResendMayFollow(s: Broker, r: RecordId)
    requires FramesAgree(s) && NothingWithheld(s) && DecisionsKept(s) && ClaimsOk(s) && r < |s.records| && !s.records[r].reservationReleased
    ensures CurrentFrame(s, r).Some? && MayFollow(s, r, CurrentFrame(s, r).value)
  {
    hide HasFrame;
    assert s.records[r].state == Running ==> s.records[r].claimed;
    assert s.records[r].state == Queued ==> !s.records[r].claimed;
  }

  lemma GrantedLog(s: Broker, r: RecordId, pid: int)
    requires Log(s) && ClaimsOk(s) && Paired(s) && r < |s.records| && !s.Decided(r) && s.records[r].future.Some?
    ensures Log(Granted(s, r, pid))
  {
    hide Tell, FramesOrdered, FramesAgree, NothingWithheld, DecisionsKept, MayFollow, ClaimsOk;
    var rec, a := s.records[r], s.records[r].future.value;
    var t := if rec.state == Queued
             then s.WithRec(r, rec.(state := Running, claimed := true)).(running := s.running + 1) else s;
    var u := t.WithAtt(a, t.Att(a).(pid := Some(pid)));
    if rec.state == Running { GrantedRecords(s, r); }
    SameSentOrdered(s, u);
    OwedElsewhere(s, u, r);
    GrantedMayFollow(s, u, r, pid);
    ToldLog(u, r, RunningFrame(Some(pid)));
  }

  lemma GrantedRecords(s: Broker, r: RecordId)
    requires ClaimsOk(s) && r < |s.records| && s.records[r].state == Running
    ensures s.records[r := s.records[r].(state := Running, claimed := true)] == s.records
  {
  }

  lemma GrantedMayFollow(s: Broker, u: Broker, r: RecordId, pid: int)
    requires FramesAgree(s) && NothingWithheld(s) && DecisionsKept(s) && r < |s.records| && !s.Decided(r)
    requires u.sent == s.sent && u.sessions == s.sessions
    requires u.records == s.records[r := s.records[r].(state := Running, claimed := true)]
    ensures MayFollow(u, r, RunningFrame(Some(pid))) && FramesAgree(u) && DecisionsKept(u)
  {
    if HasFrame(s, r, 0) { HasFrameKept(s, u, r, 0); }
  }

  lemma SameSentOrdered(s: Broker, t: Broker)
    requires FramesOrdered(s) && t.sent == s.sent
    ensures FramesOrdered(t)
  {
  }

  lemma AdmitLog(s: Broker, sid: SessionId, msg: Submission)
    requires Log(s)
    ensures Log(Admit(s, sid, msg))
  {
    hide Charge, FramesOrdered, Post, SchedulerSpec.Put;
    var rec, r, c := NewRecord(s, sid, msg), |s.records|, s.Sess(sid);
    var v := s.WithSess(sid, c.(requests := c.requests + [r]));
    ChargeFrame(v, sid, 1, rec.reserved);
    var u := Charge(v, sid, 1, rec.reserved)
               .(records := s.records + [rec], requests := s.requests + [r],
                 queue := SchedulerSpec.Put(s.queue, r, rec.priority, rec.principal, false), accepted := s.accepted + 1);
    ChargeClosed(v, u, sid, 1, rec.reserved);
    SameSentOrdered(s, u);
    forall x: RecordId | x < |s.records| && Open(u, x) ensures Open(s, x) {
      assert u.records[x] == s.records[x];
    }
    OwedElsewhere(s, u, r);
    ToldLog(u, r, AcceptedFrame);
    assert u.Rec(r).session == sid;
  }

  lemma ChargeClosed(s: Broker, t: Broker, sid: SessionId, outcomes: int, bytes: int)
    requires t.sessions == Charge(s, sid, outcomes, bytes).sessions
    ensures forall x: SessionId :: t.Sess(x).closed == s.Sess(x).closed
  {
  }
}
