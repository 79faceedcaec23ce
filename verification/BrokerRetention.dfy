/** The retention half of the broker's invariant: who keeps a record, and what is reserved for it. */
module BrokerRetention {
  import opened Options
  import opened Seqs
  import opened SchedulerSpec
  import opened BrokerState
  import opened BrokerInvariant
  import opened BrokerWithin
  import BrokerDispatch

  // ---------- frames ----------

  ghost predicate SameKeeping(x: Record, y: Record) {
    && x.session == y.session && x.reserved == y.reserved && x.reservationReleased == y.reservationReleased
    && (x.state.Terminal? ==> y.state.Terminal?)
  }

  ghost predicate SameAccount(x: Session, y: Session) {
    && x.client == y.client && x.requests == y.requests
    && x.reservedOutcomes == y.reservedOutcomes && x.reservedBytes == y.reservedBytes
  }

  /** Nothing the retention invariant speaks of differs, except that requests may have been decided. */
  ghost predicate SameRetention(s: Broker, t: Broker) {
    && |t.records| == |s.records| && |t.sessions| == |s.sessions| && t.config == s.config
    && t.registered == s.registered && t.clients == s.clients && t.requests == s.requests
    && t.reservedOutcomes == s.reservedOutcomes && t.reservedBytes == s.reservedBytes
    && (forall r :: 0 <= r < |s.records| ==> SameKeeping(s.records[r], t.records[r]))
    && (forall sid :: 0 <= sid < |s.sessions| ==> SameAccount(s.sessions[sid], t.sessions[sid]))
  }

  lemma {:induction false} SumFramed(xs: seq<Record>, ys: seq<Record>, rs: seq<RecordId>)
    requires |xs| <= |ys| && forall r :: 0 <= r < |xs| ==> xs[r].reserved == ys[r].reserved
    requires forall r :: r in rs ==> r < |xs|
    ensures SumReserved(xs, rs) == SumReserved(ys, rs)
    decreases |rs|
  {
    if rs != [] {
      assert rs[0] in rs && forall r :: r in rs[1..] ==> r in rs;
      SumFramed(xs, ys, rs[1..]);
    }
  }

  lemma RetentionFramed(s: Broker, t: Broker)
    requires SameRetention(s, t) && Kept(s)
    ensures Kept(t)
  {
    RetainedFramed(s, t);
    SumFramed(s.records, t.records, s.requests);
    forall sid | 0 <= sid < |t.sessions|
      ensures t.sessions[sid].reservedOutcomes == |t.sessions[sid].requests| <= t.config.maxOutcomesSession
      ensures t.sessions[sid].reservedBytes == SumReserved(t.records, t.sessions[sid].requests) <= t.config.maxBytesSession
    {
      assert SameAccount(s.sessions[sid], t.sessions[sid]);
      forall r | r in s.sessions[sid].requests ensures r < |s.records| { assert HeldBy(s, r, sid); }
      SumFramed(s.records, t.records, s.sessions[sid].requests);
    }
    assert forall sid :: 0 <= sid < |s.sessions| ==> t.Sess(sid).client == s.Sess(sid).client;
  }

  lemma RetainedFramed(s: Broker, t: Broker)
    requires SameRetention(s, t) && Retained(s)
    ensures Retained(t)
  {
    forall r | 0 <= r < |t.records| ensures RecordRetained(t, r) {
      assert RecordRetained(s, r) && SameKeeping(s.records[r], t.records[r]);
    }
    forall sid, r | 0 <= sid < |t.sessions| && r in t.sessions[sid].requests ensures HeldBy(t, r, sid) {
      assert SameAccount(s.sessions[sid], t.sessions[sid]) && HeldBy(s, r, sid);
    }
  }

  lemma SameTransitive(s: Broker, t: Broker, u: Broker)
    requires SameRetention(s, t) && SameRetention(t, u)
    ensures SameRetention(s, u)
  {
  }

  lemma PostSame(s: Broker, sid: SessionId, entry: seq<(RecordId, Frame)>)
    ensures SameRetention(s, Post(s, sid, entry))
  {
  }

  lemma DecideSame(s: Broker, r: RecordId, f: Frame)
    ensures SameRetention(s, Decide(s, r, f))
  {
    if !s.Decided(r) && f.TerminalFrame? {
      var t := s.WithRec(r, s.Rec(r).(state := Terminal(f.verdict), payload := [], terminal := Some(f))).(terminal := s.terminal + 1);
      assert SameRetention(s, t);
      PostSame(t, t.Rec(r).session, [(r, f)]);
      SameTransitive(s, t, Decide(s, r, f));
    }
  }

  // ---------- forgetting ----------

  lemma {:induction false} SumWithout(xs: seq<Record>, rs: seq<RecordId>, r: RecordId)
    requires r in rs && r < |xs|
    ensures SumReserved(xs, RemoveFirst(rs, r)) == SumReserved(xs, rs) - xs[r].reserved
    decreases |rs|
  {
    if rs[0] == r {
      assert RemoveFirst(rs, r) == rs[1..];
    } else {
      assert RemoveFirst(rs, r) == [rs[0]] + RemoveFirst(rs[1..], r);
      SumWithout(xs, rs[1..], r);
    }
  }

  lemma ForgetFields(s: Broker, r: RecordId)
    requires r < |s.records| && s.records[r].session < |s.sessions|
    requires s.records[r].session in s.registered && !s.records[r].reservationReleased
    ensures var t, rec, sid := Forget(s, r), s.records[r], s.records[r].session;
            var c := s.sessions[sid];
            && t.records == s.records[r := rec.(reservationReleased := true, payload := [], terminal := ClearPayload(rec.terminal))]
            && t.sessions == s.sessions[sid := c.(requests := Drop(c.requests, r), reservedOutcomes := c.reservedOutcomes - 1,
                                                  reservedBytes := c.reservedBytes - rec.reserved)]
            && t.requests == Drop(s.requests, r) && t.registered == s.registered && t.clients == s.clients && t.config == s.config
            && t.reservedOutcomes == s.reservedOutcomes - 1 && t.reservedBytes == s.reservedBytes - rec.reserved
  {
    hide Drop, ClearPayload;
  }

  /** Forgetting a decided request releases its reservation, once, everywhere. */
  lemma ForgetKept(s: Broker, r: RecordId)
    requires Kept(s) && r < |s.records| && s.Decided(r)
    ensures Kept(Forget(s, r))
    ensures s.records[r].session in s.registered ==> Forget(s, r).Rec(r).reservationReleased
  {
    assert RecordRetained(s, r);
    if s.records[r].session in s.registered {
      if s.records[r].reservationReleased {
        ForgetAgain(s, r);
        RetentionFramed(s, Forget(s, r));
      } else {
        ForgetFields(s, r);
        ForgetRetained(s, Forget(s, r), r);
        ForgetReserved(s, Forget(s, r), r);
      }
    }
  }

  lemma ForgetAgain(s: Broker, r: RecordId)
    requires Retained(s) && r < |s.records| && s.records[r].reservationReleased
    ensures SameRetention(s, Forget(s, r)) && Forget(s, r).Rec(r).reservationReleased
  {
    assert RecordRetained(s, r);
  }

  lemma ForgetRetained(s: Broker, t: Broker, r: RecordId)
    requires Retained(s) && ClientsExact(s) && r < |s.records| && s.records[r].state.Terminal? && !s.records[r].reservationReleased
    requires s.records[r].session < |s.sessions|
    requires var rec, sid := s.records[r], s.records[r].session;
             var c := s.sessions[sid];
             && t.records == s.records[r := t.Rec(r)] && SameKeeping(rec.(reservationReleased := true), t.Rec(r))
             && |t.sessions| == |s.sessions| && t.sessions == s.sessions[sid := t.sessions[sid]]
             && t.sessions[sid].requests == Drop(c.requests, r) && t.sessions[sid].client == c.client
             && t.requests == Drop(s.requests, r) && t.registered == s.registered && t.clients == s.clients
    ensures Retained(t) && ClientsExact(t)
  {
    assert RecordRetained(s, r);
    RemoveFirstElements(s.requests, r);
    RemoveFirstElements(s.sessions[s.records[r].session].requests, r);
    forall x | 0 <= x < |t.records| ensures RecordRetained(t, x) {
      assert RecordRetained(s, x);
    }
    forall sid, x | 0 <= sid < |t.sessions| && x in t.sessions[sid].requests ensures HeldBy(t, x, sid) {
      assert HeldBy(s, x, sid);
    }
    assert forall sid :: t.Sess(sid).client == s.Sess(sid).client;
  }

  lemma ForgetReserved(s: Broker, t: Broker, r: RecordId)
    requires Kept(s) && r < |s.records| && !s.records[r].reservationReleased
    requires s.records[r].session < |s.sessions|
    requires var rec, sid := s.records[r], s.records[r].session;
             var c := s.sessions[sid];
             && t.records == s.records[r := t.Rec(r)] && t.Rec(r).reserved == rec.reserved
             && |t.sessions| == |s.sessions| && t.sessions == s.sessions[sid := t.sessions[sid]]
             && t.sessions[sid].requests == Drop(c.requests, r) && t.config == s.config && t.requests == Drop(s.requests, r)
             && t.sessions[sid].reservedOutcomes == c.reservedOutcomes - 1
             && t.sessions[sid].reservedBytes == c.reservedBytes - rec.reserved
             && t.reservedOutcomes == s.reservedOutcomes - 1 && t.reservedBytes == s.reservedBytes - rec.reserved
    ensures ReservedExact(t)
  {
    assert RecordRetained(s, r);
    var mine := s.sessions[s.records[r].session].requests;
    SumWithout(s.records, s.requests, r);
    SumWithout(s.records, mine, r);
    SumFramed(s.records, t.records, RemoveFirst(s.requests, r));
    forall sid | 0 <= sid < |t.sessions|
      ensures t.sessions[sid].reservedOutcomes == |t.sessions[sid].requests| <= t.config.maxOutcomesSession
      ensures t.sessions[sid].reservedBytes == SumReserved(t.records, t.sessions[sid].requests) <= t.config.maxBytesSession
    {
      forall x | x in t.sessions[sid].requests ensures x < |s.records| { assert HeldBy(s, x, sid); }
      SumFramed(s.records, t.records, t.sessions[sid].requests);
    }
  }

  // ---------- purging ----------

  lemma KeptInRange(s: Broker, sid: SessionId)
    requires Retained(s)
    ensures forall r :: r in s.Sess(sid).requests ==> r < |s.records| && s.records[r].session == sid
  {
    forall r | r in s.Sess(sid).requests ensures r < |s.records| && s.records[r].session == sid {
      assert HeldBy(s, r, sid);
    }
  }

  lemma {:induction false} ForgetDecidedKept(s: Broker, sid: SessionId, todo: seq<RecordId>)
    requires Kept(s) && forall r :: r in todo ==> r < |s.records| && s.records[r].session == sid
    ensures Kept(ForgetDecided(s, todo)) && ForgetDecided(s, todo).registered == s.registered
    ensures sid in s.registered ==>
              forall r :: r in todo && s.Decided(r) ==> ForgetDecided(s, todo).Rec(r).reservationReleased
    decreases |todo|
  {
    if todo != [] {
      var r := todo[0];
      assert r in todo && forall x :: x in todo[1..] ==> x in todo;
      var t := if s.Decided(r) then Forget(s, r) else s;
      ForgetStep(s, t, sid, todo);
      ForgetDecidedKept(t, sid, todo[1..]);
      ForgetDecidedWithin(t, todo[1..]);
      assert RecordWithin(t.records[r], ForgetDecided(t, todo[1..]).records[r]);
    }
  }

  lemma ForgetStep(s: Broker, t: Broker, sid: SessionId, todo: seq<RecordId>)
    requires Kept(s) && todo != [] && forall r :: r in todo ==> r < |s.records| && s.records[r].session == sid
    requires t == if s.Decided(todo[0]) then Forget(s, todo[0]) else s
    ensures Kept(t) && t.registered == s.registered && |t.records| == |s.records|
    ensures forall x :: x in todo ==> t.records[x].session == sid && (s.Decided(x) ==> t.Decided(x))
    ensures sid in s.registered && s.Decided(todo[0]) ==> t.Rec(todo[0]).reservationReleased
  {
    var r := todo[0];
    assert r in todo;
    ForgetWithin(s, r);
    WithinReflexive(s);
    if s.Decided(r) { ForgetKept(s, r); }
    ForgetRegistered(s, r);
    hide Kept, Forget;
    forall x | x in todo ensures t.records[x].session == sid && (s.Decided(x) ==> t.Decided(x)) {
      assert RecordWithin(s.records[x], t.records[x]);
    }
  }

  lemma ForgetRegistered(s: Broker, r: RecordId)
    ensures Forget(s, r).registered == s.registered && Forget(s, r).clients == s.clients
  {
    hide Drop, ClearPayload, Charge;
    var rec := s.Rec(r);
    BrokerDispatch.ChargeFrame(s.WithRec(r, rec.(reservationReleased := true)), rec.session, -1, 0 - rec.reserved);
  }

  lemma EndSessionKept(s: Broker, sid: SessionId)
    requires Kept(s) && s.Sess(sid).requests == []
    ensures Kept(EndSession(s, sid))
  {
    var t := EndSession(s, sid);
    forall r | 0 <= r < |t.records| ensures RecordRetained(t, r) {
      assert RecordRetained(s, r);
    }
    forall x, r | 0 <= x < |t.sessions| && r in t.sessions[x].requests ensures HeldBy(t, r, x) {
      assert HeldBy(s, r, x);
    }
    assert forall x :: t.Sess(x) == s.Sess(x);
  }

  /** What a purge leaves of a session: exactly its undecided requests, or no session at all. */
  lemma PurgeKept(s: Broker, sid: SessionId)
    requires Kept(s)
    ensures Kept(Purge(s, sid))
    ensures forall r :: r in Purge(s, sid).Sess(sid).requests ==> r in s.Sess(sid).requests && !s.Decided(r)
    ensures sid in Purge(s, sid).registered ==> Purge(s, sid).Sess(sid).requests != []
  {
    hide ReservedExact, ClientsExact;
    var todo := s.Sess(sid).requests;
    var t := ForgetDecided(s, todo);
    KeptInRange(s, sid);
    ForgetDecidedKept(s, sid, todo);
    ForgetDecidedWithin(s, todo);
    assert sid < |s.sessions| ==> SessionWithin(s.sessions[sid], t.sessions[sid]);
    forall r | r in t.Sess(sid).requests ensures r in todo && !s.Decided(r) {
      assert HeldBy(t, r, sid) && RecordRetained(t, r) && RecordRetained(s, r);
    }
    if t.Sess(sid).requests == [] { EndSessionKept(t, sid); }
  }

  lemma GiveBackSame(s: Broker, a: AttemptId)
    ensures SameRetention(s, GiveBack(s, a))
  {
  }

  lemma CompleteKept(s: Broker, a: AttemptId, o: Outcome)
    requires Kept(s)
    ensures Kept(Complete(s, a, o))
  {
    hide Kept, SameRetention, Decide, GiveBack;
    var r := s.Att(a).record;
    var d := Decide(s, r, FrameOf(o));
    DecideSame(s, r, FrameOf(o));
    RetentionFramed(s, d);
    GiveBackSame(d, a);
    RetentionFramed(d, GiveBack(d, a));
    PurgeKept(GiveBack(d, a), s.Rec(r).session);
  }

  lemma CancelFutureKept(s: Broker, r: RecordId)
    requires Kept(s)
    ensures Kept(CancelFuture(s, r))
  {
    if s.Rec(r).future.Some? {
      var a := s.Rec(r).future.value;
      var t := s.WithAtt(a, s.Att(a).(future := CancelledFuture));
      RetentionFramed(s, t);
      CompleteKept(t, a, OutcomeOf(CancelledFuture));
    }
  }

  lemma SettleKept(s: Broker, r: RecordId, f: Frame)
    requires Kept(s)
    ensures Kept(Settle(s, r, f))
  {
    DecideSame(s, r, f);
    RetentionFramed(s, Decide(s, r, f));
    CancelFutureKept(Decide(s, r, f), r);
  }

  lemma CancelQueuedKept(s: Broker, r: RecordId, f: Frame)
    requires Kept(s)
    ensures Kept(CancelQueued(s, r, f))
  {
    RetentionFramed(s, Dequeue(s, r));
    SettleKept(Dequeue(s, r), r, f);
  }

  lemma {:induction false} VisitAllKept(s: Broker, pass: Pass, todo: seq<RecordId>)
    requires Kept(s)
    ensures Kept(VisitAll(s, pass, todo))
    decreases |todo|
  {
    if todo != [] {
      var r := todo[0];
      if Ruling(s, pass, r).Some? {
        CancelQueuedKept(s, r, Ruling(s, pass, r).value);
        SettleKept(s, r, Ruling(s, pass, r).value);
      }
      VisitAllKept(Visit(s, pass, r), pass, todo[1..]);
    }
  }

  // ---------- joining ----------

  lemma HandshakenKept(s: Broker, client: string, principal: Principal, offered: nat)
    requires Kept(s)
    ensures Kept(Handshaken(s, client, principal, offered))
  {
    var t := Handshaken(s, client, principal, offered);
    if t != s { NewSessionKept(s, t, |s.sessions|); }
  }

  lemma NewSessionKept(s: Broker, t: Broker, sid: SessionId)
    requires Kept(s) && sid == |s.sessions| && |t.sessions| == sid + 1
    requires t == s.(sessions := t.sessions, registered := t.registered, clients := t.clients)
    requires t.sessions == s.sessions + [t.sessions[sid]] && t.registered == s.registered + {sid}
    requires t.sessions[sid].client !in s.clients && t.clients == s.clients[t.sessions[sid].client := sid]
    requires t.sessions[sid].requests == [] && t.sessions[sid].reservedOutcomes == t.sessions[sid].reservedBytes == 0
    ensures Kept(t)
  {
    forall r | 0 <= r < |t.records| ensures RecordRetained(t, r) {
      assert RecordRetained(s, r);
    }
    forall x, r | 0 <= x < |t.sessions| && r in t.sessions[x].requests ensures HeldBy(t, r, x) {
      assert HeldBy(s, r, x);
    }
    assert forall x: SessionId :: x < sid ==> t.Sess(x) == s.Sess(x);
  }

  /** An admission into a registered session reserves for exactly one more record. */
  lemma AdmitKept(s: Broker, sid: SessionId, msg: Submission)
    requires Kept(s) && sid in s.registered && HasRoom(s, sid)
    ensures Kept(Admit(s, sid, msg))
  {
    hide Retained, ReservedExact, ClientsExact, HasRoom, Admit, SameRetention;
    RegisteredInRange(s, sid);
    var rec, r, c, t := NewRecord(s, sid, msg), |s.records|, s.sessions[sid], Admit(s, sid, msg);
    AdmitAccounts(s, sid, msg);
    var u := s.(records := s.records + [rec], requests := s.requests + [r],
                reservedOutcomes := s.reservedOutcomes + 1, reservedBytes := s.reservedBytes + rec.reserved,
                sessions := s.sessions[sid := c.(requests := c.requests + [r], reservedOutcomes := c.reservedOutcomes + 1,
                                                 reservedBytes := c.reservedBytes + rec.reserved)]);
    AdmitRetained(s, u, sid);
    AdmitReserved(s, u, sid);
    RetentionFramed(u, t);
  }

  lemma RegisteredInRange(s: Broker, sid: SessionId)
    requires Retained(s) && sid in s.registered
    ensures sid < |s.sessions|
  {
  }

  lemma AdmitAccounts(s: Broker, sid: SessionId, msg: Submission)
    requires sid < |s.sessions|
    ensures var rec, r, c, t := NewRecord(s, sid, msg), |s.records|, s.sessions[sid], Admit(s, sid, msg);
            SameRetention(s.(records := s.records + [rec], requests := s.requests + [r],
                reservedOutcomes := s.reservedOutcomes + 1, reservedBytes := s.reservedBytes + rec.reserved,
                sessions := s.sessions[sid := c.(requests := c.requests + [r], reservedOutcomes := c.reservedOutcomes + 1,
                                                 reservedBytes := c.reservedBytes + rec.reserved)]), t)
  {
    hide Post;
    var rec, r, c := NewRecord(s, sid, msg), |s.records|, s.sessions[sid];
    var v := Charge(s.WithSess(sid, c.(requests := c.requests + [r])), sid, 1, rec.reserved)
               .(records := s.records + [rec], requests := s.requests + [r],
                 queue := SchedulerSpec.Put(s.queue, r, rec.priority, rec.principal, false), accepted := s.accepted + 1);
    PostSame(v, sid, [(r, AcceptedFrame)]);
  }

  lemma AdmitRetained(s: Broker, t: Broker, sid: SessionId)
    requires Retained(s) && ClientsExact(s) && sid in s.registered && |t.records| == |s.records| + 1
    requires var r, rec := |s.records|, t.records[|s.records|];
             && t.records == s.records + [rec] && rec.session == sid && !rec.reservationReleased
             && t.requests == s.requests + [r] && t.registered == s.registered && t.clients == s.clients
             && |t.sessions| == |s.sessions| && t.sessions == s.sessions[sid := t.sessions[sid]]
             && t.sessions[sid].requests == s.sessions[sid].requests + [r] && t.sessions[sid].client == s.sessions[sid].client
    ensures Retained(t) && ClientsExact(t)
  {
    var r := |s.records|;
    forall x, y | 0 <= x < |t.sessions| && y in t.sessions[x].requests ensures HeldBy(t, y, x) {
      assert y in s.sessions[x].requests ==> HeldBy(s, y, x);
    }
    assert r !in s.requests;
    assert r in s.sessions[sid].requests ==> HeldBy(s, r, sid);
    forall x | 0 <= x < |t.records| ensures RecordRetained(t, x) {
      if x < r { assert RecordRetained(s, x); }
    }
    assert forall x: SessionId :: t.Sess(x).client == s.Sess(x).client;
  }

  lemma {:induction false} SumAppend(xs: seq<Record>, rs: seq<RecordId>, r: RecordId)
    requires r < |xs|
    ensures SumReserved(xs, rs + [r]) == SumReserved(xs, rs) + xs[r].reserved
    decreases |rs|
  {
    if rs == [] {
      assert rs + [r] == [r];
      assert SumReserved(xs, [r][1..]) == 0;
    } else {
      assert (rs + [r])[1..] == rs[1..] + [r];
      SumAppend(xs, rs[1..], r);
    }
  }

  lemma AdmitReserved(s: Broker, t: Broker, sid: SessionId)
    requires Kept(s) && sid in s.registered && HasRoom(s, sid) && |t.records| == |s.records| + 1
    requires var r, rec := |s.records|, t.records[|s.records|];
             && t.records == s.records + [rec] && rec.reserved == s.sessions[sid].maxResult && t.config == s.config
             && t.requests == s.requests + [r] && t.reservedOutcomes == s.reservedOutcomes + 1
             && t.reservedBytes == s.reservedBytes + rec.reserved
             && |t.sessions| == |s.sessions| && t.sessions == s.sessions[sid := t.sessions[sid]]
             && t.sessions[sid].requests == s.sessions[sid].requests + [r]
             && t.sessions[sid].reservedOutcomes == s.sessions[sid].reservedOutcomes + 1
             && t.sessions[sid].reservedBytes == s.sessions[sid].reservedBytes + rec.reserved
    ensures ReservedExact(t)
  {
    var r := |s.records|;
    SumFramed(s.records, t.records, s.requests);
    SumAppend(t.records, s.requests, r);
    forall x | 0 <= x < |t.sessions|
      ensures t.sessions[x].reservedOutcomes == |t.sessions[x].requests| <= t.config.maxOutcomesSession
      ensures t.sessions[x].reservedBytes == SumReserved(t.records, t.sessions[x].requests) <= t.config.maxBytesSession
    {
      KeptInRange(s, x);
      SumFramed(s.records, t.records, s.sessions[x].requests);
      SumAppend(t.records, s.sessions[x].requests, r);
    }
  }
}
