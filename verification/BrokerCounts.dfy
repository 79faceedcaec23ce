/** Counters, sequence numbers and what a stopped server has decided. */
module BrokerCounts {
  import opened BrokerState
  import opened BrokerInvariant
  import opened BrokerWithin
  import opened BrokerDispatch
  import opened BrokerDispatchSteps
  import opened BrokerLog

  // ---------- decided requests ----------

  /** The terminal counter is the number of decided requests. */
  ghost predicate Tally(s: Broker) {
    s.terminal == CountDecided(s.records)
  }

  lemma {:induction false} SameDecided(xs: seq<Record>, ys: seq<Record>)
    requires |xs| == |ys| && forall r :: 0 <= r < |xs| ==> (xs[r].state.Terminal? <==> ys[r].state.Terminal?)
    ensures CountDecided(xs) == CountDecided(ys)
    decreases |xs|
  {
    if xs != [] { SameDecided(xs[..|xs| - 1], ys[..|ys| - 1]); }
  }

  lemma {:induction false} SameClaimed(xs: seq<Record>, ys: seq<Record>)
    requires |xs| == |ys| && forall r :: 0 <= r < |xs| ==> xs[r].claimed == ys[r].claimed
    ensures CountClaimed(xs) == CountClaimed(ys)
    decreases |xs|
  {
    if xs != [] { SameClaimed(xs[..|xs| - 1], ys[..|ys| - 1]); }
  }

  lemma {:induction false} OneMore(xs: seq<Record>, r: RecordId, rec: Record)
    requires r < |xs|
    ensures !xs[r].state.Terminal? && rec.state.Terminal? ==> CountDecided(xs[r := rec]) == CountDecided(xs) + 1
    ensures !xs[r].claimed && rec.claimed ==> CountClaimed(xs[r := rec]) == CountClaimed(xs) + 1
    decreases |xs|
  {
    var n := |xs| - 1;
    if r < n {
      OneMore(xs[..n], r, rec);
      assert xs[r := rec][..n] == xs[..n][r := rec];
    } else {
      assert xs[r := rec][..n] == xs[..n];
    }
  }

  lemma SilentTally(s: Broker, t: Broker)
    requires Silent(s, t) && Tally(s)
    ensures Tally(t)
  {
    forall r | 0 <= r < |s.records| ensures s.records[r].state == t.records[r].state {
      assert SameStory(s.records[r], t.records[r]);
    }
    SameDecided(s.records, t.records);
  }

  lemma DecideTally(s: Broker, r: RecordId, f: Frame)
    requires Tally(s) && r < |s.records| && f.TerminalFrame?
    ensures Tally(Decide(s, r, f))
  {
    if !s.Decided(r) {
      DecideFields(s, r, f);
      OneMore(s.records, r, Decide(s, r, f).records[r]);
    }
  }

  // ---------- the client's story: frames and decisions together ----------

  ghost predicate Story(s: Broker) {
    Log(s) && Tally(s)
  }

  lemma SilentStory(s: Broker, t: Broker)
    requires Silent(s, t) && Story(s)
    ensures Story(t)
  {
    SilentLog(s, t);
    SilentTally(s, t);
  }

  lemma DecideStory(s: Broker, r: RecordId, f: Frame)
    requires Story(s) && r < |s.records| && f.TerminalFrame?
    ensures Story(Decide(s, r, f))
  {
    hide Log, Tally;
    DecideLog(s, r, f);
    DecideTally(s, r, f);
  }

  lemma CompleteStory(s: Broker, a: AttemptId, o: Outcome)
    requires Story(s) && s.Att(a).record < |s.records|
    ensures Story(Complete(s, a, o))
  {
    hide Story, Decide, GiveBack, PurgeIfClosed, Silent;
    var r := s.Att(a).record;
    var d := Decide(s, r, FrameOf(o));
    DecideStory(s, r, FrameOf(o));
    GiveBackSilent(d, a);
    SilentStory(d, GiveBack(d, a));
    PurgeSilent(GiveBack(d, a), s.Rec(r).session);
    SilentStory(GiveBack(d, a), Complete(s, a, o));
  }

  lemma CancelFutureStory(s: Broker, r: RecordId)
    requires Story(s) && Paired(s) && r < |s.records|
    ensures Story(CancelFuture(s, r))
  {
    hide Story;
    if s.records[r].future.Some? {
      var a := s.records[r].future.value;
      var t := s.WithAtt(a, s.attempts[a].(future := CancelledFuture));
      OtherSilent(s, t);
      SilentStory(s, t);
      CompleteStory(t, a, OutcomeOf(CancelledFuture));
    }
  }

  lemma CancelQueuedStory(s: Broker, r: RecordId, f: Frame)
    requires Story(s) && Dispatch(s) && r < |s.records| && f.TerminalFrame?
    ensures Story(CancelQueued(s, r, f))
  {
    hide Story, Decide, CancelFuture, QueueExact, SlotsExact, AttemptsOk, ClaimsOk;
    OtherSilent(s, Dequeue(s, r));
    SilentStory(s, Dequeue(s, r));
    DecideStory(Dequeue(s, r), r, f);
    DecideDispatch(s, r, f);
    DecideWithin(Dequeue(s, r), r, f);
    SizesWithin(Dequeue(s, r), Decide(Dequeue(s, r), r, f));
    CancelFutureStory(Decide(Dequeue(s, r), r, f), r);
  }

  lemma SettleStory(s: Broker, r: RecordId, f: Frame)
    requires Story(s) && Dispatch(s) && r < |s.records| && f.TerminalFrame? && !Unstaged(s, r)
    ensures Story(Settle(s, r, f))
  {
    hide Story;
    NotInQueue(s, r);
    CancelQueuedStory(s, r, f);
  }

  lemma VisitStory(s: Broker, pass: Pass, r: RecordId)
    requires Story(s) && Dispatch(s) && r < |s.records|
    ensures Story(Visit(s, pass, r))
  {
    hide Story, CancelQueued, Settle;
    var ruling := Ruling(s, pass, r);
    if ruling.Some? {
      if s.records[r].state == Queued {
        CancelQueuedStory(s, r, ruling.value);
      } else {
        SettleStory(s, r, ruling.value);
      }
    }
  }

  lemma {:induction false} VisitAllStory(s: Broker, pass: Pass, todo: seq<RecordId>)
    requires Story(s) && Dispatch(s) && forall r :: r in todo ==> r < |s.records|
    ensures Story(VisitAll(s, pass, todo))
    decreases |todo|
  {
    hide Story, Dispatch, Visit;
    if todo != [] {
      assert todo[0] in todo && forall r :: r in todo[1..] ==> r in todo;
      VisitStory(s, pass, todo[0]);
      VisitDispatch(s, pass, todo[0]);
      VisitWithin(s, pass, todo[0]);
      SizesWithin(s, Visit(s, pass, todo[0]));
      VisitAllStory(Visit(s, pass, todo[0]), pass, todo[1..]);
    }
  }

  // ---------- names, claims and the stopped server ----------

  ghost predicate Rest(s: Broker) {
    Sequenced(s) && StoppedWhenDecided(s) && s.accepted == |s.records| && s.running == CountClaimed(s.records)
  }

  lemma WithinRest(s: Broker, t: Broker)
    requires Within(s, t) && Rest(s)
    ensures Rest(t)
  {
    forall r | 0 <= r < |s.records| ensures RecordWithin(s.records[r], t.records[r]) {
    }
    SameClaimed(s.records, t.records);
    WithinSequenced(s, t);
  }

  lemma WithinSequenced(s: Broker, t: Broker)
    requires Within(s, t) && Sequenced(s)
    ensures Sequenced(t)
  {
    forall r | 0 <= r < |t.records|
      ensures t.records[r].session < |t.sessions| && t.records[r].id.client == t.sessions[t.records[r].session].client
      ensures t.records[r].id.sequence <= t.sessions[t.records[r].session].watermark
    {
      assert RecordWithin(s.records[r], t.records[r]);
      assert SessionWithin(s.sessions[s.records[r].session], t.sessions[s.records[r].session]);
    }
    forall r1, r2 | 0 <= r1 < r2 < |t.records| && t.records[r1].session == t.records[r2].session
      ensures t.records[r1].id.sequence < t.records[r2].id.sequence
    {
      assert RecordWithin(s.records[r1], t.records[r1]) && RecordWithin(s.records[r2], t.records[r2]);
    }
  }

  /** The same names and states, and watermarks at least as high. */
  ghost predicate SameNames(s: Broker, t: Broker) {
    && |t.records| == |s.records| && |s.sessions| <= |t.sessions| && t.accepted == s.accepted && t.running == s.running
    && (t.server == s.server || t.server == Draining)
    && (forall r :: 0 <= r < |s.records| ==>
          && t.records[r].id == s.records[r].id && t.records[r].session == s.records[r].session
          && t.records[r].state == s.records[r].state && t.records[r].claimed == s.records[r].claimed)
    && (forall sid :: 0 <= sid < |s.sessions| ==>
          t.sessions[sid].client == s.sessions[sid].client && t.sessions[sid].watermark >= s.sessions[sid].watermark)
  }

  lemma RestFramed(s: Broker, t: Broker)
    requires SameNames(s, t) && Rest(s)
    ensures Rest(t)
  {
    SameClaimed(s.records, t.records);
  }
}
