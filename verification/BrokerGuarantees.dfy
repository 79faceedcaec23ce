/** What the broker promises, stated over every reachable state and every run from it. */
module BrokerGuarantees {
  import opened Options
  import opened SchedulerSpec
  import opened BrokerState
  import opened BrokerInvariant
  import opened BrokerWithin
  import opened BrokerDispatch
  import opened BrokerDispatchSteps
  import opened BrokerRetention
  import opened BrokerDeparture
  import opened BrokerDepartureSteps
  import opened BrokerCounts
  import opened BrokerSteps
  import opened BrokerForward
  import opened BrokerDecides
  import opened BrokerTheorems

  // ---------- cancelled means never run ----------

  /** Whatever decides a request leaves its claim as it was. */
  lemma DecisionKeepsClaim(s: Broker, action: Action, r: RecordId)
    requires Invariant(s) && r < |s.records| && !s.Decided(r) && Decides(s, action, r)
    ensures r < |Next(s, action).records| && Next(s, action).records[r].claimed == s.records[r].claimed
  {
    hide Invariant, Dispatch, Paired, AttemptsOk, ClaimsOk, Kept, Retained, PayloadsFit, Sound, Departed, Story, Sequenced, Rest,
         Next, Decides, ListsOk;
    InvariantParts(s);
    if action.Claim? || action.GiveUp? || action.Notify? {
      EndKeepsClaim(s, action, r);
    } else {
      PassKeepsClaim(s, action, r);
    }
  }

  lemma EndKeepsClaim(s: Broker, action: Action, r: RecordId)
    requires r < |s.records| && Decides(s, action, r) && (action.Claim? || action.GiveUp? || action.Notify?)
    ensures r < |Next(s, action).records| && Next(s, action).records[r].claimed == s.records[r].claimed
  {
    hide Within, Complete, Settle;
    match action
    case Claim(a, pid) =>
      SettleWithin(s, r, Because(QueueTimedOut, "queue_timeout"));
      ClaimWithin(s, Settle(s, r, Because(QueueTimedOut, "queue_timeout")), r);
    case GiveUp(message) =>
      CompleteWithin(s, s.lane.a, Raised(message));
      ClaimWithin(s, Complete(s, s.lane.a, Raised(message)), r);
    case Notify(a) =>
      CompleteWithin(s, a, OutcomeOf(s.Att(a).future));
      ClaimWithin(s, Next(s, action), r);
  }

  lemma PassKeepsClaim(s: Broker, action: Action, r: RecordId)
    requires ListsOk(s) && r < |s.records| && Decides(s, action, r) && !action.Claim? && !action.GiveUp? && !action.Notify?
    ensures r < |Next(s, action).records| && Next(s, action).records[r].claimed == s.records[r].claimed
  {
    hide Within, CancelledBy, GroupCancelledBy, VisitAll, Purge, ShutdownRound, PastQueueTime, ListsOk;
    var t := Next(s, action);
    match action
    case Cancel(sid, id, hard, authorized) =>
      CancelledByForward(s, sid, id, hard, authorized);
      ClaimWithin(s, t, r);
    case CancelGroup(sid, group, killable) =>
      GroupForward(s, sid, group, killable);
      ClaimWithin(s, t, r);
    case Disconnect(sid) =>
      var c := s.Sess(sid);
      var u := s.WithSess(sid, c.(closed := true, disconnected := true));
      ListsHere(s, sid);
      VisitAllWithin(u, DisconnectPass, c.requests);
      PurgeWithin(VisitAll(u, DisconnectPass, c.requests), sid);
      WithinTransitive(u, VisitAll(u, DisconnectPass, c.requests), t);
      ClaimWithin(u, t, r);
    case Expire =>
      ListsHere(s, 0);
      VisitAllWithin(s, ExpirePass, s.requests);
      ClaimWithin(s, t, r);
    case FinishShutdown =>
      ShutdownKeepsClaim(s, r);
  }

  lemma ListsHere(s: Broker, sid: SessionId)
    requires ListsOk(s)
    ensures (forall r :: r in s.requests ==> r < |s.records|) && forall r :: r in s.Sess(sid).requests ==> r < |s.records|
  {
  }

  lemma ClaimWithin(s: Broker, t: Broker, r: RecordId)
    requires Within(s, t) && r < |s.records|
    ensures r < |t.records| && t.records[r].claimed == s.records[r].claimed
  {
    assert RecordWithin(s.records[r], t.records[r]);
  }

  lemma ShutdownKeepsClaim(s: Broker, r: RecordId)
    requires ListsOk(s) && r < |s.records|
    ensures r < |ShutdownRound(s).records| && ShutdownRound(s).records[r].claimed == s.records[r].claimed
  {
    hide Within, VisitAll;
    var t := if s.shutdownCancel then VisitAll(s, ShutdownCancelPass, s.requests) else s;
    VisitAllWithin(s, ShutdownCancelPass, s.requests);
    WithinReflexive(s);
    SizesWithin(s, t);
    ClaimWithin(s, t, r);
    VisitAllWithin(t, ShutdownDeadlinePass, t.requests);
    ClaimWithin(t, VisitAll(t, ShutdownDeadlinePass, t.requests), r);
  }

  /** A request decided while queued is never written to a worker and never reported running, whatever happens later. */
  lemma CancelledBeforeClaimNeverRuns(s: Broker, action: Action, r: RecordId, later: seq<Action>)
    requires Invariant(s) && Orderly(s, action) && r < |s.records| && s.records[r].state == Queued
    requires Next(s, action).Decided(r) && OrderlyRun(Next(s, action), later)
    ensures var u := Run(Next(s, action), later);
            && r !in u.piped
            && u.Rec(r).state == Next(s, action).Rec(r).state
            && forall i :: 0 <= i < |u.sent| && u.sent[i].0 == r ==> !u.sent[i].1.RunningFrame?
  {
    hide Invariant, Forward, Next, Decides, Run;
    InvariantParts(s);
    StepKeepsInvariant(s, action);
    var t := Next(s, action);
    RunKeepsInvariant(t, later);
    StepDecides(s, action, r);
    DecisionKeepsClaim(s, action, r);
    UnclaimedStays(t, Run(t, later), r);
  }

  lemma UnclaimedStays(t: Broker, u: Broker, r: RecordId)
    requires Invariant(u) && Forward(t, u) && r < |t.records| && t.Decided(r) && !t.records[r].claimed
    ensures r !in u.piped && u.Rec(r).state == t.Rec(r).state
    ensures forall i :: 0 <= i < |u.sent| && u.sent[i].0 == r ==> !u.sent[i].1.RunningFrame?
  {
    assert RecordForward(t.records[r], u.records[r]);
  }

  // ---------- a claim wins ----------

  /** The steps aimed at `r` that may end it once it runs are excluded; whatever happens to other requests is allowed. */
  ghost predicate Harmless(s: Broker, action: Action, r: RecordId) {
    match action
    case Cancel(sid, id, hard, authorized) => !(hard && authorized) || Find(s, s.Sess(sid).requests, id) != Some(r)
    case CancelGroup(sid, group, killable) => r !in killable || s.Rec(r).group != Some(group) || r !in s.Sess(sid).requests
    case Disconnect(sid) => s.config.policy != TerminateWork || s.Sess(sid).cleanClose || r !in s.Sess(sid).requests
    case FinishShutdown => s.shutdownDeadline.None? || s.now < s.shutdownDeadline.value
    case Notify(a) => s.Att(a).record != r
    case _ => true
  }

  ghost predicate HarmlessRun(s: Broker, actions: seq<Action>, r: RecordId)
    decreases |actions|
  {
    actions == [] || (Harmless(s, actions[0], r) && Orderly(s, actions[0]) && HarmlessRun(Next(s, actions[0]), actions[1..], r))
  }

  lemma HarmlessStep(s: Broker, action: Action, r: RecordId)
    requires Invariant(s) && Orderly(s, action) && r < |s.records| && s.records[r].state == Running && Harmless(s, action, r)
    ensures Invariant(Next(s, action)) && r < |Next(s, action).records| && Next(s, action).records[r].state == Running
  {
    hide Invariant, Dispatch, Kept, Retained, ListsOk, PayloadsFit, Sound, Departed, Story, Sequenced, Rest, Next;
    InvariantParts(s);
    StepDecides(s, action, r);
    StepKeepsInvariant(s, action);
    var t := Next(s, action);
    InvariantParts(t);
    assert RecordForward(s.records[r], t.records[r]);
    if action.GiveUp? && s.lane.Broken? { assert AttemptOk(s, s.lane.a); }
  }

  /** Once claimed, a request outlives every soft cancel, queue expiry, retry after a broken pipe, and all that is aimed at others. */
  lemma {:induction false} ClaimWins(s: Broker, actions: seq<Action>, r: RecordId)
    requires Invariant(s) && r < |s.records| && s.records[r].state == Running && HarmlessRun(s, actions, r)
    ensures Run(s, actions).Rec(r).state == Running
    decreases |actions|
  {
    hide Invariant, Next, Harmless, Orderly;
    if actions != [] {
      HarmlessStep(s, actions[0], r);
      ClaimWins(Next(s, actions[0]), actions[1..], r);
    }
  }

  // ---------- at most one admission ----------

  /** No two retained requests share an id, so the source may index them by it. */
  lemma RetainedIdsUnique(s: Broker, r1: RecordId, r2: RecordId)
    requires Invariant(s) && r1 in s.requests && r2 in s.requests && s.Rec(r1).id == s.Rec(r2).id
    ensures r1 == r2
  {
    assert RecordRetained(s, r1) && RecordRetained(s, r2);
  }

  /** A second SUBMIT of a retained request resends its present state and changes nothing else. */
  lemma ResubmitOnlyResends(s: Broker, sid: SessionId, msg: Submission, authorized: bool, r: RecordId)
    requires Invariant(s) && !s.Sess(sid).disconnected && r in s.Sess(sid).requests && s.Rec(r).id == msg.id && s.Rec(r).digest == msg.digest
    ensures CurrentFrame(s, r).Some?
    ensures var t := Submitted(s, sid, msg, authorized);
            && t == s.(sessions := t.sessions, sent := t.sent)
            && t == Post(s, sid, [(r, CurrentFrame(s, r).value)])
  {
    hide Dispatch, Log, Counted, PayloadsFit, Departed, ReservedExact;
    InvariantParts(s);
    FindIn(s, s.Sess(sid).requests, msg.id);
    assert HeldBy(s, r, sid);
    var x := Find(s, s.Sess(sid).requests, msg.id).value;
    assert HeldBy(s, x, sid);
    SessionIdsUnique(s, sid, r, x);
    CurrentFrameKnown(s, r);
    PostFrame(s, sid, [(r, CurrentFrame(s, r).value)]);
  }

  lemma SessionIdsUnique(s: Broker, sid: SessionId, r1: RecordId, r2: RecordId)
    requires Sequenced(s) && r1 < |s.records| && r2 < |s.records| && s.records[r1].session == s.records[r2].session
    requires s.records[r1].id == s.records[r2].id
    ensures r1 == r2
  {
  }

  lemma CurrentFrameKnown(s: Broker, r: RecordId)
    requires Invariant(s) && r < |s.records|
    ensures CurrentFrame(s, r).Some?
    ensures s.records[r].session < |s.sessions| && s.records[r].id.client == s.Sess(s.records[r].session).client
  {
  }

  /** An id that was admitted and has been released is refused as stale for good: it never becomes a request again. */
  lemma ReleasedIdStaysStale(s: Broker, r: RecordId, actions: seq<Action>, msg: Submission, authorized: bool)
    requires Invariant(s) && OrderlyRun(s, actions) && r < |s.records| && s.records[r].reservationReleased && msg.id == s.records[r].id
    ensures var t := Run(s, actions);
            var sid := s.records[r].session;
            Submitted(t, sid, msg, authorized) in {t, Post(t, sid, [])} && Submitted(t, sid, msg, authorized).records == t.records
  {
    hide Invariant, Run;
    RunKeepsInvariant(s, actions);
    var t := Run(s, actions);
    assert RecordForward(s.records[r], t.records[r]);
    StaleHere(t, r, msg, authorized);
  }

  lemma StaleHere(t: Broker, r: RecordId, msg: Submission, authorized: bool)
    requires Invariant(t) && r < |t.records| && t.records[r].reservationReleased && msg.id == t.records[r].id
    ensures var sid := t.records[r].session;
            Submitted(t, sid, msg, authorized) in {t, Post(t, sid, [])} && Submitted(t, sid, msg, authorized).records == t.records
  {
    hide Dispatch, Log, Counted, PayloadsFit, Departed, ReservedExact;
    InvariantParts(t);
    var sid := t.records[r].session;
    FindIn(t, t.Sess(sid).requests, msg.id);
    PostFrame(t, sid, []);
    assert RecordRetained(t, r);
    forall x | x in t.Sess(sid).requests ensures t.Rec(x).id != msg.id {
      assert HeldBy(t, x, sid);
      if t.Rec(x).id == msg.id { SessionIdsUnique(t, sid, r, x); }
    }
  }

  // ---------- what a client sees of a request ----------

  ghost function FramesOf(log: seq<(RecordId, Frame)>, r: RecordId): (fs: seq<Frame>)
    ensures forall f :: f in fs ==> (r, f) in log
  {
    if log == [] then []
    else
      var n := |log| - 1;
      assert forall e :: e in log[..n] ==> e in log;
      FramesOf(log[..n], r) + if log[n].0 == r then [log[n].1] else []
  }

  /** ACCEPTED first, then RUNNING, then copies of one terminal frame; never back. */
  ghost predicate WellTold(fs: seq<Frame>) {
    && (fs != [] ==> fs[0] == AcceptedFrame)
    && forall i, j :: 0 <= i < j < |fs| ==> Rank(fs[i]) <= Rank(fs[j]) && (fs[i].TerminalFrame? ==> fs[j] == fs[i])
  }

  lemma {:induction false} OrderedIsWellTold(log: seq<(RecordId, Frame)>, r: RecordId)
    requires OrderedFrames(log)
    ensures WellTold(FramesOf(log, r))
    decreases |log|
  {
    hide WellTold, OrderedFrames;
    if log == [] {
      NothingTold();
    } else {
      var n := |log| - 1;
      OrderedPrefix(log);
      OrderedIsWellTold(log[..n], r);
      var before := FramesOf(log[..n], r);
      if log[n].0 == r {
        EarlierFrames(log, r);
        if before == [] { FirstAccepted(log, r); }
        ToldOn(before, log[n].1);
      } else {
        assert before + [] == before;
      }
    }
  }

  lemma EarlierFrames(log: seq<(RecordId, Frame)>, r: RecordId)
    requires OrderedFrames(log) && log != [] && log[|log| - 1].0 == r
    ensures forall f :: f in FramesOf(log[..|log| - 1], r) ==>
              Rank(f) <= Rank(log[|log| - 1].1) && (f.TerminalFrame? ==> f == log[|log| - 1].1)
  {
    var n := |log| - 1;
    forall f | f in FramesOf(log[..n], r) ensures Rank(f) <= Rank(log[n].1) && (f.TerminalFrame? ==> f == log[n].1) {
      var i :| 0 <= i < n && log[..n][i] == (r, f);
      assert log[i] == (r, f);
    }
  }

  lemma NothingTold()
    ensures WellTold([])
  {
  }

  lemma ToldOn(fs: seq<Frame>, f: Frame)
    requires WellTold(fs) && (fs == [] ==> f == AcceptedFrame)
    requires forall g :: g in fs ==> Rank(g) <= Rank(f) && (g.TerminalFrame? ==> g == f)
    ensures WellTold(fs + [f])
  {
  }

  lemma OrderedPrefix(log: seq<(RecordId, Frame)>)
    requires OrderedFrames(log) && log != []
    ensures OrderedFrames(log[..|log| - 1])
  {
    var n := |log| - 1;
    forall j | 0 <= j < n ensures (log[j].0, AcceptedFrame) in log[..n] {
      var i :| 0 <= i < |log| && log[i] == (log[j].0, AcceptedFrame);
      assert log[..n][if i < n then i else j] == (log[j].0, AcceptedFrame);
    }
  }

  lemma {:induction false} Mentioned(log: seq<(RecordId, Frame)>, r: RecordId, f: Frame)
    requires (r, f) in log
    ensures f in FramesOf(log, r)
    decreases |log|
  {
    var n := |log| - 1;
    if (r, f) in log[..n] { Mentioned(log[..n], r, f); } else { assert log == log[..n] + [log[n]]; }
  }

  lemma FirstAccepted(log: seq<(RecordId, Frame)>, r: RecordId)
    requires OrderedFrames(log) && log != [] && log[|log| - 1].0 == r && FramesOf(log[..|log| - 1], r) == []
    ensures log[|log| - 1].1 == AcceptedFrame
  {
    var n := |log| - 1;
    assert (log[n].0, AcceptedFrame) in log;
    if (r, AcceptedFrame) in log[..n] {
      Mentioned(log[..n], r, AcceptedFrame);
    } else {
      assert log == log[..n] + [log[n]];
    }
  }

  /** The frames of every request form a well-told story that ends, on an open connection, in the request's state. */
  lemma FrameTrace(s: Broker, r: RecordId)
    requires Invariant(s) && r < |s.records|
    ensures WellTold(FramesOf(s.sent, r))
    ensures Open(s, r) ==>
              && AcceptedFrame in FramesOf(s.sent, r)
              && (s.records[r].state == Running ==> exists f :: f in FramesOf(s.sent, r) && f.RunningFrame?)
              && (s.Decided(r) ==> exists f :: f in FramesOf(s.sent, r) && f.TerminalFrame? && f.verdict == s.records[r].state.verdict)
  {
    hide Dispatch, Retention, Departed, Sequenced, OrderedFrames;
    OrderedIsWellTold(s.sent, r);
    if Open(s, r) {
      Shown(s, r, 0);
      if s.records[r].state == Running { Shown(s, r, 1); }
      if s.Decided(r) { Shown(s, r, 2); }
    }
  }

  lemma Shown(s: Broker, r: RecordId, k: nat)
    requires FramesAgree(s) && HasFrame(s, r, k)
    ensures exists f :: f in FramesOf(s.sent, r) && Rank(f) == k && (f.TerminalFrame? ==> s.Rec(r).state == Terminal(f.verdict))
  {
    var i :| 0 <= i < |s.sent| && s.sent[i].0 == r && Rank(s.sent[i].1) == k;
    assert (r, s.sent[i].1) in s.sent;
    Mentioned(s.sent, r, s.sent[i].1);
  }

  ghost function CountLive(records: seq<Record>): nat {
    if records == [] then 0
    else CountLive(records[..|records| - 1]) + if records[|records| - 1].state.Terminal? then 0 else 1
  }

  lemma {:induction false} LiveOrDecided(records: seq<Record>)
    ensures |records| == CountDecided(records) + CountLive(records)
  {
    if records != [] { LiveOrDecided(records[..|records| - 1]); }
  }

  /** Every accepted request is either counted as terminal or live, and a live one is retained. */
  lemma NoRequestIsLost(s: Broker)
    requires Invariant(s)
    ensures s.accepted == s.terminal + CountLive(s.records)
    ensures forall r :: 0 <= r < |s.records| && !s.Decided(r) ==> r in s.requests && r in s.Sess(s.records[r].session).requests
  {
    LiveOrDecided(s.records);
    forall r | 0 <= r < |s.records| && !s.Decided(r) ensures r in s.requests && r in s.Sess(s.records[r].session).requests {
      assert RecordRetained(s, r);
    }
  }

  // ---------- draining ----------

  /** From the moment the server stops, every request it ever admitted is decided and none is admitted any more. */
  lemma DrainComplete(s: Broker, actions: seq<Action>)
    requires Invariant(s) && OrderlyRun(s, actions) && (s.server == Stopping || s.server == Stopped)
    ensures var t := Run(s, actions);
            && (t.server == Stopping || t.server == Stopped)
            && |t.records| == |s.records|
            && forall r :: 0 <= r < |t.records| ==> t.Decided(r) && t.records[r].state == s.records[r].state
  {
    hide Dispatch, Retention, Departed, Log, Sequenced, Run;
    RunKeepsInvariant(s, actions);
    var t := Run(s, actions);
    forall r | 0 <= r < |t.records| ensures t.Decided(r) && t.records[r].state == s.records[r].state {
      assert RecordForward(s.records[r], t.records[r]);
    }
  }

  // ---------- disconnecting ----------

  /** Right after an unclean disconnect a session keeps running requests only, and under `terminate` it is gone. */
  lemma DisconnectReleases(s: Broker, sid: SessionId)
    requires Invariant(s) && !s.Sess(sid).disconnected && !s.Sess(sid).cleanClose && s.config.policy != ContinueWork
    ensures var u := Disconnected(s, sid);
            && (forall r :: r in u.Sess(sid).requests ==> u.Rec(r).state == Running)
            && (s.config.policy == TerminateWork ==> u.Sess(sid).requests == [] && sid !in u.registered)
  {
    hide Invariant, Sound;
    InvariantParts(s);
    DisconnectedHome(s, sid);
    DisconnectedFlags(s, sid);
    var u := Disconnected(s, sid);
    assert u.Sess(sid).requests != [] ==> u.Sess(sid).requests[0] in u.Sess(sid).requests;
  }

  /** Afterwards it keeps nothing but work still in a worker, and with the last of that everything it held is gone. */
  lemma DepartedSessionEnds(s: Broker, actions: seq<Action>, sid: SessionId)
    requires Invariant(s) && OrderlyRun(s, actions) && sid < |s.sessions|
    requires s.sessions[sid].disconnected && !s.sessions[sid].cleanClose && s.config.policy != ContinueWork
    ensures var t := Run(s, actions);
            && (forall r :: r in t.Sess(sid).requests ==> StillRunning(t, r))
            && (t.Sess(sid).requests == [] ==>
                  && sid !in t.registered
                  && t.Sess(sid).reservedOutcomes == 0 && t.Sess(sid).reservedBytes == 0
                  && (forall c :: c in t.clients ==> t.clients[c] != sid))
  {
    hide Dispatch, Log, Sequenced, Run, StillRunning;
    RunKeepsInvariant(s, actions);
    var t := Run(s, actions);
    assert SessionForward(s.sessions[sid], t.sessions[sid]);
    assert SessionDeparted(t, sid);
    var rs := t.Sess(sid).requests;
    assert rs != [] ==> rs[0] in rs;
  }

  /** A finished attempt's callback gives its slot back, and on a closed connection its request is forgotten at once. */
  lemma CallbackReleases(s: Broker, a: AttemptId)
    requires Invariant(s) && a < |s.attempts| && s.attempts[a].watched && !s.attempts[a].future.Pending? && !s.attempts[a].over
    ensures var t, r := Next(s, Notify(a)), s.attempts[a].record;
            && t.Decided(r) && t.Att(a).over && t.staged == s.staged - 1
            && (s.Decided(r) ==> t.Rec(r).state == s.Rec(r).state)
            && (!s.Decided(r) ==> Reported(t, r, Told(s.attempts[a].future)))
            && (s.Sess(s.Rec(r).session).closed ==> t.Rec(r).reservationReleased && r !in t.requests)
  {
    hide Invariant, Dispatch, AttemptsOk, ClaimsOk, Kept, Retained, ListsOk, PayloadsFit, Sound, Departed, Story, Sequenced, Rest,
         Within, Decide, Purge;
    InvariantParts(s);
    var r, o := s.attempts[a].record, OutcomeOf(s.attempts[a].future);
    var sid := s.records[r].session;
    var d, t := Decide(s, r, FrameOf(o)), Complete(s, a, o);
    CompleteWithin(s, a, o);
    DecideWithin(s, r, FrameOf(o));
    DecideDispatchFields(s, r, FrameOf(o));
    PurgeFrame(GiveBack(d, a), sid);
    SlotTaken(s, a);
    assert RecordWithin(s.records[r], t.records[r]) by { RecordOfWithin(s, t, r); }
    if !s.Decided(r) {
      CompleteReported(s, a, o);
      FramesOfOutcomes(s.attempts[a].future);
    }
    if s.Sess(sid).closed { ForgottenWhenClosed(s, d, a, sid, FrameOf(o)); }
  }

  lemma RecordOfWithin(s: Broker, t: Broker, r: RecordId)
    requires Within(s, t) && r < |s.records|
    ensures r < |t.records| && RecordWithin(s.records[r], t.records[r])
  {
  }

  lemma SlotTaken(s: Broker, a: AttemptId)
    requires Invariant(s) && a < |s.attempts| && !s.attempts[a].over
    ensures s.staged > 0 && s.staged == Outstanding(s.attempts) <= s.config.maxStaged
  {
    OutstandingPositive(s.attempts, a);
  }

  lemma DecideDispatchFields(s: Broker, r: RecordId, f: Frame)
    ensures var d := Decide(s, r, f);
            d.attempts == s.attempts && d.staged == s.staged && d.registered == s.registered && |d.records| == |s.records|
  {
    hide Post;
    var t := s.WithRec(r, s.Rec(r).(state := if f.TerminalFrame? then Terminal(f.verdict) else Queued, payload := [], terminal := Some(f)))
              .(terminal := s.terminal + 1);
    PostFrame(t, t.Rec(r).session, [(r, f)]);
  }

  lemma ForgottenWhenClosed(s: Broker, d: Broker, a: AttemptId, sid: SessionId, f: Frame)
    requires Invariant(s) && a < |s.attempts| && s.Sess(sid).closed && sid == s.Rec(s.attempts[a].record).session && f.TerminalFrame?
    requires d == Decide(s, s.attempts[a].record, f)
    ensures var t, r := PurgeIfClosed(GiveBack(d, a), sid), s.attempts[a].record;
            t.Rec(r).reservationReleased && r !in t.requests
  {
    hide Dispatch, Log, Sequenced, Within, Decide, ReservedExact, ClientsExact, Purge;
    InvariantParts(s);
    var r := s.attempts[a].record;
    DecideWithin(s, r, f);
    DecideSame(s, r, f);
    RetentionFramed(s, d);
    GiveBackSame(d, a);
    RetentionFramed(d, GiveBack(d, a));
    var g := GiveBack(d, a);
    assert RecordRetained(s, r);
    PurgedAway(g, r, sid);
    ClosedStays(s, d, sid);
  }

  lemma ClosedStays(s: Broker, d: Broker, sid: SessionId)
    requires Within(s, d) && s.Sess(sid).closed
    ensures d.Sess(sid).closed
  {
    assert sid < |s.sessions| ==> SessionWithin(s.sessions[sid], d.sessions[sid]);
  }

  /** After a purge no decided request of the session is retained. */
  lemma PurgedAway(g: Broker, r: RecordId, sid: SessionId)
    requires Kept(g) && r < |g.records| && g.Decided(r) && g.records[r].session == sid
    ensures Purge(g, sid).Rec(r).reservationReleased && r !in Purge(g, sid).requests
    ensures sid !in g.registered ==> g.Rec(r).reservationReleased && r !in g.requests
  {
    hide Purge;
    assert RecordRetained(g, r);
    PurgeKept(g, sid);
    PurgeWithin(g, sid);
    var t := Purge(g, sid);
    assert RecordWithin(g.records[r], t.records[r]);
    assert RecordRetained(t, r);
  }

  // ---------- slots, queue and reservations ----------

  /** A staged slot that is still taken will be given back: its attempt is with the dispatch loop or has its callback. */
  lemma SlotsNeverStranded(s: Broker, a: AttemptId)
    requires Invariant(s) && a < |s.attempts| && !s.attempts[a].over
    ensures 0 < s.staged == Outstanding(s.attempts) <= s.config.maxStaged
    ensures s.attempts[a].watched || HeldByLane(s, a)
    ensures s.records[s.attempts[a].record].future == Some(a)
    ensures s.records[s.attempts[a].record].state.Terminal? && s.attempts[a].phase != Offered ==> !s.attempts[a].future.Pending?
  {
    SlotTaken(s, a);
    assert AttemptOk(s, a);
    assert CancelledWithRecord(s, s.attempts[a].record);
  }

  /** Whatever the dispatch loop pops is still queued and unstaged; skipping a popped request never happens. */
  lemma PoppedIsQueued(s: Broker, p: int)
    requires Invariant(s) && MayStage(s, p)
    ensures PopItem(s.queue, p) < |s.records| && Unstaged(s, PopItem(s.queue, p))
  {
    hide Retention, Departed, Log, Sequenced;
    PopQueue(s, p);
  }

  /** Reservations are the retained requests, within all four limits, and the retained outcomes fit in them. */
  lemma RetainedOutcomesFit(s: Broker)
    requires Invariant(s)
    ensures s.reservedOutcomes == |s.requests| <= s.config.maxOutcomesGlobal
    ensures SumPayload(s.records, s.requests) <= SumReserved(s.records, s.requests) == s.reservedBytes <= s.config.maxBytesGlobal
    ensures forall sid :: 0 <= sid < |s.sessions| ==>
              && s.sessions[sid].reservedOutcomes == |s.sessions[sid].requests| <= s.config.maxOutcomesSession
              && SumPayload(s.records, s.sessions[sid].requests) <= s.sessions[sid].reservedBytes <= s.config.maxBytesSession
  {
    PayloadsWithinReservation(s.records, s.requests);
    forall sid | 0 <= sid < |s.sessions|
      ensures s.sessions[sid].reservedOutcomes == |s.sessions[sid].requests| <= s.config.maxOutcomesSession
      ensures SumPayload(s.records, s.sessions[sid].requests) <= s.sessions[sid].reservedBytes <= s.config.maxBytesSession
    {
      PayloadsWithinReservation(s.records, s.sessions[sid].requests);
    }
  }

  // ---------- decisions and the queue ----------

  /** A step decides an undecided request exactly under `Decides`, and with the terminal frame that belongs to the step. */
  lemma DecidedExactlyWhen(s: Broker, action: Action, r: RecordId)
    requires Invariant(s) && r < |s.records| && !s.Decided(r)
    ensures Next(s, action).Decided(r) <==> Decides(s, action, r)
    ensures Decides(s, action, r) ==> Reported(Next(s, action), r, FrameBy(s, action, r))
  {
    hide Invariant, Dispatch, Paired, AttemptsOk, ClaimsOk, Kept, Retained, ListsOk, PayloadsFit, Sound, Departed, Story, Sequenced, Rest,
         Next, Decides, Reported, FrameBy;
    InvariantParts(s);
    StepDecides(s, action, r);
    if Decides(s, action, r) { StepReports(s, action, r); }
  }

  /** An admitted request is last in its principal's stream at its priority; every other stream is as it was. */
  lemma AdmittedLast(s: Broker, sid: SessionId, msg: Submission)
    ensures var t, rec := Admit(s, sid, msg), NewRecord(s, sid, msg);
            var r: RecordId := |s.records|;
            && rec.principal == s.Sess(sid).principal
            && Stream(t.queue, rec.priority, rec.principal) == Stream(s.queue, rec.priority, rec.principal) + [r]
            && forall p, q :: p != rec.priority || q != rec.principal ==> Stream(t.queue, p, q) == Stream(s.queue, p, q)
  {
    hide Admit;
    AdmitFields(s, sid, msg);
    var rec := NewRecord(s, sid, msg);
    PutStreams(s.queue, |s.records|, rec.priority, rec.principal, false);
  }

  /** A pool without room undoes the staging: every stream, the slots and the request are as before, one turn later. */
  lemma RefusedOfferUndone(s: Broker, p: int)
    requires Invariant(s) && MayStage(s, p)
    ensures var t := Restored(OfferAnswered(Staged(s, p), QueueFull));
            && (forall p', q' :: Stream(t.queue, p', q') == Stream(s.queue, p', q'))
            && Ring(t.queue, p) == Ring(s.queue, p)[1..] + [Turn(s.queue, p)]
            && t.records == s.records && t.staged == s.staged && t.lane == AtTop && t.sent == s.sent
            && t.attempts == s.attempts + [Attempt(PopItem(s.queue, p), Offered, Pending, false, true, None)]
  {
    hide Invariant, Pop, SchedulerSpec.Put, PopItem, Staged, Restored, OfferAnswered, Unstaged;
    PoppedIsQueued(s, p);
    QueueOk(s, p);
    PopThenPutFront(s.queue, p);
    UndoneFields(s, p);
  }

  lemma QueueOk(s: Broker, p: int)
    requires Invariant(s) && MayStage(s, p)
    ensures Ok(s.queue) && p in s.queue && PopItem(s.queue, p) < |s.records| && Unstaged(s, PopItem(s.queue, p))
    ensures BelongsTo(s, PopItem(s.queue, p), p, Turn(s.queue, p))
  {
    hide Retention, Departed, Log, Sequenced, Counted, SlotsExact, AttemptsOk, ClaimsOk;
    PopQueue(s, p);
  }

  lemma UndoneFields(s: Broker, p: int)
    requires CanPop(s.queue, p) && BelongsTo(s, PopItem(s.queue, p), p, Turn(s.queue, p)) && s.lane.AtTop?
    ensures var t, r := Restored(OfferAnswered(Staged(s, p), QueueFull)), PopItem(s.queue, p);
            && t.queue == SchedulerSpec.Put(Pop(s.queue, p), r, p, Turn(s.queue, p), true)
            && t.records == s.records && t.staged == s.staged && t.lane == AtTop && t.sent == s.sent
            && t.attempts == s.attempts + [Attempt(r, Offered, Pending, false, true, None)]
  {
    hide Pop, SchedulerSpec.Put, PopItem, Turn;
    var r := PopItem(s.queue, p);
    var u := OfferAnswered(Staged(s, p), QueueFull);
    assert u.records == s.records[r := s.records[r].(future := Some(|s.attempts|))];
    assert u.records[r := u.records[r].(future := None)] == s.records;
  }

  // ---------- where the source falls short ----------

  /** A SUBMIT handled after its session was purged keeps the books right if and only if an earlier branch stops it. */
  lemma UnregisteredSubmit(s: Broker, sid: SessionId, msg: Submission, authorized: bool)
    requires Invariant(s) && sid !in s.registered
    ensures Retained(Submitted(s, sid, msg, authorized)) <==>
              || s.Sess(sid).disconnected || msg.id.client != s.Sess(sid).client
              || msg.id.sequence <= s.Sess(sid).watermark || !Admissible(s, sid, msg, authorized)
  {
    hide Invariant, Dispatch, Paired, AttemptsOk, ClaimsOk, ListsOk, PayloadsFit, Sound, Departed, Story, Sequenced, Rest, ReservedExact,
         Submitted, Admissible;
    InvariantParts(s);
    UnregisteredEmpty(s, sid);
    if Admits(s, sid, msg, authorized) {
      AdmitsSubmitted(s, sid, msg, authorized);
      AdmitLeaks(s.WithSess(sid, s.Sess(sid).(watermark := msg.id.sequence)), sid, msg);
    } else {
      SubmittedKept(s, sid, msg, authorized);
    }
  }

  lemma AdmitsSubmitted(s: Broker, sid: SessionId, msg: Submission, authorized: bool)
    requires Admits(s, sid, msg, authorized)
    ensures Submitted(s, sid, msg, authorized) == Admit(s.WithSess(sid, s.Sess(sid).(watermark := msg.id.sequence)), sid, msg)
  {
    hide Admit, HasRoom;
    WatermarkApart(s, sid, msg, authorized);
  }

  /** The assumption on SUBMIT is the weakest one: a step keeps the invariant if and only if it holds of the step. */
  lemma OrderlyIsNecessary(s: Broker, action: Action)
    requires Invariant(s)
    ensures Invariant(Next(s, action)) <==> Orderly(s, action)
  {
    hide Invariant, Next, Submitted, Admissible;
    if Orderly(s, action) {
      StepKeepsInvariant(s, action);
    } else {
      UnregisteredSubmit(s, action.sid, action.msg, action.authorized);
      SubmitStep(s, action);
      RetainedPart(Next(s, action));
    }
  }

  lemma SubmitStep(s: Broker, action: Action)
    requires action.Submit?
    ensures Next(s, action) == Submitted(s, action.sid, action.msg, action.authorized)
  {
  }

  lemma RetainedPart(s: Broker)
    ensures Invariant(s) ==> Retained(s)
  {
  }

  lemma AdmitLeaks(s: Broker, sid: SessionId, msg: Submission)
    requires sid !in s.registered
    ensures !Retained(Admit(s, sid, msg))
  {
    hide Post;
    var t := Admit(s, sid, msg);
    AdmitFields(s, sid, msg);
    AdmitRegistered(s, sid, msg);
    assert Retained(t) ==> RecordRetained(t, |s.records|);
  }

  lemma AdmitRegistered(s: Broker, sid: SessionId, msg: Submission)
    ensures Admit(s, sid, msg).registered == s.registered
  {
  }

  /** Deciding a queued request of a closed session forgets it at once if and only if its callback is armed. */
  lemma QueuedDecisionReleased(s: Broker, r: RecordId, f: Frame)
    requires Invariant(s) && r < |s.records| && s.records[r].state == Queued && s.Sess(s.records[r].session).closed && f.TerminalFrame?
    ensures var a := s.records[r].future;
            CancelQueued(s, r, f).Rec(r).reservationReleased <==> a.Some? && s.Att(a.value).watched && s.Att(a.value).future.Pending?
  {
    hide Invariant, CancelQueued;
    var a := s.records[r].future;
    if a.Some? && s.Att(a.value).watched && s.Att(a.value).future.Pending? {
      ArmedReleased(s, r, f);
    } else {
      UnarmedKept(s, r, f);
    }
  }

  lemma ArmedReleased(s: Broker, r: RecordId, f: Frame)
    requires Invariant(s) && r < |s.records| && s.records[r].state == Queued && s.Sess(s.records[r].session).closed && f.TerminalFrame?
    requires s.records[r].future.Some? && s.Att(s.records[r].future.value).watched && s.Att(s.records[r].future.value).future.Pending?
    ensures CancelQueued(s, r, f).Rec(r).reservationReleased
  {
    hide Invariant, Dispatch, AttemptsOk, ClaimsOk, Retained, ListsOk, PayloadsFit, Sound, Departed, Story, Sequenced, Rest,
         Kept, Complete, Within;
    InvariantParts(s);
    var q, a := Dequeue(s, r), s.records[r].future.value;
    var d := Decide(q, r, f);
    DecideFields(q, r, f);
    DecideKept(s, q, r, f);
    DecideWithin(q, r, f);
    CompletionForgets(d.WithAtt(a, d.attempts[a].(future := CancelledFuture)), a, r);
  }

  lemma UnarmedKept(s: Broker, r: RecordId, f: Frame)
    requires Invariant(s) && r < |s.records| && s.records[r].state == Queued && f.TerminalFrame?
    requires s.records[r].future.None? || !s.Att(s.records[r].future.value).watched || !s.Att(s.records[r].future.value).future.Pending?
    ensures !CancelQueued(s, r, f).Rec(r).reservationReleased
  {
    hide Invariant, Dispatch, AttemptsOk, ClaimsOk, Retained, ListsOk, PayloadsFit, Sound, Departed, Story, Sequenced, Rest,
         Kept, Complete;
    InvariantParts(s);
    DecideFields(Dequeue(s, r), r, f);
    assert RecordRetained(s, r) by { KeptRetained(s, r); }
  }

  lemma KeptRetained(s: Broker, r: RecordId)
    requires Retained(s) && r < |s.records|
    ensures RecordRetained(s, r)
  {
  }

  lemma DecideKept(s: Broker, q: Broker, r: RecordId, f: Frame)
    requires Kept(s) && q == Dequeue(s, r) && r < |s.records| && s.Sess(s.records[r].session).closed
    ensures Kept(Decide(q, r, f)) && Decide(q, r, f).Sess(s.records[r].session).closed
    ensures forall a: AttemptId, x :: Kept(Decide(q, r, f).WithAtt(a, x))
  {
    hide Kept, Decide, Within;
    RetentionFramed(s, q);
    DecideSame(q, r, f);
    RetentionFramed(q, Decide(q, r, f));
    DecideWithin(q, r, f);
    ClosedStays(q, Decide(q, r, f), s.records[r].session);
    forall a: AttemptId, x ensures Kept(Decide(q, r, f).WithAtt(a, x)) {
      RetentionFramed(Decide(q, r, f), Decide(q, r, f).WithAtt(a, x));
    }
  }

  lemma CompletionForgets(d: Broker, a: AttemptId, r: RecordId)
    requires Kept(d) && a < |d.attempts| && d.attempts[a].record == r && r < |d.records| && d.Decided(r)
    requires d.Sess(d.records[r].session).closed
    ensures Complete(d, a, OutcomeOf(CancelledFuture)).Rec(r).reservationReleased
  {
    hide Kept, Purge;
    GiveBackSame(d, a);
    RetentionFramed(d, GiveBack(d, a));
    PurgedAway(GiveBack(d, a), r, d.records[r].session);
  }
}
