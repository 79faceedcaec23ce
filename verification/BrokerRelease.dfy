/** Exactly when a decided request of a departed client is let go: some callback of its session can still run. */
module BrokerRelease {
  import opened Options
  import opened SchedulerSpec
  import Fairness
  import opened BrokerState
  import opened BrokerInvariant
  import opened BrokerWithin
  import opened BrokerDispatch
  import opened BrokerDispatchSteps
  import opened BrokerRetention
  import opened BrokerQuiet
  import opened BrokerForward
  import opened BrokerDecides
  import opened BrokerTheorems
  import opened BrokerGuarantees
  import opened BrokerAbandoned

  // ---------- a run that empties the dispatch loop and the pool ----------

  /** The next thing to do: free the loop, then end every attempt, then stage the next request, which the pool takes. */
  ghost function Move(s: Broker): seq<Action> {
    match s.lane
    case Offering(_) => [OfferToPool(Admitted)]
    case Refused(_) => [Restore]
    case Broken(_) => [GiveUp("")]
    case Taken(_) => [Watch]
    case AtTop => if Outstanding(s.attempts) > 0 then [Resolve(Unfinished(s.attempts), Raised("")), Notify(Unfinished(s.attempts))] else [Stage]
  }

  ghost function Unfinished(xs: seq<Attempt>): (a: AttemptId)
    requires Outstanding(xs) > 0
    ensures a < |xs| && !xs[a].over
  {
    if xs[|xs| - 1].over then Unfinished(xs[..|xs| - 1]) else |xs| - 1
  }

  ghost predicate Staying(rec: Record) {
    rec.state == Queued && rec.future == None
  }

  ghost function CountStaying(records: seq<Record>): nat {
    if records == [] then 0
    else CountStaying(records[..|records| - 1]) + if Staying(records[|records| - 1]) then 1 else 0
  }

  lemma {:induction false} FewerStaying(xs: seq<Record>, ys: seq<Record>)
    requires |xs| == |ys| && forall r :: 0 <= r < |xs| && Staying(ys[r]) ==> Staying(xs[r])
    ensures CountStaying(ys) <= CountStaying(xs)
    decreases |xs|
  {
    if xs != [] { FewerStaying(xs[..|xs| - 1], ys[..|ys| - 1]); }
  }

  lemma {:induction false} StayingUpdate(xs: seq<Record>, r: nat, rec: Record)
    requires r < |xs|
    ensures CountStaying(xs[r := rec]) == CountStaying(xs) - (if Staying(xs[r]) then 1 else 0) + (if Staying(rec) then 1 else 0)
    decreases |xs|
  {
    var n := |xs| - 1;
    if r < n {
      assert xs[r := rec][..n] == xs[..n][r := rec];
      StayingUpdate(xs[..n], r, rec);
    } else {
      assert xs[r := rec][..n] == xs[..n];
    }
  }

  /** Requests the loop has yet to stage, with the one a full pool is giving back. */
  ghost function ToStage(s: Broker): nat {
    CountStaying(s.records) + if s.lane.Refused? then 1 else 0
  }

  ghost function LaneRank(lane: Lane): nat {
    match lane
    case AtTop => 0
    case Taken(_) => 1
    case Broken(_) => 1
    case Refused(_) => 1
    case Offering(_) => 2
  }

  ghost predicate Nearer(s: Broker, t: Broker) {
    && ToStage(t) <= ToStage(s)
    && (ToStage(t) < ToStage(s) || (t.staged <= s.staged && (t.staged < s.staged || LaneRank(t.lane) < LaneRank(s.lane))))
  }

  /** `r` is decided and its client gone; a callback of `hope`, a request of the same session, can still run. */
  ghost predicate Bound(s: Broker, r: RecordId, hope: RecordId) {
    && Invariant(s) && r < |s.records| && hope < |s.records|
    && s.Decided(r) && s.records[hope].session == s.records[r].session
    && s.Sess(s.records[r].session).disconnected
    && Hopeful(s, hope)
  }

  ghost predicate Onward(s: Broker, t: Broker, r: RecordId, hope: RecordId) {
    t.Rec(r).reservationReleased || (Bound(t, r, hope) && Nearer(s, t))
  }

  /** The parts of `Bound` that every step keeps. */
  lemma BoundStep(s: Broker, action: Action, r: RecordId, hope: RecordId)
    requires Bound(s, r, hope) && !action.Submit?
    ensures var t := Next(s, action);
            && Invariant(t) && r < |t.records| && hope < |t.records| && t.Decided(r)
            && t.records[hope].session == t.records[r].session && t.Sess(t.records[r].session).disconnected
            && t.config == s.config
            && (!s.Decided(hope) && !Decides(s, action, hope) ==> !t.Decided(hope))
  {
    hide Invariant, Next, Decides, Hopeful;
    InvariantParts(s);
    StepKeepsInvariant(s, action);
    var t := Next(s, action);
    assert RecordForward(s.records[r], t.records[r]) && RecordForward(s.records[hope], t.records[hope]);
    assert s.records[r].session < |s.sessions| ==> SessionForward(s.sessions[s.records[r].session], t.sessions[s.records[r].session]);
    if !s.Decided(hope) { DecidedExactlyWhen(s, action, hope); }
  }

  lemma CompleteAttempts(s: Broker, a: AttemptId, o: Outcome)
    requires a < |s.attempts|
    ensures Complete(s, a, o).attempts == s.attempts[a := s.attempts[a].(over := true)]
    ensures Complete(s, a, o).staged == if s.staged != 0 then s.staged - 1 else 0
  {
    hide Decide, PurgeIfClosed;
    var r := s.attempts[a].record;
    DecideKeepsAttempts(s, r, FrameOf(o));
    DecideDispatchFields(s, r, FrameOf(o));
    PurgeFrame(GiveBack(Decide(s, r, FrameOf(o)), a), s.Rec(r).session);
  }

  /** A completion lets go of every decided request of its session once the connection is closed. */
  lemma CompletionReleases(s: Broker, a: AttemptId, o: Outcome, r: RecordId)
    requires Kept(s) && a < |s.attempts| && s.attempts[a].record < |s.records| && r < |s.records| && s.Decided(r)
    requires s.records[s.attempts[a].record].session == s.records[r].session && s.Sess(s.records[r].session).closed
    ensures Complete(s, a, o).Rec(r).reservationReleased
  {
    hide Kept, Within, Decide, Purge, SameRetention;
    var x, f, sid := s.attempts[a].record, FrameOf(o), s.records[r].session;
    var d := Decide(s, x, f);
    DecideWithin(s, x, f);
    DecideSame(s, x, f);
    RetentionFramed(s, d);
    GiveBackSame(d, a);
    RetentionFramed(d, GiveBack(d, a));
    DecidedStays(s, d, r);
    RecordOfWithin(s, d, r);
    ClosedStays(s, d, sid);
    PurgedAway(GiveBack(d, a), r, sid);
  }

  lemma CompleteStaying(s: Broker, a: AttemptId, o: Outcome)
    ensures CountStaying(Complete(s, a, o).records) <= CountStaying(s.records) && Complete(s, a, o).lane == s.lane
  {
    hide Complete;
    CompleteWithin(s, a, o);
    forall r | 0 <= r < |s.records| && Staying(Complete(s, a, o).records[r]) ensures Staying(s.records[r]) {
      assert RecordWithin(s.records[r], Complete(s, a, o).records[r]);
    }
    FewerStaying(s.records, Complete(s, a, o).records);
  }

  /** A completion lets `r` go, or leaves the hope of its session and has one attempt less to wait for. */
  lemma CompleteOnward(s: Broker, a: AttemptId, o: Outcome, r: RecordId, hope: RecordId)
    requires Bound(s, r, hope) && a < |s.attempts| && !s.attempts[a].over && s.lane != Refused(a)
    ensures var t := Complete(s, a, o);
            || t.Rec(r).reservationReleased
            || (s.attempts[a].record != hope && (UnderWay(s, hope) ==> UnderWay(t, hope)))
    ensures var t := Complete(s, a, o);
            t.staged < s.staged && CountStaying(t.records) <= CountStaying(s.records) && t.lane == s.lane
  {
    hide Invariant, Complete, Dispatch, Kept, Within;
    InvariantParts(s);
    SlotTaken(s, a);
    var x, t := s.attempts[a].record, Complete(s, a, o);
    assert AttemptOk(s, a) && x < |s.records|;
    CompleteAttempts(s, a, o);
    CompleteStaying(s, a, o);
    CompleteWithin(s, a, o);
    if s.records[x].session == s.records[r].session {
      GoneIsClosed(s, s.records[r].session);
      CompletionReleases(s, a, o, r);
    } else {
      RecordOfWithin(s, t, hope);
      assert s.records[hope].future.Some? ==> s.attempts[s.records[hope].future.value].record == hope;
    }
  }

  lemma GoneIsClosed(s: Broker, sid: SessionId)
    requires Invariant(s) && s.Sess(sid).disconnected
    ensures s.Sess(sid).closed
  {
  }

  // ---------- every move ----------

  lemma LaneMove(s: Broker, action: Action, r: RecordId, hope: RecordId)
    requires Bound(s, r, hope)
    requires (s.lane.Offering? && action == OfferToPool(Admitted)) || (s.lane.Taken? && action == Watch)
    ensures Onward(s, Next(s, action), r, hope)
  {
    hide Invariant, Next, Unmoved, UnderWay, Paired;
    BoundStep(s, action, r, hope);
    QuietUnmoved(s, action);
    UnmovedStaying(s, Next(s, action));
    LaneAfter(s, action);
    InvariantPairs(s);
    if UnderWay(s, hope) { UnmovedUnderWay(s, Next(s, action), hope); }
  }

  lemma InvariantPairs(s: Broker)
    requires Invariant(s)
    ensures Paired(s)
  {
  }

  lemma LaneAfter(s: Broker, action: Action)
    requires (s.lane.Offering? && action == OfferToPool(Admitted)) || (s.lane.Taken? && action == Watch)
    ensures Next(s, action).lane == if s.lane.Offering? then Taken(s.lane.a) else AtTop
    ensures Next(s, action).staged == s.staged
  {
  }

  lemma UnmovedStaying(s: Broker, t: Broker)
    requires Unmoved(s, t)
    ensures CountStaying(t.records) <= CountStaying(s.records)
  {
    forall r | 0 <= r < |s.records| && Staying(t.records[r]) ensures Staying(s.records[r]) {
      assert t.records[r] == s.records[r].(payload := t.records[r].payload);
    }
    FewerStaying(s.records, t.records);
  }

  lemma UnmovedUnderWay(s: Broker, t: Broker, hope: RecordId)
    requires Paired(s) && Unmoved(s, t) && hope < |s.records| && UnderWay(s, hope) && !t.lane.Refused?
    ensures UnderWay(t, hope)
  {
    assert t.records[hope] == s.records[hope].(payload := t.records[hope].payload);
  }

  lemma GiveUpMove(s: Broker, r: RecordId, hope: RecordId)
    requires Bound(s, r, hope) && s.lane.Broken?
    ensures Onward(s, Next(s, GiveUp("")), r, hope)
  {
    hide Invariant, Complete, UnderWay;
    BoundStep(s, GiveUp(""), r, hope);
    LaneAttempt(s);
    CompleteOnward(s, s.lane.a, Raised(""), r, hope);
    if UnderWay(Complete(s, s.lane.a, Raised("")), hope) { TopUnderWay(Complete(s, s.lane.a, Raised("")), hope); }
  }

  lemma TopUnderWay(s: Broker, hope: RecordId)
    requires UnderWay(s, hope)
    ensures UnderWay(s.(lane := AtTop), hope)
  {
  }

  lemma LaneAttempt(s: Broker)
    requires Invariant(s) && !s.lane.AtTop?
    ensures s.lane.a < |s.attempts| && !s.attempts[s.lane.a].over && s.attempts[s.lane.a].record < |s.records|
    ensures s.records[s.attempts[s.lane.a].record].future == Some(s.lane.a) && 0 < s.staged
    ensures s.lane.Refused? ==> s.records[s.attempts[s.lane.a].record].state != Running
  {
    assert AttemptOk(s, s.lane.a);
    SlotTaken(s, s.lane.a);
  }

  lemma RestoreMove(s: Broker, r: RecordId, hope: RecordId)
    requires Bound(s, r, hope) && s.lane.Refused?
    ensures Onward(s, Next(s, Restore), r, hope)
  {
    hide Invariant, Decides, SchedulerSpec.Put;
    BoundStep(s, Restore, r, hope);
    LaneAttempt(s);
    var a := s.lane.a;
    var x := s.attempts[a].record;
    RestoredRecords(s);
    StayingUpdate(s.records, x, s.records[x].(future := None));
    if UnderWay(s, hope) { RestoredUnderWay(s, hope); }
  }

  lemma RestoredRecords(s: Broker)
    requires Invariant(s) && s.lane.Refused?
    ensures var a, t := s.lane.a, Restored(s);
            var x := s.Att(a).record;
            && a < |s.attempts| && x < |s.records|
            && t.records == s.records[x := s.records[x].(future := None)] && t.attempts == s.attempts[a := s.attempts[a].(over := true)]
            && t.lane == AtTop && t.staged == s.staged - 1
  {
    hide SchedulerSpec.Put;
  }

  lemma RestoredUnderWay(s: Broker, hope: RecordId)
    requires Invariant(s) && s.lane.Refused? && hope < |s.records| && UnderWay(s, hope)
    ensures UnderWay(Restored(s), hope)
  {
    hide Invariant, Restored;
    RestoredRecords(s);
    InvariantPairs(s);
    LaneAttempt(s);
  }

  lemma ReapMove(s: Broker, a: AttemptId, r: RecordId, hope: RecordId)
    requires Bound(s, r, hope) && s.lane.AtTop? && a < |s.attempts| && !s.attempts[a].over
    ensures Onward(s, Next(Next(s, Resolve(a, Raised(""))), Notify(a)), r, hope)
  {
    hide Invariant, Complete, UnderWay, Next, Unmoved;
    var u := Next(s, Resolve(a, Raised("")));
    BoundStep(s, Resolve(a, Raised("")), r, hope);
    QuietUnmoved(s, Resolve(a, Raised("")));
    UnmovedStaying(s, u);
    ResolvedAttempt(s, a);
    InvariantPairs(s);
    if UnderWay(s, hope) { UnmovedUnderWay(s, u, hope); }
    NotifyMove(u, a, r, hope);
  }

  lemma ResolvedAttempt(s: Broker, a: AttemptId)
    requires Invariant(s) && s.lane.AtTop? && a < |s.attempts| && !s.attempts[a].over
    ensures var t := Next(s, Resolve(a, Raised("")));
            && a < |t.attempts| && !t.attempts[a].over && t.attempts[a].watched && !t.attempts[a].future.Pending?
            && t.lane == AtTop && t.staged == s.staged
  {
    hide Retention, Departed, Log, Sequenced, Counted, StoppedWhenDecided, QueueExact, SlotsExact, ClaimsOk;
    assert AttemptOk(s, a);
  }

  lemma NotifyMove(s: Broker, a: AttemptId, r: RecordId, hope: RecordId)
    requires Bound(s, r, hope) && s.lane.AtTop? && a < |s.attempts| && !s.attempts[a].over && s.attempts[a].watched
    requires !s.attempts[a].future.Pending?
    ensures Onward(s, Next(s, Notify(a)), r, hope)
  {
    hide Invariant, Complete, UnderWay;
    BoundStep(s, Notify(a), r, hope);
    CompleteOnward(s, a, OutcomeOf(s.attempts[a].future), r, hope);
  }

  /** With no attempt left, the hope is a request in the queue, and the loop may stage. */
  lemma SomethingToStage(s: Broker, r: RecordId, hope: RecordId) returns (p: int)
    requires Bound(s, r, hope) && s.lane.AtTop? && Outstanding(s.attempts) == 0
    ensures MayStage(s, p) && !s.Decided(hope) && s.config.maxStaged > 0
  {
    hide Retention, Departed, Log, Sequenced, Counted, ClaimsOk;
    if s.records[hope].future.Some? {
      var a := s.records[hope].future.value;
      assert AttemptOk(s, a);
      if !s.attempts[a].over { OutstandingPositive(s.attempts, a); }
    }
    assert !UnderWay(s, hope);
    assert Unstaged(s, hope);
    assert hope in Stream(s.queue, s.records[hope].priority, s.records[hope].principal);
    p := Fairness.Least(s.queue);
  }

  lemma StageMove(s: Broker, r: RecordId, hope: RecordId)
    requires Bound(s, r, hope) && s.lane.AtTop? && Outstanding(s.attempts) == 0
    ensures Onward(s, Next(s, Stage), r, hope)
  {
    hide Invariant, Staged, Pop, PopItem, UnderWay;
    BoundStep(s, Stage, r, hope);
    var p := SomethingToStage(s, r, hope);
    StageIs(s, p);
    PoppedIsQueued(s, p);
    StagedRecords(s, p);
    var x: RecordId := PopItem(s.queue, p);
    StayingUpdate(s.records, x, s.records[x].(future := Some(|s.attempts|)));
  }

  lemma StagedRecords(s: Broker, p: int)
    requires CanPop(s.queue, p) && PopItem(s.queue, p) < |s.records| && s.records[PopItem(s.queue, p)].state == Queued
    ensures var x, t := PopItem(s.queue, p), Staged(s, p);
            t.records == s.records[x := s.records[x].(future := Some(|s.attempts|))] && t.lane == Offering(|s.attempts|)
  {
    hide Pop, PopItem;
  }

  lemma MoveOnward(s: Broker, r: RecordId, hope: RecordId)
    requires Bound(s, r, hope)
    ensures OrderlyRun(s, Move(s)) && Onward(s, Run(s, Move(s)), r, hope)
  {
    hide Bound, Onward, Next;
    match s.lane
    case Offering(_) => LaneMove(s, OfferToPool(Admitted), r, hope);
    case Taken(_) => LaneMove(s, Watch, r, hope);
    case Refused(_) => RestoreMove(s, r, hope);
    case Broken(_) => GiveUpMove(s, r, hope);
    case AtTop =>
      if Outstanding(s.attempts) > 0 {
        var a := Unfinished(s.attempts);
        ReapMove(s, a, r, hope);
        TwoSteps(s, Resolve(a, Raised("")), Notify(a));
      } else {
        StageMove(s, r, hope);
      }
  }

  lemma TwoSteps(s: Broker, first: Action, second: Action)
    requires !first.Submit? && !second.Submit?
    ensures OrderlyRun(s, [first, second]) && Run(s, [first, second]) == Next(Next(s, first), second)
  {
    hide Next;
    var t, last := Next(s, first), [second];
    assert last[1..] == [];
    assert OrderlyRun(t, last) && Run(t, last) == Next(t, second);
    assert [first, second][1..] == last;
  }

  /** A run that lets `r` go, as long as its session has any hope. */
  lemma {:induction false} ReleasingRun(s: Broker, r: RecordId, hope: RecordId) returns (run: seq<Action>)
    requires Bound(s, r, hope)
    ensures OrderlyRun(s, run) && Run(s, run).Rec(r).reservationReleased
    decreases ToStage(s), s.staged, LaneRank(s.lane)
  {
    hide Invariant, Hopeful, Move, Run, OrderlyRun;
    MoveOnward(s, r, hope);
    run := Move(s);
    var t := Run(s, run);
    if !t.Rec(r).reservationReleased {
      StagedNonnegative(t);
      var rest := ReleasingRun(t, r, hope);
      RunInParts(s, run, rest);
      run := run + rest;
    }
  }

  lemma StagedNonnegative(s: Broker)
    requires Invariant(s)
    ensures s.staged >= 0
  {
  }

  // ---------- the exact condition ----------

  /** A decided request of a departed client is let go in some later run if and only if a callback of its session can still run. */
  lemma ReleasedLaterExactlyWhen(s: Broker, r: RecordId)
    requires Invariant(s) && r in s.requests && s.Decided(r) && s.Sess(s.Rec(r).session).disconnected
    ensures (exists later :: OrderlyRun(s, later) && Run(s, later).Rec(r).reservationReleased) <==> !Abandoned(s, s.Rec(r).session)
  {
    hide Invariant, Run, OrderlyRun, Hopeful;
    RetainedHere(s, r);
    var sid := s.Rec(r).session;
    if Abandoned(s, sid) {
      forall later | OrderlyRun(s, later) ensures !Run(s, later).Rec(r).reservationReleased {
        AbandonedForGood(s, later, sid);
        RunKeepsInvariant(s, later);
        StillRetained(s, Run(s, later), r);
      }
    } else {
      var hope: RecordId :| hope < |s.records| && s.records[hope].session == sid && Hopeful(s, hope);
      var run := ReleasingRun(s, r, hope);
    }
  }

  lemma RetainedHere(s: Broker, r: RecordId)
    requires Invariant(s) && r in s.requests
    ensures r < |s.records| && s.records[r].session < |s.sessions| && r in s.Sess(s.records[r].session).requests
  {
    assert RecordRetained(s, r);
  }

  lemma StillRetained(s: Broker, t: Broker, r: RecordId)
    requires Invariant(t) && Forward(s, t) && r < |s.records| && r in t.Sess(s.records[r].session).requests
    ensures !t.Rec(r).reservationReleased && r in t.requests
  {
    assert RecordForward(s.records[r], t.records[r]);
    assert RecordRetained(t, r);
  }
}
