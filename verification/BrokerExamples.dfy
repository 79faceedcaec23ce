/** Two short runs from the start of a server, at the edges of what the broker promises. */
module BrokerExamples {
  import opened Options
  import opened SchedulerSpec
  import opened BrokerState
  import opened BrokerInvariant
  import opened BrokerDispatchSteps
  import opened BrokerSteps
  import opened BrokerTheorems
  import opened BrokerGuarantees
  import opened BrokerAbandoned

  const SMALL := Config(ContinueWork, {}, 8, 8, 4, 4, 4, 4, 4, 64, 64, 2, 9, 4)

  /** A session of client "c", which may use one byte for each outcome. */
  function Conn(watermark: int, held: seq<RecordId>, closed: bool, outbound: nat): Session {
    Session("c", "p", 1, watermark, |held|, |held|, held, closed, false, false, outbound)
  }

  function Message(n: int, timeout: Option<int>): Submission {
    Submission(RequestId("c", "", n), "d", [], "callable", "", Some(0), timeout, true, None)
  }

  function FirstRecord(timeout: Option<int>): Record {
    Record(RequestId("c", "", 1), "d", 0, "p", 0, timeout, None, [], 1, Queued, None, None, false, false)
  }

  const JOIN := Handshake("c", "p", 1)

  function Joined(): Broker {
    Init(SMALL).(sessions := [Conn(0, [], false, 0)], registered := {0}, clients := map["c" := 0])
  }

  function WithFirst(timeout: Option<int>): Broker {
    Joined().(sessions := [Conn(1, [0], false, 1)], records := [FirstRecord(timeout)], requests := [0],
              reservedOutcomes := 1, reservedBytes := 1, queue := map[0 := Bucket(["p"], map["p" := [0]])],
              accepted := 1, sent := [(0, AcceptedFrame)])
  }

  lemma JoinStep()
    ensures Next(Init(SMALL), JOIN) == Joined()
  {
    assert (set sid | sid in {} && Init(SMALL).Sess(sid).principal == "p") == {};
  }

  lemma FirstStep(timeout: Option<int>)
    requires timeout in {None, Some(0)}
    ensures Next(Joined(), Submit(0, Message(1, timeout), true)) == WithFirst(timeout)
  {
    hide Admit, Put;
    var s, m := Joined(), Message(1, timeout);
    assert Find(s, [], m.id) == None;
    var t := s.WithSess(0, Conn(1, [], false, 0));
    assert Admissible(t, 0, m, true);
    FirstAdmitted(timeout);
  }

  lemma FirstAdmitted(timeout: Option<int>)
    requires timeout in {None, Some(0)}
    ensures Admit(Joined().WithSess(0, Conn(1, [], false, 0)), 0, Message(1, timeout)) == WithFirst(timeout)
  {
    hide Put, Post, Charge, NewRecord, FirstRecord;
    OnlyItem();
    var s := Joined().WithSess(0, Conn(1, [], false, 0));
    var none, records: seq<Record> := s.requests, s.records;
    assert none + [0] == [0] && records + [FirstRecord(timeout)] == [FirstRecord(timeout)];
    FirstBooked(s, timeout);
    FirstPosted(Charge(s.WithSess(0, s.Sess(0).(requests := [0])), 0, 1, 1)
                 .(records := [FirstRecord(timeout)], requests := [0], queue := map[0 := Bucket(["p"], map["p" := [0]])], accepted := 1));
  }

  lemma FirstBooked(s: Broker, timeout: Option<int>)
    requires timeout in {None, Some(0)} && s.now == 0 && s.sessions == [Conn(1, [], false, 0)] && s.reservedOutcomes == s.reservedBytes == 0
    ensures NewRecord(s, 0, Message(1, timeout)) == FirstRecord(timeout)
    ensures var rec := FirstRecord(timeout); rec.reserved == 1 && rec.priority == 0 && rec.principal == "p"
    ensures Charge(s.WithSess(0, s.Sess(0).(requests := [0])), 0, 1, 1)
            == s.(sessions := [Conn(1, [0], false, 0)], reservedOutcomes := 1, reservedBytes := 1)
  {
  }

  lemma FirstPosted(s: Broker)
    requires s.sessions == [Conn(1, [0], false, 0)] && s.config == SMALL && s.sent == []
    ensures Post(s, 0, [(0, AcceptedFrame)]) == s.(sessions := [Conn(1, [0], false, 1)], sent := [(0, AcceptedFrame)])
  {
  }

  lemma OnlyItem()
    ensures Put(map[], 0 as RecordId, 0, "p", false) == map[0 := Bucket(["p"], map["p" := [0]])]
  {
    var ring: seq<Principal> := [];
    var none: seq<RecordId> := [];
    assert ring + ["p"] == ["p"] && none + [0] == [0];
  }

  // ---------- a SUBMIT after the purge ----------

  const DONE := Returned(Succeeded, "", [])

  function Working(lane: Lane, x: Attempt): Broker {
    WithFirst(None).(queue := map[], records := [FirstRecord(None).(future := Some(0))], staged := 1, lane := lane, attempts := [x])
  }

  function Claimed(closed: bool, x: Attempt): Broker {
    Working(AtTop, x).(sessions := [Conn(1, [0], closed, 2)], running := 1,
                       records := [FirstRecord(None).(future := Some(0), state := Running, claimed := true)],
                       sent := [(0, AcceptedFrame), (0, RunningFrame(Some(7)))])
  }

  /** The session has ended, and nobody has told the reader thread. */
  function Ended(): Broker {
    Claimed(true, Attempt(0, Finished, Resolved(DONE), true, true, Some(7)))
      .(sessions := [Conn(1, [], true, 2)], registered := {}, clients := map[], requests := [], reservedOutcomes := 0, reservedBytes := 0,
        staged := 0, terminal := 1,
        records := [FirstRecord(None).(future := Some(0), state := Terminal(Succeeded), claimed := true,
                                       terminal := Some(TerminalFrame(Succeeded, "", [])), reservationReleased := true)])
  }

  lemma StageStep()
    ensures Next(WithFirst(None), Stage) == Working(Offering(0), Attempt(0, Offered, Pending, false, false, None))
  {
    var s := WithFirst(None);
    assert CanPop(s.queue, 0) && PopItem(s.queue, 0) == 0;
    StageIs(s, 0);
    OnlyPop();
  }

  lemma OnlyPop()
    ensures var q: Sched<RecordId> := map[0 := Bucket(["p"], map["p" := [0]])];
            CanPop(q, 0) && Pop(q, 0) == map[]
  {
  }

  lemma OfferStep()
    ensures Next(Working(Offering(0), Attempt(0, Offered, Pending, false, false, None)), OfferToPool(Admitted))
            == Working(Taken(0), Attempt(0, Waiting, Pending, false, false, None))
  {
  }

  lemma WatchStep()
    ensures Next(Working(Taken(0), Attempt(0, Waiting, Pending, false, false, None)), Watch)
            == Working(AtTop, Attempt(0, Waiting, Pending, true, false, None))
  {
  }

  lemma StartStep()
    ensures Next(Working(AtTop, Attempt(0, Waiting, Pending, true, false, None)), StartTask(0))
            == Working(AtTop, Attempt(0, Started, Pending, true, false, None))
  {
  }

  lemma GrantStep()
    ensures Granted(Working(AtTop, Attempt(0, Started, Pending, true, false, None)), 0, 7)
            == Claimed(false, Attempt(0, Started, Pending, true, false, Some(7)))
  {
    var log := [(0 as RecordId, AcceptedFrame)];
    assert log + [(0, RunningFrame(Some(7)))] == [(0, AcceptedFrame), (0, RunningFrame(Some(7)))];
  }

  lemma ClaimStep()
    ensures Next(Working(AtTop, Attempt(0, Started, Pending, true, false, None)), Claim(0, 7))
            == Claimed(false, Attempt(0, Phase.Claimed, Pending, true, false, Some(7)))
  {
    hide Granted;
    GrantStep();
  }

  lemma CloseStep()
    ensures Next(Claimed(false, Attempt(0, Phase.Claimed, Pending, true, false, Some(7))), CloseConnection(0))
            == Claimed(true, Attempt(0, Phase.Claimed, Pending, true, false, Some(7)))
  {
  }

  lemma ResolveStep()
    ensures Next(Claimed(true, Attempt(0, Phase.Claimed, Pending, true, false, Some(7))), Resolve(0, DONE))
            == Claimed(true, Attempt(0, Finished, Resolved(DONE), true, false, Some(7)))
  {
  }

  lemma NotifyStep()
    ensures Next(Claimed(true, Attempt(0, Finished, Resolved(DONE), true, false, Some(7))), Notify(0)) == Ended()
  {
    hide Decide, Purge;
    DoneDecided();
    DonePurged();
  }

  /** The result is in and the slot back; the session is still there. */
  function Done(): Broker {
    Claimed(true, Attempt(0, Finished, Resolved(DONE), true, true, Some(7)))
      .(staged := 0, terminal := 1,
        records := [FirstRecord(None).(future := Some(0), state := Terminal(Succeeded), claimed := true,
                                       terminal := Some(TerminalFrame(Succeeded, "", [])))])
  }

  lemma DoneDecided()
    ensures var s := Claimed(true, Attempt(0, Finished, Resolved(DONE), true, false, Some(7)));
            GiveBack(Decide(s, 0, FrameOf(DONE)), 0) == Done()
  {
  }

  lemma DonePurged()
    ensures Purge(Done(), 0) == Ended()
  {
    hide Forget;
    DoneForgotten();
    var one: seq<RecordId> := [0];
    assert one[1..] == [];
  }

  lemma DoneForgotten()
    ensures var s := Ended();
            Forget(Done(), 0) == s.(registered := {0}, clients := map["c" := 0])
  {
  }

  lemma Reached(run: seq<Action>, s: Broker, action: Action, t: Broker)
    requires OrderlyRun(Init(SMALL), run) && Run(Init(SMALL), run) == s && Next(s, action) == t && Orderly(s, action)
    ensures OrderlyRun(Init(SMALL), run + [action]) && Run(Init(SMALL), run + [action]) == t
  {
    hide Next, Orderly;
    OneMore(Init(SMALL), run, action);
  }

  lemma ReachedFirst(timeout: Option<int>)
    requires timeout in {None, Some(0)}
    ensures var run := [JOIN, Submit(0, Message(1, timeout), true)];
            OrderlyRun(Init(SMALL), run) && Run(Init(SMALL), run) == WithFirst(timeout)
  {
    hide Next, Run, OrderlyRun;
    JoinStep();
    FirstStep(timeout);
    assert OrderlyRun(Init(SMALL), []) && Run(Init(SMALL), []) == Init(SMALL) by { NoStep(Init(SMALL)); }
    var none: seq<Action> := [];
    Reached(none, Init(SMALL), JOIN, Joined());
    assert none + [JOIN] == [JOIN] && [JOIN] + [Submit(0, Message(1, timeout), true)] == [JOIN, Submit(0, Message(1, timeout), true)];
    Reached([JOIN], Joined(), Submit(0, Message(1, timeout), true), WithFirst(timeout));
  }

  lemma NoStep(s: Broker)
    ensures OrderlyRun(s, []) && Run(s, []) == s
  {
  }

  lemma ReachedEnd() returns (run: seq<Action>)
    ensures OrderlyRun(Init(SMALL), run) && Run(Init(SMALL), run) == Ended()
    ensures run == [JOIN, Submit(0, Message(1, None), true), Stage, OfferToPool(Admitted), Watch, StartTask(0), Claim(0, 7),
                    CloseConnection(0), Resolve(0, DONE), Notify(0)]
  {
    hide Next, Run, OrderlyRun, Working, Claimed, Ended, WithFirst, Joined;
    ReachedFirst(None);
    run := [JOIN, Submit(0, Message(1, None), true)];
    StageStep();
    Reached(run, WithFirst(None), Stage, Working(Offering(0), Attempt(0, Offered, Pending, false, false, None)));
    run := run + [Stage];
    OfferStep();
    WatchStep();
    Reached(run, Working(Offering(0), Attempt(0, Offered, Pending, false, false, None)), OfferToPool(Admitted),
            Working(Taken(0), Attempt(0, Waiting, Pending, false, false, None)));
    run := run + [OfferToPool(Admitted)];
    Reached(run, Working(Taken(0), Attempt(0, Waiting, Pending, false, false, None)), Watch,
            Working(AtTop, Attempt(0, Waiting, Pending, true, false, None)));
    run := run + [Watch];
    StartStep();
    ClaimStep();
    Reached(run, Working(AtTop, Attempt(0, Waiting, Pending, true, false, None)), StartTask(0),
            Working(AtTop, Attempt(0, Started, Pending, true, false, None)));
    run := run + [StartTask(0)];
    Reached(run, Working(AtTop, Attempt(0, Started, Pending, true, false, None)), Claim(0, 7),
            Claimed(false, Attempt(0, Phase.Claimed, Pending, true, false, Some(7))));
    run := run + [Claim(0, 7)];
    CloseStep();
    ResolveStep();
    Reached(run, Claimed(false, Attempt(0, Phase.Claimed, Pending, true, false, Some(7))), CloseConnection(0),
            Claimed(true, Attempt(0, Phase.Claimed, Pending, true, false, Some(7))));
    run := run + [CloseConnection(0)];
    Reached(run, Claimed(true, Attempt(0, Phase.Claimed, Pending, true, false, Some(7))), Resolve(0, DONE),
            Claimed(true, Attempt(0, Finished, Resolved(DONE), true, false, Some(7))));
    run := run + [Resolve(0, DONE)];
    NotifyStep();
    Reached(run, Claimed(true, Attempt(0, Finished, Resolved(DONE), true, false, Some(7))), Notify(0), Ended());
    run := run + [Notify(0)];
  }

  /** The connection breaks, the last result purges the session, and a SUBMIT already read is then admitted: it is lost to the books. */
  lemma LateSubmit() returns (run: seq<Action>)
    ensures OrderlyRun(Init(SMALL), run) && Invariant(Run(Init(SMALL), run))
    ensures var s := Run(Init(SMALL), run);
            && 0 !in s.registered && !s.Sess(0).disconnected && Admissible(s, 0, Message(2, None), true)
            && !Retained(Next(s, Submit(0, Message(2, None), true)))
  {
    hide Invariant, Retained, Run, OrderlyRun, Ended, Next;
    run := ReachedEnd();
    ReachableInvariant(SMALL, run);
    EndedAdmits();
    UnregisteredSubmit(Ended(), 0, Message(2, None), true);
    SubmitStep(Ended(), Submit(0, Message(2, None), true));
  }

  lemma EndedAdmits()
    ensures var s := Ended();
            && 0 !in s.registered && !s.Sess(0).disconnected && s.Sess(0).client == "c" && s.Sess(0).watermark == 1
            && Admissible(s, 0, Message(2, None), true)
  {
  }

  // ---------- an expired request of a client that left ----------

  function Departed(): Broker {
    WithFirst(Some(0)).(sessions := [Conn(1, [0], true, 1).(disconnected := true)])
  }

  function Expiry(): Broker {
    Departed().(queue := map[], terminal := 1,
                records := [FirstRecord(Some(0)).(state := Terminal(QueueTimedOut), terminal := Some(Because(QueueTimedOut, "queue_timeout")))])
  }

  lemma DepartStep()
    ensures Next(WithFirst(Some(0)), Disconnect(0)) == Departed()
  {
    var one: seq<RecordId> := [0];
    assert one[1..] == [];
    assert ForgetDecided(Departed(), [0]) == Departed();
  }

  lemma ExpireStep()
    ensures Next(Departed(), Expire) == Expiry()
  {
    hide CancelQueued, VisitAll;
    ExpireOne();
    OneVisit(Departed(), ExpirePass, 0);
  }

  lemma OneVisit(s: Broker, pass: Pass, r: RecordId)
    ensures VisitAll(s, pass, [r]) == Visit(s, pass, r)
  {
    hide Visit;
    var one := [r];
    assert one[1..] == [];
  }

  lemma ExpireOne()
    ensures CancelQueued(Departed(), 0, Because(QueueTimedOut, "queue_timeout")) == Expiry()
  {
    hide Remove;
    OnlyRemove();
    assert Dequeue(Departed(), 0) == Departed().(queue := map[]);
  }

  lemma OnlyRemove()
    ensures var q: Sched<RecordId> := map[0 := Bucket(["p"], map["p" := [0]])];
            0 in Stream(q, 0, "p") && Remove(q, 0, "p", 0) == map[]
  {
  }

  /** Under `continue` a request that expires after its client left is decided, and retained whatever happens later. */
  lemma ContinueKeepsExpired(later: seq<Action>)
    ensures var run := [JOIN, Submit(0, Message(1, Some(0)), true), Disconnect(0), Expire];
            var s := Run(Init(SMALL), run);
            && OrderlyRun(Init(SMALL), run) && Invariant(s) && s.Decided(0)
            && (OrderlyRun(s, later) ==> 0 in Run(s, later).Sess(0).requests && 0 in Run(s, later).requests)
  {
    hide Invariant, Run, OrderlyRun, Departed, WithFirst, Next;
    ReachedFirst(Some(0));
    var run := [JOIN, Submit(0, Message(1, Some(0)), true)];
    DepartStep();
    Reached(run, WithFirst(Some(0)), Disconnect(0), Departed());
    ExpireStep();
    Reached(run + [Disconnect(0)], Departed(), Expire, Expiry());
    run := run + [Disconnect(0)] + [Expire];
    assert run == [JOIN, Submit(0, Message(1, Some(0)), true), Disconnect(0), Expire];
    ReachableInvariant(SMALL, run);
    ExpiryAbandoned();
    if OrderlyRun(Expiry(), later) {
      AbandonedForGood(Expiry(), later, 0);
      RunKeepsInvariant(Expiry(), later);
      HeldStays(Run(Expiry(), later));
    }
  }

  lemma ExpiryAbandoned()
    ensures var s := Expiry();
            s.Decided(0) && |s.sessions| == 1 && s.sessions[0].disconnected && s.sessions[0].requests == [0] && Abandoned(s, 0)
  {
  }

  lemma HeldStays(t: Broker)
    requires Invariant(t) && t.Sess(0).requests == [0]
    ensures 0 in t.requests
  {
    assert 0 in t.Sess(0).requests;
    assert HeldBy(t, 0, 0);
    assert RecordRetained(t, 0);
  }
}
