/**
 The server object of deadpool/remote/server.py: its fields, and its methods as they change them
 under the lock, each proved to do what the value functions of BrokerState say.
 */
module BrokerServer {
  import opened Options
  import opened SchedulerSpec
  import opened FairSchedulers
  import opened BrokerState
  import opened BrokerInvariant
  import opened BrokerWithin
  import opened BrokerDispatchSteps

  class DeadpoolServer {
    const config: Config
    const scheduler: FairScheduler<RecordId>
    var now: int
    var server: ServerState
    var sessions: seq<Session>
    var registered: set<SessionId>
    var clients: map<string, SessionId>
    var records: seq<Record>
    var requests: seq<RecordId>
    var reservedOutcomes: int
    var reservedBytes: int
    var staged: int
    var attempts: seq<Attempt>
    var lane: Lane
    var shutdownCancel: bool
    var shutdownDeadline: Option<int>
    var accepted: nat
    var running: nat
    var terminal: nat
    ghost var sent: seq<(RecordId, Frame)>
    ghost var piped: seq<RecordId>

    constructor (config: Config)
      ensures Valid() && View() == Init(config) && fresh(scheduler) && fresh(scheduler.Repr)
    {
      this.config := config;
      scheduler := new FairScheduler();
      now, server, sessions, registered, clients := 0, Serving, [], {}, map[];
      records, requests, reservedOutcomes, reservedBytes, staged := [], [], 0, 0, 0;
      attempts, lane, shutdownCancel, shutdownDeadline := [], AtTop, false, None;
      accepted, running, terminal, sent, piped := 0, 0, 0, [], [];
    }

    /** The value of the server, on which everything is proved. */
    ghost function View(): Broker
      reads this, scheduler
    {
      Broker(config, now, server, sessions, registered, clients, records, requests, reservedOutcomes, reservedBytes,
             scheduler.contents, staged, attempts, lane, shutdownCancel, shutdownDeadline, accepted, running, terminal, sent, piped)
    }

    ghost predicate Valid()
      reads scheduler, scheduler.Repr
    {
      scheduler.Valid()
    }

    function Rec(r: RecordId): (rec: Record)
      reads this
      ensures rec == View().Rec(r)
    {
      if r < |records| then records[r] else BLANK_RECORD
    }

    function Sess(sid: SessionId): (c: Session)
      reads this
      ensures c == View().Sess(sid)
    {
      if sid < |sessions| then sessions[sid] else BLANK_SESSION
    }

    function Att(a: AttemptId): (x: Attempt)
      reads this
      ensures x == View().Att(a)
    {
      if a < |attempts| then attempts[a] else BLANK_ATTEMPT
    }

    method SetRec(r: RecordId, rec: Record)
      modifies this`records
      ensures View() == old(View()).WithRec(r, rec)
    {
      if r < |records| { records := records[r := rec]; }
    }

    method SetSess(sid: SessionId, c: Session)
      modifies this`sessions
      ensures View() == old(View()).WithSess(sid, c)
    {
      if sid < |sessions| { sessions := sessions[sid := c]; }
    }

    method SetAtt(a: AttemptId, x: Attempt)
      modifies this`attempts
      ensures View() == old(View()).WithAtt(a, x)
    {
      if a < |attempts| { attempts := attempts[a := x]; }
    }

    // ---------- sending and deciding ----------

    /** `_ServerConnection.send` */
    method Send(sid: SessionId, ghost entry: seq<(RecordId, Frame)>)
      modifies this`sessions, this`sent
      ensures View() == Post(old(View()), sid, entry)
      ensures old(Sess(sid).closed) ==> View() == old(View())
      ensures sent == old(sent) || (sent == old(sent) + entry && !Sess(sid).closed)
      ensures entry != [] && sent == old(sent) ==> Sess(sid).closed
      ensures old(Sess(sid).outbound) <= config.outboundSize ==> Sess(sid).outbound <= config.outboundSize
      ensures |sessions| == old(|sessions|) && forall x :: 0 <= x < |sessions| && x != sid ==> sessions[x] == old(sessions)[x]
    {
      var c := Sess(sid);
      if c.closed { return; }
      if c.outbound < config.outboundSize {
        SetSess(sid, c.(outbound := c.outbound + 1));
        sent := sent + entry;
      } else {
        SetSess(sid, c.(closed := true));
      }
    }

    /** `_terminal_locked` */
    method TerminalLocked(r: RecordId, f: Frame)
      requires f.TerminalFrame?
      modifies this`records, this`terminal, this`sessions, this`sent
      ensures View() == Decide(old(View()), r, f)
    {
      hide Post, Broker.WithRec;
      ghost var s := View();
      var rec := Rec(r);
      if rec.state.Terminal? { return; }
      SetRec(r, rec.(state := Terminal(f.verdict), payload := [], terminal := Some(f)));
      terminal := terminal + 1;
      assert View() == s.WithRec(r, rec.(state := Terminal(f.verdict), payload := [], terminal := Some(f))).(terminal := s.terminal + 1);
      Send(Rec(r).session, [(r, f)]);
    }

    /** `_scheduler.remove(record)` finds a queued request in its own stream and nowhere else. */
    method RemoveFromScheduler(r: RecordId)
      requires Valid() && QueueExact(View()) && r < |records|
      modifies scheduler, scheduler.Repr
      ensures Valid() && scheduler.Repr == old(scheduler.Repr) && View() == Dequeue(old(View()), r)
    {
      ghost var s := View();
      var found := scheduler.Remove(r);
      if found {
        ghost var p, q :| r in Stream(s.queue, p, q) && scheduler.contents == SchedulerSpec.Remove(s.queue, p, q, r);
        assert BelongsTo(s, r, p, q);
      }
    }

    // ---------- retention ----------

    /** Both reservation counters of the session and of the server moved together. */
    method Reserve(sid: SessionId, outcomes: int, bytes: int)
      modifies this`sessions, this`reservedOutcomes, this`reservedBytes
      ensures View() == Charge(old(View()), sid, outcomes, bytes)
    {
      var c := Sess(sid);
      SetSess(sid, c.(reservedOutcomes := c.reservedOutcomes + outcomes, reservedBytes := c.reservedBytes + bytes));
      reservedOutcomes := reservedOutcomes + outcomes;
      reservedBytes := reservedBytes + bytes;
    }

    /** `_release_reservation_locked` */
    method ReleaseReservation(r: RecordId)
      modifies this`records, this`sessions, this`reservedOutcomes, this`reservedBytes
      ensures View() == BrokerState.ReleaseReservation(old(View()), r)
    {
      hide Broker.WithRec, Charge;
      var rec := Rec(r);
      if rec.reservationReleased { return; }
      SetRec(r, rec.(reservationReleased := true));
      Reserve(rec.session, -1, 0 - rec.reserved);
    }

    /** `_remove_request_locked` */
    method RemoveRequest(r: RecordId)
      modifies this`records, this`sessions, this`reservedOutcomes, this`reservedBytes, this`requests
      ensures View() == Forget(old(View()), r)
    {
      hide Broker.WithRec, Broker.WithSess, Drop, BrokerState.ReleaseReservation, ClearPayload;
      var sid := Rec(r).session;
      if sid !in registered { return; }
      ReleaseReservation(r);
      ReleaseFields(old(View()), r);
      ghost var t := View();
      SetRec(r, Rec(r).(payload := [], terminal := ClearPayload(Rec(r).terminal)));
      ghost var u := View();
      SetSess(sid, Sess(sid).(requests := Drop(Sess(sid).requests, r)));
      WithRecSessions(t, r, u.Rec(r));
      requests := Drop(requests, r);
    }

    /** `_purge_session_locked` */
    method PurgeSession(sid: SessionId)
      modifies this
      ensures View() == Purge(old(View()), sid)
    {
      hide Forget, EndSession;
      var todo := Sess(sid).requests;
      ForgetAll(todo);
      if Sess(sid).requests == [] { DropSession(sid); }
    }

    method ForgetAll(todo: seq<RecordId>)
      modifies this
      ensures View() == ForgetDecided(old(View()), todo)
    {
      hide Forget;
      var i := 0;
      while i < |todo|
        invariant i <= |todo|
        invariant ForgetDecided(View(), todo[i..]) == ForgetDecided(old(View()), todo)
      {
        assert todo[i..][1..] == todo[i + 1..];
        if Rec(todo[i]).state.Terminal? { RemoveRequest(todo[i]); }
        i := i + 1;
      }
    }

    method DropSession(sid: SessionId)
      modifies this`registered, this`clients
      ensures View() == EndSession(old(View()), sid)
    {
      registered := registered - {sid};
      var client := Sess(sid).client;
      if client in clients && clients[client] == sid { clients := clients - {client}; }
    }

    // ---------- completion and cancellation ----------

    /** `_complete_local` */
    method CompleteLocal(a: AttemptId, o: Outcome)
      modifies this
      ensures View() == Complete(old(View()), a, o)
    {
      hide Decide, Purge, Broker.WithAtt, GiveBack;
      ghost var s := View();
      var r := Att(a).record;
      var sid := Rec(r).session;
      FrameIsTerminal(o);
      TerminalLocked(r, FrameOf(o));
      ReleaseSlot(a);
      if Sess(sid).closed && sid in registered { PurgeSession(sid); }
    }

    method ReleaseSlot(a: AttemptId)
      modifies this`attempts, this`staged
      ensures View() == GiveBack(old(View()), a)
    {
      SetAtt(a, Att(a).(over := true));
      if staged != 0 { staged := staged - 1; }
    }

    /** `local_future.cancel()`, running the done-callback in this very region when there is one. */
    method CancelLocal(r: RecordId)
      modifies this
      ensures View() == CancelFuture(old(View()), r)
    {
      hide Complete, Broker.WithAtt;
      var future := Rec(r).future;
      if future.None? { return; }
      var a := future.value;
      var x := Att(a);
      if !x.future.Pending? { return; }
      SetAtt(a, x.(future := CancelledFuture));
      if x.watched { CompleteLocal(a, OutcomeOf(CancelledFuture)); }
    }

    method CancelQueuedRequest(r: RecordId, f: Frame)
      requires Valid() && QueueExact(View()) && r < |records| && f.TerminalFrame?
      modifies this, scheduler, scheduler.Repr
      ensures Valid() && scheduler.Repr == old(scheduler.Repr) && View() == CancelQueued(old(View()), r, f)
    {
      hide Decide, CancelFuture, Dequeue;
      RemoveFromScheduler(r);
      TerminalLocked(r, f);
      CancelLocal(r);
    }

    /** Deciding a running request, and killing its worker if it has one. */
    method Terminate(r: RecordId, f: Frame)
      requires f.TerminalFrame?
      modifies this
      ensures View() == Settle(old(View()), r, f)
    {
      hide Decide, CancelFuture;
      TerminalLocked(r, f);
      CancelLocal(r);
    }

    // ---------- loops over snapshots ----------

    /** What the loops over requests keep while they run. */
    ghost predicate InLoop(s: Broker, pass: Pass, todo: seq<RecordId>, i: nat)
      reads this, scheduler, scheduler.Repr
    {
      && Valid() && i <= |todo| && Dispatch(View()) && |records| == |s.records|
      && (forall r :: r in todo ==> r < |records|)
      && VisitAll(View(), pass, todo[i..]) == VisitAll(s, pass, todo)
    }

    lemma LoopStep(s: Broker, v: Broker, pass: Pass, todo: seq<RecordId>, i: nat)
      requires i < |todo| && Dispatch(v) && |v.records| == |s.records| && (forall r :: r in todo ==> r < |v.records|)
      requires VisitAll(v, pass, todo[i..]) == VisitAll(s, pass, todo)
      ensures var w := Visit(v, pass, todo[i]);
              Dispatch(w) && |w.records| == |s.records| && VisitAll(w, pass, todo[i + 1..]) == VisitAll(s, pass, todo)
    {
      hide Dispatch, Visit;
      assert todo[i] in todo;
      VisitDispatch(v, pass, todo[i]);
      VisitWithin(v, pass, todo[i]);
      SizesWithin(v, Visit(v, pass, todo[i]));
      assert todo[i..][1..] == todo[i + 1..];
    }

    // The bodies of the loops, for one request.

    method ExpireOne(r: RecordId)
      requires Valid() && Dispatch(View()) && r < |records|
      modifies this, scheduler, scheduler.Repr
      ensures Valid() && scheduler.Repr == old(scheduler.Repr) && View() == Visit(old(View()), ExpirePass, r)
    {
      hide Dispatch, CancelQueued, Settle;
      DispatchQueue(View());
      var rec := Rec(r);
      if rec.state == Queued && rec.deadline.Some? && now >= rec.deadline.value {
        CancelQueuedRequest(r, Because(QueueTimedOut, "queue_timeout"));
      }
    }

    method CancelInGroup(group: string, killable: set<RecordId>, r: RecordId)
      requires Valid() && Dispatch(View()) && r < |records|
      modifies this, scheduler, scheduler.Repr
      ensures Valid() && scheduler.Repr == old(scheduler.Repr) && View() == Visit(old(View()), GroupPass(group, killable), r)
    {
      hide Dispatch, CancelQueued, Settle;
      DispatchQueue(View());
      var rec := Rec(r);
      if rec.group == Some(group) {
        if rec.state == Queued {
          CancelQueuedRequest(r, Because(Cancelled, "group_cancelled"));
        } else if rec.state == Running && r in killable {
          Terminate(r, Because(Cancelled, "group_terminated"));
        }
      }
    }

    method LeaveOne(r: RecordId)
      requires Valid() && Dispatch(View()) && r < |records|
      modifies this, scheduler, scheduler.Repr
      ensures Valid() && scheduler.Repr == old(scheduler.Repr) && View() == Visit(old(View()), DisconnectPass, r)
    {
      hide Dispatch, CancelQueued, Settle;
      DispatchQueue(View());
      var rec := Rec(r);
      if rec.state == Queued {
        CancelQueuedRequest(r, Because(Cancelled, "disconnected"));
      } else if rec.state == Running && config.policy == TerminateWork && rec.future.Some? {
        Terminate(r, Because(Cancelled, "disconnected_terminate"));
      }
    }

    method CancelOne(r: RecordId)
      requires Valid() && Dispatch(View()) && r < |records|
      modifies this, scheduler, scheduler.Repr
      ensures Valid() && scheduler.Repr == old(scheduler.Repr) && View() == Visit(old(View()), ShutdownCancelPass, r)
    {
      hide Dispatch, CancelQueued, Settle;
      DispatchQueue(View());
      var rec := Rec(r);
      if rec.state == Queued { CancelQueuedRequest(r, Because(Cancelled, "server_shutdown")); }
    }

    method EndOne(r: RecordId)
      requires Valid() && Dispatch(View()) && r < |records|
      modifies this, scheduler, scheduler.Repr
      ensures Valid() && scheduler.Repr == old(scheduler.Repr) && View() == Visit(old(View()), ShutdownDeadlinePass, r)
    {
      hide Dispatch, CancelQueued, Settle;
      DispatchQueue(View());
      var rec := Rec(r);
      if rec.state == Queued {
        CancelQueuedRequest(r, Because(Cancelled, "shutdown_deadline"));
      } else if rec.state == Running && rec.future.Some? {
        Terminate(r, Because(Cancelled, "shutdown_deadline"));
      }
    }

    /** `_expire_queued_locked` */
    method ExpireQueued()
      requires Valid() && Dispatch(View()) && ListsOk(View())
      modifies this, scheduler, scheduler.Repr
      ensures Valid() && scheduler.Repr == old(scheduler.Repr) && View() == VisitAll(old(View()), ExpirePass, old(requests))
    {
      hide Dispatch, Visit, VisitAll;
      ghost var s := View();
      var todo, i := requests, 0;
      assert todo[0..] == todo;
      while i < |todo|
        invariant scheduler.Repr == old(scheduler.Repr) && InLoop(s, ExpirePass, todo, i)
      {
        assert todo[i] in todo;
        LoopStep(s, View(), ExpirePass, todo, i);
        ExpireOne(todo[i]);
        i := i + 1;
      }
      assert todo[i..] == [];
      NothingLeft(View(), ExpirePass);
    }

    /** The loop of `_cancel_group`; `killable` are the requests a hard request is authorized for. */
    method CancelGroup(sid: SessionId, group: string, killable: set<RecordId>)
      requires Valid() && Dispatch(View()) && ListsOk(View())
      modifies this, scheduler, scheduler.Repr
      ensures Valid() && scheduler.Repr == old(scheduler.Repr) && View() == GroupCancelledBy(old(View()), sid, group, killable)
    {
      hide Dispatch, Visit, VisitAll, Post;
      if Sess(sid).disconnected { return; }
      ghost var s := View();
      var todo, i := Sess(sid).requests, 0;
      assert todo[0..] == todo;
      while i < |todo|
        invariant scheduler.Repr == old(scheduler.Repr) && InLoop(s, GroupPass(group, killable), todo, i)
      {
        assert todo[i] in todo;
        LoopStep(s, View(), GroupPass(group, killable), todo, i);
        CancelInGroup(group, killable, todo[i]);
        i := i + 1;
      }
      assert todo[i..] == [];
      NothingLeft(View(), GroupPass(group, killable));
      Send(sid, []);
    }

    /** `_disconnect` */
    method Disconnect(sid: SessionId)
      requires Valid() && Dispatch(View()) && ListsOk(View())
      modifies this, scheduler, scheduler.Repr
      ensures Valid() && scheduler.Repr == old(scheduler.Repr) && View() == Disconnected(old(View()), sid)
    {
      hide Dispatch, VisitAll, Purge;
      var c := Sess(sid);
      if c.disconnected { return; }
      SessionOnlyDispatch(View(), sid, c.(closed := true, disconnected := true));
      SetSess(sid, c.(closed := true, disconnected := true));
      if !c.cleanClose && config.policy != ContinueWork { LeaveRequests(c.requests); }
      PurgeSession(sid);
    }

    method LeaveRequests(todo: seq<RecordId>)
      requires Valid() && Dispatch(View()) && forall r :: r in todo ==> r < |records|
      modifies this, scheduler, scheduler.Repr
      ensures Valid() && scheduler.Repr == old(scheduler.Repr) && View() == VisitAll(old(View()), DisconnectPass, todo)
    {
      hide Dispatch, Visit, VisitAll;
      ghost var s := View();
      var i := 0;
      assert todo[0..] == todo;
      while i < |todo|
        invariant scheduler.Repr == old(scheduler.Repr) && InLoop(s, DisconnectPass, todo, i)
      {
        assert todo[i] in todo;
        LoopStep(s, View(), DisconnectPass, todo, i);
        LeaveOne(todo[i]);
        i := i + 1;
      }
      assert todo[i..] == [];
      NothingLeft(View(), DisconnectPass);
    }

    method AnyUndecided() returns (some: bool)
      ensures some <==> !AllDecided(View(), requests)
    {
      for i := 0 to |requests|
        invariant forall j :: 0 <= j < i ==> View().Decided(requests[j])
      {
        assert requests[i] in requests;
        if !Rec(requests[i]).state.Terminal? { return true; }
      }
      return false;
    }

    method CancelAllQueued()
      requires Valid() && Dispatch(View()) && ListsOk(View())
      modifies this, scheduler, scheduler.Repr
      ensures Valid() && scheduler.Repr == old(scheduler.Repr) && View() == VisitAll(old(View()), ShutdownCancelPass, old(requests))
    {
      hide Dispatch, Visit, VisitAll;
      ghost var s := View();
      var todo, i := requests, 0;
      assert todo[0..] == todo;
      while i < |todo|
        invariant scheduler.Repr == old(scheduler.Repr) && InLoop(s, ShutdownCancelPass, todo, i)
      {
        assert todo[i] in todo;
        LoopStep(s, View(), ShutdownCancelPass, todo, i);
        CancelOne(todo[i]);
        i := i + 1;
      }
      assert todo[i..] == [];
      NothingLeft(View(), ShutdownCancelPass);
    }

    method EndAll()
      requires Valid() && Dispatch(View()) && ListsOk(View())
      modifies this, scheduler, scheduler.Repr
      ensures Valid() && scheduler.Repr == old(scheduler.Repr) && View() == VisitAll(old(View()), ShutdownDeadlinePass, old(requests))
    {
      hide Dispatch, Visit, VisitAll;
      ghost var s := View();
      var todo, i := requests, 0;
      assert todo[0..] == todo;
      while i < |todo|
        invariant scheduler.Repr == old(scheduler.Repr) && InLoop(s, ShutdownDeadlinePass, todo, i)
      {
        assert todo[i] in todo;
        LoopStep(s, View(), ShutdownDeadlinePass, todo, i);
        EndOne(todo[i]);
        i := i + 1;
      }
      assert todo[i..] == [];
      NothingLeft(View(), ShutdownDeadlinePass);
    }

    /** One lock-held round of `_finish_shutdown`. */
    method FinishShutdown()
      requires Valid() && Dispatch(View()) && ListsOk(View())
      modifies this, scheduler, scheduler.Repr
      ensures Valid() && scheduler.Repr == old(scheduler.Repr) && View() == ShutdownRound(old(View()))
    {
      hide Dispatch, VisitAll;
      ghost var s := View();
      if server == Stopping {
        server := Stopped;
      } else if server == Draining {
        var some := AnyUndecided();
        if !some {
          server := Stopping;
          return;
        }
        if shutdownCancel {
          VisitAllDispatch(s, ShutdownCancelPass, requests);
          VisitAllWithin(s, ShutdownCancelPass, requests);
          CancelAllQueued();
          ListsWithinOk(s, View());
          SameDeadline(s, View());
        }
        if shutdownDeadline.Some? && now >= shutdownDeadline.value {
          EndAll();
          server := Stopping;
        }
      }
    }

    // ---------- joining ----------

    /** The lock-held part of `_handshake`, for a client that passed its checks. */
    method Handshake(client: string, principal: Principal, offered: nat)
      modifies this`sessions, this`registered, this`clients
      ensures View() == Handshaken(old(View()), client, principal, offered)
    {
      if offered == 0 || client in clients { return; }
      var sameHolder := set sid | sid in registered && Sess(sid).principal == principal;
      assert sameHolder == set sid | sid in View().registered && View().Sess(sid).principal == principal;
      if |sameHolder| >= config.maxConnections { return; }
      var limit := Min(Min(offered, config.maxResultBytes), Min(config.maxBytesSession, config.maxBytesGlobal));
      var sid := |sessions|;
      sessions := sessions + [Session(client, principal, limit, 0, 0, 0, [], false, false, false, 0)];
      registered := registered + {sid};
      clients := clients[client := sid];
    }

    // ---------- messages from a client ----------

    method FindRequest(rs: seq<RecordId>, id: RequestId) returns (found: Option<RecordId>)
      ensures found == Find(View(), rs, id)
    {
      assert rs[0..] == rs;
      for i := 0 to |rs|
        invariant Find(View(), rs, id) == Find(View(), rs[i..], id)
      {
        if Rec(rs[i]).id == id { return Some(rs[i]); }
        assert rs[i..][1..] == rs[i + 1..];
      }
      return None;
    }

    method PrincipalRecords(principal: Principal) returns (n: nat)
      ensures n == CountPrincipal(View(), requests, principal)
    {
      n := 0;
      assert requests[0..] == requests;
      for i := 0 to |requests|
        invariant n + CountPrincipal(View(), requests[i..], principal) == CountPrincipal(View(), requests, principal)
      {
        if Rec(requests[i]).principal == principal { n := n + 1; }
        assert requests[i..][1..] == requests[i + 1..];
      }
    }

    /** The checks of `_submit` that refuse a request once its sequence number is spent. */
    method Acceptable(sid: SessionId, msg: Submission, authorized: bool) returns (ok: bool)
      ensures ok == Admissible(View(), sid, msg, authorized)
    {
      if server != Serving { return false; }
      var c := Sess(sid);
      var principalRecords := PrincipalRecords(c.principal);
      if || |c.requests| >= config.maxPendingSession
         || principalRecords >= config.maxPendingPrincipal
         || |requests| >= config.maxPendingGlobal
         || c.reservedOutcomes >= config.maxOutcomesSession
         || reservedOutcomes >= config.maxOutcomesGlobal
         || c.reservedBytes + c.maxResult > config.maxBytesSession
         || reservedBytes + c.maxResult > config.maxBytesGlobal
      {
        return false;
      }
      if |msg.payload| > config.maxInvocationBytes { return false; }
      if msg.mode != "callable" && msg.mode != "registered" { return false; }
      if msg.mode == "registered" && msg.operation !in config.registry { return false; }
      return authorized && msg.numbersValid && msg.priority.Some?;
    }

    /** A new record is retained by its session and by the server. */
    method Enroll(sid: SessionId, rec: Record)
      modifies this`sessions, this`reservedOutcomes, this`reservedBytes, this`records, this`requests, this`accepted
      ensures var s, r := old(View()), old(|records|);
              View() == Charge(s.WithSess(sid, s.Sess(sid).(requests := s.Sess(sid).requests + [r])), sid, 1, rec.reserved)
                         .(records := s.records + [rec], requests := s.requests + [r], accepted := s.accepted + 1)
    {
      hide Charge, Broker.WithSess;
      var c := Sess(sid);
      var r := |records|;
      SetSess(sid, c.(requests := c.requests + [r]));
      ghost var u := View();
      Reserve(sid, 1, rec.reserved);
      ReserveFields(old(View()), u, sid, c.(requests := c.requests + [r]), rec.reserved);
      AddRecord(rec);
    }

    method AddRecord(rec: Record)
      modifies this`records, this`requests, this`accepted
      ensures var s := old(View());
              View() == s.(records := s.records + [rec], requests := s.requests + [|s.records|], accepted := s.accepted + 1)
    {
      requests := requests + [|records|];
      records := records + [rec];
      accepted := accepted + 1;
    }

    method PutInScheduler(r: RecordId, priority: int, principal: Principal)
      requires Valid()
      modifies scheduler, scheduler.Repr
      ensures Valid() && fresh(scheduler.Repr - old(scheduler.Repr))
      ensures var s := old(View()); View() == s.(queue := SchedulerSpec.Put(s.queue, r, priority, principal, false))
    {
      scheduler.Put(r, priority, principal);
    }

    method Accept(sid: SessionId, msg: Submission)
      requires Valid()
      modifies this, scheduler, scheduler.Repr
      ensures Valid() && fresh(scheduler.Repr - old(scheduler.Repr)) && View() == Admit(old(View()), sid, msg)
    {
      hide Post, SchedulerSpec.Put, Charge, Broker.WithSess, Admit;
      ghost var s := View();
      var r: RecordId := |records|;
      var rec := Record(msg.id, msg.digest, sid, Sess(sid).principal, if msg.priority.Some? then msg.priority.value else 0,
                        if msg.queueTimeout.Some? then Some(now + msg.queueTimeout.value) else None,
                        msg.group, msg.payload, Sess(sid).maxResult, Queued, None, None, false, false);
      Enroll(sid, rec);
      PutInScheduler(r, rec.priority, rec.principal);
      AdmitInParts(s, sid, msg, r, rec);
      Send(sid, [(r, AcceptedFrame)]);
    }

    /** The lock-held part of `_submit` */
    method Submit(sid: SessionId, msg: Submission, authorized: bool)
      requires Valid()
      modifies this, scheduler, scheduler.Repr
      ensures Valid() && fresh(scheduler.Repr - old(scheduler.Repr)) && View() == Submitted(old(View()), sid, msg, authorized)
    {
      hide Post, Admit, Admissible, CurrentFrame;
      var c := Sess(sid);
      if c.disconnected || msg.id.client != c.client { return; }
      var known := FindRequest(c.requests, msg.id);
      if known.Some? {
        if Rec(known.value).digest == msg.digest { SendRecord(known.value); }
        return;
      }
      if msg.id.sequence <= c.watermark {
        Send(sid, []);
        return;
      }
      SetSess(sid, c.(watermark := msg.id.sequence));
      var ok := Acceptable(sid, msg, authorized);
      if ok { Accept(sid, msg); } else { Send(sid, []); }
    }

    /** `_send_record` */
    method SendRecord(r: RecordId)
      modifies this`sessions, this`sent
      ensures var s := old(View());
              View() == if CurrentFrame(s, r).Some? then Tell(s, r, CurrentFrame(s, r).value) else s
    {
      hide Post;
      var rec := Rec(r);
      match rec.state
      case Queued => Send(rec.session, [(r, AcceptedFrame)]);
      case Running => Send(rec.session, [(r, RunningFrame(if rec.future.Some? then Att(rec.future.value).pid else None))]);
      case Terminal(_) => if rec.terminal.Some? { Send(rec.session, [(r, rec.terminal.value)]); }
    }

    /** RESULT_ACK */
    method Acknowledge(sid: SessionId, id: RequestId)
      modifies this
      ensures View() == Acknowledged(old(View()), sid, id)
    {
      hide Forget;
      var c := Sess(sid);
      var known := FindRequest(c.requests, id);
      if !c.disconnected && known.Some? && Rec(known.value).state.Terminal? { RemoveRequest(known.value); }
    }

    /** CLOSE_SESSION */
    method CloseCleanly(sid: SessionId)
      modifies this`sessions, this`sent
      ensures View() == ClosedCleanly(old(View()), sid)
    {
      hide Post;
      var c := Sess(sid);
      if c.disconnected { return; }
      for i := 0 to |c.requests|
        invariant View() == old(View())
        invariant forall j :: 0 <= j < i ==> View().Decided(c.requests[j])
      {
        assert c.requests[i] in c.requests;
        if !Rec(c.requests[i]).state.Terminal? { return; }
      }
      SetSess(sid, c.(cleanClose := true));
      Send(sid, []);
    }

    /** `_cancel` */
    method CancelRequest(sid: SessionId, id: RequestId, hard: bool, authorized: bool) returns (reply: Option<Reply>)
      requires Valid() && Dispatch(View()) && ListsOk(View())
      modifies this, scheduler, scheduler.Repr
      ensures reply == if old(Sess(sid)).disconnected then None else Some(CancelReply(old(View()), sid, id, hard, authorized))
      ensures Valid() && scheduler.Repr == old(scheduler.Repr) && View() == CancelledBy(old(View()), sid, id, hard, authorized)
    {
      hide Dispatch, Post, CancelQueued, Settle;
      var c := Sess(sid);
      if c.disconnected { return None; }
      var known := FindRequest(c.requests, id);
      FindIn(View(), c.requests, id);
      DispatchQueue(View());
      var answer := UnknownRequest;
      if known.Some? {
        var rec := Rec(known.value);
        if rec.state == Queued {
          CancelQueuedRequest(known.value, Because(Cancelled, "cancelled"));
          answer := NowCancelled;
        } else if rec.state == Running && hard && authorized {
          Terminate(known.value, Because(Cancelled, "terminated"));
          answer := NowCancelled;
        } else if rec.state == Running {
          answer := StillRuns;
        } else {
          answer := AlreadyTerminal;
        }
      }
      Send(sid, []);
      return Some(answer);
    }

    // ---------- the dispatch loop and the claim ----------

    method PopScheduler() returns (popped: Option<RecordId>)
      requires Valid()
      modifies scheduler, scheduler.Repr
      ensures Valid() && scheduler.Repr == old(scheduler.Repr)
      ensures var s := old(View());
              if popped.None? then View() == s && s.queue == map[]
              else exists p :: IsLeast(s.queue, p) && CanPop(s.queue, p) && popped == Some(PopItem(s.queue, p))
                               && View() == s.(queue := SchedulerSpec.Pop(s.queue, p))
    {
      hide SchedulerSpec.Pop, Ok;
      ghost var s := View();
      popped := scheduler.Pop();
      if popped.Some? {
        ghost var p :| IsLeast(s.queue, p) && CanPop(s.queue, p) && popped == Some(PopItem(s.queue, p))
                       && scheduler.contents == SchedulerSpec.Pop(s.queue, p);
        assert View() == s.(queue := SchedulerSpec.Pop(s.queue, p));
      }
    }

    /** The lock-held head of the dispatch loop, once it need not wait. */
    method StageNext()
      requires Valid()
      modifies this, scheduler, scheduler.Repr
      ensures Valid() && scheduler.Repr == old(scheduler.Repr) && View() == Next(old(View()), Stage)
    {
      hide SchedulerSpec.Pop, PopItem, Staged, Next;
      ghost var s := View();
      NothingToStage(s);
      if !lane.AtTop? || (server != Serving && server != Draining) || staged >= config.maxStaged { return; }
      var popped := PopScheduler();
      if popped.None? { return; }
      ghost var p :| IsLeast(s.queue, p) && CanPop(s.queue, p) && popped == Some(PopItem(s.queue, p))
                     && View() == s.(queue := SchedulerSpec.Pop(s.queue, p));
      StageIs(s, p);
      StagePopped(popped.value, s, p);
    }

    /** The record part: a popped request that is still queued gets an attempt. */
    method StagePopped(r: RecordId, ghost s: Broker, ghost p: int)
      requires CanPop(s.queue, p) && r == PopItem(s.queue, p) && View() == s.(queue := SchedulerSpec.Pop(s.queue, p))
      modifies this`records, this`staged, this`lane, this`attempts
      ensures View() == Staged(s, p)
    {
      hide SchedulerSpec.Pop, PopItem, Broker.WithRec;
      if Rec(r).state == Queued { Attach(r); }
    }

    /** A new attempt for a popped request. */
    method Attach(r: RecordId)
      modifies this`records, this`staged, this`lane, this`attempts
      ensures var s, a := old(View()), old(|attempts|);
              View() == s.WithRec(r, s.Rec(r).(future := Some(a)))
                         .(staged := s.staged + 1, lane := Offering(a),
                           attempts := s.attempts + [Attempt(r, Offered, Pending, false, false, None)])
    {
      var a := |attempts|;
      SetRec(r, Rec(r).(future := Some(a)));
      staged := staged + 1;
      lane := Offering(a);
      attempts := attempts + [Attempt(r, Offered, Pending, false, false, None)];
    }

    /** The refused attempt ends and its request has none again. */
    method Detach(a: AttemptId, r: RecordId)
      modifies this`records, this`attempts, this`staged, this`lane
      ensures var s := old(View());
              View() == s.WithRec(r, s.Rec(r).(future := None)).WithAtt(a, s.Att(a).(over := true)).(staged := s.staged - 1, lane := AtTop)
    {
      var x := Att(a);
      SetRec(r, Rec(r).(future := None));
      SetAtt(a, x.(over := true));
      staged := staged - 1;
      lane := AtTop;
    }

    /** The pool's backlog was full. */
    method Restore()
      requires Valid() && lane.Refused?
      modifies this, scheduler, scheduler.Repr
      ensures Valid() && fresh(scheduler.Repr - old(scheduler.Repr)) && View() == Restored(old(View()))
    {
      hide SchedulerSpec.Put, Broker.WithRec, Broker.WithAtt;
      ghost var s := View();
      var a := lane.a;
      var r := Att(a).record;
      var rec := Rec(r);
      Detach(a, r);
      RestoreFields(s, r, rec.(future := None), a, s.Att(a).(over := true));
      ghost var t := View();
      if rec.state == Queued {
        scheduler.PutFront(r, rec.priority, rec.principal);
        assert View() == t.(queue := SchedulerSpec.Put(s.queue, r, rec.priority, rec.principal, true));
      }
    }

    /** The pool refused for another reason. */
    method GiveUp(message: string)
      requires lane.Broken?
      modifies this
      ensures View() == GivenUp(old(View()), message)
    {
      hide Complete;
      CompleteLocal(lane.a, Raised(message));
      lane := AtTop;
    }

    /** The pool took the attempt. */
    method Watch()
      requires lane.Taken?
      modifies this
      ensures View() == Watched(old(View()))
      ensures lane == AtTop && staged == old(staged) && |attempts| == old(|attempts|) && |records| == old(|records|)
      ensures forall a :: 0 <= a < |attempts| ==>
                attempts[a] == if a == old(lane.a) then old(attempts)[a].(watched := true) else old(attempts)[a]
      ensures forall r :: 0 <= r < |records| ==>
                records[r] == if r == old(Att(lane.a).record) then old(records)[r].(payload := []) else old(records)[r]
    {
      var a := lane.a;
      var r := Att(a).record;
      SetRec(r, Rec(r).(payload := []));
      SetAtt(a, Att(a).(watched := true));
      lane := AtTop;
    }

    /** `_claim_dispatch` */
    method ClaimDispatch(a: AttemptId, pid: int) returns (granted: bool)
      modifies this
      ensures (View(), granted) == Claiming(old(View()), a, pid)
    {
      hide Settle, Granted;
      var r := Att(a).record;
      var rec := Rec(r);
      if rec.state == Queued {
        if rec.deadline.Some? && now >= rec.deadline.value {
          Terminate(r, Because(QueueTimedOut, "queue_timeout"));
          return false;
        }
      } else if rec.state != Running {
        return false;
      }
      Grant(r, pid);
      granted := true;
    }

    /** The rest of `_claim_dispatch`, for a request that may run. */
    method Grant(r: RecordId, pid: int)
      modifies this`records, this`running, this`attempts, this`sessions, this`sent
      ensures View() == Granted(old(View()), r, pid)
    {
      hide Post, Broker.WithRec, Broker.WithAtt;
      var rec := Rec(r);
      MarkRunning(r);
      if rec.future.Some? { SetAtt(rec.future.value, Att(rec.future.value).(pid := Some(pid))); }
      Send(Rec(r).session, [(r, RunningFrame(Some(pid)))]);
    }

    method MarkRunning(r: RecordId)
      modifies this`records, this`running
      ensures var s := old(View());
              View() == if s.Rec(r).state == Queued
                        then s.WithRec(r, s.Rec(r).(state := Running, claimed := true)).(running := s.running + 1) else s
    {
      hide Broker.WithRec;
      var rec := Rec(r);
      if rec.state != Queued { return; }
      SetRec(r, rec.(state := Running, claimed := true));
      running := running + 1;
    }

    /** `_pool_done` */
    method PoolDone(a: AttemptId)
      modifies this
      ensures View() == Notified(old(View()), a)
    {
      hide Complete;
      var x := Att(a);
      if x.watched && !x.future.Pending? && !x.over { CompleteLocal(a, OutcomeOf(x.future)); }
    }

    /** `shutdown`, once the server is up */
    method Shutdown(cancel: bool, deadline: Option<int>)
      modifies this`server, this`shutdownCancel, this`shutdownDeadline
      ensures View() == ShutdownRequested(old(View()), cancel, deadline)
      ensures server == if old(server) == Serving then Draining else old(server)
      ensures old(shutdownCancel) ==> shutdownCancel
      ensures cancel && server != Stopped ==> shutdownCancel
      ensures old(shutdownDeadline).Some? ==> shutdownDeadline.Some? && shutdownDeadline.value <= old(shutdownDeadline).value
      ensures deadline.Some? && server != Stopped ==> shutdownDeadline.Some? && shutdownDeadline.value <= now + deadline.value
      ensures shutdownDeadline == old(shutdownDeadline) || (deadline.Some? && shutdownDeadline == Some(now + deadline.value))
    {
      ShutdownMeans(View(), cancel, deadline);
      hide ShutdownRequested;
      RequestShutdown(cancel, deadline);
    }

    method RequestShutdown(cancel: bool, deadline: Option<int>)
      modifies this`server, this`shutdownCancel, this`shutdownDeadline
      ensures View() == ShutdownRequested(old(View()), cancel, deadline)
    {
      if server == Stopped { return; }
      if server == Serving { server := Draining; }
      shutdownCancel := shutdownCancel || cancel;
      TightenDeadline(deadline);
    }

    method TightenDeadline(deadline: Option<int>)
      modifies this`shutdownDeadline
      ensures var s := old(View());
              View() == s.(shutdownDeadline :=
                             if deadline.Some? && (s.shutdownDeadline.None? || s.now + deadline.value < s.shutdownDeadline.value)
                             then Some(s.now + deadline.value) else s.shutdownDeadline)
    {
      if deadline.Some? && (shutdownDeadline.None? || now + deadline.value < shutdownDeadline.value) {
        shutdownDeadline := Some(now + deadline.value);
      }
    }
  }

  lemma ReleaseFields(s: Broker, r: RecordId)
    ensures ReleaseReservation(s, r).requests == s.requests && ReleaseReservation(s, r).registered == s.registered
  {
  }

  lemma WithRecSessions(s: Broker, r: RecordId, rec: Record)
    ensures s.WithRec(r, rec).sessions == s.sessions
  {
  }

  lemma DispatchQueue(s: Broker)
    requires Dispatch(s)
    ensures QueueExact(s)
  {
  }

  lemma ListsWithinOk(s: Broker, t: Broker)
    requires Within(s, t) && ListsOk(s)
    ensures ListsOk(t)
  {
    forall sid, r | 0 <= sid < |t.sessions| && r in t.sessions[sid].requests ensures r < |t.records| {
      assert SessionWithin(s.sessions[sid], t.sessions[sid]);
    }
  }

  /** The latches of a shutdown only ever tighten. */
  lemma ShutdownMeans(s: Broker, cancel: bool, deadline: Option<int>)
    ensures var t := ShutdownRequested(s, cancel, deadline);
            && t.server == (if s.server == Serving then Draining else s.server)
            && (s.shutdownCancel ==> t.shutdownCancel) && (cancel && t.server != Stopped ==> t.shutdownCancel)
            && (s.shutdownDeadline.Some? ==> t.shutdownDeadline.Some? && t.shutdownDeadline.value <= s.shutdownDeadline.value)
            && (deadline.Some? && t.server != Stopped ==> t.shutdownDeadline.Some? && t.shutdownDeadline.value <= s.now + deadline.value)
            && (t.shutdownDeadline == s.shutdownDeadline || (deadline.Some? && t.shutdownDeadline == Some(s.now + deadline.value)))
            && t.now == s.now
  {
  }

  lemma NothingLeft(s: Broker, pass: Pass)
    ensures VisitAll(s, pass, []) == s
  {
  }

  lemma NothingToStage(s: Broker)
    ensures s.queue == map[] || !s.lane.AtTop? || (s.server != Serving && s.server != Draining) || s.staged >= s.config.maxStaged ==>
              Next(s, Stage) == s
  {
  }

  lemma ReserveFields(s: Broker, u: Broker, sid: SessionId, c: Session, bytes: int)
    requires u == s.WithSess(sid, c)
    ensures var t := Charge(u, sid, 1, bytes);
            t == s.(sessions := t.sessions, reservedOutcomes := t.reservedOutcomes, reservedBytes := t.reservedBytes)
  {
  }

  lemma RestoreFields(s: Broker, r: RecordId, rec: Record, a: AttemptId, x: Attempt)
    ensures var t := s.WithRec(r, rec).WithAtt(a, x);
            t == s.(records := t.records, attempts := t.attempts)
  {
  }

  lemma AdmitInParts(s: Broker, sid: SessionId, msg: Submission, r: RecordId, rec: Record)
    requires r == |s.records| && rec == NewRecord(s, sid, msg)
    ensures var t := Charge(s.WithSess(sid, s.Sess(sid).(requests := s.Sess(sid).requests + [r])), sid, 1, rec.reserved)
                       .(records := s.records + [rec], requests := s.requests + [r], accepted := s.accepted + 1);
            Admit(s, sid, msg) == Post(t.(queue := SchedulerSpec.Put(t.queue, r, rec.priority, rec.principal, false)), sid, [(r, AcceptedFrame)])
  {
    hide Post, SchedulerSpec.Put;
  }
}
