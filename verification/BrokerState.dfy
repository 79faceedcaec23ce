/**
 The broker of deadpool/remote/server.py as a value, and every region it runs under its lock
 as one function on that value. Sessions, requests and dispatch attempts are identified by
 their position, which stands for object identity. `sent`, `piped` and the `claimed` flag of a
 request are history: the broker never reads them. An attempt is `over` when its slot has been
 given back; for a watched one that is the future's own memory that it has run its callbacks,
 which the standard library promises to do once.
 */
module BrokerState {
  import opened Options
  import opened ByteStrings
  import opened Seqs
  import opened SchedulerSpec

  type SessionId = nat
  type RecordId = nat
  type AttemptId = nat

  datatype Policy = CancelQueuedWork | ContinueWork | TerminateWork

  datatype ServerState = Serving | Draining | Stopping | Stopped

  /** An id `client:rest` whose last part parses as `sequence`; client ids contain no colon. */
  datatype RequestId = RequestId(client: string, rest: string, sequence: int)

  datatype Verdict =
    | Succeeded | TaskFailed | ExecutionTimedOut | Cancelled | QueueTimedOut
    | WorkerLost | ResultEncodingFailed | ResultTooLarge

  datatype RequestState = Queued | Running | Terminal(verdict: Verdict)

  datatype Frame =
    | AcceptedFrame
    | RunningFrame(pid: Option<int>)
    | TerminalFrame(verdict: Verdict, control: string, payload: Bytes)

  datatype Record = Record(
    id: RequestId, digest: string, session: SessionId, principal: Principal, priority: int,
    deadline: Option<int>, group: Option<string>, payload: Bytes, reserved: nat,
    state: RequestState, future: Option<AttemptId>, terminal: Option<Frame>,
    reservationReleased: bool, claimed: bool)

  datatype Session = Session(
    client: string, principal: Principal, maxResult: nat, watermark: int,
    reservedOutcomes: int, reservedBytes: int, requests: seq<RecordId>,
    closed: bool, cleanClose: bool, disconnected: bool, outbound: nat)

  /** What the local pool makes of a future. */
  datatype Outcome =
    | Returned(verdict: Verdict, control: string, payload: Bytes)
    | TimedOut(message: string)
    | Raised(message: string)

  datatype Future = Pending | CancelledFuture | Resolved(outcome: Outcome)

  /** Where the local pool is with an attempt: not accepted yet, in its backlog, with a task thread
      before or after a successful claim, or finished. */
  datatype Phase = Offered | Waiting | Started | Claimed | Finished

  datatype Attempt = Attempt(record: RecordId, phase: Phase, future: Future, watched: bool, over: bool, pid: Option<int>)

  /** Where the dispatch loop is between its lock-held regions. */
  datatype Lane = AtTop | Offering(a: AttemptId) | Refused(a: AttemptId) | Broken(a: AttemptId) | Taken(a: AttemptId)

  datatype Config = Config(
    policy: Policy, registry: set<string>, maxResultBytes: nat, maxInvocationBytes: nat,
    maxPendingSession: nat, maxPendingPrincipal: nat, maxPendingGlobal: nat,
    maxOutcomesSession: nat, maxOutcomesGlobal: nat, maxBytesSession: nat, maxBytesGlobal: nat,
    maxStaged: nat, outboundSize: nat, maxConnections: nat)

  datatype Broker = Broker(
    config: Config, now: int, server: ServerState,
    sessions: seq<Session>, registered: set<SessionId>, clients: map<string, SessionId>,
    records: seq<Record>, requests: seq<RecordId>, reservedOutcomes: int, reservedBytes: int,
    queue: Sched<RecordId>, staged: int, attempts: seq<Attempt>, lane: Lane,
    shutdownCancel: bool, shutdownDeadline: Option<int>,
    accepted: nat, running: nat, terminal: nat,
    sent: seq<(RecordId, Frame)>, piped: seq<RecordId>)
  {
    // Reading an identity that names nothing gives a blank object, writing it changes nothing;
    // the invariant shows that neither happens.
    function Rec(r: RecordId): Record {
      if r < |records| then records[r] else BLANK_RECORD
    }

    function Sess(sid: SessionId): Session {
      if sid < |sessions| then sessions[sid] else BLANK_SESSION
    }

    function Att(a: AttemptId): Attempt {
      if a < |attempts| then attempts[a] else BLANK_ATTEMPT
    }

    function WithRec(r: RecordId, rec: Record): Broker {
      if r < |records| then this.(records := records[r := rec]) else this
    }

    function WithSess(sid: SessionId, c: Session): Broker {
      if sid < |sessions| then this.(sessions := sessions[sid := c]) else this
    }

    function WithAtt(a: AttemptId, x: Attempt): Broker {
      if a < |attempts| then this.(attempts := attempts[a := x]) else this
    }

    predicate Decided(r: RecordId) {
      Rec(r).state.Terminal?
    }
  }

  const BLANK_RECORD := Record(RequestId("", "", 0), "", 0, "", 0, None, None, [], 0, Queued, None, None, false, false)
  const BLANK_SESSION := Session("", "", 0, 0, 0, 0, [], true, false, false, 0)
  const BLANK_ATTEMPT := Attempt(0, Finished, Pending, false, true, None)

  function Init(config: Config): Broker {
    Broker(config, 0, Serving, [], {}, map[], [], [], 0, 0, map[], 0, [], AtTop, false, None, 0, 0, 0, [], [])
  }

  // ---------- small pieces ----------

  /** `_ServerConnection.send`: dropped when closed, and closing when the outbound queue is full. */
  function Post(s: Broker, sid: SessionId, entry: seq<(RecordId, Frame)>): Broker {
    var c := s.Sess(sid);
    if c.closed then s
    else if c.outbound < s.config.outboundSize then
      s.WithSess(sid, c.(outbound := c.outbound + 1)).(sent := s.sent + entry)
    else s.WithSess(sid, c.(closed := true))
  }

  function Tell(s: Broker, r: RecordId, f: Frame): Broker {
    Post(s, s.Rec(r).session, [(r, f)])
  }

  /** `_terminal_locked`; `f` is a terminal frame. */
  function Decide(s: Broker, r: RecordId, f: Frame): Broker {
    if s.Decided(r) || !f.TerminalFrame? then s
    else
      var rec := s.Rec(r).(state := Terminal(f.verdict), payload := [], terminal := Some(f));
      Tell(s.WithRec(r, rec).(terminal := s.terminal + 1), r, f)
  }

  /** `_scheduler.remove(record)` */
  function Dequeue(s: Broker, r: RecordId): Broker {
    var rec := s.Rec(r);
    if r in Stream(s.queue, rec.priority, rec.principal)
    then s.(queue := Remove(s.queue, rec.priority, rec.principal, r)) else s
  }

  // ---------- retention ----------

  /** Both reservation counters of a session and of the broker moved together. */
  function Charge(s: Broker, sid: SessionId, outcomes: int, bytes: int): Broker {
    var c := s.Sess(sid);
    s.WithSess(sid, c.(reservedOutcomes := c.reservedOutcomes + outcomes, reservedBytes := c.reservedBytes + bytes))
     .(reservedOutcomes := s.reservedOutcomes + outcomes, reservedBytes := s.reservedBytes + bytes)
  }

  /** `_release_reservation_locked` */
  function ReleaseReservation(s: Broker, r: RecordId): Broker {
    var rec := s.Rec(r);
    if rec.reservationReleased then s
    else Charge(s.WithRec(r, rec.(reservationReleased := true)), rec.session, -1, 0 - rec.reserved)
  }

  function Drop(rs: seq<RecordId>, r: RecordId): (kept: seq<RecordId>)
    ensures forall x :: x in kept ==> x in rs
  {
    if r in rs then RemoveFirst(rs, r) else rs
  }

  function ClearPayload(f: Option<Frame>): Option<Frame> {
    if f.Some? && f.value.TerminalFrame? then Some(f.value.(payload := [])) else f
  }

  /** `_remove_request_locked` */
  function Forget(s: Broker, r: RecordId): Broker {
    var sid := s.Rec(r).session;
    if sid !in s.registered then s
    else
      var t := ReleaseReservation(s, r);
      t.WithRec(r, t.Rec(r).(payload := [], terminal := ClearPayload(t.Rec(r).terminal)))
       .WithSess(sid, t.Sess(sid).(requests := Drop(t.Sess(sid).requests, r)))
       .(requests := Drop(t.requests, r))
  }

  function ForgetDecided(s: Broker, todo: seq<RecordId>): Broker
    decreases |todo|
  {
    if todo == [] then s
    else ForgetDecided(if s.Decided(todo[0]) then Forget(s, todo[0]) else s, todo[1..])
  }

  function EndSession(s: Broker, sid: SessionId): Broker {
    var client := s.Sess(sid).client;
    s.(registered := s.registered - {sid},
       clients := if client in s.clients && s.clients[client] == sid then s.clients - {client} else s.clients)
  }

  /** `_purge_session_locked` */
  function Purge(s: Broker, sid: SessionId): Broker {
    var t := ForgetDecided(s, s.Sess(sid).requests);
    if t.Sess(sid).requests == [] then EndSession(t, sid) else t
  }

  // ---------- completion ----------

  function FrameOf(o: Outcome): Frame {
    match o
    case Returned(verdict, control, payload) => TerminalFrame(verdict, control, payload)
    case TimedOut(message) => TerminalFrame(ExecutionTimedOut, message, [])
    case Raised(message) => TerminalFrame(WorkerLost, message, [])
  }

  function OutcomeOf(f: Future): Outcome {
    if f.Resolved? then f.outcome else Raised("CancelledError()")
  }

  /** The end of an attempt: its staged slot is given back. */
  function GiveBack(s: Broker, a: AttemptId): Broker {
    s.WithAtt(a, s.Att(a).(over := true)).(staged := if s.staged != 0 then s.staged - 1 else 0)
  }

  function PurgeIfClosed(s: Broker, sid: SessionId): Broker {
    if s.Sess(sid).closed && sid in s.registered then Purge(s, sid) else s
  }

  /** `_complete_local`, reached from an attempt's done-callback or when the pool refused it for good. */
  function Complete(s: Broker, a: AttemptId, o: Outcome): Broker {
    var r := s.Att(a).record;
    PurgeIfClosed(GiveBack(Decide(s, r, FrameOf(o)), a), s.Rec(r).session)
  }

  /** `local_future.cancel()`: a registered done-callback runs at once, inside the caller's region. */
  function CancelFuture(s: Broker, r: RecordId): Broker {
    if s.Rec(r).future.None? then s
    else
      var a := s.Rec(r).future.value;
      if !s.Att(a).future.Pending? then s
      else
        var t := s.WithAtt(a, s.Att(a).(future := CancelledFuture));
        if s.Att(a).watched then Complete(t, a, OutcomeOf(CancelledFuture)) else t
  }

  /** Decide a request, then cancel its attempt if it has one. */
  function Settle(s: Broker, r: RecordId, f: Frame): Broker {
    CancelFuture(Decide(s, r, f), r)
  }

  function CancelQueued(s: Broker, r: RecordId, f: Frame): Broker {
    Settle(Dequeue(s, r), r, f)
  }

  // ---------- loops over snapshots ----------

  /** What a pass over requests does with each of them. */
  datatype Pass =
    | ExpirePass
    | GroupPass(group: string, killable: set<RecordId>)
    | DisconnectPass
    | ShutdownCancelPass
    | ShutdownDeadlinePass

  function Because(verdict: Verdict, reason: string): Frame {
    TerminalFrame(verdict, reason, [])
  }

  predicate Expired(s: Broker, rec: Record) {
    rec.state == Queued && rec.deadline.Some? && s.now >= rec.deadline.value
  }

  /** The verdict a pass gives a request in its present state, if any. */
  function Ruling(s: Broker, pass: Pass, r: RecordId): Option<Frame> {
    var rec := s.Rec(r);
    match pass
    case ExpirePass =>
      if Expired(s, rec)
      then Some(Because(QueueTimedOut, "queue_timeout")) else None
    case GroupPass(group, killable) =>
      if rec.group != Some(group) then None
      else if rec.state == Queued then Some(Because(Cancelled, "group_cancelled"))
      else if rec.state == Running && r in killable then Some(Because(Cancelled, "group_terminated"))
      else None
    case DisconnectPass =>
      if rec.state == Queued then Some(Because(Cancelled, "disconnected"))
      else if rec.state == Running && s.config.policy == TerminateWork && rec.future.Some?
      then Some(Because(Cancelled, "disconnected_terminate")) else None
    case ShutdownCancelPass =>
      if rec.state == Queued then Some(Because(Cancelled, "server_shutdown")) else None
    case ShutdownDeadlinePass =>
      if rec.state == Queued || (rec.state == Running && rec.future.Some?)
      then Some(Because(Cancelled, "shutdown_deadline")) else None
  }

  function Visit(s: Broker, pass: Pass, r: RecordId): Broker {
    var ruling := Ruling(s, pass, r);
    if ruling.None? then s
    else if s.Rec(r).state == Queued then CancelQueued(s, r, ruling.value)
    else Settle(s, r, ruling.value)
  }

  function VisitAll(s: Broker, pass: Pass, todo: seq<RecordId>): Broker
    decreases |todo|
  {
    if todo == [] then s else VisitAll(Visit(s, pass, todo[0]), pass, todo[1..])
  }

  // ---------- the regions ----------

  datatype Submission = Submission(
    id: RequestId, digest: string, payload: Bytes, mode: string, operation: string,
    priority: Option<int>, queueTimeout: Option<int>, numbersValid: bool, group: Option<string>)

  datatype Offer = Admitted | QueueFull | Failed(message: string)

  datatype Action =
    | Tick(elapsed: nat)
    | Handshake(client: string, principal: Principal, offered: nat)
    | Submit(sid: SessionId, msg: Submission, authorized: bool)
    | Acknowledge(sid: SessionId, id: RequestId)
    | CloseSession(sid: SessionId)
    | Cancel(sid: SessionId, id: RequestId, hard: bool, authorized: bool)
    | CancelGroup(sid: SessionId, group: string, killable: set<RecordId>)  // those a hard request is authorized for
    | Answer(sid: SessionId)                 // PONG, status, statistics, protocol errors, GOAWAY
    | CloseConnection(sid: SessionId)        // the writer failed or the socket was shut
    | WriteFrame(sid: SessionId)             // the writer took one frame from the outbound queue
    | Disconnect(sid: SessionId)
    | Expire
    | Stage
    | OfferToPool(answer: Offer)
    | Restore
    | GiveUp(message: string)
    | Watch
    | StartTask(a: AttemptId)
    | Claim(a: AttemptId, pid: int)
    | WritePipe(a: AttemptId)
    | RetryTask(a: AttemptId)
    | Resolve(a: AttemptId, outcome: Outcome)
    | Notify(a: AttemptId)
    | Shutdown(cancel: bool, deadline: Option<int>)
    | FinishShutdown

  function Min(a: nat, b: nat): nat {
    if a < b then a else b
  }

  function Handshaken(s: Broker, client: string, principal: Principal, offered: nat): Broker {
    if offered == 0 || client in s.clients || |set sid | sid in s.registered && s.Sess(sid).principal == principal| >= s.config.maxConnections
    then s
    else
      var limit := Min(Min(offered, s.config.maxResultBytes), Min(s.config.maxBytesSession, s.config.maxBytesGlobal));
      s.(sessions := s.sessions + [Session(client, principal, limit, 0, 0, 0, [], false, false, false, 0)],
         registered := s.registered + {|s.sessions|},
         clients := s.clients[client := |s.sessions|])
  }

  /** `session.requests.get(request_id)` */
  function Find(s: Broker, rs: seq<RecordId>, id: RequestId): Option<RecordId> {
    if rs == [] then None
    else if s.Rec(rs[0]).id == id then Some(rs[0])
    else Find(s, rs[1..], id)
  }

  function CountPrincipal(s: Broker, rs: seq<RecordId>, principal: Principal): nat {
    if rs == [] then 0
    else (if s.Rec(rs[0]).principal == principal then 1 else 0) + CountPrincipal(s, rs[1..], principal)
  }

  /** The frame resent for a request the session already has. */
  function CurrentFrame(s: Broker, r: RecordId): Option<Frame> {
    var rec := s.Rec(r);
    match rec.state
    case Queued => Some(AcceptedFrame)
    case Running => Some(RunningFrame(if rec.future.Some? then s.Att(rec.future.value).pid else None))
    case Terminal(_) => rec.terminal
  }

  predicate HasRoom(s: Broker, sid: SessionId) {
    var c := s.Sess(sid);
    && |c.requests| < s.config.maxPendingSession
    && CountPrincipal(s, s.requests, c.principal) < s.config.maxPendingPrincipal
    && |s.requests| < s.config.maxPendingGlobal
    && c.reservedOutcomes < s.config.maxOutcomesSession
    && s.reservedOutcomes < s.config.maxOutcomesGlobal
    && c.reservedBytes + c.maxResult <= s.config.maxBytesSession
    && s.reservedBytes + c.maxResult <= s.config.maxBytesGlobal
  }

  /** The checks between the watermark and the admission. */
  predicate Admissible(s: Broker, sid: SessionId, msg: Submission, authorized: bool) {
    && s.server == Serving
    && HasRoom(s, sid)
    && |msg.payload| <= s.config.maxInvocationBytes
    && (msg.mode == "callable" || (msg.mode == "registered" && msg.operation in s.config.registry))
    && authorized
    && msg.numbersValid && msg.priority.Some?
  }

  function NewRecord(s: Broker, sid: SessionId, msg: Submission): Record {
    var c := s.Sess(sid);
    Record(msg.id, msg.digest, sid, c.principal, if msg.priority.Some? then msg.priority.value else 0,
           if msg.queueTimeout.Some? then Some(s.now + msg.queueTimeout.value) else None,
           msg.group, msg.payload, c.maxResult, Queued, None, None, false, false)
  }

  function Admit(s: Broker, sid: SessionId, msg: Submission): Broker {
    var c := s.Sess(sid);
    var rec, r := NewRecord(s, sid, msg), |s.records|;
    var t := Charge(s.WithSess(sid, c.(requests := c.requests + [r])), sid, 1, rec.reserved);
    Post(t.(records := s.records + [rec], requests := s.requests + [r],
            queue := SchedulerSpec.Put(s.queue, r, rec.priority, rec.principal, false),
            accepted := s.accepted + 1),
         sid, [(r, AcceptedFrame)])
  }

  function Submitted(s: Broker, sid: SessionId, msg: Submission, authorized: bool): Broker {
    var c := s.Sess(sid);
    if c.disconnected || msg.id.client != c.client then s
    else
      var known := Find(s, c.requests, msg.id);
      if known.Some? then
        if s.Rec(known.value).digest != msg.digest then s
        else
          var frame := CurrentFrame(s, known.value);
          if frame.Some? then Tell(s, known.value, frame.value) else s
      else if msg.id.sequence <= c.watermark then Post(s, sid, [])
      else
        var t := s.WithSess(sid, c.(watermark := msg.id.sequence));
        if Admissible(t, sid, msg, authorized) then Admit(t, sid, msg) else Post(t, sid, [])
  }

  function Acknowledged(s: Broker, sid: SessionId, id: RequestId): Broker {
    var known := Find(s, s.Sess(sid).requests, id);
    if s.Sess(sid).disconnected || known.None? || !s.Decided(known.value) then s else Forget(s, known.value)
  }

  predicate AllDecided(s: Broker, rs: seq<RecordId>) {
    forall r :: r in rs ==> s.Decided(r)
  }

  function ClosedCleanly(s: Broker, sid: SessionId): Broker {
    var c := s.Sess(sid);
    if c.disconnected || !AllDecided(s, c.requests) then s
    else Post(s.WithSess(sid, c.(cleanClose := true)), sid, [])
  }

  /** The answer to a cancellation. */
  datatype Reply = UnknownRequest | NowCancelled | StillRuns | AlreadyTerminal

  function CancelReply(s: Broker, sid: SessionId, id: RequestId, hard: bool, authorized: bool): Reply {
    var known := Find(s, s.Sess(sid).requests, id);
    if known.None? then UnknownRequest
    else if s.Rec(known.value).state == Queued then NowCancelled
    else if s.Rec(known.value).state == Running then if hard && authorized then NowCancelled else StillRuns
    else AlreadyTerminal
  }

  function CancelledBy(s: Broker, sid: SessionId, id: RequestId, hard: bool, authorized: bool): Broker {
    var known := Find(s, s.Sess(sid).requests, id);
    if s.Sess(sid).disconnected then s
    else
      var t :=
        if known.None? then s
        else if s.Rec(known.value).state == Queued then CancelQueued(s, known.value, Because(Cancelled, "cancelled"))
        else if s.Rec(known.value).state == Running && hard && authorized
        then Settle(s, known.value, Because(Cancelled, "terminated"))
        else s;
      Post(t, sid, [])
  }

  function GroupCancelledBy(s: Broker, sid: SessionId, group: string, killable: set<RecordId>): Broker {
    if s.Sess(sid).disconnected then s
    else Post(VisitAll(s, GroupPass(group, killable), s.Sess(sid).requests), sid, [])
  }

  function Disconnected(s: Broker, sid: SessionId): Broker {
    if s.Sess(sid).disconnected then s
    else
      var c := s.Sess(sid);
      var t := s.WithSess(sid, c.(closed := true, disconnected := true));
      Purge(if !c.cleanClose && s.config.policy != ContinueWork then VisitAll(t, DisconnectPass, c.requests) else t, sid)
  }

  ghost predicate MayStage(s: Broker, p: int) {
    && s.lane.AtTop? && (s.server == Serving || s.server == Draining)
    && s.staged < s.config.maxStaged
    && IsLeast(s.queue, p) && CanPop(s.queue, p)
  }

  /** Pop the next request and create its attempt; a popped request that is no longer queued is skipped. */
  function Staged(s: Broker, p: int): Broker
    requires CanPop(s.queue, p)
  {
    var r, a := PopItem(s.queue, p), |s.attempts|;
    var t := s.(queue := Pop(s.queue, p));
    if s.Rec(r).state != Queued then t
    else
      t.WithRec(r, s.Rec(r).(future := Some(a)))
       .(staged := s.staged + 1, lane := Offering(a),
         attempts := s.attempts + [Attempt(r, Offered, Pending, false, false, None)])
  }

  function OfferAnswered(s: Broker, answer: Offer): Broker {
    if !s.lane.Offering? then s
    else
      var a := s.lane.a;
      match answer
      case Admitted => s.WithAtt(a, s.Att(a).(phase := Waiting)).(lane := Taken(a))
      case QueueFull => s.(lane := Refused(a))
      case Failed(_) => s.(lane := Broken(a))
  }

  /** The pool's backlog was full: the attempt ends and a request still queued goes back in front. */
  function Restored(s: Broker): Broker {
    if !s.lane.Refused? then s
    else
      var a := s.lane.a;
      var r := s.Att(a).record;
      var rec := s.Rec(r);
      var t := s.WithRec(r, rec.(future := None)).WithAtt(a, s.Att(a).(over := true))
                .(staged := s.staged - 1, lane := AtTop);
      if rec.state == Queued then t.(queue := SchedulerSpec.Put(s.queue, r, rec.priority, rec.principal, true)) else t
  }

  function GivenUp(s: Broker, message: string): Broker {
    if !s.lane.Broken? then s else Complete(s, s.lane.a, Raised(message)).(lane := AtTop)
  }

  /** The record drops its copy of the invocation and the done-callback is registered. */
  function Watched(s: Broker): Broker {
    if !s.lane.Taken? then s
    else
      var a := s.lane.a;
      var r := s.Att(a).record;
      s.WithRec(r, s.Rec(r).(payload := [])).WithAtt(a, s.Att(a).(watched := true)).(lane := AtTop)
  }

  /** A granted claim: the request runs, the worker's pid is published and the client told. */
  function Granted(s: Broker, r: RecordId, pid: int): Broker {
    var rec := s.Rec(r);
    var t := if rec.state == Queued
             then s.WithRec(r, rec.(state := Running, claimed := true)).(running := s.running + 1) else s;
    var u := if rec.future.Some? then t.WithAtt(rec.future.value, t.Att(rec.future.value).(pid := Some(pid))) else t;
    Tell(u, r, RunningFrame(Some(pid)))
  }

  /** `_claim_dispatch`: the broker afterwards, and whether the worker may be given the request. */
  function Claiming(s: Broker, a: AttemptId, pid: int): (Broker, bool) {
    var r := s.Att(a).record;
    if Expired(s, s.Rec(r)) then (Settle(s, r, Because(QueueTimedOut, "queue_timeout")), false)
    else if s.Decided(r) then (s, false)
    else (Granted(s, r, pid), true)
  }

  function ClaimAnswered(s: Broker, a: AttemptId, pid: int): Broker {
    if s.Att(a).phase != Started then s
    else
      var (t, granted) := Claiming(s, a, pid);
      t.WithAtt(a, t.Att(a).(phase := if granted then Phase.Claimed else Finished))
  }

  predicate Permitted(s: Broker, a: AttemptId, o: Outcome) {
    && s.Att(a).phase in {Waiting, Started, Phase.Claimed}
    && (o.Returned? ==>
          && s.Att(a).phase == Phase.Claimed
          && o.verdict in {Succeeded, TaskFailed, ResultEncodingFailed, ResultTooLarge}
          && |o.payload| <= s.Rec(s.Att(a).record).reserved)
  }

  /** The pool is done with an attempt; its future keeps an earlier cancellation. */
  function ResolvedTo(s: Broker, a: AttemptId, o: Outcome): Broker {
    if !Permitted(s, a, o) then s
    else
      s.WithAtt(a, s.Att(a).(phase := Finished, future := if s.Att(a).future.Pending? then Resolved(o) else s.Att(a).future))
  }

  /** The done-callback of a finished future that was not run by the canceller. */
  function Notified(s: Broker, a: AttemptId): Broker {
    var x := s.Att(a);
    if x.watched && !x.future.Pending? && !x.over then Complete(s, a, OutcomeOf(x.future)) else s
  }

  function ShutdownRequested(s: Broker, cancel: bool, deadline: Option<int>): Broker {
    if s.server == Stopped then s
    else
      s.(server := if s.server == Serving then Draining else s.server,
         shutdownCancel := s.shutdownCancel || cancel,
         shutdownDeadline :=
           if deadline.Some? && (s.shutdownDeadline.None? || s.now + deadline.value < s.shutdownDeadline.value)
           then Some(s.now + deadline.value) else s.shutdownDeadline)
  }

  /** One round of `_finish_shutdown`: stop when everything is decided or the deadline has passed, then close down. */
  function ShutdownRound(s: Broker): Broker {
    if s.server == Stopping then s.(server := Stopped)
    else if s.server != Draining then s
    else if AllDecided(s, s.requests) then s.(server := Stopping)
    else
      var t := if s.shutdownCancel then VisitAll(s, ShutdownCancelPass, s.requests) else s;
      if s.shutdownDeadline.Some? && s.now >= s.shutdownDeadline.value
      then VisitAll(t, ShutdownDeadlinePass, t.requests).(server := Stopping)
      else t
  }

  /** One step of the whole system. */
  ghost function Next(s: Broker, action: Action): Broker {
    match action
    case Tick(elapsed) => s.(now := s.now + elapsed)
    case Handshake(client, principal, offered) => Handshaken(s, client, principal, offered)
    case Submit(sid, msg, authorized) => Submitted(s, sid, msg, authorized)
    case Acknowledge(sid, id) => Acknowledged(s, sid, id)
    case CloseSession(sid) => ClosedCleanly(s, sid)
    case Cancel(sid, id, hard, authorized) => CancelledBy(s, sid, id, hard, authorized)
    case CancelGroup(sid, group, killable) => GroupCancelledBy(s, sid, group, killable)
    case Answer(sid) => Post(s, sid, [])
    case CloseConnection(sid) => s.WithSess(sid, s.Sess(sid).(closed := true))
    case WriteFrame(sid) =>
      if s.Sess(sid).outbound == 0 then s else s.WithSess(sid, s.Sess(sid).(outbound := s.Sess(sid).outbound - 1))
    case Disconnect(sid) => Disconnected(s, sid)
    case Expire => VisitAll(s, ExpirePass, s.requests)
    case Stage => if p :| MayStage(s, p) then Staged(s, p) else s
    case OfferToPool(answer) => OfferAnswered(s, answer)
    case Restore => Restored(s)
    case GiveUp(message) => GivenUp(s, message)
    case Watch => Watched(s)
    case StartTask(a) => if s.Att(a).phase == Waiting then s.WithAtt(a, s.Att(a).(phase := Started)) else s
    case Claim(a, pid) => ClaimAnswered(s, a, pid)
    case WritePipe(a) => if s.Att(a).phase == Phase.Claimed then s.(piped := s.piped + [s.Att(a).record]) else s
    case RetryTask(a) => if s.Att(a).phase == Phase.Claimed then s.WithAtt(a, s.Att(a).(phase := Started)) else s
    case Resolve(a, outcome) => ResolvedTo(s, a, outcome)
    case Notify(a) => Notified(s, a)
    case Shutdown(cancel, deadline) => ShutdownRequested(s, cancel, deadline)
    case FinishShutdown => ShutdownRound(s)
  }

  ghost function Run(s: Broker, actions: seq<Action>): Broker
    decreases |actions|
  {
    if actions == [] then s else Run(Next(s, actions[0]), actions[1..])
  }
}
