/** What each message and each answer does, field by field, named from the message and the state before it. */
module BrokerAnswers {
  import opened Options
  import opened Seqs
  import opened SchedulerSpec
  import opened BrokerState
  import opened BrokerInvariant
  import BrokerWithin
  import opened BrokerDispatch
  import opened BrokerDispatchSteps
  import opened BrokerRetention
  import opened BrokerSteps
  import opened BrokerDecides
  import opened BrokerTheorems
  import opened BrokerGuarantees

  // ---------- connections ----------

  /** A frame for this session will be queued. */
  predicate Reachable(s: Broker, sid: SessionId) {
    sid < |s.sessions| && !s.sessions[sid].closed && s.sessions[sid].outbound < s.config.outboundSize
  }

  /** One entry more in the log and in the outbound queue, and nothing else. */
  lemma PostedTo(s: Broker, sid: SessionId, entry: seq<(RecordId, Frame)>)
    requires Reachable(s, sid)
    ensures Post(s, sid, entry) ==
              s.(sessions := s.sessions[sid := s.sessions[sid].(outbound := s.sessions[sid].outbound + 1)], sent := s.sent + entry)
  {
  }

  /** A frame that cannot be queued is not sent, and leaves the connection closed. */
  lemma NotPosted(s: Broker, sid: SessionId, entry: seq<(RecordId, Frame)>)
    requires sid < |s.sessions| && !Reachable(s, sid)
    ensures Post(s, sid, entry) == s.(sessions := s.sessions[sid := s.sessions[sid].(closed := true)])
  {
    if s.sessions[sid].closed { assert s.sessions[sid := s.sessions[sid].(closed := true)] == s.sessions; }
  }

  /** The writer takes one frame at a time; a lost connection is closed; time passes. */
  lemma ConnectionSteps(s: Broker, sid: SessionId, elapsed: nat)
    requires sid < |s.sessions|
    ensures Next(s, WriteFrame(sid)) ==
              if s.sessions[sid].outbound == 0 then s
              else s.(sessions := s.sessions[sid := s.sessions[sid].(outbound := s.sessions[sid].outbound - 1)])
    ensures Next(s, CloseConnection(sid)) == s.(sessions := s.sessions[sid := s.sessions[sid].(closed := true)])
    ensures Next(s, Tick(elapsed)) == s.(now := s.now + elapsed)
  {
  }

  // ---------- SUBMIT ----------

  /** Every bound and every check of an admission, by what it counts. */
  lemma AdmissibleExactlyWhen(s: Broker, sid: SessionId, msg: Submission, authorized: bool)
    requires Invariant(s) && sid < |s.sessions|
    ensures Admissible(s, sid, msg, authorized) <==>
              && s.server == Serving
              && |s.sessions[sid].requests| < s.config.maxPendingSession
              && |OfPrincipal(s, s.requests, s.sessions[sid].principal)| < s.config.maxPendingPrincipal
              && |s.requests| < s.config.maxPendingGlobal
              && |s.sessions[sid].requests| < s.config.maxOutcomesSession && |s.requests| < s.config.maxOutcomesGlobal
              && SumReserved(s.records, s.sessions[sid].requests) + s.sessions[sid].maxResult <= s.config.maxBytesSession
              && SumReserved(s.records, s.requests) + s.sessions[sid].maxResult <= s.config.maxBytesGlobal
              && |msg.payload| <= s.config.maxInvocationBytes
              && (msg.mode == "callable" || (msg.mode == "registered" && msg.operation in s.config.registry))
              && authorized && msg.numbersValid && msg.priority.Some?
  {
    hide CountPrincipal, SumReserved;
    PrincipalCounted(s, s.requests, s.sessions[sid].principal);
  }

  /** The loop over all requests counts a principal's. */
  lemma {:induction false} PrincipalCounted(s: Broker, rs: seq<RecordId>, principal: Principal)
    requires NoDup(rs)
    ensures CountPrincipal(s, rs, principal) == |OfPrincipal(s, rs, principal)|
    decreases |rs|
  {
    if rs == [] {
      assert OfPrincipal(s, rs, principal) == {};
    } else {
      PrincipalCounted(s, rs[1..], principal);
      OneMoreRequest(s, rs, principal);
    }
  }

  ghost function OfPrincipal(s: Broker, rs: seq<RecordId>, principal: Principal): set<RecordId> {
    set r | r in rs && s.Rec(r).principal == principal
  }

  lemma OneMoreRequest(s: Broker, rs: seq<RecordId>, principal: Principal)
    requires rs != [] && NoDup(rs)
    ensures var rest := OfPrincipal(s, rs[1..], principal);
            rs[0] !in rest && OfPrincipal(s, rs, principal) == if s.Rec(rs[0]).principal == principal then rest + {rs[0]} else rest
  {
    assert rs[0] !in rs[1..];
    assert rs == [rs[0]] + rs[1..];
  }

  /** The request a SUBMIT asks for: every field is the message's, the session's or the clock's. */
  ghost predicate AsSubmitted(s: Broker, sid: SessionId, msg: Submission, rec: Record) {
    && rec.id == msg.id && rec.digest == msg.digest && rec.payload == msg.payload && rec.group == msg.group
    && rec.session == sid && rec.principal == s.Sess(sid).principal && rec.reserved == s.Sess(sid).maxResult
    && msg.priority == Some(rec.priority)
    && rec.deadline == (if msg.queueTimeout.Some? then Some(s.now + msg.queueTimeout.value) else None)
    && rec.state == Queued && rec.future == None && rec.terminal == None && !rec.reservationReleased && !rec.claimed
  }

  /** One request more, everywhere, and the session's watermark; no other request, session, attempt or stream is touched. */
  ghost predicate Entered(s: Broker, sid: SessionId, msg: Submission, t: Broker) {
    var r, c, d := |s.records|, s.Sess(sid), t.Sess(sid);
    && |t.records| == r + 1 && t.records[..r] == s.records && AsSubmitted(s, sid, msg, t.records[r])
    && t.requests == s.requests + [r] && d.requests == c.requests + [r] && d.watermark == msg.id.sequence
    && t.accepted == s.accepted + 1
    && (Reachable(s, sid) ==> t.sent == s.sent + [(r, AcceptedFrame)])
    && t.attempts == s.attempts && t.staged == s.staged && forall x: SessionId :: x != sid ==> t.Sess(x) == s.Sess(x)
  }

  /** An admitted SUBMIT becomes a request with exactly what was submitted, last in the stream of its own priority. */
  lemma SubmitAdmitted(s: Broker, sid: SessionId, msg: Submission, authorized: bool)
    requires Admits(s, sid, msg, authorized) && sid < |s.sessions|
    ensures Entered(s, sid, msg, Submitted(s, sid, msg, authorized))
    ensures var r: RecordId := |s.records|;
            forall p, q :: Stream(Submitted(s, sid, msg, authorized).queue, p, q) ==
              if msg.priority == Some(p) && q == s.Sess(sid).principal then Stream(s.queue, p, q) + [r] else Stream(s.queue, p, q)
  {
    hide Admit, Admissible, Entered, Submitted;
    AdmitsSubmitted(s, sid, msg, authorized);
    PrioritySubmitted(s, sid, msg, authorized);
    AdmittedRecord(s, sid, msg);
    AdmittedStreams(s.WithSess(sid, s.Sess(sid).(watermark := msg.id.sequence)), sid, msg);
  }

  lemma PrioritySubmitted(s: Broker, sid: SessionId, msg: Submission, authorized: bool)
    requires Admissible(s, sid, msg, authorized)
    ensures msg.priority.Some?
  {
  }

  lemma AdmittedStreams(s: Broker, sid: SessionId, msg: Submission)
    requires msg.priority.Some?
    ensures var r: RecordId := |s.records|;
            forall p, q :: Stream(Admit(s, sid, msg).queue, p, q) ==
              if msg.priority == Some(p) && q == s.Sess(sid).principal then Stream(s.queue, p, q) + [r] else Stream(s.queue, p, q)
  {
    hide Admit;
    AdmitFields(s, sid, msg);
    PutStreams(s.queue, |s.records|, msg.priority.value, s.Sess(sid).principal, false);
  }

  lemma AdmittedRecord(s: Broker, sid: SessionId, msg: Submission)
    requires sid < |s.sessions| && msg.priority.Some?
    ensures Entered(s, sid, msg, Admit(s.WithSess(sid, s.Sess(sid).(watermark := msg.id.sequence)), sid, msg))
  {
    hide SchedulerSpec.Put, Post, AsSubmitted, NewRecord;
    var c, r := s.Sess(sid).(watermark := msg.id.sequence), |s.records|;
    var v := s.WithSess(sid, c);
    var rec := NewRecord(v, sid, msg);
    RecordAsSubmitted(s, v, sid, msg);
    var u := Charge(v.WithSess(sid, c.(requests := c.requests + [r])), sid, 1, rec.reserved)
              .(records := v.records + [rec], requests := v.requests + [r],
                queue := SchedulerSpec.Put(v.queue, r, rec.priority, rec.principal, false), accepted := v.accepted + 1);
    assert u.sessions == s.sessions[sid := u.sessions[sid]];
    PostedSessions(u, sid, r);
    if Reachable(s, sid) { PostedTo(u, sid, [(r, AcceptedFrame)]); }
  }

  lemma RecordAsSubmitted(s: Broker, v: Broker, sid: SessionId, msg: Submission)
    requires msg.priority.Some? && v.now == s.now && v.Sess(sid).principal == s.Sess(sid).principal && v.Sess(sid).maxResult == s.Sess(sid).maxResult
    ensures AsSubmitted(s, sid, msg, NewRecord(v, sid, msg))
  {
  }

  lemma PostedSessions(u: Broker, sid: SessionId, r: RecordId)
    ensures var t := Post(u, sid, [(r, AcceptedFrame)]);
            && t == u.(sessions := t.sessions, sent := t.sent) && t.Sess(sid).requests == u.Sess(sid).requests
            && t.Sess(sid).watermark == u.Sess(sid).watermark && forall x: SessionId :: x != sid ==> t.Sess(x) == u.Sess(x)
  {
  }

  /** What `_send_record` sends: the state the request is in. */
  ghost function Present(s: Broker, r: RecordId): Frame {
    var rec := s.Rec(r);
    if rec.state == Queued then AcceptedFrame
    else if rec.state == Running then RunningFrame(if rec.future.Some? then s.Att(rec.future.value).pid else None)
    else if rec.terminal.Some? then rec.terminal.value else AcceptedFrame
  }

  /** A SUBMIT that is not admitted: ignored, answered with the present state, or refused, in the source's order. */
  lemma SubmitNotAdmitted(s: Broker, sid: SessionId, msg: Submission, authorized: bool)
    requires Invariant(s)
    ensures var t, c := Submitted(s, sid, msg, authorized), s.Sess(sid);
            var known := exists r :: r in c.requests && s.Rec(r).id == msg.id;
            && (c.disconnected || msg.id.client != c.client ==> t == s)
            && (!c.disconnected && msg.id.client == c.client ==>
                  && (forall r :: r in c.requests && s.Rec(r).id == msg.id ==>
                        && (s.Rec(r).digest != msg.digest ==> t == s)
                        && (s.Rec(r).digest == msg.digest ==> t == Post(s, sid, [(r, Present(s, r))])))
                  && (!known && msg.id.sequence <= c.watermark ==> t == Post(s, sid, []))
                  && (!known && msg.id.sequence > c.watermark && !Admissible(s, sid, msg, authorized) ==>
                        t == Post(s.WithSess(sid, c.(watermark := msg.id.sequence)), sid, [])))
  {
    hide Dispatch, Counted, PayloadsFit, Departed, ReservedExact, Post, Admit, Admissible, Log;
    var c := s.Sess(sid);
    WatermarkApart(s, sid, msg, authorized);
    FindIn(s, c.requests, msg.id);
    forall r | r in c.requests && s.Rec(r).id == msg.id
      ensures Find(s, c.requests, msg.id) == Some(r) && s.Rec(r).session == sid && CurrentFrame(s, r) == Some(Present(s, r))
    {
      HeldOnce(s, sid, r, Find(s, c.requests, msg.id).value);
    }
  }

  lemma HeldOnce(s: Broker, sid: SessionId, r: RecordId, x: RecordId)
    requires Invariant(s) && r in s.Sess(sid).requests && x in s.Sess(sid).requests && s.Rec(r).id == s.Rec(x).id
    ensures r == x && s.Rec(r).session == sid && CurrentFrame(s, r) == Some(Present(s, r))
  {
    hide Dispatch, Counted, PayloadsFit, Departed, ReservedExact;
    assert HeldBy(s, r, sid) && HeldBy(s, x, sid);
    SessionIdsUnique(s, sid, r, x);
  }

  // ---------- RESULT_ACK ----------

  /** `t` is `s` with one occurrence of `x` taken out and everything else in its place. */
  ghost predicate Without(s: seq<RecordId>, x: RecordId, t: seq<RecordId>) {
    exists i :: 0 <= i < |s| && s[i] == x && t == s[..i] + s[i + 1..]
  }

  /** The acknowledgement of a decided request gives back everything it held, and touches nothing else. */
  lemma AcknowledgeReleases(s: Broker, sid: SessionId, id: RequestId, r: RecordId)
    requires Invariant(s) && !s.Sess(sid).disconnected && r in s.Sess(sid).requests && s.Decided(r) && s.Rec(r).id == id
    ensures var t, c, d := Next(s, Acknowledge(sid, id)), s.Sess(sid), Next(s, Acknowledge(sid, id)).Sess(sid);
            && Without(s.requests, r, t.requests) && r !in t.requests
            && Without(c.requests, r, d.requests) && r !in d.requests
            && t.Rec(r).reservationReleased && t.Rec(r).state == s.Rec(r).state
            && d.reservedOutcomes == c.reservedOutcomes - 1 && d.reservedBytes == c.reservedBytes - s.Rec(r).reserved
            && t.reservedOutcomes == s.reservedOutcomes - 1 && t.reservedBytes == s.reservedBytes - s.Rec(r).reserved
            && (forall x :: x != r ==> t.Rec(x) == s.Rec(x)) && (forall x: SessionId :: x != sid ==> t.Sess(x) == s.Sess(x))
            && t.registered == s.registered && t.queue == s.queue && t.attempts == s.attempts && t.sent == s.sent
  {
    hide Dispatch, Log, Counted, PayloadsFit, Departed, ReservedExact, Forget;
    assert HeldBy(s, r, sid) && RecordRetained(s, r);
    FindIn(s, s.Sess(sid).requests, id);
    HeldOnce(s, sid, r, Find(s, s.Sess(sid).requests, id).value);
    ForgetFields(s, r);
    ForgetRest(s, r);
    TakenOut(s.requests, r);
    TakenOut(s.Sess(sid).requests, r);
  }

  lemma ForgetRest(s: Broker, r: RecordId)
    ensures Forget(s, r).queue == s.queue && Forget(s, r).attempts == s.attempts && Forget(s, r).sent == s.sent
  {
    hide Drop, ClearPayload, ReleaseReservation;
    ReleaseRest(s, r);
  }

  lemma ReleaseRest(s: Broker, r: RecordId)
    ensures var t := ReleaseReservation(s, r); t.queue == s.queue && t.attempts == s.attempts && t.sent == s.sent
  {
  }

  lemma TakenOut(s: seq<RecordId>, r: RecordId)
    requires r in s && NoDup(s)
    ensures Without(s, r, Drop(s, r)) && r !in Drop(s, r)
  {
    RemoveFirstElements(s, r);
    var i := IndexOf(s, r);
    assert Drop(s, r) == s[..i] + s[i + 1..];
  }

  /** The acknowledgement of an undecided or unknown request, or on a session that is gone, changes nothing. */
  lemma AcknowledgeNothing(s: Broker, sid: SessionId, id: RequestId)
    requires Invariant(s)
    requires s.Sess(sid).disconnected || forall r :: r in s.Sess(sid).requests && s.Rec(r).id == id ==> !s.Decided(r)
    ensures Next(s, Acknowledge(sid, id)) == s
  {
    hide Invariant;
    FindIn(s, s.Sess(sid).requests, id);
  }

  // ---------- results ----------

  /** The frame that tells the client of a finished attempt: the worker's verdict, words and value, unchanged. */
  lemma ResultDelivered(s: Broker, a: AttemptId, r: RecordId)
    requires Invariant(s) && a < |s.attempts| && s.attempts[a].watched && !s.attempts[a].over && r == s.attempts[a].record
    requires !s.attempts[a].future.Pending? && !s.Decided(r) && Reachable(s, s.Rec(r).session)
    ensures var t := Next(s, Notify(a));
            var f := match s.attempts[a].future
                     case Resolved(Returned(verdict, control, payload)) => TerminalFrame(verdict, control, payload)
                     case Resolved(TimedOut(message)) => TerminalFrame(ExecutionTimedOut, message, [])
                     case Resolved(Raised(message)) => TerminalFrame(WorkerLost, message, [])
                     case _ => TerminalFrame(WorkerLost, "CancelledError()", []);
            && t.sent == s.sent + [(r, f)] && t.Rec(r).terminal == Some(f) && t.Rec(r).state == Terminal(f.verdict)
            && !t.Rec(r).reservationReleased && t.Att(a).over && t.staged == s.staged - 1 && t.terminal == s.terminal + 1
            && (forall x :: x != r ==> t.Rec(x) == s.Rec(x)) && t.requests == s.requests
  {
    hide Invariant, Purge;
    FramesOfOutcomes(s.attempts[a].future);
    RecordHere(s, a);
    SlotTaken(s, a);
    DecidedOpen(s, r, FrameOf(OutcomeOf(s.attempts[a].future)));
  }

  lemma RecordHere(s: Broker, a: AttemptId)
    requires Invariant(s) && a < |s.attempts|
    ensures s.attempts[a].record < |s.records|
    ensures !s.Decided(s.attempts[a].record) ==> !s.records[s.attempts[a].record].reservationReleased
  {
    assert RecordRetained(s, s.attempts[a].record);
  }

  lemma DecidedOpen(s: Broker, r: RecordId, f: Frame)
    requires r < |s.records| && !s.Decided(r) && f.TerminalFrame? && Reachable(s, s.Rec(r).session)
    ensures var d, sid := Decide(s, r, f), s.Rec(r).session;
            && d == s.(records := s.records[r := s.records[r].(state := Terminal(f.verdict), payload := [], terminal := Some(f))],
                       sessions := s.sessions[sid := s.sessions[sid].(outbound := s.sessions[sid].outbound + 1)],
                       sent := s.sent + [(r, f)], terminal := s.terminal + 1)
            && !d.Sess(sid).closed
  {
  }

  // ---------- CLOSE_SESSION and shutdown ----------

  /** A session is closed cleanly if and only if nothing in it is undecided; otherwise the message changes nothing. */
  lemma CloseExactlyWhen(s: Broker, sid: SessionId)
    requires sid < |s.sessions| && !s.sessions[sid].disconnected
    ensures var t := Next(s, CloseSession(sid));
            if forall r :: r in s.sessions[sid].requests ==> s.Rec(r).state.Terminal?
            then t.sessions[sid].cleanClose && t == Post(s.WithSess(sid, s.sessions[sid].(cleanClose := true)), sid, [])
            else t == s
  {
    hide Post;
    PostFrame(s.WithSess(sid, s.sessions[sid].(cleanClose := true)), sid, []);
    CleanKept(s.WithSess(sid, s.sessions[sid].(cleanClose := true)), sid);
  }

  lemma CleanKept(s: Broker, sid: SessionId)
    ensures Post(s, sid, []).Sess(sid).cleanClose == s.Sess(sid).cleanClose
  {
  }

  /** A shutdown starts draining, remembers any request to cancel, and keeps the earliest deadline; a stopped server stays as it is. */
  lemma ShutdownExactly(s: Broker, cancel: bool, deadline: Option<int>)
    ensures var t := Next(s, Shutdown(cancel, deadline));
            && (s.server == Stopped ==> t == s)
            && t == s.(server := t.server, shutdownCancel := t.shutdownCancel, shutdownDeadline := t.shutdownDeadline)
            && (s.server == Serving ==> t.server == Draining) && (s.server != Serving ==> t.server == s.server)
            && (s.server != Stopped ==>
                  && (t.shutdownCancel <==> s.shutdownCancel || cancel)
                  && match (s.shutdownDeadline, deadline)
                     case (None, None) => t.shutdownDeadline == None
                     case (Some(d), None) => t.shutdownDeadline == Some(d)
                     case (None, Some(w)) => t.shutdownDeadline == Some(s.now + w)
                     case (Some(d), Some(w)) => t.shutdownDeadline == Some(if d <= s.now + w then d else s.now + w))
  {
  }

  /** A draining server stops if and only if everything retained is decided or the deadline has come. */
  lemma StopsExactlyWhen(s: Broker)
    requires Invariant(s)
    ensures var t := Next(s, FinishShutdown);
            && (s.server == Draining ==>
                  if (forall r :: r in s.requests ==> s.Rec(r).state.Terminal?)
                     || (s.shutdownDeadline.Some? && s.now >= s.shutdownDeadline.value)
                  then t.server == Stopping else t.server == Draining)
            && (s.server == Stopping ==> t == s.(server := Stopped))
            && (s.server == Serving || s.server == Stopped ==> t == s)
            && (s.server == Draining && (forall r :: r in s.requests ==> s.Rec(r).state.Terminal?) ==> t == s.(server := Stopping))
  {
    hide Invariant, VisitAll;
    StopServer(s);
  }

  lemma StopServer(s: Broker)
    requires Invariant(s)
    ensures var t := ShutdownRound(s);
            s.server == Draining && !AllDecided(s, s.requests) ==>
              t.server == if s.shutdownDeadline.Some? && s.now >= s.shutdownDeadline.value then Stopping else Draining
  {
    hide Dispatch, Log, Counted, PayloadsFit, Departed, ReservedExact, VisitAll, BrokerWithin.Within;
    InvariantParts(s);
    var t := if s.shutdownCancel then VisitAll(s, ShutdownCancelPass, s.requests) else s;
    BrokerWithin.VisitAllWithin(s, ShutdownCancelPass, s.requests);
    BrokerWithin.WithinReflexive(s);
    SameServerState(s, t);
  }

  lemma SameServerState(s: Broker, t: Broker)
    requires BrokerWithin.Within(s, t)
    ensures t.server == s.server && t.shutdownDeadline == s.shutdownDeadline && t.now == s.now
  {
  }

  // ---------- handshake ----------

  /** A new client is registered if and only if its id is free and its principal below the connection limit; its results are capped by four limits. */
  lemma HandshakeExactlyWhen(s: Broker, client: string, principal: Principal, offered: nat)
    requires Invariant(s)
    ensures var t, sid := Next(s, Handshake(client, principal, offered)), |s.sessions|;
            if offered > 0 && (forall x :: x in s.registered ==> s.Sess(x).client != client)
               && |set x | x in s.registered && s.Sess(x).principal == principal| < s.config.maxConnections
            then
              && |t.sessions| == sid + 1 && t.sessions[..sid] == s.sessions && t.registered == s.registered + {sid}
              && t.clients == s.clients[client := sid] && t.records == s.records && t.requests == s.requests
              && Joined(s, client, principal, offered, t.sessions[sid])
            else t == s
  {
    hide Dispatch, Log, Counted, PayloadsFit, Departed, ReservedExact, Retained, Sequenced;
    assert client in s.clients ==> s.clients[client] in s.registered;
    forall x | x in s.registered && s.Sess(x).client == client ensures client in s.clients { }
  }

  /** A session with nothing in it, connected, and a result limit that is the least of what it asked for and the server's limits. */
  predicate Joined(s: Broker, client: string, principal: Principal, offered: nat, c: Session) {
    && c.client == client && c.principal == principal && c.watermark == 0 && c.requests == []
    && c.reservedOutcomes == 0 && c.reservedBytes == 0 && !c.closed && !c.cleanClose && !c.disconnected && c.outbound == 0
    && c.maxResult <= offered && c.maxResult <= s.config.maxResultBytes && c.maxResult <= s.config.maxBytesSession
    && c.maxResult <= s.config.maxBytesGlobal
    && c.maxResult in {offered, s.config.maxResultBytes, s.config.maxBytesSession, s.config.maxBytesGlobal}
  }

  // ---------- the claim and the pool ----------

  /** A started request that is neither decided nor past its queue time runs: its worker's pid is published and the client told. */
  lemma ClaimGrants(s: Broker, a: AttemptId, pid: int, r: RecordId)
    requires Invariant(s) && a < |s.attempts| && s.attempts[a].phase == Started && s.attempts[a].record == r
    requires !s.Decided(r) && !PastQueueTime(s, r)
    ensures var t := Next(s, Claim(a, pid));
            && Claiming(s, a, pid).1
            && t.Rec(r) == s.Rec(r).(state := Running, claimed := true)
            && t.Att(a) == s.Att(a).(phase := Phase.Claimed, pid := Some(pid))
            && t.running == s.running + (if s.Rec(r).state == Queued then 1 else 0)
            && (Reachable(s, s.Rec(r).session) ==> t.sent == s.sent + [(r, RunningFrame(Some(pid)))])
            && (forall x :: x != r ==> t.Rec(x) == s.Rec(x)) && (forall b :: b != a ==> t.Att(b) == s.Att(b))
            && t.queue == s.queue && t.staged == s.staged && t.requests == s.requests
  {
    hide Invariant, Granted;
    StartedHere(s, a);
    GrantedExactly(s, r, a, pid);
  }

  lemma GrantedExactly(s: Broker, r: RecordId, a: AttemptId, pid: int)
    requires r < |s.records| && a < |s.attempts| && s.records[r].future == Some(a) && s.records[r].session < |s.sessions|
    requires s.records[r].state == Queued || (s.records[r].state == Running && s.records[r].claimed)
    ensures var t := Granted(s, r, pid);
            && t.records == s.records[r := s.records[r].(state := Running, claimed := true)]
            && t.attempts == s.attempts[a := s.attempts[a].(pid := Some(pid))]
            && t.running == s.running + (if s.records[r].state == Queued then 1 else 0)
            && (Reachable(s, s.records[r].session) ==> t.sent == s.sent + [(r, RunningFrame(Some(pid)))])
            && t.queue == s.queue && t.staged == s.staged && t.requests == s.requests
  {
    hide Post;
    var rec := s.records[r];
    var t := if rec.state == Queued
             then s.WithRec(r, rec.(state := Running, claimed := true)).(running := s.running + 1) else s;
    var u := t.WithAtt(a, t.Att(a).(pid := Some(pid)));
    assert t.records == s.records[r := rec.(state := Running, claimed := true)];
    PostFrame(u, rec.session, [(r, RunningFrame(Some(pid)))]);
    if Reachable(s, rec.session) { PostedTo(u, rec.session, [(r, RunningFrame(Some(pid)))]); }
  }

  lemma StartedHere(s: Broker, a: AttemptId)
    requires Invariant(s) && a < |s.attempts| && s.attempts[a].phase == Started
    ensures var r := s.attempts[a].record;
            && r < |s.records| && s.records[r].future == Some(a)
            && s.records[r].session < |s.sessions|
            && (s.records[r].state == Running ==> s.records[r].claimed) && (s.records[r].state == Queued ==> !s.records[r].claimed)
  {
    hide QueueExact, SlotsExact;
    assert AttemptOk(s, a);
    assert RecordRetained(s, s.attempts[a].record);
  }

  /** A claim is refused if and only if the request is decided or past its queue time, and then the worker never gets it. */
  lemma ClaimRefusedExactlyWhen(s: Broker, a: AttemptId, pid: int)
    requires Invariant(s) && a < |s.attempts| && s.attempts[a].phase == Started
    ensures var t, r := Next(s, Claim(a, pid)), s.attempts[a].record;
            && (Claiming(s, a, pid).1 <==> !s.Decided(r) && !PastQueueTime(s, r))
            && (t.Att(a).phase == (if Claiming(s, a, pid).1 then Phase.Claimed else Finished))
            && (s.Decided(r) ==> t == s.WithAtt(a, s.Att(a).(phase := Finished)))
  {
    hide Invariant, Settle, Granted;
    var r := s.attempts[a].record;
    StartedHere(s, a);
    ClaimSizes(s, a, pid);
  }

  lemma ClaimSizes(s: Broker, a: AttemptId, pid: int)
    requires Invariant(s) && a < |s.attempts|
    ensures |Claiming(s, a, pid).0.attempts| == |s.attempts|
  {
    hide Invariant, Post, BrokerWithin.Within, Settle;
    var r := s.attempts[a].record;
    BrokerWithin.SettleWithin(s, r, Because(QueueTimedOut, "queue_timeout"));
    BrokerWithin.SizesWithin(s, Settle(s, r, Because(QueueTimedOut, "queue_timeout")));
    GrantedSizes(s, r, pid);
  }

  lemma GrantedSizes(s: Broker, r: RecordId, pid: int)
    ensures |Granted(s, r, pid).attempts| == |s.attempts|
  {
    hide Post;
    var rec := s.Rec(r);
    var t := if rec.state == Queued
             then s.WithRec(r, rec.(state := Running, claimed := true)).(running := s.running + 1) else s;
    var u := if rec.future.Some? then t.WithAtt(rec.future.value, t.Att(rec.future.value).(pid := Some(pid))) else t;
    PostFrame(u, u.Rec(r).session, [(r, RunningFrame(Some(pid)))]);
  }

  /** What becomes of an attempt the dispatch loop has offered: taken, put back, or failed for good. */
  lemma OfferAnswers(s: Broker, answer: Offer)
    requires s.lane.Offering? && s.lane.a < |s.attempts|
    ensures var t, a := Next(s, OfferToPool(answer)), s.lane.a;
            && t.records == s.records && t.queue == s.queue && t.staged == s.staged && t.sent == s.sent
            && match answer
               case Admitted => t.lane == Taken(a) && t.attempts == s.attempts[a := s.attempts[a].(phase := Waiting)]
               case QueueFull => t.lane == Refused(a) && t.attempts == s.attempts
               case Failed(_) => t.lane == Broken(a) && t.attempts == s.attempts
  {
  }

  /** An attempt the pool took is watched from then on, and its request drops the invocation. */
  lemma TakenIsWatched(s: Broker)
    requires s.lane.Taken? && s.lane.a < |s.attempts| && s.attempts[s.lane.a].record < |s.records|
    ensures var a, r := s.lane.a, s.attempts[s.lane.a].record;
            Next(s, Watch) == s.(records := s.records[r := s.records[r].(payload := [])],
                                 attempts := s.attempts[a := s.attempts[a].(watched := true)], lane := AtTop)
  {
  }

  /** The steps of a task thread. */
  lemma TaskSteps(s: Broker, a: AttemptId)
    requires a < |s.attempts|
    ensures Next(s, StartTask(a)) ==
              if s.attempts[a].phase == Waiting then s.(attempts := s.attempts[a := s.attempts[a].(phase := Started)]) else s
    ensures Next(s, RetryTask(a)) ==
              if s.attempts[a].phase == Phase.Claimed then s.(attempts := s.attempts[a := s.attempts[a].(phase := Started)]) else s
  {
  }

  lemma PipeStep(s: Broker, a: AttemptId)
    ensures Next(s, WritePipe(a)) == if s.Att(a).phase == Phase.Claimed then s.(piped := s.piped + [s.Att(a).record]) else s
  {
  }

  /** The pool's result finishes the attempt; a future cancelled before stays so, and no one is told yet. */
  lemma ResultStays(s: Broker, a: AttemptId, o: Outcome)
    requires a < |s.attempts| && Permitted(s, a, o)
    ensures Next(s, Resolve(a, o)) ==
              s.(attempts := s.attempts[a := s.attempts[a].(phase := Finished,
                                                            future := if s.attempts[a].future.Pending? then Resolved(o) else s.attempts[a].future)])
  {
    hide Permitted;
  }

  /** Whatever a worker may answer is allowed to it, and only while it has the request; a value is no larger than was reserved. */
  lemma PermittedExactlyWhen(s: Broker, a: AttemptId, o: Outcome)
    ensures Permitted(s, a, o) <==>
              match o
              case Returned(verdict, _, payload) =>
                && s.Att(a).phase == Phase.Claimed && |payload| <= s.Rec(s.Att(a).record).reserved
                && (verdict == Succeeded || verdict == TaskFailed || verdict == ResultEncodingFailed || verdict == ResultTooLarge)
              case _ => s.Att(a).phase == Waiting || s.Att(a).phase == Started || s.Att(a).phase == Phase.Claimed
  {
  }

  // ---------- leaving ----------

  /** A disconnect closes the session for good; unless it was clean or work goes on, only what a worker has is left of it. */
  lemma DisconnectLeaves(s: Broker, sid: SessionId)
    requires Invariant(s) && sid < |s.sessions| && !s.sessions[sid].disconnected
    ensures var t := Next(s, Disconnect(sid));
            && t.Sess(sid).disconnected && t.Sess(sid).closed && t.Sess(sid).cleanClose == s.sessions[sid].cleanClose
            && (forall r :: r in t.Sess(sid).requests ==> r in s.sessions[sid].requests && !t.Decided(r))
            && (sid in t.registered ==> t.Sess(sid).requests != [])
            && (s.sessions[sid].cleanClose || s.config.policy == ContinueWork ==>
                  forall r :: r in s.sessions[sid].requests && !s.Decided(r) ==> r in t.Sess(sid).requests && t.Rec(r).state == s.Rec(r).state)
  {
    hide Dispatch, Log, Counted, PayloadsFit, Departed, VisitAll, Purge, Kept, BrokerWithin.Within;
    InvariantParts(s);
    var c := s.sessions[sid];
    var u := s.WithSess(sid, c.(closed := true, disconnected := true));
    RetentionFramed(s, u);
    VisitAllKept(u, DisconnectPass, c.requests);
    BrokerWithin.VisitAllWithin(u, DisconnectPass, c.requests);
    BrokerWithin.WithinReflexive(u);
    var v := if !c.cleanClose && s.config.policy != ContinueWork then VisitAll(u, DisconnectPass, c.requests) else u;
    PurgedSession(u, v, sid);
    if s.sessions[sid].cleanClose || s.config.policy == ContinueWork { AllUndecidedKept(s, u, Purge(v, sid), sid); }
  }

  lemma AllUndecidedKept(s: Broker, u: Broker, t: Broker, sid: SessionId)
    requires Retained(s) && Kept(t) && SameDispatch(u, t) && u.records == s.records
    ensures forall r :: r in s.Sess(sid).requests && !s.Decided(r) ==> r in t.Sess(sid).requests && t.Rec(r).state == s.Rec(r).state
  {
    hide Retained, Kept, SameDispatch;
    SameRecordCount(u, t);
    forall r | r in s.Sess(sid).requests && !s.Decided(r) ensures r in t.Sess(sid).requests && t.Rec(r).state == s.Rec(r).state {
      SameState(u, t, r);
      UndecidedKept(s, t, sid, r);
    }
  }

  lemma SameRecordCount(u: Broker, t: Broker)
    requires SameDispatch(u, t)
    ensures |t.records| == |u.records|
  {
  }

  /** What the purge leaves of a session that has left. */
  lemma PurgedSession(u: Broker, v: Broker, sid: SessionId)
    requires Kept(v) && BrokerWithin.Within(u, v) && sid < |u.sessions| == |v.sessions| && u.sessions[sid].closed && u.sessions[sid].disconnected
    ensures var t := Purge(v, sid);
            && t.Sess(sid).disconnected && t.Sess(sid).closed && t.Sess(sid).cleanClose == u.sessions[sid].cleanClose
            && (forall r :: r in t.Sess(sid).requests ==> r in u.sessions[sid].requests && !t.Decided(r))
            && (sid in t.registered ==> t.Sess(sid).requests != [])
            && Kept(t) && SameDispatch(v, t) && |t.records| == |v.records|
  {
    hide Dispatch, Purge, Kept, BrokerWithin.Within;
    PurgeKept(v, sid);
    BrokerWithin.PurgeWithin(v, sid);
    BrokerWithin.WithinTransitive(u, v, Purge(v, sid));
    SessionHere(u, Purge(v, sid), sid);
    PurgeFrame(v, sid);
    forall r | r in Purge(v, sid).Sess(sid).requests ensures !Purge(v, sid).Decided(r) { SameState(v, Purge(v, sid), r); }
  }

  lemma SessionHere(u: Broker, t: Broker, sid: SessionId)
    requires BrokerWithin.Within(u, t) && sid < |u.sessions|
    ensures t.Sess(sid).disconnected == u.sessions[sid].disconnected && t.Sess(sid).cleanClose == u.sessions[sid].cleanClose
    ensures u.sessions[sid].closed ==> t.Sess(sid).closed
    ensures forall r :: r in t.Sess(sid).requests ==> r in u.sessions[sid].requests
  {
    assert BrokerWithin.SessionWithin(u.sessions[sid], t.sessions[sid]);
  }

  lemma SameState(v: Broker, t: Broker, r: RecordId)
    requires SameDispatch(v, t)
    ensures t.Rec(r).state == v.Rec(r).state && (r < |v.records| ==> t.Rec(r).session == v.Rec(r).session)
  {
    assert r < |v.records| ==> SameRole(v.records[r], t.records[r]);
  }

  lemma UndecidedKept(s: Broker, t: Broker, sid: SessionId, r: RecordId)
    requires Retained(s) && Kept(t) && r in s.Sess(sid).requests && !t.Decided(r) && |t.records| == |s.records|
    requires t.Rec(r).session == s.Rec(r).session
    ensures r in t.Sess(sid).requests
  {
    assert HeldBy(s, r, sid);
    assert RecordRetained(t, r);
  }

  // ---------- cancelling ----------

  /** The answer to a cancellation is the truth about what it did. */
  lemma CancelReplyTruthful(s: Broker, sid: SessionId, id: RequestId, hard: bool, authorized: bool)
    requires Invariant(s) && !s.Sess(sid).disconnected
    ensures var t, reply := Next(s, Cancel(sid, id, hard, authorized)), CancelReply(s, sid, id, hard, authorized);
            && (reply == UnknownRequest <==> forall r :: r in s.Sess(sid).requests ==> s.Rec(r).id != id)
            && forall r :: r in s.Sess(sid).requests && s.Rec(r).id == id ==>
                 && (reply == AlreadyTerminal <==> s.Decided(r))
                 && (reply == NowCancelled <==> !s.Decided(r) && t.Rec(r).state == Terminal(Cancelled))
                 && (reply == StillRuns <==> s.Rec(r).state == Running && t.Rec(r).state == Running)
  {
    hide Dispatch, Log, Counted, PayloadsFit, Departed, ReservedExact, Retained, Sequenced, Next, Reported;
    FindIn(s, s.Sess(sid).requests, id);
    forall r | r in s.Sess(sid).requests && s.Rec(r).id == id
      ensures var t, reply := Next(s, Cancel(sid, id, hard, authorized)), CancelReply(s, sid, id, hard, authorized);
              && (reply == AlreadyTerminal <==> s.Decided(r))
              && (reply == NowCancelled <==> !s.Decided(r) && t.Rec(r).state == Terminal(Cancelled))
              && (reply == StillRuns <==> s.Rec(r).state == Running && t.Rec(r).state == Running)
    {
      CancelReplyFor(s, sid, id, hard, authorized, r);
    }
  }

  lemma CancelReplyFor(s: Broker, sid: SessionId, id: RequestId, hard: bool, authorized: bool, r: RecordId)
    requires Invariant(s) && !s.Sess(sid).disconnected && r in s.Sess(sid).requests && s.Rec(r).id == id
    ensures var t, reply := Next(s, Cancel(sid, id, hard, authorized)), CancelReply(s, sid, id, hard, authorized);
            && (reply == AlreadyTerminal <==> s.Decided(r))
            && (reply == NowCancelled <==> !s.Decided(r) && t.Rec(r).state == Terminal(Cancelled))
            && (reply == StillRuns <==> s.Rec(r).state == Running && t.Rec(r).state == Running)
  {
    hide Invariant, Next;
    var action := Cancel(sid, id, hard, authorized);
    FindIn(s, s.Sess(sid).requests, id);
    HeldOnce(s, sid, r, Find(s, s.Sess(sid).requests, id).value);
    HeldInRange(s, sid, r);
    if !s.Decided(r) {
      DecidedExactlyWhen(s, action, r);
      CancelStep(s, action);
      if !Decides(s, action, r) { SparedByCancel(s, sid, id, hard, authorized, r); }
    }
  }

  lemma CancelStep(s: Broker, action: Action)
    requires action.Cancel?
    ensures Next(s, action) == CancelledBy(s, action.sid, action.id, action.hard, action.authorized)
  {
  }

  lemma HeldInRange(s: Broker, sid: SessionId, r: RecordId)
    requires Invariant(s) && r in s.Sess(sid).requests
    ensures r < |s.records|
  {
    assert HeldBy(s, r, sid);
  }

  lemma SparedByCancel(s: Broker, sid: SessionId, id: RequestId, hard: bool, authorized: bool, r: RecordId)
    requires Find(s, s.Sess(sid).requests, id) == Some(r) && s.Rec(r).state == Running && !(hard && authorized)
    ensures CancelledBy(s, sid, id, hard, authorized).Rec(r).state == Running
  {
    hide Post;
    PostFrame(s, sid, []);
  }
}
