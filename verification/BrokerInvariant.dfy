/** What holds in every reachable state of the broker, one concern at a time. */
module BrokerInvariant {
  import opened Options
  import opened ByteStrings
  import opened Seqs
  import opened SchedulerSpec
  import opened BrokerState

  // ---------- dispatch ----------

  /** A record and its attempt name each other. */
  ghost predicate Paired(s: Broker) {
    && (forall r :: 0 <= r < |s.records| && s.records[r].future.Some? ==>
          s.records[r].future.value < |s.attempts| && s.attempts[s.records[r].future.value].record == r)
    && (forall a :: 0 <= a < |s.attempts| ==> s.attempts[a].record < |s.records|)
    && (!s.lane.AtTop? ==> s.lane.a < |s.attempts|)
  }

  ghost predicate Unstaged(s: Broker, r: RecordId)
    requires r < |s.records|
  {
    s.records[r].state == Queued && s.records[r].future == None
  }

  ghost predicate BelongsTo(s: Broker, r: RecordId, p: int, q: Principal) {
    r < |s.records| && Unstaged(s, r) && s.records[r].priority == p && s.records[r].principal == q
  }

  /** The scheduler holds exactly the queued records without an attempt, each once, in its own stream. */
  ghost predicate QueueExact(s: Broker) {
    && Ok(s.queue)
    && (forall p, q :: NoDup(Stream(s.queue, p, q)))
    && (forall p, q, r :: r in Stream(s.queue, p, q) ==> BelongsTo(s, r, p, q))
    && (forall r :: 0 <= r < |s.records| && Unstaged(s, r) ==>
          r in Stream(s.queue, s.records[r].priority, s.records[r].principal))
  }

  ghost function Outstanding(attempts: seq<Attempt>): nat {
    if attempts == [] then 0
    else Outstanding(attempts[..|attempts| - 1]) + if attempts[|attempts| - 1].over then 0 else 1
  }

  /** `_staged` counts the attempts not yet over, within the limit. */
  ghost predicate SlotsExact(s: Broker) {
    s.staged == Outstanding(s.attempts) && s.staged <= s.config.maxStaged
  }

  ghost predicate HeldByLane(s: Broker, a: AttemptId) {
    !s.lane.AtTop? && s.lane.a == a
  }

  ghost predicate AttemptOk(s: Broker, a: AttemptId)
    requires a < |s.attempts| && s.attempts[a].record < |s.records|
  {
    var x := s.attempts[a];
    var rec := s.records[x.record];
    && (!x.over ==> rec.future == Some(a) && (x.watched || HeldByLane(s, a)))
    && (x.over && rec.future == Some(a) ==> rec.state.Terminal?)
    && (x.phase != Offered ==> rec.future == Some(a))
    && (x.phase == Offered ==> !x.watched && (x.over || (HeldByLane(s, a) && !s.lane.Taken?)))
    && (HeldByLane(s, a) ==> !x.watched && !x.over && (s.lane.Taken? <==> x.phase != Offered))
    && (x.phase == Finished ==> !x.future.Pending?)
    && (x.watched && x.over ==> !x.future.Pending?)
    && (rec.claimed && rec.future == Some(a) ==> x.phase != Offered)
  }

  /** Refused for good: the pool never had it. */
  ghost predicate GivenUpAttempt(x: Attempt) {
    x.phase == Offered && x.over
  }

  /** Whoever decides a request also cancels its attempt in the pool. */
  ghost predicate CancelledWithRecord(s: Broker, r: RecordId)
    requires r < |s.records|
  {
    var rec := s.records[r];
    rec.state.Terminal? && rec.future.Some? && !GivenUpAttempt(s.Att(rec.future.value)) ==>
      !s.Att(rec.future.value).future.Pending?
  }

  ghost predicate AttemptsOk(s: Broker)
    requires Paired(s)
  {
    && (forall a :: 0 <= a < |s.attempts| ==> AttemptOk(s, a))
    && (forall r :: 0 <= r < |s.records| && s.records[r].state == Running ==> s.records[r].future.Some?)
  }

  /** Only a claimed request is running, was ever running, or was written to a worker. */
  ghost predicate ClaimsOk(s: Broker) {
    && (forall r :: 0 <= r < |s.records| ==>
          && (s.records[r].state == Running ==> s.records[r].claimed)
          && (s.records[r].state == Queued ==> !s.records[r].claimed))
    && (forall a :: 0 <= a < |s.attempts| && s.attempts[a].phase == Phase.Claimed ==> s.Rec(s.attempts[a].record).claimed)
    && (forall r :: r in s.piped ==> r < |s.records| && s.records[r].claimed)
  }

  // ---------- retention ----------

  ghost predicate HeldBy(s: Broker, r: RecordId, sid: SessionId) {
    r < |s.records| && s.records[r].session == sid
  }

  /** A record is retained, by its session and globally, exactly until its reservation is released. */
  ghost predicate Retained(s: Broker) {
    && NoDup(s.requests)
    && (forall r :: r in s.requests ==> r < |s.records|)
    && (forall sid :: 0 <= sid < |s.sessions| ==> NoDup(s.sessions[sid].requests))
    && (forall sid, r :: 0 <= sid < |s.sessions| && r in s.sessions[sid].requests ==> HeldBy(s, r, sid))
    && (forall sid :: sid in s.registered ==> sid < |s.sessions|)
    && (forall r :: 0 <= r < |s.records| ==> RecordRetained(s, r))
  }

  ghost predicate RecordRetained(s: Broker, r: RecordId)
    requires r < |s.records|
  {
    var rec := s.records[r];
    && rec.session < |s.sessions|
    && (r in s.requests <==> !rec.reservationReleased)
    && (r in s.sessions[rec.session].requests <==> !rec.reservationReleased)
    && (!rec.state.Terminal? ==> !rec.reservationReleased)
    && (!rec.reservationReleased ==> rec.session in s.registered)
  }

  ghost function SumReserved(records: seq<Record>, rs: seq<RecordId>): nat {
    if rs == [] then 0
    else SumReserved(records, rs[1..]) + if rs[0] < |records| then records[rs[0]].reserved else 0
  }

  ghost function SumPayload(records: seq<Record>, rs: seq<RecordId>): nat {
    if rs == [] then 0
    else SumPayload(records, rs[1..]) + if rs[0] < |records| then PayloadSize(records[rs[0]]) else 0
  }

  ghost function PayloadSize(rec: Record): nat {
    if rec.terminal.Some? && rec.terminal.value.TerminalFrame? then |rec.terminal.value.payload| else 0
  }

  /** The counters are the number and the bytes of the retained records, within the limits. */
  ghost predicate ReservedExact(s: Broker) {
    && s.reservedOutcomes == |s.requests| <= s.config.maxOutcomesGlobal
    && s.reservedBytes == SumReserved(s.records, s.requests) <= s.config.maxBytesGlobal
    && (forall sid :: 0 <= sid < |s.sessions| ==>
          && s.sessions[sid].reservedOutcomes == |s.sessions[sid].requests| <= s.config.maxOutcomesSession
          && s.sessions[sid].reservedBytes == SumReserved(s.records, s.sessions[sid].requests) <= s.config.maxBytesSession)
  }

  ghost predicate PayloadsFit(s: Broker) {
    && (forall r :: 0 <= r < |s.records| ==> PayloadSize(s.records[r]) <= s.records[r].reserved)
    && (forall a :: 0 <= a < |s.attempts| && s.attempts[a].future.Resolved? ==>
          |PayloadOf(s.attempts[a].future.outcome)| <= s.Rec(s.attempts[a].record).reserved)
  }

  ghost function PayloadOf(o: Outcome): Bytes {
    if o.Returned? then o.payload else []
  }

  /** The client index and the registered sessions are inverse to each other. */
  ghost predicate ClientsExact(s: Broker) {
    && (forall c :: c in s.clients ==> s.clients[c] in s.registered && s.Sess(s.clients[c]).client == c)
    && (forall sid :: sid in s.registered ==> s.Sess(sid).client in s.clients && s.clients[s.Sess(sid).client] == sid)
  }

  /** Running, or decided while running and its attempt not over yet. */
  ghost predicate StillRunning(s: Broker, r: RecordId) {
    && s.config.policy == CancelQueuedWork && s.Rec(r).claimed
    && (s.Rec(r).state == Running ||
        (s.Rec(r).state.Terminal? && s.Rec(r).future.Some? && !s.Att(s.Rec(r).future.value).over))
  }

  /** A session that was left uncleanly keeps only work that is still running, and ends with it. */
  ghost predicate SessionDeparted(s: Broker, sid: SessionId) {
    s.Sess(sid).disconnected && !s.Sess(sid).cleanClose && s.config.policy != ContinueWork ==>
      && (sid in s.registered ==> s.Sess(sid).requests != [])
      && forall r :: r in s.Sess(sid).requests ==> StillRunning(s, r)
  }

  ghost predicate Departed(s: Broker) {
    && (forall sid :: 0 <= sid < |s.sessions| && s.sessions[sid].disconnected ==> s.sessions[sid].closed)
    && (forall sid :: 0 <= sid < |s.sessions| ==> SessionDeparted(s, sid))
  }

  // ---------- what the clients see ----------

  ghost function Rank(f: Frame): nat {
    match f
    case AcceptedFrame => 0
    case RunningFrame(_) => 1
    case TerminalFrame(_, _, _) => 2
  }

  ghost predicate Open(s: Broker, r: RecordId) {
    !s.Sess(s.Rec(r).session).closed
  }

  /** Every frame in the log agrees with the state of its request. */
  ghost predicate FramesAgree(s: Broker) {
    forall i :: 0 <= i < |s.sent| ==>
      && s.sent[i].0 < |s.records|
      && (s.sent[i].1.RunningFrame? ==> s.records[s.sent[i].0].claimed)
      && (s.sent[i].1.TerminalFrame? ==>
            && s.records[s.sent[i].0].state == Terminal(s.sent[i].1.verdict)
            && (!s.records[s.sent[i].0].reservationReleased ==> s.records[s.sent[i].0].terminal == Some(s.sent[i].1)))
  }

  /** ACCEPTED before RUNNING before one fixed terminal frame, request by request. */
  ghost predicate OrderedFrames(log: seq<(RecordId, Frame)>) {
    && (forall i, j :: 0 <= i < j < |log| && log[i].0 == log[j].0 ==>
          && Rank(log[i].1) <= Rank(log[j].1)
          && (log[i].1.TerminalFrame? ==> log[i] == log[j]))
    && (forall j :: 0 <= j < |log| ==> (log[j].0, AcceptedFrame) in log)
  }

  ghost predicate FramesOrdered(s: Broker) {
    OrderedFrames(s.sent)
  }

  ghost predicate HasFrame(s: Broker, r: RecordId, rank: nat) {
    exists i :: 0 <= i < |s.sent| && s.sent[i].0 == r && Rank(s.sent[i].1) == rank
  }

  /** While its connection is open, a client has been sent the state its request is in. */
  ghost predicate NothingWithheld(s: Broker) {
    forall r :: 0 <= r < |s.records| && Open(s, r) ==>
      && HasFrame(s, r, 0)
      && (s.records[r].state == Running ==> HasFrame(s, r, 1))
      && (s.records[r].state.Terminal? ==> HasFrame(s, r, 2))
  }

  /** A retained decision still has its frame, with the same verdict. */
  ghost predicate DecisionsKept(s: Broker) {
    forall r :: 0 <= r < |s.records| && s.records[r].state.Terminal? ==>
      && s.records[r].terminal.Some? && s.records[r].terminal.value.TerminalFrame?
      && s.records[r].terminal.value.verdict == s.records[r].state.verdict
  }

  // ---------- admission, counters, shutdown ----------

  /** Sequence numbers grow strictly within a session, and the watermark is never behind. */
  ghost predicate Sequenced(s: Broker) {
    && (forall r :: 0 <= r < |s.records| ==>
          && s.records[r].session < |s.sessions|
          && s.records[r].id.client == s.sessions[s.records[r].session].client
          && s.records[r].id.sequence <= s.sessions[s.records[r].session].watermark)
    && (forall r1, r2 :: 0 <= r1 < r2 < |s.records| && s.records[r1].session == s.records[r2].session ==>
          s.records[r1].id.sequence < s.records[r2].id.sequence)
  }

  ghost function CountDecided(records: seq<Record>): nat {
    if records == [] then 0
    else CountDecided(records[..|records| - 1]) + if records[|records| - 1].state.Terminal? then 1 else 0
  }

  ghost function CountClaimed(records: seq<Record>): nat {
    if records == [] then 0
    else CountClaimed(records[..|records| - 1]) + if records[|records| - 1].claimed then 1 else 0
  }

  ghost predicate Counted(s: Broker) {
    s.accepted == |s.records| && s.terminal == CountDecided(s.records) && s.running == CountClaimed(s.records)
  }

  ghost predicate StoppedWhenDecided(s: Broker) {
    s.server == Stopping || s.server == Stopped ==>
      forall r :: 0 <= r < |s.records| ==> s.records[r].state.Terminal?
  }

  ghost predicate Dispatch(s: Broker) {
    && Paired(s)
    && QueueExact(s)
    && SlotsExact(s)
    && AttemptsOk(s)
    && (forall r :: 0 <= r < |s.records| ==> CancelledWithRecord(s, r))
    && ClaimsOk(s)
  }

  ghost predicate Kept(s: Broker) {
    Retained(s) && ReservedExact(s) && ClientsExact(s)
  }

  ghost predicate Retention(s: Broker) {
    Kept(s) && PayloadsFit(s)
  }

  ghost predicate Log(s: Broker) {
    FramesAgree(s) && FramesOrdered(s) && NothingWithheld(s) && DecisionsKept(s)
  }

  ghost predicate Invariant(s: Broker) {
    && Dispatch(s)
    && Retention(s)
    && Departed(s)
    && Log(s)
    && Sequenced(s)
    && Counted(s)
    && StoppedWhenDecided(s)
  }
}
