/**
 The completion lane of deadpool/remote/client.py with its slots: a semaphore of `inbound_queue_size`, taken by whoever
 schedules work and given back when the one lane thread has run it. The lane thread may itself find the connection lost,
 when an acknowledgement cannot be queued, and then takes slots that only it gives back.
 */
module CompletionLane {
  import opened Seqs
  import opened RemoteFutures
  import opened Client
  import opened ClientSteps

  /** Between works, in `_enqueue_control`, in the loop of `_connection_lost`, or about to release its slot. */
  datatype LaneThread = Resting | Acknowledging | Losing | Releasing

  /** `inHand`: the receiver has read a frame it has not looked up yet. */
  datatype Bounded = Bounded(c: Client, capacity: nat, free: int, lane: LaneThread, inHand: bool)

  datatype Move =
    | Plain(step: Step)                  // a step of the client that takes no slot
    | ReadFrame
    | LookUp(w: Work)
    | Scheduled                          // the receiver takes a slot for its work
    | Begin                              // the lane thread runs the next work, all but the acknowledgement
    | Acknowledged
    | AckFails(order: seq<RequestId>)
    | Loop                               // whoever runs the loop of _connection_lost; its scheduling takes a slot
    | LoopEnds
    | Release

  /** Steps with no part in slots or frames. */
  predicate Elsewhere(step: Step) {
    !step.Receive? && !step.Schedule? && !step.Lane? && !step.LossStep?
  }

  function Fresh(capacity: nat): Bounded {
    Bounded(START, capacity, capacity, Resting, false)
  }

  ghost function Moved(s: Bounded, m: Move): Bounded {
    match m
    case Plain(step) => if Elsewhere(step) then s.(c := Next(s.c, step)) else s
    case ReadFrame => if s.c.socket && s.c.receiver == Listening then s.(inHand := true) else s
    case LookUp(w) => if s.inHand then s.(c := Next(s.c, Receive(w)), inHand := false) else s
    case Scheduled => if s.free > 0 && s.c.receiver.Receiving? then s.(c := Next(s.c, Schedule), free := s.free - 1) else s
    case Begin =>
      if s.lane.Resting? && s.c.lane != []
      then s.(c := Next(s.c, Lane), lane := if s.c.lane[0].Complete? then Acknowledging else Releasing) else s
    case Acknowledged => if s.lane.Acknowledging? then s.(lane := Releasing) else s
    case AckFails(order) =>
      if !s.lane.Acknowledging? || !Lists(order, s.c.registered) then s
      else if s.c.failed then s.(lane := Releasing)
      else s.(c := Next(s.c, Lose(order)), lane := Losing)
    case Loop =>
      if !s.c.loss.Scheduling? then s.(c := Next(s.c, LossStep))
      else if s.free > 0 then s.(c := Next(s.c, LossStep), free := s.free - 1) else s
    case LoopEnds => if s.lane.Losing? && s.c.loss == Checking([]) then s.(lane := Releasing) else s
    case Release => if s.lane.Releasing? then s.(lane := Resting, free := s.free + 1) else s
  }

  ghost function Moves(s: Bounded, ms: seq<Move>): Bounded
    decreases |ms|
  {
    if ms == [] then s else Moves(Moved(s, ms[0]), ms[1..])
  }

  // ---------- a client with fewer interleavings ----------

  lemma MoveIsStep(s: Bounded, m: Move) returns (steps: seq<Step>)
    ensures |steps| <= 1 && Moved(s, m).c == if steps == [] then s.c else Next(s.c, steps[0])
  {
    hide Next;
    steps := [];
    match m
    case Plain(step) => if Moved(s, m).c != s.c { steps := [step]; }
    case LookUp(w) => if s.inHand { steps := [Receive(w)]; }
    case Scheduled => if s.free > 0 && s.c.receiver.Receiving? { steps := [Schedule]; }
    case Begin => if s.lane.Resting? && s.c.lane != [] { steps := [Lane]; }
    case AckFails(order) => if Moved(s, m).c != s.c { steps := [Lose(order)]; }
    case Loop => if !s.c.loss.Scheduling? || s.free > 0 { steps := [LossStep]; }
    case _ =>
  }

  /** Every run with slots is a run of the client, so what holds of those holds here. */
  lemma {:induction false} RunsAreClientRuns(s: Bounded, ms: seq<Move>) returns (steps: seq<Step>)
    ensures Moves(s, ms).c == After(s.c, steps)
    decreases |ms|
  {
    hide Next, Moved;
    steps := [];
    if ms != [] {
      var first := MoveIsStep(s, ms[0]);
      var rest := RunsAreClientRuns(Moved(s, ms[0]), ms[1..]);
      steps := first + rest;
      assert first != [] ==> steps[1..] == rest;
      assert first == [] ==> steps == rest;
    }
  }

  /** Every slot is free, with queued work, or with the work the lane thread runs. */
  ghost predicate SlotsExact(s: Bounded) {
    s.free >= 0 && s.free + |s.c.lane| + (if s.lane.Resting? then 0 else 1) == s.capacity
  }

  ghost predicate Sane(s: Bounded) {
    && SlotsExact(s) && InRange(s.c)
    && (s.lane.Losing? ==> s.c.failed)
    && (s.inHand ==> s.c.receiver == Listening)
  }

  lemma PlainLane(c: Client, step: Step)
    requires !step.Schedule? && !step.Lane? && !step.LossStep?
    ensures Next(c, step).lane == c.lane
    ensures c.failed ==> Next(c, step).failed && Next(c, step).loss == c.loss
    ensures !step.Receive? && !step.NoteTerminal? ==> Next(c, step).receiver == c.receiver
    ensures c.receiver == Listening && !step.Receive? ==> Next(c, step).receiver == Listening
  {
    hide Lists;
  }

  lemma LaneTaken(c: Client)
    requires c.lane != []
    ensures Next(c, Lane).lane == c.lane[1..] && Next(c, Lane).failed == c.failed && Next(c, Lane).receiver == c.receiver
  {
  }

  lemma LossTaken(c: Client)
    requires InRange(c)
    ensures Next(c, LossStep).lane == c.lane + if c.loss.Scheduling? then [Fail(c.loss.todo[0], c.loss.c)] else []
    ensures Next(c, LossStep) == c.(loss := Next(c, LossStep).loss, lane := Next(c, LossStep).lane)
  {
  }

  lemma MoveKeepsSane(s: Bounded, m: Move)
    requires Sane(s)
    ensures Sane(Moved(s, m))
  {
    hide InRange, Next;
    var u := Moved(s, m);
    var steps := MoveIsStep(s, m);
    if steps != [] { StepInRange(s.c, steps[0]); }
    match m
    case Plain(step) => if Elsewhere(step) { PlainLane(s.c, step); }
    case LookUp(w) => if s.inHand { PlainLane(s.c, Receive(w)); }
    case Scheduled => if s.c.receiver.Receiving? { ScheduleTaken(s.c); }
    case Begin => if s.c.lane != [] { LaneTaken(s.c); }
    case AckFails(order) =>
      PlainLane(s.c, Lose(order));
      if Lists(order, s.c.registered) && !s.c.failed { LoseFails(s.c, order); }
    case Loop => LossTaken(s.c);
    case _ =>
  }

  lemma LoseFails(c: Client, order: seq<RequestId>)
    requires Lists(order, c.registered) && !c.failed
    ensures Next(c, Lose(order)).failed && Next(c, Lose(order)).loss == Checking(order)
  {
  }

  lemma ScheduleTaken(c: Client)
    requires c.receiver.Receiving?
    ensures Next(c, Schedule) == c.(lane := c.lane + [c.receiver.w], receiver := Listening)
  {
  }

  lemma {:induction false} RunKeepsSane(s: Bounded, ms: seq<Move>)
    requires Sane(s)
    ensures Sane(Moves(s, ms))
    decreases |ms|
  {
    hide Sane, Moved;
    if ms != [] {
      MoveKeepsSane(s, ms[0]);
      RunKeepsSane(Moved(s, ms[0]), ms[1..]);
    }
  }

  lemma FreshSane(capacity: nat)
    ensures Sane(Fresh(capacity))
  {
  }

  // ---------- a lane that waits for itself ----------

  /** The lane thread waits for a slot that only it could give back. */
  ghost predicate Stuck(s: Bounded) {
    s.lane.Losing? && s.c.loss.Scheduling? && s.free <= 0
  }

  /** The loop of `_connection_lost` will schedule a failure for it, unless something else decides it first. */
  predicate ToFail(c: Client, id: RequestId) {
    !Fut(c, id).Done() && id !in c.terminalReceived
  }

  function CountToFail(c: Client, ids: seq<RequestId>): nat {
    if ids == [] then 0 else (if ToFail(c, ids[0]) then 1 else 0) + CountToFail(c, ids[1..])
  }

  /** Slots the loop has yet to take. */
  function Need(c: Client): nat {
    match c.loss
    case NotLost => 0
    case Checking(todo) => CountToFail(c, todo)
    case Reading(todo) => if todo == [] then 0 else 1 + CountToFail(c, todo[1..])
    case Scheduling(_, todo) => if todo == [] then 0 else 1 + CountToFail(c, todo[1..])
  }

  /** Slots the receiver may still take: one, for a frame it has read. */
  function FrameLeft(s: Bounded): nat {
    if s.c.receiver != Listening || (s.inHand && s.c.registered != {}) then 1 else 0
  }

  predicate TooMany(s: Bounded) {
    Need(s.c) >= 1 && Need(s.c) + FrameLeft(s) > s.free
  }

  lemma {:induction false} CountFalls(c: Client, d: Client, ids: seq<RequestId>)
    requires forall id: RequestId :: ToFail(d, id) ==> ToFail(c, id)
    ensures CountToFail(d, ids) <= CountToFail(c, ids)
    decreases |ids|
  {
    if ids != [] { CountFalls(c, d, ids[1..]); }
  }

  lemma {:induction false} CountSame(c: Client, d: Client, ids: seq<RequestId>)
    requires d.futures == c.futures && d.terminalReceived == c.terminalReceived
    ensures CountToFail(d, ids) == CountToFail(c, ids)
    decreases |ids|
  {
    if ids != [] { CountSame(c, d, ids[1..]); }
  }

  lemma NeedFalls(c: Client, d: Client)
    requires d.loss == c.loss && forall id: RequestId :: ToFail(d, id) ==> ToFail(c, id)
    ensures Need(d) <= Need(c)
  {
    match c.loss
    case NotLost =>
    case Checking(todo) => CountFalls(c, d, todo);
    case Reading(todo) => if todo != [] { CountFalls(c, d, todo[1..]); }
    case Scheduling(_, todo) => if todo != [] { CountFalls(c, d, todo[1..]); }
  }

  /** Once the connection is lost no other step adds work for the loop. */
  lemma PlainNeed(c: Client, step: Step)
    requires InRange(c) && c.failed && !step.Schedule? && !step.Lane? && !step.LossStep?
    ensures Need(Next(c, step)) <= Need(c) && Next(c, step).registered <= c.registered
  {
    hide InRange;
    var d := Next(c, step);
    PlainLane(c, step);
    StepForward(c, step);
    PlainRegistered(c, step);
    forall id: RequestId | ToFail(d, id) ensures ToFail(c, id) {
      if id < |c.futures| { assert FutureForward(c.futures[id], d.futures[id]); }
    }
    NeedFalls(c, d);
  }

  lemma PlainRegistered(c: Client, step: Step)
    requires c.failed && !step.Schedule? && !step.Lane? && !step.LossStep?
    ensures Next(c, step).registered <= c.registered && c.terminalReceived <= Next(c, step).terminalReceived
  {
  }

  /** One turn of the loop takes a slot for each failure it schedules, and no other. */
  lemma LoopNeed(c: Client)
    requires InRange(c) && c.failed && c.loss != Checking([])
    ensures Need(Next(c, LossStep)) == Need(c) - if c.loss.Scheduling? then 1 else 0
  {
    var d := Next(c, LossStep);
    LossTaken(c);
    CountSame(c, d, c.loss.todo[1..]);
    CountSame(c, d, c.loss.todo);
  }

  /** No block is ahead: the loop is another thread's, or its failures and the last frame fit the free slots. */
  ghost predicate Clear(s: Bounded) {
    s.c.failed && (s.lane.Losing? ==> !TooMany(s))
  }

  lemma ClearStep(s: Bounded, m: Move)
    requires Sane(s) && Clear(s)
    ensures Clear(Moved(s, m)) && !Stuck(s)
  {
    hide Next, InRange, Need;
    StuckIsTooMany(s);
    SocketGone(s.c);
    match m
    case Plain(step) => if Elsewhere(step) { PlainNeed(s.c, step); PlainLane(s.c, step); PlainFrames(s.c, step); }
    case LookUp(w) => if s.inHand { PlainNeed(s.c, Receive(w)); PlainLane(s.c, Receive(w)); LookedUp(s.c, w); }
    case Scheduled =>
      if s.c.receiver.Receiving? {
        ScheduleTaken(s.c);
        SameNeed(s.c, Next(s.c, Schedule));
      }
    case Begin => if s.c.lane != [] { LaneTaken(s.c); }
    case Loop =>
      LossTaken(s.c);
      if s.c.loss == Checking([]) { LoopDone(s.c); } else { LoopNeed(s.c); }
    case _ =>
  }

  lemma SocketGone(c: Client)
    requires InRange(c) && c.failed
    ensures !c.socket && !c.loss.NotLost?
  {
  }

  lemma PlainFrames(c: Client, step: Step)
    requires c.failed && Elsewhere(step)
    ensures Next(c, step).receiver != Listening ==> c.receiver != Listening
  {
  }

  lemma LookedUp(c: Client, w: Work)
    ensures Next(c, Receive(w)).receiver != Listening ==> c.receiver != Listening || c.registered != {}
  {
  }

  lemma LoopDone(c: Client)
    requires c.loss == Checking([])
    ensures Next(c, LossStep) == c
  {
  }

  lemma SameNeed(c: Client, d: Client)
    requires d.futures == c.futures && d.terminalReceived == c.terminalReceived && d.loss == c.loss
    ensures Need(d) == Need(c)
  {
    NeedFalls(c, d);
    NeedFalls(d, c);
  }

  lemma StuckIsTooMany(s: Bounded)
    requires InRange(s.c)
    ensures Stuck(s) ==> TooMany(s)
  {
  }

  lemma {:induction false} ClearNeverStuck(s: Bounded, ms: seq<Move>)
    requires Sane(s) && Clear(s)
    ensures !Stuck(Moves(s, ms))
    decreases |ms|
  {
    hide Sane, Clear, Stuck, Moved;
    ClearStep(s, Release);
    if ms != [] {
      ClearStep(s, ms[0]);
      MoveKeepsSane(s, ms[0]);
      ClearNeverStuck(Moved(s, ms[0]), ms[1..]);
    }
  }

  // ---------- a run into the block ----------

  /** How far the loop has to go. */
  function LoopLeft(loss: Loss): nat {
    match loss
    case NotLost => 0
    case Checking(todo) => 3 * |todo|
    case Reading(todo) => 3 * |todo| - if todo == [] then 0 else 1
    case Scheduling(_, todo) => 3 * |todo| - if todo == [] then 0 else 2
  }

  /** The last frame takes the last slot. */
  lemma FrameTakesSlot(s: Bounded) returns (ms: seq<Move>)
    requires Sane(s) && s.lane.Losing? && s.c.loss.Scheduling? && s.free == 1 && FrameLeft(s) == 1
    ensures Stuck(Moves(s, ms)) && Moves(s, ms).c.futures == s.c.futures
  {
    hide InRange, Next;
    var t := s;
    ms := [];
    NoMove(s);
    if s.inHand {
      var id: RequestId :| id in s.c.registered;
      FrameArrives(s.c, id);
      ms := [LookUp(Accept(id))];
      OneMove(s, LookUp(Accept(id)));
      t := Moved(s, LookUp(Accept(id)));
    } else if s.c.receiver.GotTerminal? {
      TerminalNoted(s.c);
      ms := [Plain(NoteTerminal)];
      OneMove(s, Plain(NoteTerminal));
      t := Moved(s, Plain(NoteTerminal));
    }
    ScheduleTaken(t.c);
    OneMove(t, Scheduled);
    MovesInParts(s, ms, [Scheduled]);
    ms := ms + [Scheduled];
  }

  lemma FrameArrives(c: Client, id: RequestId)
    requires c.receiver == Listening && id in c.registered
    ensures Next(c, Receive(Accept(id))) == c.(receiver := Receiving(Accept(id)))
  {
  }

  lemma TerminalNoted(c: Client)
    requires c.receiver.GotTerminal?
    ensures var d := Next(c, NoteTerminal); d.receiver.Receiving? && d.loss == c.loss && d.futures == c.futures
  {
  }

  lemma NoMove(s: Bounded)
    ensures Moves(s, []) == s
  {
  }

  lemma OneMove(s: Bounded, m: Move)
    ensures Moves(s, [m]) == Moved(s, m)
  {
    hide Moved;
    var last := [m];
    assert last[1..] == [];
  }

  lemma {:induction false} MovesInParts(s: Bounded, first: seq<Move>, second: seq<Move>)
    ensures Moves(s, first + second) == Moves(Moves(s, first), second)
    decreases |first|
  {
    hide Moved;
    if first == [] {
      assert first + second == second;
    } else {
      assert (first + second)[1..] == first[1..] + second;
      MovesInParts(Moved(s, first[0]), first[1..], second);
    }
  }

  lemma LoopNearer(c: Client)
    requires InRange(c) && c.failed && c.loss != Checking([])
    ensures LoopLeft(Next(c, LossStep).loss) < LoopLeft(c.loss)
    ensures !Next(c, LossStep).loss.NotLost?
  {
  }

  /** With more failures to schedule than slots the lane's own loop runs into the block. */
  lemma {:induction false} RunsIntoBlock(s: Bounded) returns (ms: seq<Move>)
    requires Sane(s) && s.lane.Losing? && TooMany(s)
    ensures Stuck(Moves(s, ms)) && Moves(s, ms).c.futures == s.c.futures
    decreases LoopLeft(s.c.loss)
  {
    hide InRange, Next, Need, LoopLeft;
    NoMove(s);
    if s.c.loss.Scheduling? && s.free == 0 { return []; }
    NeedNothing(s.c);
    if s.c.loss.Scheduling? && Need(s.c) == 1 {
      ms := FrameTakesSlot(s);
    } else {
      var t := Moved(s, Loop);
      LoopNeed(s.c);
      LoopNearer(s.c);
      LossTaken(s.c);
      MoveKeepsSane(s, Loop);
      var rest := RunsIntoBlock(t);
      ms := [Loop] + rest;
      assert ms[1..] == rest;
    }
  }

  lemma NeedNothing(c: Client)
    ensures c.loss == Checking([]) ==> Need(c) == 0
  {
  }

  /** The lane thread's loop can block if and only if its failures, with the frame in hand, are more than the free slots. */
  lemma BlocksExactlyWhen(s: Bounded)
    requires Sane(s) && s.lane.Losing?
    ensures (exists ms :: Stuck(Moves(s, ms))) <==> TooMany(s)
  {
    hide InRange, Stuck, TooMany, Moves;
    if TooMany(s) {
      var ms := RunsIntoBlock(s);
    } else {
      forall ms ensures !Stuck(Moves(s, ms)) { ClearNeverStuck(s, ms); }
    }
  }

  /** In terms of the call: the futures to fail against the slots that queued work and this work leave. */
  lemma AckFailureBlocksExactlyWhen(s: Bounded, order: seq<RequestId>)
    requires Sane(s) && s.lane.Acknowledging? && !s.c.failed && Lists(order, s.c.registered)
    ensures var t := Moved(s, AckFails(order));
            var n := CountToFail(s.c, order);
            (exists ms :: Stuck(Moves(t, ms))) <==> n >= 1 && n + FrameLeft(s) > s.capacity - 1 - |s.c.lane|
  {
    hide InRange, Moves, Stuck, Lists;
    var t := Moved(s, AckFails(order));
    MoveKeepsSane(s, AckFails(order));
    LostHere(s.c, order);
    CountSame(s.c, t.c, order);
    BlocksExactlyWhen(t);
  }

  lemma LostHere(c: Client, order: seq<RequestId>)
    requires !c.failed && Lists(order, c.registered)
    ensures Next(c, Lose(order)) == c.(failed := true, socket := false, loss := Checking(order), snapshot := c.registered)
  {
  }

  // ---------- and never comes out of it ----------

  /** The application or the broker's answer decides the future. */
  predicate Decides(m: Move, id: RequestId) {
    m.Plain? && (m.step == CancelLocal(id) || m.step == BrokerCancelled(id))
  }

  ghost predicate Untouched(ms: seq<Move>, id: RequestId) {
    forall m :: m in ms ==> !Decides(m, id)
  }

  lemma StuckStep(s: Bounded, m: Move)
    requires Sane(s) && Stuck(s)
    ensures var t := Moved(s, m);
            && Stuck(t) && t.c.loss == s.c.loss && t.c.lane == s.c.lane
            && forall id: RequestId :: Fut(t.c, id).Done() && !Fut(s.c, id).Done() ==> Decides(m, id)
  {
    hide Next, InRange;
    StuckFailed(s);
    match m
    case Plain(step) => if Elsewhere(step) { PlainLane(s.c, step); PlainDecides(s.c, step); }
    case LookUp(w) => PlainLane(s.c, Receive(w)); PlainDecides(s.c, Receive(w));
    case _ =>
  }

  lemma StuckFailed(s: Bounded)
    requires InRange(s.c) && s.c.loss.Scheduling?
    ensures s.c.failed
  {
  }

  lemma PlainDecides(c: Client, step: Step)
    requires !step.Schedule? && !step.Lane? && !step.LossStep?
    ensures forall id: RequestId :: Fut(Next(c, step), id).Done() && !Fut(c, id).Done() ==> step == CancelLocal(id) || step == BrokerCancelled(id)
  {
  }

  /** No work of the lane runs any more, and a future is decided only by a cancellation of its own. */
  lemma {:induction false} StuckForGood(s: Bounded, ms: seq<Move>, id: RequestId)
    requires Sane(s) && Stuck(s)
    ensures Stuck(Moves(s, ms)) && Moves(s, ms).c.lane == s.c.lane
    ensures !Fut(s.c, id).Done() && Untouched(ms, id) ==> !Fut(Moves(s, ms).c, id).Done()
    decreases |ms|
  {
    hide Sane, Stuck, Moved;
    if ms != [] {
      StuckStep(s, ms[0]);
      MoveKeepsSane(s, ms[0]);
      StuckForGood(Moved(s, ms[0]), ms[1..], id);
      assert ms[0] in ms && forall m :: m in ms[1..] ==> m in ms;
    }
  }

  // ---------- a block in a client with any number of slots ----------

  /** `n` futures registered, and nothing else has happened. */
  ghost predicate Opened(c: Client, n: nat) {
    && c == START.(futures := c.futures, registered := c.registered) && |c.futures| == n
    && (forall id: RequestId :: id < n ==> c.futures[id] == NEW)
    && forall id: RequestId :: id in c.registered <==> id < n
  }

  lemma {:induction false} OpensMany(capacity: nat, n: nat) returns (ms: seq<Move>)
    ensures var s := Moves(Fresh(capacity), ms); s == Fresh(capacity).(c := s.c) && Opened(s.c, n)
    decreases n
  {
    ms := [];
    if n > 0 {
      ms := OpensMany(capacity, n - 1);
      var s := Moves(Fresh(capacity), ms);
      MovesInParts(Fresh(capacity), ms, [Plain(Register)]);
      OneMove(s, Plain(Register));
      ms := ms + [Plain(Register)];
    }
  }

  /** The first request is sent, answered and completed, and its acknowledgement is due. */
  const SERVE := [Plain(Enqueue(0)), Plain(Take), Plain(Mark), Plain(ReadSocket), Plain(Write), ReadFrame,
                  LookUp(Complete(0, Value)), Plain(NoteTerminal), Scheduled, Begin]

  ghost predicate Served(s: Bounded, capacity: nat, n: nat) {
    && s.capacity == capacity && s.lane == Acknowledging && !s.inHand
    && s.c.receiver == Listening && !s.c.failed && s.c.lane == [] && s.c.terminalReceived == {} && |s.c.futures| == n
    && (forall id: RequestId :: 0 < id < n ==> s.c.futures[id] == NEW)
    && forall id: RequestId :: id in s.c.registered <==> 0 < id < n
  }

  lemma SentSteps(c: Client, n: nat)
    requires Opened(c, n) && n >= 1
    ensures var queued := c.(outbound := [0]);
            var took := c.(sender := Took(0));
            var marked := c.(futures := c.futures[0 := Sent(NEW)], sender := Marked(0));
            && Next(c, Enqueue(0)) == queued && Next(queued, Take) == took && Next(took, Mark) == marked
            && Next(marked, ReadSocket) == marked.(sender := Holding(0, true))
            && Next(marked.(sender := Holding(0, true)), Write) == marked.(sender := Sender.Waiting, written := {0})
  {
  }

  lemma AnsweredSteps(c: Client)
    requires c.receiver == Listening && 0 in c.registered && c.lane == [] && c.terminalReceived == {}
    ensures var got := c.(receiver := GotTerminal(0, Value));
            var noted := c.(receiver := Receiving(Complete(0, Value)), terminalReceived := {0});
            && Next(c, Receive(Complete(0, Value))) == got && Next(got, NoteTerminal) == noted
            && Next(noted, Schedule) == c.(lane := [Complete(0, Value)], terminalReceived := {0})
  {
  }

  lemma CompletedStep(c: Client)
    requires c.lane == [Complete(0, Value)] && c.terminalReceived == {0} && |c.futures| >= 1 && !c.futures[0].Done()
    ensures var d := Next(c, Lane);
            && d == c.(lane := [], registered := c.registered - {0}, terminalReceived := {}, futures := d.futures)
            && |d.futures| == |c.futures| && forall id: RequestId :: 0 < id < |c.futures| ==> d.futures[id] == c.futures[id]
  {
  }

  lemma ServeReaches(s: Bounded, capacity: nat, n: nat)
    requires capacity >= 1 && n >= 1 && s == Fresh(capacity).(c := s.c) && Opened(s.c, n)
    ensures Served(Moves(s, SERVE), capacity, n)
  {
    hide Next, Moves;
    SentSteps(s.c, n);
    var marked := s.c.(futures := s.c.futures[0 := Sent(NEW)], sender := Marked(0));
    var written := marked.(sender := Sender.Waiting, written := {0});
    assert Moves(s, SERVE[..5]) == s.(c := written) by { FirstFive(s); }
    AnsweredSteps(written);
    var a := s.(c := written);
    FiveMoves(a, ReadFrame, LookUp(Complete(0, Value)), Plain(NoteTerminal), Scheduled, Begin);
    MovesInParts(s, SERVE[..5], SERVE[5..]);
    assert SERVE == SERVE[..5] + SERVE[5..] && SERVE[5..] == [ReadFrame, LookUp(Complete(0, Value)), Plain(NoteTerminal), Scheduled, Begin];
    CompletedStep(written.(lane := [Complete(0, Value)], terminalReceived := {0}));
  }

  lemma FirstFive(s: Bounded)
    ensures Moves(s, SERVE[..5]) == s.(c := Next(Next(Next(Next(Next(s.c, Enqueue(0)), Take), Mark), ReadSocket), Write))
  {
    hide Next, Moves;
    FiveMoves(s, Plain(Enqueue(0)), Plain(Take), Plain(Mark), Plain(ReadSocket), Plain(Write));
    assert SERVE[..5] == [Plain(Enqueue(0)), Plain(Take), Plain(Mark), Plain(ReadSocket), Plain(Write)];
  }

  lemma FiveMoves(s: Bounded, a: Move, b: Move, c: Move, d: Move, e: Move)
    ensures Moves(s, [a, b, c, d, e]) == Moved(Moved(Moved(Moved(Moved(s, a), b), c), d), e)
  {
    hide Moved, Moves;
    OneMove(s, a);
    OneMove(Moved(s, a), b);
    OneMove(Moved(Moved(s, a), b), c);
    OneMove(Moved(Moved(Moved(s, a), b), c), d);
    OneMove(Moved(Moved(Moved(Moved(s, a), b), c), d), e);
    MovesInParts(s, [a], [b]);
    MovesInParts(s, [a] + [b], [c]);
    MovesInParts(s, [a] + [b] + [c], [d]);
    MovesInParts(s, [a] + [b] + [c] + [d], [e]);
    assert [a, b, c, d, e] == [a] + [b] + [c] + [d] + [e];
  }

  /** The requests from `from` on. */
  function Rest(from: nat, n: nat): seq<RequestId>
    requires from <= n
    decreases n - from
  {
    if from == n then [] else [from] + Rest(from + 1, n)
  }

  lemma {:induction false} AllToFail(c: Client, from: nat, n: nat)
    requires from <= n <= |c.futures| && c.terminalReceived == {} && forall id: RequestId :: from <= id < n ==> c.futures[id] == NEW
    ensures CountToFail(c, Rest(from, n)) == n - from
    ensures NoDup(Rest(from, n)) && forall id: RequestId :: id in Rest(from, n) <==> from <= id < n
    decreases n - from
  {
    if from < n {
      AllToFail(c, from + 1, n);
      assert Rest(from, n) == [from] + Rest(from + 1, n) && from !in Rest(from + 1, n);
    }
  }

  lemma AckFailsThen(s: Bounded, capacity: nat)
    requires Sane(s) && Served(s, capacity, capacity + 1) && capacity >= 1
    ensures var t := Moved(s, AckFails(Rest(1, capacity + 1)));
            Sane(t) && t.lane.Losing? && TooMany(t) && t.c.futures == s.c.futures
  {
    hide InRange;
    var order := Rest(1, capacity + 1);
    AllToFail(s.c, 1, capacity + 1);
    MoveKeepsSane(s, AckFails(order));
    LostHere(s.c, order);
    CountSame(s.c, Next(s.c, Lose(order)), order);
  }

  /**
   Whatever the number of slots: with as many other requests outstanding, a completed request whose acknowledgement
   cannot be queued blocks the lane for good, and none of the others gets an outcome unless it is cancelled.
   */
  lemma LaneBlocks(capacity: nat) returns (ms: seq<Move>)
    requires capacity >= 1
    ensures var s := Moves(Fresh(capacity), ms);
            && Stuck(s)
            && forall later: seq<Move>, id: RequestId :: 0 < id <= capacity && Untouched(later, id) ==>
                 Stuck(Moves(s, later)) && !Fut(Moves(s, later).c, id).Done()
  {
    hide Moves, Moved, Opened, Stuck, Sane, SERVE, TooMany;
    var first := OpensMany(capacity, capacity + 1);
    var a := Moves(Fresh(capacity), first);
    ServeReaches(a, capacity, capacity + 1);
    MovesInParts(Fresh(capacity), first, SERVE);
    var b := Moves(a, SERVE);
    FreshSane(capacity);
    RunKeepsSane(Fresh(capacity), first + SERVE);
    var lost := AckFails(Rest(1, capacity + 1));
    AckFailsThen(b, capacity);
    var rest := RunsIntoBlock(Moved(b, lost));
    OneMove(b, lost);
    MovesInParts(Fresh(capacity), first + SERVE, [lost]);
    MovesInParts(Fresh(capacity), first + SERVE + [lost], rest);
    ms := first + SERVE + [lost] + rest;
    RunKeepsSane(Fresh(capacity), ms);
    var s := Moves(Fresh(capacity), ms);
    forall later: seq<Move>, id: RequestId | 0 < id <= capacity && Untouched(later, id)
      ensures Stuck(Moves(s, later)) && !Fut(Moves(s, later).c, id).Done()
    {
      assert Fut(s.c, id) == NEW;
      StuckForGood(s, later, id);
    }
  }
}
