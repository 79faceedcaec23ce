/**
 The client of deadpool/remote/client.py as a step system: submitters, the sender, the receiver, the completion lane
 and whichever thread finds the connection lost, interleaved at every access to what they share.
 */
module Client {
  import opened Options
  import opened Seqs
  import opened RemoteFutures

  type RequestId = nat

  /** The work queued on the completion lane, in order. */
  datatype Work =
    | Accept(id: RequestId) | Run(id: RequestId)
    | Complete(id: RequestId, o: Outcome) | Reject(id: RequestId) | Fail(id: RequestId, c: Certainty)

  datatype Sender = Waiting | Took(id: RequestId) | Marked(id: RequestId) | Holding(id: RequestId, open: bool) | Stopped

  datatype Receiver = Listening | GotTerminal(id: RequestId, o: Outcome) | Receiving(w: Work)

  /** The loop of `_connection_lost` over its snapshot: check a future, read its state, schedule its failure. */
  datatype Loss = NotLost | Checking(todo: seq<RequestId>) | Reading(todo: seq<RequestId>) | Scheduling(c: Certainty, todo: seq<RequestId>)

  /** `written` and `snapshot` are history; a request is named by its position in `futures`. */
  datatype Client = Client(
    futures: seq<Future>, registered: set<RequestId>, outbound: seq<RequestId>, socket: bool, failed: bool,
    sender: Sender, receiver: Receiver, loss: Loss, terminalReceived: set<RequestId>, lane: seq<Work>,
    written: set<RequestId>, snapshot: set<RequestId>)

  datatype Step =
    | Register | Enqueue(id: RequestId) | Withdraw(id: RequestId)      // _submit
    | CancelLocal(id: RequestId)                                       // RemoteFuture.cancel
    | BrokerCancelled(id: RequestId)                                   // _cancel, on the broker's answer
    | Take | Mark | ReadSocket | Write                                 // _sender_loop
    | Receive(w: Work)                                                 // _receive, looking the future up
    | NoteTerminal | Schedule                                          //   _terminal_received.add, _schedule_completion
    | Lane                                                             // the completion lane runs its next work
    | Lose(order: seq<RequestId>)                                      // _connection_lost, its lock-held head
    | LossStep                                                         //   and its loop
    | CloseSocket                                                      // _finish_shutdown

  const START := Client([], {}, [], true, false, Waiting, Listening, NotLost, {}, [], {}, {})

  function Fut(s: Client, id: RequestId): Future {
    if id < |s.futures| then s.futures[id] else NEW
  }

  function With(s: Client, id: RequestId, f: Future): Client {
    if id < |s.futures| then s.(futures := s.futures[id := f]) else s
  }

  /** `_set_result` and its like: the outcome, then the callbacks. */
  function Decide(s: Client, id: RequestId, o: Outcome): Client {
    if Fut(s, id).Done() then s else With(s, id, Dispatched(Resolved(Fut(s, id), o)))
  }

  function Forget(s: Client, id: RequestId): Client {
    s.(registered := s.registered - {id})
  }

  /** What the loss concludes from the state it reads. */
  function CertaintyOf(state: SubmissionState): Certainty {
    match state
    case LocalPending => NotAccepted
    case SentUnacknowledged => OutcomeUnknown
    case _ => AcceptedMayHaveRun
  }

  function WorkDone(s: Client, w: Work): Client {
    match w
    case Accept(id) => With(s, id, Accepted(Fut(s, id)))
    case Run(id) => With(s, id, NowRunning(Fut(s, id)))
    case Complete(id, o) => Forget(Decide(s, id, o), id).(terminalReceived := s.terminalReceived - {id})
    case Reject(id) => Forget(Decide(s, id, Error(Told)), id)
    case Fail(id, c) => Forget(Decide(s, id, Error(c)), id)
  }

  function LossStepped(s: Client): Client {
    match s.loss
    case Checking(todo) =>
      if todo == [] then s
      else if Fut(s, todo[0]).Done() || todo[0] in s.terminalReceived then s.(loss := Checking(todo[1..]))
      else s.(loss := Reading(todo))
    case Reading(todo) => if todo == [] then s else s.(loss := Scheduling(CertaintyOf(Fut(s, todo[0]).state), todo))
    case Scheduling(c, todo) =>
      if todo == [] then s else s.(lane := s.lane + [Fail(todo[0], c)], loss := Checking(todo[1..]))
    case NotLost => s
  }

  /** A frame never carries the client's own conclusions. */
  predicate FromServer(w: Work) {
    !w.Fail? && (w.Complete? && w.o.Error? ==> w.o.certainty == Told)
  }

  /** `order` lists the registered requests as the snapshot does. */
  ghost predicate Lists(order: seq<RequestId>, ids: set<RequestId>) {
    NoDup(order) && forall id: RequestId :: id in order <==> id in ids
  }

  ghost function Next(s: Client, step: Step): Client {
    match step
    case Register =>
      if s.failed || !s.socket then s
      else s.(futures := s.futures + [NEW], registered := s.registered + {|s.futures|})
    case Enqueue(id) => if id < |s.futures| then s.(outbound := s.outbound + [id]) else s
    case Withdraw(id) => Forget(s, id)
    case CancelLocal(id) => With(s, id, CancelledLocally(Fut(s, id)))
    case BrokerCancelled(id) => Decide(s, id, CancelledOutcome)
    case Take =>
      if s.sender == Waiting && s.outbound != [] then s.(sender := Took(s.outbound[0]), outbound := s.outbound[1..]) else s
    case Mark =>
      if !s.sender.Took? then s
      else if Fut(s, s.sender.id).Done() then Forget(s, s.sender.id).(sender := Waiting)
      else With(s, s.sender.id, Sent(Fut(s, s.sender.id))).(sender := Marked(s.sender.id))
    case ReadSocket => if s.sender.Marked? then s.(sender := Holding(s.sender.id, s.socket)) else s
    case Write =>
      if !s.sender.Holding? then s
      else if s.sender.open then s.(written := s.written + {s.sender.id}, sender := Waiting)
      else s.(sender := Stopped)
    case Receive(w) =>
      if s.receiver != Listening || w.id !in s.registered || !FromServer(w) then s
      else if w.Complete? then s.(receiver := GotTerminal(w.id, w.o)) else s.(receiver := Receiving(w))
    case NoteTerminal =>
      if s.receiver.GotTerminal?
      then s.(terminalReceived := s.terminalReceived + {s.receiver.id}, receiver := Receiving(Complete(s.receiver.id, s.receiver.o)))
      else s
    case Schedule => if s.receiver.Receiving? then s.(lane := s.lane + [s.receiver.w], receiver := Listening) else s
    case Lane => if s.lane == [] then s else WorkDone(s.(lane := s.lane[1..]), s.lane[0])
    case Lose(order) =>
      if s.failed || !Lists(order, s.registered) then s
      else s.(failed := true, socket := false, loss := Checking(order), snapshot := s.registered)
    case LossStep => LossStepped(s)
    case CloseSocket => s.(socket := false)
  }

  ghost function After(s: Client, steps: seq<Step>): Client
    decreases |steps|
  {
    if steps == [] then s else After(Next(s, steps[0]), steps[1..])
  }

  // ---------- no byte without the mark ----------

  /** The sender has marked the request, and it was still undecided then. */
  ghost predicate MarkedSent(s: Client, id: RequestId) {
    id in s.written || ((s.sender.Marked? || s.sender.Holding?) && s.sender.id == id)
  }

  /** The bytes are written, or the sender is about to write them to a socket it read before the loss. */
  ghost predicate OnTheWire(s: Client, id: RequestId) {
    id in s.written || (s.sender.Holding? && s.sender.open && s.sender.id == id)
  }

  /** Still with the application alone. */
  ghost predicate NeverSent(s: Client, id: RequestId) {
    Fut(s, id).state == LocalPending
  }

  ghost predicate Verdict(s: Client, id: RequestId, c: Certainty) {
    Fut(s, id).outcome == Some(Error(c)) || Fail(id, c) in s.lane || (s.loss.Scheduling? && s.loss.todo != [] && s.loss.todo[0] == id && s.loss.c == c)
  }

  ghost predicate InRange(s: Client) {
    && (forall id :: id in s.registered ==> id < |s.futures|)
    && (forall id :: id in s.outbound ==> id < |s.futures|)
    && (!s.sender.Waiting? && !s.sender.Stopped? ==> s.sender.id < |s.futures|)
    && (s.receiver.GotTerminal? ==> FromServer(Complete(s.receiver.id, s.receiver.o)))
    && (s.receiver.Receiving? ==> FromServer(s.receiver.w))
    && (forall w :: w in s.lane ==> w.Fail? || FromServer(w))
    && (s.failed <==> !s.loss.NotLost?) && (s.failed ==> !s.socket)
    && (s.loss.Reading? || s.loss.Scheduling? ==> s.loss.todo != [])
  }

  /** No bytes without the mark, and no future is called unaccepted while its bytes may be under way. */
  ghost predicate Honest(s: Client) {
    && (forall id: RequestId :: MarkedSent(s, id) ==> id < |s.futures| && !NeverSent(s, id))
    && (forall id: RequestId :: Verdict(s, id, NotAccepted) ==> !OnTheWire(s, id) && !s.socket)
  }

  ghost predicate Todo(s: Client, id: RequestId) {
    !s.loss.NotLost? && id in s.loss.todo
  }

  /** The outcome is there, or is on its way along the completion lane. */
  ghost predicate Coming(s: Client, id: RequestId) {
    || Fut(s, id).Done()
    || (exists w :: w in s.lane && w.id == id && (w.Fail? || w.Complete?))
    || (s.receiver.Receiving? && s.receiver.w.Complete? && s.receiver.w.id == id)
  }

  /** Every future registered at the loss is still to be looked at or has its outcome coming. */
  ghost predicate Covered(s: Client) {
    && (forall id: RequestId :: id in s.terminalReceived ==> Coming(s, id))
    && (forall id: RequestId :: id in s.snapshot ==> Todo(s, id) || Coming(s, id))
    && (forall id: RequestId :: id in s.snapshot || id in s.terminalReceived || Todo(s, id) ==> id < |s.futures|)
    && (forall w :: w in s.lane ==> w.id < |s.futures|)
    && (s.receiver.GotTerminal? ==> s.receiver.id < |s.futures|)
    && (s.receiver.Receiving? ==> s.receiver.w.id < |s.futures|)
  }

  ghost predicate Invariant(s: Client) {
    InRange(s) && Honest(s) && Covered(s)
  }
}
