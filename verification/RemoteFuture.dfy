/** The future of deadpool/remote/_future.py: its state, its one outcome and its callbacks. */
module RemoteFutures {
  import opened Options

  datatype SubmissionState =
    | LocalPending | SentUnacknowledged | AcceptedQueued | Running | Succeeded | TaskFailed | Cancelled | Failed

  /** What the application may conclude from an error. */
  datatype Certainty = NotAccepted | OutcomeUnknown | AcceptedMayHaveRun | Told

  datatype Outcome = Value | TaskError | Error(certainty: Certainty) | CancelledOutcome

  type Callback = int

  /** `invoked` is history: the callbacks handed over for invocation, in order. */
  datatype Future = Future(state: SubmissionState, outcome: Option<Outcome>, callbacks: seq<Callback>, invoked: seq<Callback>)
  {
    predicate Done() {
      outcome.Some?
    }
  }

  const NEW := Future(LocalPending, None, [], [])

  function StateOf(o: Outcome): SubmissionState {
    match o
    case Value => Succeeded
    case TaskError => TaskFailed
    case Error(_) => Failed
    case CancelledOutcome => Cancelled
  }

  // ---------- one lock-held region each ----------

  function Resolved(f: Future, o: Outcome): Future {
    if f.Done() then f else f.(state := StateOf(o), outcome := Some(o))
  }

  function Sent(f: Future): Future {
    if f.Done() then f else f.(state := SentUnacknowledged)
  }

  function Accepted(f: Future): Future {
    if f.Done() then f else f.(state := AcceptedQueued)
  }

  function NowRunning(f: Future): Future {
    if f.Done() then f else f.(state := Running)
  }

  /** `_dispatch_callbacks` */
  function Dispatched(f: Future): Future {
    f.(callbacks := [], invoked := f.invoked + f.callbacks)
  }

  function WithCallback(f: Future, c: Callback): Future {
    if f.Done() then f.(invoked := f.invoked + [c]) else f.(callbacks := f.callbacks + [c])
  }

  /** The local half of `cancel`: a request that never left is cancelled here. */
  function CancelledLocally(f: Future): Future {
    if !f.Done() && f.state == LocalPending then Dispatched(Resolved(f, CancelledOutcome)) else f
  }

  /** Nothing is handed over before the outcome, and the state tells which outcome it was. */
  predicate Sound(f: Future) {
    && (!f.Done() ==> f.invoked == [])
    && (f.outcome == Some(Value) ==> f.state == Succeeded)
    && (f.outcome == Some(TaskError) ==> f.state == TaskFailed)
    && (f.outcome == Some(CancelledOutcome) ==> f.state == Cancelled)
    && (f.outcome.Some? && f.outcome.value.Error? ==> f.state == Failed)
    && (!f.Done() ==> f.state in {LocalPending, SentUnacknowledged, AcceptedQueued, SubmissionState.Running})
  }

  class RemoteFuture {
    var submissionState: SubmissionState
    var outcome: Option<Outcome>
    var remoteCallbacks: seq<Callback>
    ghost var invoked: seq<Callback>

    constructor ()
      ensures View() == NEW
    {
      submissionState, outcome, remoteCallbacks, invoked := LocalPending, None, [], [];
    }

    ghost function View(): Future
      reads this
    {
      Future(submissionState, outcome, remoteCallbacks, invoked)
    }

    /** `cancel`: true when decided here, none when the broker has to be asked. */
    method Cancel() returns (decided: Option<bool>)
      modifies this
      ensures View() == CancelledLocally(old(View()))
      ensures decided == Some(true) <==> !old(View()).Done() && old(submissionState) == LocalPending
      ensures decided == Some(false) <==> old(View()).Done()
    {
      if outcome.Some? { return Some(false); }
      if submissionState == LocalPending {
        submissionState, outcome := SubmissionState.Cancelled, Some(CancelledOutcome);
        DispatchCallbacks();
        return Some(true);
      }
      return None;
    }

    method SetSent() returns (send: bool)
      modifies this
      ensures View() == Sent(old(View())) && (send <==> old(outcome) == None)
      ensures send ==> submissionState == SentUnacknowledged
      ensures !send ==> submissionState == old(submissionState)
      ensures outcome == old(outcome) && remoteCallbacks == old(remoteCallbacks)
    {
      if outcome.Some? { return false; }
      submissionState := SentUnacknowledged;
      return true;
    }

    method SetAccepted()
      modifies this
      ensures View() == Accepted(old(View()))
    {
      if outcome.None? { submissionState := AcceptedQueued; }
    }

    method SetRunning()
      modifies this
      ensures View() == NowRunning(old(View()))
    {
      if outcome.None? { submissionState := SubmissionState.Running; }
    }

    /** `_set_result`, `_set_exception` and `_set_cancelled`: the first outcome stands. */
    method SetOutcome(o: Outcome)
      modifies this
      ensures View() == if old(View()).Done() then old(View()) else Dispatched(Resolved(old(View()), o))
      ensures old(outcome) == None ==>
                outcome == Some(o) && remoteCallbacks == [] && invoked == old(invoked) + old(remoteCallbacks)
    {
      if outcome.Some? { return; }
      submissionState, outcome := StateOf(o), Some(o);
      DispatchCallbacks();
    }

    method AddDoneCallback(c: Callback)
      modifies this
      ensures View() == WithCallback(old(View()), c)
      ensures if old(outcome) == None then remoteCallbacks == old(remoteCallbacks) + [c] && invoked == old(invoked)
              else invoked == old(invoked) + [c] && remoteCallbacks == old(remoteCallbacks)
    {
      if outcome.None? {
        remoteCallbacks := remoteCallbacks + [c];
        return;
      }
      invoked := invoked + [c];
    }

    method DispatchCallbacks()
      modifies this`remoteCallbacks, this`invoked
      ensures View() == Dispatched(old(View()))
    {
      invoked := invoked + remoteCallbacks;
      remoteCallbacks := [];
    }
  }

  // ---------- over any interleaving of the regions ----------

  datatype Region =
    | MarkSent | MarkAccepted | MarkRunning | Resolve(o: Outcome) | Dispatch | Add(c: Callback) | CancelHere

  function Apply(f: Future, region: Region): Future {
    match region
    case MarkSent => Sent(f)
    case MarkAccepted => Accepted(f)
    case MarkRunning => NowRunning(f)
    case Resolve(o) => Resolved(f, o)
    case Dispatch => if f.Done() then Dispatched(f) else f
    case Add(c) => WithCallback(f, c)
    case CancelHere => CancelledLocally(f)
  }

  function ApplyAll(f: Future, regions: seq<Region>): Future
    decreases |regions|
  {
    if regions == [] then f else ApplyAll(Apply(f, regions[0]), regions[1..])
  }

  function Added(regions: seq<Region>): seq<Callback> {
    if regions == [] then []
    else AddedBy(regions[0]) + Added(regions[1..])
  }

  /** The callbacks handed over and those still waiting. */
  ghost function Known(f: Future): multiset<Callback> {
    multiset(f.invoked) + multiset(f.callbacks)
  }

  /** The outcome stands, and no callback is lost or doubled. */
  ghost predicate Kept(f: Future, g: Future, added: seq<Callback>) {
    && Sound(g) && (f.Done() ==> g.outcome == f.outcome && g.state == f.state)
    && Known(g) == Known(f) + multiset(added)
  }

  function AddedBy(region: Region): seq<Callback> {
    if region.Add? then [region.c] else []
  }

  lemma DispatchKnown(f: Future)
    ensures Known(Dispatched(f)) == Known(f)
  {
  }

  lemma AddKnown(f: Future, c: Callback)
    ensures Known(WithCallback(f, c)) == Known(f) + multiset([c])
  {
  }

  lemma OneKept(f: Future, region: Region)
    requires Sound(f)
    ensures Kept(f, Apply(f, region), AddedBy(region))
  {
    hide Known;
    DispatchKnown(f);
    DispatchKnown(Resolved(f, CancelledOutcome));
    if region.Add? { AddKnown(f, region.c); }
    forall g: Future | g.invoked == f.invoked && g.callbacks == f.callbacks ensures Known(g) == Known(f) { SameKnown(f, g); }
    assert !region.Add? ==> multiset(AddedBy(region)) == multiset{};
  }

  lemma SameKnown(f: Future, g: Future)
    requires g.invoked == f.invoked && g.callbacks == f.callbacks
    ensures Known(g) == Known(f)
  {
  }

  lemma KeptTransitive(f: Future, g: Future, h: Future, a: seq<Callback>, b: seq<Callback>)
    requires Kept(f, g, a) && Kept(g, h, b)
    ensures Kept(f, h, a + b)
  {
    hide Known, Sound;
    assert multiset(a + b) == multiset(a) + multiset(b);
  }

  lemma {:induction false} AllKept(f: Future, regions: seq<Region>)
    requires Sound(f)
    ensures Kept(f, ApplyAll(f, regions), Added(regions))
    decreases |regions|
  {
    if regions != [] {
      hide Apply;
      OneKept(f, regions[0]);
      AllKept(Apply(f, regions[0]), regions[1..]);
      KeptTransitive(f, Apply(f, regions[0]), ApplyAll(f, regions), AddedBy(regions[0]), Added(regions[1..]));
    }
  }

  /**
   However registrations, cancellations, results and dispatches interleave: the first outcome stands, and once the
   outcome's callbacks are dispatched every callback ever added has been handed over exactly once.
   */
  lemma CallbacksExactlyOnce(regions: seq<Region>)
    ensures var f := ApplyAll(NEW, regions);
            && Sound(f)
            && (f.Done() ==> multiset(Dispatched(f).invoked) == multiset(Added(regions)))
            && (!f.Done() ==> f.invoked == [])
  {
    AllKept(NEW, regions);
    var f := ApplyAll(NEW, regions);
    DispatchKnown(f);
    assert Known(NEW) == multiset{};
    assert Known(Dispatched(f)) == multiset(Dispatched(f).invoked);
  }

  lemma NothingWaitsOnce(f: Future, region: Region)
    requires Sound(f) && f.Done() && f.callbacks == []
    ensures var g := Apply(f, region); Sound(g) && g.Done() && g.callbacks == [] && g.invoked == f.invoked + AddedBy(region)
  {
    assert f.invoked + [] == f.invoked;
  }

  /** After a dispatch that follows the outcome nothing waits any more: later callbacks run at once. */
  lemma {:induction false} NothingWaits(f: Future, regions: seq<Region>)
    requires Sound(f) && f.Done() && f.callbacks == []
    ensures ApplyAll(f, regions).callbacks == [] && ApplyAll(f, regions).invoked == f.invoked + Added(regions)
    decreases |regions|
  {
    if regions == [] {
      assert f.invoked + [] == f.invoked;
    } else {
      var next := Apply(f, regions[0]);
      NothingWaitsOnce(f, regions[0]);
      hide Apply, Sound;
      NothingWaits(next, regions[1..]);
      assert f.invoked + (AddedBy(regions[0]) + Added(regions[1..])) == f.invoked + AddedBy(regions[0]) + Added(regions[1..]);
    }
  }

  // ---------- which outcome, and which state ----------

  /** The first result or error, or a cancellation before the request was ever marked. */
  function Decision(regions: seq<Region>, marked: bool): Option<Outcome> {
    if regions == [] then None
    else
      match regions[0]
      case Resolve(o) => Some(o)
      case CancelHere => if marked then Decision(regions[1..], true) else Some(CancelledOutcome)
      case MarkSent => Decision(regions[1..], true)
      case MarkAccepted => Decision(regions[1..], true)
      case MarkRunning => Decision(regions[1..], true)
      case _ => Decision(regions[1..], marked)
  }

  function LastMark(regions: seq<Region>, state: SubmissionState): SubmissionState {
    if regions == [] then state
    else
      LastMark(regions[1..],
               match regions[0]
               case MarkSent => SentUnacknowledged
               case MarkAccepted => AcceptedQueued
               case MarkRunning => SubmissionState.Running
               case _ => state)
  }

  lemma {:induction false} OutcomeStays(f: Future, regions: seq<Region>)
    requires f.Done()
    ensures ApplyAll(f, regions).outcome == f.outcome && ApplyAll(f, regions).state == f.state
    decreases |regions|
  {
    if regions != [] { OutcomeStays(Apply(f, regions[0]), regions[1..]); }
  }

  lemma {:induction false} DecisionStands(f: Future, regions: seq<Region>)
    requires Sound(f) && !f.Done()
    ensures var g := ApplyAll(f, regions);
            && g.outcome == Decision(regions, f.state != LocalPending)
            && (g.outcome == None ==> g.state == LastMark(regions, f.state))
    decreases |regions|
  {
    if regions != [] {
      var g := Apply(f, regions[0]);
      if g.Done() { OutcomeStays(g, regions[1..]); } else { DecisionStands(g, regions[1..]); }
    }
  }

  /** Whatever interleaves, a future's outcome is the first that reached it, and until then its state is the last mark. */
  lemma FirstDecides(regions: seq<Region>)
    ensures var f := ApplyAll(NEW, regions);
            && f.outcome == Decision(regions, false)
            && f.state == match f.outcome
                          case None => LastMark(regions, LocalPending)
                          case Some(Value) => Succeeded
                          case Some(TaskError) => TaskFailed
                          case Some(Error(_)) => Failed
                          case Some(CancelledOutcome) => Cancelled
  {
    hide ApplyAll, Decision, LastMark;
    DecisionStands(NEW, regions);
    AllKept(NEW, regions);
  }
}
