/** The broker over whole runs. */
module BrokerTheorems {
  import opened BrokerState
  import opened BrokerInvariant
  import opened BrokerDispatchSteps
  import opened BrokerDepartureSteps
  import opened BrokerCounts
  import opened BrokerSteps
  import opened BrokerStorySteps
  import opened BrokerRestSteps
  import opened BrokerForward

  // ---------- every reachable state ----------

  lemma InvariantParts(s: Broker)
    requires Invariant(s)
    ensures Dispatch(s) && Paired(s) && AttemptsOk(s) && ClaimsOk(s) && Kept(s) && Retained(s) && ListsOk(s) && PayloadsFit(s)
    ensures Sound(s) && Departed(s) && Story(s) && Sequenced(s) && Rest(s)
  {
    ListsInRange(s);
  }

  lemma DepartedStep(s: Broker, action: Action)
    requires Sound(s) && Paired(s) && Retained(s) && ListsOk(s) && Departed(s) && Forward(s, Next(s, action))
    ensures Departed(Next(s, action))
  {
    hide Sound, Paired, Retained, ListsOk, SessionDeparted, Next;
    var t := Next(s, action);
    forall sid | 0 <= sid < |t.sessions| ensures SessionDeparted(t, sid) {
      if sid >= |s.sessions| { NoSessionYet(s, sid); }
      StepDeparted(s, action, sid);
    }
    forall sid | 0 <= sid < |t.sessions| && t.sessions[sid].disconnected ensures t.sessions[sid].closed {
      assert sid < |s.sessions| ==> SessionForward(s.sessions[sid], t.sessions[sid]);
    }
  }

  lemma NoSessionYet(s: Broker, sid: SessionId)
    requires sid >= |s.sessions|
    ensures SessionDeparted(s, sid)
  {
  }

  /** One step of the system keeps every invariant. */
  lemma StepKeepsInvariant(s: Broker, action: Action)
    requires Invariant(s) && Orderly(s, action)
    ensures Invariant(Next(s, action)) && Forward(s, Next(s, action))
  {
    hide Invariant, Dispatch, Paired, AttemptsOk, ClaimsOk, Kept, Retained, ListsOk, PayloadsFit, Sound, Departed, Story, Sequenced, Rest,
         Next, Forward;
    InvariantParts(s);
    var t := Next(s, action);
    StepDispatch(s, action);
    StepKept(s, action);
    StepFits(s, action);
    StepStory(s, action);
    StepRest(s, action);
    StepForward(s, action);
    DepartedStep(s, action);
    InvariantWhole(t);
  }

  lemma InvariantWhole(s: Broker)
    requires Dispatch(s) && Kept(s) && PayloadsFit(s) && Departed(s) && Story(s) && Rest(s)
    ensures Invariant(s)
  {
  }

  lemma InitInvariant(config: Config)
    ensures Invariant(Init(config))
  {
  }

  /** Every SUBMIT of the run is handled while its session is registered. */
  ghost predicate OrderlyRun(s: Broker, actions: seq<Action>)
    decreases |actions|
  {
    actions == [] || (Orderly(s, actions[0]) && OrderlyRun(Next(s, actions[0]), actions[1..]))
  }

  /** The invariant holds after every run, and nothing final is ever taken back. */
  lemma {:induction false} RunKeepsInvariant(s: Broker, actions: seq<Action>)
    requires Invariant(s) && OrderlyRun(s, actions)
    ensures Invariant(Run(s, actions)) && Forward(s, Run(s, actions))
    decreases |actions|
  {
    hide Invariant, Forward, Next, Orderly;
    if actions == [] {
      StageForward(s);
    } else {
      StepKeepsInvariant(s, actions[0]);
      RunKeepsInvariant(Next(s, actions[0]), actions[1..]);
      ForwardTransitive(s, Next(s, actions[0]), Run(s, actions));
    }
  }

  /** Every state a server can get to from its start. */
  lemma ReachableInvariant(config: Config, actions: seq<Action>)
    requires OrderlyRun(Init(config), actions)
    ensures Invariant(Run(Init(config), actions))
  {
    InitInvariant(config);
    RunKeepsInvariant(Init(config), actions);
  }

  lemma {:induction false} RunInParts(s: Broker, first: seq<Action>, second: seq<Action>)
    requires OrderlyRun(s, first) && OrderlyRun(Run(s, first), second)
    ensures OrderlyRun(s, first + second) && Run(s, first + second) == Run(Run(s, first), second)
    decreases |first|
  {
    hide Next, Orderly;
    if first == [] {
      assert first + second == second;
    } else {
      assert (first + second)[1..] == first[1..] + second;
      RunInParts(Next(s, first[0]), first[1..], second);
    }
  }

  lemma OneMore(s: Broker, run: seq<Action>, action: Action)
    requires OrderlyRun(s, run) && Orderly(Run(s, run), action)
    ensures OrderlyRun(s, run + [action]) && Run(s, run + [action]) == Next(Run(s, run), action)
  {
    hide Next, Orderly;
    var t, last := Run(s, run), [action];
    assert last[1..] == [];
    assert OrderlyRun(t, last) && Run(t, last) == Next(t, action);
    RunInParts(s, run, last);
  }
}
