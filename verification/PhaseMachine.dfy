/** The plan, act, observe, reflect phases of an agent run. */
module PhaseMachine {

  datatype AgentPhase = PLANNING | EXECUTING | REFLECTING | REPLANNING | COMPLETE | FAILED

  datatype Nullable<T> = Null | Value(value: T)

  datatype StepResult = StepResult(toolName: string, success: bool, summary: string, timestamp: int)

  datatype AgentState = AgentState(
    phase: AgentPhase,
    taskDescription: string,
    iteration: nat,
    plan: Nullable<string>,
    stepResults: seq<StepResult>,
    consequentialStepCount: nat,
    failedApproaches: seq<string>,
    reflectionCount: nat,
    lastReflection: Nullable<string>,
    consecutiveErrors: nat,
    learnedInsights: seq<string>,
    reflectionOverrideCount: nat,
    loopDetectionBlocked: bool)

  datatype Result = Ok(state: AgentState) | InvalidTransition(from: AgentPhase, to: AgentPhase)

  function ValidTransitions(p: AgentPhase): set<AgentPhase> {
    match p
    case PLANNING => {EXECUTING, REPLANNING, FAILED}
    case EXECUTING => {REFLECTING, COMPLETE, FAILED}
    case REFLECTING => {EXECUTING, REPLANNING, COMPLETE, FAILED}
    case REPLANNING => {EXECUTING, REPLANNING, FAILED}
    case COMPLETE => {}
    case FAILED => {}
  }

  function CreateInitialState(taskDescription: string): AgentState {
    AgentState(PLANNING, taskDescription, 0, Null, [], 0, [], 0, Null, 0, [], 0, false)
  }

  predicate CanTransition(from: AgentPhase, to: AgentPhase) {
    to in ValidTransitions(from)
  }

  function TransitionPhase(state: AgentState, to: AgentPhase): Result {
    if CanTransition(state.phase, to) then Ok(state.(phase := to)) else InvalidTransition(state.phase, to)
  }

  /** A sequence of requested phases, one `transitionPhase` each; the first refusal ends it. */
  function Follow(state: AgentState, trace: seq<AgentPhase>): Result {
    if trace == [] then Ok(state)
    else
      var r := Follow(state, trace[..|trace| - 1]);
      if r.Ok? then TransitionPhase(r.state, trace[|trace| - 1]) else r
  }

  predicate Terminal(p: AgentPhase) { p.COMPLETE? || p.FAILED? }

  /** The i-th request is an edge of the table, from wherever the ones before it led. */
  ghost predicate EdgeAt(start: AgentPhase, trace: seq<AgentPhase>, i: nat)
    requires i < |trace|
  {
    CanTransition(if i == 0 then start else trace[i - 1], trace[i])
  }

  ghost predicate AllEdges(start: AgentPhase, trace: seq<AgentPhase>) {
    forall i :: 0 <= i < |trace| ==> EdgeAt(start, trace, i)
  }

  lemma EdgesOfPrefix(start: AgentPhase, front: seq<AgentPhase>, last: AgentPhase)
    ensures AllEdges(start, front + [last]) <==>
            AllEdges(start, front) && CanTransition(if front == [] then start else front[|front| - 1], last)
  {
    var trace := front + [last];
    assert forall i :: 0 <= i < |front| ==> (EdgeAt(start, trace, i) <==> EdgeAt(start, front, i));
    assert EdgeAt(start, trace, |front|) <==> CanTransition(if front == [] then start else front[|front| - 1], last);
    if AllEdges(start, trace) {
      assert EdgeAt(start, trace, |front|);
      assert forall i :: 0 <= i < |front| ==> EdgeAt(start, trace, i);
    }
  }

  /** A trace goes through exactly when every step of it is an edge of the table; it then ends in its
      last phase with every other field as it was. */
  lemma {:induction false} FollowsIff(state: AgentState, trace: seq<AgentPhase>)
    ensures Follow(state, trace).Ok? <==> AllEdges(state.phase, trace)
    ensures Follow(state, trace).Ok? ==>
            Follow(state, trace).state == state.(phase := if trace == [] then state.phase else trace[|trace| - 1])
  {
    if trace != [] {
      var front, last := trace[..|trace| - 1], trace[|trace| - 1];
      assert trace == front + [last];
      FollowsIff(state, front);
      EdgesOfPrefix(state.phase, front, last);
    }
  }

  /** A run is never completed out of thin air: the phase before COMPLETE is EXECUTING, or REFLECTING
      straight after EXECUTING. So an EXECUTING comes after the last REPLANNING. */
  lemma CompleteFollowsExecution(taskDescription: string, trace: seq<AgentPhase>)
    requires Follow(CreateInitialState(taskDescription), trace).Ok?
    requires trace != [] && trace[|trace| - 1].COMPLETE?
    ensures var n := |trace|;
            || (n >= 2 && trace[n - 2].EXECUTING?)
            || (n >= 3 && trace[n - 2].REFLECTING? && trace[n - 3].EXECUTING?)
    ensures exists i :: 0 <= i < |trace| && trace[i].EXECUTING?
                        && forall j :: i < j < |trace| ==> !trace[j].REPLANNING?
  {
    var n := |trace|;
    FollowsIff(CreateInitialState(taskDescription), trace);
    assert EdgeAt(PLANNING, trace, n - 1);
    assert n >= 2;
    assert EdgeAt(PLANNING, trace, n - 2);
    var i := if trace[n - 2].EXECUTING? then n - 2 else n - 3;
    assert trace[i].EXECUTING?;
  }

  /** Nothing follows COMPLETE or FAILED. */
  lemma TerminalIsLast(state: AgentState, trace: seq<AgentPhase>, i: nat)
    requires Follow(state, trace).Ok? && i < |trace| && Terminal(trace[i])
    ensures i == |trace| - 1
  {
  }

  /** From every phase that is not terminal FAILED is one step away; from a terminal one nothing is. */
  lemma FailureAlwaysReachable(state: AgentState)
    ensures TransitionPhase(state, FAILED).Ok? <==> !Terminal(state.phase)
    ensures (exists to :: TransitionPhase(state, to).Ok?) <==> !Terminal(state.phase)
  {
  }

  /** WHERE EACH PHASE IS ENTERED FROM: planning never again; execution after planning, reflection or
      replanning; reflection after execution alone; replanning from any phase that is not executing or over;
      completion from execution or reflection; failure from any phase that is not over. */
  lemma EnteredFrom(state: AgentState)
    ensures TransitionPhase(state, PLANNING).InvalidTransition?
    ensures TransitionPhase(state, EXECUTING).Ok? <==>
            state.phase.PLANNING? || state.phase.REFLECTING? || state.phase.REPLANNING?
    ensures TransitionPhase(state, REFLECTING).Ok? <==> state.phase.EXECUTING?
    ensures TransitionPhase(state, REPLANNING).Ok? <==>
            !state.phase.EXECUTING? && !state.phase.COMPLETE? && !state.phase.FAILED?
    ensures TransitionPhase(state, COMPLETE).Ok? <==> state.phase.EXECUTING? || state.phase.REFLECTING?
    ensures TransitionPhase(state, FAILED).Ok? <==> !state.phase.COMPLETE? && !state.phase.FAILED?
  {
  }

  /** Only REPLANNING may be asked for while already in it. */
  lemma OnlyReplanningRepeats(state: AgentState)
    ensures TransitionPhase(state, state.phase).Ok? <==> state.phase.REPLANNING?
  {
  }
}
