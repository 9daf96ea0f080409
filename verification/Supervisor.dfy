/**
The supervisor: one budgeted Crew Iteration, one stage per step, every outcome
either checkpointed or routed.
*/
module Supervision {
  import opened Outcomes
  import opened EffectLedger
  import opened RunStates
  import opened Stores
  import opened Router

  datatype Expectation = Expectation(contract: string, inputs: map<string, string>)

  datatype ReviewVerdict = Approved(manifest: string) | Rejected(manifest: string, failure: FailureRecord)

  /** What the executor answers for a stage, whatever it is. */
  datatype Execution =
    | Raised
    | Malformed
    | InvalidUnit
    | Failed(failure: FailureRecord)
    | Executed(output: string, review: Option<ReviewVerdict>)

  /** Everything outside the run that one step depends on. */
  datatype Surroundings = Surroundings(
    execution: Execution,
    issuedId: Option<nat>,     // the checkpoint identifier, or None when issuing raises
    replayable: bool)          // a pending request can be reconstructed

  type Expectations = e: map<Stage, Expectation> | forall stage :: stage in e
    ghost witness AnyExpectations()

  ghost function AnyExpectations(): map<Stage, Expectation>
    ensures forall stage: Stage :: stage in AnyExpectations()
  {
    forall stage: Stage ensures stage in DEPENDENCIES { AllStagesListed(stage); }
    map stage | stage in DEPENDENCIES :: Expectation("", map[])
  }

  function SupervisorFailure(finding: FindingKind): FailureRecord {
    FailureRecord(Orchestration, SupervisorSource, finding, None, [], [])
  }

  function BudgetFailure(): FailureRecord {
    FailureRecord(BudgetExhausted, SupervisorSource, RequirementsMismatch, None, [], [])
  }

  function OrchestrationFailure(stage: Stage): FailureRecord {
    FailureRecord(Orchestration, ArtifactSource, InvalidUnitOutput, Some(stage), [], [])
  }

  function InvalidOutputFailure(stage: Stage): FailureRecord {
    FailureRecord(InvalidOutput, ArtifactSource, InvalidUnitOutput, Some(stage), [], [])
  }

  /** The stage holds a checkpoint the authority issued for exactly what is now expected. */
  predicate IsReusable(s: RunState, stage: Stage, e: map<Stage, Expectation>, registry: set<Checkpoint>) {
    && stage in e && stage in s.checkpoints
    && (exists output <- s.outputs :: output.stage == stage && output.content == s.checkpoints[stage].output)
    && s.checkpoints[stage] in registry
    && s.checkpoints[stage].stage == stage
    && s.checkpoints[stage].contract == e[stage].contract
    && s.checkpoints[stage].inputs == e[stage].inputs
  }

  /** The first stage, in stage order, that has no reusable checkpoint. */
  ghost predicate IsNextStage(s: RunState, e: map<Stage, Expectation>, registry: set<Checkpoint>, next: Option<Stage>) {
    match next
    case None => forall stage :: IsReusable(s, stage, e, registry)
    case Some(stage) => exists i: nat ::
      && i < |STAGES| && STAGES[i] == stage
      && !IsReusable(s, stage, e, registry)
      && (forall j :: 0 <= j < i ==> IsReusable(s, STAGES[j], e, registry))
  }

  lemma NextStageIsUnique(s: RunState, e: map<Stage, Expectation>, registry: set<Checkpoint>, a: Option<Stage>, b: Option<Stage>)
    requires IsNextStage(s, e, registry, a) && IsNextStage(s, e, registry, b)
    ensures a == b
  {
  }

  method NextStage(s: RunState, e: map<Stage, Expectation>, registry: set<Checkpoint>) returns (next: Option<Stage>)
    ensures if s.disposition == Active then IsNextStage(s, e, registry, next) else next == None
  {
    if s.disposition != Active {
      return None;
    }
    var i := 0;
    while i < |STAGES|
      invariant 0 <= i <= |STAGES|
      invariant forall j :: 0 <= j < i ==> IsReusable(s, STAGES[j], e, registry)
    {
      if !IsReusable(s, STAGES[i], e, registry) {
        return Some(STAGES[i]);
      }
      i := i + 1;
    }
    forall stage: Stage
      ensures IsReusable(s, stage, e, registry)
    {
      AllStagesListed(stage);
    }
    next := None;
  }

  // ----- what one step stores -----

  function Checkpointed(s: RunState, c: Checkpoint): RunState {
    s.(checkpoints := s.checkpoints[c.stage := c],
       outputs := s.outputs + [StageOutput(c.stage, c.output)],
       currentStage := c.stage)
  }

  function CheckpointedReviewer(s: RunState, c: Checkpoint): RunState {
    Checkpointed(s, c).(artifacts := s.artifacts.(reviewResult := Some(c.output)), iterationOpen := false, eligible := true)
  }

  function IssuedCheckpoint(stage: Stage, e: Expectations, output: string, id: nat): Checkpoint {
    Checkpoint(id, stage, e[stage].contract, e[stage].inputs, output)
  }

  /** The executor's answer goes all the way to an issued checkpoint. */
  predicate Issues(s: RunState, stage: Stage, x: Surroundings) {
    && s.currentStage == stage && s.iterationOpen
    && x.execution.Executed? && x.issuedId.Some?
    && (stage == Reviewer ==>
          && x.execution.review.Some?
          && x.execution.review.value.Approved?
          && Some(x.execution.review.value.manifest) == s.artifacts.reviewManifest)
  }

  /** The authority records every checkpoint it issues, stored or not. */
  ghost function ExecuteRegistry(s: RunState, stage: Stage, e: Expectations, x: Surroundings, registry: set<Checkpoint>): set<Checkpoint> {
    if Issues(s, stage, x) then registry + {IssuedCheckpoint(stage, e, x.execution.output, x.issuedId.value)} else registry
  }

  ghost function StepRegistry(
    s: RunState, stage: Option<Stage>, e: Expectations, x: Surroundings, registry: set<Checkpoint>): set<Checkpoint>
  {
    if s.disposition != Active || stage == None || (!s.iterationOpen && !CanStartIteration(s)) then registry
    else ExecuteRegistry(Begun(s, stage), stage.value, e, x, registry)
  }

  /** What an execution comes to: a failure to route, or a checkpoint to store. */
  datatype Verdict = Route(failure: FailureRecord) | Store(checkpoint: Checkpoint)

  ghost function ExecuteVerdict(s: RunState, stage: Stage, e: Expectations, x: Surroundings): Verdict {
    if s.currentStage != stage || !s.iterationOpen then Route(SupervisorFailure(InvalidRouting))
    else
      match x.execution
      case Raised => Route(OrchestrationFailure(stage))
      case Malformed => Route(OrchestrationFailure(stage))
      case InvalidUnit => Route(InvalidOutputFailure(stage))
      case Failed(failure) => Route(failure)
      case Executed(output, review) =>
        if stage == Reviewer && review == None then Route(OrchestrationFailure(Reviewer))
        else if stage == Reviewer && Some(review.value.manifest) != s.artifacts.reviewManifest
          then Route(SupervisorFailure(InvalidRouting))
        else if stage == Reviewer && review.value.Rejected? then Route(review.value.failure)
        else if x.issuedId == None then Route(OrchestrationFailure(stage))
        else
          var c := IssuedCheckpoint(stage, e, output, x.issuedId.value);
          if ValidState(WithCheckpoint(s, c)) then Store(c) else Route(OrchestrationFailure(stage))
  }

  function WithCheckpoint(s: RunState, c: Checkpoint): RunState {
    if c.stage == Reviewer then CheckpointedReviewer(s, c) else Checkpointed(s, c)
  }

  ghost function Carry(s: RunState, verdict: Verdict): RunState {
    match verdict
    case Route(failure) => Routed(s, failure)
    case Store(checkpoint) => WithCheckpoint(s, checkpoint)
  }

  /** The stored state after executing `stage`. */
  ghost function ExecuteSpec(s: RunState, stage: Stage, e: Expectations, x: Surroundings): RunState {
    Carry(s, ExecuteVerdict(s, stage, e, x))
  }

  /** What a step comes to: nothing, or a verdict on the state with its iteration opened. */
  ghost function StepVerdict(s: RunState, stage: Option<Stage>, e: Expectations, x: Surroundings): Option<Verdict> {
    if s.disposition != Active then
      if s.disposition == WaitingMcp && (s.pending == None || !x.replayable)
      then Some(Route(SupervisorFailure(InvalidRouting))) else None
    else if stage == None then
      if !s.iterationOpen && s.eligible then None else Some(Route(SupervisorFailure(InvalidRouting)))
    else if !s.iterationOpen && !CanStartIteration(s) then Some(Route(BudgetFailure()))
    else Some(ExecuteVerdict(Begun(s, stage), stage.value, e, x))
  }

  /** The state a step works on: a new iteration is opened for a stage when none is open. */
  function Begun(s: RunState, stage: Option<Stage>): RunState {
    if CanStartIteration(s) && stage.Some? then BeginIteration(s) else s
  }

  ghost function StepSpec(s: RunState, stage: Option<Stage>, e: Expectations, x: Surroundings): RunState {
    match StepVerdict(s, stage, e, x)
    case None => s
    case Some(verdict) => Carry(Begun(s, stage), verdict)
  }

  datatype StepOutcome = Stepped | StateMismatch | Died

  class Supervisor {
    const store: RunStateStore
    const expectations: Expectations
    var registry: set<Checkpoint>

    constructor (store: RunStateStore, expectations: Expectations)
      ensures this.store == store && this.expectations == expectations && registry == {}
    {
      this.store, this.expectations, registry := store, expectations, {};
    }

    method RouteAndStore(generation: Generation, failure: FailureRecord)
      requires store.Valid() && generation == Generation(store.revision, store.state)
      modifies store
      ensures store.Valid() && store.state == Routed(generation.state, failure)
    {
      var routed := ApplyRouteDecision(generation.state, RouteFailure(generation.state, failure));
      RoutingIsSafe(generation.state, failure);
      var swap := store.CompareAndSwap(generation.revision, routed);
      assert swap.Swapped?;
    }

    method ExecuteAndCheckpoint(generation: Generation, stage: Stage, x: Surroundings)
      requires store.Valid() && generation == Generation(store.revision, store.state)
      modifies store, this
      ensures store.Valid()
      ensures store.state == ExecuteSpec(generation.state, stage, expectations, x)
      ensures registry == ExecuteRegistry(generation.state, stage, expectations, x, old(registry))
    {
      hide Routed, OutputsMatch, ValidLedger, PendingMatches;
      var s := generation.state;
      if s.currentStage != stage || !s.iterationOpen {
        RouteAndStore(generation, SupervisorFailure(InvalidRouting));
        return;
      }
      match x.execution {
        case Raised => RouteAndStore(generation, OrchestrationFailure(stage));
        case Malformed => RouteAndStore(generation, OrchestrationFailure(stage));
        case InvalidUnit => RouteAndStore(generation, InvalidOutputFailure(stage));
        case Failed(failure) => RouteAndStore(generation, failure);
        case Executed(output, review) =>
          if stage == Reviewer {
            if review == None {
              RouteAndStore(generation, OrchestrationFailure(Reviewer));
              return;
            }
            if Some(review.value.manifest) != s.artifacts.reviewManifest {
              RouteAndStore(generation, SupervisorFailure(InvalidRouting));
              return;
            }
            if review.value.Rejected? {
              RouteAndStore(generation, review.value.failure);
              return;
            }
          }
          if x.issuedId == None {
            RouteAndStore(generation, OrchestrationFailure(stage));
            return;
          }
          var c := IssuedCheckpoint(stage, expectations, output, x.issuedId.value);
          registry := registry + {c};
          var swap := store.CompareAndSwap(generation.revision, WithCheckpoint(s, c));
          if !swap.Swapped? {
            RouteAndStore(generation, OrchestrationFailure(stage));
          }
      }
    }

    /** One step. A caller with a stale view changes nothing; a process that dies between its two writes leaves the iteration open. */
    method Step(expected: nat, x: Surroundings, dies: bool) returns (outcome: StepOutcome, ghost stage: Option<Stage>)
      requires store.Valid()
      modifies store, this
      ensures store.Valid()
      ensures outcome == StateMismatch <==> expected != old(store.revision)
      ensures outcome == StateMismatch ==> store.revision == old(store.revision) && store.state == old(store.state)
      ensures outcome == Died ==> dies
      ensures outcome != StateMismatch && old(store.state.disposition) == Active ==>
        IsNextStage(old(store.state), expectations, old(registry), stage)
      ensures outcome == Stepped ==> store.state == StepSpec(old(store.state), stage, expectations, x)
      ensures outcome == Stepped ==> registry == StepRegistry(old(store.state), stage, expectations, x, old(registry))
      ensures outcome == Died ==> store.state == Begun(old(store.state), stage) && registry == old(registry)
    {
      hide Routed, ValidState, ExecuteVerdict, Issues;
      stage := None;
      var generation := store.Load();
      var s := generation.state;
      if generation.revision != expected {
        return StateMismatch, None;
      }
      if s.disposition != Active {
        if s.disposition == WaitingMcp && (s.pending == None || !x.replayable) {
          RouteAndStore(generation, SupervisorFailure(InvalidRouting));
        }
        return Stepped, None;
      }
      var next := NextStage(s, expectations, registry);
      stage := next;
      if next == None {
        if !(!s.iterationOpen && s.eligible) {
          RouteAndStore(generation, SupervisorFailure(InvalidRouting));
        }
        return Stepped, stage;
      }
      if !s.iterationOpen {
        if !CanStartIteration(s) {
          RouteAndStore(generation, BudgetFailure());
          return Stepped, stage;
        }
        BeginKeepsValid(s);
        var swap := store.CompareAndSwap(generation.revision, BeginIteration(s));
        assert swap.Swapped?;
        generation := swap.generation;
      }
      if dies {
        return Died, stage;
      }
      ExecuteAndCheckpoint(generation, next.value, x);
      outcome := Stepped;
    }
  }

  lemma BeginKeepsValid(s: RunState)
    requires ValidState(s) && CanStartIteration(s)
    ensures ValidState(BeginIteration(s))
  {
  }
}
