/** The durable run record, its persisted contract, and the Crew Iteration budget. */
module RunStates {
  import opened Outcomes
  import opened EffectLedger

  datatype Stage =
    | Analyst | ArchitectOutline | ArchitectProposal | ArchitectSpecs | ArchitectDesign
    | ArchitectTasks | Programmer | Verification | Tester | Reviewer

  datatype Disposition = Active | WaitingMcp | RepairRequired | HumanReview | Done | Abandoned

  datatype PreparationPhase =
    | Selected | InProgressRequested | InProgressConfirmed | BranchCreated | ReadyPhase | CompensationRequired

  datatype FailureClass = ProductDefect | InvalidOutput | Orchestration | Ambiguity | BudgetExhausted

  datatype FailureSource =
    | Preflight | Transport | ArtifactSource | VerificationSource | Browser | Review | FinalizationSource | SupervisorSource

  datatype FindingKind =
    | ImplementationMismatch | ScenarioMismatch | ArtifactMismatch
    | RequirementsMismatch | InvalidUnitOutput | InvalidRouting

  datatype FailureRecord = FailureRecord(
    class_: FailureClass,
    source: FailureSource,
    finding: FindingKind,
    owner: Option<Stage>,
    citedIds: seq<string>,
    evidence: seq<string>)

  datatype Checkpoint = Checkpoint(
    id: nat, stage: Stage, contract: string, inputs: map<string, string>, output: string)

  datatype StageOutput = StageOutput(stage: Stage, content: string)

  datatype BranchBinding = BranchBinding(branch: string, base: string, lineage: string)

  /** The manifests and results that later stages and the finalizer are bound to. */
  datatype Artifacts = Artifacts(
    requirements: Option<string>,
    outline: Option<string>,
    taskDefinition: Option<string>,
    taskStatus: Option<string>,
    productManifest: Option<string>,
    productHash: Option<string>,
    build: Option<string>,
    verification: Option<string>,
    browser: Option<string>,
    reviewManifest: Option<string>,
    reviewResult: Option<string>)

  datatype Evidence = Evidence(projection: string, commit: string, pushed: string, receipt: Receipt)

  /** The index entry a terminal run will release. */
  datatype ReleaseBinding = ReleaseBinding(indexRevision: nat)

  datatype ReleaseReceipt = ReleaseReceipt(binding: ReleaseBinding, terminalRevision: nat, signed: bool)

  datatype RunState = RunState(
    disposition: Disposition,
    // preparation
    phase: PreparationPhase,
    branch: Option<string>,
    binding: Option<BranchBinding>,
    compensated: bool,
    // Crew Iterations
    maxIterations: nat,
    grants: seq<nat>,
    iterationCount: nat,
    iterationOpen: bool,
    currentStage: Stage,
    checkpoints: map<Stage, Checkpoint>,
    outputs: seq<StageOutput>,
    artifacts: Artifacts,
    failures: seq<FailureRecord>,
    // external effects
    ledger: seq<Event>,
    pending: Option<Request>,
    // finalization
    eligible: bool,
    projection: Option<string>,
    commitSha: Option<string>,
    pushedSha: Option<string>,
    doneReceipt: Option<Receipt>,
    finalization: bool,
    evidence: Option<Evidence>,
    releaseBinding: Option<ReleaseBinding>,
    released: bool,
    releaseReceipt: Option<ReleaseReceipt>,
    retryWait: real,
    nextEligible: Option<real>)

  function Sum(grants: seq<nat>): nat {
    if grants == [] then 0 else Sum(grants[..|grants| - 1]) + grants[|grants| - 1]
  }

  /** The base budget and every consumed resume grant. */
  function IterationLimit(state: RunState): nat {
    state.maxIterations + Sum(state.grants)
  }

  predicate CanStartIteration(state: RunState) {
    && state.disposition == Active
    && !state.iterationOpen
    && !state.eligible
    && state.iterationCount < IterationLimit(state)
  }

  function BeginIteration(state: RunState): RunState
    requires CanStartIteration(state)
  {
    state.(iterationCount := state.iterationCount + 1, iterationOpen := true)
  }

  predicate UniqueStages(outputs: seq<StageOutput>) {
    forall i, j :: 0 <= i < j < |outputs| ==> outputs[i].stage != outputs[j].stage
  }

  /** One output per checkpoint, naming the output that the checkpoint binds. */
  predicate OutputsMatch(checkpoints: map<Stage, Checkpoint>, outputs: seq<StageOutput>) {
    && UniqueStages(outputs)
    && (forall output <- outputs :: output.stage in checkpoints && checkpoints[output.stage].output == output.content)
    && (forall stage <- checkpoints ::
          && checkpoints[stage].stage == stage
          && exists output <- outputs :: output.stage == stage)
  }

  ghost predicate PendingMatches(ledger: seq<Event>, pending: Request) {
    && IntentionOf(ledger, pending.effect) == Some(Intention(pending.operation, pending.target, BridgeHash(pending)))
    && R !in Word(ledger, pending.effect)
  }

  /** The persisted contract every stored state must meet. */
  ghost predicate ValidState(s: RunState) {
    && s.iterationCount <= IterationLimit(s)
    && (s.iterationOpen ==> s.iterationCount > 0)
    && (s.eligible ==> !s.iterationOpen && s.artifacts.reviewManifest.Some? && s.artifacts.reviewResult.Some?)
    && (s.artifacts.productManifest.Some? <==> s.artifacts.productHash.Some?)
    && (s.artifacts.taskStatus.Some? ==> s.artifacts.taskDefinition.Some?)
    && OutputsMatch(s.checkpoints, s.outputs)
    && (s.releaseReceipt.Some? ==> s.releaseBinding == Some(s.releaseReceipt.value.binding))
    && (s.released ==> s.releaseBinding.Some? && s.releaseReceipt.Some? && s.releaseReceipt.value.signed)
    && ValidLedger(s.ledger)
    && (s.pending.Some? ==> PendingMatches(s.ledger, s.pending.value))
  }

  const NO_ARTIFACTS := Artifacts(None, None, None, None, None, None, None, None, None, None, None)

  function Initial(maxIterations: nat): RunState {
    RunState(Active, Selected, None, None, false, maxIterations, [], 0, false, Analyst, map[], [], NO_ARTIFACTS, [],
             [], None, false, None, None, None, None, false, None, None, false, None, 0.0, None)
  }
}
