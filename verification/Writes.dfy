/** The successor states the finalizer stores. */
module FinalizerWrites {
  import opened Outcomes
  import opened EffectLedger
  import opened LedgerViews
  import opened RunStates

  /** What is fixed for a whole run: the ticket as it was taken, the baseline, and the project's policy. */
  datatype Policy = Policy(
    maxInvocations: nat,
    totalRetryWait: real,
    projection: string,          // hash of the ticket's projection
    externalRevision: string,
    stateId: string,
    completedStateId: string,
    baseline: string)

  /** One approved review: its manifest and result, and what the approved change makes of the baseline's tree. */
  datatype Approval = Approval(reviewManifest: string, reviewResult: string, tree: string)

  /** The policy, and the approval one component works under. A run may be approved again after an invalidation. */
  datatype Terms = Terms(policy: Policy, approval: Approval)

  predicate IsLocal(operation: Operation) {
    operation in {Commit, Push, ReconcileCommit, ReconcilePush}
  }

  function Reconciling(operation: Operation): Operation
    requires operation in {Commit, Push}
  {
    if operation == Commit then ReconcileCommit else ReconcilePush
  }

  /** The state-dependent part of the approval check; the artifacts themselves are fixed. */
  predicate StateApproved(s: RunState, terms: Terms) {
    && s.eligible
    && !s.iterationOpen
    && s.artifacts.reviewManifest == Some(terms.approval.reviewManifest)
    && s.artifacts.reviewResult == Some(terms.approval.reviewResult)
    && Reviewer in s.checkpoints
    && s.checkpoints[Reviewer].output == terms.approval.reviewResult
  }

  function Intended(s: RunState, operation: Operation, target: Target, id: EffectId): RunState {
    s.(ledger := Extend(s.ledger, id, [Intention(operation, target, LocalHash(id, operation, target))]))
  }

  function Round(wait: real, outcome: Outcome, revision: Option<string>, receipt: Option<Receipt>): seq<Payload> {
    [Invocation(wait), Observation(outcome, revision, receipt), Reconciliation(outcome, receipt)]
  }

  /** The result of a commit or push, or of looking for one: recorded as one complete round. */
  function Recorded(s: RunState, operation: Operation, id: EffectId, outcome: Outcome, sha: Option<string>): RunState {
    var logged := s.(ledger := Extend(s.ledger, id, Round(0.0, outcome, sha, None)));
    if outcome != Success then logged
    else if operation == Commit then logged.(commitSha := sha)
    else logged.(pushedSha := sha)
  }

  const FINALIZATION_FAILURE := FailureRecord(Orchestration, FinalizationSource, ArtifactMismatch, None, [], [])

  function FailedState(s: RunState): RunState {
    s.(disposition := HumanReview, failures := s.failures + [FINALIZATION_FAILURE])
  }

  predicate Complete(s: RunState) {
    s.projection.Some? && s.commitSha.Some? && s.pushedSha.Some? && s.doneReceipt.Some?
  }

  function EvidenceOf(s: RunState): Evidence
    requires Complete(s)
  {
    Evidence(s.projection.value, s.commitSha.value, s.pushedSha.value, s.doneReceipt.value)
  }

  function DoneState(s: RunState, binding: ReleaseBinding): RunState
    requires Complete(s)
  {
    s.(disposition := Done,
       finalization := true,
       evidence := Some(EvidenceOf(s)),
       releaseBinding := Some(binding))
  }

  function ReleasedState(s: RunState, receipt: ReleaseReceipt): RunState {
    s.(released := true, releaseReceipt := Some(receipt))
  }

  /** What an authenticated receipt means for the finalization. */
  datatype Acceptance = Refused | Projected | Completed | Delayed | Noted

  function Judge(retryWait: real, operation: Operation, receipt: Receipt, policy: Policy): Acceptance {
    if operation == QueryProjection then
      if || receipt.outcome != Success
         || receipt.externalRevision != Some(policy.externalRevision)
         || receipt.observedState != Some(policy.stateId)
         || receipt.resultHash != policy.projection
      then Refused
      else Projected
    else if operation == CompleteTicket && receipt.outcome == Success then
      if receipt.observedState != Some(policy.completedStateId) then Refused else Completed
    else if receipt.outcome != Success && receipt.retryAfter != 0.0 then
      if retryWait + receipt.retryAfter > policy.totalRetryWait then Refused else Delayed
    else Noted
  }

  /** What an accepted receipt does to the state in which its events are already recorded. */
  function AcceptUpdate(s: RunState, operation: Operation, receipt: Receipt, policy: Policy): RunState {
    match Judge(s.retryWait, operation, receipt, policy)
    case Refused => FailedState(s)
    case Projected => s.(projection := Some(receipt.resultHash))
    case Completed => s.(doneReceipt := Some(receipt))
    case Delayed =>
      s.(retryWait := s.retryWait + receipt.retryAfter, nextEligible := Some(receipt.observedAt + receipt.retryAfter))
    case Noted => s
  }
}

/** The successor states of the pending-request handshake with the Linear bridge. */
module LinearWrites {
  import opened Outcomes
  import opened EffectLedger
  import opened LedgerViews
  import opened RunStates
  import opened FinalizerWrites

  function PendingState(s: RunState, request: Request): RunState {
    s.(disposition := WaitingMcp,
       ledger := Extend(s.ledger, request.effect, [Intention(request.operation, request.target, BridgeHash(request))]),
       pending := Some(request))
  }

  /** The receipt's events are recorded and the run is active again, before any caller's update. */
  function ConsumedState(s: RunState, receipt: Receipt, wait: real): RunState {
    s.(disposition := Active,
       ledger := Extend(s.ledger, receipt.request.effect,
                        Round(wait, receipt.outcome, receipt.externalRevision, Some(receipt))),
       pending := None)
  }

  predicate IsConsumption(event: Event, receipt: Receipt) {
    && event.effect == receipt.request.effect
    && event.payload.Reconciliation?
    && event.payload.receipt == Some(receipt)
  }

  predicate WasConsumed(ledger: seq<Event>, receipt: Receipt) {
    exists event <- ledger :: IsConsumption(event, receipt)
  }
}

/** The successor states of the preparation saga. */
module PreparationWrites {
  import opened Outcomes
  import opened EffectLedger
  import opened LedgerViews
  import opened RunStates

  const BRANCH_INTENTION := Intention(CreateBranch, Ticket, LocalHash(TicketBranch, CreateBranch, Ticket))

  function BranchIntended(s: RunState): RunState {
    s.(ledger := Extend(s.ledger, TicketBranch, [BRANCH_INTENTION]))
  }

  function BranchInvoked(s: RunState): RunState {
    s.(ledger := Extend(s.ledger, TicketBranch, [Invocation(0.0)]))
  }

  function BranchBound(s: RunState, binding: BranchBinding): RunState {
    s.(ledger := Extend(s.ledger, TicketBranch, [Observation(Success, None, None)]), binding := Some(binding))
  }

  function BranchFinished(s: RunState, outcome: Outcome, branch: Option<string>): RunState {
    s.(ledger := Extend(s.ledger, TicketBranch, [Observation(outcome, None, None), Reconciliation(outcome, None)]),
       phase := if outcome == Success then BranchCreated else CompensationRequired,
       branch := if branch.Some? then branch else s.branch)
  }

  function ForReview(s: RunState): RunState {
    s.(disposition := HumanReview)
  }

  function StartRequested(s: RunState): RunState {
    s.(phase := InProgressRequested)
  }

  /** What a receipt means for the preparation, in the phase the run is in. */
  datatype Progress = Confirmed | Compensated | NeedsReview

  function JudgePhase(phase: PreparationPhase, receipt: Receipt): Progress {
    if phase == InProgressRequested && receipt.request.operation == StartTicket
       && receipt.outcome == Success && receipt.request.target == Ticket then Confirmed
    else if phase == CompensationRequired && receipt.request.operation == RestoreTicket
            && receipt.outcome == Success && receipt.request.target == Ticket then Compensated
    else NeedsReview
  }

  function ReceiptPhase(s: RunState, receipt: Receipt): RunState {
    match JudgePhase(s.phase, receipt)
    case Confirmed => s.(phase := InProgressConfirmed)
    case Compensated => s.(compensated := true, disposition := HumanReview)
    case NeedsReview => ForReview(s)
  }
}
