/**
Every write any component makes to the run record, as one transition system.

A store accepts a write only on the exact current generation, so whatever the
interleaving of clients, crashes and resumptions, the stored states are
obtained one from the next by these writes; a crash merely ends a client
between two of them.
*/
module Protocol {
  import opened Outcomes
  import opened EffectLedger
  import opened LedgerViews
  import opened RunStates
  import opened Router
  import opened Supervision
  import opened FinalizerWrites
  import opened LinearWrites
  import opened PreparationWrites

  datatype Write =
    // finalizer
    | Intend(operation: Operation, id: EffectId)
    | IntendReconcile(operation: Operation, target: EffectId, id: EffectId)
    | Record(operation: Operation, id: EffectId, outcome: Outcome, sha: Option<string>)
    | Escalate
    | Finish(binding: ReleaseBinding)
    | MarkReleased(release: ReleaseReceipt)
    // Linear gateway
    | Ask(request: Request)
    | AskToStart(request: Request)
    | Accept(receipt: Receipt)
    | AcceptPreparation(receipt: Receipt)
    // preparation saga
    | BranchIntend
    | BranchInvoke
    | BranchBind(branchBinding: BranchBinding)
    | BranchFinish(outcome: Outcome, branch: Option<string>)
    | PreparationReview
    | BranchReady
    // supervisor, repair and people
    | Begin
    | KeepCheckpoint(checkpoint: Checkpoint)
    | RouteFailed(failure: FailureRecord)
    | BindArtifacts(artifacts: Artifacts, stage: Stage)
    | Restart(keep: set<Stage>)
    | Resume(grant: nat)
    | Abandon

  /** The writes that announce or record no Git call. */
  predicate IsElsewhere(w: Write, s: RunState) {
    && !w.Intend? && !w.IntendReconcile? && !w.Record?
    && (w.BranchInvoke? ==> s.binding == None)
  }

  /** The common entry condition of the finalizer's effect steps. */
  predicate Finalizing(s: RunState, terms: Terms) {
    && s.disposition == Active
    && StateApproved(s, terms)
    && s.projection == Some(terms.policy.projection)
  }

  predicate Wants(s: RunState, operation: Operation) {
    match operation
    case Commit => s.commitSha == None
    case Push => s.commitSha.Some? && s.pushedSha == None
    case _ => false
  }

  ghost predicate IsFresh(ledger: seq<Event>, id: EffectId) {
    id.Uuid? && Word(ledger, id) == []
  }

  /** When a component makes the write: its own checks on the generation it swaps. */
  ghost predicate Enabled(s: RunState, w: Write, terms: Terms) {
    match w
    case Intend(operation, id) =>
      && Finalizing(s, terms) && Wants(s, operation) && IsFresh(s.ledger, id)
      && Settled(s.ledger, operation, Reconciling(operation))
      && Attempts(s.ledger, operation) < terms.policy.maxInvocations
    case IntendReconcile(operation, target, id) =>
      && Finalizing(s, terms) && Wants(s, operation) && IsFresh(s.ledger, id)
      && Latest(s.ledger, operation) == Some(target)
      && IsReconciled(s.ledger, target) && !ReObserved(s.ledger, Reconciling(operation), target)
    case Record(operation, id, outcome, sha) =>
      && Finalizing(s, terms) && Wants(s, operation)
      && Word(s.ledger, id) == [I]
      && IntentionOf(s.ledger, id).Some?
      && IntentionOf(s.ledger, id).value.operation in {operation, Reconciling(operation)}
      && (outcome == Success <==> sha.Some?)
      && (outcome == Success && operation == Push ==> sha == s.commitSha)
    case Escalate =>
      s.disposition in {Active, WaitingMcp} || (s.disposition == Done && !s.released)
    case Finish(_) =>
      Finalizing(s, terms) && Complete(s) && s.pending == None
    case MarkReleased(release) =>
      && s.disposition == Done && !s.released
      && s.releaseBinding == Some(release.binding) && release.signed
    case Ask(request) =>
      && s.disposition == Active && s.pending == None && IsFresh(s.ledger, request.effect) && request.target == Ticket
      && (match request.operation
          case QueryProjection => StateApproved(s, terms) && s.projection == None
          case CompleteTicket =>
            && Finalizing(s, terms) && s.commitSha.Some? && s.pushedSha.Some? && s.doneReceipt == None
            && Attempts(s.ledger, CompleteTicket) < terms.policy.maxInvocations
          case RestoreTicket => s.phase == CompensationRequired && !s.compensated
          case QueryState => true
          case _ => false)
    case AskToStart(request) =>
      && s.disposition == Active && s.pending == None && IsFresh(s.ledger, request.effect) && request.target == Ticket
      && request.operation == StartTicket && s.phase == Selected
    case Accept(receipt) =>
      && s.pending == Some(receipt.request) && StateApproved(s, terms) && receipt.retryAfter >= 0.0
    case AcceptPreparation(receipt) =>
      s.pending == Some(receipt.request)
    case BranchIntend =>
      s.phase == InProgressConfirmed && IntentionOf(s.ledger, TicketBranch) == None
    case BranchInvoke =>
      && s.phase == InProgressConfirmed && IntentionOf(s.ledger, TicketBranch).Some?
      && !IsAwaiting(s.ledger)
    case BranchBind(_) =>
      s.phase == InProgressConfirmed && IsAwaiting(s.ledger) && s.binding == None
    case BranchFinish(outcome, branch) =>
      && s.phase == InProgressConfirmed && IsAwaiting(s.ledger)
      && (outcome == Success ==> s.binding.Some? && branch == Some(s.binding.value.branch))
      && (outcome != Success ==> outcome == Failure && branch == None)
    case PreparationReview =>
      s.disposition !in {Done, Abandoned}
    case BranchReady =>
      s.phase == BranchCreated
    case Begin =>
      CanStartIteration(s)
    case KeepCheckpoint(c) =>
      && s.disposition == Active && s.iterationOpen && c.stage == s.currentStage
      && ValidState(WithCheckpoint(s, c))
    case RouteFailed(_) =>
      true
    case BindArtifacts(artifacts, stage) =>
      && s.disposition !in {Done, Abandoned}
      && ValidState(s.(artifacts := artifacts, currentStage := stage))
    case Restart(keep) =>
      s.disposition == RepairRequired
    case Resume(_) =>
      s.disposition == HumanReview
    case Abandon =>
      s.disposition == HumanReview
  }

  predicate IsCompletionPending(s: RunState) {
    s.pending.Some? && s.pending.value.operation == CompleteTicket
  }

  /** The branch effect's latest invocation has not been observed. */
  ghost predicate IsAwaiting(ledger: seq<Event>) {
    var word := Word(ledger, TicketBranch);
    word != [] && word[|word| - 1] == V
  }

  ghost function After(s: RunState, w: Write, terms: Terms): RunState
    requires Enabled(s, w, terms)
  {
    match w
    case Intend(operation, id) => Intended(s, operation, Ticket, id)
    case IntendReconcile(operation, target, id) => Intended(s, Reconciling(operation), EffectTarget(target), id)
    case Record(operation, id, outcome, sha) => Recorded(s, operation, id, outcome, sha)
    case Escalate => FailedState(s)
    case Finish(binding) => DoneState(s, binding)
    case MarkReleased(release) => ReleasedState(s, release)
    case Ask(request) => PendingState(s, request)
    case AskToStart(request) => StartRequested(PendingState(s, request))
    case Accept(receipt) =>
      AcceptUpdate(ConsumedState(s, receipt, receipt.retryAfter), receipt.request.operation, receipt, terms.policy)
    case AcceptPreparation(receipt) => ReceiptPhase(ConsumedState(s, receipt, 0.0), receipt)
    case BranchIntend => BranchIntended(s)
    case BranchInvoke => BranchInvoked(s)
    case BranchBind(binding) => BranchBound(s, binding)
    case BranchFinish(outcome, branch) => BranchFinished(s, outcome, branch)
    case PreparationReview => ForReview(s)
    case BranchReady => s.(phase := ReadyPhase)
    case Begin => BeginIteration(s)
    case KeepCheckpoint(c) => WithCheckpoint(s, c)
    case RouteFailed(failure) => Routed(s, failure)
    case BindArtifacts(artifacts, stage) => s.(artifacts := artifacts, currentStage := stage)
    case Restart(keep) => Restarted(s, keep)
    case Resume(grant) => s.(disposition := Active, grants := s.grants + [grant])
    case Abandon => s.(disposition := Abandoned)
  }

  /** A repaired runner keeps the checkpoints that are still compatible with it. */
  function Restarted(s: RunState, keep: set<Stage>): RunState {
    s.(disposition := Active,
       checkpoints := map stage | stage in s.checkpoints && stage in keep :: s.checkpoints[stage],
       outputs := Kept(s.outputs, (set stage <- s.checkpoints :: stage) - keep))
  }
}
