/** The retry wait of a run against what its ledger recorded, exactly. */
module RetryWaits {
  import opened Outcomes
  import opened EffectLedger
  import opened LedgerViews
  import opened RunStates
  import opened Router
  import opened Supervision
  import opened FinalizerWrites
  import opened LinearWrites
  import opened PreparationWrites
  import opened Protocol
  import opened ProtocolInvariant
  import opened ProtocolRuns

  /** What the ledger recorded and the run did not count. */
  ghost function Uncounted(s: RunState): real {
    LedgerWait(s.ledger) - s.retryWait
  }

  /** A receipt whose wait is written to the ledger but refused as too long a total. */
  predicate IsRefusedWait(retryWait: real, receipt: Receipt, policy: Policy) {
    && receipt.outcome != Success
    && receipt.request.operation != QueryProjection
    && receipt.retryAfter != 0.0
    && retryWait + receipt.retryAfter > policy.totalRetryWait
  }

  /** Accepting a receipt adds to the accumulated wait what it adds to the ledger, except exactly for a refused wait. */
  lemma AcceptanceCountsItsWait(s: RunState, receipt: Receipt, t: RunState, terms: Terms)
    requires Inv(s, terms.policy) && Enabled(s, Accept(receipt), terms) && t == After(s, Accept(receipt), terms)
    ensures t.retryWait - s.retryWait == LedgerWait(t.ledger) - LedgerWait(s.ledger) <==> !IsRefusedWait(s.retryWait, receipt, terms.policy)
    ensures IsRefusedWait(s.retryWait, receipt, terms.policy) ==>
      t.retryWait == s.retryWait && t.disposition == HumanReview && Uncounted(t) == Uncounted(s) + receipt.retryAfter
  {
    hide Inv, StateApproved, Word, LedgerWait, Extend, Round, ConsumedState, AcceptUpdate, Judge;
    var c := ConsumedState(s, receipt, receipt.retryAfter);
    ConsumeStory(s, receipt, receipt.retryAfter, terms.policy);
    ConsumedShape(s, receipt, receipt.retryAfter);
    PendingOperation(s, receipt, terms.policy);
    AcceptedWait(c, receipt, t, terms.policy);
    JudgedWait(c.retryWait, receipt, terms.policy);
  }

  lemma JudgedWait(retryWait: real, receipt: Receipt, policy: Policy)
    requires !IsLocal(receipt.request.operation) && receipt.request.operation != CreateBranch && receipt.retryAfter >= 0.0
    ensures Judge(retryWait, receipt.request.operation, receipt, policy) == Delayed <==>
      && receipt.outcome != Success && IsRetried(receipt.request.operation)
      && receipt.retryAfter != 0.0 && !IsRefusedWait(retryWait, receipt, policy)
    ensures IsRefusedWait(retryWait, receipt, policy) ==>
      && Judge(retryWait, receipt.request.operation, receipt, policy) == Refused
      && IsRetried(receipt.request.operation) && receipt.retryAfter > 0.0
  {
  }

  lemma AcceptedWait(c: RunState, receipt: Receipt, t: RunState, policy: Policy)
    requires t == AcceptUpdate(c, receipt.request.operation, receipt, policy)
    ensures t.ledger == c.ledger
    ensures var verdict := Judge(c.retryWait, receipt.request.operation, receipt, policy);
      && t.retryWait == (if verdict == Delayed then c.retryWait + receipt.retryAfter else c.retryWait)
      && (verdict == Refused ==> t.disposition == HumanReview)
  {
    hide AcceptUpdate, Judge;
    AcceptanceOf(c, receipt.request.operation, receipt, t, policy);
    match Judge(c.retryWait, receipt.request.operation, receipt, policy) {
      case Refused => case Projected => case Completed => case Delayed => case Noted =>
    }
  }

  predicate IsRefusal(s: RunState, w: Write, policy: Policy) {
    w.Accept? && IsRefusedWait(s.retryWait, w.receipt, policy)
  }

  /** Of all writes of all components, only a refused wait leaves a wait of the ledger uncounted. */
  lemma WriteCountsItsWait(s: RunState, w: Write, t: RunState, terms: Terms)
    requires Inv(s, terms.policy) && Enabled(s, w, terms) && t == After(s, w, terms)
    ensures Uncounted(t) == Uncounted(s) + if IsRefusal(s, w, terms.policy) then w.receipt.retryAfter else 0.0
    ensures IsRefusal(s, w, terms.policy) ==> w.receipt.retryAfter > 0.0
  {
    hide Inv, Finalizing, StateApproved, IsFresh, Settled, ReObserved, IsReconciled, Attempts, Latest, Word, IntentionOf, IsAwaiting,
      ValidState, AcceptUpdate, ReceiptPhase, ConsumedState, Routed, WithCheckpoint, Restarted, CanStartIteration, Extend, Round,
      SameRecord, Complete, Intended, Recorded, PendingState, BranchIntended, BranchInvoked, BranchBound, BranchFinished, LedgerWait;
    match w
    case Intend(operation, id) => IntendingWaits(s, operation, Ticket, id);
    case IntendReconcile(operation, target, id) => IntendingWaits(s, Reconciling(operation), EffectTarget(target), id);
    case Record(operation, id, outcome, sha) => RecordingWaits(s, operation, id, outcome, sha);
    case Ask(request) => AskingWaits(s, request);
    case AskToStart(request) => AskingWaits(s, request);
    case Accept(receipt) =>
      AcceptanceCountsItsWait(s, receipt, t, terms);
      RefusedIsPositive(s, receipt, terms.policy);
    case AcceptPreparation(receipt) => ConfirmingWaits(s, receipt, t, terms.policy);
    case BranchIntend => BranchWaits(s, t, terms.policy, w);
    case BranchInvoke => BranchWaits(s, t, terms.policy, w);
    case BranchBind(branchBinding) => BranchWaits(s, t, terms.policy, w);
    case BranchFinish(outcome, branch) => BranchWaits(s, t, terms.policy, w);
    case RouteFailed(failure) => RoutingWaits(s, failure, t, terms.policy);
    case KeepCheckpoint(c) => CheckpointWaits(s, c);
    case Restart(keep) => RestartWaits(s, keep);
    case _ =>
  }

  lemma RefusedIsPositive(s: RunState, receipt: Receipt, policy: Policy)
    requires Inv(s, policy) && s.pending == Some(receipt.request) && receipt.retryAfter >= 0.0
    ensures IsRefusedWait(s.retryWait, receipt, policy) ==> receipt.retryAfter > 0.0
  {
    hide Inv;
  }

  lemma IntendingWaits(s: RunState, operation: Operation, target: Target, id: EffectId)
    ensures Uncounted(Intended(s, operation, target, id)) == Uncounted(s)
  {
    hide Extend, LedgerWait;
    IntendViews(s.ledger, id, Intention(operation, target, LocalHash(id, operation, target)));
  }

  lemma RecordingWaits(s: RunState, operation: Operation, id: EffectId, outcome: Outcome, sha: Option<string>)
    ensures Uncounted(Recorded(s, operation, id, outcome, sha)) == Uncounted(s)
  {
    hide Extend, LedgerWait;
    RoundWait(s.ledger, id, 0.0, Observation(outcome, sha, None), Reconciliation(outcome, None));
    var logged := s.(ledger := Extend(s.ledger, id, Round(0.0, outcome, sha, None)));
    assert Uncounted(logged) == Uncounted(s);
  }

  lemma AskingWaits(s: RunState, request: Request)
    ensures Uncounted(PendingState(s, request)) == Uncounted(s)
  {
    hide Extend, LedgerWait;
    IntendViews(s.ledger, request.effect, Intention(request.operation, request.target, BridgeHash(request)));
  }

  lemma ConfirmingWaits(s: RunState, receipt: Receipt, t: RunState, policy: Policy)
    requires Inv(s, policy) && s.pending == Some(receipt.request) && t == ReceiptPhase(ConsumedState(s, receipt, 0.0), receipt)
    ensures Uncounted(t) == Uncounted(s)
  {
    hide Inv, ConsumedState, ReceiptPhase, LedgerWait, SameRecord, ValidState;
    ConsumeStory(s, receipt, 0.0, policy);
    ConsumedShape(s, receipt, 0.0);
    ReceiptPhaseShape(ConsumedState(s, receipt, 0.0), receipt, t);
    SameRecordFields(ConsumedState(s, receipt, 0.0), t);
  }

  lemma BranchWaits(s: RunState, t: RunState, policy: Policy, w: Write)
    requires Inv(s, policy)
    requires match w
      case BranchIntend => t == BranchIntended(s)
      case BranchInvoke => t == BranchInvoked(s)
      case BranchBind(branchBinding) => t == BranchBound(s, branchBinding)
      case BranchFinish(outcome, branch) => t == BranchFinished(s, outcome, branch)
      case _ => false
    ensures Uncounted(t) == Uncounted(s)
  {
    hide ValidState, PendingStory, BranchStory, Milestones, Bounded, WaitStory, Extend, LedgerWait, Word, IntentionOf, ValidLedger, Quiet;
    BranchIsNotRetried(s.ledger);
    match w
    case BranchIntend => IntendViews(s.ledger, TicketBranch, BRANCH_INTENTION);
    case BranchInvoke => UnretriedWait(s.ledger, TicketBranch, [Invocation(0.0)]);
    case BranchBind(_) => UnretriedWait(s.ledger, TicketBranch, [Observation(Success, None, None)]);
    case BranchFinish(outcome, branch) =>
      UnretriedWait(s.ledger, TicketBranch, [Observation(outcome, None, None), Reconciliation(outcome, None)]);
  }

  lemma RoutingWaits(s: RunState, failure: FailureRecord, t: RunState, policy: Policy)
    requires Inv(s, policy) && t == Routed(s, failure)
    ensures Uncounted(t) == Uncounted(s)
  {
    hide Routed, LedgerWait, ValidState, LedgerStory, PendingStory, BranchStory, Milestones, WaitStory, Bounded;
    RoutedShape(s, failure, t);
    RoutingIsSafe(s, failure);
  }

  lemma CheckpointWaits(s: RunState, c: Checkpoint)
    ensures Uncounted(WithCheckpoint(s, c)) == Uncounted(s)
  {
  }

  lemma RestartWaits(s: RunState, keep: set<Stage>)
    ensures Uncounted(Restarted(s, keep)) == Uncounted(s)
  {
    hide Kept;
  }

  // ----- whole runs -----

  /** The refused waits among the first writes of a run. */
  ghost function RefusedWaits(trace: Trace, policy: Policy, count: nat): real
    requires count <= |trace.writes| && |trace.states| == |trace.writes| + 1
  {
    if count == 0 then 0.0
    else
      RefusedWaits(trace, policy, count - 1) +
      if IsRefusal(trace.states[count - 1], trace.writes[count - 1], policy) then trace.writes[count - 1].receipt.retryAfter else 0.0
  }

  /**
  In every stored state of every run, what the ledger recorded and the run did
  not count is the sum of the waits that were refused. The accumulated wait is
  exactly what the ledger recorded if and only if none was refused so far.
  */
  lemma {:induction false} WaitIsConserved(trace: Trace, policy: Policy, i: nat)
    requires IsTrace(trace, policy) && i < |trace.states|
    ensures LedgerWait(trace.states[i].ledger) == trace.states[i].retryWait + RefusedWaits(trace, policy, i)
    ensures trace.states[i].retryWait <= policy.totalRetryWait
    ensures trace.states[i].retryWait == LedgerWait(trace.states[i].ledger) <==>
      forall j :: 0 <= j < i ==> !IsRefusal(trace.states[j], trace.writes[j], policy)
    ensures RefusedWaits(trace, policy, i) >= 0.0
  {
    hide Inv, Enabled, After, LedgerWait, IsRefusal;
    EveryStateKeepsInv(trace, policy, i);
    AllowedWait(trace.states[i], policy);
    if i == 0 {
      NothingWaited(trace, policy);
    } else {
      WaitIsConserved(trace, policy, i - 1);
      EveryStateKeepsInv(trace, policy, i - 1);
      assert Writes(trace, i - 1, policy);
      WriteCountsItsWait(trace.states[i - 1], trace.writes[i - 1], trace.states[i], Terms(policy, trace.approvals[i - 1]));
    }
  }

  lemma AllowedWait(s: RunState, policy: Policy)
    requires Inv(s, policy)
    ensures s.retryWait <= policy.totalRetryWait
  {
    hide ValidState, LedgerStory, PendingStory, BranchStory, Milestones, Bounded;
  }

  lemma NothingWaited(trace: Trace, policy: Policy)
    requires IsTrace(trace, policy)
    ensures LedgerWait(trace.states[0].ledger) == 0.0 && trace.states[0].retryWait == 0.0
  {
    hide Enabled, After;
  }
}
