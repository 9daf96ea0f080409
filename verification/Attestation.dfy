/** What the preparation claims about the ticket is always backed by a receipt in the ledger. */
module Attestations {
  import opened Outcomes
  import opened EffectLedger
  import opened LedgerViews
  import opened RunStates
  import opened Router
  import opened Supervision
  import opened FinalizerWrites
  import opened LinearWrites
  import opened PreparationWrites
  import opened Protocol
  import opened ProtocolInvariant
  import opened ProtocolRuns

  predicate IsConfirmed(phase: PreparationPhase) {
    phase != Selected && phase != InProgressRequested
  }

  /** A successful receipt of this operation on the ticket has been consumed. */
  ghost predicate HasReceipt(ledger: seq<Event>, operation: Operation) {
    exists receipt :: WasConsumed(ledger, receipt) && IsSuccess(receipt, operation)
  }

  predicate IsSuccess(receipt: Receipt, operation: Operation) {
    receipt.request.operation == operation && receipt.request.target == Ticket && receipt.outcome == Success
  }

  /** A started ticket was started by a receipt, and a compensated one given back by a receipt. */
  ghost predicate IsAttested(s: RunState) {
    && (IsConfirmed(s.phase) ==> HasReceipt(s.ledger, StartTicket))
    && (s.compensated ==> HasReceipt(s.ledger, RestoreTicket))
  }

  lemma ReceiptsStay(before: seq<Event>, after: seq<Event>, operation: Operation)
    requires Grows(before, after) && HasReceipt(before, operation)
    ensures HasReceipt(after, operation)
  {
    var receipt :| WasConsumed(before, receipt) && IsSuccess(receipt, operation);
    var event :| event in before && IsConsumption(event, receipt);
    var i :| 0 <= i < |before| && before[i] == event;
    assert after[i] == event;
    assert WasConsumed(after, receipt);
  }

  /** The only write that confirms or compensates is the preparation's consumption of the receipt that says so. */
  lemma WhoConfirms(s: RunState, w: Write, t: RunState, terms: Terms)
    requires Enabled(s, w, terms) && t == After(s, w, terms)
    ensures IsConfirmed(t.phase) && !IsConfirmed(s.phase) ==>
      w.AcceptPreparation? && IsSuccess(w.receipt, StartTicket)
    ensures t.compensated && !s.compensated ==> w.AcceptPreparation? && IsSuccess(w.receipt, RestoreTicket)
  {
    hide Finalizing, StateApproved, IsFresh, Settled, ReObserved, IsReconciled, Attempts, Latest, Word, IntentionOf, IsAwaiting,
      ValidState, AcceptUpdate, ReceiptPhase, ConsumedState, Routed, WithCheckpoint, Restarted, CanStartIteration, Extend, Round,
      SameRecord, Complete, Intended, Recorded, PendingState, BranchIntended, BranchInvoked, BranchBound, IsSuccess;
    match w
    case Intend(operation, id) => LoggingKeepsPreparation(s, operation, Ticket, id);
    case IntendReconcile(operation, target, id) => LoggingKeepsPreparation(s, Reconciling(operation), EffectTarget(target), id);
    case Record(operation, id, outcome, sha) => RecordingKeepsPreparation(s, operation, id, outcome, sha);
    case Ask(request) => AskingKeepsPreparation(s, request);
    case AskToStart(request) => AskingKeepsPreparation(s, request);
    case BranchIntend => BranchKeepsPreparation(s);
    case BranchInvoke => BranchKeepsPreparation(s);
    case BranchBind(branchBinding) => BindingKeepsPreparation(s, branchBinding);
    case Accept(receipt) =>
      ConsumedShape(s, receipt, receipt.retryAfter);
      ConsumedKeepsCompensation(s, receipt, receipt.retryAfter);
      UpdateKeepsRecord(ConsumedState(s, receipt, receipt.retryAfter), receipt.request.operation, receipt, t, terms.policy);
    case AcceptPreparation(receipt) =>
      ConsumedShape(s, receipt, 0.0);
      ConsumedKeepsCompensation(s, receipt, 0.0);
      ReceiptDecides(ConsumedState(s, receipt, 0.0), receipt, t);
    case RouteFailed(failure) => RoutedShape(s, failure, t);
    case KeepCheckpoint(c) => CheckpointKeepsPreparation(s, c);
    case Restart(keep) => RestartKeepsPreparation(s, keep);
    case _ =>
  }

  lemma LoggingKeepsPreparation(s: RunState, operation: Operation, target: Target, id: EffectId)
    ensures Intended(s, operation, target, id).phase == s.phase && Intended(s, operation, target, id).compensated == s.compensated
  {
    hide Extend;
  }

  lemma RecordingKeepsPreparation(s: RunState, operation: Operation, id: EffectId, outcome: Outcome, sha: Option<string>)
    ensures var t := Recorded(s, operation, id, outcome, sha); t.phase == s.phase && t.compensated == s.compensated
  {
    hide Extend, Round;
    var logged := s.(ledger := Extend(s.ledger, id, Round(0.0, outcome, sha, None)));
    assert logged.phase == s.phase && logged.compensated == s.compensated;
  }

  lemma AskingKeepsPreparation(s: RunState, request: Request)
    ensures PendingState(s, request).phase == s.phase && PendingState(s, request).compensated == s.compensated
  {
    hide Extend;
  }

  lemma BranchKeepsPreparation(s: RunState)
    ensures BranchIntended(s).phase == s.phase && BranchIntended(s).compensated == s.compensated
    ensures BranchInvoked(s).phase == s.phase && BranchInvoked(s).compensated == s.compensated
  {
    hide Extend;
  }

  lemma BindingKeepsPreparation(s: RunState, branchBinding: BranchBinding)
    ensures BranchBound(s, branchBinding).phase == s.phase && BranchBound(s, branchBinding).compensated == s.compensated
  {
    hide Extend;
  }

  lemma ConsumedKeepsCompensation(s: RunState, receipt: Receipt, wait: real)
    ensures ConsumedState(s, receipt, wait).compensated == s.compensated
  {
    hide Extend, Round;
  }

  lemma CheckpointKeepsPreparation(s: RunState, c: Checkpoint)
    ensures WithCheckpoint(s, c).phase == s.phase && WithCheckpoint(s, c).compensated == s.compensated
  {
  }

  lemma RestartKeepsPreparation(s: RunState, keep: set<Stage>)
    ensures Restarted(s, keep).phase == s.phase && Restarted(s, keep).compensated == s.compensated
  {
    hide Kept;
  }

  lemma ReceiptDecides(c: RunState, receipt: Receipt, t: RunState)
    requires t == ReceiptPhase(c, receipt)
    ensures t.phase == c.phase || (t.phase == InProgressConfirmed && IsSuccess(receipt, StartTicket))
    ensures t.compensated == c.compensated || IsSuccess(receipt, RestoreTicket)
  {
    hide JudgePhase;
    match JudgePhase(c.phase, receipt) {
      case Confirmed => VerdictNeedsSuccess(c.phase, receipt);
      case Compensated => VerdictNeedsSuccess(c.phase, receipt);
      case NeedsReview =>
    }
  }

  lemma VerdictNeedsSuccess(phase: PreparationPhase, receipt: Receipt)
    ensures JudgePhase(phase, receipt) == Confirmed ==> IsSuccess(receipt, StartTicket)
    ensures JudgePhase(phase, receipt) == Compensated ==> IsSuccess(receipt, RestoreTicket)
  {
  }

  lemma WriteKeepsAttested(s: RunState, w: Write, t: RunState, terms: Terms)
    requires Inv(s, terms.policy) && IsAttested(s) && Enabled(s, w, terms) && t == After(s, w, terms)
    ensures IsAttested(t)
  {
    hide Inv, Enabled, After, HasReceipt, IsSuccess, WasConsumed, Grows;
    WhoConfirms(s, w, t, terms);
    WriteIsOnward(s, w, t, terms);
    if HasReceipt(s.ledger, StartTicket) { ReceiptsStay(s.ledger, t.ledger, StartTicket); }
    if HasReceipt(s.ledger, RestoreTicket) { ReceiptsStay(s.ledger, t.ledger, RestoreTicket); }
    if w.AcceptPreparation? {
      ConsumptionIsInLedger(s, w.receipt, t, terms);
      if IsSuccess(w.receipt, StartTicket) { AReceiptIsThere(t.ledger, w.receipt, StartTicket); }
      if IsSuccess(w.receipt, RestoreTicket) { AReceiptIsThere(t.ledger, w.receipt, RestoreTicket); }
    }
  }

  lemma AReceiptIsThere(ledger: seq<Event>, receipt: Receipt, operation: Operation)
    requires WasConsumed(ledger, receipt) && IsSuccess(receipt, operation)
    ensures HasReceipt(ledger, operation)
  {
  }

  lemma ConsumptionIsInLedger(s: RunState, receipt: Receipt, t: RunState, terms: Terms)
    requires Enabled(s, AcceptPreparation(receipt), terms) && t == After(s, AcceptPreparation(receipt), terms)
    ensures WasConsumed(t.ledger, receipt)
  {
    hide WasConsumed, ReceiptPhase, Extend, Round;
    RoundEndsConsumed(s.ledger, receipt, 0.0);
    ConfirmationKeepsLedger(ConsumedState(s, receipt, 0.0), receipt, t);
  }

  /** In every stored state of every run a started ticket is backed by a receipt, and so is a compensation. */
  lemma {:induction false} EveryStateIsAttested(trace: Trace, policy: Policy, i: nat)
    requires IsTrace(trace, policy) && i < |trace.states|
    ensures IsAttested(trace.states[i])
  {
    hide Inv, Enabled, After, IsAttested;
    if i == 0 {
      NothingIsClaimed(trace, policy);
    } else {
      EveryStateIsAttested(trace, policy, i - 1);
      EveryStateKeepsInv(trace, policy, i - 1);
      assert Writes(trace, i - 1, policy);
      WriteKeepsAttested(trace.states[i - 1], trace.writes[i - 1], trace.states[i], Terms(policy, trace.approvals[i - 1]));
    }
  }

  lemma NothingIsClaimed(trace: Trace, policy: Policy)
    requires IsTrace(trace, policy)
    ensures IsAttested(trace.states[0])
  {
    hide Enabled, After;
  }
}
