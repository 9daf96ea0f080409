/** Whether a completion always rests on a push, and exactly what breaks that. */
module MilestoneChain {
  import opened Outcomes
  import opened EffectLedger
  import opened LedgerViews
  import opened RunStates
  import opened Router
  import opened Supervision
  import opened FinalizerWrites
  import opened LinearWrites
  import opened PreparationWrites
  import opened Protocol
  import opened ProtocolInvariant
  import opened ProtocolRuns
  import opened Reachability

  /** A completion, asked for or received, rests on a recorded push. */
  predicate Chained(s: RunState) {
    && (s.doneReceipt.Some? ==> s.pushedSha.Some?)
    && (IsCompletionPending(s) ==> s.pushedSha.Some?)
  }

  /** The whole chain: completion, push, commit, ticket projection, each resting on the next. */
  predicate IsChain(s: RunState, policy: Policy) {
    && (s.doneReceipt.Some? ==> s.pushedSha.Some?)
    && (s.pushedSha.Some? ==> s.commitSha == s.pushedSha)
    && (s.commitSha.Some? ==> s.projection == Some(policy.projection))
    && (s.disposition == Done ==> Complete(s))
  }

  /** A failure that throws the push away while its completion is still pending. Only a resumed run is in that position. */
  predicate Uproots(s: RunState, w: Write) {
    && w.RouteFailed? && s.disposition == Active && RetriedStage(s, w.failure).Some?
    && IsCompletionPending(s)
  }

  /** A completion is received for a run without a push. */
  predicate CompletesUnpushed(s: RunState, w: Write, policy: Policy) {
    && w.Accept? && s.pushedSha == None
    && Judge(s.retryWait, w.receipt.request.operation, w.receipt, policy) == Completed
  }

  /** What one write does to the four facts the chain is made of. */
  datatype Links = Links(done: bool, pushed: bool, waiting: bool)

  function LinksOf(s: RunState): Links {
    Links(s.doneReceipt.Some?, s.pushedSha.Some?, IsCompletionPending(s))
  }

  function NextLinks(s: RunState, w: Write, policy: Policy): Links {
    var links := LinksOf(s);
    match w
    case Record(Push, _, Success, _) => links.(pushed := true)
    case Ask(request) => links.(waiting := request.operation == CompleteTicket)
    case AskToStart(_) => links.(waiting := false)
    case Accept(receipt) =>
      links.(waiting := false,
             done := links.done || Judge(s.retryWait, receipt.request.operation, receipt, policy) == Completed)
    case AcceptPreparation(_) => links.(waiting := false)
    case RouteFailed(failure) =>
      if s.disposition == Active && RetriedStage(s, failure).Some? then Links(false, false, links.waiting) else links
    case _ => links
  }

  lemma WriteLinks(s: RunState, w: Write, t: RunState, terms: Terms)
    requires Enabled(s, w, terms) && t == After(s, w, terms)
    ensures LinksOf(t) == NextLinks(s, w, terms.policy)
  {
    hide Finalizing, StateApproved, IsFresh, Settled, ReObserved, IsReconciled, Attempts, Latest, Word, IntentionOf, IsAwaiting,
      ValidState, AcceptUpdate, ReceiptPhase, ConsumedState, Routed, WithCheckpoint, Restarted, CanStartIteration, Extend, Round,
      SameRecord, Complete, Intended, Recorded, PendingState, BranchIntended, BranchInvoked, BranchBound, BranchFinished,
      RetriedStage, Judge;
    match w
    case Intend(operation, id) => IntendedLinks(s, operation, Ticket, id);
    case IntendReconcile(operation, target, id) => IntendedLinks(s, Reconciling(operation), EffectTarget(target), id);
    case Record(operation, id, outcome, sha) => RecordedLinks(s, operation, id, outcome, sha);
    case Ask(request) => AskedLinks(s, request);
    case AskToStart(request) => AskedLinks(s, request);
    case Accept(receipt) =>
      ConsumedLinks(s, receipt, receipt.retryAfter);
      AcceptedLinks(ConsumedState(s, receipt, receipt.retryAfter), receipt, t, terms.policy);
    case AcceptPreparation(receipt) =>
      ConsumedLinks(s, receipt, 0.0);
      ConfirmedLinks(ConsumedState(s, receipt, 0.0), receipt, t);
    case BranchIntend => BranchLinks(s);
    case BranchInvoke => BranchLinks(s);
    case BranchBind(branchBinding) => BoundLinks(s, branchBinding);
    case BranchFinish(outcome, branch) => BranchEndLinks(s, outcome, branch);
    case RouteFailed(failure) => RoutedLinks(s, failure, t);
    case KeepCheckpoint(c) => CheckpointLinks(s, c);
    case Restart(keep) => RestartLinks(s, keep);
    case _ =>
  }

  lemma IntendedLinks(s: RunState, operation: Operation, target: Target, id: EffectId)
    ensures LinksOf(Intended(s, operation, target, id)) == LinksOf(s)
  {
    hide Extend;
  }

  lemma RecordedLinks(s: RunState, operation: Operation, id: EffectId, outcome: Outcome, sha: Option<string>)
    requires outcome == Success ==> sha.Some? && operation in {Commit, Push}
    ensures LinksOf(Recorded(s, operation, id, outcome, sha)) ==
      if operation == Push && outcome == Success then LinksOf(s).(pushed := true) else LinksOf(s)
  {
    hide Extend, Round;
    var logged := s.(ledger := Extend(s.ledger, id, Round(0.0, outcome, sha, None)));
    assert LinksOf(logged) == LinksOf(s);
  }

  lemma AskedLinks(s: RunState, request: Request)
    ensures LinksOf(PendingState(s, request)) == LinksOf(s).(waiting := request.operation == CompleteTicket)
  {
    hide Extend;
  }

  lemma ConsumedLinks(s: RunState, receipt: Receipt, wait: real)
    ensures LinksOf(ConsumedState(s, receipt, wait)) == LinksOf(s).(waiting := false)
    ensures ConsumedState(s, receipt, wait).retryWait == s.retryWait && ConsumedState(s, receipt, wait).disposition == Active
  {
    hide Extend, Round;
  }

  lemma AcceptedLinks(c: RunState, receipt: Receipt, t: RunState, policy: Policy)
    requires t == AcceptUpdate(c, receipt.request.operation, receipt, policy)
    ensures var verdict := Judge(c.retryWait, receipt.request.operation, receipt, policy);
      LinksOf(t) == LinksOf(c).(done := LinksOf(c).done || verdict == Completed)
  {
    hide AcceptUpdate, Judge, FailedState, LinksOf;
    AcceptanceOf(c, receipt.request.operation, receipt, t, policy);
    FailedLinks(c);
    UpdatedLinks(c, receipt);
  }

  lemma FailedLinks(c: RunState)
    ensures LinksOf(FailedState(c)) == LinksOf(c)
  {
  }

  lemma UpdatedLinks(c: RunState, receipt: Receipt)
    ensures LinksOf(c.(projection := Some(receipt.resultHash))) == LinksOf(c)
    ensures LinksOf(c.(doneReceipt := Some(receipt))) == LinksOf(c).(done := true)
    ensures LinksOf(c.(retryWait := c.retryWait + receipt.retryAfter, nextEligible := Some(receipt.observedAt + receipt.retryAfter))) == LinksOf(c)
  {
  }

  lemma ConfirmedLinks(c: RunState, receipt: Receipt, t: RunState)
    requires t == ReceiptPhase(c, receipt) && c.disposition == Active
    ensures LinksOf(t) == LinksOf(c)
  {
    hide ReceiptPhase, SameRecord;
    ReceiptPhaseShape(c, receipt, t);
    SameRecordFields(c, t);
  }

  lemma BranchLinks(s: RunState)
    ensures LinksOf(BranchIntended(s)) == LinksOf(s) && LinksOf(BranchInvoked(s)) == LinksOf(s)
  {
    hide Extend;
  }

  lemma BoundLinks(s: RunState, branchBinding: BranchBinding)
    ensures LinksOf(BranchBound(s, branchBinding)) == LinksOf(s)
  {
    hide Extend;
  }

  lemma BranchEndLinks(s: RunState, outcome: Outcome, branch: Option<string>)
    ensures LinksOf(BranchFinished(s, outcome, branch)) == LinksOf(s)
  {
    hide Extend;
  }

  lemma RoutedLinks(s: RunState, failure: FailureRecord, t: RunState)
    requires t == Routed(s, failure)
    ensures LinksOf(t) == NextLinks(s, RouteFailed(failure), Policy(0, 0.0, "", "", "", "", ""))
  {
    hide Routed, Invalidated, Without, RetriedStage, NeedsRepair;
    RoutingIsTotal(s, failure);
    if s.disposition == Active && RetriedStage(s, failure).Some? {
      var stage := RetriedStage(s, failure).value;
      ReviewerIsAlwaysInvalidated(stage);
      WithoutClears(s, stage, Invalidated(stage));
      InvalidationShape(s, stage);
    }
  }

  lemma CheckpointLinks(s: RunState, c: Checkpoint)
    ensures LinksOf(WithCheckpoint(s, c)) == LinksOf(s)
  {
    hide LinksOf, Checkpointed, CheckpointedReviewer;
    StageLinks(s, c);
    ReviewLinks(s, c);
  }

  lemma StageLinks(s: RunState, c: Checkpoint)
    ensures LinksOf(Checkpointed(s, c)) == LinksOf(s)
  {
  }

  lemma ReviewLinks(s: RunState, c: Checkpoint)
    ensures LinksOf(CheckpointedReviewer(s, c)) == LinksOf(s)
  {
  }

  lemma RestartLinks(s: RunState, keep: set<Stage>)
    ensures LinksOf(Restarted(s, keep)) == LinksOf(s)
  {
    hide Kept;
  }

  // ----- the exact conditions -----

  /** A write keeps the completion resting on its push if and only if it does not throw the push away under a pending completion. */
  lemma WriteKeepsChained(s: RunState, w: Write, t: RunState, terms: Terms)
    requires Chained(s) && Enabled(s, w, terms) && t == After(s, w, terms)
    ensures Chained(t) <==> !Uproots(s, w)
  {
    hide Inv, After, StateApproved, IsFresh, Settled, ReObserved, IsReconciled, Attempts, Latest, Word, IntentionOf, IsAwaiting,
      ValidState, CanStartIteration, RetriedStage, WithCheckpoint, Judge;
    WriteLinks(s, w, t, terms);
    if w.Accept? {
      CompletedNeedsCompletion(s.retryWait, w.receipt, terms.policy);
    }
  }

  lemma CompletedNeedsCompletion(retryWait: real, receipt: Receipt, policy: Policy)
    ensures Judge(retryWait, receipt.request.operation, receipt, policy) == Completed ==> receipt.request.operation == CompleteTicket
  {
  }

  /** A write breaks an unbroken chain if and only if it receives a completion for a run without a push. */
  lemma WriteBreaksChain(s: RunState, w: Write, t: RunState, terms: Terms)
    requires Inv(s, terms.policy) && IsChain(s, terms.policy) && Enabled(s, w, terms) && t == After(s, w, terms)
    ensures IsChain(t, terms.policy) <==> !CompletesUnpushed(s, w, terms.policy)
  {
    hide Inv, After, StateApproved, IsFresh, Settled, ReObserved, IsReconciled, Attempts, Latest, Word, IntentionOf, IsAwaiting,
      ValidState, CanStartIteration, RetriedStage, WithCheckpoint, Judge;
    WriteLinks(s, w, t, terms);
    WriteKeeps(s, w, terms);
    LowerLinks(t, terms.policy);
  }

  lemma LowerLinks(s: RunState, policy: Policy)
    requires Inv(s, policy)
    ensures IsChain(s, policy) <==> (s.doneReceipt.Some? ==> s.pushedSha.Some?)
  {
    hide ValidState, LedgerStory, PendingStory, BranchStory, Bounded, WaitStory;
  }

  /**
  Over a whole run: every stored state has its completion, asked for or
  received, resting on a push if and only if no failure ever throws the push
  away while a completion is pending.
  */
  lemma RunIsChained(trace: Trace, policy: Policy)
    requires IsTrace(trace, policy)
    ensures (forall i :: 0 <= i < |trace.states| ==> Chained(trace.states[i])) <==>
            (forall i :: 0 <= i < |trace.writes| ==> !Uproots(trace.states[i], trace.writes[i]))
  {
    hide Inv, Enabled, After, Chained, Uproots;
    if forall i :: 0 <= i < |trace.writes| ==> !Uproots(trace.states[i], trace.writes[i]) {
      forall i | 0 <= i < |trace.states| ensures Chained(trace.states[i]) {
        ChainedSoFar(trace, policy, i);
      }
    }
    if forall i :: 0 <= i < |trace.states| ==> Chained(trace.states[i]) {
      forall i | 0 <= i < |trace.writes| ensures !Uproots(trace.states[i], trace.writes[i]) {
        assert Writes(trace, i, policy) && Chained(trace.states[i + 1]);
        WriteKeepsChained(trace.states[i], trace.writes[i], trace.states[i + 1], Terms(policy, trace.approvals[i]));
      }
    }
  }

  lemma {:induction false} ChainedSoFar(trace: Trace, policy: Policy, i: nat)
    requires IsTrace(trace, policy) && i < |trace.states|
    requires forall j :: 0 <= j < i ==> !Uproots(trace.states[j], trace.writes[j])
    ensures Chained(trace.states[i])
  {
    hide Inv, Enabled, After, Chained, Uproots;
    if i == 0 {
      NothingAsked(trace, policy);
    } else {
      ChainedSoFar(trace, policy, i - 1);
      assert Writes(trace, i - 1, policy);
      WriteKeepsChained(trace.states[i - 1], trace.writes[i - 1], trace.states[i], Terms(policy, trace.approvals[i - 1]));
    }
  }

  lemma NothingAsked(trace: Trace, policy: Policy)
    requires IsTrace(trace, policy)
    ensures Chained(trace.states[0])
  {
    hide Enabled, After;
  }

  /** Without such a failure the whole milestone chain stands in every stored state. */
  lemma EveryStateIsAChain(trace: Trace, policy: Policy, i: nat)
    requires IsTrace(trace, policy) && i < |trace.states|
    requires forall j :: 0 <= j < i ==> !Uproots(trace.states[j], trace.writes[j])
    ensures IsChain(trace.states[i], policy)
  {
    hide Inv, Enabled, After, Uproots;
    ChainedSoFar(trace, policy, i);
    EveryStateKeepsInv(trace, policy, i);
    LowerLinks(trace.states[i], policy);
  }

  /** With one, the chain itself still stands until a completion is received before another push. */
  lemma RunIsAChain(trace: Trace, policy: Policy)
    requires IsTrace(trace, policy)
    ensures (forall i :: 0 <= i < |trace.states| ==> IsChain(trace.states[i], policy)) <==>
            (forall i :: 0 <= i < |trace.writes| ==> !CompletesUnpushed(trace.states[i], trace.writes[i], policy))
  {
    hide Inv, Enabled, After, IsChain, CompletesUnpushed;
    if forall i :: 0 <= i < |trace.writes| ==> !CompletesUnpushed(trace.states[i], trace.writes[i], policy) {
      forall i | 0 <= i < |trace.states| ensures IsChain(trace.states[i], policy) {
        AChainSoFar(trace, policy, i);
      }
    }
    if forall i :: 0 <= i < |trace.states| ==> IsChain(trace.states[i], policy) {
      forall i | 0 <= i < |trace.writes| ensures !CompletesUnpushed(trace.states[i], trace.writes[i], policy) {
        EveryStateKeepsInv(trace, policy, i);
        assert Writes(trace, i, policy) && IsChain(trace.states[i + 1], policy);
        WriteBreaksChain(trace.states[i], trace.writes[i], trace.states[i + 1], Terms(policy, trace.approvals[i]));
      }
    }
  }

  lemma {:induction false} AChainSoFar(trace: Trace, policy: Policy, i: nat)
    requires IsTrace(trace, policy) && i < |trace.states|
    requires forall j :: 0 <= j < i ==> !CompletesUnpushed(trace.states[j], trace.writes[j], policy)
    ensures IsChain(trace.states[i], policy)
  {
    hide Inv, Enabled, After, IsChain, CompletesUnpushed;
    EveryStateKeepsInv(trace, policy, i);
    if i == 0 {
      NothingAsked(trace, policy);
      LowerLinksOfChained(trace.states[i], policy);
    } else {
      AChainSoFar(trace, policy, i - 1);
      EveryStateKeepsInv(trace, policy, i - 1);
      assert Writes(trace, i - 1, policy);
      WriteBreaksChain(trace.states[i - 1], trace.writes[i - 1], trace.states[i], Terms(policy, trace.approvals[i - 1]));
    }
  }

  lemma LowerLinksOfChained(s: RunState, policy: Policy)
    requires Inv(s, policy) && Chained(s)
    ensures IsChain(s, policy)
  {
    hide Inv;
    LowerLinks(s, policy);
  }

  // ----- the chain does break -----

  function CompletionRequest(s: RunState): Request {
    Request(0, FreshId(s.ledger), CompleteTicket, Ticket, map[], None, 0)
  }

  function CompletionReceipt(request: Request, policy: Policy): Receipt {
    Receipt(request, Success, None, Some(policy.completedStateId), "", 0.0, 0.0)
  }

  /** A run is prepared, approved, committed, pushed, and asks for its completion. */
  lemma RunUntilCompletion(branchBinding: BranchBinding, sha: string, terms: Terms) returns (t: RunState)
    requires terms.policy.maxInvocations > 0 && terms.policy.totalRetryWait >= 0.0
    ensures RunsTo(Initial(1), t, terms.policy, false) && Inv(t, terms.policy)
    ensures t.disposition == WaitingMcp && IsCompletionPending(t) && t.pushedSha == t.commitSha == Some(sha)
    ensures t.branch == Some(branchBinding.branch) && t.iterationCount == t.maxIterations == 1 && t.grants == []
  {
    hide Inv, RunsTo, StateApproved, Extend, Word, Attempts, IsFresh, PendingState;
    var policy := terms.policy;
    var s := Initial(1);
    InitialInv(1, policy);
    InitialIsUntouched(1);
    var started := StartRun(s, terms);
    RunsAnyway(s, started, policy);
    var branched := BranchRun(started, branchBinding, terms);
    RunsOn(s, started, branched, policy, false);
    SameWorkOn(s, started, branched);
    var approved := ApproveRun(branched, terms);
    RunsAnyway(branched, approved, policy);
    RunsOn(s, branched, approved, policy, false);
    var projected := ProjectRun(approved, terms);
    RunsAnyway(approved, projected, policy);
    RunsOn(s, approved, projected, policy, false);
    var committed := AttemptRun(projected, Commit, sha, terms);
    RunsOn(s, projected, committed, policy, false);
    StillFinalizing(projected, committed, terms);
    var pushed := AttemptRun(committed, Push, sha, terms);
    RunsOn(s, committed, pushed, policy, false);
    StillFinalizing(committed, pushed, terms);
    var request := CompletionRequest(pushed);
    HigherIsFresh(pushed.ledger, Highest(pushed.ledger) + 1);
    t := PendingState(pushed, request);
    AskKeeps(pushed, request, t, policy);
    AskedShape(pushed, request);
    ReachedByWrite(pushed, Ask(request), terms, false);
    RunsOn(s, pushed, t, policy, false);
  }

  lemma InitialIsUntouched(maxIterations: nat)
    ensures var s := Initial(maxIterations);
      && Untouched(s.ledger) && Word(s.ledger, TicketBranch) == [] && Reviewer !in s.checkpoints
  {
  }

  /** The run goes to review, is resumed, loses its push to a product defect, and is approved again: its completion is still pending. */
  lemma RunUntilUprooted(s: RunState, first: Terms, second: Terms) returns (t: RunState)
    requires first.policy == second.policy && Inv(s, first.policy) && s.disposition == WaitingMcp && s.pending.Some?
    requires s.iterationCount == s.maxIterations && s.grants == []
    ensures RunsTo(s, t, first.policy, false) && Inv(t, first.policy)
    ensures t.pending == s.pending && t.pushedSha == None && t.doneReceipt == None && StateApproved(t, second)
  {
    hide Inv, RunsTo, StateApproved, ForReview, After;
    var policy := first.policy;
    var review := ForReview(s);
    ReviewShape(s);
    ReviewKeeps(s, review, policy);
    ReviewWrite(s, first);
    var resumed := review.(disposition := Active, grants := review.grants + [1]);
    ResumeKeeps(review, 1, resumed, policy);
    ResumeWrite(review, first);
    RunsOn(s, review, resumed, policy, false);
    var uprooted := InvalidateRun(resumed, first);
    RunsAnyway(resumed, uprooted, policy);
    RunsOn(s, resumed, uprooted, policy, false);
    GrantedAgain(uprooted);
    t := ApproveRun(uprooted, second);
    RunsAnyway(uprooted, t, policy);
    RunsOn(s, uprooted, t, policy, false);
  }

  lemma ReviewShape(s: RunState)
    ensures var t := ForReview(s);
      && t.disposition == HumanReview && t.pending == s.pending
      && t.iterationCount == s.iterationCount && t.maxIterations == s.maxIterations && t.grants == s.grants
  {
  }

  lemma ReviewWrite(s: RunState, terms: Terms)
    requires s.disposition == WaitingMcp
    ensures RunsTo(s, ForReview(s), terms.policy, false)
  {
    hide RunsTo, ForReview;
    ReachedByWrite(s, PreparationReview, terms, false);
  }

  lemma ResumeWrite(s: RunState, terms: Terms)
    requires s.disposition == HumanReview
    ensures RunsTo(s, s.(disposition := Active, grants := s.grants + [1]), terms.policy, false)
  {
    hide RunsTo;
    ReachedByWrite(s, Resume(1), terms, false);
  }

  lemma GrantedAgain(s: RunState)
    requires s.disposition == Active && !s.iterationOpen && !s.eligible && s.iterationCount == s.maxIterations && s.grants == [1]
    ensures CanStartIteration(s)
  {
    assert s.grants[..0] == [];
  }

  /**
  The chain does break, in a run of nothing but writes that its components and
  the store allow: prepared, approved, committed, pushed, its completion asked
  for; sent to review, resumed, found defective, approved again; and then the
  old receipt arrives. The run holds a completion and neither push nor commit.
  */
  lemma ChainCanBreak(branchBinding: BranchBinding, sha: string, first: Terms, second: Terms) returns (trace: Trace)
    requires first.policy == second.policy && first.policy.maxInvocations > 0 && first.policy.totalRetryWait >= 0.0
    ensures IsTrace(trace, first.policy)
    ensures var last := trace.states[|trace.writes|]; last.doneReceipt.Some? && last.pushedSha == None && !IsChain(last, first.policy)
  {
    hide Inv, RunsTo, StateApproved, AcceptUpdate, ConsumedState;
    var policy := first.policy;
    var waiting := RunUntilCompletion(branchBinding, sha, first);
    var uprooted := RunUntilUprooted(waiting, first, second);
    RunsOn(Initial(1), waiting, uprooted, policy, false);
    var receipt := CompletionReceipt(uprooted.pending.value, policy);
    var broken := AcceptUpdate(ConsumedState(uprooted, receipt, 0.0), CompleteTicket, receipt, policy);
    ReachedByWrite(uprooted, Accept(receipt), second, false);
    RunsOn(Initial(1), uprooted, broken, policy, false);
    CompletedWithoutPush(uprooted, receipt, policy);
    trace := RunAsTrace(1, broken, policy);
  }

  lemma CompletedWithoutPush(s: RunState, receipt: Receipt, policy: Policy)
    requires s.pushedSha == None && receipt.outcome == Success && receipt.observedState == Some(policy.completedStateId)
    ensures var t := AcceptUpdate(ConsumedState(s, receipt, 0.0), CompleteTicket, receipt, policy);
      t.doneReceipt.Some? && t.pushedSha == None
  {
    hide Extend, Round;
  }

  lemma RunAsTrace(maxIterations: nat, t: RunState, policy: Policy) returns (trace: Trace)
    requires RunsTo(Initial(maxIterations), t, policy, false) && policy.totalRetryWait >= 0.0
    ensures IsTrace(trace, policy) && trace.states[|trace.writes|] == t
  {
    hide Enabled, After;
    trace :| Spans(trace, Initial(maxIterations), t, policy, false);
    forall i | 0 <= i < |trace.writes| ensures Writes(trace, i, policy) {
      assert LeadsBy(trace.states[i], trace.writes[i], trace.approvals[i], trace.states[i + 1], policy, false);
    }
  }
}
