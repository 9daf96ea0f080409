/** Runs put together from their parts: how a run is approved, prepared, finalized and invalidated, write by write. */
module Reachability {
  import opened Outcomes
  import opened EffectLedger
  import opened LedgerViews
  import opened RunStates
  import opened Router
  import opened Supervision
  import opened SupervisorRuns
  import opened FinalizerWrites
  import opened LinearWrites
  import opened PreparationWrites
  import opened Protocol
  import opened ProtocolInvariant
  import opened ProtocolRuns

  /** One write of a run; with `elsewhere`, none that announces or records a Git call. */
  ghost predicate LeadsBy(s: RunState, w: Write, approval: Approval, t: RunState, policy: Policy, elsewhere: bool) {
    && Enabled(s, w, Terms(policy, approval))
    && t == After(s, w, Terms(policy, approval))
    && (elsewhere ==> IsElsewhere(w, s))
  }

  ghost predicate IsPart(part: Trace, policy: Policy, elsewhere: bool) {
    && |part.states| == |part.writes| + 1 && |part.approvals| == |part.writes|
    && forall i :: 0 <= i < |part.writes| ==>
         LeadsBy(part.states[i], part.writes[i], part.approvals[i], part.states[i + 1], policy, elsewhere)
  }

  ghost predicate Spans(part: Trace, s: RunState, t: RunState, policy: Policy, elsewhere: bool) {
    IsPart(part, policy, elsewhere) && part.states[0] == s && part.states[|part.writes|] == t
  }

  ghost predicate RunsTo(s: RunState, t: RunState, policy: Policy, elsewhere: bool) {
    exists part :: Spans(part, s, t, policy, elsewhere)
  }

  lemma ReachedByWrite(s: RunState, w: Write, terms: Terms, elsewhere: bool)
    requires Enabled(s, w, terms) && (elsewhere ==> IsElsewhere(w, s))
    ensures RunsTo(s, After(s, w, terms), terms.policy, elsewhere)
  {
    hide Enabled, After;
    var part := Trace([s, After(s, w, terms)], [w], [terms.approval]);
    assert Spans(part, s, After(s, w, terms), terms.policy, elsewhere);
  }

  lemma RunsOn(a: RunState, b: RunState, c: RunState, policy: Policy, elsewhere: bool)
    requires RunsTo(a, b, policy, elsewhere) && RunsTo(b, c, policy, elsewhere)
    ensures RunsTo(a, c, policy, elsewhere)
  {
    hide LeadsBy;
    var x :| Spans(x, a, b, policy, elsewhere);
    var y :| Spans(y, b, c, policy, elsewhere);
    var part := Trace(x.states + y.states[1..], x.writes + y.writes, x.approvals + y.approvals);
    assert Spans(part, a, c, policy, elsewhere);
  }

  lemma RunsAnyway(s: RunState, t: RunState, policy: Policy)
    requires RunsTo(s, t, policy, true)
    ensures RunsTo(s, t, policy, false)
  {
    hide Enabled, After;
    var part :| Spans(part, s, t, policy, true);
    assert Spans(part, s, t, policy, false);
  }

  // ----- approving a run -----

  /** What approving a run, or asking for its projection, leaves alone. */
  predicate SameFinalization(s: RunState, t: RunState) {
    && t.commitSha == s.commitSha && t.pushedSha == s.pushedSha && t.doneReceipt == s.doneReceipt
    && t.phase == s.phase && t.branch == s.branch && t.binding == s.binding
    && t.retryWait == s.retryWait && t.maxIterations == s.maxIterations && t.grants == s.grants
  }

  function Reviewing(s: RunState, approval: Approval): RunState {
    s.(artifacts := s.artifacts.(reviewManifest := Some(approval.reviewManifest)), currentStage := Reviewer)
  }

  function ReviewCheckpoint(approval: Approval): Checkpoint {
    Checkpoint(0, Reviewer, "", map[], approval.reviewResult)
  }

  function Approved(s: RunState, approval: Approval): RunState
    requires CanStartIteration(s)
  {
    CheckpointedReviewer(Reviewing(BeginIteration(s), approval), ReviewCheckpoint(approval))
  }

  lemma ReviewingIsValid(s: RunState, approval: Approval)
    requires ValidState(s) && !s.eligible
    ensures ValidState(Reviewing(s, approval))
  {
    hide ValidLedger, OutputsMatch, PendingMatches;
  }

  lemma ReviewedIsValid(s: RunState, approval: Approval)
    requires ValidState(s) && Reviewer !in s.checkpoints && s.artifacts.reviewManifest == Some(approval.reviewManifest)
    ensures ValidState(CheckpointedReviewer(s, ReviewCheckpoint(approval)))
  {
    hide ValidLedger, OutputsMatch, PendingMatches;
    FirstOutputIsAccepted(s.checkpoints, s.outputs, ReviewCheckpoint(approval));
  }

  lemma ApprovedShape(s: RunState, approval: Approval)
    requires CanStartIteration(s)
    ensures var t := Approved(s, approval);
      && SameFinalization(s, t) && t.disposition == Active && !t.iterationOpen && t.eligible
      && t.ledger == s.ledger && t.pending == s.pending && t.projection == s.projection && t.iterationCount == s.iterationCount + 1
      && t.artifacts.reviewManifest == Some(approval.reviewManifest) && t.artifacts.reviewResult == Some(approval.reviewResult)
      && Reviewer in t.checkpoints && t.checkpoints[Reviewer].output == approval.reviewResult
  {
    hide IterationLimit;
  }

  /** The reviewer's approval of a run, in one iteration. */
  lemma ApproveRun(s: RunState, terms: Terms) returns (t: RunState)
    requires Inv(s, terms.policy) && CanStartIteration(s) && Reviewer !in s.checkpoints
    ensures RunsTo(s, t, terms.policy, true) && Inv(t, terms.policy)
    ensures StateApproved(t, terms) && t.disposition == Active && SameFinalization(s, t)
    ensures t.ledger == s.ledger && t.pending == s.pending && t.projection == s.projection
    ensures t.iterationCount == s.iterationCount + 1
  {
    hide Inv, CanStartIteration, ValidState, BeginIteration, RunsTo, CheckpointedReviewer, Reviewing, SameFinalization;
    var begun := BeginIteration(s);
    var reviewing := Reviewing(begun, terms.approval);
    t := Approved(s, terms.approval);
    ApprovedShape(s, terms.approval);
    BegunShape(s);
    InvIsValid(begun, s, terms);
    ReviewingIsValid(begun, terms.approval);
    ReviewingShape(begun, terms.approval);
    ReviewedIsValid(reviewing, terms.approval);
    ReachedByWrite(s, Begin, terms, true);
    BindKeeps(begun, reviewing.artifacts, Reviewer, reviewing, terms.policy);
    ReachedByWrite(begun, BindArtifacts(reviewing.artifacts, Reviewer), terms, true);
    RunsOn(s, begun, reviewing, terms.policy, true);
    CheckpointKeeps(reviewing, ReviewCheckpoint(terms.approval), t, terms.policy);
    ReachedByWrite(reviewing, KeepCheckpoint(ReviewCheckpoint(terms.approval)), terms, true);
    RunsOn(s, reviewing, t, terms.policy, true);
  }

  lemma BegunShape(s: RunState)
    requires CanStartIteration(s)
    ensures s.disposition == Active && !s.eligible
    ensures var t := BeginIteration(s); t.disposition == Active && t.iterationOpen && !t.eligible && t.checkpoints == s.checkpoints
  {
    hide IterationLimit;
  }

  lemma ReviewingShape(s: RunState, approval: Approval)
    ensures var t := Reviewing(s, approval);
      && t == s.(artifacts := t.artifacts, currentStage := Reviewer)
      && t.disposition == s.disposition && t.iterationOpen == s.iterationOpen && t.checkpoints == s.checkpoints
      && t.currentStage == Reviewer && t.artifacts.reviewManifest == Some(approval.reviewManifest)
  {
  }

  lemma InvIsValid(begun: RunState, s: RunState, terms: Terms)
    requires Inv(s, terms.policy) && CanStartIteration(s) && begun == BeginIteration(s)
    ensures Inv(begun, terms.policy) && ValidState(begun)
  {
    hide ValidState, LedgerStory, PendingStory, BranchStory, Milestones, Bounded, WaitStory, CanStartIteration, BeginIteration;
    BeginKeeps(s, begun, terms.policy);
  }

  // ----- asking for the ticket's projection -----

  /** The attempts of commit and push, and how far they are settled, read the same. */
  ghost predicate SameAttempts(before: seq<Event>, after: seq<Event>) {
    && (forall operation :: operation != QueryProjection ==>
          Attempts(after, operation) == Attempts(before, operation) && Latest(after, operation) == Latest(before, operation))
    && (forall operation :: operation in {Commit, Push} ==>
          (Settled(after, operation, Reconciling(operation)) <==> Settled(before, operation, Reconciling(operation))))
    && (forall id :: IntentionOf(before, id).Some? ==> IntentionOf(after, id) == IntentionOf(before, id) && Word(after, id) == Word(before, id))
  }

  /** A bridge effect from its intention to its reconciliation does not touch them. */
  lemma BridgeEffectIsApart(before: seq<Event>, middle: seq<Event>, after: seq<Event>, id: EffectId, intention: Payload)
    requires LedgerStory(before) && IsFresh(before, id)
    requires intention.Intention? && intention.operation == QueryProjection
    requires forall other :: IntentionOf(middle, other) == if other == id then Some(intention) else IntentionOf(before, other)
    requires forall operation :: operation != QueryProjection ==>
      Attempts(middle, operation) == Attempts(before, operation) && Latest(middle, operation) == Latest(before, operation)
    requires WordsExtended(before, middle, id, [I]) && WordsExtended(middle, after, id, [V, O, R]) && SameIntentions(middle, after)
    ensures SameAttempts(before, after)
  {
    hide Word, IntentionOf, Attempts, LedgerStory;
    assert IntentionOf(before, id) == None by { FreshHasNoIntention(before, id); }
    forall operation: Operation | operation in {Commit, Push}
      ensures Settled(after, operation, Reconciling(operation)) <==> Settled(before, operation, Reconciling(operation))
    {
      if Latest(before, operation).Some? {
        var latest := Latest(before, operation).value;
        LatestIsApart(before, operation, id);
        ReObservedApart(before, after, id, intention, Reconciling(operation), latest);
      }
    }
  }

  lemma FreshHasNoIntention(ledger: seq<Event>, id: EffectId)
    requires LedgerStory(ledger) && IsFresh(ledger, id)
    ensures IntentionOf(ledger, id) == None
  {
    IntentionIffWord(ledger, id);
  }

  lemma {:induction false} LatestIsApart(ledger: seq<Event>, operation: Operation, id: EffectId)
    requires Word(ledger, id) == [] && Latest(ledger, operation).Some?
    ensures Latest(ledger, operation).value != id
  {
    if ledger != [] {
      var shorter, last := ledger[..|ledger| - 1], ledger[|ledger| - 1];
      if !(last.payload.Intention? && last.payload.operation == operation) {
        assert Word(shorter, id) == [];
        LatestIsApart(shorter, operation, id);
      }
    }
  }

  lemma ReObservedApart(before: seq<Event>, after: seq<Event>, id: EffectId, intention: Payload, operation: Operation, target: EffectId)
    requires intention.Intention? && intention.operation != operation && IntentionOf(before, id) == None
    requires forall other :: IntentionOf(after, other) == if other == id then Some(intention) else IntentionOf(before, other)
    requires forall other :: other != id ==> Word(after, other) == Word(before, other)
    ensures ReObserved(after, operation, target) <==> ReObserved(before, operation, target)
  {
    hide Word, IntentionOf;
    if ReObserved(after, operation, target) {
      var other :| IntentionOf(after, other).Some? && IntentionOf(after, other).value.operation == operation
        && IntentionOf(after, other).value.target == EffectTarget(target) && IsReconciled(after, other);
      assert other != id && IntentionOf(before, other).Some?;
    }
    if ReObserved(before, operation, target) {
      var other :| IntentionOf(before, other).Some? && IntentionOf(before, other).value.operation == operation
        && IntentionOf(before, other).value.target == EffectTarget(target) && IsReconciled(before, other);
      assert other != id && IntentionOf(after, other).Some?;
    }
  }

  function ProjectionRequest(s: RunState, policy: Policy): Request {
    Request(0, FreshId(s.ledger), QueryProjection, Ticket, map[], Some(policy.externalRevision), 0)
  }

  function ProjectionReceipt(request: Request, policy: Policy): Receipt {
    Receipt(request, Success, Some(policy.externalRevision), Some(policy.stateId), policy.projection, 0.0, 0.0)
  }

  /** Linear is asked for the ticket's projection and answers with the one the run started from. */
  lemma ProjectRun(s: RunState, terms: Terms) returns (t: RunState)
    requires Inv(s, terms.policy) && s.disposition == Active && StateApproved(s, terms) && s.pending == None && s.projection == None
    ensures RunsTo(s, t, terms.policy, true) && Inv(t, terms.policy)
    ensures Finalizing(t, terms) && SameFinalization(s, t) && SameReview(s, t) && t.pending == None
    ensures SameAttempts(s.ledger, t.ledger)
  {
    hide Inv, StateApproved, RunsTo, IsFresh, SameFinalization, PendingState, ConsumedState, AcceptUpdate, SameAttempts;
    var policy := terms.policy;
    var request := ProjectionRequest(s, policy);
    var receipt := ProjectionReceipt(request, policy);
    HigherIsFresh(s.ledger, Highest(s.ledger) + 1);
    var asked := PendingState(s, request);
    AskedShape(s, request);
    StillApproved(s, asked, terms);
    AskKeeps(s, request, asked, policy);
    ReachedByWrite(s, Ask(request), terms, true);
    var consumed := ConsumedState(asked, receipt, 0.0);
    t := AcceptUpdate(consumed, QueryProjection, receipt, policy);
    AcceptKeeps(asked, receipt, consumed, t, policy);
    ReachedByWrite(asked, Accept(receipt), terms, true);
    RunsOn(s, asked, t, policy, true);
    AnsweredShape(asked, receipt);
    ProjectedShape(consumed, receipt, policy);
    StillApproved(asked, consumed, terms);
    StillApproved(consumed, t, terms);
    SameOn(s, asked, consumed, t);
    ProjectionIsApart(s, request, receipt, policy);
  }

  predicate SameReview(s: RunState, t: RunState) {
    && t.eligible == s.eligible && t.iterationOpen == s.iterationOpen
    && t.artifacts == s.artifacts && t.checkpoints == s.checkpoints && t.iterationCount == s.iterationCount
  }

  lemma StillApproved(s: RunState, t: RunState, terms: Terms)
    requires SameReview(s, t)
    ensures StateApproved(s, terms) ==> StateApproved(t, terms)
  {
  }

  lemma SameOn(a: RunState, b: RunState, c: RunState, d: RunState)
    requires SameFinalization(a, b) && SameFinalization(b, c) && SameFinalization(c, d)
    ensures SameFinalization(a, d)
  {
  }

  lemma AskedShape(s: RunState, request: Request)
    ensures var t := PendingState(s, request);
      && SameReview(s, t) && SameFinalization(s, t) && t.pending == Some(request) && t.disposition == WaitingMcp
      && t.projection == s.projection
      && t.ledger == Extend(s.ledger, request.effect, [Intention(request.operation, request.target, BridgeHash(request))])
  {
    hide Extend;
  }

  lemma AnsweredShape(s: RunState, receipt: Receipt)
    ensures var t := ConsumedState(s, receipt, 0.0);
      && SameReview(s, t) && SameFinalization(s, t) && t.pending == None && t.disposition == Active
      && t.ledger == Extend(s.ledger, receipt.request.effect,
                            Round(0.0, receipt.outcome, receipt.externalRevision, Some(receipt)))
  {
    hide Extend, Round;
  }

  lemma ProjectedShape(c: RunState, receipt: Receipt, policy: Policy)
    requires receipt == ProjectionReceipt(receipt.request, policy)
    ensures var t := AcceptUpdate(c, QueryProjection, receipt, policy);
      && SameReview(c, t) && SameFinalization(c, t) && t.pending == c.pending && t.disposition == c.disposition
      && t.ledger == c.ledger && t.projection == Some(policy.projection)
  {
    hide FailedState;
  }

  lemma ProjectionIsApart(s: RunState, request: Request, receipt: Receipt, policy: Policy)
    requires Inv(s, policy) && IsFresh(s.ledger, request.effect) && request.operation == QueryProjection && request.target == Ticket
    requires receipt.request == request
    ensures var asked := PendingState(s, request);
      SameAttempts(s.ledger, ConsumedState(asked, receipt, 0.0).ledger)
  {
    hide Inv, PendingState, ConsumedState, LedgerStory, IsFresh, SameAttempts, Extend, Round, IntentionOf, Word, Attempts, Latest, LedgerWait;
    var intention := Intention(request.operation, request.target, BridgeHash(request));
    var asked := PendingState(s, request);
    LedgerStoryOf(s, policy);
    AskedShape(s, request);
    AnsweredShape(asked, receipt);
    IntentionStory(s.ledger, request.effect, intention);
    IntendViews(s.ledger, request.effect, intention);
    FreshWord(s.ledger, request.effect);
    assert [] + [I] == [I];
    RoundStory(asked.ledger, request.effect, 0.0, receipt.outcome, receipt.externalRevision, Some(receipt));
    BridgeEffectIsApart(s.ledger, asked.ledger, ConsumedState(asked, receipt, 0.0).ledger, request.effect, intention);
  }

  lemma FreshWord(ledger: seq<Event>, id: EffectId)
    requires IsFresh(ledger, id)
    ensures id.Uuid? && Word(ledger, id) == []
  {
  }

  // ----- preparing the branch -----

  /** No effect of the finalization has been announced. */
  ghost predicate Untouched(ledger: seq<Event>) {
    forall operation :: operation in {Commit, Push, CompleteTicket} ==>
      Attempts(ledger, operation) == 0 && Latest(ledger, operation) == None
  }

  lemma UntouchedStays(ledger: seq<Event>, effect: EffectId, payloads: seq<Payload>)
    requires Untouched(ledger)
    requires (|payloads| == 1 && payloads[0].Intention? && payloads[0].operation !in {Commit, Push, CompleteTicket})
          || (forall payload <- payloads :: !payload.Intention?)
    ensures Untouched(Extend(ledger, effect, payloads))
  {
    hide Extend, Attempts, Latest, IntentionOf, LedgerWait;
    if |payloads| == 1 && payloads[0].Intention? {
      assert payloads == [payloads[0]];
      IntendViews(ledger, effect, payloads[0]);
    } else {
      FollowViews(ledger, effect, payloads);
    }
  }

  /** What the preparation leaves alone. */
  predicate SameWork(s: RunState, t: RunState) {
    && SameReview(s, t)
    && t.projection == s.projection && t.commitSha == s.commitSha && t.pushedSha == s.pushedSha && t.doneReceipt == s.doneReceipt
    && t.iterationCount == s.iterationCount && t.maxIterations == s.maxIterations && t.grants == s.grants
  }

  lemma StartShape(s: RunState, request: Request)
    ensures var t := StartRequested(PendingState(s, request));
      && SameWork(s, t) && t.pending == Some(request) && t.phase == InProgressRequested
      && t.ledger == Extend(s.ledger, request.effect, [Intention(request.operation, request.target, BridgeHash(request))])
  {
    hide Extend;
    var asked := PendingState(s, request);
    assert SameWork(s, asked);
  }

  lemma ConfirmShape(s: RunState, receipt: Receipt)
    requires s.phase == InProgressRequested
    requires receipt.request.operation == StartTicket && receipt.request.target == Ticket && receipt.outcome == Success
    ensures var t := ReceiptPhase(ConsumedState(s, receipt, 0.0), receipt);
      && SameWork(s, t) && t.pending == None && t.phase == InProgressConfirmed && t.disposition == Active
      && t.ledger == Extend(s.ledger, receipt.request.effect,
                            Round(0.0, receipt.outcome, receipt.externalRevision, Some(receipt)))
  {
    hide Extend, Round;
    var c := ConsumedState(s, receipt, 0.0);
    assert SameWork(s, c) && c.phase == InProgressRequested;
  }

  lemma BranchShape(s: RunState, branchBinding: BranchBinding)
    ensures forall t :: t in {BranchIntended(s), BranchInvoked(s), BranchBound(s, branchBinding)} ==>
      SameWork(s, t) && t.pending == s.pending && t.disposition == s.disposition && t.phase == s.phase
    ensures BranchIntended(s).binding == s.binding && BranchInvoked(s).binding == s.binding
    ensures BranchBound(s, branchBinding).binding == Some(branchBinding)
  {
    hide Extend;
  }

  lemma FinishShape(s: RunState, branch: string)
    ensures var t := BranchFinished(s, Success, Some(branch));
      SameWork(s, t) && t.pending == s.pending && t.disposition == s.disposition && t.phase == BranchCreated && t.branch == Some(branch)
    ensures BranchFinished(s, Success, Some(branch)).ledger ==
      Extend(s.ledger, TicketBranch, [Observation(Success, None, None), Reconciliation(Success, None)])
  {
    hide Extend;
  }

  lemma SameWorkOn(a: RunState, b: RunState, c: RunState)
    requires SameWork(a, b) && SameWork(b, c)
    ensures SameWork(a, c)
  {
  }

  /** The ticket is started. */
  lemma StartRun(s: RunState, terms: Terms) returns (t: RunState)
    requires Inv(s, terms.policy) && s.disposition == Active && s.phase == Selected && s.pending == None && Untouched(s.ledger)
    ensures RunsTo(s, t, terms.policy, true) && Inv(t, terms.policy)
    ensures SameWork(s, t) && t.phase == InProgressConfirmed && t.disposition == Active && t.pending == None
    ensures Untouched(t.ledger) && Word(t.ledger, TicketBranch) == []
  {
    hide Inv, RunsTo, IsFresh, SameWork, PendingState, StartRequested, ConsumedState, ReceiptPhase, Untouched, Extend, Word;
    var policy := terms.policy;
    var request := Request(0, FreshId(s.ledger), StartTicket, Ticket, map[], None, 0);
    var receipt := Receipt(request, Success, None, None, "", 0.0, 0.0);
    HigherIsFresh(s.ledger, Highest(s.ledger) + 1);
    var asked := StartRequested(PendingState(s, request));
    StartShape(s, request);
    AskKeeps(s, request, asked, policy);
    ReachedByWrite(s, AskToStart(request), terms, true);
    UntouchedStays(s.ledger, request.effect, [Intention(StartTicket, Ticket, BridgeHash(request))]);
    var consumed := ConsumedState(asked, receipt, 0.0);
    t := ReceiptPhase(consumed, receipt);
    ConfirmShape(asked, receipt);
    AcceptPreparationKeeps(asked, receipt, consumed, t, policy);
    ReachedByWrite(asked, AcceptPreparation(receipt), terms, true);
    RunsOn(s, asked, t, policy, true);
    UntouchedStays(asked.ledger, request.effect, Round(0.0, Success, None, Some(receipt)));
    SameWorkOn(s, asked, t);
    NoBranchYet(asked, receipt, policy);
    ConfirmationKeepsLedger(consumed, receipt, t);
  }

  lemma NoBranchYet(s: RunState, receipt: Receipt, policy: Policy)
    requires Inv(s, policy) && s.phase == InProgressRequested && s.pending == Some(receipt.request)
    ensures Word(ConsumedState(s, receipt, 0.0).ledger, TicketBranch) == []
  {
    hide ValidState, LedgerStory, BranchStory, Milestones, Bounded, WaitStory, Word, ConsumedState;
    ConsumeStory(s, receipt, 0.0, policy);
  }

  /** The branch is bound and created. */
  lemma BranchRun(s: RunState, branchBinding: BranchBinding, terms: Terms) returns (t: RunState)
    requires Inv(s, terms.policy) && s.phase == InProgressConfirmed && s.disposition == Active && s.pending == None
    requires Untouched(s.ledger) && Word(s.ledger, TicketBranch) == []
    ensures RunsTo(s, t, terms.policy, false) && Inv(t, terms.policy)
    ensures SameWork(s, t) && t.phase == BranchCreated && t.disposition == Active && t.pending == None
    ensures t.branch == Some(branchBinding.branch) && Untouched(t.ledger)
  {
    hide Inv, RunsTo, SameWork, Untouched, Extend, Word, IntentionOf, IsAwaiting, BranchIntended, BranchInvoked, BranchBound, BranchFinished, LedgerStory;
    var policy := terms.policy;
    InvLedger(s, policy);
    IntentionIffWord(s.ledger, TicketBranch);
    var intended := BranchIntended(s);
    BranchShape(s, branchBinding);
    BranchIntendKeeps(s, intended, policy);
    ReachedByWrite(s, BranchIntend, terms, false);
    Announced(s);
    var invoked := BranchInvoked(intended);
    NotAwaiting(intended, policy);
    BranchShape(intended, branchBinding);
    Unbound(intended, policy);
    BranchInvokeKeeps(intended, invoked, policy);
    ReachedByWrite(intended, BranchInvoke, terms, false);
    RunsOn(s, intended, invoked, policy, false);
    Invoked(intended);
    var bound := BranchBound(invoked, branchBinding);
    Awaiting(invoked);
    BranchShape(invoked, branchBinding);
    BranchBindKeeps(invoked, branchBinding, bound, policy);
    ReachedByWrite(invoked, BranchBind(branchBinding), terms, false);
    RunsOn(s, invoked, bound, policy, false);
    Bound(invoked, branchBinding);
    SameWorkOn(s, intended, invoked);
    SameWorkOn(s, invoked, bound);
    t := CreateRun(bound, branchBinding, terms);
    RunsOn(s, bound, t, policy, false);
    SameWorkOn(s, bound, t);
  }

  lemma CreateRun(s: RunState, branchBinding: BranchBinding, terms: Terms) returns (t: RunState)
    requires Inv(s, terms.policy) && s.phase == InProgressConfirmed && s.disposition == Active && s.pending == None
    requires Untouched(s.ledger) && Word(s.ledger, TicketBranch) == [I, V, O] && s.binding == Some(branchBinding)
    ensures RunsTo(s, t, terms.policy, false) && Inv(t, terms.policy)
    ensures SameWork(s, t) && t.phase == BranchCreated && t.disposition == Active && t.pending == None
    ensures t.branch == Some(branchBinding.branch) && Untouched(t.ledger)
  {
    hide Inv, RunsTo, SameWork, Untouched, Extend, Word, IntentionOf, IsAwaiting, BranchIntended, BranchInvoked, BranchBound, BranchFinished;
    var policy := terms.policy;
    var invoked := BranchInvoked(s);
    NotAwaiting(s, policy);
    BranchShape(s, branchBinding);
    BranchInvokeKeeps(s, invoked, policy);
    ReachedByWrite(s, BranchInvoke, terms, false);
    Invoked(s);
    Awaiting(invoked);
    t := BranchFinished(invoked, Success, Some(branchBinding.branch));
    FinishShape(invoked, branchBinding.branch);
    BranchFinishKeeps(invoked, Success, Some(branchBinding.branch), t, policy);
    ReachedByWrite(invoked, BranchFinish(Success, Some(branchBinding.branch)), terms, false);
    RunsOn(s, invoked, t, policy, false);
    UntouchedStays(invoked.ledger, TicketBranch, [Observation(Success, None, None), Reconciliation(Success, None)]);
    SameWorkOn(s, invoked, t);
  }

  lemma InvLedger(s: RunState, policy: Policy)
    requires Inv(s, policy)
    ensures LedgerStory(s.ledger) && ValidLedger(s.ledger)
  {
    hide ValidState, PendingStory, BranchStory, Milestones, Bounded, WaitStory;
  }

  lemma Announced(s: RunState)
    requires Untouched(s.ledger)
    ensures Untouched(BranchIntended(s).ledger)
  {
    hide Untouched, Extend;
    UntouchedStays(s.ledger, TicketBranch, [BRANCH_INTENTION]);
  }

  lemma Invoked(s: RunState)
    requires Untouched(s.ledger)
    ensures Untouched(BranchInvoked(s).ledger)
  {
    hide Untouched, Extend;
    UntouchedStays(s.ledger, TicketBranch, [Invocation(0.0)]);
  }

  lemma Bound(s: RunState, branchBinding: BranchBinding)
    requires Untouched(s.ledger)
    ensures Untouched(BranchBound(s, branchBinding).ledger)
  {
    hide Untouched, Extend;
    UntouchedStays(s.ledger, TicketBranch, [Observation(Success, None, None)]);
  }

  lemma NotAwaiting(s: RunState, policy: Policy)
    requires Inv(s, policy) && Word(s.ledger, TicketBranch) in {[I], [I, V, O]}
    ensures !IsAwaiting(s.ledger) && IntentionOf(s.ledger, TicketBranch).Some?
  {
    hide Inv, Word, IntentionOf;
    InvLedger(s, policy);
    IntentionIffWord(s.ledger, TicketBranch);
  }

  lemma Awaiting(s: RunState)
    requires Word(s.ledger, TicketBranch) in {[I, V], [I, V, O, V]}
    ensures IsAwaiting(s.ledger)
  {
    hide Word;
  }

  lemma Unbound(s: RunState, policy: Policy)
    requires Inv(s, policy) && Word(s.ledger, TicketBranch) == [I]
    ensures s.binding == None
  {
    hide ValidState, LedgerStory, PendingStory, Milestones, Bounded, WaitStory, Word;
  }

  // ----- committing and pushing -----

  /** What an attempt of a commit or push leaves alone. */
  predicate SameRun(s: RunState, t: RunState) {
    && SameReview(s, t)
    && t.disposition == s.disposition && t.pending == s.pending && t.projection == s.projection && t.doneReceipt == s.doneReceipt
    && t.phase == s.phase && t.branch == s.branch
    && t.iterationCount == s.iterationCount && t.maxIterations == s.maxIterations && t.grants == s.grants
  }

  lemma IntendedShape(s: RunState, operation: Operation, target: Target, id: EffectId)
    ensures var t := Intended(s, operation, target, id);
      && SameRun(s, t) && t.commitSha == s.commitSha && t.pushedSha == s.pushedSha
      && t.ledger == Extend(s.ledger, id, [Intention(operation, target, LocalHash(id, operation, target))])
  {
    hide Extend;
  }

  lemma SucceededShape(s: RunState, operation: Operation, id: EffectId, sha: string)
    requires operation in {Commit, Push}
    ensures var t := Recorded(s, operation, id, Success, Some(sha));
      && SameRun(s, t)
      && (if operation == Commit then t.commitSha == Some(sha) && t.pushedSha == s.pushedSha
          else t.commitSha == s.commitSha && t.pushedSha == Some(sha))
      && t.ledger == Extend(s.ledger, id, Round(0.0, Success, Some(sha), None))
  {
    hide Extend, Round;
    var logged := s.(ledger := Extend(s.ledger, id, Round(0.0, Success, Some(sha), None)));
    assert SameRun(s, logged) && logged.commitSha == s.commitSha && logged.pushedSha == s.pushedSha;
  }

  lemma SameRunOn(a: RunState, b: RunState, c: RunState)
    requires SameRun(a, b) && SameRun(b, c)
    ensures SameRun(a, c)
  {
  }

  lemma StillFinalizing(s: RunState, t: RunState, terms: Terms)
    requires SameRun(s, t)
    ensures Finalizing(s, terms) ==> Finalizing(t, terms)
  {
  }

  /** A first commit or push is announced, made and recorded. */
  lemma AttemptRun(s: RunState, operation: Operation, sha: string, terms: Terms) returns (t: RunState)
    requires Inv(s, terms.policy) && Finalizing(s, terms) && operation in {Commit, Push} && Wants(s, operation)
    requires Latest(s.ledger, operation) == None && Attempts(s.ledger, operation) < terms.policy.maxInvocations
    requires operation == Push ==> s.commitSha == Some(sha)
    ensures RunsTo(s, t, terms.policy, false) && Inv(t, terms.policy) && SameRun(s, t)
    ensures if operation == Commit then t.commitSha == Some(sha) && t.pushedSha == s.pushedSha
            else t.commitSha == s.commitSha && t.pushedSha == Some(sha)
    ensures forall other :: other != operation ==>
      Attempts(t.ledger, other) == Attempts(s.ledger, other) && Latest(t.ledger, other) == Latest(s.ledger, other)
  {
    hide Inv, Finalizing, RunsTo, IsFresh, SameRun, Intended, Recorded, Extend, Round, Word, IntentionOf, Attempts, LedgerStory, IsReconciled, ReObserved, LedgerWait;
    var policy := terms.policy;
    var id := FreshId(s.ledger);
    var intention := Intention(operation, Ticket, LocalHash(id, operation, Ticket));
    HigherIsFresh(s.ledger, Highest(s.ledger) + 1);
    InvLedger(s, policy);
    FinalizingIsActive(s, terms);
    var intended := Intended(s, operation, Ticket, id);
    IntendedShape(s, operation, Ticket, id);
    IntendKeeps(s, operation, Ticket, id, policy);
    ReachedByWrite(s, Intend(operation, id), terms, false);
    IntentionStory(s.ledger, id, intention);
    IntendViews(s.ledger, id, intention);
    FreshWord(s.ledger, id);
    assert [] + [I] == [I];
    StillFinalizing(s, intended, terms);
    FinalizingIsActive(intended, terms);
    t := Recorded(intended, operation, id, Success, Some(sha));
    SucceededShape(intended, operation, id, sha);
    RecordKeeps(intended, operation, id, Success, Some(sha), t, policy);
    ReachedByWrite(intended, Record(operation, id, Success, Some(sha)), terms, false);
    RunsOn(s, intended, t, policy, false);
    RoundStory(intended.ledger, id, 0.0, Success, Some(sha), None);
    SameRunOn(s, intended, t);
  }

  lemma FinalizingIsActive(s: RunState, terms: Terms)
    requires Finalizing(s, terms)
    ensures s.disposition == Active && s.projection.Some? && StateApproved(s, terms)
  {
  }

  // ----- invalidating a run -----

  /** A product defect that a person or a later check reports. */
  const PRODUCT_DEFECT := FailureRecord(ProductDefect, Review, ImplementationMismatch, Some(Programmer), [], [])

  /** The defect throws away review and milestones; ledger, pending request and budget stay. */
  lemma InvalidateRun(s: RunState, terms: Terms) returns (t: RunState)
    requires Inv(s, terms.policy) && s.disposition == Active
    ensures Enabled(s, RouteFailed(PRODUCT_DEFECT), terms) && t == After(s, RouteFailed(PRODUCT_DEFECT), terms)
    ensures RetriedStage(s, PRODUCT_DEFECT).Some?
    ensures RunsTo(s, t, terms.policy, true) && Inv(t, terms.policy)
    ensures t.disposition == Active && !t.iterationOpen && !t.eligible && Reviewer !in t.checkpoints
    ensures t.projection == None && t.commitSha == None && t.pushedSha == None && t.doneReceipt == None
    ensures t.ledger == s.ledger && t.pending == s.pending && t.branch == s.branch
    ensures t.iterationCount == s.iterationCount && t.maxIterations == s.maxIterations && t.grants == s.grants
  {
    hide Inv, Routed, RunsTo, Invalidated, Without;
    t := Routed(s, PRODUCT_DEFECT);
    RouteKeeps(s, PRODUCT_DEFECT, t, terms.policy);
    ReachedByWrite(s, RouteFailed(PRODUCT_DEFECT), terms, true);
    RoutingIsTotal(s, PRODUCT_DEFECT);
    ReviewerIsAlwaysInvalidated(Programmer);
    InvalidationShape(s, Programmer);
    WithoutClears(s, Programmer, Invalidated(Programmer));
    WithoutReview(s, Programmer, Invalidated(Programmer));
  }

  lemma WithoutReview(s: RunState, owner: Stage, invalid: set<Stage>)
    requires Reviewer in invalid
    ensures !Without(s, owner, invalid).eligible && Reviewer !in Without(s, owner, invalid).checkpoints
  {
    hide Kept, ClearArtifacts;
  }
}
