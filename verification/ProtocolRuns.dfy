/** What the invariant gives for whole runs of writes, of any length and in any order. */
module ProtocolRuns {
  import opened Outcomes
  import opened EffectLedger
  import opened LedgerViews
  import opened RunStates
  import opened Stores
  import opened Router
  import opened Supervision
  import opened FinalizerWrites
  import opened LinearWrites
  import opened PreparationWrites
  import opened Protocol
  import opened ProtocolInvariant

  /**
  The stored states of one run, with the write that led from each to the next
  and the approval its component worked under. The approvals may all differ: a
  run that was invalidated is normally approved again under another review.
  */
  datatype Trace = Trace(states: seq<RunState>, writes: seq<Write>, approvals: seq<Approval>)

  ghost predicate IsTrace(trace: Trace, policy: Policy) {
    && policy.totalRetryWait >= 0.0
    && |trace.states| == |trace.writes| + 1 && |trace.approvals| == |trace.writes|
    && (exists maxIterations: nat :: trace.states[0] == Initial(maxIterations))
    && forall i :: 0 <= i < |trace.writes| ==> Writes(trace, i, policy)
  }

  ghost predicate Writes(trace: Trace, i: nat, policy: Policy)
    requires i < |trace.writes| && |trace.states| == |trace.writes| + 1 && |trace.approvals| == |trace.writes|
  {
    var terms := Terms(policy, trace.approvals[i]);
    && Enabled(trace.states[i], trace.writes[i], terms)
    && trace.states[i + 1] == After(trace.states[i], trace.writes[i], terms)
  }

  /** Every stored state of every run keeps the invariant. */
  lemma {:induction false} EveryStateKeepsInv(trace: Trace, policy: Policy, i: nat)
    requires IsTrace(trace, policy) && i < |trace.states|
    ensures Inv(trace.states[i], policy)
  {
    hide Inv, Enabled, After;
    if i == 0 {
      var maxIterations: nat :| trace.states[0] == Initial(maxIterations);
      InitialInv(maxIterations, policy);
    } else {
      EveryStateKeepsInv(trace, policy, i - 1);
      assert Writes(trace, i - 1, policy);
      WriteKeeps(trace.states[i - 1], trace.writes[i - 1], Terms(policy, trace.approvals[i - 1]));
    }
  }

  // ----- what every reachable state says -----

  /** Only the branch effect is ever left invoked and unobserved between two writes. */
  lemma OnlyTheBranchAwaits(s: RunState, policy: Policy, effect: EffectId)
    requires Inv(s, policy)
    ensures PhaseOf(s.ledger, effect) == Some(AwaitingObservation) ==> effect == TicketBranch && s.phase == InProgressConfirmed
    ensures s.pending.Some? ==> PhaseOf(s.ledger, s.pending.value.effect) == Some(Ready)
  {
    hide Word, ValidState, Extend, IntentionOf;
    WordPhases();
    if s.pending.Some? {
      assert Word(s.ledger, s.pending.value.effect) == [I];
    }
    if effect.Uuid? {
      assert QuietWord(Word(s.ledger, effect));
    }
  }

  lemma WordPhases()
    ensures RunFrom(None, []) == Ok(None)
    ensures RunFrom(None, [I]) == Ok(Some(Ready))
    ensures RunFrom(None, [I, V]) == Ok(Some(AwaitingObservation))
    ensures RunFrom(None, [I, V, O]) == Ok(Some(Ready))
    ensures RunFrom(None, [I, V, O, R]) == Ok(Some(Reconciled))
    ensures RunFrom(None, [I, V, O, V]) == Ok(Some(AwaitingObservation))
    ensures RunFrom(None, [I, V, O, V, O, R]) == Ok(Some(Reconciled))
  {
    RunFromSnoc(None, [], I);
    assert [] + [I] == [I];
    RunFromSnoc(None, [I], V);
    assert [I] + [V] == [I, V];
    RunFromSnoc(None, [I, V], O);
    assert [I, V] + [O] == [I, V, O];
    RunFromSnoc(None, [I, V, O], R);
    assert [I, V, O] + [R] == [I, V, O, R];
    RunFromSnoc(None, [I, V, O], V);
    assert [I, V, O] + [V] == [I, V, O, V];
    RunFromSnoc(None, [I, V, O, V], O);
    assert [I, V, O, V] + [O] == [I, V, O, V, O];
    RunFromSnoc(None, [I, V, O, V, O], R);
    assert [I, V, O, V, O] + [R] == [I, V, O, V, O, R];
  }

  /** The preparation has an outcome exactly when the branch effect is reconciled. */
  lemma BranchOutcomeIsReconciled(s: RunState, policy: Policy)
    requires Inv(s, policy)
    ensures IsReconciled(s.ledger, TicketBranch) <==> s.phase in {BranchCreated, ReadyPhase, CompensationRequired}
    ensures s.phase in {BranchCreated, ReadyPhase} ==> s.binding.Some? && s.branch == Some(s.binding.value.branch)
    ensures s.compensated ==> s.phase == CompensationRequired
  {
    hide Word, ValidState, IntentionOf;
    assert R !in [I] && R !in [I, V] && R !in [I, V, O] && R !in [I, V, O, V];
    assert [I, V, O, R][3] == R && [I, V, O, V, O, R][5] == R;
  }

  /** A valid ledger reconciles each effect at most once. */
  lemma {:induction false} OneReconciliation(ledger: seq<Event>, i: nat, j: nat)
    requires ValidLedger(ledger) && i < j < |ledger|
    requires ledger[i].payload.Reconciliation? && ledger[j].payload.Reconciliation?
    ensures ledger[i].effect != ledger[j].effect
  {
    var effect := ledger[i].effect;
    if ledger[j].effect == effect {
      var before := ledger[..j];
      ValidityIsPrefixClosed(ledger, j);
      ValidityIsPrefixClosed(ledger, j + 1);
      assert ledger[..j + 1] == before + [ledger[j]];
      EventsAreInWord(before, i);
      ReconciledMeansR(before, effect);
      ExtendedValidity(before, ledger[j]);
    }
  }

  lemma {:induction false} EventsAreInWord(ledger: seq<Event>, i: nat)
    requires i < |ledger|
    ensures KindOf(ledger[i]) in Word(ledger, ledger[i].effect)
  {
    var shorter := ledger[..|ledger| - 1];
    if i < |ledger| - 1 {
      EventsAreInWord(shorter, i);
    }
  }

  // ----- fresh identifiers -----

  function Highest(ledger: seq<Event>): nat {
    if ledger == [] then 0
    else
      var last, rest := ledger[|ledger| - 1].effect, Highest(ledger[..|ledger| - 1]);
      if last.Uuid? && last.n > rest then last.n else rest
  }

  function FreshId(ledger: seq<Event>): EffectId {
    Uuid(Highest(ledger) + 1)
  }

  lemma {:induction false} HigherIsFresh(ledger: seq<Event>, n: nat)
    requires n > Highest(ledger)
    ensures IsFresh(ledger, Uuid(n))
  {
    if ledger != [] {
      HigherIsFresh(ledger[..|ledger| - 1], n);
    }
  }

  // ----- what no write ever takes back -----

  /** The only ways a preparation phase may be followed by another. */
  predicate Leads(from: PreparationPhase, to: PreparationPhase) {
    from == to ||
    match from
    case Selected => true
    case InProgressRequested => to != Selected
    case InProgressConfirmed => to != Selected && to != InProgressRequested
    case BranchCreated => to == ReadyPhase
    case _ => false
  }

  lemma LeadsOn(a: PreparationPhase, b: PreparationPhase, c: PreparationPhase)
    requires Leads(a, b) && Leads(b, c)
    ensures Leads(a, c)
  {
  }

  ghost predicate Grows<T>(before: seq<T>, after: seq<T>) {
    before <= after
  }

  ghost predicate Onward(s: RunState, t: RunState) {
    && Grows(s.ledger, t.ledger)
    && Grows(s.failures, t.failures)
    && Leads(s.phase, t.phase)
    && (s.binding.Some? ==> t.binding == s.binding)
    && (s.compensated ==> t.compensated)
    && s.retryWait <= t.retryWait
  }

  lemma GrowsFromItself<T>(items: seq<T>, item: T)
    ensures Grows(items, items) && Grows(items, items + [item])
  {
  }

  lemma {:induction false} ExtendGrows(ledger: seq<Event>, effect: EffectId, payloads: seq<Payload>)
    ensures Grows(ledger, Extend(ledger, effect, payloads))
    decreases |payloads|
  {
    if payloads != [] {
      ExtendGrows(ledger + [Event(effect, LastSequence(ledger) + 1, payloads[0])], effect, payloads[1..]);
    }
  }

  /** Appending to the ledger, and at most confirming or deciding the preparation, is onward. */
  lemma LoggingIsOnward(s: RunState, effect: EffectId, payloads: seq<Payload>, t: RunState)
    requires t.ledger == Extend(s.ledger, effect, payloads) && t.failures == s.failures
    requires Leads(s.phase, t.phase) && t.compensated == s.compensated && t.retryWait == s.retryWait
    requires s.binding.Some? ==> t.binding == s.binding
    ensures Onward(s, t)
  {
    hide Extend, Grows;
    ExtendGrows(s.ledger, effect, payloads);
    GrowsFromItself(s.failures, FINALIZATION_FAILURE);
  }

  /** A write that logs nothing is onward when it keeps the preparation and the wait. */
  lemma UnloggedIsOnward(s: RunState, t: RunState)
    requires t.ledger == s.ledger && t.binding == s.binding && Leads(s.phase, t.phase)
    requires s.failures == t.failures || t.failures == s.failures + [FINALIZATION_FAILURE]
    requires s.compensated ==> t.compensated
    requires s.retryWait <= t.retryWait
    ensures Onward(s, t)
  {
    hide Grows;
    GrowsFromItself(s.ledger, Event(TicketBranch, 0, Invocation(0.0)));
    GrowsFromItself(s.failures, FINALIZATION_FAILURE);
  }

  /** No write shortens the ledger, moves the preparation back, or undoes a binding, a compensation or a wait. */
  lemma WriteIsOnward(s: RunState, w: Write, t: RunState, terms: Terms)
    requires Inv(s, terms.policy) && Enabled(s, w, terms) && t == After(s, w, terms)
    ensures Onward(s, t)
  {
    hide Inv, ValidState, Finalizing, StateApproved, IsFresh, Settled, ReObserved, IsReconciled, Attempts, Latest, Word, IntentionOf,
      IsAwaiting, AcceptUpdate, ReceiptPhase, ConsumedState, Routed, WithCheckpoint, Restarted, CanStartIteration, Onward,
      Extend, Round, Intended, Recorded, PendingState, Complete;
    match w
    case Intend(operation, id) => IntendIsOnward(s, operation, Ticket, id);
    case IntendReconcile(operation, target, id) => IntendIsOnward(s, Reconciling(operation), EffectTarget(target), id);
    case Record(operation, id, outcome, sha) => RecordIsOnward(s, operation, id, outcome, sha);
    case Ask(request) => AskIsOnward(s, request);
    case AskToStart(request) => AskIsOnward(s, request);
    case Accept(receipt) => AcceptIsOnward(s, receipt, ConsumedState(s, receipt, receipt.retryAfter), t, terms.policy);
    case AcceptPreparation(receipt) => ConfirmIsOnward(s, receipt, ConsumedState(s, receipt, 0.0), t);
    case BranchIntend => LoggingIsOnward(s, TicketBranch, [BRANCH_INTENTION], t);
    case BranchInvoke => LoggingIsOnward(s, TicketBranch, [Invocation(0.0)], t);
    case BranchBind(binding) => LoggingIsOnward(s, TicketBranch, [Observation(Success, None, None)], t);
    case BranchFinish(outcome, branch) =>
      LoggingIsOnward(s, TicketBranch, [Observation(outcome, None, None), Reconciliation(outcome, None)], t);
    case RouteFailed(failure) => RouteIsOnward(s, failure, t, terms.policy);
    case KeepCheckpoint(c) => CheckpointIsOnward(s, c);
    case Restart(keep) => RestartIsOnward(s, keep);
    case _ => UnloggedIsOnward(s, t);
  }

  lemma IntendIsOnward(s: RunState, operation: Operation, target: Target, id: EffectId)
    ensures Onward(s, Intended(s, operation, target, id))
  {
    hide Onward, Extend;
    LoggingIsOnward(s, id, [Intention(operation, target, LocalHash(id, operation, target))], Intended(s, operation, target, id));
  }

  lemma RecordIsOnward(s: RunState, operation: Operation, id: EffectId, outcome: Outcome, sha: Option<string>)
    ensures Onward(s, Recorded(s, operation, id, outcome, sha))
  {
    hide Onward, Extend, Round;
    LoggingIsOnward(s, id, Round(0.0, outcome, sha, None), Recorded(s, operation, id, outcome, sha));
  }

  lemma AskIsOnward(s: RunState, request: Request)
    ensures Onward(s, PendingState(s, request))
    ensures s.phase == Selected ==> Onward(s, StartRequested(PendingState(s, request)))
  {
    hide Onward, Extend;
    var intention := Intention(request.operation, request.target, BridgeHash(request));
    LoggingIsOnward(s, request.effect, [intention], PendingState(s, request));
    if s.phase == Selected {
      LoggingIsOnward(s, request.effect, [intention], StartRequested(PendingState(s, request)));
    }
  }

  lemma OnwardIsTransitive(a: RunState, b: RunState, c: RunState)
    requires Onward(a, b) && Onward(b, c)
    ensures Onward(a, c)
  {
    hide Leads;
    LeadsOn(a.phase, b.phase, c.phase);
    assert a.ledger <= c.ledger && a.failures <= c.failures;
  }

  lemma ConsumeIsOnward(s: RunState, receipt: Receipt, wait: real)
    ensures Onward(s, ConsumedState(s, receipt, wait))
  {
    hide Onward, Extend, Round;
    LoggingIsOnward(s, receipt.request.effect, Round(wait, receipt.outcome, receipt.externalRevision, Some(receipt)),
      ConsumedState(s, receipt, wait));
  }

  lemma AcceptIsOnward(s: RunState, receipt: Receipt, c: RunState, t: RunState, policy: Policy)
    requires c == ConsumedState(s, receipt, receipt.retryAfter) && receipt.retryAfter >= 0.0
    requires t == AcceptUpdate(c, receipt.request.operation, receipt, policy)
    ensures Onward(s, t)
  {
    hide Onward, ConsumedState, AcceptUpdate, Judge;
    ConsumeIsOnward(s, receipt, receipt.retryAfter);
    AcceptanceOf(c, receipt.request.operation, receipt, t, policy);
    match Judge(c.retryWait, receipt.request.operation, receipt, policy) {
      case Refused => UnloggedIsOnward(c, t);
      case Projected => UnloggedIsOnward(c, t);
      case Completed => UnloggedIsOnward(c, t);
      case Delayed => UnloggedIsOnward(c, t);
      case Noted => UnloggedIsOnward(c, t);
    }
    OnwardIsTransitive(s, c, t);
  }

  lemma ConfirmIsOnward(s: RunState, receipt: Receipt, c: RunState, t: RunState)
    requires c == ConsumedState(s, receipt, 0.0) && t == ReceiptPhase(c, receipt)
    ensures Onward(s, t)
  {
    hide Onward, ConsumedState, JudgePhase;
    ConsumeIsOnward(s, receipt, 0.0);
    match JudgePhase(c.phase, receipt) {
      case Confirmed => PhaseJudged(c.phase, receipt); UnloggedIsOnward(c, t);
      case Compensated => UnloggedIsOnward(c, t);
      case NeedsReview => UnloggedIsOnward(c, t);
    }
    OnwardIsTransitive(s, c, t);
  }

  lemma RouteIsOnward(s: RunState, failure: FailureRecord, t: RunState, policy: Policy)
    requires Inv(s, policy) && t == Routed(s, failure)
    ensures Onward(s, t)
  {
    hide Routed, ValidState, LedgerStory, PendingStory, BranchStory, Milestones, WaitStory, Bounded;
    RoutedShape(s, failure, t);
    RoutingIsSafe(s, failure);
  }

  lemma CheckpointIsOnward(s: RunState, c: Checkpoint)
    ensures Onward(s, WithCheckpoint(s, c))
  {
    hide Onward;
    UnloggedIsOnward(s, WithCheckpoint(s, c));
  }

  lemma RestartIsOnward(s: RunState, keep: set<Stage>)
    ensures Onward(s, Restarted(s, keep))
  {
    hide Onward, Kept;
    UnloggedIsOnward(s, Restarted(s, keep));
  }

  lemma {:induction false} RunsAreOnward(trace: Trace, policy: Policy, i: nat, j: nat)
    requires IsTrace(trace, policy) && i <= j < |trace.states|
    ensures Onward(trace.states[i], trace.states[j])
    decreases j
  {
    hide Inv, Enabled, After, Onward;
    if i == j {
      UnloggedIsOnward(trace.states[i], trace.states[j]);
    } else {
      RunsAreOnward(trace, policy, i, j - 1);
      EveryStateKeepsInv(trace, policy, j - 1);
      assert Writes(trace, j - 1, policy);
      WriteIsOnward(trace.states[j - 1], trace.writes[j - 1], trace.states[j], Terms(policy, trace.approvals[j - 1]));
      OnwardIsTransitive(trace.states[i], trace.states[j - 1], trace.states[j]);
    }
  }

  // ----- consequences for whole runs -----

  predicate IsAcceptance(w: Write) {
    w.Accept? || w.AcceptPreparation?
  }

  function AcceptedEffect(w: Write): EffectId
    requires IsAcceptance(w)
  {
    w.receipt.request.effect
  }

  /** Accepting a receipt closes its effect in the same write. */
  lemma AcceptanceCloses(s: RunState, w: Write, t: RunState, terms: Terms)
    requires Inv(s, terms.policy) && Enabled(s, w, terms) && t == After(s, w, terms) && IsAcceptance(w)
    ensures Word(s.ledger, AcceptedEffect(w)) == [I]
    ensures Word(t.ledger, AcceptedEffect(w)) == [I, V, O, R]
  {
    hide ValidState, LedgerStory, BranchStory, Milestones, WaitStory, Bounded, Extend, Round, Word, ConsumedState, AcceptUpdate, ReceiptPhase;
    var receipt := w.receipt;
    var wait := if w.Accept? then receipt.retryAfter else 0.0;
    var c := ConsumedState(s, receipt, wait);
    ConsumedWord(s, receipt, wait, terms.policy);
    if w.Accept? {
      AcceptanceKeepsLedger(c, receipt, t, terms.policy);
    } else {
      ConfirmationKeepsLedger(c, receipt, t);
    }
  }

  lemma ConsumedWord(s: RunState, receipt: Receipt, wait: real, policy: Policy)
    requires Inv(s, policy) && s.pending == Some(receipt.request)
    ensures Word(s.ledger, receipt.request.effect) == [I]
    ensures Word(ConsumedState(s, receipt, wait).ledger, receipt.request.effect) == [I, V, O, R]
  {
    hide ValidState, BranchStory, Milestones, WaitStory, Bounded, Extend, Round, Word, LedgerStory, IntentionOf, LedgerWait;
    RoundStory(s.ledger, receipt.request.effect, wait, receipt.outcome, receipt.externalRevision, Some(receipt));
    assert [I] + [V, O, R] == [I, V, O, R];
  }

  lemma AcceptanceKeepsLedger(c: RunState, receipt: Receipt, t: RunState, policy: Policy)
    requires t == AcceptUpdate(c, receipt.request.operation, receipt, policy)
    ensures t.ledger == c.ledger
  {
    hide AcceptUpdate;
    UpdateKeepsRecord(c, receipt.request.operation, receipt, t, policy);
  }

  lemma ConfirmationKeepsLedger(c: RunState, receipt: Receipt, t: RunState)
    requires t == ReceiptPhase(c, receipt)
    ensures t.ledger == c.ledger
  {
    hide JudgePhase;
  }

  /** The round a receipt adds ends with the reconciliation that names it. */
  lemma RoundEndsConsumed(ledger: seq<Event>, receipt: Receipt, wait: real)
    ensures WasConsumed(
      Extend(ledger, receipt.request.effect, Round(wait, receipt.outcome, receipt.externalRevision, Some(receipt))), receipt)
  {
    var round := Round(wait, receipt.outcome, receipt.externalRevision, Some(receipt));
    ExtendThrice(ledger, receipt.request.effect, round[0], round[1], round[2]);
    var after := Extend(ledger, receipt.request.effect, round);
    assert IsConsumption(after[|ledger| + 2], receipt);
  }

  /** Receipts are applied exactly once: no run ever accepts two receipts for one effect. */
  lemma ReceiptsAreAppliedOnce(trace: Trace, policy: Policy, i: nat, j: nat)
    requires IsTrace(trace, policy) && i < j < |trace.writes|
    requires IsAcceptance(trace.writes[i]) && IsAcceptance(trace.writes[j])
    ensures AcceptedEffect(trace.writes[i]) != AcceptedEffect(trace.writes[j])
  {
    hide Inv, Enabled, After, Word;
    assert Writes(trace, i, policy) && Writes(trace, j, policy);
    EveryStateKeepsInv(trace, policy, i);
    EveryStateKeepsInv(trace, policy, j);
    AcceptanceCloses(trace.states[i], trace.writes[i], trace.states[i + 1], Terms(policy, trace.approvals[i]));
    AcceptanceCloses(trace.states[j], trace.writes[j], trace.states[j + 1], Terms(policy, trace.approvals[j]));
    RunsAreOnward(trace, policy, i + 1, j);
    var before, after := trace.states[i + 1].ledger, trace.states[j].ledger;
    assert after[..|before|] == before;
    WordPrefix(after, |before|, AcceptedEffect(trace.writes[i]));
  }

  /** A reconciled effect is closed: the store refuses any further event of it. */
  lemma ReconciledIsClosed(ledger: seq<Event>, event: Event)
    requires ValidLedger(ledger) && IsReconciled(ledger, event.effect)
    ensures !ValidLedger(ledger + [event])
  {
    ReconciledMeansR(ledger, event.effect);
    ExtendedValidity(ledger, event);
  }

  /** Created and compensated exclude each other over a whole run, and neither is ever left. */
  lemma BranchOutcomeIsFinal(trace: Trace, policy: Policy, i: nat, j: nat)
    requires IsTrace(trace, policy) && i <= j < |trace.states|
    ensures trace.states[i].phase == CompensationRequired ==> trace.states[j].phase == CompensationRequired
    ensures trace.states[i].phase in {BranchCreated, ReadyPhase} ==> trace.states[j].phase in {BranchCreated, ReadyPhase}
    ensures trace.states[i].compensated ==> trace.states[j].phase == CompensationRequired
  {
    hide Inv, Enabled, After;
    RunsAreOnward(trace, policy, i, j);
    EveryStateKeepsInv(trace, policy, j);
    BranchOutcomeIsReconciled(trace.states[j], policy);
  }
}
