/** The invariant every stored run state keeps, over any sequence of writes. */
module ProtocolInvariant {
  import opened Outcomes
  import opened EffectLedger
  import opened LedgerViews
  import opened RunStates
  import opened Router
  import opened Supervision
  import opened SupervisorRuns
  import opened FinalizerWrites
  import opened LinearWrites
  import opened PreparationWrites
  import opened Protocol

  // ----- the ledger between two writes -----

  /** Commit, push, reconciling and bridge effects are intended or completely settled, never in between. */
  ghost predicate Quiet(ledger: seq<Event>) {
    forall id: EffectId :: id.Uuid? ==> QuietWord(Word(ledger, id))
  }

  ghost predicate QuietWord(word: seq<Kind>) {
    word == [] || word == [I] || word == [I, V, O, R]
  }

  ghost predicate BranchWord(word: seq<Kind>) {
    || word == []
    || word == [I]
    || word == [I, V]
    || word == [I, V, O]
    || word == [I, V, O, V]
    || word == [I, V, O, R]
    || word == [I, V, O, V, O, R]
  }

  ghost predicate OnlyBranchCreates(ledger: seq<Event>) {
    forall id :: IntentionOf(ledger, id).Some? ==>
      (id == TicketBranch <==> IntentionOf(ledger, id).value.operation == CreateBranch)
  }

  /** An effect that looks at another was announced after it. */
  ghost predicate TargetsExist(ledger: seq<Event>) {
    forall id :: IntentionOf(ledger, id).Some? && IntentionOf(ledger, id).value.target.EffectTarget? ==>
      IntentionOf(ledger, IntentionOf(ledger, id).value.target.effect).Some?
  }

  ghost predicate LedgerStory(ledger: seq<Event>) {
    && ValidLedger(ledger)
    && Quiet(ledger)
    && BranchWord(Word(ledger, TicketBranch))
    && OnlyBranchCreates(ledger)
    && TargetsExist(ledger)
  }

  lemma ShortWords()
    ensures InGrammar([I]) && InGrammar([I, V]) && InGrammar([I, V, O]) && InGrammar([I, V, O, R])
    ensures InGrammar([I, V, O, V]) && InGrammar([I, V, O, V, O, R])
  {
    assert [I][1..] == [] && [I, V][1..] == [V] && [I, V, O][1..] == [V, O] && [V, O][2..] == [];
    assert [I, V, O, R][1..] == [V, O, R] && [V, O, R][2..] == [R];
    assert [I, V, O, V][1..] == [V, O, V] && [V, O, V][2..] == [V];
    assert [I, V, O, V, O, R][1..] == [V, O, V, O, R] && [V, O, V, O, R][2..] == [V, O, R];
  }

  lemma QuietAfter(before: seq<Event>, after: seq<Event>, effect: EffectId, kinds: seq<Kind>)
    requires Quiet(before) && WordsExtended(before, after, effect, kinds)
    requires effect.Uuid? ==> QuietWord(Word(before, effect) + kinds)
    ensures Quiet(after)
  {
    hide Word;
  }

  lemma OnlyBranchStillCreates(before: seq<Event>, after: seq<Event>)
    requires OnlyBranchCreates(before) && TargetsExist(before)
    requires forall effect :: IntentionOf(after, effect) == IntentionOf(before, effect)
    ensures OnlyBranchCreates(after) && TargetsExist(after)
  {
    hide IntentionOf;
  }

  lemma OnlyBranchCreatesAlso(before: seq<Event>, effect: EffectId, intention: Payload)
    requires OnlyBranchCreates(before) && TargetsExist(before) && intention.Intention?
    requires effect == TicketBranch <==> intention.operation == CreateBranch
    requires intention.target.EffectTarget? ==> IntentionOf(before, intention.target.effect).Some?
    ensures OnlyBranchCreates(Extend(before, effect, [intention])) && TargetsExist(Extend(before, effect, [intention]))
  {
    IntendViews(before, effect, intention);
    hide IntentionOf, Extend, Attempts, Latest, LedgerWait;
  }

  lemma IntentionStory(ledger: seq<Event>, id: EffectId, intention: Payload)
    requires LedgerStory(ledger) && IsFresh(ledger, id)
    requires intention.Intention? && intention.operation != CreateBranch
    requires intention.target.EffectTarget? ==> IntentionOf(ledger, intention.target.effect).Some?
    ensures var after := Extend(ledger, id, [intention]);
      && LedgerStory(after)
      && ledger <= after
      && WordsExtended(ledger, after, id, [I])
  {
    hide Word, IntentionOf, Extend, Quiet, OnlyBranchCreates, TargetsExist, InGrammar, ValidLedger;
    ShortWords();
    assert Kinds([intention]) == [I];
    assert Word(ledger, id) + [I] == [I];
    ExtendKeepsValidity(ledger, id, [intention]);
    QuietAfter(ledger, Extend(ledger, id, [intention]), id, [I]);
    OnlyBranchCreatesAlso(ledger, id, intention);
  }

  lemma RoundStory(ledger: seq<Event>, id: EffectId, wait: real, outcome: Outcome, revision: Option<string>, receipt: Option<Receipt>)
    requires LedgerStory(ledger) && id.Uuid? && Word(ledger, id) == [I]
    ensures var after := Extend(ledger, id, Round(wait, outcome, revision, receipt));
      && LedgerStory(after)
      && ledger <= after
      && WordsExtended(ledger, after, id, [V, O, R])
      && SameIntentions(ledger, after)
      && LedgerWait(after) == LedgerWait(ledger) +
         if outcome != Success && IntentionOf(ledger, id).Some? && IsRetried(IntentionOf(ledger, id).value.operation)
         then wait else 0.0
  {
    hide Word, IntentionOf, Extend, Quiet, OnlyBranchCreates, TargetsExist, InGrammar, ValidLedger, LedgerWait, Attempts, Latest;
    ShortWords();
    var round := Round(wait, outcome, revision, receipt);
    assert Kinds(round) == [V, O, R];
    assert [I] + [V, O, R] == [I, V, O, R];
    ExtendKeepsValidity(ledger, id, round);
    FollowViews(ledger, id, round);
    QuietAfter(ledger, Extend(ledger, id, round), id, [V, O, R]);
    OnlyBranchStillCreates(ledger, Extend(ledger, id, round));
    RoundWait(ledger, id, wait, round[1], round[2]);
  }

  /** The branch effect gains events; no other effect changes in any reading. */
  ghost predicate BranchOnly(before: seq<Event>, after: seq<Event>, kinds: seq<Kind>) {
    && LedgerStory(after)
    && before <= after
    && WordsExtended(before, after, TicketBranch, kinds)
    && (forall id :: id != TicketBranch ==> IntentionOf(after, id) == IntentionOf(before, id))
    && (forall operation :: operation != CreateBranch ==> Attempts(after, operation) == Attempts(before, operation))
    && LedgerWait(after) == LedgerWait(before)
  }

  lemma BranchIntentionStory(ledger: seq<Event>)
    requires LedgerStory(ledger) && Word(ledger, TicketBranch) == []
    ensures BranchOnly(ledger, Extend(ledger, TicketBranch, [BRANCH_INTENTION]), [I])
  {
    hide Word, IntentionOf, Extend, Quiet, OnlyBranchCreates, TargetsExist, InGrammar, ValidLedger, LedgerWait, Attempts, Latest;
    ShortWords();
    assert Kinds([BRANCH_INTENTION]) == [I];
    assert Word(ledger, TicketBranch) + [I] == [I];
    ExtendKeepsValidity(ledger, TicketBranch, [BRANCH_INTENTION]);
    IntendViews(ledger, TicketBranch, BRANCH_INTENTION);
    QuietAfter(ledger, Extend(ledger, TicketBranch, [BRANCH_INTENTION]), TicketBranch, [I]);
    OnlyBranchCreatesAlso(ledger, TicketBranch, BRANCH_INTENTION);
  }

  lemma BranchStoryStep(ledger: seq<Event>, payloads: seq<Payload>)
    requires LedgerStory(ledger) && BranchWord(Word(ledger, TicketBranch) + Kinds(payloads))
    requires forall payload <- payloads :: !payload.Intention?
    ensures BranchOnly(ledger, Extend(ledger, TicketBranch, payloads), Kinds(payloads))
  {
    hide Word, IntentionOf, Extend, Quiet, OnlyBranchCreates, TargetsExist, InGrammar, ValidLedger, LedgerWait, Attempts, Latest, Kinds;
    BranchWordsAreGrammatical(Word(ledger, TicketBranch) + Kinds(payloads));
    ExtendKeepsValidity(ledger, TicketBranch, payloads);
    FollowViews(ledger, TicketBranch, payloads);
    BranchIsNotRetried(ledger);
    UnretriedWait(ledger, TicketBranch, payloads);
    QuietAfter(ledger, Extend(ledger, TicketBranch, payloads), TicketBranch, Kinds(payloads));
    OnlyBranchStillCreates(ledger, Extend(ledger, TicketBranch, payloads));
  }

  lemma BranchWordsAreGrammatical(word: seq<Kind>)
    requires BranchWord(word)
    ensures InGrammar(word)
  {
    ShortWords();
  }

  lemma BranchIsNotRetried(ledger: seq<Event>)
    requires OnlyBranchCreates(ledger)
    ensures IntentionOf(ledger, TicketBranch).Some? ==> IntentionOf(ledger, TicketBranch).value.operation == CreateBranch
  {
    hide IntentionOf;
  }

  // ----- the state between two writes -----

  /** A pending request has only its intention, and a waiting run has one. */
  ghost predicate PendingStory(s: RunState) {
    && (s.disposition == WaitingMcp ==> s.pending.Some?)
    && (s.pending.Some? ==>
          var request := s.pending.value;
          && s.disposition != Done
          && request.effect.Uuid?
          && Word(s.ledger, request.effect) == [I]
          && IntentionOf(s.ledger, request.effect) == Some(Intention(request.operation, request.target, BridgeHash(request)))
          && !IsLocal(request.operation)
          && (request.operation == StartTicket ==> s.phase == InProgressRequested))
    && (s.phase == InProgressRequested ==> Word(s.ledger, TicketBranch) == [])
  }

  /** How far the branch effect is, which binding is stored, and the preparation phase agree. */
  ghost predicate BranchStory(s: RunState) {
    var word := Word(s.ledger, TicketBranch);
    && (word == [] ==> s.phase in {Selected, InProgressRequested, InProgressConfirmed} && s.binding == None)
    && (word == [I] || word == [I, V] ==> s.phase == InProgressConfirmed && s.binding == None)
    && (word == [I, V, O] || word == [I, V, O, V] ==> s.phase == InProgressConfirmed && s.binding.Some?)
    && (word == [I, V, O, R] ==> s.phase == CompensationRequired && s.binding == None)
    && (word == [I, V, O, V, O, R] ==> s.phase in {BranchCreated, ReadyPhase, CompensationRequired} && s.binding.Some?)
    && (s.phase in {BranchCreated, ReadyPhase} ==> s.binding.Some? && s.branch == Some(s.binding.value.branch))
    && (s.compensated ==> s.phase == CompensationRequired)
  }

  /** A receipt that says the ticket was completed as asked. */
  predicate IsCompletion(receipt: Receipt, policy: Policy) {
    receipt.request.operation == CompleteTicket && receipt.outcome == Success && receipt.observedState == Some(policy.completedStateId)
  }

  /**
  The projection is the ticket's and a completion is a successful one. The push
  rests on the commit, the commit on the ticket projection, and DONE on all four.
  (That a completion rests on a push holds only under a condition, stated with `Chained`.)
  */
  predicate Milestones(s: RunState, policy: Policy) {
    && (s.projection.Some? ==> s.projection == Some(policy.projection))
    && (s.doneReceipt.Some? ==> IsCompletion(s.doneReceipt.value, policy))
    && (s.pushedSha.Some? ==> s.commitSha == s.pushedSha)
    && (s.commitSha.Some? ==> s.projection.Some?)
    && (s.disposition == Done ==> Complete(s) && s.evidence == Some(EvidenceOf(s)))
    && (s.releaseReceipt.Some? <==> s.released)
    && (s.released ==> s.disposition == Done)
  }

  predicate Bounded(ledger: seq<Event>, policy: Policy) {
    && Attempts(ledger, Commit) <= policy.maxInvocations
    && Attempts(ledger, Push) <= policy.maxInvocations
    && Attempts(ledger, CompleteTicket) <= policy.maxInvocations
  }

  /** The accumulated wait is within the total allowed, and within what the ledger recorded. */
  ghost predicate WaitStory(s: RunState, policy: Policy) {
    && 0.0 <= s.retryWait <= LedgerWait(s.ledger)
    && s.retryWait <= policy.totalRetryWait
  }

  ghost predicate Inv(s: RunState, policy: Policy) {
    && ValidState(s)
    && LedgerStory(s.ledger)
    && PendingStory(s)
    && BranchStory(s)
    && Milestones(s, policy)
    && Bounded(s.ledger, policy)
    && WaitStory(s, policy)
  }

  lemma InitialInv(maxIterations: nat, policy: Policy)
    requires policy.totalRetryWait >= 0.0
    ensures Inv(Initial(maxIterations), policy)
  {
  }

  // ----- validity of the successor when only some parts change -----

  /** The parts of a valid state that do not concern the ledger. */
  ghost predicate SameContract(s: RunState, t: RunState) {
    && t.iterationCount == s.iterationCount && t.maxIterations == s.maxIterations && t.grants == s.grants
    && t.iterationOpen == s.iterationOpen && t.eligible == s.eligible && t.artifacts == s.artifacts
    && t.checkpoints == s.checkpoints && t.outputs == s.outputs
  }

  lemma ValidSuccessor(s: RunState, t: RunState)
    requires ValidState(s) && SameContract(s, t)
    requires ValidLedger(t.ledger)
    requires t.pending.Some? ==> PendingMatches(t.ledger, t.pending.value)
    requires t.releaseReceipt.Some? ==> t.releaseBinding == Some(t.releaseReceipt.value.binding)
    requires t.released ==> t.releaseReceipt.Some? && t.releaseReceipt.value.signed
    ensures ValidState(t)
  {
  }

  // ----- every write keeps the invariant -----

  lemma IntendKeeps(s: RunState, operation: Operation, target: Target, id: EffectId, policy: Policy)
    requires Inv(s, policy) && s.disposition == Active && IsFresh(s.ledger, id) && IsLocal(operation)
    requires operation in {Commit, Push} ==> Attempts(s.ledger, operation) < policy.maxInvocations
    requires target.EffectTarget? ==> IntentionOf(s.ledger, target.effect).Some?
    ensures Inv(Intended(s, operation, target, id), policy)
  {
    hide Extend, ValidLedger, Quiet, OnlyBranchCreates, TargetsExist, LedgerWait, Attempts, Latest, Word, IntentionOf, OutputsMatch;
    var t := Intended(s, operation, target, id);
    var intention := Intention(operation, target, LocalHash(id, operation, target));
    IntentionStory(s.ledger, id, intention);
    IntendViews(s.ledger, id, intention);
    ValidSuccessor(s, t);
  }

  /** What the gateway's callers check before they ask for a bridge action. */
  predicate MayAsk(s: RunState, operation: Operation) {
    match operation
    case QueryProjection => true
    case CompleteTicket => s.pushedSha.Some?
    case RestoreTicket => true
    case QueryState => true
    case StartTicket => s.phase == Selected
    case _ => false
  }

  lemma AskKeeps(s: RunState, request: Request, t: RunState, policy: Policy)
    requires Inv(s, policy) && s.disposition == Active && s.pending == None && IsFresh(s.ledger, request.effect)
    requires MayAsk(s, request.operation) && request.target == Ticket
    requires request.operation == CompleteTicket ==> Attempts(s.ledger, CompleteTicket) < policy.maxInvocations
    requires t == if request.operation == StartTicket then StartRequested(PendingState(s, request)) else PendingState(s, request)
    ensures Inv(t, policy)
  {
    hide Extend, ValidLedger, Quiet, OnlyBranchCreates, TargetsExist, LedgerWait, Attempts, Latest, Word, IntentionOf, OutputsMatch;
    var intention := Intention(request.operation, request.target, BridgeHash(request));
    IntentionStory(s.ledger, request.effect, intention);
    IntendViews(s.ledger, request.effect, intention);
    ValidSuccessor(s, t);
  }

  lemma RecordKeeps(s: RunState, operation: Operation, id: EffectId, outcome: Outcome, sha: Option<string>, t: RunState, policy: Policy)
    requires Inv(s, policy) && s.disposition == Active && s.projection.Some? && Wants(s, operation)
    requires Word(s.ledger, id) == [I] && IntentionOf(s.ledger, id).Some?
    requires IsLocal(IntentionOf(s.ledger, id).value.operation)
    requires outcome == Success ==> sha.Some? && (operation == Push ==> sha == s.commitSha)
    requires t == Recorded(s, operation, id, outcome, sha)
    ensures Inv(t, policy)
  {
    hide Inv, Extend, Word, IntentionOf, Round;
    var logged := s.(ledger := Extend(s.ledger, id, Round(0.0, outcome, sha, None)));
    LoggingKeeps(s, id, outcome, sha, logged, policy);
    if outcome == Success {
      ShaKeeps(logged, operation, sha, t, policy);
    }
  }

  lemma LoggingKeeps(s: RunState, id: EffectId, outcome: Outcome, sha: Option<string>, t: RunState, policy: Policy)
    requires Inv(s, policy) && Word(s.ledger, id) == [I] && IntentionOf(s.ledger, id).Some?
    requires IsLocal(IntentionOf(s.ledger, id).value.operation)
    requires t == s.(ledger := Extend(s.ledger, id, Round(0.0, outcome, sha, None)))
    ensures Inv(t, policy)
  {
    hide Extend, ValidLedger, Quiet, OnlyBranchCreates, TargetsExist, LedgerWait, Attempts, Latest, Word, IntentionOf, OutputsMatch, Round;
    LocalIdIsUuid(s.ledger, id);
    RoundStory(s.ledger, id, 0.0, outcome, sha, None);
    ValidSuccessor(s, t);
  }

  lemma ShaKeeps(s: RunState, operation: Operation, sha: Option<string>, t: RunState, policy: Policy)
    requires Inv(s, policy) && s.disposition == Active && s.projection.Some? && Wants(s, operation)
    requires sha.Some? && (operation == Push ==> sha == s.commitSha)
    requires t == if operation == Commit then s.(commitSha := sha) else s.(pushedSha := sha)
    ensures Inv(t, policy)
  {
    hide LedgerStory, PendingStory, BranchStory, Bounded, WaitStory, OutputsMatch, PendingMatches, ValidLedger;
    UnloggedKeeps(s, t, policy);
  }

  lemma LocalIdIsUuid(ledger: seq<Event>, id: EffectId)
    requires OnlyBranchCreates(ledger) && IntentionOf(ledger, id).Some?
    requires IntentionOf(ledger, id).value.operation != CreateBranch
    ensures id.Uuid?
  {
    hide IntentionOf;
  }

  /** The state in which a receipt's events are recorded and nothing is pending any more. */
  lemma ConsumeStory(s: RunState, receipt: Receipt, wait: real, policy: Policy)
    requires Inv(s, policy) && s.pending == Some(receipt.request) && wait >= 0.0
    ensures var c := ConsumedState(s, receipt, wait);
      && ValidState(c) && LedgerStory(c.ledger) && PendingStory(c) && BranchStory(c) && Milestones(c, policy) && Bounded(c.ledger, policy)
      && Word(c.ledger, TicketBranch) == Word(s.ledger, TicketBranch)
      && LedgerWait(c.ledger) == LedgerWait(s.ledger) +
         if receipt.outcome != Success && IsRetried(receipt.request.operation) then wait else 0.0
  {
    hide Extend, ValidLedger, Quiet, OnlyBranchCreates, TargetsExist, LedgerWait, Attempts, Latest, Word, IntentionOf, OutputsMatch, Round;
    RoundStory(s.ledger, receipt.request.effect, wait, receipt.outcome, receipt.externalRevision, Some(receipt));
    ValidSuccessor(s, ConsumedState(s, receipt, wait));
  }

  lemma AcceptKeeps(s: RunState, receipt: Receipt, c: RunState, t: RunState, policy: Policy)
    requires Inv(s, policy) && s.pending == Some(receipt.request) && receipt.retryAfter >= 0.0
    requires c == ConsumedState(s, receipt, receipt.retryAfter)
    requires t == AcceptUpdate(c, receipt.request.operation, receipt, policy)
    ensures Inv(t, policy)
  {
    hide ValidState, LedgerStory, Bounded, LedgerWait, BranchStory, PendingStory, Milestones, ConsumedState, AcceptUpdate, Judge;
    ConsumeStory(s, receipt, receipt.retryAfter, policy);
    ConsumedShape(s, receipt, receipt.retryAfter);
    PendingOperation(s, receipt, policy);
    UpdateKeepsRecord(c, receipt.request.operation, receipt, t, policy);
    UpdateKeepsMilestones(c, receipt.request.operation, receipt, t, policy);
    UpdateKeepsWait(c, receipt.request.operation, receipt, t, policy);
    SameRecordStaysValid(c, t);
    SameRecordStories(c, t);
    SameRecordFields(c, t);
  }

  lemma UpdateKeepsMilestones(c: RunState, operation: Operation, receipt: Receipt, t: RunState, policy: Policy)
    requires t == AcceptUpdate(c, operation, receipt, policy) && operation == receipt.request.operation
    requires Milestones(c, policy) && c.disposition == Active
    ensures Milestones(t, policy)
  {
    hide AcceptUpdate, Judge, IsCompletion;
    UpdateFields(c, operation, receipt, t, policy);
    JudgedFor(c.retryWait, operation, receipt, policy);
  }

  /** Only a counted delay adds to the wait, and it was judged to fit. */
  lemma UpdateKeepsWait(c: RunState, operation: Operation, receipt: Receipt, t: RunState, policy: Policy)
    requires t == AcceptUpdate(c, operation, receipt, policy) && receipt.retryAfter >= 0.0
    requires 0.0 <= c.retryWait <= policy.totalRetryWait && !IsLocal(operation) && operation != CreateBranch
    ensures c.retryWait <= t.retryWait <= policy.totalRetryWait
    ensures t.retryWait == c.retryWait || (t.retryWait == c.retryWait + receipt.retryAfter && receipt.outcome != Success && IsRetried(operation))
  {
    hide AcceptUpdate, Judge;
    UpdateFields(c, operation, receipt, t, policy);
    JudgedFor(c.retryWait, operation, receipt, policy);
  }

  lemma UpdateFields(c: RunState, operation: Operation, receipt: Receipt, t: RunState, policy: Policy)
    requires t == AcceptUpdate(c, operation, receipt, policy)
    ensures var verdict := Judge(c.retryWait, operation, receipt, policy);
      && t.projection == (if verdict == Projected then Some(receipt.resultHash) else c.projection)
      && t.doneReceipt == (if verdict == Completed then Some(receipt) else c.doneReceipt)
      && t.retryWait == (if verdict == Delayed then c.retryWait + receipt.retryAfter else c.retryWait)
      && t.disposition == (if verdict == Refused then HumanReview else c.disposition)
      && t.commitSha == c.commitSha && t.pushedSha == c.pushedSha && t.evidence == c.evidence
      && t.released == c.released && t.releaseReceipt == c.releaseReceipt
  {
    hide Judge;
  }

  lemma JudgedFor(retryWait: real, operation: Operation, receipt: Receipt, policy: Policy)
    ensures match Judge(retryWait, operation, receipt, policy)
      case Projected => receipt.resultHash == policy.projection
      case Completed => operation == receipt.request.operation ==> IsCompletion(receipt, policy)
      case Delayed => retryWait + receipt.retryAfter <= policy.totalRetryWait && receipt.outcome != Success
        && (!IsLocal(operation) && operation != CreateBranch ==> IsRetried(operation))
      case _ => true
  {
  }

  lemma PendingOperation(s: RunState, receipt: Receipt, policy: Policy)
    requires Inv(s, policy) && s.pending == Some(receipt.request)
    ensures !IsLocal(receipt.request.operation) && receipt.request.operation != CreateBranch
  {
    hide ValidState, Extend, Word, LedgerWait, BranchStory;
  }

  /** A finalization update leaves the ledger, the pending request and the preparation alone. */
  ghost predicate SameRecord(s: RunState, t: RunState) {
    && SameContract(s, t)
    && t.ledger == s.ledger && t.pending == s.pending
    && t.branch == s.branch && t.binding == s.binding
    && t.commitSha == s.commitSha && t.pushedSha == s.pushedSha
    && t.releaseBinding == s.releaseBinding && t.released == s.released && t.releaseReceipt == s.releaseReceipt
  }

  lemma SameRecordStaysValid(s: RunState, t: RunState)
    requires ValidState(s) && SameRecord(s, t)
    ensures ValidState(t)
  {
    hide ValidLedger, OutputsMatch, PendingMatches;
  }

  lemma UpdateKeepsRecord(c: RunState, operation: Operation, receipt: Receipt, t: RunState, policy: Policy)
    requires t == AcceptUpdate(c, operation, receipt, policy)
    ensures SameRecord(c, t) && t.phase == c.phase && t.compensated == c.compensated
    ensures t.disposition == c.disposition || t.disposition == HumanReview
  {
    hide AcceptUpdate, Judge;
    var verdict := Judge(c.retryWait, operation, receipt, policy);
    AcceptanceOf(c, operation, receipt, t, policy);
    match verdict {
      case Refused =>
      case Projected =>
      case Completed =>
      case Delayed =>
      case Noted =>
    }
  }

  lemma AcceptanceOf(c: RunState, operation: Operation, receipt: Receipt, t: RunState, policy: Policy)
    requires t == AcceptUpdate(c, operation, receipt, policy)
    ensures match Judge(c.retryWait, operation, receipt, policy)
      case Refused => t == FailedState(c)
      case Projected => t == c.(projection := Some(receipt.resultHash))
      case Completed => t == c.(doneReceipt := Some(receipt))
      case Delayed =>
        t == c.(retryWait := c.retryWait + receipt.retryAfter, nextEligible := Some(receipt.observedAt + receipt.retryAfter))
      case Noted => t == c
  {
    hide FailedState, Judge;
  }

  lemma SameRecordStories(s: RunState, t: RunState)
    requires SameRecord(s, t) && t.phase == s.phase && t.compensated == s.compensated && t.disposition != WaitingMcp
    requires BranchStory(s) && PendingStory(s) && (s.pending == None || t.disposition == HumanReview)
    ensures BranchStory(t) && PendingStory(t)
  {
    hide Word, IntentionOf;
  }

  lemma ConsumedShape(s: RunState, receipt: Receipt, wait: real)
    ensures var c := ConsumedState(s, receipt, wait);
      && c.disposition == Active && c.pending == None && c.phase == s.phase && c.binding == s.binding
      && c.retryWait == s.retryWait && c.failures == s.failures && c.pushedSha == s.pushedSha
  {
    hide Extend, Round;
  }

  lemma AcceptPreparationKeeps(s: RunState, receipt: Receipt, c: RunState, t: RunState, policy: Policy)
    requires Inv(s, policy) && s.pending == Some(receipt.request)
    requires c == ConsumedState(s, receipt, 0.0) && t == ReceiptPhase(c, receipt)
    ensures Inv(t, policy)
  {
    hide ValidState, LedgerStory, Bounded, Word, LedgerWait, IntentionOf, ConsumedState, ReceiptPhase, SameRecord;
    ConsumeStory(s, receipt, 0.0, policy);
    ConsumedShape(s, receipt, 0.0);
    ReceiptPhaseShape(c, receipt, t);
    SameRecordStaysValid(c, t);
    SameRecordFields(c, t);
  }

  lemma SameRecordFields(s: RunState, t: RunState)
    requires SameRecord(s, t)
    ensures t.ledger == s.ledger && t.pending == s.pending && t.branch == s.branch && t.binding == s.binding
    ensures t.commitSha == s.commitSha && t.pushedSha == s.pushedSha
    ensures t.releaseReceipt == s.releaseReceipt && t.released == s.released
  {
  }

  lemma ReceiptPhaseShape(c: RunState, receipt: Receipt, t: RunState)
    requires t == ReceiptPhase(c, receipt) && c.disposition == Active
    ensures SameRecord(c, t)
    ensures t.disposition == Active || t.disposition == HumanReview
    ensures t.projection == c.projection && t.doneReceipt == c.doneReceipt && t.failures == c.failures && t.retryWait == c.retryWait
    ensures t.phase == c.phase || (c.phase == InProgressRequested && t.phase == InProgressConfirmed)
    ensures t.compensated == c.compensated || (t.compensated && t.phase == CompensationRequired)
  {
    hide JudgePhase;
    match JudgePhase(c.phase, receipt) {
      case Confirmed => PhaseJudged(c.phase, receipt);
      case Compensated => PhaseJudged(c.phase, receipt);
      case NeedsReview =>
    }
  }

  lemma PhaseJudged(phase: PreparationPhase, receipt: Receipt)
    ensures JudgePhase(phase, receipt) == Confirmed ==> phase == InProgressRequested
    ensures JudgePhase(phase, receipt) == Compensated ==> phase == CompensationRequired
  {
  }

  /** While the phase is InProgressConfirmed, the stored binding tells the branch effect's two rounds apart. */
  lemma BranchPosition(s: RunState)
    requires BranchStory(s) && BranchWord(Word(s.ledger, TicketBranch)) && s.phase == InProgressConfirmed
    ensures var word := Word(s.ledger, TicketBranch);
      && (IsAwaiting(s.ledger) ==> word == if s.binding == None then [I, V] else [I, V, O, V])
      && (word != [] && !IsAwaiting(s.ledger) ==> word == if s.binding == None then [I] else [I, V, O])
  {
    hide Word;
  }

  lemma BranchIntendKeeps(s: RunState, t: RunState, policy: Policy)
    requires Inv(s, policy) && s.phase == InProgressConfirmed && IntentionOf(s.ledger, TicketBranch) == None
    requires t == BranchIntended(s)
    ensures Inv(t, policy) && Word(t.ledger, TicketBranch) == [I]
  {
    hide Extend, ValidLedger, Quiet, OnlyBranchCreates, TargetsExist, LedgerWait, Attempts, Latest, IntentionOf, OutputsMatch, Word;
    IntentionIffWord(s.ledger, TicketBranch);
    BranchIntentionStory(s.ledger);
    ValidSuccessor(s, t);
  }

  lemma BranchInvokeKeeps(s: RunState, t: RunState, policy: Policy)
    requires Inv(s, policy) && s.phase == InProgressConfirmed
    requires IntentionOf(s.ledger, TicketBranch).Some? && !IsAwaiting(s.ledger)
    requires t == BranchInvoked(s)
    ensures Inv(t, policy) && Word(t.ledger, TicketBranch) == if s.binding == None then [I, V] else [I, V, O, V]
  {
    hide Extend, ValidLedger, Quiet, OnlyBranchCreates, TargetsExist, LedgerWait, Attempts, Latest, IntentionOf, OutputsMatch, Word;
    BranchPosition(s);
    IntentionIffWord(s.ledger, TicketBranch);
    assert Kinds([Invocation(0.0)]) == [V];
    assert [I] + [V] == [I, V] && [I, V, O] + [V] == [I, V, O, V];
    BranchStoryStep(s.ledger, [Invocation(0.0)]);
    ValidSuccessor(s, t);
  }

  lemma BranchBindKeeps(s: RunState, binding: BranchBinding, t: RunState, policy: Policy)
    requires Inv(s, policy) && s.phase == InProgressConfirmed && IsAwaiting(s.ledger) && s.binding == None
    requires t == BranchBound(s, binding)
    ensures Inv(t, policy) && Word(t.ledger, TicketBranch) == [I, V, O]
  {
    hide Extend, ValidLedger, Quiet, OnlyBranchCreates, TargetsExist, LedgerWait, Attempts, Latest, IntentionOf, OutputsMatch, Word;
    BranchPosition(s);
    assert Kinds([Observation(Success, None, None)]) == [O];
    assert [I, V] + [O] == [I, V, O];
    BranchStoryStep(s.ledger, [Observation(Success, None, None)]);
    ValidSuccessor(s, t);
  }

  lemma BranchFinishKeeps(s: RunState, outcome: Outcome, branch: Option<string>, t: RunState, policy: Policy)
    requires Inv(s, policy) && s.phase == InProgressConfirmed && IsAwaiting(s.ledger)
    requires outcome == Success ==> s.binding.Some? && branch == Some(s.binding.value.branch)
    requires outcome != Success ==> branch == None
    requires t == BranchFinished(s, outcome, branch)
    ensures Inv(t, policy)
    ensures Word(t.ledger, TicketBranch) == if s.binding == None then [I, V, O, R] else [I, V, O, V, O, R]
  {
    hide Extend, ValidLedger, Quiet, OnlyBranchCreates, TargetsExist, LedgerWait, Attempts, Latest, IntentionOf, OutputsMatch, Word;
    BranchPosition(s);
    var payloads := [Observation(outcome, None, None), Reconciliation(outcome, None)];
    assert Kinds(payloads) == [O, R];
    assert [I, V] + [O, R] == [I, V, O, R] && [I, V, O, V] + [O, R] == [I, V, O, V, O, R];
    BranchStoryStep(s.ledger, payloads);
    ValidSuccessor(s, t);
  }

  /** A write that logs nothing and leaves pending requests and the preparation alone. */
  lemma UnloggedKeeps(s: RunState, t: RunState, policy: Policy)
    requires Inv(s, policy) && ValidState(t) && Milestones(t, policy)
    requires t.ledger == s.ledger && t.pending == s.pending && t.retryWait == s.retryWait && s.failures <= t.failures
    requires t.branch == s.branch && t.binding == s.binding && t.compensated == s.compensated
    requires t.phase == s.phase || (s.phase == BranchCreated && t.phase == ReadyPhase)
    requires t.disposition == WaitingMcp ==> s.disposition == WaitingMcp
    requires s.pending.Some? ==> t.disposition != Done
    ensures Inv(t, policy)
  {
    hide ValidState, LedgerStory, Word, LedgerWait, Attempts, IntentionOf;
    assert forall failure <- s.failures :: failure in t.failures;
  }

  lemma StopKeeps(s: RunState, t: RunState, policy: Policy)
    requires Inv(s, policy) && SameRecord(s, t) && !s.released
    requires t.phase == s.phase && t.compensated == s.compensated && t.projection == s.projection
    requires t.doneReceipt == s.doneReceipt && t.retryWait == s.retryWait && s.failures <= t.failures
    requires t.disposition in {HumanReview, Abandoned}
    ensures Inv(t, policy)
  {
    hide ValidState, LedgerStory, PendingStory, BranchStory, Bounded, WaitStory;
    SameRecordStaysValid(s, t);
    UnloggedKeeps(s, t, policy);
  }

  lemma DoneKeeps(s: RunState, binding: ReleaseBinding, t: RunState, policy: Policy)
    requires Inv(s, policy) && s.disposition == Active && Complete(s) && s.pending == None && t == DoneState(s, binding)
    ensures Inv(t, policy)
  {
    hide LedgerStory, PendingStory, BranchStory, Bounded, WaitStory, ValidLedger, OutputsMatch;
    ValidSuccessor(s, t);
    UnloggedKeeps(s, t, policy);
  }

  lemma FinishedWaitsForNothing(s: RunState, policy: Policy)
    requires Inv(s, policy)
    ensures s.disposition == Done ==> s.pending == None
  {
    hide ValidState, LedgerStory, Word, IntentionOf;
  }

  lemma ReleasedKeeps(s: RunState, receipt: ReleaseReceipt, t: RunState, policy: Policy)
    requires Inv(s, policy) && s.disposition == Done && !s.released
    requires s.releaseBinding == Some(receipt.binding) && receipt.signed
    requires t == ReleasedState(s, receipt)
    ensures Inv(t, policy)
  {
    hide LedgerStory, PendingStory, BranchStory, Bounded, WaitStory, ValidLedger, OutputsMatch;
    FinishedWaitsForNothing(s, policy);
    ValidSuccessor(s, t);
    UnloggedKeeps(s, t, policy);
  }
  // ----- supervision, repair and people -----

  lemma WithoutClears(s: RunState, owner: Stage, invalid: set<Stage>)
    requires Reviewer in invalid
    ensures var t := Without(s, owner, invalid);
      && t.projection == None && t.commitSha == None && t.pushedSha == None && t.doneReceipt == None
      && t.branch == s.branch && t.binding == s.binding && t.phase == s.phase && t.compensated == s.compensated
      && t.retryWait == s.retryWait && t.released == s.released && t.releaseReceipt == s.releaseReceipt
  {
    hide Kept, ClearArtifacts;
  }

  /** Invalidating any stage throws away every milestone and nothing of the preparation. */
  lemma RoutedShape(s: RunState, f: FailureRecord, t: RunState)
    requires t == Routed(s, f)
    ensures t.branch == s.branch && t.binding == s.binding && t.phase == s.phase && t.compensated == s.compensated
    ensures t.retryWait == s.retryWait && t.released == s.released && t.releaseReceipt == s.releaseReceipt
    ensures s.failures <= t.failures
    ensures || t.disposition == s.disposition
            || (s.disposition == WaitingMcp && t.disposition == HumanReview)
            || (s.disposition == Active && (t.disposition == HumanReview || t.disposition == RepairRequired))
    ensures (t.projection == None && t.commitSha == None && t.pushedSha == None && t.doneReceipt == None && t.disposition == Active)
         || (t.projection == s.projection && t.commitSha == s.commitSha && t.pushedSha == s.pushedSha
             && t.doneReceipt == s.doneReceipt && t.evidence == s.evidence)
  {
    hide Routed, Invalidated, Without, RetriedStage, NeedsRepair;
    RoutingIsTotal(s, f);
    if s.disposition == Active && RetriedStage(s, f).Some? {
      var stage := RetriedStage(s, f).value;
      ReviewerIsAlwaysInvalidated(stage);
      WithoutClears(s, stage, Invalidated(stage));
      InvalidationShape(s, stage);
    }
  }

  lemma RouteKeeps(s: RunState, f: FailureRecord, t: RunState, policy: Policy)
    requires Inv(s, policy) && t == Routed(s, f)
    ensures Inv(t, policy)
  {
    hide ValidState, LedgerStory, PendingStory, BranchStory, Bounded, WaitStory, Routed;
    RoutingIsSafe(s, f);
    RoutedShape(s, f, t);
    FinishedWaitsForNothing(s, policy);
    UnloggedKeeps(s, t, policy);
  }

  lemma BeginKeeps(s: RunState, t: RunState, policy: Policy)
    requires Inv(s, policy) && CanStartIteration(s) && t == BeginIteration(s)
    ensures Inv(t, policy)
  {
    hide LedgerStory, PendingStory, BranchStory, Bounded, WaitStory, ValidState, CanStartIteration, IterationLimit;
    BeginKeepsValid(s);
    assert s.disposition == Active by { StartsActive(s); }
    UnloggedKeeps(s, t, policy);
  }

  lemma StartsActive(s: RunState)
    requires CanStartIteration(s)
    ensures s.disposition == Active
  {
  }

  lemma CheckpointKeeps(s: RunState, c: Checkpoint, t: RunState, policy: Policy)
    requires Inv(s, policy) && s.disposition == Active && t == WithCheckpoint(s, c) && ValidState(t)
    ensures Inv(t, policy)
  {
    hide LedgerStory, PendingStory, BranchStory, Bounded, WaitStory, ValidState;
    UnloggedKeeps(s, t, policy);
  }

  lemma BindKeeps(s: RunState, artifacts: Artifacts, stage: Stage, t: RunState, policy: Policy)
    requires Inv(s, policy) && t == s.(artifacts := artifacts, currentStage := stage) && ValidState(t)
    ensures Inv(t, policy)
  {
    hide LedgerStory, PendingStory, BranchStory, Bounded, WaitStory, ValidState;
    FinishedWaitsForNothing(s, policy);
    UnloggedKeeps(s, t, policy);
  }

  lemma RestartKeeps(s: RunState, keep: set<Stage>, t: RunState, policy: Policy)
    requires Inv(s, policy) && s.disposition == RepairRequired && t == Restarted(s, keep)
    ensures Inv(t, policy)
  {
    hide LedgerStory, PendingStory, BranchStory, Bounded, WaitStory, ValidLedger, OutputsMatch, Kept, PendingMatches;
    var dropped := (set stage <- s.checkpoints :: stage) - keep;
    OutputsStayMatched(s.checkpoints, s.outputs, dropped);
    assert t.checkpoints == map stage | stage in s.checkpoints && stage !in dropped :: s.checkpoints[stage];
    UnloggedKeeps(s, t, policy);
  }

  lemma ResumeKeeps(s: RunState, grant: nat, t: RunState, policy: Policy)
    requires Inv(s, policy) && s.disposition == HumanReview
    requires t == s.(disposition := Active, grants := s.grants + [grant])
    ensures Inv(t, policy)
  {
    hide LedgerStory, PendingStory, BranchStory, Bounded, WaitStory, ValidLedger, OutputsMatch, PendingMatches;
    assert t.grants[..|s.grants|] == s.grants;
    assert IterationLimit(t) == IterationLimit(s) + grant;
    UnloggedKeeps(s, t, policy);
  }

  lemma ReadyKeeps(s: RunState, t: RunState, policy: Policy)
    requires Inv(s, policy) && s.phase == BranchCreated && t == s.(phase := ReadyPhase)
    ensures Inv(t, policy)
  {
    hide LedgerStory, PendingStory, BranchStory, Bounded, WaitStory, ValidState;
    assert SameRecord(s, t);
    SameRecordStaysValid(s, t);
    FinishedWaitsForNothing(s, policy);
    UnloggedKeeps(s, t, policy);
  }

  // ----- all writes together -----

  /** Any write, made when its component makes it, keeps the invariant. */
  lemma WriteKeeps(s: RunState, w: Write, terms: Terms)
    requires Inv(s, terms.policy) && Enabled(s, w, terms)
    ensures Inv(After(s, w, terms), terms.policy)
  {
    hide Inv, ValidState, LedgerStory, StateApproved, IsFresh, Settled, ReObserved, IsReconciled, Attempts, Latest, Word,
      IntentionOf, IsAwaiting, FailedState, DoneState, ReleasedState, PendingState, ConsumedState, AcceptUpdate, ReceiptPhase,
      BranchIntended, BranchInvoked, BranchBound, BranchFinished, Routed, WithCheckpoint, Restarted, Intended, Recorded,
      CanStartIteration;
    var t := After(s, w, terms);
    match w
    case Intend(operation, id) => IntendKeeps(s, operation, Ticket, id, terms.policy);
    case IntendReconcile(operation, target, id) =>
      LedgerStoryOf(s, terms.policy);
      ReconciledIsIntended(s.ledger, target);
      IntendKeeps(s, Reconciling(operation), EffectTarget(target), id, terms.policy);
    case Record(operation, id, outcome, sha) => RecordKeeps(s, operation, id, outcome, sha, t, terms.policy);
    case Escalate => EscalateKeeps(s, t, terms.policy);
    case Finish(binding) => DoneKeeps(s, binding, t, terms.policy);
    case MarkReleased(release) => ReleasedKeeps(s, release, t, terms.policy);
    case Ask(request) => AskKeeps(s, request, t, terms.policy);
    case AskToStart(request) => AskKeeps(s, request, t, terms.policy);
    case Accept(receipt) => AcceptKeeps(s, receipt, ConsumedState(s, receipt, receipt.retryAfter), t, terms.policy);
    case AcceptPreparation(receipt) => AcceptPreparationKeeps(s, receipt, ConsumedState(s, receipt, 0.0), t, terms.policy);
    case BranchIntend => BranchIntendKeeps(s, t, terms.policy);
    case BranchInvoke => BranchInvokeKeeps(s, t, terms.policy);
    case BranchBind(binding) => BranchBindKeeps(s, binding, t, terms.policy);
    case BranchFinish(outcome, branch) => BranchFinishKeeps(s, outcome, branch, t, terms.policy);
    case PreparationReview => ReviewKeeps(s, t, terms.policy);
    case BranchReady => ReadyKeeps(s, t, terms.policy);
    case Begin => BeginKeeps(s, t, terms.policy);
    case KeepCheckpoint(c) => CheckpointKeeps(s, c, t, terms.policy);
    case RouteFailed(failure) => RouteKeeps(s, failure, t, terms.policy);
    case BindArtifacts(artifacts, stage) => BindKeeps(s, artifacts, stage, t, terms.policy);
    case Restart(keep) => RestartKeeps(s, keep, t, terms.policy);
    case Resume(grant) => ResumeKeeps(s, grant, t, terms.policy);
    case Abandon => AbandonKeeps(s, t, terms.policy);
  }

  lemma ReconciledIsIntended(ledger: seq<Event>, effect: EffectId)
    requires LedgerStory(ledger) && IsReconciled(ledger, effect)
    ensures IntentionOf(ledger, effect).Some?
  {
    IntentionIffWord(ledger, effect);
  }

  lemma LedgerStoryOf(s: RunState, policy: Policy)
    requires Inv(s, policy)
    ensures LedgerStory(s.ledger)
  {
    hide LedgerStory, PendingStory, BranchStory, Milestones, Bounded, WaitStory, ValidState;
  }

  lemma NotReleased(s: RunState, policy: Policy)
    requires Inv(s, policy) && s.disposition != Done
    ensures !s.released
  {
    hide ValidState, LedgerStory, PendingStory, BranchStory, Bounded, WaitStory;
  }

  lemma EscalateKeeps(s: RunState, t: RunState, policy: Policy)
    requires Inv(s, policy) && t == FailedState(s)
    requires s.disposition == Active || s.disposition == WaitingMcp || (s.disposition == Done && !s.released)
    ensures Inv(t, policy)
  {
    hide Inv;
    if s.disposition != Done { NotReleased(s, policy); }
    StopKeeps(s, t, policy);
  }

  lemma ReviewKeeps(s: RunState, t: RunState, policy: Policy)
    requires Inv(s, policy) && t == ForReview(s) && s.disposition != Done && s.disposition != Abandoned
    ensures Inv(t, policy)
  {
    hide Inv;
    NotReleased(s, policy);
    StopKeeps(s, t, policy);
  }

  lemma AbandonKeeps(s: RunState, t: RunState, policy: Policy)
    requires Inv(s, policy) && t == s.(disposition := Abandoned) && s.disposition == HumanReview
    ensures Inv(t, policy)
  {
    hide Inv;
    NotReleased(s, policy);
    StopKeeps(s, t, policy);
  }
}
