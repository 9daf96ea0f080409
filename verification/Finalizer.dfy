/** The finalizer's saga: one call carries approved work as far as it can go. */
module Finalizers {
  import opened Outcomes
  import opened EffectLedger
  import opened LedgerViews
  import opened RunStates
  import opened Stores
  import opened FinalizerWrites
  import opened LinearWrites
  import opened Protocol
  import opened ProtocolInvariant
  import opened ProtocolRuns
  import opened Worlds
  import opened WorldSteps
  import opened Hosts
  import opened LinearGateways

  // ----- how far the latest local effect is settled -----

  /** 2: not reconciled; 1: reconciled but not looked at once more; 0: settled. */
  ghost function Unsettled(ledger: seq<Event>, operation: Operation, reconcile: Operation): nat {
    match Latest(ledger, operation)
    case None => 0
    case Some(id) => if !IsReconciled(ledger, id) then 2 else if !ReObserved(ledger, reconcile, id) then 1 else 0
  }

  /** In a quiet ledger an unreconciled local effect has nothing but its intention. */
  lemma UnreconciledIsIntended(ledger: seq<Event>, id: EffectId, operation: Operation)
    requires LedgerStory(ledger) && IsIntended(ledger, id, operation) && operation != CreateBranch
    ensures IsReconciled(ledger, id) || Word(ledger, id) == [I]
  {
    hide Word, IntentionOf, ValidLedger;
    assert id.Uuid?;
    assert QuietWord(Word(ledger, id));
    assert [I, V, O, R][3] == R;
    IntentionIffWord(ledger, id);
  }

  lemma RecordSettles(ledger: seq<Event>, id: EffectId, after: seq<Event>, outcome: Outcome, sha: Option<string>)
    requires LedgerStory(ledger) && id.Uuid? && Word(ledger, id) == [I]
    requires after == Extend(ledger, id, Round(0.0, outcome, sha, None))
    ensures forall operation :: Latest(after, operation) == Latest(ledger, operation)
    ensures forall other :: IntentionOf(after, other) == IntentionOf(ledger, other)
    ensures forall other :: IsReconciled(after, other) <==> other == id || IsReconciled(ledger, other)
  {
    hide Word, IntentionOf, Extend, Round, LedgerStory, Latest, Attempts, LedgerWait;
    RoundStory(ledger, id, 0.0, outcome, sha, None);
    assert [I] + [V, O, R] == [I, V, O, R];
    assert [I, V, O, R][3] == R;
  }

  /** Recording the latest effect settles it by one stage. */
  lemma RecordProgresses(s: RunState, operation: Operation, id: EffectId, outcome: Outcome, sha: Option<string>, t: RunState)
    requires LedgerStory(s.ledger) && id.Uuid? && Word(s.ledger, id) == [I]
    requires operation in {Commit, Push} && Latest(s.ledger, operation) == Some(id)
    requires t == Recorded(s, operation, id, outcome, sha)
    ensures Unsettled(t.ledger, operation, Reconciling(operation)) < Unsettled(s.ledger, operation, Reconciling(operation))
  {
    hide Word, IntentionOf, Extend, Round, LedgerStory, Latest, ReObserved;
    RecordSettles(s.ledger, id, t.ledger, outcome, sha);
    assert R !in [I];
  }

  /** Looking once more at a reconciled effect settles it completely. */
  lemma LookProgresses(s: RunState, operation: Operation, target: EffectId, id: EffectId, outcome: Outcome, sha: Option<string>, mid: RunState, t: RunState)
    requires LedgerStory(s.ledger) && operation in {Commit, Push}
    requires Latest(s.ledger, operation) == Some(target) && IsReconciled(s.ledger, target) && IsFresh(s.ledger, id)
    requires mid == Intended(s, Reconciling(operation), EffectTarget(target), id)
    requires t == Recorded(mid, operation, id, outcome, sha)
    ensures Unsettled(t.ledger, operation, Reconciling(operation)) == 0
  {
    hide Word, IntentionOf, Extend, Round, LedgerStory, Latest, Attempts, LedgerWait;
    var intention := Intention(Reconciling(operation), EffectTarget(target), LocalHash(id, Reconciling(operation), EffectTarget(target)));
    ReconciledIsIntended(s.ledger, target);
    IntentionStory(s.ledger, id, intention);
    IntendViews(s.ledger, id, intention);
    assert [] + [I] == [I];
    RecordSettles(mid.ledger, id, t.ledger, outcome, sha);
    assert target != id by { assert R in Word(s.ledger, target); }
    assert mid.ledger == Extend(s.ledger, id, [intention]);
    assert Word(mid.ledger, target) == Word(s.ledger, target);
    assert IntentionOf(t.ledger, id) == Some(intention) && IsReconciled(t.ledger, id);
    assert ReObserved(t.ledger, Reconciling(operation), target);
  }

  /** A new attempt that has just been recorded has not been looked at once more. */
  lemma NewAttemptIsUnsettled(s: RunState, operation: Operation, id: EffectId, outcome: Outcome, sha: Option<string>, mid: RunState, t: RunState)
    requires LedgerStory(s.ledger) && operation in {Commit, Push} && IsFresh(s.ledger, id)
    requires mid == Intended(s, operation, Ticket, id) && t == Recorded(mid, operation, id, outcome, sha)
    ensures !Settled(t.ledger, operation, Reconciling(operation))
  {
    hide Word, IntentionOf, Extend, Round, ValidLedger, Quiet, OnlyBranchCreates, Latest, Attempts, LedgerWait;
    var intention := Intention(operation, Ticket, LocalHash(id, operation, Ticket));
    IntentionIffWord(s.ledger, id);
    IntentionStory(s.ledger, id, intention);
    IntendViews(s.ledger, id, intention);
    assert [] + [I] == [I];
    RecordSettles(mid.ledger, id, t.ledger, outcome, sha);
  }

  // ----- the finalizer process -----

  /** The entry of the Active Run Index for this repository, and the last signed release. */
  datatype IndexEntry = IndexEntry(ours: bool, revision: nat)

  datatype ActiveRunIndex = ActiveRunIndex(active: Option<IndexEntry>, released: Option<ReleaseReceipt>)

  datatype StepResult =
    | McpAction(generation: Generation, request: Request)
    | ReadyToFinalize(generation: Generation)
    | InReview(generation: Generation)
    | Finalized(generation: Generation)

  datatype AdvanceError = Stale | PendingConflict | Died

  datatype ReceiptError = StaleReceiptGeneration | ApprovalChanged | NotConsumed(error: GatewayError)

  class Finalizer {
    const host: Host
    const gateway: LinearGateway
    var index: ActiveRunIndex
    ghost var commitsCalled: nat

    constructor (gateway: LinearGateway, index: ActiveRunIndex)
      ensures this.gateway == gateway && host == gateway.host && this.index == index && commitsCalled == 0
    {
      this.gateway, host, this.index, commitsCalled := gateway, gateway.host, index, 0;
    }

    /** Between two effect steps: nothing in hand, and a generation that is current or overtaken. */
    ghost predicate Rests(generation: Generation)
      reads host, host.store
    {
      && host.Ok() && Doing(host.Now(), host.pid) == Idle
      && Known(generation, host.Now())
      && Inv(generation.state, host.plan.policy)
    }

    /** Nothing can go wrong from here: the surroundings are calm and this is the current generation. */
    ghost predicate IsCalmAt(generation: Generation)
      reads host, host.store
    {
      host.calm && IsCurrent(generation, host.Now())
    }

    /** An intention of `operation` is stored and its result may be recorded in this generation. */
    ghost predicate Engaged(generation: Generation, operation: Operation, id: EffectId)
      reads host, host.store
    {
      && host.Ok() && Known(generation, host.Now())
      && Inv(generation.state, host.plan.policy)
      && operation in {Commit, Push}
      && IsOpen(generation.state, operation, id, host.terms)
    }

    method Intend(generation: Generation, operation: Operation) returns (access: Access, id: EffectId)
      requires Rests(generation) && operation in {Commit, Push}
      requires Finalizing(generation.state, host.terms) && Wants(generation.state, operation)
      requires Settled(generation.state.ledger, operation, Reconciling(operation))
      requires Attempts(generation.state.ledger, operation) < host.plan.policy.maxInvocations
      modifies host, host.store
      ensures MovesTo(old(host.Now()), host.Now(), host.plan)
      ensures id == FreshId(generation.state.ledger)
      ensures access.Current? ==>
        && Engaged(access.generation, operation, id)
        && access.generation == Generation(generation.revision + 1, Intended(generation.state, operation, Ticket, id))
        && Doing(host.Now(), host.pid) == MayCall(access.generation.revision, operation, id, generation.state.commitSha)
      ensures !access.Current? ==> host.Ok() && Doing(host.Now(), host.pid) == Idle
      ensures access.Current? ==> IsCurrent(access.generation, host.Now())
      ensures old(IsCalmAt(generation)) ==> access.Current? && host.repo == old(host.repo) && (old(host.IsClear()) ==> host.IsClear())
    {
      hide WorldInv, MovesTo, Inv, Settled, Attempts, IsOpen, Finalizing, Known;
      var s := generation.state;
      id := FreshId(s.ledger);
      HigherIsFresh(s.ledger, Highest(s.ledger) + 1);
      IntendedIsOpen(s, operation, operation, Ticket, id, host.terms);
      AnnounceMayBeStored(host.Now(), host.pid, operation, id, generation, host.plan);
      access := host.SwapOwn(generation, Announce(operation, id), Intended(s, operation, Ticket, id),
        MayCall(generation.revision + 1, operation, id, s.commitSha));
      if access.Current? {
        CurrentHasInv(host.Now(), host.plan);
      }
    }

    /** Record a result as one complete round of its effect. */
    method RecordLocalResult(generation: Generation, operation: Operation, id: EffectId, outcome: Outcome, sha: Option<string>)
      returns (access: Access)
      requires Engaged(generation, operation, id) && host.HasAnswer(generation.revision, operation, id, sha)
      requires outcome == Success <==> sha.Some?
      requires outcome == Success && operation == Push ==> sha == generation.state.commitSha
      modifies host, host.store
      ensures MovesTo(old(host.Now()), host.Now(), host.plan)
      ensures access.Current? ==>
        && Rests(access.generation)
        && access.generation == Generation(host.store.revision, host.store.state)
        && access.generation == Generation(generation.revision + 1, Recorded(generation.state, operation, id, outcome, sha))
      ensures !access.Current? ==> host.Ok() && Doing(host.Now(), host.pid) == Idle
      ensures old(IsCalmAt(generation)) ==> access.Current? && host.repo == old(host.repo) && (old(host.IsClear()) ==> host.IsClear())
    {
      hide WorldInv, MovesTo, Inv, IsOpen, Known;
      SaveMayBeStored(host.Now(), host.pid, operation, id, outcome, sha, generation, host.plan);
      access := host.SwapOwn(generation, Save(outcome), Recorded(generation.state, operation, id, outcome, sha), Idle);
      if access.Current? {
        CurrentHasInv(host.Now(), host.plan);
      }
    }

    method InvokeCommit(generation: Generation) returns (access: Access)
      requires Rests(generation)
      requires Finalizing(generation.state, host.terms) && Wants(generation.state, Commit)
      requires Settled(generation.state.ledger, Commit, ReconcileCommit)
      requires Attempts(generation.state.ledger, Commit) < host.plan.policy.maxInvocations
      modifies host, host.store, this`commitsCalled
      ensures MovesTo(old(host.Now()), host.Now(), host.plan)
      ensures access.Current? ==> Rests(access.generation) && access.generation.state.disposition == Active
      ensures access.Current? ==> access.generation == Generation(host.store.revision, host.store.state)
      ensures access.Current? ==> commitsCalled == old(commitsCalled) + 1 && access.generation.state.projection == generation.state.projection
      ensures access.Current? && old(host.repo.made) != [] ==>
        && access.generation.state.commitSha == None
        && !Settled(access.generation.state.ledger, Commit, ReconcileCommit)
      ensures !access.Current? ==> host.Ok() && Doing(host.Now(), host.pid) == Idle
      ensures access.Current? ==> SameTerms(generation.state, access.generation.state) && SameOtherAttempts(generation.state, access.generation.state, Commit)
      ensures access.Current? ==> access.generation.state.pushedSha == generation.state.pushedSha
      ensures old(IsCalmAt(generation)) ==> access.Current?
      ensures old(IsCalmAt(generation)) && old(host.IsClear()) ==>
        host.HeldCommit().Some? && access.generation.state.commitSha == host.HeldCommit()
    {
      hide WorldInv, MovesTo, Inv, Settled, Attempts, IsOpen, Known, StateApproved, Recorded, Intended, LedgerStory, BranchGoesOn, IsHeld, IsClearFor, IsFresh, SameTerms, SameOtherAttempts;
      ghost var first := host.Now();
      var id;
      access, id := Intend(generation, Commit);
      if !access.Current? {
        return;
      }
      var intended := access.generation;
      ghost var second := host.Now();
      commitsCalled := commitsCalled + 1;
      var alive, commit := host.CommitManifest(intended.revision, id);
      ghost var third := host.Now();
      MovesOn(first, second, third, host.plan);
      if !alive {
        return Crashed;
      }
      KnownStays(intended, second, third, host.plan);
      MovesKeepTheBranch(first, second, host.plan);
      GainsAreKept(first, second, host.plan);
      LedgerStoryOf(generation.state, host.plan.policy);
      HigherIsFresh(generation.state.ledger, Highest(generation.state.ledger) + 1);
      var recordingFails := *;
      if commit.Some? && (host.calm || !recordingFails) {
        access := RecordLocalResult(intended, Commit, id, Success, commit);
        AttemptShape(generation.state, Commit, id, Success, commit);
        AttemptKeepsTerms(generation.state, Commit, Ticket, Commit, id, Success, commit);
      } else {
        access := RecordLocalResult(intended, Commit, id, Failure, None);
        AttemptShape(generation.state, Commit, id, Failure, None);
        AttemptKeepsTerms(generation.state, Commit, Ticket, Commit, id, Failure, None);
        if access.Current? {
          NewAttemptIsUnsettled(generation.state, Commit, id, Failure, None, intended.state, access.generation.state);
        }
      }
      HeldIsKept(third, host.Now(), host.pid.approval.tree, host.plan);
      MovesOn(first, third, host.Now(), host.plan);
    }

    method InvokePush(generation: Generation) returns (access: Access)
      requires Rests(generation)
      requires Finalizing(generation.state, host.terms) && Wants(generation.state, Push)
      requires Settled(generation.state.ledger, Push, ReconcilePush)
      requires Attempts(generation.state.ledger, Push) < host.plan.policy.maxInvocations
      modifies host, host.store
      ensures MovesTo(old(host.Now()), host.Now(), host.plan)
      ensures access.Current? ==> Rests(access.generation) && access.generation.state.disposition == Active
      ensures access.Current? ==> access.generation == Generation(host.store.revision, host.store.state)
      ensures access.Current? ==> access.generation.state.commitSha == generation.state.commitSha
      ensures !access.Current? ==> host.Ok() && Doing(host.Now(), host.pid) == Idle
      ensures access.Current? ==> SameTerms(generation.state, access.generation.state) && SameOtherAttempts(generation.state, access.generation.state, Push)
      ensures old(IsCalmAt(generation)) && generation.state.commitSha == Some(old(host.repo.head)) ==>
        access.Current? && access.generation.state.pushedSha == generation.state.commitSha
    {
      hide WorldInv, MovesTo, Inv, Settled, Attempts, IsOpen, Known, StateApproved, Recorded, Intended, SameTerms, SameOtherAttempts;
      ghost var first := host.Now();
      var id;
      access, id := Intend(generation, Push);
      if !access.Current? {
        return;
      }
      var intended := access.generation;
      ghost var second := host.Now();
      var alive, pushed := host.PushCommit(intended.revision, id);
      ghost var third := host.Now();
      MovesOn(first, second, third, host.plan);
      if !alive {
        return Crashed;
      }
      KnownStays(intended, second, third, host.plan);
      var recordingFails := *;
      if pushed.Some? && pushed == generation.state.commitSha && (host.calm || !recordingFails) {
        AttemptShape(generation.state, Push, id, Success, pushed);
        AttemptKeepsTerms(generation.state, Push, Ticket, Push, id, Success, pushed);
        access := RecordLocalResult(intended, Push, id, Success, pushed);
      } else {
        access := RecordLocalResult(intended, Push, id, Failure, None);
        AttemptShape(generation.state, Push, id, Failure, None);
        AttemptKeepsTerms(generation.state, Push, Ticket, Push, id, Failure, None);
      }
      MovesOn(first, third, host.Now(), host.plan);
    }

    /** Look whether Git already holds the result, and record what was found. */
    method ObserveLocalEffect(generation: Generation, id: EffectId, operation: Operation) returns (access: Access)
      requires Engaged(generation, operation, id)
      requires Doing(host.Now(), host.pid) == MayLook(generation.revision, operation, id, generation.state.commitSha)
      modifies host, host.store
      ensures MovesTo(old(host.Now()), host.Now(), host.plan)
      ensures access.Current? ==> Rests(access.generation) && access.generation == Generation(host.store.revision, host.store.state)
      ensures access.Current? ==> exists outcome, sha ::
        && access.generation.state == Recorded(generation.state, operation, id, outcome, sha)
        && (outcome == Success <==> sha.Some?)
        && (operation == Commit && old(host.HeldCommit()).Some? ==> outcome == Success && sha == old(host.HeldCommit()))
      ensures !access.Current? ==> host.Ok() && Doing(host.Now(), host.pid) == Idle
      ensures old(IsCalmAt(generation)) ==> access.Current? && host.repo == old(host.repo) && (old(host.IsClear()) ==> host.IsClear())
    {
      hide WorldInv, MovesTo, Inv, IsOpen, Known, Recorded;
      ghost var first := host.Now();
      var alive, observed := host.LookForResult(generation.revision, operation, id);
      ghost var second := host.Now();
      if !alive {
        return Crashed;
      }
      KnownStays(generation, first, second, host.plan);
      if observed.Some? && (operation == Commit || observed == generation.state.commitSha) {
        access := RecordLocalResult(generation, operation, id, Success, observed);
        assert access.Current? ==> access.generation.state == Recorded(generation.state, operation, id, Success, observed);
      } else {
        access := RecordLocalResult(generation, operation, id, Unknown, None);
        assert access.Current? ==> access.generation.state == Recorded(generation.state, operation, id, Unknown, None);
      }
      MovesOn(first, second, host.Now(), host.plan);
    }

    /** What a reconciled generation owes to the one it came from, with the commit that was held then. */
    ghost predicate Settles(before: RunState, after: RunState, operation: Operation, held: Option<string>)
      requires operation in {Commit, Push}
    {
      && SameTerms(before, after) && SameOtherAttempts(before, after, Reconciling(operation))
      && Unsettled(after.ledger, operation, Reconciling(operation)) < Unsettled(before.ledger, operation, Reconciling(operation))
      && (if operation == Commit then after.pushedSha == before.pushedSha else after.commitSha == before.commitSha)
      && (operation == Commit && held.Some? ==> after.commitSha == held)
    }

    /** The latest attempt was never recorded: look for its result under its own effect. */
    method ReconcileUnrecorded(generation: Generation, operation: Operation, id: EffectId) returns (access: Access)
      requires Rests(generation) && operation in {Commit, Push}
      requires Finalizing(generation.state, host.terms) && Wants(generation.state, operation)
      requires Latest(generation.state.ledger, operation) == Some(id) && !IsReconciled(generation.state.ledger, id)
      modifies host, host.store
      ensures MovesTo(old(host.Now()), host.Now(), host.plan)
      ensures access.Current? ==>
        && Rests(access.generation) && access.generation == Generation(host.store.revision, host.store.state)
        && Settles(generation.state, access.generation.state, operation, old(host.HeldCommit()))
      ensures !access.Current? ==> host.Ok() && Doing(host.Now(), host.pid) == Idle
      ensures old(IsCalmAt(generation)) ==> access.Current? && host.repo == old(host.repo) && (old(host.IsClear()) ==> host.IsClear())
    {
      hide WorldInv, MovesTo, Inv, IsOpen, Known, StateApproved, Latest, IsReconciled, Word, IntentionOf, ValidLedger,
        LedgerStory, Recorded, Unsettled, BranchGoesOn, IsHeld, SameTerms, Attempts;
      ghost var first := host.Now();
      var s := generation.state;
      LedgerStoryOf(s, host.plan.policy);
      LatestIsOpen(s, operation, id, host.terms);
      access := host.StartLook(generation, operation, id);
      if !access.Current? {
        return;
      }
      CurrentHasInv(host.Now(), host.plan);
      ghost var second, held := host.Now(), host.HeldCommit();
      access := ObserveLocalEffect(generation, id, operation);
      MovesOn(first, second, host.Now(), host.plan);
      MovesKeepTheBranch(first, second, host.plan);
      if access.Current? {
        ghost var outcome, sha :| access.generation.state == Recorded(s, operation, id, outcome, sha)
          && (outcome == Success <==> sha.Some?)
          && (operation == Commit && held.Some? ==> outcome == Success && sha == held);
        RecordProgresses(s, operation, id, outcome, sha, access.generation.state);
        RecordedShape(s, operation, id, outcome, sha);
        RecordedKeepsTerms(s, operation, id, outcome, sha);
        HeldIsKept(first, second, host.pid.approval.tree, host.plan);
      }
    }

    /** The latest attempt was recorded: look once more, under an effect of its own. */
    method ReconcileOnceMore(generation: Generation, operation: Operation, target: EffectId) returns (access: Access)
      requires Rests(generation) && operation in {Commit, Push}
      requires Finalizing(generation.state, host.terms) && Wants(generation.state, operation)
      requires Latest(generation.state.ledger, operation) == Some(target) && IsReconciled(generation.state.ledger, target)
      requires !ReObserved(generation.state.ledger, Reconciling(operation), target)
      modifies host, host.store
      ensures MovesTo(old(host.Now()), host.Now(), host.plan)
      ensures access.Current? ==>
        && Rests(access.generation) && access.generation == Generation(host.store.revision, host.store.state)
        && Settles(generation.state, access.generation.state, operation, old(host.HeldCommit()))
      ensures !access.Current? ==> host.Ok() && Doing(host.Now(), host.pid) == Idle
      ensures old(IsCalmAt(generation)) ==> access.Current? && host.repo == old(host.repo) && (old(host.IsClear()) ==> host.IsClear())
    {
      hide WorldInv, MovesTo, Inv, IsOpen, Known, StateApproved, Latest, IsReconciled, Word, IntentionOf, ValidLedger,
        LedgerStory, Recorded, Intended, ReObserved, BranchGoesOn, IsHeld, Finalizing, IsFresh, SameTerms, SameOtherAttempts;
      ghost var first := host.Now();
      var s := generation.state;
      var id := FreshId(s.ledger);
      HigherIsFresh(s.ledger, Highest(s.ledger) + 1);
      LedgerStoryOf(s, host.plan.policy);
      var mid := Intended(s, Reconciling(operation), EffectTarget(target), id);
      ReconciledIsIntended(s.ledger, target);
      IntendedIsOpen(s, operation, Reconciling(operation), EffectTarget(target), id, host.terms);
      LookMayBeStored(first, host.pid, operation, target, id, generation, host.plan);
      access := host.SwapOwn(generation, AnnounceLook(operation, target, id), mid,
        MayLook(generation.revision + 1, operation, id, s.commitSha));
      if !access.Current? {
        return;
      }
      CurrentHasInv(host.Now(), host.plan);
      ghost var second, held := host.Now(), host.HeldCommit();
      access := ObserveLocalEffect(access.generation, id, operation);
      MovesOn(first, second, host.Now(), host.plan);
      MovesKeepTheBranch(first, second, host.plan);
      if access.Current? {
        ghost var outcome, sha :| access.generation.state == Recorded(mid, operation, id, outcome, sha)
          && (outcome == Success <==> sha.Some?)
          && (operation == Commit && held.Some? ==> outcome == Success && sha == held);
        LookProgresses(s, operation, target, id, outcome, sha, mid, access.generation.state);
        RecordedShape(mid, operation, id, outcome, sha);
        AttemptKeepsTerms(s, Reconciling(operation), EffectTarget(target), operation, id, outcome, sha);
        HeldIsKept(first, second, host.pid.approval.tree, host.plan);
      }
    }

    /**
    Bring the latest attempt one stage further: record it if it never was, or
    look once more at one that was recorded. Nothing is left to do exactly when
    that attempt is settled. A commit that is already on the branch is adopted.
    */
    method ReconcileLocalEffect(generation: Generation, operation: Operation) returns (access: Access, changed: bool)
      requires Rests(generation) && operation in {Commit, Push}
      requires Finalizing(generation.state, host.terms) && Wants(generation.state, operation)
      modifies host, host.store
      ensures MovesTo(old(host.Now()), host.Now(), host.plan)
      ensures !changed <==> Settled(generation.state.ledger, operation, Reconciling(operation))
      ensures !changed ==> access == Current(generation) && Rests(generation)
      ensures changed && access.Current? ==>
        && Rests(access.generation) && access.generation == Generation(host.store.revision, host.store.state)
        && Settles(generation.state, access.generation.state, operation, old(host.HeldCommit()))
      ensures !access.Current? ==> host.Ok() && Doing(host.Now(), host.pid) == Idle
      ensures old(IsCalmAt(generation)) ==> access.Current? && host.repo == old(host.repo) && (old(host.IsClear()) ==> host.IsClear())
      ensures !changed ==> host.Now() == old(host.Now())
    {
      hide WorldInv, MovesTo, Inv, Known, Finalizing, Latest, IsReconciled, ReObserved, ValidLedger, Settles;
      NothingHappens(host.Now(), host.pid, host.plan);
      var s := generation.state;
      InvHasValidLedger(s, host.plan.policy);
      var latest := Latest(s.ledger, operation);
      if latest == None {
        return Current(generation), false;
      }
      var id := latest.value;
      var checked := ValidateEffectLedger(s.ledger);
      var (intentions, phases) := checked.value;
      LatestIsIntended(s.ledger, operation);
      PhasesMatch(s.ledger, intentions, phases, Reconciling(operation), id);
      if phases[id] != Reconciled {
        access := ReconcileUnrecorded(generation, operation, id);
        return access, true;
      }
      if exists other <- intentions.Keys :: LooksAt(intentions[other], Reconciling(operation), id) && phases[other] == Reconciled {
        return Current(generation), false;
      }
      access := ReconcileOnceMore(generation, operation, id);
      changed := true;
    }

    // ----- approval, position, review and release -----

    method VerifyApproval(s: RunState) returns (ok: bool)
      ensures ok ==> StateApproved(s, host.terms)
      ensures host.calm ==> (ok <==> StateApproved(s, host.terms))
    {
      var artifactsHold := *;
      ok := (host.calm || artifactsHold) && StateApproved(s, host.terms);
    }

    /** A commit is recorded, and the branch has gained another one. */
    predicate IsOvertaken(generation: Generation, w: World) {
      generation.state.commitSha.Some? && |w.repo.made| > 1
    }

    /** Whether branch, remote base, recorded commit and recorded push are still what they should be. */
    method VerifyGitPosition(generation: Generation) returns (ok: bool)
      requires Rests(generation)
      modifies host, host.store
      ensures Rests(generation) && MovesTo(old(host.Now()), host.Now(), host.plan)
      ensures Meanwhile(old(host.Now()), host.Now(), host.pid, host.plan)
      ensures host.calm ==> host.Now() == old(host.Now())
      ensures old(IsCalmAt(generation) && HoldsRecorded(generation.state, host.Now())) && generation.state.branch.Some? ==> ok
      ensures IsOvertaken(generation, old(host.Now())) ==> !ok
    {
      hide WorldInv, MovesTo, Meanwhile, Inv, BranchGoesOn;
      ghost var first := host.Now();
      host.Interfere();
      ghost var second := host.Now();
      var s := generation.state;
      var refreshed := *;
      PositionHolds(second, host.pid, host.plan);
      MovesKeepTheBranch(first, second, host.plan);
      OvertakenIsUnverified(first, second, host.pid, host.plan);
      ok := && s.branch.Some? && (host.calm || refreshed)
            && (s.commitSha.Some? ==>
                  IsVerified(host.repo, host.pid.approval.tree, host.plan) && s.commitSha == Some(host.repo.head));
      host.Interfere();
      MeanwhileOn(first, second, host.Now(), host.pid, host.plan);
      MovesOn(first, second, host.Now(), host.plan);
      ok := ok && (s.pushedSha.Some? ==> host.repo.remote == s.pushedSha);
    }

    /** Store the finalization failure, unless the run is in review already. */
    method SendToReview(generation: Generation) returns (r: Result<StepResult, AdvanceError>)
      requires Rests(generation)
      requires var s := generation.state;
        s.disposition in {Active, WaitingMcp, HumanReview} || (s.disposition == Done && !s.released)
      modifies host, host.store
      ensures host.Ok() && Doing(host.Now(), host.pid) == Idle && MovesTo(old(host.Now()), host.Now(), host.plan)
      ensures r.Ok? ==> r.value.InReview? && r.value.generation.state.disposition == HumanReview && Rests(r.value.generation)
      ensures old(IsCalmAt(generation)) ==> r.Ok?
      ensures r.Ok? ==> r.value.generation == if generation.state.disposition == HumanReview then generation
                                              else Generation(generation.revision + 1, FailedState(generation.state))
    {
      hide WorldInv, MovesTo, Inv, Known, Enabled, After;
      NothingHappens(host.Now(), host.pid, host.plan);
      if generation.state.disposition == RunStates.HumanReview {
        return Ok(InReview(generation));
      }
      EscalateStores(generation.state, host.terms);
      var access := host.Swap(generation, Escalate, FailedState(generation.state));
      if access.Current? {
        CurrentHasInv(host.Now(), host.plan);
        return Ok(InReview(access.generation));
      }
      r := Err(if access.LostRace? then Stale else Died);
    }

    /** The index has released exactly this terminal generation, and signed for it. */
    predicate IsReleased(generation: Generation)
      reads this
    {
      && index.active == None && index.released.Some?
      && index.released.value.signed
      && generation.state.releaseBinding == Some(index.released.value.binding)
      && index.released.value.terminalRevision == generation.revision
    }

    /** The index still holds this run's entry as it was bound, or has already released it. */
    predicate IsReleasable(generation: Generation)
      reads this
    {
      if index.active.Some?
      then index.active.value.ours && generation.state.releaseBinding == Some(ReleaseBinding(index.active.value.revision))
      else IsReleased(generation)
    }

    /**
    Release the index entry of a finished run and mark the run released. The
    mark is only ever stored for a generation the index has signed off; a
    release whose mark was lost is found again. None: the release failed.
    */
    method ReleaseActiveRun(generation: Generation) returns (access: Option<Access>)
      requires Rests(generation) && generation.state.disposition == Done && !generation.state.released
      modifies host, host.store, this`index
      ensures host.Ok() && Doing(host.Now(), host.pid) == Idle && MovesTo(old(host.Now()), host.Now(), host.plan)
      ensures access == None ==> Rests(generation)
      ensures access.Some? && access.value.Current? ==>
        && IsReleased(generation)
        && Rests(access.value.generation)
        && access.value.generation == Generation(generation.revision + 1, ReleasedState(generation.state, index.released.value))
      ensures old(IsReleased(generation)) ==> index == old(index)
      ensures old(IsCalmAt(generation) && IsReleasable(generation)) ==> access.Some? && access.value.Current?
    {
      hide WorldInv, MovesTo, Inv, Known, Enabled, After;
      ghost var first := host.Now();
      NothingHappens(first, host.pid, host.plan);
      if index.active.Some? {
        var entry := index.active.value;
        if !entry.ours || generation.state.releaseBinding != Some(ReleaseBinding(entry.revision)) {
          return None;
        }
        var breaks := *;
        if breaks && !host.calm {
          return None;
        }
        index := ActiveRunIndex(None, Some(ReleaseReceipt(ReleaseBinding(entry.revision), generation.revision, true)));
      }
      if !IsReleased(generation) {
        return None;
      }
      MarkStores(generation.state, index.released.value, host.terms);
      var marked := host.Swap(generation, MarkReleased(index.released.value), ReleasedState(generation.state, index.released.value));
      if marked.Current? {
        CurrentHasInv(host.Now(), host.plan);
      }
      access := Some(marked);
    }

    /** A run that is neither active nor waiting: finish a pending release, or report it. */
    method GatedResult(generation: Generation) returns (r: Result<StepResult, AdvanceError>)
      requires Rests(generation) && generation.state.disposition !in {Active, WaitingMcp}
      modifies host, host.store, this`index
      ensures host.Ok() && Doing(host.Now(), host.pid) == Idle && MovesTo(old(host.Now()), host.Now(), host.plan)
      ensures r.Ok? ==> Describes(r.value) && Known(r.value.generation, host.Now())
      ensures generation.state.disposition == Done && generation.state.released ==>
        r == Ok(Finalized(generation)) && host.Now() == old(host.Now()) && index == old(index)
      ensures generation.state.disposition == Done && !generation.state.released && old(IsCalmAt(generation) && IsReleasable(generation)) ==>
        r.Ok? && r.value.Finalized?
      ensures generation.state.disposition != Done ==> r == Ok(InReview(generation))
    {
      hide WorldInv, MovesTo, Inv, Known;
      ghost var first := host.Now();
      NothingHappens(first, host.pid, host.plan);
      if generation.state.disposition != Done {
        return Ok(InReview(generation));
      }
      if generation.state.released {
        return Ok(Finalized(generation));
      }
      r := FinishRelease(generation);
    }

    method FinishRelease(generation: Generation) returns (r: Result<StepResult, AdvanceError>)
      requires Rests(generation) && generation.state.disposition == Done && !generation.state.released
      modifies host, host.store, this`index
      ensures host.Ok() && Doing(host.Now(), host.pid) == Idle && MovesTo(old(host.Now()), host.Now(), host.plan)
      ensures r.Ok? ==> Describes(r.value) && Known(r.value.generation, host.Now())
      ensures r.Ok? && r.value.Finalized? ==> r.value.generation.revision == generation.revision + 1
      ensures r.Ok? ==> r.value.Finalized? || r.value.InReview?
      ensures r.Ok? && r.value.Finalized? ==> r.value.generation.state.commitSha == generation.state.commitSha
      ensures old(IsCalmAt(generation) && IsReleasable(generation)) ==> r.Ok? && r.value.Finalized?
      ensures r.Ok? && r.value.Finalized? ==> r.value.generation.state.evidence == generation.state.evidence
    {
      hide WorldInv, MovesTo, Inv, Known;
      ghost var first := host.Now();
      var released := ReleaseActiveRun(generation);
      ghost var second := host.Now();
      match released {
        case None =>
          r := SendToReview(generation);
          MovesOn(first, second, host.Now(), host.plan);
        case Some(Current(done)) =>
          r := Ok(Finalized(done));
        case Some(LostRace) =>
          r := Err(Stale);
        case Some(Crashed) =>
          r := Err(Died);
      }
    }

    // ----- the saga -----

    function RequestFor(generation: Generation, operation: Operation, arguments: map<string, string>): Request {
      var id := FreshId(generation.state.ledger);
      Request(id.n, id, operation, Ticket, arguments, Some(host.plan.policy.externalRevision), generation.revision)
    }

    method AskLinear(generation: Generation, operation: Operation) returns (r: Result<StepResult, AdvanceError>)
      requires gateway.host == host && Rests(generation) && generation.state.disposition == Active
      requires StateApproved(generation.state, host.terms)
      requires operation == QueryProjection || operation == CompleteTicket
      requires operation == QueryProjection ==> generation.state.projection == None
      requires operation == CompleteTicket ==>
        && Finalizing(generation.state, host.terms) && generation.state.commitSha.Some? && generation.state.pushedSha.Some?
        && generation.state.doneReceipt == None && Attempts(generation.state.ledger, CompleteTicket) < host.plan.policy.maxInvocations
      modifies host, host.store
      ensures host.Ok() && Doing(host.Now(), host.pid) == Idle && MovesTo(old(host.Now()), host.Now(), host.plan)
      ensures r.Ok? ==> r.value.McpAction? && Describes(r.value) && Known(r.value.generation, host.Now())
      ensures old(IsCalmAt(generation)) && generation.state.pending == None ==>
        && r.Ok? && r.value.request.operation == operation && host.repo == old(host.repo)
        && r.value.generation == Generation(generation.revision + 1, PendingState(generation.state, r.value.request))
        && IsCurrent(r.value.generation, host.Now())
    {
      hide WorldInv, MovesTo, Meanwhile, Inv, Known, StateApproved, Attempts, Finalizing, Enabled, PendingState;
      var state := if operation == QueryProjection then host.plan.policy.stateId else host.plan.policy.completedStateId;
      var request := RequestFor(generation, operation, map["state_id" := state]);
      HigherIsFresh(generation.state.ledger, Highest(generation.state.ledger) + 1);
      if generation.state.pending == None {
        MayAskNow(generation.state, request, host.terms);
      }
      ghost var asked;
      var persisted;
      persisted, asked := gateway.PersistPending(generation, request);
      match persisted {
        case Ok(waiting) => r := Ok(McpAction(waiting, request));
        case Err(StoreConflict) => r := Err(Stale);
        case Err(Ended) => r := Err(Died);
        case Err(_) => r := Err(AdvanceError.PendingConflict);
      }
    }

    /** Rebuild the request a waiting run is waiting for. */
    method ReportPending(generation: Generation) returns (r: Result<StepResult, AdvanceError>)
      requires gateway.host == host && Rests(generation) && generation.state.disposition == WaitingMcp
      modifies host, host.store
      ensures host.Ok() && Doing(host.Now(), host.pid) == Idle && MovesTo(old(host.Now()), host.Now(), host.plan)
      ensures r.Ok? ==> generation.state.pending.Some? && r.value == McpAction(generation, generation.state.pending.value)
      ensures r.Ok? ==> Known(generation, host.Now())
    {
      hide WorldInv, MovesTo, Meanwhile, Inv;
      WaitingHasPending(generation.state, host.plan.policy);
      var replayed := gateway.ReplayPending(generation);
      if replayed.Err? {
        return Err(Stale);
      }
      r := Ok(McpAction(generation, replayed.value.value));
    }

    /** Store DONE with all four pieces of evidence, then release the index entry. */
    method Finish(generation: Generation) returns (r: Result<StepResult, AdvanceError>)
      requires Rests(generation) && Finalizing(generation.state, host.terms) && Complete(generation.state)
      modifies host, host.store, this`index
      ensures host.Ok() && Doing(host.Now(), host.pid) == Idle && MovesTo(old(host.Now()), host.Now(), host.plan)
      ensures r.Ok? ==> Describes(r.value) && Known(r.value.generation, host.Now())
      ensures r.Ok? ==> r.value.Finalized? || r.value.InReview?
      ensures r.Ok? && r.value.Finalized? ==> r.value.generation.state.commitSha == generation.state.commitSha
      ensures
        && old(IsCalmAt(generation) && HoldsRecorded(generation.state, host.Now())) && generation.state.branch.Some? && generation.state.pending == None
        && old(index.active).Some? && old(index.active).value.ours
        ==> r.Ok? && r.value.Finalized?
      ensures r.Ok? && r.value.Finalized? ==> r.value.generation.state.evidence == Some(EvidenceOf(generation.state))
    {
      hide WorldInv, MovesTo, Meanwhile, Inv, Known, StateApproved, Enabled, After;
      ghost var first := host.Now();
      NothingHappens(first, host.pid, host.plan);
      var approved := VerifyApproval(generation.state);
      var positioned := VerifyGitPosition(generation);
      ghost var second := host.Now();
      if !approved || !positioned || index.active == None || !index.active.value.ours {
        r := SendToReview(generation);
        MovesOn(first, second, host.Now(), host.plan);
        return;
      }
      if generation.state.pending.Some? {
        return Err(AdvanceError.PendingConflict);   // the store does not finish a run that waits for a receipt
      }
      var binding := ReleaseBinding(index.active.value.revision);
      FinishStores(generation.state, binding, host.terms);
      var done := host.Swap(generation, Write.Finish(binding), DoneState(generation.state, binding));
      ghost var third := host.Now();
      MovesOn(first, second, third, host.plan);
      if !done.Current? {
        return Err(if done.LostRace? then Stale else Died);
      }
      CurrentHasInv(third, host.plan);
      DoneIsUnreleased(generation.state, binding, host.plan.policy);
      assert IsReleasable(done.generation);
      r := FinishRelease(done.generation);
      MovesOn(first, third, host.Now(), host.plan);
    }

    /** One step nearer to the end: an effect recorded, or its latest attempt settled further. */
    ghost predicate IsCloser(after: RunState, before: RunState) {
      || (before.commitSha == None && after.commitSha.Some?)
      || (before.commitSha == None && after.commitSha == None && after.pushedSha == before.pushedSha
          && Unsettled(after.ledger, Commit, ReconcileCommit) < Unsettled(before.ledger, Commit, ReconcileCommit))
      || (before.commitSha.Some? && after.commitSha == before.commitSha
          && ((before.pushedSha == None && after.pushedSha.Some?)
              || (after.pushedSha == before.pushedSha
                  && Unsettled(after.ledger, Push, ReconcilePush) < Unsettled(before.ledger, Push, ReconcilePush))))
    }

    /** An approved run with the approved projection and a branch, whose waiting time is over. */
    predicate MayGoOn(s: RunState, now: real) {
      && Finalizing(s, host.terms)
      && s.branch.Some?
      && (s.nextEligible.Some? ==> s.nextEligible.value <= now)
    }

    /** The saga went no further than where it was. */
    predicate IsHalted(result: StepResult, generation: Generation) {
      result.InReview? || result == ReadyToFinalize(generation)
    }

    /** The checks every round of the saga starts with; None when the round may go on to its effects. */
    method Enter(generation: Generation, now: real) returns (r: Option<Result<StepResult, AdvanceError>>)
      requires gateway.host == host && Rests(generation)
      modifies host, host.store, this`index
      ensures host.Ok() && Doing(host.Now(), host.pid) == Idle && MovesTo(old(host.Now()), host.Now(), host.plan)
      ensures r == None ==> Rests(generation) && Finalizing(generation.state, host.terms)
      ensures r.Some? && r.value.Ok? ==> Describes(r.value.value) && Known(r.value.value.generation, host.Now())
      ensures generation.state.disposition == Done && generation.state.released ==>
        r == Some(Ok(Finalized(generation))) && host.Now() == old(host.Now())
      ensures generation.state.disposition == Active && r.Some? && r.value.Ok? ==>
        || r.value.value == ReadyToFinalize(generation)
        || r.value.value.InReview?
        || (r.value.value.McpAction? && generation.state.projection == None)
      ensures old(IsCalmAt(generation) && HoldsRecorded(generation.state, host.Now())) && MayGoOn(generation.state, now) ==> r == None && host.Now() == old(host.Now()) && index == old(index)
      ensures generation.state.disposition == Active && IsOvertaken(generation, old(host.Now())) ==> r.Some? && (r.value.Ok? ==> IsHalted(r.value.value, generation))
    {
      hide WorldInv, MovesTo, Meanwhile, Inv, Known, StateApproved;
      ghost var first := host.Now();
      NothingHappens(first, host.pid, host.plan);
      var s := generation.state;
      if s.disposition == WaitingMcp {
        var pending := ReportPending(generation);
        return Some(pending);
      }
      if s.disposition != Active {
        var gated := GatedResult(generation);
        return Some(gated);
      }
      if s.nextEligible.Some? && now < s.nextEligible.value {
        return Some(Ok(ReadyToFinalize(generation)));
      }
      var approved := VerifyApproval(s);
      if !approved {
        var review := SendToReview(generation);
        return Some(review);
      }
      CommitHasProjection(s, host.plan.policy);
      if s.projection == None {
        var asked := AskLinear(generation, QueryProjection);
        return Some(asked);
      }
      var positioned := VerifyGitPosition(generation);
      if s.projection != Some(host.plan.policy.projection) || !positioned {
        ghost var mid := host.Now();
        var review := SendToReview(generation);
        MovesOn(first, mid, host.Now(), host.plan);
        return Some(review);
      }
      r := None;
    }

    /** The approved commit is held on the branch and the run has not recorded it. */
    predicate CommitIsUnrecorded(generation: Generation, held: Option<string>) {
      && held.Some?
      && generation.state.disposition == Active
      && generation.state.projection == Some(host.plan.policy.projection)
      && generation.state.commitSha == None
    }

    /** It is unrecorded, and the latest attempt is not settled: the saga will look before it acts. */
    ghost predicate CommitIsLost(generation: Generation, held: Option<string>) {
      CommitIsUnrecorded(generation, held) && !Settled(generation.state.ledger, Commit, ReconcileCommit)
    }

    /** A recorded commit is still held on the branch. */
    ghost predicate HoldsRecorded(s: RunState, w: World) {
      s.commitSha.Some? ==> HeldBy(w).Some?
    }

    /** Attempts are left for what is still to be done, and the branch is clear for the commit or already holds it unsettled. */
    ghost predicate HasRoom(s: RunState, w: World) {
      && HoldsRecorded(s, w)
      && Attempts(s.ledger, CompleteTicket) < host.plan.policy.maxInvocations
      && (s.commitSha == None ==>
            && Attempts(s.ledger, Commit) < host.plan.policy.maxInvocations
            && (IsClearFor(w, host.pid, host.plan) || (HeldBy(w).Some? && !Settled(s.ledger, Commit, ReconcileCommit))))
      && (s.pushedSha == None ==> Attempts(s.ledger, Push) < host.plan.policy.maxInvocations)
    }

    lemma RoomHolds(s: RunState, w: World)
      ensures HasRoom(s, w) ==> HoldsRecorded(s, w)
    {
    }

    /** Settle the latest attempt of an effect, or, when nothing is left to settle, make a new one within the allowed number. */
    method PursueEffect(generation: Generation, operation: Operation)
      returns (r: Option<Result<StepResult, AdvanceError>>, next: Generation)
      requires Rests(generation) && operation in {Commit, Push}
      requires Finalizing(generation.state, host.terms) && Wants(generation.state, operation)
      modifies host, host.store, this`commitsCalled
      ensures host.Ok() && Doing(host.Now(), host.pid) == Idle && MovesTo(old(host.Now()), host.Now(), host.plan)
      ensures r == None ==> Rests(next) && next.state.disposition == Active && IsCloser(next.state, generation.state)
      ensures r.Some? && r.value.Ok? ==>
        && !r.value.value.McpAction? && Describes(r.value.value) && Known(r.value.value.generation, host.Now())
      ensures operation == Push ==>
        && commitsCalled == old(commitsCalled)
        && (r.Some? && r.value.Ok? && !r.value.value.InReview? ==> r.value.value.generation.state.commitSha == generation.state.commitSha)
      ensures operation == Commit && !Settled(generation.state.ledger, Commit, ReconcileCommit) ==>
        && commitsCalled == old(commitsCalled)
        && (r.Some? ==> r.value.Err?)
        && (r == None && old(host.HeldCommit()).Some? ==> next.state.commitSha == old(host.HeldCommit()))
      ensures operation == Commit && Settled(generation.state.ledger, Commit, ReconcileCommit) && old(host.HeldCommit()).Some? ==>
        && r.Some?
        && (r.value.Ok? && !r.value.value.InReview? ==>
              && r.value.value.ReadyToFinalize? && commitsCalled == old(commitsCalled) + 1
              && CommitIsLost(r.value.value.generation, host.HeldCommit()))
      ensures r == None ==> SameTerms(generation.state, next.state)
      ensures old(IsCalmAt(generation)) && HasRoom(generation.state, old(host.Now())) ==>
        r == None && IsCalmAt(next) && HasRoom(next.state, host.Now())
    {
      hide WorldInv, MovesTo, Meanwhile, Inv, Known, StateApproved, Attempts, Latest, Settled, Unsettled, BranchGoesOn, IsHeld;
      ghost var first := host.Now();
      next := generation;
      WhatIsHeld(first, host.pid, host.plan);
      var access, changed := ReconcileLocalEffect(generation, operation);
      ghost var second := host.Now();
      HeldIsKept(first, second, host.pid.approval.tree, host.plan);
      WhatIsHeld(second, host.pid, host.plan);
      if !access.Current? {
        return Some(Err(if access.LostRace? then Stale else Died)), next;
      }
      if changed {
        return None, access.generation;
      }
      if Attempts(generation.state.ledger, operation) >= host.plan.policy.maxInvocations {
        var review := SendToReview(generation);
        MovesOn(first, second, host.Now(), host.plan);
        return Some(review), next;
      }
      if operation == Commit {
        access := InvokeCommit(generation);
      } else {
        access := InvokePush(generation);
      }
      MovesOn(first, second, host.Now(), host.plan);
      MovesKeepTheBranch(first, host.Now(), host.plan);
      HeldIsKept(first, host.Now(), host.pid.approval.tree, host.plan);
      if !access.Current? {
        return Some(Err(if access.LostRace? then Stale else Died)), next;
      }
      next := access.generation;
      var recorded := if operation == Commit then next.state.commitSha else next.state.pushedSha;
      r := if recorded == None then Some(Ok(ReadyToFinalize(next))) else None;
    }

    lemma GoesOn(s: RunState, t: RunState, now: real)
      requires SameTerms(s, t)
      ensures MayGoOn(s, now) ==> MayGoOn(t, now)
      ensures t.pending == s.pending && t.doneReceipt == s.doneReceipt
    {
    }

    /** Calm surroundings and a run with nothing in its way. */
    ghost predicate IsWell(generation: Generation, now: real)
      reads host, host.store
    {
      && IsCalmAt(generation)
      && MayGoOn(generation.state, now)
      && generation.state.pending == None
      && HasRoom(generation.state, host.Now())
    }

    /** With commit and push recorded: ask for the completion, or finish with it. */
    method CompleteTicketOrFinish(generation: Generation) returns (r: Result<StepResult, AdvanceError>)
      requires gateway.host == host && Rests(generation) && Finalizing(generation.state, host.terms)
      requires generation.state.commitSha.Some? && generation.state.pushedSha.Some?
      modifies host, host.store, this`index
      ensures host.Ok() && Doing(host.Now(), host.pid) == Idle && MovesTo(old(host.Now()), host.Now(), host.plan)
      ensures r.Ok? ==> Describes(r.value) && Known(r.value.generation, host.Now()) && !r.value.ReadyToFinalize?
      ensures r.Ok? && r.value.Finalized? ==> r.value.generation.state.commitSha == generation.state.commitSha
      ensures
        && old(IsCalmAt(generation)) && generation.state.pending == None && HasRoom(generation.state, old(host.Now()))
        && generation.state.doneReceipt == None
        ==> r.Ok? && IsCompletionAsked(r.value)
      ensures
        && old(IsCalmAt(generation) && HoldsRecorded(generation.state, host.Now())) && generation.state.pending == None && generation.state.branch.Some?
        && generation.state.doneReceipt.Some? && old(index.active).Some? && old(index.active).value.ours
        ==> r.Ok? && r.value.Finalized?
    {
      hide WorldInv, MovesTo, Meanwhile, Inv, Known, StateApproved, Attempts, IsClosed;
      if generation.state.doneReceipt.Some? {
        r := Finish(generation);
        return;
      }
      if Attempts(generation.state.ledger, CompleteTicket) >= host.plan.policy.maxInvocations {
        r := SendToReview(generation);
        return;
      }
      CommitIsPushed(generation.state, host.plan.policy);
      ghost var first := host.Now();
      r := AskLinear(generation, CompleteTicket);
      HeldIsKept(first, host.Now(), host.pid.approval.tree, host.plan);
      PositionHolds(host.Now(), host.pid, host.plan);
      if r.Ok? {
        PendingShape(generation.state, r.value.request);
      }
    }

    /** The run waits for its completion, with the one verified commit recorded, pushed and on the remote. */
    ghost predicate IsCompletionAsked(result: StepResult)
      reads host, host.store
    {
      && result.McpAction? && result.request.operation == CompleteTicket
      && result.generation.state.disposition == WaitingMcp
      && IsVerified(host.repo, host.pid.approval.tree, host.plan)
      && result.generation.state.pushedSha == result.generation.state.commitSha == Some(host.repo.head) == host.repo.remote
    }

    /** The rounds of the saga, from the current generation on. */
    method Carry(generation: Generation, now: real) returns (r: Result<StepResult, AdvanceError>)
      requires gateway.host == host && Rests(generation)
      modifies host, host.store, this`index, this`commitsCalled
      ensures host.Ok() && Doing(host.Now(), host.pid) == Idle && MovesTo(old(host.Now()), host.Now(), host.plan)
      ensures r.Ok? ==> Describes(r.value) && Known(r.value.generation, host.Now())
      ensures generation.state.disposition == Done && generation.state.released ==>
        r == Ok(Finalized(generation)) && host.Now() == old(host.Now())
      ensures CommitIsLost(generation, old(host.HeldCommit())) ==>
        && commitsCalled == old(commitsCalled)
        && (r.Ok? && (r.value.ReadyToFinalize? || r.value.Finalized?) ==>
              r.value.generation == generation || r.value.generation.state.commitSha == old(host.HeldCommit()))
      ensures CommitIsUnrecorded(generation, old(host.HeldCommit())) && Settled(generation.state.ledger, Commit, ReconcileCommit) ==>
        (r.Ok? && r.value.generation != generation && !r.value.InReview? ==>
           r.value.ReadyToFinalize? && commitsCalled == old(commitsCalled) + 1 && CommitIsLost(r.value.generation, host.HeldCommit()))
      ensures generation.state.disposition == Active && IsOvertaken(generation, old(host.Now())) ==> (r.Ok? ==> IsHalted(r.value, generation))
      ensures old(IsWell(generation, now)) && generation.state.doneReceipt == None ==> r.Ok? && IsCompletionAsked(r.value)
      ensures old(IsWell(generation, now)) && generation.state.doneReceipt.Some? && old(index.active).Some? && old(index.active).value.ours ==>
        r.Ok? && r.value.Finalized?
    {
      hide WorldInv, MovesTo, Meanwhile, Inv, Known, StateApproved, Attempts, Latest, Settled, Unsettled, BranchGoesOn, IsHeld, Held, SameTerms, HasRoom, HoldsRecorded, IsCompletionAsked, IsOvertaken, IsHalted;
      ghost var first := host.Now();
      NothingHappens(first, host.pid, host.plan);
      var g := generation;
      ghost var lost := CommitIsLost(generation, HeldBy(first));
      ghost var well := IsWell(generation, now);
      ghost var missed := CommitIsUnrecorded(generation, HeldBy(first)) && Settled(generation.state.ledger, Commit, ReconcileCommit);
      ghost var overtaken := generation.state.disposition == Active && IsOvertaken(generation, first);
      while true
        invariant Rests(g) && MovesTo(first, host.Now(), host.plan)
        invariant g == generation || (g.state.disposition == Active && generation.state.disposition == Active)
        invariant g == generation && generation.state.disposition != Active ==> host.Now() == first
        invariant lost || missed ==> commitsCalled == old(commitsCalled)
        invariant missed || overtaken ==> g == generation
        invariant overtaken ==> host.Now() == first
        invariant well ==> IsWell(g, now) && g.state.doneReceipt == generation.state.doneReceipt && index == old(index)
        invariant lost ==> g == generation || g.state.commitSha == HeldBy(first)
        decreases if g.state.commitSha == None then 1 else 0,
                  if g.state.pushedSha == None then 1 else 0,
                  if g.state.commitSha == None then Unsettled(g.state.ledger, Commit, ReconcileCommit)
                  else Unsettled(g.state.ledger, Push, ReconcilePush)
      {
        var s := g.state;
        ghost var before := host.Now();
        RoomHolds(s, before);
        var stopped := Enter(g, now);
        ghost var mid := host.Now();
        MovesOn(first, before, mid, host.plan);
        if stopped.Some? {
          return stopped.value;
        }
        MovesKeepTheBranch(first, mid, host.plan);
        HeldIsKept(first, mid, host.pid.approval.tree, host.plan);
        if s.commitSha == None || s.pushedSha == None {
          var result, next := PursueEffect(g, if s.commitSha == None then Commit else Push);
          MovesOn(first, mid, host.Now(), host.plan);
          if result.Some? {
            return result.value;
          }
          GoesOn(g.state, next.state, now);
          g := next;
          continue;
        }
        r := CompleteTicketOrFinish(g);
        MovesOn(first, mid, host.Now(), host.plan);
        return;
      }
    }

    /**
    One call of the saga, from any generation, with any interference and a
    crash possible anywhere: it ends; every step it takes is a legal step of
    the world; and a finished and released run is left as it is. A commit that
    is on the branch but not recorded is adopted without another Git call
    exactly when its latest attempt is not settled; when it is settled, one more
    call is made, which the guard refuses, and the next advance adopts. When
    the branch has gained another commit than the recorded one, the run goes no
    further than review. In calm surroundings a run with nothing in its way is committed, pushed and waiting
    for its completion, or, with the completion there, finished and released.
    */
    method Advance(generation: Generation, now: real) returns (r: Result<StepResult, AdvanceError>)
      requires gateway.host == host
      requires host.Ok() && Doing(host.Now(), host.pid) == Idle
      modifies host, host.store, this`index, this`commitsCalled
      ensures host.Ok() && Doing(host.Now(), host.pid) == Idle && MovesTo(old(host.Now()), host.Now(), host.plan)
      ensures r.Ok? ==> Describes(r.value) && Known(r.value.generation, host.Now())
      ensures generation.state.disposition == Done && generation.state.released ==>
        r in {Ok(Finalized(generation)), Err(Stale)} && Meanwhile(old(host.Now()), host.Now(), host.pid, host.plan)
      ensures CommitIsLost(generation, old(host.HeldCommit())) ==>
        && commitsCalled == old(commitsCalled)
        && (r.Ok? && (r.value.ReadyToFinalize? || r.value.Finalized?) ==>
              r.value.generation == generation || r.value.generation.state.commitSha == old(host.HeldCommit()))
      ensures CommitIsUnrecorded(generation, old(host.HeldCommit())) && Settled(generation.state.ledger, Commit, ReconcileCommit) ==>
        (r.Ok? && r.value.generation != generation && !r.value.InReview? ==>
           r.value.ReadyToFinalize? && commitsCalled == old(commitsCalled) + 1 && CommitIsLost(r.value.generation, host.HeldCommit()))
      ensures generation.state.disposition == Active && IsOvertaken(generation, old(host.Now())) ==> (r.Ok? ==> IsHalted(r.value, generation))
      ensures old(IsWell(generation, now)) && generation.state.doneReceipt == None ==> r.Ok? && IsCompletionAsked(r.value)
      ensures old(IsWell(generation, now)) && generation.state.doneReceipt.Some? && old(index.active).Some? && old(index.active).value.ours ==>
        r.Ok? && r.value.Finalized?
    {
      hide WorldInv, MovesTo, Meanwhile, Inv, Known, Finalizing, HasRoom, Latest, IsCompletionAsked, Describes, BranchGoesOn, IsHeld;
      ghost var first := host.Now();
      var current := host.Load();
      if current.generation != generation {
        return Err(Stale);
      }
      ghost var second := host.Now();
      CurrentHasInv(second, host.plan);
      HeldIsKept(first, second, host.pid.approval.tree, host.plan);
      MovesKeepTheBranch(first, second, host.plan);
      OvertakenIsUnverified(first, second, host.pid, host.plan);
      r := Carry(generation, now);
      MovesOn(first, second, host.Now(), host.plan);
    }

    ghost function HeldBy(w: World): Option<string> {
      Held(w, host.pid.approval.tree, host.plan)
    }

    /**
    Take a receipt for the finalization. With nothing pending it only confirms
    an earlier consumption; otherwise the approval must still hold, and the
    receipt is applied exactly as `AcceptUpdate` says.
    */
    method AcceptTrustedReceipt(generation: Generation, receipt: Receipt, authentic: bool)
      returns (r: Result<Generation, ReceiptError>, ghost applied: bool)
      requires gateway.host == host && host.Ok() && Doing(host.Now(), host.pid) == Idle
      requires receipt.retryAfter >= 0.0
      modifies host, host.store
      ensures host.Ok() && Doing(host.Now(), host.pid) == Idle && MovesTo(old(host.Now()), host.Now(), host.plan)
      ensures r.Ok? ==> WasConsumed(r.value.state.ledger, receipt) && Known(r.value, host.Now())
      ensures applied ==>
        && generation.state.pending == Some(receipt.request) && StateApproved(generation.state, host.terms)
        && r == Ok(Generation(generation.revision + 1,
             AcceptUpdate(ConsumedState(generation.state, receipt, receipt.retryAfter), receipt.request.operation, receipt, host.plan.policy)))
      ensures !applied && r != Err(NotConsumed(Ended)) ==> Meanwhile(old(host.Now()), host.Now(), host.pid, host.plan)
    {
      hide WorldInv, MovesTo, Meanwhile, Inv, Known, WasConsumed, StateApproved, AcceptUpdate, ConsumedState;
      applied := false;
      ghost var first := host.Now();
      var current := host.Load();
      ghost var second := host.Now();
      if current.generation != generation {
        return Err(StaleReceiptGeneration), false;
      }
      CurrentHasInv(second, host.plan);
      if generation.state.pending.Some? {
        var approved := VerifyApproval(generation.state);
        if !approved {
          return Err(ApprovalChanged), false;
        }
      }
      var consumed;
      consumed, applied := gateway.ConsumeReceipt(generation, receipt, authentic, ForFinalization);
      MovesOn(first, second, host.Now(), host.plan);
      if !applied && consumed != Err(Ended) {
        MeanwhileOn(first, second, host.Now(), host.pid, host.plan);
      }
      r := if consumed.Ok? then Ok(consumed.value) else Err(NotConsumed(consumed.error));
    }
  }

  /** With a commit held, what is recorded is that commit, and a recorded push is what the remote has. */
  lemma PositionHolds(w: World, p: Process, plan: Plan)
    requires WorldInv(w, plan)
    ensures w.state.commitSha.Some? && IsHeld(w, p.approval.tree, plan) ==>
      IsVerified(w.repo, p.approval.tree, plan) && w.state.commitSha == Some(w.repo.head)
    ensures w.state.pushedSha.Some? && IsHeld(w, p.approval.tree, plan) ==> w.repo.remote == w.state.pushedSha
    ensures w.state.pushedSha.Some? ==> w.state.commitSha == w.state.pushedSha
  {
    hide Inv, ActivityOk, CallsOk, IsVerified, IsClosed;
    if w.state.pushedSha.Some? {
      CommitIsPushed(w.state, plan.policy);
    }
    if IsHeld(w, p.approval.tree, plan) {
      VerifiedIsFirst(w.repo, p.approval.tree, plan);
      RemoteIsFirst(w.repo, plan);
    }
  }

  /** A branch that has gained a second commit never again shows a verified one at HEAD. */
  lemma OvertakenIsUnverified(before: World, after: World, p: Process, plan: Plan)
    requires WorldInv(after, plan) && BranchGoesOn(before, after, plan)
    ensures |before.repo.made| > 1 ==> |after.repo.made| > 1 && !IsVerified(after.repo, p.approval.tree, plan)
  {
    hide Inv, ActivityOk, CallsOk, IsClosed, IsVerified;
    if IsVerified(after.repo, p.approval.tree, plan) {
      VerifiedIsFirst(after.repo, p.approval.tree, plan);
    }
  }

  lemma WhatIsHeld(w: World, p: Process, plan: Plan)
    requires WorldInv(w, plan)
    ensures w.state.commitSha.Some? && IsHeld(w, p.approval.tree, plan) ==> w.state.commitSha == Some(w.repo.head)
    ensures IsHeld(w, p.approval.tree, plan) ==> w.repo.made != []
    ensures IsClearFor(w, p, plan) ==> w.state.commitSha == None
  {
    hide Inv, ActivityOk, CallsOk, IsClosed;
    PositionHolds(w, p, plan);
  }

  lemma CommitIsPushed(s: RunState, policy: Policy)
    requires Inv(s, policy) && s.pushedSha.Some?
    ensures s.commitSha == s.pushedSha
  {
    hide ValidState, LedgerStory, PendingStory, BranchStory, Bounded, WaitStory;
  }

  lemma CommitHasProjection(s: RunState, policy: Policy)
    requires Inv(s, policy)
    ensures s.commitSha.Some? ==> s.projection.Some?
  {
    hide ValidState, LedgerStory, PendingStory, BranchStory, Bounded, WaitStory;
  }

  lemma PendingShape(s: RunState, request: Request)
    ensures var t := PendingState(s, request);
      t.disposition == WaitingMcp && t.commitSha == s.commitSha && t.pushedSha == s.pushedSha
  {
    hide Extend;
  }

  lemma WaitingHasPending(s: RunState, policy: Policy)
    requires Inv(s, policy) && s.disposition == WaitingMcp
    ensures s.pending.Some?
  {
    hide ValidState, LedgerStory, BranchStory, Milestones, Bounded, WaitStory, Word, IntentionOf;
  }

  lemma MayAskNow(s: RunState, request: Request, terms: Terms)
    requires s.disposition == Active && s.pending == None && IsFresh(s.ledger, request.effect) && request.target == Ticket
    requires StateApproved(s, terms)
    requires request.operation == QueryProjection || request.operation == CompleteTicket
    requires request.operation == QueryProjection ==> s.projection == None
    requires request.operation == CompleteTicket ==>
      && Finalizing(s, terms) && s.commitSha.Some? && s.pushedSha.Some?
      && s.doneReceipt == None && Attempts(s.ledger, CompleteTicket) < terms.policy.maxInvocations
    ensures Enabled(s, Asking(request), terms)
  {
    hide StateApproved, Finalizing, IsFresh, Attempts;
  }

  lemma FinishStores(s: RunState, binding: ReleaseBinding, terms: Terms)
    requires Finalizing(s, terms) && Complete(s) && s.pending == None
    ensures Enabled(s, Finish(binding), terms) && After(s, Finish(binding), terms) == DoneState(s, binding)
  {
    hide StateApproved, DoneState;
  }

  lemma DoneIsUnreleased(s: RunState, binding: ReleaseBinding, policy: Policy)
    requires Inv(s, policy) && s.disposition == Active && Complete(s)
    ensures !DoneState(s, binding).released && DoneState(s, binding).disposition == Done
  {
    hide ValidState, LedgerStory, PendingStory, BranchStory, Bounded, WaitStory;
  }

  /** What each kind of result says about the generation it names. */
  predicate Describes(result: StepResult) {
    match result
    case McpAction(generation, request) => generation.state.pending == Some(request)
    case ReadyToFinalize(generation) => generation.state.disposition == Active
    case InReview(generation) => generation.state.disposition in {HumanReview, RepairRequired, Abandoned}
    case Finalized(generation) => generation.state.disposition == Done && generation.state.released
  }

  lemma EscalateStores(s: RunState, terms: Terms)
    requires s.disposition in {Active, WaitingMcp} || (s.disposition == Done && !s.released)
    ensures Enabled(s, Escalate, terms) && After(s, Escalate, terms) == FailedState(s)
  {
    hide FailedState;
  }

  lemma MarkStores(s: RunState, release: ReleaseReceipt, terms: Terms)
    requires s.disposition == Done && !s.released && s.releaseBinding == Some(release.binding) && release.signed
    ensures Enabled(s, MarkReleased(release), terms) && After(s, MarkReleased(release), terms) == ReleasedState(s, release)
  {
    hide ReleasedState;
  }

  predicate LooksAt(intention: Payload, operation: Operation, target: EffectId) {
    intention.Intention? && intention.operation == operation && intention.target == EffectTarget(target)
  }

  lemma LatestIsOpen(s: RunState, operation: Operation, id: EffectId, terms: Terms)
    requires LedgerStory(s.ledger) && operation in {Commit, Push}
    requires Finalizing(s, terms) && Wants(s, operation)
    requires Latest(s.ledger, operation) == Some(id) && !IsReconciled(s.ledger, id)
    ensures IsOpen(s, operation, id, terms) && id.Uuid? && Word(s.ledger, id) == [I]
  {
    hide Finalizing, Latest, Quiet;
    LatestIsIntended(s.ledger, operation);
    UnreconciledIsIntended(s.ledger, id, operation);
    LocalIdIsUuid(s.ledger, id);
  }

  lemma LookMayBeStored(w: World, p: Process, operation: Operation, target: EffectId, id: EffectId, generation: Generation, plan: Plan)
    requires Doing(w, p) == Idle && operation in {Commit, Push}
    requires Finalizing(generation.state, TermsOf(plan, p)) && Wants(generation.state, operation)
    requires IsFresh(generation.state.ledger, id)
    requires Latest(generation.state.ledger, operation) == Some(target) && IsReconciled(generation.state.ledger, target)
    requires !ReObserved(generation.state.ledger, Reconciling(operation), target)
    ensures MayStore(w, p, AnnounceLook(operation, target, id), generation, plan)
    ensures var next := Step(View(w, generation), p, AnnounceLook(operation, target, id), plan);
      && next.state == Intended(generation.state, Reconciling(operation), EffectTarget(target), id)
      && Doing(next, p) == MayLook(generation.revision + 1, operation, id, generation.state.commitSha)
  {
    hide Finalizing, Latest, IsReconciled, ReObserved, Intended, IsFresh;
  }

  lemma SaveMayBeStored(w: World, p: Process, operation: Operation, id: EffectId, outcome: Outcome, sha: Option<string>, generation: Generation, plan: Plan)
    requires operation in {Commit, Push} && IsOpen(generation.state, operation, id, TermsOf(plan, p))
    requires var doing := Doing(w, p);
      && doing.Answered? && doing.revision == generation.revision && doing.operation == operation && doing.id == id
      && (sha.Some? ==> doing.result == sha)
    requires outcome == Success <==> sha.Some?
    requires outcome == Success && operation == Push ==> sha == generation.state.commitSha
    ensures MayStore(w, p, Save(outcome), generation, plan)
    ensures var next := Step(View(w, generation), p, Save(outcome), plan);
      && next.state == Recorded(generation.state, operation, id, outcome, sha)
      && Doing(next, p) == Idle
  {
    hide StateApproved, Word, IntentionOf, Recorded;
  }

  lemma AnnounceMayBeStored(w: World, p: Process, operation: Operation, id: EffectId, generation: Generation, plan: Plan)
    requires Doing(w, p) == Idle && operation in {Commit, Push}
    requires Finalizing(generation.state, TermsOf(plan, p)) && Wants(generation.state, operation)
    requires IsFresh(generation.state.ledger, id)
    requires Settled(generation.state.ledger, operation, Reconciling(operation))
    requires Attempts(generation.state.ledger, operation) < plan.policy.maxInvocations
    ensures MayStore(w, p, Announce(operation, id), generation, plan)
    ensures var next := Step(View(w, generation), p, Announce(operation, id), plan);
      && next.state == Intended(generation.state, operation, Ticket, id)
      && Doing(next, p) == MayCall(generation.revision + 1, operation, id, generation.state.commitSha)
  {
    hide Finalizing, Settled, Attempts, Intended, IsFresh;
  }

  /** The checking loop's dictionaries answer the two questions the saga asks. */
  lemma PhasesMatch(ledger: seq<Event>, intentions: map<EffectId, Payload>, phases: map<EffectId, Phase>, operation: Operation, target: EffectId)
    requires ValidLedger(ledger) && IntentionOf(ledger, target).Some?
    requires forall effect ::
      && (effect in intentions <==> IntentionOf(ledger, effect).Some?)
      && (effect in intentions ==> Some(intentions[effect]) == IntentionOf(ledger, effect))
    requires forall effect ::
      && (effect in phases <==> PhaseOf(ledger, effect).Some?)
      && (effect in phases ==> Some(phases[effect]) == PhaseOf(ledger, effect))
    ensures forall effect :: effect in intentions <==> effect in phases
    ensures target in phases && (phases[target] == Reconciled <==> IsReconciled(ledger, target))
    ensures ReObserved(ledger, operation, target) <==>
      exists other :: other in intentions && LooksAt(intentions[other], operation, target) && phases[other] == Reconciled
  {
    hide PhaseOf, IntentionOf, Word, IsReconciled, Increasing, InGrammar;
    forall effect: EffectId
      ensures PhaseOf(ledger, effect) == Some(Reconciled) <==> IsReconciled(ledger, effect)
      ensures PhaseOf(ledger, effect).Some? <==> IntentionOf(ledger, effect).Some?
    {
      PhaseTellsReconciled(ledger, effect);
    }
  }

  lemma PhaseTellsReconciled(ledger: seq<Event>, effect: EffectId)
    requires ValidLedger(ledger)
    ensures PhaseOf(ledger, effect) == Some(Reconciled) <==> IsReconciled(ledger, effect)
    ensures PhaseOf(ledger, effect).Some? <==> IntentionOf(ledger, effect).Some?
  {
    Stores.ReconciledMeansR(ledger, effect);
  }

  /** Everything a round of the saga checks, except its own effects. */
  predicate SameTerms(s: RunState, t: RunState) {
    && t.disposition == s.disposition && t.nextEligible == s.nextEligible
    && t.eligible == s.eligible && t.iterationOpen == s.iterationOpen
    && t.artifacts == s.artifacts && t.checkpoints == s.checkpoints
    && t.projection == s.projection && t.branch == s.branch && t.pending == s.pending
    && t.doneReceipt == s.doneReceipt
  }

  ghost predicate SameOtherAttempts(s: RunState, t: RunState, operation: Operation) {
    forall other :: other != operation ==> Attempts(t.ledger, other) == Attempts(s.ledger, other)
  }

  lemma IntendedKeepsTerms(s: RunState, operation: Operation, target: Target, id: EffectId)
    ensures var t := Intended(s, operation, target, id);
      SameTerms(s, t) && SameOtherAttempts(s, t, operation) && t.commitSha == s.commitSha && t.pushedSha == s.pushedSha
  {
    IntendViews(s.ledger, id, Intention(operation, target, LocalHash(id, operation, target)));
    hide Extend, Attempts;
  }

  lemma RecordedKeepsTerms(s: RunState, operation: Operation, id: EffectId, outcome: Outcome, sha: Option<string>)
    ensures var t := Recorded(s, operation, id, outcome, sha);
      SameTerms(s, t) && forall other :: Attempts(t.ledger, other) == Attempts(s.ledger, other)
  {
    var round := Round(0.0, outcome, sha, None);
    FollowViews(s.ledger, id, round);
    hide Extend, Attempts, Round;
  }

  lemma AttemptKeepsTerms(s: RunState, logged: Operation, target: Target, operation: Operation, id: EffectId, outcome: Outcome, sha: Option<string>)
    ensures var t := Recorded(Intended(s, logged, target, id), operation, id, outcome, sha);
      SameTerms(s, t) && SameOtherAttempts(s, t, logged)
  {
    hide Intended, Recorded, Attempts;
    IntendedKeepsTerms(s, logged, target, id);
    RecordedKeepsTerms(Intended(s, logged, target, id), operation, id, outcome, sha);
  }

  lemma AttemptShape(s: RunState, operation: Operation, id: EffectId, outcome: Outcome, sha: Option<string>)
    requires operation in {Commit, Push}
    ensures var mid := Intended(s, operation, Ticket, id);
      var t := Recorded(mid, operation, id, outcome, sha);
      && mid.disposition == t.disposition == s.disposition && t.projection == s.projection
      && mid.commitSha == s.commitSha
      && (operation == Push || outcome != Success ==> t.commitSha == s.commitSha)
      && (operation == Commit && outcome == Success ==> t.commitSha == sha)
      && (operation == Push && outcome == Success ==> t.pushedSha == sha)
      && (operation == Commit ==> t.pushedSha == s.pushedSha)
  {
    hide Intended, Recorded, SameOtherAttempts;
    IntendedKeepsTerms(s, operation, Ticket, id);
    RecordedKeepsTerms(Intended(s, operation, Ticket, id), operation, id, outcome, sha);
    RecordedShape(Intended(s, operation, Ticket, id), operation, id, outcome, sha);
  }

  lemma RecordedShape(s: RunState, operation: Operation, id: EffectId, outcome: Outcome, sha: Option<string>)
    requires operation in {Commit, Push}
    ensures var t := Recorded(s, operation, id, outcome, sha);
      && (if operation == Commit then t.pushedSha == s.pushedSha else t.commitSha == s.commitSha)
      && (outcome == Success ==> (if operation == Commit then t.commitSha else t.pushedSha) == sha)
      && (outcome != Success ==> t.commitSha == s.commitSha)
  {
    hide Extend, Round;
    var logged := s.(ledger := Extend(s.ledger, id, Round(0.0, outcome, sha, None)));
    assert logged.commitSha == s.commitSha && logged.pushedSha == s.pushedSha;
  }
}
