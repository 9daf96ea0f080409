/**
Whole histories from a run that was just activated: the branch gains two
commits, under two approvals or under one, and the remote leaves the commit that
was recorded as pushed.
*/
module RivalRuns {
  import opened Outcomes
  import opened EffectLedger
  import opened LedgerViews
  import opened RunStates
  import opened Supervision
  import opened FinalizerWrites
  import opened Protocol
  import opened ProtocolInvariant
  import opened ProtocolRuns
  import opened Reachability
  import opened Worlds
  import opened WorldSteps
  import opened Rivals
  import opened Finalizers

  // ----- writes of other components, as moves of the world -----

  lemma {:induction false} LiftPart(w: World, part: Trace, n: nat, plan: Plan)
    requires IsPart(part, plan.policy, true) && n <= |part.writes| && part.states[0] == w.state
    ensures MovesTo(w, w.(revision := w.revision + n, state := part.states[n]), plan)
  {
    hide Enabled, After, MovesTo, IsElsewhere;
    if n == 0 {
      NothingHappens(w, Process(0, Approval("", "", "")), plan);
      assert w == w.(revision := w.revision + n, state := part.states[n]);
    } else {
      LiftPart(w, part, n - 1, plan);
      var before := w.(revision := w.revision + n - 1, state := part.states[n - 1]);
      assert LeadsBy(part.states[n - 1], part.writes[n - 1], part.approvals[n - 1], part.states[n], plan.policy, true);
      LiftWrite(before, part.writes[n - 1], part.approvals[n - 1], part.states[n], plan);
      MovesOn(w, before, w.(revision := w.revision + n, state := part.states[n]), plan);
    }
  }

  lemma LiftWrite(w: World, write: Write, approval: Approval, t: RunState, plan: Plan)
    requires Enabled(w.state, write, Terms(plan.policy, approval)) && t == After(w.state, write, Terms(plan.policy, approval))
    requires IsElsewhere(write, w.state)
    ensures MovesTo(w, w.(revision := w.revision + 1, state := t), plan)
  {
    hide Enabled, After, MovesTo, IsElsewhere;
    OneStep(w, Process(0, approval), Elsewhere(write), w.(revision := w.revision + 1, state := t), plan);
  }

  /** Whatever the other components write, the world moves with it and nobody's activity changes. */
  lemma LiftRun(w: World, t: RunState, plan: Plan) returns (after: World)
    requires RunsTo(w.state, t, plan.policy, true)
    ensures MovesTo(w, after, plan) && after == w.(revision := after.revision, state := t)
  {
    hide IsPart, MovesTo;
    var part :| Spans(part, w.state, t, plan.policy, true);
    LiftPart(w, part, |part.writes|, plan);
    after := w.(revision := w.revision + |part.writes|, state := t);
  }

  // ----- one process at work -----

  ghost predicate MayAttempt(s: RunState, operation: Operation, n: nat, terms: Terms) {
    && Finalizing(s, terms) && Wants(s, operation)
    && Settled(s.ledger, operation, Reconciling(operation)) && Attempts(s.ledger, operation) == n
  }

  /** There were this many attempts, and the latest is open. */
  ghost predicate HasOpenAttempt(s: RunState, operation: Operation, id: EffectId, n: nat, terms: Terms) {
    && IsOpen(s, operation, id, terms)
    && Latest(s.ledger, operation) == Some(id) && Attempts(s.ledger, operation) == n
  }

  predicate SameMilestones(s: RunState, t: RunState) {
    t.commitSha == s.commitSha && t.pushedSha == s.pushedSha
  }

  lemma WorldLedger(w: World, plan: Plan)
    requires WorldInv(w, plan)
    ensures Inv(w.state, plan.policy) && LedgerStory(w.state.ledger)
  {
    hide Inv, ActivityOk, CallsOk, LedgerStory;
    LedgerStoryOf(w.state, plan.policy);
  }

  /** The next attempt is stored before anything is called. */
  lemma Announces(w: World, p: Process, operation: Operation, n: nat, plan: Plan) returns (after: World, id: EffectId)
    requires WorldInv(w, plan) && Doing(w, p) == Idle && operation in {Commit, Push}
    requires MayAttempt(w.state, operation, n, TermsOf(plan, p)) && n < plan.policy.maxInvocations
    ensures MovesTo(w, after, plan) && OthersRest(w, after, p) && WorldInv(after, plan) && after.repo == w.repo
    ensures after.state == Intended(w.state, operation, Ticket, id) && SameMilestones(w.state, after.state)
    ensures HasOpenAttempt(after.state, operation, id, n + 1, TermsOf(plan, p)) && SameOtherAttempts(w.state, after.state, operation)
    ensures Doing(after, p) == MayCall(after.revision, operation, id, after.state.commitSha)
  {
    hide WorldInv, MovesTo, Intended, IsOpen, Finalizing, Wants, Settled, Attempts, Latest, IsFresh, Inv, LedgerStory, SameOtherAttempts, SameTerms, CanStep, Step;
    id := FreshId(w.state.ledger);
    HigherIsFresh(w.state.ledger, Highest(w.state.ledger) + 1);
    WorldLedger(w, plan);
    after := AnnouncesFresh(w, p, operation, id, plan);
    MovesKeepTheBranch(w, after, plan);
    IntendedIsOpen(w.state, operation, operation, Ticket, id, TermsOf(plan, p));
    IntendedKeepsTerms(w.state, operation, Ticket, id);
    AttemptIsCounted(w.state, operation, id);
  }

  lemma AnnouncesFresh(w: World, p: Process, operation: Operation, id: EffectId, plan: Plan) returns (after: World)
    requires Doing(w, p) == Idle && operation in {Commit, Push} && IsFresh(w.state.ledger, id)
    requires MayAttempt(w.state, operation, Attempts(w.state.ledger, operation), TermsOf(plan, p))
    requires Attempts(w.state.ledger, operation) < plan.policy.maxInvocations
    ensures MovesTo(w, after, plan) && OthersRest(w, after, p) && after.repo == w.repo
    ensures after.state == Intended(w.state, operation, Ticket, id)
    ensures Doing(after, p) == MayCall(after.revision, operation, id, w.state.commitSha)
  {
    hide MovesTo, Intended, Finalizing, Settled, Attempts, IsFresh;
    after := Step(w, p, Announce(operation, id), plan);
    OneStep(w, p, Announce(operation, id), after, plan);
  }

  lemma AttemptIsCounted(s: RunState, operation: Operation, id: EffectId)
    ensures var t := Intended(s, operation, Ticket, id);
      Latest(t.ledger, operation) == Some(id) && Attempts(t.ledger, operation) == Attempts(s.ledger, operation) + 1
  {
    hide Attempts, Latest, Extend;
    IntendViews(s.ledger, id, Intention(operation, Ticket, LocalHash(id, operation, Ticket)));
  }

  lemma PassesGuard(w: World, p: Process, plan: Plan) returns (after: World)
    requires Doing(w, p).MayCall? && Doing(w, p).operation == Commit && w.repo.head == plan.policy.baseline
    ensures MovesTo(w, after, plan) && OthersRest(w, after, p)
    ensures after.state == w.state && after.repo == w.repo && Doing(after, p).Guarded?
  {
    hide Enabled, MovesTo, After;
    after := Step(w, p, PassGuard, plan);
    OneStep(w, p, PassGuard, after, plan);
  }

  lemma Stages(w: World, p: Process, plan: Plan) returns (after: World)
    requires Doing(w, p).Guarded? && w.repo.worktree == p.approval.tree
    ensures MovesTo(w, after, plan) && OthersRest(w, after, p)
    ensures after.state == w.state && after.repo == w.repo.(index := p.approval.tree)
    ensures Doing(after, p).Staged?
  {
    hide Enabled, MovesTo, After;
    var compared := Step(w, p, CompareWorktree, plan);
    OneStep(w, p, CompareWorktree, compared, plan);
    after := Step(compared, p, StageWorktree, plan);
    OneStep(compared, p, StageWorktree, after, plan);
    MovesOn(w, compared, after, plan);
  }

  lemma PassesPush(w: World, p: Process, plan: Plan) returns (after: World)
    requires Doing(w, p).MayCall? && Doing(w, p).operation == Push && Doing(w, p).sha == Some(w.repo.head)
    ensures MovesTo(w, after, plan) && OthersRest(w, after, p) && after.state == w.state && after.repo == w.repo
    ensures after.revision == w.revision && Doing(after, p) == Pushing(Doing(w, p).revision, Doing(w, p).id, Some(w.repo.head))
  {
    hide Enabled, MovesTo, After;
    after := Step(w, p, PassPush, plan);
    OneStep(w, p, PassPush, after, plan);
  }

  // ----- an attempt that another process left behind -----

  predicate ShowsNothing(repo: Repository, operation: Operation) {
    if operation == Commit then repo.made == [] else repo.remote == None
  }

  /** Nothing is there: the look finds nothing and says so in the ledger. */
  lemma LooksInVain(w: World, p: Process, operation: Operation, id: EffectId, plan: Plan) returns (after: World)
    requires operation in {Commit, Push} && ShowsNothing(w.repo, operation) && (operation == Push ==> w.state.commitSha.Some?)
    requires Doing(w, p) == MayLook(w.revision, operation, id, w.state.commitSha)
    requires Enabled(w.state, Record(operation, id, Unknown, None), TermsOf(plan, p))
    ensures MovesTo(w, after, plan) && OthersRest(w, after, p)
    ensures after.state == Recorded(w.state, operation, id, Unknown, None) && after.repo == w.repo && Doing(after, p) == Idle
  {
    hide Enabled, MovesTo, Recorded, CanStep, Step;
    var looked := w.(activities := w.activities[p := Answered(w.revision, operation, id, None)]);
    if operation == Commit {
      var seen := w.(activities := w.activities[p := Looking(w.revision, id, w.repo.head)]);
      LookSeesHead(w, p, seen, plan);
      LookFindsNothing(seen, p, looked, plan);
      MovesOn(w, seen, looked, plan);
    } else {
      LookFindsNothing(w, p, looked, plan);
    }
    after := w.(revision := w.revision + 1, state := Recorded(w.state, operation, id, Unknown, None), activities := w.activities[p := Idle]);
    SavesUnknown(looked, p, operation, id, after, plan);
    MovesOn(w, looked, after, plan);
  }

  lemma LookFindsNothing(w: World, p: Process, next: World, plan: Plan)
    requires var doing := Doing(w, p);
      || (doing.Looking? && w.repo.made == [])
      || (doing.MayLook? && doing.operation == Push && doing.sha.Some? && w.repo.remote == None)
    requires var doing := Doing(w, p);
      next == w.(activities := w.activities[p := Answered(doing.revision, if doing.Looking? then Commit else Push, doing.id, None)])
    ensures MovesTo(w, next, plan)
  {
    hide Enabled, MovesTo, After;
    OneStep(w, p, Look, next, plan);
  }

  lemma SavesUnknown(w: World, p: Process, operation: Operation, id: EffectId, next: World, plan: Plan)
    requires Doing(w, p) == Answered(w.revision, operation, id, None)
    requires Enabled(w.state, Record(operation, id, Unknown, None), TermsOf(plan, p))
    requires next == w.(revision := w.revision + 1, state := Recorded(w.state, operation, id, Unknown, None), activities := w.activities[p := Idle])
    ensures MovesTo(w, next, plan)
  {
    hide Enabled, MovesTo, Recorded;
    OneStep(w, p, Save(Unknown), next, plan);
  }

  lemma OpenIsRecordable(s: RunState, operation: Operation, id: EffectId, terms: Terms)
    requires operation in {Commit, Push} && IsOpen(s, operation, id, terms)
    ensures Enabled(s, Record(operation, id, Unknown, None), terms) && Wants(s, operation) && Finalizing(s, terms)
  {
    hide Finalizing, Word, IntentionOf;
  }

  lemma TermsStay(s: RunState, t: RunState, terms: Terms)
    requires SameTerms(s, t) && Finalizing(s, terms)
    ensures Finalizing(t, terms)
  {
  }

  /** A look in vain leaves the milestones alone. */
  lemma UnknownShape(s: RunState, operation: Operation, id: EffectId)
    ensures var t := Recorded(s, operation, id, Unknown, None);
      SameMilestones(s, t) && t.ledger == Extend(s.ledger, id, Round(0.0, Unknown, None, None))
  {
    hide Extend, Round;
  }

  lemma SameWants(s: RunState, t: RunState, operation: Operation)
    requires SameMilestones(s, t)
    ensures Wants(s, operation) <==> Wants(t, operation)
  {
  }

  /** The latest attempt is recorded as unknown. */
  lemma RecordsAttempt(w: World, p: Process, operation: Operation, id: EffectId, n: nat, plan: Plan) returns (after: World)
    requires WorldInv(w, plan) && Doing(w, p) == Idle && operation in {Commit, Push} && ShowsNothing(w.repo, operation)
    requires HasOpenAttempt(w.state, operation, id, n, TermsOf(plan, p))
    ensures MovesTo(w, after, plan) && OthersRest(w, after, p) && WorldInv(after, plan)
    ensures after.repo == w.repo && Doing(after, p) == Idle && SameMilestones(w.state, after.state)
    ensures Finalizing(after.state, TermsOf(plan, p)) && Wants(after.state, operation)
    ensures Latest(after.state.ledger, operation) == Some(id) && IsReconciled(after.state.ledger, id)
    ensures forall other :: Attempts(after.state.ledger, other) == Attempts(w.state.ledger, other)
  {
    hide WorldInv, MovesTo, IsOpen, Recorded, Finalizing, Enabled, SameTerms, Attempts, Latest, IsReconciled, LedgerStory, Word;
    OpenIsRecordable(w.state, operation, id, TermsOf(plan, p));
    var looking := w.(activities := w.activities[p := MayLook(w.revision, operation, id, w.state.commitSha)]);
    LookOpens(w, p, operation, id, looking, plan);
    after := LooksInVain(looking, p, operation, id, plan);
    MovesOn(w, looking, after, plan);
    MovesKeepTheBranch(w, after, plan);
    RecordedKeepsTerms(w.state, operation, id, Unknown, None);
    UnknownShape(w.state, operation, id);
    TermsStay(w.state, after.state, TermsOf(plan, p));
    SameWants(w.state, after.state, operation);
    WorldLedger(w, plan);
    OpenWord(w.state, operation, id, TermsOf(plan, p));
    RecordSettles(w.state.ledger, id, after.state.ledger, Unknown, None);
  }

  lemma LookOpens(w: World, p: Process, operation: Operation, id: EffectId, next: World, plan: Plan)
    requires Doing(w, p) == Idle && operation in {Commit, Push} && IsOpen(w.state, operation, id, TermsOf(plan, p))
    requires next == w.(activities := w.activities[p := MayLook(w.revision, operation, id, w.state.commitSha)])
    ensures MovesTo(w, next, plan)
  {
    hide Enabled, After, MovesTo, IsOpen;
    OneStep(w, p, Worlds.StartLook(operation, id), next, plan);
  }

  lemma OpenWord(s: RunState, operation: Operation, id: EffectId, terms: Terms)
    requires operation in {Commit, Push} && IsOpen(s, operation, id, terms) && LedgerStory(s.ledger)
    ensures Word(s.ledger, id) == [I] && id.Uuid?
  {
    hide Finalizing, Word, IntentionOf, Quiet, ValidLedger;
    LocalIdIsUuid(s.ledger, id);
  }

  /** The recorded attempt is looked at once more, in vain. */
  lemma LooksOnceMore(w: World, p: Process, operation: Operation, target: EffectId, plan: Plan) returns (after: World)
    requires WorldInv(w, plan) && Doing(w, p) == Idle && operation in {Commit, Push} && ShowsNothing(w.repo, operation)
    requires Finalizing(w.state, TermsOf(plan, p)) && Wants(w.state, operation)
    requires Latest(w.state.ledger, operation) == Some(target) && IsReconciled(w.state.ledger, target)
    requires !Settled(w.state.ledger, operation, Reconciling(operation))
    ensures MovesTo(w, after, plan) && OthersRest(w, after, p) && WorldInv(after, plan)
    ensures after.repo == w.repo && Doing(after, p) == Idle && SameMilestones(w.state, after.state)
    ensures Finalizing(after.state, TermsOf(plan, p)) && Wants(after.state, operation)
    ensures Settled(after.state.ledger, operation, Reconciling(operation))
    ensures SameOtherAttempts(w.state, after.state, Reconciling(operation))
  {
    hide WorldInv, MovesTo, IsOpen, Recorded, Intended, Finalizing, Wants, Enabled, SameTerms, Latest, IsReconciled, LedgerStory, Word, IsFresh, ReObserved, Settled, Inv, SameOtherAttempts;
    var s := w.state;
    var id := FreshId(s.ledger);
    HigherIsFresh(s.ledger, Highest(s.ledger) + 1);
    WorldLedger(w, plan);
    ReconciledIsIntended(s.ledger, target);
    NotSettled(s.ledger, operation, target);
    IntendedIsOpen(s, operation, Reconciling(operation), EffectTarget(target), id, TermsOf(plan, p));
    var mid := Intended(s, Reconciling(operation), EffectTarget(target), id);
    var announced := w.(revision := w.revision + 1, state := mid, activities := w.activities[p := MayLook(w.revision + 1, operation, id, s.commitSha)]);
    LookIsAnnounced(w, p, operation, target, id, announced, plan);
    OpenIsRecordable(mid, operation, id, TermsOf(plan, p));
    PushHasCommit(s, operation);
    after := LooksInVain(announced, p, operation, id, plan);
    MovesOn(w, announced, after, plan);
    MovesKeepTheBranch(w, after, plan);
    AttemptKeepsTerms(s, Reconciling(operation), EffectTarget(target), operation, id, Unknown, None);
    UnknownShape(mid, operation, id);
    SameWants(s, after.state, operation);
    TermsStay(s, after.state, TermsOf(plan, p));
    LookProgresses(s, operation, target, id, Unknown, None, mid, after.state);
    SettledIsZero(after.state.ledger, operation);
  }

  lemma PushHasCommit(s: RunState, operation: Operation)
    requires Wants(s, operation)
    ensures operation == Push ==> s.commitSha.Some?
  {
  }

  lemma NotSettled(ledger: seq<Event>, operation: Operation, target: EffectId)
    requires operation in {Commit, Push}
    requires Latest(ledger, operation) == Some(target) && IsReconciled(ledger, target) && !Settled(ledger, operation, Reconciling(operation))
    ensures !ReObserved(ledger, Reconciling(operation), target)
  {
    hide Latest, IsReconciled, ReObserved;
  }

  lemma SettledIsZero(ledger: seq<Event>, operation: Operation)
    requires operation in {Commit, Push} && Unsettled(ledger, operation, Reconciling(operation)) == 0
    ensures Settled(ledger, operation, Reconciling(operation))
  {
    hide Latest, IsReconciled, ReObserved;
  }

  lemma LookIsAnnounced(w: World, p: Process, operation: Operation, target: EffectId, id: EffectId, next: World, plan: Plan)
    requires Doing(w, p) == Idle && operation in {Commit, Push}
    requires Finalizing(w.state, TermsOf(plan, p)) && Wants(w.state, operation) && IsFresh(w.state.ledger, id)
    requires Latest(w.state.ledger, operation) == Some(target) && IsReconciled(w.state.ledger, target)
    requires !ReObserved(w.state.ledger, Reconciling(operation), target)
    requires next == w.(revision := w.revision + 1, state := Intended(w.state, Reconciling(operation), EffectTarget(target), id),
                        activities := w.activities[p := MayLook(w.revision + 1, operation, id, w.state.commitSha)])
    ensures MovesTo(w, next, plan)
  {
    hide MovesTo, Finalizing, Wants, IsFresh, Latest, IsReconciled, ReObserved, Intended;
    OneStep(w, p, AnnounceLook(operation, target, id), next, plan);
  }

  /** The attempt another process left behind is settled, so that a new one may be made. */
  lemma SettlesAttempt(w: World, p: Process, operation: Operation, id: EffectId, n: nat, plan: Plan) returns (after: World)
    requires WorldInv(w, plan) && Doing(w, p) == Idle && operation in {Commit, Push} && ShowsNothing(w.repo, operation)
    requires HasOpenAttempt(w.state, operation, id, n, TermsOf(plan, p))
    ensures MovesTo(w, after, plan) && OthersRest(w, after, p) && WorldInv(after, plan)
    ensures after.repo == w.repo && Doing(after, p) == Idle && SameMilestones(w.state, after.state)
    ensures MayAttempt(after.state, operation, n, TermsOf(plan, p)) && SameOtherAttempts(w.state, after.state, Reconciling(operation))
  {
    hide WorldInv, MovesTo, IsOpen, Finalizing, Wants, Settled, Latest, Attempts, IsReconciled;
    var recorded := RecordsAttempt(w, p, operation, id, n, plan);
    if Settled(recorded.state.ledger, operation, Reconciling(operation)) {
      after := recorded;
    } else {
      after := LooksOnceMore(recorded, p, operation, id, plan);
      MovesOn(w, recorded, after, plan);
    }
  }

  // ----- the parts of the histories -----

  /** The run has its whole second iteration left. */
  predicate IsUnderWay(s: RunState) {
    && s.disposition == Active && s.pending == None && s.commitSha == None && s.pushedSha == None
    && s.iterationCount == 1 && s.maxIterations == 2 && s.grants == []
  }

  lemma NoAttemptYet()
    ensures var ledger := Initial(2).ledger;
      Attempts(ledger, Commit) == 0 && Attempts(ledger, Push) == 0 && Settled(ledger, Commit, ReconcileCommit)
    ensures CanStartIteration(Initial(2)) && Reviewer !in Initial(2).checkpoints
    ensures Initial(2).commitSha == None && Initial(2).pushedSha == None
  {
  }

  lemma NoAttemptStill(before: seq<Event>, after: seq<Event>)
    requires SameAttempts(before, after)
    ensures Attempts(after, Commit) == Attempts(before, Commit) && Attempts(after, Push) == Attempts(before, Push)
    ensures Settled(before, Commit, ReconcileCommit) ==> Settled(after, Commit, ReconcileCommit)
  {
    hide Attempts, Latest, Settled, Word, IntentionOf;
    assert Reconciling(Commit) == ReconcileCommit;
  }

  lemma StaysUnderWay(s: RunState, t: RunState)
    requires SameRun(s, t) && SameMilestones(s, t) && IsUnderWay(s)
    ensures IsUnderWay(t)
  {
  }

  /** The run is approved, and its first process stages the approved tree and is about to commit. */
  lemma FirstStages(first: Process, plan: Plan) returns (w: World, id: EffectId)
    requires plan.policy.maxInvocations >= 2 && plan.policy.totalRetryWait >= 0.0
    ensures MovesTo(FreshWorld(2, first.approval.tree, plan), w, plan) && WorldInv(w, plan)
    ensures w.repo == FreshWorld(2, first.approval.tree, plan).repo.(index := first.approval.tree)
    ensures Doing(w, first).Staged? && forall q :: q != first ==> Doing(w, q) == Idle
    ensures HasOpenAttempt(w.state, Commit, id, 1, TermsOf(plan, first)) && Attempts(w.state.ledger, Push) == 0 && IsUnderWay(w.state)
  {
    hide WorldInv, MovesTo, Finalizing, Attempts, Latest, Settled, Inv, StateApproved, RunsTo, Word, IntentionOf, IsFresh, Intended, IsOpen, HasOpenAttempt;
    var terms := TermsOf(plan, first);
    var start := FreshWorld(2, first.approval.tree, plan);
    FreshWorldIsOk(2, first.approval.tree, plan);
    InitialInv(2, plan.policy);
    NoAttemptYet();
    var approved := ApproveRun(Initial(2), terms);
    var projected := ProjectRun(approved, terms);
    RunsOn(Initial(2), approved, projected, plan.policy, true);
    var ready := LiftRun(start, projected, plan);
    MovesKeepTheBranch(start, ready, plan);
    NoAttemptStill(approved.ledger, projected.ledger);
    FinalizingIsActive(projected, terms);
    var announced;
    announced, id := Announces(ready, first, Commit, 0, plan);
    MovesOn(start, ready, announced, plan);
    var guarded := PassesGuard(announced, first, plan);
    MovesOn(start, announced, guarded, plan);
    w := Stages(guarded, first, plan);
    MovesOn(start, guarded, w, plan);
    MovesKeepTheBranch(start, w, plan);
    IntendedShape(projected, Commit, Ticket, id);
    StaysUnderWay(projected, w.state);
    PushesUnchanged(projected, w.state);
  }

  lemma PushesUnchanged(s: RunState, t: RunState)
    requires SameOtherAttempts(s, t, Commit) || SameOtherAttempts(s, t, ReconcileCommit)
    ensures Attempts(t.ledger, Push) == Attempts(s.ledger, Push)
  {
    hide Attempts;
  }

  /** Another process settles the attempt the first left behind, announces its own, and sees HEAD at the baseline as well. */
  lemma AnotherPasses(w: World, p: Process, id: EffectId, plan: Plan) returns (after: World, latest: EffectId)
    requires plan.policy.maxInvocations >= 2 && WorldInv(w, plan) && w.repo.made == [] && Doing(w, p) == Idle
    requires HasOpenAttempt(w.state, Commit, id, 1, TermsOf(plan, p))
    ensures MovesTo(w, after, plan) && WorldInv(after, plan) && OthersRest(w, after, p)
    ensures after.repo == w.repo && Doing(after, p).Guarded? && SameMilestones(w.state, after.state)
    ensures HasOpenAttempt(after.state, Commit, latest, 2, TermsOf(plan, p))
    ensures Attempts(after.state.ledger, Push) == Attempts(w.state.ledger, Push)
  {
    hide WorldInv, MovesTo, HasOpenAttempt, MayAttempt, Attempts, Intended, SameOtherAttempts;
    var settled := SettlesAttempt(w, p, Commit, id, 1, plan);
    PushesUnchanged(w.state, settled.state);
    var announced;
    announced, latest := Announces(settled, p, Commit, 1, plan);
    PushesUnchanged(settled.state, announced.state);
    MovesOn(w, settled, announced, plan);
    GuardSeesHead(announced, plan);
    after := PassesGuard(announced, p, plan);
    MovesOn(w, announced, after, plan);
    MovesKeepTheBranch(w, after, plan);
  }

  /** The run is invalidated and approved again; the open attempt stays open under the second approval. */
  lemma IsReapproved(w: World, id: EffectId, first: Process, second: Process, plan: Plan) returns (after: World)
    requires WorldInv(w, plan) && HasOpenAttempt(w.state, Commit, id, 1, TermsOf(plan, first)) && IsUnderWay(w.state)
    ensures MovesTo(w, after, plan) && WorldInv(after, plan) && after.repo == w.repo && after.activities == w.activities
    ensures HasOpenAttempt(after.state, Commit, id, 1, TermsOf(plan, second))
  {
    hide WorldInv, MovesTo, Finalizing, Attempts, Latest, Settled, Inv, StateApproved, RunsTo, Word, IntentionOf, HasOpenAttempt;
    var terms := TermsOf(plan, second);
    WorldLedger(w, plan);
    var invalidated := InvalidateRun(w.state, terms);
    OneIterationLeft(invalidated);
    var approved := ApproveRun(invalidated, terms);
    RunsOn(w.state, invalidated, approved, plan.policy, true);
    var projected := ProjectRun(approved, terms);
    RunsOn(w.state, approved, projected, plan.policy, true);
    after := LiftRun(w, projected, plan);
    MovesKeepTheBranch(w, after, plan);
    AttemptStaysOpen(w.state, projected, id, TermsOf(plan, first), terms);
  }

  lemma OneIterationLeft(s: RunState)
    requires s.disposition == Active && !s.iterationOpen && !s.eligible
    requires s.iterationCount == 1 && s.maxIterations == 2 && s.grants == []
    ensures CanStartIteration(s)
  {
  }

  lemma AttemptStaysOpen(s: RunState, t: RunState, id: EffectId, before: Terms, terms: Terms)
    requires HasOpenAttempt(s, Commit, id, 1, before) && SameAttempts(s.ledger, t.ledger) && Finalizing(t, terms) && t.commitSha == None
    ensures HasOpenAttempt(t, Commit, id, 1, terms)
  {
    hide Finalizing, Attempts, Latest, Settled, Word, IntentionOf;
  }

  // ----- two commits -----

  /**
  A whole history, from a run that was just activated: approved, and its first
  process has staged; invalidated, approved again with another tree, and the
  second process has settled what the first left behind and has passed the
  guard; then the first commits, and the second commits its own tree on top.
  */
  lemma TwoCommitsCanHappen(first: Process, second: Process, plan: Plan) returns (w: World)
    requires plan.policy.maxInvocations >= 2 && plan.policy.totalRetryWait >= 0.0
    requires first.approval.tree != second.approval.tree && first.approval.tree != plan.baseTree
    ensures MovesTo(FreshWorld(2, first.approval.tree, plan), w, plan) && |w.repo.made| == 2
    ensures w.repo.made[0].tree == first.approval.tree && w.repo.made[1].tree == second.approval.tree
    ensures w.repo.made[1].parent == w.repo.made[0].sha
  {
    hide WorldInv, MovesTo, HasOpenAttempt;
    var start := FreshWorld(2, first.approval.tree, plan);
    var staged, id := FirstStages(first, plan);
    var approved := IsReapproved(staged, id, first, second, plan);
    MovesOn(start, staged, approved, plan);
    assert Doing(approved, second) == Doing(staged, second);
    var guarded, latest := AnotherPasses(approved, second, id, plan);
    MovesOn(start, approved, guarded, plan);
    assert Doing(guarded, first) == Doing(approved, first) == Doing(staged, first);
    w := TwoCommits(guarded, first, second, second.approval.tree, plan);
    MovesOn(start, guarded, w, plan);
  }

  /**
  One approval is enough: its second process settles what the first left behind
  and passes the guard as well; after the first has committed the approved
  tree, the worktree is edited between the second's comparison and its staging,
  and what it has become is committed on top.
  */
  lemma TwoCommitsWithOneApproval(first: Process, second: Process, tree: string, plan: Plan) returns (w: World)
    requires plan.policy.maxInvocations >= 2 && plan.policy.totalRetryWait >= 0.0
    requires first != second && first.approval == second.approval && first.approval.tree !in {plan.baseTree, tree}
    ensures MovesTo(FreshWorld(2, first.approval.tree, plan), w, plan) && |w.repo.made| == 2
    ensures w.repo.made[0].tree == first.approval.tree && w.repo.made[1].tree == tree
    ensures w.repo.made[1].parent == w.repo.made[0].sha
  {
    hide WorldInv, MovesTo, HasOpenAttempt;
    var start := FreshWorld(2, first.approval.tree, plan);
    var staged, id := FirstStages(first, plan);
    var guarded, latest := AnotherPasses(staged, second, id, plan);
    MovesOn(start, staged, guarded, plan);
    assert Doing(guarded, first) == Doing(staged, first);
    w := TwoCommits(guarded, first, second, tree, plan);
    MovesOn(start, guarded, w, plan);
  }

  // ----- the remote leaves what was pushed -----

  /** The commit another process made is found and recorded. */
  lemma FindsCommit(w: World, p: Process, id: EffectId, n: nat, plan: Plan) returns (after: World)
    requires WorldInv(w, plan) && Doing(w, p) == Idle && HasOpenAttempt(w.state, Commit, id, n, TermsOf(plan, p))
    requires IsVerified(w.repo, p.approval.tree, plan) && w.state.pushedSha == None
    ensures MovesTo(w, after, plan) && OthersRest(w, after, p) && WorldInv(after, plan)
    ensures after.repo == w.repo && Doing(after, p) == Idle && Finalizing(after.state, TermsOf(plan, p))
    ensures after.state.commitSha == Some(w.repo.head) && after.state.pushedSha == None
    ensures Attempts(after.state.ledger, Push) == Attempts(w.state.ledger, Push)
  {
    hide WorldInv, MovesTo, IsOpen, Recorded, Finalizing, Enabled, SameTerms, Attempts, Latest;
    var looking := w.(activities := w.activities[p := MayLook(w.revision, Commit, id, w.state.commitSha)]);
    LookOpens(w, p, Commit, id, looking, plan);
    var seen := looking.(activities := looking.activities[p := Looking(w.revision, id, w.repo.head)]);
    LookSeesHead(looking, p, seen, plan);
    MovesOn(w, looking, seen, plan);
    var found := seen.(activities := seen.activities[p := Answered(w.revision, Commit, id, Some(w.repo.head))]);
    LookEnds(seen, p, found, plan);
    MovesOn(w, seen, found, plan);
    after := RecordsSuccess(found, p, Commit, id, w.repo.head, plan);
    MovesOn(w, found, after, plan);
    MovesKeepTheBranch(w, after, plan);
  }

  lemma RecordsSuccess(w: World, p: Process, operation: Operation, id: EffectId, sha: string, plan: Plan) returns (after: World)
    requires operation in {Commit, Push} && IsOpen(w.state, operation, id, TermsOf(plan, p))
    requires Doing(w, p) == Answered(w.revision, operation, id, Some(sha)) && (operation == Push ==> w.state.commitSha == Some(sha))
    ensures MovesTo(w, after, plan) && OthersRest(w, after, p) && after.repo == w.repo && Doing(after, p) == Idle
    ensures Finalizing(after.state, TermsOf(plan, p))
    ensures after.state.commitSha == Some(sha)
    ensures after.state.pushedSha == if operation == Push then Some(sha) else w.state.pushedSha
    ensures forall other :: Attempts(after.state.ledger, other) == Attempts(w.state.ledger, other)
  {
    hide MovesTo, Recorded, Finalizing, Word, IntentionOf, Attempts, SameTerms;
    SucceedsAsOpen(w.state, operation, id, sha, TermsOf(plan, p));
    after := w.(revision := w.revision + 1, state := Recorded(w.state, operation, id, Success, Some(sha)), activities := w.activities[p := Idle]);
    SavesSuccess(w, p, operation, id, sha, after, plan);
    RecordedKeepsTerms(w.state, operation, id, Success, Some(sha));
    TermsStay(w.state, after.state, TermsOf(plan, p));
    SuccessShape(w.state, operation, id, sha);
  }

  lemma SuccessShape(s: RunState, operation: Operation, id: EffectId, sha: string)
    ensures var t := Recorded(s, operation, id, Success, Some(sha));
      && t.commitSha == (if operation == Commit then Some(sha) else s.commitSha)
      && t.pushedSha == (if operation == Commit then s.pushedSha else Some(sha))
  {
    hide Extend, Round;
  }

  lemma SucceedsAsOpen(s: RunState, operation: Operation, id: EffectId, sha: string, terms: Terms)
    requires operation in {Commit, Push} && IsOpen(s, operation, id, terms) && (operation == Push ==> s.commitSha == Some(sha))
    ensures Enabled(s, Record(operation, id, Success, Some(sha)), terms) && Finalizing(s, terms)
  {
    hide Finalizing, Word, IntentionOf;
  }

  lemma SavesSuccess(w: World, p: Process, operation: Operation, id: EffectId, sha: string, next: World, plan: Plan)
    requires Doing(w, p) == Answered(w.revision, operation, id, Some(sha))
    requires Enabled(w.state, Record(operation, id, Success, Some(sha)), TermsOf(plan, p))
    requires next == w.(revision := w.revision + 1, state := Recorded(w.state, operation, id, Success, Some(sha)), activities := w.activities[p := Idle])
    ensures MovesTo(w, next, plan)
  {
    hide Enabled, MovesTo, Recorded;
    OneStep(w, p, Save(Success), next, plan);
  }

  /** A push that nothing disturbs is sent, answered and recorded. */
  lemma PushesAndRecords(w: World, p: Process, id: EffectId, plan: Plan) returns (after: World)
    requires Doing(w, p) == Pushing(w.revision, id, Some(w.repo.head)) && w.state.commitSha == Some(w.repo.head)
    requires IsOpen(w.state, Push, id, TermsOf(plan, p))
    ensures MovesTo(w, after, plan) && OthersRest(w, after, p)
    ensures after.repo == w.repo.(remote := Some(w.repo.head)) && after.state.pushedSha == Some(w.repo.head)
  {
    hide MovesTo, IsOpen, Finalizing, Attempts;
    var sent := w.(repo := w.repo.(remote := Some(w.repo.head)), activities := w.activities[p := Answered(w.revision, Push, id, Some(w.repo.head))]);
    Sends(w, p, sent, plan);
    after := RecordsSuccess(sent, p, Push, id, w.repo.head, plan);
    MovesOn(w, sent, after, plan);
  }

  lemma Sends(w: World, p: Process, next: World, plan: Plan)
    requires Doing(w, p).Pushing? && Doing(w, p).sha == Some(w.repo.head)
    requires next == w.(repo := w.repo.(remote := Some(w.repo.head)),
                        activities := w.activities[p := Answered(Doing(w, p).revision, Push, Doing(w, p).id, Doing(w, p).sha)])
    ensures MovesTo(w, next, plan)
  {
    hide Enabled, After, MovesTo;
    OneStep(w, p, SendPush(true, true), next, plan);
  }

  lemma {:induction false} NoAttemptNoLatest(ledger: seq<Event>, operation: Operation)
    requires Attempts(ledger, operation) == 0
    ensures Latest(ledger, operation) == None
  {
    if ledger != [] {
      NoAttemptNoLatest(ledger[..|ledger| - 1], operation);
    }
  }

  /** One process has committed, another is past the guard, and a third has recorded the commit and is about to push it. */
  lemma OneIsAboutToPush(approval: Approval, plan: Plan) returns (w: World, id: EffectId)
    requires plan.policy.maxInvocations >= 2 && plan.policy.totalRetryWait >= 0.0 && approval.tree != plan.baseTree
    ensures MovesTo(FreshWorld(2, approval.tree, plan), w, plan) && WorldInv(w, plan)
    ensures w.repo.made == [Made(w.repo.head, plan.policy.baseline, approval.tree)] && w.repo.remote == None
    ensures w.state.commitSha == Some(w.repo.head) && w.state.pushedSha == None
    ensures Doing(w, Process(1, approval)).Guarded? && Doing(w, Process(2, approval)).Pushing? && Doing(w, Process(3, approval)) == Idle
    ensures HasOpenAttempt(w.state, Push, id, 1, Terms(plan.policy, approval))
  {
    hide WorldInv, MovesTo, HasOpenAttempt, Attempts, Finalizing, Latest, Intended;
    var start := FreshWorld(2, approval.tree, plan);
    var first, second, third := Process(0, approval), Process(1, approval), Process(2, approval);
    var staged, former := FirstStages(first, plan);
    var guarded, latest := AnotherPasses(staged, second, former, plan);
    MovesOn(start, staged, guarded, plan);
    assert Doing(guarded, first) == Doing(staged, first);
    GuardSeesHead(guarded, plan);
    var committed := StagedCommits(guarded, first, plan);
    MovesOn(start, guarded, committed, plan);
    MovesKeepTheBranch(guarded, committed, plan);
    var found := FindsCommit(committed, third, latest, 2, plan);
    MovesOn(start, committed, found, plan);
    NoAttemptNoLatest(found.state.ledger, Push);
    var announced;
    announced, id := Announces(found, third, Push, 0, plan);
    MovesOn(start, found, announced, plan);
    w := PassesPush(announced, third, plan);
    MovesOn(start, announced, w, plan);
    MovesKeepTheBranch(announced, w, plan);
  }

  /**
  A whole history under one approval in which the run has recorded the first
  commit as pushed, and the remote has left it. One process is about to push
  the recorded commit; another settles that attempt, pushes and records; a
  third, past the guard since before the commit, commits what the worktree has
  become; and the push that was late sends that.
  */
  lemma RemoteCanLeaveRecorded(approval: Approval, plan: Plan) returns (w: World)
    requires plan.policy.maxInvocations >= 2 && plan.policy.totalRetryWait >= 0.0 && approval.tree != plan.baseTree
    ensures MovesTo(FreshWorld(2, approval.tree, plan), w, plan) && WorldInv(w, plan)
    ensures w.state.pushedSha.Some? && IsFirst(w.repo, w.state.pushedSha) && w.repo.made[0].tree == approval.tree
    ensures w.repo.remote == Some(w.repo.head) != w.state.pushedSha && |w.repo.made| > 1
  {
    hide WorldInv, MovesTo, HasOpenAttempt, MayAttempt, IsFirst, IsOpen, IsClosed, Intended;
    var start := FreshWorld(2, approval.tree, plan);
    var rival, late, other := Process(1, approval), Process(2, approval), Process(3, approval);
    var waiting, id := OneIsAboutToPush(approval, plan);
    var settled := SettlesAttempt(waiting, other, Push, id, 1, plan);
    MovesOn(start, waiting, settled, plan);
    var announced, latest := Announces(settled, other, Push, 1, plan);
    MovesOn(start, settled, announced, plan);
    var passed := PassesPush(announced, other, plan);
    MovesOn(start, announced, passed, plan);
    AttemptIsOpen(announced.state, latest, 2, TermsOf(plan, other));
    var pushed := PushesAndRecords(passed, other, latest, plan);
    MovesOn(start, passed, pushed, plan);
    FreshWorldIsOk(2, approval.tree, plan);
    MovesKeepTheBranch(start, pushed, plan);
    assert Doing(pushed, rival) == Doing(waiting, rival) && Doing(pushed, late) == Doing(waiting, late);
    GuardedIsOpen(pushed, rival, plan);
    w := PushesAnother(pushed, late, plan);
    MovesOn(start, pushed, w, plan);
    MovesKeepTheBranch(pushed, w, plan);
  }

  lemma AttemptIsOpen(s: RunState, id: EffectId, n: nat, terms: Terms)
    requires HasOpenAttempt(s, Push, id, n, terms)
    ensures IsOpen(s, Push, id, terms)
  {
    hide IsOpen, Attempts, Latest;
  }

  lemma GuardedIsOpen(w: World, p: Process, plan: Plan)
    requires Doing(w, p).Guarded?
    ensures !IsClosed(w, plan)
  {
    assert p in w.activities;
  }
}
