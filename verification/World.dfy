/**
Any number of processes working on one run and one repository.

Each process is interrupted anywhere: between storing an intention and calling
Git, inside the Git call, and between Git's answer and storing it. A crash
loses everything the process knew. Other components write to the run in
between. The ticket branch itself is moved only by these processes.
*/
module Worlds {
  import opened Outcomes
  import opened EffectLedger
  import opened LedgerViews
  import opened RunStates
  import Stores
  import opened Router
  import opened Supervision
  import opened FinalizerWrites
  import opened LinearWrites
  import opened PreparationWrites
  import opened Protocol
  import opened ProtocolInvariant
  import opened ProtocolRuns

  /** A commit that was made on the ticket branch. */
  datatype Made = Made(sha: string, parent: string, tree: string)

  datatype Repository = Repository(
    head: string,
    made: seq<Made>,
    index: string,
    worktree: string,
    remote: Option<string>)   // the ticket branch on the remote

  /** What does not change while the run is finalized: the policy with its baseline, and the baseline's tree. */
  datatype Plan = Plan(policy: Policy, baseTree: string)

  /** One finalizer process. It holds one approval for its whole life; a run approved again gets new processes. */
  datatype Process = Process(n: nat, approval: Approval)

  function TermsOf(plan: Plan, p: Process): Terms {
    Terms(plan.policy, p.approval)
  }

  /** What a process is in the middle of, with the revision it last saw. */
  datatype Activity =
    | Idle
    | MayCall(revision: nat, operation: Operation, id: EffectId, sha: Option<string>)   // its intention is stored
    | Guarded(revision: nat, id: EffectId)                                              // the commit guard has seen HEAD at the baseline
    | Compared(revision: nat, id: EffectId)                                             // and the worktree as it was approved
    | Staged(revision: nat, id: EffectId)                                               // and has staged the worktree
    | Pushing(revision: nat, id: EffectId, sha: Option<string>)                         // the push guard has seen HEAD at this commit
    | MayLook(revision: nat, operation: Operation, id: EffectId, sha: Option<string>)   // about to ask Git what is there
    | Looking(revision: nat, id: EffectId, candidate: string)                           // has seen HEAD, and is to verify that commit
    | Answered(revision: nat, operation: Operation, id: EffectId, result: Option<string>)
    | MayCreate(revision: nat, target: BranchBinding)                                   // the branch invocation is stored

  datatype World = World(
    revision: nat,
    state: RunState,
    repo: Repository,
    activities: map<Process, Activity>,
    commitCalls: seq<EffectId>,
    pushCalls: seq<EffectId>,
    branchCalls: seq<BranchBinding>)

  datatype Action =
    | Announce(operation: Operation, id: EffectId)           // store the intention of a commit or push
    | AnnounceLook(operation: Operation, target: EffectId, id: EffectId)
    | PassGuard                                              // call commit: HEAD is the baseline
    | FailGuard                                              // call commit: it is not, or the call breaks
    | CompareWorktree                                        // the worktree is the approved one
    | RefuseWorktree                                         // it is not, or the index is not as expected, or Git breaks
    | StageWorktree                                          // stage what the worktree holds now
    | MakeCommit(sha: string)                                // commit what is staged now on what HEAD is now
    | RefuseCommit                                           // Git refuses, or breaks
    | PassPush                                               // call push: HEAD is the commit to push
    | FailPush                                               // call push: it is not, or the call breaks
    | SendPush(works: bool, answers: bool)                   // push what the branch holds now
    | StartLook(operation: Operation, id: EffectId)
    | SeeHead                                                // look for a commit: HEAD names the candidate
    | Look                                                   // verify the candidate, or read the remote
    | Save(outcome: Outcome)
    | InvokeCreation                                         // store the invocation that announces the branch's creation
    | CallCreation
    | Stop                                                   // a crash, or an exception that ends the process
    | EditWorktree(tree: string)                             // people and crews work on the files at any time
    | Elsewhere(write: Write)

  function Doing(w: World, p: Process): Activity {
    if p in w.activities then w.activities[p] else Idle
  }

  function TreeOf(repo: Repository, plan: Plan): string {
    if repo.made == [] then plan.baseTree else repo.made[|repo.made| - 1].tree
  }

  /** HEAD is a commit of exactly this tree on the baseline, and nothing else is staged. */
  predicate IsVerified(repo: Repository, tree: string, plan: Plan) {
    && repo.made != []
    && repo.made[|repo.made| - 1] == Made(repo.head, plan.policy.baseline, tree)
    && repo.index == tree
  }

  /** The sha is that of the first commit on the baseline. */
  predicate IsFirst(repo: Repository, sha: Option<string>) {
    sha.Some? && repo.made != [] && repo.made[0].sha == sha.value
  }

  /** The effect this process may still record, in the generation it saw. */
  ghost predicate IsOpen(s: RunState, operation: Operation, id: EffectId, terms: Terms) {
    && Finalizing(s, terms) && Wants(s, operation)
    && Word(s.ledger, id) == [I]
    && IntentionOf(s.ledger, id).Some?
    && IntentionOf(s.ledger, id).value.operation in {operation, Reconciling(operation)}
  }

  ghost predicate CanStep(w: World, p: Process, a: Action, plan: Plan) {
    var doing, terms := Doing(w, p), TermsOf(plan, p);
    match a
    case Announce(operation, id) => doing == Idle && Enabled(w.state, Intend(operation, id), terms)
    case AnnounceLook(operation, target, id) =>
      doing == Idle && operation in {Commit, Push} && Enabled(w.state, IntendReconcile(operation, target, id), terms)
    case PassGuard => doing.MayCall? && doing.operation == Commit && w.repo.head == plan.policy.baseline
    case FailGuard => doing.MayCall? && doing.operation == Commit
    case CompareWorktree => doing.Guarded? && w.repo.worktree == p.approval.tree
    case RefuseWorktree => doing.Guarded? || doing.Compared?
    case StageWorktree => doing.Compared?
    case MakeCommit(sha) =>
      && doing.Staged?
      && sha != plan.policy.baseline && (forall made <- w.repo.made :: made.sha != sha)
      && w.repo.index != TreeOf(w.repo, plan)     // Git refuses to commit nothing
    case RefuseCommit => doing.Staged?
    case PassPush => doing.MayCall? && doing.operation == Push && doing.sha == Some(w.repo.head)
    case FailPush => doing.MayCall? && doing.operation == Push
    case SendPush(works, answers) => doing.Pushing? && (answers ==> works && doing.sha == Some(w.repo.head))
    case StartLook(operation, id) =>
      doing == Idle && operation in {Commit, Push} && IsOpen(w.state, operation, id, terms)
    case SeeHead => doing.MayLook? && doing.operation == Commit
    case Look => doing.Looking? || (doing.MayLook? && doing.operation == Push)
    case Save(outcome) =>
      && doing.Answered? && doing.revision == w.revision
      && (outcome == Success ==> doing.result.Some?)
    case InvokeCreation => doing == Idle && w.state.binding.Some? && Enabled(w.state, BranchInvoke, terms)
    case CallCreation => doing.MayCreate?
    case Stop => true
    case EditWorktree(_) => true
    case Elsewhere(write) => IsElsewhere(write, w.state) && Enabled(w.state, write, terms)
  }

  ghost function Stored(w: World, p: Process, write: Write, doing: Activity, plan: Plan): World
    requires Enabled(w.state, write, TermsOf(plan, p))
  {
    w.(revision := w.revision + 1, state := After(w.state, write, TermsOf(plan, p)), activities := w.activities[p := doing])
  }

  ghost function Step(w: World, p: Process, a: Action, plan: Plan): World
    requires CanStep(w, p, a, plan)
    requires a.Save? ==> Enabled(w.state, StoredAnswer(w, p, a.outcome), TermsOf(plan, p))
  {
    var doing := Doing(w, p);
    match a
    case Announce(operation, id) =>
      Stored(w, p, Intend(operation, id), MayCall(w.revision + 1, operation, id, w.state.commitSha), plan)
    case AnnounceLook(operation, target, id) =>
      Stored(w, p, IntendReconcile(operation, target, id), MayLook(w.revision + 1, operation, id, w.state.commitSha), plan)
    case PassGuard =>
      w.(activities := w.activities[p := Guarded(doing.revision, doing.id)], commitCalls := w.commitCalls + [doing.id])
    case FailGuard =>
      w.(activities := w.activities[p := Answered(doing.revision, Commit, doing.id, None)],
         commitCalls := w.commitCalls + [doing.id])
    case CompareWorktree =>
      w.(activities := w.activities[p := Compared(doing.revision, doing.id)])
    case RefuseWorktree =>
      w.(activities := w.activities[p := Answered(doing.revision, Commit, doing.id, None)])
    case StageWorktree =>
      w.(repo := w.repo.(index := w.repo.worktree), activities := w.activities[p := Staged(doing.revision, doing.id)])
    case MakeCommit(sha) =>
      w.(repo := Committed(w.repo, sha),
         activities := w.activities[p := Answered(doing.revision, Commit, doing.id, CommitAnswer(w.repo, sha, p.approval.tree, plan))])
    case RefuseCommit =>
      w.(activities := w.activities[p := Answered(doing.revision, Commit, doing.id, None)])
    case PassPush =>
      w.(activities := w.activities[p := Pushing(doing.revision, doing.id, doing.sha)], pushCalls := w.pushCalls + [doing.id])
    case FailPush =>
      w.(activities := w.activities[p := Answered(doing.revision, Push, doing.id, None)], pushCalls := w.pushCalls + [doing.id])
    case SendPush(works, answers) =>
      w.(repo := if works then w.repo.(remote := Some(w.repo.head)) else w.repo,
         activities := w.activities[p := Answered(doing.revision, Push, doing.id, if answers then doing.sha else None)])
    case StartLook(operation, id) =>
      w.(activities := w.activities[p := MayLook(w.revision, operation, id, w.state.commitSha)])
    case SeeHead =>
      w.(activities := w.activities[p := Looking(doing.revision, doing.id, w.repo.head)])
    case Look =>
      w.(activities := w.activities[p := Answered(doing.revision, if doing.Looking? then Commit else Push, doing.id,
                                                  Seen(w.repo, doing, p.approval.tree, plan))])
    case Save(outcome) => Stored(w, p, StoredAnswer(w, p, outcome), Idle, plan)
    case InvokeCreation =>
      Stored(w, p, BranchInvoke, MayCreate(w.revision + 1, w.state.binding.value), plan)
    case CallCreation =>
      w.(activities := w.activities[p := Idle], branchCalls := w.branchCalls + [doing.target])
    case Stop => w.(activities := w.activities[p := Idle])
    case EditWorktree(tree) => w.(repo := w.repo.(worktree := tree))
    case Elsewhere(write) =>
      w.(revision := w.revision + 1, state := After(w.state, write, TermsOf(plan, p)))
  }

  /** A commit of what is staged, on what HEAD is: Git compares neither with what the guard has seen. */
  function Committed(repo: Repository, sha: string): Repository {
    repo.(head := sha, made := repo.made + [Made(sha, repo.head, repo.index)])
  }

  /** The new commit is verified afterwards: it must be on the baseline and hold the approved tree. */
  function CommitAnswer(repo: Repository, sha: string, tree: string, plan: Plan): Option<string> {
    if repo.head == plan.policy.baseline && repo.index == tree then Some(sha) else None
  }

  /** What Git shows a process that looks for the result of an earlier call. HEAD may have moved since the candidate was read. */
  function Seen(repo: Repository, doing: Activity, tree: string, plan: Plan): Option<string>
    requires doing.Looking? || doing.MayLook?
  {
    if doing.Looking? then (if IsApproved(repo, doing.candidate, tree, plan) then Some(doing.candidate) else None)
    else if repo.remote == doing.sha then doing.sha else None
  }

  /** The commit is on the baseline and holds this tree, and so does the index. */
  predicate IsApproved(repo: Repository, sha: string, tree: string, plan: Plan) {
    Made(sha, plan.policy.baseline, tree) in repo.made && repo.index == tree
  }

  function StoredAnswer(w: World, p: Process, outcome: Outcome): Write
    requires Doing(w, p).Answered?
  {
    var doing := Doing(w, p);
    Record(doing.operation, doing.id, outcome, if outcome == Success then doing.result else None)
  }

  // ----- the invariant of the whole world -----

  ghost predicate IsIntended(ledger: seq<Event>, id: EffectId, operation: Operation) {
    IntentionOf(ledger, id).Some? && IntentionOf(ledger, id).value.operation == operation
  }

  /** The commits follow one another from the baseline, and the remote has one of them, if any. */
  predicate RepositoryOk(repo: Repository, plan: Plan) {
    && (repo.head == if repo.made == [] then plan.policy.baseline else repo.made[|repo.made| - 1].sha)
    && (forall i :: 0 <= i < |repo.made| ==>
          && repo.made[i].sha != plan.policy.baseline
          && (i == 0 ==> repo.made[i].parent == plan.policy.baseline)
          && (i > 0 ==> repo.made[i].parent == repo.made[i - 1].sha))
    && (forall i, j :: 0 <= i < j < |repo.made| ==> repo.made[i].sha != repo.made[j].sha)
    && (repo.remote.Some? ==> exists made <- repo.made :: made.sha == repo.remote.value)
  }

  ghost predicate ActivityOk(w: World, p: Process, doing: Activity, plan: Plan) {
    match doing
    case Idle => true
    case MayCall(revision, operation, id, sha) =>
      && revision <= w.revision
      && operation in {Commit, Push}
      && IsIntended(w.state.ledger, id, operation)
      && id !in w.commitCalls && id !in w.pushCalls
      && (operation == Push ==> IsFirst(w.repo, sha))
      && (revision == w.revision ==> IsOpen(w.state, operation, id, TermsOf(plan, p)))
    case Guarded(revision, id) =>
      revision <= w.revision && (revision == w.revision ==> IsOpen(w.state, Commit, id, TermsOf(plan, p)))
    case Compared(revision, id) =>
      revision <= w.revision && (revision == w.revision ==> IsOpen(w.state, Commit, id, TermsOf(plan, p)))
    case Staged(revision, id) =>
      revision <= w.revision && (revision == w.revision ==> IsOpen(w.state, Commit, id, TermsOf(plan, p)))
    case Pushing(revision, id, sha) =>
      && revision <= w.revision && IsFirst(w.repo, sha)
      && (revision == w.revision ==> IsOpen(w.state, Push, id, TermsOf(plan, p)))
    case Looking(revision, id, candidate) =>
      revision <= w.revision && (revision == w.revision ==> IsOpen(w.state, Commit, id, TermsOf(plan, p)))
    case MayLook(revision, operation, id, sha) =>
      && revision <= w.revision
      && operation in {Commit, Push}
      && (operation == Push ==> IsFirst(w.repo, sha))
      && (revision == w.revision ==> IsOpen(w.state, operation, id, TermsOf(plan, p)))
    case Answered(revision, operation, id, result) =>
      && revision <= w.revision
      && operation in {Commit, Push}
      && (result.Some? ==> IsFirst(w.repo, result))
      && (result.Some? && operation == Commit ==> w.repo.made[0].tree == p.approval.tree)
      && (operation == Push && result.Some? ==> w.repo.remote.Some?)
      && (revision == w.revision ==> IsOpen(w.state, operation, id, TermsOf(plan, p)))
    case MayCreate(revision, target) =>
      revision <= w.revision && w.branchCalls == [] && IsInvokedFor(w.state, target)
  }

  /** The branch effect has had the invocation that announces the creation of exactly this bound branch. */
  ghost predicate IsInvokedFor(s: RunState, target: BranchBinding) {
    s.binding == Some(target) && |Word(s.ledger, TicketBranch)| >= 4 && [I, V, O, V] <= Word(s.ledger, TicketBranch)
  }

  ghost predicate CallsOk(ledger: seq<Event>, calls: seq<EffectId>, operation: Operation) {
    && (forall i, j :: 0 <= i < j < |calls| ==> calls[i] != calls[j])
    && (forall id <- calls :: IsIntended(ledger, id, operation))
  }

  ghost predicate SeparateCallers(activities: map<Process, Activity>) {
    forall p, q :: p in activities && q in activities && p != q && activities[p].MayCall? && activities[q].MayCall? ==>
      activities[p].id != activities[q].id
  }

  /** The branch was created at most once, from the stored binding, and at most one process is about to. */
  ghost predicate CreationOk(w: World) {
    && (w.branchCalls != [] ==> |w.branchCalls| == 1 && IsInvokedFor(w.state, w.branchCalls[0]))
    && forall p, q :: p in w.activities && q in w.activities && w.activities[p].MayCreate? && w.activities[q].MayCreate? ==> p == q
  }

  /** What the run has recorded is the first commit on the branch, and something was pushed for it. */
  predicate RecordedIsReal(s: RunState, repo: Repository) {
    && (s.commitSha.Some? ==> IsFirst(repo, s.commitSha))
    && (s.pushedSha.Some? ==> IsFirst(repo, s.pushedSha) && repo.remote.Some?)
  }

  ghost predicate WorldInv(w: World, plan: Plan) {
    && Inv(w.state, plan.policy)
    && RepositoryOk(w.repo, plan)
    && RecordedIsReal(w.state, w.repo)
    && (forall p <- w.activities :: ActivityOk(w, p, w.activities[p], plan))
    && SeparateCallers(w.activities)
    && CallsOk(w.state.ledger, w.commitCalls, Commit)
    && CallsOk(w.state.ledger, w.pushCalls, Push)
    && CreationOk(w)
  }

  // ----- a stored write and the processes that do not see it -----

  lemma {:induction false} IntentionIsStable(before: seq<Event>, after: seq<Event>, effect: EffectId)
    requires ValidLedger(after) && before <= after && IntentionOf(before, effect).Some?
    ensures IntentionOf(after, effect) == IntentionOf(before, effect)
    decreases |after|
  {
    if before != after {
      var shorter, last := after[..|after| - 1], after[|after| - 1];
      ValidityIsPrefixClosed(after, |after| - 1);
      assert before <= shorter;
      IntentionIsStable(before, shorter, effect);
      if last.effect == effect && last.payload.Intention? {
        assert after == shorter + [last];
        SecondIntentionIsRefused(shorter, last);
      }
    }
  }

  lemma SecondIntentionIsRefused(ledger: seq<Event>, event: Event)
    requires ValidLedger(ledger) && IntentionOf(ledger, event.effect).Some? && event.payload.Intention?
    ensures !ValidLedger(ledger + [event])
  {
    Stores.ReconciledMeansR(ledger, event.effect);
    ExtendedValidity(ledger, event);
  }

  lemma IntendedStays(before: seq<Event>, after: seq<Event>, id: EffectId, operation: Operation)
    requires ValidLedger(after) && before <= after && IsIntended(before, id, operation)
    ensures IsIntended(after, id, operation)
  {
    IntentionIsStable(before, after, id);
  }

  lemma {:induction false} LatestIsIntended(ledger: seq<Event>, operation: Operation)
    requires ValidLedger(ledger) && Latest(ledger, operation).Some?
    ensures IsIntended(ledger, Latest(ledger, operation).value, operation)
    decreases |ledger|
  {
    hide ValidLedger, Word;
    var shorter, last := ledger[..|ledger| - 1], ledger[|ledger| - 1];
    if !(last.payload.Intention? && last.payload.operation == operation) {
      ValidityIsPrefixClosed(ledger, |ledger| - 1);
      LatestIsIntended(shorter, operation);
      assert shorter <= ledger;
      IntendedStays(shorter, ledger, Latest(ledger, operation).value, operation);
    }
  }

  lemma CallsStayOk(before: seq<Event>, after: seq<Event>, calls: seq<EffectId>, operation: Operation)
    requires ValidLedger(after) && before <= after && CallsOk(before, calls, operation)
    ensures CallsOk(after, calls, operation)
  {
    hide IsIntended, ValidLedger;
    forall id | id in calls ensures IsIntended(after, id, operation) {
      IntendedStays(before, after, id, operation);
    }
  }

  /** Once the run has moved on, a process that saw an older generation can no longer store anything. */
  lemma BystanderStaysOk(w: World, next: World, p: Process, doing: Activity, plan: Plan)
    requires ActivityOk(w, p, doing, plan)
    requires next.repo == w.repo && next.revision == w.revision + 1
    requires next.commitCalls == w.commitCalls && next.pushCalls == w.pushCalls && next.branchCalls == w.branchCalls
    requires ValidLedger(next.state.ledger) && Onward(w.state, next.state)
    ensures ActivityOk(next, p, doing, plan)
  {
    hide IsIntended, ValidLedger, IsOpen, IsInvokedFor;
    if doing.MayCall? {
      IntendedStays(w.state.ledger, next.state.ledger, doing.id, doing.operation);
    } else if doing.MayCreate? {
      InvokedStays(w.state, next.state, doing.target);
    }
  }

  lemma InvokedStays(s: RunState, t: RunState, target: BranchBinding)
    requires Onward(s, t) && IsInvokedFor(s, target)
    ensures IsInvokedFor(t, target)
  {
    hide Word;
    assert t.ledger[..|s.ledger|] == s.ledger;
    WordPrefix(t.ledger, |s.ledger|, TicketBranch);
  }

  lemma CreationStaysOk(w: World, next: World)
    requires CreationOk(w) && Onward(w.state, next.state) && next.branchCalls == w.branchCalls
    requires forall p <- next.activities :: next.activities[p].MayCreate? ==> p in w.activities && w.activities[p].MayCreate?
    ensures CreationOk(next)
  {
    hide IsInvokedFor, Onward;
    if w.branchCalls != [] {
      InvokedStays(w.state, next.state, w.branchCalls[0]);
    }
  }

  /** Only recording a result can set a recorded commit or push. */
  lemma ShasAreKeptOrCleared(s: RunState, write: Write, t: RunState, terms: Terms)
    requires Enabled(s, write, terms) && !write.Record? && t == After(s, write, terms)
    ensures t.commitSha == s.commitSha || (t.commitSha == None && t.pushedSha == None)
    ensures t.pushedSha == s.pushedSha || t.pushedSha == None
  {
    hide StateApproved, IsFresh, Settled, ReObserved, IsReconciled, Attempts, Latest, Word, IntentionOf, IsAwaiting, ValidState,
      AcceptUpdate, ReceiptPhase, ConsumedState, Routed, WithCheckpoint, Restarted, CanStartIteration, Extend, Round;
    match write
    case Accept(receipt) =>
      var c := ConsumedState(s, receipt, receipt.retryAfter);
      ConsumedShas(s, receipt, receipt.retryAfter);
      UpdateKeepsRecord(c, receipt.request.operation, receipt, t, terms.policy);
    case AcceptPreparation(receipt) =>
      ConsumedShas(s, receipt, 0.0);
      ReceiptPhaseShape(ConsumedState(s, receipt, 0.0), receipt, t);
    case RouteFailed(failure) => RoutedShape(s, failure, t);
    case KeepCheckpoint(c) => CheckpointShas(s, c);
    case Restart(keep) => RestartShas(s, keep);
    case _ =>
  }

  lemma ConsumedShas(s: RunState, receipt: Receipt, wait: real)
    ensures var c := ConsumedState(s, receipt, wait);
      c.commitSha == s.commitSha && c.pushedSha == s.pushedSha && c.disposition == Active
  {
    hide Extend, Round;
  }

  lemma CheckpointShas(s: RunState, c: Checkpoint)
    ensures WithCheckpoint(s, c).commitSha == s.commitSha && WithCheckpoint(s, c).pushedSha == s.pushedSha
  {
  }

  lemma RestartShas(s: RunState, keep: set<Stage>)
    ensures Restarted(s, keep).commitSha == s.commitSha && Restarted(s, keep).pushedSha == s.pushedSha
  {
    hide Kept;
  }

  // ----- each step keeps the invariant -----

  lemma StoredKeeps(w: World, p: Process, write: Write, doing: Activity, next: World, plan: Plan)
    requires WorldInv(w, plan) && Enabled(w.state, write, TermsOf(plan, p)) && next == Stored(w, p, write, doing, plan)
    requires ActivityOk(next, p, doing, plan) && RecordedIsReal(next.state, w.repo)
    requires doing.MayCall? ==> forall q <- w.activities :: q != p && w.activities[q].MayCall? ==> w.activities[q].id != doing.id
    requires doing.MayCreate? ==> w.branchCalls == [] && forall q <- w.activities :: !w.activities[q].MayCreate?
    ensures WorldInv(next, plan)
  {
    hide Enabled, After, Inv, ActivityOk, RepositoryOk, RecordedIsReal, CallsOk, Onward, Grows;
    WriteKeeps(w.state, write, TermsOf(plan, p));
    LedgerGoesOn(w.state, write, next.state, TermsOf(plan, p));
    if !doing.MayCreate? {
      CreationStaysOk(w, next);
    }
    forall q | q in next.activities ensures ActivityOk(next, q, next.activities[q], plan) {
      if q != p {
        BystanderStaysOk(w, next, q, w.activities[q], plan);
      }
    }
    CallsStayOk(w.state.ledger, next.state.ledger, w.commitCalls, Commit);
    CallsStayOk(w.state.ledger, next.state.ledger, w.pushCalls, Push);
  }

  lemma LedgerGoesOn(s: RunState, write: Write, t: RunState, terms: Terms)
    requires Inv(s, terms.policy) && Enabled(s, write, terms) && t == After(s, write, terms)
    ensures ValidLedger(t.ledger) && s.ledger <= t.ledger && Onward(s, t)
  {
    hide Inv, Enabled, After;
    WriteKeeps(s, write, terms);
    InvHasValidLedger(t, terms.policy);
    WriteIsOnward(s, write, t, terms);
  }

  lemma InvHasValidLedger(s: RunState, policy: Policy)
    requires Inv(s, policy)
    ensures ValidLedger(s.ledger)
  {
    hide LedgerStory, PendingStory, BranchStory, Milestones, Bounded, WaitStory;
  }

  lemma ElsewhereKeeps(w: World, p: Process, write: Write, next: World, plan: Plan)
    requires WorldInv(w, plan) && IsElsewhere(write, w.state) && Enabled(w.state, write, TermsOf(plan, p))
    requires next == w.(revision := w.revision + 1, state := After(w.state, write, TermsOf(plan, p)))
    ensures WorldInv(next, plan)
  {
    hide Enabled, After, Inv, ActivityOk, RepositoryOk, CallsOk, IsVerified, Onward, Grows;
    WriteKeeps(w.state, write, TermsOf(plan, p));
    LedgerGoesOn(w.state, write, next.state, TermsOf(plan, p));
    CreationStaysOk(w, next);
    ShasAreKeptOrCleared(w.state, write, next.state, TermsOf(plan, p));
    forall q | q in next.activities ensures ActivityOk(next, q, next.activities[q], plan) {
      BystanderStaysOk(w, next, q, w.activities[q], plan);
    }
    CallsStayOk(w.state.ledger, next.state.ledger, w.commitCalls, Commit);
    CallsStayOk(w.state.ledger, next.state.ledger, w.pushCalls, Push);
  }

  /** A fresh effect is in nobody's hands. */
  lemma FreshIsUnused(ledger: seq<Event>, id: EffectId, operation: Operation)
    requires ValidLedger(ledger) && IsFresh(ledger, id)
    ensures !IsIntended(ledger, id, operation)
  {
    hide ValidLedger, Word, IntentionOf;
    IntentionIffWord(ledger, id);
  }

  lemma IntendedIsOpen(s: RunState, operation: Operation, logged: Operation, target: Target, id: EffectId, terms: Terms)
    requires Inv(s, terms.policy) && Finalizing(s, terms) && Wants(s, operation) && IsFresh(s.ledger, id)
    requires operation in {Commit, Push} && logged in {operation, Reconciling(operation)}
    requires target.EffectTarget? ==> IntentionOf(s.ledger, target.effect).Some?
    ensures var t := Intended(s, logged, target, id);
      && IsOpen(t, operation, id, terms) && IsIntended(t.ledger, id, logged)
      && t.commitSha == s.commitSha && t.pushedSha == s.pushedSha && t.disposition == s.disposition
  {
    hide Extend, ValidState, LedgerStory, PendingStory, BranchStory, Milestones, Bounded, WaitStory, Word, IntentionOf, OutputsMatch, LedgerWait, Attempts, Latest;
    var intention := Intention(logged, target, LocalHash(id, logged, target));
    LedgerStoryOf(s, terms.policy);
    IntentionStory(s.ledger, id, intention);
    IntendViews(s.ledger, id, intention);
    assert [] + [I] == [I];
  }

  lemma AnnounceKeeps(w: World, p: Process, operation: Operation, id: EffectId, next: World, plan: Plan)
    requires WorldInv(w, plan) && Enabled(w.state, Intend(operation, id), TermsOf(plan, p))
    requires next == Stored(w, p, Intend(operation, id), MayCall(w.revision + 1, operation, id, w.state.commitSha), plan)
    ensures WorldInv(next, plan)
  {
    hide Inv, StateApproved, Settled, Attempts, Word, IntentionOf, ReObserved, Latest, Extend, IsOpen, IsIntended, CallsOk, RepositoryOk, IsFirst, Finalizing;
    IntendedIsOpen(w.state, operation, operation, Ticket, id, TermsOf(plan, p));
    InvHasValidLedger(w.state, plan.policy);
    FreshIsUnused(w.state.ledger, id, Commit);
    FreshIsUnused(w.state.ledger, id, Push);
    assert id !in w.commitCalls && id !in w.pushCalls by { CallsAreIntended(w.state.ledger, w.commitCalls, w.pushCalls, id); }
    forall q | q in w.activities && q != p && w.activities[q].MayCall? ensures w.activities[q].id != id {
      assert ActivityOk(w, q, w.activities[q], plan);
    }
    StoredKeeps(w, p, Intend(operation, id), MayCall(w.revision + 1, operation, id, w.state.commitSha), next, plan);
  }

  lemma CallsAreIntended(ledger: seq<Event>, commits: seq<EffectId>, pushes: seq<EffectId>, id: EffectId)
    requires CallsOk(ledger, commits, Commit) && CallsOk(ledger, pushes, Push)
    requires !IsIntended(ledger, id, Commit) && !IsIntended(ledger, id, Push)
    ensures id !in commits && id !in pushes
  {
    hide IsIntended;
  }

  lemma TargetIsIntended(s: RunState, target: EffectId, policy: Policy)
    requires Inv(s, policy) && IsReconciled(s.ledger, target)
    ensures IntentionOf(s.ledger, target).Some?
  {
    LedgerStoryOf(s, policy);
    ReconciledIsIntended(s.ledger, target);
  }

  lemma AnnounceLookKeeps(w: World, p: Process, operation: Operation, target: EffectId, id: EffectId, next: World, plan: Plan)
    requires WorldInv(w, plan) && operation in {Commit, Push} && Enabled(w.state, IntendReconcile(operation, target, id), TermsOf(plan, p))
    requires next == Stored(w, p, IntendReconcile(operation, target, id), MayLook(w.revision + 1, operation, id, w.state.commitSha), plan)
    ensures WorldInv(next, plan)
  {
    hide Inv, StateApproved, Settled, Attempts, Word, IntentionOf, ReObserved, Latest, Extend, IsOpen, IsIntended, CallsOk, RepositoryOk, IsFirst, Finalizing, IsReconciled;
    TargetIsIntended(w.state, target, plan.policy);
    IntendedIsOpen(w.state, operation, Reconciling(operation), EffectTarget(target), id, TermsOf(plan, p));
    StoredKeeps(w, p, IntendReconcile(operation, target, id), MayLook(w.revision + 1, operation, id, w.state.commitSha), next, plan);
  }

  lemma AnswerCanBeStored(w: World, p: Process, outcome: Outcome, plan: Plan)
    requires WorldInv(w, plan) && CanStep(w, p, Save(outcome), plan)
    ensures Enabled(w.state, StoredAnswer(w, p, outcome), TermsOf(plan, p))
  {
    hide Inv, StateApproved, Word, IntentionOf, CallsOk, RepositoryOk, Finalizing, SeparateCallers;
    assert ActivityOk(w, p, w.activities[p], plan);
  }

  lemma StoreKeeps(w: World, p: Process, outcome: Outcome, next: World, plan: Plan)
    requires WorldInv(w, plan) && CanStep(w, p, Save(outcome), plan)
    requires Enabled(w.state, StoredAnswer(w, p, outcome), TermsOf(plan, p))
    requires next == Stored(w, p, StoredAnswer(w, p, outcome), Idle, plan)
    ensures WorldInv(next, plan)
  {
    hide Inv, Enabled, After, StateApproved, Word, IntentionOf, CallsOk, RepositoryOk, IsFirst, Finalizing, SeparateCallers, IsOpen, ActivityOk;
    AnswerIsReal(w, p, outcome, plan);
    IdleIsOk(next, p, plan);
    StoredKeeps(w, p, StoredAnswer(w, p, outcome), Idle, next, plan);
  }

  /** A recorded success is the first commit, and for a recorded push the remote has the branch. */
  lemma AnswerIsReal(w: World, p: Process, outcome: Outcome, plan: Plan)
    requires WorldInv(w, plan) && CanStep(w, p, Save(outcome), plan)
    requires Enabled(w.state, StoredAnswer(w, p, outcome), TermsOf(plan, p))
    ensures RecordedIsReal(After(w.state, StoredAnswer(w, p, outcome), TermsOf(plan, p)), w.repo)
  {
    hide Inv, StateApproved, Word, IntentionOf, CallsOk, RepositoryOk, IsFirst, Finalizing, SeparateCallers, Extend, Round, IsOpen;
    assert ActivityOk(w, p, w.activities[p], plan);
  }

  // ----- steps that only touch the repository or one process -----

  /** A step that changes neither the run nor what Git holds, only what one process is doing. */
  lemma ActivityKeeps(w: World, p: Process, doing: Activity, next: World, plan: Plan)
    requires WorldInv(w, plan) && next == w.(activities := w.activities[p := doing])
    requires ActivityOk(w, p, doing, plan) && !doing.MayCall? && !doing.MayCreate?
    ensures WorldInv(next, plan)
  {
    hide Inv, CallsOk, RepositoryOk, RecordedIsReal, IsOpen, IsIntended, IsFirst;
    forall q | q in next.activities ensures ActivityOk(next, q, next.activities[q], plan) {
      assert q != p ==> ActivityOk(w, q, w.activities[q], plan);
    }
  }

  /** A call is made once: the guard has passed or refused it. */
  lemma GuardKeeps(w: World, p: Process, doing: Activity, next: World, plan: Plan)
    requires WorldInv(w, plan) && Doing(w, p).MayCall? && Doing(w, p).operation == Commit
    requires doing == Guarded(Doing(w, p).revision, Doing(w, p).id) || doing == Answered(Doing(w, p).revision, Commit, Doing(w, p).id, None)
    requires next == w.(activities := w.activities[p := doing], commitCalls := w.commitCalls + [Doing(w, p).id])
    ensures WorldInv(next, plan)
  {
    hide Inv, IsOpen, IsIntended, RepositoryOk, RecordedIsReal, IsFirst;
    assert ActivityOk(w, p, Doing(w, p), plan);
    forall q | q in next.activities ensures ActivityOk(next, q, next.activities[q], plan) {
      assert q != p ==> ActivityOk(w, q, w.activities[q], plan);
    }
  }

  lemma PushGuardKeeps(w: World, p: Process, doing: Activity, next: World, plan: Plan)
    requires WorldInv(w, plan) && Doing(w, p).MayCall? && Doing(w, p).operation == Push
    requires || doing == Pushing(Doing(w, p).revision, Doing(w, p).id, Doing(w, p).sha)
             || doing == Answered(Doing(w, p).revision, Push, Doing(w, p).id, None)
    requires next == w.(activities := w.activities[p := doing], pushCalls := w.pushCalls + [Doing(w, p).id])
    ensures WorldInv(next, plan)
  {
    hide Inv, IsOpen, IsIntended, RepositoryOk, RecordedIsReal, IsFirst;
    assert ActivityOk(w, p, Doing(w, p), plan);
    forall q | q in next.activities ensures ActivityOk(next, q, next.activities[q], plan) {
      assert q != p ==> ActivityOk(w, q, w.activities[q], plan);
    }
  }

  /** A step of one process that leaves the run alone, and after which the repository has everything it had. */
  lemma RepositoryStepKeeps(w: World, p: Process, doing: Activity, next: World, plan: Plan)
    requires WorldInv(w, plan) && RepositoryOk(next.repo, plan)
    requires next == w.(repo := next.repo, activities := w.activities[p := doing])
    requires ActivityOk(next, p, doing, plan) && !doing.MayCall? && !doing.MayCreate?
    requires KeepsFirst(w.repo, next.repo)
    ensures WorldInv(next, plan)
  {
    hide Inv, IsOpen, IsIntended, CallsOk, RepositoryOk, IsFirst;
    FirstIsKept(w.repo, next.repo);
    forall q | q in next.activities ensures ActivityOk(next, q, next.activities[q], plan) {
      assert q != p ==> ActivityOk(w, q, w.activities[q], plan);
    }
  }

  /** The first commit stays, and what was pushed is not taken back. */
  predicate KeepsFirst(before: Repository, after: Repository) {
    && (before.made != [] ==> after.made != [] && after.made[0] == before.made[0])
    && (before.remote.Some? ==> after.remote.Some?)
  }

  lemma FirstIsKept(before: Repository, after: Repository)
    requires KeepsFirst(before, after)
    ensures forall sha :: IsFirst(before, sha) ==> IsFirst(after, sha) && after.made[0] == before.made[0]
  {
  }

  lemma StagingKeeps(w: World, p: Process, next: World, plan: Plan)
    requires WorldInv(w, plan) && CanStep(w, p, StageWorktree, plan) && next == Step(w, p, StageWorktree, plan)
    ensures WorldInv(next, plan)
  {
    hide Inv, IsOpen, IsIntended, CallsOk, Enabled, After;
    assert ActivityOk(w, p, w.activities[p], plan);
    RepositoryStepKeeps(w, p, Staged(Doing(w, p).revision, Doing(w, p).id), next, plan);
  }

  lemma CommitFollows(repo: Repository, sha: string, plan: Plan)
    requires RepositoryOk(repo, plan) && sha != plan.policy.baseline && (forall made <- repo.made :: made.sha != sha)
    ensures RepositoryOk(Committed(repo, sha), plan) && KeepsFirst(repo, Committed(repo, sha))
    ensures repo.made == [] <==> repo.head == plan.policy.baseline
    ensures repo.made == [] ==> IsFirst(Committed(repo, sha), Some(sha)) && Committed(repo, sha).made[0].tree == repo.index
    ensures repo.made == [] ==> IsVerified(Committed(repo, sha), repo.index, plan)
  {
  }

  /** Whatever is committed follows HEAD; it is the process's verified commit only as the first one, with its own tree. */
  lemma MakeCommitKeeps(w: World, p: Process, sha: string, next: World, plan: Plan)
    requires WorldInv(w, plan) && CanStep(w, p, MakeCommit(sha), plan)
    requires next == Step(w, p, MakeCommit(sha), plan)
    ensures WorldInv(next, plan)
    ensures next.repo.made == w.repo.made + [Made(sha, w.repo.head, w.repo.index)]
    ensures CommitAnswer(w.repo, sha, p.approval.tree, plan).Some? <==> w.repo.made == [] && w.repo.index == p.approval.tree
    ensures CommitAnswer(w.repo, sha, p.approval.tree, plan).Some? ==> IsVerified(next.repo, p.approval.tree, plan) && next.repo.head == sha
  {
    hide Inv, IsOpen, IsIntended, CallsOk, Enabled, After, RepositoryOk, KeepsFirst, IsFirst, IsVerified;
    assert ActivityOk(w, p, w.activities[p], plan);
    RepositoryOfWorld(w, plan);
    CommitFollows(w.repo, sha, plan);
    RepositoryStepKeeps(w, p, next.activities[p], next, plan);
  }

  lemma RepositoryOfWorld(w: World, plan: Plan)
    requires WorldInv(w, plan)
    ensures RepositoryOk(w.repo, plan)
  {
    hide Inv, ActivityOk, CallsOk, RepositoryOk;
  }

  /**
  A push moves the remote to what the branch holds at that moment. It is
  answered only for the first commit, and only when that is still HEAD.
  */
  lemma SendPushKeeps(w: World, p: Process, works: bool, answers: bool, next: World, plan: Plan)
    requires WorldInv(w, plan) && CanStep(w, p, SendPush(works, answers), plan)
    requires next == Step(w, p, SendPush(works, answers), plan)
    ensures WorldInv(next, plan)
    ensures next.repo.remote == if works then Some(w.repo.head) else w.repo.remote
    ensures answers ==> IsFirst(next.repo, next.repo.remote) && |next.repo.made| == 1
  {
    hide Inv, IsOpen, IsIntended, CallsOk, Enabled, After;
    assert ActivityOk(w, p, w.activities[p], plan);
    HeadIsMade(w.repo, plan);
    RepositoryStepKeeps(w, p, next.activities[p], next, plan);
  }

  lemma HeadIsMade(repo: Repository, plan: Plan)
    requires RepositoryOk(repo, plan) && repo.made != []
    ensures exists made <- repo.made :: made.sha == repo.head
    ensures repo.head == repo.made[0].sha <==> |repo.made| == 1
  {
    assert repo.made[|repo.made| - 1].sha == repo.head;
  }

  /** Every step of every process keeps the invariant, and an answer can always be stored in the generation it was asked in. */
  lemma StepKeeps(w: World, p: Process, a: Action, plan: Plan)
    requires WorldInv(w, plan) && CanStep(w, p, a, plan)
    ensures a.Save? ==> Enabled(w.state, StoredAnswer(w, p, a.outcome), TermsOf(plan, p))
    ensures WorldInv(Step(w, p, a, plan), plan)
  {
    hide WorldInv, ActivityOk, Enabled, After, Stored, IsOpen;
    if a.Save? {
      AnswerCanBeStored(w, p, a.outcome, plan);
    }
    var next := Step(w, p, a, plan);
    match a
    case Announce(operation, id) => AnnounceKeeps(w, p, operation, id, next, plan);
    case AnnounceLook(operation, target, id) => AnnounceLookKeeps(w, p, operation, target, id, next, plan);
    case PassGuard => GuardKeeps(w, p, next.activities[p], next, plan);
    case FailGuard => GuardKeeps(w, p, next.activities[p], next, plan);
    case CompareWorktree =>
      EndsOk(w, p, plan);
      ActivityKeeps(w, p, next.activities[p], next, plan);
    case StageWorktree => StagingKeeps(w, p, next, plan);
    case RefuseWorktree =>
      EndsOk(w, p, plan);
      ActivityKeeps(w, p, next.activities[p], next, plan);
    case MakeCommit(sha) => MakeCommitKeeps(w, p, sha, next, plan);
    case RefuseCommit =>
      EndsOk(w, p, plan);
      ActivityKeeps(w, p, next.activities[p], next, plan);
    case PassPush => PushGuardKeeps(w, p, next.activities[p], next, plan);
    case FailPush => PushGuardKeeps(w, p, next.activities[p], next, plan);
    case SendPush(works, answers) => SendPushKeeps(w, p, works, answers, next, plan);
    case StartLook(operation, id) =>
      StartsOk(w, p, operation, id, plan);
      ActivityKeeps(w, p, next.activities[p], next, plan);
    case SeeHead =>
      EndsOk(w, p, plan);
      ActivityKeeps(w, p, next.activities[p], next, plan);
    case Look =>
      LooksOk(w, p, plan);
      ActivityKeeps(w, p, next.activities[p], next, plan);
    case Save(outcome) => StoreKeeps(w, p, outcome, next, plan);
    case InvokeCreation => InvokeCreationKeeps(w, p, next, plan);
    case CallCreation => CallCreationKeeps(w, p, next, plan);
    case Stop =>
      IdleIsOk(w, p, plan);
      ActivityKeeps(w, p, Idle, next, plan);
    case EditWorktree(tree) => WorktreeKeeps(w, tree, next, plan);
    case Elsewhere(write) => ElsewhereKeeps(w, p, write, next, plan);
  }

  /** The invocation that announces the creation can be stored only once. */
  lemma InvokeCreationKeeps(w: World, p: Process, next: World, plan: Plan)
    requires WorldInv(w, plan) && w.state.binding.Some? && Enabled(w.state, BranchInvoke, TermsOf(plan, p))
    requires next == Stored(w, p, BranchInvoke, MayCreate(w.revision + 1, w.state.binding.value), plan)
    ensures WorldInv(next, plan)
  {
    hide Inv, ActivityOk, RepositoryOk, CallsOk, Word, IsAwaiting, IntentionOf, BranchInvoked;
    BranchInvokeKeeps(w.state, next.state, plan.policy);
    CreationIsNew(w.state, next.state, plan.policy);
    BranchInvokedShape(w.state);
    assert w.branchCalls == [];
    forall q | q in w.activities ensures !w.activities[q].MayCreate? {
      CreatorIsInvoked(w, q, w.activities[q], plan);
    }
    assert IsInvokedFor(next.state, w.state.binding.value);
    CreatorOk(next, p, w.revision + 1, w.state.binding.value, plan);
    StoredKeeps(w, p, BranchInvoke, MayCreate(w.revision + 1, w.state.binding.value), next, plan);
  }

  lemma CreatorIsInvoked(w: World, p: Process, doing: Activity, plan: Plan)
    requires ActivityOk(w, p, doing, plan)
    ensures doing.MayCreate? ==> IsInvokedFor(w.state, doing.target) && w.branchCalls == []
  {
  }

  lemma CreatorOk(w: World, p: Process, revision: nat, target: BranchBinding, plan: Plan)
    requires revision <= w.revision && w.branchCalls == [] && IsInvokedFor(w.state, target)
    ensures ActivityOk(w, p, MayCreate(revision, target), plan)
  {
  }

  lemma BranchInvokedShape(s: RunState)
    ensures BranchInvoked(s).binding == s.binding
    ensures BranchInvoked(s).commitSha == s.commitSha && BranchInvoked(s).pushedSha == s.pushedSha
  {
    hide Extend;
  }

  lemma CreationIsNew(s: RunState, t: RunState, policy: Policy)
    requires Inv(s, policy) && s.binding.Some? && s.phase == InProgressConfirmed && !IsAwaiting(s.ledger)
    requires IntentionOf(s.ledger, TicketBranch).Some?
    ensures |Word(s.ledger, TicketBranch)| < 4
  {
    hide ValidState, Word, IntentionOf, PendingStory, Milestones, Bounded, WaitStory;
    BranchPosition(s);
    IntentionIffWordInState(s, policy);
  }

  lemma IntentionIffWordInState(s: RunState, policy: Policy)
    requires Inv(s, policy)
    ensures IntentionOf(s.ledger, TicketBranch).Some? <==> Word(s.ledger, TicketBranch) != []
  {
    IntentionIffWord(s.ledger, TicketBranch);
  }

  lemma CallCreationKeeps(w: World, p: Process, next: World, plan: Plan)
    requires WorldInv(w, plan) && Doing(w, p).MayCreate?
    requires next == w.(activities := w.activities[p := Idle], branchCalls := w.branchCalls + [Doing(w, p).target])
    ensures WorldInv(next, plan)
  {
    hide Inv, CallsOk, RepositoryOk, RecordedIsReal, IsOpen, IsIntended, IsFirst, IsInvokedFor;
    CreatorIsInvoked(w, p, w.activities[p], plan);
    forall q | q in next.activities ensures ActivityOk(next, q, next.activities[q], plan) {
      assert q != p ==> ActivityOk(w, q, w.activities[q], plan);
    }
  }

  lemma WorktreeKeeps(w: World, tree: string, next: World, plan: Plan)
    requires WorldInv(w, plan) && next == w.(repo := w.repo.(worktree := tree))
    ensures WorldInv(next, plan)
  {
    hide Inv, IsOpen, IsIntended, CallsOk;
    forall q | q in next.activities ensures ActivityOk(next, q, next.activities[q], plan) {
      assert ActivityOk(w, q, w.activities[q], plan);
    }
  }

  lemma IdleIsOk(w: World, p: Process, plan: Plan)
    ensures ActivityOk(w, p, Idle, plan)
  {
  }

  /** Whatever a process in the middle of a commit or a look goes on to is in order. */
  lemma EndsOk(w: World, p: Process, plan: Plan)
    requires WorldInv(w, plan)
    ensures var doing := Doing(w, p);
      && (doing.Guarded? ==> ActivityOk(w, p, Compared(doing.revision, doing.id), plan))
      && (doing.Guarded? || doing.Compared? || doing.Staged? ==> ActivityOk(w, p, Answered(doing.revision, Commit, doing.id, None), plan))
      && (doing.MayLook? && doing.operation == Commit ==> ActivityOk(w, p, Looking(doing.revision, doing.id, w.repo.head), plan))
  {
    hide Inv, IsOpen, CallsOk, SeparateCallers, RepositoryOk, IsFirst;
    if p in w.activities {
      assert ActivityOk(w, p, w.activities[p], plan);
    }
  }

  /** What a look finds is the first commit, with the process's own tree. */
  lemma LooksOk(w: World, p: Process, plan: Plan)
    requires WorldInv(w, plan) && CanStep(w, p, Look, plan)
    ensures var doing := Doing(w, p);
      ActivityOk(w, p, Answered(doing.revision, if doing.Looking? then Commit else Push, doing.id, Seen(w.repo, doing, p.approval.tree, plan)), plan)
  {
    hide Inv, IsOpen, CallsOk, SeparateCallers, RepositoryOk, IsFirst, IsApproved, Enabled, After;
    assert ActivityOk(w, p, w.activities[p], plan);
    var doing := Doing(w, p);
    if doing.Looking? && IsApproved(w.repo, doing.candidate, p.approval.tree, plan) {
      ApprovedIsFirst(w.repo, doing.candidate, p.approval.tree, plan);
    }
  }

  lemma ApprovedIsFirst(repo: Repository, sha: string, tree: string, plan: Plan)
    requires RepositoryOk(repo, plan) && IsApproved(repo, sha, tree, plan)
    ensures IsFirst(repo, Some(sha)) && repo.made[0].tree == tree
  {
    var i :| 0 <= i < |repo.made| && repo.made[i] == Made(sha, plan.policy.baseline, tree);
    OnlyFirstIsOnBaseline(repo, i, plan);
  }

  /** The only commit with the baseline as its parent is the first one. */
  lemma VerifiedIsFirst(repo: Repository, tree: string, plan: Plan)
    requires RepositoryOk(repo, plan) && IsVerified(repo, tree, plan)
    ensures |repo.made| == 1 && IsFirst(repo, Some(repo.head)) && repo.made[0].tree == tree
  {
    OnlyFirstIsOnBaseline(repo, |repo.made| - 1, plan);
  }

  lemma OnlyFirstIsOnBaseline(repo: Repository, i: nat, plan: Plan)
    requires RepositoryOk(repo, plan) && i < |repo.made|
    ensures repo.made[i].parent == plan.policy.baseline <==> i == 0
  {
    if i > 0 {
      assert repo.made[i].parent == repo.made[i - 1].sha;
    }
  }

  /** With one commit on the branch, whatever the remote has is that commit. */
  lemma RemoteIsFirst(repo: Repository, plan: Plan)
    requires RepositoryOk(repo, plan) && |repo.made| <= 1
    ensures repo.remote.Some? ==> IsFirst(repo, repo.remote)
  {
  }

  lemma StartsOk(w: World, p: Process, operation: Operation, id: EffectId, plan: Plan)
    requires WorldInv(w, plan) && operation in {Commit, Push} && IsOpen(w.state, operation, id, TermsOf(plan, p))
    ensures ActivityOk(w, p, MayLook(w.revision, operation, id, w.state.commitSha), plan)
  {
    hide Inv, CallsOk, SeparateCallers, Word, IntentionOf, Finalizing;
  }

  // ----- when the branch can gain another commit -----

  /** Between the guard's look at HEAD and the commit. */
  predicate IsPastGuard(doing: Activity) {
    doing.Guarded? || doing.Compared? || doing.Staged?
  }

  /**
  Nobody can add another commit: whoever has passed the guard has finished, or
  has staged what is committed already. A process that has not staged yet may
  still stage anything, whatever it has compared before.
  */
  predicate IsClosed(w: World, plan: Plan) {
    && w.repo.made != []
    && (forall q <- w.activities :: !w.activities[q].Guarded? && !w.activities[q].Compared?)
    && (w.repo.index == TreeOf(w.repo, plan) || forall q <- w.activities :: !w.activities[q].Staged?)
  }

  /** HEAD is the verified commit of this tree, and it will stay so. */
  predicate IsHeld(w: World, tree: string, plan: Plan) {
    IsVerified(w.repo, tree, plan) && IsClosed(w, plan)
  }

  /** A closed branch gains nothing by any step, and stays closed. The guard is what keeps new processes out. */
  lemma ClosedStaysClosed(w: World, p: Process, a: Action, plan: Plan)
    requires WorldInv(w, plan) && CanStep(w, p, a, plan) && IsClosed(w, plan)
    requires a.Save? ==> Enabled(w.state, StoredAnswer(w, p, a.outcome), TermsOf(plan, p))
    ensures var next := Step(w, p, a, plan);
      && IsClosed(next, plan) && next.repo.made == w.repo.made && next.repo.head == w.repo.head
      && (w.repo.index == TreeOf(w.repo, plan) ==> next.repo.index == w.repo.index)
  {
    hide Inv, ActivityOk, CallsOk, SeparateCallers, CreationOk, Enabled, After, IsOpen, RecordedIsReal;
    CommitMovesHead(w.repo, plan);
  }

  lemma CommitMovesHead(repo: Repository, plan: Plan)
    requires RepositoryOk(repo, plan)
    ensures repo.made != [] ==> repo.head != plan.policy.baseline
  {
  }

  /** HEAD is the baseline exactly while nothing has been committed. */
  lemma GuardSeesHead(w: World, plan: Plan)
    requires WorldInv(w, plan)
    ensures w.repo.made == [] <==> w.repo.head == plan.policy.baseline
  {
    hide Inv, ActivityOk, CallsOk;
  }

  // ----- whole histories -----

  /** A run that was just activated, a branch at its baseline, and no process at work. */
  function FreshWorld(maxIterations: nat, worktree: string, plan: Plan): World {
    World(1, Initial(maxIterations), Repository(plan.policy.baseline, [], plan.baseTree, worktree, None), map[], [], [], [])
  }

  lemma FreshWorldIsOk(maxIterations: nat, worktree: string, plan: Plan)
    requires plan.policy.totalRetryWait >= 0.0
    ensures WorldInv(FreshWorld(maxIterations, worktree, plan), plan)
  {
    InitialInv(maxIterations, plan.policy);
    hide Inv;
  }

  ghost predicate IsHistory(worlds: seq<World>, steps: seq<(Process, Action)>, plan: Plan) {
    && |worlds| == |steps| + 1
    && WorldInv(worlds[0], plan)
    && worlds[0].repo.made == [] && worlds[0].activities == map[]
    && forall i :: 0 <= i < |steps| ==> Happens(worlds, steps, i, plan)
  }

  ghost predicate Happens(worlds: seq<World>, steps: seq<(Process, Action)>, i: nat, plan: Plan)
    requires i < |steps| && |worlds| == |steps| + 1
  {
    && CanStep(worlds[i], steps[i].0, steps[i].1, plan)
    && (steps[i].1.Save? ==> Enabled(worlds[i].state, StoredAnswer(worlds[i], steps[i].0, steps[i].1.outcome), TermsOf(plan, steps[i].0)))
    && worlds[i + 1] == Step(worlds[i], steps[i].0, steps[i].1, plan)
  }

  lemma {:induction false} HistoriesKeepInv(worlds: seq<World>, steps: seq<(Process, Action)>, plan: Plan, i: nat)
    requires IsHistory(worlds, steps, plan) && i < |worlds|
    ensures WorldInv(worlds[i], plan)
  {
    hide WorldInv, CanStep, Step;
    if i > 0 {
      HistoriesKeepInv(worlds, steps, plan, i - 1);
      assert Happens(worlds, steps, i - 1, plan);
      StepKeeps(worlds[i - 1], steps[i - 1].0, steps[i - 1].1, plan);
    }
  }

  /** Distinct effects with intentions of one operation are at most the attempts of that operation. */
  lemma {:induction false} DistinctCallsAreAttempts(ledger: seq<Event>, calls: seq<EffectId>, operation: Operation)
    requires CallsOk(ledger, calls, operation)
    ensures |calls| <= Attempts(ledger, operation)
    decreases |ledger|
  {
    if calls != [] {
      assert IsIntended(ledger, calls[0], operation);
      var shorter, last := ledger[..|ledger| - 1], ledger[|ledger| - 1];
      if i :| 0 <= i < |calls| && last.payload.Intention? && last.payload.operation == operation && calls[i] == last.effect {
        var rest := calls[..i] + calls[i + 1..];
        assert forall id <- rest :: id in calls && id != last.effect;
        assert forall id <- rest :: IsIntended(shorter, id, operation);
        DistinctCallsAreAttempts(shorter, rest, operation);
      } else {
        forall id | id in calls ensures IsIntended(shorter, id, operation) {
          assert IsIntended(ledger, id, operation);
        }
        DistinctCallsAreAttempts(shorter, calls, operation);
      }
    }
  }

  /**
  At any moment of any history, under any approvals, with any crashes and any
  interleaving: Git was called at most as often as intentions were stored,
  which is at most the allowed number; what the run has recorded as its commit
  and as pushed is the first commit on the baseline; the remote has some commit
  of the branch; and the branch was created at most once.
  */
  lemma RecordedIsTheFirstCommit(worlds: seq<World>, steps: seq<(Process, Action)>, plan: Plan, i: nat)
    requires IsHistory(worlds, steps, plan) && i < |worlds|
    ensures var w := worlds[i];
      && (w.repo.made == [] <==> w.repo.head == plan.policy.baseline)
      && |w.commitCalls| <= Attempts(w.state.ledger, Commit) <= plan.policy.maxInvocations
      && |w.pushCalls| <= Attempts(w.state.ledger, Push) <= plan.policy.maxInvocations
      && (w.state.commitSha.Some? ==> IsFirst(w.repo, w.state.commitSha) && w.repo.made[0].parent == plan.policy.baseline)
      && (w.state.pushedSha.Some? ==> w.state.pushedSha == w.state.commitSha && w.repo.remote.Some?)
      && (w.repo.remote.Some? ==> exists made <- w.repo.made :: made.sha == w.repo.remote.value)
      && |w.branchCalls| <= 1
      && (w.branchCalls != [] ==> w.state.binding == Some(w.branchCalls[0]))
  {
    var w := worlds[i];
    HistoriesKeepInv(worlds, steps, plan, i);
    DistinctCallsAreAttempts(w.state.ledger, w.commitCalls, Commit);
    DistinctCallsAreAttempts(w.state.ledger, w.pushCalls, Push);
    hide ValidState, LedgerStory, PendingStory, BranchStory, WaitStory, Attempts, CallsOk, ActivityOk, CanStep, Step;
  }
}
