/**
Several processes at one branch: exactly when it can gain another commit, what
a run that was approved again can still record, and what the remote holds.
*/
module Rivals {
  import opened Outcomes
  import opened EffectLedger
  import opened RunStates
  import opened FinalizerWrites
  import opened Protocol
  import opened ProtocolInvariant
  import opened ProtocolRuns
  import opened Worlds
  import opened WorldSteps

  // ----- another commit -----

  /** A name that no commit has. */
  function FreshSha(made: seq<Made>, baseline: string): string {
    if made == [] then baseline + "0" else FreshSha(made[..|made| - 1], baseline) + made[|made| - 1].sha
  }

  lemma {:induction false} FreshShaIsNew(made: seq<Made>, baseline: string)
    ensures |FreshSha(made, baseline)| > |baseline|
    ensures forall m <- made :: |m.sha| < |FreshSha(made, baseline)|
  {
    if made != [] {
      FreshShaIsNew(made[..|made| - 1], baseline);
      assert forall m <- made :: m in made[..|made| - 1] || m == made[|made| - 1];
    }
  }

  /** The other processes do what they did. */
  ghost predicate OthersRest(before: World, after: World, p: Process) {
    forall q :: q != p ==> Doing(after, q) == Doing(before, q)
  }

  /** What is staged and not yet committed can be committed by whoever has staged. */
  lemma StagedCommits(w: World, p: Process, plan: Plan) returns (after: World)
    requires Doing(w, p).Staged? && w.repo.index != TreeOf(w.repo, plan)
    ensures MovesTo(w, after, plan) && OthersRest(w, after, p) && after.state == w.state
    ensures after.repo == Committed(w.repo, after.repo.head) && Doing(after, p).Answered?
  {
    hide Enabled, After, MovesTo;
    var sha := FreshSha(w.repo.made, plan.policy.baseline);
    FreshShaIsNew(w.repo.made, plan.policy.baseline);
    after := Step(w, p, MakeCommit(sha), plan);
    OneStep(w, p, MakeCommit(sha), after, plan);
  }

  /**
  A process that has not staged yet can commit any tree but the one that is
  committed: the worktree is as approved when it is compared, and is edited
  before it is staged.
  */
  lemma UnstagedCommits(w: World, p: Process, tree: string, plan: Plan) returns (after: World)
    requires Doing(w, p).Guarded? || Doing(w, p).Compared?
    requires tree != TreeOf(w.repo, plan)
    ensures MovesTo(w, after, plan) && OthersRest(w, after, p) && after.state == w.state
    ensures after.repo.made == w.repo.made + [Made(after.repo.head, w.repo.head, tree)] && after.repo.index == tree
    ensures after.repo.remote == w.repo.remote && Doing(after, p).Answered?
  {
    hide Enabled, After, MovesTo, CanStep, Step;
    var compared := Compares(w, p, plan);
    var edited := compared.(repo := compared.repo.(worktree := tree));
    EditSteps(compared, p, tree, edited, plan);
    var staged := edited.(repo := edited.repo.(index := tree),
                          activities := edited.activities[p := Staged(Doing(edited, p).revision, Doing(edited, p).id)]);
    StageSteps(edited, p, staged, plan);
    after := StagedCommits(staged, p, plan);
    MovesOn(w, compared, edited, plan);
    MovesOn(w, edited, staged, plan);
    MovesOn(w, staged, after, plan);
  }

  /** The comparison succeeds as soon as the worktree is put back to what was approved. */
  lemma Compares(w: World, p: Process, plan: Plan) returns (after: World)
    requires Doing(w, p).Guarded? || Doing(w, p).Compared?
    ensures MovesTo(w, after, plan) && OthersRest(w, after, p) && after.state == w.state
    ensures after.repo == w.repo.(worktree := after.repo.worktree) && Doing(after, p).Compared?
  {
    hide Enabled, After, MovesTo, CanStep, Step;
    if Doing(w, p).Compared? {
      NothingHappens(w, p, plan);
      after := w;
    } else {
      var edited := w.(repo := w.repo.(worktree := p.approval.tree));
      EditSteps(w, p, p.approval.tree, edited, plan);
      after := edited.(activities := edited.activities[p := Compared(Doing(w, p).revision, Doing(w, p).id)]);
      CompareSteps(edited, p, after, plan);
      MovesOn(w, edited, after, plan);
    }
  }

  lemma EditSteps(w: World, p: Process, tree: string, next: World, plan: Plan)
    requires next == w.(repo := w.repo.(worktree := tree))
    ensures MovesTo(w, next, plan)
  {
    hide Enabled, After, MovesTo;
    OneStep(w, p, EditWorktree(tree), next, plan);
  }

  lemma CompareSteps(w: World, p: Process, next: World, plan: Plan)
    requires Doing(w, p).Guarded? && w.repo.worktree == p.approval.tree
    requires next == w.(activities := w.activities[p := Compared(Doing(w, p).revision, Doing(w, p).id)])
    ensures MovesTo(w, next, plan)
  {
    hide Enabled, After, MovesTo;
    OneStep(w, p, CompareWorktree, next, plan);
  }

  lemma StageSteps(w: World, p: Process, next: World, plan: Plan)
    requires Doing(w, p).Compared?
    requires next == w.(repo := w.repo.(index := w.repo.worktree), activities := w.activities[p := Staged(Doing(w, p).revision, Doing(w, p).id)])
    ensures MovesTo(w, next, plan)
  {
    hide Enabled, After, MovesTo;
    OneStep(w, p, StageWorktree, next, plan);
  }

  ghost predicate CanGainCommit(w: World, plan: Plan) {
    exists after :: MovesTo(w, after, plan) && |after.repo.made| > |w.repo.made|
  }

  lemma GainsCommit(w: World, after: World, plan: Plan)
    requires MovesTo(w, after, plan) && |after.repo.made| > |w.repo.made|
    ensures CanGainCommit(w, plan)
  {
    hide MovesTo;
  }

  /**
  Once there is a commit, another one can follow if and only if the branch is
  open: some process saw HEAD at the baseline before that commit and has not
  staged yet; or something else than what is committed is staged, and some
  process has staged.
  */
  lemma AnotherCommitIff(w: World, plan: Plan)
    requires WorldInv(w, plan) && w.repo.made != []
    ensures CanGainCommit(w, plan) <==> !IsClosed(w, plan)
  {
    hide WorldInv, MovesTo;
    if IsClosed(w, plan) {
      hide IsClosed;
      forall after | MovesTo(w, after, plan) ensures |after.repo.made| == |w.repo.made| {
        MovesKeepTheBranch(w, after, plan);
      }
    } else {
      var p, after := OpenBranchGains(w, plan);
      GainsCommit(w, after, plan);
    }
  }

  lemma OpenBranchGains(w: World, plan: Plan) returns (p: Process, after: World)
    requires w.repo.made != [] && !IsClosed(w, plan)
    ensures MovesTo(w, after, plan) && OthersRest(w, after, p) && after.state == w.state && IsPastGuard(Doing(w, p))
    ensures |after.repo.made| == |w.repo.made| + 1 && w.repo.made <= after.repo.made && after.repo.remote == w.repo.remote
  {
    hide MovesTo;
    if q :| q in w.activities && (w.activities[q].Guarded? || w.activities[q].Compared?) {
      p := q;
      after := UnstagedCommits(w, p, TreeOf(w.repo, plan) + "0", plan);
    } else {
      p :| p in w.activities && w.activities[p].Staged?;
      after := StagedCommits(w, p, plan);
    }
  }

  /**
  The interleaving that makes two commits, whatever approvals the two processes
  hold: one has staged when another has seen HEAD at the baseline as well. The
  first commits; the second compares the worktree it was approved for, stages
  what the worktree has become, and commits it on top.
  */
  lemma TwoCommits(w: World, first: Process, second: Process, tree: string, plan: Plan) returns (after: World)
    requires WorldInv(w, plan) && w.repo.made == [] && first != second
    requires Doing(w, first).Staged? && w.repo.index != plan.baseTree
    requires Doing(w, second).Guarded? || Doing(w, second).Compared?
    requires tree != w.repo.index
    ensures MovesTo(w, after, plan) && |after.repo.made| == 2
    ensures after.repo.made[0].tree == w.repo.index && after.repo.made[0].parent == plan.policy.baseline
    ensures after.repo.made[1].tree == tree && after.repo.made[1].parent == after.repo.made[0].sha
  {
    hide WorldInv, MovesTo;
    var committed := StagedCommits(w, first, plan);
    MovesKeepTheBranch(w, committed, plan);
    FirstIsOnBaseline(committed, plan);
    after := UnstagedCommits(committed, second, tree, plan);
    MovesOn(w, committed, after, plan);
  }

  /**
  A single process is enough for a commit of something else than what was
  approved. Nobody with that approval ever records a commit afterwards.
  */
  lemma EditedTreeIsCommitted(w: World, p: Process, tree: string, plan: Plan) returns (after: World)
    requires WorldInv(w, plan) && w.repo.made == [] && tree !in {plan.baseTree, p.approval.tree}
    requires Doing(w, p).Guarded? || Doing(w, p).Compared?
    ensures MovesTo(w, after, plan)
    ensures after.repo.made == [Made(after.repo.head, plan.policy.baseline, tree)]
    ensures forall q: Process :: q.approval.tree == p.approval.tree ==> !CanRecord(after, q, plan)
  {
    hide WorldInv, MovesTo, CanRecord;
    after := UnstagedCommits(w, p, tree, plan);
    MovesKeepTheBranch(w, after, plan);
    GuardSeesHead(w, plan);
    forall q: Process | q.approval.tree == p.approval.tree ensures !CanRecord(after, q, plan) {
      OtherApprovalsRecordNothing(after, q, plan);
    }
  }

  lemma FirstIsOnBaseline(w: World, plan: Plan)
    requires WorldInv(w, plan) && w.repo.made != []
    ensures w.repo.made[0].parent == plan.policy.baseline
  {
    hide Inv, ActivityOk, CallsOk;
  }

  // ----- no more than one commit -----

  /** Nobody else has passed the guard without having staged. */
  predicate IsAlone(w: World, p: Process) {
    forall q <- w.activities :: q != p ==> !w.activities[q].Guarded? && !w.activities[q].Compared?
  }

  /** The first commit is made by a process that is alone between the guard and its staging. */
  predicate CommitsAlone(w: World, p: Process, a: Action) {
    a.MakeCommit? && w.repo.made == [] ==> IsAlone(w, p)
  }

  /** At most one process at a time is between the guard and its commit. */
  predicate NoRivals(w: World) {
    forall p, q :: p in w.activities && q in w.activities && IsPastGuard(w.activities[p]) && IsPastGuard(w.activities[q]) ==> p == q
  }

  lemma WithoutRivalsAlone(w: World, p: Process, a: Action, plan: Plan)
    requires NoRivals(w) && CanStep(w, p, a, plan)
    ensures CommitsAlone(w, p, a)
  {
    hide Enabled, After, IsOpen;
    if a.MakeCommit? {
      assert p in w.activities;
    }
  }

  /** The first commit closes the branch, so that none can follow it, exactly when its process is alone. */
  lemma FirstCommitClosesIff(w: World, p: Process, sha: string, plan: Plan)
    requires WorldInv(w, plan) && CanStep(w, p, MakeCommit(sha), plan) && w.repo.made == []
    ensures var next := Step(w, p, MakeCommit(sha), plan);
      && |next.repo.made| == 1
      && (IsClosed(next, plan) <==> IsAlone(w, p))
      && (CanGainCommit(next, plan) <==> !IsAlone(w, p))
  {
    hide WorldInv, CanStep, Step, CanGainCommit, IsClosed, IsAlone;
    var next := Step(w, p, MakeCommit(sha), plan);
    StepKeeps(w, p, MakeCommit(sha), plan);
    CommitOpensOrCloses(w, p, sha, next, plan);
    AnotherCommitIff(next, plan);
  }

  lemma CommitOpensOrCloses(w: World, p: Process, sha: string, next: World, plan: Plan)
    requires CanStep(w, p, MakeCommit(sha), plan) && w.repo.made == [] && next == Step(w, p, MakeCommit(sha), plan)
    ensures |next.repo.made| == 1 && (IsClosed(next, plan) <==> IsAlone(w, p))
  {
    hide Enabled, After, IsOpen;
    forall q | q != p && q in w.activities ensures q in next.activities && next.activities[q] == w.activities[q] {
    }
  }

  /** Either nothing is committed, or one commit is and none can follow. */
  ghost predicate IsOrderly(w: World, plan: Plan) {
    w.repo.made == [] || (|w.repo.made| == 1 && IsClosed(w, plan))
  }

  lemma StepStaysOrderly(w: World, p: Process, a: Action, plan: Plan)
    requires WorldInv(w, plan) && CanStep(w, p, a, plan) && IsOrderly(w, plan) && CommitsAlone(w, p, a)
    requires a.Save? ==> Enabled(w.state, StoredAnswer(w, p, a.outcome), TermsOf(plan, p))
    ensures IsOrderly(Step(w, p, a, plan), plan)
  {
    hide WorldInv, CanStep, Step, Enabled, IsClosed, IsAlone;
    if w.repo.made != [] {
      ClosedStaysClosed(w, p, a, plan);
    } else if a.MakeCommit? {
      CommitOpensOrCloses(w, p, a.sha, Step(w, p, a, plan), plan);
    } else {
      OnlyCommitsCommit(w, p, a, plan);
    }
  }

  lemma OnlyCommitsCommit(w: World, p: Process, a: Action, plan: Plan)
    requires CanStep(w, p, a, plan) && !a.MakeCommit?
    requires a.Save? ==> Enabled(w.state, StoredAnswer(w, p, a.outcome), TermsOf(plan, p))
    ensures Step(w, p, a, plan).repo.made == w.repo.made
  {
    hide Enabled, After, IsOpen;
  }

  /**
  The guard's comparison of HEAD with the baseline keeps the branch at one
  commit, whatever is approved when and wherever processes die, as long as the
  first commit is made by a process that is alone between guard and staging.
  */
  lemma {:induction false} CommitHappensAtMostOnce(worlds: seq<World>, steps: seq<(Process, Action)>, plan: Plan, i: nat)
    requires IsHistory(worlds, steps, plan) && i < |worlds|
    requires forall j :: 0 <= j < i ==> CommitsAlone(worlds[j], steps[j].0, steps[j].1)
    ensures |worlds[i].repo.made| <= 1 && IsOrderly(worlds[i], plan)
  {
    hide WorldInv, CanStep, Step, Enabled, CommitsAlone, IsClosed;
    if i > 0 {
      CommitHappensAtMostOnce(worlds, steps, plan, i - 1);
      HistoriesKeepInv(worlds, steps, plan, i - 1);
      assert Happens(worlds, steps, i - 1, plan);
      StepStaysOrderly(worlds[i - 1], steps[i - 1].0, steps[i - 1].1, plan);
    }
  }

  // ----- what the remote holds -----

  /** A recorded push is what the remote holds, in any history whose first commit is made alone. */
  lemma RemoteHoldsRecorded(worlds: seq<World>, steps: seq<(Process, Action)>, plan: Plan, i: nat)
    requires IsHistory(worlds, steps, plan) && i < |worlds|
    requires forall j :: 0 <= j < i ==> CommitsAlone(worlds[j], steps[j].0, steps[j].1)
    ensures worlds[i].repo.remote.Some? ==> IsFirst(worlds[i].repo, worlds[i].repo.remote)
    ensures worlds[i].state.pushedSha.Some? ==> worlds[i].repo.remote == worlds[i].state.pushedSha
  {
    hide WorldInv, CommitsAlone, IsHistory, IsOrderly;
    HistoriesKeepInv(worlds, steps, plan, i);
    CommitHappensAtMostOnce(worlds, steps, plan, i);
    RemoteIsRecorded(worlds[i], plan);
  }

  lemma RemoteIsRecorded(w: World, plan: Plan)
    requires WorldInv(w, plan) && |w.repo.made| <= 1
    ensures w.repo.remote.Some? ==> IsFirst(w.repo, w.repo.remote)
    ensures w.state.pushedSha.Some? ==> w.repo.remote == w.state.pushedSha
  {
    hide Inv, ActivityOk, CallsOk, RepositoryOk;
    RemoteIsFirst(w.repo, plan);
  }

  /** The remote comes to hold another commit than the first one. */
  ghost predicate RemoteCanLeave(w: World, plan: Plan) {
    exists after :: MovesTo(w, after, plan) && after.repo.remote.Some? && !IsFirst(after.repo, after.repo.remote)
  }

  lemma RemoteLeaves(w: World, after: World, plan: Plan)
    requires MovesTo(w, after, plan) && after.repo.remote.Some? && !IsFirst(after.repo, after.repo.remote)
    ensures RemoteCanLeave(w, plan)
  {
    hide MovesTo;
  }

  /**
  A process has compared HEAD with the recorded commit and is about to push
  what the branch holds. The remote can come to hold something else if and only
  if the branch has gained another commit already, or still can.
  */
  lemma RemoteCanLeaveIff(w: World, p: Process, plan: Plan)
    requires WorldInv(w, plan) && Doing(w, p).Pushing?
    ensures RemoteCanLeave(w, plan) <==> |w.repo.made| > 1 || !IsClosed(w, plan)
  {
    hide WorldInv, MovesTo, IsClosed, RemoteCanLeave, CanStep, Step, IsFirst;
    PusherSawFirst(w, p, plan);
    if |w.repo.made| > 1 {
      var after := SendsHead(w, p, plan);
      RemoteLeaves(w, after, plan);
    } else if IsClosed(w, plan) {
      RemoteStays(w, plan);
    } else {
      var after := PushesAnother(w, p, plan);
      RemoteLeaves(w, after, plan);
    }
  }

  lemma RemoteStays(w: World, plan: Plan)
    requires WorldInv(w, plan) && |w.repo.made| == 1 && IsClosed(w, plan)
    ensures !RemoteCanLeave(w, plan)
  {
    hide WorldInv, MovesTo, IsClosed, IsFirst;
    forall after | MovesTo(w, after, plan) && after.repo.remote.Some? ensures IsFirst(after.repo, after.repo.remote) {
      MovesKeepTheBranch(w, after, plan);
      RepositoryOfWorld(after, plan);
      RemoteIsFirst(after.repo, plan);
    }
  }

  lemma PusherSawFirst(w: World, p: Process, plan: Plan)
    requires WorldInv(w, plan) && Doing(w, p).Pushing?
    ensures w.repo.made != []
  {
    hide Inv, CallsOk, IsOpen, RepositoryOk;
    assert ActivityOk(w, p, w.activities[p], plan);
  }

  /** What is pushed is HEAD, which with two commits is not the first. */
  lemma SendsHead(w: World, p: Process, plan: Plan) returns (after: World)
    requires WorldInv(w, plan) && Doing(w, p).Pushing? && |w.repo.made| > 1
    ensures MovesTo(w, after, plan) && after.state == w.state && after.repo == w.repo.(remote := Some(w.repo.head))
    ensures !IsFirst(after.repo, after.repo.remote)
  {
    hide Enabled, After, MovesTo, Inv, ActivityOk, CallsOk;
    HeadIsMade(w.repo, plan);
    after := Step(w, p, SendPush(true, false), plan);
    OneStep(w, p, SendPush(true, false), after, plan);
  }

  /**
  The interleaving in which the remote leaves what was recorded as pushed: a
  push has passed its comparison when the branch, still open, gains another
  commit. What the run has recorded stays as it is.
  */
  lemma PushesAnother(w: World, p: Process, plan: Plan) returns (after: World)
    requires WorldInv(w, plan) && Doing(w, p).Pushing? && w.repo.made != [] && !IsClosed(w, plan)
    ensures MovesTo(w, after, plan) && after.state == w.state
    ensures |after.repo.made| > 1 && after.repo.remote == Some(after.repo.head) && !IsFirst(after.repo, after.repo.remote)
    ensures after.state.pushedSha.Some? ==> IsFirst(after.repo, after.state.pushedSha) && after.repo.remote != after.state.pushedSha
  {
    hide WorldInv, MovesTo, IsClosed;
    var rival, committed := OpenBranchGains(w, plan);
    MovesKeepTheBranch(w, committed, plan);
    assert Doing(committed, p) == Doing(w, p);
    after := SendsHead(committed, p, plan);
    MovesOn(w, committed, after, plan);
    MovesKeepTheBranch(w, after, plan);
    RecordedIsFirst(after, plan);
  }

  lemma RecordedIsFirst(w: World, plan: Plan)
    requires WorldInv(w, plan)
    ensures w.state.pushedSha.Some? ==> IsFirst(w.repo, w.state.pushedSha)
  {
    hide Inv, ActivityOk, CallsOk, RepositoryOk, IsFirst;
  }

  // ----- a run that was approved again -----

  /** The process has an answer that it may now record as its commit. */
  ghost predicate RecordsCommit(w: World, p: Process, plan: Plan) {
    && Doing(w, p).Answered? && Doing(w, p).operation == Commit
    && CanStep(w, p, Save(Success), plan)
  }

  ghost predicate CanRecord(w: World, p: Process, plan: Plan) {
    exists after :: MovesTo(w, after, plan) && RecordsCommit(after, p, plan)
  }

  lemma OnlyItsOwnTree(w: World, p: Process, plan: Plan)
    requires WorldInv(w, plan) && RecordsCommit(w, p, plan)
    ensures w.repo.made != [] && w.repo.made[0].tree == p.approval.tree && IsFirst(w.repo, Doing(w, p).result)
  {
    hide Inv, CallsOk, IsOpen;
    assert ActivityOk(w, p, w.activities[p], plan);
  }

  /**
  With a commit on the branch, no process whose approved tree differs from that
  commit's ever records a commit: a run approved again under another review
  comes to its end in Human Review.
  */
  lemma OtherApprovalsRecordNothing(w: World, p: Process, plan: Plan)
    requires WorldInv(w, plan) && w.repo.made != [] && p.approval.tree != w.repo.made[0].tree
    ensures !CanRecord(w, p, plan)
  {
    hide WorldInv, MovesTo, RecordsCommit;
    forall after | MovesTo(w, after, plan) ensures !RecordsCommit(after, p, plan) {
      MovesKeepTheBranch(w, after, plan);
      if RecordsCommit(after, p, plan) {
        OnlyItsOwnTree(after, p, plan);
      }
    }
  }

  /**
  A process that may look for its latest unrecorded attempt, with one commit on
  the branch and nothing else staged, can record that commit if and only if the
  tree it holds an approval for is that commit's.
  */
  lemma ReapprovedRecordsIff(w: World, p: Process, id: EffectId, plan: Plan)
    requires WorldInv(w, plan) && Doing(w, p) == Idle && IsOpen(w.state, Commit, id, TermsOf(plan, p))
    requires |w.repo.made| == 1 && w.repo.index == w.repo.made[0].tree
    ensures CanRecord(w, p, plan) <==> p.approval.tree == w.repo.made[0].tree
  {
    hide WorldInv, MovesTo, IsOpen, RecordsCommit, CanRecord;
    if p.approval.tree != w.repo.made[0].tree {
      OtherApprovalsRecordNothing(w, p, plan);
    } else {
      var looking := w.(activities := w.activities[p := MayLook(w.revision, Commit, id, w.state.commitSha)]);
      LookBegins(w, p, id, looking, plan);
      var seen := looking.(activities := looking.activities[p := Looking(w.revision, id, w.repo.head)]);
      LookSeesHead(looking, p, seen, plan);
      MovesOn(w, looking, seen, plan);
      var after := seen.(activities := seen.activities[p := Answered(w.revision, Commit, id, Some(w.repo.head))]);
      LookEnds(seen, p, after, plan);
      MovesOn(w, seen, after, plan);
      AnswerIsRecorded(w, p, id, after, plan);
    }
  }

  lemma LookBegins(w: World, p: Process, id: EffectId, next: World, plan: Plan)
    requires WorldInv(w, plan) && Doing(w, p) == Idle && IsOpen(w.state, Commit, id, TermsOf(plan, p))
    requires |w.repo.made| == 1
    requires next == w.(activities := w.activities[p := MayLook(w.revision, Commit, id, w.state.commitSha)])
    ensures MovesTo(w, next, plan)
    ensures w.repo.made[0] == Made(w.repo.head, plan.policy.baseline, w.repo.made[0].tree)
  {
    hide Inv, ActivityOk, CallsOk, IsOpen, Enabled, After, MovesTo;
    OneStep(w, p, StartLook(Commit, id), next, plan);
  }

  lemma LookSeesHead(w: World, p: Process, next: World, plan: Plan)
    requires Doing(w, p).MayLook? && Doing(w, p).operation == Commit
    requires next == w.(activities := w.activities[p := Looking(Doing(w, p).revision, Doing(w, p).id, w.repo.head)])
    ensures MovesTo(w, next, plan)
  {
    hide Enabled, After, MovesTo;
    OneStep(w, p, SeeHead, next, plan);
  }

  lemma LookEnds(w: World, p: Process, next: World, plan: Plan)
    requires Doing(w, p).Looking? && Doing(w, p).candidate == w.repo.head && IsVerified(w.repo, p.approval.tree, plan)
    requires next == w.(activities := w.activities[p := Answered(Doing(w, p).revision, Commit, Doing(w, p).id, Some(w.repo.head))])
    ensures MovesTo(w, next, plan)
  {
    hide Enabled, After, MovesTo;
    OneStep(w, p, Look, next, plan);
  }

  lemma AnswerIsRecorded(w: World, p: Process, id: EffectId, after: World, plan: Plan)
    requires MovesTo(w, after, plan)
    requires Doing(after, p) == Answered(after.revision, Commit, id, Some(after.repo.head))
    ensures CanRecord(w, p, plan)
  {
    hide Enabled, After, MovesTo;
    assert RecordsCommit(after, p, plan);
  }
}
