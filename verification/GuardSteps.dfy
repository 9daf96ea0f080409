/**
The guard's commit as steps of the world: the trees of the repository are the
world's trees under their names, which Git derives from their content.
*/
module GuardSteps {
  import opened Outcomes
  import opened EffectLedger
  import opened FinalizerWrites
  import opened Manifests
  import opened Commits
  import opened GitGuards
  import opened Worlds
  import opened WorldSteps

  /** Different trees have different names. */
  ghost predicate IsNaming(name: Tree -> string) {
    forall x, y :: name(x) == name(y) ==> x == y
  }

  /** The repository of the world is the guard's, under the trees' names. */
  predicate IsSameRepository(w: World, guard: Snapshot, name: Tree -> string) {
    && w.repo.head == guard.head && w.repo.index == name(guard.index) && w.repo.worktree == name(guard.worktree)
  }

  /** The approval's tree is the worktree that was reviewed, and the manifest describes it. */
  ghost predicate IsReviewed(guard: Snapshot, manifest: seq<Entry>, diffed: seq<Entry>, untracked: seq<string>, base: Tree) {
    && (forall path <- untracked :: path in guard.worktree)
    && IsFaithful(manifest, diffed, untracked, guard.worktree, base) && DescribesWorktree(diffed, untracked, guard.worktree, base)
    && Changed(base, guard.index) <= StagePaths(manifest)
  }

  /**
  When the guard commits a faithful manifest on the baseline, the world passes
  the guard, compares the worktree with the approved one, stages it and commits
  it: the new commit's tree is the reviewed worktree, and the process has the
  commit as its answer.
  */
  lemma CommitIsWorldSteps(
    w: World, p: Process, before: Snapshot, after: Snapshot, manifest: seq<Entry>, diffed: seq<Entry>, untracked: seq<string>,
    sha: string, name: Tree -> string, plan: Plan)
    returns (next: World)
    requires WorldInv(w, plan) && Doing(w, p).MayCall? && Doing(w, p).operation == EffectLedger.Commit
    requires IsNaming(name) && IsSameRepository(w, before, name)
    requires before.head == plan.policy.baseline && before.head in before.commits && plan.baseTree == name(before.commits[before.head].tree)
    requires p.approval.tree == name(before.worktree)
    requires IsReviewed(before, manifest, diffed, untracked, before.commits[before.head].tree)
    requires IsCommitted(before, after, manifest, sha) && sha !in before.commits && forall m <- w.repo.made :: m.sha != sha
    requires before.worktree != before.commits[before.head].tree
    ensures MovesTo(w, next, plan) && WorldInv(next, plan) && IsSameRepository(next, after, name)
    ensures next.repo.made == w.repo.made + [Made(sha, plan.policy.baseline, name(before.worktree))]
    ensures after.commits[sha] == GitGuards.Commit(before.head, before.worktree)
    ensures IsVerified(next.repo, p.approval.tree, plan)
    ensures Doing(next, p) == Answered(Doing(w, p).revision, EffectLedger.Commit, Doing(w, p).id, Some(sha))
  {
    hide WorldInv, MovesTo, IsFaithful, DescribesWorktree, Changed, StagePaths, IsNaming, Commits.Staged;
    var base := before.commits[before.head].tree;
    StagedIsWorktree(manifest, diffed, untracked, before.worktree, base, before.index);
    NamesDiffer(before.worktree, base, name);
    GuardSeesHead(w, plan);
    var tree := p.approval.tree;
    var doing := Doing(w, p);
    var guarded := w.(activities := w.activities[p := Guarded(doing.revision, doing.id)], commitCalls := w.commitCalls + [doing.id]);
    GuardPasses(w, p, guarded, plan);
    var compared := guarded.(activities := guarded.activities[p := Compared(doing.revision, doing.id)]);
    WorktreeIsCompared(guarded, p, compared, plan);
    var staged := compared.(repo := compared.repo.(index := tree), activities := compared.activities[p := Worlds.Staged(doing.revision, doing.id)]);
    WorktreeIsStaged(compared, p, staged, plan);
    next := staged.(repo := Committed(staged.repo, sha),
                    activities := staged.activities[p := Answered(doing.revision, EffectLedger.Commit, doing.id, Some(sha))]);
    CommitIsMade(staged, p, sha, next, plan);
    MovesOn(w, guarded, compared, plan);
    MovesOn(w, compared, staged, plan);
    MovesOn(w, staged, next, plan);
    MovesKeepTheBranch(w, next, plan);
  }

  lemma NamesDiffer(x: Tree, y: Tree, name: Tree -> string)
    requires IsNaming(name) && x != y
    ensures name(x) != name(y)
  {
  }

  lemma GuardPasses(w: World, p: Process, next: World, plan: Plan)
    requires Doing(w, p).MayCall? && Doing(w, p).operation == EffectLedger.Commit && w.repo.head == plan.policy.baseline
    requires next == w.(activities := w.activities[p := Guarded(Doing(w, p).revision, Doing(w, p).id)],
                        commitCalls := w.commitCalls + [Doing(w, p).id])
    ensures MovesTo(w, next, plan)
  {
    hide MovesTo;
    OneStep(w, p, PassGuard, next, plan);
  }

  lemma WorktreeIsCompared(w: World, p: Process, next: World, plan: Plan)
    requires Doing(w, p).Guarded? && w.repo.worktree == p.approval.tree
    requires next == w.(activities := w.activities[p := Compared(Doing(w, p).revision, Doing(w, p).id)])
    ensures MovesTo(w, next, plan)
  {
    hide MovesTo;
    OneStep(w, p, CompareWorktree, next, plan);
  }

  lemma WorktreeIsStaged(w: World, p: Process, next: World, plan: Plan)
    requires Doing(w, p).Compared?
    requires next == w.(repo := w.repo.(index := w.repo.worktree),
                        activities := w.activities[p := Worlds.Staged(Doing(w, p).revision, Doing(w, p).id)])
    ensures MovesTo(w, next, plan)
  {
    hide MovesTo;
    OneStep(w, p, StageWorktree, next, plan);
  }

  lemma CommitIsMade(w: World, p: Process, sha: string, next: World, plan: Plan)
    requires Doing(w, p).Staged? && w.repo.made == [] && w.repo.head == plan.policy.baseline && sha != plan.policy.baseline
    requires w.repo.index == p.approval.tree != plan.baseTree
    requires next == w.(repo := Committed(w.repo, sha),
                        activities := w.activities[p := Answered(Doing(w, p).revision, EffectLedger.Commit, Doing(w, p).id, Some(sha))])
    ensures MovesTo(w, next, plan)
  {
    hide MovesTo;
    OneStep(w, p, MakeCommit(sha), next, plan);
  }
}
