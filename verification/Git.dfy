/** The Git guard: the only hands that commit and push for a run, and what they refuse. */
module GitGuards {
  import opened Outcomes
  import opened Manifests
  import opened Commits

  datatype Commit = Commit(parent: string, tree: Tree)

  datatype RemoteSnapshot = RemoteSnapshot(fingerprint: string, defaultBranch: string, baseSha: string)

  /** What Git prints about the worktree and about a new commit, and whether its commands work throughout. */
  datatype Answers = Answers(raw: seq<RawEntry>, untracked: seq<string>, newSha: string, renames: set<(string, string)>, works: bool)

  datatype GuardError =
    | EmptyManifest | WrongBranch | BaselineMoved | WorktreeChanged | IndexPolluted | IndexWrong
    | NotVerified | PushNotAuthorized | GitBroke

  /** What a commit changes in the repository, and what it is made from. */
  datatype Snapshot = Snapshot(head: string, commits: map<string, Commit>, index: Tree, worktree: Tree)

  /** One commit on HEAD, of the index with the manifest's paths staged from the worktree. */
  predicate IsCommitted(before: Snapshot, after: Snapshot, manifest: seq<Entry>, sha: string) {
    && after.index == Staged(before.index, before.worktree, StagePaths(manifest)) && after.worktree == before.worktree
    && after.head == sha && after.commits == before.commits[sha := Commit(before.head, after.index)]
  }

  class GitGuard {
    // what one process remembers
    var ticketBranch: Option<string>
    var approvedCommit: Option<string>
    var preparedRemote: Option<RemoteSnapshot>
    // the repository
    var branch: string
    var head: string
    var commits: map<string, Commit>
    var index: Tree
    var worktree: Tree
    // the remote
    var remoteBase: RemoteSnapshot
    var remoteBranches: map<string, string>
    // policy
    const forbidden: set<string>

    constructor (branch: string, head: string, commits: map<string, Commit>, index: Tree, worktree: Tree, remoteBase: RemoteSnapshot, forbidden: set<string>)
      ensures ticketBranch == None && approvedCommit == None && preparedRemote == None
      ensures this.branch == branch && this.head == head && this.commits == commits && this.index == index && this.worktree == worktree
      ensures this.remoteBase == remoteBase && remoteBranches == map[] && this.forbidden == forbidden
    {
      ticketBranch, approvedCommit, preparedRemote := None, None, None;
      this.branch, this.head, this.commits, this.index, this.worktree := branch, head, commits, index, worktree;
      this.remoteBase, remoteBranches, this.forbidden := remoteBase, map[], forbidden;
    }

    function Now(): Snapshot
      reads this
    {
      Snapshot(head, commits, index, worktree)
    }

    /** Git's answers fit the worktree as Git sees it. */
    predicate AreAnswers(a: Answers)
      reads this
    {
      && InWorktree(a.raw, worktree)
      && (forall path <- a.untracked :: path in worktree)
      && (forall i, j :: 0 <= i < j < |a.untracked| ==> a.untracked[i] != a.untracked[j])
      && AreUntracked(Diffed(a.raw, worktree), a.untracked)
      && a.newSha !in commits
    }

    /** Bind the ticket branch and the remote base that finalization works with. */
    method RefreshFinalization(ticket: string, baseline: string) returns (ok: bool)
      modifies this`ticketBranch, this`preparedRemote
      ensures ok <==> remoteBase.baseSha == baseline && branch == ticket
      ensures if ok then ticketBranch == Some(ticket) && preparedRemote == Some(remoteBase)
              else ticketBranch == old(ticketBranch) && preparedRemote == old(preparedRemote)
    {
      if remoteBase.baseSha != baseline || branch != ticket {
        return false;
      }
      ticketBranch, preparedRemote := Some(ticket), Some(remoteBase);
      ok := true;
    }

    /** The commit is one accepted for the manifest, on the baseline. */
    ghost predicate IsVerifiedCommit(sha: string, manifest: seq<Entry>, baseline: string, renames: set<(string, string)>)
      reads this
    {
      && sha in commits && baseline in commits
      && commits[sha].parent == baseline
      && IsAccepted(manifest, commits[baseline].tree, commits[sha].tree, renames)
    }

    /** The worktree still is what was approved. */
    ghost predicate IsCollected(manifest: seq<Entry>, authorized: set<string>, a: Answers)
      requires AreAnswers(a)
      reads this
    {
      && AllAllowed(a.raw, a.untracked, forbidden) && AllAuthorized(a.raw, a.untracked, worktree, authorized)
      && manifest == Collected(a.raw, a.untracked, worktree) && UniquePaths(manifest)
    }

    /** The guard has nothing against this commit: place, worktree and index are right, and the staged tree is accepted. */
    ghost predicate MayCommit(manifest: seq<Entry>, baseline: string, authorized: set<string>, a: Answers)
      requires AreAnswers(a)
      reads this
    {
      var paths := StagePaths(manifest);
      && manifest != [] && ticketBranch == Some(branch) && head == baseline && baseline in commits
      && IsCollected(manifest, authorized, a)
      && Changed(commits[baseline].tree, index) <= paths
      && IsAccepted(manifest, commits[baseline].tree, Staged(index, worktree, paths), a.renames)
    }

    /**
    Commit the approved manifest on the approved baseline. Success means that
    HEAD is now one verified commit on the baseline; when HEAD is not the
    baseline nothing is committed; and only a verified commit is approved.
    */
    method CommitManifest(manifest: seq<Entry>, baseline: string, authorized: set<string>, a: Answers) returns (r: Result<string, GuardError>)
      requires AreAnswers(a)
      modifies this`head, this`commits, this`index, this`approvedCommit
      ensures r.Ok? ==>
        && r.value == head == a.newSha && old(head) == baseline
        && approvedCommit == Some(head)
        && IsVerifiedCommit(head, manifest, baseline, a.renames)
        && ticketBranch == Some(branch)
      ensures r.Err? ==> approvedCommit == old(approvedCommit)
      ensures a.works ==> (r.Ok? <==> old(MayCommit(manifest, baseline, authorized, a)))
      ensures r == Err(WorktreeChanged) ==> !old(IsCollected(manifest, authorized, a))
      ensures old(head) != baseline ==> r.Err? && head == old(head) && commits == old(commits)
      ensures forall sha <- old(commits) :: sha in commits && commits[sha] == old(commits)[sha]
      ensures || (head == old(head) && commits == old(commits))
              || (head == a.newSha && commits.Keys == old(commits).Keys + {head} && commits[head].parent == old(head) == baseline)
      ensures head != old(head) ==> IsCommitted(old(Now()), Now(), manifest, a.newSha)
      ensures head != old(head) && r.Err? ==> r.error in {NotVerified, GitBroke}
    {
      hide IsFaithful, NothingDropped, AllAllowed, AllAuthorized, Collected, IsAccepted, UniquePaths, Changed, Staged, StagePaths;
      if manifest == [] {
        return Err(EmptyManifest);
      }
      if ticketBranch != Some(branch) {
        return Err(WrongBranch);
      }
      if head != baseline || baseline !in commits {
        return Err(BaselineMoved);
      }
      var current := CollectManifestInputs(a.raw, a.untracked, worktree, authorized, forbidden);
      if current != Ok(manifest) {
        return Err(WorktreeChanged);
      }
      var base := commits[baseline].tree;
      var expected := StagePaths(manifest);
      if !(Changed(base, index) <= expected) {
        return Err(IndexPolluted);
      }
      index := Staged(index, worktree, expected);
      AcceptedTouches(manifest, base, index, a.renames);
      if Changed(base, index) != expected {
        return Err(IndexWrong);
      }
      var breaks := *;
      if breaks && !a.works {
        return Err(GitBroke);
      }
      commits := commits[a.newSha := Commit(head, index)];
      head := a.newSha;
      var breaksLate := *;
      if breaksLate && !a.works {
        return Err(GitBroke);
      }
      var verified := VerifyCommit(manifest, commits[head].parent == baseline, base, commits[head].tree, index, a.renames);
      if !verified {
        return Err(NotVerified);
      }
      approvedCommit := Some(head);
      r := Ok(head);
    }

    /** Find the approved commit at HEAD again, after its result was lost. Nothing in the repository changes. */
    method ReconcileProductCommit(manifest: seq<Entry>, baseline: string, recorded: Option<string>, renames: set<(string, string)>)
      returns (found: Option<string>)
      modifies this`approvedCommit
      ensures found.Some? ==> found == Some(head) == approvedCommit && IsVerifiedCommit(head, manifest, baseline, renames)
      ensures found == None ==> approvedCommit == old(approvedCommit)
      ensures (recorded == None || recorded == Some(head)) && Clean() && IsVerifiedCommit(head, manifest, baseline, renames) ==> found == Some(head)
    {
      hide IsAccepted;
      if recorded.Some? && recorded.value != head {
        return None;
      }
      if head !in commits || baseline !in commits {
        return None;
      }
      var verified := VerifyCommit(manifest, commits[head].parent == baseline, commits[baseline].tree, commits[head].tree, index, renames);
      if !verified {
        return None;
      }
      approvedCommit := Some(head);
      found := Some(head);
    }

    /** Nothing is staged over HEAD. */
    predicate Clean()
      reads this
    {
      head in commits && Changed(commits[head].tree, index) == {}
    }

    /** This process has verified the commit at HEAD, on its ticket branch, and the remote base has not moved. */
    predicate MayPush()
      reads this
    {
      ticketBranch == Some(branch) && approvedCommit == Some(head) && preparedRemote == Some(remoteBase)
    }

    /**
    Push the approved commit. The remote ticket branch is only ever moved to
    the commit this process has verified, and only while HEAD is that commit.
    */
    method Push(works: bool) returns (r: Result<string, GuardError>)
      modifies this`remoteBranches
      ensures r.Ok? ==>
        && approvedCommit == Some(r.value) == Some(head) && ticketBranch == Some(branch)
        && branch in remoteBranches && remoteBranches[branch] == head
        && preparedRemote == Some(remoteBase)
      ensures remoteBranches != old(remoteBranches) ==>
        && approvedCommit == Some(head) && ticketBranch == Some(branch) && preparedRemote == Some(remoteBase)
        && remoteBranches == old(remoteBranches)[branch := head]
      ensures works ==> (r.Ok? <==> MayPush())
    {
      if ticketBranch == None || approvedCommit == None || preparedRemote == None {
        return Err(PushNotAuthorized);
      }
      if ticketBranch != Some(branch) || approvedCommit != Some(head) || preparedRemote != Some(remoteBase) {
        return Err(PushNotAuthorized);
      }
      var breaks := *;
      if breaks && !works {
        return Err(GitBroke);
      }
      remoteBranches := remoteBranches[branch := head];
      var breaksLate := *;
      r := if breaksLate && !works then Err(GitBroke) else Ok(head);
    }

    method PushProductCommit(sha: string, works: bool) returns (r: Result<string, GuardError>)
      modifies this`remoteBranches
      ensures r.Ok? ==> r.value == sha == head && approvedCommit == Some(sha) && branch in remoteBranches && remoteBranches[branch] == sha
      ensures works ==> (r.Ok? <==> MayPush() && sha == head)
      ensures approvedCommit != Some(sha) ==> r == Err(PushNotAuthorized) && remoteBranches == old(remoteBranches)
    {
      if approvedCommit != Some(sha) {
        return Err(PushNotAuthorized);
      }
      r := Push(works);
    }
  }
}
