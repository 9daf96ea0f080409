/** From an approved manifest to a verified commit: what is staged, what is accepted, and what that means. */
module Commits {
  import opened Outcomes
  import opened Manifests

  /** The paths an approved manifest touches. */
  function StagePaths(manifest: seq<Entry>): set<string> {
    if manifest == [] then {}
    else
      var last := manifest[|manifest| - 1];
      StagePaths(manifest[..|manifest| - 1]) + {last.path} +
      if last.status.Renamed? && last.oldPath.Some? then {last.oldPath.value} else {}
  }

  function Renames(manifest: seq<Entry>): set<(string, string)> {
    set e <- manifest | e.status.Renamed? && e.oldPath.Some? :: (e.oldPath.value, e.path)
  }

  /** The paths at which two trees differ. */
  function Changed(base: Tree, tree: Tree): set<string> {
    set path | path in base.Keys + tree.Keys && Lookup(base, path) != Lookup(tree, path)
  }

  /** What Git can report as a rename: the source is gone, the destination is new. */
  predicate AreRenames(base: Tree, tree: Tree, renames: set<(string, string)>) {
    forall pair <- renames :: pair.0 in base && pair.0 !in tree && pair.1 in tree && pair.1 !in base
  }

  predicate Matches(e: Entry, tree: Tree) {
    if e.status == Deleted then e.path !in tree
    else e.object_.Some? && Lookup(tree, e.path) == Some(Blob(e.newMode, e.object_.value))
  }

  /** The verification of a commit, without the order of its checks. */
  predicate IsAccepted(manifest: seq<Entry>, base: Tree, tree: Tree, renames: set<(string, string)>) {
    && Changed(base, tree) == StagePaths(manifest)
    && (forall e <- manifest :: Matches(e, tree))
    && renames == Renames(manifest)
  }

  lemma {:induction false} StagePathsAre(manifest: seq<Entry>, path: string)
    ensures path in StagePaths(manifest) <==>
      exists e <- manifest :: e.path == path || (e.status.Renamed? && e.oldPath == Some(path))
  {
    if manifest != [] {
      var before, last := manifest[..|manifest| - 1], manifest[|manifest| - 1];
      StagePathsAre(before, path);
      assert forall e <- manifest :: e == last || e in before;
      assert forall e <- before :: e in manifest;
    }
  }

  lemma AcceptedAt(manifest: seq<Entry>, base: Tree, tree: Tree, renames: set<(string, string)>, path: string)
    requires IsAccepted(manifest, base, tree, renames) && AreRenames(base, tree, renames) && UniquePaths(manifest)
    ensures Lookup(tree, path) == After(manifest, base, path)
  {
    StagePathsAre(manifest, path);
    WrittenBy(manifest, path);
    assert UniqueWrites(manifest);
    if Written(manifest, path).Some? {
      var e :| e in manifest && IsWrite(e) && e.path == path;
      assert Matches(e, tree);
    } else if IsRemoved(manifest, path) {
      var e :| e in manifest && Removes(e, path);
      if e.status == Deleted {
        assert Matches(e, tree);
      } else {
        assert (path, e.path) in renames;
      }
    } else {
      assert path !in StagePaths(manifest) by {
        forall e | e in manifest ensures e.path != path {
          assert Matches(e, tree);
        }
      }
      assert path !in Changed(base, tree);
    }
  }

  /** An accepted commit's tree is the baseline with exactly the manifest applied. */
  lemma AcceptedIsApplied(manifest: seq<Entry>, base: Tree, tree: Tree, renames: set<(string, string)>)
    requires IsAccepted(manifest, base, tree, renames) && AreRenames(base, tree, renames) && UniquePaths(manifest)
    ensures IsApplied(tree, manifest, base)
  {
    forall path ensures Lookup(tree, path) == After(manifest, base, path) {
      AcceptedAt(manifest, base, tree, renames, path);
    }
  }

  /** A manifest that renames a file away and writes its old path again is never accepted, whatever is committed. */
  lemma RewrittenSourceIsRefused(manifest: seq<Entry>, base: Tree, tree: Tree, renames: set<(string, string)>, i: nat, j: nat)
    requires i < |manifest| && j < |manifest| && AreRenames(base, tree, renames)
    requires manifest[i].status.Renamed? && manifest[i].oldPath == Some(manifest[j].path) && manifest[j].status != Deleted
    ensures !IsAccepted(manifest, base, tree, renames)
  {
    if (manifest[j].path, manifest[i].path) in renames {
      assert !Matches(manifest[j], tree) && manifest[j] in manifest;
    } else {
      assert manifest[i] in manifest && (manifest[j].path, manifest[i].path) in Renames(manifest);
    }
  }

  lemma AcceptedTouches(manifest: seq<Entry>, base: Tree, tree: Tree, renames: set<(string, string)>)
    ensures IsAccepted(manifest, base, tree, renames) ==> Changed(base, tree) == StagePaths(manifest)
    ensures Changed(tree, tree) == {}
  {
    hide StagePaths, Renames, Matches;
  }

  // ----- staging -----

  /** Updating the index at some paths from the worktree: what is there is added, what is not is removed. */
  function Staged(index: Tree, worktree: Tree, paths: set<string>): Tree {
    (index - paths) + (map path | path in paths && path in worktree :: worktree[path])
  }

  /** The diff and the untracked files together are the worktree. */
  ghost predicate DescribesWorktree(diffed: seq<Entry>, untracked: seq<string>, worktree: Tree, base: Tree) {
    forall path :: Lookup(worktree, path) == if path in untracked && path in worktree then Some(worktree[path]) else After(diffed, base, path)
  }

  /** Staging a faithful manifest over an index that is clean elsewhere gives exactly the manifest's tree, which is the worktree. */
  lemma StagedIsWorktree(
    manifest: seq<Entry>, diffed: seq<Entry>, untracked: seq<string>, worktree: Tree, base: Tree, index: Tree)
    requires forall path <- untracked :: path in worktree
    requires IsFaithful(manifest, diffed, untracked, worktree, base) && DescribesWorktree(diffed, untracked, worktree, base)
    requires Changed(base, index) <= StagePaths(manifest)
    ensures IsApplied(Staged(index, worktree, StagePaths(manifest)), manifest, base)
    ensures Staged(index, worktree, StagePaths(manifest)) == worktree
  {
    hide After;
    var staged := Staged(index, worktree, StagePaths(manifest));
    forall path: string
      ensures Lookup(worktree, path) == After(manifest, base, path)
      ensures Lookup(staged, path) == Lookup(worktree, path)
    {
      if path !in StagePaths(manifest) {
        UntouchedIsBase(manifest, base, path);
        assert path !in Changed(base, index);
      }
    }
    assert forall path :: path in staged <==> path in worktree by {
      forall path: string ensures path in staged <==> path in worktree {
        assert Lookup(staged, path) == Lookup(worktree, path);
      }
    }
    forall path | path in staged ensures staged[path] == worktree[path] {
      assert Lookup(staged, path) == Lookup(worktree, path);
    }
  }

  lemma UntouchedIsBase(manifest: seq<Entry>, base: Tree, path: string)
    requires path !in StagePaths(manifest)
    ensures After(manifest, base, path) == Lookup(base, path)
  {
    StagePathsAre(manifest, path);
    WrittenBy(manifest, path);
  }

  // ----- exactly when a faithful commit is accepted -----

  /** The record changes what the baseline has at its path. */
  predicate IsRealChange(e: Entry, base: Tree) {
    if e.status == Deleted then e.path in base
    else e.object_.Some? && Lookup(base, e.path) != Some(Blob(e.newMode, e.object_.value))
  }

  /**
  A tree that is the baseline with the manifest applied is accepted if and only
  if every record changes something and Git reports exactly the manifest's
  renames.
  */
  lemma AcceptedIff(manifest: seq<Entry>, base: Tree, tree: Tree, renames: set<(string, string)>)
    requires UniquePaths(manifest) && IsApplied(tree, manifest, base) && AreRenames(base, tree, renames)
    ensures IsAccepted(manifest, base, tree, renames) <==>
      renames == Renames(manifest) && forall e <- manifest :: IsRealChange(e, base)
  {
    hide After, StagePaths;
    if IsAccepted(manifest, base, tree, renames) {
      forall e | e in manifest ensures IsRealChange(e, base) {
        StagePathsAre(manifest, e.path);
        assert Matches(e, tree) && e.path in Changed(base, tree);
      }
    }
    if renames == Renames(manifest) && forall e <- manifest :: IsRealChange(e, base) {
      forall e | e in manifest ensures Matches(e, tree) {
        AppliedMatches(manifest, base, tree, e);
      }
      forall path: string ensures path in Changed(base, tree) <==> path in StagePaths(manifest) {
        StagedAreChanged(manifest, base, tree, path);
      }
    }
  }

  lemma AppliedMatches(manifest: seq<Entry>, base: Tree, tree: Tree, e: Entry)
    requires UniquePaths(manifest) && IsApplied(tree, manifest, base) && e in manifest && IsRealChange(e, base)
    ensures Matches(e, tree)
  {
    WrittenBy(manifest, e.path);
    assert UniqueWrites(manifest);
    assert Lookup(tree, e.path) == After(manifest, base, e.path);
    if e.status == Deleted {
      forall other | other in manifest && other.path == e.path ensures other == e {
        var i :| 0 <= i < |manifest| && manifest[i] == e;
        var j :| 0 <= j < |manifest| && manifest[j] == other;
      }
      assert Removes(e, e.path) && IsRemoved(manifest, e.path);
    } else {
      assert IsWrite(e);
    }
  }

  lemma StagedAreChanged(manifest: seq<Entry>, base: Tree, tree: Tree, path: string)
    requires IsApplied(tree, manifest, base) && AreRenames(base, tree, Renames(manifest))
    requires forall e <- manifest :: IsRealChange(e, base) && Matches(e, tree)
    ensures path in Changed(base, tree) <==> path in StagePaths(manifest)
  {
    hide After, StagePaths;
    StagePathsAre(manifest, path);
    assert Lookup(tree, path) == After(manifest, base, path);
    if path !in StagePaths(manifest) {
      UntouchedIsBase(manifest, base, path);
    } else {
      var e :| e in manifest && (e.path == path || (e.status.Renamed? && e.oldPath == Some(path)));
      if e.path == path {
        assert IsRealChange(e, base) && Matches(e, tree);
      } else {
        assert (path, e.path) in Renames(manifest);
      }
      assert Lookup(base, path) != Lookup(tree, path);
    }
  }

  /** Folding and completing a diff of real changes adds real changes only, as long as no untracked file is in the baseline. */
  lemma {:induction false} FoldedIsReal(diffed: seq<Entry>, untracked: seq<string>, worktree: Tree, base: Tree)
    requires forall path <- untracked :: path in worktree && path !in base
    requires forall e <- diffed :: IsRealChange(e, base)
    ensures forall e <- Folded(diffed, untracked, worktree) :: IsRealChange(e, base)
  {
    hide TakesDeletion, LastDeletion;
    if untracked != [] {
      var before, path := untracked[..|untracked| - 1], untracked[|untracked| - 1];
      FoldedIsReal(diffed, before, worktree, base);
      assert path in untracked && before + [path] == untracked;
      FoldedSnoc(diffed, before, worktree, path);
      forall e | e in Folded(diffed, untracked, worktree) ensures IsRealChange(e, base) {
        var i :| 0 <= i < |diffed| && Folded(diffed, untracked, worktree)[i] == e;
        assert e in Folded(diffed, before, worktree) || (e.path == path && e.object_.Some? && e.status != Deleted);
      }
    }
  }

  lemma {:induction false} CompletedIsReal(files: seq<Entry>, unmatched: seq<string>, worktree: Tree, base: Tree)
    requires forall path <- unmatched :: path in worktree && path !in base
    requires forall e <- files :: IsRealChange(e, base)
    ensures forall e <- Completed(files, unmatched, worktree) :: IsRealChange(e, base)
  {
    if unmatched != [] {
      var before, path := unmatched[..|unmatched| - 1], unmatched[|unmatched| - 1];
      assert path in unmatched && forall other <- before :: other in unmatched;
      CompletedIsReal(files, before, worktree, base);
    }
  }

  /**
  For a collected manifest the condition is one on diff and files: when the
  diff lists real changes and no untracked file is in the baseline, what the
  guard stages for a faithful manifest is accepted if and only if Git reports
  exactly the renames that the collection has found.
  */
  lemma CollectedIsAcceptedIff(raw: seq<RawEntry>, untracked: seq<string>, worktree: Tree, base: Tree, index: Tree, renames: set<(string, string)>)
    requires InWorktree(raw, worktree) && forall path <- untracked :: path in worktree && path !in base
    requires forall e <- Diffed(raw, worktree) :: IsRealChange(e, base)
    requires var manifest := Collected(raw, untracked, worktree);
      && UniquePaths(manifest) && IsFaithful(manifest, Diffed(raw, worktree), untracked, worktree, base)
      && Changed(base, index) <= StagePaths(manifest)
    requires DescribesWorktree(Diffed(raw, worktree), untracked, worktree, base) && AreRenames(base, worktree, renames)
    ensures var manifest := Collected(raw, untracked, worktree);
      IsAccepted(manifest, base, Staged(index, worktree, StagePaths(manifest)), renames) <==> renames == Renames(manifest)
  {
    hide IsFaithful, DescribesWorktree, IsAccepted, IsApplied, Staged, StagePaths, Changed, Folded, Unmatched, Completed, UniquePaths, IsRealChange, AreRenames;
    var diffed := Diffed(raw, worktree);
    var manifest := Collected(raw, untracked, worktree);
    StagedIsWorktree(manifest, diffed, untracked, worktree, base, index);
    FoldedIsReal(diffed, untracked, worktree, base);
    CompletedIsReal(Folded(diffed, untracked, worktree), Unmatched(diffed, untracked, worktree), worktree, base);
    AcceptedIff(manifest, base, worktree, renames);
  }

  /** End to end: a verified commit of a faithful manifest holds exactly the worktree that was reviewed. */
  lemma VerifiedIsWorktree(
    manifest: seq<Entry>, diffed: seq<Entry>, untracked: seq<string>, worktree: Tree, base: Tree, tree: Tree, renames: set<(string, string)>)
    requires forall path <- untracked :: path in worktree
    requires IsFaithful(manifest, diffed, untracked, worktree, base) && DescribesWorktree(diffed, untracked, worktree, base)
    requires IsAccepted(manifest, base, tree, renames) && AreRenames(base, tree, renames) && UniquePaths(manifest)
    ensures tree == worktree
  {
    hide After, IsAccepted;
    AcceptedIsApplied(manifest, base, tree, renames);
    forall path: string ensures Lookup(tree, path) == Lookup(worktree, path) {
    }
    forall path: string ensures path in tree <==> path in worktree {
      assert Lookup(tree, path) == Lookup(worktree, path);
    }
    forall path | path in tree ensures tree[path] == worktree[path] {
      assert Lookup(tree, path) == Lookup(worktree, path);
    }
  }

  /** The verification of a commit, check by check. */
  method VerifyCommit(manifest: seq<Entry>, parentIsBaseline: bool, base: Tree, tree: Tree, index: Tree, renames: set<(string, string)>)
    returns (ok: bool)
    ensures ok <==> parentIsBaseline && Changed(tree, index) == {} && IsAccepted(manifest, base, tree, renames)
  {
    if !parentIsBaseline || Changed(tree, index) != {} || Changed(base, tree) != StagePaths(manifest) {
      return false;
    }
    var i := 0;
    while i < |manifest|
      invariant 0 <= i <= |manifest|
      invariant forall j :: 0 <= j < i ==> Matches(manifest[j], tree)
    {
      var e := manifest[i];
      assert e in manifest;
      if e.status == Deleted {
        if e.path in tree {
          return false;
        }
      } else if e.path !in tree || e.object_ == None || tree[e.path] != Blob(e.newMode, e.object_.value) {
        return false;
      }
      i := i + 1;
    }
    ok := renames == Renames(manifest);
  }
}
