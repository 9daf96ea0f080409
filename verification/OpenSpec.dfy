/** The publication store, as one client works on it while it holds the lock. */
module OpenSpec {
  import opened Outcomes
  import opened Publication

  datatype StageError = DependenciesMissing | InvalidFiles

  datatype PublishError = NotStaged | CheckpointMismatch | Refused(decision: Decision) | CannotBeWritten | Rejected

  /** Revision trees are written in this order. */
  const SORTED_KINDS: seq<ArtifactKind> := [Design, Proposal, Specs, Tasks]

  lemma AllKindsSorted(kind: ArtifactKind)
    ensures kind in SORTED_KINDS
  {
    assert SORTED_KINDS[0] == Design && SORTED_KINDS[1] == Proposal && SORTED_KINDS[2] == Specs && SORTED_KINDS[3] == Tasks;
  }

  class PublicationStore {
    var current: Option<Pointer>
    var staged: set<Version>
    var revisions: map<Pointer, Tree>

    constructor ()
      ensures Valid() && current == None && staged == {}
    {
      current, staged, revisions := None, {}, map[];
    }

    ghost predicate Valid()
      reads this
    {
      && PointerOk(current)
      && (forall version <- staged :: WellFormed(version))
      && (forall pointer <- revisions :: HoldsSome(revisions[pointer], pointer.artifacts))
      && (current.Some? ==> current.value in revisions && Holds(revisions[current.value], current.value.artifacts))
    }

    /** Stage a version against what is visible now. */
    method StageArtifact(kind: ArtifactKind, files: seq<File>) returns (r: Result<Version, StageError>)
      requires Valid()
      modifies this`staged
      ensures Valid()
      ensures r.Ok? <==> files != [] && UniquePaths(files) && forall dependency <- Dependencies(kind) :: dependency in Visible(current)
      ensures r.Ok? ==>
        && staged == old(staged) + {r.value}
        && r.value.kind == kind && r.value.files == files
        && DependenciesCurrent(current, r.value) && r.value.parent == VisibleVersion(current, kind)
      ensures r.Err? ==> staged == old(staged)
    {
      hide Holds, HoldsSome, Closed, UniquePaths, Dependencies;
      if files == [] || !UniquePaths(files) {
        return Err(InvalidFiles);
      }
      var inputs: map<ArtifactKind, Version>, todo := map[], Dependencies(kind);
      while todo != {}
        invariant todo <= Dependencies(kind) && inputs.Keys == Dependencies(kind) - todo
        invariant forall dependency <- inputs :: VisibleVersion(current, dependency) == Some(inputs[dependency])
        decreases |todo|
      {
        var dependency :| dependency in todo;
        var visible := VisibleVersion(current, dependency);
        if visible == None {
          return Err(DependenciesMissing);
        }
        inputs, todo := inputs[dependency := visible.value], todo - {dependency};
      }
      var version := Version(kind, files, inputs, VisibleVersion(current, kind));
      staged := staged + {version};
      r := Ok(version);
    }

    method RevalidatePrerequisites(v: Version) returns (ok: bool)
      ensures ok <==> DependenciesCurrent(current, v)
    {
      var todo := v.inputs.Keys;
      while todo != {}
        invariant todo <= v.inputs.Keys
        invariant forall kind <- v.inputs.Keys - todo :: VisibleVersion(current, kind) == Some(v.inputs[kind])
        decreases |todo|
      {
        var kind :| kind in todo;
        if VisibleVersion(current, kind) != Some(v.inputs[kind]) {
          return false;
        }
        todo := todo - {kind};
      }
      ok := true;
    }

    method RejectStaleDependents(v: Version, artifacts: map<ArtifactKind, Version>) returns (ok: bool)
      ensures ok <==> !exists kind <- artifacts :: IsStaleAfter(artifacts[kind], v)
    {
      var todo := artifacts.Keys;
      while todo != {}
        invariant todo <= artifacts.Keys
        invariant forall kind <- artifacts.Keys - todo :: !IsStaleAfter(artifacts[kind], v)
        decreases |todo|
      {
        var kind :| kind in todo;
        if IsStaleAfter(artifacts[kind], v) {
          return false;
        }
        todo := todo - {kind};
      }
      ok := true;
    }

    /** Write one artifact's files into a tree; a file that is already there must have the same content. */
    method WriteFiles(tree: Tree, files: seq<File>) returns (next: Tree, ok: bool)
      ensures ok ==> HasFiles(next, files)
      ensures Keeps(tree, next)
      ensures forall path <- next :: path in tree || File(path, next[path]) in files
      ensures FitsFiles(tree, files) && Agree(files, files) ==> ok
    {
      next, ok := tree, true;
      var i := 0;
      while i < |files|
        invariant 0 <= i <= |files|
        invariant forall j :: 0 <= j < i ==> files[j].path in next && next[files[j].path] == files[j].content
        invariant Keeps(tree, next)
        invariant forall path <- next :: path in tree || File(path, next[path]) in files
      {
        var file := files[i];
        if file.path in next {
          if next[file.path] != file.content {
            return next, false;
          }
        } else {
          next := next[file.path := file.content];
        }
        i := i + 1;
      }
    }

    /** The tree of a revision as far as an interrupted publication has written it. */
    function Started(successor: Pointer): Tree
      reads this
    {
      if successor in revisions then revisions[successor] else map[]
    }

    /** Write the whole tree of a revision that is not visible yet. What is visible is not touched, even by a failed write. */
    method WriteCompleteRevision(successor: Pointer) returns (ok: bool)
      requires Valid() && (current.Some? ==> current.value.revision < successor.revision)
      modifies this`revisions
      ensures Valid() && successor in revisions
      ensures ok ==> Holds(revisions[successor], successor.artifacts)
      ensures ok <==> Fits(old(Started(successor)), successor.artifacts)
      ensures forall pointer <- old(revisions) :: pointer != successor ==> pointer in revisions && revisions[pointer] == old(revisions)[pointer]
    {
      hide Holds, HoldsSome, Closed, HasFiles, Fits;
      ghost var before := revisions;
      EmptyIsHeld(successor.artifacts);
      var tree := Started(successor);
      ghost var started := tree;
      ok := true;
      var i := 0;
      while i < |SORTED_KINDS|
        invariant 0 <= i <= |SORTED_KINDS| && revisions == before
        invariant HoldsSome(tree, successor.artifacts) && Keeps(started, tree)
        invariant Fits(started, successor.artifacts) ==> Fits(tree, successor.artifacts)
        invariant forall j :: 0 <= j < i && SORTED_KINDS[j] in successor.artifacts ==> HasFiles(tree, successor.artifacts[SORTED_KINDS[j]].files)
      {
        var kind := SORTED_KINDS[i];
        if kind in successor.artifacts {
          var next, written := WriteFiles(tree, successor.artifacts[kind].files);
          SomeStaysHeld(tree, next, successor.artifacts, kind);
          if Fits(tree, successor.artifacts) {
            FitStaysFit(tree, next, successor.artifacts, kind);
            FitIsWritten(tree, successor.artifacts, kind);
          }
          FilesAreKept(tree, next);
          tree := next;
          if !written {
            revisions := revisions[successor := tree];
            return false;
          }
        }
        i := i + 1;
      }
      forall kind: ArtifactKind | kind in successor.artifacts
        ensures HasFiles(tree, successor.artifacts[kind].files)
      {
        AllKindsSorted(kind);
      }
      CompleteIsHeld(tree, successor.artifacts);
      HeldFits(started, tree, successor.artifacts);
      revisions := revisions[successor := tree];
    }

    /** The publication is decided for, its files fit what is written already, and a complete change is valid. */
    ghost predicate IsWritable(v: Version, completeIsValid: bool)
      reads this
    {
      var decision := Decide(current, v);
      && decision.Publish?
      && Fits(Started(decision.successor), decision.successor.artifacts)
      && (|decision.successor.artifacts| == 4 ==> completeIsValid)
    }

    /**
    Publish a staged version. What becomes visible is exactly what `Decide`
    says, with its complete tree; any refusal or failure leaves the pointer as it was.
    */
    method PublishArtifact(v: Version, checkpointMatches: bool, completeIsValid: bool) returns (r: Result<Pointer, PublishError>)
      requires Valid()
      modifies this`current, this`revisions
      ensures Valid()
      ensures r.Ok? ==> current == Some(r.value) && VisibleVersion(current, v.kind) == Some(v)
      ensures r.Ok? ==> v in staged && checkpointMatches
      ensures r.Ok? && old(VisibleVersion(current, v.kind)) != Some(v) ==> Decide(old(current), v) == Publish(r.value)
      ensures r.Ok? && old(VisibleVersion(current, v.kind)) == Some(v) ==> current == old(current)
      ensures r.Err? ==> current == old(current)
      ensures r.Ok? <==>
        && v in staged && checkpointMatches
        && (Decide(old(current), v) == AlreadyVisible || old(IsWritable(v, completeIsValid)))
      ensures v in staged && checkpointMatches && Decide(old(current), v) in {DependenciesChanged, WouldRegress, DependentsStale} ==>
        r == Err(Refused(Decide(old(current), v)))
      ensures r.Err? && r.error.Refused? ==> r.error.decision == Decide(old(current), v) && !r.error.decision.Publish?
    {
      hide Holds, HoldsSome, Closed, WellFormed, Fits;
      if v !in staged {
        return Err(NotStaged);
      }
      if !checkpointMatches {
        return Err(CheckpointMismatch);
      }
      var dependenciesCurrent := RevalidatePrerequisites(v);
      if !dependenciesCurrent {
        return Err(Refused(DependenciesChanged));
      }
      if VisibleVersion(current, v.kind) == Some(v) {
        return Ok(current.value);
      }
      if VisibleVersion(current, v.kind) != v.parent {
        return Err(Refused(WouldRegress));
      }
      var successor := Successor(current, v);
      var dependentsCurrent := RejectStaleDependents(v, successor.artifacts);
      if !dependentsCurrent {
        return Err(Refused(DependentsStale));
      }
      PublicationKeepsClosed(current, v);
      var written := WriteCompleteRevision(successor);
      if !written {
        return Err(CannotBeWritten);
      }
      if |successor.artifacts| == 4 && !completeIsValid {
        return Err(Rejected);   // the complete change is validated once more before it is shown
      }
      current := Some(successor);
      r := Ok(successor);
    }
  }
}
