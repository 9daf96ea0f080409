/**
Publishing a change: which versions of its artifacts may become visible next.

A version is what its manifest hash stands for: the files, the exact versions
it was written against, and the version it replaces. Equal hashes therefore
mean equal versions.
*/
module Publication {
  import opened Outcomes

  datatype ArtifactKind = Proposal | Specs | Design | Tasks

  datatype File = File(path: string, content: string)

  datatype Version = Version(
    kind: ArtifactKind,
    files: seq<File>,
    inputs: map<ArtifactKind, Version>,
    parent: Option<Version>)

  /** What a client sees: the visible version of each published artifact. */
  datatype Pointer = Pointer(revision: nat, artifacts: map<ArtifactKind, Version>)

  function Dependencies(kind: ArtifactKind): set<ArtifactKind> {
    match kind
    case Proposal => {}
    case Specs => {Proposal}
    case Design => {Proposal}
    case Tasks => {Specs, Design}
  }

  predicate UniquePaths(files: seq<File>) {
    forall i, j :: 0 <= i < j < |files| ==> files[i].path != files[j].path
  }

  /** The manifest validator: one input per dependency, and no path twice. */
  predicate WellFormed(v: Version) {
    v.inputs.Keys == Dependencies(v.kind) && UniquePaths(v.files) && v.files != []
  }

  function Visible(current: Option<Pointer>): map<ArtifactKind, Version> {
    if current == None then map[] else current.value.artifacts
  }

  function VisibleVersion(current: Option<Pointer>, kind: ArtifactKind): Option<Version> {
    if kind in Visible(current) then Some(Visible(current)[kind]) else None
  }

  /** How many versions of the artifact came before. */
  function Depth(v: Version): nat {
    if v.parent == None then 0 else 1 + Depth(v.parent.value)
  }

  // ----- the decision of a publication -----

  datatype Decision = DependenciesChanged | AlreadyVisible | WouldRegress | DependentsStale | Publish(successor: Pointer)

  predicate DependenciesCurrent(current: Option<Pointer>, v: Version) {
    forall kind <- v.inputs :: VisibleVersion(current, kind) == Some(v.inputs[kind])
  }

  predicate IsStaleAfter(published: Version, v: Version) {
    v.kind in published.inputs && published.inputs[v.kind] != v
  }

  function Successor(current: Option<Pointer>, v: Version): Pointer {
    Pointer(if current == None then 1 else current.value.revision + 1, Visible(current)[v.kind := v])
  }

  /** The checks of a publication, in the order they are made under the lock. */
  function Decide(current: Option<Pointer>, v: Version): Decision {
    if !DependenciesCurrent(current, v) then DependenciesChanged
    else if VisibleVersion(current, v.kind) == Some(v) then AlreadyVisible
    else if VisibleVersion(current, v.kind) != v.parent then WouldRegress
    else if exists kind <- Successor(current, v).artifacts :: IsStaleAfter(Successor(current, v).artifacts[kind], v) then DependentsStale
    else Publish(Successor(current, v))
  }

  // ----- what every visible pointer satisfies -----

  /** Every visible artifact was written against exactly the versions visible beside it. */
  ghost predicate Closed(artifacts: map<ArtifactKind, Version>) {
    forall kind <- artifacts ::
      && artifacts[kind].kind == kind
      && WellFormed(artifacts[kind])
      && forall dependency <- Dependencies(kind) ::
           dependency in artifacts && artifacts[kind].inputs[dependency] == artifacts[dependency]
  }

  ghost predicate PointerOk(current: Option<Pointer>) {
    Closed(Visible(current)) && (current.Some? ==> current.value.artifacts != map[] && current.value.revision >= 1)
  }

  /** Some visible artifact was written against an artifact of this kind. */
  predicate HasVisibleDependent(current: Option<Pointer>, kind: ArtifactKind) {
    exists other <- Visible(current) :: kind in Dependencies(other)
  }

  lemma NoDependsOnItself(kind: ArtifactKind)
    ensures kind !in Dependencies(kind)
  {
  }

  /** In a closed set a dependent is stale exactly because it depends on the replaced artifact. */
  lemma StaleMeansDependent(current: Option<Pointer>, v: Version)
    requires PointerOk(current) && WellFormed(v) && VisibleVersion(current, v.kind) != Some(v)
    ensures (exists kind <- Successor(current, v).artifacts :: IsStaleAfter(Successor(current, v).artifacts[kind], v))
      <==> HasVisibleDependent(current, v.kind)
  {
    var visible, after := Visible(current), Successor(current, v).artifacts;
    NoDependsOnItself(v.kind);
    forall kind | kind in after
      ensures IsStaleAfter(after[kind], v) <==> kind in visible && v.kind in Dependencies(kind)
    {
      if kind != v.kind && v.kind in Dependencies(kind) {
        assert v.kind in visible && visible[kind].inputs[v.kind] == visible[v.kind];
      }
    }
    if other :| other in visible && v.kind in Dependencies(other) {
      assert other in after && IsStaleAfter(after[other], v);
    }
  }

  /**
  Exactly when a version that is not visible yet becomes visible: its inputs
  are the visible ones, it replaces the visible version of its artifact, and
  nothing visible was written against that artifact.
  */
  lemma PublishableIff(current: Option<Pointer>, v: Version)
    requires PointerOk(current) && WellFormed(v) && VisibleVersion(current, v.kind) != Some(v)
    ensures Decide(current, v).Publish? <==>
      && DependenciesCurrent(current, v)
      && VisibleVersion(current, v.kind) == v.parent
      && !HasVisibleDependent(current, v.kind)
  {
    StaleMeansDependent(current, v);
  }

  lemma ReplacementKeepsClosed(before: map<ArtifactKind, Version>, v: Version)
    requires Closed(before) && WellFormed(v)
    requires forall dependency <- Dependencies(v.kind) :: dependency in before && before[dependency] == v.inputs[dependency]
    requires forall other <- before :: v.kind !in Dependencies(other)
    ensures Closed(before[v.kind := v])
  {
    hide UniquePaths, Dependencies;
    var after := before[v.kind := v];
    NoDependsOnItself(v.kind);
    forall kind | kind in after
      ensures after[kind].kind == kind && WellFormed(after[kind])
      ensures forall dependency <- Dependencies(kind) :: dependency in after && after[kind].inputs[dependency] == after[dependency]
    {
      if kind == v.kind {
        assert forall dependency <- Dependencies(kind) :: dependency in after && v.inputs[dependency] == after[dependency];
      } else {
        assert forall dependency <- Dependencies(kind) :: before[kind].inputs[dependency] == before[dependency];
      }
    }
  }

  /** A publication keeps the visible set closed, adds or replaces one artifact, and deepens its chain by one. */
  lemma PublicationKeepsClosed(current: Option<Pointer>, v: Version)
    requires PointerOk(current) && WellFormed(v) && Decide(current, v).Publish?
    ensures var next := Decide(current, v).successor;
      && PointerOk(Some(next))
      && next.revision == (if current == None then 1 else current.value.revision + 1)
      && next.artifacts == Visible(current)[v.kind := v]
      && v.parent == VisibleVersion(current, v.kind)
      && !HasVisibleDependent(current, v.kind)
  {
    hide Dependencies, Closed;
    PublishableIff(current, v);
    InputsAreVisible(current, v);
    ReplacementKeepsClosed(Visible(current), v);
    assert v.kind in Visible(current)[v.kind := v];
  }

  lemma InputsAreVisible(current: Option<Pointer>, v: Version)
    requires WellFormed(v) && DependenciesCurrent(current, v)
    ensures forall dependency <- Dependencies(v.kind) ::
      dependency in v.inputs && dependency in Visible(current) && Visible(current)[dependency] == v.inputs[dependency]
  {
    hide Dependencies;
    forall dependency | dependency in Dependencies(v.kind)
      ensures dependency in v.inputs && dependency in Visible(current) && Visible(current)[dependency] == v.inputs[dependency]
    {
      assert VisibleVersion(current, dependency) == Some(v.inputs[dependency]);
    }
  }

  // ----- the files of a revision -----

  type Tree = map<string, string>

  /** Every file of every artifact, and nothing else. */
  ghost predicate Holds(tree: Tree, artifacts: map<ArtifactKind, Version>) {
    && (forall kind <- artifacts, file <- artifacts[kind].files :: file.path in tree && tree[file.path] == file.content)
    && (forall path <- tree :: exists kind <- artifacts, file <- artifacts[kind].files :: file == File(path, tree[path]))
  }

  /** Only files of these artifacts, perhaps not all of them yet. */
  ghost predicate HoldsSome(tree: Tree, artifacts: map<ArtifactKind, Version>) {
    forall path <- tree :: exists kind <- artifacts, file <- artifacts[kind].files :: file == File(path, tree[path])
  }

  predicate HasFiles(tree: Tree, files: seq<File>) {
    forall file <- files :: file.path in tree && tree[file.path] == file.content
  }

  lemma SomeStaysHeld(tree: Tree, next: Tree, artifacts: map<ArtifactKind, Version>, kind: ArtifactKind)
    requires HoldsSome(tree, artifacts) && kind in artifacts
    requires Keeps(tree, next)
    requires forall path <- next :: path in tree || File(path, next[path]) in artifacts[kind].files
    ensures HoldsSome(next, artifacts)
  {
    forall path | path in next
      ensures exists kind <- artifacts, file <- artifacts[kind].files :: file == File(path, next[path])
    {
      if path !in tree {
        assert File(path, next[path]) in artifacts[kind].files;
      }
    }
  }

  lemma CompleteIsHeld(tree: Tree, artifacts: map<ArtifactKind, Version>)
    requires HoldsSome(tree, artifacts)
    requires forall kind <- artifacts :: HasFiles(tree, artifacts[kind].files)
    ensures Holds(tree, artifacts)
  {
    forall kind, file | kind in artifacts && file in artifacts[kind].files
      ensures file.path in tree && tree[file.path] == file.content
    {
      assert HasFiles(tree, artifacts[kind].files);
    }
  }

  predicate Keeps(before: Tree, after: Tree) {
    forall path <- before :: path in after && after[path] == before[path]
  }

  lemma FilesAreKept(before: Tree, after: Tree)
    requires Keeps(before, after)
    ensures forall files :: HasFiles(before, files) ==> HasFiles(after, files)
  {
  }

  /** No path is wanted with two contents, and none is there with another one than is wanted. */
  ghost predicate Fits(tree: Tree, artifacts: map<ArtifactKind, Version>) {
    && (forall kind <- artifacts :: FitsFiles(tree, artifacts[kind].files))
    && (forall kind <- artifacts, other <- artifacts :: Agree(artifacts[kind].files, artifacts[other].files))
  }

  ghost predicate FitsFiles(tree: Tree, files: seq<File>) {
    forall file <- files :: file.path in tree ==> tree[file.path] == file.content
  }

  ghost predicate Agree(files: seq<File>, others: seq<File>) {
    forall file <- files, other <- others :: file.path == other.path ==> file.content == other.content
  }

  /** A tree that holds everything was started from one that fitted. */
  lemma HeldFits(before: Tree, after: Tree, artifacts: map<ArtifactKind, Version>)
    requires Keeps(before, after) && forall kind <- artifacts :: HasFiles(after, artifacts[kind].files)
    ensures Fits(before, artifacts)
  {
    forall kind | kind in artifacts ensures FitsFiles(before, artifacts[kind].files) {
      assert HasFiles(after, artifacts[kind].files);
    }
    forall kind, other | kind in artifacts && other in artifacts
      ensures Agree(artifacts[kind].files, artifacts[other].files)
    {
      assert HasFiles(after, artifacts[kind].files) && HasFiles(after, artifacts[other].files);
    }
  }

  /** Writing one artifact of a fitting tree leaves the tree fitting. */
  lemma FitStaysFit(before: Tree, after: Tree, artifacts: map<ArtifactKind, Version>, kind: ArtifactKind)
    requires Fits(before, artifacts) && kind in artifacts
    requires forall path <- after :: (path in before && after[path] == before[path]) || File(path, after[path]) in artifacts[kind].files
    ensures Fits(after, artifacts)
  {
    forall other | other in artifacts ensures FitsFiles(after, artifacts[other].files) {
      assert FitsFiles(before, artifacts[other].files) && Agree(artifacts[kind].files, artifacts[other].files);
    }
  }

  lemma FitIsWritten(tree: Tree, artifacts: map<ArtifactKind, Version>, kind: ArtifactKind)
    requires Fits(tree, artifacts) && kind in artifacts
    ensures FitsFiles(tree, artifacts[kind].files) && Agree(artifacts[kind].files, artifacts[kind].files)
  {
  }

  lemma EmptyIsHeld(artifacts: map<ArtifactKind, Version>)
    ensures HoldsSome(map[], artifacts)
  {
  }
}
