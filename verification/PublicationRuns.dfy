/**
Many clients staging and publishing one change at once.

Staging takes no lock: a client reads each dependency, and then the version it
replaces, at different moments, and others may publish in between. Publishing
holds the lock; a client may die at any point of it, also between two files.
*/
module PublicationRuns {
  import opened Outcomes
  import opened Publication

  datatype Client =
    | Quiet
    | Gathering(kind: ArtifactKind, files: seq<File>, inputs: map<ArtifactKind, Version>, missing: set<ArtifactKind>)
    | Checked(version: Version)                                            // receipt and checkpoint match
    | Writing(version: Version, successor: Pointer, unwritten: set<File>)  // holds the lock

  datatype Change = Change(
    current: Option<Pointer>,
    staged: set<Version>,
    revisions: map<Pointer, Tree>,
    lock: Option<nat>,
    clients: map<nat, Client>)

  datatype Action =
    | BeginStaging(kind: ArtifactKind, files: seq<File>)
    | ReadDependency(kind: ArtifactKind)
    | Stage
    | Check(version: Version)
    | Lock                                  // take the lock, decide, and start the revision or give up
    | WriteFile(file: File)                 // one file of the new revision's tree
    | Reveal                                // swap the pointer and release the lock
    | Die

  function Doing(c: Change, p: nat): Client {
    if p in c.clients then c.clients[p] else Quiet
  }

  function Tree0(c: Change, pointer: Pointer): Tree {
    if pointer in c.revisions then c.revisions[pointer] else map[]
  }

  /** All files of all artifacts of a revision. */
  function FilesOf(artifacts: map<ArtifactKind, Version>): set<File> {
    set kind, file | kind in artifacts && file in artifacts[kind].files :: file
  }

  predicate Has(tree: Tree, file: File) {
    file.path in tree && tree[file.path] == file.content
  }

  predicate CanAct(c: Change, p: nat, a: Action) {
    var doing := Doing(c, p);
    match a
    case BeginStaging(kind, files) => doing == Quiet && UniquePaths(files) && files != []
    case ReadDependency(kind) => doing.Gathering? && kind in doing.missing && VisibleVersion(c.current, kind).Some?
    case Stage => doing.Gathering? && doing.missing == {}
    case Check(version) => doing == Quiet && version in c.staged
    case Lock => doing.Checked? && c.lock == None
    case WriteFile(file) =>   // a file never changes once written
      && doing.Writing? && file in doing.unwritten
      && (file.path in Tree0(c, doing.successor) ==> Has(Tree0(c, doing.successor), file))
    case Reveal => doing.Writing? && doing.unwritten == {}
    case Die => true
  }

  function Act(c: Change, p: nat, a: Action): Change
    requires CanAct(c, p, a)
  {
    var doing := Doing(c, p);
    match a
    case BeginStaging(kind, files) => c.(clients := c.clients[p := Gathering(kind, files, map[], Dependencies(kind))])
    case ReadDependency(kind) =>
      c.(clients := c.clients[p :=
        doing.(inputs := doing.inputs[kind := VisibleVersion(c.current, kind).value], missing := doing.missing - {kind})])
    case Stage =>
      c.(staged := c.staged + {Version(doing.kind, doing.files, doing.inputs, VisibleVersion(c.current, doing.kind))},
         clients := c.clients[p := Quiet])
    case Check(version) => c.(clients := c.clients[p := Checked(version)])
    case Lock =>
      var decision := Decide(c.current, doing.version);
      if !decision.Publish? then c.(clients := c.clients[p := Quiet])
      else c.(lock := Some(p),
              clients := c.clients[p := Writing(doing.version, decision.successor, FilesOf(decision.successor.artifacts))])
    case WriteFile(file) =>
      c.(revisions := c.revisions[doing.successor := Tree0(c, doing.successor)[file.path := file.content]],
         clients := c.clients[p := doing.(unwritten := doing.unwritten - {file})])
    case Reveal =>
      c.(current := Some(doing.successor), lock := None, clients := c.clients[p := Quiet])
    case Die =>
      c.(lock := if c.lock == Some(p) then None else c.lock, clients := c.clients[p := Quiet])
  }

  // ----- the invariant -----

  ghost predicate ClientOk(c: Change, p: nat, doing: Client) {
    match doing
    case Quiet => true
    case Gathering(kind, files, inputs, missing) =>
      && UniquePaths(files) && files != []
      && missing <= Dependencies(kind) && inputs.Keys == Dependencies(kind) - missing
    case Checked(version) => version in c.staged
    case Writing(version, successor, unwritten) =>
      && c.lock == Some(p)
      && version in c.staged
      && Decide(c.current, version) == Publish(successor)
      && unwritten <= FilesOf(successor.artifacts)
      && forall file <- FilesOf(successor.artifacts) - unwritten :: Has(Tree0(c, successor), file)
  }

  ghost predicate ChangeInv(c: Change) {
    && PointerOk(c.current)
    && (forall version <- c.staged :: WellFormed(version))
    && (forall p <- c.clients :: ClientOk(c, p, c.clients[p]))
    && (c.lock.Some? ==> Doing(c, c.lock.value).Writing?)
    && (forall pointer <- c.revisions :: HoldsSome(c.revisions[pointer], pointer.artifacts))
    && (c.current.Some? ==> Holds(Tree0(c, c.current.value), c.current.value.artifacts))
  }

  // ----- every action keeps the invariant -----

  lemma WritingIsAlone(c: Change, p: nat)
    requires ChangeInv(c) && Doing(c, p).Writing?
    ensures c.lock == Some(p)
    ensures forall q <- c.clients :: q != p ==> !c.clients[q].Writing?
  {
    forall q | q in c.clients && q != p ensures !c.clients[q].Writing? {
      assert ClientOk(c, q, c.clients[q]) && ClientOk(c, p, c.clients[p]);
    }
  }

  /** What another client relies on is not touched while the pointer stays and revisions only grow. */
  lemma OthersStayOk(c: Change, next: Change, q: nat, doing: Client)
    requires ClientOk(c, q, doing)
    requires c.staged <= next.staged
    requires doing.Writing? ==> next.lock == c.lock && next.current == c.current
    requires doing.Writing? ==> Keeps(Tree0(c, doing.successor), Tree0(next, doing.successor))
    ensures ClientOk(next, q, doing)
  {
    if doing.Writing? {
      forall file | file in FilesOf(doing.successor.artifacts) - doing.unwritten ensures Has(Tree0(next, doing.successor), file) {
        assert Has(Tree0(c, doing.successor), file);
      }
    }
  }

  lemma LocalActionKeeps(c: Change, p: nat, doing: Client, next: Change)
    requires ChangeInv(c) && !Doing(c, p).Writing? && !doing.Writing? && ClientOk(next, p, doing)
    requires next == c.(clients := c.clients[p := doing], staged := next.staged)
    requires c.staged <= next.staged && forall version <- next.staged :: WellFormed(version)
    ensures ChangeInv(next)
  {
    hide PointerOk, Decide, HoldsSome, Holds, WellFormed;
    forall q | q in next.clients ensures ClientOk(next, q, next.clients[q]) {
      if q != p {
        OthersStayOk(c, next, q, c.clients[q]);
      }
    }
  }

  lemma LockKeeps(c: Change, p: nat, next: Change)
    requires ChangeInv(c) && CanAct(c, p, Lock) && next == Act(c, p, Lock)
    ensures ChangeInv(next)
  {
    hide PointerOk, Decide, HoldsSome, Holds, WellFormed;
    var doing := Doing(c, p);
    assert ClientOk(c, p, doing);
    forall q | q in next.clients ensures ClientOk(next, q, next.clients[q]) {
      if q != p {
        assert ClientOk(c, q, c.clients[q]);
        assert !c.clients[q].Writing?;
        OthersStayOk(c, next, q, c.clients[q]);
      }
    }
  }

  /** One more file: nothing that is there changes, and nothing else is added. */
  lemma WriteKeeps(c: Change, p: nat, file: File, next: Change)
    requires ChangeInv(c) && CanAct(c, p, WriteFile(file)) && next == Act(c, p, WriteFile(file))
    ensures ChangeInv(next)
  {
    hide Decide, WellFormed, UniquePaths, Closed, HoldsSome, Holds, FilesOf;
    var doing := Doing(c, p);
    var successor := doing.successor;
    var before := Tree0(c, successor);
    WritingIsAlone(c, p);
    assert ClientOk(c, p, doing);
    TreeHoldsSome(c, successor);
    FileStaysHeld(before, file, successor.artifacts);
    forall q | q in next.clients ensures ClientOk(next, q, next.clients[q]) {
      if q != p {
        OthersStayOk(c, next, q, c.clients[q]);
      } else {
        MoreIsContained(c, next, doing, file);
      }
    }
    if c.current.Some? && c.current.value == successor {
      HeldStaysHeld(before, before[file.path := file.content], successor.artifacts);
    }
  }

  lemma FileStaysHeld(tree: Tree, file: File, artifacts: map<ArtifactKind, Version>)
    requires HoldsSome(tree, artifacts) && file in FilesOf(artifacts) && (file.path in tree ==> Has(tree, file))
    ensures HoldsSome(tree[file.path := file.content], artifacts) && Keeps(tree, tree[file.path := file.content])
  {
    var kind :| kind in artifacts && file in artifacts[kind].files;
    SomeStaysHeld(tree, tree[file.path := file.content], artifacts, kind);
  }

  lemma MoreIsContained(c: Change, next: Change, doing: Client, file: File)
    requires doing.Writing? && file in doing.unwritten
    requires forall other <- FilesOf(doing.successor.artifacts) - doing.unwritten :: Has(Tree0(c, doing.successor), other)
    requires Keeps(Tree0(c, doing.successor), Tree0(next, doing.successor)) && Has(Tree0(next, doing.successor), file)
    ensures forall other <- FilesOf(doing.successor.artifacts) - (doing.unwritten - {file}) :: Has(Tree0(next, doing.successor), other)
  {
    hide FilesOf;
    forall other | other in FilesOf(doing.successor.artifacts) - (doing.unwritten - {file})
      ensures Has(Tree0(next, doing.successor), other)
    {
      assert other == file || Has(Tree0(c, doing.successor), other);
    }
  }

  lemma HeldStaysHeld(before: Tree, after: Tree, artifacts: map<ArtifactKind, Version>)
    requires Holds(before, artifacts) && Keeps(before, after) && HoldsSome(after, artifacts)
    ensures Holds(after, artifacts)
  {
  }

  lemma TreeHoldsSome(c: Change, pointer: Pointer)
    requires forall p <- c.revisions :: HoldsSome(c.revisions[p], p.artifacts)
    ensures HoldsSome(Tree0(c, pointer), pointer.artifacts)
  {
  }

  /** When no file is missing any more, the tree has every artifact's files. */
  lemma NothingIsMissing(tree: Tree, artifacts: map<ArtifactKind, Version>)
    requires forall file <- FilesOf(artifacts) :: Has(tree, file)
    ensures forall kind <- artifacts :: HasFiles(tree, artifacts[kind].files)
  {
    forall kind | kind in artifacts ensures HasFiles(tree, artifacts[kind].files) {
      forall file | file in artifacts[kind].files ensures file.path in tree && tree[file.path] == file.content {
        assert file in FilesOf(artifacts) && Has(tree, file);
      }
    }
  }

  /** At the moment the pointer is swapped, its tree is complete and holds nothing else. */
  lemma RevealKeeps(c: Change, p: nat, next: Change)
    requires ChangeInv(c) && CanAct(c, p, Reveal) && next == Act(c, p, Reveal)
    ensures ChangeInv(next)
    ensures Decide(c.current, Doing(c, p).version) == Publish(next.current.value)
  {
    hide Decide, WellFormed, UniquePaths, Closed, HoldsSome;
    var doing := Doing(c, p);
    WritingIsAlone(c, p);
    assert ClientOk(c, p, doing);
    assert WellFormed(doing.version);
    PublicationKeepsClosed(c.current, doing.version);
    TreeHoldsSome(c, doing.successor);
    NothingIsMissing(Tree0(c, doing.successor), doing.successor.artifacts);
    CompleteIsHeld(Tree0(c, doing.successor), doing.successor.artifacts);
    forall q | q in next.clients ensures ClientOk(next, q, next.clients[q]) {
      if q != p {
        OthersStayOk(c, next, q, c.clients[q]);
      }
    }
  }

  lemma DieKeeps(c: Change, p: nat, next: Change)
    requires ChangeInv(c) && next == Act(c, p, Die)
    ensures ChangeInv(next)
  {
    hide PointerOk, Decide, HoldsSome, Holds, WellFormed;
    forall q | q in next.clients ensures ClientOk(next, q, next.clients[q]) {
      if q != p {
        assert ClientOk(c, q, c.clients[q]);
        if c.clients[q].Writing? {
          assert c.lock == Some(q) && next.lock == c.lock;
        }
        OthersStayOk(c, next, q, c.clients[q]);
      }
    }
  }

  /** Every action of every client, torn reads and deaths included, keeps the invariant. */
  lemma ActKeeps(c: Change, p: nat, a: Action)
    requires ChangeInv(c) && CanAct(c, p, a)
    ensures ChangeInv(Act(c, p, a))
  {
    hide PointerOk, Decide, HoldsSome, Holds, UniquePaths;
    var next, doing := Act(c, p, a), Doing(c, p);
    if p in c.clients {
      assert ClientOk(c, p, doing);
    }
    match a
    case BeginStaging(kind, files) => LocalActionKeeps(c, p, next.clients[p], next);
    case ReadDependency(kind) => LocalActionKeeps(c, p, next.clients[p], next);
    case Stage => LocalActionKeeps(c, p, Quiet, next);
    case Check(version) => LocalActionKeeps(c, p, Checked(version), next);
    case Lock => LockKeeps(c, p, next);
    case WriteFile(file) => WriteKeeps(c, p, file, next);
    case Reveal => RevealKeeps(c, p, next);
    case Die => DieKeeps(c, p, next);
  }

  // ----- whole runs -----

  /** `older` is `newer` or one of the versions it was derived from. */
  ghost predicate IsAncestor(older: Version, newer: Version)
    decreases newer
  {
    older == newer || (newer.parent.Some? && IsAncestor(older, newer.parent.value))
  }

  lemma {:induction false} AncestorsAreShallower(older: Version, newer: Version)
    requires IsAncestor(older, newer)
    ensures Depth(older) <= Depth(newer)
    ensures Depth(older) == Depth(newer) ==> older == newer
    decreases newer
  {
    if older != newer {
      AncestorsAreShallower(older, newer.parent.value);
    }
  }

  lemma {:induction false} AncestorsChain(a: Version, b: Version, c: Version)
    requires IsAncestor(a, b) && IsAncestor(b, c)
    ensures IsAncestor(a, c)
    decreases c
  {
    if b != c {
      AncestorsChain(a, b, c.parent.value);
    }
  }

  function RevisionOf(current: Option<Pointer>): nat {
    if current == None then 0 else current.value.revision
  }

  /** How a later pointer relates to an earlier one. */
  ghost predicate Evolves(a: Option<Pointer>, b: Option<Pointer>) {
    && RevisionOf(a) <= RevisionOf(b)
    && (RevisionOf(a) == RevisionOf(b) ==> a == b)
    && Visible(a).Keys <= Visible(b).Keys
    && (forall kind <- Visible(a) :: IsAncestor(Visible(a)[kind], Visible(b)[kind]))
    && (forall kind <- Visible(a) :: HasVisibleDependent(a, kind) ==> Visible(b)[kind] == Visible(a)[kind])
  }

  lemma EvolvesOn(a: Option<Pointer>, b: Option<Pointer>, c: Option<Pointer>)
    requires Evolves(a, b) && Evolves(b, c)
    ensures Evolves(a, c)
  {
    forall kind | kind in Visible(a)
      ensures kind in Visible(c) && IsAncestor(Visible(a)[kind], Visible(c)[kind])
      ensures HasVisibleDependent(a, kind) ==> Visible(c)[kind] == Visible(a)[kind]
    {
      AncestorsChain(Visible(a)[kind], Visible(b)[kind], Visible(c)[kind]);
      if other :| other in Visible(a) && kind in Dependencies(other) {
        assert other in Visible(b);
        assert HasVisibleDependent(b, kind);
      }
    }
  }

  lemma PublicationEvolves(current: Option<Pointer>, v: Version)
    requires PointerOk(current) && WellFormed(v) && Decide(current, v).Publish?
    ensures Evolves(current, Some(Decide(current, v).successor))
    ensures RevisionOf(Some(Decide(current, v).successor)) == RevisionOf(current) + 1
  {
    hide Closed, HasVisibleDependent, Dependencies;
    PublicationKeepsClosed(current, v);
    var next := Decide(current, v).successor;
    forall kind | kind in Visible(current)
      ensures IsAncestor(Visible(current)[kind], next.artifacts[kind])
    {
      if kind == v.kind {
        assert v.parent == Some(Visible(current)[kind]);
        assert IsAncestor(v.parent.value, v.parent.value);
      }
    }
  }

  const EMPTY_CHANGE := Change(None, {}, map[], None, map[])

  lemma EmptyChangeIsOk()
    ensures ChangeInv(EMPTY_CHANGE)
  {
  }

  ghost predicate IsRun(changes: seq<Change>, acts: seq<(nat, Action)>) {
    && |changes| == |acts| + 1
    && ChangeInv(changes[0])
    && forall i :: 0 <= i < |acts| ==> Happens(changes, acts, i)
  }

  ghost predicate Happens(changes: seq<Change>, acts: seq<(nat, Action)>, i: nat)
    requires i < |acts| && |changes| == |acts| + 1
  {
    CanAct(changes[i], acts[i].0, acts[i].1) && changes[i + 1] == Act(changes[i], acts[i].0, acts[i].1)
  }

  lemma ActEvolves(c: Change, p: nat, a: Action)
    requires ChangeInv(c) && CanAct(c, p, a)
    ensures Evolves(c.current, Act(c, p, a).current)
    ensures RevisionOf(Act(c, p, a).current) <= RevisionOf(c.current) + 1
  {
    hide Decide, Evolves, Closed, HoldsSome, Holds, UniquePaths;
    StaysTheSame(c.current);
    if a.Reveal? {
      var doing := Doing(c, p);
      assert ClientOk(c, p, doing);
      PublicationEvolves(c.current, doing.version);
    }
  }

  lemma StaysTheSame(current: Option<Pointer>)
    ensures Evolves(current, current)
  {
  }

  lemma {:induction false} RunsKeepInv(changes: seq<Change>, acts: seq<(nat, Action)>, i: nat)
    requires IsRun(changes, acts) && i < |changes|
    ensures ChangeInv(changes[i])
  {
    hide ChangeInv, CanAct, Act;
    if i > 0 {
      RunsKeepInv(changes, acts, i - 1);
      assert Happens(changes, acts, i - 1);
      ActKeeps(changes[i - 1], acts[i - 1].0, acts[i - 1].1);
    }
  }

  /**
  Over any interleaving: the revision never falls and changes with the pointer;
  no artifact disappears; each artifact moves only from a version to one derived
  from it; and one with a visible dependent never moves again.
  */
  lemma {:induction false} RunsEvolve(changes: seq<Change>, acts: seq<(nat, Action)>, i: nat, j: nat)
    requires IsRun(changes, acts) && i <= j < |changes|
    ensures Evolves(changes[i].current, changes[j].current)
    decreases j
  {
    hide ChangeInv, CanAct, Act, Evolves;
    if i == j {
      StaysTheSame(changes[i].current);
    } else {
      RunsEvolve(changes, acts, i, j - 1);
      RunsKeepInv(changes, acts, j - 1);
      assert Happens(changes, acts, j - 1);
      ActEvolves(changes[j - 1], acts[j - 1].0, acts[j - 1].1);
      EvolvesOn(changes[i].current, changes[j - 1].current, changes[j].current);
    }
  }

  /** At every moment of every run what is visible is closed under dependencies, and its files are there, all and only. */
  lemma VisibleIsClosedAndComplete(changes: seq<Change>, acts: seq<(nat, Action)>, i: nat)
    requires IsRun(changes, acts) && i < |changes|
    ensures Closed(Visible(changes[i].current))
    ensures changes[i].current.Some? ==>
      Holds(Tree0(changes[i], changes[i].current.value), changes[i].current.value.artifacts)
  {
    hide Closed, Holds, HoldsSome, ClientOk, CanAct, Act;
    RunsKeepInv(changes, acts, i);
  }

  /** A version that was replaced never becomes visible again. */
  lemma VersionsNeverReturn(changes: seq<Change>, acts: seq<(nat, Action)>, i: nat, j: nat, k: nat, kind: ArtifactKind)
    requires IsRun(changes, acts) && i <= j <= k < |changes|
    requires kind in Visible(changes[i].current) && VisibleVersion(changes[j].current, kind) != VisibleVersion(changes[i].current, kind)
    ensures VisibleVersion(changes[k].current, kind) != VisibleVersion(changes[i].current, kind)
  {
    hide ChangeInv, CanAct, Act, HasVisibleDependent;
    RunsEvolve(changes, acts, i, j);
    RunsEvolve(changes, acts, j, k);
    AncestorsAreShallower(Visible(changes[i].current)[kind], Visible(changes[j].current)[kind]);
    AncestorsAreShallower(Visible(changes[j].current)[kind], Visible(changes[k].current)[kind]);
  }
}
