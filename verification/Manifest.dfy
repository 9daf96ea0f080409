/**
The change manifest: Git's diff against the baseline and the untracked files,
folded into one list in which a deletion and an untracked file with the same
content become a rename.
*/
module Manifests {
  import opened Outcomes

  datatype Blob = Blob(mode: string, object_: string)

  /** A worktree or a commit's tree. */
  type Tree = map<string, Blob>

  datatype Status = Added | Copied | Deleted | Modified | Renamed(score: nat) | TypeChanged

  /** One record of the raw diff. */
  datatype RawEntry = RawEntry(status: Status, oldPath: Option<string>, path: string, oldMode: string, newMode: string, oldObject: Option<string>)

  /** One record of the manifest. */
  datatype Entry = Entry(
    path: string, status: Status, oldPath: Option<string>, oldMode: string, newMode: string,
    oldObject: Option<string>, object_: Option<string>, untracked: bool)

  datatype ManifestError = ForbiddenPath | UnauthorizedUntracked | DuplicatePath

  // ----- what a list of records means -----

  predicate IsWrite(e: Entry) {
    e.status != Deleted && e.object_.Some?
  }

  predicate Removes(e: Entry, path: string) {
    || (e.status == Deleted && e.path == path)
    || (e.status.Renamed? && e.oldPath == Some(path))
  }

  /** What the records put at a path, if they put anything there. */
  function Written(entries: seq<Entry>, path: string): Option<Blob> {
    if entries == [] then None
    else
      var last := entries[|entries| - 1];
      if IsWrite(last) && last.path == path then Some(Blob(last.newMode, last.object_.value))
      else Written(entries[..|entries| - 1], path)
  }

  predicate IsRemoved(entries: seq<Entry>, path: string) {
    exists e <- entries :: Removes(e, path)
  }

  function Lookup(tree: Tree, path: string): Option<Blob> {
    if path in tree then Some(tree[path]) else None
  }

  /** What is at a path after removing and then writing everything the records say. */
  function After(entries: seq<Entry>, base: Tree, path: string): Option<Blob> {
    if Written(entries, path).Some? then Written(entries, path)
    else if IsRemoved(entries, path) then None
    else Lookup(base, path)
  }

  /** `tree` is the base with the records applied. */
  ghost predicate IsApplied(tree: Tree, entries: seq<Entry>, base: Tree) {
    forall path :: Lookup(tree, path) == After(entries, base, path)
  }

  predicate UniqueWrites(entries: seq<Entry>) {
    forall i, j :: 0 <= i < j < |entries| && IsWrite(entries[i]) && IsWrite(entries[j]) ==> entries[i].path != entries[j].path
  }

  predicate UniquePaths(entries: seq<Entry>) {
    forall i, j :: 0 <= i < j < |entries| ==> entries[i].path != entries[j].path
  }

  // ----- reading what was written -----

  lemma {:induction false} WrittenBy(entries: seq<Entry>, path: string)
    ensures Written(entries, path).Some? <==> exists e <- entries :: IsWrite(e) && e.path == path
    ensures UniqueWrites(entries) ==> forall e <- entries :: IsWrite(e) && e.path == path ==> Written(entries, path) == Some(Blob(e.newMode, e.object_.value))
  {
    if entries != [] {
      var before, last := entries[..|entries| - 1], entries[|entries| - 1];
      WrittenBy(before, path);
      assert forall e <- entries :: e == last || e in before;
      assert forall e <- before :: e in entries;
      if UniqueWrites(entries) {
        assert UniqueWrites(before);
        forall e | e in entries && IsWrite(e) && e.path == path
          ensures Written(entries, path) == Some(Blob(e.newMode, e.object_.value))
        {
          if e in before && IsWrite(last) {
            var i :| 0 <= i < |before| && before[i] == e;
            assert entries[i].path != entries[|entries| - 1].path;
          }
        }
      }
    }
  }

  lemma WrittenUpdate(entries: seq<Entry>, i: nat, e: Entry, path: string)
    requires i < |entries| && !IsWrite(entries[i]) && IsWrite(e)
    requires forall j :: 0 <= j < |entries| && IsWrite(entries[j]) ==> entries[j].path != e.path
    ensures Written(entries[i := e], path) == if path == e.path then Some(Blob(e.newMode, e.object_.value)) else Written(entries, path)
    decreases |entries|
  {
    var updated := entries[i := e];
    if i == |entries| - 1 {
      assert updated[..|entries| - 1] == entries[..|entries| - 1];
      WrittenBy(entries[..i], path);
    } else {
      assert updated[..|entries| - 1] == entries[..|entries| - 1][i := e];
      WrittenUpdate(entries[..|entries| - 1], i, e, path);
    }
  }

  /** Turning a deletion into a rename of the deleted path adds one write and changes nothing else. */
  lemma RenameMeans(entries: seq<Entry>, i: nat, e: Entry, base: Tree, path: string)
    requires i < |entries| && entries[i].status == Deleted
    requires IsWrite(e) && e.status.Renamed? && e.oldPath == Some(entries[i].path)
    requires forall j :: 0 <= j < |entries| && IsWrite(entries[j]) ==> entries[j].path != e.path
    ensures After(entries[i := e], base, path) ==
      if path == e.path then Some(Blob(e.newMode, e.object_.value)) else After(entries, base, path)
  {
    var updated := entries[i := e];
    WrittenUpdate(entries, i, e, path);
    assert IsRemoved(updated, path) <==> IsRemoved(entries, path) by {
      forall x | x in entries && Removes(x, path) ensures IsRemoved(updated, path) {
        var j :| 0 <= j < |entries| && entries[j] == x;
        assert j == i ==> Removes(updated[i], path);
        assert updated[j] in updated;
      }
      forall x | x in updated && Removes(x, path) ensures IsRemoved(entries, path) {
        var j :| 0 <= j < |updated| && updated[j] == x;
        assert j == i ==> Removes(entries[i], path);
        assert entries[j] in entries;
      }
    }
  }

  function AddedEntry(path: string, blob: Blob): Entry {
    Entry(path, Added, None, "000000", blob.mode, None, Some(blob.object_), true)
  }

  /** Appending an addition writes its path and changes nothing else. */
  lemma AdditionMeans(entries: seq<Entry>, added: string, blob: Blob, base: Tree, path: string)
    ensures After(entries + [AddedEntry(added, blob)], base, path) == if path == added then Some(blob) else After(entries, base, path)
  {
    var longer := entries + [AddedEntry(added, blob)];
    assert longer[..|entries|] == entries;
    assert IsRemoved(longer, path) <==> IsRemoved(entries, path) by {
      assert forall e <- entries :: e in longer;
      assert forall e <- longer :: e in entries || e == AddedEntry(added, blob);
    }
  }

  // ----- folding -----

  function EntryOf(raw: RawEntry, worktree: Tree): Entry
    requires raw.status != Deleted ==> raw.path in worktree
  {
    Entry(raw.path, raw.status, raw.oldPath, raw.oldMode, raw.newMode, raw.oldObject,
          if raw.status == Deleted then None else Some(worktree[raw.path].object_), false)
  }

  predicate InWorktree(raw: seq<RawEntry>, worktree: Tree) {
    forall i :: 0 <= i < |raw| && raw[i].status != Deleted ==> raw[i].path in worktree
  }

  function Diffed(raw: seq<RawEntry>, worktree: Tree): (entries: seq<Entry>)
    requires InWorktree(raw, worktree)
    ensures |entries| == |raw| && forall i :: 0 <= i < |raw| ==> entries[i] == EntryOf(raw[i], worktree)
  {
    seq(|raw|, i requires 0 <= i < |raw| => EntryOf(raw[i], worktree))
  }

  function RenameOf(deleted: Entry, path: string, blob: Blob): Entry {
    Entry(path, Renamed(100), Some(deleted.path), deleted.oldMode, blob.mode, deleted.oldObject, Some(blob.object_), false)
  }

  /** The deletion that an object's name leads to: the last one listed. */
  function LastDeletion(entries: seq<Entry>, object_: string): Option<nat> {
    if entries == [] then None
    else
      var last := entries[|entries| - 1];
      if last.status == Deleted && last.oldObject == Some(object_) then Some(|entries| - 1)
      else LastDeletion(entries[..|entries| - 1], object_)
  }

  lemma {:induction false} LastDeletionIs(entries: seq<Entry>, object_: string)
    ensures match LastDeletion(entries, object_)
      case Some(i) => i < |entries| && entries[i].status == Deleted && entries[i].oldObject == Some(object_)
      case None => forall e <- entries :: e.status == Deleted ==> e.oldObject != Some(object_)
  {
    if entries != [] {
      LastDeletionIs(entries[..|entries| - 1], object_);
      assert forall e <- entries :: e == entries[|entries| - 1] || e in entries[..|entries| - 1];
    }
  }

  predicate HasObject(untracked: seq<string>, worktree: Tree, object_: string)
    requires forall path <- untracked :: path in worktree
  {
    exists path <- untracked :: worktree[path].object_ == object_
  }

  /** The deletion is turned into a rename: it is the last one of its object, and an untracked file has that object. */
  predicate IsFolded(entries: seq<Entry>, untracked: seq<string>, worktree: Tree, i: nat)
    requires i < |entries| && forall path <- untracked :: path in worktree
  {
    && entries[i].status == Deleted
    && entries[i].oldObject.Some?
    && LastDeletion(entries, entries[i].oldObject.value) == Some(i)
    && HasObject(untracked, worktree, entries[i].oldObject.value)
  }

  /** No untracked file sits at the path of a deletion that stays a deletion. */
  predicate NothingDropped(entries: seq<Entry>, untracked: seq<string>, worktree: Tree)
    requires forall path <- untracked :: path in worktree
  {
    forall i :: 0 <= i < |entries| && entries[i].status == Deleted && entries[i].path in untracked ==>
      IsFolded(entries, untracked, worktree, i)
  }

  /** The manifest means the diff and every untracked file. */
  ghost predicate IsFaithful(manifest: seq<Entry>, diffed: seq<Entry>, untracked: seq<string>, worktree: Tree, base: Tree)
    requires forall path <- untracked :: path in worktree
  {
    forall path :: After(manifest, base, path) ==
      if path in untracked then Some(worktree[path]) else After(diffed, base, path)
  }

  /** How far the fold has come, after some of the untracked files. */
  ghost predicate FoldOk(diffed: seq<Entry>, files: seq<Entry>, seen: seq<string>, unmatched: seq<string>, deleted: map<string, nat>, worktree: Tree)
    requires forall path <- seen :: path in worktree
  {
    && |files| == |diffed|
    && (forall i :: 0 <= i < |files| ==>
          if IsFolded(diffed, seen, worktree, i)
          then exists path <- seen :: path !in unmatched && files[i] == RenameOf(diffed[i], path, worktree[path])
          else files[i] == diffed[i])
    && (forall path <- unmatched :: path in seen)
    && (forall path <- seen :: path in unmatched || exists i :: 0 <= i < |files| && IsFolded(diffed, seen, worktree, i) && files[i].path == path)
    && (forall object_ :: object_ in deleted <==> LastDeletion(diffed, object_).Some? && !HasObject(seen, worktree, object_))
    && (forall object_ <- deleted :: LastDeletion(diffed, object_) == Some(deleted[object_]))
  }

  /** Files seen so far, folded or kept aside, mean what the diff and those files mean. */
  ghost predicate MeansSoFar(diffed: seq<Entry>, files: seq<Entry>, seen: seq<string>, unmatched: seq<string>, worktree: Tree)
    requires forall path <- seen + unmatched :: path in worktree
  {
    forall base: Tree, path: string ::
      (if path in unmatched then Some(worktree[path]) else After(files, base, path)) ==
      (if path in seen then Some(worktree[path]) else After(diffed, base, path))
  }

  lemma HasObjectSnoc(seen: seq<string>, path: string, worktree: Tree, object_: string)
    requires path in worktree && forall other <- seen :: other in worktree
    ensures HasObject(seen + [path], worktree, object_) <==> HasObject(seen, worktree, object_) || worktree[path].object_ == object_
  {
    assert forall other <- seen :: other in seen + [path];
    assert path in seen + [path];
  }

  lemma FoldStarts(diffed: seq<Entry>, deleted: map<string, nat>, worktree: Tree)
    requires forall object_ :: object_ in deleted <==> LastDeletion(diffed, object_).Some?
    requires forall object_ <- deleted :: LastDeletion(diffed, object_) == Some(deleted[object_])
    ensures FoldOk(diffed, diffed, [], [], deleted, worktree) && MeansSoFar(diffed, diffed, [], [], worktree)
  {
  }

  /** A matching deletion becomes the rename of its path to this file, and is not offered again. */
  lemma FoldMatches(diffed: seq<Entry>, files: seq<Entry>, seen: seq<string>, unmatched: seq<string>, deleted: map<string, nat>, worktree: Tree, path: string)
    requires path in worktree && path !in seen && forall other <- seen :: other in worktree
    requires FoldOk(diffed, files, seen, unmatched, deleted, worktree) && worktree[path].object_ in deleted
    ensures var i := deleted[worktree[path].object_];
      && i < |files| && files[i] == diffed[i] && diffed[i].status == Deleted
      && FoldOk(diffed, files[i := RenameOf(diffed[i], path, worktree[path])], seen + [path], unmatched, deleted - {worktree[path].object_}, worktree)
  {
    hide LastDeletion, HasObject;
    var object_ := worktree[path].object_;
    var i := deleted[object_];
    LastDeletionIs(diffed, object_);
    forall other: string ensures HasObject(seen + [path], worktree, other) <==> HasObject(seen, worktree, other) || other == object_ {
      HasObjectSnoc(seen, path, worktree, other);
    }
    var updated := files[i := RenameOf(diffed[i], path, worktree[path])];
    forall j | 0 <= j < |diffed|
      ensures IsFolded(diffed, seen + [path], worktree, j) <==> IsFolded(diffed, seen, worktree, j) || j == i
    {
    }
    forall j | 0 <= j < |updated|
      ensures if IsFolded(diffed, seen + [path], worktree, j)
              then exists other <- seen + [path] :: other !in unmatched && updated[j] == RenameOf(diffed[j], other, worktree[other])
              else updated[j] == diffed[j]
    {
      if j == i {
        assert path in seen + [path];
      } else if IsFolded(diffed, seen, worktree, j) {
        var other :| other in seen && other !in unmatched && files[j] == RenameOf(diffed[j], other, worktree[other]);
        assert other in seen + [path];
      }
    }
    forall other | other in seen + [path]
      ensures other in unmatched || exists j :: 0 <= j < |updated| && IsFolded(diffed, seen + [path], worktree, j) && updated[j].path == other
    {
      if other == path {
        assert updated[i].path == path;
      } else if other !in unmatched {
        var j :| 0 <= j < |files| && IsFolded(diffed, seen, worktree, j) && files[j].path == other;
        assert updated[j].path == other;
      }
    }
  }

  /** Without a matching deletion the file is kept aside. */
  lemma FoldKeeps(diffed: seq<Entry>, files: seq<Entry>, seen: seq<string>, unmatched: seq<string>, deleted: map<string, nat>, worktree: Tree, path: string)
    requires path in worktree && path !in seen && forall other <- seen :: other in worktree
    requires FoldOk(diffed, files, seen, unmatched, deleted, worktree) && worktree[path].object_ !in deleted
    ensures FoldOk(diffed, files, seen + [path], unmatched + [path], deleted, worktree)
  {
    hide LastDeletion, HasObject;
    var object_ := worktree[path].object_;
    forall other: string ensures HasObject(seen + [path], worktree, other) <==> HasObject(seen, worktree, other) || other == object_ {
      HasObjectSnoc(seen, path, worktree, other);
    }
    forall j | 0 <= j < |diffed|
      ensures IsFolded(diffed, seen + [path], worktree, j) <==> IsFolded(diffed, seen, worktree, j)
    {
    }
    forall j | 0 <= j < |files| && IsFolded(diffed, seen, worktree, j)
      ensures exists other <- seen + [path] :: other !in unmatched + [path] && files[j] == RenameOf(diffed[j], other, worktree[other])
    {
      var other :| other in seen && other !in unmatched && files[j] == RenameOf(diffed[j], other, worktree[other]);
      assert other in seen + [path] && other !in unmatched + [path];
    }
    forall other | other in seen + [path]
      ensures other in unmatched + [path] || exists j :: 0 <= j < |files| && IsFolded(diffed, seen + [path], worktree, j) && files[j].path == other
    {
      if other != path && other !in unmatched {
        var j :| 0 <= j < |files| && IsFolded(diffed, seen, worktree, j) && files[j].path == other;
        assert IsFolded(diffed, seen + [path], worktree, j);
      }
    }
  }

  /** Git never lists a path of its index as untracked. */
  predicate AreUntracked(diffed: seq<Entry>, untracked: seq<string>) {
    forall i :: 0 <= i < |diffed| && diffed[i].status != Deleted ==> diffed[i].path !in untracked
  }

  lemma MeaningMatches(diffed: seq<Entry>, files: seq<Entry>, seen: seq<string>, unmatched: seq<string>, deleted: map<string, nat>, worktree: Tree, path: string)
    requires path in worktree && path !in seen && forall other <- seen + unmatched :: other in worktree
    requires FoldOk(diffed, files, seen, unmatched, deleted, worktree) && MeansSoFar(diffed, files, seen, unmatched, worktree)
    requires worktree[path].object_ in deleted && AreUntracked(diffed, [path])
    requires var i := deleted[worktree[path].object_]; i < |files| && files[i] == diffed[i] && diffed[i].status == Deleted
    ensures var i := deleted[worktree[path].object_];
      MeansSoFar(diffed, files[i := RenameOf(diffed[i], path, worktree[path])], seen + [path], unmatched, worktree)
  {
    hide After, LastDeletion, HasObject;
    var i := deleted[worktree[path].object_];
    var e := RenameOf(diffed[i], path, worktree[path]);
    forall j | 0 <= j < |files| && IsWrite(files[j]) ensures files[j].path != e.path {
      assert path in [path];
    }
    forall base: Tree, at: string
      ensures (if at in unmatched then Some(worktree[at]) else After(files[i := e], base, at)) ==
              (if at in seen + [path] then Some(worktree[at]) else After(diffed, base, at))
    {
      RenameMeans(files, i, e, base, at);
    }
  }

  lemma MeaningKeeps(diffed: seq<Entry>, files: seq<Entry>, seen: seq<string>, unmatched: seq<string>, worktree: Tree, path: string)
    requires path in worktree && forall other <- seen + unmatched :: other in worktree
    requires MeansSoFar(diffed, files, seen, unmatched, worktree)
    ensures MeansSoFar(diffed, files, seen + [path], unmatched + [path], worktree)
  {
    hide After;
    forall base: Tree, at: string
      ensures (if at in unmatched + [path] then Some(worktree[at]) else After(files, base, at)) ==
              (if at in seen + [path] then Some(worktree[at]) else After(diffed, base, at))
    {
      assert (if at in unmatched then Some(worktree[at]) else After(files, base, at)) ==
             (if at in seen then Some(worktree[at]) else After(diffed, base, at));
    }
  }

  // ----- the files kept aside -----

  predicate HasPath(entries: seq<Entry>, path: string) {
    exists e <- entries :: e.path == path
  }

  /** The files kept aside are appended, except those whose path the folded list has already. */
  ghost predicate IsCompleted(files: seq<Entry>, unmatched: seq<string>, manifest: seq<Entry>, worktree: Tree)
    requires forall path <- unmatched :: path in worktree
  {
    && files <= manifest
    && (forall base: Tree, path: string :: After(manifest, base, path) ==
          if path in unmatched && !HasPath(files, path) then Some(worktree[path]) else After(files, base, path))
  }

  lemma CompletionStarts(files: seq<Entry>, worktree: Tree)
    ensures IsCompleted(files, [], files, worktree)
  {
  }

  lemma CompletionAppends(files: seq<Entry>, unmatched: seq<string>, manifest: seq<Entry>, worktree: Tree, path: string)
    requires path in worktree && forall other <- unmatched :: other in worktree
    requires IsCompleted(files, unmatched, manifest, worktree) && !HasPath(files, path)
    ensures IsCompleted(files, unmatched + [path], manifest + [AddedEntry(path, worktree[path])], worktree)
  {
    hide After;
    forall base: Tree, at: string
      ensures After(manifest + [AddedEntry(path, worktree[path])], base, at) ==
        if at in unmatched + [path] && !HasPath(files, at) then Some(worktree[at]) else After(files, base, at)
    {
      AdditionMeans(manifest, path, worktree[path], base, at);
    }
  }

  lemma CompletionSkips(files: seq<Entry>, unmatched: seq<string>, manifest: seq<Entry>, worktree: Tree, path: string)
    requires path in worktree && forall other <- unmatched :: other in worktree
    requires IsCompleted(files, unmatched, manifest, worktree) && HasPath(files, path)
    ensures IsCompleted(files, unmatched + [path], manifest, worktree)
  {
    hide After;
    forall base: Tree, at: string
      ensures After(manifest, base, at) ==
        if at in unmatched + [path] && !HasPath(files, at) then Some(worktree[at]) else After(files, base, at)
    {
    }
  }

  // ----- exactly when the manifest is faithful -----

  lemma NothingSkipped(diffed: seq<Entry>, files: seq<Entry>, untracked: seq<string>, unmatched: seq<string>, deleted: map<string, nat>, worktree: Tree, path: string)
    requires forall other <- untracked :: other in worktree
    requires FoldOk(diffed, files, untracked, unmatched, deleted, worktree) && AreUntracked(diffed, untracked)
    requires NothingDropped(diffed, untracked, worktree) && path in unmatched
    ensures !HasPath(files, path)
  {
    hide IsFolded;
    forall i | 0 <= i < |files| ensures files[i].path != path {
      if IsFolded(diffed, untracked, worktree, i) {
        var other :| other in untracked && other !in unmatched && files[i] == RenameOf(diffed[i], other, worktree[other]);
      }
    }
  }

  lemma DroppedIsSkipped(diffed: seq<Entry>, files: seq<Entry>, untracked: seq<string>, unmatched: seq<string>, deleted: map<string, nat>, worktree: Tree, i: nat)
    requires forall other <- untracked :: other in worktree
    requires FoldOk(diffed, files, untracked, unmatched, deleted, worktree) && UniquePaths(files)
    requires i < |diffed| && diffed[i].status == Deleted && diffed[i].path in untracked && !IsFolded(diffed, untracked, worktree, i)
    ensures diffed[i].path in unmatched && HasPath(files, diffed[i].path)
    ensures forall base :: After(files, base, diffed[i].path) == None
  {
    hide IsFolded;
    var path := diffed[i].path;
    assert files[i] == diffed[i];
    forall j | 0 <= j < |files| && IsFolded(diffed, untracked, worktree, j) ensures files[j].path != path {
      assert i != j && files[i].path != files[j].path;
    }
    WrittenBy(files, path);
    forall e | e in files && e.path == path ensures e == files[i] {
      var j :| 0 <= j < |files| && files[j] == e;
    }
    assert Removes(files[i], path) && files[i] in files;
  }

  /**
  The manifest means the diff and all untracked files exactly when no untracked
  file sits at the path of a deletion that stays a deletion. Such a file would
  be left out, and the deletion would win.
  */
  lemma FaithfulIffNothingDropped(
    diffed: seq<Entry>, files: seq<Entry>, untracked: seq<string>, unmatched: seq<string>, deleted: map<string, nat>,
    manifest: seq<Entry>, worktree: Tree, base: Tree)
    requires forall path <- untracked :: path in worktree
    requires AreUntracked(diffed, untracked) && UniquePaths(manifest)
    requires FoldOk(diffed, files, untracked, unmatched, deleted, worktree)
    requires MeansSoFar(diffed, files, untracked, unmatched, worktree)
    requires IsCompleted(files, unmatched, manifest, worktree)
    ensures IsFaithful(manifest, diffed, untracked, worktree, base) <==> NothingDropped(diffed, untracked, worktree)
  {
    hide After, IsFolded;
    if NothingDropped(diffed, untracked, worktree) {
      forall path: string
        ensures After(manifest, base, path) == if path in untracked then Some(worktree[path]) else After(diffed, base, path)
      {
        if path in unmatched {
          NothingSkipped(diffed, files, untracked, unmatched, deleted, worktree, path);
        }
        assert (if path in unmatched then Some(worktree[path]) else After(files, base, path)) ==
               (if path in untracked then Some(worktree[path]) else After(diffed, base, path));
      }
    } else {
      var i :| 0 <= i < |diffed| && diffed[i].status == Deleted && diffed[i].path in untracked && !IsFolded(diffed, untracked, worktree, i);
      assert UniquePaths(files) by {
        assert forall j :: 0 <= j < |files| ==> files[j] == manifest[j];
      }
      DroppedIsSkipped(diffed, files, untracked, unmatched, deleted, worktree, i);
      assert After(manifest, base, diffed[i].path) == None;
    }
  }

  /** The only record at the path, and it writes exactly this blob. */
  predicate IsItsRecord(manifest: seq<Entry>, i: nat, path: string, blob: Blob)
    requires i < |manifest|
  {
    && manifest[i].path == path && IsWrite(manifest[i]) && Blob(manifest[i].newMode, manifest[i].object_.value) == blob
    && forall j :: 0 <= j < |manifest| && j != i ==> manifest[j].path != path
  }

  /** In a faithful manifest every untracked file has exactly its own record. */
  lemma FaithfulHasEveryFile(manifest: seq<Entry>, diffed: seq<Entry>, untracked: seq<string>, worktree: Tree, path: string)
    requires forall other <- untracked :: other in worktree
    requires IsFaithful(manifest, diffed, untracked, worktree, map[]) && UniquePaths(manifest) && path in untracked
    ensures exists i :: 0 <= i < |manifest| && IsItsRecord(manifest, i, path, worktree[path])
  {
    assert After(manifest, map[], path) == Some(worktree[path]);
    WrittenBy(manifest, path);
    var e :| e in manifest && IsWrite(e) && e.path == path;
    var i :| 0 <= i < |manifest| && manifest[i] == e;
    assert UniqueWrites(manifest);
    assert IsItsRecord(manifest, i, path, worktree[path]);
  }

  /** The case does occur: a tracked file is removed from the index while another file stays at its path. */
  lemma AFileCanBeDropped()
    ensures var raw := [RawEntry(Deleted, None, "a", "100644", "000000", Some("1"))];
      var worktree: Tree := map["a" := Blob("100644", "2")];
      && AreUntracked(Diffed(raw, worktree), ["a"])
      && !NothingDropped(Diffed(raw, worktree), ["a"], worktree)
  {
    var raw := [RawEntry(Deleted, None, "a", "100644", "000000", Some("1"))];
    var worktree: Tree := map["a" := Blob("100644", "2")];
    var diffed := Diffed(raw, worktree);
    assert diffed[0].path in ["a"] && !IsFolded(diffed, ["a"], worktree, 0);
  }

  // ----- collecting -----

  /** The untracked file becomes a rename: an object of its was deleted, and no earlier file has taken it. */
  predicate TakesDeletion(diffed: seq<Entry>, seen: seq<string>, worktree: Tree, path: string)
    requires path in worktree && forall other <- seen :: other in worktree
  {
    LastDeletion(diffed, worktree[path].object_).Some? && !HasObject(seen, worktree, worktree[path].object_)
  }

  /** The diff with each matched deletion replaced by its rename, in place. */
  function Folded(diffed: seq<Entry>, untracked: seq<string>, worktree: Tree): (files: seq<Entry>)
    requires forall path <- untracked :: path in worktree
    ensures |files| == |diffed|
  {
    if untracked == [] then diffed
    else
      var before, path := untracked[..|untracked| - 1], untracked[|untracked| - 1];
      var files := Folded(diffed, before, worktree);
      if TakesDeletion(diffed, before, worktree, path) then
        LastDeletionIs(diffed, worktree[path].object_);
        var i := LastDeletion(diffed, worktree[path].object_).value;
        files[i := RenameOf(diffed[i], path, worktree[path])]
      else files
  }

  /** The untracked files that are no renames, in order. */
  function Unmatched(diffed: seq<Entry>, untracked: seq<string>, worktree: Tree): (rest: seq<string>)
    requires forall path <- untracked :: path in worktree
    ensures forall path <- rest :: path in untracked
  {
    if untracked == [] then []
    else
      var before, path := untracked[..|untracked| - 1], untracked[|untracked| - 1];
      Unmatched(diffed, before, worktree) + if TakesDeletion(diffed, before, worktree, path) then [] else [path]
  }

  /** The files that are no renames, added after the rest unless their path is there already. */
  function Completed(files: seq<Entry>, unmatched: seq<string>, worktree: Tree): seq<Entry>
    requires forall path <- unmatched :: path in worktree
  {
    if unmatched == [] then files
    else
      var before, path := unmatched[..|unmatched| - 1], unmatched[|unmatched| - 1];
      Completed(files, before, worktree) + if HasPath(files, path) then [] else [AddedEntry(path, worktree[path])]
  }

  /** The manifest of these answers of Git, whether or not policy accepts it. */
  function Collected(raw: seq<RawEntry>, untracked: seq<string>, worktree: Tree): seq<Entry>
    requires InWorktree(raw, worktree) && forall path <- untracked :: path in worktree
  {
    var diffed := Diffed(raw, worktree);
    Completed(Folded(diffed, untracked, worktree), Unmatched(diffed, untracked, worktree), worktree)
  }

  lemma FoldedEmpty(diffed: seq<Entry>, worktree: Tree)
    ensures Folded(diffed, [], worktree) == diffed && Unmatched(diffed, [], worktree) == []
  {
  }

  lemma FoldedSnoc(diffed: seq<Entry>, seen: seq<string>, worktree: Tree, path: string)
    requires path in worktree && forall other <- seen :: other in worktree
    ensures TakesDeletion(diffed, seen, worktree, path) ==>
      var i := LastDeletion(diffed, worktree[path].object_).value;
      && i < |diffed|
      && Folded(diffed, seen + [path], worktree) == Folded(diffed, seen, worktree)[i := RenameOf(diffed[i], path, worktree[path])]
      && Unmatched(diffed, seen + [path], worktree) == Unmatched(diffed, seen, worktree)
    ensures !TakesDeletion(diffed, seen, worktree, path) ==>
      && Folded(diffed, seen + [path], worktree) == Folded(diffed, seen, worktree)
      && Unmatched(diffed, seen + [path], worktree) == Unmatched(diffed, seen, worktree) + [path]
  {
    hide HasObject, LastDeletion;
    LastDeletionIs(diffed, worktree[path].object_);
    assert (seen + [path])[..|seen|] == seen;
  }

  /** Every path of the diff and every untracked path is allowed by policy. */
  predicate AllAllowed(raw: seq<RawEntry>, untracked: seq<string>, forbidden: set<string>) {
    && (forall r <- raw :: r.path !in forbidden && (r.oldPath.Some? ==> r.oldPath.value !in forbidden))
    && (forall path <- untracked :: path !in forbidden)
  }

  method ReadDiff(raw: seq<RawEntry>, worktree: Tree, forbidden: set<string>) returns (files: Option<seq<Entry>>)
    requires InWorktree(raw, worktree)
    ensures files.Some? <==> AllAllowed(raw, [], forbidden)
    ensures files.Some? ==> files.value == Diffed(raw, worktree)
  {
    var entries: seq<Entry> := [];
    var i := 0;
    while i < |raw|
      invariant 0 <= i <= |raw| && |entries| == i
      invariant forall j :: 0 <= j < i ==> entries[j] == EntryOf(raw[j], worktree)
      invariant AllAllowed(raw[..i], [], forbidden)
    {
      assert raw[i] in raw;
      if raw[i].path in forbidden || (raw[i].oldPath.Some? && raw[i].oldPath.value in forbidden) {
        return None;
      }
      assert raw[..i + 1] == raw[..i] + [raw[i]];
      entries := entries + [EntryOf(raw[i], worktree)];
      i := i + 1;
    }
    assert raw[..i] == raw && entries == Diffed(raw, worktree);
    files := Some(entries);
  }

  /** The dictionary from a deleted object to the place of its deletion; a later deletion replaces an earlier one. */
  method DeletedByObject(files: seq<Entry>) returns (deleted: map<string, nat>)
    ensures forall object_ :: object_ in deleted <==> LastDeletion(files, object_).Some?
    ensures forall object_ <- deleted :: LastDeletion(files, object_) == Some(deleted[object_])
  {
    deleted := map[];
    var i := 0;
    while i < |files|
      invariant 0 <= i <= |files|
      invariant forall object_ :: object_ in deleted <==> LastDeletion(files[..i], object_).Some?
      invariant forall object_ <- deleted :: LastDeletion(files[..i], object_) == Some(deleted[object_])
    {
      assert files[..i + 1][..i] == files[..i];
      if files[i].status == Deleted && files[i].oldObject.Some? {
        deleted := deleted[files[i].oldObject.value := i];
      }
      i := i + 1;
    }
    assert files[..i] == files;
  }

  /** Every untracked file that is no rename was named beforehand. */
  predicate AllAuthorized(raw: seq<RawEntry>, untracked: seq<string>, worktree: Tree, authorized: set<string>)
    requires InWorktree(raw, worktree) && forall path <- untracked :: path in worktree
  {
    forall path <- Unmatched(Diffed(raw, worktree), untracked, worktree) :: path in authorized
  }

  /**
  Collect the manifest. It succeeds only when every path is allowed, every
  untracked file that is no rename is authorized, and no path occurs twice; and
  then it means the diff and all untracked files exactly when nothing is dropped.
  */
  method CollectManifestInputs(raw: seq<RawEntry>, untracked: seq<string>, worktree: Tree, authorized: set<string>, forbidden: set<string>)
    returns (r: Result<seq<Entry>, ManifestError>)
    requires InWorktree(raw, worktree)
    requires forall path <- untracked :: path in worktree
    requires forall i, j :: 0 <= i < j < |untracked| ==> untracked[i] != untracked[j]
    requires AreUntracked(Diffed(raw, worktree), untracked)
    ensures r == Err(ForbiddenPath) <==> !AllAllowed(raw, untracked, forbidden)
    ensures r == Err(UnauthorizedUntracked) <==> AllAllowed(raw, untracked, forbidden) && !AllAuthorized(raw, untracked, worktree, authorized)
    ensures r.Ok? <==>
      && AllAllowed(raw, untracked, forbidden) && AllAuthorized(raw, untracked, worktree, authorized)
      && UniquePaths(Collected(raw, untracked, worktree))
    ensures r.Ok? ==> r.value == Collected(raw, untracked, worktree)
    ensures r.Ok? ==> forall base ::
      IsFaithful(r.value, Diffed(raw, worktree), untracked, worktree, base) <==> NothingDropped(Diffed(raw, worktree), untracked, worktree)
  {
    hide IsFaithful, NothingDropped, FoldOk, MeansSoFar, IsCompleted, IsFolded, AllAllowed, UniquePaths, Folded, Unmatched, Completed, TakesDeletion, LastDeletion;
    AllowedParts(raw, untracked, forbidden);
    var read := ReadDiff(raw, worktree, forbidden);
    if read == None {
      return Err(ForbiddenPath);
    }
    var diffed := read.value;
    var files := diffed;
    var deleted := DeletedByObject(files);
    FoldStarts(diffed, deleted, worktree);
    FoldedEmpty(diffed, worktree);
    assert untracked[..0] == [];
    var unmatched: seq<string> := [];
    var i := 0;
    while i < |untracked|
      invariant 0 <= i <= |untracked|
      invariant forall path <- untracked[..i] :: path !in forbidden
      invariant forall path <- unmatched :: path in untracked
      invariant FoldOk(diffed, files, untracked[..i], unmatched, deleted, worktree)
      invariant MeansSoFar(diffed, files, untracked[..i], unmatched, worktree)
      invariant files == Folded(diffed, untracked[..i], worktree) && unmatched == Unmatched(diffed, untracked[..i], worktree)
    {
      var path := untracked[i];
      if path in forbidden {
        return Err(ForbiddenPath);
      }
      assert untracked[..i + 1] == untracked[..i] + [path];
      assert path !in untracked[..i];
      var object_ := worktree[path].object_;
      TakesIffOffered(diffed, files, untracked[..i], unmatched, deleted, worktree, path);
      FoldedSnoc(diffed, untracked[..i], worktree, path);
      if object_ in deleted {
        FoldMatches(diffed, files, untracked[..i], unmatched, deleted, worktree, path);
        MeaningMatches(diffed, files, untracked[..i], unmatched, deleted, worktree, path);
        var index := deleted[object_];
        files := files[index := RenameOf(files[index], path, worktree[path])];
        deleted := deleted - {object_};
      } else {
        FoldKeeps(diffed, files, untracked[..i], unmatched, deleted, worktree, path);
        MeaningKeeps(diffed, files, untracked[..i], unmatched, worktree, path);
        unmatched := unmatched + [path];
      }
      i := i + 1;
    }
    assert untracked[..i] == untracked;
    var manifest, complete := AppendUnmatched(files, unmatched, worktree, authorized);
    if !complete {
      return Err(UnauthorizedUntracked);
    }
    if !UniquePaths(manifest) {
      return Err(DuplicatePath);
    }
    forall base {
      FaithfulIffNothingDropped(diffed, files, untracked, unmatched, deleted, manifest, worktree, base);
    }
    r := Ok(manifest);
  }

  lemma TakesIffOffered(
    diffed: seq<Entry>, files: seq<Entry>, seen: seq<string>, unmatched: seq<string>, deleted: map<string, nat>, worktree: Tree, path: string)
    requires path in worktree && forall other <- seen :: other in worktree
    requires FoldOk(diffed, files, seen, unmatched, deleted, worktree)
    ensures TakesDeletion(diffed, seen, worktree, path) <==> worktree[path].object_ in deleted
    ensures worktree[path].object_ in deleted ==> LastDeletion(diffed, worktree[path].object_) == Some(deleted[worktree[path].object_])
  {
    hide LastDeletion, HasObject, IsFolded;
  }

  method AppendUnmatched(files: seq<Entry>, unmatched: seq<string>, worktree: Tree, authorized: set<string>)
    returns (manifest: seq<Entry>, complete: bool)
    requires forall path <- unmatched :: path in worktree
    ensures complete ==> IsCompleted(files, unmatched, manifest, worktree) && manifest == Completed(files, unmatched, worktree)
    ensures complete <==> forall path <- unmatched :: path in authorized
  {
    hide IsCompleted;
    manifest := files;
    CompletionStarts(files, worktree);
    var i := 0;
    while i < |unmatched|
      invariant 0 <= i <= |unmatched|
      invariant forall path <- unmatched[..i] :: path in authorized
      invariant IsCompleted(files, unmatched[..i], manifest, worktree) && manifest == Completed(files, unmatched[..i], worktree)
    {
      var path := unmatched[i];
      assert unmatched[..i + 1] == unmatched[..i] + [path] && unmatched[..i + 1][..i] == unmatched[..i];
      if path !in authorized {
        return manifest, false;
      }
      if HasPath(files, path) {
        CompletionSkips(files, unmatched[..i], manifest, worktree, path);
      } else {
        CompletionAppends(files, unmatched[..i], manifest, worktree, path);
        manifest := manifest + [AddedEntry(path, worktree[path])];
      }
      i := i + 1;
    }
    assert unmatched[..i] == unmatched;
    complete := true;
  }

  lemma AllowedParts(raw: seq<RawEntry>, untracked: seq<string>, forbidden: set<string>)
    ensures AllAllowed(raw, untracked, forbidden) <==> AllAllowed(raw, [], forbidden) && forall path <- untracked :: path !in forbidden
  {
  }
}
