/** Mirroring the shell's temporary workspace back into the real one
    (`syncWorkspaceChanges`), on trees of directories and plain files. A path is
    the list of its names below the root; the root itself is not an entry. */
module SyncBack {
  import opened Common

  type Byte = b: nat | b < 256

  type Path = seq<string>

  datatype Entry = Dir | File(bytes: seq<Byte>)

  type Tree = map<Path, Entry>

  datatype SyncError = NotADirectory(path: Path) | IsADirectory(path: Path)

  function Parent(p: Path): Path
    requires p != []
  {
    p[..|p| - 1]
  }

  /** Every entry's parent is the root or a directory of the tree. */
  ghost predicate IsTree(t: Tree) {
    && [] !in t
    && (forall p :: p in t && |p| > 1 ==> Parent(p) in t && t[Parent(p)] == Dir)
  }

  lemma {:induction false} AncestorsAreDirs(t: Tree, p: Path, n: nat)
    requires IsTree(t) && p in t && 0 < n < |p|
    ensures p[..n] in t && t[p[..n]] == Dir
    decreases |p|
  {
    if n < |p| - 1 {
      AncestorsAreDirs(t, Parent(p), n);
      assert Parent(p)[..n] == p[..n];
    }
  }

  ghost predicate HasParent(t: Tree, p: Path)
    requires p != []
  {
    |p| > 1 ==> Parent(p) in t && t[Parent(p)] == Dir
  }

  /** The path or one of its ancestors is a file. */
  ghost predicate FileOnPath(t: Tree, p: Path) {
    p != [] && ((p in t && t[p].File?) || FileOnPath(t, Parent(p)))
  }

  /** The tree once p and all its ancestors are directories. */
  ghost function WithDirs(t: Tree, p: Path): Tree {
    if p == [] then t else WithDirs(t, Parent(p))[p := Dir]
  }

  lemma {:induction false} WithDirsFacts(t: Tree, p: Path)
    requires IsTree(t)
    ensures forall q :: q in t && q !in WithDirs(map[], p) ==> q in WithDirs(t, p) && WithDirs(t, p)[q] == t[q]
    ensures p != [] && p in t && t[p] == Dir ==> WithDirs(t, p) == t
    ensures !FileOnPath(t, p) ==> IsTree(WithDirs(t, p)) && (p != [] ==> p in WithDirs(t, p) && WithDirs(t, p)[p] == Dir)
    decreases |p|
  {
    if p != [] {
      WithDirsFacts(t, Parent(p));
      if p in t && t[p] == Dir && |p| == 1 {
        assert WithDirs(t, Parent(p)) == t;
      }
    }
  }

  lemma {:induction false} FileOnPathOfEntry(t: Tree, p: Path)
    requires IsTree(t) && p in t
    ensures FileOnPath(t, p) <==> t[p].File?
    decreases |p|
  {
    if |p| > 1 {
      FileOnPathOfEntry(t, Parent(p));
    }
  }

  /** With its parent in place, making a directory adds at most that one entry. */
  lemma DirsInPlace(t: Tree, p: Path)
    requires IsTree(t) && p != [] && HasParent(t, p)
    ensures WithDirs(t, Parent(p)) == t && !FileOnPath(t, Parent(p))
    ensures WithDirs(t, p) == t[p := Dir]
    ensures FileOnPath(t, p) <==> p in t && t[p].File?
  {
    if |p| > 1 {
      WithDirsFacts(t, Parent(p));
      FileOnPathOfEntry(t, Parent(p));
    }
  }

  /** p lies at or below root. */
  predicate Under(root: Path, p: Path) {
    root <= p
  }

  function WithoutSubtree(t: Tree, root: Path): Tree {
    map p | p in t && !Under(root, p) :: t[p]
  }

  /** The order in which a directory walk visits a tree: every entry once, and
      each directory before what is in it. */
  ghost predicate WalkOrder(t: Tree, order: seq<Path>) {
    && (forall p :: p in order <==> p in t)
    && (forall i :: 0 <= i < |order| ==> NextInWalk(order[..i], order[i]))
  }

  /** p comes after its parent and has not been visited before. */
  ghost predicate NextInWalk(before: seq<Path>, p: Path) {
    p != [] && p !in before && (|p| > 1 ==> Parent(p) in before)
  }

  lemma {:induction false} AncestorsEarlier(t: Tree, order: seq<Path>, i: nat, r: Path)
    requires WalkOrder(t, order) && i < |order| && r != [] && r < order[i]
    ensures r in order[..i]
    decreases |order[i]|
  {
    var p := order[i];
    assert NextInWalk(order[..i], p);
    var j :| 0 <= j < i && order[..i][j] == Parent(p);
    if |r| < |p| - 1 {
      assert r < order[j];
      AncestorsEarlier(t, order, j, r);
      var k :| 0 <= k < j && order[..j][k] == r;
      assert order[..i][k] == r;
    } else {
      assert r == Parent(p);
    }
  }

  predicate ClashAt(tmp: Tree, live: Tree, p: Path) {
    p in tmp && p in live && tmp[p].Dir? != live[p].Dir?
  }

  /** Some path is a directory on one side and a file on the other. */
  ghost predicate KindClash(tmp: Tree, live: Tree) {
    exists p :: ClashAt(tmp, live, p)
  }

  /** Files the copy pass has to write. */
  function Stale(tmp: Tree, live: Tree): set<Path> {
    set p | p in tmp && tmp[p].File? && !(p in live && live[p] == tmp[p])
  }

  /** The topmost paths of the real tree that the snapshot lacks. */
  function TopAbsent(tmp: Tree, live: Tree): set<Path> {
    set p | p in live && p !in tmp && p != [] && (|p| == 1 || Parent(p) in tmp)
  }

  /** Skipping below the topmost absent path misses nothing: every absent path
      lies under one, and no path of the snapshot does. */
  lemma {:induction false} AbsentLiesUnderTop(tmp: Tree, live: Tree, p: Path)
    requires IsTree(tmp) && IsTree(live) && p in live && p !in tmp
    ensures exists r :: r in TopAbsent(tmp, live) && r <= p
    decreases |p|
  {
    if |p| > 1 && Parent(p) !in tmp {
      AbsentLiesUnderTop(tmp, live, Parent(p));
      var r :| r in TopAbsent(tmp, live) && r <= Parent(p);
      assert r <= p;
    } else {
      assert p in TopAbsent(tmp, live);
    }
  }

  lemma PrefixPresent(tmp: Tree, p: Path, r: Path)
    requires IsTree(tmp) && p in tmp && r <= p && r != []
    ensures r in tmp
  {
    if |r| < |p| {
      AncestorsAreDirs(tmp, p, |r|);
      assert p[..|r|] == r;
    } else {
      assert r == p;
    }
  }

  lemma PresentLiesUnderNone(tmp: Tree, live: Tree, p: Path, r: Path)
    requires IsTree(tmp) && p in tmp && r in TopAbsent(tmp, live)
    ensures !(r <= p)
  {
    if r <= p {
      PrefixPresent(tmp, p, r);
    }
  }

  /** p lies strictly below one of the roots. */
  predicate Below(roots: set<Path>, p: Path) {
    exists r :: r in roots && r < p
  }

  lemma ProperPrefix(p: Path, r: Path)
    requires p != []
    ensures r < p ==> r <= Parent(p)
  {
  }

  lemma TopAbsentAfterCopy(tmp: Tree, live: Tree)
    ensures TopAbsent(tmp, live + tmp) == TopAbsent(tmp, live)
  {
  }

  lemma TopIsNotSkipped(tmp: Tree, live: Tree, p: Path, removed: set<Path>)
    requires IsTree(tmp) && removed <= TopAbsent(tmp, live) && p in TopAbsent(tmp, live)
    ensures !Below(removed, p)
  {
    if |p| > 1 {
      forall r | r in removed ensures !(r < p) {
        ProperPrefix(p, r);
        PresentLiesUnderNone(tmp, live, Parent(p), r);
      }
    }
  }

  lemma OthersAreSkipped(tmp: Tree, live: Tree, order: seq<Path>, i: nat, removed: set<Path>)
    requires IsTree(tmp) && IsTree(live) && WalkOrder(live, order) && i < |order|
    requires forall j :: 0 <= j < i && order[j] in TopAbsent(tmp, live) ==> order[j] in removed
    requires order[i] in live && |order[i]| > 1 && Parent(order[i]) !in tmp
    ensures Below(removed, order[i])
  {
    var p := order[i];
    AbsentLiesUnderTop(tmp, live, Parent(p));
    var r :| r in TopAbsent(tmp, live) && r <= Parent(p);
    assert r < p;
    AncestorsEarlier(live, order, i, r);
    var j :| 0 <= j < i && order[..i][j] == r;
  }

  /** A walk that has collected the topmost absent paths so far collects the
      next absent path exactly if that one is topmost. */
  lemma CollectsExactly(tmp: Tree, live: Tree, order: seq<Path>, i: nat, removed: set<Path>, tops: set<Path>)
    requires IsTree(tmp) && IsTree(live) && WalkOrder(live, order) && i < |order|
    requires tops == TopAbsent(tmp, live) && removed <= tops
    requires forall j :: 0 <= j < i && order[j] in tops ==> order[j] in removed
    ensures order[i] in live
    ensures order[i] !in tmp && !Below(removed, order[i]) <==> order[i] in tops
  {
    var p := order[i];
    assert p in order && p != [];
    if p in tops {
      TopIsNotSkipped(tmp, live, p, removed);
    } else if p !in tmp {
      OthersAreSkipped(tmp, live, order, i, removed);
    }
  }

  predicate AtOrBelow(roots: set<Path>, p: Path) {
    exists r :: r in roots && r <= p
  }

  /** What remains once the subtrees of some roots are gone. */
  function Pruned(t: Tree, roots: set<Path>): Tree {
    map p | p in t && !AtOrBelow(roots, p) :: t[p]
  }

  lemma PruneOneMore(t: Tree, roots: set<Path>, root: Path)
    ensures WithoutSubtree(Pruned(t, roots), root) == Pruned(t, roots + {root})
  {
    forall p ensures AtOrBelow(roots + {root}, p) <==> AtOrBelow(roots, p) || root <= p {
      if root <= p {
        assert root in roots + {root};
      }
      if r :| r in roots && r <= p {
        assert r in roots + {root};
      }
    }
  }

  lemma PruningLeavesSnapshot(tmp: Tree, live: Tree)
    requires IsTree(tmp) && IsTree(live) && tmp.Keys <= live.Keys
    requires forall p :: p in tmp ==> live[p] == tmp[p]
    ensures Pruned(live, TopAbsent(tmp, live)) == tmp
  {
    forall p | p in live ensures p in tmp <==> !AtOrBelow(TopAbsent(tmp, live), p) {
      if p in tmp {
        forall r | r in TopAbsent(tmp, live) ensures !(r <= p) {
          PresentLiesUnderNone(tmp, live, p, r);
        }
      } else {
        AbsentLiesUnderTop(tmp, live, p);
      }
    }
  }

  /** The real tree after the copy pass has handled the paths `done`. */
  function Overlaid(live: Tree, tmp: Tree, done: set<Path>): Tree {
    live + map p | p in tmp && p in done :: tmp[p]
  }

  lemma OverlaidGrows(live: Tree, tmp: Tree, done: set<Path>, p: Path)
    requires p in tmp
    ensures Overlaid(live, tmp, done)[p := tmp[p]] == Overlaid(live, tmp, done + {p})
  {
  }

  /** Paths not yet handled are as they were, and parents are in place. */
  lemma OverlaidAt(live: Tree, tmp: Tree, done: set<Path>, p: Path)
    requires IsTree(tmp) && p in tmp && p !in done
    requires |p| > 1 ==> Parent(p) in done
    ensures p in Overlaid(live, tmp, done) <==> p in live
    ensures p in live ==> Overlaid(live, tmp, done)[p] == live[p]
    ensures p != [] && HasParent(Overlaid(live, tmp, done), p)
  {
  }

  lemma StaleGrows(live: Tree, tmp: Tree, done: set<Path>, p: Path)
    requires p in tmp && p !in done
    ensures Stale(tmp, live) * (done + {p})
            == Stale(tmp, live) * done + (if tmp[p].File? && !(p in live && live[p] == tmp[p]) then {p} else {})
  {
  }

  lemma AllOverlaid(live: Tree, tmp: Tree, done: set<Path>)
    requires tmp.Keys <= done
    ensures Overlaid(live, tmp, done) == live + tmp
    ensures Stale(tmp, live) * done == Stale(tmp, live)
  {
    assert (map p | p in tmp && p in done :: tmp[p]) == tmp;
  }

  lemma StepInWalk(t: Tree, order: seq<Path>, i: nat)
    requires WalkOrder(t, order) && i < |order|
    ensures order[i] in t && NextInWalk(order[..i], order[i])
    ensures order[..i + 1] == order[..i] + [order[i]]
  {
    assert order[i] in order;
  }

  /** The real workspace, with the file-system calls the sync makes. */
  class Workspace {
    var entries: Tree

    constructor (entries: Tree)
      ensures this.entries == entries
    {
      this.entries := entries;
    }

    /** `os.MkdirAll`: fails where the path or an ancestor is a file. */
    method MkdirAll(p: Path) returns (ok: bool)
      requires IsTree(entries)
      modifies this
      ensures ok <==> !FileOnPath(old(entries), p)
      ensures entries == if ok then WithDirs(old(entries), p) else old(entries)
      ensures IsTree(entries)
      decreases |p|
    {
      WithDirsFacts(entries, p);
      if p == [] {
        return true;
      }
      if p in entries {
        FileOnPathOfEntry(entries, p);
        return entries[p].Dir?;
      }
      ok := MkdirAll(Parent(p));
      if ok {
        entries := entries[p := Dir];
      }
    }

    /** `os.ReadFile`: None where there is no file to read. */
    method ReadFile(p: Path) returns (content: Option<seq<Byte>>)
      ensures content == if p in entries && entries[p].File? then Some(entries[p].bytes) else None
    {
      if p in entries && entries[p].File? {
        return Some(entries[p].bytes);
      }
      return None;
    }

    /** `os.WriteFile` in an existing directory. */
    method WriteFile(p: Path, bytes: seq<Byte>) returns (ok: bool)
      requires IsTree(entries) && p != [] && HasParent(entries, p)
      modifies this
      ensures ok <==> !(p in old(entries) && old(entries)[p].Dir?)
      ensures entries == if ok then old(entries)[p := File(bytes)] else old(entries)
      ensures IsTree(entries)
    {
      if p in entries && entries[p].Dir? {
        return false;
      }
      entries := entries[p := File(bytes)];
      ok := true;
    }

    /** `os.RemoveAll`. */
    method RemoveAll(root: Path)
      modifies this
      ensures entries == WithoutSubtree(old(entries), root)
    {
      entries := WithoutSubtree(entries, root);
    }

    /** `filepath.WalkDir` as far as the sync depends on it. */
    static method Walk(t: Tree) returns (order: seq<Path>)
      requires IsTree(t)
      ensures WalkOrder(t, order)
    {
      order := [];
      var remaining := t.Keys;
      while remaining != {}
        invariant remaining <= t.Keys
        invariant forall p :: p in order <==> p in t && p !in remaining
        invariant forall i :: 0 <= i < |order| ==> NextInWalk(order[..i], order[i])
        decreases |remaining|
      {
        var p :| p in remaining;
        while |p| > 1 && Parent(p) in remaining
          invariant p in remaining
          decreases |p|
        {
          p := Parent(p);
        }
        assert NextInWalk(order, p);
        assert forall i :: 0 <= i < |order| ==> (order + [p])[..i] == order[..i];
        assert (order + [p])[..|order|] == order;
        order := order + [p];
        remaining := remaining - {p};
      }
    }

    /** The first walk: all relative paths of the snapshot. */
    static method SnapshotPaths(tmp: Tree) returns (order: seq<Path>, paths: set<Path>)
      requires IsTree(tmp)
      ensures WalkOrder(tmp, order) && paths == tmp.Keys
    {
      order := Walk(tmp);
      paths := {};
      for i := 0 to |order|
        invariant paths <= tmp.Keys
        invariant forall j :: 0 <= j < i ==> order[j] in paths
      {
        assert order[i] in order;
        paths := paths + {order[i]};
      }
      forall p | p in tmp ensures p in paths {
        assert p in order;
      }
    }

    /** One path of the copy pass. */
    method CopyEntry(p: Path, entry: Entry) returns (error: Option<SyncError>, wrote: bool)
      requires IsTree(entries) && p != [] && HasParent(entries, p)
      modifies this
      ensures error.None? <==> !(p in old(entries) && entry.Dir? != old(entries)[p].Dir?)
      ensures entries == if error.None? then old(entries)[p := entry] else old(entries)
      ensures IsTree(entries)
      ensures error.None? ==> (wrote <==> entry.File? && !(p in old(entries) && old(entries)[p] == entry))
    {
      DirsInPlace(entries, p);
      error, wrote := None, false;
      if entry.Dir? {
        var ok := MkdirAll(p);
        if !ok {
          error := Some(NotADirectory(p));
        }
      } else {
        var present := ReadFile(p);
        if present != Some(entry.bytes) {
          var ok := MkdirAll(Parent(p));
          if !ok {
            return Some(NotADirectory(p)), false;
          }
          ok := WriteFile(p, entry.bytes);
          if !ok {
            return Some(IsADirectory(p)), false;
          }
          wrote := true;
        } else {
          assert entries[p := entry] == entries;
        }
      }
    }

    /** One path of the copy pass, seen against the paths done before it. */
    method CopyNext(tmp: Tree, p: Path, written: set<Path>, ghost live: Tree, ghost done: set<Path>)
      returns (error: Option<SyncError>, now: set<Path>)
      requires IsTree(tmp) && IsTree(entries) && entries == Overlaid(live, tmp, done)
      requires p in tmp && p !in done && (|p| > 1 ==> Parent(p) in done)
      requires written == Stale(tmp, live) * done
      modifies this
      ensures IsTree(entries)
      ensures error.None? <==> !ClashAt(tmp, live, p)
      ensures entries == Overlaid(live, tmp, if error.None? then done + {p} else done)
      ensures error.None? ==> now == Stale(tmp, live) * (done + {p})
    {
      OverlaidGrows(live, tmp, done, p);
      OverlaidAt(live, tmp, done, p);
      StaleGrows(live, tmp, done, p);
      var wrote;
      error, wrote := CopyEntry(p, tmp[p]);
      now := if wrote then written + {p} else written;
    }

    /** Step 1: make the directories and write the files that differ. `done` is
        what it has handled when it ends or gives up. */
    method CopyPass(tmp: Tree, order: seq<Path>)
      returns (error: Option<SyncError>, written: set<Path>, ghost done: set<Path>)
      requires IsTree(tmp) && IsTree(entries) && WalkOrder(tmp, order)
      modifies this
      ensures IsTree(entries) && entries == Overlaid(old(entries), tmp, done)
      ensures error.None? <==> !KindClash(tmp, old(entries))
      ensures error.None? ==> done == tmp.Keys
      ensures error.None? ==> written == Stale(tmp, old(entries)) * done
    {
      written := {};
      error := None;
      done := {};
      for i := 0 to |order|
        invariant error.None?
        invariant forall p :: p in done <==> p in order[..i]
        invariant IsTree(entries) && entries == Overlaid(old(entries), tmp, done)
        invariant forall p :: p in done ==> !ClashAt(tmp, old(entries), p)
        invariant written == Stale(tmp, old(entries)) * done
      {
        var p := order[i];
        StepInWalk(tmp, order, i);
        error, written := CopyNext(tmp, p, written, old(entries), done);
        if error.Some? {
          return;
        }
        done := done + {p};
      }
      assert order[..|order|] == order;
    }

    /** Step 2: the walk of the real tree, which does not descend below what it collects. */
    method Absent(ghost tmp: Tree, tmpPaths: set<Path>) returns (removed: set<Path>)
      requires IsTree(tmp) && IsTree(entries) && tmpPaths == tmp.Keys
      ensures removed == TopAbsent(tmp, entries)
    {
      var order := Walk(entries);
      removed := {};
      ghost var tops := TopAbsent(tmp, entries);
      for i := 0 to |order|
        invariant removed <= tops
        invariant forall j :: 0 <= j < i && order[j] in tops ==> order[j] in removed
      {
        var p := order[i];
        CollectsExactly(tmp, entries, order, i, removed, tops);
        if !Below(removed, p) {
          if p !in tmpPaths {
            removed := removed + {p};
          }
        }
      }
      forall p | p in tops ensures p in removed {
        assert p in order;
      }
    }

    /** The removal loop; the source removes the longest paths first, and the
        result is the same in any order. */
    method RemovalPass(roots: set<Path>)
      modifies this
      ensures entries == Pruned(old(entries), roots)
    {
      var pending := roots;
      while pending != {}
        invariant pending <= roots
        invariant entries == Pruned(old(entries), roots - pending)
        decreases |pending|
      {
        var p :| p in pending;
        PruneOneMore(old(entries), roots - pending, p);
        assert roots - (pending - {p}) == (roots - pending) + {p};
        RemoveAll(p);
        pending := pending - {p};
      }
      assert roots - pending == roots;
    }

    /** Copies what is new or different, then removes what the snapshot lacks. */
    method SyncWorkspaceChanges(tmp: Tree) returns (error: Option<SyncError>, written: set<Path>, removed: set<Path>)
      requires IsTree(tmp) && IsTree(entries)
      modifies this
      ensures error.None? <==> !KindClash(tmp, old(entries))
      ensures error.None? ==> entries == tmp
      ensures error.None? ==> written == Stale(tmp, old(entries)) && removed == TopAbsent(tmp, old(entries))
      ensures error.Some? ==> forall p :: p in old(entries) && p !in tmp ==> p in entries && entries[p] == old(entries)[p]
    {
      var tmpOrder, tmpPaths := SnapshotPaths(tmp);
      ghost var done;
      error, written, done := CopyPass(tmp, tmpOrder);
      if error.None? {
        AllOverlaid(old(entries), tmp, done);
      }
      removed := {};
      if error.Some? {
        return;
      }
      removed := Absent(tmp, tmpPaths);
      PruningLeavesSnapshot(tmp, entries);
      TopAbsentAfterCopy(tmp, old(entries));
      RemovalPass(removed);
    }
  }

  /** A second sync of the same snapshot writes and removes nothing. */
  lemma SecondSyncIsIdle(tmp: Tree)
    requires IsTree(tmp)
    ensures !KindClash(tmp, tmp) && Stale(tmp, tmp) == {} && TopAbsent(tmp, tmp) == {}
  {
  }
}
