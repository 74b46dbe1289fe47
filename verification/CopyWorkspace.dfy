/** A Task's full copy of the project: its diff against the baseline, and the merge of that diff. */
module CopyWorkspace {
  import opened Wrappers
  import opened Order
  import opened Fnv

  type Tree = map<Path, Bytes>

  type Baseline = map<Path, bv64>

  datatype ChangeSet = ChangeSet(added: seq<Path>, modified: seq<Path>, deleted: seq<Path>)

  datatype MergeResult = Clean | Conflict(paths: seq<Path>)

  /** What a workspace holds at one moment. */
  datatype State = State(files: Tree, baseline: Baseline, detectConflicts: bool)

  function Lookup<K, V>(m: map<K, V>, k: K): Option<V> {
    if k in m then Some(m[k]) else None
  }

  // ---- Diff -----------------------------------------------------------------------------------

  /** Version control and agent directories are not part of a snapshot. */
  predicate Skipped(p: Path) {
    ".git" in p || ".agent" in p
  }

  function SnapshotOf(files: Tree): Baseline {
    map p | p in files && !Skipped(p) :: Hash(files[p])
  }

  function Added(w: State): set<Path> {
    set p | p in w.files && !Skipped(p) && p !in w.baseline
  }

  function Modified(w: State): set<Path> {
    set p | p in w.files && !Skipped(p) && p in w.baseline && Hash(w.files[p]) != w.baseline[p]
  }

  function Deleted(w: State): set<Path> {
    set p | p in w.baseline && (p !in w.files || Skipped(p))
  }

  function Changed(w: State): set<Path> {
    Added(w) + Modified(w) + Deleted(w)
  }

  /** The three lists are disjoint and hold exactly the paths whose hash is not what it was. */
  lemma ChangedIsHashChanged(w: State)
    ensures Added(w) !! Modified(w) !! Deleted(w)
    ensures forall p :: p in Changed(w) <==> Lookup(SnapshotOf(w.files), p) != Lookup(w.baseline, p)
  {
  }

  /** What the first loop of the diff asks of a path it meets. */
  lemma InSnapshot(w: State, p: Path)
    requires p in SnapshotOf(w.files)
    ensures p in Added(w) <==> p !in w.baseline
    ensures p in Modified(w) <==> p in w.baseline && w.baseline[p] != SnapshotOf(w.files)[p]
  {
  }

  // ---- Merge ----------------------------------------------------------------------------------

  /** The target was changed by someone else, and not to what the workspace has. */
  predicate Conflicts(w: State, t: Tree, p: Path) {
    && w.detectConflicts && p in Modified(w) && p in t
    && Hash(t[p]) != w.baseline[p] && t[p] != w.files[p]
  }

  function MergedAt(w: State, t: Tree, p: Path): Option<Bytes> {
    if p in Added(w) + Modified(w) then (if Conflicts(w, t, p) then Some(t[p]) else Some(w.files[p]))
    else if p in Deleted(w) then None
    else Lookup(t, p)
  }

  function Merged(w: State, t: Tree): Tree {
    map p | p in t.Keys + w.files.Keys && MergedAt(w, t, p).Some? :: MergedAt(w, t, p).value
  }

  function ConflictPaths(w: State, t: Tree): set<Path> {
    set p | p in Modified(w) && Conflicts(w, t, p)
  }

  predicate MergesClean(w: State, t: Tree) {
    ConflictPaths(w, t) == {}
  }

  lemma MergedLookup(w: State, t: Tree, p: Path)
    ensures Lookup(Merged(w, t), p) == MergedAt(w, t, p)
  {
  }

  lemma SameTree(a: Tree, b: Tree)
    requires forall p :: Lookup(a, p) == Lookup(b, p)
    ensures a == b
  {
    forall p ensures p in a <==> p in b {
      assert Lookup(a, p) == Lookup(b, p);
    }
    forall p | p in a ensures a[p] == b[p] {
      assert Lookup(a, p) == Lookup(b, p);
    }
  }

  // ---- The merge in its three passes ----------------------------------------------------------

  function Overlay(src: Tree, t: Tree, paths: set<Path>): Tree {
    map p | p in t.Keys + (paths * src.Keys) :: if p in paths && p in src then src[p] else t[p]
  }

  lemma OverlayNext(src: Tree, t: Tree, paths: set<Path>, rest: set<Path>, p: Path)
    requires p in rest && p in src
    ensures Overlay(src, t, paths - (rest - {p})) ==
            if p in paths then Overlay(src, t, paths - rest)[p := src[p]] else Overlay(src, t, paths - rest)
  {
  }

  lemma OverlayOutside(src: Tree, t: Tree, paths: set<Path>, p: Path)
    requires p !in paths
    ensures Lookup(Overlay(src, t, paths), p) == Lookup(t, p)
  {
  }

  lemma SameConflict(w: State, t: Tree, t': Tree, p: Path)
    requires p in Modified(w) && Lookup(t, p) == Lookup(t', p)
    ensures p in ConflictPaths(w, t) <==> Conflicts(w, t', p)
  {
  }

  lemma AddingKeepsConflicts(w: State, t: Tree)
    ensures ConflictPaths(w, Overlay(w.files, t, Added(w))) == ConflictPaths(w, t)
  {
  }

  lemma MergedInSteps(w: State, t: Tree, deleted: set<Path>)
    requires deleted == Deleted(w)
    ensures var t1 := Overlay(w.files, t, Added(w));
            Merged(w, t) == Overlay(w.files, t1, Modified(w) - ConflictPaths(w, t)) - deleted
  {
    var t1 := Overlay(w.files, t, Added(w));
    var t3 := Overlay(w.files, t1, Modified(w) - ConflictPaths(w, t)) - deleted;
    forall p ensures Lookup(Merged(w, t), p) == Lookup(t3, p) {
      MergedLookup(w, t, p);
    }
    SameTree(Merged(w, t), t3);
  }

  // ---- The workspace as an object -------------------------------------------------------------

  /** A directory on disk. */
  class FileTree {
    var files: Tree

    constructor (files: Tree)
      ensures this.files == files
    {
      this.files := files;
    }
  }

  method Snapshot(dir: FileTree) returns (out: Baseline)
    ensures out == SnapshotOf(dir.files)
    ensures forall p :: p in out <==> p in dir.files && forall i :: 0 <= i < |p| ==> p[i] != ".git" && p[i] != ".agent"
    ensures forall p :: p in out ==> out[p] == Hash(dir.files[p])
  {
    out := map[];
    var rest := dir.files.Keys;
    while rest != {}
      invariant rest <= dir.files.Keys
      invariant forall p :: p in out <==> p in dir.files && p !in rest && !Skipped(p)
      invariant forall p :: p in out ==> out[p] == Hash(dir.files[p])
      decreases |rest|
    {
      var p :| p in rest;
      if !Skipped(p) {
        var hash := HashBytes(dir.files[p]);
        out := out[p := hash];
      }
      rest := rest - {p};
    }
  }

  class CopyWorkspace {
    const root: FileTree
    const baseline: Baseline
    const detectConflicts: bool
    var frozen: bool

    ghost function St(): State
      reads root
    {
      State(root.files, baseline, detectConflicts)
    }

    constructor (source: FileTree, detectConflicts: bool)
      ensures fresh(root) && !frozen
      ensures baseline == SnapshotOf(root.files) && this.detectConflicts == detectConflicts
      ensures forall p :: Lookup(root.files, p) ==
                          if p != [] && p[0] in {".git", ".agent"} then None else Lookup(source.files, p)
    {
      var copied := map p | p in source.files && !(p != [] && p[0] in {".git", ".agent"}) :: source.files[p];
      var dir := new FileTree(copied);
      var taken := Snapshot(dir);
      root := dir;
      baseline := taken;
      this.detectConflicts := detectConflicts;
      frozen := false;
    }

    method NewAndModified(current: Baseline) returns (added: seq<Path>, modified: seq<Path>)
      requires current == SnapshotOf(root.files)
      ensures Collects(added, Added(St())) && Collects(modified, Modified(St()))
    {
      added, modified := [], [];
      var rest := current.Keys;
      ghost var a, m := Added(St()), Modified(St());
      NothingCollected(a, rest);
      NothingCollected(m, rest);
      while rest != {}
        invariant rest <= current.Keys
        invariant Collects(added, a - rest) && Collects(modified, m - rest)
        decreases |rest|
      {
        var p :| p in rest;
        CollectNext(added, a, rest, p);
        CollectNext(modified, m, rest, p);
        InSnapshot(St(), p);
        if p !in baseline {
          added := added + [p];
        } else if baseline[p] != current[p] {
          modified := modified + [p];
        }
        rest := rest - {p};
      }
      AllCollected(added, a);
      AllCollected(modified, m);
    }

    method Missing(current: Baseline) returns (deleted: seq<Path>)
      requires current == SnapshotOf(root.files)
      ensures Collects(deleted, Deleted(St()))
    {
      deleted := [];
      var rest := baseline.Keys;
      ghost var d := Deleted(St());
      NothingCollected(d, rest);
      while rest != {}
        invariant rest <= baseline.Keys
        invariant Collects(deleted, d - rest)
        decreases |rest|
      {
        var p :| p in rest;
        CollectNext(deleted, d, rest, p);
        if p !in current {
          deleted := deleted + [p];
        }
        rest := rest - {p};
      }
      AllCollected(deleted, d);
    }

    method Diff() returns (changes: ChangeSet)
      ensures Lists(changes.added, Added(St()))
      ensures Lists(changes.modified, Modified(St()))
      ensures Lists(changes.deleted, Deleted(St()))
    {
      var current := Snapshot(root);
      var added, modified := NewAndModified(current);
      var deleted := Missing(current);
      SortLists(added, Added(St()));
      SortLists(modified, Modified(St()));
      SortLists(deleted, Deleted(St()));
      changes := ChangeSet(Sort(added), Sort(modified), Sort(deleted));
    }

    method CopyAdded(added: seq<Path>, target: FileTree)
      requires target != root && Lists(added, Added(St()))
      modifies target
      ensures target.files == Overlay(root.files, old(target.files), Added(St()))
    {
      var i := 0;
      ghost var paths := Added(St());
      assert added[0..] == added && paths - Elems(added) == {};
      while i < |added|
        invariant 0 <= i <= |added|
        invariant target.files == Overlay(root.files, old(target.files), paths - Elems(added[i..]))
      {
        var rel := added[i];
        assert rel in added;
        RestOfListing(added, i);
        OverlayNext(root.files, old(target.files), paths, Elems(added[i..]), rel);
        target.files := target.files[rel := root.files[rel]];
        i := i + 1;
      }
      assert paths - Elems(added[i..]) == paths;
    }

    /** The conflict heuristic of the second pass. */
    method ChangedElsewhere(rel: Path, target: FileTree) returns (conflict: bool)
      requires rel in Modified(St())
      ensures conflict <==> Conflicts(St(), target.files, rel)
    {
      conflict := false;
      if detectConflicts && rel in baseline && rel in target.files {
        var targetHash := HashBytes(target.files[rel]);
        if targetHash != baseline[rel] {
          conflict := root.files[rel] != target.files[rel];
        }
      }
    }

    method CopyModified(modified: seq<Path>, target: FileTree) returns (conflicts: seq<Path>)
      requires target != root && Lists(modified, Modified(St()))
      modifies target
      ensures target.files ==
              Overlay(root.files, old(target.files), Modified(St()) - ConflictPaths(St(), old(target.files)))
      ensures Collects(conflicts, ConflictPaths(St(), old(target.files)))
    {
      conflicts := [];
      var i := 0;
      ghost var before, w := target.files, St();
      ghost var bad := ConflictPaths(w, before);
      ghost var good := Modified(w) - bad;
      assert modified[0..] == modified && good - Elems(modified) == {} && bad - Elems(modified) == {};
      while i < |modified|
        invariant 0 <= i <= |modified|
        invariant target.files == Overlay(root.files, before, good - Elems(modified[i..]))
        invariant Collects(conflicts, bad - Elems(modified[i..]))
      {
        var rel := modified[i];
        assert rel in modified;
        RestOfListing(modified, i);
        CollectNext(conflicts, bad, Elems(modified[i..]), rel);
        OverlayNext(root.files, before, good, Elems(modified[i..]), rel);
        OverlayOutside(root.files, before, good - Elems(modified[i..]), rel);
        var conflict := ChangedElsewhere(rel, target);
        SameConflict(w, before, target.files, rel);
        if conflict {
          conflicts := conflicts + [rel];
        } else {
          target.files := target.files[rel := root.files[rel]];
        }
        i := i + 1;
      }
      assert good - Elems(modified[i..]) == good;
      AllCollected(conflicts, bad);
    }

    method RemoveDeleted(deleted: seq<Path>, target: FileTree)
      modifies target
      ensures target.files == old(target.files) - Elems(deleted)
    {
      var i := 0;
      while i < |deleted|
        invariant 0 <= i <= |deleted|
        invariant target.files == old(target.files) - Elems(deleted[..i])
      {
        assert deleted[..i + 1] == deleted[..i] + [deleted[i]];
        assert Elems(deleted[..i + 1]) == Elems(deleted[..i]) + {deleted[i]};
        if deleted[i] in target.files {
          target.files := target.files - {deleted[i]};
        }
        i := i + 1;
      }
      assert deleted[..i] == deleted;
    }

    method MergeInto(target: FileTree) returns (result: MergeResult)
      requires target != root
      modifies target
      ensures target.files == Merged(St(), old(target.files))
      ensures result.Clean? <==> MergesClean(St(), old(target.files))
      ensures result.Conflict? ==> Lists(result.paths, ConflictPaths(St(), old(target.files)))
    {
      var changes := Diff();
      CopyAdded(changes.added, target);
      ghost var bad := ConflictPaths(St(), old(target.files));
      AddingKeepsConflicts(St(), old(target.files));
      var conflicts := CopyModified(changes.modified, target);
      RemoveDeleted(changes.deleted, target);
      MergedInSteps(St(), old(target.files), Elems(changes.deleted));
      SortLists(conflicts, bad);
      EmptyCollection(conflicts, bad);
      result := if conflicts != [] then Conflict(Sort(conflicts)) else Clean;
    }
  }
}
