/** What merging promises: faithful transfer, idempotence, and independence of order. */
module MergeConfluence {
  import opened Wrappers
  import opened Order
  import opened Fnv
  import opened CopyWorkspace

  // ---- One workspace ------------------------------------------------------------------------

  /** No file of the workspace was changed to something with the hash it had before. */
  ghost predicate HashSeparates(w: State, before: Tree) {
    forall p :: p in w.files && p in before && !Skipped(p) && Hash(w.files[p]) == Hash(before[p]) ==> w.files[p] == before[p]
  }

  /** `t` is the tree the baseline was taken from. */
  predicate IsBaselineOf(w: State, t: Tree) {
    w.baseline == SnapshotOf(t)
  }

  /** Outside the skipped directories, `a` and `b` hold the same files. */
  ghost predicate SameProject(a: Tree, b: Tree) {
    forall p :: !Skipped(p) ==> Lookup(a, p) == Lookup(b, p)
  }

  /**
   * Merging onto the tree the workspace was copied from is always clean, never touches a skipped
   * path, and reproduces the workspace exactly when no edit collided with the hash of the original.
   */
  lemma MergeOntoBaseline(w: State, t: Tree)
    requires IsBaselineOf(w, t)
    ensures MergesClean(w, t)
    ensures forall p :: Skipped(p) ==> Lookup(Merged(w, t), p) == Lookup(t, p)
    ensures SameProject(Merged(w, t), w.files) <==> HashSeparates(w, t)
  {
    forall p ensures Skipped(p) ==> Lookup(Merged(w, t), p) == Lookup(t, p) {
      MergedLookup(w, t, p);
    }
    if HashSeparates(w, t) {
      forall p | !Skipped(p) ensures Lookup(Merged(w, t), p) == Lookup(w.files, p) {
        MergedLookup(w, t, p);
      }
    } else {
      var p :| p in w.files && p in t && !Skipped(p) && Hash(w.files[p]) == Hash(t[p]) && w.files[p] != t[p];
      MergedLookup(w, t, p);
      assert Lookup(Merged(w, t), p) != Lookup(w.files, p);
    }
  }

  /** An edit of one byte is always seen, and lands. */
  lemma OneByteEditLands(w: State, t: Tree, p: Path, front: Bytes, x: bv8, y: bv8, back: Bytes)
    requires IsBaselineOf(w, t) && !Skipped(p) && x != y
    requires Lookup(t, p) == Some(front + [x] + back) && Lookup(w.files, p) == Some(front + [y] + back)
    ensures p in Modified(w) && Lookup(Merged(w, t), p) == Lookup(w.files, p)
  {
    OneByteApart(front, x, y, back);
    MergedLookup(w, t, p);
  }

  /** A path the workspace did not change is left alone by its merge. */
  lemma UnchangedPathsStay(w: State, t: Tree, p: Path)
    requires p !in Changed(w)
    ensures Lookup(Merged(w, t), p) == Lookup(t, p)
  {
    MergedLookup(w, t, p);
  }

  /** Merging the same workspace again changes nothing and reports the same conflicts. */
  lemma RemergeIsIdentity(w: State, t: Tree)
    ensures Merged(w, Merged(w, t)) == Merged(w, t)
    ensures ConflictPaths(w, Merged(w, t)) == ConflictPaths(w, t)
  {
    var t1 := Merged(w, t);
    forall p
      ensures Lookup(Merged(w, t1), p) == Lookup(t1, p)
      ensures p in ConflictPaths(w, t1) <==> p in ConflictPaths(w, t)
    {
      MergedLookup(w, t, p);
      MergedLookup(w, t1, p);
    }
    SameTree(Merged(w, t1), t1);
  }

  // ---- What the merge loses ------------------------------------------------------------------

  /** Someone else's content at `p`: neither what the workspace started from nor what it has now. */
  predicate Foreign(w: State, t: Tree, p: Path) {
    p in t && Lookup(w.baseline, p) != Some(Hash(t[p])) && Lookup(w.files, p) != Some(t[p])
  }

  /** Foreign content is gone after the merge, and the merge does not say so. */
  predicate LostSilently(w: State, t: Tree, p: Path) {
    Foreign(w, t, p) && Lookup(Merged(w, t), p) != Some(t[p]) && p !in ConflictPaths(w, t)
  }

  /**
   * Foreign content survives a merge, reported, only at modified paths with detection on. At added
   * and deleted paths, and everywhere when detection is off, it is overwritten or removed unreported.
   */
  lemma SilentLossIff(w: State, t: Tree, p: Path)
    ensures LostSilently(w, t, p) <==>
            Foreign(w, t, p) && p in Changed(w) && (p !in Modified(w) || !w.detectConflicts)
    ensures p in ConflictPaths(w, t) ==> Foreign(w, t, p) && Lookup(Merged(w, t), p) == Some(t[p])
  {
    MergedLookup(w, t, p);
  }

  // ---- Many workspaces -----------------------------------------------------------------------

  function MergeAll(ws: seq<State>, t: Tree): Tree
    decreases |ws|
  {
    if ws == [] then t else MergeAll(ws[1..], Merged(ws[0], t))
  }

  /** Each merge, at its turn, is clean. */
  predicate AllClean(ws: seq<State>, t: Tree)
    decreases |ws|
  {
    ws == [] || (MergesClean(ws[0], t) && AllClean(ws[1..], Merged(ws[0], t)))
  }

  ghost predicate DisjointChanges(ws: seq<State>) {
    forall i, j, p :: 0 <= i < j < |ws| && p in Changed(ws[i]) ==> p !in Changed(ws[j])
  }

  lemma {:induction false} UntouchedByAll(ws: seq<State>, t: Tree, p: Path)
    requires forall i :: 0 <= i < |ws| ==> p !in Changed(ws[i])
    ensures Lookup(MergeAll(ws, t), p) == Lookup(t, p)
    decreases |ws|
  {
    if ws != [] {
      UnchangedPathsStay(ws[0], t, p);
      UntouchedByAll(ws[1..], Merged(ws[0], t), p);
    }
  }

  /** With disjoint changes, each path ends as the one workspace that changed it would have left it alone. */
  lemma {:induction false} OwnerDecides(ws: seq<State>, t: Tree, i: nat, p: Path)
    requires DisjointChanges(ws) && i < |ws| && p in Changed(ws[i])
    ensures Lookup(MergeAll(ws, t), p) == MergedAt(ws[i], t, p)
    decreases |ws|
  {
    var t1 := Merged(ws[0], t);
    MergedLookup(ws[0], t, p);
    if i == 0 {
      UntouchedByAll(ws[1..], t1, p);
    } else {
      UnchangedPathsStay(ws[0], t, p);
      OwnerDecides(ws[1..], t1, i - 1, p);
      assert Lookup(t1, p) == Lookup(t, p);
    }
  }

  lemma SameConflicts(w: State, t: Tree, t1: Tree)
    requires forall p :: p in Changed(w) ==> Lookup(t, p) == Lookup(t1, p)
    ensures ConflictPaths(w, t) == ConflictPaths(w, t1)
  {
    forall p | p in Modified(w) ensures Conflicts(w, t, p) <==> Conflicts(w, t1, p) {
      assert p in Changed(w);
    }
  }

  /** With disjoint changes, all merges are clean in turn exactly when each would be on the first tree. */
  lemma {:induction false} CleanTogetherIff(ws: seq<State>, t: Tree)
    requires DisjointChanges(ws)
    ensures AllClean(ws, t) <==> forall i :: 0 <= i < |ws| ==> MergesClean(ws[i], t)
    decreases |ws|
  {
    if ws != [] {
      var t1, rest := Merged(ws[0], t), ws[1..];
      CleanTogetherIff(rest, t1);
      forall i | 0 <= i < |rest| ensures MergesClean(rest[i], t1) <==> MergesClean(rest[i], t) {
        forall p | p in Changed(rest[i]) ensures Lookup(t, p) == Lookup(t1, p) {
          UnchangedPathsStay(ws[0], t, p);
        }
        SameConflicts(rest[i], t, t1);
      }
      assert forall i :: 0 < i < |ws| ==> ws[i] == rest[i - 1];
    }
  }

  lemma {:induction false} OccursTwice(s: seq<State>, w: State)
    requires multiset(s)[w] >= 2
    ensures exists i, j :: 0 <= i < j < |s| && s[i] == w && s[j] == w
    decreases |s|
  {
    assert s == [s[0]] + s[1..];
    if s[0] == w {
      assert w in s[1..];
      var j :| 0 <= j < |s[1..]| && s[1..][j] == w;
      assert s[0] == w && s[j + 1] == w;
    } else {
      OccursTwice(s[1..], w);
      var i, j :| 0 <= i < j < |s[1..]| && s[1..][i] == w && s[1..][j] == w;
      assert s[i + 1] == w && s[j + 1] == w;
    }
  }

  lemma CountsTwice(s: seq<State>, i: nat, j: nat)
    requires i < j < |s| && s[i] == s[j]
    ensures multiset(s)[s[i]] >= 2
  {
    assert s == s[..j] + s[j..];
    assert s[i] in s[..j] && s[j] in s[j..];
  }

  /** Reordering keeps the changes disjoint. */
  lemma ReorderedStaysDisjoint(ws: seq<State>, vs: seq<State>)
    requires DisjointChanges(ws) && multiset(vs) == multiset(ws)
    ensures DisjointChanges(vs)
  {
    forall i, j, p | 0 <= i < j < |vs| && p in Changed(vs[i]) ensures p !in Changed(vs[j]) {
      if vs[i] == vs[j] {
        CountsTwice(vs, i, j);
        OccursTwice(ws, vs[i]);
      } else {
        assert vs[i] in multiset(vs) && vs[j] in multiset(vs);
        var k :| 0 <= k < |ws| && ws[k] == vs[i];
        var l :| 0 <= l < |ws| && ws[l] == vs[j];
        assert k < l || l < k;
      }
    }
  }

  lemma SameTreeInEveryOrder(ws: seq<State>, vs: seq<State>, t: Tree)
    requires DisjointChanges(ws) && DisjointChanges(vs) && multiset(vs) == multiset(ws)
    ensures MergeAll(ws, t) == MergeAll(vs, t)
  {
    forall p ensures Lookup(MergeAll(ws, t), p) == Lookup(MergeAll(vs, t), p) {
      if i :| 0 <= i < |ws| && p in Changed(ws[i]) {
        OwnerDecides(ws, t, i, p);
        assert ws[i] in multiset(ws);
        var j :| 0 <= j < |vs| && vs[j] == ws[i];
        OwnerDecides(vs, t, j, p);
      } else {
        forall j | 0 <= j < |vs| ensures p !in Changed(vs[j]) {
          assert vs[j] in multiset(vs);
        }
        UntouchedByAll(ws, t, p);
        UntouchedByAll(vs, t, p);
      }
    }
    SameTree(MergeAll(ws, t), MergeAll(vs, t));
  }

  lemma CleanInEveryOrder(ws: seq<State>, vs: seq<State>, t: Tree)
    requires DisjointChanges(ws) && DisjointChanges(vs) && multiset(vs) == multiset(ws)
    ensures AllClean(ws, t) ==> AllClean(vs, t)
  {
    CleanTogetherIff(ws, t);
    CleanTogetherIff(vs, t);
    if AllClean(ws, t) {
      forall j | 0 <= j < |vs| ensures MergesClean(vs[j], t) {
        assert vs[j] in multiset(vs);
        var i :| 0 <= i < |ws| && ws[i] == vs[j];
      }
    }
  }

  /**
   * Workspaces with disjoint changes merge to one tree in every order, and all merges are clean in
   * one order exactly when they are in every other.
   */
  lemma OrderDoesNotMatter(ws: seq<State>, vs: seq<State>, t: Tree)
    requires DisjointChanges(ws) && multiset(vs) == multiset(ws)
    ensures MergeAll(ws, t) == MergeAll(vs, t)
    ensures AllClean(ws, t) <==> AllClean(vs, t)
  {
    ReorderedStaysDisjoint(ws, vs);
    SameTreeInEveryOrder(ws, vs, t);
    CleanInEveryOrder(ws, vs, t);
    CleanInEveryOrder(vs, ws, t);
  }

  /** At every path the workspace changed, the target still is what the workspace started from. */
  ghost predicate AgreesWithBaseline(w: State, t: Tree) {
    forall p :: p in Changed(w) && p in t ==> Lookup(w.baseline, p) == Some(Hash(t[p]))
  }

  /** From such a target, disjoint workspaces all merge clean, and every one of them lands completely. */
  lemma DisjointWorkLands(ws: seq<State>, t: Tree)
    requires DisjointChanges(ws)
    requires forall i :: 0 <= i < |ws| ==> AgreesWithBaseline(ws[i], t)
    ensures AllClean(ws, t)
    ensures forall i, p :: 0 <= i < |ws| && p in Changed(ws[i]) ==>
              Lookup(MergeAll(ws, t), p) == if p in Deleted(ws[i]) then None else Some(ws[i].files[p])
  {
    CleanTogetherIff(ws, t);
    forall i | 0 <= i < |ws| ensures MergesClean(ws[i], t) {
      assert AgreesWithBaseline(ws[i], t);
    }
    forall i, p | 0 <= i < |ws| && p in Changed(ws[i])
      ensures Lookup(MergeAll(ws, t), p) == if p in Deleted(ws[i]) then None else Some(ws[i].files[p])
    {
      OwnerDecides(ws, t, i, p);
      assert AgreesWithBaseline(ws[i], t);
    }
  }

  // ---- Two workspaces that change the same paths ---------------------------------------------

  /** What the workspace has at a path it changed. */
  function Content(w: State, p: Path): Option<Bytes> {
    if p in Added(w) + Modified(w) then Some(w.files[p]) else None
  }

  /** The merge would report a conflict on finding `found` at `p`, and leave it there. */
  predicate Refuses(w: State, found: Option<Bytes>, p: Path) {
    && w.detectConflicts && p in Modified(w) && found.Some?
    && Hash(found.value) != w.baseline[p] && found.value != w.files[p]
  }

  lemma MergedOrRefused(w: State, t: Tree, p: Path)
    requires p in Changed(w)
    ensures Lookup(Merged(w, t), p) == if Refuses(w, Lookup(t, p), p) then Lookup(t, p) else Content(w, p)
    ensures p in ConflictPaths(w, t) <==> Refuses(w, Lookup(t, p), p)
  {
    MergedLookup(w, t, p);
  }

  /**
   * At a path both changed: they have the same content; or both refuse what the target has; or the one
   * that refuses it refuses the other's content too; or none refuses it and just one refuses the other's.
   */
  predicate OrdersAgreeAt(v: State, w: State, t: Tree, p: Path) {
    var x := Lookup(t, p);
    || Content(v, p) == Content(w, p)
    || (if Refuses(v, x, p) && Refuses(w, x, p) then true
        else if Refuses(v, x, p) then Refuses(v, Content(w, p), p)
        else if Refuses(w, x, p) then Refuses(w, Content(v, p), p)
        else Refuses(v, Content(w, p), p) != Refuses(w, Content(v, p), p))
  }

  lemma MergeTwo(v: State, w: State, t: Tree)
    ensures MergeAll([v, w], t) == Merged(w, Merged(v, t))
    ensures AllClean([v, w], t) <==> MergesClean(v, t) && MergesClean(w, Merged(v, t))
  {
    assert [v, w][1..] == [w] && [w][1..] == [];
    assert MergeAll([w], Merged(v, t)) == MergeAll([], Merged(w, Merged(v, t)));
    assert AllClean([w], Merged(v, t)) == (MergesClean(w, Merged(v, t)) && AllClean([], Merged(w, Merged(v, t))));
  }

  lemma TwoOrdersAt(v: State, w: State, t: Tree, p: Path)
    ensures Lookup(Merged(w, Merged(v, t)), p) == Lookup(Merged(v, Merged(w, t)), p) <==>
            (p in Changed(v) && p in Changed(w) ==> OrdersAgreeAt(v, w, t, p))
  {
    if p !in Changed(v) {
      UnchangedPathsStay(v, t, p);
      UnchangedPathsStay(v, Merged(w, t), p);
      MergedLookup(w, t, p);
      MergedLookup(w, Merged(v, t), p);
    } else if p !in Changed(w) {
      UnchangedPathsStay(w, t, p);
      UnchangedPathsStay(w, Merged(v, t), p);
      MergedLookup(v, t, p);
      MergedLookup(v, Merged(w, t), p);
    } else {
      MergedOrRefused(v, t, p);
      MergedOrRefused(w, t, p);
      MergedOrRefused(w, Merged(v, t), p);
      MergedOrRefused(v, Merged(w, t), p);
    }
  }

  /** Two workspaces merge to one tree in both orders exactly when the orders agree at every path both changed. */
  lemma TwoOrdersAgreeIff(v: State, w: State, t: Tree)
    ensures MergeAll([v, w], t) == MergeAll([w, v], t) <==>
            forall p :: p in Changed(v) && p in Changed(w) ==> OrdersAgreeAt(v, w, t, p)
  {
    MergeTwo(v, w, t);
    MergeTwo(w, v, t);
    var vw, wv := Merged(w, Merged(v, t)), Merged(v, Merged(w, t));
    forall p ensures Lookup(vw, p) == Lookup(wv, p) <==> (p in Changed(v) && p in Changed(w) ==> OrdersAgreeAt(v, w, t, p)) {
      TwoOrdersAt(v, w, t, p);
    }
    if forall p :: p in Changed(v) && p in Changed(w) ==> OrdersAgreeAt(v, w, t, p) {
      SameTree(vw, wv);
    }
  }

  /** The second merge refuses nothing it would not have refused first, when shared paths have one content. */
  lemma StaysClean(v: State, w: State, t: Tree)
    requires MergesClean(v, t) && MergesClean(w, t)
    requires forall p :: p in Changed(v) && p in Changed(w) ==> Content(v, p) == Content(w, p)
    ensures MergesClean(w, Merged(v, t))
  {
    forall p ensures p !in ConflictPaths(w, Merged(v, t)) {
      if p in Changed(w) {
        MergedOrRefused(w, t, p);
        MergedOrRefused(w, Merged(v, t), p);
        if p in Changed(v) {
          MergedOrRefused(v, t, p);
        } else {
          UnchangedPathsStay(v, t, p);
        }
      }
    }
  }

  lemma CleanOrdersShareContent(v: State, w: State, t: Tree, p: Path)
    requires AllClean([v, w], t) && AllClean([w, v], t) && p in Changed(v) && p in Changed(w)
    ensures OrdersAgreeAt(v, w, t, p) <==> Content(v, p) == Content(w, p)
  {
    MergeTwo(v, w, t);
    MergeTwo(w, v, t);
    MergedOrRefused(v, t, p);
    MergedOrRefused(w, t, p);
    MergedOrRefused(w, Merged(v, t), p);
    MergedOrRefused(v, Merged(w, t), p);
  }

  /** Both orders are clean and leave one tree exactly when each merges clean first and shared paths have one content. */
  lemma CleanInBothOrdersIff(v: State, w: State, t: Tree)
    ensures AllClean([v, w], t) && AllClean([w, v], t) && MergeAll([v, w], t) == MergeAll([w, v], t) <==>
            && MergesClean(v, t) && MergesClean(w, t)
            && forall p :: p in Changed(v) && p in Changed(w) ==> Content(v, p) == Content(w, p)
  {
    MergeTwo(v, w, t);
    MergeTwo(w, v, t);
    TwoOrdersAgreeIff(v, w, t);
    if AllClean([v, w], t) && AllClean([w, v], t) {
      forall p | p in Changed(v) && p in Changed(w)
        ensures OrdersAgreeAt(v, w, t, p) <==> Content(v, p) == Content(w, p)
      {
        CleanOrdersShareContent(v, w, t, p);
      }
    } else if MergesClean(v, t) && MergesClean(w, t) && forall p :: p in Changed(v) && p in Changed(w) ==> Content(v, p) == Content(w, p) {
      StaysClean(v, w, t);
      StaysClean(w, v, t);
    }
  }

  /** The shortest disagreement: two Tasks that add one file with different contents, each clean, leave whichever merged last. */
  lemma OverlapDependsOnOrder(p: Path, a: Bytes, b: Bytes)
    requires !Skipped(p) && a != b
    ensures var v, w := State(map[p := a], map[], true), State(map[p := b], map[], true);
            && AllClean([v, w], map[]) && AllClean([w, v], map[])
            && MergeAll([v, w], map[]) == map[p := b] && MergeAll([w, v], map[]) == map[p := a]
  {
    var v, w := State(map[p := a], map[], true), State(map[p := b], map[], true);
    AddsOnly(v, p, map[]);
    AddsOnly(w, p, map[]);
    AddsOnly(v, p, map[p := b]);
    AddsOnly(w, p, map[p := a]);
    MergeTwo(v, w, map[]);
    MergeTwo(w, v, map[]);
  }

  lemma AddsOnly(w: State, p: Path, t: Tree)
    requires !Skipped(p) && w.baseline == map[] && w.files.Keys == {p} && t.Keys <= {p}
    ensures MergesClean(w, t) && Merged(w, t) == w.files
  {
    SameTree(Merged(w, t), w.files) by {
      forall q ensures Lookup(Merged(w, t), q) == Lookup(w.files, q) {
        MergedLookup(w, t, q);
      }
    }
  }
}
