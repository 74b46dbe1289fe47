/** The pruned walk that imports a project into its mirror, and the flat filter that must agree with it. */
module MirrorWalk {
  import opened Order
  import opened Fnv
  import opened AgentIgnore

  /** What a directory listing holds, in the order it is read. */
  datatype Node = File(content: Bytes) | Directory(entries: seq<Entry>) | Link

  datatype Entry = Entry(name: string, node: Node)

  predicate Reserved(name: string) {
    name == ".agent" || name == ".git"
  }

  ghost predicate ValidEntries(entries: seq<Entry>)
    decreases entries
  {
    forall i :: 0 <= i < |entries| ==>
      IsName(entries[i].name) && (entries[i].node.Directory? ==> ValidEntries(entries[i].node.entries))
  }

  /** Every regular file below `at`, outside reserved directories. */
  function RegularFiles(at: Path, entries: seq<Entry>): map<Path, Bytes>
    decreases entries
  {
    if entries == [] then map[] else FilesOf(at, entries[0]) + RegularFiles(at, entries[1..])
  }

  function FilesOf(at: Path, e: Entry): map<Path, Bytes>
    decreases e
  {
    if Reserved(e.name) then map[] else
    match e.node
    case File(content) => map[at + [e.name] := content]
    case Directory(inner) => RegularFiles(at + [e.name], inner)
    case Link => map[]
  }

  /** The entry is, or has below it, a regular file with that content under these names, none of them reserved. */
  ghost predicate EntryHas(e: Entry, names: Path, content: Bytes)
    decreases e
  {
    && names != [] && e.name == names[0] && e.name != ".git" && e.name != ".agent"
    && match e.node
       case File(c) => |names| == 1 && c == content
       case Directory(inner) => exists i :: 0 <= i < |inner| && EntryHas(inner[i], names[1..], content)
       case Link => false
  }

  ghost predicate SomeHas(entries: seq<Entry>, names: Path, content: Bytes) {
    exists i :: 0 <= i < |entries| && EntryHas(entries[i], names, content)
  }

  lemma SomeHasNext(entries: seq<Entry>, names: Path, content: Bytes)
    requires entries != []
    ensures SomeHas(entries, names, content) <==> EntryHas(entries[0], names, content) || SomeHas(entries[1..], names, content)
  {
    assert forall i :: 0 < i < |entries| ==> entries[i] == entries[1..][i - 1];
    if i :| 0 <= i < |entries[1..]| && EntryHas(entries[1..][i], names, content) {
      assert EntryHas(entries[i + 1], names, content);
    }
  }

  /** The regular files of a listing are those that can be reached through it by their names. */
  lemma RegularFilesAre(at: Path, entries: seq<Entry>, names: Path)
    ensures at + names in RegularFiles(at, entries) <==> exists content :: SomeHas(entries, names, content)
    ensures at + names in RegularFiles(at, entries) ==> SomeHas(entries, names, RegularFiles(at, entries)[at + names])
    decreases entries
  {
    if entries != [] {
      FilesOfAre(at, entries[0], names);
      RegularFilesAre(at, entries[1..], names);
      var first, rest := FilesOf(at, entries[0]), RegularFiles(at, entries[1..]);
      var all := first + rest;
      assert RegularFiles(at, entries) == all;
      assert at + names in all <==> at + names in first || at + names in rest;
      if at + names in rest {
        SomeHasNext(entries, names, rest[at + names]);
      } else if at + names in first {
        SomeHasNext(entries, names, first[at + names]);
      }
      if content :| SomeHas(entries, names, content) {
        SomeHasNext(entries, names, content);
      }
    }
  }

  lemma FilesOfAre(at: Path, e: Entry, names: Path)
    ensures at + names in FilesOf(at, e) <==> exists content :: EntryHas(e, names, content)
    ensures at + names in FilesOf(at, e) ==> EntryHas(e, names, FilesOf(at, e)[at + names])
    decreases e
  {
    if Reserved(e.name) {
    } else {
      match e.node
      case File(c) =>
        assert at + names == at + [e.name] <==> names == [e.name] by {
          assert (at + names)[|at|..] == names && (at + [e.name])[|at|..] == [e.name];
        }
        assert names == [e.name] ==> EntryHas(e, names, c);
      case Directory(inner) => FilesBelowAre(at, e, names);
      case Link =>
    }
  }

  lemma OtherName(at: Path, name: string, names: Path)
    requires names == [] || names[0] != name
    ensures forall n :: |at| < n <= |at + names| ==> (at + names)[..n] != at + [name]
    ensures !(at + [name] <= at + names)
  {
    if names != [] {
      assert (at + names)[|at|] == names[0];
    }
    assert (at + [name])[|at|] == name;
  }

  lemma FilesBelowAre(at: Path, e: Entry, names: Path)
    requires !Reserved(e.name) && e.node.Directory?
    ensures at + names in FilesOf(at, e) <==> exists content :: EntryHas(e, names, content)
    ensures at + names in FilesOf(at, e) ==> EntryHas(e, names, FilesOf(at, e)[at + names])
    decreases e, 0
  {
    var next, inner := at + [e.name], e.node.entries;
    if names != [] && names[0] == e.name {
      assert at + names == next + names[1..];
      RegularFilesAre(next, inner, names[1..]);
      if content :| EntryHas(e, names, content) {
        assert SomeHas(inner, names[1..], content);
      }
      if at + names in FilesOf(at, e) {
        assert SomeHas(inner, names[1..], FilesOf(at, e)[at + names]);
        assert EntryHas(e, names, FilesOf(at, e)[at + names]);
      }
    } else {
      FilesLieBelow(next, inner);
      OtherName(at, e.name, names);
    }
  }

  /** The files of `files` that the flat filter keeps. */
  function Kept(pats: seq<Pattern>, files: map<Path, Bytes>): map<Path, Bytes> {
    map p | p in files && !FilteredOut(pats, p) :: files[p]
  }

  /** The files of the mirror outside its `.git`, and whether it has one. */
  class Mirror {
    var files: map<Path, Bytes>
    var isRepo: bool
  }

  method FilterPath(pats: seq<Pattern>, p: Path) returns (ignored: bool)
    requires ValidPath(p)
    ensures ignored <==> FilteredOut(pats, p)
  {
    ignored := IsPathIgnored(pats, p, false);
    if ignored {
      return;
    }
    var prefix := p;
    while prefix != []
      invariant prefix <= p
      invariant forall k :: |prefix| <= k < |p| && 1 <= k ==> !PathVerdict(pats, p[..k])
      decreases |prefix|
    {
      prefix := prefix[..|prefix| - 1];
      assert prefix == p[..|prefix|];
      var above := IsPathIgnored(pats, prefix, true);
      if above {
        NothingAtRoot(pats);
        return true;
      }
    }
  }

  lemma NothingAtRoot(pats: seq<Pattern>)
    ensures !PathVerdict(pats, [])
  {
  }

  // ---- The walk ------------------------------------------------------------------------------

  /** No ancestor of what lies below `at`, up to `at` itself, tests as ignored. */
  predicate Open(pats: seq<Pattern>, at: Path) {
    forall k :: 1 <= k <= |at| ==> !PathVerdict(pats, at[..k])
  }

  predicate LieBelow(at: Path, files: map<Path, Bytes>) {
    forall p :: p in files ==> |at| < |p| && at == p[..|at|]
  }

  lemma FilesLieBelow(at: Path, entries: seq<Entry>)
    ensures LieBelow(at, RegularFiles(at, entries))
    decreases entries
  {
    if entries != [] {
      FilesLieBelow(at, entries[1..]);
      FilesOfLieBelow(at, entries[0]);
    }
  }

  lemma FilesOfLieBelow(at: Path, e: Entry)
    ensures LieBelow(at, FilesOf(at, e))
    decreases e
  {
    if e.node.Directory? && !Reserved(e.name) {
      var next := at + [e.name];
      FilesLieBelow(next, e.node.entries);
      forall p | p in RegularFiles(next, e.node.entries) ensures at == p[..|at|] {
        assert p[..|at|] == p[..|next|][..|at|] == at;
      }
    }
  }

  /** A file directly in an open directory is filtered out exactly when it tests as ignored itself. */
  lemma FileInOpen(pats: seq<Pattern>, at: Path, name: string)
    requires Open(pats, at)
    ensures FilteredOut(pats, at + [name]) <==> PathVerdict(pats, at + [name])
  {
    forall k | 1 <= k < |at + [name]| ensures !PathVerdict(pats, (at + [name])[..k]) {
      assert (at + [name])[..k] == at[..k];
    }
  }

  lemma OpenBelow(pats: seq<Pattern>, at: Path, name: string)
    requires Open(pats, at) && !PathVerdict(pats, at + [name])
    ensures Open(pats, at + [name])
  {
    var next := at + [name];
    forall k | 1 <= k <= |next| ensures !PathVerdict(pats, next[..k]) {
      assert k <= |at| ==> next[..k] == at[..k];
      assert k > |at| ==> next[..k] == next;
    }
  }

  /** Everything below a directory that tests as ignored is filtered out. */
  lemma NothingKeptBelow(pats: seq<Pattern>, at: Path, entries: seq<Entry>)
    requires at != [] && PathVerdict(pats, at)
    ensures Kept(pats, RegularFiles(at, entries)) == map[]
  {
    FilesLieBelow(at, entries);
    forall p | p in RegularFiles(at, entries) ensures FilteredOut(pats, p) {
      assert PathVerdict(pats, p[..|at|]);
    }
  }

  lemma KeptOneMore(pats: seq<Pattern>, start: map<Path, Bytes>, one: map<Path, Bytes>, rest: map<Path, Bytes>)
    ensures start + Kept(pats, one + rest) == (start + Kept(pats, one)) + Kept(pats, rest)
  {
  }

  lemma KeptFile(pats: seq<Pattern>, at: Path, name: string, content: Bytes)
    requires Open(pats, at)
    ensures Kept(pats, map[at + [name] := content]) ==
            if PathVerdict(pats, at + [name]) then map[] else map[at + [name] := content]
  {
    FileInOpen(pats, at, name);
  }

  /** The walk skips whole ignored directories and copies the rest file by file. */
  method CopyFiltered(at: Path, entries: seq<Entry>, mirror: Mirror, pats: seq<Pattern>)
    requires ValidEntries(entries) && ValidPath(at) && Open(pats, at)
    modifies mirror`files
    ensures mirror.files == old(mirror.files) + Kept(pats, RegularFiles(at, entries))
    decreases entries
  {
    var i := 0;
    assert entries[0..] == entries;
    ghost var goal := mirror.files + Kept(pats, RegularFiles(at, entries));
    while i < |entries|
      invariant 0 <= i <= |entries|
      invariant mirror.files + Kept(pats, RegularFiles(at, entries[i..])) == goal
    {
      assert entries[i..][1..] == entries[i + 1..];
      KeptOneMore(pats, mirror.files, FilesOf(at, entries[i]), RegularFiles(at, entries[i + 1..]));
      CopyEntry(at, entries[i], mirror, pats);
      i := i + 1;
    }
  }

  method CopyEntry(at: Path, e: Entry, mirror: Mirror, pats: seq<Pattern>)
    requires IsName(e.name) && (e.node.Directory? ==> ValidEntries(e.node.entries))
    requires ValidPath(at) && Open(pats, at)
    modifies mirror`files
    ensures mirror.files == old(mirror.files) + Kept(pats, FilesOf(at, e))
    decreases e
  {
    assert Kept(pats, map[]) == map[];
    if Reserved(e.name) {
      return;
    }
    var rel := at + [e.name];
    match e.node {
      case Directory(inner) =>
        var ignored := IsPathIgnored(pats, rel, true);
        if ignored {
          NothingKeptBelow(pats, rel, inner);
        } else {
          OpenBelow(pats, at, e.name);
          CopyFiltered(rel, inner, mirror, pats);
        }
      case File(content) =>
        KeptFile(pats, at, e.name, content);
        var ignored := IsPathIgnored(pats, rel, false);
        if !ignored {
          mirror.files := mirror.files[rel := content];
        }
      case Link =>
    }
  }

  /**
   * What is in a mirror that is a repository already is cleared first, so importing leaves exactly the
   * regular files the flat filter keeps; otherwise they come on top of what is there.
   */
  method Import(entries: seq<Entry>, mirror: Mirror, pats: seq<Pattern>)
    requires ValidEntries(entries)
    modifies mirror`files
    ensures mirror.files == (if mirror.isRepo then map[] else old(mirror.files)) + Kept(pats, RegularFiles([], entries))
  {
    if mirror.isRepo {
      mirror.files := map[];
    }
    CopyFiltered([], entries, mirror, pats);
  }
}
