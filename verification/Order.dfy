/** The lexicographic orders by which paths are sorted. */
module Order {
  type Path = seq<string>

  ghost predicate StrictTotal<T(!new)>(less: (T, T) -> bool) {
    && (forall a :: !less(a, a))
    && (forall a, b :: a == b || less(a, b) || less(b, a))
    && (forall a, b, c :: less(a, b) && less(b, c) ==> less(a, c))
  }

  predicate LexLess<T(==)>(less: (T, T) -> bool, a: seq<T>, b: seq<T>)
    decreases |a|
  {
    b != [] && (a == [] || less(a[0], b[0]) || (a[0] == b[0] && LexLess(less, a[1..], b[1..])))
  }

  predicate NameLess(a: string, b: string) {
    LexLess((x: char, y: char) => x < y, a, b)
  }

  /** Paths compare by components, and components by characters. */
  predicate PathLess(a: Path, b: Path) {
    LexLess(NameLess, a, b)
  }

  lemma {:induction false} LexIrreflexive<T(!new)>(less: (T, T) -> bool, a: seq<T>)
    requires StrictTotal(less)
    ensures !LexLess(less, a, a)
    decreases |a|
  {
    if a != [] {
      LexIrreflexive(less, a[1..]);
    }
  }

  lemma {:induction false} LexConnected<T(!new)>(less: (T, T) -> bool, a: seq<T>, b: seq<T>)
    requires StrictTotal(less)
    ensures a == b || LexLess(less, a, b) || LexLess(less, b, a)
    decreases |a|
  {
    if a != [] && b != [] && a[0] == b[0] {
      LexConnected(less, a[1..], b[1..]);
      assert a == [a[0]] + a[1..] && b == [b[0]] + b[1..];
    }
  }

  lemma {:induction false} LexTransitive<T(!new)>(less: (T, T) -> bool, a: seq<T>, b: seq<T>, c: seq<T>)
    requires StrictTotal(less) && LexLess(less, a, b) && LexLess(less, b, c)
    ensures LexLess(less, a, c)
    decreases |a|
  {
    if a != [] && a[0] == b[0] && b[0] == c[0] && !less(a[0], c[0]) {
      LexTransitive(less, a[1..], b[1..], c[1..]);
    }
  }

  lemma LexIsStrictTotal<T(!new)>(less: (T, T) -> bool)
    requires StrictTotal(less)
    ensures StrictTotal((a: seq<T>, b: seq<T>) => LexLess(less, a, b))
  {
    forall a: seq<T> ensures !LexLess(less, a, a) {
      LexIrreflexive(less, a);
    }
    forall a: seq<T>, b: seq<T> ensures a == b || LexLess(less, a, b) || LexLess(less, b, a) {
      LexConnected(less, a, b);
    }
    forall a: seq<T>, b: seq<T>, c: seq<T> | LexLess(less, a, b) && LexLess(less, b, c)
      ensures LexLess(less, a, c)
    {
      LexTransitive(less, a, b, c);
    }
  }

  /** Paths are strictly and totally ordered. */
  lemma PathsAreOrdered()
    ensures forall a :: !PathLess(a, a)
    ensures forall a, b :: a == b || PathLess(a, b) || PathLess(b, a)
    ensures forall a, b, c :: PathLess(a, b) && PathLess(b, c) ==> PathLess(a, c)
  {
    var chars := (x: char, y: char) => x < y;
    assert StrictTotal(chars);
    LexIsStrictTotal(chars);
    var names := (a: string, b: string) => LexLess(chars, a, b);
    assert StrictTotal(names);
    assert forall a, b :: NameLess(a, b) == names(a, b);
    assert StrictTotal(NameLess);
    LexIsStrictTotal(NameLess);
    var paths := (a: Path, b: Path) => LexLess(NameLess, a, b);
    assert forall a, b :: PathLess(a, b) == paths(a, b);
  }

  /** Behind what two sequences have in common, their first difference decides. */
  lemma {:induction false} FirstDifferenceDecides<T(!new)>(less: (T, T) -> bool, front: seq<T>, x: T, y: T, a: seq<T>, b: seq<T>)
    requires StrictTotal(less) && x != y
    ensures LexLess(less, front + [x] + a, front + [y] + b) <==> less(x, y)
    decreases |front|
  {
    var s, t := front + [x] + a, front + [y] + b;
    if front != [] {
      assert s[0] == front[0] == t[0] && s[1..] == front[1..] + [x] + a && t[1..] == front[1..] + [y] + b;
      FirstDifferenceDecides(less, front[1..], x, y, a, b);
    }
  }

  lemma {:induction false} PrefixComesFirst<T(!new)>(less: (T, T) -> bool, a: seq<T>, b: seq<T>)
    requires StrictTotal(less)
    ensures LexLess(less, a, a + b) <==> b != []
    decreases |a|
  {
    if a != [] {
      assert (a + b)[0] == a[0] && (a + b)[1..] == a[1..] + b;
      PrefixComesFirst(less, a[1..], b);
    }
  }

  /** Paths sort by their first different component, and that by its first different character; what is continued comes later. */
  lemma PathsSortByName(front: Path, name: string, x: char, y: char, a: string, b: string, p: Path, q: Path)
    requires x != y
    ensures PathLess(front + [name + [x] + a] + p, front + [name + [y] + b] + q) <==> x < y
    ensures PathLess(front + [name] + p, front + [name + [x] + a] + q) && PathLess(front, front + [name])
  {
    var chars := (c: char, d: char) => c < d;
    assert StrictTotal(chars);
    LexIsStrictTotal(chars);
    assert StrictTotal(NameLess) by {
      var names := (c: string, d: string) => LexLess(chars, c, d);
      assert StrictTotal(names);
      assert forall c, d :: NameLess(c, d) == names(c, d);
    }
    FirstDifferenceDecides(chars, name, x, y, a, b);
    PrefixComesFirst(chars, name, [x] + a);
    assert name + ([x] + a) == name + [x] + a;
    assert (name + [x] + a)[|name|] == x && (name + [y] + b)[|name|] == y;
    FirstDifferenceDecides(NameLess, front, name + [x] + a, name + [y] + b, p, q);
    FirstDifferenceDecides(NameLess, front, name, name + [x] + a, p, q);
    PrefixComesFirst(NameLess, front, [name]);
  }

  // ---- Sorted lists of distinct paths -------------------------------------------------------

  ghost predicate Increasing(s: seq<Path>) {
    forall i, j :: 0 <= i < j < |s| ==> PathLess(s[i], s[j])
  }

  /** `s` lists the paths of `paths` in order, each once. */
  ghost predicate Lists(s: seq<Path>, paths: set<Path>) {
    Increasing(s) && forall p :: p in s <==> p in paths
  }

  function Elems(s: seq<Path>): set<Path> {
    set p | p in s
  }

  /** Walking a sorted list meets each of its paths once. */
  lemma RestOfListing(s: seq<Path>, i: nat)
    requires Increasing(s) && i < |s|
    ensures s[i] in Elems(s[i..]) && Elems(s[i..]) - {s[i]} == Elems(s[i + 1..])
  {
    PathsAreOrdered();
    assert s[i..] == [s[i]] + s[i + 1..];
    assert s[i] !in s[i + 1..];
  }

  function Insert(p: Path, s: seq<Path>): seq<Path>
    decreases |s|
  {
    if s == [] || PathLess(p, s[0]) then [p] + s else [s[0]] + Insert(p, s[1..])
  }

  function Sort(s: seq<Path>): seq<Path>
    decreases |s|
  {
    if s == [] then [] else Insert(s[0], Sort(s[1..]))
  }

  lemma {:induction false} InsertLists(p: Path, s: seq<Path>)
    requires Increasing(s) && p !in s
    ensures Increasing(Insert(p, s))
    ensures forall q :: q in Insert(p, s) <==> q == p || q in s
    decreases |s|
  {
    PathsAreOrdered();
    if s != [] && !PathLess(p, s[0]) {
      InsertLists(p, s[1..]);
      var rest := Insert(p, s[1..]);
      assert forall q :: q in s <==> q == s[0] || q in s[1..];
      assert forall q :: q in rest ==> PathLess(s[0], q);
    }
  }

  /** `s` lists the paths of `paths`, each once, in whatever order they were met. */
  ghost predicate Collects(s: seq<Path>, paths: set<Path>) {
    (forall i, j :: 0 <= i < j < |s| ==> s[i] != s[j]) && forall p :: p in s <==> p in paths
  }

  lemma NothingCollected(paths: set<Path>, rest: set<Path>)
    requires paths <= rest
    ensures Collects([], paths - rest)
  {
  }

  lemma EmptyCollection(s: seq<Path>, paths: set<Path>)
    requires Collects(s, paths)
    ensures s == [] <==> paths == {}
  {
    if s != [] {
      assert s[0] in paths;
    }
  }

  lemma AllCollected(s: seq<Path>, paths: set<Path>)
    requires Collects(s, paths - {})
    ensures Collects(s, paths)
  {
    assert paths - {} == paths;
  }

  /** One more member of `rest` is looked at and, when it is in `paths`, collected. */
  lemma CollectNext(s: seq<Path>, paths: set<Path>, rest: set<Path>, p: Path)
    requires Collects(s, paths - rest) && p in rest
    ensures Collects(if p in paths then s + [p] else s, paths - (rest - {p}))
  {
    if p in paths {
      forall i, j | 0 <= i < j < |s + [p]| ensures (s + [p])[i] != (s + [p])[j] {
        assert s[i] in s;
      }
    }
  }

  lemma {:induction false} SortLists(s: seq<Path>, paths: set<Path>)
    requires Collects(s, paths)
    ensures Lists(Sort(s), paths)
    decreases |s|
  {
    if s != [] {
      assert forall q :: q in s <==> q == s[0] || q in s[1..];
      SortLists(s[1..], paths - {s[0]});
      InsertLists(s[0], Sort(s[1..]));
    }
  }

  lemma EmptyListing(s: seq<Path>, paths: set<Path>)
    requires Lists(s, paths)
    ensures s == [] <==> paths == {}
  {
    if s != [] {
      assert s[0] in paths;
    }
  }

  /** A set of paths has one sorted list, so a list that is sorted says all there is to say. */
  lemma {:induction false} ListingIsUnique(a: seq<Path>, b: seq<Path>, paths: set<Path>)
    requires Lists(a, paths) && Lists(b, paths)
    ensures a == b
    decreases |a|
  {
    PathsAreOrdered();
    EmptyListing(a, paths);
    EmptyListing(b, paths);
    if a != [] {
      assert a[0] in b && b[0] in a;
      assert a[0] == b[0];
      assert forall q :: q in a <==> q == a[0] || q in a[1..];
      assert forall q :: q in b <==> q == b[0] || q in b[1..];
      ListingIsUnique(a[1..], b[1..], paths - {a[0]});
      assert a == [a[0]] + a[1..] && b == [b[0]] + b[1..];
    }
  }
}
