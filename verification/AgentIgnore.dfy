/** The `.agentignore` patterns, the last-match-wins verdict, and the path test built on it. */
module AgentIgnore {
  import opened Wrappers
  import opened Text
  import opened Order
  import Glob

  datatype Pattern = Pattern(dirOnly: bool, anchored: bool, negated: bool, segments: seq<string>)

  // ---- Parsing one line ------------------------------------------------------------------------

  /** The text without `mark` in front, and whether the mark was there. */
  function StripFront(s: string, mark: char): (bool, string) {
    if s != "" && s[0] == mark then (true, s[1..]) else (false, s)
  }

  /** The text without the slashes it ends in, and whether there were any. */
  function StripSlashes(s: string): (bool, string) {
    if s != "" && s[|s| - 1] == '/' then (true, TrimEnd(s, '/')) else (false, s)
  }

  function ParsePattern(line: string): Option<Pattern> {
    var (negated, rest) := StripFront(line, '!');
    var (dirOnly, trimmed) := StripSlashes(rest);
    var (slash, body) := StripFront(trimmed, '/');
    if body == "" then None else Some(Pattern(dirOnly, slash || '/' in body, negated, Split(body, '/')))
  }

  function Mark(present: bool, mark: string): string {
    if present then mark else ""
  }

  function Render(pat: Pattern): string {
    Mark(pat.negated, "!") + (Mark(pat.anchored, "/") + Join(pat.segments, '/') + Mark(pat.dirOnly, "/"))
  }

  lemma FrontMark(present: bool, mark: char, text: string)
    requires text != "" && (present || text[0] != mark)
    ensures StripFront(Mark(present, [mark]) + text, mark) == (present, text)
  {
    assert !present ==> Mark(present, [mark]) + text == text;
  }

  lemma BackMark(present: bool, text: string)
    requires text != "" && text[|text| - 1] != '/'
    ensures StripSlashes(text + Mark(present, "/")) == (present, text)
  {
    var all := text + Mark(present, "/");
    if present {
      assert all[..|all| - 1] == text;
      assert TrimEnd(all, '/') == TrimEnd(text, '/');
    } else {
      assert all == text;
    }
  }

  /** What the parts in front of a text do to its first and last character. */
  lemma Ends(front: string, text: string, back: string)
    requires text != ""
    ensures (front + text)[|front + text| - 1] == text[|text| - 1]
    ensures (front + text + back)[0] == (front + text)[0]
    ensures front == "" ==> (front + text)[0] == text[0]
  {
  }

  lemma ParseParts(negated: bool, slash: bool, body: string, dirOnly: bool)
    requires body != "" && body[|body| - 1] != '/'
    requires slash || body[0] != '/'
    requires negated || slash || body[0] != '!'
    ensures ParsePattern(Mark(negated, "!") + (Mark(slash, "/") + body + Mark(dirOnly, "/"))) ==
            Some(Pattern(dirOnly, slash || '/' in body, negated, Split(body, '/')))
  {
    var trimmed := Mark(slash, "/") + body;
    Ends(Mark(slash, "/"), body, Mark(dirOnly, "/"));
    FrontMark(slash, '/', body);
    BackMark(dirOnly, trimmed);
    FrontMark(negated, '!', trimmed + Mark(dirOnly, "/"));
  }

  lemma {:induction false} TrimmedEnd(s: string, sep: char)
    ensures var t := TrimEnd(s, sep);
            && (t == "" || t[|t| - 1] != sep) && t <= s && (forall i :: |t| <= i < |s| ==> s[i] == sep)
  {
    if s != "" && s[|s| - 1] == sep {
      TrimmedEnd(s[..|s| - 1], sep);
    }
  }

  /** The parts a line was made of, told from the pattern it parsed to. */
  lemma PartsOf(line: string)
    requires ParsePattern(line).Some?
    ensures var pat := ParsePattern(line).value;
            var body := Join(pat.segments, '/');
            && body != "" && body[|body| - 1] != '/' && (pat.anchored || ('/' !in body && (pat.negated || body[0] != '!')))
            && Split(body, '/') == pat.segments && ('/' in body ==> pat.anchored)
  {
    var rest := StripFront(line, '!').1;
    var trimmed := StripSlashes(rest).1;
    var body := StripFront(trimmed, '/').1;
    TrimmedEnd(rest, '/');
    assert trimmed <= rest && body[|body| - 1] == trimmed[|trimmed| - 1];
    JoinSplit(body, '/');
  }

  lemma {:induction false} OnePart(s: string, sep: char)
    requires sep !in s
    ensures |Split(s, sep)| == 1
  {
    SplitWhole(s, sep);
  }

  /** Writing a pattern back gives a line for the same pattern; a pattern not anchored has one segment. */
  lemma RenderedPatternParsesBack(line: string)
    requires ParsePattern(line).Some?
    ensures ParsePattern(Render(ParsePattern(line).value)) == ParsePattern(line)
    ensures !ParsePattern(line).value.anchored ==> |ParsePattern(line).value.segments| == 1
  {
    var pat := ParsePattern(line).value;
    var body := Join(pat.segments, '/');
    PartsOf(line);
    ParseParts(pat.negated, pat.anchored, body, pat.dirOnly);
    if !pat.anchored {
      OnePart(body, '/');
    }
  }

  // ---- Matching one pattern ----------------------------------------------------------------------

  predicate MatchSegments(pat: seq<string>, candidate: seq<string>) {
    |pat| == |candidate| && forall i :: 0 <= i < |pat| ==> Glob.Matches(pat[i], candidate[i])
  }

  predicate MatchesSomewhere(pat: seq<string>, candidate: seq<string>) {
    if |pat| == 1 then exists i :: 0 <= i < |candidate| && Glob.Matches(pat[0], candidate[i])
    else exists start :: 0 <= start <= (if |candidate| < |pat| then 0 else |candidate| - |pat|) &&
                         MatchSegments(pat, candidate[start..])
  }

  predicate MatchesPattern(pat: Pattern, candidate: seq<string>, isDir: bool) {
    !(pat.dirOnly && !isDir && |candidate| <= |pat.segments|) &&
    if pat.anchored then MatchSegments(pat.segments, candidate) else MatchesSomewhere(pat.segments, candidate)
  }

  // ---- What a pattern means ----------------------------------------------------------------------

  /** The segment's characters, each standing for a piece of its own, make up the component. */
  ghost predicate SegmentFits(segment: string, component: string) {
    exists pieces :: Glob.SplitsInto(segment, component, pieces)
  }

  /** Read on its own, a directory-only pattern leaves a file alone unless it lies deeper than the pattern reaches. */
  predicate DirOnlyHolds(pat: Pattern, candidate: seq<string>, isDir: bool) {
    pat.dirOnly && !isDir ==> |candidate| > |pat.segments|
  }

  /** An anchored pattern matches from the root: as many components as segments, each fitting its segment. */
  lemma AnchoredMatchesIff(pat: Pattern, candidate: seq<string>, isDir: bool)
    requires pat.anchored
    ensures MatchesPattern(pat, candidate, isDir) <==>
            && |candidate| == |pat.segments| && (pat.dirOnly ==> isDir)
            && forall i :: 0 <= i < |candidate| ==> SegmentFits(pat.segments[i], candidate[i])
  {
    forall i | 0 <= i < |candidate| && i < |pat.segments|
      ensures Glob.Matches(pat.segments[i], candidate[i]) <==> SegmentFits(pat.segments[i], candidate[i])
    {
      Glob.MatchesIffSplits(pat.segments[i], candidate[i]);
    }
  }

  lemma FitsIff(segment: string, component: string)
    ensures Glob.Matches(segment, component) <==> SegmentFits(segment, component)
  {
    Glob.MatchesIffSplits(segment, component);
  }

  /** The last components are as many as the segments and fit them one by one. */
  ghost predicate EndFits(segments: seq<string>, candidate: seq<string>) {
    |segments| <= |candidate| &&
    forall i :: 0 <= i < |segments| ==> SegmentFits(segments[i], candidate[|candidate| - |segments| + i])
  }

  lemma EndFitsIff(segments: seq<string>, candidate: seq<string>)
    requires |segments| <= |candidate|
    ensures MatchSegments(segments, candidate[|candidate| - |segments|..]) <==> EndFits(segments, candidate)
  {
    var end := candidate[|candidate| - |segments|..];
    forall i | 0 <= i < |segments| ensures Glob.Matches(segments[i], end[i]) <==> SegmentFits(segments[i], end[i]) {
      FitsIff(segments[i], end[i]);
    }
    assert forall i :: 0 <= i < |segments| ==> end[i] == candidate[|candidate| - |segments| + i];
  }

  /** One that is not anchored matches where its one segment fits some component, or its several segments the last ones. */
  lemma LooseMatchesIff(pat: Pattern, candidate: seq<string>, isDir: bool)
    requires !pat.anchored
    ensures MatchesPattern(pat, candidate, isDir) <==>
            && DirOnlyHolds(pat, candidate, isDir)
            && if |pat.segments| == 1 then exists i :: 0 <= i < |candidate| && SegmentFits(pat.segments[0], candidate[i])
               else EndFits(pat.segments, candidate)
  {
    if |pat.segments| == 1 {
      forall i | 0 <= i < |candidate|
        ensures Glob.Matches(pat.segments[0], candidate[i]) <==> SegmentFits(pat.segments[0], candidate[i])
      {
        FitsIff(pat.segments[0], candidate[i]);
      }
    } else if |pat.segments| <= |candidate| {
      EndFitsIff(pat.segments, candidate);
    }
  }

  /** A name without slashes, wildcards or a leading exclamation mark. */
  predicate IsPlain(name: string) {
    name != "" && name[0] != '!' && '/' !in name && '*' !in name && '?' !in name
  }

  // ---- The verdict of a list of patterns ---------------------------------------------------------

  /** The fold over the patterns: each match overrides what came before it. */
  predicate Ignored(pats: seq<Pattern>, candidate: seq<string>, isDir: bool)
    decreases |pats|
  {
    candidate != [] && pats != [] &&
    var last := |pats| - 1;
    if MatchesPattern(pats[last], candidate, isDir) then !pats[last].negated else Ignored(pats[..last], candidate, isDir)
  }

  predicate LastMatch(pats: seq<Pattern>, candidate: seq<string>, isDir: bool, i: nat)
    requires i < |pats|
  {
    MatchesPattern(pats[i], candidate, isDir) &&
    forall j :: i < j < |pats| ==> !MatchesPattern(pats[j], candidate, isDir)
  }

  function NonEmpty(parts: seq<string>): seq<string> {
    if parts == [] then [] else (if parts[0] == "" then [] else [parts[0]]) + NonEmpty(parts[1..])
  }

  predicate IsDirText(rel: string) {
    rel != "" && rel[|rel| - 1] == '/'
  }

  function SegmentsOf(rel: string): seq<string> {
    NonEmpty(Split(TrimEnd(rel, '/'), '/'))
  }

  lemma FirstGrows(c: char, a: seq<string>, b: seq<string>)
    requires a != []
    ensures [[c] + (a + b)[0]] + (a + b)[1..] == ([[c] + a[0]] + a[1..]) + b
    ensures [""] + (a + b) == ([""] + a) + b
  {
  }

  lemma {:induction false} SplitAround(a: string, b: string)
    ensures Split(a + "/" + b, '/') == Split(a, '/') + Split(b, '/')
  {
    var s := a + "/" + b;
    if a == "" {
      assert s[1..] == b;
    } else {
      assert s[0] == a[0] && s[1..] == a[1..] + "/" + b;
      SplitAround(a[1..], b);
      FirstGrows(a[0], Split(a[1..], '/'), Split(b, '/'));
    }
  }

  lemma {:induction false} NonEmptyAppend(a: seq<string>, b: seq<string>)
    ensures NonEmpty(a + b) == NonEmpty(a) + NonEmpty(b)
  {
    if a == [] {
      assert a + b == b;
    } else {
      assert (a + b)[1..] == a[1..] + b;
      NonEmptyAppend(a[1..], b);
    }
  }

  lemma {:induction false} SlashesBehind(rel: string)
    ensures NonEmpty(Split(TrimEnd(rel, '/'), '/')) == NonEmpty(Split(rel, '/'))
  {
    if IsDirText(rel) {
      var front := rel[..|rel| - 1];
      SlashesBehind(front);
      SplitAround(front, "");
      assert rel == front + "/" + "";
      NonEmptyAppend(Split(front, '/'), [""]);
      assert [""][1..] == [];
    }
  }

  /** The segments on both sides of a slash are those of the whole, wherever it stands. */
  lemma SegmentsAround(front: string, behind: string)
    ensures SegmentsOf(front + "/" + behind) == SegmentsOf(front) + SegmentsOf(behind)
  {
    SlashesBehind(front);
    SlashesBehind(behind);
    SlashesBehind(front + "/" + behind);
    SplitAround(front, behind);
    NonEmptyAppend(Split(front, '/'), Split(behind, '/'));
  }

  /** What has no slash is its own segment, if it is anything at all. */
  lemma SegmentsOfName(name: string)
    requires '/' !in name
    ensures SegmentsOf(name) == if name == "" then [] else [name]
  {
    SlashesBehind(name);
    SplitWhole(name, '/');
    assert [name][1..] == [];
  }

  method IsIgnored(pats: seq<Pattern>, rel: string) returns (ignored: bool)
    ensures ignored <==> Ignored(pats, SegmentsOf(rel), IsDirText(rel))
  {
    var isDir := IsDirText(rel);
    var segments := SegmentsOf(rel);
    if segments == [] {
      return false;
    }
    ignored := false;
    var n := 0;
    while n < |pats|
      invariant 0 <= n <= |pats|
      invariant ignored <==> Ignored(pats[..n], segments, isDir)
    {
      var matched := MatchesPattern(pats[n], segments, isDir);
      assert pats[..n + 1][..n] == pats[..n];
      if matched {
        ignored := !pats[n].negated;
      }
      n := n + 1;
    }
    assert pats[..n] == pats;
  }

  lemma LastMatchBelow(pats: seq<Pattern>, candidate: seq<string>, isDir: bool, i: nat)
    requires i + 1 < |pats| && !MatchesPattern(pats[|pats| - 1], candidate, isDir)
    ensures LastMatch(pats, candidate, isDir, i) <==> LastMatch(pats[..|pats| - 1], candidate, isDir, i)
  {
    var init := pats[..|pats| - 1];
    assert forall j :: i <= j < |init| ==> init[j] == pats[j];
  }

  /** A path is ignored exactly when some pattern matches it, and the last that does is not a negation. */
  lemma {:induction false} LastMatchDecides(pats: seq<Pattern>, candidate: seq<string>, isDir: bool)
    requires candidate != []
    ensures Ignored(pats, candidate, isDir) <==>
            exists i :: 0 <= i < |pats| && LastMatch(pats, candidate, isDir, i) && !pats[i].negated
    decreases |pats|
  {
    if pats != [] {
      var last := |pats| - 1;
      if MatchesPattern(pats[last], candidate, isDir) {
        assert LastMatch(pats, candidate, isDir, last);
      } else {
        LastMatchDecides(pats[..last], candidate, isDir);
        forall i | 0 <= i < last
          ensures LastMatch(pats, candidate, isDir, i) <==> LastMatch(pats[..last], candidate, isDir, i)
        {
          LastMatchBelow(pats, candidate, isDir, i);
        }
      }
    }
  }

  // ---- What plain lines ignore -----------------------------------------------------------------------

  lemma PlainForm(negated: bool, slash: bool, name: string, dirOnly: bool, line: string)
    requires IsPlain(name) && line == Mark(negated, "!") + (Mark(slash, "/") + name + Mark(dirOnly, "/"))
    ensures ParsePattern(line) == Some(Pattern(dirOnly, slash, negated, [name]))
  {
    SplitWhole(name, '/');
    ParseParts(negated, slash, name, dirOnly);
  }

  lemma PlainPair(a: string, b: string)
    requires IsPlain(a) && IsPlain(b)
    ensures ParsePattern(a + "/" + b) == Some(Pattern(false, true, false, [a, b]))
  {
    var body := a + ['/'] + b;
    assert Join([a, b], '/') == body;
    SplitJoin([a, b], '/');
    assert body[|a|] == '/' && body[0] == a[0] && body[|body| - 1] == b[|b| - 1];
    ParseParts(false, false, body, false);
    assert Mark(false, "!") + (Mark(false, "/") + body + Mark(false, "/")) == a + "/" + b;
  }

  lemma OnePattern(pat: Pattern, candidate: seq<string>, isDir: bool)
    requires candidate != []
    ensures Ignored([pat], candidate, isDir) <==> MatchesPattern(pat, candidate, isDir) && !pat.negated
  {
    assert [pat][..0] == [];
  }

  /** The line `/name` ignores that one path. */
  lemma RootedLine(name: string, p: Path, isDir: bool)
    requires IsPlain(name) && p != []
    ensures ParsePattern("/" + name).Some?
    ensures Ignored([ParsePattern("/" + name).value], p, isDir) <==> p == [name]
  {
    PlainForm(false, true, name, false, "/" + name);
    OnePattern(Pattern(false, true, false, [name]), p, isDir);
    Glob.PlainMatchesItself(name, p[0]);
  }

  /** The line `name` ignores every path with that component. */
  lemma NameLine(name: string, p: Path, isDir: bool)
    requires IsPlain(name) && p != []
    ensures ParsePattern(name).Some?
    ensures Ignored([ParsePattern(name).value], p, isDir) <==> name in p
  {
    PlainForm(false, false, name, false, name);
    OnePattern(Pattern(false, false, false, [name]), p, isDir);
    forall i | 0 <= i < |p| ensures Glob.Matches(name, p[i]) <==> p[i] == name {
      Glob.PlainMatchesItself(name, p[i]);
    }
  }

  /** The line `name/` ignores every directory with that component, and every file but one at the root. */
  lemma DirectoryLine(name: string, p: Path, isDir: bool)
    requires IsPlain(name) && p != []
    ensures ParsePattern(name + "/").Some?
    ensures Ignored([ParsePattern(name + "/").value], p, isDir) <==> name in p && (isDir || |p| > 1)
  {
    PlainForm(false, false, name, true, name + "/");
    OnePattern(Pattern(true, false, false, [name]), p, isDir);
    forall i | 0 <= i < |p| ensures Glob.Matches(name, p[i]) <==> p[i] == name {
      Glob.PlainMatchesItself(name, p[i]);
    }
  }

  /** The line `a/b` ignores that one path below the root. */
  lemma PairLine(a: string, b: string, p: Path, isDir: bool)
    requires IsPlain(a) && IsPlain(b) && p != []
    ensures ParsePattern(a + "/" + b).Some?
    ensures Ignored([ParsePattern(a + "/" + b).value], p, isDir) <==> p == [a, b]
  {
    PlainPair(a, b);
    OnePattern(Pattern(false, true, false, [a, b]), p, isDir);
    Glob.PlainMatchesItself(a, p[0]);
    if |p| > 1 {
      Glob.PlainMatchesItself(b, p[1]);
    }
  }

  /** The line `!name` takes back what the lines before it ignore, for every path with that component. */
  lemma NegatedLine(pats: seq<Pattern>, name: string, p: Path, isDir: bool)
    requires IsPlain(name) && p != []
    ensures ParsePattern("!" + name).Some?
    ensures Ignored(pats + [ParsePattern("!" + name).value], p, isDir) <==> Ignored(pats, p, isDir) && name !in p
  {
    PlainForm(true, false, name, false, "!" + name);
    var all := pats + [Pattern(false, false, true, [name])];
    assert all[..|all| - 1] == pats;
    forall i | 0 <= i < |p| ensures Glob.Matches(name, p[i]) <==> p[i] == name {
      Glob.PlainMatchesItself(name, p[i]);
    }
  }

  // ---- The path test -----------------------------------------------------------------------------

  /** What the components of a path look like. */
  predicate IsName(name: string) {
    name != "" && '/' !in name
  }

  predicate ValidPath(p: Path) {
    forall i :: 0 <= i < |p| ==> IsName(p[i])
  }

  /** The path is ignored as a file, or it or one of its ancestors is ignored as a directory. */
  predicate PathVerdict(pats: seq<Pattern>, p: Path) {
    Ignored(pats, p, false) || exists k :: 1 <= k <= |p| && Ignored(pats, p[..k], true)
  }

  lemma {:induction false} NamesAreKept(p: Path)
    requires ValidPath(p)
    ensures NonEmpty(p) == p
  {
    if p != [] {
      assert IsName(p[0]);
      NamesAreKept(p[1..]);
    }
  }

  lemma {:induction false} JoinEnds(p: Path)
    requires ValidPath(p) && p != []
    ensures Join(p, '/') != "" && Join(p, '/')[|Join(p, '/')| - 1] != '/'
  {
    assert IsName(p[0]);
    if |p| > 1 {
      JoinEnds(p[1..]);
    }
  }

  /** The text of a path, read back as a file or with a slash as a directory, has its segments. */
  lemma TextOfPath(p: Path)
    requires ValidPath(p) && p != []
    ensures var rel := Join(p, '/');
            && rel != "" && Split(rel, '/') == p
            && SegmentsOf(rel) == p && !IsDirText(rel)
            && SegmentsOf(rel + "/") == p && IsDirText(rel + "/")
  {
    var rel := Join(p, '/');
    JoinEnds(p);
    forall i | 0 <= i < |p| ensures '/' !in p[i] {
      assert IsName(p[i]);
    }
    SplitJoin(p, '/');
    NamesAreKept(p);
    assert (rel + "/")[..|rel + "/"| - 1] == rel;
    assert TrimEnd(rel + "/", '/') == TrimEnd(rel, '/') == rel;
  }

  lemma TextOfDirectory(p: Path, rel: string)
    requires ValidPath(p) && p != [] && rel == Join(p, '/') + "/"
    ensures SegmentsOf(rel) == p && IsDirText(rel)
  {
    TextOfPath(p);
  }

  lemma TextOfFile(p: Path, rel: string)
    requires ValidPath(p) && rel == Join(p, '/')
    ensures rel == "" <==> p == []
    ensures p != [] ==> SegmentsOf(rel) == p && !IsDirText(rel) && Split(rel, '/') == p
  {
    if p != [] {
      TextOfPath(p);
    }
  }

  /** `isDir` makes no difference: the loop already tries the whole path as a directory. */
  method IsPathIgnored(pats: seq<Pattern>, p: Path, isDir: bool) returns (ignored: bool)
    requires ValidPath(p)
    ensures ignored <==> PathVerdict(pats, p)
  {
    var normalized := Join(p, '/');
    TextOfFile(p, normalized);
    if normalized == "" {
      return false;
    }
    var asFile := IsIgnored(pats, normalized);
    if asFile {
      return true;
    }
    var segments := Split(normalized, '/');
    var end := 1;
    while end <= |segments|
      invariant 1 <= end <= |segments| + 1
      invariant forall k :: 1 <= k < end ==> !Ignored(pats, p[..k], true)
    {
      var prefix := Join(segments[..end], '/') + "/";
      TextOfDirectory(p[..end], prefix);
      var asDir := IsIgnored(pats, prefix);
      if asDir {
        return true;
      }
      end := end + 1;
    }
    if isDir {
      TextOfDirectory(p, normalized + "/");
      ignored := IsIgnored(pats, normalized + "/");
      assert p[..|p|] == p;
      return ignored;
    }
    return false;
  }

  // ---- Files, directories and their descendants ---------------------------------------------

  lemma DirMatchesMore(pat: Pattern, candidate: seq<string>)
    ensures MatchesPattern(pat, candidate, false) ==> MatchesPattern(pat, candidate, true)
    ensures MatchesPattern(pat, candidate, true) && !MatchesPattern(pat, candidate, false) ==> pat.dirOnly
  {
  }

  /** The path is ignored as a file, but as a directory its last match is a directory-only negation. */
  predicate Reopened(pats: seq<Pattern>, candidate: seq<string>) {
    Ignored(pats, candidate, false) &&
    exists i :: 0 <= i < |pats| && LastMatch(pats, candidate, true, i) && pats[i].negated && pats[i].dirOnly
  }

  lemma {:induction false} HasLastMatch(pats: seq<Pattern>, candidate: seq<string>, isDir: bool, i: nat) returns (last: nat)
    requires i < |pats| && MatchesPattern(pats[i], candidate, isDir)
    ensures i <= last < |pats| && LastMatch(pats, candidate, isDir, last)
    decreases |pats| - i
  {
    if j :| i < j < |pats| && MatchesPattern(pats[j], candidate, isDir) {
      last := HasLastMatch(pats, candidate, isDir, j);
    } else {
      last := i;
    }
  }

  /** What is ignored as a file is ignored as a directory too, except exactly when it is reopened. */
  lemma ReopenedIff(pats: seq<Pattern>, candidate: seq<string>)
    ensures Reopened(pats, candidate) <==> Ignored(pats, candidate, false) && !Ignored(pats, candidate, true)
  {
    if candidate != [] {
      LastMatchDecides(pats, candidate, false);
      LastMatchDecides(pats, candidate, true);
    }
    if Ignored(pats, candidate, false) {
      var i :| 0 <= i < |pats| && LastMatch(pats, candidate, false, i) && !pats[i].negated;
      DirMatchesMore(pats[i], candidate);
      var last := HasLastMatch(pats, candidate, true, i);
      forall j | 0 <= j < |pats| && LastMatch(pats, candidate, true, j) ensures j == last {
      }
      if last > i {
        DirMatchesMore(pats[last], candidate);
      }
    }
  }

  /** The last pattern that matches the path as a directory is directory-only and no negation. */
  predicate TakenAsDirectory(pats: seq<Pattern>, candidate: seq<string>) {
    exists i :: 0 <= i < |pats| && LastMatch(pats, candidate, true, i) && !pats[i].negated && pats[i].dirOnly
  }

  /** What is not ignored as a file is ignored as a directory exactly when a directory-only pattern takes it. */
  lemma TakenAsDirectoryIff(pats: seq<Pattern>, candidate: seq<string>)
    requires candidate != []
    ensures !Ignored(pats, candidate, false) && Ignored(pats, candidate, true) <==>
            !Ignored(pats, candidate, false) && TakenAsDirectory(pats, candidate)
  {
    LastMatchDecides(pats, candidate, false);
    LastMatchDecides(pats, candidate, true);
    if i :| 0 <= i < |pats| && LastMatch(pats, candidate, true, i) && !pats[i].negated && !pats[i].dirOnly {
      DirMatchesMore(pats[i], candidate);
      forall j | i < j < |pats| ensures !MatchesPattern(pats[j], candidate, false) {
        DirMatchesMore(pats[j], candidate);
      }
      assert LastMatch(pats, candidate, false, i);
    }
  }

  /**
   * The verdict on a path, as a file or not, is that on the file or on a directory above it, but for the
   * paths a directory-only pattern takes: a regular file of such a name is ignored as well.
   */
  lemma FileTakenAsDirectoryIff(pats: seq<Pattern>, p: Path)
    requires p != []
    ensures PathVerdict(pats, p) <==>
            || Ignored(pats, p, false) || (exists k :: 1 <= k < |p| && Ignored(pats, p[..k], true))
            || TakenAsDirectory(pats, p)
  {
    TakenAsDirectoryIff(pats, p);
    assert p[..|p|] == p;
  }

  /** No pattern is both a negation and directory-only. */
  predicate NoDirNegation(pats: seq<Pattern>) {
    forall i :: 0 <= i < |pats| ==> !(pats[i].negated && pats[i].dirOnly)
  }

  /** The filter of the mirror's diff: the path itself, or any proper ancestor, tests as ignored. */
  predicate FilteredOut(pats: seq<Pattern>, p: Path) {
    PathVerdict(pats, p) || exists k :: 1 <= k < |p| && PathVerdict(pats, p[..k])
  }

  lemma VerdictOfAncestor(pats: seq<Pattern>, p: Path, k: nat)
    requires 1 <= k <= |p| && PathVerdict(pats, p[..k]) && !PathVerdict(pats, p)
    ensures Reopened(pats, p[..k])
  {
    ReopenedIff(pats, p[..k]);
    forall j | 1 <= j <= k ensures !Ignored(pats, p[..k][..j], true) {
      assert p[..k][..j] == p[..j];
    }
  }

  /** Without directory negations, everything below an ignored path is ignored. */
  lemma IgnoredIsClosedDownward(pats: seq<Pattern>, p: Path, k: nat)
    requires NoDirNegation(pats) && 1 <= k <= |p| && PathVerdict(pats, p[..k])
    ensures PathVerdict(pats, p)
  {
    if !PathVerdict(pats, p) {
      VerdictOfAncestor(pats, p, k);
      assert false;
    }
  }

  /** The walk over ancestors adds a path to the filter exactly when one of them is reopened. */
  lemma AncestorsMatterIff(pats: seq<Pattern>, p: Path)
    ensures FilteredOut(pats, p) != PathVerdict(pats, p) <==>
            !PathVerdict(pats, p) && exists k :: 1 <= k < |p| && Reopened(pats, p[..k])
    ensures NoDirNegation(pats) ==> (FilteredOut(pats, p) <==> PathVerdict(pats, p))
  {
    if !PathVerdict(pats, p) {
      forall k | 1 <= k < |p| ensures PathVerdict(pats, p[..k]) <==> Reopened(pats, p[..k]) {
        if PathVerdict(pats, p[..k]) {
          VerdictOfAncestor(pats, p, k);
        }
      }
    }
  }

  // ---- Where this is not what gitignore does ------------------------------------------------

  /** The condition is needed: `name` and then `!name/` keeps `name/inner`, yet an ancestor filters it out. */
  lemma ReopenedDirectoryStaysFiltered(name: string, inner: string)
    requires IsName(name) && '*' !in name && '?' !in name
    ensures var pats := [Pattern(false, false, false, [name]), Pattern(true, false, true, [name])];
            FilteredOut(pats, [name, inner]) && !PathVerdict(pats, [name, inner])
  {
    var plain, reopen := Pattern(false, false, false, [name]), Pattern(true, false, true, [name]);
    var pats, p := [plain, reopen], [name, inner];
    Glob.PlainMatchesItself(name, name);
    forall candidate: Path, isDir | candidate != [] && candidate[0] == name
      ensures Ignored(pats, candidate, isDir) <==> !isDir && |candidate| == 1
    {
      assert Glob.Matches(plain.segments[0], candidate[0]);
      assert MatchesPattern(plain, candidate, isDir);
      assert pats[..1] == [plain];
    }
    assert p[..1] == [name];
    assert PathVerdict(pats, p[..1]);
  }

  /** The shortest such case: a directory-only pattern takes out a regular file of that name. */
  lemma FileNamedLikeDirectoryIsIgnored(name: string)
    requires IsName(name) && '*' !in name && '?' !in name
    ensures var pats := [Pattern(true, false, false, [name])];
            PathVerdict(pats, [name]) && !Ignored(pats, [name], false)
  {
    var pats := [Pattern(true, false, false, [name])];
    Glob.PlainMatchesItself(name, name);
    assert Glob.Matches(pats[0].segments[0], [name][0]);
    assert Ignored(pats, [name][..1], true);
  }
}
