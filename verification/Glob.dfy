/** The backtracking matcher for one path segment. */
module Glob {
  import opened Text

  /** What one pattern character may stand for. */
  predicate Fits(ch: char, piece: string) {
    ch == '*' || (if ch == '?' then |piece| == 1 else piece == [ch])
  }

  /** `c` splits into pieces, one for each character of the pattern, each fitting its character. */
  ghost predicate SplitsInto(p: string, c: string, pieces: seq<string>) {
    |pieces| == |p| && Concat(pieces) == c && forall i :: 0 <= i < |p| ==> Fits(p[i], pieces[i])
  }

  predicate Matches(p: string, c: string)
    decreases |p|
  {
    if p == "" then c == ""
    else if p[0] == '*' then exists k :: 0 <= k <= |c| && Matches(p[1..], c[k..])
    else c != "" && (p[0] == '?' || c[0] == p[0]) && Matches(p[1..], c[1..])
  }

  lemma {:induction false} MatchHasSplit(p: string, c: string) returns (pieces: seq<string>)
    requires Matches(p, c)
    ensures SplitsInto(p, c, pieces)
    decreases |p|
  {
    if p == "" {
      pieces := [];
    } else {
      var k := 1;
      if p[0] == '*' {
        k :| 0 <= k <= |c| && Matches(p[1..], c[k..]);
      }
      var rest := MatchHasSplit(p[1..], c[k..]);
      pieces := [c[..k]] + rest;
      assert pieces[1..] == rest && c[..k] + c[k..] == c;
    }
  }

  lemma {:induction false} SplitIsMatch(p: string, c: string, pieces: seq<string>)
    requires SplitsInto(p, c, pieces)
    ensures Matches(p, c)
    decreases |p|
  {
    if p != "" {
      var k := |pieces[0]|;
      assert Fits(p[0], pieces[0]);
      assert c[..k] == pieces[0] && c[k..] == Concat(pieces[1..]);
      SplitIsMatch(p[1..], c[k..], pieces[1..]);
    }
  }

  /** A pattern matches exactly the texts that split into fitting pieces. */
  lemma MatchesIffSplits(p: string, c: string)
    ensures Matches(p, c) <==> exists pieces :: SplitsInto(p, c, pieces)
  {
    if Matches(p, c) {
      var pieces := MatchHasSplit(p, c);
    }
    if pieces :| SplitsInto(p, c, pieces) {
      SplitIsMatch(p, c, pieces);
    }
  }

  /** A pattern without wildcards matches exactly itself. */
  lemma {:induction false} PlainMatchesItself(p: string, c: string)
    requires '*' !in p && '?' !in p
    ensures Matches(p, c) <==> p == c
    decreases |p|
  {
    if p != "" && c != "" {
      PlainMatchesItself(p[1..], c[1..]);
      assert p == [p[0]] + p[1..] && c == [c[0]] + c[1..];
    }
  }

  predicate MatchesFrom(p: string, pi: nat, c: string, ci: nat)
    requires pi <= |p| && ci <= |c|
  {
    Matches(p[pi..], c[ci..])
  }

  lemma OneCharacter(p: string, pi: nat, c: string, ci: nat)
    requires pi < |p| && ci <= |c| && p[pi] != '*'
    ensures MatchesFrom(p, pi, c, ci) <==>
            ci < |c| && (p[pi] == '?' || c[ci] == p[pi]) && MatchesFrom(p, pi + 1, c, ci + 1)
  {
    assert p[pi..][1..] == p[pi + 1..];
    if ci < |c| {
      assert c[ci..][1..] == c[ci + 1..];
    }
  }

  /** The pattern from `next` on matches at some position from `ci` on. */
  predicate MatchesLater(p: string, next: nat, c: string, ci: nat)
    requires next <= |p| && ci <= |c|
  {
    exists k :: ci <= k <= |c| && MatchesFrom(p, next, c, k)
  }

  lemma Star(p: string, pi: nat, c: string, ci: nat)
    requires pi < |p| && ci <= |c| && p[pi] == '*'
    ensures MatchesFrom(p, pi, c, ci) <==> MatchesLater(p, pi + 1, c, ci)
  {
    var next, tail := pi + 1, c[ci..];
    assert p[pi..][1..] == p[next..];
    forall k | 0 <= k <= |tail| ensures tail[k..] == c[ci + k..] {
    }
    if MatchesFrom(p, pi, c, ci) {
      var k :| 0 <= k <= |tail| && Matches(p[pi..][1..], tail[k..]);
      assert MatchesFrom(p, next, c, ci + k);
    }
    if MatchesLater(p, next, c, ci) {
      var k :| ci <= k <= |c| && MatchesFrom(p, next, c, k);
      assert Matches(p[pi..][1..], tail[k - ci..]);
    }
  }

  /** A star at the end takes whatever is left. */
  lemma LastStar(p: string, c: string, ci: nat)
    requires p != "" && p[|p| - 1] == '*' && ci <= |c|
    ensures MatchesFrom(p, |p| - 1, c, ci)
  {
    Star(p, |p| - 1, c, ci);
    assert MatchesFrom(p, |p|, c, |c|);
  }

  /** The matcher: literals and `?` advance in the loop, a star tries every position by recursion. */
  method GlobMatchInner(p: string, start: nat, c: string, from: nat) returns (found: bool)
    requires start <= |p| && from <= |c|
    ensures found <==> MatchesFrom(p, start, c, from)
    decreases |p| - start
  {
    var pi, ci := start, from;
    while pi < |p|
      invariant start <= pi <= |p| && from <= ci <= |c|
      invariant MatchesFrom(p, start, c, from) <==> MatchesFrom(p, pi, c, ci)
    {
      if p[pi] == '*' {
        Star(p, pi, c, ci);
        if pi == |p| - 1 {
          LastStar(p, c, ci);
          return true;
        }
        ghost var here, next := ci, pi + 1;
        while ci <= |c|
          invariant here <= ci <= |c| + 1
          invariant forall k :: here <= k < ci ==> !MatchesFrom(p, next, c, k)
        {
          var rest := GlobMatchInner(p, pi + 1, c, ci);
          if rest {
            return true;
          }
          ci := ci + 1;
        }
        return false;
      }
      OneCharacter(p, pi, c, ci);
      if p[pi] == '?' {
        if ci >= |c| {
          return false;
        }
        ci, pi := ci + 1, pi + 1;
      } else {
        if ci >= |c| || c[ci] != p[pi] {
          return false;
        }
        ci, pi := ci + 1, pi + 1;
      }
    }
    return ci == |c|;
  }

  method GlobMatch(pattern: string, candidate: string) returns (found: bool)
    ensures found <==> exists pieces :: SplitsInto(pattern, candidate, pieces)
  {
    found := GlobMatchInner(pattern, 0, candidate, 0);
    MatchesIffSplits(pattern, candidate);
    assert pattern[0..] == pattern && candidate[0..] == candidate;
  }
}
