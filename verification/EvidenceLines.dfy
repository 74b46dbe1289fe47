/** What a line of command output reads as: which lines are errors, which file they name, and which of them match. */
module EvidenceLines {
  import opened Wrappers
  import opened Text
  import opened LineNumbers
  import opened EvidenceGate
  import opened Encoding
  import Bytes
  import Fnv

  // ---- Which lines are errors --------------------------------------------------------------------

  /** A line is an error by what stands in it: compile errors come first, then failed tests, then warnings. */
  lemma KindIff(line: string)
    ensures KindOf(line) == Some(CompileError) <==> Has(line, "error[") || Has(line, "error:")
    ensures KindOf(line) == Some(TestFailure) <==>
            Has(line, "FAILED") && !Has(line, "error[") && !Has(line, "error:")
    ensures KindOf(line) == Some(LintWarning) <==>
            Has(line, "warning:") && !Has(line, "FAILED") && !Has(line, "error[") && !Has(line, "error:")
    ensures KindOf(line).None? <==>
            !Has(line, "error[") && !Has(line, "error:") && !Has(line, "FAILED") && !Has(line, "warning:")
  {
    ContainsIff(line, "error[");
    ContainsIff(line, "error:");
    ContainsIff(line, "FAILED");
    ContainsIff(line, "warning:");
  }

  // ---- Which file a line names -------------------------------------------------------------------

  predicate NoSpace(s: string) {
    forall i :: 0 <= i < |s| ==> !IsSpace(s[i])
  }

  lemma {:induction false} OnePiece(piece: string)
    requires NoSpace(piece)
    ensures Pieces(piece) == [piece]
  {
    if piece != "" {
      OnePiece(piece[1..]);
      assert [piece[0]] + piece[1..] == piece;
    }
  }

  /** White space ends a piece, and what is behind it is read on its own. */
  lemma {:induction false} PieceEnds(piece: string, space: char, behind: string)
    requires NoSpace(piece) && IsSpace(space)
    ensures Pieces(piece + [space] + behind) == [piece] + Pieces(behind)
  {
    var line := piece + [space] + behind;
    if piece == "" {
      assert line[1..] == behind;
    } else {
      assert line[1..] == piece[1..] + [space] + behind;
      PieceEnds(piece[1..], space, behind);
      assert [piece[0]] + piece[1..] == piece;
    }
  }

  lemma {:induction false} UpToColonIff(piece: string, path: string)
    ensures UpToColon(piece) == Some(path) <==> ':' !in path && path + ":" <= piece
  {
    if piece != "" && piece[0] != ':' {
      if path != "" {
        UpToColonIff(piece[1..], path[1..]);
        assert path == [path[0]] + path[1..];
        assert path + ":" <= piece <==> path[0] == piece[0] && path[1..] + ":" <= piece[1..];
      }
      if UpToColon(piece) == Some(path) {
        assert path == [piece[0]] + path[1..];
      }
    } else if path + ":" <= piece && path != "" {
      assert (path + ":")[0] == path[0];
    }
  }

  /** `n` times the current directory. */
  function Dots(n: nat): string {
    if n == 0 then "" else "./" + Dots(n - 1)
  }

  /** A path looks like a source file when a dot is left behind the leading `./`. */
  ghost predicate LooksLikeFile(path: string) {
    exists n: nat, rest :: path == Dots(n) + rest && !("./" <= rest) && '.' in rest
  }

  lemma {:induction false} TrimmedDots(n: nat, rest: string)
    requires !("./" <= rest)
    ensures TrimDots(Dots(n) + rest) == rest
  {
    if n == 0 {
      assert Dots(0) + rest == rest;
    } else {
      Regroup("./", Dots(n - 1), rest);
      assert (Dots(n) + rest)[2..] == Dots(n - 1) + rest;
      TrimmedDots(n - 1, rest);
    }
  }

  lemma {:induction false} DotsTrimmed(path: string) returns (n: nat)
    ensures path == Dots(n) + TrimDots(path) && !("./" <= TrimDots(path))
    decreases |path|
  {
    if "./" <= path {
      var m := DotsTrimmed(path[2..]);
      n := m + 1;
      Regroup("./", Dots(m), TrimDots(path));
      assert path == "./" + path[2..];
    } else {
      n := 0;
      assert "" + path == path;
    }
  }

  lemma LikelyIff(path: string)
    ensures IsLikelySourceFile(path) <==> LooksLikeFile(path)
  {
    var n := DotsTrimmed(path);
    forall m: nat, rest | path == Dots(m) + rest && !("./" <= rest) ensures rest == TrimDots(path) {
      TrimmedDots(m, rest);
    }
  }

  /** A piece names the path in front of its first colon when that looks like a source file. */
  ghost predicate Names(piece: string, path: string) {
    ':' !in path && path + ":" <= piece && LooksLikeFile(path)
  }

  lemma NamesIff(piece: string, path: string)
    ensures Names(piece, path) <==> UpToColon(piece) == Some(path) && IsLikelySourceFile(path)
  {
    UpToColonIff(piece, path);
    LikelyIff(path);
  }

  /** The file of a line is the one its first piece to name a file names. */
  lemma {:induction false} FileInIff(pieces: seq<string>, path: string)
    ensures FileIn(pieces) == Some(path) <==>
            exists i :: 0 <= i < |pieces| && Names(pieces[i], path) && forall j, other :: 0 <= j < i ==> !Names(pieces[j], other)
  {
    if pieces != [] {
      forall other ensures Names(pieces[0], other) <==> UpToColon(pieces[0]) == Some(other) && IsLikelySourceFile(other) {
        NamesIff(pieces[0], other);
      }
      var rest := pieces[1..];
      if FirstNames(pieces[0]) {
        FirstDecides(pieces, path);
      } else {
        FileInIff(rest, path);
        LaterDecides(pieces, path);
      }
    }
  }

  predicate FirstNames(piece: string) {
    UpToColon(piece).Some? && IsLikelySourceFile(UpToColon(piece).value)
  }

  ghost predicate FirstToName(pieces: seq<string>, i: int, path: string) {
    0 <= i < |pieces| && Names(pieces[i], path) && forall j, other :: 0 <= j < i ==> !Names(pieces[j], other)
  }

  lemma FirstDecides(pieces: seq<string>, path: string)
    requires pieces != [] && FirstNames(pieces[0])
    ensures FileIn(pieces) == Some(path) <==>
            exists i :: 0 <= i < |pieces| && Names(pieces[i], path) && forall j, other :: 0 <= j < i ==> !Names(pieces[j], other)
  {
    var named := UpToColon(pieces[0]).value;
    NamesIff(pieces[0], named);
    NamesIff(pieces[0], path);
    if i :| FirstToName(pieces, i, path) {
      assert i == 0;
    }
    if FileIn(pieces) == Some(path) {
      assert FirstToName(pieces, 0, path);
    }
  }

  lemma LaterDecides(pieces: seq<string>, path: string)
    requires pieces != [] && forall other :: !Names(pieces[0], other)
    ensures (exists i :: FirstToName(pieces, i, path)) <==> exists i :: FirstToName(pieces[1..], i, path)
  {
    var rest := pieces[1..];
    if i :| FirstToName(pieces, i, path) {
      assert rest[i - 1] == pieces[i];
      assert forall j :: 0 <= j < i - 1 ==> rest[j] == pieces[j + 1];
      assert FirstToName(rest, i - 1, path);
    }
    if i :| FirstToName(rest, i, path) {
      assert pieces[i + 1] == rest[i];
      assert forall j :: 0 < j < i + 1 ==> pieces[j] == rest[j - 1];
      assert FirstToName(pieces, i + 1, path);
    }
  }

  // ---- Which messages match ------------------------------------------------------------------------

  lemma AsciiByte(c: char)
    requires c < '\U{80}'
    ensures Utf8([c]) == [c as int as bv8]
  {
    assert [c][1..] == "";
  }

  lemma OtherByte(c: nat, d: nat)
    requires c < 256 && d < 256 && c != d
    ensures c as bv8 != d as bv8
  {
    Bytes.ByteValue(c);
    Bytes.ByteValue(d);
  }

  /** Messages that still differ in one ASCII character once normalized never match. */
  lemma OneCharacterApart(a: ErrorEntry, b: ErrorEntry, front: string, c: char, d: char, back: string)
    requires StripLineNumbers(a.message) == front + [c] + back && StripLineNumbers(b.message) == front + [d] + back
    requires c < '\U{80}' && d < '\U{80}' && c != d
    ensures !ErrorsMatch(a, b)
  {
    AsciiByte(c);
    AsciiByte(d);
    OtherByte(c as int, d as int);
    Utf8Append(front + [c], back);
    Utf8Append(front + [d], back);
    Utf8Append(front, [c]);
    Utf8Append(front, [d]);
    Fnv.OneByteApart(Utf8(front), c as int as bv8, d as int as bv8, Utf8(back));
  }

  // ---- From the lines to the verdict -------------------------------------------------------------

  /** A line that is an error is one of its kind, about the file it names, with the whole line as its message. */
  lemma ParsedAs(line: string)
    ensures ParseLine(line).Some? <==> KindOf(line).Some?
    ensures ParseLine(line).Some? ==>
              var e := ParseLine(line).value;
              Some(e.kind) == KindOf(line) && e.file == FileIn(Pieces(line)) && e.message == line
  {
  }

  /** Two lines that are errors are taken for the same one: same kind, same file, same hash of the normalized text. */
  predicate SameError(past: string, line: string) {
    && KindOf(past) == KindOf(line) && FileIn(Pieces(past)) == FileIn(Pieces(line))
    && Fnv.Hash(Utf8(StripLineNumbers(past))) == Fnv.Hash(Utf8(StripLineNumbers(line)))
  }

  /** The line is an error and none of `before` is the same one. */
  ghost predicate IsNew(before: seq<string>, line: string) {
    KindOf(line).Some? && forall past :: past in before ==> !SameError(past, line)
  }

  lemma KnownIff(before: seq<string>, line: string)
    requires KindOf(line).Some?
    ensures Known(ParseLines(before), ParseLine(line).value) <==> exists past :: past in before && SameError(past, line)
  {
    var e := ParseLine(line).value;
    if i :| 0 <= i < |ParseLines(before)| && ErrorsMatch(ParseLines(before)[i], e) {
      ParsedFrom(before, ParseLines(before)[i]);
      var k :| 0 <= k < |before| && ParseLine(before[k]) == Some(ParseLines(before)[i]);
      assert before[k] in before && SameError(before[k], line);
    }
    if past :| past in before && SameError(past, line) {
      var k :| 0 <= k < |before| && before[k] == past;
      MatchedLineIsKnown(before, k, e);
    }
  }

  lemma NewIff(before: seq<string>, line: string)
    ensures IsNew(before, line) <==> ParseLine(line).Some? && !Known(ParseLines(before), ParseLine(line).value)
  {
    if KindOf(line).Some? {
      KnownIff(before, line);
    }
  }

  lemma NewLineFails(before: seq<string>, now: seq<string>, line: string)
    requires line in now && IsNew(before, line)
    ensures !Passes(ParseLines(before), ParseLines(now))
  {
    var e := ParseLine(line).value;
    NewIff(before, line);
    var k :| 0 <= k < |now| && now[k] == line;
    ParsedFrom(now, e);
    var i :| 0 <= i < |ParseLines(now)| && ParseLines(now)[i] == e;
  }

  lemma FailureHasNewLine(before: seq<string>, now: seq<string>) returns (line: string)
    requires !Passes(ParseLines(before), ParseLines(now))
    ensures line in now && IsNew(before, line)
  {
    var i :| 0 <= i < |ParseLines(now)| && !Known(ParseLines(before), ParseLines(now)[i]);
    ParsedFrom(now, ParseLines(now)[i]);
    var k :| 0 <= k < |now| && ParseLine(now[k]) == Some(ParseLines(now)[i]);
    line := now[k];
    NewIff(before, line);
  }

  /** The gate fails exactly when some line of the commands' output is an error and no line of the baseline is the same one. */
  lemma GateFailsIff(baseline: seq<EvidenceResult>, current: seq<EvidenceResult>)
    ensures !Passes(AllErrors(baseline), AllErrors(current)) <==>
            exists line :: line in LinesOf(current) && IsNew(LinesOf(baseline), line)
  {
    ErrorsOfLines(baseline);
    ErrorsOfLines(current);
    var before, now := LinesOf(baseline), LinesOf(current);
    if !Passes(ParseLines(before), ParseLines(now)) {
      var line := FailureHasNewLine(before, now);
    }
    if line :| line in now && IsNew(before, line) {
      NewLineFails(before, now, line);
    }
  }

  /** A failure is put down to the first command that did not exit with zero, and to none if all did. */
  lemma {:induction false} FirstFailingIs(results: seq<EvidenceResult>)
    ensures (forall i :: 0 <= i < |results| ==> results[i].exitCode == 0) ==> FirstFailing(results) == ""
    ensures forall k :: 0 <= k < |results| && results[k].exitCode != 0 && (forall i :: 0 <= i < k ==> results[i].exitCode == 0) ==>
              FirstFailing(results) == results[k].command
  {
    if results != [] {
      var rest := results[1..];
      FirstFailingIs(rest);
      assert forall i :: 0 < i < |results| ==> results[i] == rest[i - 1];
      forall k | 0 < k < |results| && results[k].exitCode != 0 && (forall i :: 0 <= i < k ==> results[i].exitCode == 0)
        ensures FirstFailing(results) == results[k].command
      {
        assert forall i :: 0 <= i < k - 1 ==> rest[i] == results[i + 1];
      }
    }
  }

  /** What separates pieces are the characters with the Unicode property White_Space. */
  lemma SpacesAre(c: char)
    ensures IsSpace(c) <==>
            c as int in {9, 10, 11, 12, 13, 32, 133, 160, 5760, 8192, 8193, 8194, 8195, 8196, 8197, 8198, 8199, 8200, 8201, 8202,
                         8232, 8233, 8239, 8287, 12288}
  {
  }
}
