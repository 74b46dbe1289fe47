/** The evidence gate: diagnostics read from command output, and what counts as a new failure. */
module EvidenceGate {
  import opened Wrappers
  import opened Text
  import opened LineNumbers
  import opened Encoding
  import Fnv

  datatype ErrorKind = CompileError | TestFailure | LintWarning | Other

  datatype ErrorEntry = ErrorEntry(file: Option<string>, kind: ErrorKind, message: string)

  /** One command run: `lines` are the trimmed lines of its output and then of its error output. */
  datatype EvidenceResult = EvidenceResult(command: string, exitCode: int, lines: seq<string>)

  datatype EvidenceFailure = EvidenceFailure(command: string, newErrors: seq<ErrorEntry>)

  // ---- Reading a line --------------------------------------------------------------------------

  function KindOf(line: string): Option<ErrorKind> {
    if Contains(line, "error[") || Contains(line, "error:") then Some(CompileError)
    else if Contains(line, "FAILED") then Some(TestFailure)
    else if Contains(line, "warning:") then Some(LintWarning)
    else None
  }

  predicate IsSpace(c: char) {
    '\t' <= c <= '\r' || c in {' ', '\U{85}', '\U{A0}', '\U{1680}', '\U{2028}', '\U{2029}', '\U{202F}', '\U{205F}', '\U{3000}'} ||
    '\U{2000}' <= c <= '\U{200A}'
  }

  function Prepend(c: char, pieces: seq<string>): seq<string>
    requires pieces != []
  {
    if IsSpace(c) then [""] + pieces else [[c] + pieces[0]] + pieces[1..]
  }

  /** The pieces of a line between white space; an empty piece names no file. */
  function Pieces(line: string): (pieces: seq<string>)
    ensures pieces != []
  {
    if line == "" then [""] else Prepend(line[0], Pieces(line[1..]))
  }

  function UpToColon(piece: string): Option<string> {
    if piece == "" then None
    else if piece[0] == ':' then Some("")
    else match UpToColon(piece[1..])
         case Some(s) => Some([piece[0]] + s)
         case None => None
  }

  function TrimDots(path: string): string
    decreases |path|
  {
    if "./" <= path then TrimDots(path[2..]) else path
  }

  predicate IsLikelySourceFile(path: string) {
    '.' in TrimDots(path)
  }

  function FileIn(pieces: seq<string>): Option<string> {
    if pieces == [] then None else
    match UpToColon(pieces[0])
    case Some(path) => if IsLikelySourceFile(path) then Some(path) else FileIn(pieces[1..])
    case None => FileIn(pieces[1..])
  }

  function ParseLine(line: string): Option<ErrorEntry> {
    match KindOf(line)
    case Some(kind) => Some(ErrorEntry(FileIn(Pieces(line)), kind, line))
    case None => None
  }

  function ParseLines(lines: seq<string>): seq<ErrorEntry> {
    if lines == [] then [] else
    (match ParseLine(lines[0]) case Some(entry) => [entry] case None => []) + ParseLines(lines[1..])
  }

  function AllErrors(results: seq<EvidenceResult>): seq<ErrorEntry> {
    if results == [] then [] else ParseLines(results[0].lines) + AllErrors(results[1..])
  }

  // ---- Matching ----------------------------------------------------------------------------------

  function MessageHash(message: string): bv64 {
    Fnv.Hash(Utf8(StripLineNumbers(message)))
  }

  predicate ErrorsMatch(a: ErrorEntry, b: ErrorEntry) {
    a.kind == b.kind && a.file == b.file && MessageHash(a.message) == MessageHash(b.message)
  }

  predicate Known(baseline: seq<ErrorEntry>, e: ErrorEntry) {
    exists i :: 0 <= i < |baseline| && ErrorsMatch(baseline[i], e)
  }

  /** The gate passes when everything the commands report now was reported before. */
  predicate Passes(baseline: seq<ErrorEntry>, current: seq<ErrorEntry>) {
    forall i :: 0 <= i < |current| ==> Known(baseline, current[i])
  }

  lemma PassesNext(known: seq<ErrorEntry>, current: seq<ErrorEntry>, i: nat)
    requires i < |current| && Passes(known, current[..i])
    ensures Passes(known, current[..i + 1]) <==> Known(known, current[i])
    ensures !Known(known, current[i]) ==> !Passes(known, current)
  {
    assert current[..i + 1] == current[..i] + [current[i]];
  }

  method HasUnknown(known: seq<ErrorEntry>, current: seq<ErrorEntry>) returns (unknown: bool)
    ensures unknown <==> !Passes(known, current)
    ensures unknown ==> current != []
  {
    var i := 0;
    while i < |current|
      invariant 0 <= i <= |current|
      invariant Passes(known, current[..i])
    {
      PassesNext(known, current, i);
      if !Known(known, current[i]) {
        return true;
      }
      i := i + 1;
    }
    assert current[..i] == current;
    return false;
  }

  class EvidenceGate {
    const commands: seq<string>
    var baseline: seq<EvidenceResult>

    constructor (commands: seq<string>)
      ensures this.commands == commands && baseline == []
    {
      this.commands := commands;
      baseline := [];
    }

    /** `ran` is what running the commands came to; nothing when one could not be executed. */
    method CaptureBaseline(ran: Option<seq<EvidenceResult>>) returns (ok: bool)
      modifies this
      ensures ok == ran.Some?
      ensures baseline == if ran.Some? then ran.value else old(baseline)
    {
      ok := ran.Some?;
      if ran.Some? {
        baseline := ran.value;
      }
    }

    /** Fails exactly when some error now is not known from the baseline, and then reports every error there is now. */
    method Verify(ran: Option<seq<EvidenceResult>>, failedCommand: string) returns (failure: Option<EvidenceFailure>)
      ensures ran.None? ==>
                failure == Some(EvidenceFailure(failedCommand, [ErrorEntry(None, Other, "failed to execute evidence commands")]))
      ensures ran.Some? ==> (failure.None? <==> Passes(AllErrors(baseline), AllErrors(ran.value)))
      ensures ran.Some? && failure.Some? ==>
                failure.value == EvidenceFailure(FirstFailing(ran.value), AllErrors(ran.value)) && failure.value.newErrors != []
    {
      if ran.None? {
        return Some(CouldNotRun(failedCommand));
      }
      var current := AllErrors(ran.value);
      var unknown := HasUnknown(AllErrors(baseline), current);
      return if unknown then Some(EvidenceFailure(FirstFailing(ran.value), current)) else None;
    }
  }

  function CouldNotRun(command: string): EvidenceFailure {
    EvidenceFailure(command, [ErrorEntry(None, Other, "failed to execute evidence commands")])
  }

  function FirstFailing(results: seq<EvidenceResult>): string {
    if results == [] then "" else if results[0].exitCode != 0 then results[0].command else FirstFailing(results[1..])
  }

  // ---- Line numbers do not matter, from the line to the verdict ----------------------------------

  predicate NoDigits(part: string) {
    part != "" && forall i :: 0 <= i < |part| ==> !IsDigit(part[i])
  }

  lemma {:induction false} ContainsBehindNumber(number: string, behind: string, part: string)
    requires AllDigits(number) && NoDigits(part)
    ensures Contains(number + behind, part) <==> Contains(behind, part)
  {
    if number == "" {
      assert number + behind == behind;
    } else {
      assert (number + behind)[1..] == number[1..] + behind;
      assert part[0] != number[0];
      ContainsBehindNumber(number[1..], behind, part);
    }
  }

  lemma PrefixStopsAtNumber(before: string, number: string, behind: string, part: string)
    requires number != "" && AllDigits(number) && NoDigits(part)
    ensures part <= Numbered(before, number, behind) <==> part <= before + ":"
  {
    var s := Numbered(before, number, behind);
    assert s == (before + ":") + (number + behind);
    assert s[|before| + 1] == number[0];
  }

  /** A text without digits occurs in front of a number or behind it, whatever the number. */
  lemma {:induction false} ContainsAroundNumber(before: string, number: string, behind: string, part: string)
    requires number != "" && AllDigits(number) && NoDigits(part)
    ensures Contains(Numbered(before, number, behind), part) <==> Contains(before + ":", part) || Contains(behind, part)
  {
    var s := Numbered(before, number, behind);
    PrefixStopsAtNumber(before, number, behind, part);
    if before == "" {
      TailParts(number, behind);
      assert s == Tail(number, behind) && (before + ":")[1..] == "";
      ContainsBehindNumber(number, behind, part);
    } else {
      assert s[1..] == Numbered(before[1..], number, behind) && (before + ":")[1..] == before[1..] + ":";
      ContainsAroundNumber(before[1..], number, behind, part);
    }
  }

  lemma SameContains(before: string, a: string, b: string, behind: string, part: string)
    requires IsNumber(a, behind) && IsNumber(b, behind) && NoDigits(part)
    ensures Contains(Numbered(before, a, behind), part) <==> Contains(Numbered(before, b, behind), part)
  {
    ContainsAroundNumber(before, a, behind, part);
    ContainsAroundNumber(before, b, behind, part);
  }

  lemma SameKind(before: string, a: string, b: string, behind: string)
    requires IsNumber(a, behind) && IsNumber(b, behind)
    ensures KindOf(Numbered(before, a, behind)) == KindOf(Numbered(before, b, behind))
  {
    SameContains(before, a, b, behind, "error[");
    SameContains(before, a, b, behind, "error:");
    SameContains(before, a, b, behind, "FAILED");
    SameContains(before, a, b, behind, "warning:");
  }

  /** Piece by piece, the same text up to the first colon. */
  ghost predicate SameUpToColons(ps: seq<string>, qs: seq<string>) {
    |ps| == |qs| && forall i :: 0 <= i < |ps| ==> UpToColon(ps[i]) == UpToColon(qs[i])
  }

  lemma {:induction false} SameFileIn(ps: seq<string>, qs: seq<string>)
    requires SameUpToColons(ps, qs)
    ensures FileIn(ps) == FileIn(qs)
  {
    if ps != [] {
      SameFileIn(ps[1..], qs[1..]);
    }
  }

  /** Numbers belong to the piece they stand in, and change nothing about the pieces behind. */
  lemma {:induction false} PiecesOfNumber(number: string, behind: string)
    requires AllDigits(number)
    ensures Pieces(number + behind) == [number + Pieces(behind)[0]] + Pieces(behind)[1..]
  {
    if number == "" {
      assert number + behind == behind;
      assert "" + Pieces(behind)[0] == Pieces(behind)[0];
    } else {
      var rest := Pieces(behind);
      assert (number + behind)[1..] == number[1..] + behind;
      assert IsDigit(number[0]);
      PiecesOfNumber(number[1..], behind);
      assert ([number[1..] + rest[0]] + rest[1..])[1..] == rest[1..];
      assert number == [number[0]] + number[1..];
      Regroup([number[0]], number[1..], rest[0]);
    }
  }

  lemma ColonBehind(c: char, p: string, q: string)
    requires UpToColon(p) == UpToColon(q)
    ensures UpToColon([c] + p) == UpToColon([c] + q)
  {
    assert ([c] + p)[1..] == p && ([c] + q)[1..] == q;
  }

  lemma PrependKeepsSame(c: char, ps: seq<string>, qs: seq<string>)
    requires ps != [] && qs != [] && SameUpToColons(ps, qs)
    ensures SameUpToColons(Prepend(c, ps), Prepend(c, qs))
  {
    var ps', qs' := Prepend(c, ps), Prepend(c, qs);
    ColonBehind(c, ps[0], qs[0]);
    forall i | 0 <= i < |ps'|
      ensures UpToColon(ps'[i]) == UpToColon(qs'[i])
    {
      var k := if IsSpace(c) then i - 1 else i;
      if k >= 0 {
        assert UpToColon(ps[k]) == UpToColon(qs[k]);
      }
    }
  }

  /** A numbered colon names no file itself, and the pieces behind it are those of the rest. */
  lemma FirstPiece(number: string, behind: string)
    requires AllDigits(number)
    ensures var pieces := Pieces(Tail(number, behind));
            UpToColon(pieces[0]) == Some("") && pieces[1..] == Pieces(behind)[1..]
  {
    TailParts(number, behind);
    PiecesOfNumber(number, behind);
    var rest := Pieces(number + behind);
    assert rest[1..] == Pieces(behind)[1..];
    assert Pieces(Tail(number, behind)) == [":" + rest[0]] + rest[1..];
  }

  lemma {:induction false} SamePieces(before: string, a: string, b: string, behind: string)
    requires IsNumber(a, behind) && IsNumber(b, behind)
    ensures SameUpToColons(Pieces(Numbered(before, a, behind)), Pieces(Numbered(before, b, behind)))
  {
    var s, t := Numbered(before, a, behind), Numbered(before, b, behind);
    if before == "" {
      TailParts(a, behind);
      TailParts(b, behind);
      assert s == Tail(a, behind) && t == Tail(b, behind);
      FirstPiece(a, behind);
      FirstPiece(b, behind);
      var ps, qs := Pieces(s), Pieces(t);
      assert forall i :: 0 < i < |ps| ==> ps[i] == ps[1..][i - 1];
      assert forall i :: 0 < i < |qs| ==> qs[i] == qs[1..][i - 1];
    } else {
      assert s[1..] == Numbered(before[1..], a, behind) && t[1..] == Numbered(before[1..], b, behind);
      SamePieces(before[1..], a, b, behind);
      PrependKeepsSame(before[0], Pieces(s[1..]), Pieces(t[1..]));
      assert Pieces(s) == Prepend(before[0], Pieces(s[1..])) && Pieces(t) == Prepend(before[0], Pieces(t[1..]));
    }
  }

  /** A diagnostic and the same one with one number changed. */
  ghost predicate RenumbersOnce(s: string, t: string) {
    exists before, a, b, behind ::
      IsNumber(a, behind) && IsNumber(b, behind) && s == Numbered(before, a, behind) && t == Numbered(before, b, behind)
  }

  /** What a line reads as does not depend on a number behind a colon in it. */
  lemma RenumberedLineMatches(s: string, t: string)
    requires RenumbersOnce(s, t)
    ensures ParseLine(s).Some? <==> ParseLine(t).Some?
    ensures ParseLine(s).Some? ==> ErrorsMatch(ParseLine(s).value, ParseLine(t).value)
  {
    var before, a, b, behind :|
      IsNumber(a, behind) && IsNumber(b, behind) && s == Numbered(before, a, behind) && t == Numbered(before, b, behind);
    SameKind(before, a, b, behind);
    SamePieces(before, a, b, behind);
    SameFileIn(Pieces(s), Pieces(t));
    StripIgnoresNumber(before, a, b, behind);
  }

  /** Line, column and any other numbers may all move, one after the other. */
  ghost predicate Renumbers(s: string, t: string, steps: nat)
    decreases steps
  {
    if steps == 0 then s == t else exists u :: RenumbersOnce(s, u) && Renumbers(u, t, steps - 1)
  }

  lemma {:induction false} MovedLineMatches(s: string, t: string, steps: nat)
    requires Renumbers(s, t, steps)
    ensures ParseLine(s).Some? <==> ParseLine(t).Some?
    ensures ParseLine(s).Some? ==> ErrorsMatch(ParseLine(s).value, ParseLine(t).value)
    decreases steps
  {
    if steps > 0 {
      var u :| RenumbersOnce(s, u) && Renumbers(u, t, steps - 1);
      RenumberedLineMatches(s, u);
      MovedLineMatches(u, t, steps - 1);
    }
  }

  function LinesOf(results: seq<EvidenceResult>): seq<string> {
    if results == [] then [] else results[0].lines + LinesOf(results[1..])
  }

  lemma {:induction false} ParsedFrom(lines: seq<string>, e: ErrorEntry)
    ensures e in ParseLines(lines) <==> exists i :: 0 <= i < |lines| && ParseLine(lines[i]) == Some(e)
  {
    if lines != [] {
      ParsedFrom(lines[1..], e);
      if i :| 0 <= i < |lines[1..]| && ParseLine(lines[1..][i]) == Some(e) {
        assert ParseLine(lines[i + 1]) == Some(e);
      }
      if i :| 0 <= i < |lines| && ParseLine(lines[i]) == Some(e) {
        assert i > 0 ==> lines[1..][i - 1] == lines[i];
      }
    }
  }

  lemma {:induction false} ErrorsOfLines(results: seq<EvidenceResult>)
    ensures AllErrors(results) == ParseLines(LinesOf(results))
  {
    if results != [] {
      ErrorsOfLines(results[1..]);
      ParseAppend(results[0].lines, LinesOf(results[1..]));
    }
  }

  lemma {:induction false} ParseAppend(a: seq<string>, b: seq<string>)
    ensures ParseLines(a + b) == ParseLines(a) + ParseLines(b)
  {
    if a == [] {
      assert a + b == b;
    } else {
      assert (a + b)[1..] == a[1..] + b;
      ParseAppend(a[1..], b);
    }
  }

  /** Each line of `now` is a line of `before` with nothing but numbers behind colons moved. */
  ghost predicate OnlyNumbersMoved(before: seq<string>, now: seq<string>) {
    forall i :: 0 <= i < |now| ==> exists j, n :: 0 <= j < |before| && Renumbers(before[j], now[i], n)
  }

  /** However far edits shift the old diagnostics, the gate passes as long as there is no other. */
  lemma MovedDiagnosticsPass(baseline: seq<EvidenceResult>, current: seq<EvidenceResult>)
    requires OnlyNumbersMoved(LinesOf(baseline), LinesOf(current))
    ensures Passes(AllErrors(baseline), AllErrors(current))
  {
    ErrorsOfLines(baseline);
    ErrorsOfLines(current);
    forall i | 0 <= i < |AllErrors(current)| ensures Known(AllErrors(baseline), AllErrors(current)[i]) {
      MovedErrorIsKnown(LinesOf(baseline), LinesOf(current), AllErrors(current)[i]);
    }
  }

  lemma MovedErrorIsKnown(before: seq<string>, now: seq<string>, e: ErrorEntry)
    requires OnlyNumbersMoved(before, now) && e in ParseLines(now)
    ensures Known(ParseLines(before), e)
  {
    ParsedFrom(now, e);
    var i :| 0 <= i < |now| && ParseLine(now[i]) == Some(e);
    var j, n :| 0 <= j < |before| && Renumbers(before[j], now[i], n);
    MovedLineMatches(before[j], now[i], n);
    MatchedLineIsKnown(before, j, e);
  }

  lemma MatchedLineIsKnown(lines: seq<string>, j: nat, e: ErrorEntry)
    requires j < |lines| && ParseLine(lines[j]).Some? && ErrorsMatch(ParseLine(lines[j]).value, e)
    ensures Known(ParseLines(lines), e)
  {
    var known := ParseLine(lines[j]).value;
    ParsedFrom(lines, known);
    var k :| 0 <= k < |ParseLines(lines)| && ParseLines(lines)[k] == known;
  }

  /** Only recognized lines count: commands that fail without one pass the gate, whatever their exit codes. */
  lemma UnrecognizedFailurePasses(baseline: seq<EvidenceResult>, current: seq<EvidenceResult>)
    requires forall i :: 0 <= i < |LinesOf(current)| ==> KindOf(LinesOf(current)[i]).None?
    ensures Passes(AllErrors(baseline), AllErrors(current))
  {
    ErrorsOfLines(current);
    NothingRecognized(LinesOf(current));
  }

  lemma {:induction false} NothingRecognized(lines: seq<string>)
    requires forall i :: 0 <= i < |lines| ==> KindOf(lines[i]).None?
    ensures ParseLines(lines) == []
  {
    if lines != [] {
      NothingRecognized(lines[1..]);
    }
  }
}
