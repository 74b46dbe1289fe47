/** The normalization that makes error messages compare equal when only their line numbers moved. */
module LineNumbers {
  import opened Text

  predicate IsDigit(c: char) {
    '0' <= c <= '9'
  }

  predicate StartsWithDigit(s: string) {
    s != "" && IsDigit(s[0])
  }

  predicate AllDigits(s: string) {
    forall i :: 0 <= i < |s| ==> IsDigit(s[i])
  }

  function DropDigits(s: string): string {
    if StartsWithDigit(s) then DropDigits(s[1..]) else s
  }

  /** What follows a number and, behind a colon, a second one. */
  function DropNumbers(s: string): (rest: string)
    ensures |rest| <= |s|
  {
    var rest := DropDigits(s);
    DropDigitsIsSuffix(s);
    if rest != "" && rest[0] == ':' then DropDigitsIsSuffix(rest[1..]); DropDigits(rest[1..]) else rest
  }

  lemma {:induction false} DropDigitsIsSuffix(s: string)
    ensures |DropDigits(s)| <= |s| && DropDigits(s) == s[|s| - |DropDigits(s)|..]
    ensures !StartsWithDigit(DropDigits(s))
  {
    if StartsWithDigit(s) {
      DropDigitsIsSuffix(s[1..]);
    }
  }

  /** A colon and the numbers behind it become one placeholder. */
  function Scan(s: string): string
    decreases |s|
  {
    if s == "" then ""
    else if s[0] == ':' && StartsWithDigit(s[1..]) then ":<n>" + Scan(DropNumbers(s[1..]))
    else [s[0]] + Scan(s[1..])
  }

  /** Replaces every occurrence of `from`, from the left and without overlaps. */
  function Replace(s: string, from: string, substitute: string): string
    decreases |s|
  {
    if s == "" then "" else if from != "" && from <= s then substitute + Replace(s[|from|..], from, substitute)
    else [s[0]] + Replace(s[1..], from, substitute)
  }

  function StripLineNumbers(msg: string): string {
    Replace(Replace(Scan(msg), "/Users/", "~/"), "/home/", "~/")
  }

  // ---- The scanning loop ---------------------------------------------------------------------

  method SkipDigits(msg: string, from: nat) returns (i: nat)
    requires from <= |msg|
    ensures from <= i <= |msg| && msg[i..] == DropDigits(msg[from..])
  {
    i := from;
    while i < |msg| && IsDigit(msg[i])
      invariant from <= i <= |msg|
      invariant DropDigits(msg[i..]) == DropDigits(msg[from..])
    {
      assert msg[i..][1..] == msg[i + 1..];
      i := i + 1;
    }
  }

  method ScanMessage(msg: string) returns (result: string)
    ensures result == Scan(msg)
  {
    result := "";
    var i := 0;
    while i < |msg|
      invariant 0 <= i <= |msg|
      invariant result + Scan(msg[i..]) == Scan(msg)
      decreases |msg| - i
    {
      ghost var here, sent := i, result;
      var ch := msg[i];
      assert msg[i..][0] == msg[i] && msg[i..][1..] == msg[i + 1..];
      i := i + 1;
      if ch == ':' && i < |msg| && IsDigit(msg[i]) {
        i := SkipDigits(msg, i);
        if i < |msg| && msg[i] == ':' {
          assert msg[i..][1..] == msg[i + 1..];
          i := SkipDigits(msg, i + 1);
        }
        assert msg[i..] == DropNumbers(msg[here + 1..]);
        result := result + ":<n>";
        Regroup(sent, ":<n>", Scan(msg[i..]));
      } else {
        result := result + [ch];
        Regroup(sent, [ch], Scan(msg[i..]));
      }
    }
  }

  // ---- Insensitivity to line numbers ---------------------------------------------------------

  lemma {:induction false} DropDigitsAppend(x: string, y: string)
    requires !StartsWithDigit(y)
    ensures DropDigits(x + y) == DropDigits(x) + y
  {
    if x == "" {
      assert x + y == y;
    } else if StartsWithDigit(x) {
      assert (x + y)[1..] == x[1..] + y;
      DropDigitsAppend(x[1..], y);
    }
  }

  lemma {:induction false} DropAllDigits(d: string)
    requires AllDigits(d)
    ensures DropDigits(d) == ""
  {
    if d != "" {
      DropAllDigits(d[1..]);
    }
  }

  /** A number behind a colon, with what stands before and behind it. */
  function Numbered(before: string, number: string, behind: string): string {
    before + Tail(number, behind)
  }

  function Tail(number: string, behind: string): string {
    ":" + number + behind
  }

  lemma TailParts(number: string, behind: string)
    ensures var tail := Tail(number, behind);
            tail != "" && tail[0] == ':' && tail[1..] == number + behind
  {
  }

  /** `number` is the whole run of digits behind its colon. */
  predicate IsNumber(number: string, behind: string) {
    number != "" && AllDigits(number) && !StartsWithDigit(behind)
  }

  lemma DropNumber(number: string, behind: string)
    requires IsNumber(number, behind)
    ensures DropDigits(number + behind) == behind
  {
    DropDigitsAppend(number, behind);
    DropAllDigits(number);
  }

  lemma DropNumbersAppend(x: string, tail: string)
    requires tail != "" && tail[0] == ':'
    ensures DropNumbers(x + tail) == if DropDigits(x) == "" then DropDigits(tail[1..]) else DropNumbers(x) + tail
  {
    var y := DropDigits(x);
    DropDigitsAppend(x, tail);
    if y == "" {
      assert y + tail == tail;
    } else if y[0] == ':' {
      assert (y + tail)[1..] == y[1..] + tail;
      DropDigitsAppend(y[1..], tail);
    }
  }

  /** From a number in front on, what is dropped either reaches past the numbered colon or stops short of it. */
  lemma DropNumbersBefore(x: string, number: string, behind: string)
    requires IsNumber(number, behind)
    ensures DropNumbers(Numbered(x, number, behind)) ==
            if DropDigits(x) == "" then behind else Numbered(DropNumbers(x), number, behind)
  {
    TailParts(number, behind);
    DropNumbersAppend(x, Tail(number, behind));
    DropNumber(number, behind);
  }

  /** Replacing a whole number behind a colon by another never changes the scan. */
  lemma {:induction false} ScanIgnoresNumber(before: string, a: string, b: string, behind: string)
    requires IsNumber(a, behind) && IsNumber(b, behind)
    ensures Scan(Numbered(before, a, behind)) == Scan(Numbered(before, b, behind))
    decreases |before|
  {
    var s, t := Numbered(before, a, behind), Numbered(before, b, behind);
    if before == "" {
      assert s[1..] == a + behind && t[1..] == b + behind;
      DropNumber(a, behind);
      DropNumber(b, behind);
    } else {
      var x := before[1..];
      assert s[1..] == Numbered(x, a, behind) && t[1..] == Numbered(x, b, behind);
      if before[0] == ':' && StartsWithDigit(x) {
        DropNumbersBefore(x, a, behind);
        DropNumbersBefore(x, b, behind);
        ScanIgnoresNumber(DropNumbers(x), a, b, behind);
      } else {
        ScanIgnoresNumber(x, a, b, behind);
      }
    }
  }

  /** No colon is followed by a digit. */
  predicate Unnumbered(s: string) {
    forall i :: 0 <= i < |s| - 1 && s[i] == ':' ==> !IsDigit(s[i + 1])
  }

  lemma {:induction false} UnnumberedIsScanned(s: string)
    requires Unnumbered(s)
    ensures Scan(s) == s
  {
    if s != "" {
      UnnumberedIsScanned(s[1..]);
    }
  }

  lemma {:induction false} ScanIsUnnumbered(s: string)
    ensures Unnumbered(Scan(s))
    ensures StartsWithDigit(Scan(s)) <==> StartsWithDigit(s)
    decreases |s|
  {
    if s != "" {
      if s[0] == ':' && StartsWithDigit(s[1..]) {
        ScanIsUnnumbered(DropNumbers(s[1..]));
      } else {
        ScanIsUnnumbered(s[1..]);
      }
    }
  }

  /** The scan leaves nothing to scan. */
  lemma ScanIsIdempotent(s: string)
    ensures Unnumbered(Scan(s)) && Scan(Scan(s)) == Scan(s)
  {
    ScanIsUnnumbered(s);
    UnnumberedIsScanned(Scan(s));
  }

  /** The whole normalization ignores line numbers too. */
  lemma StripIgnoresNumber(before: string, a: string, b: string, behind: string)
    requires IsNumber(a, behind) && IsNumber(b, behind)
    ensures StripLineNumbers(Numbered(before, a, behind)) == StripLineNumbers(Numbered(before, b, behind))
  {
    ScanIgnoresNumber(before, a, b, behind);
  }

  // ---- What the scan keeps ---------------------------------------------------------------------

  lemma DigitsAre(c: char)
    ensures IsDigit(c) <==> c in "0123456789"
  {
    assert "0123456789"[0] == '0' && "0123456789"[1] == '1' && "0123456789"[2] == '2' && "0123456789"[3] == '3';
    assert "0123456789"[4] == '4' && "0123456789"[5] == '5' && "0123456789"[6] == '6' && "0123456789"[7] == '7';
    assert "0123456789"[8] == '8' && "0123456789"[9] == '9';
  }

  lemma {:induction false} ScanKeepsFront(front: string, behind: string)
    requires Unnumbered(front + ":") && behind != "" && behind[0] == ':'
    ensures Scan(front + behind) == front + Scan(behind)
  {
    if front == "" {
      assert front + behind == behind;
      assert front + Scan(behind) == Scan(behind);
    } else {
      FrontStep(front, behind);
      ScanKeepsFront(front[1..], behind);
      assert front == [front[0]] + front[1..];
      Regroup([front[0]], front[1..], Scan(behind));
    }
  }

  lemma FrontStep(front: string, behind: string)
    requires front != "" && Unnumbered(front + ":") && behind != "" && behind[0] == ':'
    ensures var s := front + behind;
            && s[0] == front[0] && s[1..] == front[1..] + behind && !(s[0] == ':' && StartsWithDigit(s[1..]))
            && Unnumbered(front[1..] + ":")
  {
    var marked, s := front + ":", front + behind;
    assert marked[1..] == front[1..] + ":";
    UnnumberedTail(marked);
    assert s[1..] == front[1..] + behind;
    assert marked[0] == s[0] && s[1..][0] == s[1] && marked[1] == s[1];
    assert marked[0] == ':' ==> !IsDigit(marked[1]);
  }

  lemma UnnumberedTail(s: string)
    requires s != "" && Unnumbered(s)
    ensures Unnumbered(s[1..])
  {
  }

  lemma DropSecondNumber(first: string, second: string, behind: string)
    requires IsNumber(first, ":" + second + behind) && AllDigits(second) && !StartsWithDigit(behind)
    ensures DropNumbers(first + (":" + second + behind)) == behind
  {
    DropNumber(first, ":" + second + behind);
    TailParts(second, behind);
    DropDigitsAppend(second, behind);
    DropAllDigits(second);
    assert "" + behind == behind;
  }

  /**
   * In front of its first numbered colon a message is kept as it is, and the number, with a second one
   * behind a colon of its own, becomes the placeholder; what follows is scanned in turn.
   */
  lemma ScanReplacesNumbers(front: string, first: string, second: string, behind: string)
    requires Unnumbered(front + ":") && AllDigits(second)
    ensures IsNumber(first, behind) && !(":" <= behind) ==> Scan(Numbered(front, first, behind)) == front + ":<n>" + Scan(behind)
    ensures IsNumber(first, ":" + second + behind) && !StartsWithDigit(behind) ==>
              Scan(Numbered(front, first, ":" + second + behind)) == front + ":<n>" + Scan(behind)
  {
    if IsNumber(first, behind) && !(":" <= behind) {
      TailParts(first, behind);
      DropNumber(first, behind);
      ScanKeepsFront(front, Tail(first, behind));
      FirstDigit(first, behind);
      Regroup(front, ":<n>", Scan(behind));
    }
    if IsNumber(first, ":" + second + behind) && !StartsWithDigit(behind) {
      TailParts(first, ":" + second + behind);
      DropSecondNumber(first, second, behind);
      ScanKeepsFront(front, Tail(first, ":" + second + behind));
      FirstDigit(first, ":" + second + behind);
      Regroup(front, ":<n>", Scan(behind));
    }
  }

  lemma FirstDigit(number: string, behind: string)
    requires number != "" && AllDigits(number)
    ensures StartsWithDigit(number + behind)
  {
    assert (number + behind)[0] == number[0];
  }

  // ---- What a replacement does -----------------------------------------------------------------

  lemma {:induction false} ReplaceNothing(s: string, from: string, substitute: string)
    requires !Contains(s, from)
    ensures Replace(s, from, substitute) == s
  {
    if s != "" {
      ReplaceNothing(s[1..], from, substitute);
    }
  }

  /** The first occurrence of `from` is the one behind `front`. */
  predicate FirstBehind(front: string, from: string) {
    from != "" && !Contains((front + from)[..|front| + |from| - 1], from)
  }

  /** The first occurrence is replaced, and what stands behind it is searched on its own. */
  lemma {:induction false} ReplaceFirst(front: string, from: string, behind: string, substitute: string)
    requires FirstBehind(front, from)
    ensures Replace(front + from + behind, from, substitute) == front + substitute + Replace(behind, from, substitute)
  {
    var s := front + from + behind;
    if front == "" {
      assert s == from + behind && s[|from|..] == behind;
      assert front + substitute == substitute;
    } else {
      var upto := (front + from)[..|front| + |from| - 1];
      assert s[1..] == front[1..] + from + behind;
      assert upto[1..] == (front[1..] + from)[..|front[1..]| + |from| - 1];
      assert !(from <= s) by {
        assert from <= s ==> from <= upto;
      }
      ReplaceFirst(front[1..], from, behind, substitute);
      assert [s[0]] + (front[1..] + substitute + Replace(behind, from, substitute)) == front + substitute + Replace(behind, from, substitute);
    }
  }

  lemma {:induction false} NoMarkNoPart(s: string, part: string, mark: char)
    requires mark !in s && mark in part
    ensures !Contains(s, part)
  {
    MarkedPrefix(s, part, mark);
    if s != "" {
      NoMarkNoPart(s[1..], part, mark);
    }
  }

  lemma MarkedPrefix(s: string, part: string, mark: char)
    requires mark in part
    ensures part <= s ==> mark in s
  {
    if mark !in s {
      var i :| 0 <= i < |part| && part[i] == mark;
      assert i < |s| ==> s[i] != mark;
    }
  }

  lemma TailOfPrefix(part: string, s: string)
    requires part != "" && s != ""
    ensures part <= s ==> part[1..] <= s[1..]
  {
  }

  /** A slash further on than where the part would have one leaves the part out. */
  lemma {:induction false} OneSlashShort(front: string, part: string, behind: string)
    requires '/' !in front && '/' !in behind && |part| > 1 && part[0] == '/' && '/' in part[1..]
    ensures !Contains(front + "/" + behind, part)
  {
    var s := front + "/" + behind;
    if front == "" {
      assert s[1..] == behind;
      NoMarkNoPart(behind, part, '/');
      MarkedPrefix(behind, part[1..], '/');
      TailOfPrefix(part, s);
    } else {
      assert s[0] == front[0] && s[1..] == front[1..] + "/" + behind;
      OneSlashShort(front[1..], part, behind);
    }
  }

  lemma FirstHome(front: string, home: string)
    requires '/' !in front && (home == "/Users/" || home == "/home/")
    ensures FirstBehind(front, home)
  {
    var inner := home[1..|home| - 1];
    assert (front + home)[..|front| + |home| - 1] == front + "/" + inner;
    OneSlashShort(front, home, inner);
  }

  lemma {:induction false} NoUsersInHome(front: string, behind: string)
    requires '/' !in front && '/' !in behind
    ensures !Contains(front + "/home/" + behind, "/Users/")
  {
    var s := front + "/home/" + behind;
    if front == "" {
      assert s[1] == 'h' && "/Users/"[1] == 'U';
      assert s[1..] == "home" + "/" + behind;
      OneSlashShort("home", "/Users/", behind);
    } else {
      assert s[0] == front[0] && s[1..] == front[1..] + "/home/" + behind;
      NoUsersInHome(front[1..], behind);
    }
  }

  lemma NoColonNothingScanned(s: string)
    requires ':' !in s
    ensures Scan(s) == s
  {
    UnnumberedIsScanned(s);
  }

  /** One replacement of the two, around texts with neither slash nor colon. */
  lemma HomeIsReplaced(front: string, home: string, behind: string)
    requires '/' !in front && '/' !in behind && (home == "/Users/" || home == "/home/")
    ensures Replace(front + home + behind, home, "~/") == front + "~/" + behind
  {
    FirstHome(front, home);
    ReplaceFirst(front, home, behind, "~/");
    NoMarkNoPart(behind, home, '/');
    ReplaceNothing(behind, home, "~/");
  }

  /** The directories that hold the homes of users are shortened in the way a shell does, whichever of the two they are. */
  lemma HomesAreShortened(front: string, behind: string)
    requires '/' !in front && '/' !in behind && ':' !in front && ':' !in behind
    ensures StripLineNumbers(front + "/Users/" + behind) == front + "~/" + behind
    ensures StripLineNumbers(front + "/home/" + behind) == front + "~/" + behind
  {
    NoColonNothingScanned(front + "/Users/" + behind);
    HomeIsReplaced(front, "/Users/", behind);
    assert front + "~/" + behind == (front + "~") + "/" + behind;
    OneSlashShort(front + "~", "/home/", behind);
    ReplaceNothing(front + "~/" + behind, "/home/", "~/");
    NoColonNothingScanned(front + "/home/" + behind);
    NoUsersInHome(front, behind);
    ReplaceNothing(front + "/home/" + behind, "/Users/", "~/");
    HomeIsReplaced(front, "/home/", behind);
  }
}
