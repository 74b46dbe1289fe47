/** Byte counters of repeated issues, and how many rounds of issues they let pass. */
module StrikeCounters {
  type Byte = n: nat | n < 256

  type Counters<S(==)> = map<S, Byte>

  const STRIKE_LIMIT: nat := 3

  function Strikes<S>(c: Counters<S>, s: S): Byte {
    if s in c then c[s] else 0
  }

  /** In a release build the byte after 255 is 0. */
  function Next(n: Byte): Byte {
    if n == 255 then 0 else n + 1
  }

  function Bump<S>(c: Counters<S>, s: S): Counters<S> {
    c[s := Next(Strikes(c, s))]
  }

  function After<S>(c: Counters<S>, issues: seq<S>): Counters<S> {
    if issues == [] then c else Bump(After(c, issues[..|issues| - 1]), issues[|issues| - 1])
  }

  /** The highest value a counter was raised to while the issues were counted. */
  function Highest<S>(c: Counters<S>, issues: seq<S>): nat {
    if issues == [] then 0 else
      var last := |issues| - 1;
      var before, reached := Highest(c, issues[..last]), Strikes(After(c, issues), issues[last]);
      if reached > before then reached else before
  }

  predicate IsStuck<S>(c: Counters<S>, issues: seq<S>) {
    Highest(c, issues) >= STRIKE_LIMIT
  }

  /** Counting one issue more. */
  lemma CountNext<S>(c: Counters<S>, issues: seq<S>, i: nat)
    requires i < |issues|
    ensures After(c, issues[..i + 1]) == Bump(After(c, issues[..i]), issues[i])
    ensures var before, reached := Highest(c, issues[..i]), Next(Strikes(After(c, issues[..i]), issues[i]));
            Highest(c, issues[..i + 1]) == if reached > before then reached else before
  {
    assert issues[..i + 1][..i] == issues[..i];
  }

  // ---- One round of issues ------------------------------------------------------------------------

  lemma NextWraps(n: nat)
    ensures Next(n % 256) == (n + 1) % 256
  {
  }

  /** The counters are the wrapped totals. */
  lemma {:induction false} AfterCounts<S>(c: Counters<S>, issues: seq<S>, s: S)
    ensures Strikes(After(c, issues), s) == (Strikes(c, s) + multiset(issues)[s]) % 256
  {
    if issues != [] {
      var last := |issues| - 1;
      AfterCounts(c, issues[..last], s);
      NextWraps(Strikes(c, s) + multiset(issues[..last])[s]);
      assert issues == issues[..last] + [issues[last]];
    }
  }

  /** What the counter of the k-th issue is raised to by it. */
  function ReachedAt<S(==)>(c: Counters<S>, issues: seq<S>, k: nat): nat
    requires k < |issues|
  {
    (Strikes(c, issues[k]) + multiset(issues[..k + 1])[issues[k]]) % 256
  }

  lemma ReachedLast<S>(c: Counters<S>, issues: seq<S>)
    requires issues != []
    ensures ReachedAt(c, issues, |issues| - 1) == Strikes(After(c, issues), issues[|issues| - 1])
  {
    AfterCounts(c, issues, issues[|issues| - 1]);
    assert issues[..|issues|] == issues;
  }

  lemma ReachedBefore<S>(c: Counters<S>, issues: seq<S>, k: nat)
    requires k < |issues| - 1
    ensures ReachedAt(c, issues, k) == ReachedAt(c, issues[..|issues| - 1], k)
  {
    assert issues[..|issues| - 1][..k + 1] == issues[..k + 1];
  }

  /** No issue raised its counter above `top`, and the k-th raised it there. */
  ghost predicate IsHighest<S>(c: Counters<S>, issues: seq<S>, top: nat, k: nat) {
    k < |issues| && ReachedAt(c, issues, k) == top && forall i :: 0 <= i < |issues| ==> ReachedAt(c, issues, i) <= top
  }

  lemma HighestSoFar<S>(c: Counters<S>, issues: seq<S>, top: nat, k: nat)
    requires issues != []
    requires if |issues| == 1 then top == 0 else IsHighest(c, issues[..|issues| - 1], top, k)
    ensures var reached := ReachedAt(c, issues, |issues| - 1);
            if reached > top || |issues| == 1 then IsHighest(c, issues, reached, |issues| - 1) else IsHighest(c, issues, top, k)
  {
    forall i: nat | i < |issues| - 1 ensures ReachedAt(c, issues, i) == ReachedAt(c, issues[..|issues| - 1], i) {
      ReachedBefore(c, issues, i);
    }
  }

  /** The value reported is the highest any of the issues raised its counter to. */
  lemma {:induction false} HighestIsReached<S>(c: Counters<S>, issues: seq<S>) returns (k: nat)
    ensures issues == [] ==> Highest(c, issues) == 0
    ensures issues != [] ==> IsHighest(c, issues, Highest(c, issues), k)
  {
    k := 0;
    if issues != [] {
      var init := issues[..|issues| - 1];
      k := HighestIsReached(c, init);
      HighestSoFar(c, issues, Highest(c, init), k);
      ReachedLast(c, issues);
      if ReachedAt(c, issues, |issues| - 1) > Highest(c, init) || |issues| == 1 {
        k := |issues| - 1;
      }
    }
  }

  /** No counter has reached the limit: what holds as long as a Task has not been stuck. */
  ghost predicate UnderLimit<S(!new)>(c: Counters<S>) {
    forall s :: Strikes(c, s) < STRIKE_LIMIT
  }

  /** How often an issue has been met once the new ones are counted, without any wrapping. */
  ghost function Total<S>(c: Counters<S>, issues: seq<S>, s: S): nat {
    Strikes(c, s) + multiset(issues)[s]
  }

  lemma BumpStrikes<S(!new)>(c: Counters<S>, s: S)
    ensures forall x :: Strikes(Bump(c, s), x) == if x == s then Next(Strikes(c, s)) else Strikes(c, x)
  {
  }

  lemma TotalSnoc<S(!new)>(c: Counters<S>, init: seq<S>, s: S)
    ensures forall x :: Total(c, init + [s], x) == Total(c, init, x) + (if x == s then 1 else 0)
  {
  }

  /** What holds of the issues so far holds with one more. */
  lemma StuckNext<S(!new)>(c: Counters<S>, init: seq<S>, s: S)
    requires IsStuck(c, init) <==> exists x :: Total(c, init, x) >= STRIKE_LIMIT
    requires !IsStuck(c, init) ==> forall x :: Strikes(After(c, init), x) == Total(c, init, x)
    ensures IsStuck(c, init) || Next(Strikes(After(c, init), s)) >= STRIKE_LIMIT
       <==> exists x :: Total(c, init + [s], x) >= STRIKE_LIMIT
    ensures !(IsStuck(c, init) || Next(Strikes(After(c, init), s)) >= STRIKE_LIMIT) ==>
              forall x :: Strikes(Bump(After(c, init), s), x) == Total(c, init + [s], x)
  {
    TotalSnoc(c, init, s);
    BumpStrikes(After(c, init), s);
    if x :| Total(c, init, x) >= STRIKE_LIMIT {
      assert Total(c, init + [s], x) >= STRIKE_LIMIT;
    } else if Next(Strikes(After(c, init), s)) >= STRIKE_LIMIT {
      assert Total(c, init + [s], s) >= STRIKE_LIMIT;
    }
  }

  /** The verdict is that of the true totals, even where a byte wraps; without it, no byte has. */
  lemma {:induction false} StuckIffThreeStrikes<S(!new)>(c: Counters<S>, issues: seq<S>)
    requires UnderLimit(c)
    ensures IsStuck(c, issues) <==> exists s :: Total(c, issues, s) >= 3
    ensures !IsStuck(c, issues) ==> UnderLimit(After(c, issues)) && forall s :: Strikes(After(c, issues), s) == Total(c, issues, s)
  {
    if issues == [] {
      assert forall s :: Total(c, issues, s) == Strikes(c, s);
    } else {
      var last := |issues| - 1;
      var init, s := issues[..last], issues[last];
      assert issues == init + [s];
      StuckIffThreeStrikes(c, init);
      CountNext(c, issues, last);
      assert issues[..last + 1] == issues;
      StuckNext(c, init, s);
    }
  }

  /** One more issue leaves some total beyond a byte exactly when one was, or its counter was full. */
  lemma OverflowNext<S(!new)>(c: Counters<S>, init: seq<S>, s: S)
    requires Strikes(After(c, init), s) == Total(c, init, s) % 256
    ensures (exists x :: Total(c, init + [s], x) > 255) <==>
            (exists x :: Total(c, init, x) > 255) || Strikes(After(c, init), s) == 255
  {
    TotalSnoc(c, init, s);
    if x :| Total(c, init, x) > 255 {
      assert Total(c, init + [s], x) > 255;
    } else if Strikes(After(c, init), s) == 255 {
      assert Total(c, init + [s], s) > 255;
    } else {
      assert Total(c, init, s) < 255;
    }
  }

  /** A debug build panics exactly when some total does not fit a byte. */
  lemma {:induction false} OverflowIff<S(!new)>(c: Counters<S>, issues: seq<S>)
    ensures Overflows(c, issues) <==> exists s :: Total(c, issues, s) > 255
  {
    if issues == [] {
      assert forall s :: Total(c, issues, s) == Strikes(c, s);
    } else {
      var last := |issues| - 1;
      var init, s := issues[..last], issues[last];
      assert issues == init + [s];
      OverflowIff(c, init);
      AfterCounts(c, init, s);
      OverflowNext(c, init, s);
    }
  }

  /** Some counter is at 255 when it is raised. */
  predicate Overflows<S>(c: Counters<S>, issues: seq<S>) {
    issues != [] &&
    (Overflows(c, issues[..|issues| - 1]) || Strikes(After(c, issues[..|issues| - 1]), issues[|issues| - 1]) == 255)
  }

  // ---- Whole runs ------------------------------------------------------------------------------------

  function AfterAll<S>(c: Counters<S>, rounds: seq<seq<S>>): Counters<S>
    decreases |rounds|
  {
    if rounds == [] then c else AfterAll(After(c, rounds[0]), rounds[1..])
  }

  /** No round of the run was the third strike of any issue. */
  predicate NeverStuck<S>(c: Counters<S>, rounds: seq<seq<S>>)
    decreases |rounds|
  {
    rounds == [] || (!IsStuck(c, rounds[0]) && NeverStuck(After(c, rounds[0]), rounds[1..]))
  }

  function AllIssues<S>(rounds: seq<seq<S>>): multiset<S>
    decreases |rounds|
  {
    if rounds == [] then multiset{} else multiset(rounds[0]) + AllIssues(rounds[1..])
  }

  /** Over a run that is never stuck every counter is the number of its occurrences, and at most two. */
  lemma {:induction false} CountersAreTotals<S(!new)>(c: Counters<S>, rounds: seq<seq<S>>)
    requires UnderLimit(c) && NeverStuck(c, rounds)
    ensures UnderLimit(AfterAll(c, rounds))
    ensures forall s :: Strikes(AfterAll(c, rounds), s) == Strikes(c, s) + AllIssues(rounds)[s]
    decreases |rounds|
  {
    if rounds != [] {
      StuckIffThreeStrikes(c, rounds[0]);
      CountersAreTotals(After(c, rounds[0]), rounds[1..]);
      forall s ensures Strikes(AfterAll(c, rounds), s) == Strikes(c, s) + AllIssues(rounds)[s] {
        assert Strikes(After(c, rounds[0]), s) == Total(c, rounds[0], s);
      }
    }
  }

  lemma TwoAtMost<S(!new)>(rounds: seq<seq<S>>, s: S)
    requires NeverStuck(map[], rounds)
    ensures AllIssues(rounds)[s] <= 2
  {
    CountersAreTotals(map[], rounds);
    assert Strikes(AfterAll(map[], rounds), s) == AllIssues(rounds)[s];
  }

  lemma {:induction false} AtMostTwoEach<S>(issues: multiset<S>, kinds: set<S>)
    requires forall s :: s in issues ==> s in kinds && issues[s] <= 2
    ensures |issues| <= 2 * |kinds|
    decreases |kinds|
  {
    if kinds == {} {
      assert issues == multiset{};
    } else {
      var s :| s in kinds;
      AtMostTwoEach(issues[s := 0], kinds - {s});
    }
  }

  lemma {:induction false} RoundsAreCounted<S>(rounds: seq<seq<S>>)
    requires forall i :: 0 <= i < |rounds| ==> rounds[i] != []
    ensures |rounds| <= |AllIssues(rounds)|
    decreases |rounds|
  {
    if rounds != [] {
      RoundsAreCounted(rounds[1..]);
    }
  }

  /** A run that reports issues of `kinds` only, and never gets stuck, has at most two failed rounds per kind. */
  lemma RetriesAreBounded<S(!new)>(rounds: seq<seq<S>>, kinds: set<S>)
    requires NeverStuck(map[], rounds)
    requires forall i :: 0 <= i < |rounds| ==> rounds[i] != []
    requires forall s :: s in AllIssues(rounds) ==> s in kinds
    ensures |rounds| <= 2 * |kinds|
  {
    forall s | s in AllIssues(rounds) ensures AllIssues(rounds)[s] <= 2 {
      TwoAtMost(rounds, s);
    }
    AtMostTwoEach(AllIssues(rounds), kinds);
    RoundsAreCounted(rounds);
  }

  /** An issue that every failed round reports is struck out by the third round, consecutive or not, whatever else is new. */
  lemma PersistentIssueIsStruckOut<S(!new)>(rounds: seq<seq<S>>, s: S)
    requires |rounds| >= 3 && forall i :: 0 <= i < |rounds| ==> s in rounds[i]
    ensures !NeverStuck(map[], rounds)
  {
    OccursInEach(rounds, s);
    if NeverStuck(map[], rounds) {
      TwoAtMost(rounds, s);
    }
  }

  lemma {:induction false} OccursInEach<S>(rounds: seq<seq<S>>, s: S)
    requires forall i :: 0 <= i < |rounds| ==> s in rounds[i]
    ensures AllIssues(rounds)[s] >= |rounds|
    decreases |rounds|
  {
    if rounds != [] {
      OccursInEach(rounds[1..], s);
      assert s in multiset(rounds[0]);
    }
  }
}
