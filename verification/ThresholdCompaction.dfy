/** The memory of an agent, and the token-budget compaction that moves its oldest items to the archive. */
module ThresholdCompaction {
  import opened Text

  /** What a memory needs to know of its items: their text, how a summary becomes one, and the price of a text. */
  datatype Kind<!T> = Kind(toText: T -> string, fromSummary: string -> T, count: string -> nat)

  datatype Strategy = Strategy(compactAtPercent: nat, targetPercent: nat)

  const DEFAULT := Strategy(80, 50)

  function Weight<T>(k: Kind<T>, x: T): nat {
    k.count(k.toText(x))
  }

  function Tokens<T>(k: Kind<T>, items: seq<T>): nat {
    if items == [] then 0 else Weight(k, items[0]) + Tokens(k, items[1..])
  }

  function SummaryText(n: nat): string {
    "[" + Decimal(n) + " items compacted to archive]"
  }

  function Percent(max: nat, percent: nat): nat {
    max * percent / 100
  }

  /** Keeping the items from `s` on, and a summary of the rest, stays within the target. */
  predicate Fits<T>(k: Kind<T>, items: seq<T>, target: nat, s: nat)
    requires s <= |items|
  {
    Tokens(k, items[s..]) + k.count(SummaryText(s)) <= target
  }

  /** The first split from `s` on that fits, or the last there is. */
  function FirstFit<T>(k: Kind<T>, items: seq<T>, target: nat, s: nat): nat
    decreases |items| - s
  {
    if s + 1 >= |items| || Fits(k, items, target, s) then s else FirstFit(k, items, target, s + 1)
  }

  function PickSplit<T>(k: Kind<T>, strategy: Strategy, items: seq<T>, max: nat): nat {
    if Tokens(k, items) < Percent(max, strategy.compactAtPercent) then 0
    else FirstFit(k, items, Percent(max, strategy.targetPercent), 1)
  }

  // ---- The split ---------------------------------------------------------------------------------

  lemma {:induction false} SuffixIsLighter<T>(k: Kind<T>, items: seq<T>, i: nat, j: nat)
    requires i <= j <= |items|
    ensures Tokens(k, items[j..]) <= Tokens(k, items[i..])
    decreases j - i
  {
    if i < j {
      assert items[i..][1..] == items[i + 1..];
      SuffixIsLighter(k, items, i + 1, j);
    }
  }

  lemma {:induction false} FirstFitSkips<T>(k: Kind<T>, items: seq<T>, target: nat, s: nat, t: nat)
    requires s <= t && (s == t || t < |items|)
    requires forall u :: s <= u < t ==> !Fits(k, items, target, u)
    ensures FirstFit(k, items, target, s) == FirstFit(k, items, target, t)
    decreases t - s
  {
    if s < t {
      FirstFitSkips(k, items, target, s + 1, t);
    }
  }

  /** Of two or more items, the split keeps as many as fit the target, and always at least the last. */
  lemma {:induction false} FirstFitIsLeast<T>(k: Kind<T>, items: seq<T>, target: nat, s: nat)
    requires s < |items|
    ensures var r := FirstFit(k, items, target, s);
            && s <= r < |items| && (Fits(k, items, target, r) || r == |items| - 1)
            && forall u :: s <= u < r ==> !Fits(k, items, target, u)
    decreases |items| - s
  {
    if s + 1 < |items| && !Fits(k, items, target, s) {
      FirstFitIsLeast(k, items, target, s + 1);
    }
  }

  /** What stays active when the items before `u` go. */
  function Kept<T>(k: Kind<T>, items: seq<T>, u: nat): nat
    requires u <= |items|
  {
    Tokens(k, items[u..]) + k.count("[" + Decimal(u) + " items compacted to archive]")
  }

  lemma FitsIff<T>(k: Kind<T>, items: seq<T>, target: nat, u: nat)
    requires u <= |items|
    ensures Fits(k, items, target, u) <==> Kept(k, items, u) <= target
  {
  }

  /**
   * Nothing is split below the threshold. Otherwise as few items go as leave a region that fits
   * its target together with the summary that replaces them, but the last item always stays.
   */
  lemma SplitIsLeast<T>(k: Kind<T>, strategy: Strategy, items: seq<T>, max: nat)
    ensures var split, target := PickSplit(k, strategy, items, max), max * strategy.targetPercent / 100;
            && (split == 0 <==> Tokens(k, items) < max * strategy.compactAtPercent / 100)
            && (split != 0 && |items| < 2 ==> split == 1)
            && (split != 0 && |items| >= 2 ==>
                  && split < |items| && (Kept(k, items, split) <= target || split == |items| - 1)
                  && forall u :: 1 <= u < split ==> Kept(k, items, u) > target)
  {
    if |items| >= 2 {
      var target := Percent(max, strategy.targetPercent);
      FirstFitIsLeast(k, items, target, 1);
      forall u: nat | u <= |items| ensures Fits(k, items, target, u) <==> Kept(k, items, u) <= target {
        FitsIff(k, items, target, u);
      }
    }
  }

  /** The two passes: a first guess from the end that ignores the summary, then one item at a time. */
  method FindSplit<T>(k: Kind<T>, strategy: Strategy, items: seq<T>, max: nat) returns (split: nat)
    ensures split == PickSplit(k, strategy, items, max)
  {
    var threshold := max * strategy.compactAtPercent / 100;
    if Tokens(k, items) < threshold {
      return 0;
    }
    var target := max * strategy.targetPercent / 100;
    var keepFrom, running := |items|, 0;
    var idx := |items|;
    while idx > 0
      invariant 0 <= idx <= |items| && keepFrom == idx
      invariant running == Tokens(k, items[idx..])
    {
      var t := Weight(k, items[idx - 1]);
      assert items[idx - 1..][1..] == items[idx..];
      if running + t > target && idx < |items| {
        break;
      }
      running := running + t;
      keepFrom := idx - 1;
      idx := idx - 1;
    }
    split := if keepFrom < 1 then 1 else keepFrom;
    forall u | 1 <= u < split ensures !Fits(k, items, target, u) {
      SuffixIsLighter(k, items, u, split - 1);
    }
    while split + 1 < |items|
      invariant 1 <= split && (split == 1 || split < |items|)
      invariant forall u :: 1 <= u < split ==> !Fits(k, items, target, u)
      decreases |items| - split
    {
      if Tokens(k, items[split..]) + k.count(SummaryText(split)) <= target {
        break;
      }
      split := split + 1;
    }
    FirstFitSkips(k, items, target, 1, split);
  }

  // ---- Compaction --------------------------------------------------------------------------------

  datatype State<T> = State(active: seq<T>, archive: seq<T>)

  /** Slicing past the end of an empty active region is the one way compaction can panic. */
  predicate Panics<T>(k: Kind<T>, strategy: Strategy, active: seq<T>, max: nat) {
    PickSplit(k, strategy, active, max) > |active|
  }

  /** Every active item goes to the archive, those that stay active as well. */
  function Compacted<T>(k: Kind<T>, strategy: Strategy, m: State<T>, max: nat): State<T>
    requires !Panics(k, strategy, m.active, max)
  {
    var split := PickSplit(k, strategy, m.active, max);
    if split == 0 then m
    else State([k.fromSummary(SummaryText(split))] + m.active[split..], m.archive + m.active)
  }

  class Memory<T> {
    var active: seq<T>
    var archive: seq<T>
    const kind: Kind<T>
    const max: nat

    constructor (kind: Kind<T>, max: nat)
      ensures active == [] && archive == [] && this.kind == kind && this.max == max
    {
      this.kind, this.max := kind, max;
      active, archive := [], [];
    }

    ghost function St(): State<T>
      reads this
    {
      State(active, archive)
    }

    method Push(item: T)
      modifies this`active
      ensures active == old(active) + [item]
      ensures forall strategy :: St() == Apply(kind, strategy, max, old(St()), Op.Push(item))
    {
      active := active + [item];
    }

    method IsNearLimit() returns (near: bool)
      ensures near <==> NearLimit(kind, active, max)
      ensures near <==> 100 * Tokens(kind, active) >= 80 * max
    {
      near := Tokens(kind, active) * 5 >= max * 4;
    }

    method Compact(strategy: Strategy) returns (panicked: bool)
      modifies this
      ensures panicked <==> old(Panics(kind, strategy, active, max))
      ensures panicked ==> St() == old(St())
      ensures !panicked ==> St() == old(Compacted(kind, strategy, St(), max))
    {
      var split := FindSplit(kind, strategy, active, max);
      if split == 0 {
        return false;
      }
      if split > |active| {
        return true;
      }
      var i := 0;
      while i < |active|
        invariant 0 <= i <= |active|
        invariant active == old(active) && archive == old(archive) + active[..i]
      {
        archive := archive + [active[i]];
        i := i + 1;
      }
      active := [kind.fromSummary(SummaryText(split))] + active[split..];
      return false;
    }
  }

  predicate NearLimit<T>(k: Kind<T>, active: seq<T>, max: nat) {
    Tokens(k, active) * 5 >= max * 4
  }

  // ---- What compaction achieves ------------------------------------------------------------------

  /** Compaction panics exactly on an empty region with a threshold of nothing. */
  lemma PanicsIff<T>(k: Kind<T>, strategy: Strategy, active: seq<T>, max: nat)
    ensures Panics(k, strategy, active, max) <==> active == [] && Percent(max, strategy.compactAtPercent) == 0
  {
    if |active| > 1 {
      FirstFitIsLeast(k, active, Percent(max, strategy.targetPercent), 1);
    }
  }

  /** Behind the 80% guard the default strategy always compacts, and panics only for a budget of nothing. */
  lemma GuardedCompaction<T>(k: Kind<T>, active: seq<T>, max: nat)
    requires NearLimit(k, active, max)
    ensures PickSplit(k, DEFAULT, active, max) > 0
    ensures Panics(k, DEFAULT, active, max) <==> max == 0 && active == []
  {
    PanicsIff(k, DEFAULT, active, max);
    assert Percent(max, 80) <= Tokens(k, active);
    if Tokens(k, active) >= Percent(max, 80) && |active| > 1 {
      FirstFitIsLeast(k, active, Percent(max, 50), 1);
    }
  }

  /** An item made from a summary weighs what the summary text weighs. */
  ghost predicate FaithfulSummaries<T>(k: Kind<T>) {
    forall s :: k.toText(k.fromSummary(s)) == s
  }

  /** After a compaction that did something, the region fits its target or is down to two items. */
  lemma CompactionShrinks<T>(k: Kind<T>, strategy: Strategy, m: State<T>, max: nat)
    requires FaithfulSummaries(k) && !Panics(k, strategy, m.active, max)
    requires PickSplit(k, strategy, m.active, max) > 0
    ensures var after := Compacted(k, strategy, m, max).active;
            Tokens(k, after) <= Percent(max, strategy.targetPercent) || |after| <= 2
  {
    var split := PickSplit(k, strategy, m.active, max);
    var summary := k.fromSummary(SummaryText(split));
    assert ([summary] + m.active[split..])[1..] == m.active[split..];
    if |m.active| > 1 {
      FirstFitIsLeast(k, m.active, Percent(max, strategy.targetPercent), 1);
    }
  }

  /** A region that fits a target below the threshold is left alone by the next compaction. */
  lemma SecondCompactionIsNoOp<T>(k: Kind<T>, strategy: Strategy, m: State<T>, max: nat)
    requires !Panics(k, strategy, m.active, max)
    requires Percent(max, strategy.targetPercent) < Percent(max, strategy.compactAtPercent)
    requires Tokens(k, Compacted(k, strategy, m, max).active) <= Percent(max, strategy.targetPercent)
    ensures var once := Compacted(k, strategy, m, max);
            !Panics(k, strategy, once.active, max) && Compacted(k, strategy, once, max) == once
  {
  }

  /** Items that stay active are archived as well: only a region of one item is archived without a copy. */
  lemma KeptItemsAreArchivedToo<T>(k: Kind<T>, strategy: Strategy, m: State<T>, max: nat)
    requires !Panics(k, strategy, m.active, max) && PickSplit(k, strategy, m.active, max) > 0
    ensures var after := Compacted(k, strategy, m, max);
            && after.archive == m.archive + m.active
            && (forall i :: 1 <= i < |after.active| ==> after.active[i] in after.archive[|m.archive|..])
            && (|after.active| == 1 <==> |m.active| == 1)
  {
    PanicsIff(k, strategy, m.active, max);
    var split := PickSplit(k, strategy, m.active, max);
    var after := Compacted(k, strategy, m, max);
    assert after.archive[|m.archive|..] == m.active;
    forall i | 1 <= i < |after.active| ensures after.active[i] in m.active {
      assert after.active[i] == m.active[split + i - 1];
    }
    if |m.active| > 1 {
      FirstFitIsLeast(k, m.active, Percent(max, strategy.targetPercent), 1);
    }
  }

  // ---- Whole runs ----------------------------------------------------------------------------------

  datatype Op<T> = Push(item: T) | Compact

  function Apply<T>(k: Kind<T>, strategy: Strategy, max: nat, m: State<T>, op: Op<T>): State<T> {
    match op
    case Push(item) => State(m.active + [item], m.archive)
    case Compact => if Panics(k, strategy, m.active, max) then m else Compacted(k, strategy, m, max)
  }

  function Run<T>(k: Kind<T>, strategy: Strategy, max: nat, m: State<T>, ops: seq<Op<T>>): State<T>
    decreases |ops|
  {
    if ops == [] then m else Run(k, strategy, max, Apply(k, strategy, max, m, ops[0]), ops[1..])
  }

  /** What was pushed, in order. */
  function Pushed<T>(ops: seq<Op<T>>): seq<T> {
    if ops == [] then [] else (if ops[0].Push? then [ops[0].item] else []) + Pushed(ops[1..])
  }

  ghost function Held<T>(m: State<T>): multiset<T> {
    multiset(m.active) + multiset(m.archive)
  }

  lemma ApplyKeepsItems<T>(k: Kind<T>, strategy: Strategy, max: nat, m: State<T>, op: Op<T>)
    ensures Held(m) + (if op.Push? then multiset{op.item} else multiset{}) <= Held(Apply(k, strategy, max, m, op))
  {
  }

  lemma PushedCount<T>(ops: seq<Op<T>>)
    requires ops != []
    ensures multiset(Pushed(ops)) == (if ops[0].Push? then multiset{ops[0].item} else multiset{}) + multiset(Pushed(ops[1..]))
  {
  }

  /** Over every run, whatever was pushed is still active or in the archive, as often as it was pushed. */
  lemma {:induction false} NothingIsLost<T>(k: Kind<T>, strategy: Strategy, max: nat, m: State<T>, ops: seq<Op<T>>)
    ensures Held(m) + multiset(Pushed(ops)) <= Held(Run(k, strategy, max, m, ops))
    decreases |ops|
  {
    if ops != [] {
      ApplyKeepsItems(k, strategy, max, m, ops[0]);
      PushedCount(ops);
      NothingIsLost(k, strategy, max, Apply(k, strategy, max, m, ops[0]), ops[1..]);
    }
  }

  /** All of the items, or a summary and the last ones behind it. */
  ghost predicate EndsLike<T>(k: Kind<T>, active: seq<T>, items: seq<T>) {
    active == items || exists n: nat, j: nat :: j <= |items| && active == [k.fromSummary(SummaryText(n))] + items[j..]
  }

  lemma PushEndsLike<T>(k: Kind<T>, active: seq<T>, items: seq<T>, x: T)
    requires EndsLike(k, active, items)
    ensures EndsLike(k, active + [x], items + [x])
  {
    if n: nat, j: nat :| j <= |items| && active == [k.fromSummary(SummaryText(n))] + items[j..] {
      assert items[j..] + [x] == (items + [x])[j..];
      Regroup([k.fromSummary(SummaryText(n))], items[j..], [x]);
    }
  }

  lemma CutEndsLike<T>(k: Kind<T>, active: seq<T>, items: seq<T>, split: nat)
    requires EndsLike(k, active, items) && 1 <= split <= |active|
    ensures EndsLike(k, [k.fromSummary(SummaryText(split))] + active[split..], items)
  {
    if n: nat, j: nat :| active != items && j <= |items| && active == [k.fromSummary(SummaryText(n))] + items[j..] {
      assert active[split..] == items[j + split - 1..];
    }
  }

  lemma ApplyNext<T>(k: Kind<T>, strategy: Strategy, max: nat, m: State<T>, op: Op<T>, items: seq<T>)
    returns (after: State<T>, next: seq<T>)
    requires EndsLike(k, m.active, items)
    ensures after == Apply(k, strategy, max, m, op) && next == if op.Push? then items + [op.item] else items
    ensures EndsLike(k, after.active, next)
  {
    after, next := Apply(k, strategy, max, m, op), if op.Push? then items + [op.item] else items;
    match op
    case Push(x) => PushEndsLike(k, m.active, items, x);
    case Compact =>
      var split := PickSplit(k, strategy, m.active, max);
      if 0 < split <= |m.active| {
        CutEndsLike(k, m.active, items, split);
      }
  }

  lemma PushedNext<T>(ops: seq<Op<T>>, items: seq<T>)
    requires ops != []
    ensures items + Pushed(ops) == (if ops[0].Push? then items + [ops[0].item] else items) + Pushed(ops[1..])
  {
  }

  /** Over every run, the active region is a summary and the latest of what it held and was given, in order, or all of it. */
  lemma {:induction false} LatestStayInOrder<T>(k: Kind<T>, strategy: Strategy, max: nat, m: State<T>, ops: seq<Op<T>>, items: seq<T>)
    requires EndsLike(k, m.active, items)
    ensures EndsLike(k, Run(k, strategy, max, m, ops).active, items + Pushed(ops))
    decreases |ops|
  {
    if ops == [] {
      assert items + Pushed(ops) == items;
    } else {
      var after, next := ApplyNext(k, strategy, max, m, ops[0], items);
      LatestStayInOrder(k, strategy, max, after, ops[1..], next);
      PushedNext(ops, items);
    }
  }

  // ---- Repeated compaction -----------------------------------------------------------------------

  function Repeat<T>(n: nat): seq<Op<T>> {
    seq(n, _ => Compact)
  }

  /** The next compaction leaves the region alone. */
  predicate Settled<T>(k: Kind<T>, strategy: Strategy, active: seq<T>, max: nat) {
    Tokens(k, active) < Percent(max, strategy.compactAtPercent)
  }

  /** Once settled, a region stays as it is; an empty region that is not settled panics and stays as well. */
  lemma {:induction false} StaysAsItIs<T>(k: Kind<T>, strategy: Strategy, max: nat, m: State<T>, n: nat)
    requires Settled(k, strategy, m.active, max) || m.active == []
    ensures Run(k, strategy, max, m, Repeat(n)) == m
    decreases n
  {
    if n > 0 {
      PanicsIff(k, strategy, m.active, max);
      assert Repeat<T>(n)[1..] == Repeat<T>(n - 1);
      StaysAsItIs(k, strategy, max, m, n - 1);
    }
  }

  /** What one compaction makes of a region that is not settled and not empty. */
  lemma CompactsOnce<T>(k: Kind<T>, strategy: Strategy, max: nat, m: State<T>) returns (split: nat, next: State<T>)
    requires !Settled(k, strategy, m.active, max) && m.active != []
    ensures split == FirstFit(k, m.active, Percent(max, strategy.targetPercent), 1) && 1 <= split <= |m.active|
    ensures |m.active| > 1 ==> split < |m.active|
    ensures next == State([k.fromSummary(SummaryText(split))] + m.active[split..], m.archive + m.active)
    ensures forall n: nat :: Run(k, strategy, max, m, Repeat(n + 1)) == Run(k, strategy, max, next, Repeat(n))
  {
    PanicsIff(k, strategy, m.active, max);
    split := FirstFit(k, m.active, Percent(max, strategy.targetPercent), 1);
    if |m.active| > 1 {
      FirstFitIsLeast(k, m.active, Percent(max, strategy.targetPercent), 1);
    }
    next := Compacted(k, strategy, m, max);
    forall n: nat
      ensures Run(k, strategy, max, m, Repeat(n + 1)) == Run(k, strategy, max, next, Repeat(n))
    {
      assert Repeat<T>(n + 1)[1..] == Repeat<T>(n);
    }
  }

  /** The split does not depend on the first item, which never stays. */
  lemma {:induction false} FirstItemIsIrrelevant<T>(k: Kind<T>, x: T, y: T, rest: seq<T>, target: nat, s: nat)
    requires s >= 1
    ensures FirstFit(k, [x] + rest, target, s) == FirstFit(k, [y] + rest, target, s)
    decreases |rest| - s
  {
    if s <= |rest| {
      assert ([x] + rest)[s..] == rest[s - 1..] && ([y] + rest)[s..] == rest[s - 1..];
      FirstItemIsIrrelevant(k, x, y, rest, target, s + 1);
    }
  }

  /** A region that a compaction at its first item leaves unsettled comes back from every further one. */
  lemma {:induction false} FixedRegion<T>(k: Kind<T>, strategy: Strategy, max: nat, m: State<T>, rest: seq<T>, n: nat)
    requires m.active == [k.fromSummary(SummaryText(1))] + rest && !Settled(k, strategy, m.active, max)
    requires FirstFit(k, m.active, Percent(max, strategy.targetPercent), 1) == 1
    ensures Run(k, strategy, max, m, Repeat(n)).active == m.active
    decreases n
  {
    if n > 0 {
      var split, next := CompactsOnce(k, strategy, max, m);
      assert m.active[1..] == rest;
      FixedRegion(k, strategy, max, next, rest, n - 1);
    }
  }

  /**
   * For every strategy: a region settles within as many compactions as it has items, or never.
   */
  lemma {:induction false} SettlesSoonOrNever<T>(k: Kind<T>, strategy: Strategy, max: nat, m: State<T>, n: nat)
    requires !Settled(k, strategy, Run(k, strategy, max, m, Repeat(|m.active|)).active, max)
    ensures !Settled(k, strategy, Run(k, strategy, max, m, Repeat(n)).active, max)
    decreases |m.active|
  {
    var size := |m.active|;
    if Settled(k, strategy, m.active, max) || m.active == [] {
      StaysAsItIs(k, strategy, max, m, size);
      StaysAsItIs(k, strategy, max, m, n);
    } else if n > 0 {
      var split, next := CompactsOnce(k, strategy, max, m);
      assert Run(k, strategy, max, m, Repeat(size - 1 + 1)) == Run(k, strategy, max, next, Repeat(size - 1));
      assert Run(k, strategy, max, m, Repeat(n - 1 + 1)) == Run(k, strategy, max, next, Repeat(n - 1));
      if Settled(k, strategy, next.active, max) {
        StaysAsItIs(k, strategy, max, next, size - 1);
      } else if split == 1 {
        var rest := m.active[1..];
        assert m.active == [m.active[0]] + rest;
        FirstItemIsIrrelevant(k, m.active[0], k.fromSummary(SummaryText(1)), rest, Percent(max, strategy.targetPercent), 1);
        FixedRegion(k, strategy, max, next, rest, n - 1);
      } else {
        SettlesInTime(k, strategy, max, next, size - 1);
        SettlesSoonOrNever(k, strategy, max, next, n - 1);
      }
    }
  }

  /** What is settled after some compactions still is after more. */
  lemma {:induction false} SettlesInTime<T>(k: Kind<T>, strategy: Strategy, max: nat, m: State<T>, n: nat)
    requires |m.active| <= n && !Settled(k, strategy, Run(k, strategy, max, m, Repeat(n)).active, max)
    ensures !Settled(k, strategy, Run(k, strategy, max, m, Repeat(|m.active|)).active, max)
  {
    var size := |m.active|;
    RunAgain(k, strategy, max, m, size, n - size);
    if Settled(k, strategy, Run(k, strategy, max, m, Repeat(size)).active, max) {
      StaysAsItIs(k, strategy, max, Run(k, strategy, max, m, Repeat(size)), n - size);
    }
  }

  lemma {:induction false} RunAgain<T>(k: Kind<T>, strategy: Strategy, max: nat, m: State<T>, a: nat, b: nat)
    ensures Run(k, strategy, max, m, Repeat(a + b)) == Run(k, strategy, max, Run(k, strategy, max, m, Repeat(a)), Repeat(b))
    decreases a
  {
    if a > 0 {
      assert Repeat<T>(a + b)[1..] == Repeat<T>(a - 1 + b) && Repeat<T>(a)[1..] == Repeat<T>(a - 1);
      RunAgain(k, strategy, max, Apply(k, strategy, max, m, Compact), a - 1, b);
    }
  }

  // ---- Regions that never settle -------------------------------------------------------------------

  ghost predicate NeverSettles<T>(k: Kind<T>, strategy: Strategy, max: nat, m: State<T>) {
    forall n: nat :: !Settled(k, strategy, Run(k, strategy, max, m, Repeat(n)).active, max)
  }

  /** So a look at the region after that many compactions decides it. */
  lemma NeverSettlesDecided<T>(k: Kind<T>, strategy: Strategy, max: nat, m: State<T>)
    ensures NeverSettles(k, strategy, max, m) <==>
            !Settled(k, strategy, Run(k, strategy, max, m, Repeat(|m.active|)).active, max)
  {
    if !Settled(k, strategy, Run(k, strategy, max, m, Repeat(|m.active|)).active, max) {
      forall n: nat
        ensures !Settled(k, strategy, Run(k, strategy, max, m, Repeat(n)).active, max)
      {
        SettlesSoonOrNever(k, strategy, max, m, n);
      }
    }
  }

  /**
   * The region reaches the threshold, keeping even its last item alone misses the target, and that item
   * reaches the threshold with the summary of the rest and with the summary of one item. A region of
   * one item leaves its summary only.
   */
  predicate Stubborn<T>(k: Kind<T>, strategy: Strategy, active: seq<T>, max: nat) {
    var threshold, target := Percent(max, strategy.compactAtPercent), Percent(max, strategy.targetPercent);
    && Tokens(k, active) >= threshold
    && (|active| == 1 ==> k.count(SummaryText(1)) >= threshold)
    && (|active| > 1 ==>
          var kept := Weight(k, active[|active| - 1]);
          && (forall u :: 1 <= u < |active| ==> !Fits(k, active, target, u))
          && kept + k.count(SummaryText(|active| - 1)) >= threshold
          && kept + k.count(SummaryText(1)) >= threshold)
  }

  lemma PairWeighs<T>(k: Kind<T>, x: T, y: T)
    ensures Tokens(k, [x]) == Weight(k, x) && Tokens(k, [x, y]) == Weight(k, x) + Weight(k, y)
  {
    assert [x, y][1..] == [y] && [x][1..] == [] && [y][1..] == [];
  }

  /** A stubborn region keeps its last item alone, and stays stubborn. */
  lemma StubbornStays<T>(k: Kind<T>, strategy: Strategy, max: nat, m: State<T>) returns (next: State<T>)
    requires FaithfulSummaries(k) && Percent(max, strategy.targetPercent) < Percent(max, strategy.compactAtPercent)
    requires Stubborn(k, strategy, m.active, max)
    ensures m.active != [] && Stubborn(k, strategy, next.active, max)
    ensures next.archive == m.archive + m.active
    ensures |m.active| > 1 ==> |next.active| == 2 && next.active[1] == m.active[|m.active| - 1]
    ensures forall n: nat :: Run(k, strategy, max, m, Repeat(n + 1)) == Run(k, strategy, max, next, Repeat(n))
  {
    var split, last, target := 0, |m.active| - 1, Percent(max, strategy.targetPercent);
    split, next := CompactsOnce(k, strategy, max, m);
    var summary := k.fromSummary(SummaryText(split));
    if |m.active| == 1 {
      assert next.active == [summary];
      PairWeighs(k, summary, summary);
    } else {
      FirstFitSkips(k, m.active, target, 1, last);
      assert m.active[last..] == [m.active[last]] && next.active == [summary, m.active[last]];
      PairWeighs(k, summary, m.active[last]);
      PairWeighs(k, m.active[last], m.active[last]);
      assert next.active[1..] == [m.active[last]];
    }
  }

  lemma {:induction false} StubbornNeverSettles<T>(k: Kind<T>, strategy: Strategy, max: nat, m: State<T>, n: nat)
    requires FaithfulSummaries(k) && Percent(max, strategy.targetPercent) < Percent(max, strategy.compactAtPercent)
    requires Stubborn(k, strategy, m.active, max)
    ensures !Settled(k, strategy, Run(k, strategy, max, m, Repeat(n)).active, max)
    decreases n
  {
    if n > 0 {
      var next := StubbornStays(k, strategy, max, m);
      assert Run(k, strategy, max, m, Repeat(n - 1 + 1)) == Run(k, strategy, max, next, Repeat(n - 1));
      StubbornNeverSettles(k, strategy, max, next, n - 1);
    }
  }

  /** A split that fits leaves a settled region. */
  lemma FittingSettles<T>(k: Kind<T>, strategy: Strategy, max: nat, active: seq<T>, split: nat)
    requires FaithfulSummaries(k) && Percent(max, strategy.targetPercent) < Percent(max, strategy.compactAtPercent)
    requires split <= |active| && Fits(k, active, Percent(max, strategy.targetPercent), split)
    ensures Settled(k, strategy, [k.fromSummary(SummaryText(split))] + active[split..], max)
  {
    var next := [k.fromSummary(SummaryText(split))] + active[split..];
    assert next[1..] == active[split..];
  }

  /** A pair whose second item is light enough with the summary of one item settles at once. */
  lemma LightPairSettles<T>(k: Kind<T>, strategy: Strategy, max: nat, m: State<T>, x: T, y: T) returns (n: nat)
    requires FaithfulSummaries(k) && m.active == [x, y]
    requires Weight(k, y) + k.count(SummaryText(1)) < Percent(max, strategy.compactAtPercent)
    ensures n <= 1 && Settled(k, strategy, Run(k, strategy, max, m, Repeat(n)).active, max)
  {
    n := 0;
    if !Settled(k, strategy, m.active, max) {
      var split, next := CompactsOnce(k, strategy, max, m);
      assert next.active == [k.fromSummary(SummaryText(1)), y];
      PairWeighs(k, k.fromSummary(SummaryText(1)), y);
      assert Run(k, strategy, max, m, Repeat(0 + 1)) == Run(k, strategy, max, next, Repeat(0)) == next;
      n := 1;
    }
  }

  /** What the first compaction leaves of a region that is not stubborn, and how many more it takes. */
  lemma SoonSettled<T>(k: Kind<T>, strategy: Strategy, max: nat, m: State<T>, split: nat, next: State<T>) returns (n: nat)
    requires FaithfulSummaries(k) && Percent(max, strategy.targetPercent) < Percent(max, strategy.compactAtPercent)
    requires !Stubborn(k, strategy, m.active, max) && !Settled(k, strategy, m.active, max) && m.active != []
    requires split == FirstFit(k, m.active, Percent(max, strategy.targetPercent), 1) && 1 <= split <= |m.active|
    requires next.active == [k.fromSummary(SummaryText(split))] + m.active[split..]
    ensures n <= 1 && Settled(k, strategy, Run(k, strategy, max, next, Repeat(n)).active, max)
  {
    n := 0;
    var last, summary := |m.active| - 1, k.fromSummary(SummaryText(split));
    if |m.active| == 1 {
      assert next.active == [summary];
      PairWeighs(k, summary, summary);
    } else {
      FirstFitIsLeast(k, m.active, Percent(max, strategy.targetPercent), 1);
      if Fits(k, m.active, Percent(max, strategy.targetPercent), split) {
        FittingSettles(k, strategy, max, m.active, split);
      } else {
        assert m.active[last..] == [m.active[last]] && next.active == [summary, m.active[last]];
        PairWeighs(k, summary, m.active[last]);
        if !Settled(k, strategy, next.active, max) {
          n := LightPairSettles(k, strategy, max, next, summary, m.active[last]);
        }
      }
    }
  }

  lemma OthersSettle<T>(k: Kind<T>, strategy: Strategy, max: nat, m: State<T>) returns (n: nat)
    requires FaithfulSummaries(k) && Percent(max, strategy.targetPercent) < Percent(max, strategy.compactAtPercent)
    requires !Stubborn(k, strategy, m.active, max)
    ensures n <= 2 && Settled(k, strategy, Run(k, strategy, max, m, Repeat(n)).active, max)
  {
    n := 0;
    if !Settled(k, strategy, m.active, max) {
      var split, next := CompactsOnce(k, strategy, max, m);
      n := SoonSettled(k, strategy, max, m, split, next);
      assert Run(k, strategy, max, m, Repeat(n + 1)) == Run(k, strategy, max, next, Repeat(n));
      n := n + 1;
    }
  }

  /**
   * With a target below the threshold, a region never settles exactly when it is stubborn, and otherwise
   * settles within two compactions.
   */
  lemma NeverSettlesIff<T>(k: Kind<T>, strategy: Strategy, max: nat, m: State<T>)
    requires FaithfulSummaries(k) && Percent(max, strategy.targetPercent) < Percent(max, strategy.compactAtPercent)
    ensures NeverSettles(k, strategy, max, m) <==> Stubborn(k, strategy, m.active, max)
    ensures NeverSettles(k, strategy, max, m) <==> !Settled(k, strategy, Run(k, strategy, max, m, Repeat(2)).active, max)
  {
    if Stubborn(k, strategy, m.active, max) {
      forall n: nat
        ensures !Settled(k, strategy, Run(k, strategy, max, m, Repeat(n)).active, max)
      {
        StubbornNeverSettles(k, strategy, max, m, n);
      }
    } else {
      var n := OthersSettle(k, strategy, max, m);
      RunAgain(k, strategy, max, m, n, 2 - n);
      StaysAsItIs(k, strategy, max, Run(k, strategy, max, m, Repeat(n)), 2 - n);
    }
  }

  /** One compaction of a region that never settles: it archives the last item, keeps it and never settles either. */
  lemma NeverSettlesOn<T>(k: Kind<T>, strategy: Strategy, max: nat, m: State<T>, last: T) returns (next: State<T>)
    requires FaithfulSummaries(k) && Percent(max, strategy.targetPercent) < Percent(max, strategy.compactAtPercent)
    requires NeverSettles(k, strategy, max, m) && |m.active| > 1 && m.active[|m.active| - 1] == last
    ensures NeverSettles(k, strategy, max, next) && |next.active| > 1 && next.active[|next.active| - 1] == last
    ensures multiset(next.archive)[last] >= multiset(m.archive)[last] + 1
    ensures forall n: nat :: Run(k, strategy, max, m, Repeat(n + 1)) == Run(k, strategy, max, next, Repeat(n))
  {
    NeverSettlesIff(k, strategy, max, m);
    next := StubbornStays(k, strategy, max, m);
    NeverSettlesIff(k, strategy, max, next);
    assert last in multiset(m.active);
  }

  /** While it does not settle, each compaction archives the last item once more. */
  lemma {:induction false} StubbornArchivesAgain<T>(k: Kind<T>, strategy: Strategy, max: nat, m: State<T>, last: T, n: nat)
    requires FaithfulSummaries(k) && Percent(max, strategy.targetPercent) < Percent(max, strategy.compactAtPercent)
    requires NeverSettles(k, strategy, max, m) && |m.active| > 1 && m.active[|m.active| - 1] == last
    ensures var after := Run(k, strategy, max, m, Repeat(n));
            && |after.active| > 1 && after.active[|after.active| - 1] == last
            && multiset(after.archive)[last] >= multiset(m.archive)[last] + n
    decreases n
  {
    if n > 0 {
      var next := NeverSettlesOn(k, strategy, max, m, last);
      assert Run(k, strategy, max, m, Repeat(n - 1 + 1)) == Run(k, strategy, max, next, Repeat(n - 1));
      StubbornArchivesAgain(k, strategy, max, next, last, n - 1);
    }
  }

  /** The region left by a last item that reaches the threshold on its own. */
  predicate HeavyPair<T>(k: Kind<T>, strategy: Strategy, active: seq<T>, max: nat) {
    |active| >= 2 && Weight(k, active[|active| - 1]) >= Percent(max, strategy.compactAtPercent)
  }

  lemma HeavyIsStubborn<T>(k: Kind<T>, strategy: Strategy, active: seq<T>, max: nat)
    requires HeavyPair(k, strategy, active, max)
    requires Percent(max, strategy.targetPercent) < Percent(max, strategy.compactAtPercent)
    ensures Stubborn(k, strategy, active, max)
  {
    var last := |active| - 1;
    assert active[last..] == [active[last]];
    PairWeighs(k, active[last], active[last]);
    forall u | 0 <= u < |active| ensures Tokens(k, active[u..]) >= Weight(k, active[last]) {
      SuffixIsLighter(k, active, u, last);
    }
    assert active[0..] == active;
  }

  lemma HeavyStays<T>(k: Kind<T>, strategy: Strategy, max: nat, m: State<T>, heavy: T) returns (next: State<T>)
    requires HeavyPair(k, strategy, m.active, max) && m.active[|m.active| - 1] == heavy
    requires Percent(max, strategy.targetPercent) < Percent(max, strategy.compactAtPercent)
    ensures HeavyPair(k, strategy, next.active, max) && next.active[|next.active| - 1] == heavy
    ensures multiset(next.archive)[heavy] >= multiset(m.archive)[heavy] + 1
    ensures forall n: nat :: Run(k, strategy, max, m, Repeat(n + 1)) == Run(k, strategy, max, next, Repeat(n))
  {
    var last := |m.active| - 1;
    HeavyIsStubborn(k, strategy, m.active, max);
    var split;
    split, next := CompactsOnce(k, strategy, max, m);
    FirstFitSkips(k, m.active, Percent(max, strategy.targetPercent), 1, last);
    assert heavy in multiset(m.active);
  }

  lemma {:induction false} HeavyRun<T>(k: Kind<T>, strategy: Strategy, max: nat, m: State<T>, heavy: T, n: nat) returns (after: State<T>)
    requires HeavyPair(k, strategy, m.active, max) && m.active[|m.active| - 1] == heavy
    requires Percent(max, strategy.targetPercent) < Percent(max, strategy.compactAtPercent)
    ensures after == Run(k, strategy, max, m, Repeat(n))
    ensures HeavyPair(k, strategy, after.active, max) && after.active[|after.active| - 1] == heavy
    ensures multiset(after.archive)[heavy] >= multiset(m.archive)[heavy] + n
    decreases n
  {
    if n == 0 {
      after := m;
    } else {
      var next := HeavyStays(k, strategy, max, m, heavy);
      after := HeavyRun(k, strategy, max, next, heavy, n - 1);
      assert Run(k, strategy, max, m, Repeat(n - 1 + 1)) == Run(k, strategy, max, next, Repeat(n - 1));
    }
  }

  /** With such a last item no number of compactions settles, whatever items made from summaries weigh. */
  lemma HeavyLastItemNeverSettles<T>(k: Kind<T>, strategy: Strategy, max: nat, m: State<T>, n: nat)
    requires HeavyPair(k, strategy, m.active, max)
    requires Percent(max, strategy.targetPercent) < Percent(max, strategy.compactAtPercent)
    ensures var after, last := Run(k, strategy, max, m, Repeat(n)), m.active[|m.active| - 1];
            && HeavyPair(k, strategy, after.active, max) && after.active[|after.active| - 1] == last
            && !Settled(k, strategy, after.active, max)
            && multiset(after.archive)[last] >= multiset(m.archive)[last] + n
  {
    var after := HeavyRun(k, strategy, max, m, m.active[|m.active| - 1], n);
    HeavyIsStubborn(k, strategy, after.active, max);
  }

  /** Texts that are their own summaries, one token a character. */
  function Plain(): Kind<string> {
    Kind((x: string) => x, (x: string) => x, (x: string) => |x|)
  }

  lemma SummaryOfOne()
    ensures |SummaryText(1)| == 30
  {
    assert Decimal(1) == "1";
    assert SummaryText(1) == "[" + "1" + " items compacted to archive]";
  }

  /** A region whose last item is below the threshold: with the default strategy and 100 tokens, 60 after 30. */
  lemma LightLastItemNeverSettles(x: string, y: string, archive: seq<string>)
    requires |x| == 30 && |y| == 60
    ensures !HeavyPair(Plain(), DEFAULT, [x, y], 100) && NeverSettles(Plain(), DEFAULT, 100, State([x, y], archive))
  {
    PairWeighs(Plain(), x, y);
    PairWeighs(Plain(), y, y);
    SummaryOfOne();
    assert [x, y][1..] == [y];
    NeverSettlesIff(Plain(), DEFAULT, 100, State([x, y], archive));
  }
}
