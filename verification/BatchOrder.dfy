/** When the order in which the parallel calls of a batch run makes no difference. */
module BatchOrder {
  import opened Wrappers
  import opened ProviderEvents
  import opened DispatchBatch

  /** In `w`, the two calls leave the same world and give the same answers whichever comes first. */
  predicate Commute<W(==)>(exec: Executor<W>, c: ToolCall, d: ToolCall, w: W) {
    var (c1, wc) := exec(c, w);
    var (d1, wd) := exec(d, w);
    var (d2, wcd) := exec(d, wc);
    var (c2, wdc) := exec(c, wd);
    wcd == wdc && c1 == c2 && d1 == d2
  }

  /** Any two calls that may run side by side commute, in every world. */
  ghost predicate Commuting<W(!new)>(reg: Registry, exec: Executor<W>) {
    forall c, d, w :: IsParallel(reg, c) && IsParallel(reg, d) ==> Commute(exec, c, d, w)
  }

  ghost predicate SameEffect<W>(exec: Executor<W>, calls: seq<ToolCall>, s: seq<nat>, t: seq<nat>, w: W)
    requires Indices(calls, s) && Indices(calls, t)
  {
    && WorldAfter(exec, calls, s, w) == WorldAfter(exec, calls, t, w)
    && Answers(exec, calls, s, w) == Answers(exec, calls, t, w)
  }

  // ---- Reordering a trace ----------------------------------------------------------------------------

  lemma TraceSnoc<W>(exec: Executor<W>, calls: seq<ToolCall>, s: seq<nat>, x: nat, w: W)
    requires Indices(calls, s) && x < |calls|
    ensures Indices(calls, s + [x])
    ensures var now := WorldAfter(exec, calls, s, w);
            && WorldAfter(exec, calls, s + [x], w) == exec(calls[x], now).1
            && Answers(exec, calls, s + [x], w) == Answers(exec, calls, s, w)[x := exec(calls[x], now).0]
  {
    assert (s + [x])[..|s|] == s;
  }

  lemma SnocSame<W>(exec: Executor<W>, calls: seq<ToolCall>, s: seq<nat>, t: seq<nat>, x: nat, w: W)
    requires Indices(calls, s) && Indices(calls, t) && x < |calls| && SameEffect(exec, calls, s, t, w)
    ensures Indices(calls, s + [x]) && Indices(calls, t + [x]) && SameEffect(exec, calls, s + [x], t + [x], w)
  {
    TraceSnoc(exec, calls, s, x, w);
    TraceSnoc(exec, calls, t, x, w);
  }

  lemma SwapLast<W>(exec: Executor<W>, calls: seq<ToolCall>, s: seq<nat>, x: nat, y: nat, w: W)
    requires Indices(calls, s) && x < |calls| && y < |calls| && x != y
    requires Commute(exec, calls[x], calls[y], WorldAfter(exec, calls, s, w))
    ensures Indices(calls, s + [x] + [y]) && Indices(calls, s + [y] + [x])
    ensures SameEffect(exec, calls, s + [x] + [y], s + [y] + [x], w)
  {
    TraceSnoc(exec, calls, s, x, w);
    TraceSnoc(exec, calls, s, y, w);
    TraceSnoc(exec, calls, s + [x], y, w);
    TraceSnoc(exec, calls, s + [y], x, w);
  }

  ghost predicate CommutesWithAll<W(!new)>(exec: Executor<W>, calls: seq<ToolCall>, x: nat, b: seq<nat>)
    requires x < |calls| && Indices(calls, b)
  {
    forall k, v :: 0 <= k < |b| ==> Commute(exec, calls[x], calls[b[k]], v)
  }

  lemma MoveOneFurther<W(!new)>(exec: Executor<W>, calls: seq<ToolCall>, left: seq<nat>, right: seq<nat>, x: nat, y: nat, w: W)
    requires Indices(calls, left) && Indices(calls, right) && x < |calls| && y < |calls| && x != y
    requires Indices(calls, right + [x]) && SameEffect(exec, calls, left, right + [x], w)
    requires Commute(exec, calls[x], calls[y], WorldAfter(exec, calls, right, w))
    ensures Indices(calls, left + [y]) && Indices(calls, right + [y] + [x])
    ensures SameEffect(exec, calls, left + [y], right + [y] + [x], w)
  {
    SnocSame(exec, calls, left, right + [x], y, w);
    SwapLast(exec, calls, right, x, y, w);
  }

  lemma SnocParts(a: seq<nat>, x: nat, init: seq<nat>, y: nat)
    ensures a + [x] + init + [y] == a + [x] + (init + [y])
    ensures a + init + [y] + [x] == a + (init + [y]) + [x]
  {
    assert a + init + [y] == a + (init + [y]);
  }

  /** A call that commutes with all that follow may as well come last. */
  lemma {:induction false} MoveToEnd<W(!new)>(exec: Executor<W>, calls: seq<ToolCall>, a: seq<nat>, x: nat, b: seq<nat>, w: W)
    requires Indices(calls, a) && Indices(calls, b) && x < |calls| && x !in b && CommutesWithAll(exec, calls, x, b)
    ensures Indices(calls, a + [x] + b) && Indices(calls, a + b + [x])
    ensures SameEffect(exec, calls, a + [x] + b, a + b + [x], w)
    decreases |b|
  {
    if b == [] {
      assert a + [x] + b == a + b + [x];
    } else {
      var init, y := b[..|b| - 1], b[|b| - 1];
      MoveToEnd(exec, calls, a, x, init, w);
      MoveOneFurther(exec, calls, a + [x] + init, a + init, x, y, w);
      assert b == init + [y];
      SnocParts(a, x, init, y);
    }
  }

  ghost predicate Distinct(s: seq<nat>) {
    forall i, j :: 0 <= i < j < |s| ==> s[i] != s[j]
  }

  /** The two traces execute the same calls, each once. */
  ghost predicate SameCalls(s: seq<nat>, t: seq<nat>) {
    Distinct(s) && Distinct(t) && forall i :: i in s <==> i in t
  }

  lemma DropOne(s: seq<nat>, t: seq<nat>, j: nat)
    requires SameCalls(s, t) && s != [] && j < |t| && t[j] == s[|s| - 1]
    ensures SameCalls(s[..|s| - 1], t[..j] + t[j + 1..]) && t[j] !in t[j + 1..]
    ensures t == t[..j] + [t[j]] + t[j + 1..]
  {
    var init, rest := s[..|s| - 1], t[..j] + t[j + 1..];
    assert s == init + [t[j]] && t == t[..j] + [t[j]] + t[j + 1..];
    forall i ensures i in init <==> i in rest {
      assert i in s <==> i in init || i == t[j];
      assert i in t <==> i in rest || i == t[j];
    }
  }

  ghost predicate AllParallel(reg: Registry, calls: seq<ToolCall>, s: seq<nat>) {
    forall k :: 0 <= k < |s| ==> s[k] < |calls| && IsParallel(reg, calls[s[k]])
  }

  /** One call more, at the end of one trace and somewhere in the other. */
  lemma OneCallMore<W(!new)>(exec: Executor<W>, calls: seq<ToolCall>, init: seq<nat>, x: nat, a: seq<nat>, b: seq<nat>, w: W)
    requires Indices(calls, init) && Indices(calls, a) && Indices(calls, b) && x < |calls| && x !in b
    requires Indices(calls, a + b) && SameEffect(exec, calls, init, a + b, w) && CommutesWithAll(exec, calls, x, b)
    ensures Indices(calls, init + [x]) && Indices(calls, a + [x] + b)
    ensures SameEffect(exec, calls, init + [x], a + [x] + b, w)
  {
    SnocSame(exec, calls, init, a + b, x, w);
    MoveToEnd(exec, calls, a, x, b, w);
  }

  /** Where the last call of one trace stands in the other. */
  lemma Pick(s: seq<nat>, t: seq<nat>) returns (init: seq<nat>, x: nat, a: seq<nat>, b: seq<nat>)
    requires SameCalls(s, t) && s != []
    ensures s == init + [x] && t == a + [x] + b && x !in b && SameCalls(init, a + b)
  {
    init, x := s[..|s| - 1], s[|s| - 1];
    assert x in t;
    var j :| 0 <= j < |t| && t[j] == x;
    a, b := t[..j], t[j + 1..];
    DropOne(s, t, j);
  }

  lemma PartsParallel(reg: Registry, calls: seq<ToolCall>, a: seq<nat>, x: nat, b: seq<nat>)
    requires AllParallel(reg, calls, a + [x] + b)
    ensures AllParallel(reg, calls, a) && AllParallel(reg, calls, b) && AllParallel(reg, calls, a + b)
    ensures x < |calls| && IsParallel(reg, calls[x])
  {
    var t := a + [x] + b;
    assert t[|a|] == x;
    forall k | 0 <= k < |a| ensures a[k] < |calls| && IsParallel(reg, calls[a[k]]) {
      assert t[k] == a[k];
    }
    forall k | 0 <= k < |b| ensures b[k] < |calls| && IsParallel(reg, calls[b[k]]) {
      assert t[|a| + 1 + k] == b[k];
    }
  }

  lemma EmptyTogether(s: seq<nat>, t: seq<nat>)
    requires SameCalls(s, t)
    ensures s == [] <==> t == []
  {
    assert s != [] ==> s[0] in s && s[0] in t;
    assert t != [] ==> t[0] in t && t[0] in s;
  }

  /** Commuting calls have one effect in every order. */
  lemma {:induction false} AnyOrder<W(!new)>(reg: Registry, exec: Executor<W>, calls: seq<ToolCall>, s: seq<nat>, t: seq<nat>, w: W)
    requires Commuting(reg, exec) && SameCalls(s, t) && AllParallel(reg, calls, s) && AllParallel(reg, calls, t)
    ensures Indices(calls, s) && Indices(calls, t) && SameEffect(exec, calls, s, t, w)
    decreases |s|
  {
    EmptyTogether(s, t);
    if s != [] {
      var init, x, a, b := Pick(s, t);
      assert init + [x] + [] == s;
      PartsParallel(reg, calls, init, x, []);
      PartsParallel(reg, calls, a, x, b);
      AnyOrder(reg, exec, calls, init, a + b, w);
      CommutingAll(reg, exec, calls, x, b);
      OneCallMore(exec, calls, init, x, a, b, w);
    }
  }

  lemma CommutingAll<W(!new)>(reg: Registry, exec: Executor<W>, calls: seq<ToolCall>, x: nat, b: seq<nat>)
    requires Commuting(reg, exec) && AllParallel(reg, calls, b) && x < |calls| && IsParallel(reg, calls[x])
    ensures Indices(calls, b) && CommutesWithAll(exec, calls, x, b)
  {
  }

  // ---- Whole batches ---------------------------------------------------------------------------------

  /** Two schedules of the parallel group leave the same world and the same answers. */
  ghost predicate SameOutcome<W>(reg: Registry, exec: Executor<W>, calls: seq<ToolCall>, s: seq<nat>, t: seq<nat>, w: W)
    requires IsOrder(reg, calls, s) && IsOrder(reg, calls, t)
  {
    TraceIsExact(reg, calls, s);
    TraceIsExact(reg, calls, t);
    SameEffect(exec, calls, TraceOf(reg, calls, s), TraceOf(reg, calls, t), w)
  }

  /** No batch, in no world, depends on the schedule of its parallel group. */
  ghost predicate OrderFree<W(!new)>(reg: Registry, exec: Executor<W>) {
    forall calls, s, t, w ::
      IsOrder(reg, calls, s) && IsOrder(reg, calls, t) ==> SameOutcome(reg, exec, calls, s, t, w)
  }

  lemma OrdersShareCalls(reg: Registry, calls: seq<ToolCall>, s: seq<nat>, t: seq<nat>)
    requires IsOrder(reg, calls, s) && IsOrder(reg, calls, t)
    ensures SameCalls(s, t) && AllParallel(reg, calls, s) && AllParallel(reg, calls, t)
  {
    assert forall k :: 0 <= k < |s| ==> s[k] in s;
    assert forall k :: 0 <= k < |t| ==> t[k] in t;
  }

  lemma CommutingIsOrderFree<W(!new)>(reg: Registry, exec: Executor<W>, calls: seq<ToolCall>, s: seq<nat>, t: seq<nat>, w: W)
    requires Commuting(reg, exec) && IsOrder(reg, calls, s) && IsOrder(reg, calls, t)
    ensures SameOutcome(reg, exec, calls, s, t, w)
  {
    var serial := Group(reg, calls, false, |calls|);
    GroupHolds(reg, calls, false, |calls|);
    assert forall k :: 0 <= k < |serial| ==> serial[k] in serial;
    OrdersShareCalls(reg, calls, s, t);
    AnyOrder(reg, exec, calls, s, t, w);
    WorldAppend(exec, calls, s, serial, w);
    WorldAppend(exec, calls, t, serial, w);
    TraceAppend(exec, calls, s, serial, w);
    TraceAppend(exec, calls, t, serial, w);
  }

  lemma PairTraces(reg: Registry, c: ToolCall, d: ToolCall)
    requires IsParallel(reg, c) && IsParallel(reg, d)
    ensures IsOrder(reg, [c, d], [0, 1]) && IsOrder(reg, [c, d], [1, 0])
    ensures TraceOf(reg, [c, d], [0, 1]) == [0, 1] && TraceOf(reg, [c, d], [1, 0]) == [1, 0]
  {
    var calls := [c, d];
    assert forall i :: i in [0, 1] <==> 0 <= i < 2;
    assert forall i :: i in [1, 0] <==> 0 <= i < 2;
    assert Group(reg, calls, false, 0) == [];
    assert Group(reg, calls, false, 1) == [];
    assert Group(reg, calls, false, 2) == [];
  }

  /** A batch of two calls tells whether they commute. */
  lemma PairTells<W>(reg: Registry, exec: Executor<W>, c: ToolCall, d: ToolCall, w: W)
    requires IsParallel(reg, c) && IsParallel(reg, d)
    ensures IsOrder(reg, [c, d], [0, 1]) && IsOrder(reg, [c, d], [1, 0])
    ensures SameOutcome(reg, exec, [c, d], [0, 1], [1, 0], w) ==> Commute(exec, c, d, w)
  {
    PairTraces(reg, c, d);
    TwoCalls(exec, [c, d], 0, 1, w);
    TwoCalls(exec, [c, d], 1, 0, w);
  }

  /** Batches do not depend on the schedule exactly when any two calls that may run side by side commute. */
  lemma OrderFreeIff<W(!new)>(reg: Registry, exec: Executor<W>)
    ensures OrderFree(reg, exec) <==> Commuting(reg, exec)
  {
    if Commuting(reg, exec) {
      forall calls, s, t, w | IsOrder(reg, calls, s) && IsOrder(reg, calls, t)
        ensures SameOutcome(reg, exec, calls, s, t, w)
      {
        CommutingIsOrderFree(reg, exec, calls, s, t, w);
      }
    }
    if OrderFree(reg, exec) {
      forall c, d, w | IsParallel(reg, c) && IsParallel(reg, d)
        ensures Commute(exec, c, d, w)
      {
        PairTells(reg, exec, c, d, w);
        assert SameOutcome(reg, exec, [c, d], [0, 1], [1, 0], w);
      }
    }
  }
}
