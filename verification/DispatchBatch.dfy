/** One batch of tool calls: a parallel group in any order, then a serial group, into one slot per call. */
module DispatchBatch {
  import opened Wrappers
  import opened ProviderEvents

  datatype Effects = Read | Append | Write | Process

  datatype Outcome = Ok(content: string, isError: bool) | Err(message: string)

  type Registry = map<string, Effects>

  /** What executing a call does to the world, and what it answers. */
  type Executor<!W> = (ToolCall, W) -> (Outcome, W)

  predicate IsParallel(reg: Registry, c: ToolCall) {
    c.name in reg && (reg[c.name] == Read || reg[c.name] == Append)
  }

  predicate IsSerial(reg: Registry, c: ToolCall) {
    c.name in reg && (reg[c.name] == Write || reg[c.name] == Process)
  }

  /** The indices below `n` of the calls of one group, in call order. */
  function Group(reg: Registry, calls: seq<ToolCall>, parallel: bool, n: nat): seq<nat>
    requires n <= |calls|
  {
    if n == 0 then [] else
    Group(reg, calls, parallel, n - 1) +
    (if (if parallel then IsParallel(reg, calls[n - 1]) else IsSerial(reg, calls[n - 1])) then [n - 1] else [])
  }

  lemma {:induction false} GroupHolds(reg: Registry, calls: seq<ToolCall>, parallel: bool, n: nat)
    requires n <= |calls|
    ensures forall i :: i in Group(reg, calls, parallel, n) <==>
                        0 <= i < n && (if parallel then IsParallel(reg, calls[i]) else IsSerial(reg, calls[i]))
    ensures forall a, b :: 0 <= a < b < |Group(reg, calls, parallel, n)| ==>
                           Group(reg, calls, parallel, n)[a] < Group(reg, calls, parallel, n)[b]
  {
    if n > 0 {
      GroupHolds(reg, calls, parallel, n - 1);
      var before := Group(reg, calls, parallel, n - 1);
      assert forall a :: 0 <= a < |before| ==> before[a] in before;
    }
  }

  predicate Indices(calls: seq<ToolCall>, trace: seq<nat>) {
    forall k :: 0 <= k < |trace| ==> trace[k] < |calls|
  }

  /** The world once the calls of `trace` were executed one after the other. */
  function WorldAfter<W>(exec: Executor<W>, calls: seq<ToolCall>, trace: seq<nat>, w: W): W
    requires Indices(calls, trace)
  {
    if trace == [] then w else
      var last := |trace| - 1;
      exec(calls[trace[last]], WorldAfter(exec, calls, trace[..last], w)).1
  }

  /** What each executed call answered. */
  function Answers<W>(exec: Executor<W>, calls: seq<ToolCall>, trace: seq<nat>, w: W): map<nat, Outcome>
    requires Indices(calls, trace)
  {
    if trace == [] then map[] else
      var last := |trace| - 1;
      Answers(exec, calls, trace[..last], w)[trace[last] := exec(calls[trace[last]], WorldAfter(exec, calls, trace[..last], w)).0]
  }

  lemma {:induction false} AnswersKeys<W>(exec: Executor<W>, calls: seq<ToolCall>, trace: seq<nat>, w: W)
    requires Indices(calls, trace)
    ensures forall i :: i in Answers(exec, calls, trace, w) <==> i in trace
  {
    if trace != [] {
      var last := |trace| - 1;
      AnswersKeys(exec, calls, trace[..last], w);
      assert trace == trace[..last] + [trace[last]];
    }
  }

  /** `order` holds the parallel group, each call once, in whatever order the futures run. */
  ghost predicate IsOrder(reg: Registry, calls: seq<ToolCall>, order: seq<nat>) {
    && (forall a, b :: 0 <= a < b < |order| ==> order[a] != order[b])
    && (forall i :: i in order <==> 0 <= i < |calls| && IsParallel(reg, calls[i]))
  }

  /** A batch executes the parallel group in that order, then the serial group in call order. */
  function TraceOf(reg: Registry, calls: seq<ToolCall>, order: seq<nat>): seq<nat> {
    order + Group(reg, calls, false, |calls|)
  }

  lemma TraceIsExact(reg: Registry, calls: seq<ToolCall>, order: seq<nat>)
    requires IsOrder(reg, calls, order)
    ensures Indices(calls, TraceOf(reg, calls, order))
    ensures forall i :: i in TraceOf(reg, calls, order) <==> 0 <= i < |calls| && calls[i].name in reg
    ensures forall a, b :: 0 <= a < b < |TraceOf(reg, calls, order)| ==>
              var x, y := TraceOf(reg, calls, order)[a], TraceOf(reg, calls, order)[b];
              x != y && (IsParallel(reg, calls[y]) ==> IsParallel(reg, calls[x])) && (IsSerial(reg, calls[x]) ==> x < y)
  {
    GroupHolds(reg, calls, false, |calls|);
    var serial, trace := Group(reg, calls, false, |calls|), TraceOf(reg, calls, order);
    forall k | 0 <= k < |trace|
      ensures trace[k] < |calls| && (if k < |order| then IsParallel(reg, calls[trace[k]]) else IsSerial(reg, calls[trace[k]]))
    {
      if k < |order| {
        assert trace[k] in order;
      } else {
        assert trace[k] == serial[k - |order|] && trace[k] in serial;
      }
    }
    forall i | 0 <= i < |calls| && calls[i].name in reg ensures i in trace {
      assert i in order || i in serial;
    }
  }

  type Slot = (string, Outcome)

  function SlotOf(reg: Registry, calls: seq<ToolCall>, answers: map<nat, Outcome>, i: nat): Option<Slot>
    requires i < |calls|
  {
    if calls[i].name !in reg then Some((calls[i].id, Err("unknown tool: " + calls[i].name)))
    else if i in answers then Some((calls[i].id, answers[i]))
    else None
  }

  /** The slots hold what has been answered so far, and nothing else. */
  ghost predicate Filled(slots: seq<Option<Slot>>, reg: Registry, calls: seq<ToolCall>, answers: map<nat, Outcome>) {
    |slots| == |calls| && forall i :: 0 <= i < |calls| ==> slots[i] == SlotOf(reg, calls, answers, i)
  }

  lemma AnswersSnoc<W>(exec: Executor<W>, calls: seq<ToolCall>, trace: seq<nat>, k: nat, w: W)
    requires Indices(calls, trace) && k < |trace|
    ensures var now := WorldAfter(exec, calls, trace[..k], w);
            && WorldAfter(exec, calls, trace[..k + 1], w) == exec(calls[trace[k]], now).1
            && Answers(exec, calls, trace[..k + 1], w) ==
               Answers(exec, calls, trace[..k], w)[trace[k] := exec(calls[trace[k]], now).0]
  {
    assert trace[..k + 1][..k] == trace[..k];
  }

  lemma FillNext(slots: seq<Option<Slot>>, reg: Registry, calls: seq<ToolCall>, answers: map<nat, Outcome>, i: nat, result: Outcome)
    requires Filled(slots, reg, calls, answers) && i < |calls| && calls[i].name in reg
    ensures Filled(slots[i := Some((calls[i].id, result))], reg, calls, answers[i := result])
  {
  }

  /** Executing the next call of the trace fills its slot. */
  lemma ExecutesNext<W>(reg: Registry, exec: Executor<W>, calls: seq<ToolCall>, slots: seq<Option<Slot>>, trace: seq<nat>, k: nat, start: W, w: W)
    requires Indices(calls, trace) && k < |trace| && calls[trace[k]].name in reg
    requires w == WorldAfter(exec, calls, trace[..k], start)
    requires Filled(slots, reg, calls, Answers(exec, calls, trace[..k], start))
    ensures var (result, next) := exec(calls[trace[k]], w);
            && WorldAfter(exec, calls, trace[..k + 1], start) == next
            && Filled(slots[trace[k] := Some((calls[trace[k]].id, result))], reg, calls, Answers(exec, calls, trace[..k + 1], start))
  {
    AnswersSnoc(exec, calls, trace, k, start);
    FillNext(slots, reg, calls, Answers(exec, calls, trace[..k], start), trace[k], exec(calls[trace[k]], w).0);
  }

  /** Executes `todo`, a stretch of the trace, filling the slots of its calls. */
  method Execute<W>(reg: Registry, exec: Executor<W>, calls: seq<ToolCall>, slots: array<Option<Slot>>, todo: seq<nat>,
                    ghost trace: seq<nat>, ghost done: nat, ghost start: W, w: W) returns (w': W)
    requires Indices(calls, trace) && done + |todo| <= |trace| && todo == trace[done..done + |todo|]
    requires forall k :: 0 <= k < |trace| ==> calls[trace[k]].name in reg
    requires w == WorldAfter(exec, calls, trace[..done], start)
    requires Filled(slots[..], reg, calls, Answers(exec, calls, trace[..done], start))
    modifies slots
    ensures w' == WorldAfter(exec, calls, trace[..done + |todo|], start)
    ensures Filled(slots[..], reg, calls, Answers(exec, calls, trace[..done + |todo|], start))
  {
    w' := w;
    var k := 0;
    while k < |todo|
      invariant 0 <= k <= |todo|
      invariant w' == WorldAfter(exec, calls, trace[..done + k], start)
      invariant Filled(slots[..], reg, calls, Answers(exec, calls, trace[..done + k], start))
    {
      var i := todo[k];
      assert i == trace[done + k];
      ExecutesNext(reg, exec, calls, slots[..], trace, done + k, start, w');
      var (result, next) := exec(calls[i], w');
      slots[i] := Some((calls[i].id, result));
      w' := next;
      k := k + 1;
    }
  }

  /** Sorts the calls into the two groups and answers the unknown ones. */
  method Classify(reg: Registry, calls: seq<ToolCall>, slots: array<Option<Slot>>) returns (parallel: seq<nat>, serial: seq<nat>)
    requires slots.Length == |calls| && forall i :: 0 <= i < |calls| ==> slots[i] == None
    modifies slots
    ensures parallel == Group(reg, calls, true, |calls|) && serial == Group(reg, calls, false, |calls|)
    ensures Filled(slots[..], reg, calls, map[])
  {
    parallel, serial := [], [];
    var n := 0;
    while n < |calls|
      invariant 0 <= n <= |calls|
      invariant parallel == Group(reg, calls, true, n) && serial == Group(reg, calls, false, n)
      invariant forall i :: 0 <= i < |calls| ==> slots[i] == if i < n then SlotOf(reg, calls, map[], i) else None
    {
      if calls[n].name in reg {
        match reg[calls[n].name] {
          case Read => parallel := parallel + [n];
          case Append => parallel := parallel + [n];
          case Write => serial := serial + [n];
          case Process => serial := serial + [n];
        }
      } else {
        slots[n] := Some((calls[n].id, Err("unknown tool: " + calls[n].name)));
      }
      n := n + 1;
    }
  }

  /** Once the whole trace is executed, no slot is empty. */
  lemma NoSlotEmpty<W>(reg: Registry, exec: Executor<W>, calls: seq<ToolCall>, order: seq<nat>, w: W, slots: seq<Option<Slot>>)
    requires IsOrder(reg, calls, order) && Indices(calls, TraceOf(reg, calls, order))
    requires Filled(slots, reg, calls, Answers(exec, calls, TraceOf(reg, calls, order), w))
    ensures forall i :: 0 <= i < |slots| ==> slots[i].Some?
  {
    TraceIsExact(reg, calls, order);
    AnswersKeys(exec, calls, TraceOf(reg, calls, order), w);
  }

  lemma TraceParts(reg: Registry, calls: seq<ToolCall>, order: seq<nat>)
    requires IsOrder(reg, calls, order)
    ensures var trace, serial := TraceOf(reg, calls, order), Group(reg, calls, false, |calls|);
            && Indices(calls, trace) && (forall k :: 0 <= k < |trace| ==> calls[trace[k]].name in reg)
            && trace[..0] == [] && trace[0..0 + |order|] == order && trace[..0 + |order|] == order
            && trace[|order|..|order| + |serial|] == serial && trace[..|order| + |serial|] == trace
  {
    TraceIsExact(reg, calls, order);
    var trace := TraceOf(reg, calls, order);
    assert forall k :: 0 <= k < |trace| ==> trace[k] in trace;
  }

  method Unwrap(slots: array<Option<Slot>>) returns (results: seq<Slot>)
    requires forall i :: 0 <= i < |slots[..]| ==> slots[..][i].Some?
    ensures |results| == |slots[..]| && forall i :: 0 <= i < |results| ==> Some(results[i]) == slots[..][i]
  {
    results := [];
    var n := 0;
    while n < slots.Length
      invariant 0 <= n <= slots.Length && |results| == n
      invariant forall i :: 0 <= i < n ==> Some(results[i]) == slots[..][i]
    {
      assert slots[..][n] == slots[n];
      results := results + [slots[n].value];
      n := n + 1;
    }
  }

  /** The parallel group in its order, then the serial group. */
  method ExecuteGroups<W>(reg: Registry, exec: Executor<W>, calls: seq<ToolCall>, slots: array<Option<Slot>>,
                          order: seq<nat>, serial: seq<nat>, w: W) returns (w': W)
    requires IsOrder(reg, calls, order) && serial == Group(reg, calls, false, |calls|)
    requires Filled(slots[..], reg, calls, map[])
    modifies slots
    ensures Indices(calls, TraceOf(reg, calls, order)) && w' == WorldAfter(exec, calls, TraceOf(reg, calls, order), w)
    ensures Filled(slots[..], reg, calls, Answers(exec, calls, TraceOf(reg, calls, order), w))
  {
    ghost var trace := TraceOf(reg, calls, order);
    TraceParts(reg, calls, order);
    w' := Execute(reg, exec, calls, slots, order, trace, 0, w, w);
    w' := Execute(reg, exec, calls, slots, serial, trace, |order|, w, w');
  }

  /** Each call of a trace without repetitions keeps the answer it got at its turn. */
  lemma {:induction false} AnswersInTurn<W>(exec: Executor<W>, calls: seq<ToolCall>, trace: seq<nat>, w: W, k: nat)
    requires Indices(calls, trace) && k < |trace| && forall a, b :: 0 <= a < b < |trace| ==> trace[a] != trace[b]
    ensures trace[k] in Answers(exec, calls, trace, w)
    ensures Answers(exec, calls, trace, w)[trace[k]] == exec(calls[trace[k]], WorldAfter(exec, calls, trace[..k], w)).0
    decreases |trace|
  {
    var last := |trace| - 1;
    if k < last {
      AnswersInTurn(exec, calls, trace[..last], w, k);
      assert trace[..last][..k] == trace[..k];
    }
  }

  /** A call whose turn in the trace is the k-th is answered in its own slot with what executing it then answers. */
  lemma SlotInTurn<W>(reg: Registry, exec: Executor<W>, calls: seq<ToolCall>, order: seq<nat>, w: W, k: nat)
    requires IsOrder(reg, calls, order) && Indices(calls, TraceOf(reg, calls, order)) && k < |TraceOf(reg, calls, order)|
    ensures var trace := TraceOf(reg, calls, order);
            SlotOf(reg, calls, Answers(exec, calls, trace, w), trace[k]) ==
            Some((calls[trace[k]].id, exec(calls[trace[k]], WorldAfter(exec, calls, trace[..k], w)).0))
  {
    var trace := TraceOf(reg, calls, order);
    TraceIsExact(reg, calls, order);
    assert trace[k] in trace;
    AnswersInTurn(exec, calls, trace, w, k);
  }

  lemma ResultsInTurn<W>(reg: Registry, exec: Executor<W>, calls: seq<ToolCall>, order: seq<nat>, w: W, results: seq<Slot>)
    requires IsOrder(reg, calls, order) && Indices(calls, TraceOf(reg, calls, order))
    requires Filled(seq(|results|, i requires 0 <= i < |results| => Some(results[i])), reg, calls,
                    Answers(exec, calls, TraceOf(reg, calls, order), w))
    ensures |results| == |calls|
    ensures forall i :: 0 <= i < |calls| ==> results[i].0 == calls[i].id
    ensures forall i :: 0 <= i < |calls| && calls[i].name !in reg ==> results[i].1 == Err("unknown tool: " + calls[i].name)
    ensures forall k :: 0 <= k < |TraceOf(reg, calls, order)| ==>
              var i := TraceOf(reg, calls, order)[k];
              results[i].1 == exec(calls[i], WorldAfter(exec, calls, TraceOf(reg, calls, order)[..k], w)).0
  {
    var trace := TraceOf(reg, calls, order);
    var slots := seq(|results|, i requires 0 <= i < |results| => Some(results[i]));
    forall i | 0 <= i < |calls| ensures Some(results[i]) == SlotOf(reg, calls, Answers(exec, calls, trace, w), i) {
      assert slots[i] == Some(results[i]);
    }
    forall k | 0 <= k < |trace|
      ensures results[trace[k]].1 == exec(calls[trace[k]], WorldAfter(exec, calls, trace[..k], w)).0
    {
      SlotInTurn(reg, exec, calls, order, w, k);
    }
  }

  /**
   * Every call is answered in its own slot, under its own id: an unknown tool by an error that
   * names it, any other call by what executing it answered at its turn in the trace.
   */
  method Dispatch<W>(reg: Registry, exec: Executor<W>, calls: seq<ToolCall>, order: seq<nat>, w: W)
    returns (results: seq<Slot>, w': W)
    requires IsOrder(reg, calls, order)
    ensures Indices(calls, TraceOf(reg, calls, order))
    ensures w' == WorldAfter(exec, calls, TraceOf(reg, calls, order), w)
    ensures |results| == |calls|
    ensures forall i :: 0 <= i < |calls| ==> results[i].0 == calls[i].id
    ensures forall i :: 0 <= i < |calls| && calls[i].name !in reg ==> results[i].1 == Err("unknown tool: " + calls[i].name)
    ensures forall k :: 0 <= k < |TraceOf(reg, calls, order)| ==>
              var i := TraceOf(reg, calls, order)[k];
              results[i].1 == exec(calls[i], WorldAfter(exec, calls, TraceOf(reg, calls, order)[..k], w)).0
  {
    var slots := new Option<Slot>[|calls|](_ => None);
    var parallel, serial := Classify(reg, calls, slots);
    assert forall i :: i in parallel <==> i in order by {
      GroupHolds(reg, calls, true, |calls|);
    }
    w' := ExecuteGroups(reg, exec, calls, slots, order, serial, w);
    NoSlotEmpty(reg, exec, calls, order, w, slots[..]);
    results := Unwrap(slots);
    assert slots[..] == seq(|results|, i requires 0 <= i < |results| => Some(results[i]));
    ResultsInTurn(reg, exec, calls, order, w, results);
  }

  // ---- Independence of the order ------------------------------------------------------------------

  /** Calls of the parallel group leave the world as it is. */
  ghost predicate ReadersOnly<W(!new)>(reg: Registry, exec: Executor<W>, calls: seq<ToolCall>) {
    forall i, w :: 0 <= i < |calls| && IsParallel(reg, calls[i]) ==> exec(calls[i], w).1 == w
  }

  lemma {:induction false} ReadersKeepWorld<W(!new)>(reg: Registry, exec: Executor<W>, calls: seq<ToolCall>, trace: seq<nat>, w: W)
    requires ReadersOnly(reg, exec, calls) && Indices(calls, trace)
    requires forall k :: 0 <= k < |trace| ==> IsParallel(reg, calls[trace[k]])
    ensures WorldAfter(exec, calls, trace, w) == w
    ensures forall i :: i in trace ==> i in Answers(exec, calls, trace, w) && Answers(exec, calls, trace, w)[i] == exec(calls[i], w).0
    ensures forall i :: i in Answers(exec, calls, trace, w) ==> i in trace
  {
    if trace != [] {
      var last := |trace| - 1;
      ReadersKeepWorld(reg, exec, calls, trace[..last], w);
      assert trace == trace[..last] + [trace[last]];
    }
  }

  lemma {:induction false} WorldAppend<W>(exec: Executor<W>, calls: seq<ToolCall>, first: seq<nat>, second: seq<nat>, w: W)
    requires Indices(calls, first) && Indices(calls, second)
    ensures Indices(calls, first + second)
    ensures WorldAfter(exec, calls, first + second, w) == WorldAfter(exec, calls, second, WorldAfter(exec, calls, first, w))
    decreases |second|
  {
    if second == [] {
      assert first + second == first;
    } else {
      var whole, last := first + second, |second| - 1;
      WorldAppend(exec, calls, first, second[..last], w);
      assert whole[..|whole| - 1] == first + second[..last] && whole[|whole| - 1] == second[last];
    }
  }

  /** A trace after `first` starts from the world `first` leaves, and overrides its answers. */
  lemma {:induction false} TraceAppend<W>(exec: Executor<W>, calls: seq<ToolCall>, first: seq<nat>, second: seq<nat>, w: W)
    requires Indices(calls, first) && Indices(calls, second)
    ensures Indices(calls, first + second)
    ensures Answers(exec, calls, first + second, w) ==
            Answers(exec, calls, first, w) + Answers(exec, calls, second, WorldAfter(exec, calls, first, w))
    decreases |second|
  {
    if second == [] {
      assert first + second == first;
    } else {
      var whole, last, w1 := first + second, |second| - 1, WorldAfter(exec, calls, first, w);
      WorldAppend(exec, calls, first, second[..last], w);
      TraceAppend(exec, calls, first, second[..last], w);
      assert whole[..|whole| - 1] == first + second[..last] && whole[|whole| - 1] == second[last];
      var answer := exec(calls[second[last]], WorldAfter(exec, calls, second[..last], w1)).0;
      LateAnswer(Answers(exec, calls, first, w), Answers(exec, calls, second[..last], w1), second[last], answer);
    }
  }

  lemma LateAnswer(first: map<nat, Outcome>, second: map<nat, Outcome>, i: nat, answer: Outcome)
    ensures (first + second)[i := answer] == first + second[i := answer]
  {
  }

  /** What the parallel group answers when none of its calls changes the world. */
  function ReaderAnswers<W>(reg: Registry, exec: Executor<W>, calls: seq<ToolCall>, w: W): map<nat, Outcome> {
    map i: nat | i < |calls| && IsParallel(reg, calls[i]) :: exec(calls[i], w).0
  }

  lemma ReadersAnswer<W(!new)>(reg: Registry, exec: Executor<W>, calls: seq<ToolCall>, order: seq<nat>, w: W)
    requires ReadersOnly(reg, exec, calls) && IsOrder(reg, calls, order)
    ensures Indices(calls, order)
    ensures WorldAfter(exec, calls, order, w) == w && Answers(exec, calls, order, w) == ReaderAnswers(reg, exec, calls, w)
  {
    assert forall k :: 0 <= k < |order| ==> order[k] in order;
    ReadersKeepWorld(reg, exec, calls, order, w);
  }

  /** When readers and appenders leave the world alone, the outcome of a batch does not depend on their order. */
  lemma OrderDoesNotMatter<W(!new)>(reg: Registry, exec: Executor<W>, calls: seq<ToolCall>, order: seq<nat>, w: W)
    requires ReadersOnly(reg, exec, calls) && IsOrder(reg, calls, order)
    ensures Indices(calls, TraceOf(reg, calls, order)) && Indices(calls, Group(reg, calls, false, |calls|))
    ensures var serial := Group(reg, calls, false, |calls|);
            && Answers(exec, calls, TraceOf(reg, calls, order), w) ==
               ReaderAnswers(reg, exec, calls, w) + Answers(exec, calls, serial, w)
            && WorldAfter(exec, calls, TraceOf(reg, calls, order), w) == WorldAfter(exec, calls, serial, w)
  {
    var serial := Group(reg, calls, false, |calls|);
    GroupHolds(reg, calls, false, |calls|);
    assert forall k :: 0 <= k < |serial| ==> serial[k] in serial;
    ReadersAnswer(reg, exec, calls, order, w);
    WorldAppend(exec, calls, order, serial, w);
    TraceAppend(exec, calls, order, serial, w);
  }

  // ---- A reader that does not leave the world alone -----------------------------------------------------

  /** The sub-task tool counts as a reader, yet it queues a request and answers with the length of the queue. */
  function SubtaskTool(ticket: nat -> string): Executor<seq<string>> {
    (c: ToolCall, queue: seq<string>) => (Ok(ticket(|queue|), false), queue + [c.rawArgs])
  }

  lemma TwoCalls<W>(exec: Executor<W>, calls: seq<ToolCall>, x: nat, y: nat, w: W)
    requires x < |calls| && y < |calls| && x != y
    ensures Indices(calls, [x, y])
    ensures var (first, w1) := exec(calls[x], w);
            var (second, w2) := exec(calls[y], w1);
            && WorldAfter(exec, calls, [x, y], w) == w2
            && x in Answers(exec, calls, [x, y], w) && Answers(exec, calls, [x, y], w)[x] == first
            && y in Answers(exec, calls, [x, y], w) && Answers(exec, calls, [x, y], w)[y] == second
  {
    assert [x, y][..1] == [x] && [x][..0] == [];
    assert WorldAfter(exec, calls, [x], w) == exec(calls[x], WorldAfter(exec, calls, [], w)).1;
    assert Answers(exec, calls, [x], w) == Answers(exec, calls, [], w)[x := exec(calls[x], WorldAfter(exec, calls, [], w)).0];
  }

  /** So the hypothesis on readers is needed: two of its calls get each other's tickets when their order is changed. */
  lemma TicketsDependOnOrder(ticket: nat -> string, a: string, b: string, name: string)
    requires ticket(0) != ticket(1) && a != b
    ensures var reg, calls := map[name := Read], [ToolCall("0", name, a), ToolCall("1", name, b)];
            && IsOrder(reg, calls, [0, 1]) && IsOrder(reg, calls, [1, 0])
            && WorldAfter(SubtaskTool(ticket), calls, [0, 1], []) == [a, b]
            && WorldAfter(SubtaskTool(ticket), calls, [1, 0], []) == [b, a]
            && Answers(SubtaskTool(ticket), calls, [0, 1], []) != Answers(SubtaskTool(ticket), calls, [1, 0], [])
  {
    var calls := [ToolCall("0", name, a), ToolCall("1", name, b)];
    assert forall i :: i in [0, 1] <==> 0 <= i < 2;
    assert forall i :: i in [1, 0] <==> 0 <= i < 2;
    TwoCalls(SubtaskTool(ticket), calls, 0, 1, []);
    TwoCalls(SubtaskTool(ticket), calls, 1, 0, []);
    assert [] + [a] == [a] && [] + [b] == [b] && [a] + [b] == [a, b] && [b] + [a] == [b, a];
  }
}
