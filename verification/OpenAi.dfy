/** The OpenAI tool-call delta machine, and the tool calls that come out of the collector behind it. */
module OpenAi {
  import opened Wrappers
  import opened Text
  import opened ProviderEvents

  /** One entry of `delta.tool_calls`; a missing index reads as 0. */
  datatype ToolDelta = ToolDelta(index: nat, id: Option<string>, name: Option<string>, args: Option<string>) {
    predicate IsHeader() {
      id.Some? && name.Some?
    }

    function ArgsText(): string {
      if args.Some? then args.value else ""
    }
  }

  /** One server-sent event after parsing. */
  datatype Chunk =
    | DoneMarker
    | Unparseable
    | NoChoice
    | ApiError(message: string)
    | StreamError(message: string)
    | Choice(reasoning: Option<string>, content: Option<string>, toolCalls: seq<ToolDelta>, finish: Option<string>)

  datatype Machine = Machine(indexToId: map<nat, string>, current: Option<nat>, open: seq<nat>)

  const Fresh := Machine(map[], None, [])

  function MapFinishReason(reason: string): StopReason {
    if reason == "tool_calls" then ToolUse else if reason == "length" then MaxTokens else EndTurn
  }

  // ---- One delta ------------------------------------------------------------------------------

  function Without(open: seq<nat>, index: nat): seq<nat>
    decreases |open|
  {
    if open == [] then [] else (if open[0] == index then [] else [open[0]]) + Without(open[1..], index)
  }

  /** A delta for another index closes the current one. */
  predicate Leaves(m: Machine, index: nat) {
    m.current.Some? && m.current.value != index && m.current.value in m.open
  }

  function Leave(m: Machine, index: nat): Machine {
    if Leaves(m, index) then m.(open := Without(m.open, m.current.value)) else m
  }

  function EndOf(m: Machine, index: nat): seq<ProviderEvent> {
    if index in m.indexToId then [ToolCallEnd(m.indexToId[index])] else []
  }

  function Enter(m: Machine, d: ToolDelta): Machine {
    if d.IsHeader() then
      Machine(m.indexToId[d.index := d.id.value], Some(d.index), if d.index in m.open then m.open else m.open + [d.index])
    else m
  }

  function IdAt(m: Machine, index: nat): string {
    if index in m.indexToId then m.indexToId[index] else "call_idx_" + Decimal(index)
  }

  function Next(m: Machine, d: ToolDelta): Machine {
    Enter(Leave(m, d.index), d)
  }

  function Emit(m: Machine, d: ToolDelta): seq<ProviderEvent> {
    (if Leaves(m, d.index) then EndOf(m, m.current.value) else []) +
    (if d.IsHeader() then [ToolCallStart(d.id.value, d.name.value)] else []) +
    (if d.ArgsText() != "" then [ToolCallArgs(IdAt(Next(m, d), d.index), d.ArgsText())] else [])
  }

  function CloseAll(indexToId: map<nat, string>, open: seq<nat>): seq<ProviderEvent>
    decreases |open|
  {
    if open == [] then []
    else (if open[0] in indexToId then [ToolCallEnd(indexToId[open[0]])] else []) + CloseAll(indexToId, open[1..])
  }

  // ---- A list of deltas, and a whole stream ------------------------------------------------

  function NextAll(m: Machine, ds: seq<ToolDelta>): Machine
    decreases |ds|
  {
    if ds == [] then m else NextAll(Next(m, ds[0]), ds[1..])
  }

  function EmitAll(m: Machine, ds: seq<ToolDelta>): seq<ProviderEvent>
    decreases |ds|
  {
    if ds == [] then [] else Emit(m, ds[0]) + EmitAll(Next(m, ds[0]), ds[1..])
  }

  function Prose(ch: Chunk): seq<ProviderEvent>
    requires ch.Choice?
  {
    (if ch.reasoning.Some? && ch.reasoning.value != "" then [ThinkingDelta(ch.reasoning.value)] else []) +
    (if ch.content.Some? && ch.content.value != "" then [TextDelta(ch.content.value)] else [])
  }

  predicate Finishes(ch: Chunk) {
    ch.DoneMarker? || (ch.Choice? && ch.finish.Some? && ch.finish.value != "null")
  }

  function Finish(m: Machine, reason: StopReason): seq<ProviderEvent> {
    CloseAll(m.indexToId, m.open) + [Done(reason)]
  }

  function Stream(m: Machine, chunks: seq<Chunk>): seq<ProviderEvent>
    decreases |chunks|
  {
    if chunks == [] then Finish(m, EndTurn) else
    match chunks[0]
    case DoneMarker => Finish(m, EndTurn)
    case Unparseable => Stream(m, chunks[1..])
    case NoChoice => Stream(m, chunks[1..])
    case ApiError(message) => [Error(message)]
    case StreamError(message) => [Broken(message)]
    case Choice(_, _, ds, finish) =>
      Prose(chunks[0]) + EmitAll(m, ds) +
      (if Finishes(chunks[0]) then Finish(NextAll(m, ds), MapFinishReason(finish.value))
       else Stream(NextAll(m, ds), chunks[1..]))
  }

  // ---- The stream loop --------------------------------------------------------------------------

  method CloseToolCalls(indexToId: map<nat, string>, open: seq<nat>) returns (out: seq<ProviderEvent>)
    ensures out == CloseAll(indexToId, open)
  {
    out := [];
    var i := 0;
    while i < |open|
      invariant 0 <= i <= |open|
      invariant CloseAll(indexToId, open) == out + CloseAll(indexToId, open[i..])
    {
      assert open[i..][0] == open[i] && open[i..][1..] == open[i + 1..];
      if open[i] in indexToId {
        Regroup(out, [ToolCallEnd(indexToId[open[i]])], CloseAll(indexToId, open[i + 1..]));
        out := out + [ToolCallEnd(indexToId[open[i]])];
      }
      i := i + 1;
    }
  }

  method OnDelta(m: Machine, d: ToolDelta) returns (m': Machine, out: seq<ProviderEvent>)
    ensures m' == Next(m, d) && out == Emit(m, d)
  {
    var indexToId, current, open := m.indexToId, m.current, m.open;
    out := [];
    if current.Some? {
      var prev := current.value;
      if prev != d.index && prev in open {
        if prev in indexToId {
          out := out + [ToolCallEnd(indexToId[prev])];
        }
        open := Without(open, prev);
      }
    }
    if d.id.Some? && d.name.Some? {
      indexToId := indexToId[d.index := d.id.value];
      if d.index !in open {
        open := open + [d.index];
      }
      current := Some(d.index);
      out := out + [ToolCallStart(d.id.value, d.name.value)];
    }
    if d.args.Some? && d.args.value != "" {
      var id := if d.index in indexToId then indexToId[d.index] else "call_idx_" + Decimal(d.index);
      out := out + [ToolCallArgs(id, d.args.value)];
    }
    m' := Machine(indexToId, current, open);
  }

  lemma DeltasFrom(m: Machine, ds: seq<ToolDelta>, j: nat)
    requires j < |ds|
    ensures EmitAll(m, ds[j..]) == Emit(m, ds[j]) + EmitAll(Next(m, ds[j]), ds[j + 1..])
    ensures NextAll(m, ds[j..]) == NextAll(Next(m, ds[j]), ds[j + 1..])
  {
    assert ds[j..][0] == ds[j] && ds[j..][1..] == ds[j + 1..];
  }

  method OnDeltas(m: Machine, ds: seq<ToolDelta>) returns (m': Machine, out: seq<ProviderEvent>)
    ensures m' == NextAll(m, ds) && out == EmitAll(m, ds)
  {
    m', out := m, [];
    var j := 0;
    while j < |ds|
      invariant 0 <= j <= |ds|
      invariant EmitAll(m, ds) == out + EmitAll(m', ds[j..])
      invariant NextAll(m, ds) == NextAll(m', ds[j..])
    {
      ghost var rest := ds[j + 1..];
      DeltasFrom(m', ds, j);
      var events;
      m', events := OnDelta(m', ds[j]);
      Regroup(out, events, EmitAll(m', rest));
      out := out + events;
      j := j + 1;
    }
  }

  method OnProse(reasoning: Option<string>, content: Option<string>) returns (out: seq<ProviderEvent>)
    ensures forall ds, finish :: out == Prose(Choice(reasoning, content, ds, finish))
  {
    out := [];
    if reasoning.Some? && reasoning.value != "" {
      out := out + [ThinkingDelta(reasoning.value)];
    }
    if content.Some? && content.value != "" {
      out := out + [TextDelta(content.value)];
    }
  }

  method StreamChunks(chunks: seq<Chunk>) returns (out: seq<ProviderEvent>)
    ensures out == Stream(Fresh, chunks)
  {
    var m := Fresh;
    out := [];
    var i := 0;
    while i < |chunks|
      invariant 0 <= i <= |chunks|
      invariant Stream(Fresh, chunks) == out + Stream(m, chunks[i..])
    {
      assert chunks[i..][0] == chunks[i] && chunks[i..][1..] == chunks[i + 1..];
      match chunks[i] {
        case DoneMarker =>
          var ends := CloseToolCalls(m.indexToId, m.open);
          return out + (ends + [Done(EndTurn)]);
        case Unparseable =>
        case NoChoice =>
        case ApiError(message) =>
          return out + [Error(message)];
        case StreamError(message) =>
          return out + [Broken(message)];
        case Choice(reasoning, content, ds, finish) =>
          ghost var sent, rest := out, Stream(NextAll(m, ds), chunks[i + 1..]);
          var prose := OnProse(reasoning, content);
          var events;
          m, events := OnDeltas(m, ds);
          if finish.Some? && finish.value != "null" {
            var ends := CloseToolCalls(m.indexToId, m.open);
            return out + (prose + events + (ends + [Done(MapFinishReason(finish.value))]));
          }
          out := out + (prose + events);
          assert sent + (prose + events + rest) == out + rest;
      }
      i := i + 1;
    }
    var ends := CloseToolCalls(m.indexToId, m.open);
    return out + (ends + [Done(EndTurn)]);
  }

  // ---- At most one call is open, whatever the provider sends ----------------------------------

  predicate OneOpen(m: Machine) {
    m.open == [] || (m.current.Some? && m.open == [m.current.value] && m.current.value in m.indexToId)
  }

  lemma {:induction false} AtMostOneOpen(m: Machine, ds: seq<ToolDelta>)
    requires OneOpen(m)
    ensures OneOpen(NextAll(m, ds))
    decreases |ds|
  {
    if ds != [] {
      if m.open != [] {
        assert m.open[1..] == [];
        assert Without(m.open, m.current.value) == [];
      }
      AtMostOneOpen(Next(m, ds[0]), ds[1..]);
    }
  }

  // ---- Blocks of deltas -------------------------------------------------------------------------

  /** A tool call as a run of deltas of one index: a header, then fragments. */
  predicate IsBlock(ds: seq<ToolDelta>) {
    && ds != [] && ds[0].IsHeader()
    && forall i :: 0 < i < |ds| ==> ds[i].index == ds[0].index && !ds[i].IsHeader()
  }

  function ArgsIn(ds: seq<ToolDelta>): string
    decreases |ds|
  {
    if ds == [] then "" else (if ds[0].args.Some? then ds[0].args.value else "") + ArgsIn(ds[1..])
  }

  function CallOf(ds: seq<ToolDelta>): ToolCall
    requires IsBlock(ds)
  {
    ToolCall(ds[0].id.value, ds[0].name.value, ArgsIn(ds))
  }

  predicate AreBlocks(blocks: seq<seq<ToolDelta>>) {
    forall i :: 0 <= i < |blocks| ==> IsBlock(blocks[i])
  }

  function CallsOf(blocks: seq<seq<ToolDelta>>): seq<ToolCall>
    requires AreBlocks(blocks)
  {
    seq(|blocks|, i requires 0 <= i < |blocks| => CallOf(blocks[i]))
  }

  function Flatten(blocks: seq<seq<ToolDelta>>): seq<ToolDelta>
    decreases |blocks|
  {
    if blocks == [] then [] else blocks[0] + Flatten(blocks[1..])
  }

  /** Neighbouring blocks carry different indices, so the machine sees where one call ends. */
  predicate NeighboursDiffer(blocks: seq<seq<ToolDelta>>)
    requires AreBlocks(blocks)
    decreases |blocks|
  {
    |blocks| <= 1 || (blocks[0][0].index != blocks[1][0].index && NeighboursDiffer(blocks[1..]))
  }

  /** The calls that get through: a block followed by another header for its own index is lost. */
  function Delivered(blocks: seq<seq<ToolDelta>>): seq<ToolCall>
    requires AreBlocks(blocks)
  {
    if blocks == [] then [] else DeliveredAfter(blocks[0], blocks[1..])
  }

  function DeliveredAfter(last: seq<ToolDelta>, blocks: seq<seq<ToolDelta>>): seq<ToolCall>
    requires IsBlock(last) && AreBlocks(blocks)
    decreases |blocks|
  {
    if blocks == [] then [CallOf(last)] else
    (if blocks[0][0].index != last[0].index then [CallOf(last)] else []) + DeliveredAfter(blocks[0], blocks[1..])
  }

  lemma {:induction false} DeliveredAllIff(blocks: seq<seq<ToolDelta>>)
    requires AreBlocks(blocks)
    ensures |Delivered(blocks)| <= |blocks|
    ensures NeighboursDiffer(blocks) ==> Delivered(blocks) == CallsOf(blocks)
    ensures !NeighboursDiffer(blocks) ==> |Delivered(blocks)| < |blocks|
    decreases |blocks|
  {
    if blocks != [] {
      DeliveredAllIff(blocks[1..]);
      assert CallsOf(blocks) == [CallOf(blocks[0])] + CallsOf(blocks[1..]);
    }
  }

  // ---- Machine and collector together --------------------------------------------------------

  /** The machine has exactly the current block open, and the collector holds what it has sent so far. */
  predicate Holding(m: Machine, c: Collected, index: nat, id: string, call: Building) {
    && m.current == Some(index) && m.open == [index] && index in m.indexToId && m.indexToId[index] == id
    && !c.stopped && id in c.inFlight && c.inFlight[id] == call
  }

  lemma {:induction false} EmitAllAppend(m: Machine, a: seq<ToolDelta>, b: seq<ToolDelta>)
    ensures EmitAll(m, a + b) == EmitAll(m, a) + EmitAll(NextAll(m, a), b)
    ensures NextAll(m, a + b) == NextAll(NextAll(m, a), b)
    decreases |a|
  {
    if a == [] {
      assert a + b == b;
    } else {
      assert (a + b)[1..] == a[1..] + b;
      EmitAllAppend(Next(m, a[0]), a[1..], b);
      Regroup(Emit(m, a[0]), EmitAll(Next(m, a[0]), a[1..]), EmitAll(NextAll(m, a), b));
    }
  }

  lemma FragmentStep(m: Machine, c: Collected, id: string, call: Building, d: ToolDelta)
    requires Holding(m, c, d.index, id, call) && !d.IsHeader()
    ensures Next(m, d) == m
    ensures var c' := FeedAll(c, Emit(m, d));
            Holding(m, c', d.index, id, Building(call.name, call.rawArgs + d.ArgsText())) && c'.calls == c.calls
  {
    if d.ArgsText() != "" {
      FeedOne(c, ToolCallArgs(id, d.ArgsText()));
      assert Emit(m, d) == [ToolCallArgs(id, d.ArgsText())];
    } else {
      assert Emit(m, d) == [];
    }
  }

  lemma FeedFirst(m: Machine, c: Collected, ds: seq<ToolDelta>)
    requires ds != []
    ensures FeedAll(c, EmitAll(m, ds)) == FeedAll(FeedAll(c, Emit(m, ds[0])), EmitAll(Next(m, ds[0]), ds[1..]))
  {
    FeedAppend(c, Emit(m, ds[0]), EmitAll(Next(m, ds[0]), ds[1..]));
  }

  /** One fragment further: the collector it leads to. */
  lemma NextFragment(m: Machine, c: Collected, id: string, call: Building, ds: seq<ToolDelta>)
    returns (c1: Collected)
    requires ds != [] && Holding(m, c, ds[0].index, id, call) && !ds[0].IsHeader()
    ensures Holding(m, c1, ds[0].index, id, Building(call.name, call.rawArgs + ds[0].ArgsText())) && c1.calls == c.calls
    ensures FeedAll(c, EmitAll(m, ds)) == FeedAll(c1, EmitAll(m, ds[1..]))
    ensures NextAll(m, ds) == NextAll(m, ds[1..])
  {
    c1 := FeedAll(c, Emit(m, ds[0]));
    FragmentStep(m, c, id, call, ds[0]);
    FeedFirst(m, c, ds);
  }

  lemma {:induction false} FragmentsRun(m: Machine, c: Collected, index: nat, id: string, call: Building, ds: seq<ToolDelta>)
    requires Holding(m, c, index, id, call)
    requires forall i :: 0 <= i < |ds| ==> ds[i].index == index && !ds[i].IsHeader()
    ensures NextAll(m, ds) == m
    ensures Holding(m, FeedAll(c, EmitAll(m, ds)), index, id, Building(call.name, call.rawArgs + ArgsIn(ds)))
    ensures FeedAll(c, EmitAll(m, ds)).calls == c.calls
    decreases |ds|
  {
    if ds == [] {
      assert call.rawArgs + "" == call.rawArgs;
    } else {
      var c1 := NextFragment(m, c, id, call, ds);
      FragmentsRun(m, c1, index, id, Building(call.name, call.rawArgs + ds[0].ArgsText()), ds[1..]);
      Regroup(call.rawArgs, ds[0].ArgsText(), ArgsIn(ds[1..]));
    }
  }

  function Opening(id: string, name: string, args: string): seq<ProviderEvent> {
    [ToolCallStart(id, name)] + (if args != "" then [ToolCallArgs(id, args)] else [])
  }

  lemma FeedOpening(c: Collected, id: string, name: string, args: string)
    requires !c.stopped
    ensures FeedAll(c, Opening(id, name, args)) == c.(inFlight := c.inFlight[id := Building(name, args)])
  {
    FeedOne(c, ToolCallStart(id, name));
    if args == "" {
      assert Opening(id, name, args) == [ToolCallStart(id, name)];
    } else {
      FeedSnoc(c, [ToolCallStart(id, name)], ToolCallArgs(id, args));
      assert "" + args == args;
      var started := Feed(c, ToolCallStart(id, name));
      assert Feed(started, ToolCallArgs(id, args)).inFlight == c.inFlight[id := Building(name, args)];
    }
  }

  /** The first header of a stream opens its block. */
  lemma FirstHeader(c: Collected, d: ToolDelta)
    requires !c.stopped && d.IsHeader()
    ensures var c' := FeedAll(c, Emit(Fresh, d));
            Holding(Next(Fresh, d), c', d.index, d.id.value, Building(d.name.value, d.ArgsText())) && c'.calls == c.calls
  {
    FeedOpening(c, d.id.value, d.name.value, d.ArgsText());
    assert Emit(Fresh, d) == Opening(d.id.value, d.name.value, d.ArgsText());
  }

  /** A header for another index first ends the block before it; one for the same index buries it. */
  lemma NextHeader(m: Machine, c: Collected, index: nat, id: string, call: Building, d: ToolDelta)
    requires Holding(m, c, index, id, call) && d.IsHeader()
    ensures var c' := FeedAll(c, Emit(m, d));
            && Holding(Next(m, d), c', d.index, d.id.value, Building(d.name.value, d.ArgsText()))
            && c'.calls == c.calls + (if d.index != index then [ToolCall(id, call.name, call.rawArgs)] else [])
  {
    var tail := Opening(d.id.value, d.name.value, d.ArgsText());
    if d.index != index {
      assert Without([index], index) == [] by {
        assert [index][1..] == [];
      }
      assert Emit(m, d) == [ToolCallEnd(id)] + tail;
      FeedAppend(c, [ToolCallEnd(id)], tail);
      FeedOne(c, ToolCallEnd(id));
      FeedOpening(Feed(c, ToolCallEnd(id)), d.id.value, d.name.value, d.ArgsText());
    } else {
      assert Emit(m, d) == tail;
      FeedOpening(c, d.id.value, d.name.value, d.ArgsText());
    }
  }

  /** After a header, the rest of its block only adds argument text. */
  lemma BlockRun(m: Machine, c: Collected, ds: seq<ToolDelta>)
    requires IsBlock(ds)
    requires Holding(Next(m, ds[0]), FeedAll(c, Emit(m, ds[0])), ds[0].index, ds[0].id.value,
                     Building(ds[0].name.value, ds[0].ArgsText()))
    ensures var c' := FeedAll(c, EmitAll(m, ds));
            && Holding(NextAll(m, ds), c', ds[0].index, ds[0].id.value, Building(ds[0].name.value, ArgsIn(ds)))
            && c'.calls == FeedAll(c, Emit(m, ds[0])).calls
  {
    var m1, c1 := Next(m, ds[0]), FeedAll(c, Emit(m, ds[0]));
    FragmentsRun(m1, c1, ds[0].index, ds[0].id.value, Building(ds[0].name.value, ds[0].ArgsText()), ds[1..]);
    FeedAppend(c, Emit(m, ds[0]), EmitAll(m1, ds[1..]));
  }

  lemma CloseHolding(m: Machine, c: Collected, index: nat, id: string, call: Building)
    requires Holding(m, c, index, id, call)
    ensures FeedAll(c, CloseAll(m.indexToId, m.open)) == Feed(c, ToolCallEnd(id))
  {
    assert m.open[1..] == [];
    assert CloseAll(m.indexToId, m.open) == [ToolCallEnd(id)];
    FeedOne(c, ToolCallEnd(id));
  }

  function ToolsOf(m: Machine, ds: seq<ToolDelta>): seq<ProviderEvent> {
    EmitAll(m, ds) + CloseAll(NextAll(m, ds).indexToId, NextAll(m, ds).open)
  }

  /** Both sides after block `b`. */
  predicate Holds(m: Machine, c: Collected, b: seq<ToolDelta>)
    requires IsBlock(b)
  {
    Holding(m, c, b[0].index, b[0].id.value, Building(b[0].name.value, ArgsIn(b)))
  }

  lemma ToolsOfAppend(m: Machine, b: seq<ToolDelta>, rest: seq<ToolDelta>)
    ensures ToolsOf(m, b + rest) == EmitAll(m, b) + ToolsOf(NextAll(m, b), rest)
  {
    var m' := NextAll(m, b + rest);
    EmitAllAppend(m, b, rest);
    Regroup(EmitAll(m, b), EmitAll(NextAll(m, b), rest), CloseAll(m'.indexToId, m'.open));
  }

  lemma FeedBlock(m: Machine, c: Collected, b: seq<ToolDelta>, rest: seq<ToolDelta>)
    ensures FeedAll(c, ToolsOf(m, b + rest)) == FeedAll(FeedAll(c, EmitAll(m, b)), ToolsOf(NextAll(m, b), rest))
  {
    ToolsOfAppend(m, b, rest);
    FeedAppend(c, EmitAll(m, b), ToolsOf(NextAll(m, b), rest));
  }

  lemma OneBlock(m: Machine, c: Collected, last: seq<ToolDelta>, b: seq<ToolDelta>)
    requires IsBlock(last) && IsBlock(b) && Holds(m, c, last)
    ensures Holds(NextAll(m, b), FeedAll(c, EmitAll(m, b)), b)
    ensures FeedAll(c, EmitAll(m, b)).calls == c.calls + (if b[0].index != last[0].index then [CallOf(last)] else [])
  {
    NextHeader(m, c, last[0].index, last[0].id.value, Building(last[0].name.value, ArgsIn(last)), b[0]);
    BlockRun(m, c, b);
  }

  lemma LastBlock(m: Machine, c: Collected, last: seq<ToolDelta>)
    requires IsBlock(last) && Holds(m, c, last)
    ensures FeedAll(c, ToolsOf(m, [])).calls == c.calls + [CallOf(last)]
  {
    assert ToolsOf(m, []) == CloseAll(m.indexToId, m.open);
    CloseHolding(m, c, last[0].index, last[0].id.value, Building(last[0].name.value, ArgsIn(last)));
  }

  /** One block further: the state it leads to, and what it has delivered on the way. */
  lemma BlockStep(m: Machine, c: Collected, last: seq<ToolDelta>, b: seq<ToolDelta>, rest: seq<ToolDelta>)
    returns (m1: Machine, c1: Collected)
    requires IsBlock(last) && IsBlock(b) && Holds(m, c, last)
    ensures Holds(m1, c1, b)
    ensures c1.calls == c.calls + (if b[0].index != last[0].index then [CallOf(last)] else [])
    ensures FeedAll(c, ToolsOf(m, b + rest)) == FeedAll(c1, ToolsOf(m1, rest))
  {
    m1, c1 := NextAll(m, b), FeedAll(c, EmitAll(m, b));
    OneBlock(m, c, last, b);
    FeedBlock(m, c, b, rest);
  }

  /** From a state that holds block `last`, the blocks that follow and the final close deliver the rest. */
  lemma {:induction false} BlocksRun(m: Machine, c: Collected, last: seq<ToolDelta>, blocks: seq<seq<ToolDelta>>)
    requires IsBlock(last) && AreBlocks(blocks) && Holds(m, c, last)
    ensures FeedAll(c, ToolsOf(m, Flatten(blocks))).calls == c.calls + DeliveredAfter(last, blocks)
    decreases |blocks|
  {
    if blocks == [] {
      LastBlock(m, c, last);
    } else {
      var m1, c1 := BlockStep(m, c, last, blocks[0], Flatten(blocks[1..]));
      BlocksRun(m1, c1, blocks[0], blocks[1..]);
      Regroup(c.calls, if blocks[0][0].index != last[0].index then [CallOf(last)] else [], DeliveredAfter(blocks[0], blocks[1..]));
    }
  }

  lemma BlocksDeliver(c: Collected, blocks: seq<seq<ToolDelta>>)
    requires AreBlocks(blocks) && !c.stopped
    ensures FeedAll(c, ToolsOf(Fresh, Flatten(blocks))).calls == c.calls + Delivered(blocks)
  {
    if blocks == [] {
      assert ToolsOf(Fresh, []) == [];
    } else {
      var b, rest := blocks[0], blocks[1..];
      FirstHeader(c, b[0]);
      BlockRun(Fresh, c, b);
      FeedBlock(Fresh, c, b, Flatten(rest));
      BlocksRun(NextAll(Fresh, b), FeedAll(c, EmitAll(Fresh, b)), b, rest);
    }
  }

  // ---- Starts and ends ---------------------------------------------------------------------------

  function Starts(events: seq<ProviderEvent>): nat {
    if events == [] then 0 else (if events[0].ToolCallStart? then 1 else 0) + Starts(events[1..])
  }

  function Ends(events: seq<ProviderEvent>): nat {
    if events == [] then 0 else (if events[0].ToolCallEnd? then 1 else 0) + Ends(events[1..])
  }

  lemma {:induction false} CountsAppend(a: seq<ProviderEvent>, b: seq<ProviderEvent>)
    ensures Starts(a + b) == Starts(a) + Starts(b) && Ends(a + b) == Ends(a) + Ends(b)
  {
    if a == [] {
      assert a + b == b;
    } else {
      assert (a + b)[1..] == a[1..] + b;
      CountsAppend(a[1..], b);
    }
  }

  /** A header for the index that is open already: it starts a call, and the one before it never ends. */
  predicate Reopens(m: Machine, d: ToolDelta) {
    d.IsHeader() && d.index in Leave(m, d.index).open
  }

  function Reopenings(m: Machine, ds: seq<ToolDelta>): nat
    decreases |ds|
  {
    if ds == [] then 0 else (if Reopens(m, ds[0]) then 1 else 0) + Reopenings(Next(m, ds[0]), ds[1..])
  }

  /** Leaving ends the open call or keeps the one at hand. */
  lemma LeaveCounts(m: Machine, index: nat)
    requires OneOpen(m)
    ensures Leave(m, index).open == [] || (Leave(m, index) == m && m.current == Some(index))
    ensures OneOpen(Leave(m, index))
    ensures |m.open| == (if Leaves(m, index) then |EndOf(m, m.current.value)| else 0) + |Leave(m, index).open|
  {
    if m.open != [] {
      assert m.open[1..] == [];
      assert Without(m.open, m.current.value) == Without([], m.current.value);
    }
  }

  lemma EmitCounts(m: Machine, d: ToolDelta)
    requires OneOpen(m)
    ensures OneOpen(Next(m, d))
    ensures Starts(Emit(m, d)) + |m.open| == Ends(Emit(m, d)) + |Next(m, d).open| + (if Reopens(m, d) then 1 else 0)
  {
    LeaveCounts(m, d.index);
    var leave := if Leaves(m, d.index) then EndOf(m, m.current.value) else [];
    var start := if d.IsHeader() then [ToolCallStart(d.id.value, d.name.value)] else [];
    var args := if d.ArgsText() != "" then [ToolCallArgs(IdAt(Next(m, d), d.index), d.ArgsText())] else [];
    CountsAppend(leave, start);
    CountsAppend(leave + start, args);
    assert Starts(start) == (if d.IsHeader() then 1 else 0) && Ends(start) == 0 && Starts(args) == Ends(args) == 0;
  }

  /**
   * From a fresh machine every call that is started is ended before the stream is done, but for one
   * each time a header reopens its own index: starts and ends agree exactly when none does.
   */
  lemma {:induction false} StartsAreEnded(m: Machine, ds: seq<ToolDelta>)
    requires OneOpen(m)
    ensures Starts(ToolsOf(m, ds)) + |m.open| == Ends(ToolsOf(m, ds)) + Reopenings(m, ds)
    decreases |ds|
  {
    if ds == [] {
      if m.open != [] {
        assert m.open[1..] == [];
        assert CloseAll(m.indexToId, m.open) == [ToolCallEnd(m.indexToId[m.open[0]])];
      }
    } else {
      var d, rest, next := ds[0], ds[1..], Next(m, ds[0]);
      EmitCounts(m, d);
      StartsAreEnded(next, rest);
      Regroup(Emit(m, d), EmitAll(next, rest), CloseAll(NextAll(next, rest).indexToId, NextAll(next, rest).open));
      CountsAppend(Emit(m, d), ToolsOf(next, rest));
    }
  }

  // ---- Whole streams -----------------------------------------------------------------------------

  /** The part of a stream up to the chunk that finishes it. */
  function Heard(chunks: seq<Chunk>): seq<Chunk>
    decreases |chunks|
  {
    if chunks == [] then [] else if Finishes(chunks[0]) then [chunks[0]] else [chunks[0]] + Heard(chunks[1..])
  }

  predicate Clean(chunks: seq<Chunk>) {
    forall i :: 0 <= i < |chunks| ==> !chunks[i].ApiError? && !chunks[i].StreamError?
  }

  function DeltasIn(chunks: seq<Chunk>): seq<ToolDelta>
    decreases |chunks|
  {
    if chunks == [] then [] else (if chunks[0].Choice? then chunks[0].toolCalls else []) + DeltasIn(chunks[1..])
  }

  function TextIn(chunks: seq<Chunk>): string
    decreases |chunks|
  {
    if chunks == [] then ""
    else (if chunks[0].Choice? && chunks[0].content.Some? then chunks[0].content.value else "") + TextIn(chunks[1..])
  }

  function ThinkingIn(chunks: seq<Chunk>): string
    decreases |chunks|
  {
    if chunks == [] then ""
    else (if chunks[0].Choice? && chunks[0].reasoning.Some? then chunks[0].reasoning.value else "") + ThinkingIn(chunks[1..])
  }

  predicate IsTool(e: ProviderEvent) {
    e.ToolCallStart? || e.ToolCallArgs? || e.ToolCallEnd?
  }

  predicate AllTools(events: seq<ProviderEvent>) {
    forall i :: 0 <= i < |events| ==> IsTool(events[i])
  }

  lemma {:induction false} EmitsOnlyTools(m: Machine, ds: seq<ToolDelta>)
    ensures AllTools(EmitAll(m, ds))
    decreases |ds|
  {
    if ds != [] {
      EmitsOnlyTools(Next(m, ds[0]), ds[1..]);
    }
  }

  lemma {:induction false} ClosesOnlyTools(indexToId: map<nat, string>, open: seq<nat>)
    ensures AllTools(CloseAll(indexToId, open))
    decreases |open|
  {
    if open != [] {
      ClosesOnlyTools(indexToId, open[1..]);
    }
  }

  /** Tool events touch no prose, and what they do does not depend on it. */
  lemma {:induction false} ToolsIgnoreProse(c: Collected, text: string, thinking: string, events: seq<ProviderEvent>)
    requires AllTools(events)
    ensures FeedAll(c.(text := text, thinking := thinking), events) == FeedAll(c, events).(text := text, thinking := thinking)
    ensures FeedAll(c, events) == FeedAll(c, events).(text := c.text, thinking := c.thinking, stopped := c.stopped, error := c.error)
    decreases |events|
  {
    if events != [] {
      assert IsTool(events[0]);
      ToolsIgnoreProse(Feed(c, events[0]), text, thinking, events[1..]);
    }
  }

  lemma ProseOnly(c: Collected, ch: Chunk)
    requires ch.Choice? && !c.stopped
    ensures FeedAll(c, Prose(ch)) ==
            c.(text := c.text + (if ch.content.Some? then ch.content.value else ""),
               thinking := c.thinking + (if ch.reasoning.Some? then ch.reasoning.value else ""))
  {
    var r := if ch.reasoning.Some? then ch.reasoning.value else "";
    var t := if ch.content.Some? then ch.content.value else "";
    assert c.text + "" == c.text && c.thinking + "" == c.thinking;
    if r != "" && t != "" {
      FeedSnoc(c, [ThinkingDelta(r)], TextDelta(t));
      FeedOne(c, ThinkingDelta(r));
      assert Prose(ch) == [ThinkingDelta(r)] + [TextDelta(t)];
    } else if r != "" {
      FeedOne(c, ThinkingDelta(r));
      assert Prose(ch) == [ThinkingDelta(r)];
    } else if t != "" {
      FeedOne(c, TextDelta(t));
      assert Prose(ch) == [TextDelta(t)];
    } else {
      assert Prose(ch) == [];
    }
  }

  lemma ToolsThenDone(c: Collected, events: seq<ProviderEvent>, reason: StopReason)
    requires AllTools(events) && !c.stopped
    ensures FeedAll(c, events + [Done(reason)]) == FeedAll(c, events).(stopped := true)
  {
    ToolsIgnoreProse(c, c.text, c.thinking, events);
    FeedSnoc(c, events, Done(reason));
  }

  lemma CloseAndDone(c: Collected, m: Machine, reason: StopReason)
    requires !c.stopped
    ensures FeedAll(c, Finish(m, reason)) == FeedAll(c, CloseAll(m.indexToId, m.open)).(stopped := true)
  {
    ClosesOnlyTools(m.indexToId, m.open);
    ToolsThenDone(c, CloseAll(m.indexToId, m.open), reason);
  }

  /** What a stream leaves in the collector, told from its tool deltas and its prose apart. */
  function Outcome(m: Machine, c: Collected, chunks: seq<Chunk>): Collected {
    FeedAll(c, ToolsOf(m, DeltasIn(Heard(chunks)))).(
      text := c.text + TextIn(Heard(chunks)),
      thinking := c.thinking + ThinkingIn(Heard(chunks)),
      stopped := true)
  }

  lemma ChoicePart(m: Machine, c: Collected, ch: Chunk)
    requires ch.Choice? && !c.stopped
    ensures FeedAll(c, Prose(ch) + EmitAll(m, ch.toolCalls)) ==
            FeedAll(c, EmitAll(m, ch.toolCalls)).(
              text := c.text + (if ch.content.Some? then ch.content.value else ""),
              thinking := c.thinking + (if ch.reasoning.Some? then ch.reasoning.value else ""))
    ensures !FeedAll(c, EmitAll(m, ch.toolCalls)).stopped
  {
    var c1 := FeedAll(c, Prose(ch));
    FeedAppend(c, Prose(ch), EmitAll(m, ch.toolCalls));
    ProseOnly(c, ch);
    EmitsOnlyTools(m, ch.toolCalls);
    ToolsIgnoreProse(c, c1.text, c1.thinking, EmitAll(m, ch.toolCalls));
  }

  lemma ToolsOfAreTools(m: Machine, ds: seq<ToolDelta>)
    ensures AllTools(ToolsOf(m, ds))
  {
    EmitsOnlyTools(m, ds);
    ClosesOnlyTools(NextAll(m, ds).indexToId, NextAll(m, ds).open);
  }

  lemma FinishOutcome(m: Machine, c: Collected, chunks: seq<Chunk>, reason: StopReason)
    requires !c.stopped && DeltasIn(Heard(chunks)) == [] && TextIn(Heard(chunks)) == "" && ThinkingIn(Heard(chunks)) == ""
    ensures FeedAll(c, Finish(m, reason)) == Outcome(m, c, chunks)
  {
    CloseAndDone(c, m, reason);
    assert ToolsOf(m, []) == CloseAll(m.indexToId, m.open);
    ClosesOnlyTools(m.indexToId, m.open);
    ToolsIgnoreProse(c, c.text, c.thinking, CloseAll(m.indexToId, m.open));
  }

  /** The chunk that finishes a stream with a choice. */
  lemma LastChoice(m: Machine, c: Collected, ch: Chunk, rest: seq<Chunk>, reason: StopReason)
    requires ch.Choice? && Finishes(ch) && !c.stopped
    ensures FeedAll(c, Prose(ch) + EmitAll(m, ch.toolCalls) + Finish(NextAll(m, ch.toolCalls), reason)) ==
            Outcome(m, c, [ch] + rest)
  {
    var m', tools := NextAll(m, ch.toolCalls), EmitAll(m, ch.toolCalls);
    var close := CloseAll(m'.indexToId, m'.open);
    ChoicePart(m, c, ch);
    FeedAppend(c, Prose(ch) + tools, Finish(m', reason));
    var c1, c2 := FeedAll(c, Prose(ch) + tools), FeedAll(c, tools);
    CloseAndDone(c1, m', reason);
    FeedAppend(c, tools, close);
    ClosesOnlyTools(m'.indexToId, m'.open);
    ToolsIgnoreProse(c2, c1.text, c1.thinking, close);
    assert Heard([ch] + rest) == [ch];
    assert DeltasIn([ch]) == ch.toolCalls && [ch][1..] == [];
    assert TextIn([ch]) == (if ch.content.Some? then ch.content.value else "");
    assert ThinkingIn([ch]) == (if ch.reasoning.Some? then ch.reasoning.value else "");
  }

  /** How the contents of a stream split at a chunk that does not finish it. */
  lemma HeardSplits(ch: Chunk, rest: seq<Chunk>, text: string, thinking: string)
    requires !Finishes(ch)
    ensures var all, tail := Heard([ch] + rest), Heard(rest);
            && DeltasIn(all) == (if ch.Choice? then ch.toolCalls else []) + DeltasIn(tail)
            && text + TextIn(all) == text + (if ch.Choice? && ch.content.Some? then ch.content.value else "") + TextIn(tail)
            && thinking + ThinkingIn(all) ==
               thinking + (if ch.Choice? && ch.reasoning.Some? then ch.reasoning.value else "") + ThinkingIn(tail)
  {
    assert ([ch] + rest)[1..] == rest;
    assert ([ch] + Heard(rest))[1..] == Heard(rest);
  }

  /** A choice in the middle of a stream. */
  lemma MiddleChoice(m: Machine, c: Collected, ch: Chunk, rest: seq<Chunk>)
    requires ch.Choice? && !Finishes(ch) && !c.stopped
    ensures var c1 := FeedAll(c, Prose(ch) + EmitAll(m, ch.toolCalls));
            !c1.stopped && Outcome(NextAll(m, ch.toolCalls), c1, rest) == Outcome(m, c, [ch] + rest)
  {
    var m', ds := NextAll(m, ch.toolCalls), DeltasIn(Heard(rest));
    var c2 := FeedAll(c, EmitAll(m, ch.toolCalls));
    ChoicePart(m, c, ch);
    var c1 := FeedAll(c, Prose(ch) + EmitAll(m, ch.toolCalls));
    FeedBlock(m, c, ch.toolCalls, ds);
    ToolsOfAreTools(m', ds);
    ToolsIgnoreProse(c2, c1.text, c1.thinking, ToolsOf(m', ds));
    HeardSplits(ch, rest, c.text, c.thinking);
  }

  /** A chunk with nothing in it. */
  lemma SilentChunk(m: Machine, c: Collected, ch: Chunk, rest: seq<Chunk>)
    requires ch.Unparseable? || ch.NoChoice?
    ensures Outcome(m, c, [ch] + rest) == Outcome(m, c, rest)
  {
    HeardSplits(ch, rest, c.text, c.thinking);
    assert [] + DeltasIn(Heard(rest)) == DeltasIn(Heard(rest));
    assert c.text + "" == c.text && c.thinking + "" == c.thinking;
  }

  /** Prose and tool calls of a stream do not disturb each other, however they are chunked. */
  lemma {:induction false} StreamOutcome(m: Machine, c: Collected, chunks: seq<Chunk>)
    requires Clean(Heard(chunks)) && !c.stopped
    ensures FeedAll(c, Stream(m, chunks)) == Outcome(m, c, chunks)
    decreases |chunks|
  {
    if chunks == [] {
      FinishOutcome(m, c, chunks, EndTurn);
    } else {
      var ch, rest := chunks[0], chunks[1..];
      assert chunks == [ch] + rest;
      assert Heard(chunks)[0] == ch;
      assert !Finishes(ch) ==> Heard(chunks)[1..] == Heard(rest);
      match ch {
        case DoneMarker =>
          assert [ch][1..] == [];
          FinishOutcome(m, c, chunks, EndTurn);
        case Choice(_, _, ds, finish) =>
          if Finishes(ch) {
            LastChoice(m, c, ch, rest, MapFinishReason(finish.value));
          } else {
            MiddleChoice(m, c, ch, rest);
            FeedAppend(c, Prose(ch) + EmitAll(m, ds), Stream(NextAll(m, ds), rest));
            StreamOutcome(NextAll(m, ds), FeedAll(c, Prose(ch) + EmitAll(m, ds)), rest);
          }
        case Unparseable =>
          SilentChunk(m, c, ch, rest);
          StreamOutcome(m, c, rest);
        case NoChoice =>
          SilentChunk(m, c, ch, rest);
          StreamOutcome(m, c, rest);
        case ApiError(_) => assert false;
        case StreamError(_) => assert false;
      }
    }
  }

  /**
   * A stream whose tool deltas come in blocks is collected as exactly its calls, in block order and
   * with their whole argument text, exactly when no two neighbouring blocks share an index. The
   * prose is collected unchanged either way.
   */
  lemma ContiguousBlocksRoundTrip(chunks: seq<Chunk>, blocks: seq<seq<ToolDelta>>)
    requires Clean(Heard(chunks)) && AreBlocks(blocks) && DeltasIn(Heard(chunks)) == Flatten(blocks)
    ensures var c := FeedAll(Nothing, Stream(Fresh, chunks));
            && (c.calls == CallsOf(blocks) <==> NeighboursDiffer(blocks))
            && c.calls == Delivered(blocks)
            && c.text == TextIn(Heard(chunks)) && c.thinking == ThinkingIn(Heard(chunks))
            && c.error == None && c.stopped
  {
    StreamOutcome(Fresh, Nothing, chunks);
    BlocksDeliver(Nothing, blocks);
    DeliveredAllIff(blocks);
    ToolsOfAreTools(Fresh, Flatten(blocks));
    ToolsIgnoreProse(Nothing, "", "", ToolsOf(Fresh, Flatten(blocks)));
    assert |CallsOf(blocks)| == |blocks|;
  }
}
