/** The Anthropic content-block machine, and the tool calls that come out of the collector behind it. */
module Anthropic {
  import opened Wrappers
  import opened ProviderEvents
  import opened Text

  /** One parsed server-sent event. Blocks are told apart by index; only tool-use blocks are tracked. */
  datatype BlockEvent =
    | ToolBlockStart(index: nat, id: string, name: string)
    | OtherBlockStart(index: nat)
    | TextPart(index: nat, text: string)
    | ThinkingPart(index: nat, text: string)
    | InputJson(index: nat, partial: string)
    | BlockStop(index: nat)
    | MessageDelta(stopReason: Option<StopReason>)
    | MessageStop
    | ApiError(message: string)
    | Ignored
    | StreamError(message: string)

  datatype Machine = Machine(toolIds: map<nat, string>, pendingStop: Option<StopReason>)

  const Fresh := Machine(map[], None)

  predicate Ends(e: BlockEvent) {
    e.MessageStop? || e.ApiError? || e.StreamError?
  }

  function Emit(m: Machine, e: BlockEvent): seq<ProviderEvent> {
    match e
    case ToolBlockStart(_, id, name) => [ToolCallStart(id, name)]
    case TextPart(_, text) => if text == "" then [] else [TextDelta(text)]
    case ThinkingPart(_, text) => if text == "" then [] else [ThinkingDelta(text)]
    case InputJson(index, partial) => if index in m.toolIds then [ToolCallArgs(m.toolIds[index], partial)] else []
    case BlockStop(index) => if index in m.toolIds then [ToolCallEnd(m.toolIds[index])] else []
    case MessageStop => [Done(if m.pendingStop.Some? then m.pendingStop.value else EndTurn)]
    case ApiError(message) => [Error(message)]
    case StreamError(message) => [Broken(message)]
    case _ => []
  }

  function Next(m: Machine, e: BlockEvent): Machine {
    match e
    case ToolBlockStart(index, id, _) => m.(toolIds := m.toolIds[index := id])
    case BlockStop(index) => m.(toolIds := m.toolIds - {index})
    case MessageDelta(reason) => if reason.Some? then m.(pendingStop := reason) else m
    case _ => m
  }

  function EmitAll(m: Machine, events: seq<BlockEvent>): seq<ProviderEvent>
    decreases |events|
  {
    if events == [] then []
    else if Ends(events[0]) then Emit(m, events[0])
    else Emit(m, events[0]) + EmitAll(Next(m, events[0]), events[1..])
  }

  /** The stream loop. */
  method StreamBlocks(events: seq<BlockEvent>) returns (out: seq<ProviderEvent>)
    ensures out == EmitAll(Fresh, events)
  {
    var toolIds: map<nat, string> := map[];
    var pendingStop: Option<StopReason> := None;
    out := [];
    var i := 0;
    while i < |events|
      invariant 0 <= i <= |events|
      invariant EmitAll(Fresh, events) == out + EmitAll(Machine(toolIds, pendingStop), events[i..])
    {
      ghost var m, sent := Machine(toolIds, pendingStop), out;
      match events[i] {
        case ToolBlockStart(index, id, name) =>
          toolIds := toolIds[index := id];
          out := out + [ToolCallStart(id, name)];
        case OtherBlockStart(_) =>
        case TextPart(_, text) =>
          if text != "" {
            out := out + [TextDelta(text)];
          }
        case ThinkingPart(_, text) =>
          if text != "" {
            out := out + [ThinkingDelta(text)];
          }
        case InputJson(index, partial) =>
          if index in toolIds {
            out := out + [ToolCallArgs(toolIds[index], partial)];
          }
        case BlockStop(index) =>
          if index in toolIds {
            out := out + [ToolCallEnd(toolIds[index])];
          }
          toolIds := toolIds - {index};
        case MessageDelta(reason) =>
          if reason.Some? {
            pendingStop := reason;
          }
        case MessageStop =>
          out := out + [Done(if pendingStop.Some? then pendingStop.value else EndTurn)];
          return;
        case ApiError(message) =>
          out := out + [Error(message)];
          return;
        case Ignored =>
        case StreamError(message) =>
          out := out + [Broken(message)];
          return;
      }
      assert out == sent + Emit(m, events[i]) && Machine(toolIds, pendingStop) == Next(m, events[i]);
      EmitOne(sent, m, events, i);
      i := i + 1;
    }
    assert events[i..] == [];
  }

  lemma EmitOne(sent: seq<ProviderEvent>, m: Machine, events: seq<BlockEvent>, i: nat)
    requires i < |events| && !Ends(events[i])
    ensures sent + EmitAll(m, events[i..]) == sent + Emit(m, events[i]) + EmitAll(Next(m, events[i]), events[i + 1..])
  {
    assert events[i..][0] == events[i] && events[i..][1..] == events[i + 1..];
  }

  // ---- What a stream of blocks says, without the machine -----------------------------------

  /** Block `s` has started and neither stopped nor been restarted before position n. */
  predicate IsOpen(events: seq<BlockEvent>, s: int, n: int) {
    && 0 <= s < n <= |events| && events[s].ToolBlockStart?
    && forall k :: s < k < n ==> !Touches(events[k], events[s].index)
  }

  predicate Touches(e: BlockEvent, index: nat) {
    (e.ToolBlockStart? || e.BlockStop?) && e.index == index
  }

  /** The argument text block `s` has received before position n. */
  function ArgsOf(events: seq<BlockEvent>, s: nat, n: nat): string
    requires s < n <= |events| && events[s].ToolBlockStart?
    decreases n
  {
    if n == s + 1 then ""
    else ArgsOf(events, s, n - 1) +
         (if events[n - 1].InputJson? && events[n - 1].index == events[s].index then events[n - 1].partial else "")
  }

  /** The block open at index `index` just before position n. */
  function OpenBlock(events: seq<BlockEvent>, n: nat, index: nat): (s: Option<nat>)
    requires n <= |events|
    ensures s.Some? ==> IsOpen(events, s.value, n) && events[s.value].index == index
    ensures s.None? ==> forall t :: IsOpen(events, t, n) ==> events[t].index != index
    decreases n
  {
    if n == 0 then None
    else if events[n - 1].ToolBlockStart? && events[n - 1].index == index then Some(n - 1)
    else if events[n - 1] == BlockStop(index) then
      assert forall t :: IsOpen(events, t, n) && events[t].index == index ==> Touches(events[n - 1], index);
      None
    else
      var s := OpenBlock(events, n - 1, index);
      assert forall t :: IsOpen(events, t, n) && t < n - 1 ==> IsOpen(events, t, n - 1);
      s
  }

  /** The call that event n finishes, if it stops an open block. */
  function CallAt(events: seq<BlockEvent>, n: nat): seq<ToolCall>
    requires n < |events|
  {
    if !events[n].BlockStop? then [] else
    var s := OpenBlock(events, n, events[n].index);
    if s.None? then [] else [ToolCall(events[s.value].id, events[s.value].name, ArgsOf(events, s.value, n))]
  }

  /** The finished calls before position n, in the order in which their blocks stop. */
  function CallsBefore(events: seq<BlockEvent>, n: nat): seq<ToolCall>
    requires n <= |events|
    decreases n
  {
    if n == 0 then [] else CallsBefore(events, n - 1) + CallAt(events, n - 1)
  }

  /** No block restarts an open index, and blocks that are open together have different ids. */
  ghost predicate Bracketed(events: seq<BlockEvent>) {
    && (forall s, n :: IsOpen(events, s, n) && n < |events| && events[n].ToolBlockStart? ==>
          events[n].index != events[s].index && events[n].id != events[s].id)
    && (forall i :: 0 <= i < |events| ==> !Ends(events[i]))
  }

  // ---- The machine after n events -------------------------------------------------------------

  function MachineAt(events: seq<BlockEvent>, n: nat): Machine
    requires n <= |events|
    decreases n
  {
    if n == 0 then Fresh else Next(MachineAt(events, n - 1), events[n - 1])
  }

  function CollectedAt(events: seq<BlockEvent>, n: nat): Collected
    requires n <= |events|
    decreases n
  {
    if n == 0 then Nothing
    else FeedAll(CollectedAt(events, n - 1), Emit(MachineAt(events, n - 1), events[n - 1]))
  }

  lemma {:induction false} CollectedFrom(events: seq<BlockEvent>, n: nat)
    requires n <= |events| && forall i :: 0 <= i < |events| ==> !Ends(events[i])
    ensures FeedAll(CollectedAt(events, n), EmitAll(MachineAt(events, n), events[n..])) == CollectedAt(events, |events|)
    decreases |events| - n
  {
    if n == |events| {
      assert events[n..] == [];
    } else {
      var m, e := MachineAt(events, n), events[n];
      assert events[n..][0] == e && events[n..][1..] == events[n + 1..];
      FeedAppend(CollectedAt(events, n), Emit(m, e), EmitAll(Next(m, e), events[n + 1..]));
      CollectedFrom(events, n + 1);
    }
  }

  type Ids = map<nat, string>
  type Flight = map<string, Building>

  /** The machine's table and the collector's both know open block `s`, and its arguments so far. */
  predicate Tracks(ids: Ids, flight: Flight, events: seq<BlockEvent>, s: int, n: int)
    requires IsOpen(events, s, n)
  {
    var e := events[s];
    && e.index in ids && ids[e.index] == e.id
    && e.id in flight && flight[e.id] == Building(e.name, ArgsOf(events, s, n))
  }

  /** The two tables hold exactly the blocks open before position n. */
  ghost predicate Mirrors(ids: Ids, flight: Flight, events: seq<BlockEvent>, n: int) {
    && (forall s :: IsOpen(events, s, n) ==> Tracks(ids, flight, events, s, n))
    && (forall i :: i in ids ==> HasOpen(events, n, i))
    && (forall id :: id in flight ==> HasOpenId(events, n, id))
  }

  ghost predicate HasOpen(events: seq<BlockEvent>, n: int, index: nat) {
    exists s :: IsOpen(events, s, n) && events[s].index == index
  }

  ghost predicate HasOpenId(events: seq<BlockEvent>, n: int, id: string) {
    exists s :: IsOpen(events, s, n) && events[s].id == id
  }

  /** Two blocks open at once differ in index and in id. */
  lemma OpenBlocksDiffer(events: seq<BlockEvent>, s: int, t: int, n: int)
    requires Bracketed(events) && IsOpen(events, s, n) && IsOpen(events, t, n) && s != t
    ensures events[s].index != events[t].index && events[s].id != events[t].id
  {
    var first, second := if s < t then s else t, if s < t then t else s;
    assert IsOpen(events, first, second);
  }

  /** One more event changes which blocks are open only at its own index. */
  lemma OpenStep(events: seq<BlockEvent>, s: int, n: nat)
    requires n < |events|
    ensures IsOpen(events, s, n + 1) <==>
            (s == n && events[n].ToolBlockStart?) || (IsOpen(events, s, n) && !Touches(events[n], events[s].index))
  {
  }

  lemma StartKeepsMirror(ids: Ids, flight: Flight, events: seq<BlockEvent>, n: nat, k: int)
    requires k == n + 1 <= |events| && Bracketed(events) && Mirrors(ids, flight, events, n) && events[n].ToolBlockStart?
    ensures Mirrors(ids[events[n].index := events[n].id], flight[events[n].id := Building(events[n].name, "")], events, k)
  {
    var e := events[n];
    var ids', flight' := ids[e.index := e.id], flight[e.id := Building(e.name, "")];
    forall s
      ensures IsOpen(events, s, k) <==> s == n || IsOpen(events, s, n)
    {
      OpenStep(events, s, n);
    }
    forall s | IsOpen(events, s, k)
      ensures Tracks(ids', flight', events, s, k)
    {
      if s != n {
        assert Tracks(ids, flight, events, s, n);
      }
    }
    forall i | i in ids'
      ensures HasOpen(events, k, i)
    {
      if i == e.index {
        assert IsOpen(events, n, k);
      } else {
        assert HasOpen(events, n, i);
      }
    }
    forall id | id in flight'
      ensures HasOpenId(events, k, id)
    {
      if id == e.id {
        assert IsOpen(events, n, k);
      } else {
        assert HasOpenId(events, n, id);
      }
    }
  }

  lemma OpenAfterStop(events: seq<BlockEvent>, n: nat, k: int, b: int)
    requires k == n + 1 <= |events| && Bracketed(events)
    requires IsOpen(events, b, n) && events[n] == BlockStop(events[b].index)
    ensures forall s :: IsOpen(events, s, k) <==> IsOpen(events, s, n) && s != b
    ensures forall s :: IsOpen(events, s, n) && s != b ==> events[s].index != events[b].index && events[s].id != events[b].id
  {
    forall s
      ensures IsOpen(events, s, k) <==> IsOpen(events, s, n) && s != b
      ensures IsOpen(events, s, n) && s != b ==> events[s].index != events[b].index && events[s].id != events[b].id
    {
      OpenStep(events, s, n);
      if IsOpen(events, s, n) && s != b {
        OpenBlocksDiffer(events, s, b, n);
      }
    }
  }

  /** The stop of open block `b` removes it from both tables. */
  lemma StopKeepsMirror(ids: Ids, flight: Flight, events: seq<BlockEvent>, n: nat, k: int, b: int)
    requires k == n + 1 <= |events| && Bracketed(events) && Mirrors(ids, flight, events, n)
    requires IsOpen(events, b, n) && events[n] == BlockStop(events[b].index)
    ensures Mirrors(ids - {events[b].index}, flight - {events[b].id}, events, k)
  {
    var ids', flight' := ids - {events[b].index}, flight - {events[b].id};
    OpenAfterStop(events, n, k, b);
    forall s | IsOpen(events, s, k)
      ensures Tracks(ids', flight', events, s, k)
    {
      assert Tracks(ids, flight, events, s, n);
      ArgsStep(events, s, n, k);
    }
    forall i | i in ids'
      ensures HasOpen(events, k, i)
    {
      assert HasOpen(events, n, i);
    }
    forall id | id in flight'
      ensures HasOpenId(events, k, id)
    {
      assert HasOpenId(events, n, id);
    }
  }

  lemma SameOpen(events: seq<BlockEvent>, n: nat, k: int)
    requires k == n + 1 <= |events| && !events[n].ToolBlockStart? && !(events[n].BlockStop? && HasOpen(events, n, events[n].index))
    ensures forall s :: IsOpen(events, s, k) <==> IsOpen(events, s, n)
    ensures forall i :: HasOpen(events, n, i) ==> HasOpen(events, k, i)
    ensures forall id :: HasOpenId(events, n, id) ==> HasOpenId(events, k, id)
  {
    forall s
      ensures IsOpen(events, s, k) <==> IsOpen(events, s, n)
    {
      OpenStep(events, s, n);
    }
  }

  /** `flight'` is `flight` with the fragment of event n appended to block `b`. */
  ghost predicate Appends(flight: Flight, flight': Flight, events: seq<BlockEvent>, n: nat, b: int) {
    && IsOpen(events, b, n) && n < |events| && events[n].InputJson? && events[n].index == events[b].index
    && flight' == flight[events[b].id := Building(events[b].name, ArgsOf(events, b, n) + events[n].partial)]
  }

  lemma FragmentTracks(ids: Ids, flight: Flight, flight': Flight, events: seq<BlockEvent>, n: nat, k: int, b: int, s: int)
    requires k == n + 1 && Bracketed(events) && Appends(flight, flight', events, n, b)
    requires IsOpen(events, s, n) && IsOpen(events, s, k) && Tracks(ids, flight, events, s, n)
    ensures Tracks(ids, flight', events, s, k)
  {
    ArgsStep(events, s, n, k);
    if s != b {
      OpenBlocksDiffer(events, s, b, n);
      assert ArgsOf(events, s, k) == ArgsOf(events, s, n);
    }
  }

  /** An input fragment goes to open block `b` and to no other. */
  lemma InputKeepsMirror(ids: Ids, flight: Flight, flight': Flight, events: seq<BlockEvent>, n: nat, k: int, b: int)
    requires k == n + 1 && Bracketed(events) && Mirrors(ids, flight, events, n) && Appends(flight, flight', events, n, b)
    ensures Mirrors(ids, flight', events, k)
  {
    SameOpen(events, n, k);
    forall s | IsOpen(events, s, k)
      ensures Tracks(ids, flight', events, s, k)
    {
      FragmentTracks(ids, flight, flight', events, n, k, b, s);
    }
    assert HasOpenId(events, n, events[b].id);
  }

  lemma ArgsStep(events: seq<BlockEvent>, s: int, n: nat, k: int)
    requires IsOpen(events, s, n) && k == n + 1 <= |events|
    ensures ArgsOf(events, s, k) == ArgsOf(events, s, n) +
            (if events[n].InputJson? && events[n].index == events[s].index then events[n].partial else "")
  {
  }

  predicate IsQuiet(ids: Ids, e: BlockEvent) {
    (e.BlockStop? || e.InputJson? ==> e.index !in ids) && !e.ToolBlockStart? && !Ends(e)
  }

  /** Any event about no tracked block leaves the tables right. */
  lemma OtherKeepsMirror(ids: Ids, flight: Flight, events: seq<BlockEvent>, n: nat, k: int)
    requires k == n + 1 <= |events| && Mirrors(ids, flight, events, n) && IsQuiet(ids, events[n])
    ensures Mirrors(ids, flight, events, k)
    ensures events[n].BlockStop? ==> !HasOpen(events, n, events[n].index)
  {
    var e := events[n];
    forall s | IsOpen(events, s, n)
      ensures e.BlockStop? || e.InputJson? ==> events[s].index != e.index
    {
      assert Tracks(ids, flight, events, s, n);
    }
    SameOpen(events, n, k);
    forall s | IsOpen(events, s, k)
      ensures Tracks(ids, flight, events, s, k)
    {
      assert Tracks(ids, flight, events, s, n);
      ArgsStep(events, s, n, k);
    }
  }

  /** One event through the machine and the collector. */
  ghost predicate Advances(events: seq<BlockEvent>, k: nat, n: int, m: Machine, c: Collected)
    requires k < |events|
  {
    var c' := FeedAll(c, Emit(m, events[k]));
    && Mirrors(Next(m, events[k]).toolIds, c'.inFlight, events, n)
    && !c'.stopped && c'.error == c.error && c'.calls == c.calls + CallAt(events, k)
  }

  lemma StartAdvances(events: seq<BlockEvent>, k: nat, n: int, m: Machine, c: Collected)
    requires n == k + 1 <= |events| && Bracketed(events) && Mirrors(m.toolIds, c.inFlight, events, k) && !c.stopped
    requires events[k].ToolBlockStart?
    ensures Advances(events, k, n, m, c)
  {
    FeedOne(c, ToolCallStart(events[k].id, events[k].name));
    StartKeepsMirror(m.toolIds, c.inFlight, events, k, n);
  }

  lemma StopEffect(m: Machine, c: Collected, index: nat, id: string, call: Building)
    requires index in m.toolIds && m.toolIds[index] == id && id in c.inFlight && c.inFlight[id] == call && !c.stopped
    ensures Next(m, BlockStop(index)).toolIds == m.toolIds - {index}
    ensures FeedAll(c, Emit(m, BlockStop(index))) ==
            c.(calls := c.calls + [ToolCall(id, call.name, call.rawArgs)], inFlight := c.inFlight - {id})
  {
    FeedOne(c, ToolCallEnd(id));
  }

  lemma InputEffect(m: Machine, c: Collected, index: nat, partial: string, id: string, call: Building)
    requires index in m.toolIds && m.toolIds[index] == id && id in c.inFlight && c.inFlight[id] == call && !c.stopped
    ensures Next(m, InputJson(index, partial)) == m
    ensures FeedAll(c, Emit(m, InputJson(index, partial))) ==
            c.(inFlight := c.inFlight[id := Building(call.name, call.rawArgs + partial)])
  {
    FeedOne(c, ToolCallArgs(id, partial));
  }

  lemma StopAdvances(events: seq<BlockEvent>, k: nat, n: int, m: Machine, c: Collected)
    requires n == k + 1 <= |events| && Bracketed(events) && Mirrors(m.toolIds, c.inFlight, events, k) && !c.stopped
    requires events[k].BlockStop? && OpenBlock(events, k, events[k].index).Some?
    ensures Advances(events, k, n, m, c)
  {
    var b := OpenBlock(events, k, events[k].index).value;
    var id, name, args := events[b].id, events[b].name, ArgsOf(events, b, k);
    assert Tracks(m.toolIds, c.inFlight, events, b, k);
    StopKeepsMirror(m.toolIds, c.inFlight, events, k, n, b);
    StopEffect(m, c, events[k].index, id, Building(name, args));
    assert CallAt(events, k) == [ToolCall(id, name, args)];
  }

  lemma InputAdvances(events: seq<BlockEvent>, k: nat, n: int, m: Machine, c: Collected, b: int)
    requires n == k + 1 <= |events| && Bracketed(events) && Mirrors(m.toolIds, c.inFlight, events, k) && !c.stopped
    requires events[k].InputJson? && IsOpen(events, b, k) && events[k].index == events[b].index
    ensures Advances(events, k, n, m, c)
  {
    var call := Building(events[b].name, ArgsOf(events, b, k));
    var flight' := c.inFlight[events[b].id := Building(call.name, call.rawArgs + events[k].partial)];
    assert Tracks(m.toolIds, c.inFlight, events, b, k);
    InputKeepsMirror(m.toolIds, c.inFlight, flight', events, k, n, b);
    InputEffect(m, c, events[k].index, events[k].partial, events[b].id, call);
  }

  lemma EventAdvances(events: seq<BlockEvent>, k: nat, n: int, m: Machine, c: Collected)
    requires n == k + 1 <= |events| && Bracketed(events) && Mirrors(m.toolIds, c.inFlight, events, k) && !c.stopped
    ensures Advances(events, k, n, m, c)
  {
    var e := events[k];
    if e.ToolBlockStart? {
      StartAdvances(events, k, n, m, c);
    } else if IsQuiet(m.toolIds, e) {
      OtherKeepsMirror(m.toolIds, c.inFlight, events, k, n);
      QuietEvent(m, c, e);
    } else {
      assert HasOpen(events, k, e.index);
      if e.BlockStop? {
        StopAdvances(events, k, n, m, c);
      } else {
        InputAdvances(events, k, n, m, c, OpenBlock(events, k, e.index).value);
      }
    }
  }

  /** One event further along the stream. */
  lemma MirrorsNext(events: seq<BlockEvent>, k: nat, n: nat, m: Machine, c: Collected, m': Machine, c': Collected)
    requires n == k + 1 <= |events| && Bracketed(events) && Mirrors(m.toolIds, c.inFlight, events, k)
    requires !c.stopped && c.error == None && c.calls == CallsBefore(events, k)
    requires m' == Next(m, events[k]) && c' == FeedAll(c, Emit(m, events[k]))
    ensures Mirrors(m'.toolIds, c'.inFlight, events, n) && !c'.stopped && c'.error == None && c'.calls == CallsBefore(events, n)
  {
    EventAdvances(events, k, n, m, c);
  }

  lemma {:induction false} MirrorsAlways(events: seq<BlockEvent>, n: nat)
    requires n <= |events| && Bracketed(events)
    ensures Mirrors(MachineAt(events, n).toolIds, CollectedAt(events, n).inFlight, events, n)
    ensures !CollectedAt(events, n).stopped && CollectedAt(events, n).error == None
    ensures CollectedAt(events, n).calls == CallsBefore(events, n)
  {
    if n > 0 {
      MirrorsAlways(events, n - 1);
      MirrorsNext(events, n - 1, n, MachineAt(events, n - 1), CollectedAt(events, n - 1), MachineAt(events, n), CollectedAt(events, n));
    }
  }

  lemma QuietEvent(m: Machine, c: Collected, e: BlockEvent)
    requires IsQuiet(m.toolIds, e) && !c.stopped
    ensures Next(m, e).toolIds == m.toolIds
    ensures var c' := FeedAll(c, Emit(m, e));
            c'.calls == c.calls && c'.inFlight == c.inFlight && !c'.stopped && c'.error == c.error
  {
    if Emit(m, e) != [] {
      assert Emit(m, e) == [Emit(m, e)[0]];
      FeedOne(c, Emit(m, e)[0]);
    }
  }

  /**
   * However the blocks interleave, the collector returns each call when its block stops, in that
   * order, with its own argument fragments and nobody else's.
   */
  lemma InterleavedBlocksRoundTrip(events: seq<BlockEvent>, rest: seq<BlockEvent>)
    requires Bracketed(events)
    ensures var c := FeedAll(Nothing, EmitAll(Fresh, events + [MessageStop] + rest));
            c.calls == CallsBefore(events, |events|) && c.error == None && c.stopped
    ensures FeedAll(Nothing, EmitAll(Fresh, events)).calls == CallsBefore(events, |events|)
  {
    MirrorsAlways(events, |events|);
    CollectedWhole(events);
    StoppedStream(events, rest);
  }

  lemma CollectedWhole(events: seq<BlockEvent>)
    requires Bracketed(events)
    ensures FeedAll(Nothing, EmitAll(Fresh, events)) == CollectedAt(events, |events|)
  {
    assert events[0..] == events;
    CollectedFrom(events, 0);
  }

  /** Ending the stream with a stop adds one Done event and nothing else. */
  lemma StoppedStream(events: seq<BlockEvent>, rest: seq<BlockEvent>)
    requires Bracketed(events)
    ensures var c, c' := FeedAll(Nothing, EmitAll(Fresh, events)), FeedAll(Nothing, EmitAll(Fresh, events + [MessageStop] + rest));
            !c.stopped ==> c' == c.(stopped := true)
  {
    var m, all := MachineAt(events, |events|), events + [MessageStop] + rest;
    EmitThenStop(events, rest, 0);
    assert events[0..] == events && all[0..] == all;
    var stop := if m.pendingStop.Some? then m.pendingStop.value else EndTurn;
    FeedSnoc(Nothing, EmitAll(Fresh, events), Done(stop));
  }

  lemma {:induction false} EmitThenStop(events: seq<BlockEvent>, rest: seq<BlockEvent>, n: nat)
    requires n <= |events| && forall i :: 0 <= i < |events| ==> !Ends(events[i])
    ensures EmitAll(MachineAt(events, n), (events + [MessageStop] + rest)[n..]) ==
            EmitAll(MachineAt(events, n), events[n..]) + Emit(MachineAt(events, |events|), MessageStop)
    decreases |events| - n
  {
    var all := events + [MessageStop] + rest;
    if n == |events| {
      assert all[n..][0] == MessageStop && events[n..] == [];
    } else {
      assert all[n..][0] == events[n] && all[n..][1..] == all[n + 1..];
      assert events[n..][0] == events[n] && events[n..][1..] == events[n + 1..];
      EmitThenStop(events, rest, n + 1);
      Regroup(Emit(MachineAt(events, n), events[n]), EmitAll(MachineAt(events, n + 1), events[n + 1..]),
              Emit(MachineAt(events, |events|), MessageStop));
    }
  }

  // ---- Prose and the end of a stream ----------------------------------------------------------------

  /** The text of the parts before the stream ends. */
  function TextIn(events: seq<BlockEvent>): string
    decreases |events|
  {
    if events == [] || Ends(events[0]) then "" else
    (if events[0].TextPart? then events[0].text else "") + TextIn(events[1..])
  }

  function ThinkingIn(events: seq<BlockEvent>): string
    decreases |events|
  {
    if events == [] || Ends(events[0]) then "" else
    (if events[0].ThinkingPart? then events[0].text else "") + ThinkingIn(events[1..])
  }

  /** The event that ends the stream, if one does. */
  function EndIn(events: seq<BlockEvent>): Option<BlockEvent>
    decreases |events|
  {
    if events == [] then None else if Ends(events[0]) then Some(events[0]) else EndIn(events[1..])
  }

  function ErrorOf(end: Option<BlockEvent>): Option<string> {
    match end
    case Some(ApiError(message)) => Some(message)
    case Some(StreamError(message)) => Some(message)
    case _ => None
  }

  /** What one event that does not end the stream adds to the prose. */
  lemma EventProse(m: Machine, c: Collected, e: BlockEvent)
    requires !c.stopped && !Ends(e)
    ensures var c' := FeedAll(c, Emit(m, e));
            && c'.text == c.text + (if e.TextPart? then e.text else "")
            && c'.thinking == c.thinking + (if e.ThinkingPart? then e.text else "")
            && c'.error == c.error && !c'.stopped
  {
    assert c.text + "" == c.text && c.thinking + "" == c.thinking;
    if Emit(m, e) != [] {
      assert Emit(m, e) == [Emit(m, e)[0]];
      FeedOne(c, Emit(m, e)[0]);
    }
  }

  lemma EndProse(m: Machine, c: Collected, e: BlockEvent)
    requires !c.stopped && c.error == None && Ends(e)
    ensures var c' := FeedAll(c, Emit(m, e));
            c'.text == c.text && c'.thinking == c.thinking && c'.error == ErrorOf(Some(e)) && c'.stopped
  {
    assert Emit(m, e) == [Emit(m, e)[0]];
    FeedOne(c, Emit(m, e)[0]);
  }

  lemma {:induction false} ProseFrom(m: Machine, c: Collected, events: seq<BlockEvent>)
    requires !c.stopped && c.error == None
    ensures var c' := FeedAll(c, EmitAll(m, events));
            && c'.text == c.text + TextIn(events) && c'.thinking == c.thinking + ThinkingIn(events)
            && c'.error == ErrorOf(EndIn(events)) && (c'.stopped <==> EndIn(events).Some?)
    decreases |events|
  {
    assert c.text + "" == c.text && c.thinking + "" == c.thinking;
    if events != [] {
      var e, rest := events[0], events[1..];
      if Ends(e) {
        EndProse(m, c, e);
      } else {
        var c1 := FeedAll(c, Emit(m, e));
        EventProse(m, c, e);
        FeedAppend(c, Emit(m, e), EmitAll(Next(m, e), rest));
        ProseFrom(Next(m, e), c1, rest);
        Regroup(c.text, if e.TextPart? then e.text else "", TextIn(rest));
        Regroup(c.thinking, if e.ThinkingPart? then e.text else "", ThinkingIn(rest));
      }
    }
  }

  /**
   * Whatever the tool blocks do: the text collected is that of the text parts up to the end of the
   * stream, the thinking that of the thinking parts, and the error that of the event that ends it.
   */
  lemma ProseIsCollected(events: seq<BlockEvent>)
    ensures var c := FeedAll(Nothing, EmitAll(Fresh, events));
            && c.text == TextIn(events) && c.thinking == ThinkingIn(events)
            && c.error == ErrorOf(EndIn(events)) && (c.stopped <==> EndIn(events).Some?)
  {
    ProseFrom(Fresh, Nothing, events);
    assert "" + TextIn(events) == TextIn(events) && "" + ThinkingIn(events) == ThinkingIn(events);
  }

  /** The last reason the message gave before it stopped. */
  function ReasonIn(events: seq<BlockEvent>, sofar: Option<StopReason>): StopReason
    decreases |events|
  {
    if events == [] || Ends(events[0]) then (if sofar.Some? then sofar.value else EndTurn)
    else ReasonIn(events[1..], if events[0].MessageDelta? && events[0].stopReason.Some? then events[0].stopReason else sofar)
  }

  /** A message that stops ends its events with the last reason it gave, or the end of a turn. */
  lemma {:induction false} StopTellsReason(m: Machine, events: seq<BlockEvent>)
    requires EndIn(events) == Some(MessageStop)
    ensures var out := EmitAll(m, events);
            out != [] && out[|out| - 1] == Done(ReasonIn(events, m.pendingStop))
    decreases |events|
  {
    if !Ends(events[0]) {
      StopTellsReason(Next(m, events[0]), events[1..]);
    }
  }

  /** An error ends the events with itself: one the provider reports, or one of the stream. */
  lemma {:induction false} ErrorsAreTold(m: Machine, events: seq<BlockEvent>)
    requires EndIn(events).Some? && !EndIn(events).value.MessageStop?
    ensures var end, out := EndIn(events).value, EmitAll(m, events);
            && out != []
            && (end.ApiError? ==> out[|out| - 1] == Error(end.message))
            && (end.StreamError? ==> out[|out| - 1] == Broken(end.message))
    decreases |events|
  {
    if !Ends(events[0]) {
      ErrorsAreTold(Next(m, events[0]), events[1..]);
    }
  }

  /** Nothing is sent that says nothing. */
  lemma {:induction false} NothingEmptyIsSent(m: Machine, events: seq<BlockEvent>)
    ensures TextDelta("") !in EmitAll(m, events) && ThinkingDelta("") !in EmitAll(m, events)
    decreases |events|
  {
    if events != [] && !Ends(events[0]) {
      NothingEmptyIsSent(Next(m, events[0]), events[1..]);
    }
  }
}
