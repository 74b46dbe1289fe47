/** What a whole OpenAI stream says and how it ends, whatever its tool deltas do. */
module OpenAiStreams {
  import opened Wrappers
  import opened Text
  import opened ProviderEvents
  import opened OpenAi

  /** The chunk ends the stream: the marker, an error, or a choice with a reason other than the text null. */
  predicate Ending(ch: Chunk) {
    ch.DoneMarker? || ch.ApiError? || ch.StreamError? || (ch.Choice? && ch.finish.Some? && ch.finish.value != "null")
  }

  /** The chunk that ends the stream, if one does. */
  function EndIn(chunks: seq<Chunk>): Option<Chunk> {
    if chunks == [] then None else if Ending(chunks[0]) then Some(chunks[0]) else EndIn(chunks[1..])
  }

  /** The content of the stream up to its end. */
  function Said(chunks: seq<Chunk>): string {
    if chunks == [] then "" else
    var first := if chunks[0].Choice? && chunks[0].content.Some? then chunks[0].content.value else "";
    if Ending(chunks[0]) then first else first + Said(chunks[1..])
  }

  /** Its reasoning up to its end. */
  function Thought(chunks: seq<Chunk>): string {
    if chunks == [] then "" else
    var first := if chunks[0].Choice? && chunks[0].reasoning.Some? then chunks[0].reasoning.value else "";
    if Ending(chunks[0]) then first else first + Thought(chunks[1..])
  }

  /** What a stream that ends so sends last. */
  function Farewell(end: Option<Chunk>): ProviderEvent
    requires end.Some? ==> Ending(end.value)
  {
    match end
    case None => Done(EndTurn)
    case Some(DoneMarker) => Done(EndTurn)
    case Some(ApiError(message)) => Error(message)
    case Some(StreamError(message)) => Broken(message)
    case Some(Choice(_, _, _, finish)) =>
      Done(if finish.value == "tool_calls" then ToolUse else if finish.value == "length" then MaxTokens else EndTurn)
  }

  lemma {:induction false} EndsEnd(chunks: seq<Chunk>)
    ensures EndIn(chunks).Some? ==> Ending(EndIn(chunks).value)
  {
    if chunks != [] && !Ending(chunks[0]) {
      EndsEnd(chunks[1..]);
    }
  }

  /** Every stream sends one closing event, and nothing behind it: the reason it finished with, or its error. */
  lemma {:induction false} StreamEnds(m: Machine, chunks: seq<Chunk>)
    ensures EndIn(chunks).Some? ==> Ending(EndIn(chunks).value)
    ensures var out := Stream(m, chunks);
            out != [] && out[|out| - 1] == Farewell(EndIn(chunks))
    decreases |chunks|
  {
    EndsEnd(chunks);
    if chunks != [] && !Ending(chunks[0]) {
      StreamEnds(if chunks[0].Choice? then NextAll(m, chunks[0].toolCalls) else m, chunks[1..]);
    }
  }

  predicate NoneEmpty(events: seq<ProviderEvent>) {
    TextDelta("") !in events && ThinkingDelta("") !in events
  }

  lemma FinishIsNotEmpty(m: Machine, reason: StopReason)
    ensures NoneEmpty(Finish(m, reason))
  {
    ClosesOnlyTools(m.indexToId, m.open);
  }

  lemma ChoiceIsNotEmpty(m: Machine, ch: Chunk)
    requires ch.Choice?
    ensures NoneEmpty(Prose(ch) + EmitAll(m, ch.toolCalls))
  {
    EmitsOnlyTools(m, ch.toolCalls);
  }

  lemma BothNotEmpty(a: seq<ProviderEvent>, b: seq<ProviderEvent>)
    requires NoneEmpty(a) && NoneEmpty(b)
    ensures NoneEmpty(a + b)
  {
  }

  /** Nothing is sent that says nothing. */
  lemma {:induction false} NothingEmptyIsSent(m: Machine, chunks: seq<Chunk>)
    ensures NoneEmpty(Stream(m, chunks))
    decreases |chunks|
  {
    if chunks == [] || chunks[0].DoneMarker? {
      FinishIsNotEmpty(m, EndTurn);
    } else if chunks[0].Choice? {
      var ch, next := chunks[0], NextAll(m, chunks[0].toolCalls);
      ChoiceIsNotEmpty(m, ch);
      if Finishes(ch) {
        FinishIsNotEmpty(next, MapFinishReason(ch.finish.value));
        BothNotEmpty(Prose(ch) + EmitAll(m, ch.toolCalls), Finish(next, MapFinishReason(ch.finish.value)));
      } else {
        NothingEmptyIsSent(next, chunks[1..]);
        BothNotEmpty(Prose(ch) + EmitAll(m, ch.toolCalls), Stream(next, chunks[1..]));
      }
    } else if !chunks[0].ApiError? && !chunks[0].StreamError? {
      NothingEmptyIsSent(m, chunks[1..]);
    }
  }

  function ErrorOf(end: Option<Chunk>): Option<string> {
    match end
    case Some(ApiError(message)) => Some(message)
    case Some(StreamError(message)) => Some(message)
    case _ => None
  }

  /** What the collector holds beside its calls. */
  predicate Heard(c: Collected, text: string, thinking: string, error: Option<string>, stopped: bool) {
    c.text == text && c.thinking == thinking && c.error == error && c.stopped == stopped
  }

  lemma ToolsLeaveProse(c: Collected, events: seq<ProviderEvent>)
    requires AllTools(events)
    ensures Heard(FeedAll(c, events), c.text, c.thinking, c.error, c.stopped)
  {
    ToolsIgnoreProse(c, c.text, c.thinking, events);
  }

  lemma FinishLeavesProse(m: Machine, c: Collected, reason: StopReason)
    requires !c.stopped
    ensures Heard(FeedAll(c, Finish(m, reason)), c.text, c.thinking, c.error, true)
  {
    ClosesOnlyTools(m.indexToId, m.open);
    ToolsLeaveProse(c, CloseAll(m.indexToId, m.open));
    CloseAndDone(c, m, reason);
  }

  lemma ChoiceSays(m: Machine, c: Collected, ch: Chunk) returns (c1: Collected)
    requires ch.Choice? && !c.stopped
    ensures c1 == FeedAll(c, Prose(ch) + EmitAll(m, ch.toolCalls))
    ensures Heard(c1, c.text + (if ch.content.Some? then ch.content.value else ""),
                  c.thinking + (if ch.reasoning.Some? then ch.reasoning.value else ""), c.error, false)
  {
    c1 := FeedAll(c, Prose(ch) + EmitAll(m, ch.toolCalls));
    FeedAppend(c, Prose(ch), EmitAll(m, ch.toolCalls));
    ProseOnly(c, ch);
    EmitsOnlyTools(m, ch.toolCalls);
    ToolsLeaveProse(FeedAll(c, Prose(ch)), EmitAll(m, ch.toolCalls));
  }

  lemma LastChunk(m: Machine, c: Collected, chunks: seq<Chunk>)
    requires chunks != [] && Ending(chunks[0]) && !c.stopped && c.error.None?
    ensures Heard(FeedAll(c, Stream(m, chunks)), c.text + Said(chunks), c.thinking + Thought(chunks), ErrorOf(EndIn(chunks)), true)
  {
    var ch := chunks[0];
    assert c.text + "" == c.text && c.thinking + "" == c.thinking;
    match ch {
      case DoneMarker => FinishLeavesProse(m, c, EndTurn);
      case ApiError(message) => FeedOne(c, Error(message));
      case StreamError(message) => FeedOne(c, Broken(message));
      case Choice(_, _, ds, finish) =>
        var c1 := ChoiceSays(m, c, ch);
        var reason := MapFinishReason(finish.value);
        FeedAppend(c, Prose(ch) + EmitAll(m, ds), Finish(NextAll(m, ds), reason));
        FinishLeavesProse(NextAll(m, ds), c1, reason);
    }
  }

  lemma NextChunk(m: Machine, c: Collected, chunks: seq<Chunk>) returns (m1: Machine, c1: Collected)
    requires chunks != [] && !Ending(chunks[0]) && !c.stopped
    ensures FeedAll(c, Stream(m, chunks)) == FeedAll(c1, Stream(m1, chunks[1..]))
    ensures !c1.stopped && c1.error == c.error && EndIn(chunks) == EndIn(chunks[1..])
    ensures c1.text + Said(chunks[1..]) == c.text + Said(chunks)
    ensures c1.thinking + Thought(chunks[1..]) == c.thinking + Thought(chunks)
  {
    var ch, rest := chunks[0], chunks[1..];
    if ch.Choice? {
      m1 := NextAll(m, ch.toolCalls);
      c1 := ChoiceSays(m, c, ch);
      FeedAppend(c, Prose(ch) + EmitAll(m, ch.toolCalls), Stream(m1, rest));
      Regroup(c.text, if ch.content.Some? then ch.content.value else "", Said(rest));
      Regroup(c.thinking, if ch.reasoning.Some? then ch.reasoning.value else "", Thought(rest));
    } else {
      m1, c1 := m, c;
      assert "" + Said(rest) == Said(rest) && "" + Thought(rest) == Thought(rest);
    }
  }

  lemma {:induction false} ProseFrom(m: Machine, c: Collected, chunks: seq<Chunk>)
    requires !c.stopped && c.error.None?
    ensures Heard(FeedAll(c, Stream(m, chunks)), c.text + Said(chunks), c.thinking + Thought(chunks), ErrorOf(EndIn(chunks)), true)
    decreases |chunks|
  {
    if chunks == [] {
      FinishLeavesProse(m, c, EndTurn);
      assert c.text + "" == c.text && c.thinking + "" == c.thinking;
    } else if Ending(chunks[0]) {
      LastChunk(m, c, chunks);
    } else {
      var m1, c1 := NextChunk(m, c, chunks);
      ProseFrom(m1, c1, chunks[1..]);
    }
  }

  /**
   * For every list of chunks, the text collected is the content up to the end of the stream and the
   * thinking its reasoning, and there is an error exactly when an error ended it.
   */
  lemma ProseIsCollected(chunks: seq<Chunk>)
    ensures var c := FeedAll(Nothing, Stream(Fresh, chunks));
            c.text == Said(chunks) && c.thinking == Thought(chunks) && c.error == ErrorOf(EndIn(chunks)) && c.stopped
  {
    ProseFrom(Fresh, Nothing, chunks);
    assert "" + Said(chunks) == Said(chunks) && "" + Thought(chunks) == Thought(chunks);
  }

  // ---- Fragments without a header ----------------------------------------------------------------

  /**
   * A fragment for an index that has seen no header goes out under an id made from the index. It is
   * lost in the collector, unless a call in flight happens to bear that very id.
   */
  lemma OrphanFragment(m: Machine, c: Collected, index: nat, name: Option<string>, args: string)
    requires index !in m.indexToId && !Leaves(m, index) && args != "" && !c.stopped
    ensures var orphan := "call_idx_" + Decimal(index);
            var c' := FeedAll(c, Emit(m, ToolDelta(index, None, name, Some(args))));
            && Next(m, ToolDelta(index, None, name, Some(args))) == m
            && (orphan !in c.inFlight ==> c' == c)
            && (orphan in c.inFlight ==>
                  c' == c.(inFlight := c.inFlight[orphan := Building(c.inFlight[orphan].name, c.inFlight[orphan].rawArgs + args)]))
  {
    var d := ToolDelta(index, None, name, Some(args));
    var orphan := "call_idx_" + Decimal(index);
    assert Emit(m, d) == [ToolCallArgs(orphan, args)];
    FeedOne(c, ToolCallArgs(orphan, args));
  }

  // ---- Closing what is open ------------------------------------------------------------------------

  lemma {:induction false} WithoutAround(front: seq<nat>, index: nat, behind: seq<nat>)
    requires index !in front && index !in behind
    ensures Without(front + [index] + behind, index) == front + behind
    decreases |front|
  {
    var open := front + [index] + behind;
    if front == [] {
      assert open[1..] == behind && open[0] == index;
      WithoutOther(behind, index);
      assert [] + behind == behind;
    } else {
      assert open[0] == front[0] && open[1..] == front[1..] + [index] + behind;
      WithoutAround(front[1..], index, behind);
      assert [front[0]] + (front[1..] + behind) == front + behind;
    }
  }

  lemma {:induction false} WithoutOther(open: seq<nat>, index: nat)
    requires index !in open
    ensures Without(open, index) == open
    decreases |open|
  {
    if open != [] {
      WithoutOther(open[1..], index);
      assert [open[0]] + open[1..] == open;
    }
  }

  /** When a stream finishes, every call still open is ended, in the order they were opened. */
  lemma {:induction false} AllAreEnded(indexToId: map<nat, string>, open: seq<nat>)
    requires forall i :: 0 <= i < |open| ==> open[i] in indexToId
    ensures |CloseAll(indexToId, open)| == |open|
    ensures forall i :: 0 <= i < |open| ==> CloseAll(indexToId, open)[i] == ToolCallEnd(indexToId[open[i]])
    decreases |open|
  {
    if open != [] {
      assert forall i :: 0 < i < |open| ==> open[i] == open[1..][i - 1];
      AllAreEnded(indexToId, open[1..]);
    }
  }
}
