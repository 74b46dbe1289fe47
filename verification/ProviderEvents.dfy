/** The provider-neutral event stream and the loop that collects it. */
module ProviderEvents {
  import opened Wrappers

  datatype StopReason = EndTurn | ToolUse | MaxTokens

  /** `Broken` stands for an error of the stream itself, `Error` for one the provider reports. */
  datatype ProviderEvent =
    | TextDelta(text: string)
    | ThinkingDelta(text: string)
    | ToolCallStart(id: string, name: string)
    | ToolCallArgs(id: string, args: string)
    | ToolCallEnd(id: string)
    | Usage
    | Done(stopReason: StopReason)
    | Error(message: string)
    | Broken(message: string)

  /** `rawArgs` is the argument text as it is handed to the JSON parser. */
  datatype ToolCall = ToolCall(id: string, name: string, rawArgs: string)

  datatype Building = Building(name: string, rawArgs: string)

  datatype Collected = Collected(
    text: string,
    thinking: string,
    calls: seq<ToolCall>,
    inFlight: map<string, Building>,
    error: Option<string>,
    stopped: bool)

  const Nothing := Collected("", "", [], map[], None, false)

  function Feed(c: Collected, e: ProviderEvent): Collected {
    if c.stopped then c else
    match e
    case TextDelta(text) => c.(text := c.text + text)
    case ThinkingDelta(text) => c.(thinking := c.thinking + text)
    case ToolCallStart(id, name) => c.(inFlight := c.inFlight[id := Building(name, "")])
    case ToolCallArgs(id, args) =>
      if id in c.inFlight
      then c.(inFlight := c.inFlight[id := c.inFlight[id].(rawArgs := c.inFlight[id].rawArgs + args)])
      else c
    case ToolCallEnd(id) =>
      if id in c.inFlight
      then c.(calls := c.calls + [ToolCall(id, c.inFlight[id].name, c.inFlight[id].rawArgs)],
              inFlight := c.inFlight - {id})
      else c
    case Usage => c
    case Done(_) => c.(stopped := true)
    case Error(message) => c.(error := Some(message), stopped := true)
    case Broken(message) => c.(error := Some(message), stopped := true)
  }

  function FeedAll(c: Collected, events: seq<ProviderEvent>): Collected
    decreases |events|
  {
    if events == [] then c else FeedAll(Feed(c, events[0]), events[1..])
  }

  lemma {:induction false} FeedAppend(c: Collected, a: seq<ProviderEvent>, b: seq<ProviderEvent>)
    ensures FeedAll(c, a + b) == FeedAll(FeedAll(c, a), b)
    decreases |a|
  {
    if a == [] {
      assert a + b == b;
    } else {
      assert (a + b)[1..] == a[1..] + b;
      FeedAppend(Feed(c, a[0]), a[1..], b);
    }
  }

  lemma FeedOne(c: Collected, e: ProviderEvent)
    ensures FeedAll(c, [e]) == Feed(c, e)
  {
    assert [e][1..] == [];
    assert FeedAll(Feed(c, e), []) == Feed(c, e);
  }

  lemma FeedSnoc(c: Collected, a: seq<ProviderEvent>, e: ProviderEvent)
    ensures FeedAll(c, a + [e]) == Feed(FeedAll(c, a), e)
  {
    FeedAppend(c, a, [e]);
    FeedOne(FeedAll(c, a), e);
  }

  /** Nothing that comes after the end of a stream changes what was collected. */
  lemma {:induction false} FeedStopped(c: Collected, events: seq<ProviderEvent>)
    requires c.stopped
    ensures FeedAll(c, events) == c
    decreases |events|
  {
    if events != [] {
      FeedStopped(c, events[1..]);
    }
  }

  method CollectStream(events: seq<ProviderEvent>)
    returns (text: string, thinking: string, calls: seq<ToolCall>, error: Option<string>)
    ensures var c := FeedAll(Nothing, events);
            text == c.text && thinking == c.thinking && calls == c.calls && error == c.error
  {
    text, thinking, calls, error := "", "", [], None;
    var inFlight: map<string, Building> := map[];
    var i := 0;
    while i < |events|
      invariant 0 <= i <= |events|
      invariant FeedAll(Nothing, events) == FeedAll(Collected(text, thinking, calls, inFlight, error, false), events[i..])
      invariant error == None
    {
      assert events[i..][1..] == events[i + 1..];
      ghost var next := Feed(Collected(text, thinking, calls, inFlight, error, false), events[i]);
      match events[i] {
        case TextDelta(delta) => text := text + delta;
        case ThinkingDelta(delta) => thinking := thinking + delta;
        case ToolCallStart(id, name) => inFlight := inFlight[id := Building(name, "")];
        case ToolCallArgs(id, args) =>
          if id in inFlight {
            inFlight := inFlight[id := Building(inFlight[id].name, inFlight[id].rawArgs + args)];
          }
        case ToolCallEnd(id) =>
          if id in inFlight {
            calls := calls + [ToolCall(id, inFlight[id].name, inFlight[id].rawArgs)];
            inFlight := inFlight - {id};
          }
        case Usage =>
        case Done(_) =>
          FeedStopped(next, events[i + 1..]);
          return;
        case Error(message) =>
          error := Some(message);
          FeedStopped(next, events[i + 1..]);
          return;
        case Broken(message) =>
          error := Some(message);
          FeedStopped(next, events[i + 1..]);
          return;
      }
      i := i + 1;
    }
  }
}
