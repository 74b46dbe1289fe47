/** The run loop of a parent, performed one atomic step at a time inside the sub-task protocol. */
module ParentLoop {
  import opened Wrappers
  import opened TaskRegistry
  import opened SubtaskProtocol
  import opened ProviderEvents
  import opened RunState
  import opened TaskRun

  // ---- What a Task does in a run of the whole system ------------------------------------------------

  /** A step of a Task, and the number of notifications it took if it took any. */
  datatype Event = Event(step: Step, notes: nat)

  predicate IsStepOf(step: Step, p: TaskId) {
    IsTaskStep(step) && step.parent == p
  }

  /** What a request says plays no part in the counting. */
  function Bare(step: Step): Step {
    if step.PushRequest? then PushRequest(step.parent, "") else step
  }

  function Seen(s: Sys, p: TaskId, step: Step): seq<Event> {
    if IsStepOf(step, p) then [Event(Bare(step), if step.DrainNotes? then NotesOf(s, p) else 0)] else []
  }

  /** A step that is not enabled changes nothing. */
  function Advance(s: Sys, step: Step): Sys {
    if Enabled(s, step) then Apply(s, step) else s
  }

  /** What `p` does along `steps`. */
  function Trace(s: Sys, p: TaskId, steps: seq<Step>): seq<Event>
    decreases |steps|
  {
    if steps == [] then [] else Seen(s, p, steps[0]) + Trace(Advance(s, steps[0]), p, steps[1..])
  }

  /** The Orchestrator and the other Tasks only take steps that are open to them; `p` is left to its loop. */
  predicate OthersRun(s: Sys, p: TaskId, steps: seq<Step>)
    decreases |steps|
  {
    steps == [] ||
    ((IsStepOf(steps[0], p) || Enabled(s, steps[0])) && OthersRun(Advance(s, steps[0]), p, steps[1..]))
  }

  ghost predicate IsTrace(events: seq<Event>) {
    forall i :: 0 <= i < |events| ==> IsTaskStep(events[i].step)
  }

  /** The record alone admits the events in turn. */
  ghost predicate CanFollow(parent: Parent, events: seq<Event>)
    requires IsTrace(events)
    decreases |events|
  {
    events == [] ||
    (Ready(parent, events[0].step) && CanFollow(Stepped(parent, events[0].step, events[0].notes), events[1..]))
  }

  ghost function Follow(parent: Parent, events: seq<Event>): Parent
    requires IsTrace(events)
    decreases |events|
  {
    if events == [] then parent else Follow(Stepped(parent, events[0].step, events[0].notes), events[1..])
  }

  lemma OwnStep(s: Sys, p: TaskId, step: Step)
    requires p in s.parents && IsStepOf(step, p) && Ready(Own(s.parents[p]), Bare(step))
    ensures Enabled(s, step) && p in Apply(s, step).parents
    ensures Own(Apply(s, step).parents[p]) == Stepped(Own(s.parents[p]), Bare(step), if step.DrainNotes? then NotesOf(s, p) else 0)
  {
  }

  lemma {:induction false} TraceIsTrace(s: Sys, p: TaskId, steps: seq<Step>)
    ensures IsTrace(Trace(s, p, steps))
    decreases |steps|
  {
    if steps != [] {
      TraceIsTrace(Advance(s, steps[0]), p, steps[1..]);
    }
  }

  /**
   * What a Task can do and what becomes of its own record depends on its trace alone: if its record
   * admits the trace, no interleaving with other threads can disable one of its steps.
   */
  lemma {:induction false} TraceDecides(s: Sys, p: TaskId, steps: seq<Step>)
    requires Inv(s) && p in s.parents && OthersRun(s, p, steps)
    requires IsTrace(Trace(s, p, steps)) && CanFollow(Own(s.parents[p]), Trace(s, p, steps))
    ensures CanRun(s, steps) && p in Run(s, steps).parents
    ensures Own(Run(s, steps).parents[p]) == Follow(Own(s.parents[p]), Trace(s, p, steps))
    decreases |steps|
  {
    if steps != [] {
      var step, next := steps[0], Advance(s, steps[0]);
      var rest := Trace(next, p, steps[1..]);
      TraceIsTrace(next, p, steps[1..]);
      if IsStepOf(step, p) {
        assert Trace(s, p, steps)[1..] == rest;
        OwnStep(s, p, step);
      } else {
        assert Trace(s, p, steps) == rest;
        OthersKeepOwn(s, step, p);
      }
      StepKeepsInv(s, step);
      TraceDecides(next, p, steps[1..]);
    }
  }

  // ---- What the run loop does ------------------------------------------------------------------------

  function Plain(step: Step): Event {
    Event(step, 0)
  }

  /** What a batch counts beyond the sub-tasks it really asked for. */
  function Extra(calls: seq<ToolCall>, failed: seq<bool>): (n: nat)
    requires |failed| == |calls|
    ensures n == 0 <==> !SharesId(calls, failed)
  {
    CountIsExactIff(calls, failed);
    CountByIds(calls, failed, DispatchIds(calls)) - Dispatched(calls, failed)
  }

  function Pushes(p: TaskId, n: nat): seq<Event> {
    seq(n, _ => Plain(PushRequest(p, "")))
  }

  /** The steps of a turn after it was begun: each successful dispatch call pushes one request. */
  function TurnTrace(p: TaskId, head: TaskState, answer: Answer): seq<Event>
    requires answer.ToolCalls? ==> |answer.failed| == |answer.calls|
  {
    match answer
    case ProviderError => [Plain(Abort(p))]
    case ToolCalls(calls, failed, _, _) =>
      Pushes(p, Dispatched(calls, failed)) + [Plain(EndToolTurn(p, Extra(calls, failed)))]
    case TextOnly(found) =>
      match GateOf(head, found) {
        case Proceed => [Plain(EndTextTurn(p, false))]
        case Retry => [Plain(EndTextTurn(p, true))]
        case StuckNow => [Plain(Abort(p))]
      }
  }

  predicate TimesOutAt(head: TaskState, input: Input) {
    MustWait(head) && head.waiting && input.overTime
  }

  /** The steps of a round at whose head `input.notes` notifications are waiting. */
  function RoundTrace(p: TaskId, t: TaskState, input: Input): seq<Event>
    requires input.answer.ToolCalls? ==> |input.answer.failed| == |input.answer.calls|
  {
    if Counted(t).turnCount > MAX_TURNS || Cancels(input.steering) then [Plain(Abort(p))] else
    var head := Head(t, input);
    [Event(DrainNotes(p), input.notes)] +
    (if TimesOutAt(head, input) then [Plain(TimeOut(p))]
     else if MustWait(head) then []
     else [Plain(StartTurn(p))] + TurnTrace(p, head, input.answer))
  }

  /** The steps of a whole run. */
  ghost function LoopTrace(p: TaskId, t: TaskState, inputs: seq<Input>): seq<Event>
    requires AllWellFormed(inputs)
    decreases |inputs|
  {
    if inputs == [] then [] else
    RoundTrace(p, t, inputs[0]) +
    (if Round(t, inputs[0]).1.Running? then LoopTrace(p, Round(t, inputs[0]).0, inputs[1..]) else [])
  }

  /** The round reaches its turn. */
  predicate Turns(t: TaskState, input: Input) {
    Counted(t).turnCount <= MAX_TURNS && !Cancels(input.steering) && !MustWait(Head(t, input))
  }

  predicate RoundTimesOut(t: TaskState, input: Input) {
    Counted(t).turnCount <= MAX_TURNS && !Cancels(input.steering) && TimesOutAt(Head(t, input), input)
  }

  function RoundExtra(t: TaskState, input: Input): nat
    requires input.answer.ToolCalls? ==> |input.answer.failed| == |input.answer.calls|
  {
    if Turns(t, input) && input.answer.ToolCalls? then Extra(input.answer.calls, input.answer.failed) else 0
  }

  /** Some round of the run gives up waiting for its sub-tasks. */
  ghost predicate TimesOut(t: TaskState, inputs: seq<Input>)
    requires AllWellFormed(inputs)
    decreases |inputs|
  {
    inputs != [] &&
    (RoundTimesOut(t, inputs[0]) ||
     (Round(t, inputs[0]).1.Running? && TimesOut(Round(t, inputs[0]).0, inputs[1..])))
  }

  /** What the batches of the run count too much. */
  ghost function Overcount(t: TaskState, inputs: seq<Input>): nat
    requires AllWellFormed(inputs)
    decreases |inputs|
  {
    if inputs == [] then 0 else
    RoundExtra(t, inputs[0]) +
    (if Round(t, inputs[0]).1.Running? then Overcount(Round(t, inputs[0]).0, inputs[1..]) else 0)
  }

  // ---- The loop follows the protocol --------------------------------------------------------------------

  /** The record of a Task at its loop head agrees with its loop. */
  predicate Agrees(parent: Parent, t: TaskState) {
    parent.mode == AtHead && parent.uncounted == 0 && parent.count == t.pending
  }

  function ModeOf(outcome: Outcome): Mode {
    match outcome
    case Running => AtHead
    case Completed => Mode.Finished
    case Cancelled => Aborted
    case GaveUp => Aborted
    case OutOfTurns => Aborted
  }

  /** What a round, or a run, makes of the record. */
  function Left(parent: Parent, pending: nat, outcome: Outcome, timedOut: bool, extra: nat): Parent {
    parent.(count := pending, mode := ModeOf(outcome), timedOut := parent.timedOut || timedOut, overcounted := parent.overcounted + extra)
  }

  lemma {:induction false} FollowAppend(parent: Parent, a: seq<Event>, b: seq<Event>)
    requires IsTrace(a) && IsTrace(b) && CanFollow(parent, a) && CanFollow(Follow(parent, a), b)
    ensures IsTrace(a + b) && CanFollow(parent, a + b) && Follow(parent, a + b) == Follow(Follow(parent, a), b)
    decreases |a|
  {
    if a == [] {
      assert a + b == b;
    } else {
      assert (a + b)[1..] == a[1..] + b;
      FollowAppend(Stepped(parent, a[0].step, a[0].notes), a[1..], b);
    }
  }

  lemma FollowOne(parent: Parent, event: Event)
    requires IsTaskStep(event.step) && Ready(parent, event.step)
    ensures IsTrace([event]) && CanFollow(parent, [event])
    ensures Follow(parent, [event]) == Stepped(parent, event.step, event.notes)
  {
    assert [event][1..] == [];
  }

  lemma {:induction false} FollowPushes(parent: Parent, p: TaskId, n: nat)
    requires parent.mode == InTurn
    ensures IsTrace(Pushes(p, n)) && CanFollow(parent, Pushes(p, n))
    ensures Follow(parent, Pushes(p, n)) == parent.(uncounted := parent.uncounted + n)
    decreases n
  {
    if n > 0 {
      assert Pushes(p, n)[1..] == Pushes(p, n - 1);
      FollowPushes(parent.(uncounted := parent.uncounted + 1), p, n - 1);
    }
  }

  lemma ToolTurnFollows(parent: Parent, p: TaskId, n: nat, extra: nat)
    requires parent.mode == InTurn && parent.uncounted == 0
    ensures var trace := Pushes(p, n) + [Plain(EndToolTurn(p, extra))];
            && IsTrace(trace) && CanFollow(parent, trace)
            && Follow(parent, trace) == Left(parent, parent.count + n + extra, Running, false, extra)
  {
    var end := Plain(EndToolTurn(p, extra));
    FollowPushes(parent, p, n);
    FollowOne(parent.(uncounted := n), end);
    FollowAppend(parent, Pushes(p, n), [end]);
  }

  function TextVerdict(head: TaskState, found: Option<seq<IssueSignature>>): Verdict {
    match GateOf(head, found)
    case Proceed => if head.pending > 0 then Continue else Verdict.Finished
    case Retry => Continue
    case StuckNow => StuckOut
  }

  lemma TextTurnFollows(parent: Parent, p: TaskId, head: TaskState, found: Option<seq<IssueSignature>>)
    requires parent.mode == InTurn && parent.uncounted == 0 && parent.count == head.pending
    ensures var trace := TurnTrace(p, head, TextOnly(found));
            && IsTrace(trace) && CanFollow(parent, trace)
            && Follow(parent, trace) == Left(parent, head.pending, OutcomeOf(TextVerdict(head, found)), false, 0)
  {
    match GateOf(head, found) {
      case Proceed => FollowOne(parent, Plain(EndTextTurn(p, false)));
      case Retry => FollowOne(parent, Plain(EndTextTurn(p, true)));
      case StuckNow => FollowOne(parent, Plain(Abort(p)));
    }
  }

  /** What a turn does to the counter. */
  lemma TurnCounts(head: TaskState, answer: Answer)
    requires answer.ToolCalls? ==> |answer.failed| == |answer.calls|
    ensures var (t, verdict) := Turn(head, answer);
            match answer {
              case ProviderError => t.pending == head.pending && verdict == Verdict.Failed
              case ToolCalls(calls, failed, _, _) =>
                t.pending == head.pending + CountByIds(calls, failed, DispatchIds(calls)) && verdict == Continue
              case TextOnly(found) => t.pending == head.pending && verdict == TextVerdict(head, found)
            }
  {
  }

  lemma TurnFollows(parent: Parent, p: TaskId, head: TaskState, answer: Answer)
    requires answer.ToolCalls? ==> |answer.failed| == |answer.calls|
    requires parent.mode == InTurn && parent.uncounted == 0 && parent.count == head.pending
    ensures var trace, (t, verdict) := TurnTrace(p, head, answer), Turn(head, answer);
            var extra := if answer.ToolCalls? then Extra(answer.calls, answer.failed) else 0;
            && IsTrace(trace) && CanFollow(parent, trace)
            && Follow(parent, trace) == Left(parent, t.pending, OutcomeOf(verdict), false, extra)
  {
    TurnCounts(head, answer);
    match answer {
      case ProviderError => FollowOne(parent, Plain(Abort(p)));
      case ToolCalls(calls, failed, _, _) => ToolTurnFollows(parent, p, Dispatched(calls, failed), Extra(calls, failed));
      case TextOnly(found) => TextTurnFollows(parent, p, head, found);
    }
  }

  /** A round that only waits: it reads its notifications and, over time, gives its sub-tasks up. */
  lemma WaitFollows(parent: Parent, p: TaskId, head: TaskState, input: Input)
    requires parent.mode == AtHead && parent.count == head.pending && MustWait(head) && head.turnCount > 0
    ensures var trace := if TimesOutAt(head, input) then [Plain(TimeOut(p))] else [];
            && IsTrace(trace) && CanFollow(parent, trace)
            && Follow(parent, trace) ==
               Left(parent, WaitRound(head, input.overTime).pending, Running, TimesOutAt(head, input), 0)
  {
    if TimesOutAt(head, input) {
      FollowOne(parent, Plain(TimeOut(p)));
    }
  }

  lemma WorkFollows(parent: Parent, p: TaskId, head: TaskState, answer: Answer)
    requires answer.ToolCalls? ==> |answer.failed| == |answer.calls|
    requires parent.mode == AtHead && parent.uncounted == 0 && parent.count == head.pending
    ensures var trace, (t, verdict) := [Plain(StartTurn(p))] + TurnTrace(p, head, answer), Turn(head, answer);
            var extra := if answer.ToolCalls? then Extra(answer.calls, answer.failed) else 0;
            && IsTrace(trace) && CanFollow(parent, trace)
            && Follow(parent, trace) == Left(parent, t.pending, OutcomeOf(verdict), false, extra)
  {
    FollowOne(parent, Plain(StartTurn(p)));
    TurnFollows(parent.(mode := InTurn), p, head, answer);
    FollowAppend(parent, [Plain(StartTurn(p))], TurnTrace(p, head, answer));
  }

  /** One round of the loop is a run of the protocol's steps, and leaves the counter it leaves. */
  lemma RoundFollows(parent: Parent, p: TaskId, t: TaskState, input: Input)
    requires WellFormed(input) && Agrees(parent, t)
    ensures var trace, (t', outcome) := RoundTrace(p, t, input), Round(t, input);
            && IsTrace(trace) && CanFollow(parent, trace)
            && Follow(parent, trace) == Left(parent, t'.pending, outcome, RoundTimesOut(t, input), RoundExtra(t, input))
  {
    SteerKeepsTurns(Counted(t), input.steering);
    if Counted(t).turnCount > MAX_TURNS || Cancels(input.steering) {
      FollowOne(parent, Plain(Abort(p)));
    } else {
      var head, drain := Head(t, input), Event(DrainNotes(p), input.notes);
      var drained := parent.(count := head.pending);
      FollowOne(parent, drain);
      if MustWait(head) {
        WaitFollows(drained, p, head, input);
        FollowAppend(parent, [drain], if TimesOutAt(head, input) then [Plain(TimeOut(p))] else []);
      } else {
        WorkFollows(drained, p, head, input.answer);
        FollowAppend(parent, [drain], [Plain(StartTurn(p))] + TurnTrace(p, head, input.answer));
      }
    }
  }

  lemma {:induction false} LoopFollows(parent: Parent, p: TaskId, t: TaskState, inputs: seq<Input>)
    requires AllWellFormed(inputs) && Agrees(parent, t)
    ensures var trace, (t', outcome) := LoopTrace(p, t, inputs), Loop(t, inputs);
            && IsTrace(trace) && CanFollow(parent, trace)
            && Follow(parent, trace) == Left(parent, t'.pending, outcome, TimesOut(t, inputs), Overcount(t, inputs))
    decreases |inputs|
  {
    if inputs != [] {
      var round, next := RoundTrace(p, t, inputs[0]), Round(t, inputs[0]);
      RoundFollows(parent, p, t, inputs[0]);
      if next.1.Running? {
        LoopFollows(Follow(parent, round), p, next.0, inputs[1..]);
        FollowAppend(parent, round, LoopTrace(p, next.0, inputs[1..]));
      } else {
        assert round + [] == round;
      }
    }
  }

  /**
   * Refinement: in every interleaving in which `p` does what its run loop does, and its rounds find the
   * notifications that are there, no step of `p` is ever blocked, and afterwards the protocol's record
   * of `p` is what the loop computed: its counter, and whether it is running, completed or aborted.
   */
  lemma LoopIsARun(s: Sys, p: TaskId, t: TaskState, inputs: seq<Input>, steps: seq<Step>)
    requires Inv(s) && p in s.parents && Agrees(s.parents[p], t) && AllWellFormed(inputs)
    requires OthersRun(s, p, steps) && Trace(s, p, steps) == LoopTrace(p, t, inputs)
    ensures CanRun(s, steps) && p in Run(s, steps).parents
    ensures var parent, (t', outcome) := Run(s, steps).parents[p], Loop(t, inputs);
            && parent.count == t'.pending && parent.uncounted == 0 && parent.mode == ModeOf(outcome)
            && (parent.timedOut <==> s.parents[p].timedOut || TimesOut(t, inputs))
            && parent.overcounted == s.parents[p].overcounted + Overcount(t, inputs)
  {
    LoopFollows(Own(s.parents[p]), p, t, inputs);
    TraceDecides(s, p, steps);
    var parent := Run(s, steps).parents[p];
    assert Own(parent).count == parent.count && Own(parent).mode == parent.mode && Own(parent).timedOut == parent.timedOut;
  }

  /**
   * A Task whose run loop completes without giving up a wait has nothing queued, running, unread or
   * lost, whatever the Orchestrator and the other Tasks did meanwhile; and it never counted too much.
   */
  lemma CompletedLoopIsSettled(before: seq<Step>, p: TaskId, gated: bool, inputs: seq<Input>, steps: seq<Step>)
    requires CanRun(Init, before) && p in Run(Init, before).parents && Own(Run(Init, before).parents[p]) == NewParent
    requires AllWellFormed(inputs) && OthersRun(Run(Init, before), p, steps)
    requires Trace(Run(Init, before), p, steps) == LoopTrace(p, Begun(gated), inputs)
    requires Loop(Begun(gated), inputs).1.Completed? && !TimesOut(Begun(gated), inputs)
    ensures CanRun(Init, before + steps)
    ensures var s := Run(Init, before + steps);
            && p in s.parents && InFlight(s, p) == 0
            && s.parents[p].failed == 0 && s.parents[p].dropped == 0
    ensures Overcount(Begun(gated), inputs) == 0
  {
    var s := Run(Init, before);
    RunKeepsInv(Init, before);
    assert Own(s.parents[p]).count == s.parents[p].count && Own(s.parents[p]).overcounted == s.parents[p].overcounted;
    LoopIsARun(s, p, Begun(gated), inputs, steps);
    RunAppend(Init, before, steps);
    CompletedMeansSettled(before + steps, p);
  }

  /**
   * The shortest batch that counts too much: a dispatch and another successful call under one id. One
   * request is pushed and two are counted, so the Task still waits for one when its only sub-task has
   * been read.
   */
  lemma SharedIdCountsTwice(id: string, other: string)
    requires other != DISPATCH
    ensures Extra([ToolCall(id, DISPATCH, ""), ToolCall(id, other, "")], [false, false]) == 1
    ensures Dispatched([ToolCall(id, DISPATCH, ""), ToolCall(id, other, "")], [false, false]) == 1
  {
    var calls, failed := [ToolCall(id, DISPATCH, ""), ToolCall(id, other, "")], [false, false];
    var ids := DispatchIds(calls);
    assert calls[0].id in ids && calls[1..] == [calls[1]] && failed[1..] == [false];
    assert calls[1..][1..] == [] && failed[1..][1..] == [];
    assert CountByIds(calls[1..], failed[1..], ids) == 1 + CountByIds([], [], ids);
    assert Dispatched(calls[1..], failed[1..]) == Dispatched([], []);
  }
}
