/** When a running Task is waiting, told from what happened to it. */
module TaskWaits {
  import opened Wrappers
  import opened Lifecycle
  import opened RunState
  import opened TaskRun

  datatype WaitEvent = WaitBegun | Injected | GivenUp

  /** A turn begins a wait: it asks for a clarification, or ends in text with sub-tasks pending and no gate failure. */
  predicate BeginsWait(s: TaskState, pending: nat, answer: Answer) {
    match answer
    case ProviderError => false
    case ToolCalls(_, _, _, clarification) => clarification
    case TextOnly(found) => GateOf(s, found).Proceed? && pending > 0
  }

  /** What happens to the wait in one round that goes on, `waits` telling how it stood before. */
  function RoundEvents(waits: bool, s: TaskState, input: Input): seq<WaitEvent> {
    var still, pending := waits && Inject !in input.steering, SaturatingSub(s.pending, input.notes);
    (if Inject in input.steering then [Injected] else []) +
    (if still && pending > 0 then (if s.waiting && input.overTime then [GivenUp] else [])
     else if BeginsWait(s, pending, input.answer) then [WaitBegun] else [])
  }

  /** The last thing that happened to the wait was that it began. */
  predicate Lasts(waits: bool, events: seq<WaitEvent>) {
    if events == [] then waits else events[|events| - 1].WaitBegun?
  }

  /** What happens to the wait over a run that goes on. */
  ghost function RunEvents(waits: bool, s: TaskState, inputs: seq<Input>): seq<WaitEvent>
    requires AllWellFormed(inputs)
    decreases |inputs|
  {
    if inputs == [] then [] else
    var events := RoundEvents(waits, s, inputs[0]);
    events + RunEvents(Lasts(waits, events), Round(s, inputs[0]).0, inputs[1..])
  }

  // ---- One round -----------------------------------------------------------------------------------

  /** An injected message takes a waiting Task back to work, and is the only steering that changes a status. */
  lemma {:induction false} SteeredStatus(s: TaskState, messages: seq<Steering>)
    requires LifeOk(s.life) && Cancel !in messages
    ensures Steer(s, messages).life.status ==
            if s.life.status == Waiting && Inject in messages then OnIt else s.life.status
    decreases |messages|
  {
    if messages != [] {
      assert messages[0] in messages;
      match messages[0] {
        case Cancel =>
        case Inject =>
          MoveKeepsLife(s.life, OnIt);
          SteeredStatus(Resume(s), messages[1..]);
        case UpdateFocus =>
          SteeredStatus(s, messages[1..]);
      }
    }
  }

  /** A turn that goes on leaves the Task waiting exactly when it began a wait or was waiting already. */
  lemma TurnWaits(head: TaskState, answer: Answer)
    requires LifeOk(head.life) && (answer.ToolCalls? ==> |answer.failed| == |answer.calls|)
    ensures var (s1, verdict) := Turn(head, answer);
            verdict.Continue? ==>
              (s1.life.status == Waiting <==> head.life.status == Waiting || BeginsWait(head, head.pending, answer))
  {
  }

  lemma LiveRound(s: TaskState, input: Input)
    requires HeadInv(s) && WellFormed(input) && Round(s, input).1.Running?
    ensures (Round(s, input).0.life.status == Waiting) <==>
            Lasts(s.life.status == Waiting, RoundEvents(s.life.status == Waiting, s, input))
  {
    SteerKeeps(Counted(s), input.steering);
    SteeredStatus(Counted(s), input.steering);
    if !MustWait(Head(s, input)) {
      TurnWaits(Head(s, input), input.answer);
    }
  }

  lemma LastsOn(waits: bool, first: seq<WaitEvent>, rest: seq<WaitEvent>)
    ensures Lasts(waits, first + rest) == Lasts(Lasts(waits, first), rest)
  {
  }

  /**
   * Over every run of rounds that go on, a Task is waiting at its loop head exactly when, of the waits
   * begun, the messages injected and the waits given up, the last was a wait begun.
   */
  lemma {:induction false} WaitingIffBegunLast(s: TaskState, inputs: seq<Input>)
    requires HeadInv(s) && AllWellFormed(inputs) && Loop(s, inputs).1.Running?
    ensures (Loop(s, inputs).0.life.status == Waiting) <==>
            Lasts(s.life.status == Waiting, RunEvents(s.life.status == Waiting, s, inputs))
    decreases |inputs|
  {
    if inputs != [] {
      var waits, next := s.life.status == Waiting, Round(s, inputs[0]).0;
      LiveRound(s, inputs[0]);
      RoundEnds(s, inputs[0]);
      WaitingIffBegunLast(next, inputs[1..]);
      LastsOn(waits, RoundEvents(waits, s, inputs[0]), RunEvents(next.life.status == Waiting, next, inputs[1..]));
    }
  }

  // ---- How a run completes -----------------------------------------------------------------------------

  lemma {:induction false} LoopSnoc(s: TaskState, inputs: seq<Input>, last: Input)
    requires AllWellFormed(inputs) && WellFormed(last) && Loop(s, inputs).1.Running?
    ensures AllWellFormed(inputs + [last])
    ensures Loop(s, inputs + [last]) == Loop(Loop(s, inputs).0, [last])
    decreases |inputs|
  {
    if inputs == [] {
      assert inputs + [last] == [last];
    } else {
      assert (inputs + [last])[1..] == inputs[1..] + [last];
      LoopSnoc(Round(s, inputs[0]).0, inputs[1..], last);
    }
  }

  /** A run that completes ends delivered, unless a wait was begun last and no message came with the last turn. */
  lemma DeliveredIffNotWaiting(gated: bool, inputs: seq<Input>, last: Input)
    requires AllWellFormed(inputs) && WellFormed(last) && Loop(Begun(gated), inputs).1.Running?
    ensures AllWellFormed(inputs + [last])
    ensures var waits := Lasts(false, RunEvents(false, Begun(gated), inputs)) && Inject !in last.steering;
            Loop(Begun(gated), inputs + [last]).1.Completed? ==>
              Loop(Begun(gated), inputs + [last]).0.life.status == if waits then Waiting else Delivered
  {
    var s0 := Begun(gated);
    assert HeadInv(s0);
    WaitingIffBegunLast(s0, inputs);
    LoopKeepsHead(s0, inputs);
    LoopSnoc(s0, inputs, last);
    var s := Loop(s0, inputs).0;
    assert [last][1..] == [] && Loop(s, [last]).1 == Round(s, last).1;
    if Round(s, last).1.Completed? {
      LastCompletes(s, last);
    }
  }

  lemma LastCompletes(s: TaskState, last: Input)
    requires HeadInv(s) && WellFormed(last) && Round(s, last).1.Completed?
    ensures Round(s, last).0.life.status == if s.life.status == Waiting && Inject !in last.steering then Waiting else Delivered
  {
    RoundEnds(s, last);
    SteerKeeps(Counted(s), last.steering);
    SteeredStatus(Counted(s), last.steering);
  }

  lemma {:induction false} LoopKeepsHead(s: TaskState, inputs: seq<Input>)
    requires HeadInv(s) && AllWellFormed(inputs) && Loop(s, inputs).1.Running?
    ensures HeadInv(Loop(s, inputs).0)
    decreases |inputs|
  {
    if inputs != [] {
      RoundEnds(s, inputs[0]);
      LoopKeepsHead(Round(s, inputs[0]).0, inputs[1..]);
    }
  }

  lemma GivingUp(s: TaskState, over: Input) returns (s1: TaskState)
    requires HeadInv(s) && WellFormed(over) && s.turnCount < MAX_TURNS
    requires s.life.status == Waiting && s.waiting && over.overTime && SaturatingSub(s.pending, over.notes) > 0
    requires Inject !in over.steering && !Cancels(over.steering)
    ensures Round(s, over) == (s1, Running) && HeadInv(s1)
    ensures s1.life.status == OnIt && s1.pending == 0 && s1.turnCount == s.turnCount
    ensures s1.gated == s.gated && s1.counters == s.counters
  {
    SteerKeeps(Counted(s), over.steering);
    SteeredStatus(Counted(s), over.steering);
    RoundEnds(s, over);
    s1 := Round(s, over).0;
  }

  lemma AnswerDelivers(s: TaskState, input: Input)
    requires HeadInv(s) && WellFormed(input) && s.turnCount < MAX_TURNS && !Cancels(input.steering)
    requires s.life.status == OnIt && s.pending == 0
    requires input.answer.TextOnly? && GateOf(s, input.answer.found).Proceed?
    ensures Round(s, input).1.Completed? && Round(s, input).0.life.status == Delivered
  {
    SteerKeeps(Counted(s), input.steering);
    SteeredStatus(Counted(s), input.steering);
    RoundEnds(s, input);
  }

  /** A parent that gives up its wait and then answers in text, with no gate or one that passes, is delivered. */
  lemma GivenUpThenDelivers(s: TaskState, over: Input, answer: Input)
    requires HeadInv(s) && WellFormed(over) && WellFormed(answer) && s.turnCount < MAX_TURNS
    requires s.life.status == Waiting && s.waiting && over.overTime && SaturatingSub(s.pending, over.notes) > 0
    requires Inject !in over.steering && !Cancels(over.steering) && !Cancels(answer.steering)
    requires answer.answer.TextOnly? && GateOf(s, answer.answer.found).Proceed?
    ensures AllWellFormed([over, answer])
    ensures Loop(s, [over, answer]).1.Completed? && Loop(s, [over, answer]).0.life.status == Delivered
  {
    var s1 := GivingUp(s, over);
    AnswerDelivers(s1, answer);
    LoopNext(s, over, [answer], s1);
    assert [over] + [answer] == [over, answer];
  }

  // ---- The time limit of a wait --------------------------------------------------------------------

  /** The round gets to a turn. */
  predicate TakesTurn(s: TaskState, input: Input) {
    s.turnCount < 50 && Cancel !in input.steering && !(Head(s, input).life.status == Waiting && Head(s, input).pending > 0)
  }

  /** A text answer that the gate lets pass, with sub-tasks pending, starts the clock. */
  predicate StartsClock(s: TaskState, input: Input) {
    && TakesTurn(s, input) && input.answer.TextOnly? && !(s.gated && input.answer.found.Some?)
    && Head(s, input).pending > 0
  }

  /** A round spent waiting that finds the clock run out stops it. */
  predicate StopsClock(running: bool, s: TaskState, input: Input) {
    && running && input.overTime && s.turnCount < 50 && Cancel !in input.steering
    && Head(s, input).life.status == Waiting && Head(s, input).pending > 0
  }

  /** Whether the clock runs after these rounds. */
  ghost function Clock(running: bool, s: TaskState, inputs: seq<Input>): bool
    requires AllWellFormed(inputs)
    decreases |inputs|
  {
    if inputs == [] then running else
    var now := if StartsClock(s, inputs[0]) then true else if StopsClock(running, s, inputs[0]) then false else running;
    if Round(s, inputs[0]).1.Running? then Clock(now, Round(s, inputs[0]).0, inputs[1..]) else now
  }

  lemma RoundClock(s: TaskState, input: Input) returns (next: TaskState, outcome: Outcome)
    requires HeadInv(s) && WellFormed(input)
    ensures (next, outcome) == Round(s, input) && (outcome.Running? ==> HeadInv(next))
    ensures outcome.Running? ==>
              next.waiting == if StartsClock(s, input) then true else if StopsClock(s.waiting, s, input) then false else s.waiting
  {
    next, outcome := Round(s, input).0, Round(s, input).1;
    RoundEnds(s, input);
    SteerKeeps(Counted(s), input.steering);
  }

  /**
   * Over every run of live rounds, the clock of a wait runs exactly when, since the last wait was given
   * up for taking too long, a text answer has begun one. A wait for clarification never starts it.
   */
  lemma {:induction false} ClockRunsIff(s: TaskState, inputs: seq<Input>)
    requires HeadInv(s) && AllWellFormed(inputs) && Loop(s, inputs).1.Running?
    ensures Loop(s, inputs).0.waiting == Clock(s.waiting, s, inputs)
    decreases |inputs|
  {
    if inputs != [] {
      var next, outcome := RoundClock(s, inputs[0]);
      ClockRunsIff(next, inputs[1..]);
    }
  }
}
