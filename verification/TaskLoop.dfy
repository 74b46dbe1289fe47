/** A Task as an object: its run loop, each method tied to the step of the model it performs. */
module TaskLoop {
  import opened Wrappers
  import opened Lifecycle
  import opened ProviderEvents
  import opened EvidenceGate
  import opened StrikeCounters
  import Runs = RunState
  import opened TaskRun

  /** What the gate finds is what its errors are counted under. */
  function Found(errors: Option<seq<ErrorEntry>>): Option<seq<Runs.IssueSignature>> {
    if errors.Some? then Some(Runs.IssuesOf(errors.value)) else None
  }

  /** The error lists behind the issues of each round's answer. */
  ghost predicate Explains(errors: Option<seq<ErrorEntry>>, answer: Answer) {
    answer.TextOnly? ==> answer.found == Found(errors)
  }

  lemma BeatsAdd(l: Life, a: nat, b: nat)
    ensures Beats(Beats(l, a), b) == Beats(l, a + b)
  {
  }

  /** One phase entered, with its heartbeat. */
  function Walk(s: TaskState, next: Runs.Phase): TaskState {
    if s.progress.phase == next then s else s.(progress := Enter(s.progress, next), life := Beats(s.life, 1))
  }

  /** However many phases were entered since `from`, that many heartbeats were sent. */
  ghost predicate Walked(from: TaskState, now: TaskState) {
    && |from.progress.path| <= |now.progress.path|
    && now == from.(progress := now.progress, life := Beats(from.life, Entered(from.progress, now.progress)))
  }

  lemma WalkOn(from: TaskState, now: TaskState, next: Runs.Phase)
    requires Walked(from, now)
    ensures Walked(from, Walk(now, next))
  {
    BeatsAdd(from.life, Entered(from.progress, now.progress), 1);
  }

  lemma NotWalkedYet(s: TaskState)
    ensures Walked(s, s)
  {
    assert Beats(s.life, 0) == s.life;
  }

  class Task {
    const lifecycle: LifecycleTracker
    const run: Runs.RunState
    const gated: bool
    var turnCount: nat
    var pending: nat
    var waiting: bool
    ghost var path: seq<Runs.Phase>
    ghost var retries: nat
    ghost var calls: nat

    constructor (gated: bool)
      ensures fresh(lifecycle) && fresh(run) && this.gated == gated
      ensures lifecycle.current == Sleeping && lifecycle.sent == []
      ensures St().progress == Progress(Runs.Zero, 0, [Runs.Zero], 0) && run.counters == map[]
      ensures turnCount == 0 && pending == 0 && !waiting && calls == 0
      ensures St().(life := Life(Pondering, [Waking, Pondering])) == Begun(gated)
    {
      lifecycle := new LifecycleTracker();
      run := new Runs.RunState();
      this.gated := gated;
      turnCount, pending, waiting, path, retries, calls := 0, 0, false, [Runs.Zero], 0, 0;
    }

    ghost function St(): TaskState
      reads this, lifecycle, run
    {
      TaskState(Life(lifecycle.current, lifecycle.sent), Progress(run.phase, run.turnsInPhase, path, retries),
                run.counters, gated, turnCount, pending, waiting, calls)
    }

    /** Only a Task that has never run can begin. */
    method BeginLifecycle() returns (ok: bool)
      modifies lifecycle
      ensures ok <==> old(lifecycle.current) == Sleeping
      ensures ok ==> St() == old(St()).(life := Life(Pondering, old(lifecycle.sent) + [Waking, Pondering]))
      ensures !ok ==> St() == old(St())
    {
      ok := lifecycle.Transition(Waking);
      if ok {
        ok := lifecycle.Transition(Pondering);
      }
    }

    method Transition(next: TaskStatus)
      modifies lifecycle
      ensures St() == old(St()).(life := Move(old(St()).life, next))
    {
      var ignored := lifecycle.Transition(next);
    }

    method PushHeartbeat()
      modifies lifecycle
      ensures St() == old(St()).(life := Beats(old(St()).life, 1))
    {
      lifecycle.Beat();
      assert Beats(old(St()).life, 1).sent == old(St()).life.sent + [old(St()).life.status];
    }

    method TransitionPhase(next: Runs.Phase)
      modifies this`path, lifecycle, run
      ensures St() == Walk(old(St()), next)
    {
      if run.phase == next {
        return;
      }
      run.TransitionTo(next);
      path := path + [next];
      PushHeartbeat();
    }

    method ProcessSteering(messages: seq<Steering>) returns (cancelled: bool)
      modifies lifecycle, run
      ensures cancelled <==> Cancels(messages)
      ensures St() == Steer(old(St()), messages)
    {
      var i := 0;
      ghost var s0 := St();
      assert messages[0..] == messages;
      while i < |messages|
        invariant 0 <= i <= |messages|
        invariant Cancel !in messages[..i]
        invariant Steer(s0, messages) == Steer(St(), messages[i..])
      {
        assert messages[i..][1..] == messages[i + 1..];
        match messages[i] {
          case Cancel =>
            assert messages[i] in messages;
            return true;
          case Inject =>
            if lifecycle.current == Stuck {
              run.counters := map[];
              Transition(OnIt);
            } else if lifecycle.current == Waiting {
              Transition(OnIt);
            }
          case UpdateFocus =>
        }
        i := i + 1;
      }
      assert messages[..i] == messages;
      return false;
    }

    method DrainNotifications(notes: nat)
      modifies this`pending
      ensures St() == old(St()).(pending := SaturatingSub(old(pending), notes))
    {
      for i := 0 to notes
        invariant pending == SaturatingSub(old(pending), i)
      {
        pending := if pending == 0 then 0 else pending - 1;
      }
    }
  
    /** Counts results by id, as the parent does from its last messages. */
    static method CountNewDispatches(calls: seq<ToolCall>, failed: seq<bool>) returns (count: nat)
      requires |failed| == |calls|
      ensures count == CountByIds(calls, failed, DispatchIds(calls))
    {
      var ids := DispatchIds(calls);
      count := 0;
      var i := 0;
      assert calls[0..] == calls && failed[0..] == failed;
      while i < |calls|
        invariant 0 <= i <= |calls|
        invariant count + CountByIds(calls[i..], failed[i..], ids) == CountByIds(calls, failed, ids)
      {
        assert calls[i..][1..] == calls[i + 1..] && failed[i..][1..] == failed[i + 1..];
        if calls[i].id in ids && !failed[i] {
          count := count + 1;
        }
        i := i + 1;
      }
    }

    /** Phase moves of a tool turn. */
    method AdvanceByTools(assessment: bool)
      modifies this`path, lifecycle, run
      ensures St() == var p := ToolPhases(old(St()).progress, assessment);
                      old(St()).(progress := p, life := Beats(old(St()).life, Entered(old(St()).progress, p)))
    {
      ghost var s0 := St();
      NotWalkedYet(s0);
      if run.phase == Runs.Zero {
        WalkOn(s0, St(), Runs.One);
        TransitionPhase(Runs.One);
      }
      if assessment && run.phase == Runs.One {
        WalkOn(s0, St(), Runs.Two);
        TransitionPhase(Runs.Two);
      }
      if run.phase == Runs.One {
        run.turnsInPhase := run.turnsInPhase + 1;
        if run.turnsInPhase >= 1 {
          WalkOn(s0, St(), Runs.Two);
          TransitionPhase(Runs.Two);
        }
      }
    }

    method HandleToolCallTurn(toolCalls: seq<ToolCall>, failed: seq<bool>, assessment: bool, clarification: bool)
      requires |failed| == |toolCalls|
      modifies this`path, this`pending, lifecycle, run
      ensures St() == ToolTurn(old(St()), toolCalls, failed, assessment, clarification)
    {
      var count := CountNewDispatches(toolCalls, failed);
      pending := pending + count;
      AdvanceByTools(assessment);
      if clarification {
        Transition(Waiting);
        PushHeartbeat();
        return;
      }
      PushHeartbeat();
    }

    method AdvanceToPhaseThree()
      modifies this`path, lifecycle, run
      ensures St() == var p := TextPhases(old(St()).progress);
                      old(St()).(progress := p, life := Beats(old(St()).life, Entered(old(St()).progress, p)))
    {
      ghost var s0 := St();
      NotWalkedYet(s0);
      match run.phase {
        case Zero =>
          WalkOn(s0, St(), Runs.One);
          TransitionPhase(Runs.One);
          WalkOn(s0, St(), Runs.Two);
          TransitionPhase(Runs.Two);
        case One =>
          WalkOn(s0, St(), Runs.Two);
          TransitionPhase(Runs.Two);
        case Two =>
        case Three =>
      }
      WalkOn(s0, St(), Runs.Three);
      TransitionPhase(Runs.Three);
    }

    method CheckEvidenceGate(errors: Option<seq<ErrorEntry>>) returns (outcome: GateOutcome)
      requires run.phase == Runs.Three
      modifies this`path, this`retries, lifecycle, run
      ensures outcome == GateOf(old(St()), Found(errors))
      ensures outcome.Proceed? <==> !gated || errors.None?
      ensures outcome.StuckNow? <==> gated && errors.Some? && IsStuck(old(run.counters), Runs.IssuesOf(errors.value))
      ensures St() == var s := old(St());
                      match outcome
                      case Proceed => s
                      case StuckNow => s.(counters := After(s.counters, Found(errors).value))
                      case Retry => s.(counters := After(s.counters, Found(errors).value),
                                       progress := SentBack(s.progress), life := Beats(s.life, 2))
    {
      if !gated || errors.None? {
        return Proceed;
      }
      ghost var life0 := St().life;
      var strikes := run.RecordEvidenceFailure(errors.value);
      if strikes.Some? {
        return StuckNow;
      }
      TransitionPhase(Runs.Two);
      retries := retries + 1;
      PushHeartbeat();
      BeatsAdd(life0, 1, 1);
      return Retry;
    }

    method RunTextTurn(errors: Option<seq<ErrorEntry>>) returns (verdict: Verdict)
      modifies this`path, this`retries, this`waiting, lifecycle, run
      ensures (St(), verdict) == TextTurn(old(St()), Found(errors))
    {
      AdvanceToPhaseThree();
      var gate := CheckEvidenceGate(errors);
      if gate == StuckNow {
        return StuckOut;
      }
      if gate == Retry {
        return Continue;
      }
      PushHeartbeat();
      if pending > 0 {
        Transition(Waiting);
        PushHeartbeat();
        waiting := true;
        return Continue;
      }
      return Finished;
    }

    method RunTurn(answer: Answer, errors: Option<seq<ErrorEntry>>) returns (verdict: Verdict)
      requires Explains(errors, answer) && (answer.ToolCalls? ==> |answer.failed| == |answer.calls|)
      modifies this, lifecycle, run
      ensures (St(), verdict) == Turn(old(St()), answer)
    {
      calls := calls + 1;
      if answer.ProviderError? {
        return Failed;
      }
      if lifecycle.current == Pondering {
        Transition(OnIt);
      }
      match answer {
        case ToolCalls(toolCalls, failed, assessment, clarification) =>
          HandleToolCallTurn(toolCalls, failed, assessment, clarification);
          return Continue;
        case TextOnly(_) =>
          verdict := RunTextTurn(errors);
      }
    }

    method WaitForSubtasks(overTime: bool)
      requires turnCount > 0
      modifies this`turnCount, this`pending, this`waiting, lifecycle
      ensures St() == WaitRound(old(St()), overTime)
    {
      if waiting && overTime {
        Transition(OnIt);
        waiting := false;
        pending := 0;
      }
      turnCount := turnCount - 1;
    }

    method ConcludeTurn(verdict: Verdict) returns (outcome: Outcome)
      modifies lifecycle
      ensures St() == old(St()).(life := Conclude(old(St()).life, verdict))
      ensures outcome == OutcomeOf(verdict)
    {
      match verdict {
        case Continue => return Running;
        case Finished =>
          Transition(Delivered);
          return Completed;
        case StuckOut =>
          Transition(Stuck);
          return GaveUp;
        case Failed =>
          Transition(Stuck);
          return GaveUp;
      }
    }

    method RunRound(input: Input, errors: Option<seq<ErrorEntry>>) returns (outcome: Outcome)
      requires WellFormed(input) && Explains(errors, input.answer)
      modifies this, lifecycle, run
      ensures (St(), outcome) == Round(old(St()), input)
    {
      turnCount := turnCount + 1;
      if turnCount > MAX_TURNS {
        return OutOfTurns;
      }
      SteerKeepsTurns(St(), input.steering);
      var cancelled := ProcessSteering(input.steering);
      if cancelled {
        Transition(Axed);
        return Cancelled;
      }
      DrainNotifications(input.notes);
      if lifecycle.current == Waiting && pending > 0 {
        WaitForSubtasks(input.overTime);
        return Running;
      }
      var verdict := RunTurn(input.answer, errors);
      outcome := ConcludeTurn(verdict);
    }

    /** The whole run, for as many rounds as the environment supplies. */
    method Run(inputs: seq<Input>, errors: seq<Option<seq<ErrorEntry>>>) returns (began: bool, outcome: Outcome)
      requires AllWellFormed(inputs) && |errors| == |inputs|
      requires forall i :: 0 <= i < |inputs| ==> Explains(errors[i], inputs[i].answer)
      modifies this, lifecycle, run
      ensures began <==> old(lifecycle.current) == Sleeping
      ensures !began ==> St() == old(St())
      ensures began ==> (St(), outcome) == Loop(old(St()).(life := Life(Pondering, old(lifecycle.sent) + [Waking, Pondering])), inputs)
    {
      outcome := Running;
      began := BeginLifecycle();
      if !began {
        return;
      }
      ghost var s0 := St();
      var i := 0;
      assert inputs[0..] == inputs;
      while i < |inputs|
        invariant 0 <= i <= |inputs|
        invariant AllWellFormed(inputs[i..])
        invariant outcome == Running && Loop(s0, inputs) == Loop(St(), inputs[i..])
      {
        assert inputs[i..][0] == inputs[i] && inputs[i..][1..] == inputs[i + 1..];
        outcome := RunRound(inputs[i], errors[i]);
        if outcome != Running {
          return;
        }
        i := i + 1;
      }
    }
  }
}
