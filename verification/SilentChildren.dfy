/** Sub-tasks that end without reporting a settled status, and what becomes of their parents. */
module SilentChildren {
  import opened Wrappers
  import opened Lifecycle
  import opened TaskRegistry
  import opened SubtaskProtocol
  import opened TaskRun

  // ---- Which runs end silently ---------------------------------------------------------------------

  lemma MoveTells(l: Life, next: TaskStatus)
    requires LifeOk(l)
    ensures NoneSettled(Move(l, next).sent) <==> !Move(l, next).status.IsSettled()
  {
    if IsValidTransition(l.status, next) {
      assert Move(l, next).sent[|l.sent|] == next;
    }
  }

  /** The heartbeats of a round tell a settled status exactly when its status is one. */
  lemma RoundTells(s: TaskState, input: Input)
    requires HeadInv(s) && WellFormed(input)
    ensures NoneSettled(Round(s, input).0.life.sent) <==> !Round(s, input).0.life.status.IsSettled()
    ensures LifeOk(TurningPoint(s, input).life)
  {
    SteerKeeps(Counted(s), input.steering);
    if s.turnCount >= MAX_TURNS {
    } else if Cancels(input.steering) {
      MoveTells(Steer(Counted(s), input.steering).life, Axed);
    } else {
      var head := Head(s, input);
      if MustWait(head) {
        MoveKeepsLife(head.life, OnIt);
      } else {
        TurnStatus(head, input.answer);
        MoveTells(Turn(head, input.answer).0.life, Delivered);
        MoveTells(Turn(head, input.answer).0.life, Stuck);
      }
    }
  }

  lemma {:induction false} LoopTells(s: TaskState, inputs: seq<Input>)
    requires HeadInv(s) && AllWellFormed(inputs)
    ensures NoneSettled(Loop(s, inputs).0.life.sent) <==> !Loop(s, inputs).0.life.status.IsSettled()
    ensures inputs != [] ==> LifeOk(LastRound(s, inputs).0.life)
    decreases |inputs|
  {
    if inputs != [] {
      RoundTells(s, inputs[0]);
      RoundEnds(s, inputs[0]);
      if Round(s, inputs[0]).1.Running? {
        LoopTells(Round(s, inputs[0]).0, inputs[1..]);
      }
    }
  }

  /** The ends of a run whose last transition is invalid or missing. */
  predicate IsSilent(head: TaskState, answer: Answer, outcome: Outcome) {
    match outcome
    case Running => false
    case OutOfTurns => true
    case Cancelled => false
    case Completed => head.life.status == Waiting
    case GaveUp => if answer.ProviderError? then head.life.status != OnIt else head.life.status == Waiting
  }

  /**
   * A finished run has sent no settled status exactly when it ran out of turns, completed or struck
   * out in a turn it began as Waiting, or met a provider error in its first turn or while Waiting.
   */
  lemma SilentEndIff(gated: bool, inputs: seq<Input>)
    requires AllWellFormed(inputs) && inputs != [] && !Loop(Begun(gated), inputs).1.Running?
    ensures var (s, outcome) := Loop(Begun(gated), inputs);
            var (head, input) := LastRound(Begun(gated), inputs);
            NoneSettled(s.life.sent) <==> IsSilent(head, input.answer, outcome)
  {
    assert HeadInv(Begun(gated));
    LoopEnds(Begun(gated), inputs);
    LoopTells(Begun(gated), inputs);
  }

  /** Nothing but tool calls, no message and no request for clarification. */
  ghost predicate OnlyTools(inputs: seq<Input>) {
    forall i :: 0 <= i < |inputs| ==>
      inputs[i].steering == [] && inputs[i].answer.ToolCalls? && !inputs[i].answer.clarification
  }

  lemma ToolRound(s: TaskState, input: Input)
    requires HeadInv(s) && WellFormed(input) && OnlyTools([input]) && s.turnCount < MAX_TURNS && s.life.status != Waiting
    ensures var (s1, outcome) := Round(s, input);
            outcome.Running? && s1.life.status != Waiting && s1.turnCount == s.turnCount + 1
  {
    assert [input][0] == input;
  }

  /** Fifty turns of tool calls and no answer in text: the run ends silently. */
  lemma {:induction false} ToolsRunOutOfTurns(s: TaskState, inputs: seq<Input>)
    requires HeadInv(s) && s.life.status != Waiting && AllWellFormed(inputs) && OnlyTools(inputs)
    requires s.turnCount + |inputs| > MAX_TURNS
    ensures Loop(s, inputs).1.OutOfTurns?
    decreases |inputs|
  {
    if s.turnCount < MAX_TURNS {
      assert OnlyTools([inputs[0]]);
      ToolRound(s, inputs[0]);
      RoundEnds(s, inputs[0]);
      ToolsRunOutOfTurns(Round(s, inputs[0]).0, inputs[1..]);
    }
  }

  // ---- What the parent sees of them ------------------------------------------------------------------

  /** `c` has not been reported to `p`, and nothing about it is reportable. */
  predicate IsSilentChild(s: Sys, p: TaskId, c: TaskId) {
    c in Unreported(s, p) && !IsReportable(s.shared.entries, c)
  }

  predicate Unsettling(step: Step, c: TaskId) {
    step.Beat? && step.id == c ==> !step.status.IsSettled()
  }

  lemma TaskStepKeepsSilent(s: Sys, step: Step, p: TaskId, c: TaskId)
    requires Enabled(s, step) && (IsTaskStep(step) || step.TakeRequests? || step.Beat?) && Unsettling(step, c)
    requires IsSilentChild(s, p, c)
    ensures IsSilentChild(Apply(s, step), p, c)
  {
  }

  lemma DispatchKeepsSilent(s: Sys, step: Step, p: TaskId, c: TaskId)
    requires Tidy(s) && Enabled(s, step) && (step.Submit? || step.DispatchNext?) && IsSilentChild(s, p, c)
    ensures IsSilentChild(Apply(s, step), p, c)
  {
    assert p < s.shared.counter && c < s.shared.counter;
  }

  lemma SweepKeepsSilent(s: Sys, step: Step, p: TaskId, c: TaskId)
    requires Tidy(s) && Enabled(s, step) && (step.BeginSweep? || step.CheckChild? || step.EndSweep?) && IsSilentChild(s, p, c)
    ensures IsSilentChild(Apply(s, step), p, c)
  {
  }

  ghost predicate AllUnsettling(steps: seq<Step>, c: TaskId) {
    forall i :: 0 <= i < |steps| ==> Unsettling(steps[i], c)
  }

  lemma {:induction false} SilentChildStays(s: Sys, steps: seq<Step>, p: TaskId, c: TaskId)
    requires Inv(s) && CanRun(s, steps) && IsSilentChild(s, p, c) && AllUnsettling(steps, c)
    ensures IsSilentChild(Run(s, steps), p, c)
    decreases |steps|
  {
    if steps != [] {
      var step := steps[0];
      if step.Submit? || step.DispatchNext? {
        DispatchKeepsSilent(s, step, p, c);
      } else if step.BeginSweep? || step.CheckChild? || step.EndSweep? {
        SweepKeepsSilent(s, step, p, c);
      } else {
        TaskStepKeepsSilent(s, step, p, c);
      }
      StepKeepsInv(s, step);
      SilentChildStays(Apply(s, step), steps[1..], p, c);
    }
  }

  /** A child the Orchestrator has just dispatched is pending and not reportable. */
  lemma NewChildIsSilent(s: Sys)
    requires Tidy(s) && Enabled(s, DispatchNext(true))
    ensures IsSilentChild(Apply(s, DispatchNext(true)), s.hand[0].parent, s.shared.counter)
  {
    assert s.hand[0] in s.hand;
    EmptyEstimateIsAlwaysDispatched(s.shared.entries, Some(s.hand[0].parent));
  }

  /** Every heartbeat that reaches the registry from `c` is one it sent. */
  ghost predicate HeardOnly(steps: seq<Step>, c: TaskId, sent: seq<TaskStatus>) {
    forall i :: 0 <= i < |steps| && steps[i].Beat? && steps[i].id == c ==> steps[i].status in sent
  }

  lemma HeardUnsettled(steps: seq<Step>, c: TaskId, sent: seq<TaskStatus>)
    requires HeardOnly(steps, c, sent) && NoneSettled(sent)
    ensures AllUnsettling(steps, c)
  {
  }

  /** The parent has sub-tasks on its account and has not completed. */
  predicate StillOwes(s: Sys, p: TaskId) {
    p in s.parents && s.parents[p].count + s.parents[p].uncounted > 0 && s.parents[p].mode != Mode.Finished
  }

  lemma UnreportedKeepsCount(s: Sys, p: TaskId, c: TaskId)
    requires p in s.parents && LedgerAt(s, p) && c in Unreported(s, p) && !s.parents[p].timedOut
    ensures StillOwes(s, p)
  {
  }

  /** `p` has given up waiting, or does along `steps`. */
  predicate GivesUp(s: Sys, steps: seq<Step>, p: TaskId) {
    (p in s.parents && s.parents[p].timedOut) || TimeOut(p) in steps
  }

  lemma {:induction false} NoTimeOut(s: Sys, steps: seq<Step>, p: TaskId)
    requires Inv(s) && CanRun(s, steps) && p in s.parents && !GivesUp(s, steps, p)
    ensures p in Run(s, steps).parents && !Run(s, steps).parents[p].timedOut
    decreases |steps|
  {
    if steps != [] {
      assert steps[0] in steps;
      LossIsPermanent(s, steps[0], p);
      StepKeepsInv(s, steps[0]);
      NoTimeOut(Apply(s, steps[0]), steps[1..], p);
    }
  }

  /**
   * A sub-task whose run ends silently is never reported: from its dispatch on, whatever happens, it
   * stays pending and the registry shows it unsettled, so no completion check tells its parent; and
   * until the parent gives up its wait it holds sub-tasks and cannot complete.
   */
  lemma SilentChildBlocksParent(s: Sys, p: TaskId, c: TaskId, steps: seq<Step>, gated: bool, inputs: seq<Input>)
    requires Inv(s) && Enabled(s, DispatchNext(true)) && p == s.hand[0].parent && c == s.shared.counter
    requires CanRun(Apply(s, DispatchNext(true)), steps)
    requires AllWellFormed(inputs) && inputs != []
    requires IsSilent(LastRound(Begun(gated), inputs).0, LastRound(Begun(gated), inputs).1.answer, Loop(Begun(gated), inputs).1)
    requires HeardOnly(steps, c, Loop(Begun(gated), inputs).0.life.sent)
    ensures IsSilentChild(Run(Apply(s, DispatchNext(true)), steps), p, c)
    ensures !GivesUp(s, steps, p) ==> StillOwes(Run(Apply(s, DispatchNext(true)), steps), p)
  {
    var t := Apply(s, DispatchNext(true));
    SilentEndIff(gated, inputs);
    HeardUnsettled(steps, c, Loop(Begun(gated), inputs).0.life.sent);
    NewChildIsSilent(s);
    StepKeepsInv(s, DispatchNext(true));
    SilentChildStays(t, steps, p, c);
    RunKeepsInv(t, steps);
    if !GivesUp(s, steps, p) {
      assert s.hand[0] in s.hand;
      LossIsPermanent(s, DispatchNext(true), p);
      NoTimeOut(t, steps, p);
      UnreportedKeepsCount(Run(t, steps), p, c);
    }
  }
}
