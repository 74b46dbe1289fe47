/** The heartbeats a run sends: how many each turn adds, and what the last one always tells. */
module TaskBeats {
  import opened Wrappers
  import opened Lifecycle
  import opened ProviderEvents
  import opened EvidenceGate
  import opened StrikeCounters
  import opened RunState
  import opened TaskRun

  /** A heartbeat repeats the current status and changes nothing else. */
  lemma BeatsRepeat(l: Life, n: nat)
    ensures Beats(l, n).status == l.status && |Beats(l, n).sent| == |l.sent| + n && l.sent <= Beats(l, n).sent
    ensures forall i :: |l.sent| <= i < |l.sent| + n ==> Beats(l, n).sent[i] == l.status
  {
  }

  /** The last heartbeat told the current status. */
  predicate Current(l: Life) {
    l.sent != [] && l.sent[|l.sent| - 1] == l.status
  }

  lemma MoveIsTold(l: Life, next: TaskStatus)
    requires Current(l)
    ensures Current(Move(l, next)) && l.sent <= Move(l, next).sent
    ensures |Move(l, next).sent| == |l.sent| + (if IsValidTransition(l.status, next) then 1 else 0)
  {
  }

  lemma BeatsAreCurrent(l: Life, n: nat)
    requires Current(l)
    ensures Current(Beats(l, n)) && l.sent <= Beats(l, n).sent
  {
    BeatsRepeat(l, n);
  }

  /** Phases are only ever entered. */
  lemma PathsGrow(p: Progress, assessment: bool)
    ensures p.path <= ToolPhases(p, assessment).path && p.path <= TextPhases(p).path
    ensures p.path <= SentBack(TextPhases(p)).path
  {
  }

  /** What a turn sends beside one heartbeat for each phase it enters. */
  function Extra(s: TaskState, answer: Answer): nat {
    match answer
    case ProviderError => 0
    case ToolCalls(_, _, _, clarification) =>
      (if s.life.status == Pondering then 1 else 0) + (if clarification && s.life.status != Waiting then 1 else 0) + 1
    case TextOnly(found) =>
      (if s.life.status == Pondering then 1 else 0) +
      (if s.gated && found.Some? then (if IsStuck(s.counters, found.value) then 0 else 1)
       else if s.pending == 0 then 1
       else (if s.life.status != Waiting then 1 else 0) + 2)
  }

  lemma AnsweredBeats(s: TaskState)
    requires Current(s.life) && IsLive(s.life.status)
    ensures var a := Answered(s.(calls := s.calls + 1));
            && Current(a.life) && |a.life.sent| == |s.life.sent| + (if s.life.status == Pondering then 1 else 0)
            && a.life.status == (if s.life.status == Pondering then OnIt else s.life.status)
            && a == s.(calls := s.calls + 1, life := a.life)
  {
    MoveIsTold(s.life, OnIt);
  }

  lemma ToolTurnBeats(s: TaskState, calls: seq<ToolCall>, failed: seq<bool>, assessment: bool, clarification: bool)
    requires |failed| == |calls| && Current(s.life) && (s.life.status == OnIt || s.life.status == Waiting)
    ensures var s1 := ToolTurn(s, calls, failed, assessment, clarification);
            && Current(s1.life)
            && |s1.life.sent| + |s.progress.path| ==
               |s.life.sent| + |s1.progress.path| + (if clarification && s.life.status == OnIt then 1 else 0) + 1
  {
    var p := ToolPhases(s.progress, assessment);
    var l := Beats(s.life, Entered(s.progress, p));
    PathsGrow(s.progress, assessment);
    BeatsRepeat(s.life, Entered(s.progress, p));
    BeatsAreCurrent(s.life, Entered(s.progress, p));
    MoveIsTold(l, Waiting);
    var m := if clarification then Move(l, Waiting) else l;
    BeatsRepeat(m, 1);
    BeatsAreCurrent(m, 1);
  }

  lemma TextTurnBeats(s: TaskState, found: Option<seq<IssueSignature>>)
    requires Current(s.life) && (s.life.status == OnIt || s.life.status == Waiting) && PathOk(s.progress)
    ensures var s1 := TextTurn(s, found).0;
            && Current(s1.life)
            && |s1.life.sent| + |s.progress.path| ==
               |s.life.sent| + |s1.progress.path| +
               (if s.gated && found.Some? then (if IsStuck(s.counters, found.value) then 0 else 1)
                else if s.pending == 0 then 1
                else (if s.life.status == OnIt then 1 else 0) + 2)
  {
    var p := TextPhases(s.progress);
    var l := Beats(s.life, Entered(s.progress, p));
    PathsGrow(s.progress, false);
    TextPhasesKeepPath(s.progress);
    BeatsRepeat(s.life, Entered(s.progress, p));
    BeatsAreCurrent(s.life, Entered(s.progress, p));
    match GateOf(s, found) {
      case StuckNow =>
      case Retry =>
        BeatsRepeat(l, 2);
        BeatsAreCurrent(l, 2);
      case Proceed =>
        BeatsRepeat(l, 1);
        BeatsAreCurrent(l, 1);
        WaitIsTold(Beats(l, 1));
    }
  }

  lemma WaitIsTold(l: Life)
    requires Current(l) && (l.status == OnIt || l.status == Waiting)
    ensures var after := Beats(Move(l, Waiting), 1);
            Current(after) && |after.sent| == |l.sent| + (if l.status == OnIt then 1 else 0) + 1
  {
    MoveIsTold(l, Waiting);
    BeatsRepeat(Move(l, Waiting), 1);
    BeatsAreCurrent(Move(l, Waiting), 1);
  }

  /**
   * A turn sends one heartbeat for each phase it enters, one when work begins, one when a wait begins,
   * and one to close it: after the tools, after a gate failure that is retried, after a text, and once
   * more while it waits. A provider error and a third strike send none of these.
   */
  lemma TurnBeats(s: TaskState, answer: Answer)
    requires LifeOk(s.life) && Current(s.life) && PathOk(s.progress)
    requires answer.ToolCalls? ==> |answer.failed| == |answer.calls|
    ensures var s1 := Turn(s, answer).0;
            && Current(s1.life)
            && |s1.life.sent| + |s.progress.path| == |s.life.sent| + |s1.progress.path| + Extra(s, answer)
  {
    match answer {
      case ProviderError =>
      case ToolCalls(calls, failed, assessment, clarification) => ToolAnswerBeats(s, answer);
      case TextOnly(found) => TextAnswerBeats(s, answer);
    }
  }

  lemma ToolAnswerBeats(s: TaskState, answer: Answer)
    requires LifeOk(s.life) && Current(s.life) && answer.ToolCalls? && |answer.failed| == |answer.calls|
    ensures var s1 := Turn(s, answer).0;
            && Current(s1.life)
            && |s1.life.sent| + |s.progress.path| == |s.life.sent| + |s1.progress.path| + Extra(s, answer)
  {
    AnsweredBeats(s);
    ToolTurnBeats(Answered(s.(calls := s.calls + 1)), answer.calls, answer.failed, answer.assessment, answer.clarification);
  }

  lemma TextAnswerBeats(s: TaskState, answer: Answer)
    requires LifeOk(s.life) && Current(s.life) && PathOk(s.progress) && answer.TextOnly?
    ensures var s1 := Turn(s, answer).0;
            && Current(s1.life)
            && |s1.life.sent| + |s.progress.path| == |s.life.sent| + |s1.progress.path| + Extra(s, answer)
  {
    AnsweredBeats(s);
    TextTurnBeats(Answered(s.(calls := s.calls + 1)), answer.found);
  }

  lemma {:induction false} SteerIsTold(s: TaskState, messages: seq<Steering>)
    requires Current(s.life)
    ensures Current(Steer(s, messages).life)
    decreases |messages|
  {
    if messages != [] {
      match messages[0] {
        case Cancel =>
        case Inject =>
          MoveIsTold(s.life, OnIt);
          SteerIsTold(Resume(s), messages[1..]);
        case UpdateFocus => SteerIsTold(s, messages[1..]);
      }
    }
  }

  lemma RoundIsTold(s: TaskState, input: Input)
    requires HeadInv(s) && WellFormed(input) && Current(s.life)
    ensures Current(Round(s, input).0.life)
  {
    SteerIsTold(Counted(s), input.steering);
    SteerKeeps(Counted(s), input.steering);
    if s.turnCount < MAX_TURNS {
      if Cancels(input.steering) {
        MoveIsTold(Steer(Counted(s), input.steering).life, Axed);
      } else {
        var head := Head(s, input);
        if MustWait(head) {
          MoveIsTold(head.life, OnIt);
        } else {
          TurnBeats(head, input.answer);
          ConclusionIsTold(Turn(head, input.answer).0.life, Turn(head, input.answer).1);
        }
      }
    }
  }

  lemma ConclusionIsTold(l: Life, verdict: Verdict)
    requires Current(l)
    ensures Current(Conclude(l, verdict))
  {
    MoveIsTold(l, Delivered);
    MoveIsTold(l, Stuck);
  }

  lemma RoundLeadsOn(s: TaskState, input: Input) returns (next: TaskState, outcome: Outcome)
    requires HeadInv(s) && WellFormed(input) && Current(s.life)
    ensures (next, outcome) == Round(s, input) && Current(next.life) && (outcome.Running? ==> HeadInv(next))
  {
    next, outcome := Round(s, input).0, Round(s, input).1;
    RoundIsTold(s, input);
    RoundEnds(s, input);
  }

  /** Over every run, in any environment, the last heartbeat sent told the status the Task has: the registry can catch up. */
  lemma {:induction false} LastBeatTellsStatus(s: TaskState, inputs: seq<Input>)
    requires HeadInv(s) && AllWellFormed(inputs) && Current(s.life)
    ensures var l := Loop(s, inputs).0.life;
            l.sent != [] && l.sent[|l.sent| - 1] == l.status
    decreases |inputs|
  {
    if inputs != [] {
      var next, outcome := RoundLeadsOn(s, inputs[0]);
      if outcome.Running? {
        LastBeatTellsStatus(next, inputs[1..]);
      }
    }
  }

  /** A run is out of turns at the fifty-first round that is not spent waiting, and not before. */
  lemma OutOfTurnsIff(s: TaskState, input: Input)
    requires HeadInv(s) && WellFormed(input)
    ensures Round(s, input).1.OutOfTurns? <==> s.turnCount == 50
    ensures Round(s, input).1.OutOfTurns? ==> Round(s, input).0 == s.(turnCount := 51)
  {
    if s.turnCount < MAX_TURNS && !Cancels(input.steering) && !MustWait(Head(s, input)) {
      assert !OutcomeOf(Turn(Head(s, input), input.answer).1).OutOfTurns?;
    }
  }

  /** Whether a batch brings an assessment makes no difference: the tool turn that leaves phase zero goes on to phase two. */
  lemma AssessmentMakesNoDifference(s: TaskState, calls: seq<ToolCall>, failed: seq<bool>, clarification: bool)
    requires |failed| == |calls|
    ensures ToolTurn(s, calls, failed, true, clarification) == ToolTurn(s, calls, failed, false, clarification)
  {
  }

  // ---- Messages ------------------------------------------------------------------------------------

  /** An injected message takes a waiting Task back to work, and a stuck one with its strikes forgotten; it changes no other. */
  lemma InjectionResumes(s: TaskState)
    ensures var s1 := Steer(s, [Inject]);
            && (s.life.status == Waiting ==> s1 == s.(life := Life(OnIt, s.life.sent + [OnIt])))
            && (s.life.status == Stuck ==> s1 == s.(life := Life(OnIt, s.life.sent + [OnIt]), counters := map[]))
            && (s.life.status != Waiting && s.life.status != Stuck ==> s1 == s)
  {
    assert [Inject][1..] == [];
  }
}
