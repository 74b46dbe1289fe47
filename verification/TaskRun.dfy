/** The run loop of a Task against an arbitrary environment. */
module TaskRun {
  import opened Wrappers
  import opened Lifecycle
  import opened ProviderEvents
  import opened EvidenceGate
  import opened StrikeCounters
  import opened RunState
  import TaskRegistry

  const MAX_TURNS: nat := 50

  // ---- What the environment supplies --------------------------------------------------------------

  datatype Steering = Cancel | Inject | UpdateFocus

  /**
   * What the provider answers: an error before or within the stream, a batch of tool calls with what
   * came of each, or text alone. `found` are the issues the evidence gate finds then, if any.
   */
  datatype Answer =
    | ProviderError
    | ToolCalls(calls: seq<ToolCall>, failed: seq<bool>, assessment: bool, clarification: bool)
    | TextOnly(found: Option<seq<IssueSignature>>)

  /** One round of the loop: messages waiting, notifications waiting, whether the wait is over time, and the answer. */
  datatype Input = Input(steering: seq<Steering>, notes: nat, overTime: bool, answer: Answer)

  ghost predicate WellFormed(input: Input) {
    (input.answer.ToolCalls? ==> input.answer.calls != [] && |input.answer.failed| == |input.answer.calls|) &&
    (input.answer.TextOnly? && input.answer.found.Some? ==> input.answer.found.value != [])
  }

  datatype Outcome = Running | Completed | Cancelled | GaveUp | OutOfTurns

  /** The current status, and the status of every heartbeat sent so far. */
  datatype Life = Life(status: TaskStatus, sent: seq<TaskStatus>)

  /** `path` and `retries` are bookkeeping: the phases entered, and the gate failures that were retried. */
  datatype Progress = Progress(phase: Phase, turns: nat, path: seq<Phase>, retries: nat)

  /** `waiting` tells whether a wait for sub-tasks was begun; `calls` counts provider calls. */
  datatype TaskState = TaskState(
    life: Life,
    progress: Progress,
    counters: Counters<IssueSignature>,
    gated: bool,
    turnCount: nat,
    pending: nat,
    waiting: bool,
    calls: nat)

  // ---- Status and phases ---------------------------------------------------------------------------

  /** A transition whose error is ignored. */
  function Move(l: Life, next: TaskStatus): Life {
    if IsValidTransition(l.status, next) then Life(next, l.sent + [next]) else l
  }

  /** `n` heartbeats that repeat the current status. */
  function Beats(l: Life, n: nat): Life {
    l.(sent := l.sent + seq(n, _ => l.status))
  }

  function Enter(p: Progress, next: Phase): Progress {
    if p.phase == next then p else Progress(next, 0, p.path + [next], p.retries)
  }

  function ToolPhases(p: Progress, assessment: bool): Progress {
    var p1 := if p.phase == Zero then Enter(p, One) else p;
    var p2 := if assessment && p1.phase == One then Enter(p1, Two) else p1;
    if p2.phase == One then Enter(p2.(turns := p2.turns + 1), Two) else p2
  }

  function TextPhases(p: Progress): Progress {
    match p.phase
    case Zero => Enter(Enter(Enter(p, One), Two), Three)
    case One => Enter(Enter(p, Two), Three)
    case Two => Enter(p, Three)
    case Three => p
  }

  /** A failed gate sends a Task back to implementation. */
  function SentBack(p: Progress): Progress {
    Enter(p, Two).(retries := p.retries + 1)
  }

  /** Entering a phase sends a heartbeat. */
  function Entered(from: Progress, upto: Progress): nat {
    if |upto.path| < |from.path| then 0 else |upto.path| - |from.path|
  }

  // ---- Steering and notifications --------------------------------------------------------------------

  function Resume(s: TaskState): TaskState {
    if s.life.status == Stuck then s.(counters := map[], life := Move(s.life, OnIt))
    else if s.life.status == Waiting then s.(life := Move(s.life, OnIt))
    else s
  }

  predicate Cancels(messages: seq<Steering>) {
    Cancel in messages
  }

  /** Messages are taken up to the first cancellation. */
  function Steer(s: TaskState, messages: seq<Steering>): TaskState
    decreases |messages|
  {
    if messages == [] then s else
    match messages[0]
    case Cancel => s
    case Inject => Steer(Resume(s), messages[1..])
    case UpdateFocus => Steer(s, messages[1..])
  }

  // ---- A turn ----------------------------------------------------------------------------------------

  datatype Verdict = Continue | Finished | StuckOut | Failed

  const DISPATCH := "dispatch_subtask"

  function DispatchIds(calls: seq<ToolCall>): set<string> {
    set i | 0 <= i < |calls| && calls[i].name == DISPATCH :: calls[i].id
  }

  /** Results that succeeded and carry the id of a dispatch call: what the parent adds to its counter. */
  function CountByIds(calls: seq<ToolCall>, failed: seq<bool>, ids: set<string>): nat
    requires |failed| == |calls|
  {
    if calls == [] then 0 else
    (if calls[0].id in ids && !failed[0] then 1 else 0) + CountByIds(calls[1..], failed[1..], ids)
  }

  function ToolTurn(s: TaskState, calls: seq<ToolCall>, failed: seq<bool>, assessment: bool, clarification: bool): TaskState
    requires |failed| == |calls|
  {
    var p := ToolPhases(s.progress, assessment);
    var l := Beats(s.life, Entered(s.progress, p));
    s.(progress := p,
       life := Beats(if clarification then Move(l, Waiting) else l, 1),
       pending := s.pending + CountByIds(calls, failed, DispatchIds(calls)))
  }

  datatype GateOutcome = Proceed | Retry | StuckNow

  function GateOf(s: TaskState, found: Option<seq<IssueSignature>>): GateOutcome {
    if !s.gated || found.None? then Proceed
    else if IsStuck(s.counters, found.value) then StuckNow
    else Retry
  }

  function TextTurn(s: TaskState, found: Option<seq<IssueSignature>>): (TaskState, Verdict) {
    var p := TextPhases(s.progress);
    var l := Beats(s.life, Entered(s.progress, p));
    match GateOf(s, found)
    case StuckNow => (s.(progress := p, life := l, counters := After(s.counters, found.value)), StuckOut)
    case Retry =>
      (s.(progress := SentBack(p), life := Beats(l, 2), counters := After(s.counters, found.value)), Continue)
    case Proceed =>
      if s.pending > 0 then (s.(progress := p, life := Beats(Move(Beats(l, 1), Waiting), 1), waiting := true), Continue)
      else (s.(progress := p, life := Beats(l, 1)), Finished)
  }

  function Answered(s: TaskState): TaskState {
    if s.life.status == Pondering then s.(life := Move(s.life, OnIt)) else s
  }

  function Turn(s: TaskState, answer: Answer): (TaskState, Verdict)
    requires answer.ToolCalls? ==> |answer.failed| == |answer.calls|
  {
    var called := s.(calls := s.calls + 1);
    match answer
    case ProviderError => (called, Failed)
    case ToolCalls(calls, failed, assessment, clarification) =>
      (ToolTurn(Answered(called), calls, failed, assessment, clarification), Continue)
    case TextOnly(found) => TextTurn(Answered(called), found)
  }

  // ---- The loop ----------------------------------------------------------------------------------------

  function OutcomeOf(verdict: Verdict): Outcome {
    match verdict
    case Continue => Running
    case Finished => Completed
    case StuckOut => GaveUp
    case Failed => GaveUp
  }

  /** The last transition of the run, if the verdict ends it. */
  function Conclude(l: Life, verdict: Verdict): Life {
    match verdict
    case Continue => l
    case Finished => Move(l, Delivered)
    case StuckOut => Move(l, Stuck)
    case Failed => Move(l, Stuck)
  }

  predicate MustWait(s: TaskState) {
    s.life.status == Waiting && s.pending > 0
  }

  /** A round spent waiting for sub-tasks; it does not count as a turn. */
  function WaitRound(s: TaskState, overTime: bool): TaskState
    requires s.turnCount > 0
  {
    var s1 := if s.waiting && overTime then s.(life := Move(s.life, OnIt), waiting := false, pending := 0) else s;
    s1.(turnCount := s1.turnCount - 1)
  }

  /** The state at the head of a round, once the turn is counted. */
  function Counted(s: TaskState): TaskState {
    s.(turnCount := s.turnCount + 1)
  }

  /** The state in which a round decides what to do, after steering and notifications. */
  function Head(s: TaskState, input: Input): TaskState {
    var s1 := Steer(Counted(s), input.steering);
    s1.(pending := SaturatingSub(s1.pending, input.notes))
  }

  function Round(s: TaskState, input: Input): (TaskState, Outcome)
    requires input.answer.ToolCalls? ==> |input.answer.failed| == |input.answer.calls|
  {
    if Counted(s).turnCount > MAX_TURNS then (Counted(s), OutOfTurns)
    else if Cancels(input.steering) then
      var s1 := Steer(Counted(s), input.steering);
      (s1.(life := Move(s1.life, Axed)), Cancelled)
    else
      var head := Head(s, input);
      SteerKeepsTurns(Counted(s), input.steering);
      if MustWait(head) then (WaitRound(head, input.overTime), Running)
      else
        var (s1, verdict) := Turn(head, input.answer);
        (s1.(life := Conclude(s1.life, verdict)), OutcomeOf(verdict))
  }

  lemma {:induction false} SteerKeepsTurns(s: TaskState, messages: seq<Steering>)
    ensures Steer(s, messages).turnCount == s.turnCount && Steer(s, messages).pending == s.pending
    decreases |messages|
  {
    if messages != [] {
      match messages[0] {
        case Cancel =>
        case Inject => SteerKeepsTurns(Resume(s), messages[1..]);
        case UpdateFocus => SteerKeepsTurns(s, messages[1..]);
      }
    }
  }

  ghost predicate AllWellFormed(inputs: seq<Input>) {
    forall i :: 0 <= i < |inputs| ==> WellFormed(inputs[i])
  }

  function Begun(gated: bool): TaskState {
    TaskState(Life(Pondering, [Waking, Pondering]), Progress(Zero, 0, [Zero], 0), map[], gated, 0, 0, false, 0)
  }

  // ---- Phases ----------------------------------------------------------------------------------------

  /** The moves between phases: forward one at a time, and back from the last to implementation. */
  predicate PhaseStep(from: Phase, next: Phase) {
    (from == Zero && next == One) || (from == One && next == Two) || (from == Two && next == Three) || (from == Three && next == Two)
  }

  function Returns(path: seq<Phase>): nat {
    if |path| < 2 then 0 else
    Returns(path[..|path| - 1]) + (if path[|path| - 2] == Three && path[|path| - 1] == Two then 1 else 0)
  }

  /** The phases entered so far lead to the current one by valid moves, and each return was a gate failure retried. */
  ghost predicate PathOk(p: Progress) {
    && p.path != [] && p.path[0] == Zero && p.path[|p.path| - 1] == p.phase
    && (forall i :: 0 < i < |p.path| ==> PhaseStep(p.path[i - 1], p.path[i]))
    && Returns(p.path) == p.retries
  }

  lemma ReturnsSnoc(path: seq<Phase>, next: Phase)
    requires path != []
    ensures Returns(path + [next]) == Returns(path) + (if path[|path| - 1] == Three && next == Two then 1 else 0)
  {
    assert (path + [next])[..|path|] == path;
  }

  lemma EnterKeepsPath(p: Progress, next: Phase)
    requires PathOk(p) && PhaseStep(p.phase, next)
    ensures PathOk(if p.phase == Three then SentBack(p) else Enter(p, next))
  {
    var path := p.path + [next];
    ReturnsSnoc(p.path, next);
    assert path[0] == p.path[0] && path[|path| - 1] == next;
    forall i | 0 < i < |path|
      ensures PhaseStep(path[i - 1], path[i])
    {
      assert i < |p.path| ==> path[i - 1] == p.path[i - 1] && path[i] == p.path[i];
    }
  }

  lemma ToolPhasesKeepPath(p: Progress, assessment: bool)
    requires PathOk(p)
    ensures PathOk(ToolPhases(p, assessment)) && ToolPhases(p, assessment).phase == if p.phase == Three then Three else Two
  {
    if p.phase == Zero {
      EnterKeepsPath(p, One);
      EnterKeepsPath(Enter(p, One), Two);
    } else if p.phase == One {
      EnterKeepsPath(p, Two);
    }
  }

  lemma TextPhasesKeepPath(p: Progress)
    requires PathOk(p)
    ensures PathOk(TextPhases(p)) && TextPhases(p).phase == Three
    ensures PathOk(SentBack(TextPhases(p))) && SentBack(TextPhases(p)).phase == Two
  {
    match p.phase {
      case Zero =>
        EnterKeepsPath(p, One);
        EnterKeepsPath(Enter(p, One), Two);
        EnterKeepsPath(Enter(Enter(p, One), Two), Three);
      case One =>
        EnterKeepsPath(p, Two);
        EnterKeepsPath(Enter(p, Two), Three);
      case Two =>
        EnterKeepsPath(p, Three);
      case Three =>
    }
    EnterKeepsPath(TextPhases(p), Two);
  }

  // ---- Status ----------------------------------------------------------------------------------------

  predicate IsLive(status: TaskStatus) {
    status == Pondering || status == OnIt || status == Waiting
  }

  predicate NoneSettled(sent: seq<TaskStatus>) {
    forall i :: 0 <= i < |sent| ==> !sent[i].IsSettled()
  }

  /** While a Task runs it is live, and no heartbeat has told otherwise. */
  ghost predicate LifeOk(l: Life) {
    IsLive(l.status) && NoneSettled(l.sent)
  }

  lemma BeatsKeepLife(l: Life, n: nat)
    requires LifeOk(l)
    ensures LifeOk(Beats(l, n)) && Beats(l, n).status == l.status
  {
  }

  lemma MoveKeepsLife(l: Life, next: TaskStatus)
    requires LifeOk(l) && IsLive(next)
    ensures LifeOk(Move(l, next))
  {
  }

  /** Steering touches nothing but the status, and only takes a waiting Task back to work. A live Task is never stuck. */
  lemma {:induction false} SteerKeeps(s: TaskState, messages: seq<Steering>)
    requires LifeOk(s.life)
    ensures var s1 := Steer(s, messages);
            && LifeOk(s1.life) && s1 == s.(life := s1.life)
            && (s1.life.status == s.life.status || (s.life.status == Waiting && s1.life.status == OnIt))
            && (Inject !in messages ==> s1 == s)
    decreases |messages|
  {
    if messages != [] {
      match messages[0] {
        case Cancel =>
        case Inject =>
          MoveKeepsLife(s.life, OnIt);
          SteerKeeps(Resume(s), messages[1..]);
        case UpdateFocus =>
          SteerKeeps(s, messages[1..]);
      }
    }
  }

  /** What a turn leaves of the status, by its verdict. */
  lemma TurnStatus(s: TaskState, answer: Answer)
    requires LifeOk(s.life) && (answer.ToolCalls? ==> |answer.failed| == |answer.calls|)
    ensures var (s1, verdict) := Turn(s, answer);
            && LifeOk(s1.life)
            && (!answer.ProviderError? ==> s1.life.status != Pondering)
            && (answer.ProviderError? ==> s1.life.status == s.life.status)
            && (s.life.status == Waiting ==> s1.life.status == Waiting)
            && (verdict.Finished? || verdict.StuckOut? ==> s1.life.status == if s.life.status == Waiting then Waiting else OnIt)
  {
    var a := Answered(s.(calls := s.calls + 1));
    MoveKeepsLife(s.life, OnIt);
    match answer {
      case ProviderError =>
      case ToolCalls(_, _, assessment, _) =>
        var l := Beats(a.life, Entered(a.progress, ToolPhases(a.progress, assessment)));
        BeatsKeepLife(a.life, Entered(a.progress, ToolPhases(a.progress, assessment)));
        MoveKeepsLife(l, Waiting);
        BeatsKeepLife(l, 1);
        BeatsKeepLife(Move(l, Waiting), 1);
      case TextOnly(_) =>
        var l := Beats(a.life, Entered(a.progress, TextPhases(a.progress)));
        BeatsKeepLife(a.life, Entered(a.progress, TextPhases(a.progress)));
        BeatsKeepLife(l, 1);
        BeatsKeepLife(l, 2);
        MoveKeepsLife(Beats(l, 1), Waiting);
        BeatsKeepLife(Move(Beats(l, 1), Waiting), 1);
    }
  }

  lemma ToolTurnProgress(s: TaskState, calls: seq<ToolCall>, failed: seq<bool>, assessment: bool, clarification: bool)
    requires PathOk(s.progress) && |failed| == |calls|
    ensures var s1 := ToolTurn(s, calls, failed, assessment, clarification);
            && PathOk(s1.progress) && (s1.progress.phase == Two || s1.progress.phase == Three)
            && s1.calls == s.calls && s1.gated == s.gated && s1.turnCount == s.turnCount && s1.counters == s.counters
  {
    ToolPhasesKeepPath(s.progress, assessment);
  }

  lemma TextTurnProgress(s: TaskState, found: Option<seq<IssueSignature>>)
    requires PathOk(s.progress)
    ensures var (s1, verdict) := TextTurn(s, found);
            && PathOk(s1.progress) && (s1.progress.phase == Two || s1.progress.phase == Three)
            && s1.calls == s.calls && s1.gated == s.gated && s1.turnCount == s.turnCount
            && (verdict.Finished? ==> s1.progress.phase == Three && s1.pending == 0 && (s.gated ==> found.None?))
            && !verdict.Failed?
  {
    TextPhasesKeepPath(s.progress);
  }

  lemma TextTurnCounters(s: TaskState, found: Option<seq<IssueSignature>>)
    requires UnderLimit(s.counters)
    ensures var (s1, verdict) := TextTurn(s, found);
            && (verdict.Continue? ==> UnderLimit(s1.counters))
            && (verdict.StuckOut? <==> s.gated && found.Some? && IsStuck(s.counters, found.value))
  {
    if found.Some? {
      StuckIffThreeStrikes(s.counters, found.value);
    }
  }

  /** What a turn does to phases, counts and counters, by its verdict. */
  ghost predicate TurnOk(s: TaskState, answer: Answer, s1: TaskState, verdict: Verdict) {
    && PathOk(s1.progress)
    && s1.calls == s.calls + 1 && s1.gated == s.gated && s1.turnCount == s.turnCount
    && (verdict.Continue? ==> UnderLimit(s1.counters) && (s1.progress.phase == Two || s1.progress.phase == Three))
    && (verdict.Finished? ==> s1.progress.phase == Three && s1.pending == 0 && answer.TextOnly? && (s.gated ==> answer.found.None?))
    && (verdict.StuckOut? <==> answer.TextOnly? && s.gated && answer.found.Some? && IsStuck(s.counters, answer.found.value))
    && (verdict.Failed? <==> answer.ProviderError?)
  }

  lemma AnsweredKeeps(s: TaskState)
    ensures var a := Answered(s.(calls := s.calls + 1));
            && a.progress == s.progress && a.counters == s.counters && a.gated == s.gated
            && a.turnCount == s.turnCount && a.calls == s.calls + 1
  {
  }

  lemma ToolAnswerProgress(s: TaskState, answer: Answer)
    requires PathOk(s.progress) && UnderLimit(s.counters) && answer.ToolCalls? && |answer.failed| == |answer.calls|
    ensures TurnOk(s, answer, Turn(s, answer).0, Turn(s, answer).1)
  {
    AnsweredKeeps(s);
    ToolTurnProgress(Answered(s.(calls := s.calls + 1)), answer.calls, answer.failed, answer.assessment, answer.clarification);
  }

  lemma TextAnswerProgress(s: TaskState, answer: Answer)
    requires PathOk(s.progress) && UnderLimit(s.counters) && answer.TextOnly?
    ensures TurnOk(s, answer, Turn(s, answer).0, Turn(s, answer).1)
  {
    AnsweredKeeps(s);
    TextTurnProgress(Answered(s.(calls := s.calls + 1)), answer.found);
    TextTurnCounters(Answered(s.(calls := s.calls + 1)), answer.found);
  }

  lemma TurnProgress(s: TaskState, answer: Answer)
    requires PathOk(s.progress) && UnderLimit(s.counters) && (answer.ToolCalls? ==> |answer.failed| == |answer.calls|)
    ensures TurnOk(s, answer, Turn(s, answer).0, Turn(s, answer).1)
  {
    match answer {
      case ProviderError =>
      case ToolCalls(_, _, _, _) => ToolAnswerProgress(s, answer);
      case TextOnly(_) => TextAnswerProgress(s, answer);
    }
  }

  // ---- One round ---------------------------------------------------------------------------------

  /** What holds at the head of the loop, whatever the environment has done so far. */
  ghost predicate HeadInv(s: TaskState) {
    && LifeOk(s.life) && PathOk(s.progress) && UnderLimit(s.counters)
    && s.calls == s.turnCount <= MAX_TURNS
    && (if s.calls == 0 then s.progress.phase == Zero && s.life.status == Pondering
        else (s.progress.phase == Two || s.progress.phase == Three) && s.life.status != Pondering)
  }

  /** How a run ends: its last round began in `head`, after steering and notifications. */
  ghost predicate EndsWell(head: TaskState, input: Input, s: TaskState, outcome: Outcome) {
    match outcome
    case Running => HeadInv(s)
    case OutOfTurns => s.life == head.life && s.calls == MAX_TURNS
    case Cancelled => s.life.status == Axed
    case Completed =>
      && s.progress.phase == Three && s.pending == 0 && input.answer.TextOnly? && (s.gated ==> input.answer.found.None?)
      && s.life.status == if head.life.status == Waiting then Waiting else Delivered
    case GaveUp =>
      if input.answer.ProviderError?
      then s.life.status == if head.life.status == OnIt then Stuck else head.life.status
      else && input.answer.TextOnly? && s.gated && input.answer.found.Some?
           && s.life.status == if head.life.status == Waiting then Waiting else Stuck
  }

  /** The state a round turns on. */
  ghost function TurningPoint(s: TaskState, input: Input): TaskState {
    if s.turnCount >= MAX_TURNS then s else if Cancels(input.steering) then Steer(Counted(s), input.steering) else Head(s, input)
  }

  lemma TurnEnds(head: TaskState, input: Input)
    requires LifeOk(head.life) && PathOk(head.progress) && UnderLimit(head.counters)
    requires head.calls + 1 == head.turnCount <= MAX_TURNS && WellFormed(input) && !MustWait(head)
    ensures var (s1, verdict) := Turn(head, input.answer);
            EndsWell(head, input, s1.(life := Conclude(s1.life, verdict)), OutcomeOf(verdict))
  {
    TurnStatus(head, input.answer);
    TurnProgress(head, input.answer);
  }

  /** One round from the head of the loop either comes back to it or ends the run in one of five ways. */
  lemma RoundEnds(s: TaskState, input: Input)
    requires HeadInv(s) && WellFormed(input)
    ensures EndsWell(TurningPoint(s, input), input, Round(s, input).0, Round(s, input).1)
    ensures Round(s, input).0.calls <= MAX_TURNS && PathOk(Round(s, input).0.progress)
  {
    SteerKeeps(Counted(s), input.steering);
    if s.turnCount < MAX_TURNS && !Cancels(input.steering) {
      var head := Head(s, input);
      if MustWait(head) {
        MoveKeepsLife(head.life, OnIt);
      } else {
        TurnEnds(head, input);
        TurnProgress(head, input.answer);
      }
    }
  }

  // ---- Whole runs ------------------------------------------------------------------------------------

  /** The state and outcome once the inputs are used up or the run has ended. */
  ghost function Loop(s: TaskState, inputs: seq<Input>): (TaskState, Outcome)
    requires AllWellFormed(inputs)
    decreases |inputs|
  {
    if inputs == [] then (s, Running)
    else if Round(s, inputs[0]).1.Running? then Loop(Round(s, inputs[0]).0, inputs[1..])
    else Round(s, inputs[0])
  }

  /** The state the last round turned on, and what it was given. */
  ghost function LastRound(s: TaskState, inputs: seq<Input>): (TaskState, Input)
    requires AllWellFormed(inputs) && inputs != []
    decreases |inputs|
  {
    if |inputs| == 1 || !Round(s, inputs[0]).1.Running? then (TurningPoint(s, inputs[0]), inputs[0])
    else LastRound(Round(s, inputs[0]).0, inputs[1..])
  }

  lemma {:induction false} LoopEnds(s: TaskState, inputs: seq<Input>)
    requires HeadInv(s) && AllWellFormed(inputs)
    ensures Loop(s, inputs).0.calls <= MAX_TURNS && PathOk(Loop(s, inputs).0.progress)
    ensures inputs != [] ==>
              EndsWell(LastRound(s, inputs).0, LastRound(s, inputs).1, Loop(s, inputs).0, Loop(s, inputs).1)
    decreases |inputs|
  {
    if inputs != [] {
      RoundEnds(s, inputs[0]);
      if Round(s, inputs[0]).1.Running? {
        LoopEnds(Round(s, inputs[0]).0, inputs[1..]);
      }
    }
  }

  /**
   * Every run from the start, in any environment, makes at most fifty provider calls, moves between
   * phases only as allowed, with one return for each gate failure it retries, and ends well:
   * completed only in the last phase, with no sub-task counted as pending and the gate absent or
   * passed in that turn, and delivered unless it was waiting when its last turn began.
   */
  lemma RunsEndWell(gated: bool, inputs: seq<Input>)
    requires AllWellFormed(inputs) && inputs != []
    ensures var (s, outcome) := Loop(Begun(gated), inputs);
            var (head, input) := LastRound(Begun(gated), inputs);
            s.calls <= 50 && PathOk(s.progress) && EndsWell(head, input, s, outcome)
  {
    assert HeadInv(Begun(gated));
    LoopEnds(Begun(gated), inputs);
  }

  /** Waiting is left only by an injected message or by running over time; a notification does not end it. */
  ghost predicate Undisturbed(input: Input) {
    Inject !in input.steering && !input.overTime
  }

  lemma RoundKeepsWaiting(s: TaskState, input: Input)
    requires HeadInv(s) && WellFormed(input) && Undisturbed(input) && s.life.status == Waiting
    ensures var (s1, outcome) := Round(s, input);
            s1.life.status == if outcome.Cancelled? then Axed else Waiting
  {
    SteerKeeps(Counted(s), input.steering);
    if s.turnCount < MAX_TURNS && !Cancels(input.steering) && !MustWait(Head(s, input)) {
      TurnStatus(Head(s, input), input.answer);
    }
  }

  /**
   * A Task that waits and gets no message never reaches a settled status unless it is cancelled. When
   * notifications reach it ahead of the message the Orchestrator injects into parents it knows to be
   * waiting, and it completes on them, it completes as Waiting and its files stay taken.
   */
  lemma {:induction false} WaitingNeverDelivers(s: TaskState, inputs: seq<Input>)
    requires HeadInv(s) && s.life.status == Waiting && AllWellFormed(inputs)
    requires forall i :: 0 <= i < |inputs| ==> Undisturbed(inputs[i])
    ensures var (s1, outcome) := Loop(s, inputs);
            s1.life.status == if outcome.Cancelled? then Axed else Waiting
    decreases |inputs|
  {
    if inputs != [] {
      RoundKeepsWaiting(s, inputs[0]);
      RoundEnds(s, inputs[0]);
      if Round(s, inputs[0]).1.Running? {
        WaitingNeverDelivers(Round(s, inputs[0]).0, inputs[1..]);
      }
    }
  }

  lemma LoopNext(s: TaskState, input: Input, rest: seq<Input>, next: TaskState)
    requires WellFormed(input) && AllWellFormed(rest) && Round(s, input) == (next, Running)
    ensures AllWellFormed([input] + rest) && Loop(s, [input] + rest) == Loop(next, rest)
  {
    assert ([input] + rest)[1..] == rest;
  }

  lemma TextWhilePending(s: TaskState) returns (s1: TaskState)
    requires s.turnCount < MAX_TURNS && s.life.status == OnIt && s.pending == 1 && !s.gated
    ensures Round(s, Input([], 0, false, TextOnly(None))) == (s1, Running)
    ensures s1.life.status == Waiting && s1.pending == 1 && s1.turnCount == s.turnCount + 1 && !s1.gated
  {
    s1 := Round(s, Input([], 0, false, TextOnly(None))).0;
  }

  lemma TextAfterNote(s: TaskState)
    requires s.turnCount < MAX_TURNS && s.life.status == Waiting && s.pending == 1 && !s.gated
    ensures var (s1, outcome) := Round(s, Input([], 1, false, TextOnly(None)));
            outcome == Completed && s1.life.status == Waiting
  {
  }

  lemma FirstDispatch(id: string) returns (s1: TaskState)
    ensures Round(Begun(false), Input([], 0, false, ToolCalls([ToolCall(id, DISPATCH, "")], [false], false, false))) == (s1, Running)
    ensures s1.life.status == OnIt && s1.pending == 1 && s1.turnCount == 1 && !s1.gated
  {
    s1 := Round(Begun(false), Input([], 0, false, ToolCalls([ToolCall(id, DISPATCH, "")], [false], false, false))).0;
    var calls := [ToolCall(id, DISPATCH, "")];
    assert calls[0].id in DispatchIds(calls) && calls[1..] == [] && [false][1..] == [];
    assert CountByIds(calls, [false], DispatchIds(calls)) == 1 + CountByIds([], [], DispatchIds(calls));
  }

  /** The shortest such run: a parent dispatches one sub-task, waits, is notified of its end, and finishes. */
  lemma WaitedParentCompletesAsWaiting(id: string)
    ensures var dispatch := ToolCalls([ToolCall(id, DISPATCH, "")], [false], false, false);
            var inputs := [Input([], 0, false, dispatch), Input([], 0, false, TextOnly(None)), Input([], 1, false, TextOnly(None))];
            AllWellFormed(inputs) && Loop(Begun(false), inputs).1 == Completed && Loop(Begun(false), inputs).0.life.status == Waiting
  {
    var i1 := Input([], 0, false, ToolCalls([ToolCall(id, DISPATCH, "")], [false], false, false));
    var i2, i3 := Input([], 0, false, TextOnly(None)), Input([], 1, false, TextOnly(None));
    var s1 := FirstDispatch(id);
    var s2 := TextWhilePending(s1);
    TextAfterNote(s2);
    LoopNext(Begun(false), i1, [i2, i3], s1);
    LoopNext(s1, i2, [i3], s2);
    assert [i1] + [i2, i3] == [i1, i2, i3] && [i2] + [i3] == [i2, i3];
  }

  // ---- Retries -----------------------------------------------------------------------------------------

  /** The round consults the gate, which finds something but no third strike. */
  predicate RetriesIn(s: TaskState, input: Input) {
    && s.turnCount < MAX_TURNS && !Cancels(input.steering) && !MustWait(Head(s, input))
    && input.answer.TextOnly? && s.gated && input.answer.found.Some? && !IsStuck(s.counters, input.answer.found.value)
  }

  /** What the gate found in the rounds of the run that were retried. */
  ghost function GateRounds(s: TaskState, inputs: seq<Input>): seq<seq<IssueSignature>>
    requires AllWellFormed(inputs)
    decreases |inputs|
  {
    if inputs == [] then [] else
    (if RetriesIn(s, inputs[0]) then [inputs[0].answer.found.value] else []) +
    (if Round(s, inputs[0]).1.Running? then GateRounds(Round(s, inputs[0]).0, inputs[1..]) else [])
  }

  lemma TextPhasesKeepRetries(p: Progress, assessment: bool)
    ensures TextPhases(p).retries == p.retries && ToolPhases(p, assessment).retries == p.retries
    ensures SentBack(TextPhases(p)).retries == p.retries + 1
  {
  }

  lemma TurnRetries(s: TaskState, answer: Answer)
    requires answer.ToolCalls? ==> |answer.failed| == |answer.calls|
    ensures var (s1, verdict) := Turn(s, answer);
            if answer.TextOnly? && s.gated && answer.found.Some? && !IsStuck(s.counters, answer.found.value)
            then verdict.Continue? && s1.progress.retries == s.progress.retries + 1 && s1.counters == After(s.counters, answer.found.value)
            else s1.progress.retries == s.progress.retries && (verdict.Continue? ==> s1.counters == s.counters)
  {
    match answer {
      case ProviderError =>
      case ToolCalls(_, _, assessment, _) => TextPhasesKeepRetries(s.progress, assessment);
      case TextOnly(_) => TextPhasesKeepRetries(s.progress, false);
    }
  }

  lemma RoundRetries(s: TaskState, input: Input)
    requires HeadInv(s) && WellFormed(input)
    ensures var (s1, outcome) := Round(s, input);
            if RetriesIn(s, input)
            then outcome.Running? && s1.progress.retries == s.progress.retries + 1 && s1.counters == After(s.counters, input.answer.found.value)
            else s1.progress.retries == s.progress.retries && (outcome.Running? ==> s1.counters == s.counters)
  {
    SteerKeeps(Counted(s), input.steering);
    if s.turnCount < MAX_TURNS && !Cancels(input.steering) && !MustWait(Head(s, input)) {
      TurnRetries(Head(s, input), input.answer);
    }
  }

  /** The retries of a run are its gate rounds, and none of them was a third strike. */
  lemma {:induction false} RetriesAreGateRounds(s: TaskState, inputs: seq<Input>)
    requires HeadInv(s) && AllWellFormed(inputs)
    ensures Loop(s, inputs).0.progress.retries == s.progress.retries + |GateRounds(s, inputs)|
    ensures NeverStuck(s.counters, GateRounds(s, inputs))
    ensures forall i :: 0 <= i < |GateRounds(s, inputs)| ==> GateRounds(s, inputs)[i] != []
    decreases |inputs|
  {
    if inputs != [] {
      RoundRetries(s, inputs[0]);
      RoundEnds(s, inputs[0]);
      if Round(s, inputs[0]).1.Running? {
        RetriesAreGateRounds(Round(s, inputs[0]).0, inputs[1..]);
        var rest := GateRounds(Round(s, inputs[0]).0, inputs[1..]);
        if RetriesIn(s, inputs[0]) {
          assert ([inputs[0].answer.found.value] + rest)[1..] == rest;
        } else {
          assert [] + rest == rest;
        }
      }
    }
  }

  /** A run whose gate reports issues of `kinds` only is retried at most twice for each of them. */
  lemma RetriesBounded(gated: bool, inputs: seq<Input>, kinds: set<IssueSignature>)
    requires AllWellFormed(inputs)
    requires forall i, k :: 0 <= i < |GateRounds(Begun(gated), inputs)| && k in GateRounds(Begun(gated), inputs)[i] ==> k in kinds
    ensures Loop(Begun(gated), inputs).0.progress.retries <= 2 * |kinds|
  {
    var rounds := GateRounds(Begun(gated), inputs);
    assert HeadInv(Begun(gated));
    RetriesAreGateRounds(Begun(gated), inputs);
    IssuesOfRounds(rounds, kinds);
    RetriesAreBounded(rounds, kinds);
  }

  lemma {:induction false} IssuesOfRounds(rounds: seq<seq<IssueSignature>>, kinds: set<IssueSignature>)
    requires forall i, k :: 0 <= i < |rounds| && k in rounds[i] ==> k in kinds
    ensures forall k :: k in AllIssues(rounds) ==> k in kinds
    decreases |rounds|
  {
    if rounds != [] {
      IssuesOfRounds(rounds[1..], kinds);
    }
  }

  // ---- Heartbeats and the registry ---------------------------------------------------------------------

  /** Once a status is settled, only settled ones follow. */
  ghost predicate OneWay(beats: seq<TaskStatus>) {
    forall i, j :: 0 <= i < j < |beats| && beats[i].IsSettled() ==> beats[j].IsSettled()
  }

  lemma RoundSends(s: TaskState, input: Input)
    requires HeadInv(s) && WellFormed(input)
    ensures OneWay(Round(s, input).0.life.sent)
  {
    SteerKeeps(Counted(s), input.steering);
    if s.turnCount < MAX_TURNS && !Cancels(input.steering) && !MustWait(Head(s, input)) {
      TurnStatus(Head(s, input), input.answer);
    }
  }

  /** No run reports work after it has reported an end: its heartbeats never revive its registry entry. */
  lemma {:induction false} HeartbeatsAreOneWay(s: TaskState, inputs: seq<Input>)
    requires HeadInv(s) && AllWellFormed(inputs)
    ensures OneWay(Loop(s, inputs).0.life.sent)
    decreases |inputs|
  {
    if inputs != [] {
      RoundSends(s, inputs[0]);
      RoundEnds(s, inputs[0]);
      if Round(s, inputs[0]).1.Running? {
        HeartbeatsAreOneWay(Round(s, inputs[0]).0, inputs[1..]);
      }
    }
  }

  function BeatsOf(ops: seq<TaskRegistry.Op>, id: TaskRegistry.TaskId): seq<TaskStatus>
    decreases |ops|
  {
    if ops == [] then [] else
    (if ops[0].Heartbeat? && ops[0].id == id then [ops[0].status] else []) + BeatsOf(ops[1..], id)
  }

  lemma TailIsOneWay(beat: TaskStatus, rest: seq<TaskStatus>)
    requires OneWay([beat] + rest)
    ensures OneWay(rest) && (beat.IsSettled() ==> forall i :: 0 <= i < |rest| ==> rest[i].IsSettled())
  {
    var all := [beat] + rest;
    forall i, j | 0 <= i < j < |rest| && rest[i].IsSettled() ensures rest[j].IsSettled() {
      assert all[i + 1] == rest[i] && all[j + 1] == rest[j];
    }
    forall i | 0 <= i < |rest| && beat.IsSettled() ensures rest[i].IsSettled() {
      assert all[0] == beat && all[i + 1] == rest[i];
    }
  }

  /** A settled entry only hears settled statuses from now on. */
  ghost predicate SettledStaysSettled(entries: TaskRegistry.Entries, ops: seq<TaskRegistry.Op>) {
    forall id :: id in entries && entries[id].status.IsSettled() ==>
      forall i :: 0 <= i < |BeatsOf(ops, id)| ==> BeatsOf(ops, id)[i].IsSettled()
  }

  lemma {:induction false} OneWayNeverRevives(entries: TaskRegistry.Entries, ops: seq<TaskRegistry.Op>)
    requires forall id :: OneWay(BeatsOf(ops, id))
    requires SettledStaysSettled(entries, ops)
    ensures TaskRegistry.NoClashingRevival(entries, ops)
    decreases |ops|
  {
    if ops != [] {
      var op, rest, next := ops[0], ops[1..], TaskRegistry.ApplyOp(entries, ops[0]);
      forall id
        ensures OneWay(BeatsOf(rest, id))
        ensures id in next && next[id].status.IsSettled() ==>
                  forall i :: 0 <= i < |BeatsOf(rest, id)| ==> BeatsOf(rest, id)[i].IsSettled()
      {
        var beats := BeatsOf(rest, id);
        if op.Heartbeat? && op.id == id {
          assert BeatsOf(ops, id) == [op.status] + beats;
          TailIsOneWay(op.status, beats);
        } else {
          assert BeatsOf(ops, id) == beats;
        }
      }
      if op.Heartbeat? && op.id in entries && entries[op.id].status.IsSettled() {
        assert BeatsOf(ops, op.id)[0] == op.status;
      }
      OneWayNeverRevives(next, rest);
    }
  }

  /** Heartbeats some run has sent, up to where it has got. */
  ghost predicate FromARun(beats: seq<TaskStatus>) {
    exists gated, inputs: seq<Input> :: AllWellFormed(inputs) && beats <= Loop(Begun(gated), inputs).0.life.sent
  }

  lemma RunsAreOneWay(beats: seq<TaskStatus>)
    requires FromARun(beats)
    ensures OneWay(beats)
  {
    var gated, inputs: seq<Input> :| AllWellFormed(inputs) && beats <= Loop(Begun(gated), inputs).0.life.sent;
    var sent := Loop(Begun(gated), inputs).0.life.sent;
    assert HeadInv(Begun(gated));
    HeartbeatsAreOneWay(Begun(gated), inputs);
    assert forall i :: 0 <= i < |beats| ==> beats[i] == sent[i];
  }

  /** A fleet of Tasks whose heartbeats all come from runs never has two active Tasks on one file. */
  lemma FleetNeverSharesFiles(ops: seq<TaskRegistry.Op>)
    requires TaskRegistry.FreshIds(map[], ops)
    requires forall id :: FromARun(BeatsOf(ops, id))
    ensures TaskRegistry.ExclusiveThroughout(map[], ops)
  {
    forall id
      ensures OneWay(BeatsOf(ops, id))
    {
      RunsAreOneWay(BeatsOf(ops, id));
    }
    OneWayNeverRevives(map[], ops);
    TaskRegistry.ActiveTasksNeverShareFiles(map[], ops);
  }

  // ---- What the parent adds to its counter ------------------------------------------------------------

  /** The dispatch calls of a batch that succeeded. */
  function Dispatched(calls: seq<ToolCall>, failed: seq<bool>): nat
    requires |failed| == |calls|
  {
    if calls == [] then 0 else
    (if calls[0].name == "dispatch_subtask" && !failed[0] then 1 else 0) + Dispatched(calls[1..], failed[1..])
  }

  /** Some other call of the batch succeeded under one of these ids. */
  predicate OtherBears(calls: seq<ToolCall>, failed: seq<bool>, ids: set<string>)
    requires |failed| == |calls|
  {
    exists i :: 0 <= i < |calls| && calls[i].name != DISPATCH && !failed[i] && calls[i].id in ids
  }

  /** Some other call of the batch succeeded under the id of a dispatch call. */
  predicate SharesId(calls: seq<ToolCall>, failed: seq<bool>)
    requires |failed| == |calls|
  {
    exists i, j :: 0 <= i < |calls| && 0 <= j < |calls| && calls[i].id == calls[j].id &&
                   calls[i].name != "dispatch_subtask" && !failed[i] && calls[j].name == "dispatch_subtask"
  }

  lemma {:induction false} CountAgainstIds(calls: seq<ToolCall>, failed: seq<bool>, ids: set<string>)
    requires |failed| == |calls| && forall i :: 0 <= i < |calls| && calls[i].name == DISPATCH ==> calls[i].id in ids
    ensures Dispatched(calls, failed) <= CountByIds(calls, failed, ids)
    ensures CountByIds(calls, failed, ids) == Dispatched(calls, failed) <==> !OtherBears(calls, failed, ids)
    decreases |calls|
  {
    if calls != [] {
      CountAgainstIds(calls[1..], failed[1..], ids);
      if i :| 0 <= i < |calls[1..]| && calls[1..][i].name != DISPATCH && !failed[1..][i] && calls[1..][i].id in ids {
        assert calls[i + 1].name != DISPATCH && !failed[i + 1];
      }
      if i :| 0 <= i < |calls| && calls[i].name != DISPATCH && !failed[i] && calls[i].id in ids {
        assert i > 0 ==> calls[1..][i - 1] == calls[i] && failed[1..][i - 1] == failed[i];
      }
    }
  }

  /** The counter grows by the sub-tasks really requested exactly when no other successful call shares an id with a dispatch. */
  lemma CountIsExactIff(calls: seq<ToolCall>, failed: seq<bool>)
    requires |failed| == |calls|
    ensures Dispatched(calls, failed) <= CountByIds(calls, failed, DispatchIds(calls))
    ensures CountByIds(calls, failed, DispatchIds(calls)) == Dispatched(calls, failed) <==> !SharesId(calls, failed)
  {
    var ids := DispatchIds(calls);
    CountAgainstIds(calls, failed, ids);
    if i :| 0 <= i < |calls| && calls[i].name != DISPATCH && !failed[i] && calls[i].id in ids {
      var j :| 0 <= j < |calls| && calls[j].name == DISPATCH && calls[j].id == calls[i].id;
      assert SharesId(calls, failed);
    }
    if i, j :| 0 <= i < |calls| && 0 <= j < |calls| && calls[i].id == calls[j].id &&
               calls[i].name != "dispatch_subtask" && !failed[i] && calls[j].name == "dispatch_subtask" {
      assert calls[i].id in ids;
    }
  }
}
