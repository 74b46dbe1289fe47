/**
 * Parents, children and the Orchestrator as one system of interleaved atomic steps.
 *
 * A step is one critical section of the program: a push or take on a mutex-guarded queue, or a
 * change of state only its own thread can see. `failed` and `dropped` are bookkeeping of the model:
 * they count what the program loses and never feed back into a step.
 */
module SubtaskProtocol {
  import opened Wrappers
  import opened Lifecycle
  import opened TaskRegistry

  const NOTIFICATION_CAP: nat := 10

  datatype Request = Request(parent: TaskId, description: string)

  datatype Note = Completed(child: TaskId) | Failed(child: TaskId)

  /** What the Orchestrator owns or shares: the registry, the id counter and the two kinds of queue. */
  datatype Shared = Shared(
    entries: Entries,
    counter: nat,
    queue: seq<Request>,
    notes: map<TaskId, seq<Note>>)

  datatype Mode = AtHead | InTurn | Finished | Aborted

  /** A running Task: its own counter, and requests its current tool batch has pushed but not counted. */
  datatype Parent = Parent(
    count: nat,
    uncounted: nat,
    mode: Mode,
    timedOut: bool,
    failed: nat,
    dropped: nat,
    overcounted: nat)
  {
    /** What the counter holds that no notification will ever take away. */
    function Unpaid(): nat {
      failed + dropped + overcounted
    }
  }

  /** Where `check_subtask_completions` stands: children still to look at, children already reported. */
  datatype Sweep = Idle | Sweeping(parent: TaskId, todo: set<TaskId>, reported: set<TaskId>)

  /** `hand` holds the requests `drain_subtask_requests` took off the queue and has not dispatched yet. */
  datatype Sys = Sys(shared: Shared, hand: seq<Request>, sweep: Sweep, parents: map<TaskId, Parent>)

  const NewParent := Parent(0, 0, AtHead, false, 0, 0, 0)

  const Init := Sys(Shared(map[], 0, [], map[]), [], Idle, map[])

  // ---- Orchestrator operations on the shared state ----------------------------------------

  /** The next id is spent even when no workspace can be made; a parked Task gets no queue. */
  function DispatchTask(sh: Shared, files: seq<Path>, parent: Option<TaskId>, workspaceOk: bool): Shared {
    var entry := NewEntry(sh.entries, files, parent);
    if entry.dispatched && !workspaceOk then
      sh.(counter := sh.counter + 1)
    else
      sh.(entries := sh.entries[sh.counter := entry],
          counter := sh.counter + 1,
          notes := if entry.dispatched then sh.notes[sh.counter := []] else sh.notes)
  }

  predicate Starts(sh: Shared, files: seq<Path>, workspaceOk: bool) {
    workspaceOk && !HasConflictWith(sh.entries, files)
  }

  function RecordChild(sh: Shared, parent: TaskId, child: TaskId): Shared {
    var withQueue := if parent in sh.notes then sh else sh.(notes := sh.notes[parent := []]);
    if parent in withQueue.entries then
      withQueue.(entries := withQueue.entries[parent := withQueue.entries[parent].(
        pending := withQueue.entries[parent].pending + {child})])
    else
      withQueue
  }

  /** Dispatches one drained request; the bool says whether a workspace could be made. */
  function DispatchChild(sh: Shared, r: Request, workspaceOk: bool): Shared {
    var sh' := DispatchTask(sh, [], Some(r.parent), workspaceOk);
    if workspaceOk then RecordChild(sh', r.parent, sh.counter) else sh'
  }

  predicate IsReportable(entries: Entries, child: TaskId) {
    child in entries && entries[child].status.IsSettled()
  }

  function NoteFor(entries: Entries, child: TaskId): Note
    requires IsReportable(entries, child)
  {
    if entries[child].status.Delivered? || entries[child].status.Archived? then Completed(child) else Failed(child)
  }

  /** What a note says: a completed child has delivered or been archived, a failed one is stuck or cancelled. */
  predicate Tells(note: Note, child: TaskId, status: TaskStatus) {
    && note.child == child
    && (note.Completed? <==> status == Delivered || status == Archived)
    && (note.Failed? <==> status == Stuck || status == Axed)
  }

  lemma NotesTell(entries: Entries, child: TaskId)
    requires IsReportable(entries, child)
    ensures Tells(NoteFor(entries, child), child, entries[child].status)
  {
  }

  predicate HasRoom(sh: Shared, parent: TaskId) {
    parent in sh.notes && |sh.notes[parent]| < NOTIFICATION_CAP
  }

  function PushNote(sh: Shared, parent: TaskId, child: TaskId): Shared
    requires IsReportable(sh.entries, child)
  {
    if HasRoom(sh, parent) then
      sh.(notes := sh.notes[parent := sh.notes[parent] + [NoteFor(sh.entries, child)]])
    else
      sh
  }

  function RemovePending(sh: Shared, parent: TaskId, reported: set<TaskId>): Shared {
    if parent in sh.entries then
      sh.(entries := sh.entries[parent := sh.entries[parent].(pending := sh.entries[parent].pending - reported)])
    else
      sh
  }

  // ---- Steps --------------------------------------------------------------------------------

  datatype Step =
    // Orchestrator thread
    | Submit(files: seq<Path>, workspaceOk: bool)
    | Beat(id: TaskId, status: TaskStatus)
    | TakeRequests
    | DispatchNext(workspaceOk: bool)
    | BeginSweep(parent: TaskId)
    | CheckChild(child: TaskId)
    | EndSweep
    // Thread of Task `parent`
    | DrainNotes(parent: TaskId)
    | TimeOut(parent: TaskId)
    | StartTurn(parent: TaskId)
    | PushRequest(parent: TaskId, description: string)
    | EndToolTurn(parent: TaskId, extra: nat)
    | EndTextTurn(parent: TaskId, held: bool)
    | Abort(parent: TaskId)

  predicate IsTaskStep(step: Step) {
    step.DrainNotes? || step.TimeOut? || step.StartTurn? || step.PushRequest? ||
    step.EndToolTurn? || step.EndTextTurn? || step.Abort?
  }

  function NotesOf(s: Sys, p: TaskId): nat {
    if p in s.shared.notes then |s.shared.notes[p]| else 0
  }

  predicate OrchestratorFree(s: Sys) {
    s.hand == [] && s.sweep.Idle?
  }

  predicate InMode(s: Sys, p: TaskId, mode: Mode) {
    p in s.parents && s.parents[p].mode == mode
  }

  /**
   * Whether a Task can take `step`, which its own record decides. A text-only turn is held back by a
   * gate failure or ends the run only at count zero; with sub-tasks outstanding a Task parks itself
   * as Waiting and returns to the loop head.
   */
  predicate Ready(parent: Parent, step: Step)
    requires IsTaskStep(step)
  {
    match step
    case DrainNotes(_) => parent.mode == AtHead
    case TimeOut(_) => parent.mode == AtHead && parent.count > 0
    case StartTurn(_) => parent.mode == AtHead
    case PushRequest(_, _) => parent.mode == InTurn
    case EndToolTurn(_, _) => parent.mode == InTurn
    case EndTextTurn(_, _) => parent.mode == InTurn && parent.uncounted == 0
    case Abort(_) => parent.mode == AtHead || parent.mode == InTurn
  }

  /**
   * What `step` makes of the Task's record when `notes` notifications wait for it. `extra` is what a
   * tool turn counts beyond the requests it pushed, because results are counted by call id.
   */
  function Stepped(parent: Parent, step: Step, notes: nat): Parent
    requires IsTaskStep(step)
  {
    match step
    case DrainNotes(_) => parent.(count := SaturatingSub(parent.count, notes))
    case TimeOut(_) => parent.(count := 0, timedOut := true)
    case StartTurn(_) => parent.(mode := InTurn)
    case PushRequest(_, _) => parent.(uncounted := parent.uncounted + 1)
    case EndToolTurn(_, extra) =>
      parent.(count := parent.count + parent.uncounted + extra,
              uncounted := 0,
              mode := AtHead,
              overcounted := parent.overcounted + extra)
    case EndTextTurn(_, held) => parent.(mode := if held || parent.count > 0 then AtHead else Finished)
    case Abort(_) => parent.(mode := Aborted)
  }

  predicate Enabled(s: Sys, step: Step) {
    match step
    case Submit(_, _) => OrchestratorFree(s)
    case Beat(_, _) => OrchestratorFree(s)
    case TakeRequests => OrchestratorFree(s)
    case DispatchNext(_) => s.hand != [] && s.sweep.Idle?
    case BeginSweep(p) => OrchestratorFree(s) && p in s.shared.entries && s.shared.entries[p].pending != {}
    case CheckChild(c) => s.sweep.Sweeping? && c in s.sweep.todo
    case EndSweep => s.sweep.Sweeping? && s.sweep.todo == {}
    case _ => step.parent in s.parents && Ready(s.parents[step.parent], step)
  }

  function SetParent(s: Sys, p: TaskId, parent: Parent): Sys {
    s.(parents := s.parents[p := parent])
  }

  function Apply(s: Sys, step: Step): Sys
    requires Enabled(s, step)
  {
    match step
    case Submit(files, ok) =>
      s.(shared := DispatchTask(s.shared, files, None, ok),
         parents := if Starts(s.shared, files, ok) then s.parents[s.shared.counter := NewParent] else s.parents)
    case Beat(id, status) =>
      s.(shared := s.shared.(entries := RecordHeartbeat(s.shared.entries, id, status)))
    case TakeRequests =>
      s.(hand := s.shared.queue, shared := s.shared.(queue := []))
    case DispatchNext(ok) =>
      ApplyDispatchNext(s, ok)
    case BeginSweep(p) =>
      s.(sweep := Sweeping(p, s.shared.entries[p].pending, {}))
    case CheckChild(c) =>
      ApplyCheckChild(s, c)
    case EndSweep =>
      s.(shared := RemovePending(s.shared, s.sweep.parent, s.sweep.reported), sweep := Idle)
    case _ =>
      ApplyTaskStep(s, step)
  }

  /** A Task takes its notifications, pushes a request, or changes nothing but its own record. */
  function ApplyTaskStep(s: Sys, step: Step): Sys
    requires IsTaskStep(step) && step.parent in s.parents
  {
    var p := step.parent;
    var s' := SetParent(s, p, Stepped(s.parents[p], step, NotesOf(s, p)));
    match step
    case DrainNotes(_) =>
      if p in s.shared.notes then s'.(shared := s.shared.(notes := s.shared.notes[p := []])) else s'
    case PushRequest(_, description) =>
      s'.(shared := s.shared.(queue := s.shared.queue + [Request(p, description)]))
    case _ => s'
  }

  function ApplyDispatchNext(s: Sys, ok: bool): Sys
    requires s.hand != []
  {
    var r, sh := s.hand[0], s.shared;
    var parents := if !ok && r.parent in s.parents
                   then s.parents[r.parent := s.parents[r.parent].(failed := s.parents[r.parent].failed + 1)]
                   else if ok then s.parents[sh.counter := NewParent] else s.parents;
    Sys(DispatchChild(sh, r, ok), s.hand[1..], s.sweep, parents)
  }

  function ApplyCheckChild(s: Sys, c: TaskId): Sys
    requires s.sweep.Sweeping? && c in s.sweep.todo
  {
    var p := s.sweep.parent;
    if !IsReportable(s.shared.entries, c) then
      s.(sweep := s.sweep.(todo := s.sweep.todo - {c}))
    else
      s.(shared := PushNote(s.shared, p, c),
         sweep := s.sweep.(todo := s.sweep.todo - {c}, reported := s.sweep.reported + {c}),
         parents := if p in s.parents && !HasRoom(s.shared, p)
                    then s.parents[p := s.parents[p].(dropped := s.parents[p].dropped + 1)]
                    else s.parents)
  }

  // ---- The ledger -----------------------------------------------------------------------------

  function RequestsOf(p: TaskId, queue: seq<Request>): nat
    decreases |queue|
  {
    if queue == [] then 0 else (if queue[0].parent == p then 1 else 0) + RequestsOf(p, queue[1..])
  }

  /** Children of `p` whose end has not been reported to it yet. */
  function Unreported(s: Sys, p: TaskId): set<TaskId> {
    if p !in s.shared.entries then {} else
    if s.sweep.Sweeping? && s.sweep.parent == p then s.shared.entries[p].pending - s.sweep.reported
    else s.shared.entries[p].pending
  }

  /** Sub-tasks somewhere on their way: asked for, running, or reported and not yet read. */
  function InFlight(s: Sys, p: TaskId): nat {
    RequestsOf(p, s.shared.queue) + RequestsOf(p, s.hand) + |Unreported(s, p)| + NotesOf(s, p)
  }

  predicate LedgerAt(s: Sys, p: TaskId)
    requires p in s.parents
  {
    var parent := s.parents[p];
    var owed := InFlight(s, p) + parent.Unpaid();
    && parent.count + parent.uncounted <= owed
    && (!parent.timedOut ==> parent.count + parent.uncounted == owed)
    && (parent.mode in {AtHead, Finished} ==> parent.uncounted == 0)
    && (parent.mode == Finished ==> parent.count == 0)
  }

  predicate Known(s: Sys, queue: seq<Request>) {
    forall r :: r in queue ==> r.parent in s.parents
  }

  /** Ids below the counter are the only ones in use, and only running Tasks have queues or children. */
  predicate Tidy(s: Sys) {
    && (forall id :: id in s.shared.entries ==> id < s.shared.counter)
    && (forall p, c :: p in s.shared.entries && c in s.shared.entries[p].pending ==> c < s.shared.counter)
    && (forall p :: p in s.shared.entries && s.shared.entries[p].pending != {} ==> p in s.parents)
    && (forall p :: p in s.parents ==> p in s.shared.entries && p in s.shared.notes)
    && (forall p :: p in s.shared.notes ==> p in s.parents && |s.shared.notes[p]| <= NOTIFICATION_CAP)
    && Known(s, s.shared.queue) && Known(s, s.hand)
    && (s.sweep.Sweeping? ==>
          s.sweep.parent in s.parents &&
          s.sweep.todo + s.sweep.reported <= s.shared.entries[s.sweep.parent].pending &&
          s.sweep.todo !! s.sweep.reported)
  }

  ghost predicate Inv(s: Sys) {
    Tidy(s) && forall p :: p in s.parents ==> LedgerAt(s, p)
  }

  lemma {:induction false} RequestsOfAppend(p: TaskId, a: seq<Request>, b: seq<Request>)
    ensures RequestsOf(p, a + b) == RequestsOf(p, a) + RequestsOf(p, b)
    decreases |a|
  {
    if a == [] {
      assert a + b == b;
    } else {
      assert (a + b)[1..] == a[1..] + b;
      RequestsOfAppend(p, a[1..], b);
    }
  }

  /** An id that no request names has no requests. */
  lemma {:induction false} UnknownHasNoRequests(p: TaskId, queue: seq<Request>)
    requires forall r :: r in queue ==> r.parent != p
    ensures RequestsOf(p, queue) == 0
    decreases |queue|
  {
    if queue != [] {
      assert queue[0] in queue;
      UnknownHasNoRequests(p, queue[1..]);
    }
  }

  lemma FreshParentLedger(s: Sys, s': Sys)
    requires Tidy(s)
    requires s.shared.counter in s'.parents && s'.parents[s.shared.counter] == NewParent
    requires s'.shared.queue == s.shared.queue && (s'.hand == s.hand || (s.hand != [] && s'.hand == s.hand[1..]))
    requires Unreported(s', s.shared.counter) == {} && NotesOf(s', s.shared.counter) == 0
    ensures LedgerAt(s', s.shared.counter)
  {
    UnknownHasNoRequests(s.shared.counter, s.shared.queue);
    UnknownHasNoRequests(s.shared.counter, s'.hand);
  }

  /** A step that moves nothing of `p`'s leaves its ledger as it was. */
  lemma SameLedger(s: Sys, s': Sys, p: TaskId)
    requires p in s.parents && LedgerAt(s, p) && p in s'.parents && s'.parents[p] == s.parents[p]
    requires s'.shared.queue == s.shared.queue && s'.hand == s.hand
    requires Unreported(s', p) == Unreported(s, p) && NotesOf(s', p) == NotesOf(s, p)
    ensures LedgerAt(s', p)
  {
  }

  lemma SubmitStaysTidy(s: Sys, files: seq<Path>, ok: bool)
    requires Tidy(s) && Enabled(s, Submit(files, ok))
    ensures Tidy(Apply(s, Submit(files, ok)))
  {
  }

  lemma SubmitKeepsLedger(s: Sys, files: seq<Path>, ok: bool, p: TaskId)
    requires Tidy(s) && Enabled(s, Submit(files, ok)) && p in s.parents && LedgerAt(s, p)
    ensures p in Apply(s, Submit(files, ok)).parents && LedgerAt(Apply(s, Submit(files, ok)), p)
  {
    var s' := Apply(s, Submit(files, ok));
    assert p < s.shared.counter;
    SameLedger(s, s', p);
  }

  lemma SubmitKeepsInv(s: Sys, files: seq<Path>, ok: bool)
    requires Inv(s) && Enabled(s, Submit(files, ok))
    ensures Inv(Apply(s, Submit(files, ok)))
  {
    var s' := Apply(s, Submit(files, ok));
    SubmitStaysTidy(s, files, ok);
    forall p | p in s'.parents
      ensures LedgerAt(s', p)
    {
      if p in s.parents {
        SubmitKeepsLedger(s, files, ok, p);
      } else {
        FreshParentLedger(s, s');
      }
    }
  }

  lemma DispatchNextStaysTidy(s: Sys, ok: bool)
    requires Tidy(s) && Enabled(s, DispatchNext(ok))
    ensures Tidy(ApplyDispatchNext(s, ok))
  {
    var s', r := ApplyDispatchNext(s, ok), s.hand[0];
    assert r in s.hand && r.parent in s.parents;
    EmptyEstimateIsAlwaysDispatched(s.shared.entries, Some(r.parent));
    assert s'.hand <= s.hand || forall x :: x in s'.hand ==> x in s.hand;
  }

  /** The request at hand becomes a running child, or a loss. */
  lemma DispatchNextMovesOne(s: Sys, ok: bool, p: TaskId)
    requires Tidy(s) && Enabled(s, DispatchNext(ok)) && p in s.parents && LedgerAt(s, p)
    ensures p in ApplyDispatchNext(s, ok).parents && LedgerAt(ApplyDispatchNext(s, ok), p)
  {
    var s', r, child := ApplyDispatchNext(s, ok), s.hand[0], s.shared.counter;
    assert r in s.hand && r.parent in s.parents && p < child;
    EmptyEstimateIsAlwaysDispatched(s.shared.entries, Some(r.parent));
    assert NotesOf(s', p) == NotesOf(s, p);
    assert RequestsOf(p, s.hand) == (if r.parent == p then 1 else 0) + RequestsOf(p, s'.hand);
    if p == r.parent && ok {
      assert child !in Unreported(s, p);
      assert Unreported(s', p) == Unreported(s, p) + {child};
    } else {
      assert Unreported(s', p) == Unreported(s, p);
    }
  }

  lemma DispatchNextBearsOne(s: Sys, ok: bool, p: TaskId)
    requires Tidy(s) && Enabled(s, DispatchNext(ok)) && p !in s.parents && p in ApplyDispatchNext(s, ok).parents
    ensures LedgerAt(ApplyDispatchNext(s, ok), p)
  {
    assert s.hand[0] in s.hand;
    EmptyEstimateIsAlwaysDispatched(s.shared.entries, Some(s.hand[0].parent));
    FreshParentLedger(s, ApplyDispatchNext(s, ok));
  }

  lemma DispatchNextKeepsInv(s: Sys, ok: bool)
    requires Inv(s) && Enabled(s, DispatchNext(ok))
    ensures Inv(ApplyDispatchNext(s, ok))
  {
    DispatchNextStaysTidy(s, ok);
    forall p | p in ApplyDispatchNext(s, ok).parents
      ensures LedgerAt(ApplyDispatchNext(s, ok), p)
    {
      if p in s.parents {
        DispatchNextMovesOne(s, ok, p);
      } else {
        DispatchNextBearsOne(s, ok, p);
      }
    }
  }

  lemma CheckChildStaysTidy(s: Sys, c: TaskId)
    requires Tidy(s) && Enabled(s, CheckChild(c))
    ensures Tidy(ApplyCheckChild(s, c))
  {
  }

  lemma ReportedChildLeaves(s: Sys, c: TaskId)
    requires Tidy(s) && Enabled(s, CheckChild(c)) && IsReportable(s.shared.entries, c)
    ensures |Unreported(ApplyCheckChild(s, c), s.sweep.parent)| == |Unreported(s, s.sweep.parent)| - 1
  {
    var p := s.sweep.parent;
    assert c in s.sweep.todo + s.sweep.reported && c !in s.sweep.reported;
    assert c in Unreported(s, p);
    assert Unreported(ApplyCheckChild(s, c), p) == Unreported(s, p) - {c};
  }

  lemma ReportMovesOne(s: Sys, c: TaskId)
    requires Tidy(s) && Enabled(s, CheckChild(c)) && IsReportable(s.shared.entries, c)
    requires LedgerAt(s, s.sweep.parent)
    ensures LedgerAt(ApplyCheckChild(s, c), s.sweep.parent)
  {
    ReportedChildLeaves(s, c);
    if HasRoom(s.shared, s.sweep.parent) {
      assert NotesOf(ApplyCheckChild(s, c), s.sweep.parent) == NotesOf(s, s.sweep.parent) + 1;
    } else {
      assert NotesOf(ApplyCheckChild(s, c), s.sweep.parent) == NotesOf(s, s.sweep.parent);
    }
  }

  /** A settled child becomes a notification, or a loss when the queue is full. */
  lemma CheckChildMovesOne(s: Sys, c: TaskId, p: TaskId)
    requires Tidy(s) && Enabled(s, CheckChild(c)) && p in s.parents && LedgerAt(s, p)
    ensures LedgerAt(ApplyCheckChild(s, c), p)
  {
    if p == s.sweep.parent && IsReportable(s.shared.entries, c) {
      ReportMovesOne(s, c);
    } else {
      SameLedger(s, ApplyCheckChild(s, c), p);
    }
  }

  lemma CheckChildKeepsParents(s: Sys, c: TaskId)
    requires Enabled(s, CheckChild(c))
    ensures ApplyCheckChild(s, c).parents.Keys == s.parents.Keys
  {
  }

  lemma CheckChildKeepsInv(s: Sys, c: TaskId)
    requires Inv(s) && Enabled(s, CheckChild(c))
    ensures Inv(ApplyCheckChild(s, c))
  {
    var s' := ApplyCheckChild(s, c);
    CheckChildStaysTidy(s, c);
    CheckChildKeepsParents(s, c);
    forall p | p in s'.parents
      ensures LedgerAt(s', p)
    {
      CheckChildMovesOne(s, c, p);
    }
  }

  lemma BeginSweepStaysTidy(s: Sys, q: TaskId)
    requires Tidy(s) && Enabled(s, BeginSweep(q))
    ensures Tidy(Apply(s, BeginSweep(q)))
  {
  }

  lemma EndSweepStaysTidy(s: Sys)
    requires Tidy(s) && Enabled(s, EndSweep)
    ensures Tidy(Apply(s, EndSweep))
  {
  }

  lemma SweepEdgeKeepsLedger(s: Sys, step: Step, p: TaskId)
    requires Tidy(s) && Enabled(s, step) && (step.BeginSweep? || step.EndSweep?) && p in s.parents && LedgerAt(s, p)
    ensures p in Apply(s, step).parents && LedgerAt(Apply(s, step), p)
  {
    var s' := Apply(s, step);
    assert Unreported(s', p) == Unreported(s, p);
    SameLedger(s, s', p);
  }

  lemma SweepEdgeKeepsInv(s: Sys, step: Step)
    requires Inv(s) && Enabled(s, step) && (step.BeginSweep? || step.EndSweep?)
    ensures Inv(Apply(s, step))
  {
    if step.BeginSweep? {
      BeginSweepStaysTidy(s, step.parent);
    } else {
      EndSweepStaysTidy(s);
    }
    forall p | p in s.parents
      ensures LedgerAt(Apply(s, step), p)
    {
      SweepEdgeKeepsLedger(s, step, p);
    }
  }

  lemma BeatKeepsInv(s: Sys, id: TaskId, status: TaskStatus)
    requires Inv(s) && Enabled(s, Beat(id, status))
    ensures Inv(Apply(s, Beat(id, status)))
  {
    var s' := Apply(s, Beat(id, status));
    forall p | p in s'.parents
      ensures LedgerAt(s', p)
    {
      assert LedgerAt(s, p) && Unreported(s', p) == Unreported(s, p);
    }
  }

  lemma DrainNotesMovesAll(s: Sys, q: TaskId, p: TaskId)
    requires Tidy(s) && Enabled(s, DrainNotes(q)) && p in s.parents && LedgerAt(s, p)
    ensures LedgerAt(ApplyTaskStep(s, DrainNotes(q)), p)
  {
    assert Unreported(ApplyTaskStep(s, DrainNotes(q)), p) == Unreported(s, p);
  }

  lemma DrainNotesStaysTidy(s: Sys, q: TaskId)
    requires Tidy(s) && Enabled(s, DrainNotes(q))
    ensures Tidy(ApplyTaskStep(s, DrainNotes(q)))
  {
  }

  lemma QueueStepStaysTidy(s: Sys, step: Step)
    requires Tidy(s) && Enabled(s, step) && (step.PushRequest? || step.TakeRequests?)
    ensures Tidy(Apply(s, step))
  {
  }

  predicate IsOwnStep(step: Step) {
    step.TimeOut? || step.StartTurn? || step.EndToolTurn? || step.EndTextTurn? || step.Abort?
  }

  lemma OwnStepStaysTidy(s: Sys, step: Step)
    requires Tidy(s) && Enabled(s, step) && IsOwnStep(step)
    ensures Tidy(Apply(s, step))
  {
    var s' := Apply(s, step);
    assert s'.shared == s.shared && s'.hand == s.hand && s'.sweep == s.sweep && s'.parents.Keys == s.parents.Keys;
  }

  lemma TaskStepStaysTidy(s: Sys, step: Step)
    requires Tidy(s) && Enabled(s, step) && (IsTaskStep(step) || step.TakeRequests?)
    ensures Tidy(Apply(s, step))
  {
    if step.DrainNotes? {
      DrainNotesStaysTidy(s, step.parent);
    } else if step.PushRequest? || step.TakeRequests? {
      QueueStepStaysTidy(s, step);
    } else {
      OwnStepStaysTidy(s, step);
    }
  }

  lemma PushRequestKeepsLedger(s: Sys, q: TaskId, description: string, p: TaskId)
    requires Enabled(s, PushRequest(q, description)) && p in s.parents && LedgerAt(s, p)
    ensures LedgerAt(Apply(s, PushRequest(q, description)), p)
  {
    var s' := Apply(s, PushRequest(q, description));
    assert Unreported(s', p) == Unreported(s, p) && NotesOf(s', p) == NotesOf(s, p);
    RequestsOfAppend(p, s.shared.queue, [Request(q, description)]);
    assert RequestsOf(p, [Request(q, description)]) == if p == q then 1 else 0;
  }

  lemma TakeRequestsKeepsLedger(s: Sys, p: TaskId)
    requires Enabled(s, TakeRequests) && p in s.parents && LedgerAt(s, p)
    ensures LedgerAt(Apply(s, TakeRequests), p)
  {
    var s' := Apply(s, TakeRequests);
    assert Unreported(s', p) == Unreported(s, p) && NotesOf(s', p) == NotesOf(s, p);
  }

  /** The remaining steps of a Task touch nothing but its own counters. */
  lemma OwnStepKeepsLedger(s: Sys, step: Step, p: TaskId)
    requires Enabled(s, step) && p in s.parents && LedgerAt(s, p)
    requires IsOwnStep(step)
    ensures LedgerAt(Apply(s, step), p)
  {
    var s' := Apply(s, step);
    assert Unreported(s', p) == Unreported(s, p) && NotesOf(s', p) == NotesOf(s, p);
  }

  lemma TaskStepKeepsLedger(s: Sys, step: Step, p: TaskId)
    requires Tidy(s) && Enabled(s, step) && (IsTaskStep(step) || step.TakeRequests?)
    requires p in s.parents && LedgerAt(s, p)
    ensures p in Apply(s, step).parents && LedgerAt(Apply(s, step), p)
  {
    match step
    case DrainNotes(q) => DrainNotesMovesAll(s, q, p);
    case PushRequest(q, description) => PushRequestKeepsLedger(s, q, description, p);
    case TakeRequests => TakeRequestsKeepsLedger(s, p);
    case _ => OwnStepKeepsLedger(s, step, p);
  }

  lemma TaskStepKeepsInv(s: Sys, step: Step)
    requires Inv(s) && Enabled(s, step) && (IsTaskStep(step) || step.TakeRequests?)
    ensures Inv(Apply(s, step))
  {
    TaskStepStaysTidy(s, step);
    forall p | p in s.parents
      ensures LedgerAt(Apply(s, step), p)
    {
      TaskStepKeepsLedger(s, step, p);
    }
  }

  lemma StepKeepsInv(s: Sys, step: Step)
    requires Inv(s) && Enabled(s, step)
    ensures Inv(Apply(s, step))
  {
    match step
    case Submit(files, ok) => SubmitKeepsInv(s, files, ok);
    case DispatchNext(ok) => DispatchNextKeepsInv(s, ok);
    case CheckChild(c) => CheckChildKeepsInv(s, c);
    case BeginSweep(_) => SweepEdgeKeepsInv(s, step);
    case EndSweep => SweepEdgeKeepsInv(s, step);
    case Beat(id, status) => BeatKeepsInv(s, id, status);
    case _ => TaskStepKeepsInv(s, step);
  }

  // ---- Runs -----------------------------------------------------------------------------------

  predicate CanRun(s: Sys, steps: seq<Step>)
    decreases |steps|
  {
    steps == [] || (Enabled(s, steps[0]) && CanRun(Apply(s, steps[0]), steps[1..]))
  }

  function Run(s: Sys, steps: seq<Step>): Sys
    requires CanRun(s, steps)
    decreases |steps|
  {
    if steps == [] then s else Run(Apply(s, steps[0]), steps[1..])
  }

  lemma {:induction false} RunKeepsInv(s: Sys, steps: seq<Step>)
    requires Inv(s) && CanRun(s, steps)
    ensures Inv(Run(s, steps))
    decreases |steps|
  {
    if steps != [] {
      StepKeepsInv(s, steps[0]);
      RunKeepsInv(Apply(s, steps[0]), steps[1..]);
    }
  }

  /**
   * For every interleaving: at each loop head of a parent that never timed out, its counter is
   * exactly what is in flight for it plus what the system has lost and what it counted too much.
   */
  lemma LedgerBalances(steps: seq<Step>, p: TaskId)
    requires CanRun(Init, steps)
    requires InMode(Run(Init, steps), p, AtHead)
    ensures var s := Run(Init, steps);
            var parent := s.parents[p];
            && parent.count <= InFlight(s, p) + parent.failed + parent.dropped + parent.overcounted
            && (!parent.timedOut ==>
                  parent.count == InFlight(s, p) + parent.failed + parent.dropped + parent.overcounted)
  {
    RunKeepsInv(Init, steps);
    assert LedgerAt(Run(Init, steps), p);
  }

  /** A parent that completes without a timeout has nothing queued, running, unread or lost, and never miscounted. */
  lemma CompletedMeansSettled(steps: seq<Step>, p: TaskId)
    requires CanRun(Init, steps)
    requires var s := Run(Init, steps); InMode(s, p, Finished) && !s.parents[p].timedOut
    ensures var s := Run(Init, steps);
            && InFlight(s, p) == 0
            && s.parents[p].failed == 0 && s.parents[p].dropped == 0 && s.parents[p].overcounted == 0
  {
    RunKeepsInv(Init, steps);
    assert LedgerAt(Run(Init, steps), p);
  }

  /** What one step does to the parts of a parent that only ever grow. */
  predicate Grows(before: Parent, after: Parent) {
    after.failed >= before.failed && after.dropped >= before.dropped && after.overcounted >= before.overcounted
  }

  /** A Task's record without what the Orchestrator notes in it. */
  function Own(parent: Parent): Parent {
    parent.(failed := 0, dropped := 0)
  }

  lemma TaskStepOnlyGrows(s: Sys, step: Step, p: TaskId)
    requires Enabled(s, step) && IsTaskStep(step) && p in s.parents
    ensures p in Apply(s, step).parents && Grows(s.parents[p], Apply(s, step).parents[p])
    ensures Apply(s, step).parents[p].timedOut ==> s.parents[p].timedOut || step == TimeOut(p)
    ensures step.parent != p ==> Apply(s, step).parents[p] == s.parents[p]
  {
  }

  lemma DispatchOnlyGrows(s: Sys, step: Step, p: TaskId)
    requires Enabled(s, step) && (step.Submit? || step.DispatchNext?) && p in s.parents && p != s.shared.counter
    ensures p in Apply(s, step).parents && Grows(s.parents[p], Apply(s, step).parents[p])
    ensures Own(Apply(s, step).parents[p]) == Own(s.parents[p])
  {
  }

  lemma SweepOnlyGrows(s: Sys, step: Step, p: TaskId)
    requires Enabled(s, step) && !IsTaskStep(step) && !step.Submit? && !step.DispatchNext? && p in s.parents
    ensures p in Apply(s, step).parents && Grows(s.parents[p], Apply(s, step).parents[p])
    ensures Own(Apply(s, step).parents[p]) == Own(s.parents[p])
  {
  }

  /** No step of another thread touches what `p` keeps itself. */
  lemma OthersKeepOwn(s: Sys, step: Step, p: TaskId)
    requires Inv(s) && Enabled(s, step) && p in s.parents && !(IsTaskStep(step) && step.parent == p)
    ensures p in Apply(s, step).parents && Own(Apply(s, step).parents[p]) == Own(s.parents[p])
  {
    assert p < s.shared.counter;
    if IsTaskStep(step) {
      TaskStepOnlyGrows(s, step, p);
    } else if step.Submit? || step.DispatchNext? {
      DispatchOnlyGrows(s, step, p);
    } else {
      SweepOnlyGrows(s, step, p);
    }
  }

  /** Losses and miscounts are never undone by a later step. */
  lemma LossIsPermanent(s: Sys, step: Step, p: TaskId)
    requires Inv(s) && Enabled(s, step) && p in s.parents
    ensures p in Apply(s, step).parents
    ensures Apply(s, step).parents[p].failed >= s.parents[p].failed
    ensures Apply(s, step).parents[p].dropped >= s.parents[p].dropped
    ensures Apply(s, step).parents[p].overcounted >= s.parents[p].overcounted
    ensures Apply(s, step).parents[p].timedOut ==> s.parents[p].timedOut || step == TimeOut(p)
  {
    assert p < s.shared.counter;
    if IsTaskStep(step) {
      TaskStepOnlyGrows(s, step, p);
    } else if step.Submit? || step.DispatchNext? {
      DispatchOnlyGrows(s, step, p);
      assert Own(Apply(s, step).parents[p]).timedOut == Own(s.parents[p]).timedOut;
    } else {
      SweepOnlyGrows(s, step, p);
      assert Own(Apply(s, step).parents[p]).timedOut == Own(s.parents[p]).timedOut;
    }
  }

  /**
   * One sub-task that could not be dispatched, one notification that met a full queue, or one result
   * counted too much, keeps its parent from completing in every continuation, until the wait timeout
   * clears the counter.
   */
  lemma {:induction false} LossBlocksCompletion(s: Sys, steps: seq<Step>, p: TaskId)
    requires Inv(s) && CanRun(s, steps) && p in s.parents
    requires !s.parents[p].timedOut && s.parents[p].failed + s.parents[p].dropped + s.parents[p].overcounted > 0
    requires TimeOut(p) !in steps
    ensures !InMode(Run(s, steps), p, Finished)
    decreases |steps|
  {
    if steps == [] {
      assert LedgerAt(s, p);
    } else {
      assert steps[0] in steps;
      LossIsPermanent(s, steps[0], p);
      StepKeepsInv(s, steps[0]);
      LossBlocksCompletion(Apply(s, steps[0]), steps[1..], p);
    }
  }

  lemma OnlyChecksDrop(s: Sys, step: Step, p: TaskId)
    requires Enabled(s, step) && p in s.parents && p != s.shared.counter
    requires p in Apply(s, step).parents && Apply(s, step).parents[p].dropped > s.parents[p].dropped
    ensures step.CheckChild? && s.sweep.Sweeping? && s.sweep.parent == p && !HasRoom(s.shared, p)
  {
  }

  /** A notification is lost only by a parent with more than ten sub-tasks in flight. */
  lemma DropNeedsElevenInFlight(s: Sys, step: Step, p: TaskId)
    requires Inv(s) && Enabled(s, step) && p in s.parents
    ensures p in Apply(s, step).parents && Apply(s, step).parents[p].dropped > s.parents[p].dropped ==>
              step.CheckChild? && NotesOf(s, p) == 10 && InFlight(s, p) >= 11
  {
    if p in Apply(s, step).parents && Apply(s, step).parents[p].dropped > s.parents[p].dropped {
      assert p < s.shared.counter;
      OnlyChecksDrop(s, step, p);
      assert step.child in Unreported(s, p);
    }
  }

  lemma {:induction false} RunAppend(s: Sys, a: seq<Step>, b: seq<Step>)
    requires CanRun(s, a) && CanRun(Run(s, a), b)
    ensures CanRun(s, a + b) && Run(s, a + b) == Run(Run(s, a), b)
    decreases |a|
  {
    if a == [] {
      assert a + b == b;
    } else {
      assert (a + b)[1..] == a[1..] + b;
      RunAppend(Apply(s, a[0]), a[1..], b);
    }
  }

  lemma AdvanceRun(s: Sys, steps: seq<Step>, t: Sys, step: Step, u: Sys)
    requires CanRun(s, steps) && Run(s, steps) == t && Enabled(t, step) && Apply(t, step) == u
    ensures CanRun(s, steps + [step]) && Run(s, steps + [step]) == u
  {
    assert [step][1..] == [];
    RunAppend(s, steps, [step]);
  }
}
