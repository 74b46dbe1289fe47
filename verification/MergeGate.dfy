/** The conflict gate and the merges: Tasks merge after they have delivered, when the gate has let their files go. */
module MergeGate {
  import opened Wrappers
  import opened Lifecycle
  import opened TaskRegistry
  import opened Fnv
  import opened CopyWorkspace
  import opened MergeConfluence

  // ---- Files whose changes are still to be merged ---------------------------------------------------

  /** A dispatch or a heartbeat, or the merge of a Task's workspace. */
  datatype Event = Gate(op: Op) | Merge(id: TaskId)

  datatype Board = Board(entries: Entries, merged: set<TaskId>)

  function ApplyEvent(b: Board, e: Event): Board {
    match e
    case Gate(op) => b.(entries := ApplyOp(b.entries, op))
    case Merge(id) => b.(merged := b.merged + {id})
  }

  function RunBoard(b: Board, events: seq<Event>): Board
    decreases |events|
  {
    if events == [] then b else RunBoard(ApplyEvent(b, events[0]), events[1..])
  }

  /** A Task counts as merged from its merge on, and only by it. */
  lemma {:induction false} MergedByMerging(b: Board, events: seq<Event>, id: TaskId)
    ensures id in RunBoard(b, events).merged <==> id in b.merged || Merge(id) in events
    decreases |events|
  {
    if events != [] {
      MergedByMerging(ApplyEvent(b, events[0]), events[1..], id);
    }
  }

  /** The Task is at work, or has delivered what is not merged yet. */
  predicate Owes(b: Board, id: TaskId) {
    id in b.entries && b.entries[id].dispatched && id !in b.merged &&
    (b.entries[id].status == Delivered || b.entries[id].IsActive())
  }

  predicate OwesFile(b: Board, id: TaskId, file: Path) {
    Owes(b, id) && file in b.entries[id].files
  }

  ghost predicate ExclusiveUntilMerged(b: Board) {
    forall i, j, p :: i != j && OwesFile(b, i, p) ==> !OwesFile(b, j, p)
  }

  /** Some other Task owes a change to a file of `id`'s estimate. */
  ghost predicate Meets(b: Board, id: TaskId) {
    id in b.entries && exists j, p :: j != id && p in b.entries[id].files && OwesFile(b, j, p)
  }

  /** The Task was dispatched and has ended without anything to merge. */
  predicate Resting(b: Board, id: TaskId) {
    && id in b.entries && b.entries[id].dispatched && id !in b.merged
    && b.entries[id].status.IsSettled() && b.entries[id].status != Delivered
  }

  /**
   * Told from the board before the event: a dispatch that the gate lets pass takes a file of a Task
   * that has delivered and is not merged, or a Task at rest comes back while another owes one of its
   * files.
   */
  ghost predicate Overlaps(b: Board, e: Event) {
    match e
    case Merge(_) => false
    case Gate(Dispatch(id, files, _)) =>
      && id !in b.merged && !HasConflictWith(b.entries, files)
      && exists j, p :: p in files && OwesFile(b, j, p) && b.entries[j].status == Delivered
    case Gate(Heartbeat(id, status)) =>
      Resting(b, id) && (status == Delivered || !status.IsSettled()) && Meets(b, id)
  }

  /** The event makes a Task owe files one of which another Task owes. */
  ghost predicate TakesOn(b: Board, e: Event) {
    e.Gate? && !Owes(b, e.op.id) && Owes(ApplyEvent(b, e), e.op.id) && Meets(ApplyEvent(b, e), e.op.id)
  }

  ghost predicate FreshDispatches(b: Board, events: seq<Event>)
    decreases |events|
  {
    events == [] ||
    ((events[0].Gate? && events[0].op.Dispatch? ==> events[0].op.id !in b.entries) &&
     FreshDispatches(ApplyEvent(b, events[0]), events[1..]))
  }

  ghost predicate NeverOverlaps(b: Board, events: seq<Event>)
    decreases |events|
  {
    events == [] || (!Overlaps(b, events[0]) && NeverOverlaps(ApplyEvent(b, events[0]), events[1..]))
  }

  ghost predicate ExclusiveUntilMergedThroughout(b: Board, events: seq<Event>)
    decreases |events|
  {
    ExclusiveUntilMerged(b) && (events == [] || ExclusiveUntilMergedThroughout(ApplyEvent(b, events[0]), events[1..]))
  }

  /** An event of the gate leaves every other Task's account alone. */
  lemma OthersKeepFiles(b: Board, op: Op, j: TaskId, p: Path)
    requires j != op.id
    ensures OwesFile(ApplyEvent(b, Gate(op)), j, p) == OwesFile(b, j, p)
  {
  }

  /** A Task that owed files before and after the event owes the same files. */
  lemma SameFiles(b: Board, op: Op, p: Path)
    requires op.Dispatch? ==> op.id !in b.entries
    requires Owes(b, op.id) && OwesFile(ApplyEvent(b, Gate(op)), op.id, p)
    ensures OwesFile(b, op.id, p)
  {
  }

  /** What an active Task owes, the gate sees; so what it misses is owed by a Task that has delivered. */
  lemma DispatchOverlaps(b: Board, id: TaskId, files: seq<Path>, parent: Option<TaskId>)
    requires id !in b.entries
    ensures TakesOn(b, Gate(Dispatch(id, files, parent))) <==> Overlaps(b, Gate(Dispatch(id, files, parent)))
  {
    var op := Dispatch(id, files, parent);
    var b' := ApplyEvent(b, Gate(op));
    forall j, p | j != id ensures OwesFile(b', j, p) == OwesFile(b, j, p) {
      OthersKeepFiles(b, op, j, p);
    }
    if TakesOn(b, Gate(op)) {
      var j, p :| j != id && p in files && OwesFile(b', j, p);
      assert OwesFile(b, j, p) && !Holds(b.entries, j, p);
    }
    if Overlaps(b, Gate(op)) {
      var j, p :| p in files && OwesFile(b, j, p) && b.entries[j].status == Delivered;
      assert j != id && OwesFile(b', j, p);
    }
  }

  lemma HeartbeatOverlaps(b: Board, id: TaskId, status: TaskStatus)
    ensures TakesOn(b, Gate(Heartbeat(id, status))) <==> Overlaps(b, Gate(Heartbeat(id, status)))
  {
    var op := Heartbeat(id, status);
    forall j, p | j != id ensures OwesFile(ApplyEvent(b, Gate(op)), j, p) == OwesFile(b, j, p) {
      OthersKeepFiles(b, op, j, p);
    }
  }

  lemma OverlapsIsTakingOn(b: Board, e: Event)
    requires e.Gate? && e.op.Dispatch? ==> e.op.id !in b.entries
    ensures TakesOn(b, e) <==> Overlaps(b, e)
  {
    match e {
      case Merge(_) =>
      case Gate(Dispatch(id, files, parent)) => DispatchOverlaps(b, id, files, parent);
      case Gate(Heartbeat(id, status)) => HeartbeatOverlaps(b, id, status);
    }
  }

  lemma EventKeepsExclusiveIff(b: Board, e: Event)
    requires ExclusiveUntilMerged(b) && (e.Gate? && e.op.Dispatch? ==> e.op.id !in b.entries)
    ensures ExclusiveUntilMerged(ApplyEvent(b, e)) <==> !Overlaps(b, e)
  {
    var b' := ApplyEvent(b, e);
    OverlapsIsTakingOn(b, e);
    if e.Merge? {
      assert forall i, p :: OwesFile(b', i, p) ==> OwesFile(b, i, p);
    } else if TakesOn(b, e) {
      var j, p :| j != e.op.id && p in b'.entries[e.op.id].files && OwesFile(b', j, p);
      assert OwesFile(b', e.op.id, p);
    } else {
      forall i, j, p | i != j && OwesFile(b', i, p)
        ensures !OwesFile(b', j, p)
      {
        KeptApart(b, e.op, i, j, p);
      }
    }
  }

  lemma KeptApart(b: Board, op: Op, i: TaskId, j: TaskId, p: Path)
    requires ExclusiveUntilMerged(b) && (op.Dispatch? ==> op.id !in b.entries) && !TakesOn(b, Gate(op)) && i != j
    ensures !(OwesFile(ApplyEvent(b, Gate(op)), i, p) && OwesFile(ApplyEvent(b, Gate(op)), j, p))
  {
    var b' := ApplyEvent(b, Gate(op));
    if OwesFile(b', i, p) && OwesFile(b', j, p) {
      var k := if i == op.id then j else i;
      if i == op.id || j == op.id {
        OthersKeepFiles(b, op, k, p);
        if Owes(b, op.id) {
          SameFiles(b, op, p);
        }
      } else {
        OthersKeepFiles(b, op, i, p);
        OthersKeepFiles(b, op, j, p);
      }
    }
  }

  /**
   * Over every run of dispatches, heartbeats and merges, no two Tasks whose work is unmerged hold a
   * file in common exactly when no dispatch passes the gate onto a file that is delivered and not
   * merged, and no Task at rest comes back to a file another owes.
   */
  lemma {:induction false} ExclusiveUntilMergedIff(b: Board, events: seq<Event>)
    requires ExclusiveUntilMerged(b) && FreshDispatches(b, events)
    ensures ExclusiveUntilMergedThroughout(b, events) <==> NeverOverlaps(b, events)
    decreases |events|
  {
    if events != [] {
      var next := ApplyEvent(b, events[0]);
      EventKeepsExclusiveIff(b, events[0]);
      if ExclusiveUntilMerged(next) {
        ExclusiveUntilMergedIff(next, events[1..]);
      } else {
        assert !ExclusiveUntilMergedThroughout(next, events[1..]);
      }
    }
  }

  // ---- What the merges make of it ----------------------------------------------------------------------

  /** A Task kept to the files it estimated. */
  predicate KeptToEstimate(entry: TaskEntry, w: State) {
    forall p :: p in Changed(w) ==> p in entry.files
  }

  /**
   * While no two Tasks owe the same file and each keeps to its estimate, their workspaces merge to the
   * same tree in every order, all clean in one order exactly when in every.
   */
  lemma UnmergedTasksMergeInAnyOrder(b: Board, ids: seq<TaskId>, ws: seq<State>, vs: seq<State>, t: Tree)
    requires ExclusiveUntilMerged(b)
    requires |ids| == |ws| && forall i, j :: 0 <= i < j < |ids| ==> ids[i] != ids[j]
    requires forall i :: 0 <= i < |ids| ==> Owes(b, ids[i]) && KeptToEstimate(b.entries[ids[i]], ws[i])
    requires multiset(vs) == multiset(ws)
    ensures MergeAll(ws, t) == MergeAll(vs, t)
    ensures AllClean(ws, t) <==> AllClean(vs, t)
  {
    forall i, j, p | 0 <= i < j < |ws| && p in Changed(ws[i]) ensures p !in Changed(ws[j]) {
      assert OwesFile(b, ids[i], p);
      assert !OwesFile(b, ids[j], p);
    }
    OrderDoesNotMatter(ws, vs, t);
  }

  /** In particular, while the gate keeps active Tasks exclusive, the work of the active ones does. */
  lemma ActiveTasksMergeInAnyOrder(entries: Entries, ids: seq<TaskId>, ws: seq<State>, vs: seq<State>, t: Tree)
    requires Exclusive(entries)
    requires |ids| == |ws| && forall i, j :: 0 <= i < j < |ids| ==> ids[i] != ids[j]
    requires forall i :: 0 <= i < |ids| ==>
               ids[i] in entries && entries[ids[i]].IsActive() && KeptToEstimate(entries[ids[i]], ws[i])
    requires multiset(vs) == multiset(ws)
    ensures MergeAll(ws, t) == MergeAll(vs, t)
    ensures AllClean(ws, t) <==> AllClean(vs, t)
  {
    var b := Board(entries, set id | id in entries && entries[id].status == Delivered);
    forall i, j, p | i != j && OwesFile(b, i, p)
      ensures !OwesFile(b, j, p)
    {
      assert Holds(entries, i, p) && !Holds(entries, j, p);
    }
    UnmergedTasksMergeInAnyOrder(b, ids, ws, vs, t);
  }

  /** Task 0 delivers a file, and before it is merged the gate lets Task 1 start on the same file. */
  function TakenOver(p: Path): seq<Event> {
    [Gate(Dispatch(0, [p], None)), Gate(Heartbeat(0, Delivered)), Gate(Dispatch(1, [p], None))]
  }

  /** The entries of the two Tasks. */
  function BothOwe(p: Path): Board {
    Board(map[0 := TaskEntry(Delivered, [p], true, None, {}), 1 := TaskEntry(Sleeping, [p], true, None, {})], {})
  }

  lemma TakenOverRun(p: Path)
    ensures RunBoard(Board(map[], {}), TakenOver(p)) == BothOwe(p)
  {
    var e1 := map[0 := TaskEntry(Sleeping, [p], true, None, {})];
    var e2 := map[0 := TaskEntry(Delivered, [p], true, None, {})];
    var events := TakenOver(p);
    assert !HasConflictWith(map[], [p]) && !HasConflictWith(e2, [p]);
    assert events[1..] == [events[1], events[2]] && events[1..][1..] == [events[2]] && events[1..][1..][1..] == [];
    assert ApplyOp(map[], Dispatch(0, [p], None)) == e1;
    assert ApplyOp(e1, Heartbeat(0, Delivered)) == e2;
    assert ApplyOp(e2, Dispatch(1, [p], None)) == BothOwe(p).entries;
    calc {
      RunBoard(Board(map[], {}), events);
      RunBoard(Board(e1, {}), [events[1], events[2]]);
      RunBoard(Board(e2, {}), [events[2]]);
      RunBoard(BothOwe(p), []);
    }
  }

  lemma BothOweIt(p: Path)
    ensures Exclusive(BothOwe(p).entries) && !ExclusiveUntilMerged(BothOwe(p)) && Owes(BothOwe(p), 0) && Owes(BothOwe(p), 1)
  {
    assert OwesFile(BothOwe(p), 0, p) && OwesFile(BothOwe(p), 1, p);
  }

  /** A workspace that adds one file changes nothing else. */
  lemma AddsWithinEstimate(p: Path, x: Bytes, entry: TaskEntry)
    requires entry.files == [p]
    ensures KeptToEstimate(entry, State(map[p := x], map[], true))
  {
  }

  /**
   * The gate alone does not see to it: it frees a file at delivery, so a later Task may take it before
   * the merge, and then the order of the two merges decides what is left, without a conflict.
   */
  lemma DeliveredFileIsTaken(p: Path, x: Bytes, y: Bytes)
    requires !Skipped(p) && x != y
    ensures var b := RunBoard(Board(map[], {}), TakenOver(p));
            var v, w := State(map[p := x], map[], true), State(map[p := y], map[], true);
            && Exclusive(b.entries) && !ExclusiveUntilMerged(b)
            && Owes(b, 0) && KeptToEstimate(b.entries[0], v) && Owes(b, 1) && KeptToEstimate(b.entries[1], w)
            && AllClean([v, w], map[]) && AllClean([w, v], map[]) && MergeAll([v, w], map[]) != MergeAll([w, v], map[])
  {
    TakenOverRun(p);
    BothOweIt(p);
    AddsWithinEstimate(p, x, BothOwe(p).entries[0]);
    AddsWithinEstimate(p, y, BothOwe(p).entries[1]);
    OverlapDependsOnOrder(p, x, y);
    assert map[p := x][p] != map[p := y][p];
  }
}
