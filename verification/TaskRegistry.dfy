/** The Orchestrator's table of Tasks, and the file-conflict gate that guards it. */
module TaskRegistry {
  import opened Wrappers
  import opened Lifecycle
  import Order

  /** "task-{n}"; n is the value of the counter that minted the id. */
  type TaskId = nat

  /** The components of a path relative to the project root. */
  type Path = Order.Path

  datatype TaskEntry = TaskEntry(
    status: TaskStatus,
    files: seq<Path>,
    dispatched: bool,
    parent: Option<TaskId>,
    pending: set<TaskId>)
  {
    predicate IsActive() {
      dispatched && !status.IsSettled()
    }
  }

  type Entries = map<TaskId, TaskEntry>

  /** The files of `id` while it is active. */
  predicate Holds(entries: Entries, id: TaskId, file: Path) {
    id in entries && entries[id].IsActive() && file in entries[id].files
  }

  predicate PredictConflict(existing: seq<Path>, incoming: seq<Path>) {
    existing != [] && exists p :: p in incoming && p in existing
  }

  /** Some active Task already holds one of `files`. */
  predicate HasConflictWith(entries: Entries, files: seq<Path>) {
    exists id, p :: id in entries && p in files && Holds(entries, id, p)
  }

  /** No two active Tasks hold a file in common. */
  ghost predicate Exclusive(entries: Entries) {
    forall i, j, p :: i != j && Holds(entries, i, p) ==> !Holds(entries, j, p)
  }

  // ---- What dispatch and heartbeats do to the table -------------------------------------

  /** The entry `dispatch_task` inserts: parked when the gate sees a conflict, running otherwise. */
  function NewEntry(entries: Entries, files: seq<Path>, parent: Option<TaskId>): TaskEntry {
    TaskEntry(Sleeping, files, !HasConflictWith(entries, files), parent, {})
  }

  function RecordHeartbeat(entries: Entries, id: TaskId, status: TaskStatus): Entries {
    if id in entries then entries[id := entries[id].(status := status)] else entries
  }

  /** A heartbeat that turns a settled, dispatched entry back into an active one. */
  predicate Revives(entries: Entries, id: TaskId, status: TaskStatus) {
    id in entries && entries[id].dispatched && entries[id].status.IsSettled() && !status.IsSettled()
  }

  /** `id`'s files clash with a file some other active Task holds. */
  predicate ClashesWithOther(entries: Entries, id: TaskId) {
    id in entries && exists j, p :: j in entries && j != id && p in entries[id].files && Holds(entries, j, p)
  }

  // ---- Safety of the gate over every run --------------------------------------------------

  datatype Op =
    | Dispatch(id: TaskId, files: seq<Path>, parent: Option<TaskId>)
    | Heartbeat(id: TaskId, status: TaskStatus)

  function ApplyOp(entries: Entries, op: Op): Entries {
    match op
    case Dispatch(id, files, parent) => entries[id := NewEntry(entries, files, parent)]
    case Heartbeat(id, status) => RecordHeartbeat(entries, id, status)
  }

  function RunTable(entries: Entries, ops: seq<Op>): Entries
    decreases |ops|
  {
    if ops == [] then entries else RunTable(ApplyOp(entries, ops[0]), ops[1..])
  }

  /** Every id handed to dispatch is new; the counter in the Orchestrator sees to it. */
  predicate FreshIds(entries: Entries, ops: seq<Op>)
    decreases |ops|
  {
    ops == [] || ((ops[0].Dispatch? ==> ops[0].id !in entries) && FreshIds(ApplyOp(entries, ops[0]), ops[1..]))
  }

  /** No heartbeat of the run revives an entry while another Task holds one of its files. */
  predicate NoClashingRevival(entries: Entries, ops: seq<Op>)
    decreases |ops|
  {
    ops == [] ||
    ((ops[0].Heartbeat? ==> !(Revives(entries, ops[0].id, ops[0].status) && ClashesWithOther(entries, ops[0].id))) &&
     NoClashingRevival(ApplyOp(entries, ops[0]), ops[1..]))
  }

  ghost predicate ExclusiveThroughout(entries: Entries, ops: seq<Op>)
    decreases |ops|
  {
    Exclusive(entries) && (ops == [] || ExclusiveThroughout(ApplyOp(entries, ops[0]), ops[1..]))
  }

  lemma DispatchKeepsExclusive(entries: Entries, id: TaskId, files: seq<Path>, parent: Option<TaskId>)
    requires Exclusive(entries) && id !in entries
    ensures Exclusive(ApplyOp(entries, Dispatch(id, files, parent)))
  {
    var after := ApplyOp(entries, Dispatch(id, files, parent));
    forall i, j, p | i != j
      ensures !(Holds(after, i, p) && Holds(after, j, p))
    {
      assert i != id ==> Holds(after, i, p) == Holds(entries, i, p);
      assert j != id ==> Holds(after, j, p) == Holds(entries, j, p);
      assert Holds(after, id, p) ==> p in files && !HasConflictWith(entries, files);
    }
  }

  /** One heartbeat breaks exclusivity exactly when it revives an entry whose files were taken meanwhile. */
  lemma HeartbeatKeepsExclusiveIff(entries: Entries, id: TaskId, status: TaskStatus)
    requires Exclusive(entries)
    ensures Exclusive(RecordHeartbeat(entries, id, status))
       <==> !(Revives(entries, id, status) && ClashesWithOther(entries, id))
  {
    var after := RecordHeartbeat(entries, id, status);
    forall j, p | j != id
      ensures Holds(after, j, p) == Holds(entries, j, p)
    {
    }
    if Revives(entries, id, status) && ClashesWithOther(entries, id) {
      var j, p :| j in entries && j != id && p in entries[id].files && Holds(entries, j, p);
      assert Holds(after, id, p) && Holds(after, j, p);
    } else {
      forall i, j, p | i != j
        ensures !(Holds(after, i, p) && Holds(after, j, p))
      {
        assert i != id ==> Holds(after, i, p) == Holds(entries, i, p);
        assert j != id ==> Holds(after, j, p) == Holds(entries, j, p);
        assert Holds(after, id, p) ==> Holds(entries, id, p) || !ClashesWithOther(entries, id);
      }
    }
  }

  /**
   * Over every run, active Tasks hold pairwise disjoint files at every moment exactly when no
   * heartbeat revives a settled Task whose files were taken in between.
   */
  lemma {:induction false} ActiveTasksNeverShareFiles(entries: Entries, ops: seq<Op>)
    requires Exclusive(entries) && FreshIds(entries, ops)
    ensures ExclusiveThroughout(entries, ops) <==> NoClashingRevival(entries, ops)
    decreases |ops|
  {
    if ops != [] {
      var next := ApplyOp(entries, ops[0]);
      match ops[0] {
        case Dispatch(id, files, parent) => DispatchKeepsExclusive(entries, id, files, parent);
        case Heartbeat(id, status) => HeartbeatKeepsExclusiveIff(entries, id, status);
      }
      if Exclusive(next) {
        ActiveTasksNeverShareFiles(next, ops[1..]);
      } else {
        assert !ExclusiveThroughout(next, ops[1..]);
      }
    }
  }

  /** The guard is needed: a Task that reports itself stuck and then resumes can share a file. */
  lemma RevivalSharesAFile()
    ensures var f := ["a.rs"];
            var ops := [Dispatch(0, [f], None), Heartbeat(0, Stuck), Dispatch(1, [f], None), Heartbeat(0, OnIt)];
            !Exclusive(RunTable(map[], ops))
  {
    var f := ["a.rs"];
    var e1 := ApplyOp(map[], Dispatch(0, [f], None));
    var e2 := ApplyOp(e1, Heartbeat(0, Stuck));
    var e3 := ApplyOp(e2, Dispatch(1, [f], None));
    var e4 := ApplyOp(e3, Heartbeat(0, OnIt));
    var ops := [Dispatch(0, [f], None), Heartbeat(0, Stuck), Dispatch(1, [f], None), Heartbeat(0, OnIt)];
    assert ops[1..] == [ops[1], ops[2], ops[3]];
    assert ops[1..][1..] == [ops[2], ops[3]];
    assert ops[1..][1..][1..] == [ops[3]];
    calc {
      RunTable(map[], ops);
      RunTable(e1, [ops[1], ops[2], ops[3]]);
      RunTable(e2, [ops[2], ops[3]]);
      RunTable(e3, [ops[3]]);
      RunTable(e4, []);
      e4;
    }
    assert f in [f];
    assert Holds(e4, 0, f) && Holds(e4, 1, f);
  }

  /** The estimate handed to the gate by the sub-task path is empty, so the gate never parks a sub-task. */
  lemma EmptyEstimateIsAlwaysDispatched(entries: Entries, parent: Option<TaskId>)
    ensures NewEntry(entries, [], parent).dispatched
  {
  }
}
