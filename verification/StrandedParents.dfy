/** Two reachable states in which a parent waits for a sub-task that no longer exists. */
module StrandedParents {
  import opened Wrappers
  import opened Lifecycle
  import opened TaskRegistry
  import opened SubtaskProtocol

  /** States that lead to each other one step at a time. */
  predicate Chain(states: seq<Sys>, steps: seq<Step>) {
    && |states| == |steps| + 1
    && forall i :: 0 <= i < |steps| ==> Enabled(states[i], steps[i]) && Apply(states[i], steps[i]) == states[i + 1]
  }

  lemma {:induction false} ChainRuns(states: seq<Sys>, steps: seq<Step>)
    requires Chain(states, steps)
    ensures CanRun(states[0], steps) && Run(states[0], steps) == states[|steps|]
    decreases |steps|
  {
    if steps != [] {
      ChainRuns(states[1..], steps[1..]);
    }
  }

  /** Task 0 alone, with no unread notification. */
  function Lone(counter: nat, queue: seq<Request>, hand: seq<Request>, parent: Parent): Sys {
    Sys(Shared(map[0 := TaskEntry(Sleeping, [], true, None, {})], counter, queue, map[0 := []]), hand, Idle, map[0 := parent])
  }

  lemma LoneSubmit()
    ensures Enabled(Init, Submit([], true)) && Apply(Init, Submit([], true)) == Lone(1, [], [], NewParent)
  {
    assert !HasConflictWith(map[], []);
  }

  lemma LoneStep(counter: nat, queue: seq<Request>, hand: seq<Request>, parent: Parent, step: Step)
    requires IsOwnStep(step) && step.parent == 0 && Ready(parent, step)
    ensures Enabled(Lone(counter, queue, hand, parent), step)
    ensures Apply(Lone(counter, queue, hand, parent), step) == Lone(counter, queue, hand, Stepped(parent, step, 0))
  {
    var s, after := Lone(counter, queue, hand, parent), Stepped(parent, step, 0);
    assert s.parents[0 := after] == map[0 := after];
  }

  lemma LonePush(counter: nat, parent: Parent, x: string)
    requires parent.mode == InTurn
    ensures Enabled(Lone(counter, [], [], parent), PushRequest(0, x))
    ensures Apply(Lone(counter, [], [], parent), PushRequest(0, x)) ==
            Lone(counter, [Request(0, x)], [], parent.(uncounted := parent.uncounted + 1))
  {
    var after := parent.(uncounted := parent.uncounted + 1);
    assert map[0 := parent][0 := after] == map[0 := after];
  }

  lemma LoneTake(counter: nat, r: Request, parent: Parent)
    ensures Enabled(Lone(counter, [r], [], parent), TakeRequests)
    ensures Apply(Lone(counter, [r], [], parent), TakeRequests) == Lone(counter, [], [r], parent)
  {
  }

  lemma LoneLoss(counter: nat, r: Request, parent: Parent)
    requires counter > 0 && r.parent == 0
    ensures Enabled(Lone(counter, [], [r], parent), DispatchNext(false))
    ensures Apply(Lone(counter, [], [r], parent), DispatchNext(false)) ==
            Lone(counter + 1, [], [], parent.(failed := parent.failed + 1))
  {
    var s := Lone(counter, [], [r], parent);
    EmptyEstimateIsAlwaysDispatched(s.shared.entries, Some(0));
    assert s.hand[1..] == [];
  }

  predicate Reaches(s: Sys, steps: seq<Step>, t: Sys) {
    CanRun(s, steps) && Run(s, steps) == t
  }

  lemma ReachesOn(s: Sys, a: seq<Step>, t: Sys, b: seq<Step>, u: Sys)
    requires Reaches(s, a, t) && Reaches(t, b, u)
    ensures Reaches(s, a + b, u)
  {
    RunAppend(s, a, b);
  }

  lemma LoneBegins()
    ensures Reaches(Init, [Submit([], true), StartTurn(0), PushRequest(0, "x")],
                    Lone(1, [Request(0, "x")], [], Parent(0, 1, InTurn, false, 0, 0, 0)))
  {
    var turning, asked := Parent(0, 0, InTurn, false, 0, 0, 0), Parent(0, 1, InTurn, false, 0, 0, 0);
    LoneSubmit();
    LoneStep(1, [], [], NewParent, StartTurn(0));
    LonePush(1, turning, "x");
    ChainRuns([Init, Lone(1, [], [], NewParent), Lone(1, [], [], turning), Lone(1, [Request(0, "x")], [], asked)],
              [Submit([], true), StartTurn(0), PushRequest(0, "x")]);
  }

  /** Task 0 asks for one sub-task, counts `extra` too much, and the Orchestrator takes the request. */
  lemma LoneAsks(extra: nat) returns (steps: seq<Step>)
    ensures Reaches(Init, steps, Lone(1, [], [Request(0, "x")], Parent(1 + extra, 0, AtHead, false, 0, 0, extra)))
  {
    var r, asked, counted := Request(0, "x"), Parent(0, 1, InTurn, false, 0, 0, 0), Parent(1 + extra, 0, AtHead, false, 0, 0, extra);
    var s, t, u := Lone(1, [r], [], asked), Lone(1, [r], [], counted), Lone(1, [], [r], counted);
    LoneStep(1, [r], [], asked, EndToolTurn(0, extra));
    LoneTake(1, r, counted);
    ChainRuns([s, t, u], [EndToolTurn(0, extra), TakeRequests]);
    LoneBegins();
    ReachesOn(Init, [Submit([], true), StartTurn(0), PushRequest(0, "x")], s, [EndToolTurn(0, extra), TakeRequests], u);
    steps := [Submit([], true), StartTurn(0), PushRequest(0, "x")] + [EndToolTurn(0, extra), TakeRequests];
  }

  lemma ReachesNext(s: Sys, steps: seq<Step>, t: Sys, step: Step, u: Sys)
    requires Reaches(s, steps, t) && Enabled(t, step) && Apply(t, step) == u
    ensures Reaches(s, steps + [step], u)
  {
    AdvanceRun(s, steps, t, step, u);
  }

  /** The block is reachable: one failed dispatch strands its parent at count one with nothing in flight. */
  lemma FailedDispatchStrandsParent() returns (steps: seq<Step>)
    ensures CanRun(Init, steps)
    ensures var s := Run(Init, steps);
            && InMode(s, 0, AtHead) && s.parents[0].count == s.parents[0].failed == 1 && !s.parents[0].timedOut
            && InFlight(s, 0) == 0
  {
    var counted := Parent(1, 0, AtHead, false, 0, 0, 0);
    var end := Lone(2, [], [], counted.(failed := 1));
    LoneLoss(1, Request(0, "x"), counted);
    steps := LoneAsks(0);
    ReachesNext(Init, steps, Lone(1, [], [Request(0, "x")], counted), DispatchNext(false), end);
    steps := steps + [DispatchNext(false)];
    assert Unreported(end, 0) == {};
  }

  /** Task 0 and its sub-task 1, with nothing queued. */
  function Family(status: TaskStatus, pending: set<TaskId>, notes: seq<Note>, sweep: Sweep, parent: Parent): Sys {
    Sys(Shared(map[0 := TaskEntry(Sleeping, [], true, None, pending), 1 := TaskEntry(status, [], true, Some(0), {})],
               2, [], map[0 := notes, 1 := []]),
        [], sweep, map[0 := parent, 1 := NewParent])
  }

  lemma FamilyBegins(parent: Parent)
    ensures Enabled(Lone(1, [], [Request(0, "x")], parent), DispatchNext(true))
    ensures Apply(Lone(1, [], [Request(0, "x")], parent), DispatchNext(true)) == Family(Sleeping, {1}, [], Idle, parent)
  {
    var s := Lone(1, [], [Request(0, "x")], parent);
    EmptyEstimateIsAlwaysDispatched(s.shared.entries, Some(0));
    assert s.hand[1..] == [] && {} + {1} == {1};
  }

  lemma FamilyDelivers(parent: Parent)
    ensures Enabled(Family(Sleeping, {1}, [], Idle, parent), Beat(1, Delivered))
    ensures Apply(Family(Sleeping, {1}, [], Idle, parent), Beat(1, Delivered)) == Family(Delivered, {1}, [], Idle, parent)
  {
  }

  lemma FamilySweeps(parent: Parent)
    ensures var s0, s1 := Family(Delivered, {1}, [], Idle, parent), Family(Delivered, {1}, [], Sweeping(0, {1}, {}), parent);
            var s2 := Family(Delivered, {1}, [Completed(1)], Sweeping(0, {}, {1}), parent);
            && Enabled(s0, BeginSweep(0)) && Apply(s0, BeginSweep(0)) == s1
            && Enabled(s1, CheckChild(1)) && Apply(s1, CheckChild(1)) == s2
            && Enabled(s2, EndSweep) && Apply(s2, EndSweep) == Family(Delivered, {}, [Completed(1)], Idle, parent)
  {
    assert {1} - {1} == {} && {} + {1} == {1};
    assert [] + [Completed(1)] == [Completed(1)];
  }

  lemma FamilyReads(parent: Parent)
    requires parent.mode == AtHead && parent.count > 0
    ensures Enabled(Family(Delivered, {}, [Completed(1)], Idle, parent), DrainNotes(0))
    ensures Apply(Family(Delivered, {}, [Completed(1)], Idle, parent), DrainNotes(0)) ==
            Family(Delivered, {}, [], Idle, parent.(count := parent.count - 1))
  {
  }

  lemma FamilyWorks(parent: Parent) returns (steps: seq<Step>)
    ensures Reaches(Lone(1, [], [Request(0, "x")], parent), steps, Family(Delivered, {1}, [], Idle, parent))
  {
    FamilyBegins(parent);
    FamilyDelivers(parent);
    steps := [DispatchNext(true), Beat(1, Delivered)];
    ChainRuns([Lone(1, [], [Request(0, "x")], parent), Family(Sleeping, {1}, [], Idle, parent), Family(Delivered, {1}, [], Idle, parent)],
              steps);
  }

  lemma FamilyReports(parent: Parent) returns (steps: seq<Step>)
    requires parent.mode == AtHead && parent.count > 0
    ensures Reaches(Family(Delivered, {1}, [], Idle, parent), steps,
                    Family(Delivered, {}, [], Idle, parent.(count := parent.count - 1)))
  {
    FamilySweeps(parent);
    FamilyReads(parent);
    steps := [BeginSweep(0), CheckChild(1), EndSweep, DrainNotes(0)];
    ChainRuns([Family(Delivered, {1}, [], Idle, parent), Family(Delivered, {1}, [], Sweeping(0, {1}, {}), parent),
               Family(Delivered, {1}, [Completed(1)], Sweeping(0, {}, {1}), parent),
               Family(Delivered, {}, [Completed(1)], Idle, parent),
               Family(Delivered, {}, [], Idle, parent.(count := parent.count - 1))],
              steps);
  }

  /** So does a result counted too much: count one, with its only sub-task delivered and read. */
  lemma OvercountStrandsParent() returns (steps: seq<Step>)
    ensures CanRun(Init, steps)
    ensures var s := Run(Init, steps);
            && InMode(s, 0, AtHead) && s.parents[0].count == s.parents[0].overcounted == 1 && !s.parents[0].timedOut
            && InFlight(s, 0) == 0
  {
    var counted := Parent(2, 0, AtHead, false, 0, 0, 1);
    var end := Family(Delivered, {}, [], Idle, counted.(count := 1));
    steps := LoneAsks(1);
    var work := FamilyWorks(counted);
    var report := FamilyReports(counted);
    ReachesOn(Init, steps, Lone(1, [], [Request(0, "x")], counted), work, Family(Delivered, {1}, [], Idle, counted));
    ReachesOn(Init, steps + work, Family(Delivered, {1}, [], Idle, counted), report, end);
    steps := steps + work + report;
    assert Unreported(end, 0) == {};
  }
}
