/** The Orchestrator's methods, each proved to be a run of the sub-task protocol. */
module Orchestration {
  import opened Wrappers
  import opened Lifecycle
  import opened TaskRegistry
  import opened SubtaskProtocol

  // ---- What a whole drain does ------------------------------------------------------------

  /** Dispatches `requests` in order; `oks[i]` says whether request i got a workspace. */
  function DispatchAll(sh: Shared, requests: seq<Request>, oks: seq<bool>): Shared
    requires |requests| == |oks|
    decreases |requests|
  {
    if requests == [] then sh else DispatchAll(DispatchChild(sh, requests[0], oks[0]), requests[1..], oks[1..])
  }

  function DispatchSteps(oks: seq<bool>): seq<Step> {
    seq(|oks|, i requires 0 <= i < |oks| => DispatchNext(oks[i]))
  }

  lemma {:induction false} DispatchAllIsARun(s: Sys, oks: seq<bool>)
    requires s.sweep.Idle? && |s.hand| == |oks|
    ensures CanRun(s, DispatchSteps(oks))
    ensures var s' := Run(s, DispatchSteps(oks));
            s'.shared == DispatchAll(s.shared, s.hand, oks) && s'.hand == [] && s'.sweep.Idle?
    decreases |oks|
  {
    if oks != [] {
      var next := Apply(s, DispatchNext(oks[0]));
      assert DispatchSteps(oks)[1..] == DispatchSteps(oks[1..]);
      DispatchAllIsARun(next, oks[1..]);
    }
  }

  /** Draining the queue in one call is one of the interleavings the ledger was proved for. */
  lemma DrainIsARun(s: Sys, oks: seq<bool>)
    requires OrchestratorFree(s) && |s.shared.queue| == |oks|
    ensures CanRun(s, [TakeRequests] + DispatchSteps(oks))
    ensures var s' := Run(s, [TakeRequests] + DispatchSteps(oks));
            && s'.shared == DispatchAll(s.shared.(queue := []), s.shared.queue, oks)
            && OrchestratorFree(s')
  {
    var taken := Apply(s, TakeRequests);
    DispatchAllIsARun(taken, oks);
    assert ([TakeRequests] + DispatchSteps(oks))[1..] == DispatchSteps(oks);
  }

  lemma {:induction false} DispatchAllAppend(sh: Shared, a: seq<Request>, x: seq<bool>, b: seq<Request>, y: seq<bool>)
    requires |a| == |x| && |b| == |y|
    ensures DispatchAll(sh, a + b, x + y) == DispatchAll(DispatchAll(sh, a, x), b, y)
    decreases |a|
  {
    if a == [] {
      assert a + b == b && x + y == y;
    } else {
      assert (a + b)[1..] == a[1..] + b && (x + y)[1..] == x[1..] + y;
      DispatchAllAppend(DispatchChild(sh, a[0], x[0]), a[1..], x[1..], b, y);
    }
  }

  /** The (parent, child) pairs of the requests that were dispatched; every request spends one id. */
  function ChildPairs(counter: nat, requests: seq<Request>, oks: seq<bool>): seq<(TaskId, TaskId)>
    requires |requests| == |oks|
    decreases |requests|
  {
    if requests == [] then [] else
      ChildPairs(counter, requests[..|requests| - 1], oks[..|oks| - 1]) +
      (if oks[|oks| - 1] then [(requests[|requests| - 1].parent, counter + |requests| - 1)] else [])
  }

  // ---- What a whole completion check does ---------------------------------------------------

  function Settled(entries: Entries, children: set<TaskId>): set<TaskId> {
    set c | c in children && IsReportable(entries, c)
  }

  /** Every settled child still listed by a parent, with that parent. */
  function SettledPairs(entries: Entries): set<(TaskId, TaskId)> {
    set p, c | p in entries && c in entries[p].pending && IsReportable(entries, c) :: (p, c)
  }

  function PairsOf(p: TaskId, children: set<TaskId>): set<(TaskId, TaskId)> {
    set c | c in children :: (p, c)
  }

  lemma {:induction false} PairsSize(p: TaskId, children: set<TaskId>)
    ensures |PairsOf(p, children)| == |children|
  {
    if children != {} {
      var c :| c in children;
      PairsSize(p, children - {c});
      assert PairsOf(p, children) == PairsOf(p, children - {c}) + {(p, c)};
    }
  }

  function Min(a: nat, b: nat): nat {
    if a < b then a else b
  }

  /** `after` is `before` plus as many notes about `children` as the cap leaves room for, each about another child. */
  ghost predicate Notified(entries: Entries, before: seq<Note>, after: seq<Note>, children: set<TaskId>) {
    && before <= after
    && (|before| <= NOTIFICATION_CAP ==> |after| == Min(NOTIFICATION_CAP, |before| + |children|))
    && (|before| > NOTIFICATION_CAP ==> after == before)
    && (forall i :: |before| <= i < |after| ==> IsNoteAbout(entries, after[i], children))
    && (forall i, j :: |before| <= i < j < |after| ==> after[i].child != after[j].child)
  }

  /** The note is about a settled child and tells how it ended. */
  ghost predicate IsNoteAbout(entries: Entries, note: Note, children: set<TaskId>) {
    note.child in children && note.child in entries && Tells(note, note.child, entries[note.child].status)
  }

  function CheckOne(sh: Shared, p: TaskId, c: TaskId): Shared {
    if IsReportable(sh.entries, c) then PushNote(sh, p, c) else sh
  }

  /** Looks at the children in `order`, the hash-set order of the program. */
  function CheckAll(sh: Shared, p: TaskId, order: seq<TaskId>): Shared
    decreases |order|
  {
    if order == [] then sh else CheckOne(CheckAll(sh, p, order[..|order| - 1]), p, order[|order| - 1])
  }

  function Elems(order: seq<TaskId>): set<TaskId> {
    set c | c in order
  }

  lemma ElemsAppend(order: seq<TaskId>, c: TaskId)
    ensures Elems(order + [c]) == Elems(order) + {c}
  {
  }

  predicate Enumerates(order: seq<TaskId>, all: set<TaskId>) {
    Elems(order) == all && forall i, j :: 0 <= i < j < |order| ==> order[i] != order[j]
  }

  function SweepParent(sh: Shared, p: TaskId, order: seq<TaskId>): Shared {
    RemovePending(CheckAll(sh, p, order), p, Settled(sh.entries, Elems(order)))
  }

  /** Sweeps each parent of `plan` with its own child order. */
  function SweepAll(sh: Shared, plan: seq<(TaskId, seq<TaskId>)>): Shared
    decreases |plan|
  {
    if plan == [] then sh else
    SweepParent(SweepAll(sh, plan[..|plan| - 1]), plan[|plan| - 1].0, plan[|plan| - 1].1)
  }

  /** `now` differs from `sh` only in p's queue, which has been told about `children`. */
  ghost predicate Told(sh: Shared, now: Shared, p: TaskId, children: set<TaskId>) {
    && now.(notes := sh.notes) == sh
    && now.notes.Keys == sh.notes.Keys
    && (forall q :: q in sh.notes && q != p ==> now.notes[q] == sh.notes[q])
    && (p in sh.notes ==> Notified(sh.entries, sh.notes[p], now.notes[p], children))
  }

  lemma NotifyOneMore(entries: Entries, before: seq<Note>, mid: seq<Note>, told: set<TaskId>, c: TaskId)
    requires Notified(entries, before, mid, told) && c !in told && IsReportable(entries, c)
    ensures Notified(entries, before, if |mid| < NOTIFICATION_CAP then mid + [NoteFor(entries, c)] else mid, told + {c})
  {
    var after := if |mid| < NOTIFICATION_CAP then mid + [NoteFor(entries, c)] else mid;
    NotesTell(entries, c);
    forall i | |before| <= i < |after|
      ensures IsNoteAbout(entries, after[i], told + {c})
    {
      if i < |mid| {
        assert IsNoteAbout(entries, mid[i], told);
      }
    }
  }

  lemma ToldOneMore(sh: Shared, mid: Shared, p: TaskId, told: set<TaskId>, c: TaskId)
    requires Told(sh, mid, p, told) && c !in told
    ensures Told(sh, CheckOne(mid, p, c), p, told + (if IsReportable(sh.entries, c) then {c} else {}))
  {
    if IsReportable(sh.entries, c) {
      if p in sh.notes {
        NotifyOneMore(sh.entries, sh.notes[p], mid.notes[p], told, c);
      }
    } else {
      assert told + {} == told;
    }
  }

  lemma {:induction false} CheckAllMeaning(sh: Shared, p: TaskId, order: seq<TaskId>)
    requires forall i, j :: 0 <= i < j < |order| ==> order[i] != order[j]
    ensures Told(sh, CheckAll(sh, p, order), p, Settled(sh.entries, Elems(order)))
    decreases |order|
  {
    if order != [] {
      var rest, c := order[..|order| - 1], order[|order| - 1];
      CheckAllMeaning(sh, p, rest);
      assert order == rest + [c];
      ElemsAppend(rest, c);
      ToldOneMore(sh, CheckAll(sh, p, rest), p, Settled(sh.entries, Elems(rest)), c);
      assert Settled(sh.entries, Elems(order)) ==
             Settled(sh.entries, Elems(rest)) + (if IsReportable(sh.entries, c) then {c} else {});
    }
  }

  function CheckSteps(order: seq<TaskId>): seq<Step> {
    seq(|order|, i requires 0 <= i < |order| => CheckChild(order[i]))
  }

  lemma {:induction false} CheckAllIsARun(s: Sys, order: seq<TaskId>)
    requires s.sweep.Sweeping? && s.sweep.reported == {} && Enumerates(order, s.sweep.todo)
    ensures CanRun(s, CheckSteps(order))
    ensures var s' := Run(s, CheckSteps(order));
            && s'.shared == CheckAll(s.shared, s.sweep.parent, order) && s'.hand == s.hand
            && s'.sweep == Sweeping(s.sweep.parent, {}, Settled(s.shared.entries, Elems(order)))
  {
    var t := ChecksUpTo(s, order, |order|);
    assert order[..|order|] == order;
    assert s.sweep.todo - Elems(order) == {};
  }

  /** `t` is reached from `s` by checking the children in `order`. */
  ghost predicate Checked(s: Sys, order: seq<TaskId>, t: Sys)
    requires s.sweep.Sweeping?
  {
    && CanRun(s, CheckSteps(order)) && Run(s, CheckSteps(order)) == t
    && t.shared == CheckAll(s.shared, s.sweep.parent, order) && t.shared.entries == s.shared.entries && t.hand == s.hand
    && t.sweep == Sweeping(s.sweep.parent, s.sweep.todo - Elems(order), Settled(s.shared.entries, Elems(order)))
  }

  lemma CheckedOneMore(s: Sys, prefix: seq<TaskId>, t: Sys, c: TaskId) returns (u: Sys)
    requires s.sweep.Sweeping? && Checked(s, prefix, t) && c in s.sweep.todo && c !in Elems(prefix)
    ensures Checked(s, prefix + [c], u)
  {
    u := Apply(t, CheckChild(c));
    ElemsAppend(prefix, c);
    CheckOneStep(t, c, s.sweep.todo - Elems(prefix + [c]), Settled(s.shared.entries, Elems(prefix + [c])));
    assert (prefix + [c])[..|prefix|] == prefix;
    assert CheckSteps(prefix + [c]) == CheckSteps(prefix) + [CheckChild(c)];
    AdvanceRun(s, CheckSteps(prefix), t, CheckChild(c), u);
  }

  lemma {:induction false} ChecksUpTo(s: Sys, order: seq<TaskId>, n: nat) returns (t: Sys)
    requires s.sweep.Sweeping? && s.sweep.reported == {} && Enumerates(order, s.sweep.todo) && n <= |order|
    ensures Checked(s, order[..n], t)
    decreases n
  {
    if n == 0 {
      t := s;
      assert s.sweep.todo - Elems(order[..0]) == s.sweep.todo;
      assert Settled(s.shared.entries, Elems(order[..0])) == {};
    } else {
      t := ChecksUpTo(s, order, n - 1);
      assert order[..n] == order[..n - 1] + [order[n - 1]];
      assert order[n - 1] in Elems(order);
      t := CheckedOneMore(s, order[..n - 1], t, order[n - 1]);
    }
  }

  lemma CheckOneStep(t: Sys, c: TaskId, todo: set<TaskId>, reported: set<TaskId>)
    requires t.sweep.Sweeping? && c in t.sweep.todo && todo == t.sweep.todo - {c}
    requires reported == t.sweep.reported + (if IsReportable(t.shared.entries, c) then {c} else {})
    ensures var u := Apply(t, CheckChild(c));
            && u.shared == CheckOne(t.shared, t.sweep.parent, c) && u.hand == t.hand
            && u.sweep == Sweeping(t.sweep.parent, todo, reported)
  {
  }

  /** Sweeping one parent in one go is one of the interleavings the ledger was proved for. */
  lemma SweepParentIsARun(s: Sys, p: TaskId, order: seq<TaskId>) returns (steps: seq<Step>)
    requires OrchestratorFree(s) && p in s.shared.entries && s.shared.entries[p].pending != {}
    requires Enumerates(order, s.shared.entries[p].pending)
    ensures CanRun(s, steps) && Run(s, steps).shared == SweepParent(s.shared, p, order) && OrchestratorFree(Run(s, steps))
  {
    var begun := Apply(s, BeginSweep(p));
    AdvanceRun(s, [], s, BeginSweep(p), begun);
    CheckAllIsARun(begun, order);
    CheckAllMeaning(s.shared, p, order);
    var checked := Run(begun, CheckSteps(order));
    RunAppend(s, [BeginSweep(p)], CheckSteps(order));
    steps := [BeginSweep(p)] + CheckSteps(order);
    AdvanceRun(s, steps, checked, EndSweep, Apply(checked, EndSweep));
    steps := steps + [EndSweep];
  }

  /** `plan` visits distinct parents, each with an order of exactly its pending children. */
  predicate IsPlan(entries: Entries, plan: seq<(TaskId, seq<TaskId>)>) {
    && (forall i :: 0 <= i < |plan| ==> plan[i].0 in entries)
    && (forall i :: 0 <= i < |plan| ==> entries[plan[i].0].pending != {})
    && (forall i :: 0 <= i < |plan| ==> Enumerates(plan[i].1, entries[plan[i].0].pending))
    && (forall i, j :: 0 <= i < j < |plan| ==> plan[i].0 != plan[j].0)
  }

  function ParentsIn(plan: seq<(TaskId, seq<TaskId>)>): set<TaskId> {
    set x | x in plan :: x.0
  }

  lemma PlanButLast(entries: Entries, plan: seq<(TaskId, seq<TaskId>)>)
    requires IsPlan(entries, plan) && plan != []
    ensures IsPlan(entries, plan[..|plan| - 1])
    ensures plan[|plan| - 1].0 !in ParentsIn(plan[..|plan| - 1])
    ensures ParentsIn(plan) == ParentsIn(plan[..|plan| - 1]) + {plan[|plan| - 1].0}
  {
    assert plan == plan[..|plan| - 1] + [plan[|plan| - 1]];
  }

  function SweptEntry(entries: Entries, p: TaskId): TaskEntry
    requires p in entries
  {
    entries[p].(pending := entries[p].pending - Settled(entries, entries[p].pending))
  }

  /** `now` is `before` with the parents in `done` swept and everything else untouched. */
  ghost predicate Swept(before: Shared, now: Shared, done: set<TaskId>) {
    && now.counter == before.counter && now.queue == before.queue
    && now.entries.Keys == before.entries.Keys && now.notes.Keys == before.notes.Keys
    && (forall p :: p in now.entries ==>
          now.entries[p] == if p in done then SweptEntry(before.entries, p) else before.entries[p])
    && (forall p :: p in now.notes && p !in done ==> now.notes[p] == before.notes[p])
    && (forall p :: p in now.notes && p in done && p in before.entries ==>
          Notified(before.entries, before.notes[p], now.notes[p], Settled(before.entries, before.entries[p].pending)))
  }

  /** Sweeping changes no status, so what is reportable stays the same throughout. */
  lemma SameReportable(a: Entries, b: Entries)
    requires a.Keys == b.Keys && forall p :: p in a ==> a[p].status == b[p].status
    ensures forall c :: IsReportable(a, c) == IsReportable(b, c)
    ensures forall cs :: Settled(a, cs) == Settled(b, cs)
    ensures forall c :: IsReportable(a, c) ==> NoteFor(a, c) == NoteFor(b, c)
  {
  }

  lemma SweepOneMore(start: Shared, before: Shared, done: set<TaskId>, p: TaskId, order: seq<TaskId>)
    requires Swept(start, before, done) && p !in done && p in start.entries
    requires Enumerates(order, start.entries[p].pending)
    ensures Swept(start, SweepParent(before, p, order), done + {p})
  {
    SameReportable(start.entries, before.entries);
    CheckAllMeaning(before, p, order);
    assert Elems(order) == start.entries[p].pending;
    var settled, now := Settled(start.entries, start.entries[p].pending), SweepParent(before, p, order);
    if p in start.notes {
      assert Notified(before.entries, before.notes[p], now.notes[p], settled);
      forall i | |start.notes[p]| <= i < |now.notes[p]|
        ensures IsNoteAbout(start.entries, now.notes[p][i], settled)
      {
        assert IsNoteAbout(before.entries, now.notes[p][i], settled);
      }
    }
  }

  /** A whole completion check strikes off exactly the settled children and notifies as far as the cap allows. */
  lemma {:induction false} SweepAllMeaning(sh: Shared, plan: seq<(TaskId, seq<TaskId>)>)
    requires IsPlan(sh.entries, plan)
    ensures Swept(sh, SweepAll(sh, plan), ParentsIn(plan))
    decreases |plan|
  {
    if plan != [] {
      var rest, last := plan[..|plan| - 1], plan[|plan| - 1];
      PlanButLast(sh.entries, plan);
      SweepAllMeaning(sh, rest);
      SweepOneMore(sh, SweepAll(sh, rest), ParentsIn(rest), last.0, last.1);
    }
  }

  /** A whole completion check is one of the interleavings the ledger was proved for. */
  lemma {:induction false} SweepAllIsARun(s: Sys, plan: seq<(TaskId, seq<TaskId>)>) returns (steps: seq<Step>)
    requires OrchestratorFree(s) && IsPlan(s.shared.entries, plan)
    ensures CanRun(s, steps) && Run(s, steps).shared == SweepAll(s.shared, plan) && OrchestratorFree(Run(s, steps))
    decreases |plan|
  {
    steps := [];
    if plan != [] {
      var rest, last := plan[..|plan| - 1], plan[|plan| - 1];
      PlanButLast(s.shared.entries, plan);
      steps := SweepAllIsARun(s, rest);
      SweepAllMeaning(s.shared, rest);
      var t := Run(s, steps);
      assert t.shared.entries[last.0] == s.shared.entries[last.0];
      var more := SweepParentIsARun(t, last.0, last.1);
      RunAppend(s, steps, more);
      steps := steps + more;
    }
  }

  lemma DispatchSnoc(sh: Shared, a: seq<Request>, x: seq<bool>, r: Request, ok: bool)
    requires |a| == |x|
    ensures DispatchAll(sh, a + [r], x + [ok]) == DispatchChild(DispatchAll(sh, a, x), r, ok)
  {
    DispatchAllAppend(sh, a, x, [r], [ok]);
    var t := DispatchAll(sh, a, x);
    assert [r][1..] == [] && [ok][1..] == [];
    assert DispatchAll(t, [r], [ok]) == DispatchAll(DispatchChild(t, r, ok), [], []);
  }

  lemma PairsSnoc(counter: nat, a: seq<Request>, x: seq<bool>, r: Request, ok: bool)
    requires |a| == |x|
    ensures ChildPairs(counter, a + [r], x + [ok]) ==
            ChildPairs(counter, a, x) + (if ok then [(r.parent, counter + |a|)] else [])
  {
    assert (a + [r])[..|a|] == a && (x + [ok])[..|x|] == x;
  }

  lemma TakeNext<T>(s: seq<T>, i: nat)
    requires i < |s|
    ensures s[..i + 1] == s[..i] + [s[i]]
  {
  }

  lemma DispatchedNext(sh: Shared, requests: seq<Request>, oks: seq<bool>, i: nat)
    requires |requests| == |oks| && i < |requests|
    ensures DispatchAll(sh, requests[..i + 1], oks[..i + 1]) ==
            DispatchChild(DispatchAll(sh, requests[..i], oks[..i]), requests[i], oks[i])
  {
    TakeNext(requests, i);
    TakeNext(oks, i);
    DispatchSnoc(sh, requests[..i], oks[..i], requests[i], oks[i]);
  }

  lemma PairsNext(counter: nat, requests: seq<Request>, oks: seq<bool>, i: nat)
    requires |requests| == |oks| && i < |requests|
    ensures ChildPairs(counter, requests[..i + 1], oks[..i + 1]) ==
            ChildPairs(counter, requests[..i], oks[..i]) + (if oks[i] then [(requests[i].parent, counter + i)] else [])
  {
    TakeNext(requests, i);
    TakeNext(oks, i);
    PairsSnoc(counter, requests[..i], oks[..i], requests[i], oks[i]);
  }

  class Orchestrator {
    var entries: Entries
    var counter: nat
    var queue: seq<Request>
    var notes: map<TaskId, seq<Note>>

    ghost function View(): Shared
      reads this
    {
      Shared(entries, counter, queue, notes)
    }

    constructor ()
      ensures View() == Init.shared
    {
      entries, counter, queue, notes := map[], 0, [], map[];
    }

    /** All files held by active Tasks, in the registry's arbitrary order. */
    method ActiveEstimatedFiles() returns (files: seq<Path>)
      ensures forall p :: p in files <==> exists id :: Holds(entries, id, p)
    {
      files := [];
      var rest := entries.Keys;
      while rest != {}
        invariant rest <= entries.Keys
        invariant forall p :: p in files <==> exists id :: id !in rest && Holds(entries, id, p)
      {
        var id :| id in rest;
        ghost var before := files;
        if entries[id].IsActive() {
          files := files + entries[id].files;
        }
        rest := rest - {id};
        forall p
          ensures p in files <==> exists j :: j !in rest && Holds(entries, j, p)
        {
          assert p in files <==> p in before || Holds(entries, id, p);
        }
      }
    }

    method HasConflict(files: seq<Path>) returns (conflict: bool)
      ensures conflict <==> HasConflictWith(entries, files)
    {
      var active := ActiveEstimatedFiles();
      forall id, p | p in files && Holds(entries, id, p)
        ensures p in active
      {
      }
      conflict := PredictConflict(active, files);
    }

    method DispatchOne(files: seq<Path>, parent: Option<TaskId>, workspaceOk: bool) returns (id: Option<TaskId>)
      modifies this
      ensures View() == DispatchTask(old(View()), files, parent, workspaceOk)
      ensures id == if workspaceOk || HasConflictWith(old(entries), files) then Some(old(counter)) else None
      ensures counter == old(counter) + 1 && queue == old(queue)
      ensures id.None? ==> entries == old(entries) && notes == old(notes)
      ensures id.Some? ==>
                var conflict := HasConflictWith(old(entries), files);
                && entries == old(entries)[id.value := TaskEntry(Sleeping, files, !conflict, parent, {})]
                && notes == if conflict then old(notes) else old(notes)[id.value := []]
    {
      var taskId := counter;
      counter := counter + 1;
      var conflict := HasConflict(files);
      if conflict {
        entries := entries[taskId := TaskEntry(Sleeping, files, false, parent, {})];
        return Some(taskId);
      }
      if !workspaceOk {
        return None;
      }
      notes := notes[taskId := []];
      entries := entries[taskId := TaskEntry(Sleeping, files, true, parent, {})];
      id := Some(taskId);
    }

    method DrainHeartbeats(beats: seq<(TaskId, TaskStatus)>)
      modifies this`entries
      ensures entries == RunTable(old(entries), seq(|beats|, i requires 0 <= i < |beats| => Heartbeat(beats[i].0, beats[i].1)))
    {
      var i := 0;
      ghost var ops := seq(|beats|, i requires 0 <= i < |beats| => Heartbeat(beats[i].0, beats[i].1));
      while i < |beats|
        invariant 0 <= i <= |beats|
        invariant RunTable(old(entries), ops) == RunTable(entries, ops[i..])
      {
        assert ops[i..][1..] == ops[i + 1..];
        entries := RecordHeartbeat(entries, beats[i].0, beats[i].1);
        i := i + 1;
      }
    }

    /** Dispatches the child of one request and records it with its parent. */
    method DispatchRequest(r: Request, ok: bool) returns (child: Option<TaskId>)
      modifies this
      ensures View() == DispatchChild(old(View()), r, ok)
      ensures counter == old(counter) + 1 && child == if ok then Some(old(counter)) else None
      ensures child.None? ==> entries == old(entries) && notes == old(notes)
      ensures child.Some? && r.parent != child.value ==>
                && child.value in entries && entries[child.value] == TaskEntry(Sleeping, [], true, Some(r.parent), {})
                && r.parent in notes && notes[r.parent] == (if r.parent in old(notes) then old(notes)[r.parent] else [])
                && (r.parent in old(entries) ==>
                      entries[r.parent] == old(entries)[r.parent].(pending := old(entries)[r.parent].pending + {child.value}))
    {
      EmptyEstimateIsAlwaysDispatched(entries, Some(r.parent));
      child := DispatchOne([], Some(r.parent), ok);
      if child.Some? {
        if r.parent !in notes {
          notes := notes[r.parent := []];
        }
        if r.parent in entries {
          entries := entries[r.parent := entries[r.parent].(pending := entries[r.parent].pending + {child.value})];
        }
      }
    }

    method DrainSubtaskRequests(oks: seq<bool>) returns (dispatched: seq<(TaskId, TaskId)>)
      requires |oks| == |queue|
      modifies this
      ensures View() == DispatchAll(old(View()).(queue := []), old(queue), oks)
      ensures dispatched == ChildPairs(old(counter), old(queue), oks)
    {
      var requests := queue;
      queue := [];
      dispatched := [];
      ghost var start := View();
      var i := 0;
      while i < |requests|
        invariant 0 <= i <= |requests|
        invariant View() == DispatchAll(start, requests[..i], oks[..i])
        invariant counter == start.counter + i
        invariant dispatched == ChildPairs(start.counter, requests[..i], oks[..i])
      {
        var r := requests[i];
        var child := DispatchRequest(r, oks[i]);
        if child.Some? {
          dispatched := dispatched + [(r.parent, child.value)];
        }
        DispatchedNext(start, requests, oks, i);
        PairsNext(start.counter, requests, oks, i);
        i := i + 1;
      }
      assert requests[..i] == requests && oks[..i] == oks;
    }

    /** Notifies `p` if its child has settled and the queue has room. */
    method ReportChild(p: TaskId, c: TaskId) returns (settled: bool)
      modifies this`notes
      ensures settled <==> IsReportable(entries, c)
      ensures View() == CheckOne(old(View()), p, c)
    {
      settled := c in entries && entries[c].status.IsSettled();
      if settled {
        var note := NoteFor(entries, c);
        if p in notes && |notes[p]| < NOTIFICATION_CAP {
          notes := notes[p := notes[p] + [note]];
        }
      }
    }

    /** Reports one parent's settled children and strikes them off its list. */
    method ReportChildrenOf(p: TaskId) returns (sent: nat, ghost order: seq<TaskId>)
      requires p in entries
      modifies this
      ensures Enumerates(order, old(entries)[p].pending)
      ensures View() == SweepParent(old(View()), p, order)
      ensures sent == |Settled(old(entries), old(entries)[p].pending)|
    {
      var pending := entries[p].pending;
      var todo, reported: set<TaskId> := pending, {};
      ghost var start := View();
      sent, order := 0, [];
      while todo != {}
        invariant todo <= pending && Enumerates(order, pending - todo)
        invariant entries == start.entries && View() == CheckAll(start, p, order)
        invariant reported == Settled(start.entries, Elems(order)) && sent == |reported|
      {
        var c :| c in todo;
        var settled := ReportChild(p, c);
        if settled {
          sent := sent + 1;
          reported := reported + {c};
        }
        OneMoreChild(start, p, order, pending, todo, c);
        order := order + [c];
        todo := todo - {c};
      }
      assert Elems(order) == pending;
      entries := entries[p := entries[p].(pending := entries[p].pending - reported)];
    }

    method CheckSubtaskCompletions() returns (sent: nat, ghost plan: seq<(TaskId, seq<TaskId>)>)
      modifies this
      ensures IsPlan(old(entries), plan) && View() == SweepAll(old(View()), plan)
      ensures Swept(old(View()), View(), old(entries).Keys)
      ensures sent == |SettledPairs(old(entries))|
    {
      var parents := set p | p in entries && entries[p].pending != {};
      ghost var start, all := View(), parents;
      sent, plan := 0, [];
      while parents != {}
        invariant parents <= all && ParentsIn(plan) == all - parents
        invariant IsPlan(start.entries, plan) && View() == SweepAll(start, plan)
        invariant sent == SentBy(start.entries, plan)
      {
        var p :| p in parents;
        OneMoreParent(start, plan, all, parents, p);
        var n; ghost var order;
        n, order := ReportChildrenOf(p);
        assert IsPlan(start.entries, plan + [(p, order)]);
        sent := sent + n;
        plan := plan + [(p, order)];
        parents := parents - {p};
      }
      CheckDone(start, plan, all);
    }
  }

  lemma CheckDone(start: Shared, plan: seq<(TaskId, seq<TaskId>)>, all: set<TaskId>)
    requires IsPlan(start.entries, plan) && ParentsIn(plan) == all
    requires all == set p | p in start.entries && start.entries[p].pending != {}
    ensures Swept(start, SweepAll(start, plan), start.entries.Keys)
    ensures SentBy(start.entries, plan) == |SettledPairs(start.entries)|
  {
    SweepAllMeaning(start, plan);
    SweptEverywhere(start, SweepAll(start, plan), all);
    SentByMeaning(start.entries, plan);
    assert PairsIn(start.entries, all) == SettledPairs(start.entries);
  }

  lemma OneMoreChild(start: Shared, p: TaskId, order: seq<TaskId>, pending: set<TaskId>, todo: set<TaskId>, c: TaskId)
    requires c in todo && todo <= pending && Enumerates(order, pending - todo)
    ensures Enumerates(order + [c], pending - (todo - {c}))
    ensures CheckAll(start, p, order + [c]) == CheckOne(CheckAll(start, p, order), p, c)
    ensures c !in Settled(start.entries, Elems(order))
    ensures Settled(start.entries, Elems(order + [c])) ==
            Settled(start.entries, Elems(order)) + (if IsReportable(start.entries, c) then {c} else {})
  {
    ElemsAppend(order, c);
    assert (order + [c])[..|order|] == order;
    assert pending - (todo - {c}) == (pending - todo) + {c};
    assert c !in Elems(order);
  }

  lemma OneMoreParent(start: Shared, plan: seq<(TaskId, seq<TaskId>)>, all: set<TaskId>, left: set<TaskId>, p: TaskId)
    requires IsPlan(start.entries, plan) && ParentsIn(plan) == all - left && p in left && left <= all
    requires p in start.entries && start.entries[p].pending != {}
    ensures var now := SweepAll(start, plan);
            && p in now.entries && now.entries[p].pending == start.entries[p].pending
            && Settled(now.entries, now.entries[p].pending) == Settled(start.entries, start.entries[p].pending)
    ensures forall order {:trigger IsPlan(start.entries, plan + [(p, order)])} :: Enumerates(order, start.entries[p].pending) ==>
              && IsPlan(start.entries, plan + [(p, order)])
              && ParentsIn(plan + [(p, order)]) == all - (left - {p})
              && SweepAll(start, plan + [(p, order)]) == SweepParent(SweepAll(start, plan), p, order)
              && SentBy(start.entries, plan + [(p, order)]) ==
                 SentBy(start.entries, plan) + |Settled(start.entries, start.entries[p].pending)|
  {
    SweepAllMeaning(start, plan);
    SameReportable(start.entries, SweepAll(start, plan).entries);
    assert p !in ParentsIn(plan);
    forall order | Enumerates(order, start.entries[p].pending)
      ensures IsPlan(start.entries, plan + [(p, order)])
      ensures ParentsIn(plan + [(p, order)]) == all - (left - {p})
      ensures SweepAll(start, plan + [(p, order)]) == SweepParent(SweepAll(start, plan), p, order)
      ensures SentBy(start.entries, plan + [(p, order)]) ==
              SentBy(start.entries, plan) + |Settled(start.entries, start.entries[p].pending)|
    {
      PlanGrows(start.entries, plan, p, order);
    }
  }

  /** A parent with nothing pending is swept by doing nothing. */
  lemma SweptEverywhere(start: Shared, now: Shared, busy: set<TaskId>)
    requires Swept(start, now, busy) && busy <= start.entries.Keys
    requires forall p :: p in start.entries && p !in busy ==> start.entries[p].pending == {}
    ensures Swept(start, now, start.entries.Keys)
  {
    forall p | p in start.entries && p !in busy
      ensures SweptEntry(start.entries, p) == start.entries[p] && Settled(start.entries, start.entries[p].pending) == {}
    {
    }
  }

  /** How many children the sweep of `plan` reports. */
  function SentBy(entries: Entries, plan: seq<(TaskId, seq<TaskId>)>): nat
    requires forall i :: 0 <= i < |plan| ==> plan[i].0 in entries
    decreases |plan|
  {
    if plan == [] then 0 else
    SentBy(entries, plan[..|plan| - 1]) + |Settled(entries, entries[plan[|plan| - 1].0].pending)|
  }

  function PairsIn(entries: Entries, parents: set<TaskId>): set<(TaskId, TaskId)> {
    set x | x in SettledPairs(entries) && x.0 in parents
  }

  /** The pairs of a plan's last parent come on top of those of the parents before it. */
  lemma PairsSplit(entries: Entries, parents: set<TaskId>, p: TaskId)
    requires p in entries && p !in parents
    ensures var mine := PairsOf(p, Settled(entries, entries[p].pending));
            PairsIn(entries, parents + {p}) == PairsIn(entries, parents) + mine && PairsIn(entries, parents) !! mine
  {
  }

  lemma {:induction false} SentByMeaning(entries: Entries, plan: seq<(TaskId, seq<TaskId>)>)
    requires IsPlan(entries, plan)
    ensures SentBy(entries, plan) == |PairsIn(entries, ParentsIn(plan))|
    decreases |plan|
  {
    if plan == [] {
      assert PairsIn(entries, ParentsIn(plan)) == {};
    } else {
      var rest, p := plan[..|plan| - 1], plan[|plan| - 1].0;
      PlanButLast(entries, plan);
      SentByMeaning(entries, rest);
      PairsSize(p, Settled(entries, entries[p].pending));
      PairsSplit(entries, ParentsIn(rest), p);
    }
  }

  lemma PlanGrows(entries: Entries, plan: seq<(TaskId, seq<TaskId>)>, p: TaskId, order: seq<TaskId>)
    requires IsPlan(entries, plan) && p in entries && entries[p].pending != {} && p !in ParentsIn(plan)
    requires Enumerates(order, entries[p].pending)
    ensures IsPlan(entries, plan + [(p, order)])
    ensures ParentsIn(plan + [(p, order)]) == ParentsIn(plan) + {p}
    ensures (plan + [(p, order)])[..|plan|] == plan
  {
    forall i | 0 <= i < |plan|
      ensures plan[i].0 != p
    {
      assert plan[i] in plan;
    }
    assert forall x :: x in plan + [(p, order)] <==> x in plan || x == (p, order);
  }
}
