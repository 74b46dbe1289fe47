/** Who is whose child: what the registry says of the sub-tasks a parent waits for, over whole runs. */
module SubtaskFamily {
  import opened Wrappers
  import opened Lifecycle
  import opened TaskRegistry
  import opened SubtaskProtocol

  /** A pending child is in the registry, under the parent that waits for it, with a later id and no files of its own. */
  predicate IsChildOf(entries: Entries, c: TaskId, p: TaskId) {
    c in entries && entries[c].parent == Some(p) && p < c && entries[c].dispatched && entries[c].files == []
  }

  ghost predicate Family(entries: Entries) {
    forall p, c :: p in entries && c in entries[p].pending ==> IsChildOf(entries, c, p)
  }

  lemma DispatchedChild(sh: Shared, r: Request)
    requires Family(sh.entries) && (forall id :: id in sh.entries ==> id < sh.counter) && r.parent in sh.entries
    ensures Family(DispatchChild(sh, r, true).entries)
    ensures IsChildOf(DispatchChild(sh, r, true).entries, sh.counter, r.parent)
    ensures sh.counter in DispatchChild(sh, r, true).entries[r.parent].pending
  {
    EmptyEstimateIsAlwaysDispatched(sh.entries, Some(r.parent));
    var after := DispatchChild(sh, r, true).entries;
    forall p, c | p in after && c in after[p].pending
      ensures IsChildOf(after, c, p)
    {
      assert (p == r.parent && c == sh.counter) || (p in sh.entries && c in sh.entries[p].pending && IsChildOf(sh.entries, c, p));
    }
  }

  lemma SubmittedTask(sh: Shared, files: seq<Path>, ok: bool)
    requires Family(sh.entries) && forall id :: id in sh.entries ==> id < sh.counter
    ensures Family(DispatchTask(sh, files, None, ok).entries)
  {
    var after := DispatchTask(sh, files, None, ok).entries;
    forall p, c | p in after && c in after[p].pending
      ensures IsChildOf(after, c, p)
    {
      assert p in sh.entries && c in sh.entries[p].pending && IsChildOf(sh.entries, c, p);
    }
  }

  lemma FailedDispatchAddsNothing(sh: Shared, r: Request)
    ensures DispatchChild(sh, r, false).entries == sh.entries
  {
    EmptyEstimateIsAlwaysDispatched(sh.entries, Some(r.parent));
  }

  /** The rest of the steps change statuses and strike children off, but register nobody. */
  lemma OtherStepsKeepFamily(s: Sys, step: Step)
    requires Enabled(s, step) && Family(s.shared.entries) && !step.Submit? && !step.DispatchNext?
    ensures Family(Apply(s, step).shared.entries)
  {
    var before, after := s.shared.entries, Apply(s, step).shared.entries;
    forall p, c | p in after && c in after[p].pending
      ensures IsChildOf(after, c, p)
    {
      assert p in before && c in before[p].pending && IsChildOf(before, c, p);
    }
  }

  lemma StepKeepsFamily(s: Sys, step: Step)
    requires Tidy(s) && Enabled(s, step) && Family(s.shared.entries)
    ensures Family(Apply(s, step).shared.entries)
  {
    match step
    case Submit(files, ok) => SubmittedTask(s.shared, files, ok);
    case DispatchNext(ok) =>
      assert s.hand[0] in s.hand && s.hand[0].parent in s.parents;
      if ok {
        DispatchedChild(s.shared, s.hand[0]);
      } else {
        FailedDispatchAddsNothing(s.shared, s.hand[0]);
      }
    case _ => OtherStepsKeepFamily(s, step);
  }

  lemma {:induction false} RunKeepsFamily(s: Sys, steps: seq<Step>)
    requires Inv(s) && Family(s.shared.entries) && CanRun(s, steps)
    ensures Family(Run(s, steps).shared.entries)
    decreases |steps|
  {
    if steps != [] {
      StepKeepsFamily(s, steps[0]);
      StepKeepsInv(s, steps[0]);
      RunKeepsFamily(Apply(s, steps[0]), steps[1..]);
    }
  }

  /**
   * Over every run, whom a parent waits for is registered as its child and minted after it. So no
   * sub-task is waited for by two parents, and nobody waits, through however many others, for itself.
   */
  lemma FamiliesAreDisjoint(steps: seq<Step>, p: TaskId, q: TaskId, c: TaskId)
    requires CanRun(Init, steps)
    ensures var entries := Run(Init, steps).shared.entries;
            && (p in entries && c in entries[p].pending ==>
                  c in entries && entries[c].parent == Some(p) && p < c && entries[c].dispatched && entries[c].files == [])
            && (p in entries && q in entries && c in entries[p].pending && c in entries[q].pending ==> p == q)
  {
    RunKeepsFamily(Init, steps);
    var entries := Run(Init, steps).shared.entries;
    assert p in entries && c in entries[p].pending ==> IsChildOf(entries, c, p);
    assert q in entries && c in entries[q].pending ==> IsChildOf(entries, c, q);
  }
}
