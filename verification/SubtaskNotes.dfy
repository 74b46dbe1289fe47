/** Where the unread notifications of a parent come from, over whole runs. */
module SubtaskNotes {
  import opened Wrappers
  import opened Lifecycle
  import opened TaskRegistry
  import opened SubtaskProtocol

  /** Every prefix of a run is a run, and the next step leads on from it. */
  lemma {:induction false} PrefixRuns(s: Sys, steps: seq<Step>, n: nat)
    requires CanRun(s, steps) && n < |steps|
    ensures CanRun(s, steps[..n]) && CanRun(s, steps[..n + 1]) && Enabled(Run(s, steps[..n]), steps[n])
    ensures Run(s, steps[..n + 1]) == Apply(Run(s, steps[..n]), steps[n])
    decreases n
  {
    if n == 0 {
      assert steps[..1] == [steps[0]] && steps[..1][1..] == [];
    } else {
      assert steps[..n][1..] == steps[1..][..n - 1] && steps[..n + 1][1..] == steps[1..][..n];
      PrefixRuns(Apply(s, steps[0]), steps[1..], n - 1);
    }
  }

  predicate Unread(s: Sys, p: TaskId, note: Note) {
    p in s.shared.notes && note in s.shared.notes[p]
  }

  /** In `s` the completion check of `p` looks at the child of `note`, and the registry shows how it ended. */
  predicate Reports(s: Sys, p: TaskId, note: Note, step: Step) {
    && step == CheckChild(note.child) && s.sweep.Sweeping? && s.sweep.parent == p
    && note.child in s.shared.entries && Tells(note, note.child, s.shared.entries[note.child].status)
  }

  lemma DispatchAddsNoNote(s: Sys, step: Step, p: TaskId, note: Note)
    requires Enabled(s, step) && (step.Submit? || step.DispatchNext?) && Unread(Apply(s, step), p, note)
    ensures Unread(s, p, note)
  {
  }

  lemma CheckAddsNote(s: Sys, c: TaskId, p: TaskId, note: Note)
    requires Enabled(s, CheckChild(c)) && Unread(Apply(s, CheckChild(c)), p, note)
    ensures Unread(s, p, note) || Reports(s, p, note, CheckChild(c))
  {
    if IsReportable(s.shared.entries, c) {
      NotesTell(s.shared.entries, c);
    }
  }

  lemma OthersAddNoNote(s: Sys, step: Step, p: TaskId, note: Note)
    requires Enabled(s, step) && !step.Submit? && !step.DispatchNext? && !step.CheckChild?
    requires Unread(Apply(s, step), p, note)
    ensures Unread(s, p, note)
  {
  }

  lemma StepAddsNote(s: Sys, step: Step, p: TaskId, note: Note)
    requires Enabled(s, step) && Unread(Apply(s, step), p, note)
    ensures Unread(s, p, note) || Reports(s, p, note, step)
  {
    if step.Submit? || step.DispatchNext? {
      DispatchAddsNoNote(s, step, p, note);
    } else if step.CheckChild? {
      CheckAddsNote(s, step.child, p, note);
    } else {
      OthersAddNoNote(s, step, p, note);
    }
  }

  /**
   * Over every run: each note a parent has not read was put there by a completion check of that parent,
   * and tells the kind of ending the registry held for the child at that moment.
   */
  lemma {:induction false} NotesTellEndings(steps: seq<Step>, n: nat, p: TaskId, note: Note) returns (k: nat)
    requires CanRun(Init, steps) && n <= |steps| && CanRun(Init, steps[..n]) && Unread(Run(Init, steps[..n]), p, note)
    ensures k < n && CanRun(Init, steps[..k]) && Reports(Run(Init, steps[..k]), p, note, steps[k])
    decreases n
  {
    k := n - 1;
    PrefixRuns(Init, steps, k);
    var before := Run(Init, steps[..k]);
    StepAddsNote(before, steps[k], p, note);
    if !Reports(before, p, note, steps[k]) {
      k := NotesTellEndings(steps, k, p, note);
    }
  }
}
