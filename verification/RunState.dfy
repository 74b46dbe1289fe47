/** The part of a Task's state that its gate failures change. */
module RunState {
  import opened Wrappers
  import opened EvidenceGate
  import opened StrikeCounters

  datatype Phase = Zero | One | Two | Three

  datatype IssueSignature = IssueSignature(file: string, kind: ErrorKind, hash: bv64)

  /** The signature an error is counted under; an error without a file counts like one with an empty path. */
  function SignatureOf(e: ErrorEntry): IssueSignature {
    IssueSignature(if e.file.Some? then e.file.value else "", e.kind, MessageHash(e.message))
  }

  function IssuesOf(errors: seq<ErrorEntry>): seq<IssueSignature> {
    seq(|errors|, i requires 0 <= i < |errors| => SignatureOf(errors[i]))
  }

  /** Errors that match are counted as one issue. */
  lemma MatchingErrorsShareCounter(a: ErrorEntry, b: ErrorEntry)
    requires a.file != Some("") && b.file != Some("")
    ensures ErrorsMatch(a, b) <==> SignatureOf(a) == SignatureOf(b)
  {
  }

  class RunState {
    var phase: Phase
    var turnsInPhase: nat
    var counters: Counters<IssueSignature>

    constructor ()
      ensures phase == Zero && turnsInPhase == 0 && counters == map[]
    {
      phase, turnsInPhase, counters := Zero, 0, map[];
    }

    method TransitionTo(next: Phase)
      modifies this`phase, this`turnsInPhase
      ensures phase == next
      ensures turnsInPhase == if old(phase) == next then old(turnsInPhase) else 0
    {
      if phase != next {
        phase, turnsInPhase := next, 0;
      }
    }

    /** Reports the highest count when some issue has struck three times. */
    method RecordEvidenceFailure(errors: seq<ErrorEntry>) returns (strikes: Option<nat>)
      modifies this`counters
      ensures counters == After(old(counters), IssuesOf(errors))
      ensures strikes == if IsStuck(old(counters), IssuesOf(errors)) then Some(Highest(old(counters), IssuesOf(errors))) else None
    {
      var maxCount := 0;
      var i := 0;
      ghost var before, issues := counters, IssuesOf(errors);
      while i < |errors|
        invariant 0 <= i <= |errors|
        invariant counters == After(before, issues[..i])
        invariant maxCount == Highest(before, issues[..i])
      {
        CountNext(before, issues, i);
        var sig := SignatureOf(errors[i]);
        assert issues[i] == sig;
        counters := counters[sig := Next(Strikes(counters, sig))];
        if counters[sig] > maxCount {
          maxCount := counters[sig];
        }
        i := i + 1;
      }
      assert issues[..i] == issues;
      strikes := if maxCount >= STRIKE_LIMIT then Some(maxCount) else None;
    }
  }

  // ---- The counters and the gate together -----------------------------------------------------

  function IssuesOfRuns(runs: seq<seq<EvidenceResult>>): seq<seq<IssueSignature>> {
    seq(|runs|, i requires 0 <= i < |runs| => IssuesOf(AllErrors(runs[i])))
  }

  /**
   * A failure reports the errors of the baseline along with the new one, and each of them is a
   * strike: an error a Task did not cause strikes it out at the third failure, however different
   * the errors it did cause.
   */
  lemma BaselineErrorStrikesOut(baseline: seq<EvidenceResult>, runs: seq<seq<EvidenceResult>>, known: ErrorEntry)
    requires |runs| >= 3
    requires forall i :: 0 <= i < |runs| ==> known in AllErrors(runs[i]) && !Passes(AllErrors(baseline), AllErrors(runs[i]))
    requires Known(AllErrors(baseline), known)
    ensures !NeverStuck(map[], IssuesOfRuns(runs))
  {
    var rounds := IssuesOfRuns(runs);
    forall i | 0 <= i < |rounds| ensures SignatureOf(known) in rounds[i] {
      var errors := AllErrors(runs[i]);
      assert known in errors;
      var k :| 0 <= k < |errors| && errors[k] == known;
      assert rounds[i][k] == SignatureOf(known);
    }
    PersistentIssueIsStruckOut(rounds, SignatureOf(known));
  }

  /** Failed runs of the gate always report something, so a run that reports K issues and is never stuck fails at most 2K times. */
  lemma GateFailuresAreBounded(baseline: seq<EvidenceResult>, runs: seq<seq<EvidenceResult>>, kinds: set<IssueSignature>)
    requires forall i :: 0 <= i < |runs| ==> !Passes(AllErrors(baseline), AllErrors(runs[i]))
    requires forall sig :: sig in AllIssues(IssuesOfRuns(runs)) ==> sig in kinds
    requires NeverStuck(map[], IssuesOfRuns(runs))
    ensures |runs| <= 2 * |kinds|
  {
    var rounds := IssuesOfRuns(runs);
    forall i | 0 <= i < |rounds| ensures rounds[i] != [] {
      assert !Passes(AllErrors(baseline), AllErrors(runs[i]));
      assert |rounds[i]| == |AllErrors(runs[i])|;
    }
    RetriesAreBounded(rounds, kinds);
  }
}
