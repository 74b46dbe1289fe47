/** The continuation coordinator and its parts as the objects they are, each method tied to the step it takes. */
module Coordinator {
  import opened Wrappers
  import opened Continuation

  class ContinuationBudget {
    const limits: Limits
    const startedAt: nat
    var iteration: nat
    var cost: real
    var noProgress: nat

    constructor (limits: Limits, now: nat)
      ensures Value() == Budget(limits, 0, 0.0, now, 0)
    {
      this.limits, startedAt := limits, now;
      iteration, cost, noProgress := 0, 0.0, 0;
    }

    function Value(): Budget
      reads this
    {
      Budget(limits, iteration, cost, startedAt, noProgress)
    }

    method RecordIteration(spent: real)
      modifies this
      ensures Value() == old(Value()).(iteration := old(iteration) + 1, cost := old(cost) + spent)
    {
      iteration := iteration + 1;
      cost := cost + spent;
    }

    method RecordNoProgress()
      modifies this
      ensures Value() == old(Value()).(noProgress := old(noProgress) + 1)
    {
      noProgress := noProgress + 1;
    }

    /** The first dimension, in their order of declaration, whose limit is reached. */
    method ExhaustedDimension(now: nat) returns (dimension: Option<Dimension>)
      ensures dimension.Some? ==> FirstSpent(Value(), now, dimension.value)
      ensures dimension.None? ==> forall d :: !Spent(Value(), now, d)
    {
      if iteration >= limits.iterations {
        return Some(Iterations);
      }
      if cost >= limits.cost {
        return Some(Cost);
      }
      if now - startedAt >= limits.duration {
        return Some(Duration);
      }
      if noProgress >= limits.noProgress {
        return Some(NoProgressRounds);
      }
      return None;
    }
  }

  // ---- The detector ----------------------------------------------------------------------------

  datatype Diff = Diff(files: set<string>, lines: nat)

  /** An empty diff, or the files of the round before with fewer than five lines of difference. */
  predicate Stalls(before: Option<Diff>, diff: Diff) {
    diff.files == {} ||
    (before.Some? && diff.files == before.value.files && -5 < diff.lines - before.value.lines < 5)
  }

  function LastOf(diffs: seq<Diff>): Option<Diff> {
    if diffs == [] then None else Some(diffs[|diffs| - 1])
  }

  /** How many rounds at the end of `diffs` stalled one after the other. */
  function TrailingStalls(diffs: seq<Diff>): nat {
    if diffs == [] then 0 else
      var last := |diffs| - 1;
      if Stalls(LastOf(diffs[..last]), diffs[last]) then TrailingStalls(diffs[..last]) + 1 else 0
  }

  /** The diff of a round is empty, or names the files of the one before with fewer than five lines of difference. */
  ghost predicate StalledAt(diffs: seq<Diff>, i: int) {
    0 <= i < |diffs| &&
    (diffs[i].files == {} ||
     (i > 0 && diffs[i].files == diffs[i - 1].files && diffs[i - 1].lines < diffs[i].lines + 5 && diffs[i].lines < diffs[i - 1].lines + 5))
  }

  /** The count is that of the stalled rounds at the end, back to the last one that did not stall. */
  lemma {:induction false} TrailingStallsIff(diffs: seq<Diff>, n: nat)
    ensures TrailingStalls(diffs) == n <==>
            && n <= |diffs| && (forall i :: |diffs| - n <= i < |diffs| ==> StalledAt(diffs, i))
            && !StalledAt(diffs, |diffs| - n - 1)
  {
    if diffs != [] {
      var last := |diffs| - 1;
      var before := diffs[..last];
      assert StalledAt(diffs, last) <==> Stalls(LastOf(before), diffs[last]);
      forall i | i < last ensures StalledAt(diffs, i) <==> StalledAt(before, i) {
      }
      if n > 0 {
        TrailingStallsIff(before, n - 1);
      }
    }
  }

  class NoProgressDetector {
    const threshold: nat
    var stalls: nat
    var last: Option<Diff>
    var rounds: seq<set<Signature>>
    ghost var diffs: seq<Diff>

    ghost predicate Valid()
      reads this
    {
      stalls == TrailingStalls(diffs) && last == LastOf(diffs)
    }

    constructor (threshold: nat)
      ensures Valid() && diffs == [] && Value() == Detector(threshold, 0, [])
    {
      this.threshold := threshold;
      stalls, last, rounds, diffs := 0, None, [], [];
    }

    function Value(): Detector
      reads this
    {
      Detector(threshold, stalls, rounds)
    }

    method RecordIteration(files: set<string>, lines: nat) returns (stalled: bool)
      requires Valid()
      modifies this
      ensures Valid() && diffs == old(diffs) + [Diff(files, lines)] && rounds == old(rounds)
      ensures stalled <==> StalledAt(diffs, |diffs| - 1)
    {
      var current := Diff(files, lines);
      if current.files == {} {
        stalled := true;
      } else if last.Some? {
        stalled := current.files == last.value.files &&
                   (if current.lines > last.value.lines then current.lines - last.value.lines else last.value.lines - current.lines) < 5;
      } else {
        stalled := false;
      }
      stalls := if stalled then stalls + 1 else 0;
      last := Some(current);
      assert (diffs + [current])[..|diffs|] == diffs;
      diffs := diffs + [current];
    }

    method RecordAuditFindings(findings: seq<Finding>) returns (repeated: bool)
      modifies this`rounds
      ensures rounds == old(rounds) + [Signatures(findings)]
      ensures repeated <==> Repeats(rounds)
    {
      rounds := rounds + [Signatures(findings)];
      var n := |rounds|;
      if n >= 3 {
        var recent := rounds[n - 3..];
        assert recent[0] == rounds[n - 3] && recent[1] == rounds[n - 2] && recent[2] == rounds[n - 1];
        var rest := recent[2];
        while rest != {}
          invariant rest <= recent[2]
          invariant forall sig :: sig in recent[2] - rest ==> !(sig in recent[0] && sig in recent[1])
          decreases |rest|
        {
          var sig :| sig in rest;
          if sig in recent[0] && sig in recent[1] {
            assert sig in recent[2] * recent[1] * recent[0];
            return true;
          }
          rest := rest - {sig};
        }
        assert recent[2] * recent[1] * recent[0] == {};
      }
      return false;
    }

    method IsNoProgress() returns (stuck: bool)
      ensures stuck <==> stalls >= threshold
    {
      stuck := stalls >= threshold;
    }
  }

  // ---- A chain -------------------------------------------------------------------------------------

  class ContinuationChain {
    const root: string
    var current: string
    const budget: ContinuationBudget
    var ended: Option<Reason>
    var history: seq<IterationRecord>

    constructor (root: string, budget: ContinuationBudget)
      ensures this.budget == budget && Value() == Chain(root, budget.Value(), None, [])
    {
      this.root, this.budget := root, budget;
      current, ended, history := root, None, [];
    }

    function Value(): Chain
      reads this, budget
    {
      Chain(current, budget.Value(), ended, history)
    }

    method AppendIteration(record: IterationRecord)
      modifies this
      ensures Value() == old(Value()).(current := record.task, history := old(history) + [record])
    {
      current := record.task;
      history := history + [record];
    }

    method SetCurrentTask(task: string)
      modifies this
      ensures Value() == old(Value()).(current := task)
    {
      current := task;
    }

    method Terminate(reason: Reason)
      modifies this
      ensures Value() == old(Value()).(ended := Some(reason))
    {
      ended := Some(reason);
    }
  }

  // ---- The coordinator ----------------------------------------------------------------------------

  class ContinuationCoordinator {
    const policy: Policy
    var chains: map<ChainId, ContinuationChain>
    var detectors: map<ChainId, NoProgressDetector>

    ghost var Repr: set<object>

    /** Each chain has a detector, and no two chains share a part. */
    ghost predicate Valid()
      reads this, Repr
    {
      && this !in Repr && chains.Keys == detectors.Keys
      && (forall id :: id in chains ==> chains[id] in Repr && chains[id].budget in Repr && detectors[id] in Repr)
      && (forall i, j :: i in chains && j in chains && i != j ==>
            chains[i] != chains[j] && chains[i].budget != chains[j].budget && detectors[i] != detectors[j])
    }

    ghost function View(): Chains
      requires Valid()
      reads this, Repr
    {
      map id | id in chains :: Track(chains[id].Value(), detectors[id].Value())
    }

    constructor (policy: Policy)
      ensures Valid() && View() == map[] && this.policy == policy && Repr == {}
    {
      this.policy := policy;
      chains, detectors, Repr := map[], map[], {};
    }

    method StartChain(id: ChainId, root: string, limits: Limits, now: nat)
      requires Valid() && id !in chains
      modifies this
      ensures Valid() && View() == Apply(old(View()), policy, Start(id, root, limits, now))
      ensures View() == old(View())[id := Track(Chain(root, Budget(limits, 0, 0.0, now, 0), None, []), Detector(2, 0, []))]
      ensures fresh(Repr - old(Repr))
    {
      ghost var before := View();
      var budget := new ContinuationBudget(limits, now);
      var chain := new ContinuationChain(root, budget);
      var detector := new NoProgressDetector(2);
      assert View() == before;
      Insert(id, chain, detector);
    }

    method Insert(id: ChainId, chain: ContinuationChain, detector: NoProgressDetector)
      requires Valid() && id !in chains
      requires chain !in Repr && chain.budget !in Repr && detector !in Repr
      modifies this
      ensures Valid() && Repr == old(Repr) + {chain, chain.budget, detector}
      ensures View() == old(View())[id := Track(chain.Value(), detector.Value())]
    {
      ghost var before := View();
      detectors := detectors[id := detector];
      chains := chains[id := chain];
      Repr := Repr + {chain, chain.budget, detector};
      forall i | i in before && i != id ensures Track(chains[i].Value(), detectors[i].Value()) == before[i] {
        Kept(i);
      }
      Settle(before, id, Track(chain.Value(), detector.Value()));
    }

    method SetCurrentTask(id: ChainId, task: string)
      requires Valid()
      modifies Repr
      ensures Valid() && View() == Apply(old(View()), policy, Continuation.Op.SetCurrentTask(id, task))
      ensures id !in old(View()) ==> View() == old(View())
      ensures id in old(View()) ==> View() == old(View())[id := old(View())[id].(chain := old(View())[id].chain.(current := task))]
    {
      if id in chains {
        ghost var before := View();
        chains[id].SetCurrentTask(task);
        forall i | i in before && i != id ensures Track(chains[i].Value(), detectors[i].Value()) == before[i] {
          Kept(i);
        }
        Settle(before, id, before[id].(chain := before[id].chain.(current := task)));
      }
    }

    method Terminate(id: ChainId, reason: Reason)
      requires Valid()
      modifies Repr
      ensures Valid() && View() == Apply(old(View()), policy, Stop(id, reason))
      ensures id !in old(View()) ==> View() == old(View())
      ensures id in old(View()) ==> View() == old(View())[id := old(View())[id].(chain := old(View())[id].chain.(ended := Some(reason)))]
    {
      if id in chains {
        ghost var before := View();
        chains[id].Terminate(reason);
        forall i | i in before && i != id ensures Track(chains[i].Value(), detectors[i].Value()) == before[i] {
          Kept(i);
        }
        Settle(before, id, before[id].(chain := before[id].chain.(ended := Some(reason))));
      }
    }

    /** Some active chain with this current task, if there is one; which one is not determined. */
    method FindChain(task: string) returns (found: Option<ChainId>)
      requires Valid()
      ensures found.Some? ==> Finds(View(), task, found.value)
      ensures found.None? ==> forall id :: !Finds(View(), task, id)
      ensures found.Some? ==> found.value in chains && chains[found.value].current == task && chains[found.value].ended.None?
      ensures found.None? ==> forall id :: id in chains && chains[id].current == task ==> chains[id].ended.Some?
    {
      var rest := chains.Keys;
      while rest != {}
        invariant rest <= chains.Keys
        invariant forall id :: id in chains.Keys - rest ==> !Finds(View(), task, id)
        invariant forall id :: id in chains && id !in rest && chains[id].current == task ==> chains[id].ended.Some?
        decreases |rest|
      {
        var id :| id in rest;
        if chains[id].current == task && chains[id].ended.None? {
          return Some(id);
        }
        rest := rest - {id};
      }
      return None;
    }

    method Evaluate(task: string, audit: Audit) returns (request: Option<DispatchRequest>)
      requires Valid()
      modifies Repr
      ensures Valid()
      ensures exists pick :: var op := Op.Evaluate(task, audit, pick);
                && Enabled(old(View()), op) && View() == Apply(old(View()), policy, op)
                && request == Output(old(View()), policy, op)
    {
      ghost var before := View();
      var found := FindChain(task);
      if found.None? {
        assert Enabled(before, Op.Evaluate(task, audit, 0));
        return None;
      }
      var id := found.value;
      assert Enabled(before, Op.Evaluate(task, audit, id));
      request := EvaluateChain(id, task, audit);
    }

    method EvaluateChain(id: ChainId, task: string, audit: Audit) returns (request: Option<DispatchRequest>)
      requires Valid() && Finds(View(), task, id)
      modifies Repr
      ensures Valid()
      ensures View() == Apply(old(View()), policy, Op.Evaluate(task, audit, id))
      ensures request == Output(old(View()), policy, Op.Evaluate(task, audit, id))
    {
      var chain, detector := chains[id], detectors[id];
      ghost var before := View();
      request := EvaluateParts(policy, id, chain, detector, task, audit);
      forall i | i in before && i != id ensures Track(chains[i].Value(), detectors[i].Value()) == before[i] {
        Kept(i);
      }
      Settle(before, id, EvaluateTrack(before[id], task, policy, audit));
    }

    /** A track whose objects are the same and untouched is the same. */
    twostate lemma Kept(i: ChainId)
      requires old(Valid()) && i in old(chains) && i in chains && i in detectors
      requires chains[i] == old(chains[i]) && detectors[i] == old(detectors[i])
      requires unchanged(old(chains[i])) && unchanged(old(chains[i].budget)) && unchanged(old(detectors[i]))
      ensures Track(chains[i].Value(), detectors[i].Value()) == old(View())[i]
    {
    }

    /** Only the track of `id` is new in the view. */
    lemma Settle(before: Chains, id: ChainId, track: Track)
      requires Valid() && chains.Keys == before.Keys + {id}
      requires Track(chains[id].Value(), detectors[id].Value()) == track
      requires forall i :: i in before && i != id ==> Track(chains[i].Value(), detectors[i].Value()) == before[i]
      ensures View() == before[id := track]
    {
    }
  }

  /** The steps of an evaluation, on the two objects it touches. */
  method EvaluateParts(policy: Policy, id: ChainId, chain: ContinuationChain, detector: NoProgressDetector,
                       task: string, audit: Audit) returns (request: Option<DispatchRequest>)
    requires chain.current == task && chain.ended.None?
    modifies chain, chain.budget, detector
    ensures Track(chain.Value(), detector.Value()) == EvaluateTrack(old(Track(chain.Value(), detector.Value())), task, policy, audit)
    ensures request == if chain.ended.None? then Some(DispatchRequest(chain.current, id, chain.budget.iteration)) else None
  {
    var iteration := chain.budget.iteration + 1;
    var repeated := detector.RecordAuditFindings(audit.findings);
    chain.AppendIteration(IterationRecord(task, iteration, audit.verdict));
    if repeated {
      chain.budget.RecordNoProgress();
    }
    assert Track(chain.Value(), detector.Value()) == Recorded(old(Track(chain.Value(), detector.Value())), task, audit);
    var dimension := chain.budget.ExhaustedDimension(audit.now);
    ReportsFirstSpent(chain.budget.Value(), audit.now, dimension);
    if dimension.Some? {
      chain.Terminate(ReasonFor(dimension.value));
      return None;
    }
    var stuck := detector.IsNoProgress();
    if stuck {
      chain.Terminate(NoProgress);
      return None;
    }
    match policy(chain.Value(), audit) {
      case Continue =>
        chain.budget.RecordIteration(0.0);
        return Some(DispatchRequest(chain.current, id, chain.budget.iteration));
      case Terminate(reason) =>
        chain.Terminate(reason);
        return None;
    }
  }
}
