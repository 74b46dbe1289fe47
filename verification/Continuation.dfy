/** Continuation chains: the budget, the detector of repeated findings, and what bounds every chain. */
module Continuation {
  import opened Wrappers
  import opened Text

  datatype Verdict = Confirmed | NeedsFix | FalsePositive | NeedsHuman

  datatype Dimension = Iterations | Cost | Duration | NoProgressRounds

  datatype Reason =
    | ConfirmedComplete
    | BudgetExhausted(dimension: Dimension)
    | NoProgress
    | UserCancelled
    | NeedsHumanReview
    | TaskError(message: string)

  // ---- Findings ------------------------------------------------------------------------------

  datatype Finding = Finding(location: string, issue: string)

  datatype Category = TestFailure | MissingImpl | RuntimeError | TypeError | Uncategorized

  datatype Signature = Signature(location: string, category: Category)

  function Categorize(issue: string): Category {
    var lower := LowerAll(issue);
    if Contains(lower, "test") || Contains(lower, "assert") then TestFailure
    else if Contains(lower, "missing") || Contains(lower, "unimplemented") || Contains(lower, "not implemented")
            || Contains(lower, "todo") then MissingImpl
    else if Contains(lower, "error") || Contains(lower, "panic") || Contains(lower, "crash") then RuntimeError
    else if Contains(lower, "type") || Contains(lower, "mismatch") then TypeError
    else Uncategorized
  }

  /** What kind of finding it is, by the words in it: the first kind of the four that has one, in any case of letters. */
  lemma CategorizeIff(issue: string)
    ensures var text := LowerAll(issue);
            var tests := Has(text, "test") || Has(text, "assert");
            var missing := Has(text, "missing") || Has(text, "unimplemented") || Has(text, "not implemented") || Has(text, "todo");
            var fails := Has(text, "error") || Has(text, "panic") || Has(text, "crash");
            var types := Has(text, "type") || Has(text, "mismatch");
            && (Categorize(issue) == TestFailure <==> tests)
            && (Categorize(issue) == MissingImpl <==> !tests && missing)
            && (Categorize(issue) == RuntimeError <==> !tests && !missing && fails)
            && (Categorize(issue) == TypeError <==> !tests && !missing && !fails && types)
  {
    var text := LowerAll(issue);
    forall part ensures Contains(text, part) <==> Has(text, part) {
      ContainsIff(text, part);
    }
  }

  function Signatures(findings: seq<Finding>): set<Signature> {
    set f | f in findings :: Signature(f.location, Categorize(f.issue))
  }

  /** The last round repeats something both rounds before it reported. */
  predicate Repeats(rounds: seq<set<Signature>>) {
    var n := |rounds|;
    n >= 3 && rounds[n - 1] * rounds[n - 2] * rounds[n - 3] != {}
  }

  /** How many of the rounds repeat something both rounds before them reported. */
  function RepeatedRounds(rounds: seq<set<Signature>>): nat {
    if rounds == [] then 0 else RepeatedRounds(rounds[..|rounds| - 1]) + (if Repeats(rounds) then 1 else 0)
  }

  // ---- Budget ----------------------------------------------------------------------------------

  datatype Limits = Limits(iterations: nat, cost: real, duration: nat, noProgress: nat)

  datatype Budget = Budget(limits: Limits, iteration: nat, cost: real, startedAt: nat, noProgress: nat)

  function Exhausted(b: Budget, now: nat): Option<Dimension> {
    if b.iteration >= b.limits.iterations then Some(Iterations)
    else if b.cost >= b.limits.cost then Some(Cost)
    else if now - b.startedAt >= b.limits.duration then Some(Duration)
    else if b.noProgress >= b.limits.noProgress then Some(NoProgressRounds)
    else None
  }

  /** The limit of `dimension` is reached. */
  predicate Spent(b: Budget, now: nat, dimension: Dimension) {
    match dimension
    case Iterations => b.iteration >= b.limits.iterations
    case Cost => b.cost >= b.limits.cost
    case Duration => now >= b.startedAt + b.limits.duration
    case NoProgressRounds => b.noProgress >= b.limits.noProgress
  }

  /** The place of a dimension among the four as they are declared. */
  function Rank(dimension: Dimension): nat {
    match dimension
    case Iterations => 0
    case Cost => 1
    case Duration => 2
    case NoProgressRounds => 3
  }

  /** The limit of `dimension` is reached and that of no dimension declared before it. */
  ghost predicate FirstSpent(b: Budget, now: nat, dimension: Dimension) {
    Spent(b, now, dimension) && forall d :: Rank(d) < Rank(dimension) ==> !Spent(b, now, d)
  }

  ghost predicate Unspent(b: Budget, now: nat) {
    forall d :: !Spent(b, now, d)
  }

  /** There is at most one first dimension, and one exactly when some limit is reached; the budget reports it. */
  lemma ReportsFirstSpent(b: Budget, now: nat, reported: Option<Dimension>)
    requires match reported
             case Some(d) => FirstSpent(b, now, d)
             case None => forall d :: !Spent(b, now, d)
    ensures reported == Exhausted(b, now)
  {
    assert Rank(Iterations) < Rank(Cost) < Rank(Duration) < Rank(NoProgressRounds);
    if reported.None? {
      assert !Spent(b, now, Iterations) && !Spent(b, now, Cost) && !Spent(b, now, Duration) && !Spent(b, now, NoProgressRounds);
    }
  }

  function ReasonFor(dimension: Dimension): Reason {
    if dimension == NoProgressRounds then NoProgress else BudgetExhausted(dimension)
  }

  // ---- Chains ----------------------------------------------------------------------------------

  datatype IterationRecord = IterationRecord(task: string, iteration: nat, verdict: Option<Verdict>)

  datatype Chain = Chain(current: string, budget: Budget, ended: Option<Reason>, history: seq<IterationRecord>)

  /** `stalls` counts rounds by their diffs; nothing in the coordinator ever feeds it. */
  datatype Detector = Detector(threshold: nat, stalls: nat, rounds: seq<set<Signature>>)

  datatype Track = Track(chain: Chain, detector: Detector)

  function StartTrack(root: string, limits: Limits, now: nat): Track {
    Track(Chain(root, Budget(limits, 0, 0.0, now, 0), None, []), Detector(2, 0, []))
  }

  /** What an audit reported, when the budget was checked, and when the policy checked it again. */
  datatype Audit = Audit(verdict: Option<Verdict>, confidence: real, findings: seq<Finding>, now: nat, later: nat)

  datatype Decision = Continue | Terminate(reason: Reason)

  type Policy = (Chain, Audit) -> Decision

  function DefaultPolicy(threshold: real): Policy {
    (chain: Chain, audit: Audit) =>
      match Exhausted(chain.budget, audit.later)
      case Some(dimension) => Terminate(ReasonFor(dimension))
      case None =>
        match audit.verdict
        case Some(Confirmed) => Terminate(ConfirmedComplete)
        case Some(FalsePositive) => Continue
        case Some(NeedsFix) => if audit.confidence < threshold then Terminate(NeedsHumanReview) else Continue
        case Some(NeedsHuman) => Terminate(NeedsHumanReview)
        case None => Terminate(ConfirmedComplete)
  }

  /** The chain and its detector once the finished iteration is on record. */
  function Recorded(t: Track, task: string, audit: Audit): Track {
    var rounds := t.detector.rounds + [Signatures(audit.findings)];
    var record := IterationRecord(task, t.chain.budget.iteration + 1, audit.verdict);
    var budget := if Repeats(rounds) then t.chain.budget.(noProgress := t.chain.budget.noProgress + 1) else t.chain.budget;
    Track(t.chain.(current := task, budget := budget, history := t.chain.history + [record]), t.detector.(rounds := rounds))
  }

  /** Why an evaluation ends the chain, if it does. */
  function Ending(t: Track, policy: Policy, audit: Audit): Option<Reason> {
    match Exhausted(t.chain.budget, audit.now)
    case Some(dimension) => Some(ReasonFor(dimension))
    case None =>
      if t.detector.stalls >= t.detector.threshold then Some(NoProgress)
      else match policy(t.chain, audit)
           case Continue => None
           case Terminate(reason) => Some(reason)
  }

  function EvaluateTrack(t: Track, task: string, policy: Policy, audit: Audit): Track {
    var r := Recorded(t, task, audit);
    match Ending(r, policy, audit)
    case Some(reason) => r.(chain := r.chain.(ended := Some(reason)))
    case None => r.(chain := r.chain.(budget := r.chain.budget.(iteration := r.chain.budget.iteration + 1, cost := r.chain.budget.cost + 0.0)))
  }

  // ---- The coordinator as a state machine ------------------------------------------------------

  type ChainId = nat

  type Chains = map<ChainId, Track>

  datatype Op =
    | Start(id: ChainId, root: string, limits: Limits, at: nat)
    | Evaluate(task: string, audit: Audit, pick: ChainId)
    | SetCurrentTask(id: ChainId, task: string)
    | Stop(id: ChainId, reason: Reason)

  /** The chains an evaluation of `task` may find; which of them a hash map yields first is not determined. */
  predicate Finds(chains: Chains, task: string, id: ChainId) {
    id in chains && chains[id].chain.ended.None? && chains[id].chain.current == task
  }

  /** Start mints a new id, and an evaluation picks a chain it may find, if there is one. */
  ghost predicate Enabled(chains: Chains, op: Op) {
    match op
    case Start(id, _, _, _) => id !in chains
    case Evaluate(task, _, pick) => Finds(chains, task, pick) || forall id :: !Finds(chains, task, id)
    case SetCurrentTask(_, _) => true
    case Stop(_, _) => true
  }

  function Apply(chains: Chains, policy: Policy, op: Op): Chains {
    match op
    case Start(id, root, limits, at) => chains[id := StartTrack(root, limits, at)]
    case Evaluate(task, audit, pick) =>
      if Finds(chains, task, pick) then chains[pick := EvaluateTrack(chains[pick], task, policy, audit)] else chains
    case SetCurrentTask(id, task) =>
      if id in chains then chains[id := chains[id].(chain := chains[id].chain.(current := task))] else chains
    case Stop(id, reason) =>
      if id in chains then chains[id := chains[id].(chain := chains[id].chain.(ended := Some(reason)))] else chains
  }

  datatype DispatchRequest = DispatchRequest(parent: string, chain: ChainId, iteration: nat)

  /** What the operation asks to be dispatched. */
  function Output(chains: Chains, policy: Policy, op: Op): Option<DispatchRequest> {
    if op.Evaluate? && Finds(chains, op.task, op.pick) then
      var after := EvaluateTrack(chains[op.pick], op.task, policy, op.audit).chain;
      if after.ended.None? then Some(DispatchRequest(after.current, op.pick, after.budget.iteration)) else None
    else None
  }

  function Run(chains: Chains, policy: Policy, ops: seq<Op>): Chains
    decreases |ops|
  {
    if ops == [] then chains else Run(Apply(chains, policy, ops[0]), policy, ops[1..])
  }

  ghost predicate EnabledRun(chains: Chains, policy: Policy, ops: seq<Op>)
    decreases |ops|
  {
    ops == [] || (Enabled(chains, ops[0]) && EnabledRun(Apply(chains, policy, ops[0]), policy, ops[1..]))
  }

  /** The iteration numbers dispatched for `id`, in order. */
  function DispatchedFor(chains: Chains, policy: Policy, ops: seq<Op>, id: ChainId): seq<nat>
    decreases |ops|
  {
    if ops == [] then [] else
    DispatchedBy(chains, policy, ops[0], id) + DispatchedFor(Apply(chains, policy, ops[0]), policy, ops[1..], id)
  }

  function DispatchedBy(chains: Chains, policy: Policy, op: Op, id: ChainId): seq<nat> {
    match Output(chains, policy, op)
    case Some(request) => if request.chain == id then [request.iteration] else []
    case None => []
  }

  /** How many evaluations found `id` active. */
  function EvaluationsOf(chains: Chains, policy: Policy, ops: seq<Op>, id: ChainId): nat
    decreases |ops|
  {
    if ops == [] then 0 else
    EvaluatedBy(chains, ops[0], id) + EvaluationsOf(Apply(chains, policy, ops[0]), policy, ops[1..], id)
  }

  function EvaluatedBy(chains: Chains, op: Op, id: ChainId): nat {
    if op.Evaluate? && op.pick == id && Finds(chains, op.task, id) then 1 else 0
  }

  /** How many evaluations ended `id`. */
  function EndingsOf(chains: Chains, policy: Policy, ops: seq<Op>, id: ChainId): nat
    decreases |ops|
  {
    if ops == [] then 0 else
    EndedBy(chains, policy, ops[0], id) + EndingsOf(Apply(chains, policy, ops[0]), policy, ops[1..], id)
  }

  function EndedBy(chains: Chains, policy: Policy, op: Op, id: ChainId): nat {
    if op.Evaluate? && op.pick == id && Finds(chains, op.task, id) &&
       EvaluateTrack(chains[id], op.task, policy, op.audit).chain.ended.Some? then 1 else 0
  }

  // ---- What every chain keeps --------------------------------------------------------------------

  /** The invariant of a chain: every number in it is told by its history. */
  ghost predicate Inv(t: Track) {
    var b, n := t.chain.budget, |t.chain.history|;
    && b.iteration <= b.limits.iterations
    && b.iteration <= n <= b.iteration + 1 && (t.chain.ended.None? ==> n == b.iteration)
    && |t.detector.rounds| == n
    && (forall k :: 0 <= k < n ==> t.chain.history[k].iteration == k + 1)
    && b.noProgress == RepeatedRounds(t.detector.rounds)
    && (t.chain.ended.None? && n > 0 ==> b.noProgress < b.limits.noProgress)
    && b.cost == 0.0 && t.detector.stalls == 0 && t.detector.threshold == 2
  }

  lemma EvaluateKeepsInv(t: Track, task: string, policy: Policy, audit: Audit)
    requires Inv(t) && t.chain.ended.None?
    ensures Inv(EvaluateTrack(t, task, policy, audit))
  {
    var r := Recorded(t, task, audit);
    assert r.detector.rounds[..|t.detector.rounds|] == t.detector.rounds;
  }

  ghost predicate AllInv(chains: Chains) {
    forall id :: id in chains ==> Inv(chains[id])
  }

  lemma ApplyKeepsInv(chains: Chains, policy: Policy, op: Op)
    requires AllInv(chains) && Enabled(chains, op)
    ensures AllInv(Apply(chains, policy, op))
  {
    if op.Evaluate? && Finds(chains, op.task, op.pick) {
      EvaluateKeepsInv(chains[op.pick], op.task, policy, op.audit);
    }
  }

  lemma {:induction false} RunKeepsInv(chains: Chains, policy: Policy, ops: seq<Op>)
    requires AllInv(chains) && EnabledRun(chains, policy, ops)
    ensures AllInv(Run(chains, policy, ops))
    decreases |ops|
  {
    if ops != [] {
      ApplyKeepsInv(chains, policy, ops[0]);
      RunKeepsInv(Apply(chains, policy, ops[0]), policy, ops[1..]);
    }
  }

  // ---- Bounds over whole runs ------------------------------------------------------------------------

  /** Whatever is done to the coordinator, a chain that has ended stays ended, and nothing more is dispatched for it. */
  lemma {:induction false} EndedForGood(chains: Chains, policy: Policy, ops: seq<Op>, id: ChainId)
    requires EnabledRun(chains, policy, ops) && id in chains && chains[id].chain.ended.Some?
    ensures var after := Run(chains, policy, ops);
            && id in after && after[id].chain.ended.Some?
            && after[id].chain.history == chains[id].chain.history && after[id].chain.budget == chains[id].chain.budget
    ensures DispatchedFor(chains, policy, ops, id) == [] && EvaluationsOf(chains, policy, ops, id) == 0
    decreases |ops|
  {
    if ops != [] {
      EndedForGood(Apply(chains, policy, ops[0]), policy, ops[1..], id);
    }
  }

  function Dispatches(chains: Chains, id: ChainId): nat {
    if id in chains then chains[id].chain.budget.iteration else 0
  }

  function Evaluated(chains: Chains, id: ChainId): nat {
    if id in chains then |chains[id].chain.history| else 0
  }

  /** The numbers from `from` + 1 up to `upto`. */
  function Count(from: nat, upto: nat): seq<nat>
    requires from <= upto
  {
    seq(upto - from, i requires 0 <= i < upto - from => from + 1 + i)
  }

  lemma CountAppend(a: nat, b: nat, c: nat)
    requires a <= b <= c
    ensures Count(a, b) + Count(b, c) == Count(a, c)
  {
  }

  lemma CountShort(n: nat)
    ensures Count(n, n) == [] && Count(n, n + 1) == [n + 1]
  {
  }

  /** One evaluation: either the next iteration is dispatched, or the chain ends; history grows by one both ways. */
  lemma OneEvaluation(t: Track, task: string, policy: Policy, audit: Audit)
    requires t.chain.ended.None?
    ensures var c := EvaluateTrack(t, task, policy, audit).chain;
            && |c.history| == |t.chain.history| + 1
            && c.budget.iteration == t.chain.budget.iteration + (if c.ended.None? then 1 else 0)
  {
  }

  lemma OutputNumbers(chains: Chains, policy: Policy, op: Op, id: ChainId)
    requires Enabled(chains, op)
    ensures var after := Apply(chains, policy, op);
            && Dispatches(chains, id) <= Dispatches(after, id)
            && DispatchedBy(chains, policy, op, id) == Count(Dispatches(chains, id), Dispatches(after, id))
            && Evaluated(after, id) == Evaluated(chains, id) + EvaluatedBy(chains, op, id)
            && EvaluatedBy(chains, op, id) == |DispatchedBy(chains, policy, op, id)| + EndedBy(chains, policy, op, id)
  {
    CountShort(Dispatches(chains, id));
    if op.Evaluate? && Finds(chains, op.task, op.pick) {
      OneEvaluation(chains[op.pick], op.task, policy, op.audit);
    }
  }

  /** One operation: the dispatch it asks for carries the next number, and history grows by its evaluation. */
  lemma OneOp(chains: Chains, policy: Policy, op: Op, id: ChainId) returns (after: Chains)
    requires AllInv(chains) && Enabled(chains, op)
    ensures after == Apply(chains, policy, op) && AllInv(after)
    ensures Dispatches(chains, id) <= Dispatches(after, id)
    ensures DispatchedBy(chains, policy, op, id) == Count(Dispatches(chains, id), Dispatches(after, id))
    ensures Evaluated(after, id) == Evaluated(chains, id) + EvaluatedBy(chains, op, id)
    ensures EvaluatedBy(chains, op, id) == |DispatchedBy(chains, policy, op, id)| + EndedBy(chains, policy, op, id)
  {
    after := Apply(chains, policy, op);
    ApplyKeepsInv(chains, policy, op);
    OutputNumbers(chains, policy, op, id);
  }

  /** Over every run the k-th dispatch of a chain carries iteration k, and its history counts its evaluations. */
  lemma {:induction false} DispatchesAreNumbered(chains: Chains, policy: Policy, ops: seq<Op>, id: ChainId) returns (end: Chains)
    requires AllInv(chains) && EnabledRun(chains, policy, ops)
    ensures end == Run(chains, policy, ops)
    ensures Dispatches(chains, id) <= Dispatches(end, id)
    ensures DispatchedFor(chains, policy, ops, id) == Count(Dispatches(chains, id), Dispatches(end, id))
    ensures Evaluated(end, id) == Evaluated(chains, id) + EvaluationsOf(chains, policy, ops, id)
    ensures EvaluationsOf(chains, policy, ops, id) ==
            |DispatchedFor(chains, policy, ops, id)| + EndingsOf(chains, policy, ops, id)
    decreases |ops|
  {
    if ops == [] {
      end := chains;
    } else {
      var next := OneOp(chains, policy, ops[0], id);
      end := DispatchesAreNumbered(next, policy, ops[1..], id);
      CountAppend(Dispatches(chains, id), Dispatches(next, id), Dispatches(end, id));
    }
  }

  /**
   * From an empty coordinator, over every run and under every policy: a chain dispatches at most as
   * often as its budget allows, numbered from 1; it is evaluated while active as often as its
   * history is long, which is its dispatches, or one more exactly when an evaluation ended it.
   */
  lemma ChainsAreBounded(policy: Policy, ops: seq<Op>, id: ChainId)
    requires EnabledRun(map[], policy, ops)
    ensures var after := Run(map[], policy, ops);
            var dispatched, evaluated := DispatchedFor(map[], policy, ops, id), EvaluationsOf(map[], policy, ops, id);
            var endings := EndingsOf(map[], policy, ops, id);
            && dispatched == Count(0, |dispatched|)
            && (id !in after ==> dispatched == [] && evaluated == 0)
            && (id in after ==>
                  && |dispatched| <= after[id].chain.budget.limits.iterations
                  && evaluated == |after[id].chain.history| == |dispatched| + endings && endings <= 1
                  && (after[id].chain.ended.None? ==> endings == 0))
  {
    RunKeepsInv(map[], policy, ops);
    var end := DispatchesAreNumbered(map[], policy, ops, id);
  }

  // ---- The doom-loop bound -----------------------------------------------------------------------

  lemma {:induction false} RepeatedRoundsGrow(rounds: seq<set<Signature>>, n: nat)
    requires n <= |rounds|
    ensures RepeatedRounds(rounds[..n]) <= RepeatedRounds(rounds)
    decreases |rounds|
  {
    if n < |rounds| {
      var last := |rounds| - 1;
      assert rounds[..last][..n] == rounds[..n];
      RepeatedRoundsGrow(rounds[..last], n);
    } else {
      assert rounds[..n] == rounds;
    }
  }

  /** From the third on, every round of a stretch with a common signature counts. */
  lemma {:induction false} StretchCounts(rounds: seq<set<Signature>>, sig: Signature, from: nat, m: nat)
    requires from + 2 + m <= |rounds| && forall k :: from <= k < from + 2 + m ==> sig in rounds[k]
    ensures RepeatedRounds(rounds[..from + 2 + m]) >= m
    decreases m
  {
    if m > 0 {
      var upto := from + 2 + m;
      var now := rounds[..upto];
      StretchCounts(rounds, sig, from, m - 1);
      assert now[..upto - 1] == rounds[..upto - 1];
      assert sig in now[upto - 1] && sig in now[upto - 2] && sig in now[upto - 3];
      assert sig in now[upto - 1] * now[upto - 2] * now[upto - 3];
    }
  }

  /** No active chain has been through 2 + its limit of consecutive rounds that all reported the same signature. */
  lemma NoActiveDoomLoop(policy: Policy, ops: seq<Op>, id: ChainId, sig: Signature, from: nat)
    requires EnabledRun(map[], policy, ops) && id in Run(map[], policy, ops)
    ensures var t := Run(map[], policy, ops)[id];
            !(t.chain.ended.None? && SharedThroughout(t.detector.rounds, sig, from, 2 + t.chain.budget.limits.noProgress))
  {
    RunKeepsInv(map[], policy, ops);
    ActiveHasNoStretch(Run(map[], policy, ops)[id], sig, from);
  }

  /** The `length` rounds from `from` on all report `sig`. */
  predicate SharedThroughout(rounds: seq<set<Signature>>, sig: Signature, from: nat, length: nat) {
    from + length <= |rounds| && forall k :: from <= k < from + length ==> sig in rounds[k]
  }

  lemma ActiveHasNoStretch(t: Track, sig: Signature, from: nat)
    requires Inv(t)
    ensures !(t.chain.ended.None? && SharedThroughout(t.detector.rounds, sig, from, 2 + t.chain.budget.limits.noProgress))
  {
    var m, rounds := t.chain.budget.limits.noProgress, t.detector.rounds;
    if SharedThroughout(rounds, sig, from, 2 + m) {
      StretchCounts(rounds, sig, from, m);
      RepeatedRoundsGrow(rounds, from + 2 + m);
    }
  }

  // ---- Consecutive rounds --------------------------------------------------------------------------

  /** How many rounds at the end repeat one after the other: what a counter that progress resets would show. */
  function TrailingRepeats(rounds: seq<set<Signature>>): nat {
    if rounds == [] || !Repeats(rounds) then 0 else TrailingRepeats(rounds[..|rounds| - 1]) + 1
  }

  /** No round that makes progress comes behind one that repeats. */
  ghost predicate Uninterrupted(rounds: seq<set<Signature>>) {
    forall k :: 1 <= k < |rounds| && Repeats(rounds[..k]) ==> Repeats(rounds[..k + 1])
  }

  lemma UninterruptedSnoc(rounds: seq<set<Signature>>)
    requires |rounds| > 1
    ensures var init := rounds[..|rounds| - 1];
            Uninterrupted(rounds) <==> Uninterrupted(init) && (Repeats(init) ==> Repeats(rounds))
  {
    var last := |rounds| - 1;
    var init := rounds[..last];
    assert rounds[..last + 1] == rounds;
    forall k | 1 <= k <= last ensures init[..k] == rounds[..k] {
    }
    if Uninterrupted(init) && (Repeats(init) ==> Repeats(rounds)) {
      forall k | 1 <= k < |rounds| && Repeats(rounds[..k]) ensures Repeats(rounds[..k + 1]) {
        if k < last {
          assert Repeats(init[..k]) && Repeats(init[..k + 1]);
        }
      }
    }
    if Uninterrupted(rounds) {
      assert Repeats(rounds[..last]) ==> Repeats(rounds[..last + 1]);
      forall k | 1 <= k < last && Repeats(init[..k]) ensures Repeats(init[..k + 1]) {
        assert Repeats(rounds[..k]);
      }
    }
  }

  /** The repeating rounds are those at the end exactly when none of them is followed by progress. */
  lemma {:induction false} ConsecutiveIff(rounds: seq<set<Signature>>)
    ensures TrailingRepeats(rounds) <= RepeatedRounds(rounds)
    ensures RepeatedRounds(rounds) == TrailingRepeats(rounds) <==> Uninterrupted(rounds)
    decreases |rounds|
  {
    if |rounds| == 1 {
      assert RepeatedRounds(rounds[..0]) == 0;
    } else if |rounds| > 1 {
      ConsecutiveIff(rounds[..|rounds| - 1]);
      UninterruptedSnoc(rounds);
    }
  }

  /** The no-progress counter of a chain, documented as consecutive, is that exactly as long as progress never interrupts repeats. */
  lemma NoProgressIsConsecutiveIff(policy: Policy, ops: seq<Op>, id: ChainId)
    requires EnabledRun(map[], policy, ops) && id in Run(map[], policy, ops)
    ensures var t := Run(map[], policy, ops)[id];
            && TrailingRepeats(t.detector.rounds) <= t.chain.budget.noProgress
            && (t.chain.budget.noProgress == TrailingRepeats(t.detector.rounds) <==> Uninterrupted(t.detector.rounds))
  {
    RunKeepsInv(map[], policy, ops);
    ConsecutiveIff(Run(map[], policy, ops)[id].detector.rounds);
  }

  function SignatureRounds(audits: seq<Audit>): seq<set<Signature>> {
    seq(|audits|, i requires 0 <= i < |audits| => Signatures(audits[i].findings))
  }

  function Evaluations(task: string, audits: seq<Audit>, id: ChainId): seq<Op> {
    seq(|audits|, i requires 0 <= i < |audits| => Op.Evaluate(task, audits[i], id))
  }

  /** Nothing but the no-progress limit can end the chain within the next `n` evaluations at time zero. */
  ghost predicate OnlyRepeatsCanEnd(t: Track, policy: Policy, task: string, n: nat) {
    && t.chain.ended.None? && t.chain.current == task
    && t.chain.budget.iteration + n <= t.chain.budget.limits.iterations
    && t.chain.budget.limits.cost > 0.0 && t.chain.budget.limits.duration > 0
    && forall chain, audit :: policy(chain, audit).Continue?
  }

  lemma OneMoreRound(t: Track, policy: Policy, task: string, audit: Audit, n: nat)
    requires Inv(t) && OnlyRepeatsCanEnd(t, policy, task, n + 1) && audit.now == 0
    ensures var t', rounds := EvaluateTrack(t, task, policy, audit), t.detector.rounds + [Signatures(audit.findings)];
            && Inv(t') && t'.detector.rounds == rounds && t'.chain.budget.limits == t.chain.budget.limits
            && (RepeatedRounds(rounds) < t.chain.budget.limits.noProgress ==> OnlyRepeatsCanEnd(t', policy, task, n))
            && (RepeatedRounds(rounds) >= t.chain.budget.limits.noProgress ==> t'.chain.ended == Some(NoProgress))
  {
    EvaluateKeepsInv(t, task, policy, audit);
  }

  /**
   * The chain is active, `audits` at time zero lead its rounds to `total`, and only the last of them makes
   * the repeating rounds reach the limit.
   */
  ghost predicate TripsAtLast(t: Track, policy: Policy, task: string, audits: seq<Audit>, total: seq<set<Signature>>) {
    && Inv(t) && OnlyRepeatsCanEnd(t, policy, task, |audits|)
    && audits != [] && (forall i :: 0 <= i < |audits| ==> audits[i].now == 0)
    && t.detector.rounds + SignatureRounds(audits) == total && total != []
    && RepeatedRounds(total[..|total| - 1]) < t.chain.budget.limits.noProgress <= RepeatedRounds(total)
  }

  lemma LastRoundTrips(t: Track, policy: Policy, task: string, audits: seq<Audit>, total: seq<set<Signature>>) returns (next: Track)
    requires TripsAtLast(t, policy, task, audits, total) && |audits| == 1
    ensures next == EvaluateTrack(t, task, policy, audits[0])
    ensures next.chain.ended == Some(NoProgress) && next.detector.rounds == total
  {
    next := EvaluateTrack(t, task, policy, audits[0]);
    OneMoreRound(t, policy, task, audits[0], 0);
    assert SignatureRounds(audits) == [Signatures(audits[0].findings)];
  }

  /** The first of several audits leads no further than the last but one. */
  lemma RoundsAhead(done: seq<set<Signature>>, audits: seq<Audit>, total: seq<set<Signature>>)
    requires |audits| > 1 && done + SignatureRounds(audits) == total
    ensures var rounds := done + [Signatures(audits[0].findings)];
            && rounds + SignatureRounds(audits[1..]) == total
            && RepeatedRounds(rounds) <= RepeatedRounds(total[..|total| - 1])
  {
    var rounds, before := done + [Signatures(audits[0].findings)], total[..|total| - 1];
    assert rounds + SignatureRounds(audits[1..]) == total;
    assert before[..|rounds|] == rounds;
    RepeatedRoundsGrow(before, |rounds|);
  }

  lemma EarlierRoundPasses(t: Track, policy: Policy, task: string, audits: seq<Audit>, total: seq<set<Signature>>) returns (next: Track)
    requires TripsAtLast(t, policy, task, audits, total) && |audits| > 1
    ensures next == EvaluateTrack(t, task, policy, audits[0])
    ensures TripsAtLast(next, policy, task, audits[1..], total)
  {
    next := EvaluateTrack(t, task, policy, audits[0]);
    OneMoreRound(t, policy, task, audits[0], |audits| - 1);
    RoundsAhead(t.detector.rounds, audits, total);
  }

  lemma FirstEvaluation(chains: Chains, policy: Policy, id: ChainId, task: string, audits: seq<Audit>) returns (next: Chains)
    requires Finds(chains, task, id) && audits != []
    ensures next == chains[id := EvaluateTrack(chains[id], task, policy, audits[0])]
    ensures EnabledRun(chains, policy, Evaluations(task, audits, id)) <==> EnabledRun(next, policy, Evaluations(task, audits[1..], id))
    ensures Run(chains, policy, Evaluations(task, audits, id)) == Run(next, policy, Evaluations(task, audits[1..], id))
  {
    next := chains[id := EvaluateTrack(chains[id], task, policy, audits[0])];
    assert Evaluations(task, audits, id)[1..] == Evaluations(task, audits[1..], id);
  }

  /** A chain that nothing else ends is ended by the evaluation at which its repeating rounds reach the limit. */
  lemma {:induction false} RepeatsEndChain(
      chains: Chains, policy: Policy, id: ChainId, t: Track, task: string, audits: seq<Audit>, total: seq<set<Signature>>)
    returns (after: Chains)
    requires id in chains && chains[id] == t && TripsAtLast(t, policy, task, audits, total)
    ensures EnabledRun(chains, policy, Evaluations(task, audits, id)) && after == Run(chains, policy, Evaluations(task, audits, id))
    ensures id in after && after[id].chain.ended == Some(NoProgress) && after[id].detector.rounds == total
    decreases |audits|
  {
    after := FirstEvaluation(chains, policy, id, task, audits);
    if |audits| == 1 {
      var next := LastRoundTrips(t, policy, task, audits, total);
      assert Evaluations(task, audits[1..], id) == [];
    } else {
      var next := EarlierRoundPasses(t, policy, task, audits, total);
      after := RepeatsEndChain(after, policy, id, next, task, audits[1..], total);
    }
  }

  /** Three rounds with one issue, one with another, and again three with the first: two repeat, but not one after the other. */
  lemma TwoRepeatsApart(a: Signature, b: Signature)
    requires a != b
    ensures var rounds := [{a}, {a}, {a}, {b}, {a}, {a}, {a}];
            && RepeatedRounds(rounds) == 2 && RepeatedRounds(rounds[..6]) == 1 && TrailingRepeats(rounds) == 1
            && !Repeats(rounds[..6]) && !Repeats(rounds[..5]) && !Repeats(rounds[..4])
  {
    var r := [{a}, {a}, {a}, {b}, {a}, {a}, {a}];
    assert a in {a} * {a} * {a};
    assert {a} * {b} * {a} == {} && {b} * {a} * {a} == {} && {a} * {a} * {b} == {};
    assert r[..7][..6] == r[..6] && r[..6][..5] == r[..5] && r[..5][..4] == r[..4] && r[..4][..3] == r[..3];
    assert r[..3][..2] == r[..2] && r[..2][..1] == r[..1] && r[..1][..0] == [] && r[..7] == r;
    assert RepeatedRounds(r[..1]) == 0 && RepeatedRounds(r[..2]) == 0 && RepeatedRounds(r[..3]) == 1;
    assert RepeatedRounds(r[..4]) == 1 && RepeatedRounds(r[..5]) == 1 && RepeatedRounds(r[..6]) == 1;
    assert Repeats(r) && !Repeats(r[..6]);
  }

  function AuditOf(f: Finding): Audit {
    Audit(Some(FalsePositive), 1.0, [f], 0, 0)
  }

  /** A run in which progress does not reset the counter: with a limit of two it ends a chain whose last repeats number one. */
  lemma ProgressDoesNotReset(f: Finding, g: Finding, policy: Policy)
    requires Signature(f.location, Categorize(f.issue)) != Signature(g.location, Categorize(g.issue))
    requires forall chain, audit :: policy(chain, audit).Continue?
    ensures var audits := [AuditOf(f), AuditOf(f), AuditOf(f), AuditOf(g), AuditOf(f), AuditOf(f), AuditOf(f)];
            var started := Apply(map[], policy, Start(0, "t", Limits(7, 1.0, 1, 2), 0));
            var ops := Evaluations("t", audits, 0);
            && EnabledRun(started, policy, ops) && 0 in Run(started, policy, ops)
            && Run(started, policy, ops)[0].chain.ended == Some(NoProgress)
            && TrailingRepeats(Run(started, policy, ops)[0].detector.rounds) == 1
  {
    var audits := [AuditOf(f), AuditOf(f), AuditOf(f), AuditOf(g), AuditOf(f), AuditOf(f), AuditOf(f)];
    var a, b := Signature(f.location, Categorize(f.issue)), Signature(g.location, Categorize(g.issue));
    var started := Apply(map[], policy, Start(0, "t", Limits(7, 1.0, 1, 2), 0));
    TwoRepeatsApart(a, b);
    assert Signatures([f]) == {a} && Signatures([g]) == {b};
    var rounds := [{a}, {a}, {a}, {b}, {a}, {a}, {a}];
    assert [] + SignatureRounds(audits) == rounds;
    var after := RepeatsEndChain(started, policy, 0, started[0], "t", audits, rounds);
  }

  // ---- Dimensions that cannot trip -----------------------------------------------------------------

  /** Every iteration is booked at no cost, so the cost limit stops a chain only if it is not above zero to begin with. */
  lemma CostTripsOnlyAtZero(policy: Policy, ops: seq<Op>, id: ChainId, now: nat)
    requires EnabledRun(map[], policy, ops) && id in Run(map[], policy, ops)
    ensures var b := Run(map[], policy, ops)[id].chain.budget;
            Exhausted(b, now) == Some(Cost) <==> b.iteration < b.limits.iterations && b.limits.cost <= 0.0
  {
    RunKeepsInv(map[], policy, ops);
  }

  /** The diff-based detector is never fed, so only the budget and the policy ever end a chain. */
  lemma OnlyBudgetOrPolicyEnds(policy: Policy, ops: seq<Op>, id: ChainId, task: string, audit: Audit)
    requires EnabledRun(map[], policy, ops) && id in Run(map[], policy, ops)
    ensures var r := Recorded(Run(map[], policy, ops)[id], task, audit);
            Ending(r, policy, audit) == match Exhausted(r.chain.budget, audit.now)
                                        case Some(dimension) => Some(ReasonFor(dimension))
                                        case None => match policy(r.chain, audit)
                                                     case Continue => None
                                                     case Terminate(reason) => Some(reason)
  {
    RunKeepsInv(map[], policy, ops);
  }

  /** With nothing spent, the detector is asked before the policy; an active chain goes on exactly when neither ends it. */
  lemma DetectorBeforePolicy(t: Track, policy: Policy, audit: Audit)
    requires Unspent(t.chain.budget, audit.now)
    ensures t.detector.stalls >= t.detector.threshold ==> Ending(t, policy, audit) == Some(NoProgress)
    ensures t.detector.stalls < t.detector.threshold ==>
              Ending(t, policy, audit) == (match policy(t.chain, audit) case Continue => None case Terminate(reason) => Some(reason))
  {
    ReportsFirstSpent(t.chain.budget, audit.now, None);
  }

  /** Under the default policy a chain goes on exactly when nothing is exhausted at either check and the audit asks for a fix it is sure of, or found a false positive. */
  lemma DefaultPolicyContinuesIff(t: Track, threshold: real, audit: Audit)
    requires Inv(t) && t.chain.ended.None? && audit.now <= audit.later
    ensures forall task :: EvaluateTrack(t, task, DefaultPolicy(threshold), audit).chain.ended.None? <==>
              && Exhausted(Recorded(t, task, audit).chain.budget, audit.later).None?
              && (audit.verdict == Some(FalsePositive) || (audit.verdict == Some(NeedsFix) && audit.confidence >= threshold))
  {
  }

  /** The first dimension spent when the coordinator checks the budget or, with nothing spent then, when the policy checks it again. */
  ghost predicate SpentAtCheck(b: Budget, audit: Audit, d: Dimension) {
    FirstSpent(b, audit.now, d) || (Unspent(b, audit.now) && FirstSpent(b, audit.later, d))
  }

  lemma ExhaustedIff(b: Budget, now: nat, d: Dimension)
    ensures Exhausted(b, now) == Some(d) <==> FirstSpent(b, now, d)
    ensures Exhausted(b, now).None? <==> Unspent(b, now)
  {
    if Unspent(b, now) {
      ReportsFirstSpent(b, now, None);
    }
    assert Rank(Iterations) < Rank(Cost) < Rank(Duration) < Rank(NoProgressRounds);
    assert forall e :: FirstSpent(b, now, d) && FirstSpent(b, now, e) ==> d == e;
  }

  /**
   * With which reason the default policy ends a chain: the budget comes first, whatever the audit
   * says; with none of it spent, an audit that confirms or did not run ends it as complete, one
   * that asks for a human, or for a fix it is not sure of, ends it for review; nothing else does.
   */
  lemma DefaultPolicyEndsAs(t: Track, task: string, threshold: real, audit: Audit, reason: Reason)
    requires Inv(t) && t.chain.ended.None? && audit.now <= audit.later
    ensures var b := Recorded(t, task, audit).chain.budget;
            EvaluateTrack(t, task, DefaultPolicy(threshold), audit).chain.ended == Some(reason) <==>
            match reason
            case BudgetExhausted(d) => d != NoProgressRounds && SpentAtCheck(b, audit, d)
            case NoProgress => SpentAtCheck(b, audit, NoProgressRounds)
            case ConfirmedComplete => Unspent(b, audit.later) && (audit.verdict.None? || audit.verdict == Some(Confirmed))
            case NeedsHumanReview =>
              Unspent(b, audit.later) &&
              (audit.verdict == Some(NeedsHuman) || (audit.verdict == Some(NeedsFix) && audit.confidence < threshold))
            case UserCancelled => false
            case TaskError(_) => false
  {
    var b := Recorded(t, task, audit).chain.budget;
    forall now, d
      ensures Exhausted(b, now) == Some(d) <==> FirstSpent(b, now, d)
      ensures Exhausted(b, now).None? <==> Unspent(b, now)
    {
      ExhaustedIff(b, now, d);
    }
  }
}
