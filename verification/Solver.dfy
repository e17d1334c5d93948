/** The default solver: pick an algorithm by problem size and time left, and fall back. */
module Solver {
  import opened Placement
  import opened Scoring
  import opened Solutions
  import opened GreedyProperties
  import opened GreedyRefusals
  import opened ExamplePods
  import Greedy
  import Exact
  import HeuristicSolver
  import Histories
  import LocalSearch
  import SearchRounds
  import Optimality

  const EXACT_MAX_CANDIDATES := 20
  const HEURISTIC_MAX_CANDIDATES := 100
  const EXACT_MIN_TIME_PERCENT := 0.50
  const HEURISTIC_MIN_TIME_PERCENT := 0.25

  /** What time allows: the share of the planning period left when an algorithm is chosen, whether the
      exact solver is already past its deadline after greedy, at which visits its search finds the
      deadline past, how many rounds of local search fit, and whether the last of them does entirely. */
  datatype Timing = Timing(remainingPercent: real, late: bool, expired: iset<nat>, rounds: nat, inTime: bool)

  /** All pods listed as having no node at all. */
  method NoNodes(pods: seq<Pod>) returns (out: SolverOutput)
    ensures Accounted(pods, out) && out.assignments == map[] && out.algorithm == NotSolved && out.offlineNodesUsed == 0
    ensures forall e | e in out.unassignedPods :: e.reason == NoFeasibleNodes
  {
    out := NewSolverOutput();
    assert PlanFrom(out.assignments) == map[];
    for k := 0 to |pods|
      invariant out.assignments == map[] && out.algorithm == NotSolved && out.offlineNodesUsed == 0
      invariant ListsTheRest(pods[..k], map[], out.unassignedPods)
      invariant forall e | e in out.unassignedPods :: e.reason == NoFeasibleNodes
    {
      RestAfterRefusal(pods, k, map[], out.unassignedPods, NoFeasibleNodes);
      out := out.(
        unassignedPods := out.unassignedPods + [UnassignedPod(pods[k].namespace, pods[k].name, NoFeasibleNodes)]);
    }
    assert pods[..|pods|] == pods;
    assert PlanFrom(out.assignments) == map[];
  }

  /** The algorithm that problem size and remaining time call for. */
  ghost function Chosen(pods: seq<Pod>, nodes: seq<Node>, timing: Timing): Algorithm {
    var size := FittingPairs(pods, nodes);
    if pods == [] || nodes == [] then NotSolved
    else if size < EXACT_MAX_CANDIDATES && timing.remainingPercent > EXACT_MIN_TIME_PERCENT then Solutions.Exact
    else if size < HEURISTIC_MAX_CANDIDATES && timing.remainingPercent > HEURISTIC_MIN_TIME_PERCENT then
      Solutions.Heuristic
    else Solutions.Greedy
  }

  /** Fewer than 20 fitting pairs and more than half of the period left call for exact; else fewer than 100
      and more than a quarter for the heuristic. */
  lemma RegimeBounds(pods: seq<Pod>, nodes: seq<Node>, timing: Timing)
    requires pods != [] && nodes != []
    ensures var size, left := FittingPairs(pods, nodes), timing.remainingPercent;
      && (Chosen(pods, nodes, timing) == Solutions.Exact <==> size < 20 && left > 0.5)
      && (Chosen(pods, nodes, timing) == Solutions.Greedy <==> size >= 100 || left <= 0.25)
  {
  }

  /** What the result may be labelled: that algorithm, or the fallback from exact. */
  ghost predicate Regime(pods: seq<Pod>, nodes: seq<Node>, timing: Timing, algorithm: Algorithm) {
    || algorithm == Chosen(pods, nodes, timing)
    || (Chosen(pods, nodes, timing) == Solutions.Exact && algorithm == Solutions.Heuristic)
  }

  ghost predicate NoNegativeScores(nodes: seq<Node>) {
    forall n | n in nodes :: n.policyScore >= 0.0
  }

  /** Greedy may end with a negative total. */
  ghost predicate InTheRed(input: SolverInput) {
    exists pods, order, g :: Greedy.Outcome(input, pods, order, g) && g.totalScore < 0.0
  }

  /** No local search is behind a result with this label. The exact one has to agree with greedy on what
      needs a wake. Local search only follows exact where greedy's total is negative, so where no score is
      negative a fallback changes nothing. */
  ghost predicate Direct(pods: seq<Pod>, nodes: seq<Node>, timing: Timing, algorithm: Algorithm) {
    match algorithm
    case Heuristic => Chosen(pods, nodes, timing) == Solutions.Exact && NoNegativeScores(nodes)
    case Exact => Optimality.PhasesDisjoint(nodes)
    case _ => true
  }

  /* ------------------------------ What is behind a result ------------------------------ */

  ghost predicate GreedyRun(input: SolverInput, g: SolverOutput) {
    exists pods, order :: Greedy.Outcome(input, pods, order, g)
  }

  /** The best that the exact search finds from this greedy result, or that result when it is late. */
  ghost predicate ExactRun(
    input: SolverInput, timing: Timing, g: SolverOutput, x: Exact.Setup, out: SolverOutput)
  {
    && GreedyRun(input, g) && x.p.Shape()
    && if timing.late then out == g.(algorithm := Solutions.Exact)
       else Exact.Outcome(input, g, timing.expired, x, out)
  }

  /** What the local search as written makes of this greedy result. */
  ghost predicate HeuristicRun(
    input: SolverInput, timing: Timing, g: SolverOutput, e: LocalSearch.Env, h: Histories.History, out: SolverOutput)
  {
    && GreedyRun(input, g) && HeuristicSolver.HeuristicPromise(input, g, out)
    && if |g.assignments| < 2 then out == g.(algorithm := Solutions.Heuristic)
       else
         && HeuristicSolver.Found(input, g, Histories.AS_WRITTEN, e, h, out)
         && (timing.inTime ==>
               || HeuristicSolver.LocallyOptimal(e, Histories.AS_WRITTEN, Histories.Now(e, Histories.AS_WRITTEN, h))
               || h.Steps() >= timing.rounds)
         && SearchRounds.WithinRounds(
              e, Histories.AS_WRITTEN, Histories.Start(h.Begun()), h, timing.rounds, timing.inTime)
  }

  /** A result is what its label says. */
  ghost predicate Answer(input: SolverInput, timing: Timing, out: SolverOutput) {
    match out.algorithm
    case NotSolved =>
      && (input.pods == [] || input.nodes == []) && out.assignments == map[]
      && forall e | e in out.unassignedPods :: e.reason == NoFeasibleNodes
    case Greedy => GreedyRun(input, out)
    case Exact => exists g, x :: ExactRun(input, timing, g, x, out)
    case Heuristic => exists g, e, h :: HeuristicRun(input, timing, g, e, h, out)
  }

  /** No feasible plan scores above the result's total. */
  ghost predicate Unbeaten(input: SolverInput, out: SolverOutput) {
    forall m | Feasible(input.pods, Candidates(input), input.constraints, m) ::
      PlanScore(input.pods, Candidates(input), m) <= out.totalScore
  }

  /** The total is the score of the plan, plus at most what some run of greedy claims too much. */
  ghost predicate ClaimIsBounded(input: SolverInput, out: SolverOutput) {
    exists g :: GreedyRun(input, g) && Claims(input, g, out)
  }

  ghost predicate Claims(input: SolverInput, g: SolverOutput, out: SolverOutput) {
    var nodes, plan := Candidates(input), PlanFrom(out.assignments);
    && g.totalScore <= out.totalScore
    && PlanScore(input.pods, nodes, plan) <= out.totalScore
    && out.totalScore <= PlanScore(input.pods, nodes, plan) + Excess(input.pods, nodes, PlanFrom(g.assignments))
  }

  lemma ExactClaims(input: SolverInput, g: SolverOutput, out: SolverOutput, finished: bool)
    requires WellFormed(input) && GreedyPromise(input, g) && Exact.ExactPromise(input, g, out, finished)
    ensures Claims(input, g, out)
  {
    Optimality.ExcessIsZeroIff(input, g);
  }

  /** In time, the exact result is at least as good as every feasible plan, by its own total. */
  lemma ExactIsUnbeaten(input: SolverInput, timing: Timing, g: SolverOutput, x: Exact.Setup, out: SolverOutput)
    requires WellFormed(input) && GreedyPromise(input, g) && ExactRun(input, timing, g, x, out)
    requires !timing.late && Exact.Punctual(timing.expired)
    ensures Unbeaten(input, out)
  {
    Exact.PunctualIsFinished(input, g, x);
    Exact.OutcomeKeepsPromise(input, g, timing.expired, x, out);
  }

  lemma GreedyIsSafe(input: SolverInput, g: SolverOutput)
    requires WellFormed(input) && GreedyPromise(input, g)
    ensures Accounted(input.pods, g) && SafeToApply(input, g)
  {
  }

  lemma EmptyIsSafe(input: SolverInput, out: SolverOutput)
    requires out.assignments == map[] && out.offlineNodesUsed == 0
    ensures SafeToApply(input, out)
  {
    assert PlanFrom(out.assignments) == map[];
    EmptyPlanFeasible(input.pods, Cold(Candidates(input)), input.constraints);
  }

  /** Whether a node is used that greedy takes as it is and exact wakes. */
  ghost predicate UsesClash(nodes: seq<Node>, plan: Plan) {
    exists n :: n in nodes && n.isReady && n.isOffline && Uses(plan, n.name)
  }

  lemma WakesClash(nodes: seq<Node>, plan: Plan)
    requires DistinctNames(nodes)
    ensures Wakes(nodes, plan) == Woken(nodes, plan) <==> !UsesClash(nodes, plan)
  {
    var cold := Cold(nodes);
    forall name | name in Woken(nodes, plan) ensures name in Wakes(nodes, plan) {
      var m :| m in cold && m.isOffline && Uses(plan, m.name) && m.name == name;
      var i :| 0 <= i < |cold| && cold[i] == m;
      assert nodes[i] in nodes;
    }
    if n :| n in nodes && n.isReady && n.isOffline && Uses(plan, n.name) {
      assert n.name in Wakes(nodes, plan);
      if n.name in Woken(nodes, plan) {
        var m :| m in cold && m.isOffline && m.name == n.name;
        var i :| 0 <= i < |cold| && cold[i] == m;
        NameIdentifies(nodes, nodes[i], n);
      }
    } else {
      forall n | n in nodes && n.isOffline && Uses(plan, n.name) ensures n.name in Woken(nodes, plan) {
        var i :| 0 <= i < |nodes| && nodes[i] == n;
        assert cold[i] in cold;
      }
    }
  }

  /** The exact result is as safe to apply as greedy's exactly when it uses no node that is both ready and
      offline; its plan is feasible in any case. */
  lemma ExactIsSafeIff(input: SolverInput, g: SolverOutput, out: SolverOutput, finished: bool)
    requires WellFormed(input)
    requires GreedyPromise(input, g) && Exact.ExactPromise(input, g, out, finished)
    requires Flagged(out.assignments) == Wakes(Candidates(input), PlanFrom(out.assignments))
    requires out.offlineNodesUsed == |Wakes(Candidates(input), PlanFrom(out.assignments))|
    ensures SafeToApply(input, out) <==> !UsesClash(Candidates(input), PlanFrom(out.assignments))
  {
    Optimality.ExactAlwaysFeasible(input, g, out, finished);
    WakesClash(Candidates(input), PlanFrom(out.assignments));
  }

  /** The nodes the exact result asks to wake fit the power budget exactly when the search replaced greedy's
      plan, or that plan fits it with every offline node counted. */
  lemma ExactWakesFitIff(input: SolverInput, g: SolverOutput, out: SolverOutput, finished: bool)
    requires Exact.ExactPromise(input, g, out, finished)
    requires Flagged(out.assignments) == Wakes(Candidates(input), PlanFrom(out.assignments))
    ensures WithinPowerBudget(input.constraints, Flagged(out.assignments))
       <==> || Exact.Improved(g, out)
            || WithinPowerBudget(input.constraints, Wakes(Candidates(input), PlanFrom(g.assignments)))
  {
  }

  const CLASH := Node(1, UNIT, UNIT, 0.0, 0.0, 0.0, true, true)
  const CLASH_INPUT := SolverInput([P], [CLASH], Constraints(1, 1, 10, 0))
  const CLASH_SCORED := CLASH.(normalizedScore := 1.0)

  lemma ClashCandidates()
    ensures WellFormed(CLASH_INPUT) && Candidates(CLASH_INPUT) == [CLASH_SCORED]
  {
    var based := Greedy.WithBaseScores([CLASH]);
    assert MinBase(based) == 0.0 && MaxBase(based) == 0.0;
  }

  lemma GreedyTakesClash(pods: seq<Pod>, nodes: seq<Node>, c: Constraints)
    requires pods == [P] && nodes == [CLASH_SCORED]
    ensures var g := Greedy.After(pods, nodes, c, 1).out;
      PlanFrom(g.assignments) == map[1 := 1] && g.totalScore == 100.0
  {
    assert Greedy.After(pods, nodes, c, 1) == Greedy.Placed(Greedy.After(pods, nodes, c, 0), pods[0], c);
  }

  lemma ClashScores(pods: seq<Pod>, nodes: seq<Node>, plan: Plan)
    requires pods == [P] && nodes == [CLASH_SCORED]
    ensures PlanScore(pods, nodes, plan) <= 100.0
  {
    var f := ScoreIn(plan, nodes);
    assert pods[..|pods| - 1] == [];
    assert Sum(pods, f) == Sum([], f) + Value(f, pods[0]);
  }

  /** With the budget spent, greedy puts a pod on a node that is online and asked to go offline; exact returns
      the same plan and asks to wake that node. */
  lemma ExactWakesBeyondBudget(pods: seq<Pod>, order: seq<Node>, g: SolverOutput, out: SolverOutput, finished: bool)
    requires Greedy.Outcome(CLASH_INPUT, pods, order, g) && Exact.ExactPromise(CLASH_INPUT, g, out, finished)
    requires Flagged(out.assignments) == Wakes(Candidates(CLASH_INPUT), PlanFrom(out.assignments))
    ensures PlanFrom(out.assignments) == map[1 := 1] && Flagged(out.assignments) == {1}
    ensures !WithinPowerBudget(CLASH_INPUT.constraints, Flagged(out.assignments))
  {
    ClashCandidates();
    assert pods == CLASH_INPUT.pods && order == [CLASH_SCORED];
    GreedyTakesClash(pods, order, CLASH_INPUT.constraints);
    ClashScores(CLASH_INPUT.pods, [CLASH_SCORED], PlanFrom(out.assignments));
    ClashWakes(PlanFrom(out.assignments));
  }

  lemma ClashWakes(plan: Plan)
    requires plan == map[1 := 1]
    ensures Wakes([CLASH_SCORED], plan) == {1}
  {
    assert 1 in plan && CLASH_SCORED in [CLASH_SCORED];
  }

  /* --------------------------------- The fallback --------------------------------- */

  lemma ScoresAtLeastZero(pods: seq<Pod>, nodes: seq<Node>, plan: Plan)
    requires forall n | n in nodes :: n.baseScore >= 0.0
    ensures PlanScore(pods, nodes, plan) >= 0.0 && PlanScore(pods, nodes, map[]) == 0.0
  {
    SumZero(pods, ScoreIn(map[], nodes));
    forall i | 0 <= i < |pods| ensures Value(ScoreIn(map[], nodes), pods[i]) <= Value(ScoreIn(plan, nodes), pods[i]) {
      if pods[i].uid in plan && plan[pods[i].uid] in Names(nodes) {
        assert Named(nodes, plan[pods[i].uid]) in nodes;
      }
    }
    SumMonotone(pods, ScoreIn(map[], nodes), ScoreIn(plan, nodes));
  }

  /** Without negative scores greedy is never in the red. */
  lemma NeverInTheRed(input: SolverInput)
    requires WellFormed(input) && NoNegativeScores(input.nodes)
    ensures !InTheRed(input)
  {
    forall pods, order, g | Greedy.Outcome(input, pods, order, g) ensures g.totalScore >= 0.0 {
      GreedyKeepsPromise(input, pods, order, g);
      ScoresAtLeastZero(input.pods, Candidates(input), PlanFrom(g.assignments));
      Optimality.ExcessIsZeroIff(input, g);
    }
  }

  /** Unless greedy's total is negative, exact comes back empty-handed only if greedy did. */
  lemma NothingForExact(input: SolverInput, g: SolverOutput, out: SolverOutput, finished: bool)
    requires WellFormed(input) && GreedyPromise(input, g) && Exact.ExactPromise(input, g, out, finished)
    requires g.totalScore >= 0.0 && out.assignments == map[]
    ensures g.assignments == map[]
  {
    assert PlanFrom(out.assignments) == map[];
    SumZero(input.pods, ScoreIn(map[], Candidates(input)));
    assert PlanFrom(g.assignments) == map[];
    assert PlanFrom(g.assignments).Keys == g.assignments.Keys;
    SameEmpty(g.assignments);
  }

  /** Then greedy, run once more, comes back empty-handed again. */
  lemma NothingTwice(input: SolverInput, g: SolverOutput, g': SolverOutput)
    requires GreedyRun(input, g) && GreedyRun(input, g') && g.assignments == map[]
    ensures g'.assignments == map[]
  {
    var pods, order :| Greedy.Outcome(input, pods, order, g);
    var pods', order' :| Greedy.Outcome(input, pods', order', g');
    GreedyEmptyIff(input, pods, order, g);
    GreedyEmptyIff(input, pods', order', g');
  }

  method Solve(input: SolverInput, timing: Timing) returns (out: SolverOutput)
    requires WellFormed(input)
    ensures Accounted(input.pods, out) && Answer(input, timing, out)
    ensures Regime(input.pods, input.nodes, timing, out.algorithm)
    ensures out.algorithm == NotSolved ==> out.assignments == map[]
    ensures out.algorithm == Solutions.Greedy ==> NothingLeftBehind(input, out) && ReasonsTrue(input, out)
    ensures out.algorithm == Solutions.Exact ==> out.assignments != map[] && ClaimIsBounded(input, out)
    ensures out.algorithm == Solutions.Exact && !timing.late && Exact.Punctual(timing.expired) ==> Unbeaten(input, out)
    ensures Direct(input.pods, input.nodes, timing, out.algorithm) ==> SafeToApply(input, out)
    ensures Chosen(input.pods, input.nodes, timing) == Solutions.Exact && out.algorithm == Solutions.Heuristic ==>
      InTheRed(input) || (out.assignments == map[] && SafeToApply(input, out))
  {
    if |input.pods| == 0 {
      out := NoNodes(input.pods);
      EmptyIsSafe(input, out);
      return;
    }
    if |input.nodes| == 0 {
      out := NoNodes(input.pods);
      EmptyIsSafe(input, out);
      return;
    }
    var candidateCount := CountFeasiblePairs(input.pods, input.nodes);
    if candidateCount < EXACT_MAX_CANDIDATES && timing.remainingPercent > EXACT_MIN_TIME_PERCENT {
      out := SolveExactOrFallBack(input, timing);
      if NoNegativeScores(input.nodes) {
        NeverInTheRed(input);
      }
    } else if candidateCount < HEURISTIC_MAX_CANDIDATES && timing.remainingPercent > HEURISTIC_MIN_TIME_PERCENT {
      ghost var g;
      out, g := SolveHeuristic(input, timing);
    } else {
      out := SolveGreedy(input);
    }
  }

  method SolveGreedy(input: SolverInput) returns (out: SolverOutput)
    requires WellFormed(input)
    ensures out.algorithm == Solutions.Greedy && Accounted(input.pods, out) && SafeToApply(input, out)
    ensures GreedyRun(input, out) && NothingLeftBehind(input, out) && ReasonsTrue(input, out)
  {
    out := Greedy.Solve(input);
    ghost var gpods, gorder :| Greedy.Outcome(input, gpods, gorder, out);
    GreedyKeepsPromise(input, gpods, gorder, out);
    GreedyLeavesNothing(input, gpods, gorder, out);
    GreedyReasonsTrue(input, gpods, gorder, out);
    AlgorithmKept(gpods, gorder, input.constraints, |gpods|);
  }

  lemma {:induction false} AlgorithmKept(pods: seq<Pod>, nodes: seq<Node>, c: Constraints, k: nat)
    requires k <= |pods|
    ensures Greedy.After(pods, nodes, c, k).out.algorithm == Solutions.Greedy
  {
    if k > 0 {
      AlgorithmKept(pods, nodes, c, k - 1);
    }
  }

  /** Exact, and the heuristic when that assigns nothing. */
  method SolveExactOrFallBack(input: SolverInput, timing: Timing) returns (out: SolverOutput)
    requires WellFormed(input) && input.pods != []
    ensures out.algorithm == Solutions.Heuristic || (out.algorithm == Solutions.Exact && out.assignments != map[])
    ensures Accounted(input.pods, out) && Answer(input, timing, out)
    ensures out.algorithm == Solutions.Exact && Optimality.PhasesDisjoint(input.nodes) ==> SafeToApply(input, out)
    ensures out.algorithm == Solutions.Exact ==> ClaimIsBounded(input, out)
    ensures out.algorithm == Solutions.Exact && !timing.late && Exact.Punctual(timing.expired) ==> Unbeaten(input, out)
    ensures out.algorithm == Solutions.Heuristic ==>
      InTheRed(input) || (out.assignments == map[] && SafeToApply(input, out))
  {
    ghost var g, g';
    out, g := SolveExact(input, timing);
    if |out.assignments| == 0 && |input.pods| > 0 {
      out, g' := SolveHeuristic(input, timing);
      if g.totalScore >= 0.0 {
        NothingTwice(input, g, g');
        GreedyIsSafe(input, g');
      }
    }
  }

  method SolveExact(input: SolverInput, timing: Timing) returns (out: SolverOutput, ghost g: SolverOutput)
    requires WellFormed(input)
    ensures out.algorithm == Solutions.Exact && Accounted(input.pods, out)
    ensures Answer(input, timing, out) && GreedyRun(input, g) && ClaimIsBounded(input, out)
    ensures !timing.late && Exact.Punctual(timing.expired) ==> Unbeaten(input, out)
    ensures Optimality.PhasesDisjoint(input.nodes) ==> SafeToApply(input, out)
    ensures g.totalScore >= 0.0 && out.assignments == map[] ==> g.assignments == map[]
  {
    ghost var x;
    out, g, x := Exact.Solve(input, timing.late, timing.expired);
    assert ExactRun(input, timing, g, x, out);
    ghost var finished := !timing.late && Exact.Finished(input, g, x);
    ExactClaims(input, g, out, finished);
    if !timing.late && Exact.Punctual(timing.expired) {
      ExactIsUnbeaten(input, timing, g, x, out);
    }
    if timing.late {
      GreedyIsSafe(input, g);
    } else if Optimality.PhasesDisjoint(input.nodes) {
      DisjointIsSafe(input, g, out, finished);
    }
    if g.totalScore >= 0.0 && out.assignments == map[] {
      NothingForExact(input, g, out, finished);
    }
  }

  lemma DisjointIsSafe(input: SolverInput, g: SolverOutput, out: SolverOutput, finished: bool)
    requires WellFormed(input) && Optimality.PhasesDisjoint(input.nodes)
    requires GreedyPromise(input, g) && Exact.ExactPromise(input, g, out, finished)
    requires Flagged(out.assignments) == Wakes(Candidates(input), PlanFrom(out.assignments))
    requires out.offlineNodesUsed == |Wakes(Candidates(input), PlanFrom(out.assignments))|
    ensures SafeToApply(input, out)
  {
    ExactIsSafeIff(input, g, out, finished);
    Optimality.ScoringKeepsPhases(input);
  }

  /** The passes as they stand in the source. */
  method SolveHeuristic(input: SolverInput, timing: Timing) returns (out: SolverOutput, ghost g: SolverOutput)
    requires WellFormed(input)
    ensures out.algorithm == Solutions.Heuristic && Accounted(input.pods, out)
    ensures Answer(input, timing, out) && GreedyRun(input, g) && GreedyPromise(input, g)
    ensures |g.assignments| < 2 ==> out == g.(algorithm := Solutions.Heuristic)
  {
    ghost var e, h;
    out, g, e, h := HeuristicSolver.Solve(input, Histories.AS_WRITTEN, timing.rounds, timing.inTime);
    assert HeuristicRun(input, timing, g, e, h, out);
  }
}
