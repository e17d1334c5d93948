/**
 How good the exact solver's answer is. Its incumbent starts at greedy's total, which counts a bonus
 the score matrix does not know about, so an uninterrupted search is optimal up to that excess.
 */
module Optimality {
  import opened Placement
  import opened Scoring
  import opened Solutions
  import opened GreedyProperties
  import opened ExamplePods
  import Greedy
  import Exact

  /** No node is both ready and offline, so both solvers agree on what needs waking. */
  ghost predicate PhasesDisjoint(nodes: seq<Node>) {
    forall n | n in nodes :: !(n.isReady && n.isOffline)
  }

  lemma ColdIsSame(nodes: seq<Node>)
    requires PhasesDisjoint(nodes)
    ensures Cold(nodes) == nodes
  {
    forall i | 0 <= i < |nodes| ensures Cold(nodes)[i] == nodes[i] {
      assert nodes[i] in nodes;
    }
  }

  lemma ScoringKeepsPhases(input: SolverInput)
    requires PhasesDisjoint(input.nodes)
    ensures PhasesDisjoint(Candidates(input))
  {
    forall n | n in Candidates(input) ensures !(n.isReady && n.isOffline) {
      var i :| 0 <= i < |input.nodes| && Candidates(input)[i] == n;
      assert input.nodes[i] in input.nodes;
    }
  }

  lemma FeasibleWhenCold(pods: seq<Pod>, nodes: seq<Node>, c: Constraints, plan: Plan)
    requires Feasible(pods, nodes, c, plan)
    ensures Feasible(pods, Cold(nodes), c, plan)
  {
    ColdNames(nodes);
    forall n | n in Cold(nodes) ensures Load(pods, plan, n.name).FitsIn(n.allocatable) {
      var i :| 0 <= i < |nodes| && Cold(nodes)[i] == n;
      assert nodes[i] in nodes && Load(pods, plan, nodes[i].name).FitsIn(nodes[i].allocatable);
    }
    forall n | n in Cold(nodes) && n.isOffline && Uses(plan, n.name) ensures n.name in Wakes(nodes, plan) {
      var i :| 0 <= i < |nodes| && Cold(nodes)[i] == n;
      assert nodes[i] in nodes;
    }
    SubsetSize(Wakes(Cold(nodes), plan), Wakes(nodes, plan));
  }

  /** Anytime soundness: wherever the deadline falls, the returned plan is feasible; and by the exact
      solver's own count of offline nodes too, when the search replaced the seed or no node is both
      ready and offline. */
  lemma ExactAlwaysFeasible(input: SolverInput, g: SolverOutput, out: SolverOutput, finished: bool)
    requires WellFormed(input) && GreedyPromise(input, g) && Exact.ExactPromise(input, g, out, finished)
    ensures Feasible(input.pods, Cold(Candidates(input)), input.constraints, PlanFrom(out.assignments))
    ensures Exact.Improved(g, out) || PhasesDisjoint(Candidates(input)) ==>
      Feasible(input.pods, Candidates(input), input.constraints, PlanFrom(out.assignments))
  {
    if Exact.Improved(g, out) {
      FeasibleWhenCold(input.pods, Candidates(input), input.constraints, PlanFrom(out.assignments));
    } else if PhasesDisjoint(Candidates(input)) {
      ColdIsSame(Candidates(input));
    }
  }

  /* --------------------------- When greedy's total is its own score --------------------------- */

  lemma {:induction false} SumAdds(pods: seq<Pod>, f: Measure, g: Measure, h: Measure)
    requires forall i | 0 <= i < |pods| :: Value(h, pods[i]) == Value(f, pods[i]) + Value(g, pods[i])
    ensures Sum(pods, h) == Sum(pods, f) + Sum(pods, g)
  {
    if pods != [] {
      SumAdds(pods[..|pods| - 1], f, g, h);
    }
  }

  lemma OnAnySplit(pods: seq<Pod>, plan: Plan, hosts: set<Name>, n: Name)
    requires n in hosts
    ensures Sum(pods, OnAny(plan, hosts)) == Sum(pods, OnAny(plan, hosts - {n})) + Sum(pods, OnAny(plan, {n}))
  {
    SumAdds(pods, OnAny(plan, hosts - {n}), OnAny(plan, {n}), OnAny(plan, hosts));
  }

  /** No two pods share the node. */
  ghost predicate Alone(pods: seq<Pod>, plan: Plan, n: Name) {
    forall i, j | 0 <= i < j < |pods| :: !(Hosted(pods[i], plan, n) && Hosted(pods[j], plan, n))
  }

  lemma {:induction false} CountAtLeastZero(pods: seq<Pod>, plan: Plan, n: Name)
    ensures Sum(pods, OnAny(plan, {n})) >= 0.0
    ensures (exists i | 0 <= i < |pods| :: Hosted(pods[i], plan, n)) ==> Sum(pods, OnAny(plan, {n})) >= 1.0
    ensures (exists i | 0 <= i < |pods| :: Hosted(pods[i], plan, n)) || Sum(pods, OnAny(plan, {n})) == 0.0
  {
    if pods != [] {
      CountAtLeastZero(pods[..|pods| - 1], plan, n);
      if i :| 0 <= i < |pods| && Hosted(pods[i], plan, n) {
        assert i < |pods| - 1 ==> Hosted(pods[..|pods| - 1][i], plan, n);
      }
    }
  }

  lemma {:induction false} CountOne(pods: seq<Pod>, plan: Plan, n: Name)
    requires exists i | 0 <= i < |pods| :: Hosted(pods[i], plan, n)
    ensures Sum(pods, OnAny(plan, {n})) >= 1.0
    ensures Sum(pods, OnAny(plan, {n})) == 1.0 <==> Alone(pods, plan, n)
  {
    var k := |pods| - 1;
    var rest := pods[..k];
    CountAtLeastZero(rest, plan, n);
    if exists i | 0 <= i < k :: Hosted(rest[i], plan, n) {
      CountOne(rest, plan, n);
    } else {
      assert forall i | 0 <= i < k :: !Hosted(rest[i], plan, n);
    }
  }

  lemma {:induction false} CountHosts(pods: seq<Pod>, plan: Plan, hosts: set<Name>)
    requires forall n | n in hosts :: exists i | 0 <= i < |pods| :: Hosted(pods[i], plan, n)
    ensures Sum(pods, OnAny(plan, hosts)) >= |hosts| as real
    ensures Sum(pods, OnAny(plan, hosts)) == |hosts| as real <==> forall n | n in hosts :: Alone(pods, plan, n)
    decreases |hosts|
  {
    if hosts == {} {
      SumZero(pods, OnAny(plan, hosts));
    } else {
      var n := SomeElement(hosts);
      OnAnySplit(pods, plan, hosts, n);
      CountOne(pods, plan, n);
      CountHosts(pods, plan, hosts - {n});
    }
  }

  /** Greedy's total over-claims exactly when some woken node hosts two pods; it never under-claims. */
  lemma ExcessIsZeroIff(input: SolverInput, g: SolverOutput)
    requires WellFormed(input) && GreedyPromise(input, g)
    ensures var nodes, plan := Candidates(input), PlanFrom(g.assignments);
      && g.totalScore >= PlanScore(input.pods, nodes, plan)
      && (g.totalScore == PlanScore(input.pods, nodes, plan)
          <==> forall n | n in Woken(nodes, plan) :: Alone(input.pods, plan, n))
  {
    var nodes, plan := Candidates(input), PlanFrom(g.assignments);
    forall n | n in Woken(nodes, plan) ensures exists i | 0 <= i < |input.pods| :: Hosted(input.pods[i], plan, n) {
    }
    CountHosts(input.pods, plan, Woken(nodes, plan));
  }

  /** No feasible plan scores more. */
  ghost predicate Optimal(input: SolverInput, plan: Plan) {
    forall m | Feasible(input.pods, Candidates(input), input.constraints, m) ::
      PlanScore(input.pods, Candidates(input), m) <= PlanScore(input.pods, Candidates(input), plan)
  }

  /** Some feasible plan scores more than greedy claims for its own. */
  ghost predicate BeatsClaim(input: SolverInput, g: SolverOutput) {
    exists m :: Feasible(input.pods, Candidates(input), input.constraints, m)
      && PlanScore(input.pods, Candidates(input), m) > g.totalScore
  }

  /** An uninterrupted run finds something better than greedy exactly when some feasible plan scores above
      greedy's total; its result is optimal exactly then, or when greedy's plan was optimal already. */
  lemma ExactIsOptimalIff(input: SolverInput, g: SolverOutput, out: SolverOutput)
    requires WellFormed(input) && GreedyPromise(input, g) && Exact.ExactPromise(input, g, out, true)
    ensures Exact.Improved(g, out) <==> BeatsClaim(input, g)
    ensures Optimal(input, PlanFrom(out.assignments))
       <==> BeatsClaim(input, g) || Optimal(input, PlanFrom(g.assignments))
  {
  }

  /** An uninterrupted run misses the optimum by at most 100 for every pod beyond the first on a node
      greedy woke, so by nothing when greedy woke no node for two pods. */
  lemma OptimalityGap(input: SolverInput, g: SolverOutput, out: SolverOutput, m: Plan)
    requires WellFormed(input) && GreedyPromise(input, g) && Exact.ExactPromise(input, g, out, true)
    requires Feasible(input.pods, Candidates(input), input.constraints, m)
    ensures PlanScore(input.pods, Candidates(input), m)
         <= PlanScore(input.pods, Candidates(input), PlanFrom(out.assignments))
            + Excess(input.pods, Candidates(input), PlanFrom(g.assignments))
    ensures (forall n | n in Woken(Candidates(input), PlanFrom(g.assignments)) ::
               Alone(input.pods, PlanFrom(g.assignments), n)) ==>
      Optimal(input, PlanFrom(out.assignments))
  {
    ExcessIsZeroIff(input, g);
    ExactIsOptimalIff(input, g, out);
  }

  /* ----------------------------- The gap is real: an example ----------------------------- */

  const X := Node(1, Amount(2.0, 2.0), Amount(2.0, 2.0), 10.0, 0.0, 0.0, false, true)
  const Y := Node(2, Amount(3.0, 3.0), Amount(3.0, 3.0), 9.0, 0.0, 0.0, false, true)
  const LIMITS := Constraints(1, 0, 10, 0)
  const INPUT := SolverInput([P, Q, R], [X, Y], LIMITS)
  const X_SCORED := X.(baseScore := 10.0, normalizedScore := 1.0)
  const Y_SCORED := Y.(baseScore := 9.0, normalizedScore := 0.0)

  lemma ExampleCandidates()
    ensures WellFormed(INPUT) && Candidates(INPUT) == [X_SCORED, Y_SCORED]
    ensures PreferenceOrder(Candidates(INPUT), [X_SCORED, Y_SCORED])
  {
    var nodes := Greedy.WithBaseScores([X, Y]);
    assert nodes == [X.(baseScore := 10.0), Y.(baseScore := 9.0)];
    assert MinBase(nodes[..1]) == 10.0 && MaxBase(nodes[..1]) == 10.0;
    assert MinBase(nodes) == 9.0 && MaxBase(nodes) == 10.0;
    assert Candidates(INPUT) == [X_SCORED, Y_SCORED];
  }

  lemma GreedyOnExample()
    ensures var g := Greedy.After([P, Q, R], [X_SCORED, Y_SCORED], LIMITS, 3).out;
      PlanFrom(g.assignments) == map[1 := 1, 2 := 1] && g.totalScore == 120.0
  {
    var pods, nodes := [P, Q, R], [X_SCORED, Y_SCORED];
    var st1 := Greedy.After(pods, nodes, LIMITS, 1);
    var st2 := Greedy.After(pods, nodes, LIMITS, 2);
    Step(pods, nodes, LIMITS, 0);
    Step(pods, nodes, LIMITS, 1);
    Step(pods, nodes, LIMITS, 2);
    assert st1.nodes == [Greedy.TakePod(X_SCORED, P), Y_SCORED] && st1.powerOnsUsed == 1;
    assert st1.out.totalScore == 10.0;
    assert st2.nodes == [Greedy.TakePod(Greedy.TakePod(X_SCORED, P), Q), Y_SCORED] && st2.powerOnsUsed == 1;
    assert st2.out.totalScore == 120.0;
  }

  lemma ScoreAllOn(n: Node)
    requires n == X_SCORED || n == Y_SCORED
    ensures PlanScore([P, Q, R], [X_SCORED, Y_SCORED], map[1 := n.name, 2 := n.name]) == 2.0 * n.baseScore
    ensures PlanScore([P, Q, R], [X_SCORED, Y_SCORED], map[1 := n.name, 2 := n.name, 3 := n.name]) == 3.0 * n.baseScore
  {
    var pods, nodes := [P, Q, R], [X_SCORED, Y_SCORED];
    var none: Plan := map[];
    assert DistinctUids(pods) && DistinctNames(nodes);
    SumZero(pods, ScoreIn(none, nodes));
    PlanScoreAssign(pods, nodes, none, 0, n);
    PlanScoreAssign(pods, nodes, none[1 := n.name], 1, n);
    PlanScoreAssign(pods, nodes, none[1 := n.name][2 := n.name], 2, n);
    assert none[1 := n.name][2 := n.name] == map[1 := n.name, 2 := n.name];
    assert none[1 := n.name][2 := n.name][3 := n.name] == map[1 := n.name, 2 := n.name, 3 := n.name];
  }

  lemma LoadOfAll(pods: seq<Pod>)
    requires pods == [P, Q, R]
    ensures Load(pods, map[1 := 2, 2 := 2, 3 := 2], 2) == Amount(3.0, 3.0)
    ensures Load(pods, map[1 := 2, 2 := 2, 3 := 2], 1) == ZERO
  {
    var none: Plan := map[];
    assert DistinctUids(pods);
    LoadUnused(pods, none, 2);
    LoadGrow(pods, none, 0, 2, 2);
    LoadGrow(pods, none[1 := 2], 1, 2, 2);
    LoadGrow(pods, none[1 := 2][2 := 2], 2, 2, 2);
    assert none[1 := 2][2 := 2][3 := 2] == map[1 := 2, 2 := 2, 3 := 2];
    LoadUnused(pods, map[1 := 2, 2 := 2, 3 := 2], 1);
  }

  lemma AllOnOneIsFeasible(pods: seq<Pod>, nodes: seq<Node>)
    requires pods == [P, Q, R] && nodes == [X_SCORED, Y_SCORED]
    ensures Feasible(pods, nodes, LIMITS, map[1 := 2, 2 := 2, 3 := 2])
  {
    var plan: Plan := map[1 := 2, 2 := 2, 3 := 2];
    LoadOfAll(pods);
    assert P in pods && Q in pods && R in pods && nodes[1] in nodes;
    assert Wakes(nodes, plan) <= {2};
    SubsetSize(Wakes(nodes, plan), {2});
  }

  lemma {:induction false} SumAtMostTens(pods: seq<Pod>, f: Measure)
    requires forall i | 0 <= i < |pods| :: Value(f, pods[i]) <= 10.0
    ensures Sum(pods, f) <= 10.0 * |pods| as real
  {
    if pods != [] {
      SumAtMostTens(pods[..|pods| - 1], f);
    }
  }

  lemma ScoresAtMostTen(plan: Plan)
    ensures PlanScore([P, Q, R], [X_SCORED, Y_SCORED], plan) <= 30.0
  {
    SumAtMostTens([P, Q, R], ScoreIn(plan, [X_SCORED, Y_SCORED]));
  }

  /** Greedy wakes X for the first two pods and claims 120 for a plan worth 20; the third pod finds the power
      budget spent. No plan is worth more than 30, so the search never improves on the claim, whatever its
      deadline: it returns greedy's plan, although all three pods fit on Y, which is worth 27. */
  lemma ExactCanMissTheOptimum(pods: seq<Pod>, order: seq<Node>, g: SolverOutput, out: SolverOutput, finished: bool)
    requires Greedy.Outcome(INPUT, pods, order, g) && Exact.ExactPromise(INPUT, g, out, finished)
    ensures g.totalScore == 120.0 && !BeatsClaim(INPUT, g)
    ensures PlanScore(INPUT.pods, Candidates(INPUT), PlanFrom(out.assignments)) == 20.0
    ensures Feasible(INPUT.pods, Candidates(INPUT), LIMITS, map[1 := 2, 2 := 2, 3 := 2])
    ensures PlanScore(INPUT.pods, Candidates(INPUT), map[1 := 2, 2 := 2, 3 := 2]) == 27.0
    ensures !Optimal(INPUT, PlanFrom(out.assignments))
  {
    ExampleCandidates();
    ExampleOrders(pods, order);
    GreedyOnExample();
    ScoreAllOn(X_SCORED);
    ScoreAllOn(Y_SCORED);
    AllOnOneIsFeasible(INPUT.pods, Candidates(INPUT));
    ScoresAtMostTen(PlanFrom(out.assignments));
    forall m: Plan ensures PlanScore(INPUT.pods, Candidates(INPUT), m) <= 30.0 {
      ScoresAtMostTen(m);
    }
  }

  lemma ExampleOrders(pods: seq<Pod>, order: seq<Node>)
    requires DemandOrder(INPUT.pods, pods) && PreferenceOrder(Candidates(INPUT), order)
    ensures pods == [P, Q, R] && order == [X_SCORED, Y_SCORED]
  {
    ExampleCandidates();
    PodsInOrder(INPUT.pods, pods);
    PreferenceOrderUnique(Candidates(INPUT), order, [X_SCORED, Y_SCORED]);
  }
}
