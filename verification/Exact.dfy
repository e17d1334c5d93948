/**
 The exact solver: seed the incumbent with the greedy result, search, and turn the incumbent into
 assignments.
 */
module Exact {
  import opened Placement
  import opened Scoring
  import opened Solutions
  import opened BranchAndBound
  import Greedy
  import opened GreedyProperties

  /* ------------------------------------- Preparation ------------------------------------- */

  function ScoreMatrix(pods: seq<Pod>, nodes: seq<Node>): (m: seq<seq<real>>)
    ensures IsScoreMatrix(pods, nodes, m)
  {
    seq(|pods|, p requires 0 <= p < |pods| =>
      seq(|nodes|, n requires 0 <= n < |nodes| => AssignmentScore(pods[p], nodes[n])))
  }

  method PodBestScores(pods: seq<Pod>, nodes: seq<Node>, scoreMatrix: seq<seq<real>>) returns (best: seq<real>)
    requires IsScoreMatrix(pods, nodes, scoreMatrix)
    ensures IsPodBest(pods, nodes, best)
    ensures forall p | 0 <= p < |pods| :: best[p] == 0.0 || exists n | 0 <= n < |nodes| :: best[p] == scoreMatrix[p][n]
  {
    best := [];
    for p := 0 to |pods|
      invariant IsPodBest(pods[..p], nodes, best)
      invariant forall q | 0 <= q < p :: best[q] == 0.0 || exists n | 0 <= n < |nodes| :: best[q] == scoreMatrix[q][n]
    {
      var b := 0.0;
      for n := 0 to |nodes|
        invariant 0.0 <= b && forall m | 0 <= m < n :: scoreMatrix[p][m] <= b
        invariant b == 0.0 || exists m | 0 <= m < |nodes| :: b == scoreMatrix[p][m]
      {
        if scoreMatrix[p][n] > b {
          b := scoreMatrix[p][n];
        }
      }
      forall m | m in nodes ensures AssignmentScore(pods[p], m) <= b {
        var n :| 0 <= n < |nodes| && nodes[n] == m;
        assert scoreMatrix[p][n] <= b;
      }
      best := best + [b];
    }
    assert pods[..|pods|] == pods;
  }

  method SuffixBounds(best: seq<real>) returns (suffix: seq<real>)
    ensures IsSuffixBound(best, suffix)
  {
    suffix := [0.0];
    for i := |best| downto 0
      invariant IsSuffixBound(best[i..], suffix)
    {
      assert best[i..] == [best[i]] + best[i + 1..];
      suffix := [suffix[0] + best[i]] + suffix;
    }
  }

  /** The choice of node for each pod that says the same as the plan. */
  ghost predicate Encodes(pods: seq<Pod>, nodes: seq<Node>, plan: Plan, choices: seq<int>) {
    && |choices| == |pods|
    && forall i | 0 <= i < |pods| ::
      if pods[i].uid in plan then 0 <= choices[i] < |nodes| && nodes[choices[i]].name == plan[pods[i].uid]
      else choices[i] == -1
  }

  /** Turn greedy's assignments into node indices, visiting the map in any order. */
  method SeedFrom(pods: seq<Pod>, nodes: seq<Node>, assignments: map<Uid, Assignment>,
                  podIndex: map<Uid, nat>, nodeIndex: map<Name, nat>) returns (seed: seq<int>)
    requires DistinctUids(pods)
    requires podIndex.Keys == Uids(pods) && nodeIndex.Keys == Names(nodes)
    requires forall u | u in podIndex :: podIndex[u] < |pods| && pods[podIndex[u]].uid == u
    requires forall n | n in nodeIndex :: nodeIndex[n] < |nodes| && nodes[nodeIndex[n]].name == n
    requires WellFormedPlan(pods, nodes, PlanFrom(assignments))
    ensures Encodes(pods, nodes, PlanFrom(assignments), seed)
  {
    seed := seq(|pods|, _ => -1);
    var order := VisitOrder(assignments.Keys);
    for t := 0 to |order|
      invariant |seed| == |pods|
      invariant forall i | 0 <= i < |pods| ::
        if pods[i].uid in order[..t]
        then 0 <= seed[i] < |nodes| && nodes[seed[i]].name == assignments[pods[i].uid].targetNode
        else seed[i] == -1
    {
      var u := order[t];
      Visiting(order, assignments.Keys, t);
      assert u in assignments && PlanFrom(assignments)[u] == assignments[u].targetNode;
      if u in podIndex && assignments[u].targetNode in nodeIndex {
        var pi := podIndex[u];
        forall i | 0 <= i < |pods| && i != pi ensures pods[i].uid != u {
          assert pods[pi].uid == u;
        }
        seed := seed[pi := nodeIndex[assignments[u].targetNode]];
      }
    }
    assert order[..|order|] == order;
  }

  /* --------------------------------------- Output --------------------------------------- */

  /** The assignments and the rest, read off the choices for the first k pods. */
  function Decoded(pods: seq<Pod>, nodes: seq<Node>, choices: seq<int>, k: nat): SolverOutput
    requires ValidChoices(pods, nodes, choices) && |choices| == |pods| && k <= |pods|
  {
    if k == 0 then NewSolverOutput().(algorithm := Solutions.Exact)
    else
      var out, pod, ni := Decoded(pods, nodes, choices, k - 1), pods[k - 1], choices[k - 1];
      if ni < 0 then
        out.(unassignedPods := out.unassignedPods + [UnassignedPod(pod.namespace, pod.name, NoCapacity)])
      else
        out.(assignments := out.assignments[pod.uid :=
               Assignment(pod.namespace, pod.name, pod.uid, nodes[ni].name,
                          AssignmentScore(pod, nodes[ni]), nodes[ni].isOffline)],
             nodesUsed := out.nodesUsed + {nodes[ni].name})
  }

  method BuildOutput(pods: seq<Pod>, nodes: seq<Node>, scoreMatrix: seq<seq<real>>, nodeIndex: map<Name, nat>,
                     choices: seq<int>, score: real) returns (out: SolverOutput)
    requires DistinctNames(nodes)
    requires ValidChoices(pods, nodes, choices) && |choices| == |pods|
    requires IsScoreMatrix(pods, nodes, scoreMatrix)
    requires nodeIndex.Keys == Names(nodes)
    requires forall n | n in nodeIndex :: nodeIndex[n] < |nodes| && nodes[nodeIndex[n]].name == n
    ensures var d := Decoded(pods, nodes, choices, |pods|);
      out == d.(totalScore := score, offlineNodesUsed := |OfflineAmong(nodes, d.nodesUsed)|)
  {
    out := NewSolverOutput().(algorithm := Solutions.Exact);
    for p := 0 to |pods|
      invariant out == Decoded(pods, nodes, choices, p)
    {
      var ni := choices[p];
      if ni < 0 {
        out := out.(
          unassignedPods := out.unassignedPods + [UnassignedPod(pods[p].namespace, pods[p].name, NoCapacity)]);
        continue;
      }
      var assignment := Assignment(pods[p].namespace, pods[p].name, pods[p].uid, nodes[ni].name,
                                   scoreMatrix[p][ni], nodes[ni].isOffline);
      out := out.(assignments := out.assignments[pods[p].uid := assignment],
                  nodesUsed := out.nodesUsed + {nodes[ni].name});
    }
    var offline := CountOffline(nodes, nodeIndex, out.nodesUsed);
    out := out.(totalScore := score, offlineNodesUsed := offline);
  }

  /* ----------------------------- The output says what was chosen ----------------------------- */

  lemma {:induction false} EncodedPlan(pods: seq<Pod>, nodes: seq<Node>, plan: Plan, choices: seq<int>, k: nat)
    requires DistinctUids(pods) && Encodes(pods, nodes, plan, choices) && k <= |pods|
    ensures PlanOf(pods, nodes, choices[..k]) == map u | u in plan && u in Uids(pods[..k]) :: plan[u]
  {
    if k > 0 {
      EncodedPlan(pods, nodes, plan, choices, k - 1);
      assert choices[..k][..k - 1] == choices[..k - 1];
      KeysGrow(pods, k - 1);
    }
  }

  /** Encoding a plan as choices and reading the choices back gives the plan. */
  lemma EncodeDecode(pods: seq<Pod>, nodes: seq<Node>, plan: Plan, choices: seq<int>)
    requires DistinctUids(pods) && plan.Keys <= Uids(pods) && Encodes(pods, nodes, plan, choices)
    ensures ValidChoices(pods, nodes, choices) && PlanOf(pods, nodes, choices) == plan
  {
    EncodedPlan(pods, nodes, plan, choices, |pods|);
    assert choices[..|pods|] == choices && pods[..|pods|] == pods;
    assert plan == map u | u in plan && u in Uids(pods) :: plan[u];
  }

  lemma {:induction false} DecodedPlan(pods: seq<Pod>, nodes: seq<Node>, choices: seq<int>, k: nat)
    requires DistinctUids(pods) && ValidChoices(pods, nodes, choices) && |choices| == |pods| && k <= |pods|
    ensures PlanFrom(Decoded(pods, nodes, choices, k).assignments) == PlanOf(pods, nodes, choices[..k])
    ensures Accounted(pods[..k], Decoded(pods, nodes, choices, k))
  {
    if k == 0 {
      assert PlanFrom(NewSolverOutput().assignments) == map[];
    } else {
      DecodedPlan(pods, nodes, choices, k - 1);
      assert choices[..k][..k - 1] == choices[..k - 1];
      DecodedStep(pods, nodes, choices, k - 1);
    }
  }

  lemma DecodedStep(pods: seq<Pod>, nodes: seq<Node>, choices: seq<int>, k: nat)
    requires DistinctUids(pods) && ValidChoices(pods, nodes, choices) && |choices| == |pods| && k < |pods|
    requires Accounted(pods[..k], Decoded(pods, nodes, choices, k))
    ensures var out, out' := Decoded(pods, nodes, choices, k), Decoded(pods, nodes, choices, k + 1);
      && Accounted(pods[..k + 1], out')
      && PlanFrom(out'.assignments) == if choices[k] < 0 then PlanFrom(out.assignments)
           else PlanFrom(out.assignments)[pods[k].uid := nodes[choices[k]].name]
  {
    var out, out' := Decoded(pods, nodes, choices, k), Decoded(pods, nodes, choices, k + 1);
    var plan := PlanFrom(out.assignments);
    LaterUid(pods, k, k);
    KeysGrow(pods, k);
    assert forall p | p in pods[..k + 1] :: p in pods[..k] || p == pods[k];
    assert forall p | p in pods[..k] :: p.uid in Uids(pods[..k]);
    if choices[k] < 0 {
      RestAfterRefusal(pods, k, plan, out.unassignedPods, NoCapacity);
    } else {
      PlanFromAssign(out.assignments, pods[k].uid, out'.assignments[pods[k].uid]);
      RestAfterAssign(pods, k, plan, nodes[choices[k]].name, out.unassignedPods);
    }
  }

  /** The used nodes are recorded, and the flagged ones are the offline ones among them. */
  lemma {:induction false} DecodedFlags(pods: seq<Pod>, nodes: seq<Node>, choices: seq<int>, k: nat)
    requires DistinctUids(pods) && DistinctNames(nodes)
    requires ValidChoices(pods, nodes, choices) && |choices| == |pods| && k <= |pods|
    ensures var out := Decoded(pods, nodes, choices, k);
      && out.assignments.Keys <= Uids(pods[..k]) && out.algorithm == Solutions.Exact
      && FlagsAgree(nodes, out)
  {
    if k == 0 {
      EmptyPlanFeasible(pods, nodes, Constraints(0, 0, 0, 0));
      assert PlanFrom(NewSolverOutput().assignments) == map[];
    } else {
      DecodedFlags(pods, nodes, choices, k - 1);
      var out, out' := Decoded(pods, nodes, choices, k - 1), Decoded(pods, nodes, choices, k);
      KeysGrow(pods, k - 1);
      LaterUid(pods, k - 1, k - 1);
      if choices[k - 1] >= 0 {
        FlagsStep(nodes, out, pods[k - 1].uid, nodes[choices[k - 1]], out'.assignments[pods[k - 1].uid], out');
      }
    }
  }

  ghost predicate FlagsAgree(nodes: seq<Node>, out: SolverOutput) {
    && (forall n: Name :: n in out.nodesUsed <==> Uses(PlanFrom(out.assignments), n))
    && Flagged(out.assignments) == Wakes(nodes, PlanFrom(out.assignments))
  }

  lemma FlagsStep(nodes: seq<Node>, out: SolverOutput, u: Uid, n: Node, a: Assignment, out': SolverOutput)
    requires DistinctNames(nodes) && n in nodes && u !in out.assignments && FlagsAgree(nodes, out)
    requires a.targetNode == n.name && a.requiresWake == n.isOffline
    requires out'.assignments == out.assignments[u := a] && out'.nodesUsed == out.nodesUsed + {n.name}
    ensures FlagsAgree(nodes, out')
  {
    var plan := PlanFrom(out.assignments);
    PlanFromAssign(out.assignments, u, a);
    FlaggedAssign(out.assignments, u, a);
    WakesAssign(nodes, plan, u, n);
    forall m: Name ensures Uses(plan[u := n.name], m) <==> Uses(plan, m) || m == n.name {
      UsesAssign(plan, u, n.name, m);
    }
  }

  /** Whatever stood in the way, a pod left out is listed for lack of capacity. */
  lemma {:induction false} DecodedReasons(pods: seq<Pod>, nodes: seq<Node>, choices: seq<int>, k: nat)
    requires ValidChoices(pods, nodes, choices) && |choices| == |pods| && k <= |pods|
    ensures forall e | e in Decoded(pods, nodes, choices, k).unassignedPods :: e.reason == NoCapacity
  {
    if k > 0 {
      DecodedReasons(pods, nodes, choices, k - 1);
    }
  }

  /** The recorded scores add up to the score of the plan. */
  lemma {:induction false} DecodedScores(pods: seq<Pod>, nodes: seq<Node>, choices: seq<int>, k: nat)
    requires DistinctUids(pods) && DistinctNames(nodes)
    requires ValidChoices(pods, nodes, choices) && |choices| == |pods| && k <= |pods|
    ensures var assignments := Decoded(pods, nodes, choices, k).assignments;
      Sum(pods, RecordedIn(ScoresOf(assignments))) == PlanScore(pods, nodes, PlanFrom(assignments))
  {
    if k == 0 {
      SumZero(pods, RecordedIn(ScoresOf(map[])));
      SumZero(pods, ScoreIn(PlanFrom(map[]), nodes));
    } else {
      DecodedScores(pods, nodes, choices, k - 1);
      DecodedFlags(pods, nodes, choices, k - 1);
      LaterUid(pods, k - 1, k - 1);
      if choices[k - 1] >= 0 {
        ScoresStep(pods, nodes, k - 1, Decoded(pods, nodes, choices, k - 1).assignments, nodes[choices[k - 1]],
                   Decoded(pods, nodes, choices, k).assignments[pods[k - 1].uid]);
      }
    }
  }

  lemma ScoresStep(pods: seq<Pod>, nodes: seq<Node>, k: nat, assignments: map<Uid, Assignment>, n: Node, a: Assignment)
    requires DistinctUids(pods) && DistinctNames(nodes) && k < |pods| && n in nodes && pods[k].uid !in assignments
    requires a.targetNode == n.name && a.score == AssignmentScore(pods[k], n)
    requires Sum(pods, RecordedIn(ScoresOf(assignments))) == PlanScore(pods, nodes, PlanFrom(assignments))
    ensures var after := assignments[pods[k].uid := a];
      Sum(pods, RecordedIn(ScoresOf(after))) == PlanScore(pods, nodes, PlanFrom(after))
  {
    PlanFromAssign(assignments, pods[k].uid, a);
    RecordOne(pods, k, assignments, a);
    PlanScoreAssign(pods, nodes, PlanFrom(assignments), k, n);
  }

  /* ------------------------------------ The exact solve ------------------------------------ */

  /** What follows for the input from a search over pods in some order. */
  ghost predicate SearchPromise(input: SolverInput, seedScore: real, seedPlan: Plan, s: Search, plan: Plan) {
    var nodes, c := Candidates(input), input.constraints;
    && (s.bestScore > seedScore || (s.bestScore == seedScore && plan == seedPlan))
    && (s.bestScore > seedScore ==>
          Feasible(input.pods, nodes, c, plan) && PlanScore(input.pods, nodes, plan) == s.bestScore)
    && (!s.timedOut ==> forall m | Feasible(input.pods, nodes, c, m) :: PlanScore(input.pods, nodes, m) <= s.bestScore)
  }

  lemma SearchKeepsPromise(input: SolverInput, p: Problem, podBest: seq<real>, seedScore: real, seedPlan: Plan,
                           seed: seq<int>)
    requires WellFormed(input) && DemandOrder(input.pods, p.pods) && p.nodes == Candidates(input)
    requires Prepared(p, input.constraints, podBest)
    requires seedPlan.Keys <= Uids(p.pods) && Encodes(p.pods, p.nodes, seedPlan, seed)
    ensures Start(p, input.constraints.currentPowerOnsInFlight, seedScore, seed).path.Fits(p)
    ensures var s := Branched(p, Start(p, input.constraints.currentPowerOnsInFlight, seedScore, seed), 0);
      && ValidChoices(p.pods, p.nodes, s.bestAssign) && |s.bestAssign| == |p.pods|
      && SearchPromise(input, seedScore, seedPlan, s, PlanOf(p.pods, p.nodes, s.bestAssign))
  {
    var c := input.constraints;
    var start := Start(p, c.currentPowerOnsInFlight, seedScore, seed);
    DescribesStart(p, c, podBest, seedScore, seed);
    BranchImproves(p, c, podBest, start, 0);
    EncodeDecode(p.pods, p.nodes, seedPlan, seed);
    var s := Branched(p, start, 0);
    ToInput(input, p.pods);
    if !s.timedOut {
      BranchComplete(p, c, podBest, start, 0);
      assert Bounds(p.pods, p.nodes, c, PathOf(p, c, 0, start.path), 0, s.bestScore);
      forall m | Feasible(input.pods, p.nodes, c, m) ensures PlanScore(input.pods, p.nodes, m) <= s.bestScore {
        assert Feasible(p.pods, p.nodes, c, m);
        assert Follows(p.pods, PathOf(p, c, 0, start.path), 0, m);
      }
    }
  }

  lemma ToInput(input: SolverInput, pods: seq<Pod>)
    requires WellFormed(input) && DemandOrder(input.pods, pods)
    ensures DistinctUids(pods) && DistinctNames(Candidates(input)) && Uids(pods) == Uids(input.pods)
    ensures forall m: Plan {:trigger Feasible(input.pods, Candidates(input), input.constraints, m)} ::
      Feasible(input.pods, Candidates(input), input.constraints, m)
      == Feasible(pods, Candidates(input), input.constraints, m)
    ensures forall m: Plan
      {:trigger PlanScore(pods, Candidates(input), m)} {:trigger PlanScore(input.pods, Candidates(input), m)} ::
      PlanScore(input.pods, Candidates(input), m) == PlanScore(pods, Candidates(input), m)
  {
    DistinctUidsReorder(input.pods, pods);
    SameMembers(input.pods, pods);
    var nodes := Candidates(input);
    forall m: Plan
      ensures Feasible(input.pods, nodes, input.constraints, m) == Feasible(pods, nodes, input.constraints, m)
      ensures PlanScore(input.pods, nodes, m) == PlanScore(pods, nodes, m)
    {
      FeasibleReorder(input.pods, pods, nodes, nodes, input.constraints, m);
      PlanScoreReorder(input.pods, pods, nodes, nodes, m);
    }
  }

  lemma SeedIsWellFormed(input: SolverInput, pods: seq<Pod>, g: SolverOutput)
    requires WellFormed(input) && GreedyPromise(input, g) && DemandOrder(input.pods, pods)
    ensures WellFormedPlan(pods, Candidates(input), PlanFrom(g.assignments))
  {
    ColdNames(Candidates(input));
    ToInput(input, pods);
  }

  lemma OutputKeepsPromise(input: SolverInput, pods: seq<Pod>, choices: seq<int>)
    requires WellFormed(input) && DemandOrder(input.pods, pods)
    requires ValidChoices(pods, Candidates(input), choices) && |choices| == |pods|
    ensures var nodes := Candidates(input);
      var d := Decoded(pods, nodes, choices, |pods|);
      && Accounted(input.pods, d)
      && PlanFrom(d.assignments) == PlanOf(pods, nodes, choices) && d.algorithm == Solutions.Exact
      && Flagged(d.assignments) == Wakes(nodes, PlanFrom(d.assignments))
      && OfflineAmong(nodes, d.nodesUsed) == Wakes(nodes, PlanFrom(d.assignments))
      && ScoresAddUp(input, d)
  {
    var nodes := Candidates(input);
    ToInput(input, pods);
    DecodedPlan(pods, nodes, choices, |pods|);
    DecodedFlags(pods, nodes, choices, |pods|);
    assert choices[..|pods|] == choices && pods[..|pods|] == pods;
    AccountedReorder(input.pods, pods, Decoded(pods, nodes, choices, |pods|));
    RecordsReorder(input, pods, Decoded(pods, nodes, choices, |pods|)) by {
      DecodedScores(pods, nodes, choices, |pods|);
    }
  }

  ghost predicate ScoresAddUp(input: SolverInput, out: SolverOutput) {
    Sum(input.pods, RecordedIn(ScoresOf(out.assignments)))
    == PlanScore(input.pods, Candidates(input), PlanFrom(out.assignments))
  }

  lemma RecordsReorder(input: SolverInput, pods: seq<Pod>, out: SolverOutput)
    requires WellFormed(input) && DemandOrder(input.pods, pods)
    requires Sum(pods, RecordedIn(ScoresOf(out.assignments)))
         == PlanScore(pods, Candidates(input), PlanFrom(out.assignments))
    ensures ScoresAddUp(input, out)
  {
    ToInput(input, pods);
    SumPermutation(pods, input.pods, RecordedIn(ScoresOf(out.assignments)));
  }

  /** Some visit after the first `low` up to the visit `high` looks at the clock and finds it late. */
  ghost predicate LateVisit(p: Problem, low: nat, high: nat) {
    exists v {:trigger v in p.expired} :: low < v <= high && v % 256 == 0 && v in p.expired
  }

  /** The search is cut short exactly when one of the visits it makes finds the deadline past. */
  lemma {:induction false} TimedOutIff(p: Problem, s: Search, k: nat)
    requires p.Shape() && s.path.Fits(p) && k <= |p.pods|
    ensures var r := Branched(p, s, k);
      s.explored < r.explored && (r.timedOut <==> s.timedOut || LateVisit(p, s.explored, r.explored))
    decreases |p.pods| - k, 1, 0
  {
    var s' := s.(explored := s.explored + 1);
    var r := Branched(p, s, k);
    assert LateVisit(p, s.explored, s'.explored) <==> s'.explored % 256 == 0 && s'.explored in p.expired by {
      if s'.explored % 256 == 0 && s'.explored in p.expired {
        assert s'.explored in p.expired;
      }
    }
    if LateVisit(p, s.explored, s'.explored) || k == |p.pods| || s.path.score + p.suffixBound[k] <= s.bestScore {
      assert r.explored == s'.explored;
    } else {
      TimedOutTrying(p, s', k, 0);
      var t := Tried(p, s', k, 0);
      if !t.1 {
        TimedOutIff(p, t.0.(path := t.0.path.(assignments := t.0.path.assignments[k := -1])), k + 1);
      }
    }
  }

  lemma {:induction false} TimedOutTrying(p: Problem, s: Search, k: nat, ni: nat)
    requires p.Shape() && s.path.Fits(p) && k < |p.pods| && ni <= |p.nodes|
    ensures var r := Tried(p, s, k, ni).0;
      s.explored <= r.explored && (r.timedOut <==> s.timedOut || LateVisit(p, s.explored, r.explored))
    decreases |p.pods| - k, 0, |p.nodes| - ni
  {
    if ni < |p.nodes| && !s.timedOut {
      if Admits(p, s.path, k, ni) {
        var t, r := Descended(p, s, k, ni), Tried(p, s, k, ni).0;
        TimedOutIff(p, s.(path := BranchAndBound.Assigned(p, s.path, k, ni)), k + 1);
        TimedOutTrying(p, t, k, ni + 1);
      } else {
        TimedOutTrying(p, s, k, ni + 1);
      }
    }
  }

  /** The search replaced the greedy result: its total is above greedy's. */
  predicate Improved(g: SolverOutput, out: SolverOutput) {
    out.totalScore > g.totalScore
  }

  /** What the exact solver promises in terms of the input alone, having started from the greedy result
      `g`. `finished`: it was not cut short by the deadline. */
  ghost predicate ExactPromise(input: SolverInput, g: SolverOutput, out: SolverOutput, finished: bool) {
    var plan, nodes, c := PlanFrom(out.assignments), Candidates(input), input.constraints;
    && Accounted(input.pods, out)
    && out.totalScore >= g.totalScore
    && (!Improved(g, out) ==> plan == PlanFrom(g.assignments))
    && (Improved(g, out) ==>
        Feasible(input.pods, nodes, c, plan) && PlanScore(input.pods, nodes, plan) == out.totalScore)
    && (finished ==> forall m | Feasible(input.pods, nodes, c, m) :: PlanScore(input.pods, nodes, m) <= out.totalScore)
  }

  /** The search a solve makes: over the pods in some demand order, from the greedy result as seed. */
  datatype Setup = Setup(p: Problem, podBest: seq<real>, seed: seq<int>)

  ghost predicate SetUp(input: SolverInput, g: SolverOutput, expired: iset<nat>, x: Setup) {
    && DemandOrder(input.pods, x.p.pods) && x.p.nodes == Candidates(input) && x.p.expired == expired
    && Prepared(x.p, input.constraints, x.podBest)
    && Encodes(x.p.pods, x.p.nodes, PlanFrom(g.assignments), x.seed)
  }

  ghost function Searched(input: SolverInput, g: SolverOutput, x: Setup): Search
    requires x.p.Shape()
  {
    Branched(x.p, Start(x.p, input.constraints.currentPowerOnsInFlight, g.totalScore, x.seed), 0)
  }

  /** What the solver may return when it searches. */
  ghost predicate Outcome(input: SolverInput, g: SolverOutput, expired: iset<nat>, x: Setup, out: SolverOutput) {
    && SetUp(input, g, expired, x)
    && var s := Searched(input, g, x);
    && ValidChoices(x.p.pods, x.p.nodes, s.bestAssign) && |s.bestAssign| == |x.p.pods|
    && var d := Decoded(x.p.pods, x.p.nodes, s.bestAssign, |x.p.pods|);
    out == d.(totalScore := s.bestScore, offlineNodesUsed := |OfflineAmong(x.p.nodes, d.nodesUsed)|)
  }

  /** Wherever the search looks at the clock, the deadline has not passed. */
  ghost predicate Punctual(expired: iset<nat>) {
    forall v | v in expired :: v == 0 || v % 256 != 0
  }

  lemma PunctualIsFinished(input: SolverInput, g: SolverOutput, x: Setup)
    requires x.p.Shape() && Punctual(x.p.expired)
    ensures Finished(input, g, x)
  {
  }

  /** The search ran to its end: no visit it made found the deadline past. */
  ghost predicate Finished(input: SolverInput, g: SolverOutput, x: Setup)
    requires x.p.Shape()
  {
    !LateVisit(x.p, 0, Searched(input, g, x).explored)
  }

  lemma OutcomeKeepsPromise(input: SolverInput, g: SolverOutput, expired: iset<nat>, x: Setup, out: SolverOutput)
    requires WellFormed(input) && GreedyPromise(input, g) && Outcome(input, g, expired, x, out)
    ensures ExactPromise(input, g, out, Finished(input, g, x))
    ensures Flagged(out.assignments) == Wakes(Candidates(input), PlanFrom(out.assignments))
    ensures out.offlineNodesUsed == |Wakes(Candidates(input), PlanFrom(out.assignments))|
    ensures ScoresAddUp(input, out) && out.algorithm == Solutions.Exact
  {
    var s := Searched(input, g, x);
    var chosen := PlanOf(x.p.pods, x.p.nodes, s.bestAssign);
    assert SearchPromise(input, g.totalScore, PlanFrom(g.assignments), s, chosen) by {
      SeedIsWellFormed(input, x.p.pods, g);
      SearchKeepsPromise(input, x.p, x.podBest, g.totalScore, PlanFrom(g.assignments), x.seed);
    }
    assert s.timedOut <==> !Finished(input, g, x) by {
      TimedOutIff(x.p, Start(x.p, input.constraints.currentPowerOnsInFlight, g.totalScore, x.seed), 0);
    }
    OutputKeepsPromise(input, x.p.pods, s.bestAssign);
  }

  /** Search with the greedy result as incumbent, and turn the best choices into assignments. */
  method SolveInTime(input: SolverInput, greedy: SolverOutput, expired: iset<nat>)
    returns (out: SolverOutput, ghost x: Setup)
    requires WellFormed(input) && GreedyPromise(input, greedy)
    ensures Outcome(input, greedy, expired, x, out)
  {
    var nodes := Greedy.ScoreNodes(input.nodes);
    var pods := SortPodsByDemand(input.pods);
    ToInput(input, pods);
    var scoreMatrix := ScoreMatrix(pods, nodes);
    var podBest := PodBestScores(pods, nodes, scoreMatrix);
    var suffixBound := SuffixBounds(podBest);
    var podIndex := IndexPods(pods);
    var nodeIndex := IndexNodes(nodes);
    ghost var seedPlan := PlanFrom(greedy.assignments);
    SeedIsWellFormed(input, pods, greedy);
    var seed := SeedFrom(pods, nodes, greedy.assignments, podIndex, nodeIndex);

    var problem := Problem(pods, nodes, scoreMatrix, suffixBound, input.constraints.maxConcurrentPowerOns, expired);
    x := Setup(problem, podBest, seed);
    SearchKeepsPromise(input, problem, podBest, greedy.totalScore, seedPlan, seed);
    var state := new BBState(problem, input.constraints.currentPowerOnsInFlight, greedy.totalScore, seed);
    state.Branch(0);
    out := BuildOutput(pods, nodes, scoreMatrix, nodeIndex, state.bestAssign, state.bestScore);
  }

  /** `g` is the greedy result it starts from, `x` the search it makes unless it is late after that. */
  method Solve(input: SolverInput, late: bool, expired: iset<nat>)
    returns (out: SolverOutput, ghost g: SolverOutput, ghost x: Setup)
    requires WellFormed(input)
    ensures (exists pods, order :: Greedy.Outcome(input, pods, order, g)) && GreedyPromise(input, g)
    ensures late ==> out == g.(algorithm := Solutions.Exact)
    ensures x.p.Shape() && (!late ==> Outcome(input, g, expired, x, out))
    ensures ExactPromise(input, g, out, !late && Finished(input, g, x))
    ensures !late ==> Flagged(out.assignments) == Wakes(Candidates(input), PlanFrom(out.assignments))
    ensures !late ==> out.offlineNodesUsed == |Wakes(Candidates(input), PlanFrom(out.assignments))|
    ensures !late ==> ScoresAddUp(input, out) && forall e | e in out.unassignedPods :: e.reason == NoCapacity
    ensures out.algorithm == Solutions.Exact
  {
    var greedy := Greedy.Solve(input);
    ghost var gpods, gorder :| Greedy.Outcome(input, gpods, gorder, greedy);
    g := greedy;
    GreedyKeepsPromise(input, gpods, gorder, g);
    if late {
      out, x := greedy.(algorithm := Solutions.Exact), Setup(Problem([], [], [], [0.0], 0, iset{}), [], []);
      return;
    }
    out, x := SolveInTime(input, greedy, expired);
    OutcomeKeepsPromise(input, g, expired, x, out);
    DecodedReasons(x.p.pods, x.p.nodes, Searched(input, g, x).bestAssign, |x.p.pods|);
  }
}
