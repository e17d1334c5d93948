/**
 The depth-first branch-and-bound search of the exact solver. One state object is mutated on the way
 down and undone on the way up; what it holds at depth k is described by the plan of its first k
 choices.
 */
module BranchAndBound {
  import opened Placement
  import opened Scoring

  /** The plan made by choosing node `choices[i]` (or none, when negative) for pod i. */
  ghost function PlanOf(pods: seq<Pod>, nodes: seq<Node>, choices: seq<int>): Plan
    requires |choices| <= |pods|
    requires forall i | 0 <= i < |choices| :: choices[i] < |nodes|
  {
    if choices == [] then map[]
    else
      var k := |choices| - 1;
      var rest := PlanOf(pods, nodes, choices[..k]);
      if choices[k] < 0 then rest else rest[pods[k].uid := nodes[choices[k]].name]
  }

  lemma {:induction false} PlanOfKeys(pods: seq<Pod>, nodes: seq<Node>, choices: seq<int>)
    requires |choices| <= |pods|
    requires forall i | 0 <= i < |choices| :: choices[i] < |nodes|
    ensures PlanOf(pods, nodes, choices).Keys <= Uids(pods[..|choices|])
  {
    if choices != [] {
      var k := |choices| - 1;
      PlanOfKeys(pods, nodes, choices[..k]);
      assert pods[..k + 1] == pods[..k] + [pods[k]];
    }
  }

  /** Trailing "no node" entries add nothing. */
  lemma {:induction false} PlanOfPadded(pods: seq<Pod>, nodes: seq<Node>, choices: seq<int>, k: nat)
    requires k <= |choices| <= |pods|
    requires forall i | 0 <= i < |choices| :: choices[i] < |nodes|
    requires forall i | k <= i < |choices| :: choices[i] < 0
    ensures PlanOf(pods, nodes, choices) == PlanOf(pods, nodes, choices[..k])
  {
    if k < |choices| {
      PlanOfPadded(pods, nodes, choices[..|choices| - 1], k);
      assert choices[..|choices| - 1][..k] == choices[..k];
    } else {
      assert choices[..k] == choices;
    }
  }

  /* ------------------------------ What the search may claim ------------------------------ */

  /** `m` decides the first k pods the way `plan` does. */
  ghost predicate Follows(pods: seq<Pod>, plan: Plan, k: nat, m: Plan)
    requires k <= |pods|
  {
    forall i | 0 <= i < k ::
      && (pods[i].uid in plan <==> pods[i].uid in m)
      && (pods[i].uid in plan ==> plan[pods[i].uid] == m[pods[i].uid])
  }

  /** No feasible completion of the first k choices scores above `score`. */
  ghost predicate Bounds(pods: seq<Pod>, nodes: seq<Node>, c: Constraints, plan: Plan, k: nat, score: real)
    requires k <= |pods|
  {
    forall m | Feasible(pods, nodes, c, m) && Follows(pods, plan, k, m) :: PlanScore(pods, nodes, m) <= score
  }

  /** The same for the completions that put pod k on one of the first `tried` nodes. */
  ghost predicate BoundsTried(pods: seq<Pod>, nodes: seq<Node>, c: Constraints, plan: Plan, k: nat,
                              tried: nat, score: real)
    requires k < |pods| && tried <= |nodes|
  {
    forall m, i |
      && Feasible(pods, nodes, c, m) && Follows(pods, plan, k, m)
      && 0 <= i < tried && Hosted(pods[k], m, nodes[i].name) ::
      PlanScore(pods, nodes, m) <= score
  }

  /** The search has the pods, the nodes with full capacity and base scores, and these invariants. */
  ghost predicate Posed(pods: seq<Pod>, nodes: seq<Node>) {
    DistinctUids(pods) && DistinctNames(nodes)
  }

  ghost predicate PathPlan(pods: seq<Pod>, nodes: seq<Node>, c: Constraints, plan: Plan, k: nat)
    requires k <= |pods|
  {
    Feasible(pods, nodes, c, plan) && plan.Keys <= Uids(pods[..k])
  }

  /** With room and power to spare, the extended path is feasible. */
  lemma ExtendFeasible(pods: seq<Pod>, nodes: seq<Node>, c: Constraints, plan: Plan, k: nat, ni: nat)
    requires Posed(pods, nodes) && k < |pods| && ni < |nodes| && PathPlan(pods, nodes, c, plan, k)
    requires !Blocked(pods, nodes, c, plan, k, ni)
    ensures PathPlan(pods, nodes, c, plan[pods[k].uid := nodes[ni].name], k + 1)
  {
    UnblockedIsFeasible(pods, nodes, c, plan, k, ni);
    assert pods[..k + 1] == pods[..k] + [pods[k]];
    assert pods[k] in pods[..k + 1];
  }

  /** Without room, or without power for a node not yet used, there is nothing to miss. */
  lemma SkipIsSound(pods: seq<Pod>, nodes: seq<Node>, c: Constraints, plan: Plan, k: nat, ni: nat, score: real)
    requires Posed(pods, nodes) && k < |pods| && ni < |nodes| && PathPlan(pods, nodes, c, plan, k)
    requires Blocked(pods, nodes, c, plan, k, ni)
    requires BoundsTried(pods, nodes, c, plan, k, ni, score)
    ensures BoundsTried(pods, nodes, c, plan, k, ni + 1, score)
  {
    BlockedIsInfeasible(pods, nodes, c, plan, k, ni);
    forall m | Feasible(pods, nodes, c, m) && Follows(pods, plan, k, m)
      ensures !Hosted(pods[k], m, nodes[ni].name)
    {
      if Hosted(pods[k], m, nodes[ni].name) {
        FeasibleDownward(pods, nodes, c, plan[pods[k].uid := nodes[ni].name], m);
        assert false;
      }
    }
  }

  /** What holds of every completion of the extended path holds of every completion hosting pod k there. */
  lemma DescentIsSound(pods: seq<Pod>, nodes: seq<Node>, c: Constraints, plan: Plan, k: nat, ni: nat, score: real)
    requires Posed(pods, nodes) && k < |pods| && ni < |nodes| && PathPlan(pods, nodes, c, plan, k)
    requires BoundsTried(pods, nodes, c, plan, k, ni, score)
    requires Bounds(pods, nodes, c, plan[pods[k].uid := nodes[ni].name], k + 1, score)
    ensures BoundsTried(pods, nodes, c, plan, k, ni + 1, score)
  {
    forall m | Feasible(pods, nodes, c, m) && Follows(pods, plan, k, m) && Hosted(pods[k], m, nodes[ni].name)
      ensures PlanScore(pods, nodes, m) <= score
    {
      var after := plan[pods[k].uid := nodes[ni].name];
      forall i | 0 <= i < k + 1
        ensures pods[i].uid in after <==> pods[i].uid in m
        ensures pods[i].uid in after ==> after[pods[i].uid] == m[pods[i].uid]
      {
        assert i < k ==> pods[i].uid != pods[k].uid;
      }
      assert Follows(pods, after, k + 1, m);
    }
  }

  /** Every node tried and the skip branch searched: every completion is covered. */
  lemma AllBranches(pods: seq<Pod>, nodes: seq<Node>, c: Constraints, plan: Plan, k: nat, score: real)
    requires Posed(pods, nodes) && k < |pods| && PathPlan(pods, nodes, c, plan, k)
    requires BoundsTried(pods, nodes, c, plan, k, |nodes|, score)
    requires Bounds(pods, nodes, c, plan, k + 1, score)
    ensures Bounds(pods, nodes, c, plan, k, score)
  {
    forall m | Feasible(pods, nodes, c, m) && Follows(pods, plan, k, m)
      ensures PlanScore(pods, nodes, m) <= score
    {
      if pods[k].uid in m {
        var i := HostIndex(pods, nodes, m, k);
      } else {
        assert Follows(pods, plan, k + 1, m);
      }
    }
  }

  lemma HostIndex(pods: seq<Pod>, nodes: seq<Node>, m: Plan, k: nat) returns (i: nat)
    requires WellFormedPlan(pods, nodes, m) && k < |pods| && pods[k].uid in m
    ensures i < |nodes| && Hosted(pods[k], m, nodes[i].name)
  {
    var n :| n in nodes && n.name == m[pods[k].uid];
    i :| 0 <= i < |nodes| && nodes[i] == n;
  }

  /* ------------------------------------- The bound ------------------------------------- */

  /** `best[p]` is at least 0 (a pod may be skipped) and at least every entry of row p. */
  ghost predicate IsPodBest(pods: seq<Pod>, nodes: seq<Node>, best: seq<real>) {
    && |best| == |pods|
    && (forall p | 0 <= p < |pods| :: 0.0 <= best[p])
    && (forall p, n {:trigger AssignmentScore(pods[p], n)} | 0 <= p < |pods| && n in nodes ::
          AssignmentScore(pods[p], n) <= best[p])
  }

  ghost predicate IsScoreMatrix(pods: seq<Pod>, nodes: seq<Node>, matrix: seq<seq<real>>) {
    && |matrix| == |pods|
    && (forall p | 0 <= p < |pods| :: |matrix[p]| == |nodes|)
    && (forall p, n {:trigger matrix[p][n]} | 0 <= p < |pods| && 0 <= n < |nodes| ::
        matrix[p][n] == AssignmentScore(pods[p], nodes[n]))
  }

  ghost predicate IsSuffixBound(best: seq<real>, suffix: seq<real>) {
    && |suffix| == |best| + 1 && suffix[|best|] == 0.0
    && forall i | 0 <= i < |best| :: suffix[i] == suffix[i + 1] + best[i]
  }

  lemma {:induction false} SuffixDominates(pods: seq<Pod>, best: seq<real>, suffix: seq<real>, k: nat, f: Measure)
    requires |best| == |pods| && IsSuffixBound(best, suffix) && k <= |pods|
    requires forall i | k <= i < |pods| :: Value(f, pods[i]) <= best[i]
    ensures Sum(pods[k..], f) <= suffix[k]
    decreases |pods| - k
  {
    if k < |pods| {
      SuffixDominates(pods, best, suffix, k + 1, f);
      assert pods[k..] == [pods[k]] + pods[k + 1..];
      SumConcat([pods[k]], pods[k + 1..], f);
      assert Sum([pods[k]], f) == Value(f, pods[k]) by { assert [pods[k]][..0] == []; }
    }
  }

  /** Admissibility: no completion beats the path's score plus the suffix bound. */
  lemma SuffixIsAdmissible(pods: seq<Pod>, nodes: seq<Node>, c: Constraints, plan: Plan, k: nat,
                           best: seq<real>, suffix: seq<real>)
    requires Posed(pods, nodes) && k <= |pods| && PathPlan(pods, nodes, c, plan, k)
    requires IsPodBest(pods, nodes, best) && IsSuffixBound(best, suffix)
    ensures Bounds(pods, nodes, c, plan, k, PlanScore(pods, nodes, plan) + suffix[k])
  {
    forall m | Feasible(pods, nodes, c, m) && Follows(pods, plan, k, m)
      ensures PlanScore(pods, nodes, m) <= PlanScore(pods, nodes, plan) + suffix[k]
    {
      CompletionScore(pods, nodes, plan, k, m);
      forall i | k <= i < |pods| ensures Value(ScoreIn(m, nodes), pods[i]) <= best[i] {
      }
      SuffixDominates(pods, best, suffix, k, ScoreIn(m, nodes));
    }
  }

  /** What a completion scores is the path's score plus what the remaining pods add. */
  lemma CompletionScore(pods: seq<Pod>, nodes: seq<Node>, plan: Plan, k: nat, m: Plan)
    requires DistinctUids(pods) && k <= |pods| && plan.Keys <= Uids(pods[..k]) && Follows(pods, plan, k, m)
    ensures PlanScore(pods, nodes, m) == PlanScore(pods, nodes, plan) + Sum(pods[k..], ScoreIn(m, nodes))
  {
    var f, g := ScoreIn(plan, nodes), ScoreIn(m, nodes);
    assert pods == pods[..k] + pods[k..];
    SumConcat(pods[..k], pods[k..], f);
    SumConcat(pods[..k], pods[k..], g);
    SumCongruence(pods[..k], f, g);
    forall i | k <= i < |pods| ensures pods[i].uid !in plan {
      LaterUid(pods, k, i);
    }
    SumZero(pods[k..], f);
  }

  lemma FullPathBounds(pods: seq<Pod>, nodes: seq<Node>, c: Constraints, plan: Plan)
    requires PathPlan(pods, nodes, c, plan, |pods|)
    ensures Bounds(pods, nodes, c, plan, |pods|, PlanScore(pods, nodes, plan))
  {
    forall m | Follows(pods, plan, |pods|, m)
      ensures PlanScore(pods, nodes, m) == PlanScore(pods, nodes, plan)
    {
      SumCongruence(pods, ScoreIn(plan, nodes), ScoreIn(m, nodes));
    }
  }

  /* ------------------------------------- The search ------------------------------------- */

  /** What is fixed during the search. `expired` holds the values of the visit counter at which the
      deadline is found past: any set at all. */
  datatype Problem = Problem(
    pods: seq<Pod>, nodes: seq<Node>, scoreMatrix: seq<seq<real>>, suffixBound: seq<real>,
    maxPowerOns: int, expired: iset<nat>)
  {
    ghost predicate Shape() {
      && |scoreMatrix| == |pods| && (forall p | 0 <= p < |pods| :: |scoreMatrix[p]| == |nodes|)
      && |suffixBound| == |pods| + 1
    }
  }

  /** The current partial solution. */
  datatype Path = Path(
    assignments: seq<int>, remaining: seq<Amount>, score: real, nodesUsed: set<int>, powerOnsUsed: int)
  {
    ghost predicate Fits(p: Problem) {
      |assignments| == |p.pods| && |remaining| == |p.nodes|
    }
  }

  datatype Search = Search(path: Path, bestScore: real, bestAssign: seq<int>, timedOut: bool, explored: nat)

  /** Capacity, and the power budget for an offline node not in use yet. */
  predicate Admits(p: Problem, path: Path, k: nat, ni: nat)
    requires path.Fits(p) && k < |p.pods| && ni < |p.nodes|
  {
    && p.pods[k].request.FitsIn(path.remaining[ni])
    && (p.nodes[ni].isOffline && ni !in path.nodesUsed ==> path.powerOnsUsed < p.maxPowerOns)
  }

  function PowerOnDelta(p: Problem, path: Path, ni: nat): int
    requires ni < |p.nodes|
  {
    if p.nodes[ni].isOffline && ni !in path.nodesUsed then 1 else 0
  }

  function Assigned(p: Problem, path: Path, k: nat, ni: nat): Path
    requires p.Shape() && path.Fits(p) && k < |p.pods| && ni < |p.nodes|
  {
    Path(path.assignments[k := ni],
         path.remaining[ni := path.remaining[ni].Minus(p.pods[k].request)],
         path.score + p.scoreMatrix[k][ni],
         path.nodesUsed + {ni},
         path.powerOnsUsed + PowerOnDelta(p, path, ni))
  }

  /** Undo, knowing from `before` whether the node was in use. */
  function Unassigned(p: Problem, path: Path, before: Path, k: nat, ni: nat): Path
    requires p.Shape() && path.Fits(p) && k < |p.pods| && ni < |p.nodes|
  {
    Path(path.assignments[k := -1],
         path.remaining[ni := path.remaining[ni].Plus(p.pods[k].request)],
         path.score - p.scoreMatrix[k][ni],
         if ni in before.nodesUsed then path.nodesUsed else path.nodesUsed - {ni},
         path.powerOnsUsed - PowerOnDelta(p, before, ni))
  }

  /** What `Branch(k)` makes of the search state. */
  function Branched(p: Problem, s: Search, k: nat): (r: Search)
    requires p.Shape() && s.path.Fits(p) && k <= |p.pods|
    ensures r.path.Fits(p)
    decreases |p.pods| - k, 1, 0
  {
    var s := s.(explored := s.explored + 1);
    if s.explored % 256 == 0 && s.explored in p.expired then s.(timedOut := true)
    else if k == |p.pods| then
      if s.path.score > s.bestScore then s.(bestScore := s.path.score, bestAssign := s.path.assignments) else s
    else if s.path.score + p.suffixBound[k] <= s.bestScore then s
    else
      var t := Tried(p, s, k, 0);
      if t.1 then t.0
      else Branched(p, t.0.(path := t.0.path.(assignments := t.0.path.assignments[k := -1])), k + 1)
  }

  /** The loop over nodes from `ni` on, and whether it returned early because time was up. */
  function Tried(p: Problem, s: Search, k: nat, ni: nat): (r: (Search, bool))
    requires p.Shape() && s.path.Fits(p) && k < |p.pods| && ni <= |p.nodes|
    ensures r.0.path.Fits(p) && (r.1 ==> r.0.timedOut)
    decreases |p.pods| - k, 0, |p.nodes| - ni
  {
    if ni == |p.nodes| then (s, false)
    else if s.timedOut then (s, true)
    else if !Admits(p, s.path, k, ni) then Tried(p, s, k, ni + 1)
    else Tried(p, Descended(p, s, k, ni), k, ni + 1)
  }

  /** Assign, search below, undo. */
  function Descended(p: Problem, s: Search, k: nat, ni: nat): (r: Search)
    requires p.Shape() && s.path.Fits(p) && k < |p.pods| && ni < |p.nodes|
    ensures r.path.Fits(p)
    decreases |p.pods| - k, 0, 0
  {
    var t := Branched(p, s.(path := Assigned(p, s.path, k, ni)), k + 1);
    t.(path := Unassigned(p, t.path, s.path, k, ni))
  }

  class BBState {
    var path: Path

    // The incumbent: greedy's assignment, or the best one found.
    var bestScore: real
    var bestAssign: seq<int>

    var timedOut: bool
    var explored: nat

    const problem: Problem

    ghost function View(): Search
      reads this
    {
      Search(path, bestScore, bestAssign, timedOut, explored)
    }

    constructor (problem: Problem, powerOnsInFlight: int, seedScore: real, seed: seq<int>)
      ensures this.problem == problem
      ensures View() == Start(problem, powerOnsInFlight, seedScore, seed)
    {
      this.problem := problem;
      this.path := Path(
        seq(|problem.pods|, _ => -1),
        seq(|problem.nodes|, i requires 0 <= i < |problem.nodes| => problem.nodes[i].allocatable),
        0.0, {}, powerOnsInFlight);
      this.bestScore := seedScore;
      this.bestAssign := seed;
      this.timedOut := false;
      this.explored := 0;
    }

    /** Explore every choice for the pods from `k` on, updating the path in place and undoing each
        update after the recursive call. */
    method Branch(k: nat)
      requires problem.Shape() && path.Fits(problem) && k <= |problem.pods|
      modifies this
      ensures View() == Branched(problem, old(View()), k)
      decreases |problem.pods| - k, 1
    {
      explored := explored + 1;
      if explored % 256 == 0 {
        if explored in problem.expired {
          timedOut := true;
          return;
        }
      }

      if k >= |problem.pods| {
        if path.score > bestScore {
          bestScore := path.score;
          bestAssign := path.assignments;
        }
        return;
      }

      var upperBound := path.score + problem.suffixBound[k];
      if upperBound <= bestScore {
        return;
      }

      ghost var entry := View();
      for ni := 0 to |problem.nodes|
        invariant path.Fits(problem)
        invariant Tried(problem, View(), k, ni) == Tried(problem, entry, k, 0)
      {
        if timedOut {
          return;
        }
        if !problem.pods[k].request.FitsIn(path.remaining[ni]) {
          continue;
        }
        if problem.nodes[ni].isOffline && ni !in path.nodesUsed {
          if path.powerOnsUsed >= problem.maxPowerOns {
            continue;
          }
        }

        TryNode(k, ni);
      }

      path := path.(assignments := path.assignments[k := -1]);
      Branch(k + 1);
    }

    /** One round of the loop over nodes: assign, recurse, undo. */
    method TryNode(k: nat, ni: nat)
      requires problem.Shape() && path.Fits(problem) && k < |problem.pods| && ni < |problem.nodes|
      modifies this
      ensures View() == Descended(problem, old(View()), k, ni)
      decreases |problem.pods| - k, 0
    {
      var score, request := problem.scoreMatrix[k][ni], problem.pods[k].request;
      var wasUsed := ni in path.nodesUsed;
      var powerOnDelta := if problem.nodes[ni].isOffline && !wasUsed then 1 else 0;
      path := Path(
        path.assignments[k := ni],
        path.remaining[ni := path.remaining[ni].Minus(request)],
        path.score + score,
        path.nodesUsed + {ni},
        path.powerOnsUsed + powerOnDelta);

      Branch(k + 1);

      path := Path(
        path.assignments[k := -1],
        path.remaining[ni := path.remaining[ni].Plus(request)],
        path.score - score,
        if wasUsed then path.nodesUsed else path.nodesUsed - {ni},
        path.powerOnsUsed - powerOnDelta);
    }
  }

  function Start(p: Problem, powerOnsInFlight: int, seedScore: real, seed: seq<int>): Search {
    Search(Path(seq(|p.pods|, _ => -1),
                seq(|p.nodes|, i requires 0 <= i < |p.nodes| => p.nodes[i].allocatable),
                0.0, {}, powerOnsInFlight),
           seedScore, seed, false, 0)
  }

  /* --------------------------- What the mutable fields describe --------------------------- */

  ghost predicate ValidChoices(pods: seq<Pod>, nodes: seq<Node>, a: seq<int>) {
    |a| <= |pods| && forall i | 0 <= i < |a| :: -1 <= a[i] < |nodes|
  }

  ghost function IndexSet(nodes: seq<Node>, plan: Plan): set<int> {
    set n | 0 <= n < |nodes| && Uses(plan, nodes[n].name)
  }

  ghost predicate DescribesPlan(p: Problem, c: Constraints, plan: Plan, path: Path) {
    && path.remaining == LeftOver(p.pods, p.nodes, plan)
    && path.score == PlanScore(p.pods, p.nodes, plan)
    && path.nodesUsed == IndexSet(p.nodes, plan)
    && path.powerOnsUsed == c.currentPowerOnsInFlight + |Wakes(p.nodes, plan)|
  }

  /** The path holds the plan of its first k choices, and nothing more: capacity left, score, nodes
      in use and power-ons are those of that plan, which is feasible. */
  ghost predicate Describes(p: Problem, c: Constraints, k: nat, path: Path) {
    && ValidChoices(p.pods, p.nodes, path.assignments) && k <= |path.assignments| == |p.pods|
    && Open(path, k)
    && PathPlan(p.pods, p.nodes, c, PlanOf(p.pods, p.nodes, path.assignments[..k]), k)
    && DescribesPlan(p, c, PlanOf(p.pods, p.nodes, path.assignments[..k]), path)
  }

  /** No choice made from pod k on. */
  ghost predicate Open(path: Path, k: nat) {
    forall i | k <= i < |path.assignments| :: path.assignments[i] == -1
  }

  /** What the solver sets up before it searches. */
  ghost predicate Prepared(p: Problem, c: Constraints, podBest: seq<real>) {
    && p.Shape() && Posed(p.pods, p.nodes)
    && IsScoreMatrix(p.pods, p.nodes, p.scoreMatrix)
    && IsPodBest(p.pods, p.nodes, podBest) && IsSuffixBound(podBest, p.suffixBound)
    && p.maxPowerOns == c.maxConcurrentPowerOns
  }

  /** An incumbent that is feasible and worth exactly `score`. */
  ghost predicate Achieves(p: Problem, c: Constraints, choices: seq<int>, score: real) {
    && ValidChoices(p.pods, p.nodes, choices) && |choices| == |p.pods|
    && Feasible(p.pods, p.nodes, c, PlanOf(p.pods, p.nodes, choices))
    && PlanScore(p.pods, p.nodes, PlanOf(p.pods, p.nodes, choices)) == score
  }

  lemma PathAssign(pods: seq<Pod>, nodes: seq<Node>, a: seq<int>, k: nat, ni: nat)
    requires ValidChoices(pods, nodes, a) && k < |a| && ni < |nodes|
    ensures ValidChoices(pods, nodes, a[k := ni])
    ensures PlanOf(pods, nodes, a[k := ni][..k + 1]) == PlanOf(pods, nodes, a[..k])[pods[k].uid := nodes[ni].name]
  {
    assert a[k := ni][..k + 1][..k] == a[..k];
  }

  lemma LeftOverAssign(pods: seq<Pod>, nodes: seq<Node>, c: Constraints, plan: Plan, k: nat, ni: nat, left: seq<Amount>)
    requires Posed(pods, nodes) && k < |pods| && ni < |nodes| && PathPlan(pods, nodes, c, plan, k)
    requires left == LeftOver(pods, nodes, plan)
    ensures LeftOver(pods, nodes, plan[pods[k].uid := nodes[ni].name])
         == left[ni := left[ni].Minus(pods[k].request)]
  {
    var after := plan[pods[k].uid := nodes[ni].name];
    var left' := left[ni := left[ni].Minus(pods[k].request)];
    forall n | 0 <= n < |nodes|
      ensures left'[n] == nodes[n].allocatable.Minus(Load(pods, after, nodes[n].name))
    {
      LoadGrow(pods, plan, k, nodes[ni].name, nodes[n].name);
    }
  }

  lemma IndexSetAssign(nodes: seq<Node>, plan: Plan, uid: Uid, ni: nat)
    requires DistinctNames(nodes) && ni < |nodes| && uid !in plan
    ensures IndexSet(nodes, plan[uid := nodes[ni].name]) == IndexSet(nodes, plan) + {ni}
  {
    forall n | 0 <= n < |nodes|
      ensures Uses(plan[uid := nodes[ni].name], nodes[n].name) <==> Uses(plan, nodes[n].name) || n == ni
    {
      UsesAssign(plan, uid, nodes[ni].name, nodes[n].name);
    }
  }

  lemma DescribesAssign(p: Problem, c: Constraints, podBest: seq<real>, k: nat, path: Path, ni: nat)
    requires Prepared(p, c, podBest) && Describes(p, c, k, path) && path.Fits(p)
    requires k < |p.pods| && ni < |p.nodes| && Admits(p, path, k, ni)
    ensures Describes(p, c, k + 1, Assigned(p, path, k, ni))
  {
    PathAssign(p.pods, p.nodes, path.assignments, k, ni);
    DescribesPlanAssign(p, c, podBest, PlanOf(p.pods, p.nodes, path.assignments[..k]), k, path, ni);
  }

  lemma DescribesPlanAssign(p: Problem, c: Constraints, podBest: seq<real>, plan: Plan, k: nat, path: Path, ni: nat)
    requires Prepared(p, c, podBest) && path.Fits(p)
    requires k < |p.pods| && ni < |p.nodes| && PathPlan(p.pods, p.nodes, c, plan, k)
    requires DescribesPlan(p, c, plan, path) && Admits(p, path, k, ni)
    ensures PathPlan(p.pods, p.nodes, c, plan[p.pods[k].uid := p.nodes[ni].name], k + 1)
    ensures DescribesPlan(p, c, plan[p.pods[k].uid := p.nodes[ni].name], Assigned(p, path, k, ni))
  {
    BlockedMeans(p, c, plan, k, path, ni);
    ExtendFeasible(p.pods, p.nodes, c, plan, k, ni);
    LeftOverAssign(p.pods, p.nodes, c, plan, k, ni, path.remaining);
    IndexSetAssign(p.nodes, plan, p.pods[k].uid, ni);
    PlanScoreAssign(p.pods, p.nodes, plan, k, p.nodes[ni]);
    WakesAssignSize(p.nodes, plan, p.pods[k].uid, p.nodes[ni]);
    assert path.score + p.scoreMatrix[k][ni] == path.score + AssignmentScore(p.pods[k], p.nodes[ni]);
  }

  /** The two tests of the loop are exactly the ones feasibility asks for. */
  lemma BlockedMeans(p: Problem, c: Constraints, plan: Plan, k: nat, path: Path, ni: nat)
    requires path.Fits(p) && DescribesPlan(p, c, plan, path) && k < |p.pods| && ni < |p.nodes|
    requires p.maxPowerOns == c.maxConcurrentPowerOns
    ensures Admits(p, path, k, ni) <==> !Blocked(p.pods, p.nodes, c, plan, k, ni)
  {
  }

  lemma DescribesSkip(p: Problem, c: Constraints, k: nat, path: Path)
    requires Describes(p, c, k, path) && k < |p.pods|
    ensures PlanOf(p.pods, p.nodes, path.assignments[..k + 1]) == PlanOf(p.pods, p.nodes, path.assignments[..k])
    ensures Describes(p, c, k + 1, path)
  {
    assert path.assignments[..k + 1][..k] == path.assignments[..k];
    assert p.pods[..k + 1] == p.pods[..k] + [p.pods[k]];
  }

  lemma DescribesStart(p: Problem, c: Constraints, podBest: seq<real>, seedScore: real, seed: seq<int>)
    requires Prepared(p, c, podBest)
    ensures var s := Start(p, c.currentPowerOnsInFlight, seedScore, seed);
      s.path.Fits(p) && Describes(p, c, 0, s.path)
  {
    var path := Start(p, c.currentPowerOnsInFlight, seedScore, seed).path;
    EmptyPlanFeasible(p.pods, p.nodes, c);
    SumZero(p.pods, ScoreIn(map[], p.nodes));
    assert path.assignments[..0] == [];
    assert path.remaining == LeftOver(p.pods, p.nodes, map[]);
  }

  /* ------------------------------- Backtracking restores ------------------------------- */

  /** Every return from the search, timed out or not, leaves the path as it was at entry. */
  lemma {:induction false} BranchRestores(p: Problem, s: Search, k: nat)
    requires p.Shape() && s.path.Fits(p) && k <= |p.pods| && Open(s.path, k)
    ensures Branched(p, s, k).path == s.path
    decreases |p.pods| - k, 1, 0
  {
    if k < |p.pods| {
      var s' := s.(explored := s.explored + 1);
      TriedRestores(p, s', k, 0);
      var t := Tried(p, s', k, 0);
      assert t.0.path.assignments[k := -1] == s.path.assignments;
      BranchRestores(p, t.0, k + 1);
    }
  }

  lemma {:induction false} DescentRestores(p: Problem, s: Search, k: nat, ni: nat)
    requires p.Shape() && s.path.Fits(p) && k < |p.pods| && ni < |p.nodes| && Open(s.path, k)
    ensures Branched(p, s.(path := Assigned(p, s.path, k, ni)), k + 1).path == Assigned(p, s.path, k, ni)
    ensures Descended(p, s, k, ni).path == s.path
    decreases |p.pods| - k, 0, 0
  {
    BranchRestores(p, s.(path := Assigned(p, s.path, k, ni)), k + 1);
  }

  lemma {:induction false} TriedRestores(p: Problem, s: Search, k: nat, ni: nat)
    requires p.Shape() && s.path.Fits(p) && k < |p.pods| && ni <= |p.nodes| && Open(s.path, k)
    ensures Tried(p, s, k, ni).0.path == s.path
    decreases |p.pods| - k, 0, |p.nodes| - ni
  {
    if ni < |p.nodes| && !s.timedOut {
      if Admits(p, s.path, k, ni) {
        DescentRestores(p, s, k, ni);
        TriedRestores(p, Descended(p, s, k, ni), k, ni + 1);
      } else {
        TriedRestores(p, s, k, ni + 1);
      }
    }
  }

  /* ---------------------------------- Anytime soundness ---------------------------------- */

  /** From s to t the incumbent is untouched, or replaced by a feasible assignment that scores
      strictly more and exactly what is recorded for it. */
  ghost predicate OnlyImproves(p: Problem, c: Constraints, s: Search, t: Search) {
    && (t.bestScore > s.bestScore || (t.bestScore == s.bestScore && t.bestAssign == s.bestAssign))
    && (t.bestScore > s.bestScore ==> Achieves(p, c, t.bestAssign, t.bestScore))
    && (s.timedOut ==> t.timedOut)
  }

  lemma {:induction false} BranchImproves(p: Problem, c: Constraints, podBest: seq<real>, s: Search, k: nat)
    requires Prepared(p, c, podBest) && s.path.Fits(p) && k <= |p.pods| && Describes(p, c, k, s.path)
    ensures OnlyImproves(p, c, s, Branched(p, s, k))
    decreases |p.pods| - k, 1, 0
  {
    if k == |p.pods| {
      assert s.path.assignments[..k] == s.path.assignments;
    } else {
      BranchImprovesInner(p, c, podBest, s.(explored := s.explored + 1), k);
    }
  }

  lemma {:induction false} BranchImprovesInner(p: Problem, c: Constraints, podBest: seq<real>, s: Search, k: nat)
    requires Prepared(p, c, podBest) && s.path.Fits(p) && k < |p.pods| && Describes(p, c, k, s.path)
    ensures var t := Tried(p, s, k, 0).0;
      && t.path == s.path && s.path.assignments[k := -1] == s.path.assignments
      && OnlyImproves(p, c, s, t) && OnlyImproves(p, c, s, Branched(p, t, k + 1))
    decreases |p.pods| - k, 0, |p.nodes| + 1
  {
    var t := Tried(p, s, k, 0).0;
    TriedImproves(p, c, podBest, s, k, 0);
    TriedRestores(p, s, k, 0);
    DescribesSkip(p, c, k, s.path);
    BranchImproves(p, c, podBest, t, k + 1);
  }

  lemma {:induction false} TriedImproves(p: Problem, c: Constraints, podBest: seq<real>, s: Search, k: nat, ni: nat)
    requires Prepared(p, c, podBest) && s.path.Fits(p) && k < |p.pods| && ni <= |p.nodes| && Describes(p, c, k, s.path)
    ensures OnlyImproves(p, c, s, Tried(p, s, k, ni).0)
    decreases |p.pods| - k, 0, |p.nodes| - ni
  {
    if ni < |p.nodes| && !s.timedOut {
      if Admits(p, s.path, k, ni) {
        var t := Descended(p, s, k, ni);
        DescentImproves(p, c, podBest, s, k, ni);
        TriedImproves(p, c, podBest, t, k, ni + 1);
      } else {
        TriedImproves(p, c, podBest, s, k, ni + 1);
      }
    }
  }

  lemma {:induction false} DescentImproves(p: Problem, c: Constraints, podBest: seq<real>, s: Search, k: nat, ni: nat)
    requires Prepared(p, c, podBest) && s.path.Fits(p) && k < |p.pods| && ni < |p.nodes| && Describes(p, c, k, s.path)
    requires Admits(p, s.path, k, ni)
    ensures Descended(p, s, k, ni).path == s.path && OnlyImproves(p, c, s, Descended(p, s, k, ni))
    decreases |p.pods| - k, 0, 0
  {
    var below := s.(path := Assigned(p, s.path, k, ni));
    DescentRestores(p, s, k, ni);
    DescribesAssign(p, c, podBest, k, s.path, ni);
    BranchImproves(p, c, podBest, below, k + 1);
  }

  /* ------------------------------------ Completeness ------------------------------------ */

  ghost function PathOf(p: Problem, c: Constraints, k: nat, path: Path): Plan
    requires Describes(p, c, k, path)
  {
    PlanOf(p.pods, p.nodes, path.assignments[..k])
  }

  /** A search that was not cut short has beaten or matched every feasible completion of the path. */
  lemma {:induction false} BranchComplete(p: Problem, c: Constraints, podBest: seq<real>, s: Search, k: nat)
    requires Prepared(p, c, podBest) && s.path.Fits(p) && k <= |p.pods| && Describes(p, c, k, s.path)
    requires !Branched(p, s, k).timedOut
    ensures Bounds(p.pods, p.nodes, c, PathOf(p, c, k, s.path), k, Branched(p, s, k).bestScore)
    decreases |p.pods| - k, 1, 0
  {
    var plan := PathOf(p, c, k, s.path);
    if k == |p.pods| {
      FullPathBounds(p.pods, p.nodes, c, plan);
    } else if s.path.score + p.suffixBound[k] <= s.bestScore {
      SuffixIsAdmissible(p.pods, p.nodes, c, plan, k, podBest, p.suffixBound);
    } else {
      var s' := s.(explored := s.explored + 1);
      BranchCompleteInner(p, c, podBest, s', k);
      var t := Tried(p, s', k, 0);
      assert t.0.path.assignments[k := -1] == s.path.assignments;
      assert t.0.(path := t.0.path.(assignments := t.0.path.assignments[k := -1])) == t.0;
    }
  }

  lemma {:induction false} BranchCompleteInner(p: Problem, c: Constraints, podBest: seq<real>, s: Search, k: nat)
    requires Prepared(p, c, podBest) && s.path.Fits(p) && k < |p.pods| && Describes(p, c, k, s.path)
    ensures var t := Tried(p, s, k, 0).0;
      t.path == s.path
    ensures var t := Tried(p, s, k, 0);
      var r := Branched(p, t.0, k + 1);
      !t.1 && !r.timedOut ==> Bounds(p.pods, p.nodes, c, PathOf(p, c, k, s.path), k, r.bestScore)
    decreases |p.pods| - k, 0, |p.nodes| + 1
  {
    var plan := PathOf(p, c, k, s.path);
    TriedRestores(p, s, k, 0);
    var t := Tried(p, s, k, 0);
    DescribesSkip(p, c, k, s.path);
    BranchImproves(p, c, podBest, t.0, k + 1);
    var r := Branched(p, t.0, k + 1);
    if !t.1 && !r.timedOut {
      BranchComplete(p, c, podBest, t.0, k + 1);
      TriedComplete(p, c, podBest, s, k, 0);
      BoundsTriedWeaken(p.pods, p.nodes, c, plan, k, |p.nodes|, t.0.bestScore, r.bestScore);
      AllBranches(p.pods, p.nodes, c, plan, k, r.bestScore);
    }
  }

  lemma BoundsTriedWeaken(pods: seq<Pod>, nodes: seq<Node>, c: Constraints, plan: Plan, k: nat, tried: nat,
                          low: real, high: real)
    requires k < |pods| && tried <= |nodes| && low <= high
    requires BoundsTried(pods, nodes, c, plan, k, tried, low)
    ensures BoundsTried(pods, nodes, c, plan, k, tried, high)
  {
  }

  lemma {:induction false} TriedComplete(p: Problem, c: Constraints, podBest: seq<real>, s: Search, k: nat, ni: nat)
    requires Prepared(p, c, podBest) && s.path.Fits(p) && k < |p.pods| && ni <= |p.nodes| && Describes(p, c, k, s.path)
    requires BoundsTried(p.pods, p.nodes, c, PathOf(p, c, k, s.path), k, ni, s.bestScore)
    requires !Tried(p, s, k, ni).0.timedOut
    ensures !Tried(p, s, k, ni).1
    ensures BoundsTried(p.pods, p.nodes, c, PathOf(p, c, k, s.path), k, |p.nodes|, Tried(p, s, k, ni).0.bestScore)
    decreases |p.pods| - k, 0, |p.nodes| - ni
  {
    if ni < |p.nodes| && !s.timedOut {
      if Admits(p, s.path, k, ni) {
        var t := Descended(p, s, k, ni);
        assert Tried(p, s, k, ni) == Tried(p, t, k, ni + 1);
        DescentCovered(p, c, podBest, s, k, ni);
        TriedComplete(p, c, podBest, t, k, ni + 1);
      } else {
        SkipComplete(p, c, s, k, ni);
        TriedComplete(p, c, podBest, s, k, ni + 1);
      }
    }
  }

  lemma {:induction false} DescentCovered(p: Problem, c: Constraints, podBest: seq<real>, s: Search, k: nat, ni: nat)
    requires Prepared(p, c, podBest) && s.path.Fits(p) && k < |p.pods| && ni < |p.nodes| && Describes(p, c, k, s.path)
    requires Admits(p, s.path, k, ni) && !Tried(p, Descended(p, s, k, ni), k, ni + 1).0.timedOut
    requires BoundsTried(p.pods, p.nodes, c, PathOf(p, c, k, s.path), k, ni, s.bestScore)
    ensures var t := Descended(p, s, k, ni);
      && t.path == s.path && Describes(p, c, k, t.path)
      && BoundsTried(p.pods, p.nodes, c, PathOf(p, c, k, t.path), k, ni + 1, t.bestScore)
    decreases |p.pods| - k, 0, 0
  {
    DescentRestores(p, s, k, ni);
    StaysTimedOut(p, Descended(p, s, k, ni), k, ni + 1);
    DescentComplete(p, c, podBest, s, k, ni);
  }

  lemma SkipComplete(p: Problem, c: Constraints, s: Search, k: nat, ni: nat)
    requires Posed(p.pods, p.nodes) && s.path.Fits(p) && k < |p.pods| && ni < |p.nodes| && Describes(p, c, k, s.path)
    requires p.maxPowerOns == c.maxConcurrentPowerOns && !Admits(p, s.path, k, ni)
    requires BoundsTried(p.pods, p.nodes, c, PathOf(p, c, k, s.path), k, ni, s.bestScore)
    ensures BoundsTried(p.pods, p.nodes, c, PathOf(p, c, k, s.path), k, ni + 1, s.bestScore)
  {
    var plan := PathOf(p, c, k, s.path);
    BlockedMeans(p, c, plan, k, s.path, ni);
    SkipIsSound(p.pods, p.nodes, c, plan, k, ni, s.bestScore);
  }

  lemma {:induction false} StaysTimedOut(p: Problem, s: Search, k: nat, ni: nat)
    requires p.Shape() && s.path.Fits(p) && k < |p.pods| && ni <= |p.nodes|
    ensures s.timedOut ==> Tried(p, s, k, ni).0.timedOut
  {
  }

  lemma {:induction false} DescentComplete(p: Problem, c: Constraints, podBest: seq<real>, s: Search, k: nat, ni: nat)
    requires Prepared(p, c, podBest) && s.path.Fits(p) && k < |p.pods| && ni < |p.nodes| && Describes(p, c, k, s.path)
    requires Admits(p, s.path, k, ni) && !Descended(p, s, k, ni).timedOut
    requires BoundsTried(p.pods, p.nodes, c, PathOf(p, c, k, s.path), k, ni, s.bestScore)
    ensures BoundsTried(p.pods, p.nodes, c, PathOf(p, c, k, s.path), k, ni + 1, Descended(p, s, k, ni).bestScore)
    decreases |p.pods| - k - 1, 2, 0
  {
    var plan := PathOf(p, c, k, s.path);
    var below := s.(path := Assigned(p, s.path, k, ni));
    var t := Descended(p, s, k, ni);
    DescribesAssign(p, c, podBest, k, s.path, ni);
    PathAssign(p.pods, p.nodes, s.path.assignments, k, ni);
    BranchImproves(p, c, podBest, below, k + 1);
    BranchComplete(p, c, podBest, below, k + 1);
    BoundsTriedWeaken(p.pods, p.nodes, c, plan, k, ni, s.bestScore, t.bestScore);
    DescentIsSound(p.pods, p.nodes, c, plan, k, ni, t.bestScore);
  }
}
