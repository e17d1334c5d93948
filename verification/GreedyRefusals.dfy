/**
 What greedy's result says about the pods it did not place, and about the largest one: in terms of the
 input, whatever the order in which equal pods were tried.
 */
module GreedyRefusals {
  import opened Placement
  import opened Scoring
  import opened Solutions
  import opened Greedy
  import opened GreedyProperties

  predicate MigrationsSpent(c: Constraints) {
    c.migrationsThisHour >= c.maxMigrationsPerHour
  }

  /** No node takes this pod on top of the plan. */
  ghost predicate CannotJoin(input: SolverInput, plan: Plan, p: Pod) {
    forall name | name in Names(input.nodes) ::
      !Feasible(input.pods, Cold(Candidates(input)), input.constraints, plan[p.uid := name])
  }

  /** A pod is only left out for a reason: as a rebalancing move beyond the budget, or because the plan has
      no place for it. And such moves are left out. */
  ghost predicate NothingLeftBehind(input: SolverInput, out: SolverOutput) {
    forall p | p in input.pods ::
      && (p.isRebalancingMove && MigrationsSpent(input.constraints) ==> p.uid !in out.assignments)
      && (p.uid !in out.assignments ==>
            || (p.isRebalancingMove && MigrationsSpent(input.constraints))
            || CannotJoin(input, PlanFrom(out.assignments), p))
  }

  /** Every entry is of a pod without an assignment, and its reason is true. */
  ghost predicate ReasonsTrue(input: SolverInput, out: SolverOutput) {
    forall e | e in out.unassignedPods ::
      exists p :: p in input.pods && p.uid !in out.assignments && Justified(input, out, p, e)
  }

  ghost predicate Justified(input: SolverInput, out: SolverOutput, p: Pod, e: UnassignedPod) {
    && e.podNamespace == p.namespace && e.podName == p.name
    && match e.reason
       case MigrationBudget => p.isRebalancingMove && MigrationsSpent(input.constraints)
       case NoFeasibleNodes => false
       case _ => CannotJoin(input, PlanFrom(out.assignments), p)
  }

  lemma NameHasIndex(nodes: seq<Node>, order: seq<Node>, name: Name) returns (n: nat)
    requires name in Names(nodes) && forall m :: m in nodes <==> m in order
    ensures n < |order| && order[n].name == name
  {
    var m := Named(nodes, name);
    n :| n < |order| && order[n] == m;
  }

  lemma RefusedCannotJoin(input: SolverInput, pods: seq<Pod>, order: seq<Node>, out: SolverOutput, j: nat)
    requires WellFormed(input) && Outcome(input, pods, order, out) && j < |pods|
    requires NoNodeUsable(pods, order, input.constraints, j)
    ensures CannotJoin(input, PlanFrom(out.assignments), pods[j])
  {
    var c, plan := input.constraints, PlanFrom(out.assignments);
    OrderGiven(input, pods, order);
    forall name | name in Names(input.nodes)
      ensures !Feasible(input.pods, Cold(Candidates(input)), c, plan[pods[j].uid := name])
    {
      ScoredNames(input.nodes);
      var n := NameHasIndex(Candidates(input), order, name);
      GreedyMaximal(pods, order, c, j, n);
      FeasibleReorder(input.pods, pods, Cold(Candidates(input)), Cold(order), c, plan[pods[j].uid := name]);
    }
  }

  lemma ScoredNames(nodes: seq<Node>)
    ensures Names(nodes) <= Names(Scored(nodes))
  {
    forall n | n in nodes ensures n.name in Names(Scored(nodes)) {
      var i :| 0 <= i < |nodes| && nodes[i] == n;
      assert Scored(nodes)[i] in Scored(nodes);
    }
  }

  /** Greedy leaves nothing behind. */
  lemma GreedyLeavesNothing(input: SolverInput, pods: seq<Pod>, order: seq<Node>, out: SolverOutput)
    requires WellFormed(input) && Outcome(input, pods, order, out)
    ensures NothingLeftBehind(input, out)
  {
    OrderGiven(input, pods, order);
    SameMembers(input.pods, pods);
    forall p | p in input.pods
      ensures p.isRebalancingMove && MigrationsSpent(input.constraints) ==> p.uid !in out.assignments
      ensures p.uid !in out.assignments ==>
        || (p.isRebalancingMove && MigrationsSpent(input.constraints))
        || CannotJoin(input, PlanFrom(out.assignments), p)
    {
      var j :| 0 <= j < |pods| && pods[j] == p;
      UnassignedIff(pods, order, input.constraints, j);
      if NoNodeUsable(pods, order, input.constraints, j) {
        RefusedCannotJoin(input, pods, order, out, j);
      }
    }
  }

  /** The entry was made for pod j, and says what was found then. */
  ghost predicate MadeFor(pods: seq<Pod>, nodes: seq<Node>, c: Constraints, j: nat, e: UnassignedPod)
    requires j < |pods|
  {
    && e.podNamespace == pods[j].namespace && e.podName == pods[j].name
    && match e.reason
       case MigrationBudget => MigrationBlocked(pods[j], c)
       case NoFeasibleNodes => false
       case _ => NoNodeUsable(pods, nodes, c, j)
  }

  ghost predicate AllMade(pods: seq<Pod>, nodes: seq<Node>, c: Constraints, k: nat, entries: seq<UnassignedPod>)
    requires k <= |pods|
  {
    forall e | e in entries :: exists j :: 0 <= j < k && MadeFor(pods, nodes, c, j, e)
  }

  lemma {:induction false} EntriesMade(pods: seq<Pod>, nodes: seq<Node>, c: Constraints, k: nat)
    requires k <= |pods|
    ensures AllMade(pods, nodes, c, k, After(pods, nodes, c, k).out.unassignedPods)
  {
    if k > 0 {
      EntriesMade(pods, nodes, c, k - 1);
      EntriesNext(pods, nodes, c, k);
    }
  }

  lemma EntriesNext(pods: seq<Pod>, nodes: seq<Node>, c: Constraints, k: nat)
    requires 0 < k <= |pods| && AllMade(pods, nodes, c, k - 1, After(pods, nodes, c, k - 1).out.unassignedPods)
    ensures AllMade(pods, nodes, c, k, After(pods, nodes, c, k).out.unassignedPods)
  {
    var st, j := After(pods, nodes, c, k - 1), k - 1;
    var before, after := st.out.unassignedPods, Placed(st, pods[j], c).out.unassignedPods;
    forall e | e in after ensures exists i :: 0 <= i < k && MadeFor(pods, nodes, c, i, e) {
      if e in before {
        var i :| 0 <= i < k - 1 && MadeFor(pods, nodes, c, i, e);
      } else {
        assert MadeFor(pods, nodes, c, j, e);
      }
    }
  }

  /** Greedy's reasons are true. */
  lemma GreedyReasonsTrue(input: SolverInput, pods: seq<Pod>, order: seq<Node>, out: SolverOutput)
    requires WellFormed(input) && Outcome(input, pods, order, out)
    ensures ReasonsTrue(input, out)
  {
    OrderGiven(input, pods, order);
    SameMembers(input.pods, pods);
    EntriesMade(pods, order, input.constraints, |pods|);
    forall e | e in out.unassignedPods
      ensures exists p :: p in input.pods && p.uid !in out.assignments && Justified(input, out, p, e)
    {
      var j :| 0 <= j < |pods| && MadeFor(pods, order, input.constraints, j, e);
      UnassignedIff(pods, order, input.constraints, j);
      if NoNodeUsable(pods, order, input.constraints, j) {
        RefusedCannotJoin(input, pods, order, out, j);
      }
      assert pods[j] in input.pods && Justified(input, out, pods[j], e);
    }
  }

  /** The first pod tried finds a node if it may be placed alone. */
  lemma FirstFindsNode(input: SolverInput, pods: seq<Pod>, order: seq<Node>, out: SolverOutput, name: Name)
    requires WellFormed(input) && Outcome(input, pods, order, out) && pods != [] && name in Names(input.nodes)
    requires Feasible(input.pods, Cold(Candidates(input)), input.constraints, map[pods[0].uid := name])
    ensures !NoNodeUsable(pods, order, input.constraints, 0)
  {
    var c, st := input.constraints, After(pods, order, input.constraints, 0);
    OrderGiven(input, pods, order);
    ScoredNames(input.nodes);
    var n := NameHasIndex(Candidates(input), order, name);
    RunTracks(pods, order, c, 0);
    assert PlanAt(st)[pods[0].uid := order[n].name] == map[pods[0].uid := name];
    FeasibleReorder(input.pods, pods, Cold(Candidates(input)), Cold(order), c, map[pods[0].uid := name]);
    ColdNames(order);
    if Blocked(pods, Cold(order), c, PlanAt(st), 0, n) {
      BlockedIsInfeasible(pods, Cold(order), c, PlanAt(st), 0, n);
    }
    UsableIsUnblocked(pods, order, c, 0, st, 0, n);
  }

  /** A pod that requests more CPU than any other is placed whenever it may be placed alone. */
  lemma LargestIsServed(input: SolverInput, pods: seq<Pod>, order: seq<Node>, out: SolverOutput, p: Pod, name: Name)
    requires WellFormed(input) && Outcome(input, pods, order, out) && p in input.pods
    requires forall q | q in input.pods && q != p :: p.request.cpu > q.request.cpu
    requires !(p.isRebalancingMove && MigrationsSpent(input.constraints)) && name in Names(input.nodes)
    requires Feasible(input.pods, Cold(Candidates(input)), input.constraints, map[p.uid := name])
    ensures p.uid in out.assignments
  {
    OrderGiven(input, pods, order);
    SameMembers(input.pods, pods);
    LargestFirstIff(pods);
    var j :| 0 <= j < |pods| && pods[j] == p;
    assert pods[0] in input.pods && pods[0].request.cpu >= p.request.cpu;
    FirstFindsNode(input, pods, order, out, name);
    UnassignedIff(pods, order, input.constraints, 0);
  }
}
