/** The pods the example inputs share, and greedy's steps on them. */
module ExamplePods {
  import opened Options
  import opened Placement
  import opened Scoring
  import Greedy

  const UNIT := Amount(1.0, 1.0)
  const P := Pod(1, 0, 1, UNIT, None, false)
  const Q := Pod(2, 0, 2, UNIT, None, false)
  const R := Pod(3, 0, 3, UNIT, None, false)

  lemma PodsInOrder(pods: seq<Pod>, sorted: seq<Pod>)
    requires pods == [P, Q] || pods == [P, Q, R]
    requires DemandOrder(pods, sorted)
    ensures sorted == pods && DistinctUids(pods)
  {
    assert DemandOrder(pods, pods);
    DemandOrderUnique(pods, sorted, pods);
  }

  lemma Step(pods: seq<Pod>, nodes: seq<Node>, c: Constraints, k: nat)
    requires k < |pods|
    ensures Greedy.After(pods, nodes, c, k + 1) == Greedy.Placed(Greedy.After(pods, nodes, c, k), pods[k], c)
  {
  }
}
