/**
 The greedy solver: pods by decreasing demand, nodes by preference, each pod on the first node that
 has room and does not break the power budget.
 */
module Greedy {
  import opened Placement
  import opened Scoring
  import opened Solutions

  /* ------------------------------------ The algorithm ------------------------------------ */

  datatype Run = Run(nodes: seq<Node>, powerOnsUsed: int, out: SolverOutput)

  predicate NeedsWake(n: Node) {
    n.isOffline && !n.isReady
  }

  predicate Usable(pod: Pod, node: Node, powerOnsUsed: int, c: Constraints) {
    CanFit(pod, node) && (NeedsWake(node) ==> powerOnsUsed < c.maxConcurrentPowerOns)
  }

  /** The first usable node, or the number of nodes when there is none. */
  function FirstUsable(pod: Pod, nodes: seq<Node>, powerOnsUsed: int, c: Constraints, from: nat): (i: nat)
    requires from <= |nodes|
    ensures from <= i <= |nodes|
    ensures i < |nodes| ==> Usable(pod, nodes[i], powerOnsUsed, c)
    ensures forall j | from <= j < i :: !Usable(pod, nodes[j], powerOnsUsed, c)
    decreases |nodes| - from
  {
    if from == |nodes| || Usable(pod, nodes[from], powerOnsUsed, c) then from
    else FirstUsable(pod, nodes, powerOnsUsed, c, from + 1)
  }

  predicate HasFeasibleOffline(pod: Pod, nodes: seq<Node>) {
    exists i | 0 <= i < |nodes| :: CanFit(pod, nodes[i]) && nodes[i].isOffline
  }

  function RefusalReason(pod: Pod, nodes: seq<Node>, powerOnsUsed: int, c: Constraints): Reason {
    if HasFeasibleOffline(pod, nodes) && powerOnsUsed >= c.maxConcurrentPowerOns then PowerBudget else NoCapacity
  }

  function Refused(st: Run, pod: Pod, reason: Reason): Run {
    st.(out := st.out.(unassignedPods := st.out.unassignedPods + [UnassignedPod(pod.namespace, pod.name, reason)]))
  }

  function TakePod(node: Node, pod: Pod): Node {
    node.(remaining := node.remaining.Minus(pod.request),
          isReady := node.isReady || NeedsWake(node),
          isOffline := node.isOffline && !NeedsWake(node))
  }

  function Assigned(st: Run, pod: Pod, i: nat): Run
    requires i < |st.nodes|
  {
    var node := st.nodes[i];
    var wake := if NeedsWake(node) then 1 else 0;
    var score := AssignmentScore(pod, node);
    Run(st.nodes[i := TakePod(node, pod)],
        st.powerOnsUsed + wake,
        st.out.(assignments := st.out.assignments[pod.uid :=
                  Assignment(pod.namespace, pod.name, pod.uid, node.name, score, NeedsWake(node))],
                totalScore := st.out.totalScore + score,
                nodesUsed := st.out.nodesUsed + {node.name},
                offlineNodesUsed := st.out.offlineNodesUsed + wake))
  }

  predicate MigrationBlocked(pod: Pod, c: Constraints) {
    pod.isRebalancingMove && !c.CanMigrate()
  }

  function Placed(st: Run, pod: Pod, c: Constraints): Run {
    var i := FirstUsable(pod, st.nodes, st.powerOnsUsed, c, 0);
    if i == |st.nodes| then Refused(st, pod, RefusalReason(pod, st.nodes, st.powerOnsUsed, c))
    else if MigrationBlocked(pod, c) then Refused(st, pod, MigrationBudget)
    else Assigned(st, pod, i)
  }

  function Begin(nodes: seq<Node>, c: Constraints): Run {
    Run(nodes, c.currentPowerOnsInFlight, NewSolverOutput().(algorithm := Greedy))
  }

  /** The run after the first k pods. */
  function After(pods: seq<Pod>, nodes: seq<Node>, c: Constraints, k: nat): Run
    requires k <= |pods|
  {
    if k == 0 then Begin(nodes, c) else Placed(After(pods, nodes, c, k - 1), pods[k - 1], c)
  }

  function Scored(nodes: seq<Node>): seq<Node> {
    Normalized(WithBaseScores(nodes))
  }

  function WithBaseScores(nodes: seq<Node>): seq<Node> {
    seq(|nodes|, i requires 0 <= i < |nodes| => nodes[i].(baseScore := nodes[i].policyScore))
  }

  /** What the greedy solver may return on this input. */
  ghost predicate Outcome(input: SolverInput, pods: seq<Pod>, nodes: seq<Node>, out: SolverOutput) {
    && DemandOrder(input.pods, pods) && PreferenceOrder(Scored(input.nodes), nodes)
    && out == After(pods, nodes, input.constraints, |pods|).out
  }

  method Solve(input: SolverInput) returns (out: SolverOutput)
    ensures exists pods, order :: Outcome(input, pods, order, out)
  {
    var nodes := ScoreNodes(input.nodes);
    var pods := SortPodsByDemand(input.pods);
    nodes := SortNodesByPreference(nodes);
    ghost var order := nodes;

    var c := input.constraints;
    out := NewSolverOutput().(algorithm := Greedy);
    var powerOnsUsed: int := c.currentPowerOnsInFlight;
    for k := 0 to |pods|
      invariant Run(nodes, powerOnsUsed, out) == After(pods, order, c, k)
    {
      nodes, powerOnsUsed, out := Place(pods[k], nodes, powerOnsUsed, c, out);
    }
    assert Outcome(input, pods, order, out);
  }

  /** A copy of the candidates with base scores, normalised in place. */
  method ScoreNodes(nodes: seq<Node>) returns (scored: seq<Node>)
    ensures scored == Scored(nodes)
  {
    var copied := new Node[|nodes|](i requires 0 <= i < |nodes| => nodes[i].(baseScore := nodes[i].policyScore));
    assert copied[..] == WithBaseScores(nodes);
    NormalizeScores(copied);
    scored := copied[..];
  }

  /** One round of the loop over pods: the first usable node takes the pod, or the refusal is recorded. */
  method Place(pod: Pod, nodes: seq<Node>, powerOnsUsed: int, c: Constraints, out: SolverOutput)
    returns (nodes': seq<Node>, powerOnsUsed': int, out': SolverOutput)
    ensures Run(nodes', powerOnsUsed', out') == Placed(Run(nodes, powerOnsUsed, out), pod, c)
  {
    nodes', powerOnsUsed', out' := nodes, powerOnsUsed, out;
    for i := 0 to |nodes|
      invariant nodes' == nodes && powerOnsUsed' == powerOnsUsed && out' == out
      invariant FirstUsable(pod, nodes, powerOnsUsed, c, 0) == FirstUsable(pod, nodes, powerOnsUsed, c, i)
    {
      var node := nodes[i];
      if !CanFit(pod, node) {
        continue;
      }
      if node.isOffline && !node.isReady {
        if powerOnsUsed >= c.maxConcurrentPowerOns {
          continue;
        }
      }
      if pod.isRebalancingMove && !c.CanMigrate() {
        out' := out.(unassignedPods := out.unassignedPods + [UnassignedPod(pod.namespace, pod.name, MigrationBudget)]);
        return;
      }

      var score := AssignmentScore(pod, node);
      var requiresWake := node.isOffline && !node.isReady;
      var assignment := Assignment(pod.namespace, pod.name, pod.uid, node.name, score, requiresWake);
      out' := out.(assignments := out.assignments[pod.uid := assignment],
                   totalScore := out.totalScore + score,
                   nodesUsed := out.nodesUsed + {node.name});
      node := node.(remaining := node.remaining.Minus(pod.request));
      if requiresWake {
        powerOnsUsed' := powerOnsUsed + 1;
        out' := out'.(offlineNodesUsed := out.offlineNodesUsed + 1);
        node := node.(isReady := true, isOffline := false);
      }
      nodes' := nodes[i := node];
      return;
    }

    var reason := Diagnose(pod, nodes, powerOnsUsed, c);
    out' := out.(unassignedPods := out.unassignedPods + [UnassignedPod(pod.namespace, pod.name, reason)]);
  }

  /** Why no node took the pod: only the power budget was in the way, or there was no room. */
  method Diagnose(pod: Pod, nodes: seq<Node>, powerOnsUsed: int, c: Constraints) returns (reason: Reason)
    ensures reason == RefusalReason(pod, nodes, powerOnsUsed, c)
  {
    var hasFeasibleOffline := false;
    for j := 0 to |nodes|
      invariant !hasFeasibleOffline
      invariant forall i | 0 <= i < j :: !(CanFit(pod, nodes[i]) && nodes[i].isOffline)
    {
      if CanFit(pod, nodes[j]) && nodes[j].isOffline {
        hasFeasibleOffline := true;
        break;
      }
    }
    reason := if hasFeasibleOffline && powerOnsUsed >= c.maxConcurrentPowerOns then PowerBudget else NoCapacity;
  }
}
