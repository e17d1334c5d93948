/**
 What the greedy solver achieves: a feasible plan, with exactly the right nodes flagged for waking, to
 which no refused pod could be added, and whose recorded total is its score plus a known excess.
 */
module GreedyProperties {
  import opened Placement
  import opened Scoring
  import opened Solutions
  import opened Greedy

  /** Nodes start the solve with their whole allocatable capacity. */
  ghost predicate FullCapacity(nodes: seq<Node>) {
    forall n | n in nodes :: n.remaining == n.allocatable
  }

  /** The nodes as the power budget sees them: offline when using them takes a power-on. */
  ghost function Cold(nodes: seq<Node>): seq<Node> {
    seq(|nodes|, i requires 0 <= i < |nodes| => nodes[i].(isOffline := NeedsWake(nodes[i])))
  }

  lemma ColdNames(nodes: seq<Node>)
    ensures DistinctNames(nodes) ==> DistinctNames(Cold(nodes))
    ensures Names(Cold(nodes)) == Names(nodes)
  {
    forall n | n in nodes ensures n.name in Names(Cold(nodes)) {
      var i :| 0 <= i < |nodes| && nodes[i] == n;
      assert Cold(nodes)[i] in Cold(nodes);
    }
    forall n | n in Cold(nodes) ensures n.name in Names(nodes) {
      var i :| 0 <= i < |nodes| && Cold(nodes)[i] == n;
      assert nodes[i] in nodes;
    }
    assert forall i | 0 <= i < |nodes| :: Cold(nodes)[i].name == nodes[i].name;
  }

  ghost function Woken(nodes: seq<Node>, plan: Plan): set<Name> {
    Wakes(Cold(nodes), plan)
  }

  ghost function PlanAt(st: Run): Plan {
    PlanFrom(st.out.assignments)
  }

  /* ---------------------------- The ledger of a greedy run ---------------------------- */

  ghost function Tracked(pods: seq<Pod>, node: Node, plan: Plan): Node {
    var woken := NeedsWake(node) && Uses(plan, node.name);
    node.(remaining := node.remaining.Minus(Load(pods, plan, node.name)),
          isReady := node.isReady || woken,
          isOffline := node.isOffline && !woken)
  }

  /** The working copies of the nodes are the originals less the plan's load, with the woken ones
      turned ready; power-ons are those in flight plus the nodes woken; the plan is feasible. */
  ghost predicate Tracks(pods: seq<Pod>, nodes: seq<Node>, c: Constraints, k: nat, st: Run)
    requires k <= |pods|
  {
    && PlanAt(st).Keys <= Uids(pods[..k])
    && |st.nodes| == |nodes|
    && (forall i {:trigger st.nodes[i]} | 0 <= i < |nodes| :: st.nodes[i] == Tracked(pods, nodes[i], PlanAt(st)))
    && st.powerOnsUsed == c.currentPowerOnsInFlight + |Woken(nodes, PlanAt(st))|
    && Feasible(pods, Cold(nodes), c, PlanAt(st))
  }

  ghost predicate Given(pods: seq<Pod>, nodes: seq<Node>) {
    DistinctUids(pods) && DistinctNames(nodes) && FullCapacity(nodes)
  }

  /** The solver's test of a node is the feasibility of adding the pod to it. */
  lemma UsableIsUnblocked(pods: seq<Pod>, nodes: seq<Node>, c: Constraints, k: nat, st: Run, j: nat, i: nat)
    requires Given(pods, nodes) && k <= |pods| && Tracks(pods, nodes, c, k, st) && j < |pods| && i < |nodes|
    ensures Usable(pods[j], st.nodes[i], st.powerOnsUsed, c) <==> !Blocked(pods, Cold(nodes), c, PlanAt(st), j, i)
  {
    assert nodes[i] in nodes;
    assert st.nodes[i] == Tracked(pods, nodes[i], PlanAt(st));
    assert Cold(nodes)[i] == nodes[i].(isOffline := NeedsWake(nodes[i]));
  }

  lemma TrackedAssign(pods: seq<Pod>, nodes: seq<Node>, plan: Plan, j: nat, i: nat, m: nat)
    requires DistinctUids(pods) && DistinctNames(nodes) && j < |pods| && i < |nodes| && m < |nodes|
    requires pods[j].uid !in plan
    ensures Tracked(pods, nodes[m], plan[pods[j].uid := nodes[i].name])
         == if m == i then TakePod(Tracked(pods, nodes[m], plan), pods[j]) else Tracked(pods, nodes[m], plan)
  {
    LoadGrow(pods, plan, j, nodes[i].name, nodes[m].name);
    UsesAssign(plan, pods[j].uid, nodes[i].name, nodes[m].name);
    if m != i {
      assert nodes[m].name != nodes[i].name;
    }
  }

  lemma AssignPlan(st: Run, pod: Pod, i: nat)
    requires i < |st.nodes|
    ensures PlanAt(Assigned(st, pod, i)) == PlanAt(st)[pod.uid := st.nodes[i].name]
  {
    PlanFromAssign(st.out.assignments, pod.uid, Assigned(st, pod, i).out.assignments[pod.uid]);
  }

  lemma AssignFeasible(pods: seq<Pod>, nodes: seq<Node>, c: Constraints, k: nat, st: Run, i: nat)
    requires Given(pods, nodes) && k < |pods| && Tracks(pods, nodes, c, k, st) && i < |nodes|
    requires Usable(pods[k], st.nodes[i], st.powerOnsUsed, c)
    ensures pods[k].uid !in PlanAt(st)
    ensures Feasible(pods, Cold(nodes), c, PlanAt(st)[pods[k].uid := nodes[i].name])
    ensures |Woken(nodes, PlanAt(st)[pods[k].uid := nodes[i].name])|
         == |Woken(nodes, PlanAt(st))| + if NeedsWake(st.nodes[i]) then 1 else 0
  {
    var plan := PlanAt(st);
    assert st.nodes[i] == Tracked(pods, nodes[i], plan);
    LaterUid(pods, k, k);
    ColdNames(nodes);
    assert Cold(nodes)[i].name == nodes[i].name && Cold(nodes)[i].isOffline == NeedsWake(nodes[i]);
    UsableIsUnblocked(pods, nodes, c, k, st, k, i);
    UnblockedIsFeasible(pods, Cold(nodes), c, plan, k, i);
    WakesAssignSize(Cold(nodes), plan, pods[k].uid, Cold(nodes)[i]);
  }

  lemma TracksAssign(pods: seq<Pod>, nodes: seq<Node>, c: Constraints, k: nat, st: Run, i: nat)
    requires Given(pods, nodes) && k < |pods| && Tracks(pods, nodes, c, k, st) && i < |nodes|
    requires Usable(pods[k], st.nodes[i], st.powerOnsUsed, c)
    ensures PlanAt(Assigned(st, pods[k], i)) == PlanAt(st)[pods[k].uid := nodes[i].name]
    ensures Tracks(pods, nodes, c, k + 1, Assigned(st, pods[k], i))
  {
    var plan, st' := PlanAt(st), Assigned(st, pods[k], i);
    assert st.nodes[i] == Tracked(pods, nodes[i], plan);
    AssignPlan(st, pods[k], i);
    AssignFeasible(pods, nodes, c, k, st, i);
    KeysGrow(pods, k);
    forall m {:trigger st'.nodes[m]} | 0 <= m < |nodes| ensures st'.nodes[m] == Tracked(pods, nodes[m], PlanAt(st')) {
      TrackedAssign(pods, nodes, plan, k, i, m);
      assert st.nodes[m] == Tracked(pods, nodes[m], plan);
    }
  }

  lemma {:induction false} RunTracks(pods: seq<Pod>, nodes: seq<Node>, c: Constraints, k: nat)
    requires Given(pods, nodes) && k <= |pods|
    ensures Tracks(pods, nodes, c, k, After(pods, nodes, c, k))
  {
    if k == 0 {
      EmptyPlanFeasible(pods, Cold(nodes), c);
      assert PlanAt(Begin(nodes, c)) == map[];
      forall i | 0 <= i < |nodes| ensures nodes[i] == Tracked(pods, nodes[i], map[]) {
        assert Load(pods, map[], nodes[i].name) == ZERO;
      }
    } else {
      RunTracks(pods, nodes, c, k - 1);
      StepTracks(pods, nodes, c, k - 1, After(pods, nodes, c, k - 1));
    }
  }

  lemma StepTracks(pods: seq<Pod>, nodes: seq<Node>, c: Constraints, k: nat, st: Run)
    requires Given(pods, nodes) && k < |pods| && Tracks(pods, nodes, c, k, st)
    ensures Tracks(pods, nodes, c, k + 1, Placed(st, pods[k], c))
  {
    var i := FirstUsable(pods[k], st.nodes, st.powerOnsUsed, c, 0);
    if i < |nodes| && !MigrationBlocked(pods[k], c) {
      TracksAssign(pods, nodes, c, k, st, i);
    } else {
      KeysGrow(pods, k);
    }
  }

  /** The greedy plan is feasible. */
  lemma GreedyFeasible(pods: seq<Pod>, nodes: seq<Node>, c: Constraints)
    requires Given(pods, nodes)
    ensures Feasible(pods, Cold(nodes), c, PlanAt(After(pods, nodes, c, |pods|)))
  {
    RunTracks(pods, nodes, c, |pods|);
  }

  /* ------------------------------------ Waking nodes ------------------------------------ */

  /** The flagged targets are exactly the offline nodes in use, each flagged by one assignment. */
  ghost predicate FlagsExactly(nodes: seq<Node>, out: SolverOutput) {
    && Flagged(out.assignments) == Woken(nodes, PlanFrom(out.assignments))
    && out.offlineNodesUsed == |Woken(nodes, PlanFrom(out.assignments))|
    && FlaggedOnce(out.assignments)
  }

  ghost predicate FlaggedOnce(assignments: map<Uid, Assignment>) {
    forall u, v {:trigger assignments[u].requiresWake, assignments[v].requiresWake} |
      && u in assignments && v in assignments
      && assignments[u].requiresWake && assignments[v].requiresWake
      && assignments[u].targetNode == assignments[v].targetNode :: u == v
  }

  lemma FlaggedOnceAssign(assignments: map<Uid, Assignment>, u: Uid, a: Assignment)
    requires FlaggedOnce(assignments) && u !in assignments
    requires a.requiresWake ==> a.targetNode !in Flagged(assignments)
    ensures FlaggedOnce(assignments[u := a])
  {
    forall v | v in assignments && assignments[v].requiresWake
      ensures assignments[v].targetNode in Flagged(assignments)
    {
    }
  }

  lemma FlagsAssign(pods: seq<Pod>, nodes: seq<Node>, c: Constraints, k: nat, st: Run, i: nat)
    requires Given(pods, nodes) && k < |pods| && Tracks(pods, nodes, c, k, st) && i < |nodes|
    requires FlagsExactly(nodes, st.out)
    ensures FlagsExactly(nodes, Assigned(st, pods[k], i).out)
  {
    var plan, u := PlanAt(st), pods[k].uid;
    var a := Assigned(st, pods[k], i).out.assignments[u];
    assert st.nodes[i] == Tracked(pods, nodes[i], plan);
    LaterUid(pods, k, k);
    AssignPlan(st, pods[k], i);
    WokenAssign(nodes, plan, u, i);
    FlaggedAssign(st.out.assignments, u, a);
    FlaggedOnceAssign(st.out.assignments, u, a);
  }

  lemma WokenAssign(nodes: seq<Node>, plan: Plan, u: Uid, i: nat)
    requires DistinctNames(nodes) && i < |nodes| && u !in plan
    ensures var wakes := NeedsWake(nodes[i]) && !Uses(plan, nodes[i].name);
      && Woken(nodes, plan[u := nodes[i].name]) == Woken(nodes, plan) + (if wakes then {nodes[i].name} else {})
      && (nodes[i].name in Woken(nodes, plan) <==> NeedsWake(nodes[i]) && Uses(plan, nodes[i].name))
  {
    ColdNames(nodes);
    var m := Cold(nodes)[i];
    assert m in Cold(nodes) && m.name == nodes[i].name && m.isOffline == NeedsWake(nodes[i]);
    WakesAssign(Cold(nodes), plan, u, m);
    forall n | n in Cold(nodes) && n.name == m.name ensures n == m {
      NameIdentifies(Cold(nodes), n, m);
    }
  }

  lemma FlagsStep(pods: seq<Pod>, nodes: seq<Node>, c: Constraints, k: nat, st: Run)
    requires Given(pods, nodes) && k < |pods| && Tracks(pods, nodes, c, k, st) && FlagsExactly(nodes, st.out)
    ensures FlagsExactly(nodes, Placed(st, pods[k], c).out)
  {
    var i := FirstUsable(pods[k], st.nodes, st.powerOnsUsed, c, 0);
    if i < |nodes| && !MigrationBlocked(pods[k], c) {
      FlagsAssign(pods, nodes, c, k, st, i);
    }
  }

  lemma {:induction false} GreedyFlags(pods: seq<Pod>, nodes: seq<Node>, c: Constraints, k: nat)
    requires Given(pods, nodes) && k <= |pods|
    ensures FlagsExactly(nodes, After(pods, nodes, c, k).out)
  {
    if k == 0 {
      EmptyPlanFeasible(pods, Cold(nodes), c);
      assert PlanAt(Begin(nodes, c)) == map[];
    } else {
      RunTracks(pods, nodes, c, k - 1);
      GreedyFlags(pods, nodes, c, k - 1);
      FlagsStep(pods, nodes, c, k - 1, After(pods, nodes, c, k - 1));
    }
  }

  /** The recorded set of used nodes is the set of targets. */
  lemma {:induction false} GreedyNodesUsed(pods: seq<Pod>, nodes: seq<Node>, c: Constraints, k: nat)
    requires DistinctUids(pods) && k <= |pods|
    ensures var out := After(pods, nodes, c, k).out;
      && out.assignments.Keys <= Uids(pods[..k])
      && forall n: Name :: n in out.nodesUsed <==> Uses(PlanFrom(out.assignments), n)
  {
    if k > 0 {
      GreedyNodesUsed(pods, nodes, c, k - 1);
      var st, pod := After(pods, nodes, c, k - 1), pods[k - 1];
      var i := FirstUsable(pod, st.nodes, st.powerOnsUsed, c, 0);
      LaterUid(pods, k - 1, k - 1);
      KeysGrow(pods, k - 1);
      if i < |st.nodes| && !MigrationBlocked(pod, c) {
        AssignPlan(st, pod, i);
        forall n: Name ensures Uses(PlanAt(Assigned(st, pod, i)), n) <==> Uses(PlanAt(st), n) || n == st.nodes[i].name {
          UsesAssign(PlanAt(st), pod.uid, st.nodes[i].name, n);
        }
      }
    }
  }

  /* -------------------------------------- The total -------------------------------------- */

  /** Pods placed on woken nodes. */
  ghost function HostedOnWoken(pods: seq<Pod>, nodes: seq<Node>, plan: Plan): real {
    Sum(pods, OnAny(plan, Woken(nodes, plan)))
  }

  /** Every pod on a woken node but the first collects the ready-node bonus the node as given does
      not earn. */
  ghost function Excess(pods: seq<Pod>, nodes: seq<Node>, plan: Plan): real {
    CONSOLIDATION_BONUS * (HostedOnWoken(pods, nodes, plan) - |Woken(nodes, plan)| as real)
  }

  lemma HostedAssign(pods: seq<Pod>, nodes: seq<Node>, plan: Plan, k: nat, i: nat)
    requires DistinctUids(pods) && DistinctNames(nodes) && k < |pods| && i < |nodes| && pods[k].uid !in plan
    ensures HostedOnWoken(pods, nodes, plan[pods[k].uid := nodes[i].name])
         == HostedOnWoken(pods, nodes, plan) + if NeedsWake(nodes[i]) then 1.0 else 0.0
  {
    var after := plan[pods[k].uid := nodes[i].name];
    var f, g := OnAny(plan, Woken(nodes, plan)), OnAny(after, Woken(nodes, after));
    WokenAssign(nodes, plan, pods[k].uid, i);
    forall j | 0 <= j < |pods| && j != k ensures Value(f, pods[j]) == Value(g, pods[j]) {
      assert pods[j].uid != pods[k].uid;
      if pods[j].uid in plan && plan[pods[j].uid] == nodes[i].name {
        assert Uses(plan, nodes[i].name);
      }
    }
    SumUpdate(pods, f, g, k);
  }

  ghost predicate TotalIs(pods: seq<Pod>, nodes: seq<Node>, out: SolverOutput) {
    var plan := PlanFrom(out.assignments);
    out.totalScore == PlanScore(pods, nodes, plan) + Excess(pods, nodes, plan)
  }

  lemma TotalAssign(pods: seq<Pod>, nodes: seq<Node>, c: Constraints, k: nat, st: Run, i: nat)
    requires Given(pods, nodes) && k < |pods| && Tracks(pods, nodes, c, k, st) && i < |nodes|
    requires Usable(pods[k], st.nodes[i], st.powerOnsUsed, c)
    requires TotalIs(pods, nodes, st.out)
    ensures TotalIs(pods, nodes, Assigned(st, pods[k], i).out)
  {
    var plan := PlanAt(st);
    assert st.nodes[i] == Tracked(pods, nodes[i], plan);
    AssignPlan(st, pods[k], i);
    AssignFeasible(pods, nodes, c, k, st, i);
    PlanScoreAssign(pods, nodes, plan, k, nodes[i]);
    HostedAssign(pods, nodes, plan, k, i);
  }

  /** Greedy's total is the score of its own plan plus 100 for every pod on a woken node beyond the
      first. */
  lemma {:induction false} GreedyTotal(pods: seq<Pod>, nodes: seq<Node>, c: Constraints, k: nat)
    requires Given(pods, nodes) && k <= |pods|
    ensures TotalIs(pods, nodes, After(pods, nodes, c, k).out)
  {
    if k == 0 {
      EmptyPlanFeasible(pods, Cold(nodes), c);
      assert PlanAt(Begin(nodes, c)) == map[];
      SumZero(pods, ScoreIn(map[], nodes));
      SumZero(pods, OnAny(map[], {}));
    } else {
      RunTracks(pods, nodes, c, k - 1);
      GreedyTotal(pods, nodes, c, k - 1);
      TotalStep(pods, nodes, c, k - 1, After(pods, nodes, c, k - 1));
    }
  }

  lemma TotalStep(pods: seq<Pod>, nodes: seq<Node>, c: Constraints, k: nat, st: Run)
    requires Given(pods, nodes) && k < |pods| && Tracks(pods, nodes, c, k, st) && TotalIs(pods, nodes, st.out)
    ensures TotalIs(pods, nodes, Placed(st, pods[k], c).out)
  {
    var i := FirstUsable(pods[k], st.nodes, st.powerOnsUsed, c, 0);
    if i < |nodes| && !MigrationBlocked(pods[k], c) {
      TotalAssign(pods, nodes, c, k, st, i);
    }
  }

  ghost predicate RecordsAddUp(pods: seq<Pod>, k: nat, out: SolverOutput)
    requires k <= |pods|
  {
    out.assignments.Keys <= Uids(pods[..k]) && out.totalScore == Sum(pods, RecordedIn(ScoresOf(out.assignments)))
  }

  /** And it is the sum of the scores it recorded. */
  lemma {:induction false} GreedyRecords(pods: seq<Pod>, nodes: seq<Node>, c: Constraints, k: nat)
    requires DistinctUids(pods) && k <= |pods|
    ensures RecordsAddUp(pods, k, After(pods, nodes, c, k).out)
  {
    if k == 0 {
      SumZero(pods, RecordedIn(ScoresOf(map[])));
    } else {
      GreedyRecords(pods, nodes, c, k - 1);
      RecordNext(pods, nodes, c, k);
    }
  }

  lemma RecordNext(pods: seq<Pod>, nodes: seq<Node>, c: Constraints, k: nat)
    requires DistinctUids(pods) && 0 < k <= |pods| && RecordsAddUp(pods, k - 1, After(pods, nodes, c, k - 1).out)
    ensures RecordsAddUp(pods, k, After(pods, nodes, c, k).out)
  {
    RecordStep(pods, c, k - 1, After(pods, nodes, c, k - 1));
  }

  lemma RecordStep(pods: seq<Pod>, c: Constraints, k: nat, st: Run)
    requires DistinctUids(pods) && k < |pods|
    requires RecordsAddUp(pods, k, st.out)
    ensures RecordsAddUp(pods, k + 1, Placed(st, pods[k], c).out)
  {
    var i := FirstUsable(pods[k], st.nodes, st.powerOnsUsed, c, 0);
    LaterUid(pods, k, k);
    KeysGrow(pods, k);
    if i < |st.nodes| && !MigrationBlocked(pods[k], c) {
      RecordOne(pods, k, st.out.assignments, Assigned(st, pods[k], i).out.assignments[pods[k].uid]);
    }
  }

  lemma RecordOne(pods: seq<Pod>, k: nat, assignments: map<Uid, Assignment>, a: Assignment)
    requires DistinctUids(pods) && k < |pods| && pods[k].uid !in assignments
    ensures Sum(pods, RecordedIn(ScoresOf(assignments[pods[k].uid := a])))
         == Sum(pods, RecordedIn(ScoresOf(assignments))) + a.score
  {
    var f, g := RecordedIn(ScoresOf(assignments)), RecordedIn(ScoresOf(assignments[pods[k].uid := a]));
    forall j | 0 <= j < |pods| && j != k ensures Value(f, pods[j]) == Value(g, pods[j]) {
      assert pods[j].uid != pods[k].uid;
    }
    SumUpdate(pods, f, g, k);
  }

  /** Each score recorded is that of the node as given, and the ready-node bonus where an earlier pod woke
      the node. */
  ghost predicate ScoresExplained(pods: seq<Pod>, nodes: seq<Node>, assignments: map<Uid, Assignment>) {
    forall p | p in pods && p.uid in assignments :: Explained(p, nodes, assignments[p.uid])
  }

  ghost predicate Explained(p: Pod, nodes: seq<Node>, a: Assignment) {
    && a.targetNode in Names(nodes)
    && var n := Named(nodes, a.targetNode);
       a.score == AssignmentScore(p, n) + if NeedsWake(n) && !a.requiresWake then CONSOLIDATION_BONUS else 0.0
  }

  lemma {:induction false} GreedyScores(pods: seq<Pod>, nodes: seq<Node>, c: Constraints, k: nat)
    requires Given(pods, nodes) && k <= |pods|
    ensures ScoresExplained(pods, nodes, After(pods, nodes, c, k).out.assignments)
  {
    if k == 0 {
      ScoresBegin(pods, nodes, c);
    } else {
      var st := After(pods, nodes, c, k - 1);
      RunTracks(pods, nodes, c, k - 1);
      GreedyScores(pods, nodes, c, k - 1);
      ScoresStep(pods, nodes, c, k - 1, st);
      assert After(pods, nodes, c, k) == Placed(st, pods[k - 1], c);
    }
  }

  lemma ScoresBegin(pods: seq<Pod>, nodes: seq<Node>, c: Constraints)
    ensures ScoresExplained(pods, nodes, Begin(nodes, c).out.assignments)
  {
  }

  lemma ScoresStep(pods: seq<Pod>, nodes: seq<Node>, c: Constraints, k: nat, st: Run)
    requires Given(pods, nodes) && k < |pods| && Tracks(pods, nodes, c, k, st)
    requires ScoresExplained(pods, nodes, st.out.assignments)
    ensures ScoresExplained(pods, nodes, Placed(st, pods[k], c).out.assignments)
  {
    var i := FirstUsable(pods[k], st.nodes, st.powerOnsUsed, c, 0);
    if i < |nodes| && !MigrationBlocked(pods[k], c) {
      var a := Assigned(st, pods[k], i).out.assignments[pods[k].uid];
      assert st.nodes[i] == Tracked(pods, nodes[i], PlanAt(st));
      NamedIs(nodes, nodes[i]);
      assert Explained(pods[k], nodes, a);
      forall p | p in pods && p.uid == pods[k].uid ensures p == pods[k] {
        var j :| 0 <= j < |pods| && pods[j] == p;
        assert j == k;
      }
    }
  }

  /* ------------------------------------ Conservation ------------------------------------ */

  /** Every pod tried so far is assigned or listed. */
  lemma {:induction false} GreedyAccounts(pods: seq<Pod>, nodes: seq<Node>, c: Constraints, k: nat)
    requires DistinctUids(pods) && k <= |pods|
    ensures Accounted(pods[..k], After(pods, nodes, c, k).out)
  {
    if k == 0 {
      AccountBegin(pods, nodes, c);
    } else {
      GreedyAccounts(pods, nodes, c, k - 1);
      AccountNext(pods, nodes, c, k);
    }
  }

  lemma AccountNext(pods: seq<Pod>, nodes: seq<Node>, c: Constraints, k: nat)
    requires DistinctUids(pods) && 0 < k <= |pods| && Accounted(pods[..k - 1], After(pods, nodes, c, k - 1).out)
    ensures Accounted(pods[..k], After(pods, nodes, c, k).out)
  {
    AccountStep(pods, c, k - 1, After(pods, nodes, c, k - 1));
  }

  lemma AccountBegin(pods: seq<Pod>, nodes: seq<Node>, c: Constraints)
    ensures Accounted(pods[..0], Begin(nodes, c).out)
  {
    assert PlanAt(Begin(nodes, c)) == map[];
  }

  lemma AccountStep(pods: seq<Pod>, c: Constraints, k: nat, st: Run)
    requires DistinctUids(pods) && k < |pods| && Accounted(pods[..k], st.out)
    ensures Accounted(pods[..k + 1], Placed(st, pods[k], c).out)
  {
    var plan, entries := PlanAt(st), st.out.unassignedPods;
    var i := FirstUsable(pods[k], st.nodes, st.powerOnsUsed, c, 0);
    LaterUid(pods, k, k);
    KeysGrow(pods, k);
    assert forall p | p in pods[..k + 1] :: p in pods[..k] || p == pods[k];
    assert forall p | p in pods[..k] :: p.uid in Uids(pods[..k]);
    if i == |st.nodes| {
      RestAfterRefusal(pods, k, plan, entries, RefusalReason(pods[k], st.nodes, st.powerOnsUsed, c));
    } else if MigrationBlocked(pods[k], c) {
      RestAfterRefusal(pods, k, plan, entries, MigrationBudget);
    } else {
      AssignPlan(st, pods[k], i);
      RestAfterAssign(pods, k, plan, st.nodes[i].name, entries);
    }
  }

  /* ------------------------------- Maximality and diagnosis ------------------------------- */

  /** Capacity only shrinks and power-ons only grow: what is unusable stays unusable. */
  lemma UnusableStays(st: Run, pod: Pod, c: Constraints, other: Pod, n: nat)
    requires n < |st.nodes| && !Usable(other, st.nodes[n], st.powerOnsUsed, c)
    ensures var st' := Placed(st, pod, c);
      |st'.nodes| == |st.nodes| && !Usable(other, st'.nodes[n], st'.powerOnsUsed, c)
  {
  }

  lemma {:induction false} UnusableToTheEnd(pods: seq<Pod>, nodes: seq<Node>, c: Constraints, j: nat, k: nat,
                                            pod: Pod, n: nat)
    requires j <= k <= |pods| && |After(pods, nodes, c, j).nodes| == |nodes| && n < |nodes|
    requires !Usable(pod, After(pods, nodes, c, j).nodes[n], After(pods, nodes, c, j).powerOnsUsed, c)
    ensures |After(pods, nodes, c, k).nodes| == |nodes|
    ensures !Usable(pod, After(pods, nodes, c, k).nodes[n], After(pods, nodes, c, k).powerOnsUsed, c)
    decreases k
  {
    if j < k {
      UnusableToTheEnd(pods, nodes, c, j, k - 1, pod, n);
      UnusableStays(After(pods, nodes, c, k - 1), pods[k - 1], c, pod, n);
    }
  }

  /** No node could take pod j when its turn came. */
  ghost predicate NoNodeUsable(pods: seq<Pod>, nodes: seq<Node>, c: Constraints, j: nat)
    requires j < |pods|
  {
    var st := After(pods, nodes, c, j);
    FirstUsable(pods[j], st.nodes, st.powerOnsUsed, c, 0) == |st.nodes|
  }

  lemma {:induction false} RefusedStaysUnassigned(pods: seq<Pod>, nodes: seq<Node>, c: Constraints, j: nat, k: nat)
    requires DistinctUids(pods) && j < k <= |pods| && NoNodeUsable(pods, nodes, c, j)
    ensures pods[j].uid !in After(pods, nodes, c, k).out.assignments
  {
    if j == k - 1 {
      GreedyNodesUsed(pods, nodes, c, j);
      LaterUid(pods, j, j);
    } else {
      RefusedStaysUnassigned(pods, nodes, c, j, k - 1);
      assert pods[j].uid != pods[k - 1].uid;
    }
  }

  lemma RefusedToTheEnd(pods: seq<Pod>, nodes: seq<Node>, c: Constraints, j: nat, n: nat)
    requires Given(pods, nodes) && j < |pods| && n < |nodes| && NoNodeUsable(pods, nodes, c, j)
    ensures |After(pods, nodes, c, |pods|).nodes| == |nodes|
    ensures !Usable(pods[j], After(pods, nodes, c, |pods|).nodes[n], After(pods, nodes, c, |pods|).powerOnsUsed, c)
  {
    RunTracks(pods, nodes, c, j);
    UnusableToTheEnd(pods, nodes, c, j, |pods|, pods[j], n);
  }

  /** A pod that no node could take when its turn came, rebalancing or not, stays without an assignment,
      and fits nowhere at the end either: adding it to the final plan, on any node, is infeasible. */
  lemma GreedyMaximal(pods: seq<Pod>, nodes: seq<Node>, c: Constraints, j: nat, n: nat)
    requires Given(pods, nodes) && j < |pods| && n < |nodes| && NoNodeUsable(pods, nodes, c, j)
    ensures pods[j].uid !in After(pods, nodes, c, |pods|).out.assignments
    ensures !Feasible(pods, Cold(nodes), c, PlanAt(After(pods, nodes, c, |pods|))[pods[j].uid := nodes[n].name])
  {
    var last := After(pods, nodes, c, |pods|);
    RefusedStaysUnassigned(pods, nodes, c, j, |pods|);
    RefusedToTheEnd(pods, nodes, c, j, n);
    RunTracks(pods, nodes, c, |pods|);
    UsableIsUnblocked(pods, nodes, c, |pods|, last, j, n);
    ColdNames(nodes);
    BlockedIsInfeasible(pods, Cold(nodes), c, PlanAt(last), j, n);
  }

  lemma {:induction false} AssignedStays(pods: seq<Pod>, nodes: seq<Node>, c: Constraints, j: nat, k: nat)
    requires j <= k <= |pods|
    ensures After(pods, nodes, c, j).out.assignments.Keys <= After(pods, nodes, c, k).out.assignments.Keys
    decreases k
  {
    if j < k {
      AssignedStays(pods, nodes, c, j, k - 1);
    }
  }

  /** A pod ends up without an assignment exactly when no node could take it at its turn, or the migration
      budget stopped it. */
  lemma UnassignedIff(pods: seq<Pod>, nodes: seq<Node>, c: Constraints, j: nat)
    requires DistinctUids(pods) && j < |pods|
    ensures pods[j].uid !in After(pods, nodes, c, |pods|).out.assignments
       <==> NoNodeUsable(pods, nodes, c, j) || MigrationBlocked(pods[j], c)
  {
    if NoNodeUsable(pods, nodes, c, j) {
      RefusedStaysUnassigned(pods, nodes, c, j, |pods|);
    } else if MigrationBlocked(pods[j], c) {
      BlockedStaysUnassigned(pods, nodes, c, j, |pods|);
    } else {
      AssignedStays(pods, nodes, c, j + 1, |pods|);
      assert After(pods, nodes, c, j + 1) == Placed(After(pods, nodes, c, j), pods[j], c);
    }
  }

  lemma {:induction false} BlockedStaysUnassigned(pods: seq<Pod>, nodes: seq<Node>, c: Constraints, j: nat, k: nat)
    requires DistinctUids(pods) && j < k <= |pods| && MigrationBlocked(pods[j], c)
    ensures pods[j].uid !in After(pods, nodes, c, k).out.assignments
  {
    if j == k - 1 {
      GreedyNodesUsed(pods, nodes, c, j);
      LaterUid(pods, j, j);
    } else {
      BlockedStaysUnassigned(pods, nodes, c, j, k - 1);
      assert pods[j].uid != pods[k - 1].uid;
    }
  }

  /** The reason recorded: migration budget when some node was usable; otherwise power budget exactly
      when some node had room, and no capacity when none had. */
  lemma GreedyDiagnosis(st: Run, pod: Pod, c: Constraints)
    ensures var usable := exists n | 0 <= n < |st.nodes| :: Usable(pod, st.nodes[n], st.powerOnsUsed, c);
      var roomy := exists n | 0 <= n < |st.nodes| :: CanFit(pod, st.nodes[n]);
      var entries := Placed(st, pod, c).out.unassignedPods;
      if usable && !MigrationBlocked(pod, c) then
        entries == st.out.unassignedPods && pod.uid in Placed(st, pod, c).out.assignments
      else
        entries == st.out.unassignedPods + [UnassignedPod(pod.namespace, pod.name,
          if usable then MigrationBudget else if roomy then PowerBudget else NoCapacity)]
  {
    var i := FirstUsable(pod, st.nodes, st.powerOnsUsed, c, 0);
    if i < |st.nodes| {
      assert Usable(pod, st.nodes[i], st.powerOnsUsed, c);
    }
  }

  /* ---------------------------------- Ready nodes first ---------------------------------- */

  /** When a pod makes greedy wake a node, or is refused, no node that was ready in the input had
      room for it, then or at the end. */
  lemma WakesOnlyWhenNeeded(pods: seq<Pod>, nodes: seq<Node>, c: Constraints, j: nat, n: nat)
    requires Given(pods, nodes) && PreferenceOrdered(nodes) && j < |pods| && n < |nodes| && nodes[n].isReady
    requires var st := After(pods, nodes, c, j);
      var i := FirstUsable(pods[j], st.nodes, st.powerOnsUsed, c, 0);
      i == |st.nodes| || NeedsWake(st.nodes[i])
    ensures |After(pods, nodes, c, |pods|).nodes| == |nodes|
    ensures !CanFit(pods[j], After(pods, nodes, c, |pods|).nodes[n])
  {
    var st := After(pods, nodes, c, j);
    var i := FirstUsable(pods[j], st.nodes, st.powerOnsUsed, c, 0);
    RunTracks(pods, nodes, c, j);
    RunTracks(pods, nodes, c, |pods|);
    assert st.nodes[n] == Tracked(pods, nodes[n], PlanAt(st));
    if i < |nodes| {
      assert st.nodes[i] == Tracked(pods, nodes[i], PlanAt(st));
      if i < n {
        assert PreferredBefore(nodes[n], nodes[i]);
      }
    }
    assert !Usable(pods[j], st.nodes[n], st.powerOnsUsed, c);
    UnusableToTheEnd(pods, nodes, c, j, |pods|, pods[j], n);
    var last := After(pods, nodes, c, |pods|);
    assert last.nodes[n] == Tracked(pods, nodes[n], PlanAt(last));
  }

  /* ------------------------------ The result on the input ------------------------------ */

  /** The identities are distinct, and nodes come with their whole capacity. */
  ghost predicate WellFormed(input: SolverInput) {
    DistinctUids(input.pods) && DistinctNames(input.nodes) && FullCapacity(input.nodes)
  }

  /** The candidate nodes, scored. */
  function Candidates(input: SolverInput): seq<Node> {
    Scored(input.nodes)
  }

  lemma SameCold(nodes: seq<Node>, nodes': seq<Node>)
    requires forall n :: n in nodes <==> n in nodes'
    ensures forall n :: n in Cold(nodes) <==> n in Cold(nodes')
  {
    SubCold(nodes, nodes');
    SubCold(nodes', nodes);
  }

  lemma SubCold(nodes: seq<Node>, nodes': seq<Node>)
    requires forall n | n in nodes :: n in nodes'
    ensures forall n | n in Cold(nodes) :: n in Cold(nodes')
  {
    forall n | n in Cold(nodes) ensures n in Cold(nodes') {
      var i :| 0 <= i < |nodes| && Cold(nodes)[i] == n;
      assert nodes[i] in nodes;
      var j :| 0 <= j < |nodes'| && nodes'[j] == nodes[i];
      assert Cold(nodes')[j] == n;
    }
  }

  lemma OrderGiven(input: SolverInput, pods: seq<Pod>, nodes: seq<Node>)
    requires WellFormed(input) && DemandOrder(input.pods, pods) && PreferenceOrder(Candidates(input), nodes)
    ensures Given(input.pods, Candidates(input)) && Given(pods, nodes)
    ensures forall n :: n in nodes <==> n in Candidates(input)
    ensures forall n :: n in Cold(nodes) <==> n in Cold(Candidates(input))
  {
    DistinctUidsReorder(input.pods, pods);
    DistinctNamesReorder(Candidates(input), nodes);
    SameMembers(Candidates(input), nodes);
    SameCold(Candidates(input), nodes);
  }

  /** What greedy promises in terms of the input alone: a feasible plan, every pod accounted for, the
      right nodes flagged, and its total. */
  ghost predicate GreedyPromise(input: SolverInput, out: SolverOutput) {
    var plan, nodes := PlanFrom(out.assignments), Candidates(input);
    && Feasible(input.pods, Cold(nodes), input.constraints, plan)
    && Accounted(input.pods, out)
    && FlagsExactly(nodes, out)
    && (forall n: Name :: n in out.nodesUsed <==> Uses(plan, n))
    && out.totalScore == PlanScore(input.pods, nodes, plan) + Excess(input.pods, nodes, plan)
    && out.totalScore == Sum(input.pods, RecordedIn(ScoresOf(out.assignments)))
  }

  /** What a tick relies on: the plan is feasible, and the flagged nodes are exactly those in use that need a
      wake, and are counted right. */
  ghost predicate SafeToApply(input: SolverInput, out: SolverOutput) {
    && Feasible(input.pods, Cold(Candidates(input)), input.constraints, PlanFrom(out.assignments))
    && Flagged(out.assignments) == Woken(Candidates(input), PlanFrom(out.assignments))
    && out.offlineNodesUsed == |Flagged(out.assignments)|
  }

  lemma GreedyKeepsPromise(input: SolverInput, pods: seq<Pod>, order: seq<Node>, out: SolverOutput)
    requires WellFormed(input) && Outcome(input, pods, order, out)
    ensures GreedyPromise(input, out)
  {
    var plan, nodes, c := PlanFrom(out.assignments), Candidates(input), input.constraints;
    OrderGiven(input, pods, order);
    assert Feasible(input.pods, Cold(nodes), c, plan) && Woken(nodes, plan) == Woken(order, plan) by {
      GreedyFeasible(pods, order, c);
      FeasibleReorder(input.pods, pods, Cold(nodes), Cold(order), c, plan);
    }
    assert Accounted(input.pods, out) by {
      GreedyAccounts(pods, order, c, |pods|);
      assert pods[..|pods|] == pods;
      AccountedReorder(input.pods, pods, out);
    }
    GreedyFlags(pods, order, c, |pods|);
    GreedyNodesUsed(pods, order, c, |pods|);
    TotalOnInput(input, pods, order, out);
  }

  lemma TotalOnInput(input: SolverInput, pods: seq<Pod>, order: seq<Node>, out: SolverOutput)
    requires WellFormed(input) && Outcome(input, pods, order, out)
    requires var plan := PlanFrom(out.assignments); Woken(Candidates(input), plan) == Woken(order, plan)
    ensures var plan, nodes := PlanFrom(out.assignments), Candidates(input);
      && out.totalScore == PlanScore(input.pods, nodes, plan) + Excess(input.pods, nodes, plan)
      && out.totalScore == Sum(input.pods, RecordedIn(ScoresOf(out.assignments)))
  {
    var plan, nodes, c := PlanFrom(out.assignments), Candidates(input), input.constraints;
    OrderGiven(input, pods, order);
    GreedyRecords(pods, order, c, |pods|);
    SumPermutation(input.pods, pods, RecordedIn(ScoresOf(out.assignments)));
    GreedyTotal(pods, order, c, |pods|);
    PlanScoreReorder(input.pods, pods, nodes, order, plan);
    SumPermutation(input.pods, pods, OnAny(plan, Woken(nodes, plan)));
  }

  lemma ScoresOnInput(input: SolverInput, pods: seq<Pod>, order: seq<Node>, out: SolverOutput)
    requires WellFormed(input) && Outcome(input, pods, order, out)
    ensures ScoresExplained(input.pods, Candidates(input), out.assignments)
  {
    OrderGiven(input, pods, order);
    GreedyScores(pods, order, input.constraints, |pods|);
    SameMembers(input.pods, pods);
    forall p | p in input.pods && p.uid in out.assignments
      ensures Explained(p, Candidates(input), out.assignments[p.uid])
    {
      assert p in pods && Explained(p, order, out.assignments[p.uid]);
      NamedIs(Candidates(input), Named(order, out.assignments[p.uid].targetNode));
    }
  }

  /* ------------------------------ When greedy places nothing ------------------------------ */

  lemma SameEmpty<K, V>(m: map<K, V>)
    ensures m == map[] <==> m.Keys == {}
  {
    if m.Keys == {} {
      assert forall k :: k !in m.Keys;
    }
  }

  /** While nothing has been assigned, nothing has changed. */
  lemma {:induction false} UntouchedWhileEmpty(pods: seq<Pod>, nodes: seq<Node>, c: Constraints, k: nat)
    requires k <= |pods| && After(pods, nodes, c, k).out.assignments == map[]
    ensures var st := After(pods, nodes, c, k); st.nodes == nodes && st.powerOnsUsed == c.currentPowerOnsInFlight
  {
    if k > 0 {
      AssignedStays(pods, nodes, c, k - 1, k);
      var st := After(pods, nodes, c, k - 1);
      SameEmpty(st.out.assignments);
      UntouchedWhileEmpty(pods, nodes, c, k - 1);
      assert After(pods, nodes, c, k) == Placed(st, pods[k - 1], c);
      assert pods[k - 1].uid !in After(pods, nodes, c, k).out.assignments;
    }
  }

  /** The pod cannot be placed even before any other is. */
  ghost predicate Hopeless(p: Pod, nodes: seq<Node>, c: Constraints) {
    MigrationBlocked(p, c) || forall n | n in nodes :: !Usable(p, n, c.currentPowerOnsInFlight, c)
  }

  lemma {:induction false} HopelessPlacesNothing(pods: seq<Pod>, nodes: seq<Node>, c: Constraints, k: nat)
    requires k <= |pods| && forall i | 0 <= i < k :: Hopeless(pods[i], nodes, c)
    ensures After(pods, nodes, c, k).out.assignments == map[]
  {
    if k > 0 {
      HopelessPlacesNothing(pods, nodes, c, k - 1);
      UntouchedWhileEmpty(pods, nodes, c, k - 1);
      var i := FirstUsable(pods[k - 1], nodes, c.currentPowerOnsInFlight, c, 0);
      assert i < |nodes| ==> nodes[i] in nodes;
    }
  }

  lemma FirstPlacement(st: Run, pod: Pod, nodes: seq<Node>, c: Constraints)
    requires st.nodes == nodes && st.powerOnsUsed == c.currentPowerOnsInFlight && !Hopeless(pod, nodes, c)
    ensures pod.uid in Placed(st, pod, c).out.assignments
  {
    var n :| n in nodes && Usable(pod, n, c.currentPowerOnsInFlight, c);
    var i :| 0 <= i < |nodes| && nodes[i] == n;
  }

  lemma KeyMeansSome<V>(m: map<Uid, V>, u: Uid)
    requires u in m
    ensures m != map[]
  {
  }

  lemma PlacesSomething(pods: seq<Pod>, nodes: seq<Node>, c: Constraints, k: nat)
    requires k < |pods| && !Hopeless(pods[k], nodes, c)
    ensures After(pods, nodes, c, |pods|).out.assignments != map[]
  {
    var st, last := After(pods, nodes, c, k), After(pods, nodes, c, |pods|).out.assignments;
    SameEmpty(st.out.assignments);
    if st.out.assignments.Keys == {} {
      UntouchedWhileEmpty(pods, nodes, c, k);
      FirstPlacement(st, pods[k], nodes, c);
      AssignedStays(pods, nodes, c, k + 1, |pods|);
      assert pods[k].uid in After(pods, nodes, c, k + 1).out.assignments.Keys;
      KeyMeansSome(last, pods[k].uid);
    } else {
      var u := SomeElement(st.out.assignments.Keys);
      AssignedStays(pods, nodes, c, k, |pods|);
      assert u in last.Keys;
      KeyMeansSome(last, u);
    }
  }

  /** Whether greedy places anything at all depends on no order: it does unless every pod is hopeless. */
  lemma GreedyEmptyIff(input: SolverInput, pods: seq<Pod>, order: seq<Node>, out: SolverOutput)
    requires Outcome(input, pods, order, out)
    ensures out.assignments == map[]
       <==> forall p | p in input.pods :: Hopeless(p, Candidates(input), input.constraints)
  {
    var nodes, c := Candidates(input), input.constraints;
    SameMembers(nodes, order);
    SameMembers(input.pods, pods);
    if forall p | p in input.pods :: Hopeless(p, nodes, c) {
      forall i | 0 <= i < |pods| ensures Hopeless(pods[i], order, c) {
        assert pods[i] in input.pods;
      }
      HopelessPlacesNothing(pods, order, c, |pods|);
    } else {
      var p :| p in input.pods && !Hopeless(p, nodes, c);
      var k :| 0 <= k < |pods| && pods[k] == p;
      PlacesSomething(pods, order, c, k);
    }
  }
}
