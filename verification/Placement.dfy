/**
 The placement problem every solver works on: gated pods with CPU and memory requests, candidate
 nodes with allocatable capacity, and a power budget. A plan maps pod UIDs to node names, so
 feasibility and score depend neither on the order in which pods are considered nor on the order in
 which nodes are listed.
 */
module Placement {
  import opened Options

  /** A pair of resource quantities. Quantities are exact decimals, hence reals. */
  datatype Amount = Amount(cpu: real, mem: real) {
    function Plus(other: Amount): Amount {
      Amount(cpu + other.cpu, mem + other.mem)
    }

    function Minus(other: Amount): Amount {
      Amount(cpu - other.cpu, mem - other.mem)
    }

    predicate FitsIn(room: Amount) {
      cpu <= room.cpu && mem <= room.mem
    }

    predicate NonNegative() {
      0.0 <= cpu && 0.0 <= mem
    }
  }

  const ZERO := Amount(0.0, 0.0)

  /** What a pod requests and what a node offers is never negative. */
  type Demand = a: Amount | a.NonNegative() witness ZERO

  /** UIDs and names are only ever compared: for equality, and names for order. A string's place in
      the lexicographic order is all that matters, so that is what stands for it. */
  type Uid = int
  type Name = int

  datatype Pod = Pod(
    uid: Uid, namespace: Name, name: Name,
    request: Demand, preferredNode: Option<Name>, isRebalancingMove: bool)

  /** `policyScore` is what the active policy's multipliers give this node; `baseScore` and
      `normalizedScore` are the fields the solvers fill in. */
  datatype Node = Node(
    name: Name, allocatable: Demand, remaining: Amount,
    policyScore: real, baseScore: real, normalizedScore: real,
    isReady: bool, isOffline: bool)

  datatype Constraints = Constraints(
    maxConcurrentPowerOns: int, currentPowerOnsInFlight: nat,
    maxMigrationsPerHour: int, migrationsThisHour: int)
  {
    predicate CanMigrate() {
      migrationsThisHour < maxMigrationsPerHour
    }
  }

  datatype SolverInput = SolverInput(pods: seq<Pod>, nodes: seq<Node>, constraints: Constraints)

  type Plan = map<Uid, Name>

  ghost predicate DistinctUids(pods: seq<Pod>) {
    forall i, j {:trigger pods[i].uid, pods[j].uid} | 0 <= i < j < |pods| :: pods[i].uid != pods[j].uid
  }

  ghost predicate DistinctNames(nodes: seq<Node>) {
    forall i, j {:trigger nodes[i].name, nodes[j].name} | 0 <= i < j < |nodes| :: nodes[i].name != nodes[j].name
  }

  ghost function Uids(pods: seq<Pod>): set<Uid> { set p | p in pods :: p.uid }

  ghost function Names(nodes: seq<Node>): set<Name> { set n | n in nodes :: n.name }

  lemma LaterUid(pods: seq<Pod>, k: nat, i: nat)
    requires DistinctUids(pods) && k <= i < |pods|
    ensures pods[i].uid !in Uids(pods[..k])
  {
    forall p | p in pods[..k] ensures p.uid != pods[i].uid {
      var j :| 0 <= j < k && pods[j] == p;
      assert pods[j].uid != pods[i].uid;
    }
  }

  lemma KeysGrow(pods: seq<Pod>, k: nat)
    requires k < |pods|
    ensures Uids(pods[..k + 1]) == Uids(pods[..k]) + {pods[k].uid}
  {
    assert pods[..k + 1] == pods[..k] + [pods[k]];
    assert pods[k] in pods[..k + 1];
  }

  /* ---------------------------------- Scores ---------------------------------- */

  const CONSOLIDATION_BONUS := 100.0
  const REBALANCING_BONUS := 50.0

  function AssignmentScore(pod: Pod, node: Node): real {
    node.baseScore
    + (if node.isReady then CONSOLIDATION_BONUS else 0.0)
    + (if pod.preferredNode == Some(node.name) then REBALANCING_BONUS else 0.0)
  }

  /** Between nodes of equal base score a ready one wins, whichever the pod prefers; between two alike in
      that, the preferred one does, by 50. */
  lemma ReadinessOutranksPreference(pod: Pod, a: Node, b: Node)
    requires a.baseScore == b.baseScore
    ensures var prefersA, prefersB := pod.preferredNode == Some(a.name), pod.preferredNode == Some(b.name);
      && (AssignmentScore(pod, a) > AssignmentScore(pod, b)
          <==> (a.isReady && !b.isReady) || (a.isReady == b.isReady && prefersA && !prefersB))
      && (a.isReady == b.isReady && prefersA && !prefersB ==> AssignmentScore(pod, a) == AssignmentScore(pod, b) + 50.0)
  {
  }

  ghost function Named(nodes: seq<Node>, name: Name): Node
    requires name in Names(nodes)
  {
    var n :| n in nodes && n.name == name;
    n
  }

  /* ---------------------------------- Sums over pods ---------------------------------- */

  /** What a pod can contribute to a sum: to the CPU or memory load of one node, to the score of a
      plan on the nodes as given, to the number of pods hosted on some nodes, to the number of pods
      of one name that have no place, or to a total of recorded scores. */
  datatype Measure =
    | CpuAt(plan: Plan, node: Name)
    | MemAt(plan: Plan, node: Name)
    | ScoreIn(plan: Plan, nodes: seq<Node>)
    | OnAny(plan: Plan, hosts: set<Name>)
    | Missing(plan: Plan, namespace: Name, name: Name)
    | RecordedIn(scores: map<Uid, real>)

  ghost predicate Hosted(p: Pod, plan: Plan, node: Name) {
    p.uid in plan && plan[p.uid] == node
  }

  ghost function Value(f: Measure, p: Pod): real {
    match f
    case CpuAt(plan, node) => if Hosted(p, plan, node) then p.request.cpu else 0.0
    case MemAt(plan, node) => if Hosted(p, plan, node) then p.request.mem else 0.0
    case ScoreIn(plan, nodes) =>
      if p.uid in plan && plan[p.uid] in Names(nodes)
      then AssignmentScore(p, Named(nodes, plan[p.uid])) else 0.0
    case OnAny(plan, hosts) => if p.uid in plan && plan[p.uid] in hosts then 1.0 else 0.0
    case Missing(plan, namespace, name) =>
      if p.uid !in plan && p.namespace == namespace && p.name == name then 1.0 else 0.0
    case RecordedIn(scores) => if p.uid in scores then scores[p.uid] else 0.0
  }

  ghost function Sum(pods: seq<Pod>, f: Measure): real {
    if pods == [] then 0.0 else Sum(pods[..|pods| - 1], f) + Value(f, pods[|pods| - 1])
  }

  lemma {:induction false} SumConcat(p: seq<Pod>, q: seq<Pod>, f: Measure)
    ensures Sum(p + q, f) == Sum(p, f) + Sum(q, f)
  {
    if q == [] {
      assert p + q == p;
    } else {
      SumConcat(p, q[..|q| - 1], f);
      assert (p + q)[..|p + q| - 1] == p + q[..|q| - 1];
    }
  }

  lemma SumRemove(p: seq<Pod>, j: nat, f: Measure)
    requires j < |p|
    ensures Sum(p, f) == Sum(p[..j] + p[j + 1..], f) + Value(f, p[j])
  {
    assert p == (p[..j] + [p[j]]) + p[j + 1..];
    SumConcat(p[..j] + [p[j]], p[j + 1..], f);
    SumConcat(p[..j], p[j + 1..], f);
    assert (p[..j] + [p[j]])[..j] == p[..j];
  }

  lemma MultisetRemove<T>(q: seq<T>, j: nat)
    requires j < |q|
    ensures multiset(q[..j] + q[j + 1..]) == multiset(q) - multiset{q[j]}
  {
    assert q == q[..j] + [q[j]] + q[j + 1..];
  }

  /** A sum over pods does not depend on their order. */
  lemma {:induction false} SumPermutation(p: seq<Pod>, q: seq<Pod>, f: Measure)
    requires multiset(p) == multiset(q)
    ensures Sum(p, f) == Sum(q, f)
  {
    if p == [] {
      assert |multiset(q)| == 0;
    } else {
      var k := |p| - 1;
      assert p[k] in multiset(q);
      var j :| 0 <= j < |q| && q[j] == p[k];
      MultisetRemove(p, k);
      MultisetRemove(q, j);
      assert p[..k] + p[k + 1..] == p[..k];
      SumPermutation(p[..k], q[..j] + q[j + 1..], f);
      SumRemove(q, j, f);
    }
  }

  lemma {:induction false} SumMonotone(p: seq<Pod>, f: Measure, g: Measure)
    requires forall i | 0 <= i < |p| :: Value(f, p[i]) <= Value(g, p[i])
    ensures Sum(p, f) <= Sum(p, g)
  {
    if p != [] {
      SumMonotone(p[..|p| - 1], f, g);
    }
  }

  lemma SumCongruence(p: seq<Pod>, f: Measure, g: Measure)
    requires forall i | 0 <= i < |p| :: Value(f, p[i]) == Value(g, p[i])
    ensures Sum(p, f) == Sum(p, g)
  {
    SumMonotone(p, f, g);
    SumMonotone(p, g, f);
  }

  /** Changing the summand at one pod changes the sum by exactly that much. */
  lemma SumUpdate(p: seq<Pod>, f: Measure, g: Measure, j: nat)
    requires j < |p|
    requires forall i | 0 <= i < |p| && i != j :: Value(f, p[i]) == Value(g, p[i])
    ensures Sum(p, g) == Sum(p, f) - Value(f, p[j]) + Value(g, p[j])
  {
    SumRemove(p, j, f);
    SumRemove(p, j, g);
    var r := p[..j] + p[j + 1..];
    forall i | 0 <= i < |r| ensures Value(f, r[i]) == Value(g, r[i]) {
      assert r[i] == if i < j then p[i] else p[i + 1];
    }
    SumCongruence(r, f, g);
  }

  /* ------------------------------------- Capacity ------------------------------------- */

  ghost predicate Uses(plan: Plan, node: Name) {
    exists u :: u in plan && plan[u] == node
  }

  /** What the pods placed on `node` request together. */
  ghost function Load(pods: seq<Pod>, plan: Plan, node: Name): Amount {
    Amount(Sum(pods, CpuAt(plan, node)), Sum(pods, MemAt(plan, node)))
  }

  ghost function Share(request: Amount, here: bool): Amount {
    if here then request else ZERO
  }

  /** Placing (or re-placing) one pod moves exactly its request. */
  lemma LoadAssign(pods: seq<Pod>, plan: Plan, j: nat, target: Name, node: Name)
    requires DistinctUids(pods) && j < |pods|
    ensures Load(pods, plan[pods[j].uid := target], node)
         == Load(pods, plan, node)
            .Minus(Share(pods[j].request, Hosted(pods[j], plan, node)))
            .Plus(Share(pods[j].request, target == node))
  {
    var after := plan[pods[j].uid := target];
    var f, g, f', g' := CpuAt(plan, node), MemAt(plan, node), CpuAt(after, node), MemAt(after, node);
    HostedElsewhere(pods, plan, j, target, node);
    assert Sum(pods, f') == Sum(pods, f) - Value(f, pods[j]) + Value(f', pods[j]) by { SumUpdate(pods, f, f', j); }
    assert Sum(pods, g') == Sum(pods, g) - Value(g, pods[j]) + Value(g', pods[j]) by { SumUpdate(pods, g, g', j); }
  }

  lemma HostedElsewhere(pods: seq<Pod>, plan: Plan, j: nat, target: Name, node: Name)
    requires DistinctUids(pods) && j < |pods|
    ensures var after := plan[pods[j].uid := target];
      forall i | 0 <= i < |pods| && i != j ::
        && Value(CpuAt(plan, node), pods[i]) == Value(CpuAt(after, node), pods[i])
        && Value(MemAt(plan, node), pods[i]) == Value(MemAt(after, node), pods[i])
  {
    forall i | 0 <= i < |pods| && i != j
      ensures Hosted(pods[i], plan[pods[j].uid := target], node) == Hosted(pods[i], plan, node)
    {
      assert pods[i].uid != pods[j].uid;
    }
  }

  /** A plan that agrees with a larger one loads every node no more. */
  lemma LoadMonotone(pods: seq<Pod>, small: Plan, big: Plan, node: Name)
    requires forall i | 0 <= i < |pods| :: Hosted(pods[i], small, node) ==> Hosted(pods[i], big, node)
    ensures Load(pods, small, node).FitsIn(Load(pods, big, node))
  {
    SumMonotone(pods, CpuAt(small, node), CpuAt(big, node));
    SumMonotone(pods, MemAt(small, node), MemAt(big, node));
  }

  lemma LoadUnused(pods: seq<Pod>, plan: Plan, node: Name)
    requires forall i | 0 <= i < |pods| :: !Hosted(pods[i], plan, node)
    ensures Load(pods, plan, node) == ZERO
  {
    LoadMonotone(pods, plan, map[], node);
    LoadMonotone(pods, map[], plan, node);
    SumZero(pods, CpuAt(map[], node));
    SumZero(pods, MemAt(map[], node));
  }

  lemma {:induction false} SumZero(pods: seq<Pod>, f: Measure)
    requires forall i | 0 <= i < |pods| :: Value(f, pods[i]) == 0.0
    ensures Sum(pods, f) == 0.0
  {
    if pods != [] {
      SumZero(pods[..|pods| - 1], f);
    }
  }

  /** What the plan leaves of every node's capacity. */
  ghost function LeftOver(pods: seq<Pod>, nodes: seq<Node>, plan: Plan): seq<Amount> {
    seq(|nodes|, n requires 0 <= n < |nodes| => nodes[n].allocatable.Minus(Load(pods, plan, nodes[n].name)))
  }

  /* ------------------------------------ Feasibility ------------------------------------ */

  /** The offline nodes a plan uses: each of them has to be woken. */
  ghost function Wakes(nodes: seq<Node>, plan: Plan): set<Name> {
    set n | n in nodes && n.isOffline && Uses(plan, n.name) :: n.name
  }

  predicate WithinPowerBudget(c: Constraints, wakes: set<Name>) {
    |wakes| == 0 || c.currentPowerOnsInFlight + |wakes| <= c.maxConcurrentPowerOns
  }

  ghost predicate WellFormedPlan(pods: seq<Pod>, nodes: seq<Node>, plan: Plan) {
    plan.Keys <= Uids(pods) && forall u | u in plan :: plan[u] in Names(nodes)
  }

  ghost predicate WithinCapacity(pods: seq<Pod>, nodes: seq<Node>, plan: Plan) {
    forall n {:trigger Load(pods, plan, n.name)} | n in nodes :: Load(pods, plan, n.name).FitsIn(n.allocatable)
  }

  /** Capacity on every node, and the power budget: no mention of any order. */
  ghost predicate Feasible(pods: seq<Pod>, nodes: seq<Node>, c: Constraints, plan: Plan) {
    && WellFormedPlan(pods, nodes, plan)
    && WithinCapacity(pods, nodes, plan)
    && WithinPowerBudget(c, Wakes(nodes, plan))
  }

  lemma EmptyPlanFeasible(pods: seq<Pod>, nodes: seq<Node>, c: Constraints)
    ensures Feasible(pods, nodes, c, map[])
    ensures Wakes(nodes, map[]) == {}
    ensures forall n: Name :: Load(pods, map[], n) == ZERO
  {
    forall n: Name ensures Load(pods, map[], n) == ZERO {
      LoadUnused(pods, map[], n);
    }
    assert Wakes(nodes, map[]) == {};
  }

  lemma NameIdentifies(nodes: seq<Node>, a: Node, b: Node)
    requires DistinctNames(nodes) && a in nodes && b in nodes && a.name == b.name
    ensures a == b
  {
    var i :| 0 <= i < |nodes| && nodes[i] == a;
    var j :| 0 <= j < |nodes| && nodes[j] == b;
    assert nodes[i].name == nodes[j].name;
  }

  lemma UsesAssign(plan: Plan, uid: Uid, node: Name, other: Name)
    requires uid !in plan
    ensures Uses(plan[uid := node], other) <==> Uses(plan, other) || other == node
  {
    var after := plan[uid := node];
    assert uid in after && after[uid] == node;
    if Uses(plan, other) {
      var u :| u in plan && plan[u] == other;
      assert u in after && after[u] == other;
    }
  }

  lemma WakesAssign(nodes: seq<Node>, plan: Plan, uid: Uid, n: Node)
    requires DistinctNames(nodes) && n in nodes && uid !in plan
    ensures Wakes(nodes, plan[uid := n.name])
         == Wakes(nodes, plan) + if n.isOffline then {n.name} else {}
  {
    var after := plan[uid := n.name];
    forall m | m in nodes ensures Uses(after, m.name) <==> Uses(plan, m.name) || m.name == n.name {
      UsesAssign(plan, uid, n.name, m.name);
    }
    forall m | m in nodes && m.name == n.name ensures m == n {
      NameIdentifies(nodes, m, n);
    }
  }

  /** Using one more node costs a power-on exactly when it is offline and not used yet. */
  lemma WakesAssignSize(nodes: seq<Node>, plan: Plan, uid: Uid, n: Node)
    requires DistinctNames(nodes) && n in nodes && uid !in plan
    ensures |Wakes(nodes, plan[uid := n.name])|
         == |Wakes(nodes, plan)| + (if n.isOffline && !Uses(plan, n.name) then 1 else 0)
  {
    WakesAssign(nodes, plan, uid, n);
    var before := Wakes(nodes, plan);
    if n.isOffline {
      if Uses(plan, n.name) {
        assert n.name in before;
        assert before + {n.name} == before;
      } else {
        assert n.name !in before;
      }
    }
  }

  lemma WakesMonotone(nodes: seq<Node>, small: Plan, big: Plan)
    requires forall u | u in small :: u in big && big[u] == small[u]
    ensures Wakes(nodes, small) <= Wakes(nodes, big)
    ensures |Wakes(nodes, small)| <= |Wakes(nodes, big)|
  {
    forall n | n in nodes && Uses(small, n.name) ensures Uses(big, n.name) {
      var u :| u in small && small[u] == n.name;
      assert u in big && big[u] == n.name;
    }
    SubsetSize(Wakes(nodes, small), Wakes(nodes, big));
  }

  lemma {:induction false} SubsetSize<T>(a: set<T>, b: set<T>)
    requires a <= b
    ensures |a| <= |b|
  {
    if a != {} {
      var x :| x in a;
      SubsetSize(a - {x}, b - {x});
    }
  }

  lemma SomeElement<T>(s: set<T>) returns (x: T)
    requires s != {}
    ensures x in s
  {
    x :| x in s;
  }

  /** No part of a feasible plan is infeasible. */
  lemma FeasibleDownward(pods: seq<Pod>, nodes: seq<Node>, c: Constraints, small: Plan, big: Plan)
    requires Feasible(pods, nodes, c, big)
    requires forall u | u in small :: u in big && big[u] == small[u]
    ensures Feasible(pods, nodes, c, small)
  {
    forall n | n in nodes ensures Load(pods, small, n.name).FitsIn(n.allocatable) {
      LoadMonotone(pods, small, big, n.name);
    }
    WakesMonotone(nodes, small, big);
  }

  /** Adding pod j to node n would break capacity, or need a power-on the budget does not have. */
  ghost predicate Blocked(pods: seq<Pod>, nodes: seq<Node>, c: Constraints, plan: Plan, j: nat, n: nat)
    requires j < |pods| && n < |nodes|
  {
    || !pods[j].request.FitsIn(nodes[n].allocatable.Minus(Load(pods, plan, nodes[n].name)))
    || (nodes[n].isOffline && !Uses(plan, nodes[n].name)
        && c.currentPowerOnsInFlight + |Wakes(nodes, plan)| >= c.maxConcurrentPowerOns)
  }

  lemma LoadGrow(pods: seq<Pod>, plan: Plan, j: nat, target: Name, node: Name)
    requires DistinctUids(pods) && j < |pods| && pods[j].uid !in plan
    ensures Load(pods, plan[pods[j].uid := target], node)
         == Load(pods, plan, node).Plus(Share(pods[j].request, target == node))
  {
    LoadAssign(pods, plan, j, target, node);
  }

  lemma BlockedIsInfeasible(pods: seq<Pod>, nodes: seq<Node>, c: Constraints, plan: Plan, j: nat, n: nat)
    requires DistinctUids(pods) && DistinctNames(nodes) && j < |pods| && n < |nodes|
    requires pods[j].uid !in plan && Blocked(pods, nodes, c, plan, j, n)
    ensures !Feasible(pods, nodes, c, plan[pods[j].uid := nodes[n].name])
  {
    var after := plan[pods[j].uid := nodes[n].name];
    WakesAssignSize(nodes, plan, pods[j].uid, nodes[n]);
    LoadGrow(pods, plan, j, nodes[n].name, nodes[n].name);
    assert nodes[n] in nodes;
    if pods[j].request.FitsIn(nodes[n].allocatable.Minus(Load(pods, plan, nodes[n].name))) {
      assert |Wakes(nodes, after)| == |Wakes(nodes, plan)| + 1;
    } else {
      assert !Load(pods, after, nodes[n].name).FitsIn(nodes[n].allocatable);
    }
  }

  lemma UnblockedFits(pods: seq<Pod>, nodes: seq<Node>, plan: Plan, j: nat, n: nat, m: Node)
    requires DistinctUids(pods) && DistinctNames(nodes) && j < |pods| && n < |nodes| && m in nodes
    requires pods[j].uid !in plan && WithinCapacity(pods, nodes, plan)
    requires pods[j].request.FitsIn(nodes[n].allocatable.Minus(Load(pods, plan, nodes[n].name)))
    ensures Load(pods, plan[pods[j].uid := nodes[n].name], m.name).FitsIn(m.allocatable)
  {
    LoadGrow(pods, plan, j, nodes[n].name, m.name);
    assert Load(pods, plan, m.name).FitsIn(m.allocatable);
    if m.name == nodes[n].name {
      NameIdentifies(nodes, m, nodes[n]);
    }
  }

  /** Otherwise one more pod keeps a feasible plan feasible. */
  lemma UnblockedIsFeasible(pods: seq<Pod>, nodes: seq<Node>, c: Constraints, plan: Plan, j: nat, n: nat)
    requires DistinctUids(pods) && DistinctNames(nodes) && j < |pods| && n < |nodes|
    requires pods[j].uid !in plan && Feasible(pods, nodes, c, plan) && !Blocked(pods, nodes, c, plan, j, n)
    ensures Feasible(pods, nodes, c, plan[pods[j].uid := nodes[n].name])
  {
    var after := plan[pods[j].uid := nodes[n].name];
    assert WithinPowerBudget(c, Wakes(nodes, after)) by {
      WakesAssignSize(nodes, plan, pods[j].uid, nodes[n]);
    }
    assert WithinCapacity(pods, nodes, after) by {
      forall m | m in nodes ensures Load(pods, after, m.name).FitsIn(m.allocatable) {
        UnblockedFits(pods, nodes, plan, j, n, m);
      }
    }
    assert pods[j] in pods && nodes[n] in nodes;
  }

  /* -------------------------------- Reordering the input -------------------------------- */

  lemma MultisetTwice<T>(s: seq<T>, i: nat, j: nat)
    requires i < j < |s| && s[i] == s[j]
    ensures multiset(s)[s[i]] >= 2
  {
    assert s == s[..j] + [s[j]] + s[j + 1..];
    assert s[i] == s[..j][i];
    assert s[i] in multiset(s[..j]);
  }

  lemma MultisetOnce<T>(s: seq<T>, k: nat)
    requires k < |s| && forall i | 0 <= i < |s| && i != k :: s[i] != s[k]
    ensures multiset(s)[s[k]] == 1
  {
    assert s == s[..k] + [s[k]] + s[k + 1..];
    assert s[k] !in s[..k] && s[k] !in s[k + 1..];
    assert multiset(s[..k])[s[k]] == 0 && multiset(s[k + 1..])[s[k]] == 0;
  }

  lemma DistinctPermutation<T(!new)>(s: seq<T>, t: seq<T>, key: T -> int)
    requires multiset(s) == multiset(t)
    requires forall i, j | 0 <= i < j < |s| :: key(s[i]) != key(s[j])
    ensures forall i, j | 0 <= i < j < |t| :: key(t[i]) != key(t[j])
  {
    forall i, j | 0 <= i < j < |t| ensures key(t[i]) != key(t[j]) {
      if key(t[i]) == key(t[j]) {
        assert t[i] in multiset(s) && t[j] in multiset(s);
        var a :| 0 <= a < |s| && s[a] == t[i];
        var b :| 0 <= b < |s| && s[b] == t[j];
        assert a == b;
        MultisetOnce(s, a);
        MultisetTwice(t, i, j);
        assert false;
      }
    }
  }

  lemma DistinctUidsReorder(pods: seq<Pod>, pods': seq<Pod>)
    requires multiset(pods) == multiset(pods') && DistinctUids(pods)
    ensures DistinctUids(pods')
  {
    DistinctPermutation(pods, pods', (p: Pod) => p.uid);
  }

  lemma DistinctNamesReorder(nodes: seq<Node>, nodes': seq<Node>)
    requires multiset(nodes) == multiset(nodes') && DistinctNames(nodes)
    ensures DistinctNames(nodes')
  {
    DistinctPermutation(nodes, nodes', (n: Node) => n.name);
  }

  /** Feasibility and load do not depend on the order in which pods and nodes are listed. */
  lemma FeasibleReorder(pods: seq<Pod>, pods': seq<Pod>, nodes: seq<Node>, nodes': seq<Node>,
                        c: Constraints, plan: Plan)
    requires multiset(pods) == multiset(pods') && (forall n :: n in nodes <==> n in nodes')
    ensures Feasible(pods, nodes, c, plan) == Feasible(pods', nodes', c, plan)
    ensures forall n: Name :: Load(pods, plan, n) == Load(pods', plan, n)
    ensures Wakes(nodes, plan) == Wakes(nodes', plan)
  {
    SameMembers(pods, pods');
    forall n: Name ensures Load(pods, plan, n) == Load(pods', plan, n) {
      SumPermutation(pods, pods', CpuAt(plan, n));
      SumPermutation(pods, pods', MemAt(plan, n));
    }
    assert Uids(pods) == Uids(pods');
    assert Names(nodes) == Names(nodes');
    assert Wakes(nodes, plan) == Wakes(nodes', plan);
    assert WithinCapacity(pods, nodes, plan) == WithinCapacity(pods', nodes', plan);
  }

  lemma SameMembers<T>(s: seq<T>, t: seq<T>)
    requires multiset(s) == multiset(t)
    ensures forall x :: x in s <==> x in t
  {
    forall x ensures x in s <==> x in t {
      assert x in s <==> x in multiset(s);
      assert x in t <==> x in multiset(t);
    }
  }

  /* -------------------------------- The score of a plan -------------------------------- */

  lemma NamedIs(nodes: seq<Node>, n: Node)
    requires DistinctNames(nodes) && n in nodes
    ensures n.name in Names(nodes) && Named(nodes, n.name) == n
  {
    NameIdentifies(nodes, n, Named(nodes, n.name));
  }

  /** The sum of the scores of the placed pods, each on the node as given. */
  ghost function PlanScore(pods: seq<Pod>, nodes: seq<Node>, plan: Plan): real {
    Sum(pods, ScoreIn(plan, nodes))
  }

  lemma PlanScoreAssign(pods: seq<Pod>, nodes: seq<Node>, plan: Plan, j: nat, n: Node)
    requires DistinctUids(pods) && DistinctNames(nodes) && j < |pods| && n in nodes
    requires pods[j].uid !in plan
    ensures PlanScore(pods, nodes, plan[pods[j].uid := n.name])
         == PlanScore(pods, nodes, plan) + AssignmentScore(pods[j], n)
  {
    var after := plan[pods[j].uid := n.name];
    var f, f' := ScoreIn(plan, nodes), ScoreIn(after, nodes);
    NamedIs(nodes, n);
    forall i | 0 <= i < |pods| && i != j ensures Value(f, pods[i]) == Value(f', pods[i]) {
      assert pods[i].uid != pods[j].uid;
    }
    SumUpdate(pods, f, f', j);
  }

  lemma PlanScoreReorder(pods: seq<Pod>, pods': seq<Pod>, nodes: seq<Node>, nodes': seq<Node>, plan: Plan)
    requires multiset(pods) == multiset(pods') && (forall n :: n in nodes <==> n in nodes')
    requires DistinctNames(nodes) && DistinctNames(nodes')
    ensures PlanScore(pods, nodes, plan) == PlanScore(pods', nodes', plan)
  {
    forall name | name in Names(nodes)
      ensures name in Names(nodes') && Named(nodes, name) == Named(nodes', name)
    {
      NamedIs(nodes', Named(nodes, name));
    }
    assert Names(nodes) == Names(nodes');
    SumCongruence(pods, ScoreIn(plan, nodes), ScoreIn(plan, nodes'));
    SumPermutation(pods, pods', ScoreIn(plan, nodes'));
  }
}
