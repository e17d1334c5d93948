/** What a solver returns, and what it means for a result to account for every pod. */
module Solutions {
  import opened Placement

  datatype Reason = NoCapacity | PowerBudget | MigrationBudget | NoFeasibleNodes

  datatype Algorithm = NotSolved | Exact | Heuristic | Greedy

  datatype Assignment = Assignment(
    podNamespace: Name, podName: Name, podUID: Uid, targetNode: Name, score: real, requiresWake: bool)

  datatype UnassignedPod = UnassignedPod(podNamespace: Name, podName: Name, reason: Reason)

  datatype SolverOutput = SolverOutput(
    assignments: map<Uid, Assignment>, unassignedPods: seq<UnassignedPod>, algorithm: Algorithm,
    totalScore: real, nodesUsed: set<Name>, offlineNodesUsed: int)

  function NewSolverOutput(): SolverOutput {
    SolverOutput(map[], [], NotSolved, 0.0, {}, 0)
  }

  ghost function PlanFrom(assignments: map<Uid, Assignment>): Plan {
    map u | u in assignments :: assignments[u].targetNode
  }

  ghost function ScoresOf(assignments: map<Uid, Assignment>): map<Uid, real> {
    map u | u in assignments :: assignments[u].score
  }

  /** The nodes that some assignment asks to wake. */
  ghost function Flagged(assignments: map<Uid, Assignment>): set<Name> {
    set u | u in assignments && assignments[u].requiresWake :: assignments[u].targetNode
  }

  lemma PlanFromAssign(assignments: map<Uid, Assignment>, u: Uid, a: Assignment)
    ensures PlanFrom(assignments[u := a]) == PlanFrom(assignments)[u := a.targetNode]
  {
  }

  lemma FlaggedAssign(assignments: map<Uid, Assignment>, u: Uid, a: Assignment)
    requires u !in assignments
    ensures Flagged(assignments[u := a])
         == Flagged(assignments) + if a.requiresWake then {a.targetNode} else {}
  {
    var after := assignments[u := a];
    assert u in after && after[u] == a;
    forall n | n in Flagged(assignments) ensures n in Flagged(after) {
      var v :| v in assignments && assignments[v].requiresWake && assignments[v].targetNode == n;
      assert v in after && after[v] == assignments[v];
    }
  }

  /** How many entries name this pod. */
  ghost function Listed(entries: seq<UnassignedPod>, namespace: Name, name: Name): nat {
    if entries == [] then 0
    else
      var last := entries[|entries| - 1];
      Listed(entries[..|entries| - 1], namespace, name)
      + if last.podNamespace == namespace && last.podName == name then 1 else 0
  }

  /** Every name is listed as unassigned exactly as often as there are pods of that name without an
      assignment. */
  ghost predicate ListsTheRest(pods: seq<Pod>, plan: Plan, entries: seq<UnassignedPod>) {
    forall namespace, name ::
      Listed(entries, namespace, name) as real == Sum(pods, Missing(plan, namespace, name))
  }

  /** The entry made for a pod carries that pod's identity. */
  ghost predicate Identifies(pods: seq<Pod>, assignments: map<Uid, Assignment>) {
    forall p | p in pods && p.uid in assignments ::
      assignments[p.uid].podUID == p.uid
      && assignments[p.uid].podNamespace == p.namespace && assignments[p.uid].podName == p.name
  }

  /** Conservation: a gated pod is either assigned, under its own UID and name, or listed as
      unassigned, and not both; nothing else appears. */
  ghost predicate Accounted(pods: seq<Pod>, out: SolverOutput) {
    && out.assignments.Keys <= Uids(pods)
    && Identifies(pods, out.assignments)
    && ListsTheRest(pods, PlanFrom(out.assignments), out.unassignedPods)
  }

  lemma RestAfterAssign(pods: seq<Pod>, k: nat, plan: Plan, target: Name, entries: seq<UnassignedPod>)
    requires DistinctUids(pods) && k < |pods| && ListsTheRest(pods[..k], plan, entries)
    ensures ListsTheRest(pods[..k + 1], plan[pods[k].uid := target], entries)
  {
    var after := plan[pods[k].uid := target];
    forall namespace, name
      ensures Listed(entries, namespace, name) as real == Sum(pods[..k + 1], Missing(after, namespace, name))
    {
      forall i | 0 <= i < k ensures pods[i].uid != pods[k].uid {}
      SumCongruence(pods[..k], Missing(plan, namespace, name), Missing(after, namespace, name));
      assert pods[..k + 1][..k] == pods[..k];
    }
  }

  lemma RestAfterRefusal(pods: seq<Pod>, k: nat, plan: Plan, entries: seq<UnassignedPod>, reason: Reason)
    requires k < |pods| && ListsTheRest(pods[..k], plan, entries) && pods[k].uid !in plan
    ensures ListsTheRest(pods[..k + 1], plan, entries + [UnassignedPod(pods[k].namespace, pods[k].name, reason)])
  {
    var e := UnassignedPod(pods[k].namespace, pods[k].name, reason);
    forall namespace, name
      ensures Listed(entries + [e], namespace, name) as real == Sum(pods[..k + 1], Missing(plan, namespace, name))
    {
      assert pods[..k + 1][..k] == pods[..k];
    }
  }

  lemma AccountedReorder(pods: seq<Pod>, pods': seq<Pod>, out: SolverOutput)
    requires multiset(pods) == multiset(pods')
    ensures Accounted(pods, out) == Accounted(pods', out)
  {
    SameMembers(pods, pods');
    assert Uids(pods) == Uids(pods');
    var plan := PlanFrom(out.assignments);
    forall namespace, name
      ensures Sum(pods, Missing(plan, namespace, name)) == Sum(pods', Missing(plan, namespace, name))
    {
      SumPermutation(pods, pods', Missing(plan, namespace, name));
    }
  }

  /** The element at this position is new there. */
  ghost predicate FirstAt<T(!new)>(order: seq<T>, j: nat)
    requires j < |order|
  {
    order[j] !in order[..j]
  }

  ghost predicate Enumerates<T(!new)>(order: seq<T>, s: set<T>) {
    && (forall x :: x in order <==> x in s)
    && (forall j {:trigger FirstAt(order, j)} | 0 <= j < |order| :: FirstAt(order, j))
  }

  /** At its turn an element is one of the set and has not been visited. */
  lemma Visiting<T(!new)>(order: seq<T>, s: set<T>, t: nat)
    requires Enumerates(order, s) && t < |order|
    ensures order[t] in s && order[t] !in order[..t] && order[..t + 1] == order[..t] + [order[t]]
  {
    assert FirstAt(order, t);
  }

  lemma EnumeratesNext<T(!new)>(order: seq<T>, s: set<T>, x: T)
    requires Enumerates(order, s) && x !in s
    ensures Enumerates(order + [x], s + {x})
  {
    var next := order + [x];
    forall j | 0 <= j < |next| ensures FirstAt(next, j) {
      assert next[..j] == order[..j];
      assert j < |order| ==> FirstAt(order, j);
    }
  }

  /** Go visits the keys of a map once each, in no particular order. */
  method VisitOrder<T(!new, ==)>(s: set<T>) returns (order: seq<T>)
    ensures Enumerates(order, s)
  {
    order := [];
    var todo := s;
    while todo != {}
      invariant todo <= s && Enumerates(order, s - todo)
      decreases todo
    {
      var x :| x in todo;
      EnumeratesNext(order, s - todo, x);
      assert s - (todo - {x}) == (s - todo) + {x};
      todo := todo - {x};
      order := order + [x];
    }
    assert s - todo == s;
  }

  method IndexPods(pods: seq<Pod>) returns (index: map<Uid, nat>)
    ensures index.Keys == Uids(pods)
    ensures forall u | u in index :: index[u] < |pods| && pods[index[u]].uid == u
  {
    index := map[];
    for i := 0 to |pods|
      invariant index.Keys == Uids(pods[..i])
      invariant forall u | u in index :: index[u] < i && pods[index[u]].uid == u
    {
      KeysGrow(pods, i);
      index := index[pods[i].uid := i];
    }
    assert pods[..|pods|] == pods;
  }

  method IndexNodes(nodes: seq<Node>) returns (index: map<Name, nat>)
    ensures index.Keys == Names(nodes)
    ensures forall n | n in index :: index[n] < |nodes| && nodes[index[n]].name == n
  {
    index := map[];
    for i := 0 to |nodes|
      invariant index.Keys == Names(nodes[..i])
      invariant forall n | n in index :: index[n] < i && nodes[index[n]].name == n
    {
      index := index[nodes[i].name := i];
    }
    assert nodes[..|nodes|] == nodes;
  }

  /** The offline nodes among the used ones. */
  ghost function OfflineAmong(nodes: seq<Node>, used: set<Name>): set<Name> {
    set n | n in nodes && n.isOffline && n.name in used :: n.name
  }

  method CountOffline(nodes: seq<Node>, nodeIndex: map<Name, nat>, used: set<Name>) returns (count: nat)
    requires DistinctNames(nodes) && nodeIndex.Keys == Names(nodes)
    requires forall n | n in nodeIndex :: nodeIndex[n] < |nodes| && nodes[nodeIndex[n]].name == n
    ensures count == |OfflineAmong(nodes, used)|
  {
    count := 0;
    var order := VisitOrder(used);
    ghost var seen: set<Name> := {};
    for t := 0 to |order|
      invariant forall n: Name :: n in seen <==> n in order[..t]
      invariant count == |OfflineAmong(nodes, seen)|
    {
      var name := order[t];
      Visiting(order, used, t);
      OfflineStep(nodes, nodeIndex, seen, name);
      if name in nodeIndex && nodes[nodeIndex[name]].isOffline {
        count := count + 1;
      }
      seen := seen + {name};
    }
    assert order[..|order|] == order;
    assert forall n: Name :: n in seen <==> n in used;
    assert OfflineAmong(nodes, seen) == OfflineAmong(nodes, used);
  }

  lemma OfflineStep(nodes: seq<Node>, nodeIndex: map<Name, nat>, used: set<Name>, name: Name)
    requires DistinctNames(nodes) && nodeIndex.Keys == Names(nodes) && name !in used
    requires forall n | n in nodeIndex :: nodeIndex[n] < |nodes| && nodes[nodeIndex[n]].name == n
    ensures |OfflineAmong(nodes, used + {name})| == |OfflineAmong(nodes, used)|
      + if name in nodeIndex && nodes[nodeIndex[name]].isOffline then 1 else 0
  {
    OfflineAmongGrow(nodes, used, name);
    if name in nodeIndex {
      assert nodes[nodeIndex[name]] in nodes;
      forall n | n in nodes && n.name == name ensures n == nodes[nodeIndex[name]] {
        NameIdentifies(nodes, n, nodes[nodeIndex[name]]);
      }
    }
  }

  lemma OfflineAmongGrow(nodes: seq<Node>, used: set<Name>, name: Name)
    requires name !in used
    ensures var offline := exists n :: n in nodes && n.isOffline && n.name == name;
      && OfflineAmong(nodes, used + {name}) == OfflineAmong(nodes, used) + (if offline then {name} else {})
      && |OfflineAmong(nodes, used + {name})| == |OfflineAmong(nodes, used)| + (if offline then 1 else 0)
  {
    assert name !in OfflineAmong(nodes, used);
    assert OfflineAmong(nodes, used + {name})
        == OfflineAmong(nodes, used) + if (exists n :: n in nodes && n.isOffline && n.name == name) then {name} else {};
  }
}
