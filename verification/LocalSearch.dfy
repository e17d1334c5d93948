/**
 The moves of the heuristic's local search and the books it keeps: capacity left per node, a score per
 pod, their total, and the nodes in use.
 */
module LocalSearch {
  import opened Placement

  /** Fixed during the search: the pods by UID, the candidate nodes, and where each node is. `cold` holds
      the nodes that need a wake before they can be used, and `limits` the power budget; the search as
      written looks at neither. */
  datatype Env = Env(
    podByUID: map<Uid, Pod>, nodes: seq<Node>, nodeByName: map<Name, nat>, cold: set<Name>, limits: Constraints)

  /** The books: `plan` is podAssignment. */
  datatype Work = Work(
    plan: Plan, remaining: seq<Amount>, scores: map<Uid, real>, totalScore: real, nodesUsed: set<Name>)

  /** Names and positions of nodes match. */
  ghost predicate Located(e: Env) {
    && (forall n {:trigger e.nodeByName[n]} | n in e.nodeByName ::
          e.nodeByName[n] < |e.nodes| && e.nodes[e.nodeByName[n]].name == n)
    && (forall j {:trigger e.nodes[j]} | 0 <= j < |e.nodes| ::
          e.nodes[j].name in e.nodeByName && e.nodeByName[e.nodes[j].name] == j)
  }

  ghost predicate Indexed(e: Env, pods: seq<Pod>) {
    && Located(e) && DistinctUids(pods) && e.podByUID.Keys == Uids(pods)
    && (forall u {:trigger e.podByUID[u]} | u in e.podByUID :: e.podByUID[u] in pods && e.podByUID[u].uid == u)
  }

  /** Keys and targets are known, and the books have the right shape. */
  ghost predicate Shaped(e: Env, w: Work) {
    && Located(e) && |w.remaining| == |e.nodes| && w.plan.Keys == w.scores.Keys
    && (forall u {:trigger w.plan[u]} | u in w.plan :: u in e.podByUID && w.plan[u] in e.nodeByName)
  }

  predicate Empty(plan: Plan, node: Name) {
    forall u | u in plan :: plan[u] != node
  }

  predicate WouldFree(plan: Plan, u: Uid, node: Name) {
    forall v | v in plan :: plan[v] == node ==> v == u
  }

  /* --------------------------------------- Moves --------------------------------------- */

  function Credit(remaining: seq<Amount>, i: nat, request: Amount): seq<Amount>
    requires i < |remaining|
  {
    remaining[i := remaining[i].Plus(request)]
  }

  function Debit(remaining: seq<Amount>, i: nat, request: Amount): seq<Amount>
    requires i < |remaining|
  {
    remaining[i := remaining[i].Minus(request)]
  }

  function Score(e: Env, u: Uid, j: nat): real
    requires u in e.podByUID && j < |e.nodes|
  {
    AssignmentScore(e.podByUID[u], e.nodes[j])
  }

  function Relocated(e: Env, w: Work, u: Uid, from: Name, to: Name): (r: Work)
    requires Shaped(e, w) && u in w.plan && from in e.nodeByName && to in e.nodeByName
    ensures Shaped(e, r) && r.plan == w.plan[u := to]
  {
    var request, fi, ti := e.podByUID[u].request, e.nodeByName[from], e.nodeByName[to];
    var score := Score(e, u, ti);
    var plan := w.plan[u := to];
    Work(plan,
         Debit(Credit(w.remaining, fi, request), ti, request),
         w.scores[u := score],
         w.totalScore + (score - w.scores[u]),
         w.nodesUsed + {to} - if Empty(plan, from) then {from} else {})
  }

  function Swapped(e: Env, w: Work, a: Uid, b: Uid, nodeA: Name, nodeB: Name): (r: Work)
    requires Shaped(e, w) && a in w.plan && b in w.plan && nodeA in e.nodeByName && nodeB in e.nodeByName
    ensures Shaped(e, r) && r.plan == w.plan[a := nodeB][b := nodeA]
  {
    var podA, podB, ia, ib := e.podByUID[a], e.podByUID[b], e.nodeByName[nodeA], e.nodeByName[nodeB];
    var scoreA, scoreB := Score(e, a, ib), Score(e, b, ia);
    Work(w.plan[a := nodeB][b := nodeA],
         Debit(Credit(Debit(Credit(w.remaining, ia, podA.request), ia, podB.request),
                      ib, podB.request), ib, podA.request),
         w.scores[a := scoreA][b := scoreB],
         w.totalScore + ((scoreA + scoreB) - (w.scores[a] + w.scores[b])),
         w.nodesUsed)
  }

  predicate SwapFeasible(remaining: seq<Amount>, podA: Pod, podB: Pod, ia: nat, ib: nat)
    requires ia < |remaining| && ib < |remaining|
  {
    && remaining[ia].Plus(podA.request).Minus(podB.request).NonNegative()
    && remaining[ib].Plus(podB.request).Minus(podA.request).NonNegative()
  }

  /* ------------------------------------- The ledger ------------------------------------- */

  /** What is left on every node is its capacity less the requests of the pods it hosts. */
  ghost predicate Ledger(e: Env, pods: seq<Pod>, w: Work) {
    w.remaining == LeftOver(pods, e.nodes, w.plan)
  }

  ghost predicate AllNonNegative(amounts: seq<Amount>) {
    forall i | 0 <= i < |amounts| :: amounts[i].NonNegative()
  }

  ghost predicate NoDebt(w: Work) {
    AllNonNegative(w.remaining)
  }

  ghost predicate UsedExactly(w: Work) {
    forall n: Name :: n in w.nodesUsed <==> Uses(w.plan, n)
  }

  ghost predicate TotalAdds(pods: seq<Pod>, w: Work) {
    w.totalScore == Sum(pods, RecordedIn(w.scores))
  }

  /** The place of a pod in the list, where it is alone with its UID. */
  lemma PodIndex(e: Env, pods: seq<Pod>, u: Uid) returns (j: nat)
    requires Indexed(e, pods) && u in e.podByUID
    ensures j < |pods| && pods[j] == e.podByUID[u] && pods[j].uid == u && DistinctUids(pods)
  {
    var p := e.podByUID[u];
    assert p in pods;
    j :| 0 <= j < |pods| && pods[j] == p;
  }

  /** How re-placing one pod moves what is left on node i. */
  lemma LeftAfter(pods: seq<Pod>, nodes: seq<Node>, plan: Plan, j: nat, to: Name, i: nat)
    requires DistinctUids(pods) && j < |pods| && pods[j].uid in plan && i < |nodes|
    ensures LeftOver(pods, nodes, plan[pods[j].uid := to])[i]
         == LeftOver(pods, nodes, plan)[i]
            .Plus(Share(pods[j].request, plan[pods[j].uid] == nodes[i].name))
            .Minus(Share(pods[j].request, to == nodes[i].name))
  {
    LoadAssign(pods, plan, j, to, nodes[i].name);
  }

  /** The four entries a capacity exchange may touch. */
  lemma MovedLeft(remaining: seq<Amount>, fi: nat, ti: nat, r: Amount, i: nat)
    requires fi < |remaining| && ti < |remaining| && i < |remaining|
    ensures Debit(Credit(remaining, fi, r), ti, r)[i] == remaining[i].Plus(Share(r, fi == i)).Minus(Share(r, ti == i))
  {
  }

  lemma ExchangedLeft(remaining: seq<Amount>, ia: nat, ib: nat, a: Amount, b: Amount, i: nat)
    requires ia < |remaining| && ib < |remaining| && i < |remaining|
    ensures Debit(Credit(Debit(Credit(remaining, ia, a), ia, b), ib, b), ib, a)[i]
         == remaining[i].Plus(Share(a, ia == i)).Minus(Share(b, ia == i))
                        .Plus(Share(b, ib == i)).Minus(Share(a, ib == i))
  {
  }

  lemma SameIndex(e: Env, name: Name, i: nat)
    requires Located(e) && name in e.nodeByName && i < |e.nodes|
    ensures e.nodeByName[name] == i <==> name == e.nodes[i].name
  {
  }

  lemma RelocatedLeft(e: Env, w: Work, u: Uid, from: Name, to: Name, i: nat)
    requires Shaped(e, w) && u in w.plan && from in e.nodeByName && to in e.nodeByName && i < |e.nodes|
    ensures Relocated(e, w, u, from, to).remaining[i]
         == w.remaining[i].Plus(Share(e.podByUID[u].request, from == e.nodes[i].name))
                          .Minus(Share(e.podByUID[u].request, to == e.nodes[i].name))
  {
    SameIndex(e, from, i);
    SameIndex(e, to, i);
    MovedLeft(w.remaining, e.nodeByName[from], e.nodeByName[to], e.podByUID[u].request, i);
  }

  lemma SwappedLeft(e: Env, w: Work, a: Uid, b: Uid, nodeA: Name, nodeB: Name, i: nat)
    requires Shaped(e, w) && a in w.plan && b in w.plan && nodeA in e.nodeByName && nodeB in e.nodeByName
    requires i < |e.nodes|
    ensures var podA, podB := e.podByUID[a].request, e.podByUID[b].request;
      var here := e.nodes[i].name;
      Swapped(e, w, a, b, nodeA, nodeB).remaining[i]
         == w.remaining[i].Plus(Share(podA, nodeA == here)).Minus(Share(podB, nodeA == here))
                          .Plus(Share(podB, nodeB == here)).Minus(Share(podA, nodeB == here))
  {
    SameIndex(e, nodeA, i);
    SameIndex(e, nodeB, i);
    ExchangedLeft(w.remaining, e.nodeByName[nodeA], e.nodeByName[nodeB], e.podByUID[a].request,
        e.podByUID[b].request, i);
  }

  /** A relocation's entry for node i is right exactly when it is told right whether the pod was there. */
  lemma RelocatedEntry(e: Env, pods: seq<Pod>, w: Work, u: Uid, from: Name, to: Name, i: nat)
    requires Indexed(e, pods) && Shaped(e, w) && u in w.plan && from in e.nodeByName && to in e.nodeByName
    requires i < |e.nodes| && w.remaining[i] == LeftOver(pods, e.nodes, w.plan)[i]
    ensures var r, here := e.podByUID[u].request, e.nodes[i].name;
      Relocated(e, w, u, from, to).remaining[i] == LeftOver(pods, e.nodes, w.plan[u := to])[i]
      <==> Share(r, from == here) == Share(r, w.plan[u] == here)
  {
    RelocatedLeft(e, w, u, from, to, i);
    var j := PodIndex(e, pods, u);
    LeftAfter(pods, e.nodes, w.plan, j, to, i);
  }

  lemma SwappedEntry(e: Env, pods: seq<Pod>, w: Work, a: Uid, b: Uid, nodeA: Name, i: nat)
    requires Indexed(e, pods) && Shaped(e, w) && a in w.plan && b in w.plan && a != b && nodeA in e.nodeByName
    requires i < |e.nodes| && w.remaining[i] == LeftOver(pods, e.nodes, w.plan)[i]
    ensures var r, here, w' := e.podByUID[a].request, e.nodes[i].name, Swapped(e, w, a, b, nodeA, w.plan[b]);
      && w'.remaining[i] == LeftOver(pods, e.nodes, w'.plan)[i]
           .Plus(Share(r, nodeA == here)).Minus(Share(r, w.plan[a] == here))
      && (w'.remaining[i] == LeftOver(pods, e.nodes, w'.plan)[i] <==>
            Share(r, nodeA == here) == Share(r, w.plan[a] == here))
  {
    var nodeB, here := w.plan[b], e.nodes[i].name;
    SwappedLeft(e, w, a, b, nodeA, nodeB, i);
    SwappedLeftOver(e, pods, w.plan, a, b, nodeB, nodeA, i);
    SwapShares(w.remaining[i], e.podByUID[a].request, e.podByUID[b].request,
               nodeA == here, w.plan[a] == here, nodeB == here);
  }

  /** What is left after two re-placements. */
  lemma SwappedLeftOver(e: Env, pods: seq<Pod>, plan: Plan, a: Uid, b: Uid, toA: Name, toB: Name, i: nat)
    requires Indexed(e, pods) && a in plan && b in plan && a in e.podByUID && b in e.podByUID && a != b && i < |e.nodes|
    ensures var rA, rB, here := e.podByUID[a].request, e.podByUID[b].request, e.nodes[i].name;
      LeftOver(pods, e.nodes, plan[a := toA][b := toB])[i]
         == LeftOver(pods, e.nodes, plan)[i].Plus(Share(rA, plan[a] == here)).Minus(Share(rA, toA == here))
                                            .Plus(Share(rB, plan[b] == here)).Minus(Share(rB, toB == here))
  {
    var j := PodIndex(e, pods, a);
    LeftAfter(pods, e.nodes, plan, j, toA, i);
    var k := PodIndex(e, pods, b);
    LeftAfter(pods, e.nodes, plan[a := toA], k, toB, i);
  }

  lemma SwapShares(left: Amount, a: Amount, b: Amount, told: bool, actual: bool, other: bool)
    ensures var booked := left.Plus(Share(a, told)).Minus(Share(b, told)).Plus(Share(b, other)).Minus(Share(a, other));
      var real' := left.Plus(Share(a, actual)).Minus(Share(a, other)).Plus(Share(b, other)).Minus(Share(b, told));
      && booked == real'.Plus(Share(a, told)).Minus(Share(a, actual))
      && (booked == real' <==> Share(a, told) == Share(a, actual))
  {
  }

  /** A relocation keeps the ledger exactly when it is told the pod's actual node, or the pod
      requests nothing. */
  lemma RelocateKeepsLedgerIff(e: Env, pods: seq<Pod>, w: Work, u: Uid, from: Name, to: Name)
    requires Indexed(e, pods) && Shaped(e, w) && u in w.plan && from in e.nodeByName && to in e.nodeByName
    requires Ledger(e, pods, w)
    ensures Ledger(e, pods, Relocated(e, w, u, from, to))
       <==> w.plan[u] == from || e.podByUID[u].request == ZERO
  {
    var w', r := Relocated(e, w, u, from, to), e.podByUID[u].request;
    var left := LeftOver(pods, e.nodes, w'.plan);
    forall i | 0 <= i < |e.nodes|
      ensures w'.remaining[i] == left[i]
           <==> Share(r, from == e.nodes[i].name) == Share(r, w.plan[u] == e.nodes[i].name)
    {
      RelocatedEntry(e, pods, w, u, from, to, i);
    }
  }

  /** A swap that names the second pod's actual node keeps the ledger exactly when it also names the
      first pod's, or that pod requests nothing. */
  lemma SwapKeepsLedgerIff(e: Env, pods: seq<Pod>, w: Work, a: Uid, b: Uid, nodeA: Name, nodeB: Name)
    requires Indexed(e, pods) && Shaped(e, w) && a in w.plan && b in w.plan && a != b
    requires nodeA in e.nodeByName && w.plan[b] == nodeB && Ledger(e, pods, w)
    ensures Ledger(e, pods, Swapped(e, w, a, b, nodeA, nodeB))
       <==> w.plan[a] == nodeA || e.podByUID[a].request == ZERO
  {
    var w', r := Swapped(e, w, a, b, nodeA, nodeB), e.podByUID[a].request;
    var left := LeftOver(pods, e.nodes, w'.plan);
    forall i | 0 <= i < |e.nodes|
      ensures w'.remaining[i] == left[i]
           <==> Share(r, nodeA == e.nodes[i].name) == Share(r, w.plan[a] == e.nodes[i].name)
    {
      SwappedEntry(e, pods, w, a, b, nodeA, i);
    }
  }

  /** The swap test passes exactly when the swap leaves no debt on either node. */
  lemma SwapFeasibleIff(e: Env, w: Work, a: Uid, b: Uid, nodeA: Name, nodeB: Name)
    requires Shaped(e, w) && a in w.plan && b in w.plan
    requires nodeA in e.nodeByName && nodeB in e.nodeByName && nodeA != nodeB && NoDebt(w)
    ensures SwapFeasible(w.remaining, e.podByUID[a], e.podByUID[b], e.nodeByName[nodeA], e.nodeByName[nodeB])
       <==> NoDebt(Swapped(e, w, a, b, nodeA, nodeB))
  {
    var ia, ib := e.nodeByName[nodeA], e.nodeByName[nodeB];
    SameIndex(e, nodeA, ib);
    ExchangeDebt(w.remaining, ia, ib, e.podByUID[a].request, e.podByUID[b].request);
  }

  lemma ExchangeDebt(remaining: seq<Amount>, ia: nat, ib: nat, a: Amount, b: Amount)
    requires ia < |remaining| && ib < |remaining| && ia != ib && AllNonNegative(remaining)
    ensures AllNonNegative(Debit(Credit(Debit(Credit(remaining, ia, a), ia, b), ib, b), ib, a))
       <==> remaining[ia].Plus(a).Minus(b).NonNegative() && remaining[ib].Plus(b).Minus(a).NonNegative()
  {
    var after := Debit(Credit(Debit(Credit(remaining, ia, a), ia, b), ib, b), ib, a);
    assert after[ia] == remaining[ia].Plus(a).Minus(b);
    assert after[ib] == remaining[ib].Plus(b).Minus(a);
    forall i | 0 <= i < |remaining| && i != ia && i != ib ensures after[i] == remaining[i] {}
  }

  /** A pod that fits its target leaves no debt. */
  lemma RelocateKeepsCredit(e: Env, w: Work, u: Uid, from: Name, to: Name)
    requires Shaped(e, w) && u in w.plan && from in e.nodeByName && to in e.nodeByName && to != from && NoDebt(w)
    requires e.podByUID[u].request.FitsIn(w.remaining[e.nodeByName[to]])
    ensures NoDebt(Relocated(e, w, u, from, to))
  {
    var left := Relocated(e, w, u, from, to).remaining;
    forall i | 0 <= i < |left| ensures left[i].NonNegative() {
      RelocatedLeft(e, w, u, from, to, i);
      SameIndex(e, to, i);
      assert w.remaining[i].NonNegative();
    }
  }

  /* -------------------------------- Nodes in use, and totals -------------------------------- */

  lemma UsesAfter(plan: Plan, u: Uid, to: Name, n: Name)
    requires u in plan
    ensures Uses(plan[u := to], n) <==> n == to || (Uses(plan, n) && !(plan[u] == n && WouldFree(plan, u, n)))
  {
    var after := plan[u := to];
    assert u in after && after[u] == to;
    if Uses(plan, n) && !(plan[u] == n && WouldFree(plan, u, n)) {
      var v :| v in plan && plan[v] == n && (plan[u] == n ==> v != u);
      assert v in after && (v != u ==> after[v] == n);
    }
    if v :| v in after && after[v] == n && n != to {
      assert v in plan && plan[v] == n && v != u;
    }
  }

  lemma RelocateKeepsUsed(e: Env, w: Work, u: Uid, to: Name)
    requires Shaped(e, w) && u in w.plan && to in e.nodeByName && UsedExactly(w)
    ensures UsedExactly(Relocated(e, w, u, w.plan[u], to))
  {
    var plan, from := w.plan[u := to], w.plan[u];
    forall n: Name ensures n in Relocated(e, w, u, from, to).nodesUsed <==> Uses(plan, n) {
      UsesAfter(w.plan, u, to, n);
    }
  }

  lemma SwapKeepsUses(plan: Plan, a: Uid, b: Uid, n: Name)
    requires a in plan && b in plan && a != b
    ensures Uses(plan[a := plan[b]][b := plan[a]], n) <==> Uses(plan, n)
  {
    var after := plan[a := plan[b]][b := plan[a]];
    assert a in after && b in after && after[a] == plan[b] && after[b] == plan[a];
    if v :| v in plan && plan[v] == n {
      assert v != a && v != b ==> v in after && after[v] == n;
    }
    if v :| v in after && after[v] == n {
      assert v != a && v != b ==> v in plan && plan[v] == n;
    }
  }

  lemma SwapKeepsUsed(e: Env, w: Work, a: Uid, b: Uid)
    requires Shaped(e, w) && a in w.plan && b in w.plan && a != b && UsedExactly(w)
    ensures UsedExactly(Swapped(e, w, a, b, w.plan[a], w.plan[b]))
  {
    forall n: Name ensures Uses(w.plan[a := w.plan[b]][b := w.plan[a]], n) <==> Uses(w.plan, n) {
      SwapKeepsUses(w.plan, a, b, n);
    }
  }

  lemma ScoreUpdate(e: Env, pods: seq<Pod>, scores: map<Uid, real>, u: Uid, score: real)
    requires Indexed(e, pods) && u in scores && u in e.podByUID
    ensures Sum(pods, RecordedIn(scores[u := score])) == Sum(pods, RecordedIn(scores)) - scores[u] + score
  {
    var j := PodIndex(e, pods, u);
    forall i | 0 <= i < |pods| && i != j
      ensures Value(RecordedIn(scores), pods[i]) == Value(RecordedIn(scores[u := score]), pods[i])
    {
      assert pods[i].uid != pods[j].uid;
    }
    SumUpdate(pods, RecordedIn(scores), RecordedIn(scores[u := score]), j);
  }

  /** Whatever nodes it is told, a move keeps the total equal to the recorded scores. */
  lemma RelocateKeepsTotal(e: Env, pods: seq<Pod>, w: Work, u: Uid, from: Name, to: Name)
    requires Indexed(e, pods) && Shaped(e, w) && u in w.plan && from in e.nodeByName && to in e.nodeByName
    requires TotalAdds(pods, w)
    ensures TotalAdds(pods, Relocated(e, w, u, from, to))
  {
    ScoreUpdate(e, pods, w.scores, u, Score(e, u, e.nodeByName[to]));
  }

  lemma SwapKeepsTotal(e: Env, pods: seq<Pod>, w: Work, a: Uid, b: Uid, nodeA: Name, nodeB: Name)
    requires Indexed(e, pods) && Shaped(e, w) && a in w.plan && b in w.plan && a != b
    requires nodeA in e.nodeByName && nodeB in e.nodeByName && TotalAdds(pods, w)
    ensures TotalAdds(pods, Swapped(e, w, a, b, nodeA, nodeB))
  {
    var scoreA, scoreB := Score(e, a, e.nodeByName[nodeB]), Score(e, b, e.nodeByName[nodeA]);
    ScoreUpdate(e, pods, w.scores, a, scoreA);
    ScoreUpdate(e, pods, w.scores[a := scoreA], b, scoreB);
  }

  /* ------------------------------------ Power-ons ------------------------------------ */

  /** The nodes in use that need a wake. */
  function Awakened(e: Env, plan: Plan): set<Name> {
    set u | u in plan && plan[u] in e.cold :: plan[u]
  }

  predicate Powered(e: Env, plan: Plan) {
    WithinPowerBudget(e.limits, Awakened(e, plan))
  }

  lemma AwakenedMeans(e: Env, plan: Plan, n: Name)
    ensures n in Awakened(e, plan) <==> n in e.cold && Uses(plan, n)
  {
  }

  /** What a relocation does to the number of nodes to wake: one more when the target needs a wake and is
      unused, one less when the source does and the pod was alone on it. */
  lemma RelocatedAwakened(e: Env, plan: Plan, u: Uid, to: Name)
    requires u in plan && plan[u] != to
    ensures |Awakened(e, plan[u := to])|
         == |Awakened(e, plan)| + (if to in e.cold && Empty(plan, to) then 1 else 0)
            - (if plan[u] in e.cold && WouldFree(plan, u, plan[u]) then 1 else 0)
  {
    var before, after, from := Awakened(e, plan), Awakened(e, plan[u := to]), plan[u];
    var gained := if to in e.cold && Empty(plan, to) then {to} else {};
    var lost := if from in e.cold && WouldFree(plan, u, from) then {from} else {};
    AwakenedMeans(e, plan, to);
    AwakenedMeans(e, plan, from);
    forall n: Name ensures n in after <==> n in (before - lost) + gained {
      AwakenedMeans(e, plan, n);
      AwakenedMeans(e, plan[u := to], n);
      UsesAfter(plan, u, to, n);
    }
    assert after == (before - lost) + gained;
  }

  lemma SwapKeepsAwakened(e: Env, plan: Plan, a: Uid, b: Uid)
    requires a in plan && b in plan && a != b
    ensures Awakened(e, plan[a := plan[b]][b := plan[a]]) == Awakened(e, plan)
  {
    var after := plan[a := plan[b]][b := plan[a]];
    forall n ensures n in Awakened(e, after) <==> n in Awakened(e, plan) {
      AwakenedMeans(e, plan, n);
      AwakenedMeans(e, after, n);
      SwapKeepsUses(plan, a, b, n);
    }
  }

  /** Relocation never looks at the power budget. A move from a plan within it stays within it exactly
      when it wakes no node, or frees one in exchange, or a power-on is left. */
  lemma RelocationWithinBudgetIff(e: Env, plan: Plan, u: Uid, to: Name)
    requires u in plan && plan[u] != to && Powered(e, plan)
    ensures Powered(e, plan[u := to])
       <==> (to in e.cold && Empty(plan, to) ==>
               || (plan[u] in e.cold && WouldFree(plan, u, plan[u]))
               || e.limits.currentPowerOnsInFlight + |Awakened(e, plan)| < e.limits.maxConcurrentPowerOns)
  {
    RelocatedAwakened(e, plan, u, to);
    AwakenedMeans(e, plan, plan[u]);
  }

  /* ------------------------------------- Evacuation ------------------------------------- */

  datatype Move = Move(uid: Uid, target: Name)

  /** Moves of distinct pods away from one node. */
  ghost predicate Batch(e: Env, plan: Plan, from: Name, moves: seq<Move>) {
    && from in e.nodeByName
    && (forall i | 0 <= i < |moves| ::
          && moves[i].uid in plan && moves[i].uid in e.podByUID && plan[moves[i].uid] == from
          && moves[i].target in e.nodeByName && moves[i].target != from)
    && (forall j {:trigger FirstOf(moves, j)} | 0 <= j < |moves| :: FirstOf(moves, j))
  }

  /** No earlier move is of the same pod. */
  ghost predicate FirstOf(moves: seq<Move>, j: nat)
    requires j < |moves|
  {
    forall i | 0 <= i < j :: moves[i].uid != moves[j].uid
  }

  lemma BatchPrefix(e: Env, plan: Plan, from: Name, moves: seq<Move>, k: nat)
    requires Batch(e, plan, from, moves) && k <= |moves|
    ensures Batch(e, plan, from, moves[..k])
    ensures k < |moves| ==> FirstOf(moves, k)
  {
    forall j | 0 <= j < k ensures FirstOf(moves[..k], j) {
      assert FirstOf(moves, j);
    }
  }

  /** The books after applying the moves one by one. */
  function Evacuated(e: Env, w: Work, from: Name, moves: seq<Move>): (r: Work)
    requires Shaped(e, w) && Batch(e, w.plan, from, moves)
    ensures Shaped(e, r) && r.plan.Keys == w.plan.Keys
  {
    if moves == [] then w
    else
      var k := |moves| - 1;
      BatchPrefix(e, w.plan, from, moves, k);
      Relocated(e, Evacuated(e, w, from, moves[..k]), moves[k].uid, from, moves[k].target)
  }

  predicate KnownMoves(e: Env, moves: seq<Move>) {
    forall m | 0 <= m < |moves| :: moves[m].uid in e.podByUID
  }

  /** What the moves bring to node i. */
  ghost function Brought(e: Env, moves: seq<Move>, i: nat): (r: Amount)
    requires i < |e.nodes| && KnownMoves(e, moves)
    ensures r.NonNegative()
  {
    if moves == [] then ZERO
    else
      var k := |moves| - 1;
      Brought(e, moves[..k], i).Plus(Share(e.podByUID[moves[k].uid].request, moves[k].target == e.nodes[i].name))
  }

  /** What they take along. */
  ghost function Taken(e: Env, moves: seq<Move>): (r: Amount)
    requires KnownMoves(e, moves)
    ensures r.NonNegative()
  {
    if moves == [] then ZERO
    else
      var k := |moves| - 1;
      Taken(e, moves[..k]).Plus(e.podByUID[moves[k].uid].request)
  }

  /** What one move away from `from` makes of an entry. */
  ghost function EntryAfter(e: Env, left: Amount, m: Move, from: Name, here: Name): Amount
    requires m.uid in e.podByUID
  {
    var r := e.podByUID[m.uid].request;
    left.Plus(Share(r, from == here)).Minus(Share(r, m.target == here))
  }

  /** The plan and the capacities one move later. */
  lemma EvacuatedNext(e: Env, w: Work, from: Name, moves: seq<Move>, k: nat)
    requires Shaped(e, w) && Batch(e, w.plan, from, moves) && |moves| == k + 1
    ensures Batch(e, w.plan, from, moves[..k])
    ensures var v, w' := Evacuated(e, w, from, moves[..k]), Evacuated(e, w, from, moves);
      && w'.plan == v.plan[moves[k].uid := moves[k].target]
      && |v.remaining| == |w'.remaining| == |e.nodes|
      && forall i {:trigger w'.remaining[i]} | 0 <= i < |e.nodes| ::
           w'.remaining[i] == EntryAfter(e, v.remaining[i], moves[k], from, e.nodes[i].name)
  {
    BatchPrefix(e, w.plan, from, moves, k);
    var v, w' := Evacuated(e, w, from, moves[..k]), Evacuated(e, w, from, moves);
    forall i {:trigger w'.remaining[i]} | 0 <= i < |e.nodes|
      ensures w'.remaining[i] == EntryAfter(e, v.remaining[i], moves[k], from, e.nodes[i].name)
    {
      RelocatedLeft(e, v, moves[k].uid, from, moves[k].target, i);
    }
  }

  /** Where a pod is after the moves. */
  ghost function HomeAfter(home: Name, u: Uid, moves: seq<Move>): Name {
    if moves == [] then home
    else
      var k := |moves| - 1;
      if moves[k].uid == u then moves[k].target else HomeAfter(home, u, moves[..k])
  }

  lemma {:induction false} EvacuatedHome(e: Env, w: Work, from: Name, moves: seq<Move>, u: Uid)
    requires Shaped(e, w) && Batch(e, w.plan, from, moves) && u in w.plan
    ensures Evacuated(e, w, from, moves).plan[u] == HomeAfter(w.plan[u], u, moves)
  {
    if moves != [] {
      var k := |moves| - 1;
      EvacuatedNext(e, w, from, moves, k);
      EvacuatedHome(e, w, from, moves[..k], u);
    }
  }

  lemma {:induction false} HomeAfterIs(home: Name, u: Uid, moves: seq<Move>)
    requires forall j {:trigger FirstOf(moves, j)} | 0 <= j < |moves| :: FirstOf(moves, j)
    ensures (forall i | 0 <= i < |moves| :: moves[i].uid != u) ==> HomeAfter(home, u, moves) == home
    ensures forall i | 0 <= i < |moves| && moves[i].uid == u :: HomeAfter(home, u, moves) == moves[i].target
  {
    if moves != [] {
      var k := |moves| - 1;
      assert FirstOf(moves, k);
      forall j | 0 <= j < k ensures FirstOf(moves[..k], j) {
        assert FirstOf(moves, j);
      }
      HomeAfterIs(home, u, moves[..k]);
      assert forall i | 0 <= i < k :: moves[..k][i] == moves[i];
    }
  }

  /** A pod is where its move sent it, or where it was. */
  lemma EvacuatedHomes(e: Env, w: Work, from: Name, moves: seq<Move>, u: Uid)
    requires Shaped(e, w) && Batch(e, w.plan, from, moves) && u in w.plan
    ensures (forall i | 0 <= i < |moves| :: moves[i].uid != u) ==>
      Evacuated(e, w, from, moves).plan[u] == w.plan[u]
    ensures forall i | 0 <= i < |moves| && moves[i].uid == u ::
      Evacuated(e, w, from, moves).plan[u] == moves[i].target
  {
    EvacuatedHome(e, w, from, moves, u);
    HomeAfterIs(w.plan[u], u, moves);
  }

  /** Some of the moves is of this pod. */
  ghost predicate MovesPod(moves: seq<Move>, u: Uid) {
    moves != [] && (moves[|moves| - 1].uid == u || MovesPod(moves[..|moves| - 1], u))
  }

  /** The books keep a pod where it was with the score it had, or record its score where it is now. */
  ghost predicate ScoredAnew(e: Env, w: Work, w': Work, u: Uid, anew: bool)
    requires Shaped(e, w) && Shaped(e, w') && u in w.plan && u in w'.plan
  {
    if anew then
      var name := w'.plan[u];
      assert name in e.nodeByName;
      w'.scores[u] == Score(e, u, e.nodeByName[name])
    else w'.plan[u] == w.plan[u] && w'.scores[u] == w.scores[u]
  }

  lemma {:induction false} EvacuatedScores(e: Env, w: Work, from: Name, moves: seq<Move>, u: Uid)
    requires Shaped(e, w) && Batch(e, w.plan, from, moves) && u in w.plan
    ensures ScoredAnew(e, w, Evacuated(e, w, from, moves), u, MovesPod(moves, u))
  {
    if moves != [] {
      var k := |moves| - 1;
      BatchPrefix(e, w.plan, from, moves, k);
      EvacuatedScores(e, w, from, moves[..k], u);
    }
  }

  /** When a move's turn comes its pod is still at home. */
  lemma NextFromHome(e: Env, w: Work, from: Name, moves: seq<Move>, k: nat)
    requires Shaped(e, w) && Batch(e, w.plan, from, moves) && k < |moves|
    ensures Batch(e, w.plan, from, moves[..k]) && moves[k].uid in Evacuated(e, w, from, moves[..k]).plan
    ensures Evacuated(e, w, from, moves[..k]).plan[moves[k].uid] == from
  {
    BatchPrefix(e, w.plan, from, moves, k);
    EvacuatedHomes(e, w, from, moves[..k], moves[k].uid);
    assert forall i | 0 <= i < k :: moves[..k][i].uid != moves[k].uid;
  }

  lemma OneMore(left: Amount, taken: Amount, brought: Amount, r: Amount, home: bool, there: bool)
    ensures left.Plus(Share(taken, home)).Minus(brought).Plus(Share(r, home)).Minus(Share(r, there))
         == left.Plus(Share(taken.Plus(r), home)).Minus(brought.Plus(Share(r, there)))
  {
  }

  /** A node gains what leaves it and loses what is brought. */
  lemma {:induction false} EvacuatedLeft(e: Env, w: Work, from: Name, moves: seq<Move>, i: nat)
    requires Shaped(e, w) && Batch(e, w.plan, from, moves) && i < |e.nodes|
    ensures Evacuated(e, w, from, moves).remaining[i]
         == w.remaining[i].Plus(Share(Taken(e, moves), from == e.nodes[i].name)).Minus(Brought(e, moves, i))
  {
    if moves != [] {
      var k := |moves| - 1;
      EvacuatedLeft(e, w, from, moves[..k], i) by { BatchPrefix(e, w.plan, from, moves, k); }
      EvacuatedNext(e, w, from, moves, k);
      var r, here := e.podByUID[moves[k].uid].request, e.nodes[i].name;
      OneMore(w.remaining[i], Taken(e, moves[..k]), Brought(e, moves[..k], i), r,
              from == here, moves[k].target == here);
    }
  }

  lemma {:induction false} NothingBroughtHome(e: Env, plan: Plan, from: Name, moves: seq<Move>, i: nat)
    requires Batch(e, plan, from, moves) && i < |e.nodes| && e.nodes[i].name == from
    ensures Brought(e, moves, i) == ZERO
  {
    if moves != [] {
      BatchPrefix(e, plan, from, moves, |moves| - 1);
      NothingBroughtHome(e, plan, from, moves[..|moves| - 1], i);
    }
  }

  /** Everywhere the moves bring no more than was left. */
  ghost predicate AllFit(e: Env, remaining: seq<Amount>, moves: seq<Move>)
    requires |remaining| == |e.nodes| && KnownMoves(e, moves)
  {
    forall i {:trigger Brought(e, moves, i)} | 0 <= i < |e.nodes| :: Brought(e, moves, i).FitsIn(remaining[i])
  }

  /** An evacuation leaves no debt exactly when no node is brought more than it had left. */
  lemma EvacuateNoDebtIff(e: Env, w: Work, from: Name, moves: seq<Move>)
    requires Shaped(e, w) && Batch(e, w.plan, from, moves) && NoDebt(w)
    ensures NoDebt(Evacuated(e, w, from, moves)) <==> AllFit(e, w.remaining, moves)
  {
    var after := Evacuated(e, w, from, moves).remaining;
    forall i | 0 <= i < |e.nodes| ensures after[i].NonNegative() <==> Brought(e, moves, i).FitsIn(w.remaining[i]) {
      assert w.remaining[i].NonNegative();
      EvacuatedDebtAt(e, w, from, moves, i);
    }
  }

  lemma EvacuatedDebtAt(e: Env, w: Work, from: Name, moves: seq<Move>, i: nat)
    requires Shaped(e, w) && Batch(e, w.plan, from, moves) && i < |e.nodes| && w.remaining[i].NonNegative()
    ensures Evacuated(e, w, from, moves).remaining[i].NonNegative() <==> Brought(e, moves, i).FitsIn(w.remaining[i])
  {
    EvacuatedLeft(e, w, from, moves, i);
    if e.nodes[i].name == from {
      NothingBroughtHome(e, w.plan, from, moves, i);
    }
  }

  /** Evacuating a node keeps the books: the pods really are where the moves say. */
  lemma {:induction false} EvacuateKeepsLedger(e: Env, pods: seq<Pod>, w: Work, from: Name, moves: seq<Move>)
    requires Indexed(e, pods) && Shaped(e, w) && Batch(e, w.plan, from, moves) && Ledger(e, pods, w)
    ensures Ledger(e, pods, Evacuated(e, w, from, moves))
  {
    if moves != [] {
      var k := |moves| - 1;
      NextFromHome(e, w, from, moves, k);
      EvacuateKeepsLedger(e, pods, w, from, moves[..k]);
      RelocateKeepsLedgerIff(e, pods, Evacuated(e, w, from, moves[..k]), moves[k].uid, from, moves[k].target);
    }
  }

  lemma {:induction false} EvacuateKeepsTotal(e: Env, pods: seq<Pod>, w: Work, from: Name, moves: seq<Move>)
    requires Indexed(e, pods) && Shaped(e, w) && Batch(e, w.plan, from, moves) && TotalAdds(pods, w)
    ensures TotalAdds(pods, Evacuated(e, w, from, moves))
  {
    if moves != [] {
      var k := |moves| - 1;
      BatchPrefix(e, w.plan, from, moves, k);
      EvacuateKeepsTotal(e, pods, w, from, moves[..k]);
      RelocateKeepsTotal(e, pods, Evacuated(e, w, from, moves[..k]), moves[k].uid, from, moves[k].target);
    }
  }

  lemma {:induction false} EvacuateKeepsUsed(e: Env, w: Work, from: Name, moves: seq<Move>)
    requires Shaped(e, w) && Batch(e, w.plan, from, moves) && UsedExactly(w)
    ensures UsedExactly(Evacuated(e, w, from, moves))
  {
    if moves != [] {
      var k := |moves| - 1;
      NextFromHome(e, w, from, moves, k);
      EvacuateKeepsUsed(e, w, from, moves[..k]);
      RelocateKeepsUsed(e, Evacuated(e, w, from, moves[..k]), moves[k].uid, moves[k].target);
    }
  }

  /** The nodes an evacuation wakes: targets that need it and were not in use. */
  ghost function NewlyWoken(e: Env, plan: Plan, moves: seq<Move>): set<Name> {
    set i | 0 <= i < |moves| && moves[i].target in e.cold && Empty(plan, moves[i].target) :: moves[i].target
  }

  /** The moves take all pods off the node. */
  ghost predicate Clears(plan: Plan, from: Name, moves: seq<Move>) {
    forall u | u in plan && plan[u] == from :: exists i :: 0 <= i < |moves| && moves[i].uid == u
  }

  /** What an evacuation does to the number of nodes to wake. */
  lemma EvacuatedAwakened(e: Env, w: Work, from: Name, moves: seq<Move>)
    requires Shaped(e, w) && Batch(e, w.plan, from, moves) && moves != []
    ensures |Awakened(e, Evacuated(e, w, from, moves).plan)|
         == |Awakened(e, w.plan)| + |NewlyWoken(e, w.plan, moves)|
            - (if from in e.cold && Clears(w.plan, from, moves) then 1 else 0)
  {
    var after := Evacuated(e, w, from, moves).plan;
    forall n ensures Uses(after, n)
      <==> (exists i :: 0 <= i < |moves| && moves[i].target == n)
           || (Uses(w.plan, n) && !(n == from && Clears(w.plan, from, moves)))
    {
      EvacuatedUses(e, w, from, moves, n);
    }
    assert moves[0].uid in w.plan && w.plan[moves[0].uid] == from;
    AwakenedChange(e, w.plan, after, from, moves);
  }

  lemma AwakenedChange(e: Env, before: Plan, after: Plan, from: Name, moves: seq<Move>)
    requires Uses(before, from) && forall i | 0 <= i < |moves| :: moves[i].target != from
    requires forall n :: (Uses(after, n)
      <==> (exists i :: 0 <= i < |moves| && moves[i].target == n)
           || (Uses(before, n) && !(n == from && Clears(before, from, moves))))
    ensures |Awakened(e, after)|
         == |Awakened(e, before)| + |NewlyWoken(e, before, moves)|
            - (if from in e.cold && Clears(before, from, moves) then 1 else 0)
  {
    var lost := if from in e.cold && Clears(before, from, moves) then {from} else {};
    var woken, old', new' := NewlyWoken(e, before, moves), Awakened(e, before), Awakened(e, after);
    forall n: Name ensures n in new' <==> n in (old' - lost) + woken {
      AwakenedMeans(e, before, n);
      AwakenedMeans(e, after, n);
    }
    AwakenedMeans(e, before, from);
    assert lost <= old';
    forall n | n in woken ensures n !in old' {
      AwakenedMeans(e, before, n);
    }
    assert new' == (old' - lost) + woken;
  }

  lemma EvacuatedUses(e: Env, w: Work, from: Name, moves: seq<Move>, n: Name)
    requires Shaped(e, w) && Batch(e, w.plan, from, moves)
    ensures Uses(Evacuated(e, w, from, moves).plan, n)
       <==> (exists i :: 0 <= i < |moves| && moves[i].target == n)
            || (Uses(w.plan, n) && !(n == from && Clears(w.plan, from, moves)))
  {
    var after := Evacuated(e, w, from, moves).plan;
    if i :| 0 <= i < |moves| && moves[i].target == n {
      EvacuatedHomes(e, w, from, moves, moves[i].uid);
      assert moves[i].uid in after;
    } else if n == from {
      if u :| u in w.plan && w.plan[u] == from && forall i :: 0 <= i < |moves| ==> moves[i].uid != u {
        EvacuatedHomes(e, w, from, moves, u);
        assert u in after && after[u] == n;
      }
      if v :| v in after && after[v] == n {
        EvacuatedHomes(e, w, from, moves, v);
      }
    } else {
      if u :| u in w.plan && w.plan[u] == n {
        EvacuatedHomes(e, w, from, moves, u);
        assert u in after && after[u] == n;
      }
      if v :| v in after && after[v] == n {
        EvacuatedHomes(e, w, from, moves, v);
        assert v in w.plan;
      }
    }
  }

  /** Evacuation never looks at the power budget either. From a plan within it, it stays within it exactly
      when it wakes no more nodes than it frees, or the difference is left in the budget. */
  lemma EvacuationWithinBudgetIff(e: Env, w: Work, from: Name, moves: seq<Move>)
    requires Shaped(e, w) && Batch(e, w.plan, from, moves) && moves != [] && Powered(e, w.plan)
    ensures var woken := |NewlyWoken(e, w.plan, moves)|;
      var freed := if from in e.cold && Clears(w.plan, from, moves) then 1 else 0;
      Powered(e, Evacuated(e, w, from, moves).plan)
      <==> || woken <= freed
           || e.limits.currentPowerOnsInFlight + |Awakened(e, w.plan)| + woken - freed <= e.limits.maxConcurrentPowerOns
  {
    EvacuatedAwakened(e, w, from, moves);
  }
}
