/** The heuristic solve: from the greedy result to the books of the local search and back. */
module HeuristicSolver {
  import opened Placement
  import opened Scoring
  import opened Solutions
  import opened GreedyProperties
  import opened LocalSearch
  import opened Histories
  import opened SearchRounds
  import opened HeuristicSearch
  import Greedy

  /* ------------------------------ From assignments to books ------------------------------ */

  /** The candidates the search works on: greedy's wakes are marked ready, base scores are those of the
      unscored input. */
  ghost function Marked(nodes: seq<Node>, woken: set<Name>): seq<Node> {
    seq(|nodes|, i requires 0 <= i < |nodes| =>
      nodes[i].(isReady := nodes[i].isReady || nodes[i].name in woken,
                isOffline := nodes[i].isOffline && nodes[i].name !in woken))
  }

  /** The names of the nodes that need a wake. */
  function NamesToWake(nodes: seq<Node>): set<Name> {
    set n | n in nodes && Greedy.NeedsWake(n) :: n.name
  }

  /** The part of a map at the keys visited so far. */
  ghost function Part<K(!new), T>(m: map<K, T>, visited: seq<K>): map<K, T> {
    map u | u in m && u in visited :: m[u]
  }

  lemma PartStep<T>(m: map<Uid, T>, order: seq<Uid>, t: nat, u: Uid)
    requires t < |order| && order[t] == u && u in m
    ensures Part(m, order[..t + 1]) == Part(m, order[..t])[u := m[u]]
  {
    assert order[..t + 1] == order[..t] + [u];
  }

  lemma PartNew<T>(m: map<Uid, T>, order: seq<Uid>, t: nat)
    requires Enumerates(order, m.Keys) && t < |order|
    ensures order[t] in m && order[t] !in Part(m, order[..t])
  {
    Visiting(order, m.Keys, t);
  }

  lemma PartUses(plan: Plan, order: seq<Uid>, t: nat)
    requires Enumerates(order, plan.Keys) && t < |order| && order[t] in plan
    ensures forall n: Name ::
      Uses(Part(plan, order[..t + 1]), n) <==> Uses(Part(plan, order[..t]), n) || n == plan[order[t]]
  {
    PartNew(plan, order, t);
    PartStep(plan, order, t, order[t]);
    forall n: Name
      ensures Uses(Part(plan, order[..t + 1]), n) <==> Uses(Part(plan, order[..t]), n) || n == plan[order[t]]
    {
      UsesAssign(Part(plan, order[..t]), order[t], plan[order[t]], n);
    }
  }

  lemma PartAll<K(!new), T>(m: map<K, T>, order: seq<K>)
    requires Enumerates(order, m.Keys)
    ensures Part(m, order[..0]) == map[] && Part(m, order[..|order|]) == m
  {
    assert order[..|order|] == order;
  }

  /** The same nodes in name and capacity. */
  ghost predicate SameNodes(a: seq<Node>, b: seq<Node>) {
    |a| == |b| && forall i {:trigger a[i]} {:trigger b[i]} | 0 <= i < |a| ::
      a[i].name == b[i].name && a[i].allocatable == b[i].allocatable
  }

  lemma SameLeftOver(pods: seq<Pod>, a: seq<Node>, b: seq<Node>, plan: Plan)
    requires SameNodes(a, b)
    ensures LeftOver(pods, a, plan) == LeftOver(pods, b, plan)
  {
  }

  lemma ReplayStep(e: Env, pods: seq<Pod>, plan: Plan, u: Uid, target: Name)
    requires Indexed(e, pods) && u !in plan && u in e.podByUID && target in e.nodeByName
    ensures LeftOver(pods, e.nodes, plan[u := target])
         == Debit(LeftOver(pods, e.nodes, plan), e.nodeByName[target], e.podByUID[u].request)
  {
    var j := PodIndex(e, pods, u);
    forall k | 0 <= k < |e.nodes|
      ensures LeftOver(pods, e.nodes, plan[u := target])[k]
           == Debit(LeftOver(pods, e.nodes, plan), e.nodeByName[target], e.podByUID[u].request)[k]
    {
      LoadGrow(pods, plan, j, target, e.nodes[k].name);
      SameIndex(e, target, k);
    }
  }

  /** Every assignment is of a known pod to a known node. */
  ghost predicate KnownTargets(e: Env, assignments: map<Uid, Assignment>) {
    forall u | u in assignments :: u in e.podByUID && assignments[u].targetNode in e.nodeByName
  }

  /** Capacities and used nodes once the first t assignments have been replayed. */
  ghost predicate ReplayedTo(e: Env, pods: seq<Pod>, plan: Plan, order: seq<Uid>, t: nat, left: seq<Amount>,
                             used: set<Name>)
    requires t <= |order|
  {
    && left == LeftOver(pods, e.nodes, Part(plan, order[..t]))
    && forall n: Name :: n in used <==> Uses(Part(plan, order[..t]), n)
  }

  lemma ReplayNext(e: Env, pods: seq<Pod>, plan: Plan, order: seq<Uid>, t: nat, left: seq<Amount>, used: set<Name>)
    requires Indexed(e, pods) && Enumerates(order, plan.Keys)
    requires t < |order| && ReplayedTo(e, pods, plan, order, t, left, used)
    requires order[t] in plan && order[t] in e.podByUID && plan[order[t]] in e.nodeByName
    ensures |left| == |e.nodes|
    ensures var u, i := order[t], e.nodeByName[plan[order[t]]];
      i < |left| && ReplayedTo(e, pods, plan, order, t + 1, Debit(left, i, e.podByUID[u].request), used + {plan[u]})
  {
    var u := order[t];
    PartNew(plan, order, t);
    PartUses(plan, order, t);
    PartStep(plan, order, t, u);
    ReplayStep(e, pods, Part(plan, order[..t]), u, plan[u]);
  }

  lemma ReplayStart(e: Env, pods: seq<Pod>, plan: Plan, order: seq<Uid>)
    requires Enumerates(order, plan.Keys)
    ensures var full := seq(|e.nodes|, i requires 0 <= i < |e.nodes| => e.nodes[i].allocatable);
      ReplayedTo(e, pods, plan, order, 0, full, {})
    ensures Part(plan, order[..|order|]) == plan
  {
    PartAll(plan, order);
    EmptyPlanFeasible(pods, e.nodes, e.limits);
  }

  /** Replay the assignments in any order: capacity consumed, nodes used. */
  method Replay(e: Env, ghost pods: seq<Pod>, assignments: map<Uid, Assignment>)
    returns (remaining: seq<Amount>, nodesUsed: set<Name>)
    requires Indexed(e, pods) && KnownTargets(e, assignments)
    ensures remaining == LeftOver(pods, e.nodes, PlanFrom(assignments))
    ensures forall n: Name :: n in nodesUsed <==> Uses(PlanFrom(assignments), n)
  {
    var order := VisitOrder(assignments.Keys);
    ghost var plan := PlanFrom(assignments);
    assert plan.Keys == assignments.Keys;
    ReplayStart(e, pods, plan, order);
    remaining := seq(|e.nodes|, i requires 0 <= i < |e.nodes| => e.nodes[i].allocatable);
    nodesUsed := {};
    for t := 0 to |order|
      invariant ReplayedTo(e, pods, plan, order, t, remaining, nodesUsed)
    {
      var u := order[t];
      Visiting(order, assignments.Keys, t);
      assert u in assignments && plan[u] == assignments[u].targetNode;
      ReplayNext(e, pods, plan, order, t, remaining, nodesUsed);
      var i := e.nodeByName[assignments[u].targetNode];
      remaining := remaining[i := remaining[i].Minus(e.podByUID[u].request)];
      nodesUsed := nodesUsed + {assignments[u].targetNode};
    }
  }

  method MarkWakes(nodes: seq<Node>, nodeByName: map<Name, nat>, assignments: map<Uid, Assignment>)
    returns (marked: seq<Node>)
    requires DistinctNames(nodes)
    requires forall n | n in nodeByName :: nodeByName[n] < |nodes| && nodes[nodeByName[n]].name == n
    requires forall u | u in assignments :: assignments[u].targetNode in nodeByName
    ensures marked == Marked(nodes, Flagged(assignments))
  {
    var order := VisitOrder(assignments.Keys);
    PartAll(assignments, order);
    marked := nodes;
    assert Marked(nodes, Flagged(map[])) == nodes;
    for t := 0 to |order|
      invariant marked == Marked(nodes, Flagged(Part(assignments, order[..t])))
    {
      var u := order[t];
      PartNew(assignments, order, t);
      PartStep(assignments, order, t, u);
      FlaggedAssign(Part(assignments, order[..t]), u, assignments[u]);
      if assignments[u].requiresWake {
        var i := nodeByName[assignments[u].targetNode];
        marked := marked[i := marked[i].(isReady := true, isOffline := false)];
      }
    }
  }

  method IndexByUID(pods: seq<Pod>) returns (podByUID: map<Uid, Pod>)
    ensures podByUID.Keys == Uids(pods)
    ensures forall u | u in podByUID :: podByUID[u] in pods && podByUID[u].uid == u
  {
    podByUID := map[];
    for i := 0 to |pods|
      invariant podByUID.Keys == Uids(pods[..i])
      invariant forall u | u in podByUID :: podByUID[u] in pods && podByUID[u].uid == u
    {
      KeysGrow(pods, i);
      podByUID := podByUID[pods[i].uid := pods[i]];
    }
    assert pods[..|pods|] == pods;
  }

  /** What is fixed during the search from this greedy result. */
  ghost predicate Started(input: SolverInput, g: SolverOutput, e: Env) {
    && Indexed(e, input.pods) && e.nodes == Marked(input.nodes, Flagged(g.assignments))
    && e.cold == NamesToWake(input.nodes) && e.limits == input.constraints
  }

  /** The books it starts from. */
  ghost predicate StartWork(input: SolverInput, g: SolverOutput, e: Env, w: Work) {
    && Shaped(e, w) && w.plan == PlanFrom(g.assignments) && w.scores == ScoresOf(g.assignments)
    && w.totalScore == g.totalScore && Ledger(e, input.pods, w) && UsedExactly(w)
  }

  lemma TargetsKnown(input: SolverInput, e: Env, assignments: map<Uid, Assignment>)
    requires e.podByUID.Keys == Uids(input.pods) && e.nodeByName.Keys == Names(input.nodes)
    requires WellFormedPlan(input.pods, input.nodes, PlanFrom(assignments))
    ensures KnownTargets(e, assignments)
  {
    forall u | u in assignments ensures u in e.podByUID && assignments[u].targetNode in e.nodeByName {
      assert u in PlanFrom(assignments) && PlanFrom(assignments)[u] == assignments[u].targetNode;
    }
  }

  method BuildEnv(input: SolverInput, g: SolverOutput) returns (e: Env)
    requires WellFormed(input) && WellFormedPlan(input.pods, input.nodes, PlanFrom(g.assignments))
    ensures Started(input, g, e) && KnownTargets(e, g.assignments)
  {
    var podByUID := IndexByUID(input.pods);
    var nodeByName := IndexNodes(input.nodes);
    e := Env(podByUID, input.nodes, nodeByName, NamesToWake(input.nodes), input.constraints);
    TargetsKnown(input, e, g.assignments);
    var nodes := MarkWakes(input.nodes, nodeByName, g.assignments);
    e := e.(nodes := nodes);
  }

  method BuildSearchState(input: SolverInput, g: SolverOutput, rules: Rules) returns (state: SearchState)
    requires WellFormed(input) && WellFormedPlan(input.pods, input.nodes, PlanFrom(g.assignments))
    ensures fresh(state) && state.Valid() && state.rules == rules && state.history == Start(state.work)
    ensures Started(input, g, state.env) && StartWork(input, g, state.env, state.work)
  {
    var e := BuildEnv(input, g);
    var remaining, nodesUsed := Replay(e, input.pods, g.assignments);
    var podAssignment := map u | u in g.assignments :: g.assignments[u].targetNode;
    var scores := map u | u in g.assignments :: g.assignments[u].score;
    var work := Work(podAssignment, remaining, scores, g.totalScore, nodesUsed);
    state := new SearchState(e, rules, work);
  }

  /* ------------------------------ From books to assignments ------------------------------ */

  function Entry(e: Env, rules: Rules, w: Work, u: Uid): Assignment
    requires Shaped(e, w) && u in w.plan
  {
    var target := w.plan[u];
    var pod, node := e.podByUID[u], e.nodes[e.nodeByName[target]];
    Assignment(pod.namespace, pod.name, u, target, w.scores[u],
               if rules.flag then target in e.cold else Greedy.NeedsWake(node))
  }

  ghost function Entries(e: Env, rules: Rules, w: Work): map<Uid, Assignment>
    requires Shaped(e, w)
  {
    map u | u in w.plan :: Entry(e, rules, w, u)
  }

  /** The output says what the books say; the unassigned pods are greedy's. */
  ghost predicate Reported(e: Env, rules: Rules, w: Work, unassigned: seq<UnassignedPod>, out: SolverOutput)
    requires Shaped(e, w)
  {
    && out.assignments == Entries(e, rules, w) && out.unassignedPods == unassigned && out.totalScore == w.totalScore
    && out.algorithm == Solutions.Heuristic
    && (forall n: Name :: n in out.nodesUsed <==> Uses(w.plan, n))
    && out.offlineNodesUsed == |if rules.flag then Awakened(e, w.plan) else OfflineAmong(e.nodes, out.nodesUsed)|
  }

  /** Assignments for all pods on the books, in any order. */
  method StateToOutput(e: Env, rules: Rules, w: Work, unassigned: seq<UnassignedPod>) returns (out: SolverOutput)
    requires Shaped(e, w) && DistinctNames(e.nodes) && e.nodeByName.Keys == Names(e.nodes)
    ensures Reported(e, rules, w, unassigned, out)
  {
    var assignments, nodesUsed := EntriesOf(e, rules, w);
    var offline := CountOffline(e.nodes, e.nodeByName, nodesUsed);
    if rules.flag {
      offline := |Awakened(e, w.plan)|;
    }
    out := NewSolverOutput().(
      assignments := assignments, unassignedPods := unassigned, algorithm := Solutions.Heuristic,
      totalScore := w.totalScore, nodesUsed := nodesUsed, offlineNodesUsed := offline);
  }

  method EntriesOf(e: Env, rules: Rules, w: Work) returns (assignments: map<Uid, Assignment>, nodesUsed: set<Name>)
    requires Shaped(e, w)
    ensures assignments == Entries(e, rules, w)
    ensures forall n: Name :: n in nodesUsed <==> Uses(w.plan, n)
  {
    assignments, nodesUsed := map[], {};
    var order := VisitOrder(w.plan.Keys);
    assert w.plan.Keys == Entries(e, rules, w).Keys;
    PartAll(Entries(e, rules, w), order);
    PartAll(w.plan, order);
    for t := 0 to |order|
      invariant assignments == Part(Entries(e, rules, w), order[..t])
      invariant forall n: Name :: n in nodesUsed <==> Uses(Part(w.plan, order[..t]), n)
    {
      var u := order[t];
      PartNew(w.plan, order, t);
      PartStep(Entries(e, rules, w), order, t, u);
      PartUses(w.plan, order, t);
      assignments, nodesUsed := assignments[u := Entry(e, rules, w, u)], nodesUsed + {w.plan[u]};
    }
  }

  lemma EntriesSay(e: Env, rules: Rules, w: Work)
    requires Shaped(e, w)
    ensures PlanFrom(Entries(e, rules, w)) == w.plan && ScoresOf(Entries(e, rules, w)) == w.scores
  {
    assert w.scores == map u | u in w.scores.Keys :: w.scores[u];
    assert ScoresOf(Entries(e, rules, w)) == map u | u in w.plan.Keys :: w.scores[u];
  }

  lemma RestUnchanged(pods: seq<Pod>, before: Plan, after: Plan, entries: seq<UnassignedPod>)
    requires before.Keys == after.Keys && ListsTheRest(pods, before, entries)
    ensures ListsTheRest(pods, after, entries)
  {
    forall namespace, name
      ensures Listed(entries, namespace, name) as real == Sum(pods, Missing(after, namespace, name))
    {
      forall i | 0 <= i < |pods|
        ensures Value(Missing(before, namespace, name), pods[i]) == Value(Missing(after, namespace, name), pods[i])
      {
        SameKeys(before, after, pods[i].uid);
      }
      SumCongruence(pods, Missing(before, namespace, name), Missing(after, namespace, name));
    }
  }

  lemma SameKeys(a: Plan, b: Plan, u: Uid)
    requires a.Keys == b.Keys
    ensures u in a <==> u in b
  {
    assert u in a <==> u in a.Keys;
    assert u in b <==> u in b.Keys;
  }

  lemma UidIdentifies(pods: seq<Pod>, p: Pod, q: Pod)
    requires DistinctUids(pods) && p in pods && q in pods && p.uid == q.uid
    ensures p == q
  {
    var i :| 0 <= i < |pods| && pods[i] == p;
    var j :| 0 <= j < |pods| && pods[j] == q;
    assert pods[i].uid == pods[j].uid;
  }

  lemma EntriesIdentify(e: Env, rules: Rules, pods: seq<Pod>, w: Work)
    requires Indexed(e, pods) && Shaped(e, w)
    ensures Identifies(pods, Entries(e, rules, w)) && Entries(e, rules, w).Keys == w.plan.Keys
  {
    forall p | p in pods && p.uid in Entries(e, rules, w)
      ensures Entries(e, rules, w)[p.uid].podUID == p.uid
      ensures Entries(e, rules, w)[p.uid].podNamespace == p.namespace && Entries(e, rules, w)[p.uid].podName == p.name
    {
      UidIdentifies(pods, p, e.podByUID[p.uid]);
    }
  }

  /** Whatever steps were taken, every pod is accounted for. */
  lemma EntriesAccount(e: Env, rules: Rules, pods: seq<Pod>, w: Work, g: SolverOutput, out: SolverOutput)
    requires Indexed(e, pods) && Shaped(e, w) && Accounted(pods, g) && w.plan.Keys == g.assignments.Keys
    requires Reported(e, rules, w, g.unassignedPods, out)
    ensures Accounted(pods, out)
  {
    EntriesSay(e, rules, w);
    EntriesIdentify(e, rules, pods, w);
    assert PlanFrom(g.assignments).Keys == g.assignments.Keys;
    RestUnchanged(pods, PlanFrom(g.assignments), w.plan, out.unassignedPods);
  }

  /** The flag is set for the targets that need waking and that greedy did not already wake. */
  lemma EntriesFlag(e: Env, rules: Rules, nodes: seq<Node>, woken: set<Name>, w: Work, n: Node)
    requires !rules.flag && Shaped(e, w) && e.nodes == Marked(nodes, woken) && n in nodes
    ensures n.name in Flagged(Entries(e, rules, w))
       <==> Uses(w.plan, n.name) && Greedy.NeedsWake(n) && n.name !in woken
  {
    var i :| 0 <= i < |nodes| && nodes[i] == n;
    assert e.nodes[i].name == n.name;
    if u :| u in w.plan && w.plan[u] == n.name {
      assert Entry(e, rules, w, u).requiresWake <==> Greedy.NeedsWake(e.nodes[i]);
      assert u in Entries(e, rules, w) && Entries(e, rules, w)[u] == Entry(e, rules, w, u);
    }
  }

  /** With the flag taken from what the nodes were, the flagged ones are those in use that need a wake. */
  lemma EntriesFlagRight(e: Env, rules: Rules, w: Work)
    requires rules.flag && Shaped(e, w)
    ensures Flagged(Entries(e, rules, w)) == Awakened(e, w.plan)
  {
    forall n: Name ensures n in Flagged(Entries(e, rules, w)) <==> n in Awakened(e, w.plan) {
      if u :| u in w.plan && w.plan[u] == n && n in e.cold {
        assert Entries(e, rules, w)[u] == Entry(e, rules, w, u);
      }
    }
  }

  lemma NoDebtMeansCapacity(pods: seq<Pod>, nodes: seq<Node>, plan: Plan)
    ensures AllNonNegative(LeftOver(pods, nodes, plan)) <==> WithinCapacity(pods, nodes, plan)
  {
    var left := LeftOver(pods, nodes, plan);
    if AllNonNegative(left) {
      forall n | n in nodes ensures Load(pods, plan, n.name).FitsIn(n.allocatable) {
        var i :| 0 <= i < |nodes| && nodes[i] == n;
        assert left[i].NonNegative();
      }
    }
    if WithinCapacity(pods, nodes, plan) {
      forall i | 0 <= i < |left| ensures left[i].NonNegative() {
        assert nodes[i] in nodes;
        assert Load(pods, plan, nodes[i].name).FitsIn(nodes[i].allocatable);
      }
    }
  }

  /* ----------------------------------- The local search ----------------------------------- */

  /** No step of any kind would be accepted. (With reservation or the budget an evacuation may also be
      given up for these.) */
  ghost predicate LocallyOptimal(e: Env, rules: Rules, w: Work)
    requires Shaped(e, w)
  {
    NoRelocationPays(e, rules, w) && NoSwapPays(e, w) && (rules.reserve || rules.budget || NoNodeEmpties(e, w))
  }

  /** Rounds of consolidate, swap, relocate, each pass giving everything its turn if in time, until a round
      changes nothing, time is up, or `rounds` rounds have been made. `inTime` says that the deadline does not
      fall within these rounds. */
  method Improve(state: SearchState, rounds: nat, inTime: bool) returns (settled: bool)
    requires state.Valid()
    modifies state
    ensures state.Valid() && Extends(old(state.history), state.history)
    ensures inTime && settled ==> LocallyOptimal(state.env, state.rules, state.work)
    ensures !settled ==> state.history.Steps() >= old(state.history).Steps() + rounds
    ensures WithinRounds(state.env, state.rules, old(state.history), state.history, rounds, inTime)
  {
    ghost var start := state.history;
    var improved := true;
    var round := 0;
    ProgressBegins(state.env, state.rules, start, inTime);
    while improved && round < rounds
      invariant state.Valid() && round <= rounds
      invariant Progress(state.env, state.rules, start, state.history, round, inTime)
      invariant inTime && !improved ==> LocallyOptimal(state.env, state.rules, state.work)
      invariant improved ==> state.history.Steps() >= start.Steps() + round
      decreases rounds - round
    {
      improved := ImproveOnce(state, inTime, start, round);
      round := round + 1;
    }
    settled := !improved;
    ProgressEnds(state.env, state.rules, start, state.history, round, rounds, inTime);
  }

  lemma ProgressBegins(e: Env, rules: Rules, start: History, whole: bool)
    ensures Progress(e, rules, start, start, 0, whole)
  {
  }

  lemma ProgressEnds(e: Env, rules: Rules, start: History, h: History, n: nat, rounds: nat, whole: bool)
    requires Progress(e, rules, start, h, n, whole) && n <= rounds
    ensures Extends(start, h) && WithinRounds(e, rules, start, h, rounds, whole)
  {
  }

  /** n rounds since `start`. */
  ghost predicate Progress(e: Env, rules: Rules, start: History, h: History, n: nat, whole: bool) {
    Extends(start, h) && InRounds(e, rules, start, h, n, whole)
  }

  /** One more round after n; before each pass the deadline is looked at. */
  method ImproveOnce(state: SearchState, inTime: bool, ghost start: History, ghost n: nat) returns (improved: bool)
    requires state.Valid() && Progress(state.env, state.rules, start, state.history, n, inTime)
    modifies state
    ensures state.Valid() && Progress(state.env, state.rules, start, state.history, n + 1, inTime)
    ensures if improved then state.history.Steps() > old(state.history).Steps() else state.history == old(state.history)
    ensures inTime && !improved ==> LocallyOptimal(state.env, state.rules, state.work)
  {
    improved := false;
    ghost var h0 := state.history;
    var late: bool := *;
    if inTime || !late {
      improved := state.TryConsolidate(inTime);
    }
    ghost var h1 := state.history;
    late := *;
    if inTime || !late {
      var swapped := state.TrySwaps(inTime);
      improved := improved || swapped;
    }
    ghost var h2 := state.history;
    late := *;
    if inTime || !late {
      var moved := state.TryRelocations(inTime);
      improved := improved || moved;
    }
    RoundDone(state.env, state.rules, start, h0, h1, h2, state.history, n, inTime);
  }

  lemma RoundDone(e: Env, rules: Rules, start: History, h0: History, h1: History, h2: History, h: History, n: nat,
                  whole: bool)
    requires RoundVia(e, rules, h0, h1, h2, h, whole) && Progress(e, rules, start, h0, n, whole)
    ensures Progress(e, rules, start, h, n + 1, whole)
    ensures (h == h0 <==> h1 == h0 && h2 == h1 && h == h2) && (h != h0 ==> h.Steps() > h0.Steps())
  {
    RoundExtends(e, rules, h0, h1, h2, h, whole);
    OneMoreRound(e, rules, start, h0, h, n, whole);
  }

  /** A round goes on from where it began, and changes nothing only if no pass did. */
  lemma RoundExtends(e: Env, rules: Rules, h0: History, h1: History, h2: History, h: History, whole: bool)
    requires RoundVia(e, rules, h0, h1, h2, h, whole)
    ensures Extends(h0, h) && (h == h0 <==> h1 == h0 && h2 == h1 && h == h2)
  {
    PassExtends(Now(e, rules, h0).plan, h0, h1);
    PassExtends(map[], h1, h2);
    PassExtends(map[], h2, h);
    ExtendsCompose(h0, h1, h2);
    ExtendsCompose(h0, h2, h);
    ExtendsKeepsStart(h0, h1);
    ExtendsKeepsStart(h1, h2);
    ExtendsKeepsStart(h2, h);
  }

  /* ----------------------------------- The heuristic solve ----------------------------------- */

  /** What the heuristic may return when it searches: the books of some history of accepted steps that
      begins with greedy's result. */
  ghost predicate Found(input: SolverInput, g: SolverOutput, rules: Rules, e: Env, h: History, out: SolverOutput) {
    && Started(input, g, e) && Sound(e, rules, h) && StartWork(input, g, e, h.Begun())
    && Reported(e, rules, Now(e, rules, h), g.unassignedPods, out)
  }

  /** What it promises whatever steps were taken: the pods greedy placed stay placed, every pod is accounted
      for, and the total is the sum of the recorded scores. */
  ghost predicate HeuristicPromise(input: SolverInput, g: SolverOutput, out: SolverOutput) {
    && Accounted(input.pods, out)
    && out.assignments.Keys == g.assignments.Keys
    && out.totalScore == Sum(input.pods, RecordedIn(ScoresOf(out.assignments)))
  }

  /** The wake flags after a search: set for the nodes in use that need waking, except those that
      greedy woke. */
  ghost predicate FlagsLost(input: SolverInput, g: SolverOutput, out: SolverOutput) {
    forall n | n in input.nodes ::
      n.name in Flagged(out.assignments)
      <==> Uses(PlanFrom(out.assignments), n.name) && Greedy.NeedsWake(n) && n.name !in Flagged(g.assignments)
  }

  lemma FoundKeepsPromise(input: SolverInput, g: SolverOutput, rules: Rules, e: Env, h: History, out: SolverOutput)
    requires GreedyPromise(input, g) && Found(input, g, rules, e, h, out)
    ensures HeuristicPromise(input, g, out) && PlanFrom(out.assignments) == Now(e, rules, h).plan
  {
    var w := Now(e, rules, h);
    HistoryKeepsTotal(e, input.pods, rules, h);
    SamePods(g, h.Begun(), w);
    EntriesAccount(e, rules, input.pods, w, g, out);
    EntriesSay(e, rules, w);
    EntriesIdentify(e, rules, input.pods, w);
  }

  lemma SamePods(g: SolverOutput, w0: Work, w: Work)
    requires w0.plan == PlanFrom(g.assignments) && w.plan.Keys == w0.plan.Keys
    ensures w.plan.Keys == g.assignments.Keys
  {
    assert PlanFrom(g.assignments).Keys == g.assignments.Keys;
  }

  lemma FoundFlags(input: SolverInput, g: SolverOutput, rules: Rules, e: Env, h: History, out: SolverOutput)
    requires !rules.flag && Found(input, g, rules, e, h, out)
    ensures FlagsLost(input, g, out)
  {
    var w := Now(e, rules, h);
    EntriesSay(e, rules, w);
    forall n | n in input.nodes
      ensures n.name in Flagged(out.assignments)
        <==> Uses(PlanFrom(out.assignments), n.name) && Greedy.NeedsWake(n) && n.name !in Flagged(g.assignments)
    {
      EntriesFlag(e, rules, input.nodes, Flagged(g.assignments), w, n);
    }
  }

  /** Capacity: kept unless some swap was stale or some evacuation overcommitted. */
  lemma FoundWithinCapacity(input: SolverInput, g: SolverOutput, rules: Rules, e: Env, h: History, out: SolverOutput)
    requires WellFormed(input) && GreedyPromise(input, g) && Found(input, g, rules, e, h, out)
    requires NoneStale(e, rules, h) && (rules.reserve || NoneOvercommits(e, rules, h))
    ensures WithinCapacity(input.pods, input.nodes, PlanFrom(out.assignments))
  {
    var w := Now(e, rules, h);
    SameLeftOver(input.pods, e.nodes, input.nodes, h.Begun().plan);
    SameLeftOver(input.pods, e.nodes, input.nodes, w.plan);
    CapacityOnInput(input, PlanFrom(g.assignments));
    NoDebtMeansCapacity(input.pods, input.nodes, h.Begun().plan);
    NoDebtMeansCapacity(input.pods, input.nodes, w.plan);
    HistoryKeepsBooks(e, input.pods, rules, h);
    HistoryKeepsCredit(e, rules, h);
    EntriesSay(e, rules, w);
  }

  lemma CandidatesSame(input: SolverInput)
    ensures SameNodes(Cold(Candidates(input)), input.nodes)
    ensures forall i | 0 <= i < |input.nodes| ::
      Cold(Candidates(input))[i].isOffline == Greedy.NeedsWake(input.nodes[i])
  {
  }

  lemma CapacityAlike(pods: seq<Pod>, a: seq<Node>, b: seq<Node>, plan: Plan)
    requires SameNodes(a, b)
    ensures WithinCapacity(pods, a, plan) == WithinCapacity(pods, b, plan)
    ensures Names(a) == Names(b)
  {
    SameLeftOver(pods, a, b, plan);
    NoDebtMeansCapacity(pods, a, plan);
    NoDebtMeansCapacity(pods, b, plan);
    NamesAlike(a, b);
    NamesAlike(b, a);
  }

  lemma NamesAlike(a: seq<Node>, b: seq<Node>)
    requires |a| == |b| && forall i {:trigger a[i]} {:trigger b[i]} | 0 <= i < |a| :: a[i].name == b[i].name
    ensures Names(a) <= Names(b)
  {
    forall n | n in a ensures n.name in Names(b) {
      var i :| 0 <= i < |a| && a[i] == n;
      assert b[i] in b;
    }
  }

  lemma CapacityOnInput(input: SolverInput, plan: Plan)
    requires Feasible(input.pods, Cold(Candidates(input)), input.constraints, plan)
    ensures WithinCapacity(input.pods, input.nodes, plan) && WellFormedPlan(input.pods, input.nodes, plan)
  {
    CandidatesSame(input);
    CapacityAlike(input.pods, Cold(Candidates(input)), input.nodes, plan);
  }

  /** The nodes a plan wakes, counted either way. */
  lemma AwakenedIsWoken(input: SolverInput, e: Env, plan: Plan)
    requires e.cold == NamesToWake(input.nodes)
    ensures Awakened(e, plan) == Woken(Candidates(input), plan)
  {
    var cold := Cold(Candidates(input));
    CandidatesSame(input);
    forall n ensures n in Awakened(e, plan) <==> n in Woken(Candidates(input), plan) {
      AwakenedMeans(e, plan, n);
      if n in e.cold {
        var m :| m in input.nodes && Greedy.NeedsWake(m) && m.name == n;
        var i :| 0 <= i < |input.nodes| && input.nodes[i] == m;
        assert cold[i] in cold;
      }
      if n in Woken(Candidates(input), plan) {
        var m :| m in cold && m.isOffline && Uses(plan, m.name) && m.name == n;
        var i :| 0 <= i < |cold| && cold[i] == m;
        assert input.nodes[i] in input.nodes;
      }
    }
  }

  /** With nodes read again, capacity reserved and the budget looked at, the local search is as feasible as
      greedy, whatever the deadline does. */
  lemma IntendedIsFeasible(input: SolverInput, g: SolverOutput, rules: Rules, e: Env, h: History, out: SolverOutput)
    requires WellFormed(input) && GreedyPromise(input, g) && Found(input, g, rules, e, h, out)
    requires rules.reread && rules.reserve && rules.budget
    ensures Feasible(input.pods, Cold(Candidates(input)), input.constraints, PlanFrom(out.assignments))
  {
    var plan := Now(e, rules, h).plan;
    RereadIsNeverStale(e, rules, h);
    EntriesSay(e, rules, Now(e, rules, h));
    assert WithinPowerBudget(input.constraints, Woken(Candidates(input), plan)) by {
      AwakenedIsWoken(input, e, h.Begun().plan);
      HistoryKeepsPower(e, rules, h);
      AwakenedIsWoken(input, e, plan);
    }
    FoundWithinCapacity(input, g, rules, e, h, out);
    CandidatesSame(input);
    CapacityAlike(input.pods, Cold(Candidates(input)), input.nodes, plan);
    assert WellFormedPlan(input.pods, input.nodes, plan) by {
      PlanStaysWellFormed(input, g, e, Now(e, rules, h));
    }
  }

  /** With the flags repaired as well its result is as safe to apply as greedy's. */
  lemma IntendedIsSafe(input: SolverInput, g: SolverOutput, e: Env, h: History, out: SolverOutput)
    requires WellFormed(input) && GreedyPromise(input, g) && Found(input, g, INTENDED, e, h, out)
    ensures SafeToApply(input, out)
  {
    var w := Now(e, INTENDED, h);
    IntendedIsFeasible(input, g, INTENDED, e, h, out);
    EntriesSay(e, INTENDED, w);
    EntriesFlagRight(e, INTENDED, w);
    AwakenedIsWoken(input, e, w.plan);
  }

  /** As written the flagged nodes are those in use that need a wake, less those that greedy woke. */
  lemma FlaggedIsRest(input: SolverInput, g: SolverOutput, rules: Rules, e: Env, h: History, out: SolverOutput)
    requires !rules.flag && Found(input, g, rules, e, h, out)
    ensures Flagged(out.assignments) == Awakened(e, PlanFrom(out.assignments)) - Flagged(g.assignments)
  {
    var w, plan := Now(e, rules, h), PlanFrom(out.assignments);
    FoundFlags(input, g, rules, e, h, out);
    EntriesSay(e, rules, w);
    forall n: Name ensures n in Flagged(out.assignments) <==> n in Awakened(e, plan) - Flagged(g.assignments) {
      AwakenedMeans(e, plan, n);
      FlaggedIsKnown(input, g, rules, e, w, n);
    }
  }

  lemma GreedyFlagsAreCold(input: SolverInput, g: SolverOutput, e: Env, n: Name)
    requires GreedyPromise(input, g) && Started(input, g, e) && n in Flagged(g.assignments)
    ensures n in e.cold
  {
    AwakenedIsWoken(input, e, PlanFrom(g.assignments));
  }

  /** As written the flags are right exactly when no node that greedy woke is still in use. */
  lemma FlagsRightIff(input: SolverInput, g: SolverOutput, rules: Rules, e: Env, h: History, out: SolverOutput)
    requires !rules.flag && GreedyPromise(input, g) && Found(input, g, rules, e, h, out)
    ensures Flagged(out.assignments) == Woken(Candidates(input), PlanFrom(out.assignments))
       <==> forall n | n in Flagged(g.assignments) :: !Uses(PlanFrom(out.assignments), n)
  {
    var plan := PlanFrom(out.assignments);
    FlaggedIsRest(input, g, rules, e, h, out);
    AwakenedIsWoken(input, e, plan);
    forall n | n in Flagged(g.assignments) ensures n in Awakened(e, plan) <==> Uses(plan, n) {
      GreedyFlagsAreCold(input, g, e, n);
      AwakenedMeans(e, plan, n);
    }
    RestIsAllIff(Awakened(e, plan), Flagged(g.assignments));
  }

  lemma RestIsAllIff<T(!new)>(all: set<T>, less: set<T>)
    ensures all - less == all <==> forall x | x in less :: x !in all
  {
    if all - less == all {
      forall x | x in less ensures x !in all {
        assert x !in all - less;
      }
    }
  }

  /** Every flagged name is that of a candidate. */
  lemma FlaggedIsKnown(input: SolverInput, g: SolverOutput, rules: Rules, e: Env, w: Work, n: Name)
    requires Started(input, g, e) && Shaped(e, w)
    ensures n in Flagged(Entries(e, rules, w)) ==> exists m :: m in input.nodes && m.name == n
    ensures n in e.cold ==> exists m :: m in input.nodes && m.name == n && Greedy.NeedsWake(m)
  {
    if n in Flagged(Entries(e, rules, w)) {
      var u :| u in w.plan && w.plan[u] == n;
      var i := e.nodeByName[n];
      assert e.nodes[i].name == n;
      assert input.nodes[i] in input.nodes && input.nodes[i].name == n;
    }
  }

  lemma PlanStaysWellFormed(input: SolverInput, g: SolverOutput, e: Env, w: Work)
    requires Started(input, g, e) && Shaped(e, w)
    ensures WellFormedPlan(input.pods, input.nodes, w.plan)
  {
    forall u | u in w.plan ensures u in Uids(input.pods) && w.plan[u] in Names(input.nodes) {
      var name := w.plan[u];
      assert u in e.podByUID.Keys && name in e.nodeByName;
      var i := e.nodeByName[name];
      assert e.nodes[i].name == name;
      assert input.nodes[i].name == name && input.nodes[i] in input.nodes;
    }
  }

  /** Local search from the greedy result. */
  method SearchFrom(input: SolverInput, greedy: SolverOutput, rules: Rules, rounds: nat, inTime: bool)
    returns (out: SolverOutput, ghost e: Env, ghost h: History)
    requires WellFormed(input) && WellFormedPlan(input.pods, input.nodes, PlanFrom(greedy.assignments))
    ensures Found(input, greedy, rules, e, h, out)
    ensures inTime ==> LocallyOptimal(e, rules, Now(e, rules, h)) || h.Steps() >= rounds
    ensures WithinRounds(e, rules, Start(h.Begun()), h, rounds, inTime)
  {
    var state := BuildSearchState(input, greedy, rules);
    ghost var start := state.history;
    var settled := Improve(state, rounds, inTime);
    ExtendsKeepsStart(start, state.history);
    LocatedNames(state.env);
    out := StateToOutput(state.env, rules, state.work, greedy.unassignedPods);
    e, h := state.env, state.history;
  }

  lemma LocatedNames(e: Env)
    requires Located(e)
    ensures DistinctNames(e.nodes) && e.nodeByName.Keys == Names(e.nodes)
  {
    forall n ensures n in e.nodeByName <==> n in Names(e.nodes) {
      if n in e.nodeByName {
        assert e.nodes[e.nodeByName[n]] in e.nodes;
      }
    }
  }

  /** `rounds` is how many rounds are begun before the deadline at most, `inTime` whether it falls after
      the last of them. As in the source, rules are AS_WRITTEN; the other settings are what is meant. */
  method Solve(input: SolverInput, rules: Rules, rounds: nat, inTime: bool)
    returns (out: SolverOutput, ghost g: SolverOutput, ghost e: Env, ghost h: History)
    requires WellFormed(input)
    ensures (exists pods, order :: Greedy.Outcome(input, pods, order, g)) && GreedyPromise(input, g)
    ensures HeuristicPromise(input, g, out) && out.algorithm == Solutions.Heuristic
    ensures |g.assignments| < 2 ==> out == g.(algorithm := Solutions.Heuristic)
    ensures |g.assignments| >= 2 ==> Found(input, g, rules, e, h, out)
    ensures |g.assignments| >= 2 && !rules.flag ==> FlagsLost(input, g, out)
    ensures |g.assignments| >= 2 && inTime ==> LocallyOptimal(e, rules, Now(e, rules, h)) || h.Steps() >= rounds
    ensures |g.assignments| >= 2 ==> WithinRounds(e, rules, Start(h.Begun()), h, rounds, inTime)
    ensures rules == INTENDED ==> SafeToApply(input, out)
  {
    var greedy := Greedy.Solve(input);
    ghost var gpods, gorder :| Greedy.Outcome(input, gpods, gorder, greedy);
    g := greedy;
    GreedyKeepsPromise(input, gpods, gorder, g);
    if |greedy.assignments| < 2 {
      out := greedy.(algorithm := Solutions.Heuristic);
      e, h := Env(map[], [], map[], {}, input.constraints), Start(Work(map[], [], map[], 0.0, {}));
    } else {
      CapacityOnInput(input, PlanFrom(g.assignments));
      out, e, h := SearchFrom(input, greedy, rules, rounds, inTime);
      FoundKeepsPromise(input, g, rules, e, h, out);
      if !rules.flag {
        FoundFlags(input, g, rules, e, h, out);
      }
      if rules == INTENDED {
        IntendedIsSafe(input, g, e, h, out);
      }
    }
  }
}
