/**
 Inputs on which the local search as written goes wrong: each with what greedy returns for it and the
 books the search starts from. No policy scores and no node preferences are needed.
 */
module LocalSearchExamples {
  import opened Options
  import opened Placement
  import opened Scoring
  import opened Solutions
  import opened GreedyProperties
  import opened LocalSearch
  import opened Histories
  import opened HeuristicSearch
  import opened HeuristicSolver
  import opened LocalSearchFlaws
  import opened ExamplePods
  import Greedy

  const TWO := Amount(2.0, 2.0)

  /** A node as the reconciler hands it over. */
  function Fresh(name: Name, size: Demand, ready: bool, offline: bool): Node {
    Node(name, size, size, 0.0, 0.0, 0.0, ready, offline)
  }

  /** The same node once scored among others without policy scores. */
  function AsScored(n: Node): Node {
    n.(baseScore := 0.0, normalizedScore := 1.0)
  }

  ghost predicate Unscored(nodes: seq<Node>) {
    forall i | 0 <= i < |nodes| :: nodes[i].policyScore == 0.0
  }

  ghost predicate ByName(nodes: seq<Node>) {
    forall i, j {:trigger nodes[i].name, nodes[j].name} | 0 <= i < j < |nodes| ::
      nodes[i].name < nodes[j].name && nodes[i].isReady == nodes[j].isReady
  }

  /** Listed by name and all ready or all not, they are already in preference order. */
  lemma OrderedByName(nodes: seq<Node>, order: seq<Node>)
    requires Unscored(nodes) && ByName(nodes) && PreferenceOrder(Greedy.Scored(nodes), order)
    ensures order == Greedy.Scored(nodes)
  {
    var scored := Greedy.Scored(nodes);
    forall i, j | 0 <= i < j < |scored|
      ensures scored[i].name < scored[j].name && !PreferredBefore(scored[j], scored[i])
    {
      assert nodes[i].name < nodes[j].name;
    }
    PreferenceOrderUnique(scored, order, scored);
  }

  /** What is left on a node at the start, and how the node is marked. */
  lemma StartLeft(input: SolverInput, g: SolverOutput, e: Env, w: Work, j: nat)
    requires Started(input, g, e) && StartWork(input, g, e, w) && j < |input.nodes|
    ensures |e.nodes| == |w.remaining| == |input.nodes|
    ensures var n := input.nodes[j];
      && e.nodes[j] == Marked(input.nodes, Flagged(g.assignments))[j] && e.nodes[j].name == n.name
      && w.remaining[j] == n.allocatable.Minus(Load(input.pods, w.plan, n.name))
  {
    SameLeftOver(input.pods, e.nodes, input.nodes, w.plan);
  }

  /* ------------------------- Three full nodes, and a stale one ------------------------- */

  const FULL_NODES := [Fresh(1, UNIT, false, true), Fresh(2, UNIT, false, true), Fresh(3, UNIT, false, true)]
  const FULL_INPUT := SolverInput([P, Q, R], FULL_NODES, Constraints(3, 0, 10, 0))

  function Wake(p: Pod, node: Name): Assignment {
    Assignment(p.namespace, p.name, p.uid, node, 0.0, true)
  }

  /** Greedy wakes a node for each pod. */
  lemma GreedyFillsThree(nodes: seq<Node>, c: Constraints)
    requires nodes == [AsScored(FULL_NODES[0]), AsScored(FULL_NODES[1]), AsScored(FULL_NODES[2])]
    requires c == FULL_INPUT.constraints
    ensures Greedy.After([P, Q, R], nodes, c, 3).out.assignments
         == map[1 := Wake(P, 1), 2 := Wake(Q, 2), 3 := Wake(R, 3)]
  {
    var pods := [P, Q, R];
    var t1, t2 := Greedy.TakePod(nodes[0], P), Greedy.TakePod(nodes[1], Q);
    var st0, st1 := Greedy.After(pods, nodes, c, 0), Greedy.After(pods, nodes, c, 1);
    var st2 := Greedy.After(pods, nodes, c, 2);
    Step(pods, nodes, c, 0);
    PlacedAt(st0, P, c, 0);
    assert st1.nodes == [t1, nodes[1], nodes[2]] && st1.powerOnsUsed == 1;
    Step(pods, nodes, c, 1);
    PlacedAt(st1, Q, c, 1);
    assert st2.nodes == [t1, t2, nodes[2]] && st2.powerOnsUsed == 2;
    Step(pods, nodes, c, 2);
    PlacedAt(st2, R, c, 2);
  }

  /** A pod goes to the first node that is usable. */
  lemma PlacedAt(st: Greedy.Run, pod: Pod, c: Constraints, i: nat)
    requires i < |st.nodes| && Greedy.Usable(pod, st.nodes[i], st.powerOnsUsed, c) && !Greedy.MigrationBlocked(pod, c)
    requires forall j | 0 <= j < i :: !Greedy.Usable(pod, st.nodes[j], st.powerOnsUsed, c)
    ensures Greedy.Placed(st, pod, c) == Greedy.Assigned(st, pod, i)
  {
  }

  lemma FullOrder(pods: seq<Pod>, order: seq<Node>)
    requires DemandOrder(FULL_INPUT.pods, pods) && PreferenceOrder(Greedy.Scored(FULL_NODES), order)
    ensures pods == [P, Q, R]
    ensures order == [AsScored(FULL_NODES[0]), AsScored(FULL_NODES[1]), AsScored(FULL_NODES[2])]
  {
    OrderedByName(FULL_NODES, order);
    PodsInOrder(FULL_INPUT.pods, pods);
  }

  lemma FullResult(pods: seq<Pod>, order: seq<Node>, g: SolverOutput)
    requires Greedy.Outcome(FULL_INPUT, pods, order, g)
    ensures g.assignments == map[1 := Wake(P, 1), 2 := Wake(Q, 2), 3 := Wake(R, 3)]
  {
    FullOrder(pods, order);
    GreedyFillsThree(order, FULL_INPUT.constraints);
  }

  /** On the books each pod is recorded at 0 on a full node now marked ready, and gains 100 anywhere. */
  ghost predicate FullShape(e: Env, w: Work) {
    && Shaped(e, w) && w.plan == map[1 := 1, 2 := 2, 3 := 3] && w.scores == map[1 := 0.0, 2 := 0.0, 3 := 0.0]
    && |e.nodes| == 3 && (forall j | 0 <= j < 3 :: e.nodes[j].name == j + 1 && w.remaining[j] == ZERO)
    && (forall u | 1 <= u <= 3 ::
        u in e.podByUID && e.podByUID[u].request == UNIT && e.podByUID[u].preferredNode == None)
    && (forall j | 0 <= j < 3 :: e.nodes[j].isReady && e.nodes[j].baseScore == 0.0)
  }

  lemma FullPods(e: Env)
    requires Indexed(e, FULL_INPUT.pods)
    ensures forall u | 1 <= u <= 3 ::
      u in e.podByUID && e.podByUID[u].request == UNIT && e.podByUID[u].preferredNode == None
  {
  }

  lemma FullNodes(nodes: seq<Node>, flagged: set<Name>)
    requires nodes == Marked(FULL_NODES, flagged) && 1 in flagged && 2 in flagged && 3 in flagged
    ensures |nodes| == 3
    ensures forall j | 0 <= j < 3 :: nodes[j].name == j + 1 && nodes[j].isReady && nodes[j].baseScore == 0.0
  {
  }

  lemma FullBooks(g: SolverOutput, e: Env, w: Work)
    requires g.assignments == map[1 := Wake(P, 1), 2 := Wake(Q, 2), 3 := Wake(R, 3)]
    requires Started(FULL_INPUT, g, e) && StartWork(FULL_INPUT, g, e, w)
    ensures FullShape(e, w)
  {
    FullFlags(g.assignments);
    FullPods(e);
    FullNodes(e.nodes, Flagged(g.assignments));
    FullLoads(FULL_INPUT.pods, w.plan);
    forall j | 0 <= j < 3 ensures w.remaining[j] == ZERO {
      StartLeft(FULL_INPUT, g, e, w, j);
    }
  }

  lemma FullFlags(assignments: map<Uid, Assignment>)
    requires assignments == map[1 := Wake(P, 1), 2 := Wake(Q, 2), 3 := Wake(R, 3)]
    ensures 1 in Flagged(assignments) && 2 in Flagged(assignments) && 3 in Flagged(assignments)
  {
    assert 1 in assignments && 2 in assignments && 3 in assignments;
  }

  lemma LoadOfOne(pods: seq<Pod>, plan: Plan, j: nat, node: Name)
    requires j < |pods| && Hosted(pods[j], plan, node)
    requires forall i | 0 <= i < |pods| && i != j :: !Hosted(pods[i], plan, node)
    ensures Load(pods, plan, node) == pods[j].request
  {
    var none: Plan := map[];
    SumUpdate(pods, CpuAt(none, node), CpuAt(plan, node), j);
    SumUpdate(pods, MemAt(none, node), MemAt(plan, node), j);
    SumZero(pods, CpuAt(none, node));
    SumZero(pods, MemAt(none, node));
  }

  lemma FullLoads(pods: seq<Pod>, plan: Plan)
    requires pods == [P, Q, R] && plan == map[1 := 1, 2 := 2, 3 := 3]
    ensures forall n | 1 <= n <= 3 :: Load(pods, plan, n) == UNIT
  {
    LoadOfOne(pods, plan, 0, 1);
    LoadOfOne(pods, plan, 1, 2);
    LoadOfOne(pods, plan, 2, 3);
  }

  /** On this input, whatever order maps are visited in, the first pass empties no node, and the swap pass
      may then make two swaps of the first pod after which a node hosts two pods and has room for one. */
  lemma StaleSwapsHappen(pods: seq<Pod>, order: seq<Node>, g: SolverOutput, e: Env, w: Work)
    requires Greedy.Outcome(FULL_INPUT, pods, order, g)
    requires Started(FULL_INPUT, g, e) && StartWork(FULL_INPUT, g, e, w)
    ensures NoNodeEmpties(e, w)
    ensures 1 in w.plan && var h := TwoSwaps(w, 1, 2, 3);
      && Sound(e, AS_WRITTEN, h) && OnlySwaps(Start(w), h) && NoDebt(Now(e, AS_WRITTEN, h))
      && !WithinCapacity(FULL_INPUT.pods, e.nodes, Now(e, AS_WRITTEN, h).plan)
  {
    FullResult(pods, order, g);
    FullBooks(g, e, w);
    FullIsStuck(e, w);
    StaleNodeBreaksTheLedger(e, FULL_INPUT.pods, AS_WRITTEN, w, 1, 2, 3);
  }

  lemma FullIsStuck(e: Env, w: Work)
    requires FullShape(e, w)
    ensures NoNodeEmpties(e, w)
  {
    forall n | n in w.nodesUsed && n in e.nodeByName && !Empty(w.plan, n) ensures Stuck(e, w, n) {
      var u :| u in w.plan && w.plan[u] == n;
      assert 1 <= u <= 3;
      assert NoTarget(e, e.podByUID[u], n, w.remaining);
    }
  }

  /** On this input the search flags no node, whatever steps it takes, and all it uses need a wake. */
  lemma NothingIsFlagged(pods: seq<Pod>, order: seq<Node>, g: SolverOutput, e: Env, h: History, out: SolverOutput)
    requires Greedy.Outcome(FULL_INPUT, pods, order, g) && Found(FULL_INPUT, g, AS_WRITTEN, e, h, out)
    ensures Flagged(out.assignments) == {}
    ensures Woken(Candidates(FULL_INPUT), PlanFrom(out.assignments)) != {}
  {
    FullResult(pods, order, g);
    FullPromise(pods, order, g);
    FlaggedIsRest(FULL_INPUT, g, AS_WRITTEN, e, h, out);
    FullReported(g, e, h, out);
  }

  lemma FullReported(g: SolverOutput, e: Env, h: History, out: SolverOutput)
    requires GreedyPromise(FULL_INPUT, g) && Found(FULL_INPUT, g, AS_WRITTEN, e, h, out)
    requires g.assignments == map[1 := Wake(P, 1), 2 := Wake(Q, 2), 3 := Wake(R, 3)]
    ensures Awakened(e, PlanFrom(out.assignments)) - Flagged(g.assignments) == {}
    ensures Woken(Candidates(FULL_INPUT), PlanFrom(out.assignments)) != {}
  {
    FoundKeepsPromise(FULL_INPUT, g, AS_WRITTEN, e, h, out);
    SamePods(g, h.Begun(), Now(e, AS_WRITTEN, h)) by {
      HistoryKeepsTotal(e, FULL_INPUT.pods, AS_WRITTEN, h);
    }
    AwakenedIsWoken(FULL_INPUT, e, PlanFrom(out.assignments));
    FullRest(g.assignments, e, Now(e, AS_WRITTEN, h));
  }

  lemma FullPromise(pods: seq<Pod>, order: seq<Node>, g: SolverOutput)
    requires Greedy.Outcome(FULL_INPUT, pods, order, g)
    ensures GreedyPromise(FULL_INPUT, g)
  {
    GreedyKeepsPromise(FULL_INPUT, pods, order, g);
  }

  lemma FullRest(assignments: map<Uid, Assignment>, e: Env, w: Work)
    requires assignments == map[1 := Wake(P, 1), 2 := Wake(Q, 2), 3 := Wake(R, 3)]
    requires w.plan.Keys == assignments.Keys && Shaped(e, w)
    requires e.cold == NamesToWake(FULL_NODES) && e.nodes == Marked(FULL_NODES, Flagged(assignments))
    ensures Awakened(e, w.plan) - Flagged(assignments) == {} && Awakened(e, w.plan) != {}
  {
    FullFlags(assignments);
    FullCold();
    FullNodes(e.nodes, Flagged(assignments));
    assert 1 in assignments.Keys && 1 in w.plan;
    FullUses(e, w, 1);
    assert Awakened(e, w.plan) <= e.cold <= Flagged(assignments);
  }

  lemma FullCold()
    ensures NamesToWake(FULL_NODES) == {1, 2, 3}
  {
    assert FULL_NODES[0] in FULL_NODES && FULL_NODES[1] in FULL_NODES && FULL_NODES[2] in FULL_NODES;
  }

  lemma FullUses(e: Env, w: Work, u: Uid)
    requires Shaped(e, w) && u in w.plan && e.cold == {1, 2, 3} && |e.nodes| == 3
    requires forall j | 0 <= j < 3 :: e.nodes[j].name == j + 1
    ensures w.plan[u] in Awakened(e, w.plan)
  {
    var name := w.plan[u];
    assert name in e.nodeByName;
    assert e.nodes[e.nodeByName[name]].name == name;
    AwakenedMeans(e, w.plan, name);
  }

  /* ------------------------- Two pods, and a target for one ------------------------- */

  const WIDE_NODES := [Fresh(1, TWO, true, false), Fresh(2, UNIT, true, false)]
  const WIDE_INPUT := SolverInput([P, Q], WIDE_NODES, Constraints(3, 0, 10, 0))

  function Ready(p: Pod, node: Name): Assignment {
    Assignment(p.namespace, p.name, p.uid, node, 100.0, false)
  }

  lemma WideOrder(pods: seq<Pod>, order: seq<Node>)
    requires DemandOrder(WIDE_INPUT.pods, pods) && PreferenceOrder(Greedy.Scored(WIDE_NODES), order)
    ensures pods == [P, Q] && order == [AsScored(WIDE_NODES[0]), AsScored(WIDE_NODES[1])]
  {
    OrderedByName(WIDE_NODES, order);
    PodsInOrder(WIDE_INPUT.pods, pods);
  }

  lemma GreedyPacksTwo(pods: seq<Pod>, nodes: seq<Node>, c: Constraints)
    requires pods == [P, Q] && nodes == [AsScored(WIDE_NODES[0]), AsScored(WIDE_NODES[1])]
    ensures Greedy.After(pods, nodes, c, 2).out.assignments == map[1 := Ready(P, 1), 2 := Ready(Q, 1)]
  {
    var st0, st1 := Greedy.After(pods, nodes, c, 0), Greedy.After(pods, nodes, c, 1);
    Step(pods, nodes, c, 0);
    PlacedAt(st0, P, c, 0);
    assert st1.nodes == [Greedy.TakePod(nodes[0], P), nodes[1]];
    Step(pods, nodes, c, 1);
    PlacedAt(st1, Q, c, 0);
  }

  lemma WideResult(pods: seq<Pod>, order: seq<Node>, g: SolverOutput)
    requires Greedy.Outcome(WIDE_INPUT, pods, order, g)
    ensures g.assignments == map[1 := Ready(P, 1), 2 := Ready(Q, 1)]
  {
    WideOrder(pods, order);
    GreedyPacksTwo(pods, order, WIDE_INPUT.constraints);
  }

  /** Both pods on the first node; the second has room for one, and is as good as any. */
  ghost predicate WideShape(e: Env, w: Work) {
    && Shaped(e, w) && w.plan == map[1 := 1, 2 := 1] && WideNodes(e.nodes) && WidePods(e) && w.remaining[1] == UNIT
  }

  ghost predicate WideNodes(nodes: seq<Node>) {
    |nodes| == 2 && nodes[0].name == 1 && nodes[1].name == 2 && nodes[1].isReady && nodes[1].baseScore == 0.0
  }

  ghost predicate WidePods(e: Env) {
    forall u | 1 <= u <= 2 ::
      u in e.podByUID && e.podByUID[u].request == UNIT && e.podByUID[u].preferredNode == None
  }

  lemma WideKnown(e: Env)
    requires Indexed(e, WIDE_INPUT.pods)
    ensures WidePods(e)
  {
  }

  lemma WideAreMarked(nodes: seq<Node>, flagged: set<Name>)
    requires nodes == Marked(WIDE_NODES, flagged)
    ensures WideNodes(nodes)
  {
  }

  lemma WideLoad(pods: seq<Pod>, plan: Plan)
    requires plan == map[1 := 1, 2 := 1]
    ensures Load(pods, plan, 2) == ZERO
  {
    LoadUnused(pods, plan, 2);
  }

  lemma WideBooks(g: SolverOutput, e: Env, w: Work)
    requires g.assignments == map[1 := Ready(P, 1), 2 := Ready(Q, 1)]
    requires Started(WIDE_INPUT, g, e) && StartWork(WIDE_INPUT, g, e, w)
    ensures WideShape(e, w)
  {
    WideKnown(e);
    WideAreMarked(e.nodes, Flagged(g.assignments));
    WideLoad(WIDE_INPUT.pods, w.plan);
    StartLeft(WIDE_INPUT, g, e, w, 1);
  }

  const BOTH := [Move(1, 2), Move(2, 2)]

  lemma WideIsPlanned(e: Env, w: Work)
    requires WideShape(e, w)
    ensures Accepted(e, AS_WRITTEN, w, Emptied(1, [1, 2], BOTH)) && AllOnNode(w.plan, 1, [1, 2])
  {
    assert 2 in e.nodeByName && e.nodeByName[2] == 1 && 1 in e.nodeByName && e.nodeByName[1] == 0 by {
      assert e.nodes[0].name == 1 && e.nodes[1].name == 2;
    }
    BothOnFirst(w.plan);
    WideFavourite(e, w, 1);
    WideFavourite(e, w, 2);
    assert BOTH[..1] == [Move(1, 2)] && BOTH[..1][..0] == [];
    assert Planned(e, AS_WRITTEN, w, 1, [1, 2], []);
    assert Planned(e, AS_WRITTEN, w, 1, [1, 2], BOTH[..1]);
    assert Planned(e, AS_WRITTEN, w, 1, [1, 2], BOTH);
    PlannedIsBatch(e, AS_WRITTEN, w, 1, [1, 2], BOTH);
  }

  lemma BothOnFirst(plan: Plan)
    requires plan == map[1 := 1, 2 := 1]
    ensures AllOnNode(plan, 1, [1, 2])
  {
    assert FirstAt([1, 2], 0) && FirstAt([1, 2], 1);
  }

  lemma WideFavourite(e: Env, w: Work, u: Uid)
    requires WideShape(e, w) && (u == 1 || u == 2)
    ensures u in e.podByUID && Favourite(e, e.podByUID[u], 1, w.remaining, 1)
  {
    assert Candidate(e, e.podByUID[u], 1, w.remaining, 1) && !Candidate(e, e.podByUID[u], 1, w.remaining, 0);
  }

  lemma WideBrought(e: Env)
    requires WideNodes(e.nodes) && WidePods(e) && KnownMoves(e, BOTH)
    ensures Brought(e, BOTH, 1) == TWO
  {
    assert BOTH[..1] == [Move(1, 2)] && BOTH[..1][..0] == [];
    assert Brought(e, [], 1) == ZERO;
    assert Brought(e, BOTH[..1], 1) == UNIT;
  }

  lemma WideOvercommits(e: Env, pods: seq<Pod>, w: Work)
    requires Indexed(e, pods) && WideShape(e, w) && Ledger(e, pods, w) && Batch(e, w.plan, 1, BOTH)
    ensures !AllFit(e, w.remaining, BOTH) && !WithinCapacity(pods, e.nodes, Evacuated(e, w, 1, BOTH).plan)
  {
    WideBrought(e);
    assert !Brought(e, BOTH, 1).FitsIn(w.remaining[1]);
    EvacuateKeepsLedger(e, pods, w, 1, BOTH);
    EvacuatedLeft(e, w, 1, BOTH, 1);
    Overcommitted(pods, e.nodes, Evacuated(e, w, 1, BOTH).plan, 1);
  }

  lemma WideStep(e: Env, pods: seq<Pod>, w: Work)
    requires Indexed(e, pods) && WideShape(e, w) && Ledger(e, pods, w)
    ensures var a := Emptied(1, [1, 2], BOTH);
      && Accepted(e, AS_WRITTEN, w, a) && AllOnNode(w.plan, 1, [1, 2]) && Overcommits(e, w, a)
      && !WithinCapacity(pods, e.nodes, Applied(e, AS_WRITTEN, w, a).plan)
  {
    WideIsPlanned(e, w);
    WideOvercommits(e, pods, w);
  }

  /** On this input the first pass sends both pods to a node that has room for one. */
  lemma OvercommitHappens(pods: seq<Pod>, order: seq<Node>, g: SolverOutput, e: Env, w: Work)
    requires Greedy.Outcome(WIDE_INPUT, pods, order, g)
    requires Started(WIDE_INPUT, g, e) && StartWork(WIDE_INPUT, g, e, w)
    ensures var a := Emptied(1, [1, 2], BOTH);
      && Accepted(e, AS_WRITTEN, w, a) && AllOnNode(w.plan, 1, [1, 2]) && Overcommits(e, w, a)
      && !WithinCapacity(WIDE_INPUT.pods, e.nodes, Applied(e, AS_WRITTEN, w, a).plan)
  {
    WideResult(pods, order, g);
    WideBooks(g, e, w);
    WideStep(e, WIDE_INPUT.pods, w);
  }

  /* -------------- Two pods on booting nodes, a third node offline, the budget spent -------------- */

  const SPENT_NODES := [Fresh(1, UNIT, false, false), Fresh(2, UNIT, false, false), Fresh(3, UNIT, false, true)]
  const SPENT_INPUT := SolverInput([P, Q], SPENT_NODES, Constraints(1, 1, 10, 0))

  function Booting(p: Pod, node: Name): Assignment {
    Assignment(p.namespace, p.name, p.uid, node, 0.0, false)
  }

  lemma SpentOrder(pods: seq<Pod>, order: seq<Node>)
    requires DemandOrder(SPENT_INPUT.pods, pods) && PreferenceOrder(Greedy.Scored(SPENT_NODES), order)
    ensures pods == [P, Q]
    ensures order == [AsScored(SPENT_NODES[0]), AsScored(SPENT_NODES[1]), AsScored(SPENT_NODES[2])]
  {
    OrderedByName(SPENT_NODES, order);
    PodsInOrder(SPENT_INPUT.pods, pods);
  }

  lemma GreedySpreadsTwo(pods: seq<Pod>, nodes: seq<Node>, c: Constraints)
    requires pods == [P, Q]
    requires nodes == [AsScored(SPENT_NODES[0]), AsScored(SPENT_NODES[1]), AsScored(SPENT_NODES[2])]
    ensures Greedy.After(pods, nodes, c, 2).out.assignments == map[1 := Booting(P, 1), 2 := Booting(Q, 2)]
  {
    var st0, st1 := Greedy.After(pods, nodes, c, 0), Greedy.After(pods, nodes, c, 1);
    Step(pods, nodes, c, 0);
    PlacedAt(st0, P, c, 0);
    assert st1.nodes == [Greedy.TakePod(nodes[0], P), nodes[1], nodes[2]];
    Step(pods, nodes, c, 1);
    PlacedAt(st1, Q, c, 1);
  }

  lemma SpentResult(pods: seq<Pod>, order: seq<Node>, g: SolverOutput)
    requires Greedy.Outcome(SPENT_INPUT, pods, order, g)
    ensures g.assignments == map[1 := Booting(P, 1), 2 := Booting(Q, 2)]
  {
    SpentOrder(pods, order);
    GreedySpreadsTwo(pods, order, SPENT_INPUT.constraints);
  }

  ghost predicate SpentShape(e: Env, w: Work) {
    && Shaped(e, w) && w.plan == map[1 := 1, 2 := 2] && w.scores == map[1 := 0.0, 2 := 0.0]
    && SpentNodes(e.nodes) && SpentPods(e)
    && w.remaining[0] == ZERO && w.remaining[1] == ZERO && w.remaining[2] == UNIT
  }

  ghost predicate SpentNodes(nodes: seq<Node>) {
    && |nodes| == 3
    && forall j | 0 <= j < 3 :: nodes[j].name == j + 1 && !nodes[j].isReady && nodes[j].baseScore == 0.0
  }

  ghost predicate SpentPods(e: Env) {
    forall u | 1 <= u <= 2 ::
      u in e.podByUID && e.podByUID[u].request == UNIT && e.podByUID[u].preferredNode == None
  }

  lemma SpentPlan(assignments: map<Uid, Assignment>)
    requires assignments == map[1 := Booting(P, 1), 2 := Booting(Q, 2)]
    ensures PlanFrom(assignments) == map[1 := 1, 2 := 2] && ScoresOf(assignments) == map[1 := 0.0, 2 := 0.0]
    ensures Flagged(assignments) == {}
  {
  }

  lemma SpentAreMarked(nodes: seq<Node>)
    requires nodes == Marked(SPENT_NODES, {})
    ensures SpentNodes(nodes)
  {
  }

  lemma SpentCold()
    ensures NamesToWake(SPENT_NODES) == {3}
  {
    assert SPENT_NODES[2] in SPENT_NODES;
  }

  lemma SpentKnown(e: Env)
    requires Indexed(e, SPENT_INPUT.pods)
    ensures SpentPods(e)
  {
  }

  lemma SpentBooks(g: SolverOutput, e: Env, w: Work)
    requires g.assignments == map[1 := Booting(P, 1), 2 := Booting(Q, 2)]
    requires Started(SPENT_INPUT, g, e) && StartWork(SPENT_INPUT, g, e, w)
    ensures SpentShape(e, w) && e.cold == {3}
  {
    SpentPlan(g.assignments);
    SpentAreMarked(e.nodes);
    SpentCold();
    SpentKnown(e);
    SpentLoads(SPENT_INPUT.pods, w.plan);
    StartLeft(SPENT_INPUT, g, e, w, 0);
    StartLeft(SPENT_INPUT, g, e, w, 1);
    StartLeft(SPENT_INPUT, g, e, w, 2);
  }

  lemma SpentLoads(pods: seq<Pod>, plan: Plan)
    requires pods == [P, Q] && plan == map[1 := 1, 2 := 2]
    ensures Load(pods, plan, 1) == UNIT && Load(pods, plan, 2) == UNIT && Load(pods, plan, 3) == ZERO
  {
    LoadOfOne(pods, plan, 0, 1);
    LoadOfOne(pods, plan, 1, 2);
    LoadUnused(pods, plan, 3);
  }

  lemma SpentRelocation(e: Env, w: Work)
    requires SpentShape(e, w)
    ensures Accepted(e, AS_WRITTEN, w, Moved(1, 2))
  {
    assert e.nodes[2].name == 3;
    assert WouldFree(w.plan, 1, 1);
    assert CanRelocate(e, AS_WRITTEN, w, 1, 2) && RelocationGain(e, w, 1, 2) == 50.0;
    assert !CanRelocate(e, AS_WRITTEN, w, 1, 0) && !CanRelocate(e, AS_WRITTEN, w, 1, 1);
  }

  lemma SpentEvacuation(e: Env, w: Work)
    requires SpentShape(e, w)
    ensures Accepted(e, AS_WRITTEN, w, Emptied(1, [1], [Move(1, 3)])) && AllOnNode(w.plan, 1, [1])
  {
    assert e.nodes[2].name == 3 && e.nodes[0].name == 1;
    assert Candidate(e, e.podByUID[1], 1, w.remaining, 2);
    assert Favourite(e, e.podByUID[1], 1, w.remaining, 2);
    assert [Move(1, 3)][..0] == [] && FirstAt([1], 0);
    assert Planned(e, AS_WRITTEN, w, 1, [1], []);
    assert Planned(e, AS_WRITTEN, w, 1, [1], [Move(1, 3)]);
    PlannedIsBatch(e, AS_WRITTEN, w, 1, [1], [Move(1, 3)]);
  }

  lemma SpentPower(e: Env, before: Plan, after: Plan)
    requires e.cold == {3} && e.limits == Constraints(1, 1, 10, 0)
    requires before == map[1 := 1, 2 := 2] && 1 in after && after[1] == 3
    ensures Powered(e, before) && !Powered(e, after)
  {
    assert Awakened(e, before) == {};
    assert Awakened(e, after) == {3};
  }

  lemma SpentExceeded(e: Env, w: Work)
    requires SpentShape(e, w) && e.cold == {3} && e.limits == Constraints(1, 1, 10, 0)
    requires Batch(e, w.plan, 1, [Move(1, 3)])
    ensures Powered(e, w.plan) && !Powered(e, w.plan[1 := 3]) && !Powered(e, Evacuated(e, w, 1, [Move(1, 3)]).plan)
  {
    var plan := Evacuated(e, w, 1, [Move(1, 3)]).plan;
    EvacuatedHomes(e, w, 1, [Move(1, 3)], 1);
    assert [Move(1, 3)][0].uid == 1 && 1 in plan && plan[1] == 3;
    SpentPower(e, w.plan, w.plan[1 := 3]);
    SpentPower(e, w.plan, plan);
  }

  /** With the budget spent, both a relocation and an evacuation of the first pod wake the third node. */
  lemma BudgetIsExceeded(pods: seq<Pod>, order: seq<Node>, g: SolverOutput, e: Env, w: Work)
    requires Greedy.Outcome(SPENT_INPUT, pods, order, g)
    requires Started(SPENT_INPUT, g, e) && StartWork(SPENT_INPUT, g, e, w)
    ensures Powered(e, w.plan)
    ensures Accepted(e, AS_WRITTEN, w, Moved(1, 2)) && !Powered(e, Applied(e, AS_WRITTEN, w, Moved(1, 2)).plan)
    ensures var evacuation := Emptied(1, [1], [Move(1, 3)]);
      && Accepted(e, AS_WRITTEN, w, evacuation) && AllOnNode(w.plan, 1, [1])
      && !Powered(e, Applied(e, AS_WRITTEN, w, evacuation).plan)
  {
    SpentResult(pods, order, g);
    SpentBooks(g, e, w);
    SpentRelocation(e, w);
    SpentEvacuation(e, w);
    SpentExceeded(e, w);
    assert e.nodes[2].name == 3;
  }

  lemma SpentShuffles(e: Env, w: Work)
    requires SpentShape(e, w)
    ensures Shuffling(e, w, Shuffle(UNIT, UNIT))
  {
    var x := Shuffle(UNIT, UNIT);
    SpentHomes(w.plan);
    assert Alike(e, w, x);
    assert e.nodes[0].name == 1 && e.nodes[1].name == 2 && e.nodes[2].name == 3;
    assert Filled(e, w, x) && SomeEmpty(e, w);
  }

  lemma SpentHomes(plan: Plan)
    requires plan == map[1 := 1, 2 := 2]
    ensures plan != map[] && forall u {:trigger plan[u]} | u in plan :: WouldFree(plan, u, plan[u])
    ensures !Empty(plan, 1) && !Empty(plan, 2) && Empty(plan, 3)
  {
    assert 1 in plan && 2 in plan && plan[1] == 1 && plan[2] == 2;
  }

  /** And on the same input the search never settles, whatever it visits first. */
  lemma SearchNeverSettles(pods: seq<Pod>, order: seq<Node>, g: SolverOutput, e: Env, h: History)
    requires Greedy.Outcome(SPENT_INPUT, pods, order, g) && Started(SPENT_INPUT, g, e)
    requires Sound(e, AS_WRITTEN, h) && StartWork(SPENT_INPUT, g, e, h.Begun())
    ensures !LocallyOptimal(e, AS_WRITTEN, Now(e, AS_WRITTEN, h))
  {
    SpentResult(pods, order, g);
    SpentBooks(g, e, h.Begun());
    SpentShuffles(e, h.Begun());
    NeverSettles(e, AS_WRITTEN, h, Shuffle(UNIT, UNIT));
  }

  /* ------------------------- Three ready nodes, one of them with a score ------------------------- */

  const RATED_NODES := [Fresh(1, UNIT, true, false).(policyScore := 60.0), Fresh(2, UNIT, true, false),
                        Fresh(3, UNIT, true, false)]
  const RATED_INPUT := SolverInput([P, Q], RATED_NODES, Constraints(3, 0, 10, 0))
  const FIRST_RATED := RATED_NODES[0].(baseScore := 60.0, normalizedScore := 1.0)

  lemma RatedCandidates()
    ensures WellFormed(RATED_INPUT) && Candidates(RATED_INPUT) == [FIRST_RATED, RATED_NODES[1], RATED_NODES[2]]
  {
    var based := Greedy.WithBaseScores(RATED_NODES);
    assert based == [RATED_NODES[0].(baseScore := 60.0), RATED_NODES[1], RATED_NODES[2]];
    assert MinBase(based) == 0.0 && MaxBase(based) == 60.0 by {
      assert based[0].baseScore == 60.0 && based[1].baseScore == 0.0;
    }
  }

  lemma RatedOrder(pods: seq<Pod>, order: seq<Node>)
    requires DemandOrder(RATED_INPUT.pods, pods) && PreferenceOrder(Candidates(RATED_INPUT), order)
    ensures pods == [P, Q] && order == [FIRST_RATED, RATED_NODES[1], RATED_NODES[2]]
  {
    RatedCandidates();
    PodsInOrder(RATED_INPUT.pods, pods);
    RatedIsOrdered(Candidates(RATED_INPUT));
    PreferenceOrderUnique(Candidates(RATED_INPUT), order, Candidates(RATED_INPUT));
  }

  lemma RatedIsOrdered(nodes: seq<Node>)
    requires nodes == [FIRST_RATED, RATED_NODES[1], RATED_NODES[2]]
    ensures DistinctNames(nodes) && PreferenceOrder(nodes, nodes)
  {
  }

  lemma GreedyTakesRated(pods: seq<Pod>, nodes: seq<Node>, c: Constraints)
    requires pods == [P, Q] && nodes == [FIRST_RATED, RATED_NODES[1], RATED_NODES[2]]
    ensures Greedy.After(pods, nodes, c, 2).out.assignments
         == map[1 := Ready(P, 1).(score := 160.0), 2 := Ready(Q, 2)]
  {
    var st0, st1 := Greedy.After(pods, nodes, c, 0), Greedy.After(pods, nodes, c, 1);
    Step(pods, nodes, c, 0);
    PlacedAt(st0, P, c, 0);
    assert st1.nodes == [Greedy.TakePod(nodes[0], P), nodes[1], nodes[2]];
    Step(pods, nodes, c, 1);
    PlacedAt(st1, Q, c, 1);
  }

  lemma RatedResult(pods: seq<Pod>, order: seq<Node>, g: SolverOutput)
    requires Greedy.Outcome(RATED_INPUT, pods, order, g)
    ensures g.assignments == map[1 := Ready(P, 1).(score := 160.0), 2 := Ready(Q, 2)] && Flagged(g.assignments) == {}
  {
    RatedOrder(pods, order);
    GreedyTakesRated(pods, order, RATED_INPUT.constraints);
    RatedPlan(g.assignments);
  }

  ghost predicate RatedShape(e: Env, w: Work) {
    && Shaped(e, w) && w.plan == map[1 := 1, 2 := 2] && w.scores == map[1 := 160.0, 2 := 100.0]
    && RatedNodes(e.nodes) && SpentPods(e)
    && w.remaining[0] == ZERO && w.remaining[1] == ZERO && w.remaining[2] == UNIT
  }

  /** The search's copies have no base score. */
  ghost predicate RatedNodes(nodes: seq<Node>) {
    && |nodes| == 3
    && forall j | 0 <= j < 3 :: nodes[j].name == j + 1 && nodes[j].isReady && nodes[j].baseScore == 0.0
  }

  lemma RatedAreMarked(nodes: seq<Node>)
    requires nodes == Marked(RATED_NODES, {})
    ensures RatedNodes(nodes)
  {
  }

  lemma RatedPlan(assignments: map<Uid, Assignment>)
    requires assignments == map[1 := Ready(P, 1).(score := 160.0), 2 := Ready(Q, 2)]
    ensures PlanFrom(assignments) == map[1 := 1, 2 := 2] && ScoresOf(assignments) == map[1 := 160.0, 2 := 100.0]
    ensures Flagged(assignments) == {}
  {
  }

  lemma RatedKnown(e: Env)
    requires Indexed(e, RATED_INPUT.pods)
    ensures SpentPods(e)
  {
  }

  lemma RatedBooks(g: SolverOutput, e: Env, w: Work)
    requires g.assignments == map[1 := Ready(P, 1).(score := 160.0), 2 := Ready(Q, 2)]
    requires Started(RATED_INPUT, g, e) && StartWork(RATED_INPUT, g, e, w)
    ensures RatedShape(e, w)
  {
    RatedPlan(g.assignments);
    RatedAreMarked(e.nodes);
    RatedKnown(e);
    SpentLoads(RATED_INPUT.pods, w.plan);
    StartLeft(RATED_INPUT, g, e, w, 0);
    StartLeft(RATED_INPUT, g, e, w, 1);
    StartLeft(RATED_INPUT, g, e, w, 2);
  }

  lemma RatedEvacuation(e: Env, w: Work)
    requires RatedShape(e, w)
    ensures Accepted(e, AS_WRITTEN, w, Emptied(1, [1], [Move(1, 3)])) && AllOnNode(w.plan, 1, [1])
  {
    assert e.nodes[2].name == 3 && e.nodes[0].name == 1;
    assert Candidate(e, e.podByUID[1], 1, w.remaining, 2);
    assert Favourite(e, e.podByUID[1], 1, w.remaining, 2);
    assert [Move(1, 3)][..0] == [] && FirstAt([1], 0);
    assert Planned(e, AS_WRITTEN, w, 1, [1], []);
    assert Planned(e, AS_WRITTEN, w, 1, [1], [Move(1, 3)]);
    PlannedIsBatch(e, AS_WRITTEN, w, 1, [1], [Move(1, 3)]);
  }

  lemma EvacuatedOne(e: Env, w: Work)
    requires RatedShape(e, w) && Batch(e, w.plan, 1, [Move(1, 3)])
    ensures var w' := Evacuated(e, w, 1, [Move(1, 3)]);
      RatedLeft(e, w') && w'.totalScore == w.totalScore - 60.0
  {
    assert e.nodes[0].name == 1 && e.nodes[2].name == 3;
    assert [Move(1, 3)][..0] == [];
    assert Evacuated(e, w, 1, []) == w;
    assert Evacuated(e, w, 1, [Move(1, 3)]) == Relocated(e, w, 1, 1, 3);
  }

  /** As the evacuation leaves them. */
  ghost predicate RatedLeft(e: Env, w: Work) {
    && Shaped(e, w) && RatedNodes(e.nodes) && SpentPods(e)
    && w.plan == map[1 := 3, 2 := 2] && w.scores == map[1 := 100.0, 2 := 100.0]
    && w.remaining[0] == UNIT && w.remaining[1] == ZERO && w.remaining[2] == ZERO
  }

  lemma SecondEvacuation(e: Env, w: Work)
    requires RatedLeft(e, w)
    ensures Accepted(e, AS_WRITTEN, w, Emptied(2, [2], [Move(2, 1)]))
  {
    assert e.nodes[0].name == 1 && e.nodes[1].name == 2 && e.nodes[2].name == 3;
    assert Candidate(e, e.podByUID[2], 2, w.remaining, 0);
    assert Favourite(e, e.podByUID[2], 2, w.remaining, 0);
    assert [Move(2, 1)][..0] == [] && FirstAt([2], 0);
    assert Planned(e, AS_WRITTEN, w, 2, [2], []);
    assert Planned(e, AS_WRITTEN, w, 2, [2], [Move(2, 1)]);
    PlannedIsBatch(e, AS_WRITTEN, w, 2, [2], [Move(2, 1)]);
  }

  lemma EvacuatedTwo(e: Env, w: Work)
    requires RatedLeft(e, w) && Batch(e, w.plan, 2, [Move(2, 1)])
    ensures Evacuated(e, w, 2, [Move(2, 1)]).totalScore == w.totalScore
    ensures Evacuated(e, w, 2, [Move(2, 1)]).plan == map[1 := 3, 2 := 1]
  {
    assert e.nodes[0].name == 1 && e.nodes[1].name == 2;
    assert [Move(2, 1)][..0] == [];
    assert Evacuated(e, w, 2, []) == w;
    assert Evacuated(e, w, 2, [Move(2, 1)]) == Relocated(e, w, 2, 2, 1);
    assert w.scores[2] == 100.0 && Score(e, 2, e.nodeByName[1]) == 100.0;
    var plan := w.plan;
    MovedOver(plan);
  }

  lemma MovedOver(plan: Plan)
    requires plan == map[1 := 3, 2 := 2]
    ensures plan[2 := 1] == map[1 := 3, 2 := 1]
  {
  }

  /** Consolidation empties the scored node first, and then the second one onto it. */
  ghost function Rotated(w: Work): History {
    Then(Then(Start(w), Emptied(1, [1], [Move(1, 3)])), Emptied(2, [2], [Move(2, 1)]))
  }

  /** On this input greedy's total is the score of its plan. The first pass may end with a plan that scores
      as much, the scored node being in use again, and a total that is 60 less. */
  lemma TotalFallsShort(pods: seq<Pod>, order: seq<Node>, g: SolverOutput, e: Env, w: Work)
    requires Greedy.Outcome(RATED_INPUT, pods, order, g)
    requires Started(RATED_INPUT, g, e) && StartWork(RATED_INPUT, g, e, w)
    ensures w.totalScore == 260.0 == PlanScore(RATED_INPUT.pods, Candidates(RATED_INPUT), PlanFrom(g.assignments))
    ensures Sound(e, AS_WRITTEN, Rotated(w)) && OnlyEvacuations(w.plan, Start(w), Rotated(w))
    ensures var now := Now(e, AS_WRITTEN, Rotated(w));
      now.totalScore == 200.0 && PlanScore(RATED_INPUT.pods, Candidates(RATED_INPUT), now.plan) == 260.0
  {
    RatedResult(pods, order, g);
    RatedBooks(g, e, w);
    RatedSteps(e, w);
    RatedTotal(pods, order, g);
    RatedScore(w.plan);
    RatedScore(Now(e, AS_WRITTEN, Rotated(w)).plan);
  }

  lemma RatedSteps(e: Env, w: Work)
    requires RatedShape(e, w)
    ensures Sound(e, AS_WRITTEN, Rotated(w)) && OnlyEvacuations(w.plan, Start(w), Rotated(w))
    ensures Now(e, AS_WRITTEN, Rotated(w)).plan == map[1 := 3, 2 := 1]
    ensures Now(e, AS_WRITTEN, Rotated(w)).totalScore == w.totalScore - 60.0
  {
    FirstStep(e, w);
    SecondStep(e, Then(Start(w), Emptied(1, [1], [Move(1, 3)])));
    SecondIsAlone(w.plan);
  }

  lemma FirstStep(e: Env, w: Work)
    requires RatedShape(e, w)
    ensures var h := Then(Start(w), Emptied(1, [1], [Move(1, 3)]));
      && Sound(e, AS_WRITTEN, h) && OnlyEvacuations(w.plan, Start(w), h)
      && RatedLeft(e, Now(e, AS_WRITTEN, h)) && Now(e, AS_WRITTEN, h).totalScore == w.totalScore - 60.0
  {
    RatedEvacuation(e, w);
    EvacuatedOne(e, w);
    Extend(e, AS_WRITTEN, Start(w), Emptied(1, [1], [Move(1, 3)]));
  }

  lemma SecondStep(e: Env, h: History)
    requires Sound(e, AS_WRITTEN, h) && RatedLeft(e, Now(e, AS_WRITTEN, h))
    ensures var h' := Then(h, Emptied(2, [2], [Move(2, 1)]));
      && Sound(e, AS_WRITTEN, h') && Now(e, AS_WRITTEN, h').plan == map[1 := 3, 2 := 1]
      && Now(e, AS_WRITTEN, h').totalScore == Now(e, AS_WRITTEN, h).totalScore
  {
    SecondEvacuation(e, Now(e, AS_WRITTEN, h));
    EvacuatedTwo(e, Now(e, AS_WRITTEN, h));
    Extend(e, AS_WRITTEN, h, Emptied(2, [2], [Move(2, 1)]));
  }

  lemma SecondIsAlone(plan: Plan)
    requires plan == map[1 := 1, 2 := 2]
    ensures AllOnNode(plan, 2, [2])
  {
    assert FirstAt([2], 0);
  }

  /** One pod on the scored node, the other elsewhere. */
  lemma RatedScore(plan: Plan)
    requires plan == map[1 := 1, 2 := 2] || plan == map[1 := 3, 2 := 1]
    ensures PlanScore(RATED_INPUT.pods, Candidates(RATED_INPUT), plan) == 260.0
  {
    RatedCandidates();
    RatedScoreOn(RATED_INPUT.pods, Candidates(RATED_INPUT), plan);
  }

  lemma RatedScoreOn(pods: seq<Pod>, nodes: seq<Node>, plan: Plan)
    requires pods == [P, Q] && nodes == [FIRST_RATED, RATED_NODES[1], RATED_NODES[2]]
    requires plan == map[1 := 1, 2 := 2] || plan == map[1 := 3, 2 := 1]
    ensures PlanScore(pods, nodes, plan) == 260.0
  {
    var none: Plan := map[];
    var i, j := if plan[1] == 1 then 0 else 2, if plan[1] == 1 then 1 else 0;
    SumZero(pods, ScoreIn(none, nodes));
    assert nodes[i] in nodes && nodes[j] in nodes;
    PlanScoreAssign(pods, nodes, none, 0, nodes[i]);
    PlanScoreAssign(pods, nodes, none[1 := nodes[i].name], 1, nodes[j]);
    assert none[1 := nodes[i].name][2 := nodes[j].name] == plan;
  }

  /** Greedy's own total claims nothing too much. */
  lemma RatedTotal(pods: seq<Pod>, order: seq<Node>, g: SolverOutput)
    requires Greedy.Outcome(RATED_INPUT, pods, order, g) && Flagged(g.assignments) == {}
    ensures g.totalScore == PlanScore(RATED_INPUT.pods, Candidates(RATED_INPUT), PlanFrom(g.assignments))
  {
    RatedCandidates();
    GreedyKeepsPromise(RATED_INPUT, pods, order, g);
    NothingTooMuch(RATED_INPUT, g);
  }

  lemma NothingTooMuch(input: SolverInput, g: SolverOutput)
    requires GreedyPromise(input, g) && Flagged(g.assignments) == {}
    ensures g.totalScore == PlanScore(input.pods, Candidates(input), PlanFrom(g.assignments))
  {
    SumZero(input.pods, OnAny(PlanFrom(g.assignments), {}));
  }
}
