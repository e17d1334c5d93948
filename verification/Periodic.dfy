/**
 The periodic reconciler: which pods are handed to the solver, how its assignments are written back, how
 power-ons are recorded, and when a pod's scheduling gate comes off.
 */
module Periodic {
  import opened Options
  import opened Placement
  import opened Solutions
  import opened GreedyProperties
  import opened RcNode
  import BudgetTracker
  import Greedy
  import Solver

  /* ------------------------------------ Candidates ------------------------------------ */

  /** A candidate node starts every solve with its whole allocatable capacity. */
  function BuildCandidate(name: Name, allocatable: Demand, policyScore: real, current: Phase, desired: Phase): Node {
    Node(name, allocatable, allocatable, policyScore, 0.0, 0.0,
         current == Online, current == Offline || desired == Offline)
  }

  /** Ready means online now, offline means off now or asked to go off; so the two flags clash exactly for a
      node that is online and asked to go offline. A node that is neither is booting, shutting down, in error
      or new: it is used as it is. */
  lemma ReadyAndOfflineIff(name: Name, allocatable: Demand, policyScore: real, current: Phase, desired: Phase)
    ensures var n := BuildCandidate(name, allocatable, policyScore, current, desired);
      && n.name == name && n.remaining == n.allocatable == allocatable
      && (n.isReady <==> current == Online)
      && (n.isOffline <==> current == Offline || desired == Offline)
      && (n.isReady && n.isOffline <==> current == Online && desired == Offline)
      && (Greedy.NeedsWake(n) <==> current == Offline || (desired == Offline && current != Online))
  {
  }

  /* --------------------------------- Pods and their gates --------------------------------- */

  /** The scheduling gate this project adds, or somebody else's. */
  datatype Gate = SchedulingGate | ForeignGate(id: int)

  datatype Toleration = NodeTaint(node: Name) | Other(id: int)

  /** What the reconciler reads and writes of a pod. `assignedNode` is the label of that name, `hostname`
      the hostname entry of the node selector. */
  datatype PodRecord = PodRecord(
    inSystemNamespace: bool, gates: seq<Gate>,
    assignedNode: Option<Name>, hostname: Option<Name>, tolerations: seq<Toleration>)

  predicate HasSchedulingGate(pod: PodRecord) {
    SchedulingGate in pod.gates
  }

  /** Handed to the solver: gated by anyone, and not assigned yet. */
  predicate AwaitsPlacement(pod: PodRecord) {
    !pod.inSystemNamespace && |pod.gates| > 0 && pod.assignedNode.None?
  }

  /** Released in a pass over a snapshot: assignedNode, still gated by us, and its node ready. */
  predicate Releasable(pod: PodRecord, ready: set<Name>) {
    !pod.inSystemNamespace && pod.assignedNode.Some? && HasSchedulingGate(pod) && pod.assignedNode.value in ready
  }

  /** The patch: the snapshot's tolerations and the node's, the node's hostname, and no gates at all. */
  function Released(pod: PodRecord, seen: PodRecord): PodRecord
    requires seen.assignedNode.Some?
  {
    pod.(gates := [], hostname := seen.assignedNode,
         tolerations := seen.tolerations + [NodeTaint(seen.assignedNode.value)])
  }

  type Store = map<Uid, PodRecord>

  /** The store after a release pass in which the patches of `failing` pods did not go through. */
  function AfterRelease(store: Store, snapshot: Store, ready: set<Name>, failing: set<Uid>): Store {
    map u | u in store ::
      if u in snapshot && Releasable(snapshot[u], ready) && u !in failing
      then Released(store[u], snapshot[u]) else store[u]
  }

  /** The store after the solver's targets were written as labels. */
  function AfterLabels(store: Store, plan: Plan, failing: set<Uid>): Store {
    map u | u in store ::
      if u in plan && u !in failing then store[u].(assignedNode := Some(plan[u])) else store[u]
  }

  class Reconciler {
    var pods: Store
    var desired: map<Name, Phase>
    const tracker: BudgetTracker.Tracker

    constructor (pods: Store, desired: map<Name, Phase>, tracker: BudgetTracker.Tracker)
      ensures this.pods == pods && this.desired == desired && this.tracker == tracker
    {
      this.pods, this.desired, this.tracker := pods, desired, tracker;
    }

    /** Scan the snapshot, in any order, and release what may go. */
    method ProcessAssignedPods(snapshot: Store, ready: set<Name>, failing: set<Uid>)
      modifies this`pods
      ensures pods == AfterRelease(old(pods), snapshot, ready, failing)
    {
      var order := VisitOrder(snapshot.Keys);
      for t := 0 to |order|
        invariant pods == AfterRelease(old(pods), Seen(snapshot, order[..t]), ready, failing)
      {
        var u := order[t];
        Visiting(order, snapshot.Keys, t);
        ReleaseStep(old(pods), snapshot, ready, failing, order, t, u);
        var pod := snapshot[u];
        if u in pods && !pod.inSystemNamespace && pod.assignedNode.Some? && HasSchedulingGate(pod)
           && pod.assignedNode.value in ready && u !in failing {
          ReleaseToScheduler(u, pod, pod.assignedNode.value);
        }
      }
    }

    method ReleaseToScheduler(u: Uid, seen: PodRecord, node: Name)
      requires u in pods && seen.assignedNode == Some(node)
      modifies this`pods
      ensures pods == old(pods)[u := Released(old(pods)[u], seen)]
    {
      var tolerations := seen.tolerations + [NodeTaint(node)];
      pods := pods[u := pods[u].(tolerations := tolerations, hostname := Some(node), gates := [])];
    }

    /** Write the labels, collect the nodes to wake, and wake them. Pods in `failing` or gone cannot be
        patched, nodes in `unreachable` cannot be woken. */
    method ApplyAssignments(out: SolverOutput, failing: set<Uid>, unreachable: set<Name>)
      returns (nodesToWake: set<Name>)
      modifies this`pods, this`desired
      ensures var unpatched := failing + (out.assignments.Keys - old(pods).Keys);
        && pods == AfterLabels(old(pods), PlanFrom(out.assignments), unpatched)
        && nodesToWake == Flagged(Without(out.assignments, unpatched))
      ensures desired == AfterWakes(old(desired), nodesToWake - unreachable)
    {
      var unpatched := failing + (out.assignments.Keys - pods.Keys);
      nodesToWake := WriteLabels(out.assignments, unpatched);
      TriggerWakes(nodesToWake - unreachable);
    }

    method WriteLabels(assignments: map<Uid, Assignment>, unpatched: set<Uid>) returns (nodesToWake: set<Name>)
      requires forall u | u in assignments && u !in unpatched :: u in pods
      modifies this`pods
      ensures pods == AfterLabels(old(pods), PlanFrom(assignments), unpatched)
      ensures nodesToWake == Flagged(Without(assignments, unpatched))
    {
      nodesToWake := {};
      var order := VisitOrder(assignments.Keys);
      assert Taken(assignments, order[..0], unpatched) == map[];
      for t := 0 to |order|
        invariant pods == AfterLabels(old(pods), PlanFrom(Taken(assignments, order[..t], unpatched)), unpatched)
        invariant nodesToWake == Flagged(Taken(assignments, order[..t], unpatched))
      {
        var u := order[t];
        Visiting(order, assignments.Keys, t);
        var a := assignments[u];
        TakenStep(assignments, order, t, u, unpatched);
        LabelStep(old(pods), assignments, order, t, u, unpatched);
        if u !in unpatched {
          FlaggedAssign(Taken(assignments, order[..t], unpatched), u, a);
          pods := pods[u := pods[u].(assignedNode := Some(a.targetNode))];
          if a.requiresWake {
            nodesToWake := nodesToWake + {a.targetNode};
          }
        }
      }
      TakenAll(assignments, order, unpatched);
    }

    /** What one tick does to the pods: assignments are written, then the release pass runs over the
        snapshot taken before. */
    method RunTick(out: SolverOutput, failing: set<Uid>, unreachable: set<Name>, ready: set<Name>, unreleased: set<Uid>)
      returns (nodesToWake: set<Name>)
      modifies this`pods, this`desired
      ensures var unpatched := failing + (out.assignments.Keys - old(pods).Keys);
        pods == Happens(old(pods), Tick(PlanFrom(out.assignments), unpatched, ready, unreleased))
      ensures out.assignments.Keys <= old(pods).Keys && failing == {} ==> nodesToWake == Flagged(out.assignments)
      ensures desired == AfterWakes(old(desired), nodesToWake - unreachable)
    {
      var snapshot := pods;
      nodesToWake := ApplyAssignments(out, failing, unreachable);
      ProcessAssignedPods(snapshot, ready, unreleased);
      if out.assignments.Keys <= snapshot.Keys && failing == {} {
        assert failing + (out.assignments.Keys - snapshot.Keys) == {};
        AllFlaggedAreWoken(out.assignments);
      }
    }

    /** Only nodes not already wanted online or booting are asked to boot. */
    method TriggerWakes(nodes: set<Name>)
      modifies this`desired
      ensures desired == AfterWakes(old(desired), nodes)
    {
      var order := VisitOrder(nodes);
      ghost var woken: set<Name> := {};
      for t := 0 to |order|
        invariant forall n: Name :: n in woken <==> n in order[..t]
        invariant desired == AfterWakes(old(desired), woken)
      {
        var n := order[t];
        Visiting(order, nodes, t);
        if n in desired && desired[n] != Online && desired[n] != Booting {
          desired := desired[n := Booting];
        }
        woken := woken + {n};
      }
      assert order[..|order|] == order;
      forall n: Name ensures n in woken <==> n in nodes {
        assert n in order <==> n in nodes;
      }
      assert AfterWakes(old(desired), woken) == AfterWakes(old(desired), nodes);
    }
  }

  /** Every listed node not wanted running is asked to boot; all others are left alone. */
  function AfterWakes(desired: map<Name, Phase>, nodes: set<Name>): (after: map<Name, Phase>)
    ensures after.Keys == desired.Keys
    ensures forall n | n in desired && n in nodes && desired[n] != Online && desired[n] != Booting ::
        after[n] == Booting
    ensures forall n | n in desired && (n !in nodes || desired[n] == Online || desired[n] == Booting) ::
        after[n] == desired[n]
  {
    map n | n in desired :: if n in nodes && desired[n] != Online then Booting else desired[n]
  }

  ghost function Seen(snapshot: Store, visited: seq<Uid>): Store {
    map u | u in snapshot && u in visited :: snapshot[u]
  }

  lemma ReleaseStep(store: Store, snapshot: Store, ready: set<Name>, failing: set<Uid>, order: seq<Uid>, t: nat, u: Uid)
    requires t < |order| && order[t] == u && u in snapshot && u !in order[..t]
    ensures var before := AfterRelease(store, Seen(snapshot, order[..t]), ready, failing);
      && (u in before <==> u in store)
      && AfterRelease(store, Seen(snapshot, order[..t + 1]), ready, failing)
         == if u in before && Releasable(snapshot[u], ready) && u !in failing
            then before[u := Released(before[u], snapshot[u])] else before
  {
    assert order[..t + 1] == order[..t] + [u];
  }

  lemma LabelStep(store: Store, assignments: map<Uid, Assignment>, order: seq<Uid>, t: nat, u: Uid, failing: set<Uid>)
    requires t < |order| && order[t] == u && u in assignments && u !in order[..t]
    requires u !in failing ==> u in store
    ensures var before := AfterLabels(store, PlanFrom(Taken(assignments, order[..t], failing)), failing);
      && (u !in failing ==> u in before)
      && AfterLabels(store, PlanFrom(Taken(assignments, order[..t + 1], failing)), failing)
         == if u in failing then before
            else before[u := before[u].(assignedNode := Some(assignments[u].targetNode))]
  {
    assert order[..t + 1] == order[..t] + [u];
  }

  ghost function Without(assignments: map<Uid, Assignment>, failing: set<Uid>): map<Uid, Assignment> {
    map u | u in assignments && u !in failing :: assignments[u]
  }

  ghost function Taken(assignments: map<Uid, Assignment>, visited: seq<Uid>, failing: set<Uid>): map<Uid, Assignment> {
    map u | u in assignments && u in visited && u !in failing :: assignments[u]
  }

  lemma TakenStep(assignments: map<Uid, Assignment>, order: seq<Uid>, t: nat, u: Uid, failing: set<Uid>)
    requires t < |order| && order[t] == u && u in assignments && u !in order[..t]
    ensures Taken(assignments, order[..t + 1], failing)
         == if u in failing then Taken(assignments, order[..t], failing)
            else Taken(assignments, order[..t], failing)[u := assignments[u]]
    ensures u !in Taken(assignments, order[..t], failing)
  {
    assert order[..t + 1] == order[..t] + [u];
  }

  lemma TakenAll(assignments: map<Uid, Assignment>, order: seq<Uid>, failing: set<Uid>)
    requires Enumerates(order, assignments.Keys)
    ensures Taken(assignments, order[..|order|], failing) == Without(assignments, failing)
  {
    assert order[..|order|] == order;
    forall u: Uid ensures u in order <==> u in assignments {
      assert u in order <==> u in assignments.Keys;
    }
  }

  /** When no pod patch fails, the nodes asked to wake are exactly the flagged targets. */
  lemma AllFlaggedAreWoken(assignments: map<Uid, Assignment>)
    ensures Flagged(Without(assignments, {})) == Flagged(assignments)
  {
    assert Without(assignments, {}) == assignments;
  }

  /* ---------------------------------- The gate protocol ---------------------------------- */

  /** One tick over an atomic snapshot, or a pod coming or going between ticks. */
  datatype Event =
    | Tick(plan: Plan, unpatched: set<Uid>, ready: set<Name>, unreleased: set<Uid>)
    | Arrive(uid: Uid, pod: PodRecord)
    | Leave(uid: Uid)

  /** The solver only places pods it was handed; a new pod outside the system namespaces arrives with
      our gate and without a label. */
  predicate Legal(store: Store, e: Event) {
    match e
    case Tick(plan, _, _, _) => forall u | u in plan :: u in store && AwaitsPlacement(store[u])
    case Arrive(u, pod) =>
      u !in store && (!pod.inSystemNamespace ==> HasSchedulingGate(pod) && pod.assignedNode.None?)
    case Leave(_) => true
  }

  function Happens(store: Store, e: Event): Store {
    match e
    case Tick(plan, unpatched, ready, unreleased) =>
      AfterRelease(AfterLabels(store, plan, unpatched), store, ready, unreleased)
    case Arrive(u, pod) => store[u := pod]
    case Leave(u) => map v | v in store && v != u :: store[v]
  }

  /** What the solver returns for the pods awaiting placement makes a legal tick. */
  lemma SolverTicksAreLegal(store: Store, pods: seq<Pod>, out: SolverOutput, unpatched: set<Uid>, ready: set<Name>,
                            unreleased: set<Uid>)
    requires Accounted(pods, out)
    requires forall p | p in pods ::
      && p.uid in store && !store[p.uid].inSystemNamespace
      && store[p.uid].gates != [] && store[p.uid].assignedNode == None
    ensures Legal(store, Tick(PlanFrom(out.assignments), unpatched, ready, unreleased))
  {
    forall u | u in PlanFrom(out.assignments) ensures u in store && AwaitsPlacement(store[u]) {
      assert u in out.assignments.Keys;
      var p :| p in pods && p.uid == u;
    }
  }

  /** In one tick the solver's target becomes the label, and a label that is there stays; a pod loses our
      gate exactly when its label named a node ready in the snapshot (and the patch went through), and then
      it is pinned to that node and keeps its own tolerations; otherwise nothing but the label changes. */
  lemma TickIsSafe(store: Store, e: Event, u: Uid)
    requires e.Tick? && Legal(store, e) && u in store
    ensures u in Happens(store, e)
    ensures var before, after := store[u], Happens(store, e)[u];
      && after.inSystemNamespace == before.inSystemNamespace
      && (before.assignedNode.Some? ==> after.assignedNode == before.assignedNode)
      && (u in e.plan && u !in e.unpatched ==> after.assignedNode == Some(e.plan[u]))
      && (u !in e.plan ==> after.assignedNode == before.assignedNode)
      && (SchedulingGate in before.gates ==>
            (SchedulingGate !in after.gates <==>
              && !before.inSystemNamespace && u !in e.unreleased
              && before.assignedNode.Some? && before.assignedNode.value in e.ready))
      && (if SchedulingGate in before.gates && SchedulingGate !in after.gates then
            && after.gates == [] && after.hostname == after.assignedNode == before.assignedNode
            && after.tolerations == before.tolerations + [NodeTaint(before.assignedNode.value)]
          else
            after.gates == before.gates && after.hostname == before.hostname && after.tolerations == before.tolerations)
  {
    var labelled := AfterLabels(store, e.plan, e.unpatched);
    assert u in labelled;
    if u in e.plan {
      assert AwaitsPlacement(store[u]);
    }
    if Releasable(store[u], e.ready) && u !in e.unreleased {
      var r := Released(labelled[u], store[u]);
      assert r.tolerations[|r.tolerations| - 1] == NodeTaint(store[u].assignedNode.value);
    }
  }

  /** A pod outside the system namespaces that is out of our gate is pinned to the node it was assigned. */
  ghost predicate Pinned(store: Store) {
    forall u | u in store && !store[u].inSystemNamespace && !HasSchedulingGate(store[u]) ::
      && store[u].assignedNode.Some? && store[u].hostname == store[u].assignedNode
      && NodeTaint(store[u].assignedNode.value) in store[u].tolerations
  }

  function StoreAfter(start: Store, events: seq<Event>): Store {
    if events == [] then start
    else Happens(StoreAfter(start, events[..|events| - 1]), events[|events| - 1])
  }

  ghost predicate LegalRun(start: Store, events: seq<Event>) {
    events != [] ==>
      && LegalRun(start, events[..|events| - 1])
      && Legal(StoreAfter(start, events[..|events| - 1]), events[|events| - 1])
  }

  /** Over every run of ticks and pods coming and going, released pods are pinned to their label. */
  lemma {:induction false} ReleasedPodsArePinned(start: Store, events: seq<Event>)
    requires Pinned(start) && LegalRun(start, events)
    ensures Pinned(StoreAfter(start, events))
  {
    if events != [] {
      var n := |events| - 1;
      ReleasedPodsArePinned(start, events[..n]);
    }
  }

  /** Over every run a label, once written, is the same for as long as the pod is there. */
  lemma {:induction false} LabelsAreForever(start: Store, events: seq<Event>, u: Uid)
    requires LegalRun(start, events) && Leave(u) !in events
    requires u in start && start[u].assignedNode.Some?
    ensures u in StoreAfter(start, events)
    ensures StoreAfter(start, events)[u].assignedNode == start[u].assignedNode
  {
    if events != [] {
      var n := |events| - 1;
      LabelsAreForever(start, events[..n], u);
    }
  }

  /* ------------------------------- Power-ons across ticks ------------------------------- */

  /** One tick's solver problem: the pods awaiting placement, the candidates, the limits in force, and
      the time. */
  datatype TickInput = TickInput(
    pods: seq<Pod>, nodes: seq<Node>, policy: Option<BudgetTracker.Budgets>, timing: Solver.Timing, now: int)

  ghost predicate GoodTick(t: TickInput) {
    DistinctUids(t.pods) && DistinctNames(t.nodes) && FullCapacity(t.nodes)
  }

  /** The tick was solved without local search. */
  ghost predicate DirectTick(t: TickInput, algorithm: Algorithm) {
    Solver.Direct(t.pods, t.nodes, t.timing, algorithm)
  }

  /** The problem a tick poses with this many power-ons in flight and migrations this hour. */
  function Problem(t: TickInput, inFlight: nat, migrations: int): SolverInput {
    var limits := BudgetTracker.EffectiveLimits(t.policy);
    SolverInput(t.pods, t.nodes, Constraints(limits.maxConcurrent, inFlight, limits.maxMigrations, migrations))
  }

  /** The in-flight set grows by the nodes flagged, however many pods share them. */
  lemma FlaggedFitsBudget(input: SolverInput, out: SolverOutput, inFlight: set<Name>)
    requires SafeToApply(input, out) && input.constraints.currentPowerOnsInFlight == |inFlight|
    ensures |inFlight + Flagged(out.assignments)| <= |inFlight|
         || |inFlight + Flagged(out.assignments)| <= input.constraints.maxConcurrentPowerOns
  {
    var wakes := Flagged(out.assignments);
    if wakes == {} {
      assert inFlight + wakes == inFlight;
    }
  }

  /** Record a power-on for every flagged assignment: several may name the same node. */
  method RecordWakes(tracker: BudgetTracker.Tracker, assignments: map<Uid, Assignment>, now: int)
    requires tracker.Valid() && tracker.lastSeen == now
    modifies tracker
    ensures tracker.Valid() && tracker.lastSeen == now
    ensures tracker.powerOnsInFlight.Keys == old(tracker.powerOnsInFlight.Keys) + Flagged(assignments)
  {
    var order := VisitOrder(assignments.Keys);
    assert Taken(assignments, order[..0], {}) == map[];
    for t := 0 to |order|
      invariant tracker.Valid() && tracker.lastSeen == now
      invariant tracker.powerOnsInFlight.Keys
             == old(tracker.powerOnsInFlight.Keys) + Flagged(Taken(assignments, order[..t], {}))
    {
      var u := order[t];
      Visiting(order, assignments.Keys, t);
      TakenStep(assignments, order, t, u, {});
      FlaggedAssign(Taken(assignments, order[..t], {}), u, assignments[u]);
      if assignments[u].requiresWake {
        tracker.RecordPowerOn(assignments[u].targetNode, now);
      }
    }
    TakenAll(assignments, order, {});
    AllFlaggedAreWoken(assignments);
  }

  /** The hour's migrations so far are as many as the policy allows. */
  predicate NoMigrationLeft(t: TickInput, m: BudgetTracker.Meter) {
    BudgetTracker.EffectiveLimits(t.policy).maxMigrations <= BudgetTracker.Restarted(m, t.now).count
  }

  /** Solve with the tracker's state as constraint, then record: the nodes the result flags join those in
      flight. Unless local search is involved their number stays within the limit, or where it was if it was
      above. */
  method SolveAndRecord(tracker: BudgetTracker.Tracker, t: TickInput) returns (out: SolverOutput)
    requires tracker.Valid() && tracker.lastSeen <= t.now && GoodTick(t)
    modifies tracker
    ensures tracker.Valid() && tracker.lastSeen == t.now && Accounted(t.pods, out)
    ensures Solver.Regime(t.pods, t.nodes, t.timing, out.algorithm)
    ensures Solver.Chosen(t.pods, t.nodes, t.timing) == Exact && out.algorithm == Heuristic ==>
      || out.assignments == map[]
      || Solver.InTheRed(Problem(t, |old(tracker.powerOnsInFlight)|,
                                 BudgetTracker.Restarted(old(tracker.migrations), t.now).count))
    ensures Solver.Answer(
      Problem(t, |old(tracker.powerOnsInFlight)|, BudgetTracker.Restarted(old(tracker.migrations), t.now).count),
      t.timing, out)
    ensures out.algorithm == Greedy && NoMigrationLeft(t, old(tracker.migrations)) ==>
      forall p | p in t.pods && p.isRebalancingMove :: p.uid !in out.assignments
    ensures tracker.powerOnsInFlight.Keys == old(tracker.powerOnsInFlight.Keys) + Flagged(out.assignments)
    ensures DirectTick(t, out.algorithm) ==>
      || |tracker.powerOnsInFlight| <= |old(tracker.powerOnsInFlight)|
      || |tracker.powerOnsInFlight| <= BudgetTracker.EffectiveLimits(t.policy).maxConcurrent
  {
    var inFlight, migrations := tracker.GetCurrentState(t.now);
    var input := Problem(t, inFlight, migrations);
    out := Solver.Solve(input, t.timing);
    ghost var before := tracker.powerOnsInFlight.Keys;
    assert |before| == inFlight;
    RecordWakes(tracker, out.assignments, t.now);
    if DirectTick(t, out.algorithm) {
      FlaggedFitsBudget(input, out, before);
    }
    assert |tracker.powerOnsInFlight| == |tracker.powerOnsInFlight.Keys|;
  }

  /** The result is what its label says for the problem the tick poses with this many power-ons in flight. */
  ghost predicate Answered(t: TickInput, inFlight: nat, out: SolverOutput) {
    && Accounted(t.pods, out) && Solver.Regime(t.pods, t.nodes, t.timing, out.algorithm)
    && exists migrations :: Solver.Answer(Problem(t, inFlight, migrations), t.timing, out)
  }

  /** Each result answers its tick, with the nodes in flight that were so at the start and those flagged
      before. */
  ghost predicate Answers(ticks: seq<TickInput>, outs: seq<SolverOutput>, start: set<Name>) {
    outs == [] ||
    var k := |outs| - 1;
    && k < |ticks| && Answers(ticks, outs[..k], start)
    && Answered(ticks[k], |start + FlaggedBy(outs[..k])|, outs[k])
  }

  ghost predicate AllDirect(ticks: seq<TickInput>, outs: seq<SolverOutput>)
    requires |outs| <= |ticks|
  {
    outs == [] ||
    var k := |outs| - 1;
    AllDirect(ticks, outs[..k]) && DirectTick(ticks[k], outs[k].algorithm)
  }

  /** The nodes some result of the run flagged. */
  ghost function FlaggedBy(outs: seq<SolverOutput>): set<Name> {
    if outs == [] then {}
    else FlaggedBy(outs[..|outs| - 1]) + Flagged(outs[|outs| - 1].assignments)
  }

  lemma FlaggedByNext(outs: seq<SolverOutput>, out: SolverOutput)
    ensures FlaggedBy(outs + [out]) == FlaggedBy(outs) + Flagged(out.assignments)
  {
    assert (outs + [out])[..|outs + [out]| - 1] == outs;
  }

  /** What a run has come to: its results, the nodes in flight, and their number against the limit. */
  ghost predicate RanTo(
    ticks: seq<TickInput>, outs: seq<SolverOutput>, start: set<Name>, inFlight: set<Name>, limit: int)
  {
    && |outs| <= |ticks| && Answers(ticks, outs, start)
    && inFlight == start + FlaggedBy(outs)
    && (AllDirect(ticks, outs) ==> |inFlight| <= RcNode.Max(|start|, limit))
  }

  lemma RunStarts(ticks: seq<TickInput>, start: set<Name>, limit: int)
    ensures RanTo(ticks, [], start, start, limit)
  {
    assert start + FlaggedBy([]) == start;
  }

  lemma RunGoesOn(
    ticks: seq<TickInput>, outs: seq<SolverOutput>, out: SolverOutput,
    start: set<Name>, before: set<Name>, after: set<Name>, limit: int)
    requires RanTo(ticks, outs, start, before, limit) && |outs| < |ticks|
    requires Answered(ticks[|outs|], |before|, out)
    requires DirectTick(ticks[|outs|], out.algorithm) ==> |after| <= |before| || |after| <= limit
    requires after == before + Flagged(out.assignments)
    ensures RanTo(ticks, outs + [out], start, after, limit)
  {
    AnswersNext(ticks, outs, out, start);
    DirectNext(ticks, outs, out);
    FlaggedByNext(outs, out);
    UnionNext(start, FlaggedBy(outs), Flagged(out.assignments));
  }

  lemma UnionNext(a: set<Name>, b: set<Name>, c: set<Name>)
    ensures a + b + c == a + (b + c)
  {
  }

  /** Any run of ticks under one policy: the nodes in flight are those at the start and those flagged since,
      and as far as no local search is involved, their number never exceeds the larger of where it started
      and the limit, at any tick. */
  method RunTicks(tracker: BudgetTracker.Tracker, ticks: seq<TickInput>, policy: Option<BudgetTracker.Budgets>)
    returns (outs: seq<SolverOutput>)
    requires tracker.Valid()
    requires forall i | 0 <= i < |ticks| ::
      GoodTick(ticks[i]) && ticks[i].policy == policy && tracker.lastSeen <= ticks[i].now
    requires forall i, j | 0 <= i < j < |ticks| :: ticks[i].now <= ticks[j].now
    modifies tracker
    ensures |outs| == |ticks| && Answers(ticks, outs, old(tracker.powerOnsInFlight.Keys))
    ensures tracker.powerOnsInFlight.Keys == old(tracker.powerOnsInFlight.Keys) + FlaggedBy(outs)
    ensures AllDirect(ticks, outs) ==>
      |tracker.powerOnsInFlight|
      <= RcNode.Max(|old(tracker.powerOnsInFlight)|, BudgetTracker.EffectiveLimits(policy).maxConcurrent)
  {
    ghost var start, limit := tracker.powerOnsInFlight.Keys, BudgetTracker.EffectiveLimits(policy).maxConcurrent;
    outs := [];
    RunStarts(ticks, start, limit);
    for i := 0 to |ticks|
      invariant tracker.Valid() && forall j | i <= j < |ticks| :: tracker.lastSeen <= ticks[j].now
      invariant |outs| == i && RanTo(ticks, outs, start, tracker.powerOnsInFlight.Keys, limit)
    {
      ghost var before := tracker.powerOnsInFlight;
      var out := SolveAndRecord(tracker, ticks[i]);
      assert Answered(ticks[i], |before|, out);
      assert |before| == |before.Keys| && |tracker.powerOnsInFlight| == |tracker.powerOnsInFlight.Keys|;
      RunGoesOn(ticks, outs, out, start, before.Keys, tracker.powerOnsInFlight.Keys, limit);
      outs := outs + [out];
    }
    assert |tracker.powerOnsInFlight| == |tracker.powerOnsInFlight.Keys|;
  }

  lemma AnswersNext(ticks: seq<TickInput>, outs: seq<SolverOutput>, out: SolverOutput, start: set<Name>)
    requires |outs| < |ticks|
    requires Answers(ticks, outs, start) && Answered(ticks[|outs|], |start + FlaggedBy(outs)|, out)
    ensures Answers(ticks, outs + [out], start)
  {
    assert (outs + [out])[..|outs + [out]| - 1] == outs;
  }

  lemma DirectNext(ticks: seq<TickInput>, outs: seq<SolverOutput>, out: SolverOutput)
    requires |outs| < |ticks|
    ensures AllDirect(ticks, outs + [out]) <==> AllDirect(ticks, outs) && DirectTick(ticks[|outs|], out.algorithm)
  {
    assert (outs + [out])[..|outs + [out]| - 1] == outs;
  }
}
