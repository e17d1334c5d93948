/**
 The three passes of the local search. Each goes through pods or nodes in any order, may be cut short by
 the deadline at any of its checks, and accepts what `Histories` says is accepted: the state keeps the
 history of the steps taken, and its books are always those the history leads to.
 */
module HeuristicSearch {
  import opened Options
  import opened Placement
  import opened Solutions
  import opened LocalSearch
  import opened Histories
  import opened SearchRounds

  /* ------------------------------ When no step is accepted ------------------------------ */

  ghost predicate NoRelocationPays(e: Env, rules: Rules, w: Work)
    requires Shaped(e, w)
  {
    forall u {:trigger Unmovable(e, rules, w, u)} | u in w.plan :: Unmovable(e, rules, w, u)
  }

  ghost predicate NoSwapPays(e: Env, w: Work)
    requires Shaped(e, w)
  {
    forall a, b {:trigger SwapPays(e, w, a, b, w.plan[a])} | a in w.plan && b in w.plan && a != b ::
      !SwapPays(e, w, a, b, w.plan[a])
  }

  /** Every node in use is empty or has a pod with nowhere to go. */
  ghost predicate NoNodeEmpties(e: Env, w: Work)
    requires Shaped(e, w)
  {
    forall n {:trigger Stuck(e, w, n)} | n in w.nodesUsed && n in e.nodeByName :: Empty(w.plan, n) || Stuck(e, w, n)
  }

  class SearchState {
    const env: Env
    const rules: Rules
    var work: Work
    ghost var history: History

    ghost predicate Valid()
      reads this
    {
      Sound(env, rules, history) && Now(env, rules, history) == work
    }

    constructor (env: Env, rules: Rules, work: Work)
      requires Shaped(env, work)
      ensures Valid() && this.env == env && this.rules == rules && this.work == work && history == Start(work)
    {
      this.env, this.rules, this.work, this.history := env, rules, work, Start(work);
    }

    /** Account for a step just made. */
    ghost method Record(a: Action)
      requires Sound(env, rules, history) && Accepted(env, rules, Now(env, rules, history), a)
      requires work == Applied(env, rules, Now(env, rules, history), a)
      modifies this`history
      ensures Valid() && history == Then(old(history), a)
    {
      Extend(env, rules, history, a);
      history := Then(history, a);
    }

    /* ------------------------------------ Applying ------------------------------------ */

    method ApplyRelocate(u: Uid, from: Name, to: Name)
      requires Shaped(env, work) && u in work.plan && from in env.nodeByName && to in env.nodeByName
      modifies this`work
      ensures work == Relocated(env, old(work), u, from, to)
    {
      var pod, fi, ti := env.podByUID[u], env.nodeByName[from], env.nodeByName[to];
      var remaining := work.remaining[fi := work.remaining[fi].Plus(pod.request)];
      remaining := remaining[ti := remaining[ti].Minus(pod.request)];
      var newScore := AssignmentScore(pod, env.nodes[ti]);
      var totalScore := work.totalScore + (newScore - work.scores[u]);
      var plan := work.plan[u := to];
      var nodesUsed := work.nodesUsed + {to};
      if Empty(plan, from) {
        nodesUsed := nodesUsed - {from};
      }
      work := Work(plan, remaining, work.scores[u := newScore], totalScore, nodesUsed);
    }

    method ApplySwap(a: Uid, b: Uid, nodeA: Name, nodeB: Name)
      requires Shaped(env, work) && a in work.plan && b in work.plan
      requires nodeA in env.nodeByName && nodeB in env.nodeByName
      modifies this`work
      ensures work == Swapped(env, old(work), a, b, nodeA, nodeB)
    {
      var podA, podB, ia, ib := env.podByUID[a], env.podByUID[b], env.nodeByName[nodeA], env.nodeByName[nodeB];
      // The first node gives its pod and takes the other, then the second does.
      var remaining := work.remaining[ia := work.remaining[ia].Plus(podA.request)];
      remaining := remaining[ia := remaining[ia].Minus(podB.request)];
      remaining := remaining[ib := remaining[ib].Plus(podB.request)];
      remaining := remaining[ib := remaining[ib].Minus(podA.request)];
      var newA, newB := AssignmentScore(podA, env.nodes[ib]), AssignmentScore(podB, env.nodes[ia]);
      work := Work(work.plan[a := nodeB][b := nodeA], remaining, work.scores[a := newA][b := newB],
                   work.totalScore + ((newA + newB) - (work.scores[a] + work.scores[b])), work.nodesUsed);
    }

    method ApplyMoves(from: Name, moves: seq<Move>)
      requires Shaped(env, work) && Batch(env, work.plan, from, moves)
      modifies this`work
      ensures work == Evacuated(env, old(work), from, moves)
    {
      for i := 0 to |moves|
        invariant Batch(env, old(work).plan, from, moves[..i]) && work == Evacuated(env, old(work), from, moves[..i])
      {
        EvacuatedStep(env, old(work), from, moves, i);
        ApplyRelocate(moves[i].uid, from, moves[i].target);
      }
      assert moves[..|moves|] == moves;
    }

    /** The assigned pods, once each, in any order. */
    method AssignedPods() returns (uids: seq<Uid>)
      ensures forall u :: u in uids <==> u in work.plan
      ensures |uids| == |work.plan| && AllDistinct(uids)
    {
      uids := VisitOrder(work.plan.Keys);
      EnumerationSize(uids, work.plan.Keys);
      forall i | 0 <= i < |uids| ensures DistinctFrom(uids, i) {
        LaterDiffer(uids, work.plan.Keys, i);
      }
      forall u ensures u in uids <==> u in work.plan {
        assert u in work.plan <==> u in work.plan.Keys;
      }
    }

    /* ----------------------------------- Relocations ----------------------------------- */

    /** The best node for this pod, if some node takes it for a positive gain. */
    method BestRelocation(u: Uid) returns (best: Option<nat>)
      requires Shaped(env, work) && u in work.plan
      ensures best.None? ==> Unmovable(env, rules, work, u)
      ensures best.Some? ==> BestMove(env, rules, work, u, best.value)
    {
      var pod, from := env.podByUID[u], work.plan[u];
      var bestDelta := 0.0;
      best := None;
      for j := 0 to |env.nodes|
        invariant best.None? ==> bestDelta == 0.0
        invariant best.Some? ==>
          && best.value < j && CanRelocate(env, rules, work, u, best.value)
          && bestDelta > 0.0 && bestDelta == RelocationGain(env, work, u, best.value)
        invariant forall i {:trigger RelocationGain(env, work, u, i)} |
          0 <= i < j && CanRelocate(env, rules, work, u, i) ::
          && RelocationGain(env, work, u, i) <= bestDelta
          && (best.Some? && i < best.value ==> RelocationGain(env, work, u, i) < bestDelta)
      {
        var toNode := env.nodes[j];
        if toNode.name == from || !pod.request.FitsIn(work.remaining[j]) {
          continue;
        }
        if rules.budget && !Powered(env, work.plan[u := toNode.name]) {
          continue;
        }
        var delta := AssignmentScore(pod, toNode) - work.scores[u];
        if WouldFree(work.plan, u, from) {
          delta := delta + CONSOLIDATION_BONUS * 0.5;
        }
        if delta > bestDelta {
          bestDelta, best := delta, Some(j);
        }
      }
    }

    /** Move one pod to the node that gains most, exactly when some node gains. */
    method TryRelocate(u: Uid) returns (moved: bool)
      requires Valid() && u in work.plan
      modifies this
      ensures Valid() && (moved <==> !Unmovable(env, rules, old(work), u))
      ensures !moved ==> work == old(work) && history == old(history)
      ensures moved ==> exists j :: history == Then(old(history), Moved(u, j))
    {
      var best := BestRelocation(u);
      moved := best.Some?;
      if moved {
        ghost var step := Moved(u, best.value);
        assert RelocationGain(env, work, u, best.value) > 0.0;
        ApplyRelocate(u, work.plan[u], env.nodes[best.value].name);
        Record(step);
      }
    }

    /** Move pods to better nodes, each at most once, and in time each getting its turn. The total rises, but
        for less than 50 for each move that empties its source. When time does not run out, nothing moves only
        if no move pays. */
    method TryRelocations(inTime: bool) returns (improved: bool)
      requires Valid()
      modifies this
      ensures Valid() && OnlyMoves(old(history), history)
      ensures history.Steps() <= old(history).Steps() + |old(work).plan|
      ensures improved <==> history != old(history)
      ensures Freed(env, rules, old(history), history) <= |old(work).plan|
      ensures improved ==>
        work.totalScore > old(work).totalScore - 50.0 * Freed(env, rules, old(history), history) as real
      ensures inTime ==> AllMovesTried(env, rules, old(history), history)
      ensures inTime && !improved ==> NoRelocationPays(env, rules, work)
    {
      ghost var was := work;
      var uids := AssignedPods();
      improved := RelocateEach(uids, inTime);
      RelocationAccounting(env, rules, old(history), history);
      if inTime {
        AllPodsTried(env, rules, old(history), history, uids);
      }
    }

    /** The loop over the assigned pods. */
    method RelocateEach(uids: seq<Uid>, inTime: bool) returns (improved: bool)
      requires Valid() && forall u | u in uids :: u in work.plan.Keys
      modifies this
      ensures Valid() && OnlyMoves(old(history), history) && history.Steps() <= old(history).Steps() + |uids|
      ensures improved <==> history != old(history)
      ensures inTime ==> MovesTried(env, rules, old(history), history, uids, |uids|)
      ensures inTime && !improved ==> NoMoveBefore(env, rules, old(work), uids, |uids|)
    {
      improved := false;
      ghost var keys := work.plan.Keys;
      for t := 0 to |uids|
        invariant Valid() && work.plan.Keys == keys && (improved <==> history != old(history))
        invariant RanMoves(env, rules, old(history), history, uids, t)
      {
        var late: bool := *;
        if late && !inTime {
          break;
        }
        var u := uids[t];
        assert u in uids && u in keys;
        ghost var before := history;
        var moved := TryRelocate(u);
        improved := improved || moved;
        RanMovesNext(env, rules, old(history), before, history, uids, t);
      }
    }

    /* -------------------------------------- Swaps -------------------------------------- */

    /** Swap two pods if they are on different nodes, both fit, and the total strictly rises. */
    method TrySwap(a: Uid, b: Uid, nodeA: Name) returns (gained: bool)
      requires Valid() && a in work.plan && b in work.plan && a != b && nodeA in env.nodeByName
      requires rules.reread ==> nodeA == work.plan[a]
      modifies this
      ensures Valid() && (gained <==> SwapPays(env, old(work), a, b, nodeA))
      ensures !gained ==> work == old(work) && history == old(history)
      ensures gained ==> history == Then(old(history), Exchanged(a, b, nodeA))
    {
      var nodeB := work.plan[b];
      gained := false;
      if nodeA == nodeB {
        return;
      }
      var podA, podB, ia, ib := env.podByUID[a], env.podByUID[b], env.nodeByName[nodeA], env.nodeByName[nodeB];
      if !SwapFeasible(work.remaining, podA, podB, ia, ib) {
        return;
      }
      var newA, newB := AssignmentScore(podA, env.nodes[ib]), AssignmentScore(podB, env.nodes[ia]);
      var delta := (newA + newB) - (work.scores[a] + work.scores[b]);
      if delta > 0.0 {
        ApplySwap(a, b, nodeA, nodeB);
        Record(Exchanged(a, b, nodeA));
        gained := true;
      }
    }

    /** The inner loop: pod i against every later one. */
    method SwapWithLater(uids: seq<Uid>, i: nat, inTime: bool) returns (improved: bool)
      requires Valid() && i < |uids| && DistinctFrom(uids, i) && forall u | u in uids :: u in work.plan.Keys
      modifies this
      ensures Valid() && OnlySwaps(old(history), history) && work.plan.Keys == old(work.plan.Keys)
      ensures improved <==> history != old(history)
      ensures !improved ==> work == old(work)
      ensures inTime && !improved ==> NoSwapAfter(env, work, uids, i, |uids|)
      ensures inTime ==> SwapsTried(env, rules, old(history), history, uids, i, |uids|)
    {
      improved := false;
      ghost var was := work;
      var a := uids[i];
      assert a in was.plan.Keys;
      var nodeA := work.plan[a];
      for j := i + 1 to |uids|
        invariant Valid() && work.plan.Keys == was.plan.Keys && nodeA in env.nodeByName
        invariant OnlySwaps(old(history), history) && (improved <==> history != old(history))
        invariant rules.reread || !improved ==> nodeA == work.plan[a]
        invariant SwapsTried(env, rules, old(history), history, uids, i, j)
        invariant WasOn(env, rules, old(history), history, a, nodeA)
        invariant !improved ==> work == was && NoSwapAfter(env, was, uids, i, j)
      {
        var late: bool := *;
        if late && !inTime {
          break;
        }
        var b := uids[j];
        assert a in was.plan.Keys && b in was.plan.Keys;
        ghost var before := history;
        var gained := TrySwap(a, b, nodeA);
        SwapsGrow(old(history), before);
        RanSwapsNext(env, rules, old(history), before, history, uids, i, j, nodeA);
        if gained {
          improved := true;
          if rules.reread {
            nodeA := work.plan[a];
          }
        }
      }
    }

    /** Swap pairs of pods for a better total. When time does not run out, nothing is swapped only if no
        swap pays. */
    method TrySwaps(inTime: bool) returns (improved: bool)
      requires Valid()
      modifies this
      ensures Valid() && OnlySwaps(old(history), history)
      ensures improved <==> history != old(history)
      ensures improved ==> work.totalScore > old(work).totalScore
      ensures inTime ==> AllSwapsTried(env, rules, old(history), history)
      ensures inTime && !improved ==> NoSwapPays(env, work)
    {
      improved := false;
      ghost var was := work;
      var uids := AssignedPods();
      for i := 0 to |uids|
        invariant Valid() && work.plan.Keys == was.plan.Keys
        invariant OnlySwaps(old(history), history) && (improved <==> history != old(history))
        invariant !improved ==> work == was
        invariant inTime && !improved ==> forall x | 0 <= x < i :: NoSwapAfter(env, was, uids, x, |uids|)
        invariant inTime ==> PairsTried(env, rules, old(history), history, uids, i)
      {
        var late: bool := *;
        if late && !inTime {
          break;
        }
        forall u | u in uids ensures u in work.plan.Keys {
          assert u in was.plan.Keys;
        }
        ghost var before := history;
        var gained := SwapWithLater(uids, i, inTime);
        SwapsCompose(old(history), before, history);
        improved := improved || gained;
        if inTime {
          PairsTriedNext(env, rules, old(history), before, history, uids, i);
        }
      }
      SwapsOnlyRaise(env, rules, old(history), history);
      if inTime {
        AllPairsTried(env, rules, old(history), history, uids);
        if !improved {
          AllPairs(env, was, uids);
        }
      }
    }

    /* ----------------------------------- Evacuations ----------------------------------- */

    /** The best-scoring other node with room; scores of -1 and below do not qualify. */
    method BestTarget(pod: Pod, from: Name, room: seq<Amount>) returns (best: Option<nat>)
      requires |room| == |env.nodes|
      ensures best.None? ==> NoTarget(env, pod, from, room)
      ensures best.Some? ==> Favourite(env, pod, from, room, best.value)
    {
      best := None;
      var bestScore := -1.0;
      for j := 0 to |env.nodes|
        invariant best.None? ==> bestScore == -1.0
        invariant best.Some? ==>
          && best.value < j && Candidate(env, pod, from, room, best.value)
          && bestScore == AssignmentScore(pod, env.nodes[best.value])
        invariant forall i {:trigger Candidate(env, pod, from, room, i)} |
          0 <= i < j && Candidate(env, pod, from, room, i) ::
          && best.Some? && AssignmentScore(pod, env.nodes[i]) <= bestScore
          && (i < best.value ==> AssignmentScore(pod, env.nodes[i]) < bestScore)
      {
        var node := env.nodes[j];
        if node.name == from || !pod.request.FitsIn(room[j]) {
          continue;
        }
        var score := AssignmentScore(pod, node);
        if score > bestScore {
          bestScore, best := score, Some(j);
        }
      }
    }

    /** Find a target for every pod of the list. As in the source each pod is checked against what the
        nodes have now; with reservation, against what the moves planned so far leave. */
    method PlanEvacuation(from: Name, uids: seq<Uid>) returns (canEvacuate: bool, moves: seq<Move>)
      requires Shaped(env, work) && from in env.nodeByName && OnNode(work.plan, from, uids) && Known(env, uids)
      ensures |moves| <= |uids| && Planned(env, rules, work, from, uids, moves) && Batch(env, work.plan, from, moves)
      ensures canEvacuate ==> |moves| == |uids|
      ensures !rules.reserve ==> (canEvacuate <==> NoneStuck(env, work, from, uids, |uids|))
    {
      moves := [];
      var room := work.remaining;
      for t := 0 to |uids|
        invariant |moves| == t && Planned(env, rules, work, from, uids, moves)
        invariant KnownMoves(env, moves) && room == Room(env, rules, work, moves)
        invariant !rules.reserve ==> NoneStuck(env, work, from, uids, t)
      {
        var target := BestTarget(env.podByUID[uids[t]], from, room);
        if target.None? {
          PlannedIsBatch(env, rules, work, from, uids, moves);
          return false, moves;
        }
        moves, room := PlanMove(from, uids, moves, room, target.value);
      }
      PlannedIsBatch(env, rules, work, from, uids, moves);
      canEvacuate := true;
    }

    /** One more move of the plan, and the room it leaves. */
    method PlanMove(from: Name, uids: seq<Uid>, moves: seq<Move>, room: seq<Amount>, target: nat)
      returns (next: seq<Move>, left: seq<Amount>)
      requires Shaped(env, work) && Known(env, uids) && |moves| < |uids| && Planned(env, rules, work, from, uids, moves)
      requires KnownMoves(env, moves) && room == Room(env, rules, work, moves)
      requires Favourite(env, env.podByUID[uids[|moves|]], from, room, target)
      ensures |next| == |moves| + 1 && Planned(env, rules, work, from, uids, next)
      ensures KnownMoves(env, next) && left == Room(env, rules, work, next)
    {
      var u := uids[|moves|];
      next, left := moves + [Move(u, env.nodes[target].name)], room;
      PlannedNext(env, rules, work, from, uids, moves, target);
      if rules.reserve {
        left := room[target := room[target].Minus(env.podByUID[u].request)];
      }
    }

    /** All pods of a node, in the order the assignment map yields them. */
    method PodsOn(plan: Plan, node: Name) returns (uids: seq<Uid>)
      ensures AllOnNode(plan, node, uids)
    {
      uids := [];
      var order := VisitOrder(plan.Keys);
      for t := 0 to |order|
        invariant OnNode(plan, node, uids)
        invariant forall i | 0 <= i < |uids| :: uids[i] in order[..t]
        invariant forall i | 0 <= i < t && order[i] in plan && plan[order[i]] == node :: order[i] in uids
      {
        Visiting(order, plan.Keys, t);
        if plan[order[t]] == node {
          NewAtEnd(plan, node, uids, order[t]);
          uids := uids + [order[t]];
        }
      }
      forall u | u in plan && plan[u] == node ensures u in uids {
        assert u in plan.Keys && u in order;
      }
    }

    /** One node of the consolidation pass. `homes` is where the pods were when the pass began, and the
        pods of the nodes not yet `done` are still there. */
    method EvacuateNode(name: Name, homes: Plan, ghost done: seq<Name>) returns (freed: bool)
      requires Valid() && name in env.nodeByName && name !in done && homes.Keys == work.plan.Keys
      requires StillHome(homes, work.plan, done)
      modifies this
      ensures Valid() && homes.Keys == work.plan.Keys && StillHome(homes, work.plan, done + [name])
      ensures !freed ==> work == old(work) && history == old(history)
      ensures freed ==> exists uids, moves ::
        AllOnNode(homes, name, uids) && history == Then(old(history), Emptied(name, uids, moves))
      ensures !freed && !rules.reserve && !rules.budget ==> Empty(homes, name) || Stuck(env, work, name)
    {
      freed := false;
      var uids := PodsOn(homes, name);
      StillThere(env, homes, work, name, uids, done);
      var canEvacuate, moves := PlanEvacuation(name, uids);
      if |uids| > 0 && canEvacuate && (!rules.budget || Powered(env, Evacuated(env, work, name, moves).plan)) {
        OthersStay(env, rules, work, name, uids, moves, homes, done);
        ghost var step := Emptied(name, uids, moves);
        ApplyMoves(name, moves);
        Record(step);
        freed := true;
      } else {
        if uids == [] {
          assert forall u | u in homes :: homes[u] != name;
        } else if !rules.reserve && !canEvacuate {
          StuckMeans(env, work, name, uids);
        }
      }
    }

    /** Try to empty the nodes in use one after the other, in any order. When time does not run out, nothing
        moves only if no node in use can be emptied. */
    method TryConsolidate(inTime: bool) returns (improved: bool)
      requires Valid()
      modifies this
      ensures Valid() && OnlyEvacuations(old(work).plan, old(history), history)
      ensures history.Steps() <= old(history).Steps() + |old(work).nodesUsed|
      ensures improved <==> history != old(history)
      ensures inTime ==> AllNodesTried(env, rules, old(history), history)
      ensures inTime && !improved && !rules.reserve && !rules.budget ==> NoNodeEmpties(env, work)
    {
      improved := false;
      ghost var was := work;
      var homes := work.plan;
      var names := VisitOrder(work.nodesUsed);
      EnumerationSize(names, work.nodesUsed);
      for t := 0 to |names|
        invariant Valid() && homes.Keys == work.plan.Keys && StillHome(homes, work.plan, names[..t])
        invariant improved <==> history != old(history)
        invariant RanEvacuations(env, rules, old(history), history, names, t)
      {
        var late: bool := *;
        if late && !inTime {
          break;
        }
        var name := names[t];
        Visiting(names, was.nodesUsed, t);
        ghost var before := history;
        if name in env.nodeByName {
          var freed := EvacuateNode(name, homes, names[..t]);
          improved := improved || freed;
        }
        RanEvacuationsNext(env, rules, old(history), before, history, names, t);
      }
      if inTime {
        forall n | n in was.nodesUsed ensures n in names {}
        AllNamesTried(env, rules, old(history), history, names);
      }
    }
  }

  /* ------------------------------- Steps of the passes ------------------------------- */

  lemma EvacuatedStep(e: Env, w: Work, from: Name, moves: seq<Move>, i: nat)
    requires Shaped(e, w) && Batch(e, w.plan, from, moves) && i < |moves|
    ensures Batch(e, w.plan, from, moves[..i]) && Batch(e, w.plan, from, moves[..i + 1])
    ensures moves[i].uid in Evacuated(e, w, from, moves[..i]).plan
    ensures Evacuated(e, w, from, moves[..i + 1])
         == Relocated(e, Evacuated(e, w, from, moves[..i]), moves[i].uid, from, moves[i].target)
  {
    BatchPrefix(e, w.plan, from, moves, i);
    BatchPrefix(e, w.plan, from, moves, i + 1);
    assert moves[..i + 1][..i] == moves[..i];
    assert moves[i].uid in w.plan.Keys;
  }

  lemma {:induction false} EnumerationSize<T(!new)>(order: seq<T>, s: set<T>)
    requires Enumerates(order, s)
    ensures |order| == |s|
  {
    if order == [] {
      assert s == {};
    } else {
      var k := |order| - 1;
      var x := order[k];
      assert x in s;
      Visiting(order, s, k);
      assert order[..k + 1] == order;
      forall j | 0 <= j < k ensures FirstAt(order[..k], j) {
        assert FirstAt(order, j) && order[..k][..j] == order[..j];
      }
      EnumerationSize(order[..k], s - {x});
    }
  }

  lemma LaterDiffer(order: seq<Uid>, s: set<Uid>, i: nat)
    requires Enumerates(order, s) && i < |order|
    ensures DistinctFrom(order, i)
  {
    forall j | i < j < |order| ensures order[j] != order[i] {
      assert FirstAt(order, j);
      assert order[i] in order[..j];
    }
  }

  ghost predicate DistinctFrom(uids: seq<Uid>, i: nat)
    requires i < |uids|
  {
    forall j | i < j < |uids| :: uids[j] != uids[i]
  }

  ghost predicate AllDistinct(uids: seq<Uid>) {
    forall i {:trigger DistinctFrom(uids, i)} | 0 <= i < |uids| :: DistinctFrom(uids, i)
  }

  lemma {:induction false} MovesGrow(h0: History, h: History)
    requires OnlyMoves(h0, h)
    ensures h0.Steps() <= h.Steps()
  {
    if h != h0 {
      MovesGrow(h0, h.before);
    }
  }

  lemma {:induction false} EvacuationsGrow(homes: Plan, h0: History, h: History)
    requires OnlyEvacuations(homes, h0, h)
    ensures h0.Steps() <= h.Steps()
  {
    if h != h0 {
      EvacuationsGrow(homes, h0, h.before);
    }
  }

  lemma {:induction false} SwapsGrow(h0: History, h: History)
    requires OnlySwaps(h0, h)
    ensures h0.Steps() <= h.Steps()
    ensures forall a, b, n :: Then(h, Exchanged(a, b, n)) != h0 && OnlySwaps(h0, Then(h, Exchanged(a, b, n)))
  {
    if h != h0 {
      SwapsGrow(h0, h.before);
    }
  }

  lemma {:induction false} SwapsCompose(h0: History, h1: History, h2: History)
    requires OnlySwaps(h0, h1) && OnlySwaps(h1, h2)
    ensures OnlySwaps(h0, h2) && (h2 == h0 <==> h1 == h0 && h2 == h1)
  {
    SwapsGrow(h0, h1);
    if h2 != h1 {
      SwapsCompose(h0, h1, h2.before);
      SwapsGrow(h0, h2.before);
    }
  }

  /** None of the first n pods has a move that pays. */
  ghost predicate NoMoveBefore(e: Env, rules: Rules, w: Work, uids: seq<Uid>, n: nat)
    requires Shaped(e, w) && n <= |uids|
  {
    forall i {:trigger Unmovable(e, rules, w, uids[i])} | 0 <= i < n && uids[i] in w.plan ::
        Unmovable(e, rules, w, uids[i])
  }

  lemma RanSwapsNext(e: Env, rules: Rules, h0: History, h: History, h': History, uids: seq<Uid>, i: nat, j: nat,
                     nodeA: Name)
    requires Sound(e, rules, h) && Sound(e, rules, h') && i < j < |uids| && OnlySwaps(h0, h)
    requires SwapsTried(e, rules, h0, h, uids, i, j) && WasOn(e, rules, h0, h, uids[i], nodeA)
    requires var w := Now(e, rules, h); uids[i] in w.plan && uids[j] in w.plan && nodeA in e.nodeByName
    requires if h' == h then !SwapPays(e, Now(e, rules, h), uids[i], uids[j], nodeA)
             else h' == Then(h, Exchanged(uids[i], uids[j], nodeA))
    ensures SwapsTried(e, rules, h0, h', uids, i, j + 1) && WasOn(e, rules, h0, h', uids[i], nodeA)
  {
    SwapsGrow(h0, h);
    if h' == h {
      assert SwapRefused(e, rules, h0, h, uids[i], uids[j], nodeA);
    } else {
      forall k | i < k < j ensures SwapTried(e, rules, h0, h', uids[i], uids[k]) {
        SwapStaysTried(e, rules, h0, h, h', uids[i], uids[k]);
      }
    }
  }

  /** What a pass of relocations has done by position n. */
  ghost predicate RanMoves(e: Env, rules: Rules, h0: History, h: History, uids: seq<Uid>, n: nat) {
    && n <= |uids| && Sound(e, rules, h0) && Sound(e, rules, h)
    && OnlyMoves(h0, h) && h.Steps() <= h0.Steps() + n && MovesTried(e, rules, h0, h, uids, n)
    && (h == h0 ==> NoMoveBefore(e, rules, Now(e, rules, h0), uids, n))
  }

  lemma RanMovesNext(e: Env, rules: Rules, h0: History, h: History, h': History, uids: seq<Uid>, n: nat)
    requires n < |uids| && RanMoves(e, rules, h0, h, uids, n)
    requires Sound(e, rules, h') && uids[n] in Now(e, rules, h).plan
    requires if h' == h then Unmovable(e, rules, Now(e, rules, h), uids[n])
             else exists j :: h' == Then(h, Moved(uids[n], j))
    ensures RanMoves(e, rules, h0, h', uids, n + 1) && (h' == h0 <==> h == h0 && h' == h)
  {
    MovesGrow(h0, h);
    assert MoveTried(e, rules, h0, h', uids[n]);
    MovesTriedNext(e, rules, h0, h, h', uids, n);
  }

  /** What a consolidation pass has done by position n. */
  ghost predicate RanEvacuations(e: Env, rules: Rules, h0: History, h: History, names: seq<Name>, n: nat) {
    && n <= |names| && Sound(e, rules, h0) && Sound(e, rules, h)
    && OnlyEvacuations(Now(e, rules, h0).plan, h0, h) && h.Steps() <= h0.Steps() + n
    && NodesTried(e, rules, h0, h, names, n)
    && (h == h0 && !rules.reserve && !rules.budget ==> NoneEmpties(e, Now(e, rules, h0), names, n))
  }

  lemma RanEvacuationsNext(e: Env, rules: Rules, h0: History, h: History, h': History, names: seq<Name>, n: nat)
    requires n < |names| && RanEvacuations(e, rules, h0, h, names, n) && Sound(e, rules, h')
    requires var homes, name := Now(e, rules, h0).plan, names[n];
      if h' != h then
        exists uids, moves :: AllOnNode(homes, name, uids) && h' == Then(h, Emptied(name, uids, moves))
      else
        name in e.nodeByName ==>
          Empty(homes, name) || Stuck(e, Now(e, rules, h), name) || rules.reserve || rules.budget
    ensures RanEvacuations(e, rules, h0, h', names, n + 1) && (h' == h0 <==> h == h0 && h' == h)
  {
    EvacuationsGrow(Now(e, rules, h0).plan, h0, h);
    assert names[n] in e.nodeByName ==> NodeTried(e, rules, h0, h', names[n]);
    NodesTriedNext(e, rules, h0, h, h', names, n);
  }

  /** No swap of pod x with one of the pods between it and position n pays. */
  ghost predicate NoSwapAfter(e: Env, w: Work, uids: seq<Uid>, x: nat, n: nat)
    requires Shaped(e, w) && x < |uids| && n <= |uids|
  {
    forall y {:trigger SwapPays(e, w, uids[x], uids[y], w.plan[uids[x]])} |
      x < y < n && uids[x] in w.plan && uids[y] in w.plan :: !SwapPays(e, w, uids[x], uids[y], w.plan[uids[x]])
  }

  lemma AllPairs(e: Env, w: Work, uids: seq<Uid>)
    requires Shaped(e, w) && (forall u | u in w.plan :: u in uids)
    requires forall x | 0 <= x < |uids| :: NoSwapAfter(e, w, uids, x, |uids|)
    ensures NoSwapPays(e, w)
  {
    forall a, b | a in w.plan && b in w.plan && a != b ensures !SwapPays(e, w, a, b, w.plan[a]) {
      assert a in uids && b in uids;
      var x :| 0 <= x < |uids| && uids[x] == a;
      var y :| 0 <= y < |uids| && uids[y] == b;
      assert NoSwapAfter(e, w, uids, x, |uids|) && NoSwapAfter(e, w, uids, y, |uids|);
      SwapPaysBothWays(e, w, a, b);
    }
  }

  lemma PlannedNext(e: Env, rules: Rules, w: Work, from: Name, uids: seq<Uid>, moves: seq<Move>, j: nat)
    requires Shaped(e, w) && Known(e, uids) && |moves| < |uids| && Planned(e, rules, w, from, uids, moves)
    requires KnownMoves(e, moves)
    requires Favourite(e, e.podByUID[uids[|moves|]], from, Room(e, rules, w, moves), j)
    ensures var next := moves + [Move(uids[|moves|], e.nodes[j].name)];
      && Planned(e, rules, w, from, uids, next) && next[..|moves|] == moves
      && KnownMoves(e, next)
  {
    var next := moves + [Move(uids[|moves|], e.nodes[j].name)];
    assert next[..|moves|] == moves;
  }

  lemma NewAtEnd(plan: Plan, node: Name, uids: seq<Uid>, u: Uid)
    requires OnNode(plan, node, uids) && u in plan && plan[u] == node && u !in uids
    ensures OnNode(plan, node, uids + [u])
  {
    var after := uids + [u];
    forall j | 0 <= j < |after| ensures FirstAt(after, j) {
      assert after[..j] == uids[..j];
      if j < |uids| {
        assert FirstAt(uids, j);
      }
    }
  }

  /** The pods whose node has not been dealt with are where they were. */
  ghost predicate StillHome(homes: Plan, plan: Plan, done: seq<Name>) {
    forall u {:trigger homes[u]} | u in homes && u in plan && homes[u] !in done :: plan[u] == homes[u]
  }

  lemma StillThere(e: Env, homes: Plan, w: Work, name: Name, uids: seq<Uid>, done: seq<Name>)
    requires Shaped(e, w) && OnNode(homes, name, uids) && homes.Keys == w.plan.Keys && name !in done
    requires StillHome(homes, w.plan, done)
    ensures OnNode(w.plan, name, uids) && Known(e, uids)
  {
    forall i | 0 <= i < |uids| ensures uids[i] in w.plan && w.plan[uids[i]] == name && uids[i] in e.podByUID {
      var u := uids[i];
      assert u in homes.Keys && u in w.plan.Keys && homes[u] !in done;
    }
  }

  /** Each of the first n pods has somewhere to go. */
  ghost predicate NoneStuck(e: Env, w: Work, from: Name, uids: seq<Uid>, n: nat)
    requires Shaped(e, w) && n <= |uids| && Known(e, uids)
  {
    forall i {:trigger uids[i]} | 0 <= i < n :: !NoTarget(e, e.podByUID[uids[i]], from, w.remaining)
  }

  lemma StuckMeans(e: Env, w: Work, name: Name, uids: seq<Uid>)
    requires Shaped(e, w) && OnNode(w.plan, name, uids) && Known(e, uids)
    requires !NoneStuck(e, w, name, uids, |uids|)
    ensures Stuck(e, w, name)
  {
    var i :| 0 <= i < |uids| && NoTarget(e, e.podByUID[uids[i]], name, w.remaining);
    var u: Uid := uids[i];
    assert u in w.plan && w.plan[u] == name;
  }

  lemma OthersStay(e: Env, rules: Rules, w: Work, from: Name, uids: seq<Uid>, moves: seq<Move>, homes: Plan,
                   done: seq<Name>)
    requires Shaped(e, w) && Batch(e, w.plan, from, moves)
    requires w.plan.Keys == homes.Keys && StillHome(homes, w.plan, done)
    ensures StillHome(homes, Evacuated(e, w, from, moves).plan, done + [from])
  {
    var after := Evacuated(e, w, from, moves).plan;
    forall u | u in homes && u in after && homes[u] !in done + [from] ensures after[u] == homes[u] {
      assert u in w.plan.Keys && w.plan[u] == homes[u];
      EvacuatedHomes(e, w, from, moves, u);
    }
  }

  ghost predicate NoneEmpties(e: Env, w: Work, names: seq<Name>, n: nat)
    requires Shaped(e, w) && n <= |names|
  {
    forall i {:trigger Stuck(e, w, names[i])} | 0 <= i < n && names[i] in e.nodeByName ::
      Empty(w.plan, names[i]) || Stuck(e, w, names[i])
  }
}
