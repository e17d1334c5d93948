/**
 What the local search accepts, and what any sequence of accepted steps does to the books.

 Four things in the source do not do what they are for: after a swap the first pod's node is not read
 again, an evacuation is planned without reserving capacity, no move looks at the power budget, and the
 wake flags of the result are not set for nodes that greedy woke. `Rules` says which of these is repaired;
 AS_WRITTEN repairs none, INTENDED all.
 */
module Histories {
  import opened Options
  import opened Placement
  import opened Solutions
  import opened LocalSearch

  datatype Rules = Rules(reread: bool, reserve: bool, budget: bool, flag: bool)

  const AS_WRITTEN := Rules(false, false, false, false)
  const INTENDED := Rules(true, true, true, true)

  /** One accepted step: a pod relocated to the node at a position, two pods swapped while the first is
      taken to be on `nodeA`, or a node emptied of the listed pods. */
  datatype Action =
    | Moved(uid: Uid, node: nat)
    | Exchanged(a: Uid, b: Uid, nodeA: Name)
    | Emptied(from: Name, uids: seq<Uid>, moves: seq<Move>)

  /* ----------------------------------- Relocations ----------------------------------- */

  predicate CanRelocate(e: Env, rules: Rules, w: Work, u: Uid, j: nat)
    requires Shaped(e, w) && u in w.plan && j < |e.nodes|
  {
    && e.nodes[j].name != w.plan[u] && e.podByUID[u].request.FitsIn(w.remaining[j])
    && (rules.budget ==> Powered(e, w.plan[u := e.nodes[j].name]))
  }

  /** What a relocation is judged by: the score gained, and half a bonus for freeing the source. */
  function RelocationGain(e: Env, w: Work, u: Uid, j: nat): real
    requires Shaped(e, w) && u in w.plan && j < |e.nodes|
  {
    Score(e, u, j) - w.scores[u] + if WouldFree(w.plan, u, w.plan[u]) then CONSOLIDATION_BONUS * 0.5 else 0.0
  }

  /** The first node of greatest gain among those that take the pod, the gain being positive. */
  ghost predicate BestMove(e: Env, rules: Rules, w: Work, u: Uid, j: nat)
    requires Shaped(e, w) && u in w.plan
  {
    && j < |e.nodes| && CanRelocate(e, rules, w, u, j) && RelocationGain(e, w, u, j) > 0.0
    && (forall i {:trigger RelocationGain(e, w, u, i)} | 0 <= i < |e.nodes| && CanRelocate(e, rules, w, u, i) ::
          && RelocationGain(e, w, u, i) <= RelocationGain(e, w, u, j)
          && (i < j ==> RelocationGain(e, w, u, i) < RelocationGain(e, w, u, j)))
  }

  /** No node takes this pod for a positive gain. */
  ghost predicate Unmovable(e: Env, rules: Rules, w: Work, u: Uid)
    requires Shaped(e, w) && u in w.plan
  {
    forall j {:trigger RelocationGain(e, w, u, j)} | 0 <= j < |e.nodes| && CanRelocate(e, rules, w, u, j) ::
      RelocationGain(e, w, u, j) <= 0.0
  }

  /* -------------------------------------- Swaps -------------------------------------- */

  /** Swapping two pods between `nodeA`, where the first is taken to be, and the second's node would fit
      and raise the total. */
  predicate SwapPays(e: Env, w: Work, a: Uid, b: Uid, nodeA: Name)
    requires Shaped(e, w) && a in w.plan && b in w.plan && nodeA in e.nodeByName
  {
    var podA, podB, ia, ib := e.podByUID[a], e.podByUID[b], e.nodeByName[nodeA], e.nodeByName[w.plan[b]];
    && nodeA != w.plan[b] && SwapFeasible(w.remaining, podA, podB, ia, ib)
    && Score(e, a, ib) + Score(e, b, ia) > w.scores[a] + w.scores[b]
  }

  lemma SwapPaysBothWays(e: Env, w: Work, a: Uid, b: Uid)
    requires Shaped(e, w) && a in w.plan && b in w.plan
    ensures SwapPays(e, w, a, b, w.plan[a]) == SwapPays(e, w, b, a, w.plan[b])
  {
  }

  /* ----------------------------------- Evacuations ----------------------------------- */

  /** The first best-scoring other node with room; scores of -1 and below do not qualify. */
  ghost predicate Favourite(e: Env, pod: Pod, from: Name, room: seq<Amount>, j: nat)
    requires |room| == |e.nodes|
  {
    && j < |e.nodes| && Candidate(e, pod, from, room, j)
    && (forall i {:trigger Candidate(e, pod, from, room, i)} | 0 <= i < |e.nodes| && Candidate(e, pod, from, room, i) ::
          && AssignmentScore(pod, e.nodes[i]) <= AssignmentScore(pod, e.nodes[j])
          && (i < j ==> AssignmentScore(pod, e.nodes[i]) < AssignmentScore(pod, e.nodes[j])))
  }

  predicate Candidate(e: Env, pod: Pod, from: Name, room: seq<Amount>, j: nat)
    requires |room| == |e.nodes| && j < |e.nodes|
  {
    e.nodes[j].name != from && pod.request.FitsIn(room[j]) && AssignmentScore(pod, e.nodes[j]) > -1.0
  }

  ghost predicate NoTarget(e: Env, pod: Pod, from: Name, room: seq<Amount>)
    requires |room| == |e.nodes|
  {
    forall j {:trigger Candidate(e, pod, from, room, j)} | 0 <= j < |e.nodes| :: !Candidate(e, pod, from, room, j)
  }

  lemma FavouriteUnique(e: Env, pod: Pod, from: Name, room: seq<Amount>, i: nat, j: nat)
    requires |room| == |e.nodes| && Favourite(e, pod, from, room, i) && Favourite(e, pod, from, room, j)
    ensures i == j
  {
    assert Candidate(e, pod, from, room, i) && Candidate(e, pod, from, room, j);
  }

  /** The room the next target is looked for in: what is left now, or with reservation what the moves
      planned so far leave. */
  ghost function Room(e: Env, rules: Rules, w: Work, moves: seq<Move>): (room: seq<Amount>)
    requires |w.remaining| == |e.nodes| && KnownMoves(e, moves)
    ensures |room| == |e.nodes|
  {
    if rules.reserve
    then seq(|e.nodes|, i requires 0 <= i < |e.nodes| => w.remaining[i].Minus(Brought(e, moves, i)))
    else w.remaining
  }

  predicate Known(e: Env, uids: seq<Uid>) {
    forall m | 0 <= m < |uids| :: uids[m] in e.podByUID
  }

  /** The moves send the first pods of the list each to its favourite node. */
  ghost predicate Planned(e: Env, rules: Rules, w: Work, from: Name, uids: seq<Uid>, moves: seq<Move>)
    requires Shaped(e, w) && |moves| <= |uids| && Known(e, uids)
  {
    moves == [] ||
    var k := |moves| - 1;
    && Planned(e, rules, w, from, uids, moves[..k])
    && KnownMoves(e, moves[..k])
    && moves[k].uid == uids[k]
    && exists j: nat :: Favourite(e, e.podByUID[uids[k]], from, Room(e, rules, w, moves[..k]), j)
                   && moves[k].target == e.nodes[j].name
  }

  /** The pods a plan puts on a node: some of them, or all. */
  ghost predicate OnNode(plan: Plan, node: Name, uids: seq<Uid>) {
    && (forall i | 0 <= i < |uids| :: uids[i] in plan && plan[uids[i]] == node)
    && (forall j {:trigger FirstAt(uids, j)} | 0 <= j < |uids| :: FirstAt(uids, j))
  }

  ghost predicate AllOnNode(plan: Plan, node: Name, uids: seq<Uid>) {
    OnNode(plan, node, uids) && forall u | u in plan && plan[u] == node :: u in uids
  }

  lemma {:induction false} PlannedIsBatch(e: Env, rules: Rules, w: Work, from: Name, uids: seq<Uid>, moves: seq<Move>)
    requires Shaped(e, w) && OnNode(w.plan, from, uids) && from in e.nodeByName && |moves| <= |uids|
    requires Known(e, uids) && Planned(e, rules, w, from, uids, moves)
    ensures Batch(e, w.plan, from, moves)
    ensures forall i | 0 <= i < |moves| :: moves[i].uid == uids[i]
  {
    if moves != [] {
      var k := |moves| - 1;
      PlannedIsBatch(e, rules, w, from, uids, moves[..k]);
      assert uids[k] in uids && moves[k].uid in w.plan;
      forall i | 0 <= i < k ensures moves[i].uid == uids[i] {
        assert moves[..k][i] == moves[i];
      }
      assert FirstAt(uids, k);
      forall i | 0 <= i < k ensures uids[i] != uids[k] {
        assert uids[i] in uids[..k];
      }
      assert FirstOf(moves, k);
      forall j | 0 <= j < k ensures FirstOf(moves, j) {
        assert FirstOf(moves[..k], j);
      }
      forall i | 0 <= i < |moves|
        ensures moves[i].uid in w.plan && moves[i].uid in e.podByUID && w.plan[moves[i].uid] == from
        ensures moves[i].target in e.nodeByName && moves[i].target != from
      {
        if i < k {
          assert moves[..k][i] == moves[i];
        }
      }
    }
  }

  /** Some pod of the node has nowhere to go. */
  ghost predicate Stuck(e: Env, w: Work, from: Name)
    requires Shaped(e, w)
  {
    exists u {:trigger w.plan[u]} :: u in w.plan && w.plan[u] == from && NoTarget(e, e.podByUID[u], from, w.remaining)
  }

  /* ------------------------------------ Acceptance ------------------------------------ */

  ghost predicate Accepted(e: Env, rules: Rules, w: Work, a: Action)
    requires Shaped(e, w)
  {
    match a
    case Moved(u, j) => u in w.plan && BestMove(e, rules, w, u, j)
    case Exchanged(a, b, nodeA) =>
      && a in w.plan && b in w.plan && a != b && nodeA in e.nodeByName && SwapPays(e, w, a, b, nodeA)
      && (rules.reread ==> nodeA == w.plan[a])
    case Emptied(from, uids, moves) =>
      && from in e.nodeByName && uids != [] && |moves| == |uids| && OnNode(w.plan, from, uids)
      && Known(e, uids) && Planned(e, rules, w, from, uids, moves) && Batch(e, w.plan, from, moves)
      && (rules.budget ==> Powered(e, Evacuated(e, w, from, moves).plan))
  }

  /** The books after an accepted step. */
  ghost function Applied(e: Env, rules: Rules, w: Work, a: Action): (r: Work)
    requires Shaped(e, w) && Accepted(e, rules, w, a)
    ensures Shaped(e, r) && r.plan.Keys == w.plan.Keys
  {
    match a
    case Moved(u, j) => Relocated(e, w, u, w.plan[u], e.nodes[j].name)
    case Exchanged(a, b, nodeA) => Swapped(e, w, a, b, nodeA, w.plan[b])
    case Emptied(from, _, moves) => Evacuated(e, w, from, moves)
  }

  datatype History = Start(books: Work) | Then(before: History, action: Action)
  {
    function Begun(): Work {
      match this
      case Start(w) => w
      case Then(before, _) => before.Begun()
    }

    function Steps(): nat {
      match this
      case Start(_) => 0
      case Then(before, _) => before.Steps() + 1
    }
  }

  /** The books a history leads to, if every step was accepted at the books it found. */
  ghost function Outcome(e: Env, rules: Rules, h: History): (w: Option<Work>)
    ensures w.Some? ==> Shaped(e, w.value)
  {
    match h
    case Start(w) => if Shaped(e, w) then Some(w) else None
    case Then(before, a) =>
      var w := Outcome(e, rules, before);
      if w.Some? && Accepted(e, rules, w.value, a) then Some(Applied(e, rules, w.value, a)) else None
  }

  ghost predicate Sound(e: Env, rules: Rules, h: History) {
    Outcome(e, rules, h).Some?
  }

  ghost function Now(e: Env, rules: Rules, h: History): (w: Work)
    requires Sound(e, rules, h)
    ensures Shaped(e, w)
  {
    Outcome(e, rules, h).value
  }

  /** `h` goes on from `h0`. */
  predicate Extends(h0: History, h: History) {
    h == h0 || (h.Then? && Extends(h0, h.before))
  }

  lemma {:induction false} ExtendsKeepsStart(h0: History, h: History)
    requires Extends(h0, h)
    ensures h.Begun() == h0.Begun() && h.Steps() >= h0.Steps() && (h.Steps() == h0.Steps() <==> h == h0)
  {
    if h != h0 {
      ExtendsKeepsStart(h0, h.before);
    }
  }

  lemma {:induction false} ExtendsCompose(h0: History, h1: History, h2: History)
    requires Extends(h0, h1) && Extends(h1, h2)
    ensures Extends(h0, h2)
  {
    if h2 != h1 {
      ExtendsCompose(h0, h1, h2.before);
    }
  }

  lemma Extend(e: Env, rules: Rules, h: History, a: Action)
    requires Sound(e, rules, h) && Accepted(e, rules, Now(e, rules, h), a)
    ensures Sound(e, rules, Then(h, a))
    ensures Now(e, rules, Then(h, a)) == Applied(e, rules, Now(e, rules, h), a)
  {
  }

  /* ------------------------------- What steps go wrong ------------------------------- */

  /** A swap that names a node its first pod has left. */
  predicate Stale(w: Work, a: Action) {
    a.Exchanged? && a.a in w.plan && a.nodeA != w.plan[a.a]
  }

  /** An evacuation that brings some node more than it has left. */
  ghost predicate Overcommits(e: Env, w: Work, a: Action) {
    && a.Emptied? && |w.remaining| == |e.nodes| && KnownMoves(e, a.moves)
    && !AllFit(e, w.remaining, a.moves)
  }

  ghost predicate NoneStale(e: Env, rules: Rules, h: History)
    requires Sound(e, rules, h)
  {
    h.Then? ==> NoneStale(e, rules, h.before) && !Stale(Now(e, rules, h.before), h.action)
  }

  ghost predicate NoneOvercommits(e: Env, rules: Rules, h: History)
    requires Sound(e, rules, h)
  {
    h.Then? ==> NoneOvercommits(e, rules, h.before) && !Overcommits(e, Now(e, rules, h.before), h.action)
  }

  lemma {:induction false} RereadIsNeverStale(e: Env, rules: Rules, h: History)
    requires rules.reread && Sound(e, rules, h)
    ensures NoneStale(e, rules, h)
  {
    if h.Then? {
      RereadIsNeverStale(e, rules, h.before);
    }
  }

  lemma NextRoom(e: Env, rules: Rules, w: Work, moves: seq<Move>, k: nat, i: nat)
    requires rules.reserve && |w.remaining| == |e.nodes| && i < |e.nodes| && |moves| == k + 1
    requires KnownMoves(e, moves)
    ensures var m := moves[k];
      Room(e, rules, w, moves)[i]
      == Room(e, rules, w, moves[..k])[i].Minus(Share(e.podByUID[m.uid].request, m.target == e.nodes[i].name))
  {
  }

  lemma {:induction false} ReservedFits(e: Env, rules: Rules, w: Work, from: Name, uids: seq<Uid>, moves: seq<Move>,
                                        i: nat)
    requires rules.reserve && Shaped(e, w) && NoDebt(w) && i < |e.nodes|
    requires |moves| <= |uids| && Known(e, uids) && Planned(e, rules, w, from, uids, moves)
    requires KnownMoves(e, moves)
    ensures Room(e, rules, w, moves)[i].NonNegative()
  {
    if moves == [] {
      assert w.remaining[i].NonNegative();
    } else {
      var k := |moves| - 1;
      ReservedFits(e, rules, w, from, uids, moves[..k], i);
      NextRoom(e, rules, w, moves, k, i);
      var pod, room := e.podByUID[uids[k]], Room(e, rules, w, moves[..k]);
      var j: nat :| Favourite(e, pod, from, room, j) && moves[k].target == e.nodes[j].name;
      SameIndex(e, e.nodes[j].name, i);
    }
  }

  /** With reservation every evacuation fits. */
  lemma ReservedNeverOvercommits(e: Env, rules: Rules, w: Work, a: Action)
    requires rules.reserve && Shaped(e, w) && NoDebt(w) && Accepted(e, rules, w, a)
    ensures !Overcommits(e, w, a)
  {
    if a.Emptied? {
      forall i {:trigger Brought(e, a.moves, i)} | 0 <= i < |e.nodes|
        ensures Brought(e, a.moves, i).FitsIn(w.remaining[i])
      {
        ReservedFits(e, rules, w, a.from, a.uids, a.moves, i);
      }
    }
  }

  /* --------------------------- When an evacuation goes wrong --------------------------- */

  /** What the pods whose favourite is node i request together, all nodes as they are now. */
  ghost function Wanted(e: Env, w: Work, from: Name, uids: seq<Uid>, i: nat): Amount
    requires Shaped(e, w) && i < |e.nodes| && Known(e, uids)
  {
    if uids == [] then ZERO
    else
      var k := |uids| - 1;
      Wanted(e, w, from, uids[..k], i)
        .Plus(Share(e.podByUID[uids[k]].request, Favourite(e, e.podByUID[uids[k]], from, w.remaining, i)))
  }

  lemma {:induction false} BroughtIsWanted(e: Env, rules: Rules, w: Work, from: Name, uids: seq<Uid>,
                                           moves: seq<Move>, i: nat)
    requires !rules.reserve && Shaped(e, w) && i < |e.nodes| && Known(e, uids)
    requires |moves| == |uids| && Planned(e, rules, w, from, uids, moves)
    requires KnownMoves(e, moves)
    ensures Brought(e, moves, i) == Wanted(e, w, from, uids, i)
  {
    if moves != [] {
      var k := |moves| - 1;
      PlannedPrefix(e, rules, w, from, uids, moves[..k], k);
      BroughtIsWanted(e, rules, w, from, uids[..k], moves[..k], i);
      var pod := e.podByUID[uids[k]];
      assert Room(e, rules, w, moves[..k]) == w.remaining;
      var j: nat :| Favourite(e, pod, from, w.remaining, j) && moves[k].target == e.nodes[j].name;
      SameIndex(e, e.nodes[j].name, i);
      if Favourite(e, pod, from, w.remaining, i) {
        FavouriteUnique(e, pod, from, w.remaining, i, j);
      }
    }
  }

  lemma {:induction false} PlannedPrefix(e: Env, rules: Rules, w: Work, from: Name, uids: seq<Uid>, moves: seq<Move>,
                                         k: nat)
    requires Shaped(e, w) && |moves| <= k <= |uids| && Known(e, uids)
    requires Planned(e, rules, w, from, uids, moves)
    ensures Planned(e, rules, w, from, uids[..k], moves)
  {
    if moves != [] {
      PlannedPrefix(e, rules, w, from, uids, moves[..|moves| - 1], k);
    }
  }

  /** On every node what is wanted fits what is left. */
  ghost predicate WantsFit(e: Env, w: Work, from: Name, uids: seq<Uid>)
    requires Shaped(e, w) && Known(e, uids)
  {
    forall i {:trigger Wanted(e, w, from, uids, i)} | 0 <= i < |e.nodes| ::
        Wanted(e, w, from, uids, i).FitsIn(w.remaining[i])
  }

  /** An evacuation as written leaves some node in debt exactly when the pods whose favourite it is, looked
      at one by one before any of them moves, request more together than it has left. */
  lemma UnreservedNoDebtIff(e: Env, rules: Rules, w: Work, a: Action)
    requires !rules.reserve && Shaped(e, w) && NoDebt(w) && a.Emptied? && Accepted(e, rules, w, a)
    ensures NoDebt(Applied(e, rules, w, a)) <==> WantsFit(e, w, a.from, a.uids)
  {
    EvacuateNoDebtIff(e, w, a.from, a.moves);
    if AllFit(e, w.remaining, a.moves) {
      forall i {:trigger Wanted(e, w, a.from, a.uids, i)} | 0 <= i < |e.nodes|
        ensures Wanted(e, w, a.from, a.uids, i).FitsIn(w.remaining[i])
      {
        BroughtIsWanted(e, rules, w, a.from, a.uids, a.moves, i);
      }
    }
    if WantsFit(e, w, a.from, a.uids) {
      forall i {:trigger Brought(e, a.moves, i)} | 0 <= i < |e.nodes|
        ensures Brought(e, a.moves, i).FitsIn(w.remaining[i])
      {
        BroughtIsWanted(e, rules, w, a.from, a.uids, a.moves, i);
      }
    }
  }

  /* --------------------------- What one step carries over --------------------------- */

  lemma StepKeepsTotal(e: Env, pods: seq<Pod>, rules: Rules, w: Work, a: Action)
    requires Indexed(e, pods) && Shaped(e, w) && Accepted(e, rules, w, a) && TotalAdds(pods, w)
    ensures TotalAdds(pods, Applied(e, rules, w, a))
  {
    match a {
      case Moved(u, j) => RelocateKeepsTotal(e, pods, w, u, w.plan[u], e.nodes[j].name);
      case Exchanged(a, b, nodeA) => SwapKeepsTotal(e, pods, w, a, b, nodeA, w.plan[b]);
      case Emptied(from, _, moves) => EvacuateKeepsTotal(e, pods, w, from, moves);
    }
  }

  lemma StepKeepsLedger(e: Env, pods: seq<Pod>, rules: Rules, w: Work, a: Action)
    requires Indexed(e, pods) && Shaped(e, w) && Accepted(e, rules, w, a) && Ledger(e, pods, w) && !Stale(w, a)
    ensures Ledger(e, pods, Applied(e, rules, w, a))
  {
    match a {
      case Moved(u, j) => RelocateKeepsLedgerIff(e, pods, w, u, w.plan[u], e.nodes[j].name);
      case Exchanged(a, b, nodeA) => SwapKeepsLedgerIff(e, pods, w, a, b, nodeA, w.plan[b]);
      case Emptied(from, _, moves) => EvacuateKeepsLedger(e, pods, w, from, moves);
    }
  }

  lemma StepKeepsUsed(e: Env, rules: Rules, w: Work, a: Action)
    requires Shaped(e, w) && Accepted(e, rules, w, a) && UsedExactly(w) && !Stale(w, a)
    ensures UsedExactly(Applied(e, rules, w, a))
  {
    match a {
      case Moved(u, j) => RelocateKeepsUsed(e, w, u, e.nodes[j].name);
      case Exchanged(a, b, _) => SwapKeepsUsed(e, w, a, b);
      case Emptied(from, _, moves) => EvacuateKeepsUsed(e, w, from, moves);
    }
  }

  /** Only an evacuation that overcommits can leave a debt. */
  lemma StepKeepsCreditIff(e: Env, rules: Rules, w: Work, a: Action)
    requires Shaped(e, w) && Accepted(e, rules, w, a) && NoDebt(w)
    ensures NoDebt(Applied(e, rules, w, a)) <==> !Overcommits(e, w, a)
  {
    match a {
      case Moved(u, j) => RelocateKeepsCredit(e, w, u, w.plan[u], e.nodes[j].name);
      case Exchanged(a, b, nodeA) => SwapFeasibleIff(e, w, a, b, nodeA, w.plan[b]);
      case Emptied(from, _, moves) => EvacuateNoDebtIff(e, w, from, moves);
    }
  }

  lemma StepKeepsPower(e: Env, rules: Rules, w: Work, a: Action)
    requires rules.budget && Shaped(e, w) && Accepted(e, rules, w, a) && Powered(e, w.plan) && !Stale(w, a)
    ensures Powered(e, Applied(e, rules, w, a).plan)
  {
    if a.Exchanged? {
      SwapKeepsAwakened(e, w.plan, a.a, a.b);
    }
  }

  /* ------------------------------- Over whole histories ------------------------------- */

  /** The pods placed stay placed, and the total stays the sum of the recorded scores. */
  lemma {:induction false} HistoryKeepsTotal(e: Env, pods: seq<Pod>, rules: Rules, h: History)
    requires Indexed(e, pods) && Sound(e, rules, h) && TotalAdds(pods, h.Begun())
    ensures Now(e, rules, h).plan.Keys == h.Begun().plan.Keys && TotalAdds(pods, Now(e, rules, h))
  {
    if h.Then? {
      HistoryKeepsTotal(e, pods, rules, h.before);
      StepKeepsTotal(e, pods, rules, Now(e, rules, h.before), h.action);
    }
  }

  /** Without stale swaps the books stay true: capacities and used nodes are those of the plan. */
  lemma {:induction false} HistoryKeepsBooks(e: Env, pods: seq<Pod>, rules: Rules, h: History)
    requires Indexed(e, pods) && Sound(e, rules, h) && NoneStale(e, rules, h)
    requires Ledger(e, pods, h.Begun()) && UsedExactly(h.Begun())
    ensures Ledger(e, pods, Now(e, rules, h)) && UsedExactly(Now(e, rules, h))
  {
    if h.Then? {
      HistoryKeepsBooks(e, pods, rules, h.before);
      StepKeepsLedger(e, pods, rules, Now(e, rules, h.before), h.action);
      StepKeepsUsed(e, rules, Now(e, rules, h.before), h.action);
    }
  }

  /** Without overcommitting evacuations, stale swaps or not, no capacity on the books is negative. */
  lemma {:induction false} HistoryKeepsCredit(e: Env, rules: Rules, h: History)
    requires Sound(e, rules, h) && NoDebt(h.Begun()) && (rules.reserve || NoneOvercommits(e, rules, h))
    ensures NoDebt(Now(e, rules, h))
  {
    if h.Then? {
      HistoryKeepsCredit(e, rules, h.before);
      var w := Now(e, rules, h.before);
      if rules.reserve {
        ReservedNeverOvercommits(e, rules, w, h.action);
      }
      StepKeepsCreditIff(e, rules, w, h.action);
    }
  }

  /** With the budget looked at and nodes read again, the power budget is kept. */
  lemma {:induction false} HistoryKeepsPower(e: Env, rules: Rules, h: History)
    requires rules.budget && Sound(e, rules, h) && NoneStale(e, rules, h) && Powered(e, h.Begun().plan)
    ensures Powered(e, Now(e, rules, h).plan)
  {
    if h.Then? {
      HistoryKeepsPower(e, rules, h.before);
      StepKeepsPower(e, rules, Now(e, rules, h.before), h.action);
    }
  }

  /* --------------------------------- Score accounting --------------------------------- */

  /** `h` goes on from `h0` with relocations only. */
  ghost predicate OnlyMoves(h0: History, h: History) {
    h == h0 || (h.Then? && h.action.Moved? && OnlyMoves(h0, h.before))
  }

  ghost predicate OnlySwaps(h0: History, h: History) {
    h == h0 || (h.Then? && h.action.Exchanged? && OnlySwaps(h0, h.before))
  }

  /** `h` goes on from `h0` with evacuations only, each of the pods that `homes` puts on its node. */
  ghost predicate OnlyEvacuations(homes: Plan, h0: History, h: History) {
    h == h0 ||
    (&& h.Then? && h.action.Emptied? && AllOnNode(homes, h.action.from, h.action.uids)
     && OnlyEvacuations(homes, h0, h.before))
  }

  /** A run of relocations, as written, keeps true books true and without debt. */
  lemma {:induction false} MovesKeepBooks(e: Env, pods: seq<Pod>, rules: Rules, h0: History, h: History)
    requires Indexed(e, pods) && Sound(e, rules, h0) && Sound(e, rules, h) && OnlyMoves(h0, h)
    requires Ledger(e, pods, Now(e, rules, h0))
    ensures Ledger(e, pods, Now(e, rules, h))
    ensures NoDebt(Now(e, rules, h0)) ==> NoDebt(Now(e, rules, h))
  {
    if h != h0 {
      MovesKeepBooks(e, pods, rules, h0, h.before);
      StepKeepsLedger(e, pods, rules, Now(e, rules, h.before), h.action);
      if NoDebt(Now(e, rules, h.before)) {
        StepKeepsCreditIff(e, rules, Now(e, rules, h.before), h.action);
      }
    }
  }

  lemma {:induction false} PassExtends(homes: Plan, h0: History, h: History)
    requires OnlyMoves(h0, h) || OnlySwaps(h0, h) || OnlyEvacuations(homes, h0, h)
    ensures Extends(h0, h)
  {
    if h != h0 {
      PassExtends(homes, h0, h.before);
    }
  }

  /** The step gives this pod a place. */
  ghost predicate Places(a: Action, u: Uid) {
    match a
    case Moved(v, _) => v == u
    case Exchanged(v, v', _) => u == v || u == v'
    case Emptied(_, _, moves) => MovesPod(moves, u)
  }

  ghost predicate Replaced(h: History, u: Uid) {
    h.Then? && (Replaced(h.before, u) || Places(h.action, u))
  }

  lemma StepScores(e: Env, rules: Rules, w: Work, a: Action, u: Uid)
    requires Shaped(e, w) && Accepted(e, rules, w, a) && u in w.plan
    ensures ScoredAnew(e, w, Applied(e, rules, w, a), u, Places(a, u))
  {
    if a.Emptied? {
      EvacuatedScores(e, w, a.from, a.moves, u);
    }
  }

  /** Stale swaps or not, a pod that no step placed is where it was with the score it had; any other is
      recorded at its score on the search's copy of the node it is on. */
  lemma {:induction false} RecordedScores(e: Env, rules: Rules, h: History, u: Uid)
    requires Sound(e, rules, h) && u in h.Begun().plan
    ensures Shaped(e, h.Begun()) && u in Now(e, rules, h).plan
    ensures ScoredAnew(e, h.Begun(), Now(e, rules, h), u, Replaced(h, u))
  {
    if h.Then? {
      RecordedScores(e, rules, h.before, u);
      StepScores(e, rules, Now(e, rules, h.before), h.action, u);
    }
  }

  /** A relocation that leaves its source empty. */
  predicate Frees(w: Work, a: Action) {
    a.Moved? && a.uid in w.plan && WouldFree(w.plan, a.uid, w.plan[a.uid])
  }

  /** How many of the relocations since `h0` left their source empty. */
  ghost function Freed(e: Env, rules: Rules, h0: History, h: History): nat
    requires Sound(e, rules, h)
  {
    if h == h0 || h.Start? then 0
    else Freed(e, rules, h0, h.before) + if Frees(Now(e, rules, h.before), h.action) then 1 else 0
  }

  /** A relocation raises the total, unless it empties its source: then it loses less than 50. */
  lemma MoveAccounting(e: Env, rules: Rules, w: Work, a: Action)
    requires Shaped(e, w) && a.Moved? && Accepted(e, rules, w, a)
    ensures Applied(e, rules, w, a).totalScore - w.totalScore == Score(e, a.uid, a.node) - w.scores[a.uid]
    ensures Applied(e, rules, w, a).totalScore > w.totalScore - if Frees(w, a) then 50.0 else 0.0
  {
  }

  /** A run of relocations loses less than 50 for each that emptied its source, of which there are no more
      than relocations; and without such it only rises. */
  lemma {:induction false} RelocationAccounting(e: Env, rules: Rules, h0: History, h: History)
    requires Sound(e, rules, h0) && Sound(e, rules, h) && OnlyMoves(h0, h)
    ensures h0.Steps() <= h.Steps() && Freed(e, rules, h0, h) <= h.Steps() - h0.Steps()
    ensures Now(e, rules, h).totalScore >= Now(e, rules, h0).totalScore - 50.0 * Freed(e, rules, h0, h) as real
    ensures h != h0 ==>
      Now(e, rules, h).totalScore > Now(e, rules, h0).totalScore - 50.0 * Freed(e, rules, h0, h) as real
  {
    if h != h0 {
      RelocationAccounting(e, rules, h0, h.before);
      MoveAccounting(e, rules, Now(e, rules, h.before), h.action);
    }
  }

  /** A swap, stale or not, raises the total by exactly the gain it was accepted for. */
  lemma SwapAccounting(e: Env, rules: Rules, w: Work, a: Action)
    requires Shaped(e, w) && a.Exchanged? && Accepted(e, rules, w, a)
    ensures var gain := (Score(e, a.a, e.nodeByName[w.plan[a.b]]) + Score(e, a.b, e.nodeByName[a.nodeA]))
                        - (w.scores[a.a] + w.scores[a.b]);
      gain > 0.0 && Applied(e, rules, w, a).totalScore == w.totalScore + gain
  {
  }

  lemma {:induction false} SwapsOnlyRaise(e: Env, rules: Rules, h0: History, h: History)
    requires Sound(e, rules, h0) && Sound(e, rules, h) && OnlySwaps(h0, h)
    ensures h0.Steps() <= h.Steps()
    ensures h != h0 ==> Now(e, rules, h).totalScore > Now(e, rules, h0).totalScore
  {
    if h != h0 {
      SwapsOnlyRaise(e, rules, h0, h.before);
      SwapAccounting(e, rules, Now(e, rules, h.before), h.action);
    }
  }
}
