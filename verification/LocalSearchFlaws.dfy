/** What the local search as written gets wrong, and exactly when. */
module LocalSearchFlaws {
  import opened Placement
  import opened LocalSearch
  import opened Histories
  import opened HeuristicSearch
  import Solutions

  /* ------------------------------------ The stale node ------------------------------------ */

  /** A swap of A, told the node A has left, overstates what that node has left by A's request; the node
      is really overcommitted exactly when B does not fit there as things stood. */
  lemma StaleSwapOvercommitsIff(e: Env, pods: seq<Pod>, w: Work, a: Uid, b: Uid, stale: Name)
    requires Indexed(e, pods) && Shaped(e, w) && a in w.plan && b in w.plan && a != b && stale in e.nodeByName
    requires w.plan[a] != stale && w.plan[b] != stale && Ledger(e, pods, w)
    ensures var w', i := Swapped(e, w, a, b, stale, w.plan[b]), e.nodeByName[stale];
      && w'.remaining[i] == LeftOver(pods, e.nodes, w'.plan)[i].Plus(e.podByUID[a].request)
      && (LeftOver(pods, e.nodes, w'.plan)[i].NonNegative() <==> e.podByUID[b].request.FitsIn(w.remaining[i]))
  {
    var i := e.nodeByName[stale];
    SwappedEntry(e, pods, w, a, b, stale, i);
    SwappedLeft(e, w, a, b, stale, w.plan[b], i);
  }

  /** Pods of one size; A's node is full, and A gains by going to B's node in exchange for B, and then to C's
      in exchange for C. */
  ghost predicate Crowded(e: Env, w: Work, a: Uid, b: Uid, c: Uid)
    requires Shaped(e, w)
  {
    && a != b && a != c && b != c && a in w.plan && b in w.plan && c in w.plan
    && w.plan[a] != w.plan[b] && w.plan[a] != w.plan[c] && w.plan[b] != w.plan[c] && NoDebt(w)
    && e.podByUID[a].request == e.podByUID[b].request == e.podByUID[c].request
    && !e.podByUID[c].request.FitsIn(w.remaining[e.nodeByName[w.plan[a]]])
    && Gain(e, a, w.plan[b]) + Gain(e, b, w.plan[a]) > w.scores[a] + w.scores[b]
    && Gain(e, a, w.plan[c]) + Gain(e, c, w.plan[a]) > Gain(e, a, w.plan[b]) + w.scores[c]
  }

  ghost function Gain(e: Env, u: Uid, node: Name): real
    requires Located(e) && u in e.podByUID && node in e.nodeByName
  {
    Score(e, u, e.nodeByName[node])
  }

  /** Swapping pods of equal size changes no balance. */
  lemma EqualSwap(e: Env, w: Work, a: Uid, b: Uid, nodeA: Name, nodeB: Name)
    requires Shaped(e, w) && a in w.plan && b in w.plan && nodeA in e.nodeByName && nodeB in e.nodeByName
    requires e.podByUID[a].request == e.podByUID[b].request
    ensures Swapped(e, w, a, b, nodeA, nodeB).remaining == w.remaining
  {
    var r, ia, ib := e.podByUID[a].request, e.nodeByName[nodeA], e.nodeByName[nodeB];
    EqualExchange(w.remaining, ia, r);
    EqualExchange(w.remaining, ib, r);
  }

  lemma EqualExchange(remaining: seq<Amount>, i: nat, r: Amount)
    requires i < |remaining|
    ensures Debit(Credit(remaining, i, r), i, r) == remaining
  {
    assert remaining[i].Plus(r).Minus(r) == remaining[i];
  }

  lemma EqualSwapFits(e: Env, w: Work, a: Uid, b: Uid, nodeA: Name, nodeB: Name)
    requires Shaped(e, w) && a in w.plan && b in w.plan && nodeA in e.nodeByName && nodeB in e.nodeByName && NoDebt(w)
    requires e.podByUID[a].request == e.podByUID[b].request
    ensures SwapFeasible(w.remaining, e.podByUID[a], e.podByUID[b], e.nodeByName[nodeA], e.nodeByName[nodeB])
  {
    var ia, ib, r := e.nodeByName[nodeA], e.nodeByName[nodeB], e.podByUID[a].request;
    assert w.remaining[ia].Plus(r).Minus(r) == w.remaining[ia];
    assert w.remaining[ib].Plus(r).Minus(r) == w.remaining[ib];
  }

  lemma Overcommitted(pods: seq<Pod>, nodes: seq<Node>, plan: Plan, i: nat)
    requires i < |nodes| && !LeftOver(pods, nodes, plan)[i].NonNegative()
    ensures !WithinCapacity(pods, nodes, plan)
  {
    var n := nodes[i];
    assert n in nodes && !Load(pods, plan, n.name).FitsIn(n.allocatable);
  }

  /** The two swaps the inner loop makes for A, both told A's first node. */
  ghost function TwoSwaps(w: Work, a: Uid, b: Uid, c: Uid): History
    requires a in w.plan
  {
    Then(Then(Start(w), Exchanged(a, b, w.plan[a])), Exchanged(a, c, w.plan[a]))
  }

  lemma FirstSwapIsSound(e: Env, pods: seq<Pod>, rules: Rules, w: Work, a: Uid, b: Uid, c: Uid)
    requires Indexed(e, pods) && Shaped(e, w) && Crowded(e, w, a, b, c) && Ledger(e, pods, w)
    ensures Accepted(e, rules, w, Exchanged(a, b, w.plan[a]))
    ensures var w1 := Swapped(e, w, a, b, w.plan[a], w.plan[b]);
      w1.remaining == w.remaining && Ledger(e, pods, w1) && w1.totalScore > w.totalScore
  {
    EqualSwapFits(e, w, a, b, w.plan[a], w.plan[b]);
    EqualSwap(e, w, a, b, w.plan[a], w.plan[b]);
    SwapKeepsLedgerIff(e, pods, w, a, b, w.plan[a], w.plan[b]);
  }

  /** The second passes the same tests and raises the total; the books say no node is overcommitted, and
      one is. */
  lemma StaleNodeBreaksTheLedger(e: Env, pods: seq<Pod>, rules: Rules, w: Work, a: Uid, b: Uid, c: Uid)
    requires !rules.reread && Indexed(e, pods) && Shaped(e, w) && Crowded(e, w, a, b, c) && Ledger(e, pods, w)
    ensures var h := TwoSwaps(w, a, b, c);
      && Sound(e, rules, h) && OnlySwaps(Start(w), h)
      && !NoneStale(e, rules, h) && NoneStale(e, rules, h.before)
      && NoDebt(Now(e, rules, h)) && !WithinCapacity(pods, e.nodes, Now(e, rules, h).plan)
  {
    var na, nb, nc := w.plan[a], w.plan[b], w.plan[c];
    FirstSwapIsSound(e, pods, rules, w, a, b, c);
    Extend(e, rules, Start(w), Exchanged(a, b, na));
    var w1 := Swapped(e, w, a, b, na, nb);
    EqualSwapFits(e, w1, a, c, na, nc);
    EqualSwap(e, w1, a, c, na, nc);
    Extend(e, rules, Then(Start(w), Exchanged(a, b, na)), Exchanged(a, c, na));
    StaleSwapOvercommitsIff(e, pods, w1, a, c, na);
    Overcommitted(pods, e.nodes, Swapped(e, w1, a, c, na, nc).plan, e.nodeByName[na]);
  }

  /* --------------------------- A search that never settles --------------------------- */

  /** Pods of one size, each alone on a node it fills, all nodes alike to every pod, and some node empty.
      `full` is what an empty node has. */
  datatype Shuffle = Shuffle(request: Amount, full: Amount)

  ghost predicate Alike(e: Env, w: Work, x: Shuffle)
    requires Shaped(e, w)
  {
    && (forall u {:trigger w.plan[u]} | u in w.plan :: e.podByUID[u].request == x.request)
    && (forall u, j {:trigger Score(e, u, j)} | u in w.plan && 0 <= j < |e.nodes| :: Score(e, u, j) == w.scores[u])
  }

  ghost predicate EachAlone(w: Work) {
    forall u {:trigger w.plan[u]} | u in w.plan :: WouldFree(w.plan, u, w.plan[u])
  }

  ghost predicate Filled(e: Env, w: Work, x: Shuffle)
    requires Shaped(e, w)
  {
    forall j {:trigger w.remaining[j]} | 0 <= j < |e.nodes| ::
      w.remaining[j] == if Empty(w.plan, e.nodes[j].name) then x.full else x.full.Minus(x.request)
  }

  ghost predicate SomeEmpty(e: Env, w: Work) {
    exists j {:trigger e.nodes[j]} :: 0 <= j < |e.nodes| && Empty(w.plan, e.nodes[j].name)
  }

  ghost predicate Shuffling(e: Env, w: Work, x: Shuffle)
    requires Shaped(e, w)
  {
    && x.request.FitsIn(x.full) && !x.request.FitsIn(x.full.Minus(x.request))
    && w.plan != map[] && Alike(e, w, x) && EachAlone(w) && Filled(e, w, x) && SomeEmpty(e, w)
  }

  /** There is always a relocation that pays: any pod to any empty node, for half a bonus. */
  lemma ShufflingIsRestless(e: Env, rules: Rules, w: Work, x: Shuffle)
    requires !rules.budget && Shaped(e, w) && Shuffling(e, w, x)
    ensures !NoRelocationPays(e, rules, w)
  {
    var u := SomeElement(w.plan.Keys);
    var home := w.plan[u];
    var j :| 0 <= j < |e.nodes| && Empty(w.plan, e.nodes[j].name);
    assert WouldFree(w.plan, u, home) && Score(e, u, j) == w.scores[u];
    assert CanRelocate(e, rules, w, u, j) && RelocationGain(e, w, u, j) == 50.0;
    assert !Unmovable(e, rules, w, u);
  }

  lemma ShuffledAlone(w: Work, u: Uid, to: Name, plan: Plan)
    requires u in w.plan && EachAlone(w) && Empty(w.plan, to) && plan == w.plan[u := to]
    ensures forall v {:trigger plan[v]} | v in plan :: WouldFree(plan, v, plan[v])
    ensures forall n :: Empty(plan, n) <==> n != to && (Empty(w.plan, n) || n == w.plan[u])
  {
    var from := w.plan[u];
    forall v {:trigger plan[v]} | v in plan ensures WouldFree(plan, v, plan[v]) {
      assert v in w.plan && WouldFree(w.plan, v, w.plan[v]);
    }
    forall n ensures Empty(plan, n) <==> n != to && (Empty(w.plan, n) || n == from) {
      assert plan[u] == to;
      if !Empty(w.plan, n) && n != from {
        var v :| v in w.plan && w.plan[v] == n;
        assert plan[v] == n;
      }
    }
  }

  /** Moving a pod to an empty node leads to books of the same kind. */
  lemma ShuffledOn(e: Env, w: Work, x: Shuffle, u: Uid, to: Name)
    requires Shaped(e, w) && Shuffling(e, w, x) && u in w.plan && to in e.nodeByName && Empty(w.plan, to)
    ensures Shuffling(e, Relocated(e, w, u, w.plan[u], to), x)
  {
    var w', from := Relocated(e, w, u, w.plan[u], to), w.plan[u];
    ShuffledAlone(w, u, to, w'.plan);
    assert Alike(e, w', x) by {
      assert Score(e, u, e.nodeByName[to]) == w.scores[u];
      assert w'.scores == w.scores;
      forall v {:trigger w'.plan[v]} | v in w'.plan ensures e.podByUID[v].request == x.request {
        var home := w.plan[v];
      }
    }
    assert Filled(e, w', x) by {
      assert e.podByUID[u].request == x.request;
      forall j {:trigger w'.remaining[j]} | 0 <= j < |e.nodes|
        ensures w'.remaining[j] == if Empty(w'.plan, e.nodes[j].name) then x.full else x.full.Minus(x.request)
      {
        RelocatedLeft(e, w, u, from, to, j);
        assert w.remaining[j] == if Empty(w.plan, e.nodes[j].name) then x.full else x.full.Minus(x.request);
      }
    }
    assert SomeEmpty(e, w') by {
      assert e.nodes[e.nodeByName[from]].name == from;
    }
    assert u in w'.plan;
  }

  lemma OnePodPerNode(w: Work, from: Name, uids: seq<Uid>)
    requires EachAlone(w) && OnNode(w.plan, from, uids) && uids != []
    ensures |uids| == 1
  {
    if |uids| > 1 {
      assert uids[0] == uids[1] by {
        var home := w.plan[uids[1]];
      }
      Repeated(uids);
    }
  }

  lemma Repeated(uids: seq<Uid>)
    requires |uids| > 1 && uids[0] == uids[1]
    ensures !Solutions.FirstAt(uids, 1)
  {
    assert uids[0] in uids[..1];
  }

  /** Emptying a node of its one pod is a relocation to an empty node. */
  lemma ShuffledEvacuation(e: Env, rules: Rules, w: Work, x: Shuffle, from: Name, uids: seq<Uid>, moves: seq<Move>)
    requires Shaped(e, w) && Shuffling(e, w, x) && Accepted(e, rules, w, Emptied(from, uids, moves))
    ensures Shuffling(e, Evacuated(e, w, from, moves), x)
  {
    OnePodPerNode(w, from, uids);
    assert moves[..0] == [];
    var u := uids[0];
    var j: nat :| Favourite(e, e.podByUID[u], from, Room(e, rules, w, []), j) && moves[0].target == e.nodes[j].name;
    ShuffledOn(e, w, x, u, e.nodes[j].name);
    assert Evacuated(e, w, from, moves[..0]) == w;
  }

  /** Any accepted step leads to books of the same kind. */
  lemma ShufflingGoesOn(e: Env, rules: Rules, w: Work, x: Shuffle, a: Action)
    requires Shaped(e, w) && Shuffling(e, w, x) && Accepted(e, rules, w, a)
    ensures Shuffling(e, Applied(e, rules, w, a), x)
  {
    match a {
      case Moved(u, j) =>
        ShuffledOn(e, w, x, u, e.nodes[j].name);
      case Exchanged(_, _, _) =>
      case Emptied(from, uids, moves) =>
        ShuffledEvacuation(e, rules, w, x, from, uids, moves);
    }
  }

  /** Whatever order pods and nodes are visited in and wherever the deadline falls, a search from such
      books never reaches a point where no step is accepted. Only the deadline ends it. */
  lemma {:induction false} NeverSettles(e: Env, rules: Rules, h: History, x: Shuffle)
    requires !rules.budget && Sound(e, rules, h) && Shaped(e, h.Begun()) && Shuffling(e, h.Begun(), x)
    ensures Shuffling(e, Now(e, rules, h), x) && !NoRelocationPays(e, rules, Now(e, rules, h))
  {
    if h.Then? {
      NeverSettles(e, rules, h.before, x);
      ShufflingGoesOn(e, rules, Now(e, rules, h.before), x, h.action);
    }
    ShufflingIsRestless(e, rules, Now(e, rules, h), x);
  }
}
