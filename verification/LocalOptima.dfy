/**
 What a local optimum is, in terms of the books alone: the steps the passes test for are exactly those
 that leave every node within its capacity and pay off.
 */
module LocalOptima {
  import opened Placement
  import opened LocalSearch
  import opened Histories
  import opened HeuristicSearch
  import HeuristicSolver

  /** The books after one pod has moved to the node at a position. */
  ghost function MovedTo(e: Env, w: Work, u: Uid, j: nat): Work
    requires Shaped(e, w) && u in w.plan && j < |e.nodes|
  {
    Relocated(e, w, u, w.plan[u], e.nodes[j].name)
  }

  /** The room test of a relocation is that it leaves no debt. */
  lemma CanRelocateIff(e: Env, rules: Rules, w: Work, u: Uid, j: nat)
    requires Shaped(e, w) && NoDebt(w) && u in w.plan && j < |e.nodes|
    ensures CanRelocate(e, rules, w, u, j)
       <==> && e.nodes[j].name != w.plan[u] && NoDebt(MovedTo(e, w, u, j))
            && (rules.budget ==> Powered(e, MovedTo(e, w, u, j).plan))
  {
    var from, to := w.plan[u], e.nodes[j].name;
    if to != from {
      RelocatedLeft(e, w, u, from, to, j);
      if e.podByUID[u].request.FitsIn(w.remaining[j]) {
        RelocateKeepsCredit(e, w, u, from, to);
      } else {
        assert !MovedTo(e, w, u, j).remaining[j].NonNegative();
      }
    }
  }

  /** Its gain is the rise of the total, and 50 exactly when its source is empty afterwards. */
  lemma GainIsRise(e: Env, w: Work, u: Uid, j: nat)
    requires Shaped(e, w) && u in w.plan && j < |e.nodes| && e.nodes[j].name != w.plan[u]
    ensures RelocationGain(e, w, u, j)
         == MovedTo(e, w, u, j).totalScore - w.totalScore
            + if Empty(MovedTo(e, w, u, j).plan, w.plan[u]) then 50.0 else 0.0
  {
    var plan := w.plan[u := e.nodes[j].name];
    if v :| v in w.plan && w.plan[v] == w.plan[u] && v != u {
      assert v in plan && plan[v] == w.plan[u];
    }
  }

  /** Moving the pod there leaves no debt, keeps to the budget where the rules ask for it, and raises the
      total, 50 added if the source is emptied. */
  ghost predicate PayingMove(e: Env, rules: Rules, w: Work, u: Uid, j: nat)
    requires Shaped(e, w) && u in w.plan && j < |e.nodes|
  {
    var after := MovedTo(e, w, u, j);
    && e.nodes[j].name != w.plan[u] && NoDebt(after) && (rules.budget ==> Powered(e, after.plan))
    && after.totalScore + (if Empty(after.plan, w.plan[u]) then 50.0 else 0.0) > w.totalScore
  }

  lemma UnmovableIff(e: Env, rules: Rules, w: Work, u: Uid)
    requires Shaped(e, w) && NoDebt(w) && u in w.plan
    ensures Unmovable(e, rules, w, u) <==> forall j: nat | j < |e.nodes| :: !PayingMove(e, rules, w, u, j)
  {
    forall j: nat | j < |e.nodes|
      ensures PayingMove(e, rules, w, u, j) <==> CanRelocate(e, rules, w, u, j) && RelocationGain(e, w, u, j) > 0.0
    {
      CanRelocateIff(e, rules, w, u, j);
      if e.nodes[j].name != w.plan[u] {
        GainIsRise(e, w, u, j);
      }
    }
  }

  /** The move made is the first of those that pay whose total is highest. */
  lemma BestMoveIff(e: Env, rules: Rules, w: Work, u: Uid, j: nat)
    requires Shaped(e, w) && NoDebt(w) && u in w.plan && j < |e.nodes|
    ensures BestMove(e, rules, w, u, j)
       <==> && PayingMove(e, rules, w, u, j)
            && forall i: nat | i < |e.nodes| && PayingMove(e, rules, w, u, i) :: AsGood(e, w, u, j, i)
  {
    forall i: nat | i < |e.nodes|
      ensures PayingMove(e, rules, w, u, i) <==> CanRelocate(e, rules, w, u, i) && RelocationGain(e, w, u, i) > 0.0
    {
      CanRelocateIff(e, rules, w, u, i);
      if e.nodes[i].name != w.plan[u] {
        GainIsRise(e, w, u, i);
      }
    }
    forall i: nat | i < |e.nodes| && PayingMove(e, rules, w, u, i) && PayingMove(e, rules, w, u, j)
      ensures AsGood(e, w, u, j, i)
         <==> && RelocationGain(e, w, u, i) <= RelocationGain(e, w, u, j)
              && (i < j ==> RelocationGain(e, w, u, i) < RelocationGain(e, w, u, j))
    {
      SameSource(e, w, u, i, j);
    }
  }

  /** Moving to j leads to no smaller a total than moving to i, and to a larger one if i comes first. */
  ghost predicate AsGood(e: Env, w: Work, u: Uid, j: nat, i: nat)
    requires Shaped(e, w) && u in w.plan && i < |e.nodes| && j < |e.nodes|
  {
    var here, there := MovedTo(e, w, u, j).totalScore, MovedTo(e, w, u, i).totalScore;
    there <= here && (i < j ==> there < here)
  }

  /** Whether the source is emptied does not depend on the target. */
  lemma SameSource(e: Env, w: Work, u: Uid, i: nat, j: nat)
    requires Shaped(e, w) && u in w.plan && i < |e.nodes| && j < |e.nodes|
    requires e.nodes[i].name != w.plan[u] && e.nodes[j].name != w.plan[u]
    ensures RelocationGain(e, w, u, i) - RelocationGain(e, w, u, j)
         == MovedTo(e, w, u, i).totalScore - MovedTo(e, w, u, j).totalScore
  {
  }

  /** A swap pays, the pods' own nodes being named, exactly when the nodes differ, it leaves no debt and it
      raises the total. */
  lemma SwapPaysIff(e: Env, w: Work, a: Uid, b: Uid)
    requires Shaped(e, w) && NoDebt(w) && a in w.plan && b in w.plan
    ensures SwapPays(e, w, a, b, w.plan[a]) <==> PayingSwap(e, w, a, b)
  {
    if w.plan[a] != w.plan[b] {
      SwapFeasibleIff(e, w, a, b, w.plan[a], w.plan[b]);
    }
  }

  ghost predicate PayingSwap(e: Env, w: Work, a: Uid, b: Uid)
    requires Shaped(e, w) && a in w.plan && b in w.plan
  {
    var after := Swapped(e, w, a, b, w.plan[a], w.plan[b]);
    w.plan[a] != w.plan[b] && NoDebt(after) && after.totalScore > w.totalScore
  }

  /** The pod can go there without a debt, and scores it above -1. */
  ghost predicate Reaches(e: Env, w: Work, u: Uid, j: nat)
    requires Shaped(e, w) && u in w.plan && j < |e.nodes|
  {
    e.nodes[j].name != w.plan[u] && Score(e, u, j) > -1.0 && NoDebt(MovedTo(e, w, u, j))
  }

  /** There is nowhere it can go. */
  ghost predicate Rooted(e: Env, w: Work, u: Uid)
    requires Shaped(e, w) && u in w.plan
  {
    forall j: nat | j < |e.nodes| :: !Reaches(e, w, u, j)
  }

  lemma RootedIff(e: Env, w: Work, u: Uid)
    requires Shaped(e, w) && NoDebt(w) && u in w.plan
    ensures NoTarget(e, e.podByUID[u], w.plan[u], w.remaining) <==> Rooted(e, w, u)
  {
    forall j: nat | j < |e.nodes|
      ensures Candidate(e, e.podByUID[u], w.plan[u], w.remaining, j) <==> Reaches(e, w, u, j)
    {
      CanRelocateIff(e, AS_WRITTEN, w, u, j);
    }
  }

  /** Where the pod would go in an evacuation as written: the first of the best-scoring nodes it can go to. */
  lemma FavouriteIff(e: Env, w: Work, u: Uid, j: nat)
    requires Shaped(e, w) && NoDebt(w) && u in w.plan && j < |e.nodes|
    ensures Favourite(e, e.podByUID[u], w.plan[u], w.remaining, j)
       <==> && Reaches(e, w, u, j)
            && forall i: nat | i < |e.nodes| && Reaches(e, w, u, i) ::
                 Score(e, u, i) <= Score(e, u, j) && (i < j ==> Score(e, u, i) < Score(e, u, j))
  {
    forall i: nat | i < |e.nodes|
      ensures Candidate(e, e.podByUID[u], w.plan[u], w.remaining, i) <==> Reaches(e, w, u, i)
    {
      CanRelocateIff(e, AS_WRITTEN, w, u, i);
    }
  }

  /** No pod can be moved, no two can be swapped, and no node in use can be emptied, to advantage and
      without a debt. */
  ghost predicate AtRest(e: Env, w: Work)
    requires Shaped(e, w)
  {
    && (forall u {:trigger w.plan[u]} | u in w.plan ::
          forall j: nat | j < |e.nodes| :: !PayingMove(e, AS_WRITTEN, w, u, j))
    && (forall a, b {:trigger w.plan[a], w.plan[b]} | a in w.plan && b in w.plan && a != b :: !PayingSwap(e, w, a, b))
    && (forall n | n in w.nodesUsed && n in e.nodeByName && !Empty(w.plan, n) ::
          exists u {:trigger w.plan[u]} :: u in w.plan && w.plan[u] == n && Rooted(e, w, u))
  }

  lemma RestingMoves(e: Env, w: Work)
    requires Shaped(e, w) && NoDebt(w)
    ensures NoRelocationPays(e, AS_WRITTEN, w)
       <==> forall u {:trigger w.plan[u]} | u in w.plan ::
              forall j: nat | j < |e.nodes| :: !PayingMove(e, AS_WRITTEN, w, u, j)
  {
    forall u | u in w.plan
      ensures Unmovable(e, AS_WRITTEN, w, u)
         <==> forall j: nat | j < |e.nodes| :: !PayingMove(e, AS_WRITTEN, w, u, j)
    {
      UnmovableIff(e, AS_WRITTEN, w, u);
    }
  }

  lemma RestingSwaps(e: Env, w: Work)
    requires Shaped(e, w) && NoDebt(w)
    ensures NoSwapPays(e, w)
       <==> forall a, b {:trigger w.plan[a], w.plan[b]} | a in w.plan && b in w.plan && a != b ::
              !PayingSwap(e, w, a, b)
  {
    forall a, b | a in w.plan && b in w.plan
      ensures SwapPays(e, w, a, b, w.plan[a]) <==> PayingSwap(e, w, a, b)
    {
      SwapPaysIff(e, w, a, b);
    }
  }

  lemma RestingNodes(e: Env, w: Work)
    requires Shaped(e, w) && NoDebt(w)
    ensures NoNodeEmpties(e, w)
       <==> forall n | n in w.nodesUsed && n in e.nodeByName && !Empty(w.plan, n) ::
              exists u {:trigger w.plan[u]} :: u in w.plan && w.plan[u] == n && Rooted(e, w, u)
  {
    forall n | n in e.nodeByName
      ensures Stuck(e, w, n) <==> exists u {:trigger w.plan[u]} :: u in w.plan && w.plan[u] == n && Rooted(e, w, u)
    {
      forall u | u in w.plan && w.plan[u] == n
        ensures NoTarget(e, e.podByUID[u], n, w.remaining) <==> Rooted(e, w, u)
      {
        RootedIff(e, w, u);
      }
    }
  }

  /** As written, on books without debt, the search is at a local optimum exactly when no such step is left. */
  lemma LocallyOptimalIff(e: Env, w: Work)
    requires Shaped(e, w) && NoDebt(w)
    ensures HeuristicSolver.LocallyOptimal(e, AS_WRITTEN, w) <==> AtRest(e, w)
  {
    RestingMoves(e, w);
    RestingSwaps(e, w);
    RestingNodes(e, w);
  }
}
