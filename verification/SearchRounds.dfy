/**
 How a pass goes through its pods, pairs or nodes, and how the passes make up a round: everything gets its
 turn, at which a step is made or none is accepted.
 */
module SearchRounds {
  import opened Placement
  import opened LocalSearch
  import opened Histories

  /* ----------------------------------- Relocations ----------------------------------- */

  /** At some point since h0 no move of the pod paid, or the pod was moved. */
  ghost predicate MoveTried(e: Env, rules: Rules, h0: History, h: History, u: Uid)
    requires Sound(e, rules, h)
  {
    || (u in Now(e, rules, h).plan && Unmovable(e, rules, Now(e, rules, h), u))
    || (h != h0 && h.Then? && (MovesThis(h.action, u) || MoveTried(e, rules, h0, h.before, u)))
  }

  predicate MovesThis(a: Action, u: Uid) {
    a.Moved? && a.uid == u
  }

  ghost predicate MovesTried(e: Env, rules: Rules, h0: History, h: History, uids: seq<Uid>, n: nat)
    requires n <= |uids| && Sound(e, rules, h)
  {
    forall i | 0 <= i < n :: MoveTried(e, rules, h0, h, uids[i])
  }

  /** A step was made, if any, and the next pod has had its turn. */
  lemma MovesTriedNext(e: Env, rules: Rules, h0: History, h: History, h': History, uids: seq<Uid>, n: nat)
    requires Sound(e, rules, h) && Sound(e, rules, h') && (h' == h || (h'.Then? && h'.before == h && h' != h0))
    requires n < |uids| && MovesTried(e, rules, h0, h, uids, n) && MoveTried(e, rules, h0, h', uids[n])
    ensures MovesTried(e, rules, h0, h', uids, n + 1)
  {
    forall i | 0 <= i < n ensures MoveTried(e, rules, h0, h', uids[i]) {
      MoveStaysTried(e, rules, h0, h, h', uids[i]);
    }
  }

  lemma MoveStaysTried(e: Env, rules: Rules, h0: History, h: History, h': History, u: Uid)
    requires Sound(e, rules, h) && Sound(e, rules, h') && MoveTried(e, rules, h0, h, u)
    requires h' == h || (h'.Then? && h'.before == h && h' != h0)
    ensures MoveTried(e, rules, h0, h', u)
  {
  }

  /** Every pod placed got its turn. */
  ghost predicate AllMovesTried(e: Env, rules: Rules, h0: History, h: History)
    requires Sound(e, rules, h0) && Sound(e, rules, h)
  {
    forall u | u in Now(e, rules, h0).plan :: MoveTried(e, rules, h0, h, u)
  }

  lemma AllPodsTried(e: Env, rules: Rules, h0: History, h: History, uids: seq<Uid>)
    requires Sound(e, rules, h0) && Sound(e, rules, h) && MovesTried(e, rules, h0, h, uids, |uids|)
    requires forall u | u in Now(e, rules, h0).plan :: u in uids
    ensures AllMovesTried(e, rules, h0, h)
  {
    forall u | u in Now(e, rules, h0).plan ensures MoveTried(e, rules, h0, h, u) {
      assert u in uids;
      var i :| 0 <= i < |uids| && uids[i] == u;
    }
  }

  /* -------------------------------------- Swaps -------------------------------------- */

  /** At some point since h0 the pod was on this node. */
  ghost predicate WasOn(e: Env, rules: Rules, h0: History, h: History, u: Uid, n: Name)
    requires Sound(e, rules, h)
  {
    || (u in Now(e, rules, h).plan && Now(e, rules, h).plan[u] == n)
    || (h != h0 && h.Then? && WasOn(e, rules, h0, h.before, u, n))
  }

  ghost predicate SwapRefused(e: Env, rules: Rules, h0: History, h: History, a: Uid, b: Uid, nodeA: Name)
    requires Sound(e, rules, h)
  {
    var w := Now(e, rules, h);
    && WasOn(e, rules, h0, h, a, nodeA) && a in w.plan && b in w.plan && nodeA in e.nodeByName
    && !SwapPays(e, w, a, b, nodeA)
  }

  /** At some point since h0 the two did not gain by a swap, the first being taken to be where it was then or
      earlier; or they were swapped. */
  ghost predicate SwapTried(e: Env, rules: Rules, h0: History, h: History, a: Uid, b: Uid)
    requires Sound(e, rules, h)
  {
    || (exists nodeA :: SwapRefused(e, rules, h0, h, a, b, nodeA))
    || (h != h0 && h.Then? && (SwapsThese(h.action, a, b) || SwapTried(e, rules, h0, h.before, a, b)))
  }

  predicate SwapsThese(action: Action, a: Uid, b: Uid) {
    action.Exchanged? && action.a == a && action.b == b
  }

  /** Pod i with each pod between it and position n. */
  ghost predicate SwapsTried(e: Env, rules: Rules, h0: History, h: History, uids: seq<Uid>, i: nat, n: nat)
    requires i < |uids| && n <= |uids| && Sound(e, rules, h)
  {
    forall j | i < j < n :: SwapTried(e, rules, h0, h, uids[i], uids[j])
  }

  /** The first n pods with all later ones. */
  ghost predicate PairsTried(e: Env, rules: Rules, h0: History, h: History, uids: seq<Uid>, n: nat)
    requires n <= |uids| && Sound(e, rules, h)
  {
    forall i | 0 <= i < n :: SwapsTried(e, rules, h0, h, uids, i, |uids|)
  }

  /** Every pair of pods placed got its turn, one way round. */
  ghost predicate AllSwapsTried(e: Env, rules: Rules, h0: History, h: History)
    requires Sound(e, rules, h0) && Sound(e, rules, h)
  {
    forall a, b {:trigger SwapTried(e, rules, h0, h, a, b)} |
      a in Now(e, rules, h0).plan && b in Now(e, rules, h0).plan && a != b ::
      SwapTried(e, rules, h0, h, a, b) || SwapTried(e, rules, h0, h, b, a)
  }

  lemma AllPairsTried(e: Env, rules: Rules, h0: History, h: History, uids: seq<Uid>)
    requires Sound(e, rules, h0) && Sound(e, rules, h) && PairsTried(e, rules, h0, h, uids, |uids|)
    requires forall u | u in Now(e, rules, h0).plan :: u in uids
    ensures AllSwapsTried(e, rules, h0, h)
  {
    forall a, b | a in Now(e, rules, h0).plan && b in Now(e, rules, h0).plan && a != b
      ensures SwapTried(e, rules, h0, h, a, b) || SwapTried(e, rules, h0, h, b, a)
    {
      assert a in uids && b in uids;
      PairTried(e, rules, h0, h, uids, a, b);
    }
  }

  lemma PairTried(e: Env, rules: Rules, h0: History, h: History, uids: seq<Uid>, a: Uid, b: Uid)
    requires Sound(e, rules, h) && PairsTried(e, rules, h0, h, uids, |uids|) && a in uids && b in uids && a != b
    ensures SwapTried(e, rules, h0, h, a, b) || SwapTried(e, rules, h0, h, b, a)
  {
    var i :| 0 <= i < |uids| && uids[i] == a;
    var j :| 0 <= j < |uids| && uids[j] == b;
    if i < j {
      assert SwapsTried(e, rules, h0, h, uids, i, |uids|);
    } else {
      assert SwapsTried(e, rules, h0, h, uids, j, |uids|);
    }
  }

  /** Seen from an earlier start. */
  lemma {:induction false} WasOnSince(e: Env, rules: Rules, h0: History, h1: History, h: History, u: Uid, n: Name)
    requires Sound(e, rules, h) && WasOn(e, rules, h1, h, u, n) && OnlySwaps(h0, h1) && OnlySwaps(h1, h)
    ensures WasOn(e, rules, h0, h, u, n)
  {
    SwapsLead(h0, h1, h);
    if !(u in Now(e, rules, h).plan && Now(e, rules, h).plan[u] == n) {
      WasOnSince(e, rules, h0, h1, h.before, u, n);
    }
  }

  /** Going on from h1, one does not come back to h0. */
  lemma {:induction false} SwapsLead(h0: History, h1: History, h: History)
    requires OnlySwaps(h0, h1) && OnlySwaps(h1, h)
    ensures h0.Steps() <= h1.Steps() <= h.Steps() && (h != h1 ==> h != h0)
  {
    PassExtends(map[], h0, h1);
    PassExtends(map[], h1, h);
    ExtendsKeepsStart(h0, h1);
    ExtendsKeepsStart(h1, h);
  }

  lemma {:induction false} SwapTriedSince(
    e: Env, rules: Rules, h0: History, h1: History, h: History, a: Uid, b: Uid)
    requires Sound(e, rules, h) && SwapTried(e, rules, h1, h, a, b) && OnlySwaps(h0, h1) && OnlySwaps(h1, h)
    ensures SwapTried(e, rules, h0, h, a, b)
  {
    SwapsLead(h0, h1, h);
    if nodeA :| SwapRefused(e, rules, h1, h, a, b, nodeA) {
      WasOnSince(e, rules, h0, h1, h, a, nodeA);
      assert SwapRefused(e, rules, h0, h, a, b, nodeA);
    } else if !SwapsThese(h.action, a, b) {
      SwapTriedSince(e, rules, h0, h1, h.before, a, b);
    }
  }

  lemma {:induction false} SwapStaysTried(
    e: Env, rules: Rules, h0: History, h: History, h': History, a: Uid, b: Uid)
    requires Sound(e, rules, h) && Sound(e, rules, h') && SwapTried(e, rules, h0, h, a, b)
    requires OnlySwaps(h0, h) && OnlySwaps(h, h')
    ensures SwapTried(e, rules, h0, h', a, b)
  {
    SwapsLead(h0, h, h');
    if h' != h {
      SwapStaysTried(e, rules, h0, h, h'.before, a, b);
    }
  }

  lemma PairsTriedNext(e: Env, rules: Rules, h0: History, h: History, h': History, uids: seq<Uid>, n: nat)
    requires Sound(e, rules, h) && Sound(e, rules, h') && OnlySwaps(h0, h) && OnlySwaps(h, h')
    requires n < |uids| && PairsTried(e, rules, h0, h, uids, n) && SwapsTried(e, rules, h, h', uids, n, |uids|)
    ensures PairsTried(e, rules, h0, h', uids, n + 1)
  {
    forall i | 0 <= i < n + 1 ensures SwapsTried(e, rules, h0, h', uids, i, |uids|) {
      forall j | i < j < |uids| ensures SwapTried(e, rules, h0, h', uids[i], uids[j]) {
        if i < n {
          assert SwapsTried(e, rules, h0, h, uids, i, |uids|);
          SwapStaysTried(e, rules, h0, h, h', uids[i], uids[j]);
        } else {
          SwapTriedSince(e, rules, h0, h, h', uids[i], uids[j]);
        }
      }
    }
  }

  /* ----------------------------------- Evacuations ----------------------------------- */

  /** At some point since h0 one of the node's pods had nowhere to go, or the node was emptied; or it was
      empty at h0. (With reservation or the budget it may also be given up for these.) */
  ghost predicate NodeTried(e: Env, rules: Rules, h0: History, h: History, n: Name)
    requires Sound(e, rules, h0) && Sound(e, rules, h)
  {
    || Empty(Now(e, rules, h0).plan, n) || Stuck(e, Now(e, rules, h), n) || rules.reserve || rules.budget
    || (h != h0 && h.Then? && (EmptiesThis(h.action, n) || NodeTried(e, rules, h0, h.before, n)))
  }

  predicate EmptiesThis(a: Action, n: Name) {
    a.Emptied? && a.from == n
  }

  ghost predicate NodesTried(e: Env, rules: Rules, h0: History, h: History, names: seq<Name>, n: nat)
    requires Sound(e, rules, h0) && Sound(e, rules, h) && n <= |names|
  {
    forall i | 0 <= i < n && names[i] in e.nodeByName :: NodeTried(e, rules, h0, h, names[i])
  }

  lemma NodesTriedNext(e: Env, rules: Rules, h0: History, h: History, h': History, names: seq<Name>, n: nat)
    requires Sound(e, rules, h0) && Sound(e, rules, h) && Sound(e, rules, h')
    requires h' == h || (h'.Then? && h'.before == h && h' != h0)
    requires n < |names| && NodesTried(e, rules, h0, h, names, n)
    requires names[n] in e.nodeByName ==> NodeTried(e, rules, h0, h', names[n])
    ensures NodesTried(e, rules, h0, h', names, n + 1)
  {
    forall i | 0 <= i < n && names[i] in e.nodeByName ensures NodeTried(e, rules, h0, h', names[i]) {
      NodeStaysTried(e, rules, h0, h, h', names[i]);
    }
  }

  lemma NodeStaysTried(e: Env, rules: Rules, h0: History, h: History, h': History, n: Name)
    requires Sound(e, rules, h0) && Sound(e, rules, h) && Sound(e, rules, h') && NodeTried(e, rules, h0, h, n)
    requires h' == h || (h'.Then? && h'.before == h && h' != h0)
    ensures NodeTried(e, rules, h0, h', n)
  {
  }

  /** Every node in use got its turn. */
  ghost predicate AllNodesTried(e: Env, rules: Rules, h0: History, h: History)
    requires Sound(e, rules, h0) && Sound(e, rules, h)
  {
    forall n | n in Now(e, rules, h0).nodesUsed && n in e.nodeByName :: NodeTried(e, rules, h0, h, n)
  }

  lemma AllNamesTried(e: Env, rules: Rules, h0: History, h: History, names: seq<Name>)
    requires Sound(e, rules, h0) && Sound(e, rules, h) && NodesTried(e, rules, h0, h, names, |names|)
    requires forall n | n in Now(e, rules, h0).nodesUsed :: n in names
    ensures AllNodesTried(e, rules, h0, h)
  {
    forall n | n in Now(e, rules, h0).nodesUsed && n in e.nodeByName ensures NodeTried(e, rules, h0, h, n) {
      assert n in names;
      var i :| 0 <= i < |names| && names[i] == n;
    }
  }

  /* -------------------------------------- Rounds -------------------------------------- */

  /** A consolidation pass, then a pass of swaps, then one of relocations; in a whole round everything gets
      its turn in each. */
  ghost predicate RoundVia(
    e: Env, rules: Rules, h0: History, h1: History, h2: History, h: History, whole: bool)
  {
    && Sound(e, rules, h0) && Sound(e, rules, h1) && Sound(e, rules, h2) && Sound(e, rules, h)
    && OnlyEvacuations(Now(e, rules, h0).plan, h0, h1) && OnlySwaps(h1, h2) && OnlyMoves(h2, h)
    && (whole ==>
          AllNodesTried(e, rules, h0, h1) && AllSwapsTried(e, rules, h1, h2) && AllMovesTried(e, rules, h2, h))
  }

  ghost predicate Round(e: Env, rules: Rules, h0: History, h: History, whole: bool) {
    exists h1, h2 :: RoundVia(e, rules, h0, h1, h2, h, whole)
  }

  ghost predicate InRounds(e: Env, rules: Rules, h0: History, h: History, n: nat, whole: bool)
    decreases n
  {
    if n == 0 then h == h0
    else exists mid :: InRounds(e, rules, h0, mid, n - 1, whole) && Round(e, rules, mid, h, whole)
  }

  ghost predicate WithinRounds(e: Env, rules: Rules, h0: History, h: History, rounds: nat, whole: bool) {
    exists n: nat :: n <= rounds && InRounds(e, rules, h0, h, n, whole)
  }

  /** One more round goes on, by a step at least unless it changes nothing. */
  lemma OneMoreRound(e: Env, rules: Rules, h0: History, mid: History, h: History, n: nat, whole: bool)
    requires InRounds(e, rules, h0, mid, n, whole) && Round(e, rules, mid, h, whole)
    requires Extends(h0, mid) && Extends(mid, h)
    ensures InRounds(e, rules, h0, h, n + 1, whole)
    ensures Extends(h0, h) && (h != mid ==> h.Steps() > mid.Steps())
  {
    ExtendsCompose(h0, mid, h);
    ExtendsKeepsStart(mid, h);
  }
}
