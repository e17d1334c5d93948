/**
 Scores: of one pod on one node, of a whole plan, and the orders in which pods and nodes are tried.
 Scores are reals; what a policy's multipliers give a node is `policyScore`, an arbitrary real.
 */
module Scoring {
  import opened Placement

  predicate CanFit(pod: Pod, node: Node) {
    pod.request.FitsIn(node.remaining)
  }

  /* ----------------------------------- Normalisation ----------------------------------- */

  function MinBase(nodes: seq<Node>): (m: real)
    requires nodes != []
    ensures forall i | 0 <= i < |nodes| :: m <= nodes[i].baseScore
    ensures exists i | 0 <= i < |nodes| :: m == nodes[i].baseScore
  {
    var last := nodes[|nodes| - 1].baseScore;
    if |nodes| == 1 then last
    else
      var rest := MinBase(nodes[..|nodes| - 1]);
      if last < rest then last else rest
  }

  function MaxBase(nodes: seq<Node>): (m: real)
    requires nodes != []
    ensures forall i | 0 <= i < |nodes| :: nodes[i].baseScore <= m
    ensures exists i | 0 <= i < |nodes| :: m == nodes[i].baseScore
  {
    var last := nodes[|nodes| - 1].baseScore;
    if |nodes| == 1 then last
    else
      var rest := MaxBase(nodes[..|nodes| - 1]);
      if last > rest then last else rest
  }

  function Rescaled(base: real, low: real, high: real): real {
    if high - low == 0.0 then 1.0 else (base - low) / (high - low)
  }

  function Normalized(nodes: seq<Node>): seq<Node> {
    seq(|nodes|, i requires 0 <= i < |nodes| =>
      nodes[i].(normalizedScore := Rescaled(nodes[i].baseScore, MinBase(nodes), MaxBase(nodes))))
  }

  method BaseRange(nodes: array<Node>) returns (low: real, high: real)
    requires nodes.Length > 0
    ensures low == MinBase(nodes[..]) && high == MaxBase(nodes[..])
  {
    low, high := nodes[0].baseScore, nodes[0].baseScore;
    assert nodes[..1] == [nodes[0]];
    for i := 1 to nodes.Length
      invariant low == MinBase(nodes[..i]) && high == MaxBase(nodes[..i])
    {
      assert nodes[..i + 1][..i] == nodes[..i];
      if nodes[i].baseScore < low { low := nodes[i].baseScore; }
      if nodes[i].baseScore > high { high := nodes[i].baseScore; }
    }
    assert nodes[..nodes.Length] == nodes[..];
  }

  /** Minimum and maximum in one pass over the candidates, then rescaling in place. */
  method NormalizeScores(nodes: array<Node>)
    modifies nodes
    ensures nodes[..] == Normalized(old(nodes[..]))
  {
    if nodes.Length == 0 { return; }
    ghost var after := Normalized(nodes[..]);
    var low, high := BaseRange(nodes);
    for i := 0 to nodes.Length
      invariant forall j | 0 <= j < i :: nodes[j] == after[j]
      invariant forall j | i <= j < nodes.Length :: nodes[j] == old(nodes[j])
    {
      nodes[i] := nodes[i].(normalizedScore := Rescaled(nodes[i].baseScore, low, high));
    }
  }

  lemma Scale(x: real, y: real, range: real)
    requires x <= y && range > 0.0
    ensures x * range <= y * range
    ensures x < y ==> x * range < y * range
  {
  }

  lemma QuotientOrder(a: real, b: real, range: real)
    requires range > 0.0
    ensures a / range < b / range <==> a < b
  {
    var x, y := a / range, b / range;
    assert x * range == a && y * range == b;
    if a < b && x >= y { Scale(y, x, range); }
    if x < y { Scale(x, y, range); }
  }

  lemma QuotientEnds(range: real)
    requires range > 0.0
    ensures range / range == 1.0 && 0.0 / range == 0.0
  {
    var x := range / range;
    assert x * range == range;
    if x < 1.0 { Scale(x, 1.0, range); }
    if x > 1.0 { Scale(1.0, x, range); }
  }

  lemma RescaledOrder(a: real, b: real, low: real, high: real)
    requires low <= a <= high && low <= b <= high
    ensures Rescaled(a, low, high) < Rescaled(b, low, high) <==> a < b
    ensures 0.0 <= Rescaled(a, low, high) <= 1.0
    ensures Rescaled(high, low, high) == 1.0
    ensures Rescaled(a, low, high) == 0.0 <==> a == low < high
  {
    var range := high - low;
    if range > 0.0 {
      QuotientEnds(range);
      QuotientOrder(a - low, b - low, range);
      QuotientOrder(0.0, a - low, range);
      QuotientOrder(a - low, 0.0, range);
      QuotientOrder(range, a - low, range);
    }
  }

  /** Normalisation keeps the order of base scores, lands in [0, 1], and reaches both ends unless
      all base scores are equal, in which case every node gets 1. */
  lemma NormalizedKeepsOrder(nodes: seq<Node>, i: nat, j: nat)
    requires i < |nodes| && j < |nodes|
    ensures Normalized(nodes)[i].normalizedScore < Normalized(nodes)[j].normalizedScore
       <==> nodes[i].baseScore < nodes[j].baseScore
    ensures 0.0 <= Normalized(nodes)[i].normalizedScore <= 1.0
  {
    RescaledOrder(nodes[i].baseScore, nodes[j].baseScore, MinBase(nodes), MaxBase(nodes));
  }

  lemma NormalizedReachesEnds(nodes: seq<Node>)
    requires nodes != []
    ensures exists i | 0 <= i < |nodes| :: Normalized(nodes)[i].normalizedScore == 1.0
    ensures (exists i | 0 <= i < |nodes| :: Normalized(nodes)[i].normalizedScore == 0.0)
       <==> (exists j | 0 <= j < |nodes| :: nodes[j].baseScore != nodes[0].baseScore)
  {
    var low, high := MinBase(nodes), MaxBase(nodes);
    var lo :| 0 <= lo < |nodes| && low == nodes[lo].baseScore;
    var hi :| 0 <= hi < |nodes| && high == nodes[hi].baseScore;
    var after := Normalized(nodes);
    forall i | 0 <= i < |nodes|
      ensures after[i].normalizedScore == 0.0 <==> nodes[i].baseScore == low < high
    {
      RescaledOrder(nodes[i].baseScore, low, low, high);
    }
    RescaledOrder(high, low, low, high);
    assert after[hi].normalizedScore == 1.0;
    if low < high {
      assert after[lo].normalizedScore == 0.0;
      assert nodes[lo].baseScore != nodes[hi].baseScore;
    }
  }

  /* -------------------------------------- Sorting -------------------------------------- */

  /** Largest CPU request first, then largest memory request, then name. */
  predicate DemandBefore(a: Pod, b: Pod) {
    if a.request.cpu != b.request.cpu then a.request.cpu > b.request.cpu
    else if a.request.mem != b.request.mem then a.request.mem > b.request.mem
    else a.name < b.name
  }

  /** Ready nodes first, then highest normalised score, then name. */
  predicate PreferredBefore(a: Node, b: Node) {
    if a.isReady != b.isReady then a.isReady
    else if a.normalizedScore != b.normalizedScore then a.normalizedScore > b.normalizedScore
    else a.name < b.name
  }

  /** What sort.Slice promises: nothing goes before what precedes it. */
  ghost predicate DemandOrdered(s: seq<Pod>) {
    forall i, j {:trigger DemandBefore(s[j], s[i])} | 0 <= i < j < |s| :: !DemandBefore(s[j], s[i])
  }

  ghost predicate DemandOrder(pods: seq<Pod>, sorted: seq<Pod>) {
    multiset(sorted) == multiset(pods) && DemandOrdered(sorted)
  }

  lemma DemandOrderedInsert(t: seq<Pod>, k: nat, x: Pod)
    requires DemandOrdered(t) && k <= |t|
    requires forall j | 0 <= j < k :: !DemandBefore(x, t[j])
    requires k < |t| ==> DemandBefore(x, t[k])
    ensures DemandOrdered(t[..k] + [x] + t[k..])
    ensures multiset(t[..k] + [x] + t[k..]) == multiset(t) + multiset{x}
  {
    assert t == t[..k] + t[k..];
    forall j | k < j < |t| ensures !DemandBefore(t[j], x) {
      assert !DemandBefore(t[j], t[k]);
    }
  }

  /** CPU requests never rise, nor memory requests among equal CPU requests; equal requests go by name. */
  ghost predicate LargestFirst(s: seq<Pod>) {
    forall i, j {:trigger s[i].request, s[j].request} | 0 <= i < j < |s| ::
      && s[i].request.cpu >= s[j].request.cpu
      && (s[i].request.cpu == s[j].request.cpu ==> s[i].request.mem >= s[j].request.mem)
      && (s[i].request == s[j].request ==> s[i].name <= s[j].name)
  }

  /** That is what it means that nothing goes before what precedes it. */
  lemma LargestFirstIff(s: seq<Pod>)
    ensures DemandOrdered(s) <==> LargestFirst(s)
  {
    if DemandOrdered(s) {
      forall i, j | 0 <= i < j < |s| ensures !DemandBefore(s[j], s[i]) {}
    } else {
      var i, j :| 0 <= i < j < |s| && DemandBefore(s[j], s[i]);
      var larger, smaller := s[j].request, s[i].request;
    }
  }

  /** Some ordered permutation; how ties come out is not promised. */
  method SortPodsByDemand(pods: seq<Pod>) returns (sorted: seq<Pod>)
    ensures DemandOrder(pods, sorted) && LargestFirst(sorted)
  {
    sorted := [];
    for i := 0 to |pods|
      invariant DemandOrder(pods[..i], sorted)
    {
      var k := 0;
      while k < |sorted| && !DemandBefore(pods[i], sorted[k])
        invariant 0 <= k <= |sorted|
        invariant forall j | 0 <= j < k :: !DemandBefore(pods[i], sorted[j])
      {
        k := k + 1;
      }
      DemandOrderedInsert(sorted, k, pods[i]);
      assert pods[..i + 1] == pods[..i] + [pods[i]];
      sorted := sorted[..k] + [pods[i]] + sorted[k..];
    }
    assert pods[..|pods|] == pods;
    LargestFirstIff(sorted);
  }

  /** What sort.Slice promises: nothing goes before what precedes it. */
  ghost predicate PreferenceOrdered(s: seq<Node>) {
    forall i, j {:trigger PreferredBefore(s[j], s[i])} | 0 <= i < j < |s| :: !PreferredBefore(s[j], s[i])
  }

  ghost predicate PreferenceOrder(nodes: seq<Node>, sorted: seq<Node>) {
    multiset(sorted) == multiset(nodes) && PreferenceOrdered(sorted)
  }

  lemma PreferenceOrderedInsert(t: seq<Node>, k: nat, x: Node)
    requires PreferenceOrdered(t) && k <= |t|
    requires forall j | 0 <= j < k :: !PreferredBefore(x, t[j])
    requires k < |t| ==> PreferredBefore(x, t[k])
    ensures PreferenceOrdered(t[..k] + [x] + t[k..])
    ensures multiset(t[..k] + [x] + t[k..]) == multiset(t) + multiset{x}
  {
    assert t == t[..k] + t[k..];
    forall j | k < j < |t| ensures !PreferredBefore(t[j], x) {
      assert !PreferredBefore(t[j], t[k]);
    }
  }

  /** The ordered permutation: names are distinct, so there is one (PreferenceOrderUnique). */
  method SortNodesByPreference(nodes: seq<Node>) returns (sorted: seq<Node>)
    ensures PreferenceOrder(nodes, sorted)
  {
    sorted := [];
    for i := 0 to |nodes|
      invariant PreferenceOrder(nodes[..i], sorted)
    {
      var k := 0;
      while k < |sorted| && !PreferredBefore(nodes[i], sorted[k])
        invariant 0 <= k <= |sorted|
        invariant forall j | 0 <= j < k :: !PreferredBefore(nodes[i], sorted[j])
      {
        k := k + 1;
      }
      PreferenceOrderedInsert(sorted, k, nodes[i]);
      assert nodes[..i + 1] == nodes[..i] + [nodes[i]];
      sorted := sorted[..k] + [nodes[i]] + sorted[k..];
    }
    assert nodes[..|nodes|] == nodes;
  }

  ghost predicate Ordered<T(!new)>(s: seq<T>, before: (T, T) -> bool) {
    forall i, j | 0 <= i < j < |s| :: !before(s[j], s[i])
  }

  ghost predicate Decides<T(!new)>(s: seq<T>, before: (T, T) -> bool) {
    forall a, b | a in s && b in s && a != b :: before(a, b) || before(b, a)
  }

  /** An order that decides between any two elements leaves exactly one ordered permutation. */
  lemma {:induction false} OrderedUnique<T(!new)>(s: seq<T>, t: seq<T>, before: (T, T) -> bool)
    requires multiset(s) == multiset(t) && Decides(s, before)
    requires Ordered(s, before) && Ordered(t, before)
    ensures s == t
  {
    if s == [] {
      assert |multiset(t)| == 0;
    } else {
      assert |multiset(t)| > 0;
      OrderedHead(s, t, before);
      assert s == [s[0]] + s[1..] && t == [t[0]] + t[1..];
      assert multiset(s[1..]) == multiset(s) - multiset{s[0]};
      assert multiset(t[1..]) == multiset(t) - multiset{t[0]};
      OrderedUnique(s[1..], t[1..], before);
    }
  }

  lemma OrderedHead<T(!new)>(s: seq<T>, t: seq<T>, before: (T, T) -> bool)
    requires multiset(s) == multiset(t) && s != [] && t != [] && Decides(s, before)
    requires Ordered(s, before) && Ordered(t, before)
    ensures s[0] == t[0]
  {
    SameMembers(s, t);
    assert s[0] in t && t[0] in s;
  }

  /** Distinct names leave exactly one preference order. */
  lemma PreferenceOrderUnique(nodes: seq<Node>, s: seq<Node>, t: seq<Node>)
    requires DistinctNames(nodes)
    requires PreferenceOrder(nodes, s) && PreferenceOrder(nodes, t)
    ensures s == t
  {
    SameMembers(nodes, s);
    forall a, b | a in s && b in s && a != b ensures PreferredBefore(a, b) || PreferredBefore(b, a) {
      NamedIs(nodes, a);
      NamedIs(nodes, b);
    }
    OrderedUnique(s, t, PreferredBefore);
  }

  /** Pods of distinct names have exactly one demand order. */
  lemma DemandOrderUnique(pods: seq<Pod>, s: seq<Pod>, t: seq<Pod>)
    requires forall p, q | p in pods && q in pods && p.name == q.name :: p == q
    requires DemandOrder(pods, s) && DemandOrder(pods, t)
    ensures s == t
  {
    SameMembers(pods, s);
    forall a, b | a in s && b in s && a != b ensures DemandBefore(a, b) || DemandBefore(b, a) {}
    OrderedUnique(s, t, DemandBefore);
  }

  /** After normalisation the preference order is: ready, then base score, then name. */
  lemma PreferenceByBaseScore(nodes: seq<Node>, a: Node, b: Node)
    requires a in Normalized(nodes) && b in Normalized(nodes)
    ensures PreferredBefore(a, b)
       <==> if a.isReady != b.isReady then a.isReady
            else if a.baseScore != b.baseScore then a.baseScore > b.baseScore
            else a.name < b.name
  {
    var i :| 0 <= i < |nodes| && Normalized(nodes)[i] == a;
    var j :| 0 <= j < |nodes| && Normalized(nodes)[j] == b;
    NormalizedKeepsOrder(nodes, i, j);
    NormalizedKeepsOrder(nodes, j, i);
  }

  /* ------------------------------------ Problem size ------------------------------------ */

  ghost function FittingNodes(pod: Pod, nodes: seq<Node>): set<int> {
    set j | 0 <= j < |nodes| && CanFit(pod, nodes[j])
  }

  ghost function FittingPairs(pods: seq<Pod>, nodes: seq<Node>): nat {
    if pods == [] then 0
    else FittingPairs(pods[..|pods| - 1], nodes) + |FittingNodes(pods[|pods| - 1], nodes)|
  }

  method CountFeasiblePairs(pods: seq<Pod>, nodes: seq<Node>) returns (count: nat)
    ensures count == FittingPairs(pods, nodes)
  {
    count := 0;
    for i := 0 to |pods|
      invariant count == FittingPairs(pods[..i], nodes)
    {
      for j := 0 to |nodes|
        invariant count == FittingPairs(pods[..i], nodes) + |FittingNodes(pods[i], nodes[..j])|
      {
        assert FittingNodes(pods[i], nodes[..j + 1])
             == FittingNodes(pods[i], nodes[..j]) + if CanFit(pods[i], nodes[j]) then {j} else {};
        if CanFit(pods[i], nodes[j]) {
          count := count + 1;
        }
      }
      assert nodes[..|nodes|] == nodes && pods[..i + 1][..i] == pods[..i];
    }
    assert pods[..|pods|] == pods;
  }
}
