/**
 What the heuristic's total says about its plan. The search scores its steps on nodes whose base scores
 are those of the input, where greedy's are the policy scores; and greedy's scores count a ready-node
 bonus on nodes it woke, as do those of the search. All else in the total is the score of the plan.
 */
module Totals {
  import opened Placement
  import opened Solutions
  import opened GreedyProperties
  import opened LocalSearch
  import opened Histories
  import opened HeuristicSolver
  import Greedy

  /** The search holds a node of this name cheaper by this much than greedy did. */
  ghost function Dropped(input: SolverInput, name: Name): real {
    if name in Names(input.nodes) then Named(input.nodes, name).policyScore - Named(input.nodes, name).baseScore
    else 0.0
  }

  /** What the recorded scores leave out: the policy scores of the nodes that the search, in place of
      greedy, put pods on. */
  ghost function LeftOut(input: SolverInput, h: History, plan: Plan): map<Uid, real> {
    map u | u in plan :: if Replaced(h, u) then Dropped(input, plan[u]) else 0.0
  }

  /** What they have too much: 100 for every pod on a node that greedy woke, but for those that greedy woke
      it for and the search never placed again. */
  ghost function TooMuch(g: SolverOutput, h: History, plan: Plan): map<Uid, real> {
    map u | u in plan :: if plan[u] in Flagged(g.assignments) && !WokenFor(g, h, u) then CONSOLIDATION_BONUS else 0.0
  }

  ghost predicate WokenFor(g: SolverOutput, h: History, u: Uid) {
    !Replaced(h, u) && u in g.assignments && g.assignments[u].requiresWake
  }

  /** Two sums that agree pod by pod with two others. */
  lemma {:induction false} SumBalance(pods: seq<Pod>, a: Measure, b: Measure, c: Measure, d: Measure)
    requires forall i | 0 <= i < |pods| ::
      Value(a, pods[i]) + Value(b, pods[i]) == Value(c, pods[i]) + Value(d, pods[i])
    ensures Sum(pods, a) + Sum(pods, b) == Sum(pods, c) + Sum(pods, d)
  {
    if pods != [] {
      SumBalance(pods[..|pods| - 1], a, b, c, d);
    }
  }

  /** A candidate in the input, as greedy scores it, and as the search holds it. */
  lemma ThreeViews(input: SolverInput, g: SolverOutput, e: Env, name: Name)
    requires WellFormed(input) && Started(input, g, e) && name in e.nodeByName
    ensures name in Names(input.nodes) && name in Names(Candidates(input))
    ensures var n, c, m :=
        Named(input.nodes, name), Named(Candidates(input), name), e.nodes[e.nodeByName[name]];
      && n in input.nodes && c.name == m.name == n.name == name
      && c.baseScore == m.baseScore + Dropped(input, name)
      && (m.isReady <==> c.isReady || name in Flagged(g.assignments))
      && (Greedy.NeedsWake(c) <==> Greedy.NeedsWake(n))
  {
    var i := e.nodeByName[name];
    var n, c := input.nodes[i], Candidates(input)[i];
    assert e.nodes[i].name == name && n in input.nodes && c in Candidates(input);
    NamedIs(input.nodes, n);
    NamedIs(Candidates(input), c);
  }

  /** Greedy flagged the nodes it used that need a wake. */
  lemma FlaggedIff(input: SolverInput, g: SolverOutput, e: Env, n: Node)
    requires WellFormed(input) && GreedyPromise(input, g) && Started(input, g, e) && n in input.nodes
    ensures n.name in Flagged(g.assignments) <==> Greedy.NeedsWake(n) && Uses(PlanFrom(g.assignments), n.name)
  {
    AwakenedIsWoken(input, e, PlanFrom(g.assignments));
    AwakenedMeans(e, PlanFrom(g.assignments), n.name);
    if n.name in e.cold {
      var m :| m in input.nodes && Greedy.NeedsWake(m) && m.name == n.name;
      NameIdentifies(input.nodes, m, n);
    }
  }

  /** One pod's part. */
  ghost predicate Balanced(input: SolverInput, g: SolverOutput, h: History, w: Work, p: Pod) {
    Value(RecordedIn(w.scores), p) + Value(RecordedIn(LeftOut(input, h, w.plan)), p)
    == Value(ScoreIn(w.plan, Candidates(input)), p) + Value(RecordedIn(TooMuch(g, h, w.plan)), p)
  }

  /** How the search's copy of a node differs from the candidate as greedy scored it. */
  ghost predicate CopyOf(input: SolverInput, g: SolverOutput, c: Node, m: Node) {
    && c.name == m.name && c.baseScore == m.baseScore + Dropped(input, c.name)
    && (m.isReady <==> c.isReady || c.name in Flagged(g.assignments))
    && (c.name in Flagged(g.assignments) ==> Greedy.NeedsWake(c))
  }

  lemma FindCopy(input: SolverInput, g: SolverOutput, e: Env, name: Name) returns (c: Node)
    requires WellFormed(input) && GreedyPromise(input, g) && Started(input, g, e) && name in e.nodeByName
    ensures name in Names(Candidates(input)) && c == Named(Candidates(input), name)
    ensures e.nodeByName[name] < |e.nodes| && CopyOf(input, g, c, e.nodes[e.nodeByName[name]])
    ensures name in Flagged(g.assignments) <==> Greedy.NeedsWake(c) && Uses(PlanFrom(g.assignments), name)
  {
    ThreeViews(input, g, e, name);
    FlaggedIff(input, g, e, Named(input.nodes, name));
    c := Named(Candidates(input), name);
  }

  lemma ReplacedBalances(input: SolverInput, g: SolverOutput, h: History, w: Work, p: Pod, c: Node, m: Node)
    requires p.uid in w.plan && Replaced(h, p.uid) && w.plan[p.uid] in Names(Candidates(input))
    requires c == Named(Candidates(input), w.plan[p.uid]) && CopyOf(input, g, c, m)
    requires p.uid in w.scores && w.scores[p.uid] == AssignmentScore(p, m)
    ensures Balanced(input, g, h, w, p)
  {
  }

  lemma UntouchedBalances(input: SolverInput, g: SolverOutput, h: History, w: Work, p: Pod, c: Node)
    requires p.uid in w.plan && !Replaced(h, p.uid) && w.plan[p.uid] in Names(Candidates(input))
    requires c == Named(Candidates(input), w.plan[p.uid])
    requires c.name in Flagged(g.assignments) <==> Greedy.NeedsWake(c)
    requires p.uid in w.scores && p.uid in g.assignments && Explained(p, Candidates(input), g.assignments[p.uid])
    requires w.plan[p.uid] == g.assignments[p.uid].targetNode && w.scores[p.uid] == g.assignments[p.uid].score
    ensures Balanced(input, g, h, w, p)
  {
  }

  lemma StartsAssigned(g: SolverOutput, w: Work, u: Uid)
    requires w.plan == PlanFrom(g.assignments) && w.scores == ScoresOf(g.assignments) && u in w.plan
    ensures u in g.assignments && w.plan[u] == g.assignments[u].targetNode
    ensures u in w.scores && w.scores[u] == g.assignments[u].score
    ensures Uses(PlanFrom(g.assignments), w.plan[u])
  {
  }

  lemma PodBalances(input: SolverInput, g: SolverOutput, rules: Rules, e: Env, h: History, p: Pod)
    requires WellFormed(input) && GreedyPromise(input, g) && Started(input, g, e) && Sound(e, rules, h)
    requires ScoresExplained(input.pods, Candidates(input), g.assignments) && StartWork(input, g, e, h.Begun())
    requires p in input.pods && p.uid in h.Begun().plan
    ensures Balanced(input, g, h, Now(e, rules, h), p)
  {
    var u, w := p.uid, Now(e, rules, h);
    RecordedScores(e, rules, h, u);
    StartsAssigned(g, h.Begun(), u);
    UidIdentifies(input.pods, p, e.podByUID[u]);
    var c := FindCopy(input, g, e, w.plan[u]);
    if Replaced(h, u) {
      ReplacedBalances(input, g, h, w, p, c, e.nodes[e.nodeByName[w.plan[u]]]);
    } else {
      UntouchedBalances(input, g, h, w, p, c);
    }
  }

  lemma BooksBalance(input: SolverInput, g: SolverOutput, rules: Rules, e: Env, h: History)
    requires WellFormed(input) && GreedyPromise(input, g) && Started(input, g, e) && Sound(e, rules, h)
    requires ScoresExplained(input.pods, Candidates(input), g.assignments) && StartWork(input, g, e, h.Begun())
    requires Now(e, rules, h).plan.Keys == h.Begun().plan.Keys
    ensures var w := Now(e, rules, h);
      (Sum(input.pods, RecordedIn(w.scores)) + Sum(input.pods, RecordedIn(LeftOut(input, h, w.plan)))
       == PlanScore(input.pods, Candidates(input), w.plan) + Sum(input.pods, RecordedIn(TooMuch(g, h, w.plan))))
  {
    var w := Now(e, rules, h);
    forall i | 0 <= i < |input.pods| ensures Balanced(input, g, h, w, input.pods[i]) {
      SameKeys(w.plan, h.Begun().plan, input.pods[i].uid);
      if input.pods[i].uid in w.plan {
        PodBalances(input, g, rules, e, h, input.pods[i]);
      } else {
        UnplacedBalances(input, g, h, w, input.pods[i]);
      }
    }
    SumsBalance(input, g, h, w);
  }

  lemma UnplacedBalances(input: SolverInput, g: SolverOutput, h: History, w: Work, p: Pod)
    requires p.uid !in w.plan && w.plan.Keys == w.scores.Keys
    ensures Balanced(input, g, h, w, p)
  {
    assert p.uid !in w.scores.Keys;
  }

  lemma SumsBalance(input: SolverInput, g: SolverOutput, h: History, w: Work)
    requires forall i | 0 <= i < |input.pods| :: Balanced(input, g, h, w, input.pods[i])
    ensures (Sum(input.pods, RecordedIn(w.scores)) + Sum(input.pods, RecordedIn(LeftOut(input, h, w.plan)))
             == PlanScore(input.pods, Candidates(input), w.plan) + Sum(input.pods, RecordedIn(TooMuch(g, h, w.plan))))
  {
    SumBalance(input.pods, RecordedIn(w.scores), RecordedIn(LeftOut(input, h, w.plan)),
               ScoreIn(w.plan, Candidates(input)), RecordedIn(TooMuch(g, h, w.plan)));
  }

  /** Whatever steps were taken: the total is the score of the plan on the candidates as greedy scored them,
      less what was left out, plus what was counted too much. */
  lemma TotalExplained(input: SolverInput, pods: seq<Pod>, order: seq<Node>, g: SolverOutput, rules: Rules,
                       e: Env, h: History, out: SolverOutput)
    requires WellFormed(input) && Greedy.Outcome(input, pods, order, g) && Found(input, g, rules, e, h, out)
    ensures var plan := PlanFrom(out.assignments);
      out.totalScore == PlanScore(input.pods, Candidates(input), plan)
        - Sum(input.pods, RecordedIn(LeftOut(input, h, plan))) + Sum(input.pods, RecordedIn(TooMuch(g, h, plan)))
  {
    GreedyKeepsPromise(input, pods, order, g);
    ScoresOnInput(input, pods, order, g);
    FoundKeepsPromise(input, g, rules, e, h, out);
    EntriesSay(e, rules, Now(e, rules, h));
    HistoryKeepsTotal(e, input.pods, rules, h);
    BooksBalance(input, g, rules, e, h);
  }

  lemma {:induction false} SumZeroIff(pods: seq<Pod>, f: Measure)
    requires forall i | 0 <= i < |pods| :: Value(f, pods[i]) >= 0.0
    ensures Sum(pods, f) >= 0.0
    ensures Sum(pods, f) == 0.0 <==> forall i | 0 <= i < |pods| :: Value(f, pods[i]) == 0.0
  {
    if pods != [] {
      var rest := pods[..|pods| - 1];
      SumZeroIff(rest, f);
      if Sum(pods, f) == 0.0 {
        forall i | 0 <= i < |pods| ensures Value(f, pods[i]) == 0.0 {
          if i < |rest| {
            assert Value(f, rest[i]) == 0.0;
          }
        }
      }
    }
  }

  /** Where no node has a base score above its policy score, the total leaves nothing out exactly when the
      search put pods only on nodes whose base score in the input is the policy score; and then, if greedy
      woke no node, it is the score of the plan. */
  lemma NothingLeftOutIff(input: SolverInput, pods: seq<Pod>, order: seq<Node>, g: SolverOutput, rules: Rules,
                          e: Env, h: History, out: SolverOutput)
    requires WellFormed(input) && Greedy.Outcome(input, pods, order, g) && Found(input, g, rules, e, h, out)
    requires forall n | n in input.nodes :: n.baseScore <= n.policyScore
    ensures var plan := PlanFrom(out.assignments);
      var scored := PlanScore(input.pods, Candidates(input), plan) + Sum(input.pods, RecordedIn(TooMuch(g, h, plan)));
      && out.totalScore <= scored
      && (out.totalScore == scored
          <==> forall u | u in plan && Replaced(h, u) :: Dropped(input, plan[u]) == 0.0)
      && (Flagged(g.assignments) == {} ==> scored == PlanScore(input.pods, Candidates(input), plan))
  {
    var plan := PlanFrom(out.assignments);
    TotalExplained(input, pods, order, g, rules, e, h, out);
    EntriesSay(e, rules, Now(e, rules, h));
    NoneLeftOutIff(input, e, h, plan);
    WithoutWakes(input.pods, g, h, plan);
  }

  lemma WithoutWakes(pods: seq<Pod>, g: SolverOutput, h: History, plan: Plan)
    ensures Flagged(g.assignments) == {} ==> Sum(pods, RecordedIn(TooMuch(g, h, plan))) == 0.0
  {
    if Flagged(g.assignments) == {} {
      SumZero(pods, RecordedIn(TooMuch(g, h, plan)));
    }
  }

  lemma NoneLeftOutIff(input: SolverInput, e: Env, h: History, plan: Plan)
    requires Indexed(e, input.pods) && forall u | u in plan :: u in e.podByUID
    requires forall n | n in input.nodes :: n.baseScore <= n.policyScore
    ensures var left := Sum(input.pods, RecordedIn(LeftOut(input, h, plan)));
      left >= 0.0 && (left == 0.0 <==> forall u | u in plan && Replaced(h, u) :: Dropped(input, plan[u]) == 0.0)
  {
    var left := RecordedIn(LeftOut(input, h, plan));
    SumZeroIff(input.pods, left);
    if forall i | 0 <= i < |input.pods| :: Value(left, input.pods[i]) == 0.0 {
      forall u | u in plan && Replaced(h, u) ensures Dropped(input, plan[u]) == 0.0 {
        var i := PodIndex(e, input.pods, u);
        assert Value(left, input.pods[i]) == 0.0;
      }
    }
  }
}
