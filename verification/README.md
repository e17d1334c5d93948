# Verified model of the recluster4 placement solver and node lifecycle

recluster4 keeps the machines of a small Kubernetes cluster powered off until pods need them. New pods are
held back by a scheduling gate; on every tick a planner assigns the gated pods to machines under CPU, memory
and power-on limits, labels the pods, asks machines to boot, and takes the gate off once the assigned machine
is ready. This project models that planner and the controllers around it, and proves what they keep.

`dafny verify dfyconfig.toml` checks everything.

## What is modelled

* **One problem for all solvers** (`Placement.dfy`). A plan maps pod UIDs to node names. `Feasible` mentions
  no order of pods or nodes: on every node the requests of the hosted pods fit the allocatable capacity, and
  either no offline node is used or the power-ons in flight plus the distinct offline nodes used are within
  the limit. Quantities and scores are reals.
* **Greedy** (`Scoring.dfy`, `Greedy.dfy`, `GreedyProperties.dfy`, `GreedyRefusals.dfy`): first fit in order of
  decreasing demand, what it achieves, and what it says about the pods it leaves out.
* **Exact** (`BranchAndBound.dfy`, `Exact.dfy`, `Optimality.dfy`): depth-first branch and bound on one
  mutable state that is updated on the way down and undone on the way up. The deadline is an arbitrary set of
  visit counts at which the clock is found past it, so every placement of a timeout is covered.
* **Local search** (`LocalSearch.dfy`, `Histories.dfy`, `SearchRounds.dfy`, `HeuristicSearch.dfy`,
  `HeuristicSolver.dfy`, `LocalOptima.dfy`, `Totals.dfy`, `LocalSearchFlaws.dfy`, `LocalSearchExamples.dfy`): the moves
  and their books; the steps the passes accept and what any history of accepted steps does; how passes give
  everything its turn and make up rounds; the passes, which keep the history of their steps; the solve; what a
  local optimum is and what the total says about the plan; and what goes wrong as written, with inputs. `Rules`
  tells the search as written from the intended one, which reads a swapped pod's node again, reserves capacity
  while planning, looks at the power budget, and flags the nodes that needed a wake before it began.
* **Dispatch** (`Solver.dfy`): the choice between the three, and the fallback.
* **Node lifecycle** (`RcNode.dfy`, `RcNodeReconciler.dfy`): the RcNode reconciler as a state machine with one
  step per API call, and its handlers as written, shown to be runs of that machine whatever calls fail, whose
  acknowledgements are lost and whatever users do between two calls.
* **Budgets** (`BudgetTracker.dfy`): the in-flight set and the hourly counters.
* **The tick** (`Periodic.dfy`): the gate protocol over sequences of ticks, and the in-flight bound across
  ticks.

Where the source loops over fields it updates, the model has a class and loops; each method is proved equal to
a function of the old state, or to a history of steps that leads to the new one, and the properties are lemmas
about these.

## Where the code is not what it says

* The exact solver calls itself optimal (`internal/solver/exact.go:39-41`). Its incumbent starts at greedy's
  total, which counts the ready-node bonus for every pod after the first on a node greedy woke, a bonus the
  score matrix does not know. `ExactIsOptimalIff` says exactly when the result is optimal, `OptimalityGap` bounds
  what it can lack, `ExcessIsZeroIff` says when greedy's total is right, and `ExactCanMissTheOptimum` is an input on
  which every run returns a plan worth 20 while one worth 27 is feasible.
* `trySwaps` goes on with a pod's old node after it has swapped the pod away. `SwapKeepsLedgerIff` and
  `StaleSwapOvercommitsIff` say exactly when that matters, `StaleSwapsHappen` is an input on which it does.
* `tryConsolidate` checks every pod of a node against the same free capacity. `UnreservedNoDebtIff` says exactly
  when an evacuation it plans leaves a node overcommitted, `OvercommitHappens` is an input on which one does.
* Relocations and evacuations do not look at the power budget. `RelocationWithinBudgetIff` and
  `EvacuationWithinBudgetIff` say exactly when they keep it, `BudgetIsExceeded` is an input on which both break it.
* Nodes that greedy woke are marked ready before the local search, so their wake flag is missing from its
  result: `FoundFlags` says exactly which flags are set, `FlagsRightIff` that they are right exactly when no node
  greedy woke is still in use, and on the input of `NothingIsFlagged` no result of the search flags anything
  although every node it uses needs a wake.
* A comment says that base scores come from greedy's computation (`internal/solver/heuristic.go:144`). The code
  copies the unscored input, and so does the model. `RecordedScores` says which scores are taken from it,
  `TotalExplained` what that makes of the reported total, `NothingLeftOutIff` when it leaves nothing out, and
  `TotalFallsShort` is an input on which the total may be 60 below the score of the plan.
* The improvement loop need not reach a fixpoint: `NeverSettles`, with an input in `SearchNeverSettles`.
* The hourly limit is kept per window, not per hour: twice the limit is the bound (`EveryHourIsBounded`), and
  it is reached (`TwiceTheLimitHappens`). `RecordKeepsHoursIff` says what to ask before recording to keep every
  hour within the limit, and `ClientHoursWithinIff` that a run does exactly when each of its events had that room.
* An RcNode that is online and asked to go offline is both ready and offline for the solver, and then greedy
  and exact disagree on whether it needs a wake: `ReadyAndOfflineIff`, `ExactIsSafeIff`, `ExactWakesFitIff`, and an
  input in `ExactWakesBeyondBudget`.
* Exact lists every pod it leaves out for lack of capacity, whatever stood in the way (`DecodedReasons`); greedy's
  reasons are true (`GreedyReasonsTrue`).
* The comment of `ApplyAssignments` says that it removes the gate (`internal/controller/assignment_applier.go:51-54`).
  It only writes the label; the gate comes off in the release pass.
* desired = Booting with current = Online has no transition. `WakeDuringShutdownSticks` shows how a wake gets
  a node there.

## Model

| member | source | states |
|---|---|---|
| Placement.LoadAssign | internal/solver/greedy.go:125-127 | Placing or re-placing one pod moves exactly its request from one node's load to another's, for any nodes and any plan |
| Placement.FeasibleDownward | internal/solver/exact.go:259-280 | No part of a feasible plan is infeasible, so pruning an infeasible prefix loses nothing |
| Placement.BlockedIsInfeasible | internal/solver/exact.go:267-280 | A pod refused by the capacity or power test makes the extended plan infeasible |
| Placement.UnblockedIsFeasible | internal/solver/exact.go:267-280 | A pod that passes both tests keeps a feasible plan feasible |
| Placement.WakesAssignSize | internal/solver/exact.go:289-297 | Using one more node costs a power-on exactly when it is offline and not used yet |
| Placement.FeasibleReorder | internal/solver/greedy.go:60-66 | Feasibility, loads and wakes do not depend on the order of pods and nodes |
| Placement.PlanScoreReorder | internal/solver/exact.go:72-86 | Nor does the score of a plan |
| Placement.ReadinessOutranksPreference | internal/solver/scoring.go:157-172 | Between nodes of equal base score a ready one always scores more, whichever the pod prefers; between two alike in readiness the preferred one does, by 50 |
| Scoring.NormalizeScores | internal/solver/scoring.go:175-202 | The in-place pass writes every node's rescaled score and changes nothing else |
| Scoring.NormalizedKeepsOrder | internal/solver/scoring.go:193-201 | Normalised scores lie in [0, 1] and compare exactly as base scores do |
| Scoring.NormalizedReachesEnds | internal/solver/scoring.go:193-201 | 1 is always attained, 0 exactly when the base scores are not all equal |
| Scoring.SortPodsByDemand | internal/solver/greedy.go:178-193 | The result is a permutation in which CPU requests never rise, memory requests never rise among equal CPU requests, and names never fall among equal requests |
| Scoring.LargestFirstIff | internal/solver/greedy.go:178-193 | That is exactly what it means that the comparison puts no pod before one that precedes it |
| Scoring.SortNodesByPreference | internal/solver/greedy.go:196-209 | The same for nodes: ready first, then normalised score descending, then name |
| Scoring.PreferenceOrderUnique | internal/solver/greedy.go:196-209 | With distinct names there is exactly one such order |
| Scoring.DemandOrderUnique | internal/solver/greedy.go:178-193 | Pods of distinct names have exactly one demand order |
| Scoring.PreferenceByBaseScore | internal/solver/greedy.go:196-209 | On normalised nodes that order is ready, then base score descending, then name |
| Scoring.CountFeasiblePairs | internal/solver/scoring.go:206-216 | The nested loops count every pair of a pod and a node with room for it, once |
| Solutions.AccountedReorder | internal/solver/greedy.go:61-63 | Accounting for every pod does not depend on the order the solver tried them in |
| Solutions.CountOffline | internal/solver/exact.go:187-192 | The loop over used node names counts the distinct offline nodes among them |
| Greedy.Solve | internal/solver/greedy.go:39-175 | The result is that of placing the pods one after the other, in some demand order, on the scored nodes in their preference order |
| Greedy.Place | internal/solver/greedy.go:76-167 | One round over the nodes, with its early exits, gives the pod to the first usable node, wakes that node if need be and books score and capacity, or records one refusal; exactly as the one-pod placement says |
| Greedy.FirstUsable | internal/solver/greedy.go:79-93 | The node found is usable and none before it is; none found means none usable |
| GreedyProperties.UsableIsUnblocked | internal/solver/greedy.go:83-93 | Greedy's two tests of a working copy are exactly the feasibility of adding the pod to the plan so far |
| GreedyProperties.RunTracks | internal/solver/greedy.go:76-140 | After any number of pods the working copies are the originals less the plan's load with woken nodes turned ready, power-ons are those in flight plus the nodes woken, and the plan is feasible |
| GreedyProperties.GreedyFeasible | internal/solver/greedy.go:76-140 | Greedy's plan is feasible |
| GreedyProperties.GreedyFlags | internal/solver/greedy.go:107-136 | The flagged targets are exactly the offline nodes in use, each flagged by one assignment, and their number is the offline count |
| GreedyProperties.GreedyNodesUsed | internal/solver/greedy.go:121-123 | The recorded node set is the image of the plan |
| GreedyProperties.GreedyTotal | internal/solver/greedy.go:107-136 | Greedy's total is its plan's score on the nodes as given plus 100 for each pod on a woken node beyond the first |
| GreedyProperties.GreedyRecords | internal/solver/greedy.go:107-123 | The total is also the sum of the recorded scores |
| GreedyProperties.GreedyScores | internal/solver/greedy.go:107-136 | Each recorded score is the pod's on the node as given, plus 100 exactly where an earlier pod woke that node |
| GreedyProperties.GreedyAccounts | internal/solver/greedy.go:76-167 | Every pod tried is assigned under its UID or listed as unassigned, not both, and nothing else appears |
| GreedyProperties.UnusableStays | internal/solver/greedy.go:125-136 | A node that cannot take a pod still cannot after any further placement |
| GreedyProperties.UnassignedIff | internal/solver/greedy.go:79-140 | A pod ends up unassigned exactly when no node could take it at its turn or the migration budget stopped it |
| GreedyProperties.GreedyMaximal | internal/solver/greedy.go:76-167 | A pod no node could take at its turn, rebalancing or not, stays unassigned, and adding it to the final plan, on any node, is infeasible |
| GreedyProperties.GreedyEmptyIff | internal/solver/greedy.go:76-140 | Greedy places nothing, whatever the order, exactly when every pod is stopped by the migration budget or unusable on every node from the start |
| GreedyProperties.GreedyDiagnosis | internal/solver/greedy.go:95-166 | A pod is refused with migration budget when some node was usable, with power budget exactly when some node had room but none was usable, with no capacity when none had room; and is assigned otherwise |
| Greedy.Diagnose | internal/solver/greedy.go:143-158 | The scan for an offline node with room yields the reason the fold records |
| GreedyProperties.WakesOnlyWhenNeeded | internal/solver/greedy.go:65-93 | When a pod wakes a node or is refused, no node ready in the input has room for it, then or at the end |
| GreedyProperties.GreedyKeepsPromise | internal/solver/greedy.go:39-175 | In terms of the input alone: feasible plan, all pods accounted for, right flags, right node set, and both readings of the total |
| GreedyRefusals.GreedyLeavesNothing | internal/solver/greedy.go:76-167 | In terms of the input: a pod without an assignment is a rebalancing move with the migration budget spent, or cannot be added to the plan on any node; and no such move is assigned |
| GreedyRefusals.GreedyReasonsTrue | internal/solver/greedy.go:95-166 | Every entry of the list is of a pod without an assignment; one for the migration budget is of a rebalancing move with that budget spent, one for capacity or power of a pod that cannot be added to the plan on any node |
| GreedyRefusals.LargestIsServed | internal/solver/greedy.go:76-140 | A pod that requests more CPU than any other, and is no move beyond the migration budget, is placed whenever some plan may hold it alone |
| BranchAndBound.SuffixIsAdmissible | internal/solver/exact.go:88-104 | No feasible completion of a path scores more than the path plus its suffix bound |
| BranchAndBound.BlockedMeans | internal/solver/exact.go:267-280 | The loop's tests on the mutable fields are the feasibility of the extended path |
| BranchAndBound.DescribesAssign | internal/solver/exact.go:282-297 | Going down keeps the description: capacity left, score, used nodes and power-ons are those of the path's plan, which stays feasible |
| BranchAndBound.DescribesStart | internal/solver/exact.go:107-133 | The fresh state describes the empty plan |
| BranchAndBound.BBState.Branch | internal/solver/exact.go:231-317 | The mutating recursion turns the state into exactly what the search function says, whatever the deadline |
| BranchAndBound.BBState.TryNode | internal/solver/exact.go:282-310 | One round of assign, recurse and undo does what the search function's descent does |
| BranchAndBound.BranchRestores | internal/solver/exact.go:302-316 | Every return, timed out or not, leaves assignments, capacities, score, used nodes and power-ons as at entry |
| BranchAndBound.DescentRestores | internal/solver/exact.go:282-310 | So does every round of the loop, also at the moment just before its undo |
| BranchAndBound.BranchImproves | internal/solver/exact.go:241-248 | The incumbent is untouched, or replaced by a feasible assignment worth strictly more and exactly the recorded score; a timeout is never forgotten |
| BranchAndBound.BranchComplete | internal/solver/exact.go:231-317 | A search that was not cut short has a best score at least that of every feasible completion of its path, skips allowed |
| BranchAndBound.TriedComplete | internal/solver/exact.go:260-311 | The same for the completions that use the nodes the loop has tried |
| Exact.PodBestScores | internal/solver/exact.go:88-98 | Each entry is at least 0 and every score of its pod, and is one of these |
| Exact.SuffixBounds | internal/solver/exact.go:100-104 | The table holds the suffix sums |
| Exact.SeedFrom | internal/solver/exact.go:134-153 | The seed encodes greedy's plan, in whatever order its assignments are visited |
| Exact.EncodeDecode | internal/solver/exact.go:134-174 | Encoding a plan as node indices and reading them back gives the plan |
| Exact.DecodedPlan | internal/solver/exact.go:163-185 | The output's plan is that of the chosen indices, and every pod is accounted for |
| Exact.DecodedFlags | internal/solver/exact.go:174-192 | The flagged targets are the offline nodes in use, the recorded set is the image of the plan |
| Exact.DecodedScores | internal/solver/exact.go:175-182 | The recorded scores add up to the score of the output's plan |
| Exact.DecodedReasons | internal/solver/exact.go:163-172 | Every pod left out is listed with no capacity as the reason |
| Exact.SearchKeepsPromise | internal/solver/exact.go:106-156 | From the greedy seed, on the input's own pods and nodes: never below the seed, feasible when better, and at least every feasible plan when not cut short |
| Exact.TimedOutIff | internal/solver/exact.go:231-239 | A search is cut short exactly when one of the visits it makes finds the deadline past |
| Exact.OutcomeKeepsPromise | internal/solver/exact.go:106-192 | Whatever the search does, its output keeps the promise to the input, complete exactly as far as no visit was late |
| Exact.Solve | internal/solver/exact.go:42-200 | For every timing, including the early return: all pods accounted for, a total never below greedy's and above it only with a feasible plan worth exactly that, at least every feasible plan's score unless a visit made found the deadline past, right flags, offline count and reasons, recorded scores that add up to the plan's; unless late the result is the one found by the search from greedy's result |
| Optimality.ExactAlwaysFeasible | internal/solver/exact.go:39-60 | Wherever the deadline falls the returned plan is feasible for the nodes that need a wake, and for all offline nodes if the seed was replaced or no node is both ready and offline |
| Optimality.ExcessIsZeroIff | internal/solver/greedy.go:107-136 | Greedy's total never under-claims, and over-claims exactly when some woken node hosts two pods |
| Optimality.ExactIsOptimalIff | internal/solver/exact.go:115-153 | An uninterrupted run improves on greedy exactly when some feasible plan scores above greedy's total, and is optimal exactly then or when greedy's plan was |
| Optimality.OptimalityGap | internal/solver/exact.go:115-153 | It misses the best feasible plan by at most 100 × (pods on nodes greedy woke − nodes greedy woke), so by nothing when no woken node hosts two pods |
| Optimality.ExactCanMissTheOptimum | internal/solver/exact.go:250-255 | Three unit pods, two offline nodes and one power-on: greedy claims 120 for a plan worth 20, and every run returns that plan though one worth 27 is feasible |
| LocalSearch.RelocateKeepsLedgerIff | internal/solver/heuristic.go:375-402 | A relocation keeps remaining = allocatable − hosted requests exactly when it is told the pod's actual node or the pod requests nothing |
| LocalSearch.SwapKeepsLedgerIff | internal/solver/heuristic.go:404-434 | A swap that names the second pod's node keeps the ledger exactly when it also names the first pod's or that pod requests nothing |
| LocalSearch.SwapFeasibleIff | internal/solver/heuristic.go:436-469 | The swap test passes exactly when the swap leaves no node with negative capacity |
| LocalSearch.RelocateKeepsUsed | internal/solver/heuristic.go:394-401 | After a relocation the used-node set is again the image of the assignment |
| LocalSearch.SwapKeepsUsed | internal/solver/heuristic.go:431-434 | A swap leaves the image of the assignment, and with it the used-node set, as it was |
| LocalSearch.RelocateKeepsTotal | internal/solver/heuristic.go:388-392 | The total stays the sum of the recorded scores, whatever node the move is told |
| LocalSearch.SwapKeepsTotal | internal/solver/heuristic.go:422-429 | The same for swaps |
| LocalSearch.EvacuateKeepsLedger | internal/solver/heuristic.go:361-367 | Applying planned moves of distinct pods off one node keeps remaining = allocatable − hosted requests |
| LocalSearch.EvacuateKeepsUsed | internal/solver/heuristic.go:361-367 | It keeps the used-node set the image of the assignment |
| LocalSearch.EvacuateKeepsTotal | internal/solver/heuristic.go:361-367 | It keeps the total the sum of the recorded scores |
| LocalSearch.EvacuateNoDebtIff | internal/solver/heuristic.go:361-367 | Applied moves leave every capacity non-negative exactly when no node is brought more than it had left |
| LocalSearch.RelocatedAwakened | internal/solver/heuristic.go:194-223 | A relocation changes the number of nodes to wake by one for an unused target that needs it, less one for a source that does and is emptied |
| LocalSearch.RelocationWithinBudgetIff | internal/solver/heuristic.go:194-223 | A relocation from a plan within the power budget stays within it exactly when it wakes no node, frees one in exchange, or a power-on is left |
| LocalSearch.EvacuatedAwakened | internal/solver/heuristic.go:361-367 | An evacuation adds its unused targets that need a wake, each once, less its source if that does and all pods leave it |
| LocalSearch.EvacuationWithinBudgetIff | internal/solver/heuristic.go:331-367 | An evacuation from a plan within the power budget stays within it exactly when it wakes no more than it frees, or the budget has the difference left |
| Histories.FavouriteUnique | internal/solver/heuristic.go:332-350 | The best target of a pod is a function of the books |
| Histories.UnreservedNoDebtIff | internal/solver/heuristic.go:324-367 | An evacuation as written leaves no node in debt exactly when, on every node, the pods whose best target it is as things stand request together no more than it has left |
| Histories.ReservedNeverOvercommits | internal/solver/heuristic.go:324-367 | With each planned move reserved no evacuation brings a node more than it had left |
| Histories.StepKeepsCreditIff | internal/solver/heuristic.go:375-434 | From books without debt a step leaves a debt exactly when it is an evacuation that overcommits |
| Histories.HistoryKeepsTotal | internal/solver/heuristic.go:388-429 | Over every history of accepted steps the assigned pods stay the same and the total stays the sum of their scores |
| Histories.HistoryKeepsBooks | internal/solver/heuristic.go:180-371 | Over every history without stale swaps remaining = allocatable − hosted requests and used nodes = image of the assignment |
| Histories.MovesKeepBooks | internal/solver/heuristic.go:180-226 | A run of relocations, as written, keeps true books true, and without debt if they were |
| Histories.HistoryKeepsCredit | internal/solver/heuristic.go:180-371 | Over every history without overcommitting evacuations, or with reservation, no remaining capacity is negative |
| Histories.HistoryKeepsPower | internal/solver/heuristic.go:180-371 | Over every history of intended steps the power budget is kept |
| Histories.MoveAccounting | internal/solver/heuristic.go:205-223 | An accepted relocation changes the total by its score difference, and raises it unless it empties its source, when it loses less than 50 |
| Histories.RelocationAccounting | internal/solver/heuristic.go:180-226 | A run of relocations loses less than 50 for each that emptied its source, counted along the run, and only rises without such |
| Histories.SwapAccounting | internal/solver/heuristic.go:267-278 | An accepted swap, stale or not, raises the total by exactly the delta computed, which is positive |
| Histories.SwapsOnlyRaise | internal/solver/heuristic.go:229-282 | A run of swaps strictly raises the total |
| Histories.RecordedScores | internal/solver/heuristic.go:388-429 | Over every history, stale swaps included, a pod no step placed keeps its node and score, and any other is recorded at its score on the search's copy of the node it is on |
| HeuristicSearch.SearchState.ApplyRelocate | internal/solver/heuristic.go:375-402 | The field updates make exactly the books of a relocation |
| HeuristicSearch.SearchState.ApplySwap | internal/solver/heuristic.go:404-434 | The field updates make exactly the books of a swap |
| HeuristicSearch.SearchState.BestRelocation | internal/solver/heuristic.go:188-218 | The node returned is the first of greatest gain among those with room, the gain being positive; none is returned only if none has a positive gain |
| HeuristicSearch.SearchState.TryRelocate | internal/solver/heuristic.go:188-223 | A pod is moved exactly when some move pays, and then by one recorded step to the best node |
| HeuristicSearch.SearchState.TryRelocations | internal/solver/heuristic.go:180-226 | The pass is a run of accepted relocations, no more than there are pods; it loses less than 50 for each of them that emptied its source; in time every pod gets its turn, at which it is moved or has no move that pays, and everything is left alone only if no relocation pays |
| HeuristicSearch.SearchState.TrySwap | internal/solver/heuristic.go:251-278 | A swap is made and recorded exactly when the nodes differ, both pods fit and the total strictly rises |
| HeuristicSearch.SearchState.SwapWithLater | internal/solver/heuristic.go:242-279 | The inner loop, with the first pod's node read once or again, is a run of accepted swaps, empty in time only if no swap with a later pod pays |
| HeuristicSearch.SearchState.TrySwaps | internal/solver/heuristic.go:229-282 | The pass is a run of accepted swaps and raises the total if there is any; in time every pair gets its turn, at which it is swapped or does not gain, the first pod's node being one it was on since the pass began, and everything is left alone only if no swap pays |
| HeuristicSearch.SearchState.BestTarget | internal/solver/heuristic.go:332-350 | The first best-scoring other node with room; none only if no such node scores above -1 |
| HeuristicSearch.SearchState.PlanEvacuation | internal/solver/heuristic.go:324-359 | Each planned move sends its pod to its best target, judged by what is left now or, with reservation, after the moves before; as written it succeeds exactly when every pod has a target now |
| HeuristicSearch.SearchState.EvacuateNode | internal/solver/heuristic.go:316-367 | A node is emptied, of all pods it had when the pass began, by one recorded step, or nothing changes; as written the latter only if it had none or some pod has nowhere to go |
| HeuristicSearch.SearchState.TryConsolidate | internal/solver/heuristic.go:286-371 | The pass is a run of such evacuations, no more than there are used nodes; in time every node in use gets its turn, at which it is emptied or has a pod with nowhere to go, and everything is left alone only if no node in use can be emptied |
| HeuristicSolver.BuildSearchState | internal/solver/heuristic.go:126-174 | Replaying the assignments in any order gives books that agree with greedy's plan, with its wakes marked ready |
| HeuristicSolver.Improve | internal/solver/heuristic.go:67-88 | The history goes on by at most as many rounds as allowed, each a consolidation pass, a pass of swaps and a pass of relocations in this order, in time each giving everything its turn; unless they settle each has added a step, and rounds that settle in time leave no relocation, swap or evacuation that would be accepted |
| LocalOptima.CanRelocateIff | internal/solver/heuristic.go:194-203 | From books without debt, the room test of a relocation to another node passes exactly when the relocation leaves no debt |
| LocalOptima.GainIsRise | internal/solver/heuristic.go:205-212 | The gain a relocation is judged by is the rise of the total, plus 50 exactly when its source is empty afterwards |
| LocalOptima.BestMoveIff | internal/solver/heuristic.go:194-223 | The node a pod moves to is the first of those with the highest total among the debt-free moves that pay |
| LocalOptima.SwapPaysIff | internal/solver/heuristic.go:251-278 | From books without debt, a swap is made exactly when the nodes differ, no debt is left and the total rises |
| LocalOptima.RootedIff | internal/solver/heuristic.go:332-354 | A pod stops an evacuation exactly when moving it to any other node, but those it scores at most -1 on, leaves a debt |
| LocalOptima.FavouriteIff | internal/solver/heuristic.go:332-354 | The target of a pod in an evacuation is the first best-scoring other node, above -1, that it can go to without a debt |
| LocalOptima.LocallyOptimalIff | internal/solver/heuristic.go:67-88 | On books without debt the search is at a local optimum exactly when no debt-free relocation raises the total, 50 added for emptying the source, no debt-free swap raises it, and every node in use has a pod that no debt-free move takes elsewhere |
| HeuristicSolver.StateToOutput | internal/solver/heuristic.go:493-525 | Assignments, node set and offline count are those of the books; the unassigned pods are greedy's |
| HeuristicSolver.EntriesAccount | internal/solver/heuristic.go:493-513 | Whatever moves were made, every pod is accounted for |
| HeuristicSolver.EntriesFlag | internal/solver/heuristic.go:504-511 | A node is flagged exactly when it is used, needs a wake by the input, and was not woken by greedy |
| HeuristicSolver.NoDebtMeansCapacity | internal/solver/heuristic.go:139-163 | Non-negative remaining capacity on every node is the capacity half of feasibility |
| HeuristicSolver.FoundKeepsPromise | internal/solver/heuristic.go:126-174 | Whatever steps were accepted: all pods accounted for, the pods greedy placed stay placed, the total is the sum of scores |
| HeuristicSolver.FoundFlags | internal/solver/heuristic.go:165-170 | The flags set are those of the used nodes that need a wake and that greedy did not wake |
| HeuristicSolver.FlagsRightIff | internal/solver/heuristic.go:504-511 | As written the flagged nodes are those in use that need a wake exactly when no node that greedy woke is still used |
| HeuristicSolver.FoundWithinCapacity | internal/solver/heuristic.go:286-371 | The result is within capacity unless its history has a stale swap or an overcommitting evacuation |
| HeuristicSolver.IntendedIsFeasible | internal/solver/heuristic.go:44-98 | With nodes read again, capacity reserved and the budget looked at, the result is feasible wherever the deadline falls |
| HeuristicSolver.IntendedIsSafe | internal/solver/heuristic.go:493-525 | With the flags taken from the nodes as they were given as well, exactly the nodes that need a wake are flagged and counted |
| HeuristicSolver.Solve | internal/solver/heuristic.go:44-98 | The result is greedy's, or reports the books at the end of a history of accepted steps that begins with greedy's result and goes in rounds; under the intended rules its plan is feasible and its flags are right; in time the history ends where no step is accepted, or is as long as the rounds allowed |
| Totals.TotalExplained | internal/solver/heuristic.go:139-146 | Whatever steps were taken, the total is the score of the plan on the candidates as greedy scored them, less the policy scores of the nodes the search put pods on, plus 100 for each pod on a node greedy woke, but those it woke it for and the search left alone |
| Totals.NothingLeftOutIff | internal/solver/heuristic.go:139-146 | Where no base score of the input exceeds the policy score, the total never says too much of these, and leaves nothing out exactly when the search put pods only on nodes whose two scores agree; then, if greedy woke no node, it is the score of the plan |
| LocalSearchFlaws.ShufflingGoesOn | internal/solver/heuristic.go:180-371 | Where every pod fills a node, all nodes are alike and one is empty, every accepted step of any kind leads to books of the same kind |
| LocalSearchFlaws.NeverSettles | internal/solver/heuristic.go:205-223 | From such books no history of accepted steps, of any length and order, reaches a point where no relocation pays |
| LocalSearchFlaws.StaleSwapOvercommitsIff | internal/solver/heuristic.go:242-278 | A swap told the node the first pod has left overstates that node's capacity by that pod's request, and overcommits it exactly when the second pod does not fit what is left there |
| LocalSearchFlaws.StaleNodeBreaksTheLedger | internal/solver/heuristic.go:242-278 | Where a pod on a full node gains by two swaps with pods of its size, both are accepted as written, the second stale; no node looks overcommitted and one is |
| LocalSearchExamples.StaleSwapsHappen | internal/solver/heuristic.go:242-278 | Three unit pods, three offline unit nodes: from greedy's result no node can be emptied, and the swap pass accepts two swaps that leave a node with two pods |
| LocalSearchExamples.OvercommitHappens | internal/solver/heuristic.go:324-367 | Two unit pods, ready nodes of size two and one: from greedy's result the consolidation pass sends both pods to the node of size one |
| LocalSearchExamples.BudgetIsExceeded | internal/solver/heuristic.go:188-223 | Two unit pods on booting nodes, one offline node, the budget spent: from greedy's result a relocation and an evacuation are both accepted and both exceed the budget |
| LocalSearchExamples.SearchNeverSettles | internal/solver/heuristic.go:67-88 | On the same input no run of the search, whatever it visits first, reaches a local optimum |
| LocalSearchExamples.NothingIsFlagged | internal/solver/heuristic.go:165-170 | Three unit pods, three offline unit nodes: no result of the search flags a node, whatever its steps, and all nodes it uses need a wake |
| LocalSearchExamples.TotalFallsShort | internal/solver/heuristic.go:286-371 | Two unit pods, three ready unit nodes scored 60, 0 and 0: greedy reports 260, the score of its plan; the first pass may end with another plan worth 260 and report 200 |
| Solver.NoNodes | internal/solver/solver.go:70-89 | Without nodes every pod is listed, with that reason |
| Solver.ExactIsSafeIff | internal/solver/exact.go:174-192 | The exact result is feasible, and flags exactly the nodes that need a wake if and only if it uses no node that is both ready and offline |
| Solver.ExactWakesFitIff | internal/solver/exact.go:174-192 | The nodes it flags fit the power budget exactly when it improved on greedy, or greedy's plan fits with every offline node counted |
| Solver.ExactWakesBeyondBudget | internal/solver/exact.go:174-182 | One pod, one node online and asked to go offline, the budget spent: exact flags that node |
| Solver.NothingForExact | internal/solver/solver.go:110-114 | Unless greedy's total is negative, exact assigns nothing only if greedy did not |
| Solver.NeverInTheRed | internal/solver/greedy.go:107-123 | Without negative node scores no run of greedy on the input has a negative total |
| Solver.NothingTwice | internal/solver/solver.go:110-114 | If greedy assigns nothing once, no other run of it on the input assigns anything |
| Solver.Solve | internal/solver/solver.go:67-123 | In every regime and through the fallback all pods are accounted for; the algorithm is the one size and time call for, or the fallback, which is taken only where greedy's total may be negative, or changes nothing; a result is what its label says: greedy's own, which leaves nothing behind and gives true reasons; what the exact search finds, with a total that no feasible plan beats when no look at the clock is late, and that exceeds its plan's score by no more than some greedy run's excess; or the end of a local search as far as time allowed; the plan is feasible and the right nodes are flagged for greedy's results, for exact ones where no node is both ready and offline, whatever the scores, and for fallbacks without negative scores |
| BudgetTracker.RestartKeepsPace | internal/controller/budget_tracker.go:141-155 | Restarting a counter after an hour keeps every window and every hour within bounds |
| BudgetTracker.RecordKeepsPace | internal/controller/budget_tracker.go:103-111 | Recording below the limit keeps them too |
| BudgetTracker.EveryHourIsBounded | internal/controller/budget_tracker.go:92-111 | Over every run of a client that asks before it records, each half-open hour sees at most twice the limit and each window at most the limit |
| BudgetTracker.RecordKeepsHoursIff | internal/controller/budget_tracker.go:103-111 | Recording one more event leaves every hour within the limit exactly when the hour that ends with it had room |
| BudgetTracker.HoursWithinIff | internal/controller/budget_tracker.go:103-111 | Every hour of an ordered log is within the limit exactly when each event, as it was recorded, had that room |
| BudgetTracker.ClientHoursWithinIff | internal/controller/budget_tracker.go:92-111 | So over every run of a client that asks before it records |
| BudgetTracker.TwiceTheLimitHappens | internal/controller/budget_tracker.go:141-151 | With a limit of one, a client that asks first records two power-ons a nanosecond apart |
| BudgetTracker.OverridesWin | internal/controller/budget_tracker.go:54-81 | Each limit is the policy's own of that name where positive, and 3, 10 and 20 otherwise |
| BudgetTracker.Tracker.CanPowerOn | internal/controller/budget_tracker.go:92-101 | True exactly when in flight and this window's count are both below their limits, after any restart due; records nothing |
| BudgetTracker.Tracker.RecordPowerOn | internal/controller/budget_tracker.go:103-111 | The node is in flight since now, both counters are restarted if due and this one counts one more; bounds are kept if the count was below the limit |
| BudgetTracker.Tracker.CompletePowerOn | internal/controller/budget_tracker.go:113-119 | Exactly this node leaves the in-flight set |
| BudgetTracker.Tracker.CanMigrate | internal/controller/budget_tracker.go:121-130 | True exactly when this window's migrations are below the limit |
| BudgetTracker.Tracker.RecordMigration | internal/controller/budget_tracker.go:132-139 | The same bounds for migrations |
| BudgetTracker.Tracker.SyncWithCluster | internal/controller/budget_tracker.go:157-184 | Afterwards the nodes in flight are the booting ones, with known start times kept |
| BudgetTracker.Tracker.AskThenRecord | internal/controller/budget_tracker.go:92-111 | Asking first keeps the hourly bound and the in-flight limit; every hour stays within the limit exactly when nothing is recorded or the hour that ends with it had room |
| RcNode.BootDelayInRange | internal/controller/rcnode_controller.go:459-480 | Every delay drawn for s seconds lies between max(1, ⌊0.8 s⌋) and max(1, ⌊1.2 s⌋) |
| RcNode.BootDelayReaches | internal/controller/rcnode_controller.go:459-480 | The ends are four and six fifths of s, cut to whole seconds, at least one; and the lower one is drawn |
| RcNode.BootEndsInTime | internal/controller/rcnode_controller.go:176-191 | The boot check never passes before the lower end, always from the upper end on, which is six fifths of the configured time, or 36 seconds without one, and is repeated no later than the upper end |
| RcNode.DispatchKeepsInv | internal/controller/rcnode_controller.go:95-145 | Whatever handler a freshly read object is sent to, what that handler relies on holds |
| RcNode.CallKeepsInv | internal/controller/rcnode_controller.go:69-290 | Every API call of every handler, succeeding or failing, keeps the invariant |
| RcNode.OthersKeepInv | internal/controller/rcnode_controller.go:69-290 | So does anything users, time or a restart do between two calls |
| RcNode.LostKeepsInv | internal/controller/rcnode_controller.go:69-290 | So does a call that takes effect while its acknowledgement is lost |
| RcNode.CallKeepsWish | internal/controller/rcnode_controller.go:83-209 | Whatever it read before, no call of the reconciler overrides the desired phase stored now, but for the promotion from booting to online of exactly the object it read |
| RcNode.AlwaysSafe | internal/controller/rcnode_controller.go:69-290 | Over every run a Kubernetes Node exists only while its RcNode does, with the finalizer, booting or online, and not before the shortest boot delay |
| RcNode.NoOrphans | internal/controller/rcnode_controller.go:272-290 | In particular: no Node for an RcNode that is gone, unset, offline or without finalizer; nothing online before the boot time recorded has passed by the shortest delay |
| RcNode.BootingTakesTime | internal/controller/rcnode_controller.go:151-212 | In every run, from any moment at which there is no object, or an unset or offline one, and no boot is about to be recorded, to any later one at which there is a Node or the object is online, four fifths of the configured boot time pass, at least 24 seconds without one, at least one second in any case |
| RcNode.PassFromFinalized | internal/controller/rcnode_controller.go:103-145 | Where one undisturbed pass leads from every combination of desired and current phase |
| RcNode.PassKeepsInv | internal/controller/rcnode_controller.go:69-145 | A pass runs to its end and keeps the invariant |
| RcNode.PassAddsFinalizer | internal/controller/rcnode_controller.go:83-93 | A first pass adds the finalizer and goes on as if it had been there |
| RcNode.TwoPassesSettle | internal/controller/rcnode_controller.go:103-145 | Two undisturbed passes after the boot delay reach online with Node or offline without, exactly when the phases were not a dead end |
| RcNode.SettledStays | internal/controller/rcnode_controller.go:123-136 | A goal that is reached is kept by every further pass, also when the Node was deleted meanwhile |
| RcNode.DeletionCompletes | internal/controller/rcnode_controller.go:272-290 | After a request to delete, an object with the finalizer is gone after one undisturbed pass and its Node with it, one without is gone at once and leaves no Node |
| RcNode.MarkedIsRemoved | internal/controller/rcnode_controller.go:272-290 | The same for any object marked for deletion, whatever its phases |
| RcNode.WakeDuringShutdownSticks | internal/controller/rcnode_controller.go:138-144 | A wake asked for before a shutdown is carried out leaves the node in the dead end, which no pass leaves |
| RcNodeReconciler.Reconciler.Reconcile | internal/controller/rcnode_controller.go:69-145 | The handlers as written, with any failures and any interference before each call, make exactly one pass of the state machine and end it; lifecycle safety holds throughout |
| RcNodeReconciler.Reconciler.Transition | internal/controller/rcnode_controller.go:103-145 | The chain of cases picks the handler the machine calls for and runs it to its end |
| RcNodeReconciler.Reconciler.AddFinalizer | internal/controller/rcnode_controller.go:83-93 | The finalizer is written and the object read again, or the pass ends |
| RcNodeReconciler.Reconciler.StartBooting | internal/controller/rcnode_controller.go:151-172 | The status write carries the clock read before it |
| RcNodeReconciler.Reconciler.CheckBootComplete | internal/controller/rcnode_controller.go:176-212 | Wait, boot again, or create the Node, promote the desired phase and go online, in this order |
| RcNodeReconciler.Reconciler.Promote | internal/controller/rcnode_controller.go:198-209 | The desired phase is promoted and the object read again, or the pass ends |
| RcNodeReconciler.Reconciler.EnsureNodeExists | internal/controller/rcnode_controller.go:233-247 | The Node is created again exactly when it is reported missing |
| RcNodeReconciler.Reconciler.ShutdownNode | internal/controller/rcnode_controller.go:215-227 | The Node goes before the status says so |
| RcNodeReconciler.Reconciler.SetStatus | internal/controller/rcnode_controller.go:447-457 | Only the phase of the status changes, and only if the copy is not stale |
| RcNodeReconciler.Reconciler.HandleDeletion | internal/controller/rcnode_controller.go:274-290 | The Node goes before the finalizer |
| RcNodeReconciler.Cluster.Update | internal/controller/rcnode_controller.go:83-93 | A spec write is optimistic: applied only to the version that was read, and possibly without the caller learning of it |
| RcNodeReconciler.QuietPass | internal/controller/rcnode_controller.go:69-145 | When every call succeeds and nobody interferes, that one pass is the undisturbed pass of the convergence results |
| Periodic.ReadyAndOfflineIff | internal/controller/periodic_reconciler.go:690-723 | A candidate starts with full capacity; it is ready exactly when online, offline exactly when off or asked to go off, and both exactly when it is online and asked to go offline |
| Periodic.Reconciler.ProcessAssignedPods | internal/controller/periodic_reconciler.go:523-593 | The scan releases exactly the labelled, still gated pods of ordinary namespaces whose node is ready in the snapshot |
| Periodic.Reconciler.ReleaseToScheduler | internal/controller/periodic_reconciler.go:605-637 | The patch adds the node's toleration to the snapshot's, sets the hostname selector to the same node and clears all gates |
| Periodic.Reconciler.ApplyAssignments | internal/controller/assignment_applier.go:55-113 | The labels written, the nodes to wake and the desired phases are those of the assignments whose pod could be patched |
| Periodic.Reconciler.TriggerWakes | internal/controller/assignment_applier.go:142-174 | Exactly the listed nodes not already wanted online or booting are asked to boot |
| Periodic.AfterWakes | internal/controller/assignment_applier.go:153-173 | Every listed node not wanted online or booting ends up wanted booting; all others are left alone |
| Periodic.AllFlaggedAreWoken | internal/controller/assignment_applier.go:94-106 | When no patch fails the nodes to wake are the solver's flagged targets |
| Periodic.Reconciler.RunTick | internal/controller/periodic_reconciler.go:252-282 | A tick does to the pods what the gate protocol's tick event says, and asks exactly the reachable nodes to wake, which are the flagged ones when no patch fails, to boot |
| Periodic.SolverTicksAreLegal | internal/controller/periodic_reconciler.go:483-506 | What a solver returns for the pods awaiting placement touches no other pod |
| Periodic.TickIsSafe | internal/controller/periodic_reconciler.go:523-637 | In a tick the solver's target becomes the label of each pod that could be patched, a label that is there stays, and an ordinary pod loses our gate exactly when its label named a node ready in the snapshot and the patch went through; then all gates go, selector and label name that node, and its toleration is added to the pod's own; otherwise nothing but the label changes |
| Periodic.ReleasedPodsArePinned | internal/controller/periodic_reconciler.go:523-637 | Over every run of ticks and pods coming and going, every ordinary pod out of our gate is pinned to the node its label names |
| Periodic.LabelsAreForever | internal/controller/periodic_reconciler.go:496-506 | Over every run a label, once written, never changes while the pod is there |
| Periodic.FlaggedFitsBudget | internal/controller/periodic_reconciler.go:750-761 | Adding the flagged nodes to the in-flight set, shared or not, keeps it within the limit or leaves its size |
| Periodic.RecordWakes | internal/controller/periodic_reconciler.go:260-267 | Recording per assignment adds exactly the flagged nodes to the in-flight set |
| Periodic.SolveAndRecord | internal/controller/periodic_reconciler.go:173-274 | One tick is solved by the algorithm its input calls for, or the fallback, under the policy's limits, the power-ons in flight and the migrations of the hour; the result is what the dispatcher answers to that problem; exactly the nodes it flags join those in flight; unless local search or an exact plan on clashing nodes is behind it, whatever the scores, their number stays within the limit, or where it was if that was above |
| Periodic.RunTicks | internal/controller/periodic_reconciler.go:173-274 | Over any run of ticks under one policy each result answers its tick with the nodes in flight at that point, which are those at the start and those some earlier result flagged; in greedy and exact regimes their number never exceeds the larger of where it started and the limit |

## Left out

- Optimality.OptimalityGap: states the gap rather than optimality, because optimality fails on the input of `ExactCanMissTheOptimum`; `ExactIsOptimalIff` says when it holds.
- HeuristicSolver.Solve: claims feasibility and right flags under the intended rules only, because the search as written keeps neither capacity nor the power budget nor the flags; the exact conditions are the lemmas ending in `Iff`.
- HeuristicSolver.Improve: does not claim that the loop settles, because it need not (`NeverSettles`); the number of rounds is a parameter.
- Periodic.RunTicks: bounds nothing from the first tick on whose result is the local search's, which may wake nodes beyond the limit (a fallback from exact counts as such only with negative scores), or is exact with nodes both ready and offline, which `ExactWakesFitIff` covers.
- BudgetTracker.EveryHourIsBounded: assumes a client that asks before it records; the tick loop records without asking, so the hourly limit is not enforced there, and nothing calls the methods that would drain its in-flight set.
- RcNode.TwoPassesSettle: leaves out ShuttingDown and Error, for which the source has no transition; they are among the dead ends.
- HeuristicSolver.LocallyOptimal: with reservation or the budget an evacuation may be given up for these, so it then speaks of relocations and swaps only.
- Floating point: scores are reals, so adding and subtracting a score restores the sum exactly; with floats it need not.
- Node scores: features, policy multipliers, curves and policy selection are replaced by one arbitrary number per node.
- UIDs, names and namespaces are integers standing for the place of a string in the order; UIDs and node names are assumed distinct, requests and capacities non-negative, and candidates to start with full capacity, as the reconciler builds them.
- sort.Slice is a library call; the model has an insertion sort in its place and uses only that the result is an ordered permutation.
- Iteration over Go maps is in an arbitrary order in the model; so is the order in which consolidation visits nodes, which in the source is by load.
- The fields of the exact search's current path are one record held by the state object, and capacities are a sequence in it rather than fields of node copies; slices are sequences.
- The deadline of a local-search pass may fall at any of its checks; how long a check takes is not modelled. Counters of explored nodes are unbounded.
- Timings, details texts, messages, logging and metrics.
- Stale caches: a list or get returns the stored state. Patches are atomic; a pod is looked up by UID where the source uses namespace and name.
- The Kubernetes Node is present or absent: its labels, taints, capacity, conditions and heartbeats are not part of this model. Creating or updating it is one call.
- Writes of the RcNode by users change only the desired phase; what the reconciler writes besides phase, boot time and finalizer is left out. Times in statuses are not cut to whole seconds. When a pass is repeated is up to the run, not to requeue delays.
- The mutual exclusion of the budget tracker: its methods are atomic. Each reads the clock once, and the clock does not run backwards. The start times kept per node in flight are not used for anything.
- The webhook: a new pod outside the system namespaces arrives with the gate and without the label.
- Capacity across ticks: every solve starts from full allocatable capacity, so it is claimed per solve only.
- The number of migrations per solve: the check is constant during a solve and the exact solver never makes it.
- The second scoring implementation, physical wake methods, leader election, and the pod and policy controllers.
