# Graph search for Pacman: a verified model of search.py

`search.py` holds four search functions that the Pacman agents call:
`depthFirstSearch`, `breadthFirstSearch`, `uniformCostSearch` and `aStarSearch`.
It also holds the trivial heuristic `nullHeuristic`. Each function:

- pushes the start state onto a container (a stack, a queue or a priority queue);
- pops states until it pops a goal;
- for every successor of a popped state that is not in `visited`: pushes it,
  adds it to `visited`, and records `(parent, action)` in `ancestor`;
- finally follows the `ancestor` links back from the goal and returns the
  reversed list of actions.

All four use the same loops and differ only in the container and in the push
priority:

| search | pops | push priority |
|---|---|---|
| depth-first | last pushed | none |
| breadth-first | first pushed | none |
| uniform cost | least priority | accumulated cost |
| A* | least priority | accumulated cost + heuristic |

The model has two layers.

- **A functional description** (`GraphSearch`) of one search call, for a
  search strategy.
  - The frame (`Frame`) holds the fringe, `visited` and `ancestor`, plus proof
    bookkeeping the search never reads: the discovery rank, the successor index,
    the push log and the expanded states.
  - `ExpandFrom` is the `for successor` loop, `Step` is one round of the main
    loop, `Loop` runs the main loop to its end, and `Finish` is the
    reconstruction.
- **Imperative methods** (`Searches`) that run the real loops on local
  variables and are proved to compute exactly that function.
  - `Explore` is the main loop, `PushSuccessors` the inner `for` loop and
    `Reconstruct` the `while current_state != start_state` loop.
  - The four entry methods call `Explore`. Each carries the end-to-end
    guarantees as postconditions.

A search call has three outcomes (`Outcome`):

- `Plan(actions)`: a list of actions.
- `NoPlan`: Python's `None`. The reconstruction loop never runs when the start
  state is itself a goal, so the function falls off its end.
- `NotFound`: `ValueError("solution not found")`, raised from the `while ... else`
  branch when the fringe runs dry.

What is proved:

- **Soundness.** A plan replays through successor triples from the start state
  and ends in a goal.
- **The other two outcomes.** `None` is returned exactly when the start is a
  goal, and `ValueError` is raised exactly when no goal is reachable.
- **Bookkeeping.**
  - Push, mark and record happen together, at most once per state.
  - A recorded ancestor, rank or edge is never overwritten.
  - Every visited state is expanded or still on the fringe.
  - Every successor of an expanded state has been visited.
- **Costs.** In uniform-cost search and A*, every fringe entry for a state other
  than the start carries the path cost of its recorded chain. It was pushed
  with that cost as priority (uniform cost) or with that cost plus the
  heuristic (A*). The initial start entry has cost 0 and priority 0. The start
  is not added to `visited` when it is first pushed (search.py:95-98), so it
  can be pushed once more as a successor, and from then on it is in
  `visited`. Such a re-pushed start entry carries its strategy's priority for its cost, like
  any other pushed entry; only its cost is not tied to a chain. Once it is
  pushed, the start has already been expanded and all its successors are
  visited, so popping it again pushes nothing.
- **Fewest actions.** Breadth-first search returns a plan with the fewest
  actions of any walk to a goal.
- **A* and uniform cost.** A* with `nullHeuristic`, or with any heuristic that
  is 0 everywhere, returns exactly what uniform-cost search returns.
- **Not cheapest.** A concrete three-state problem shows that uniform-cost
  search as written does not return the cheapest plan.

Two behaviours of the code are easy to miss. The model follows the code in both.

- **Start state is a goal.** A caller might expect an empty action list. The
  code returns `None`: the loop at search.py:118 never runs, and the function
  falls off its end. The model returns `NoPlan` (`Correctness.SearchNoPlan`).
- **Uniform-cost search is not cost-optimal.** Uniform-cost search is usually
  expected to return the cheapest plan. In the code a state is marked visited
  when it is pushed (search.py:182-185), so a cheaper route found later is
  dropped.
  - `Examples.UniformCostNotCheapest` shows this on three states A, B and C
    with goal C. A reaches C directly at cost 5, or through B at cost 2, and
    the search returns the direct edge.
  - No optimality theorem is stated for uniform-cost search or A*.

## Model

| member | source | states |
|---|---|---|
| Fringes.NullHeuristic | search.py:202-207 | the trivial heuristic estimates 0 for every state and problem |
| Fringes.Priority | search.py:228-229 | the push priority: the accumulated cost for uniform-cost search (as at search.py:183-184); for A*, never below the cost and exceeding it by exactly the heuristic's estimate of the pushed state; 0 for a stack or queue, which ignore it |
| Fringes.PopIndex | search.py:102 | which entry `fringe.pop()` returns (here and at search.py:139, 175 and 220): the last pushed for depth-first, the first pushed for breadth-first, and an entry of least priority, the first pushed among ties, for uniform cost and A* |
| Fringes.MinIndex | search.py:175 | the index `util.PriorityQueue.pop` takes: an entry of least priority, and no earlier entry has a priority that low (ties go to the first pushed) |
| Fringes.Remove | search.py:102 | popping index i keeps the entries before i and shifts those after it down by one |
| GraphSearch.Init | search.py:93-98 | the frame before the loop: only the start state on the fringe, with cost 0 and priority 0 (search.py:171 and 216 push it with priority 0, not with its heuristic value); nothing visited, no ancestors, nothing expanded; well formed for a well-formed problem |
| GraphSearch.ExpandOne | search.py:109-112 | one successor: `visited` gains its state; an already visited successor changes nothing; an unvisited one is appended behind the unchanged fringe with the popped cost plus the step cost and its strategy's priority for that cost, and gets the popped state and the action as its ancestor entry while every other ancestor entry stays; nothing is marked expanded |
| GraphSearch.ExpandFrom | search.py:106-112 | the `for successor` loop only appends to the fringe, only adds to `visited`, and expands nothing |
| GraphSearch.Step | search.py:101-112 | one round of the main loop marks exactly the popped state expanded and only adds to `visited` |
| GraphSearch.Loop | search.py:101-114 | the main loop from any well-formed frame: `None` only when the start is a goal, and a returned plan is never empty |
| GraphSearch.Search | search.py:93-125 | a whole search call: `None` only when the start is a goal, and a returned plan is never empty |
| GraphSearch.Finish | search.py:116-125 | after a goal pop: `None` exactly when the goal is the start; otherwise a non-empty plan, the actions of the recorded chain, which is a walk from the start ending in the goal; never `ValueError` |
| GraphSearch.ChainEdges | search.py:118 | the recorded chain of a state is empty exactly when the state is the start |
| GraphSearch.ChainWalk | search.py:117-125 | following the ancestor links back from a discovered state gives successor triples that form a walk from the start ending in that state |
| GraphSearch.ExpandFromVisited | search.py:106-112 | the `for successor` loop adds exactly the successor states to `visited` and expands nothing |
| GraphSearch.ExpandFromFringe | search.py:106-112 | the loop only appends to the fringe; appended entries are states newly visited; nothing is pushed if nothing new was visited |
| GraphSearch.ExpandFromExtends | search.py:109-112 | an ancestor, rank or edge that is already recorded for a visited state is never overwritten |
| GraphSearch.StepSane | search.py:101-112 | one round of the main loop keeps the frame well formed and either visits a new state or shrinks the fringe, so the loop terminates |
| Invariants.ExpandFromNew | search.py:179-186 | every entry the loop pushes is a previously unvisited state whose ancestor is the popped state; it is pushed with the popped cost plus the step cost, and with its strategy's priority |
| Invariants.ExpandFromPushed | search.py:109-111 | every state the loop marks visited is on the fringe |
| Invariants.ExpandFromLog | search.py:109-112 | the push log stays free of duplicates and within `visited`: each state is pushed, marked and recorded at most once |
| Invariants.StepLog | search.py:101-112 | a round of the main loop keeps the push log free of duplicates |
| Invariants.StepFactsHold | search.py:101-112 | a round pops the entry its strategy chooses, expands it, keeps the rest of the fringe in order, appends the new entries, and overwrites nothing recorded |
| Invariants.InitInv | search.py:93-98 | the main-loop invariant holds when only the start state, with cost 0 and priority 0, has been pushed, and `visited` is empty |
| Invariants.CoveredAfter | search.py:101-112 | after a round, every visited state (and the start) has been expanded or waits on the fringe |
| Invariants.ClosedAfter | search.py:106-112 | after a round, every successor of an expanded state is visited |
| Invariants.CostsAfter | search.py:183-184 | after a round, every fringe entry for a state other than the start has the path cost of its state's recorded chain as cost, and its strategy's priority for that cost; a start entry has cost and priority 0, or, once the start has been expanded, its strategy's priority for its cost |
| Invariants.StepInv | search.py:101-112 | a round that pops a non-goal keeps the whole main-loop invariant |
| Correctness.LoopOutcome | search.py:101-125 | from any frame satisfying the main-loop invariant, the loop returns a non-empty plan that solves the problem, `None` only if the start is a goal, and `ValueError` only if no goal is reachable |
| Correctness.SearchSound | search.py:93-125 | a returned plan is non-empty and replays through successor triples from the start to a goal |
| Correctness.SearchNoPlan | search.py:116-125 | the search returns `None` exactly when the start state is a goal |
| Correctness.SearchNotFound | search.py:113-114 | the search raises `ValueError` exactly when no goal is reachable from the start |
| Correctness.ZeroHeuristicIsUniformCost | search.py:228-229 | A* with a heuristic that is 0 everywhere returns exactly uniform-cost search's result |
| Correctness.NullHeuristicIsUniformCost | search.py:202-210 | A* with its default heuristic `nullHeuristic` returns exactly uniform-cost search's result |
| Shortest.StepBfs | search.py:138-149 | a round of breadth-first search keeps the fringe ordered by chain length, with lengths differing by at most one, and expanded states no deeper than the fringe |
| Shortest.BreadthFirstShortest | search.py:128-162 | a plan returned by breadth-first search has no more actions than any walk from the start to a goal |
| Examples.UniformCostNotCheapest | search.py:182-186 | on the three-state example: uniform-cost search returns the direct action of cost 5 although a walk of cost 2 reaches the goal |
| Searches.Reverse | search.py:125 | `path[::-1]` keeps the length and puts the element i places from the end at position i |
| Searches.Reconstruct | search.py:116-125 | walking the ancestor map back from the goal and reversing the collected actions gives the goal's recorded chain, or `None` when the goal is the start |
| Searches.PushSuccessors | search.py:106-112 | the imperative `for successor` loop computes the functional loop's fringe, `visited` and `ancestor` |
| Searches.Explore | search.py:93-125 | the imperative search computes the functional search's outcome |
| Searches.DepthFirstSearch | search.py:77-125 | depthFirstSearch has the outcome of the functional search popping the last pushed state; it is sound, `None` exactly on a goal start, `ValueError` exactly when no goal is reachable |
| Searches.BreadthFirstSearch | search.py:128-162 | breadthFirstSearch has the same guarantees, and its plan has the fewest actions |
| Searches.UniformCostSearch | search.py:165-199 | uniformCostSearch has the same guarantees, popping by least accumulated cost |
| Searches.AStarSearch | search.py:210-244 | aStarSearch has the same guarantees; with a heuristic that is 0 everywhere (the default `nullHeuristic`) it returns uniformCostSearch's result |

## Left out

- `tinyMazeSearch` returns a fixed list of directions for one maze and has nothing to prove.
- `SearchProblem.getCostOfActions` is never called by the searches.
- `SearchProblem` is modelled as an immutable value. That value holds the start
  state, the successor function, the goal test and a finite set of states
  (`universe`) that contains the start and is closed under successors.
  Finiteness is an assumption the Python code does not state. The model needs
  it to define the main loop as a terminating function. A state type may be
  infinite as long as only finitely many states are reachable from the start:
  `universe` can be the reachable states. When infinitely many states are
  reachable from the start, the code runs forever only if pushing never stops
  and no goal is ever popped, for example when no goal is reachable. Other
  runs with infinitely many reachable states do terminate in the code, and
  the model excludes them as well. One example is breadth-first search with
  finitely many successors per state and a reachable goal.
- `util.Stack`, `util.Queue` and `util.PriorityQueue`: `util.py` is not part of
  this model. The fringe is one sequence in push order:
  - a stack pops the last entry;
  - a queue pops the first entry;
  - a priority queue pops the first-pushed entry of least priority. Tie-breaking
    by push order is assumed.
- Step costs and heuristic values are natural numbers, not floating point. A
  heuristic is any function of (state, problem) to a natural number. Negative
  costs are not modelled.
- Depth-first and breadth-first search push bare states. Their modelled fringe
  entries carry the accumulated cost and a priority of 0, which the pop rule
  never reads.
- Cost-optimality of uniform-cost search and A* is not claimed, because the
  code does not have it (see `Examples.UniformCostNotCheapest`). Heuristic
  admissibility and consistency are left out for the same reason.
- The abbreviations `bfs`, `dfs`, `astar` and `ucs` are aliases of the four
  entry methods.
- Printing, the agents that call the searches, and the Pacman game are not part of this model.
