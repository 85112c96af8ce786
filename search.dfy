/** depthFirstSearch, breadthFirstSearch, uniformCostSearch and aStarSearch as
    imperative methods: the fringe, the visited set and the ancestor map are
    local variables updated in place by the two while loops and the for loop of
    search.py, and each method is proved equal to its functional counterpart
    in GraphSearch (Explore and the four entry methods to Search, PushSuccessors
    to ExpandFrom, Reconstruct to Finish). */
module Searches {
  import opened Problems
  import opened Fringes
  import opened GraphSearch
  import opened Correctness
  import opened Shortest

  /** path[::-1]: it keeps the length and puts the element i places from the
      end of s at position i. */
  function Reverse<T>(s: seq<T>): (r: seq<T>)
    ensures |r| == |s|
    ensures forall i :: 0 <= i < |s| ==> r[i] == s[|s| - 1 - i]
  {
    if s == [] then [] else [s[|s| - 1]] + Reverse(s[..|s| - 1])
  }

  lemma ReverseSnoc<T>(s: seq<T>, x: T)
    ensures Reverse(s + [x]) == [x] + Reverse(s)
  {
    assert (s + [x])[..|s|] == s;
  }

  /** The reconstruction loop's invariant: the actions collected so far, read
      backwards, complete the ancestor chain of `current` to that of `goal`. */
  ghost predicate Collected<S(!new), A(!new)>(p: Problem<S, A>, fr: Frame<S, A>, goal: S, current: S, path: seq<A>) {
    && Sane(p, fr)
    && (goal == p.start || goal in fr.visited)
    && (current == p.start || current in fr.visited)
    && Actions(ChainEdges(p, fr, current)) + Reverse(path) == Actions(ChainEdges(p, fr, goal))
  }

  /** One round of the reconstruction loop keeps the invariant and moves to a
      state discovered earlier. */
  lemma CollectedStep<S(!new), A(!new)>(p: Problem<S, A>, fr: Frame<S, A>, goal: S, current: S, path: seq<A>)
    requires Collected(p, fr, goal, current, path) && current != p.start
    ensures current in fr.ancestor && current in fr.rank
    ensures var l := fr.ancestor[current];
            && Collected(p, fr, goal, l.parent, path + [l.action])
            && (l.parent == p.start || (l.parent in fr.rank && fr.rank[l.parent] < fr.rank[current]))
  {
    ChainUnfold(p, fr, current);
    var l := fr.ancestor[current];
    ActionsSnoc(ChainEdges(p, fr, l.parent), p.successors(l.parent)[fr.edge[current]]);
    SnocReverse(Actions(ChainEdges(p, fr, l.parent)), l.action, path);
  }

  /** Once the start is reached, the reversed actions are the goal's chain. */
  lemma CollectedDone<S(!new), A(!new)>(p: Problem<S, A>, fr: Frame<S, A>, goal: S, path: seq<A>)
    requires Collected(p, fr, goal, p.start, path) && goal != p.start
    ensures Finish(p, fr, goal) == Plan(Reverse(path))
  {
  }

  lemma SnocReverse<T>(x: seq<T>, a: T, path: seq<T>)
    ensures x + Reverse(path + [a]) == (x + [a]) + Reverse(path)
  {
    ReverseSnoc(path, a);
    assert x + ([a] + Reverse(path)) == (x + [a]) + Reverse(path);
  }

  /** The reconstruction loop `while current_state != start_state`: walk the
      ancestor map back from the goal, append each action, and return the
      reversed list once the start is reached; when the goal is the start the
      loop never runs and the Python function falls off its end (None). */
  method Reconstruct<S(==,!new), A(!new)>(p: Problem<S, A>, ancestor: map<S, Link<S, A>>, goal: S, ghost fr: Frame<S, A>)
    returns (r: Outcome<A>)
    requires Sane(p, fr) && fr.ancestor == ancestor
    requires goal == p.start || goal in fr.visited
    ensures r == Finish(p, fr, goal)
  {
    var start := p.start;
    var path: seq<A> := [];
    var current := goal;
    while current != start
      invariant Collected(p, fr, goal, current, path)
      invariant path == [] ==> current == goal
      invariant path != [] ==> current != start && goal != start
      decreases if current == start then 0 else fr.rank[current] + 1
    {
      CollectedStep(p, fr, goal, current, path);
      var link := ancestor[current];
      path := path + [link.action];
      current := link.parent;
      if current == start {
        CollectedDone(p, fr, goal, path);
        return Plan(Reverse(path));
      }
    }
    return NoPlan;
  }

  /** The `for successor in problem.getSuccessors(current_state)` loop: every
      successor not yet in `visited` is pushed, added to `visited` and given its
      ancestor entry. The ghost frame carries the proof bookkeeping along. */
  method PushSuccessors<S(==,!new), A(!new)>(p: Problem<S, A>, st: Strategy<S, A>, head: Entry<S>,
                                             fringe0: seq<Entry<S>>, visited0: set<S>,
                                             ancestor0: map<S, Link<S, A>>, ghost fr0: Frame<S, A>)
    returns (fringe: seq<Entry<S>>, visited: set<S>, ancestor: map<S, Link<S, A>>, ghost fr: Frame<S, A>)
    requires fr0.fringe == fringe0 && fr0.visited == visited0 && fr0.ancestor == ancestor0
    ensures fr == ExpandFrom(p, st, head, 0, fr0)
    ensures fringe == fr.fringe && visited == fr.visited && ancestor == fr.ancestor
  {
    fringe, visited, ancestor, fr := fringe0, visited0, ancestor0, fr0;
    var current := head.state;
    var successors := p.successors(current);
    for k := 0 to |successors|
      invariant fringe == fr.fringe && visited == fr.visited && ancestor == fr.ancestor
      invariant ExpandFrom(p, st, head, k, fr) == ExpandFrom(p, st, head, 0, fr0)
    {
      ExpandFromUnfold(p, st, head, k, fr);
      var t := successors[k];
      if t.state !in visited {
        var c := head.cost + t.cost;
        fringe := fringe + [Entry(c, t.state, Priority(st, p, c, t.state))];
        visited := visited + {t.state};
        ancestor := ancestor[t.state := Link(current, t.action)];
        ExpandOnePush(p, st, head, k, fr);
      } else {
        ExpandOneSkip(p, st, head, k, fr);
      }
      fr := ExpandOne(p, st, head, k, fr);
    }
  }

  /** The loop skeleton shared by the four searches: push the start, pop by the
      strategy's rule, stop on a goal, otherwise push, mark and record every
      unvisited successor; raise when the fringe runs dry. */
  method Explore<S(==,!new), A(!new)>(p: Problem<S, A>, st: Strategy<S, A>) returns (r: Outcome<A>)
    requires WellFormed(p)
    ensures r == Search(p, st)
  {
    var start := p.start;
    var fringe := [Entry(0, start, 0)];
    var visited: set<S> := {};
    var ancestor: map<S, Link<S, A>> := map[];
    ghost var fr := Init(p, st);
    var current := start;
    var found := false;
    ghost var atGoal := fr;
    while fringe != []
      invariant fringe == fr.fringe && visited == fr.visited && ancestor == fr.ancestor
      invariant !found
      invariant Sane(p, fr)
      invariant Loop(p, st, fr) == Search(p, st)
      decreases |p.universe - visited|, |fringe|
    {
      LoopUnfold(p, st, fr);
      var i := PopIndex(st, fringe);
      var head := fringe[i];
      fringe := Remove(fringe, i);
      current := head.state;
      if p.isGoal(current) {
        atGoal := fr;
        found := true;
        break;
      }
      ghost var next := Step(p, st, fr);
      StepSane(p, st, fr);
      assert Loop(p, st, next) == Search(p, st);
      fringe, visited, ancestor, fr := PushSuccessors(p, st, head, fringe, visited, ancestor, fr.(fringe := fringe));
      fr := fr.(expanded := fr.expanded + {current});
      assert fr == next;
    }
    if !found {
      return NotFound;
    }
    r := Reconstruct(p, ancestor, current, atGoal);
  }

  /** depthFirstSearch. */
  method DepthFirstSearch<S(==,!new), A(!new)>(p: Problem<S, A>) returns (r: Outcome<A>)
    requires WellFormed(p)
    ensures r == Search(p, DepthFirst)
    ensures r.Plan? ==> Solves(p, r.actions) && r.actions != []
    ensures r == NoPlan <==> p.isGoal(p.start)
    ensures r == NotFound <==> !GoalReachable(p)
  {
    r := Explore(p, DepthFirst);
    SearchSound(p, DepthFirst);
    SearchNoPlan(p, DepthFirst);
    SearchNotFound(p, DepthFirst);
  }

  /** breadthFirstSearch: in addition, the plan has the fewest actions. */
  method BreadthFirstSearch<S(==,!new), A(!new)>(p: Problem<S, A>) returns (r: Outcome<A>)
    requires WellFormed(p)
    ensures r == Search(p, BreadthFirst)
    ensures r.Plan? ==> Solves(p, r.actions) && r.actions != []
    ensures r.Plan? ==> forall w :: Walk(p, p.start, w) && p.isGoal(End(p.start, w)) ==> |r.actions| <= |w|
    ensures r == NoPlan <==> p.isGoal(p.start)
    ensures r == NotFound <==> !GoalReachable(p)
  {
    r := Explore(p, BreadthFirst);
    SearchSound(p, BreadthFirst);
    BreadthFirstShortest(p);
    SearchNoPlan(p, BreadthFirst);
    SearchNotFound(p, BreadthFirst);
  }

  /** uniformCostSearch. */
  method UniformCostSearch<S(==,!new), A(!new)>(p: Problem<S, A>) returns (r: Outcome<A>)
    requires WellFormed(p)
    ensures r == Search(p, UniformCost)
    ensures r.Plan? ==> Solves(p, r.actions) && r.actions != []
    ensures r == NoPlan <==> p.isGoal(p.start)
    ensures r == NotFound <==> !GoalReachable(p)
  {
    r := Explore(p, UniformCost);
    SearchSound(p, UniformCost);
    SearchNoPlan(p, UniformCost);
    SearchNotFound(p, UniformCost);
  }

  /** aStarSearch, whose heuristic defaults to nullHeuristic; with a heuristic
      that is 0 everywhere it returns what uniformCostSearch returns. */
  method AStarSearch<S(==,!new), A(!new)>(p: Problem<S, A>, heuristic: (S, Problem<S, A>) -> nat := NullHeuristic)
    returns (r: Outcome<A>)
    requires WellFormed(p)
    ensures r == Search(p, AStar(heuristic))
    ensures r.Plan? ==> Solves(p, r.actions) && r.actions != []
    ensures r == NoPlan <==> p.isGoal(p.start)
    ensures r == NotFound <==> !GoalReachable(p)
    ensures ZeroHeuristic(p, heuristic) ==> r == Search(p, UniformCost)
  {
    r := Explore(p, AStar(heuristic));
    SearchSound(p, AStar(heuristic));
    SearchNoPlan(p, AStar(heuristic));
    SearchNotFound(p, AStar(heuristic));
    if ZeroHeuristic(p, heuristic) {
      ZeroHeuristicIsUniformCost(p, heuristic);
    }
  }
}
