/** What the four searches promise about their result, proved about the
    functional model: a returned plan replays through successor triples from
    the start to a goal, None is returned exactly when the start is a goal,
    ValueError is raised exactly when no goal can be reached, and A* with
    nullHeuristic computes what uniform-cost search computes. */
module Correctness {
  import opened Problems
  import opened Fringes
  import opened GraphSearch
  import opened Invariants

  /** When the fringe runs dry, the expanded states contain the start, are
      closed under successors and hold no goal, so no walk reaches a goal. */
  lemma ExhaustedNoGoal<S(!new), A(!new)>(p: Problem<S, A>, st: Strategy<S, A>, fr: Frame<S, A>)
    requires Inv(p, st, fr) && fr.fringe == []
    ensures !GoalReachable(p)
  {
    assert p.start in fr.expanded by {
      assert p.start !in States(fr.fringe);
    }
    forall x, k | x in fr.expanded && 0 <= k < |p.successors(x)|
      ensures p.successors(x)[k].state in fr.expanded
    {
      var y := p.successors(x)[k].state;
      assert y in fr.visited;
      assert y !in States(fr.fringe);
    }
    forall w | Walk(p, p.start, w)
      ensures !p.isGoal(End(p.start, w))
    {
      WalkStaysIn(p, fr.expanded, p.start, w);
    }
  }

  /** The recorded chain of a popped non-start goal is a plan that solves the
      problem. */
  lemma ChainSolves<S(!new), A(!new)>(p: Problem<S, A>, fr: Frame<S, A>, g: S)
    requires Sane(p, fr) && g in fr.visited && g != p.start && p.isGoal(g)
    ensures Solves(p, Actions(ChainEdges(p, fr, g)))
    ensures Actions(ChainEdges(p, fr, g)) != []
  {
    var w := ChainEdges(p, fr, g);
    ChainWalk(p, fr, g);
    ActionsAt(w);
  }

  /** The outcome of the main loop from any frame satisfying the invariant. */
  lemma {:induction false} LoopOutcome<S(!new), A(!new)>(p: Problem<S, A>, st: Strategy<S, A>, fr: Frame<S, A>)
    requires Inv(p, st, fr)
    ensures match Loop(p, st, fr)
            case Plan(acts) => Solves(p, acts) && acts != []
            case NoPlan => p.isGoal(p.start)
            case NotFound => !GoalReachable(p)
    decreases |p.universe - fr.visited|, |fr.fringe|
  {
    if fr.fringe == [] {
      ExhaustedNoGoal(p, st, fr);
    } else {
      LoopUnfold(p, st, fr);
      var h := fr.fringe[PopIndex(st, fr.fringe)];
      if p.isGoal(h.state) {
        if h.state != p.start {
          ChainSolves(p, fr, h.state);
        }
      } else {
        StepInv(p, st, fr);
        StepSane(p, st, fr);
        LoopOutcome(p, st, Step(p, st, fr));
      }
    }
  }

  /** A start state that is a goal is popped first and ends the search. */
  lemma StartGoal<S(!new), A(!new)>(p: Problem<S, A>, st: Strategy<S, A>)
    requires WellFormed(p) && p.isGoal(p.start)
    ensures Search(p, st) == NoPlan
  {
    InitInv(p, st);
    InitPop(p, st);
    LoopUnfold(p, st, Init(p, st));
  }

  /** Every plan a search returns is non-empty and, replayed from the start
      state through successor triples, ends in a goal state. */
  lemma SearchSound<S(!new), A(!new)>(p: Problem<S, A>, st: Strategy<S, A>)
    requires WellFormed(p)
    ensures Search(p, st).Plan? ==> Solves(p, Search(p, st).actions) && Search(p, st).actions != []
  {
    InitInv(p, st);
    LoopOutcome(p, st, Init(p, st));
  }

  /** A search returns None exactly when the start state is a goal. */
  lemma SearchNoPlan<S(!new), A(!new)>(p: Problem<S, A>, st: Strategy<S, A>)
    requires WellFormed(p)
    ensures Search(p, st) == NoPlan <==> p.isGoal(p.start)
  {
    InitInv(p, st);
    LoopOutcome(p, st, Init(p, st));
    if p.isGoal(p.start) {
      StartGoal(p, st);
    }
  }

  /** The empty walk reaches the start state. */
  lemma StartReachable<S(!new), A(!new)>(p: Problem<S, A>)
    requires p.isGoal(p.start)
    ensures GoalReachable(p)
  {
    var w: seq<Successor<S, A>> := [];
    assert Walk(p, p.start, w) && End(p.start, w) == p.start;
  }

  /** A search raises ValueError exactly when no goal state is reachable from
      the start state. */
  lemma SearchNotFound<S(!new), A(!new)>(p: Problem<S, A>, st: Strategy<S, A>)
    requires WellFormed(p)
    ensures Search(p, st) == NotFound <==> !GoalReachable(p)
  {
    InitInv(p, st);
    LoopOutcome(p, st, Init(p, st));
    if p.isGoal(p.start) {
      StartReachable(p);
    }
  }

  /** A heuristic that estimates 0 for every state, as nullHeuristic does. */
  ghost predicate ZeroHeuristic<S(!new), A(!new)>(p: Problem<S, A>, h: (S, Problem<S, A>) -> nat) {
    forall s :: h(s, p) == 0
  }

  lemma {:induction false} ExpandFromZero<S(!new), A(!new)>(p: Problem<S, A>, z: (S, Problem<S, A>) -> nat, h: Entry<S>, k: nat, fr: Frame<S, A>)
    requires ZeroHeuristic(p, z) && k <= |p.successors(h.state)|
    ensures ExpandFrom(p, AStar(z), h, k, fr) == ExpandFrom(p, UniformCost, h, k, fr)
    decreases |p.successors(h.state)| - k
  {
    if k < |p.successors(h.state)| {
      var next := ExpandOne(p, UniformCost, h, k, fr);
      assert ExpandOne(p, AStar(z), h, k, fr) == next;
      ExpandFromZero(p, z, h, k + 1, next);
    }
  }

  lemma {:induction false} LoopZero<S(!new), A(!new)>(p: Problem<S, A>, z: (S, Problem<S, A>) -> nat, fr: Frame<S, A>)
    requires ZeroHeuristic(p, z) && Sane(p, fr)
    ensures Loop(p, AStar(z), fr) == Loop(p, UniformCost, fr)
    decreases |p.universe - fr.visited|, |fr.fringe|
  {
    if fr.fringe != [] {
      var ucs: Strategy<S, A> := UniformCost;
      var i := PopIndex(ucs, fr.fringe);
      assert PopIndex(AStar(z), fr.fringe) == i;
      ExpandFromZero(p, z, fr.fringe[i], 0, fr.(fringe := Remove(fr.fringe, i)));
      assert Step(p, AStar(z), fr) == Step(p, ucs, fr);
      LoopUnfold(p, AStar(z), fr);
      LoopUnfold(p, ucs, fr);
      StepSane(p, ucs, fr);
      LoopZero(p, z, Step(p, ucs, fr));
    }
  }

  /** A* with a heuristic that is 0 everywhere returns exactly what
      uniform-cost search returns. */
  lemma ZeroHeuristicIsUniformCost<S(!new), A(!new)>(p: Problem<S, A>, z: (S, Problem<S, A>) -> nat)
    requires WellFormed(p) && ZeroHeuristic(p, z)
    ensures Search(p, AStar(z)) == Search(p, UniformCost)
  {
    assert Init(p, AStar(z)) == Init(p, UniformCost);
    InitInv(p, UniformCost);
    LoopZero(p, z, Init(p, UniformCost));
  }

  /** aStarSearch with its default nullHeuristic returns exactly what
      uniformCostSearch returns. */
  lemma NullHeuristicIsUniformCost<S(!new), A(!new)>(p: Problem<S, A>)
    requires WellFormed(p)
    ensures Search(p, AStar(NullHeuristic)) == Search(p, UniformCost)
  {
    ZeroHeuristicIsUniformCost(p, NullHeuristic);
  }
}
