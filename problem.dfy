/** The read-only search-problem interface (class SearchProblem in search.py),
    modelled as an immutable value, and walks through its successor relation. */
module Problems {

  /** One triple returned by getSuccessors: (successor, action, stepCost). */
  datatype Successor<S, A> = Successor(state: S, action: A, cost: nat)

  /** getStartState, isGoalState and getSuccessors, plus a finite set of states
      that contains the start and is closed under successors. */
  datatype Problem<!S(==), A> = Problem(
    start: S,
    successors: S -> seq<Successor<S, A>>,
    isGoal: S -> bool,
    universe: set<S>)

  /** The universe contains the start state and every successor of its members. */
  ghost predicate WellFormed<S(!new), A(!new)>(p: Problem<S, A>) {
    && p.start in p.universe
    && forall s, j :: s in p.universe && 0 <= j < |p.successors(s)| ==> p.successors(s)[j].state in p.universe
  }

  /** The state reached after the first i steps of `w` when starting in `from`. */
  function At<S, A>(from: S, w: seq<Successor<S, A>>, i: nat): S
    requires i <= |w|
  {
    if i == 0 then from else w[i - 1].state
  }

  /** The state a walk ends in. */
  function End<S, A>(from: S, w: seq<Successor<S, A>>): S {
    At(from, w, |w|)
  }

  /** Every step of `w` is one of the successor triples of the state it leaves. */
  ghost predicate Walk<S(!new), A(!new)>(p: Problem<S, A>, from: S, w: seq<Successor<S, A>>) {
    forall i :: 0 <= i < |w| ==> w[i] in p.successors(At(from, w, i))
  }

  /** The action labels of a walk, in order. */
  function Actions<S, A>(w: seq<Successor<S, A>>): seq<A> {
    if w == [] then [] else Actions(w[..|w| - 1]) + [w[|w| - 1].action]
  }

  lemma ActionsSnoc<S, A>(w: seq<Successor<S, A>>, e: Successor<S, A>)
    ensures Actions(w + [e]) == Actions(w) + [e.action]
  {
    assert (w + [e])[..|w|] == w;
  }

  /** Actions keeps the length and reads off each step's action label. */
  lemma {:induction false} ActionsAt<S, A>(w: seq<Successor<S, A>>)
    ensures |Actions(w)| == |w|
    ensures forall i :: 0 <= i < |w| ==> Actions(w)[i] == w[i].action
  {
    if w != [] {
      ActionsAt(w[..|w| - 1]);
    }
  }

  /** The sum of the step costs of a walk. */
  function PathCost<S, A>(w: seq<Successor<S, A>>): nat {
    if w == [] then 0 else PathCost(w[..|w| - 1]) + w[|w| - 1].cost
  }

  /** `acts` can be replayed through successor triples from the start state and
      reaches a goal state. */
  ghost predicate Solves<S(!new), A(!new)>(p: Problem<S, A>, acts: seq<A>) {
    exists w :: Walk(p, p.start, w) && Actions(w) == acts && p.isGoal(End(p.start, w))
  }

  /** Some goal state is reachable from the start state. */
  ghost predicate GoalReachable<S(!new), A(!new)>(p: Problem<S, A>) {
    exists w :: Walk(p, p.start, w) && p.isGoal(End(p.start, w))
  }

  /** Extending a walk by a successor triple of its last state gives a walk. */
  lemma WalkSnoc<S(!new), A(!new)>(p: Problem<S, A>, from: S, w: seq<Successor<S, A>>, e: Successor<S, A>)
    requires Walk(p, from, w)
    requires e in p.successors(End(from, w))
    ensures Walk(p, from, w + [e])
    ensures End(from, w + [e]) == e.state
  {
    var w' := w + [e];
    forall i | 0 <= i < |w'|
      ensures w'[i] in p.successors(At(from, w', i))
    {
      if i < |w| {
        assert At(from, w', i) == At(from, w, i);
      }
    }
  }

  /** A prefix of a walk is a walk through the same states. */
  lemma WalkPrefix<S(!new), A(!new)>(p: Problem<S, A>, from: S, w: seq<Successor<S, A>>, n: nat)
    requires Walk(p, from, w) && n <= |w|
    ensures Walk(p, from, w[..n])
    ensures forall i :: 0 <= i <= n ==> At(from, w[..n], i) == At(from, w, i)
  {
    forall i | 0 <= i <= n
      ensures At(from, w[..n], i) == At(from, w, i)
    {
    }
  }

  /** A walk from a state of a set closed under successors stays in that set. */
  lemma {:induction false} WalkStaysIn<S(!new), A(!new)>(p: Problem<S, A>, c: set<S>, from: S, w: seq<Successor<S, A>>)
    requires from in c
    requires forall x, k :: x in c && 0 <= k < |p.successors(x)| ==> p.successors(x)[k].state in c
    requires Walk(p, from, w)
    ensures End(from, w) in c
    decreases |w|
  {
    if w != [] {
      var n := |w| - 1;
      WalkPrefix(p, from, w, n);
      WalkStaysIn(p, c, from, w[..n]);
      assert w[n] in p.successors(At(from, w, n));
      var k :| 0 <= k < |p.successors(At(from, w, n))| && p.successors(At(from, w, n))[k] == w[n];
    }
  }
}
