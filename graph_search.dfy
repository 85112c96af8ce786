/** The shared loop skeleton of depthFirstSearch, breadthFirstSearch,
    uniformCostSearch and aStarSearch as functions: one iteration of the
    `while not fringe.isEmpty()` loop is Step, the `for successor in ...` loop is
    ExpandFrom, and the reconstruction of the plan from the ancestor map is
    Finish. */
module GraphSearch {
  import opened Problems
  import opened Fringes

  /** An ancestor entry: the (parent, action) pair recorded for a state. */
  datatype Link<S, A> = Link(parent: S, action: A)

  /** What a search call produces: a list of actions, Python's None (returned
      when the start state is itself a goal), or ValueError("solution not found"). */
  datatype Outcome<A> = Plan(actions: seq<A>) | NoPlan | NotFound

  /** The local state of one search call. The last four fields are proof
      bookkeeping that the search never consults: the discovery order of each
      visited state, the index of the successor triple that discovered it, the
      states pushed after the start in push order, and the states expanded so far. */
  datatype Frame<S(==), A> = Frame(
    fringe: seq<Entry<S>>,
    visited: set<S>,
    ancestor: map<S, Link<S, A>>,
    rank: map<S, nat>,
    edge: map<S, nat>,
    log: seq<S>,
    expanded: set<S>)

  /** The ancestor entry of s names a parent that was discovered earlier (or is
      the start) and a successor triple of that parent leading to s. */
  ghost predicate LinkOk<S(!new), A(!new)>(p: Problem<S, A>, fr: Frame<S, A>, s: S)
    requires s in fr.ancestor && s in fr.rank && s in fr.edge
  {
    var l := fr.ancestor[s];
    && (l.parent == p.start || (l.parent in fr.rank && fr.rank[l.parent] < fr.rank[s]))
    && fr.edge[s] < |p.successors(l.parent)|
    && p.successors(l.parent)[fr.edge[s]].state == s
    && p.successors(l.parent)[fr.edge[s]].action == l.action
  }

  /** What makes the loop and the reconstruction well defined. */
  ghost predicate Sane<S(!new), A(!new)>(p: Problem<S, A>, fr: Frame<S, A>) {
    && WellFormed(p)
    && fr.visited <= p.universe
    && fr.ancestor.Keys == fr.visited
    && fr.rank.Keys == fr.visited
    && fr.edge.Keys == fr.visited
    && (forall s :: s in fr.rank ==> fr.rank[s] < |fr.log|)
    && (forall i :: 0 <= i < |fr.fringe| ==> fr.fringe[i].state == p.start || fr.fringe[i].state in fr.visited)
    && (forall s :: s in fr.ancestor && s != p.start ==> LinkOk(p, fr, s))
  }

  /** The walk from the start state that the ancestor map records for s: the
      successor triples met when following the (parent, action) links back from
      s, in start-to-s order. */
  function ChainEdges<S(==,!new), A(!new)>(p: Problem<S, A>, fr: Frame<S, A>, s: S): (c: seq<Successor<S, A>>)
    requires Sane(p, fr)
    requires s == p.start || s in fr.visited
    ensures c == [] <==> s == p.start
    decreases if s == p.start then 0 else fr.rank[s] + 1
  {
    if s == p.start then []
    else
      var l := fr.ancestor[s];
      assert LinkOk(p, fr, s);
      ChainEdges(p, fr, l.parent) + [p.successors(l.parent)[fr.edge[s]]]
  }

  /** The recorded chain of s is a walk from the start state to s. */
  lemma {:induction false} ChainWalk<S(!new), A(!new)>(p: Problem<S, A>, fr: Frame<S, A>, s: S)
    requires Sane(p, fr)
    requires s == p.start || s in fr.visited
    ensures Walk(p, p.start, ChainEdges(p, fr, s)) && End(p.start, ChainEdges(p, fr, s)) == s
    decreases if s == p.start then 0 else fr.rank[s] + 1
  {
    if s != p.start {
      var l := fr.ancestor[s];
      assert LinkOk(p, fr, s);
      ChainWalk(p, fr, l.parent);
      WalkSnoc(p, p.start, ChainEdges(p, fr, l.parent), p.successors(l.parent)[fr.edge[s]]);
    }
  }

  /** The chain of a non-start visited state is its parent's chain followed by
      the recorded successor triple, which carries the recorded action; the
      parent was discovered earlier or is the start. */
  lemma ChainUnfold<S(!new), A(!new)>(p: Problem<S, A>, fr: Frame<S, A>, s: S)
    requires Sane(p, fr) && s in fr.visited && s != p.start
    ensures var l := fr.ancestor[s];
            && (l.parent == p.start || (l.parent in fr.visited && fr.rank[l.parent] < fr.rank[s]))
            && fr.edge[s] < |p.successors(l.parent)|
            && p.successors(l.parent)[fr.edge[s]].state == s
            && p.successors(l.parent)[fr.edge[s]].action == l.action
            && ChainEdges(p, fr, s) == ChainEdges(p, fr, l.parent) + [p.successors(l.parent)[fr.edge[s]]]
  {
    assert LinkOk(p, fr, s);
  }

  /** The result once `goal` has been popped: no plan (Python's None) when it
      is the start state, otherwise the actions recorded on its ancestor chain. */
  function Finish<S(==,!new), A(!new)>(p: Problem<S, A>, fr: Frame<S, A>, goal: S): (r: Outcome<A>)
    requires Sane(p, fr)
    requires goal == p.start || goal in fr.visited
    ensures !r.NotFound?
    ensures r.NoPlan? <==> goal == p.start
    ensures r.Plan? ==>
      && r.actions != []
      && var w := ChainEdges(p, fr, goal);
         Walk(p, p.start, w) && End(p.start, w) == goal && r.actions == Actions(w)
  {
    if goal == p.start then NoPlan
    else
      ChainWalk(p, fr, goal);
      ActionsAt(ChainEdges(p, fr, goal));
      Plan(Actions(ChainEdges(p, fr, goal)))
  }

  /** The body of the `for successor` loop for the k-th successor of the popped
      entry h: an unvisited successor is pushed, marked visited and given its
      ancestor entry, all in one step. */
  function ExpandOne<S(==,!new), A(!new)>(p: Problem<S, A>, st: Strategy<S, A>, h: Entry<S>, k: nat, fr: Frame<S, A>): (r: Frame<S, A>)
    requires k < |p.successors(h.state)|
    ensures var t := p.successors(h.state)[k];
      && r.visited == fr.visited + {t.state}
      && r.expanded == fr.expanded
      && (t.state in fr.visited ==> r == fr)
      && (t.state !in fr.visited ==>
            && r.fringe == fr.fringe + [Entry(h.cost + t.cost, t.state, Priority(st, p, h.cost + t.cost, t.state))]
            && r.ancestor == fr.ancestor[t.state := Link(h.state, t.action)])
  {
    var t := p.successors(h.state)[k];
    if t.state in fr.visited then fr
    else
      var c := h.cost + t.cost;
      fr.(fringe := fr.fringe + [Entry(c, t.state, Priority(st, p, c, t.state))],
          visited := fr.visited + {t.state},
          ancestor := fr.ancestor[t.state := Link(h.state, t.action)],
          rank := fr.rank[t.state := |fr.log|],
          edge := fr.edge[t.state := k],
          log := fr.log + [t.state])
  }

  /** The successor triples of s from index k on, as a set of states. */
  ghost function SuccStates<S, A>(p: Problem<S, A>, s: S, k: nat): set<S> {
    set j | k <= j < |p.successors(s)| :: p.successors(s)[j].state
  }

  /** fr2 agrees with fr1 on every state fr1 has visited: nothing recorded is
      ever overwritten. */
  ghost predicate Extends<S(!new), A(!new)>(fr1: Frame<S, A>, fr2: Frame<S, A>) {
    && fr1.visited <= fr2.visited
    && (forall s :: s in fr1.visited && s in fr1.ancestor ==> s in fr2.ancestor && fr2.ancestor[s] == fr1.ancestor[s])
    && (forall s :: s in fr1.visited && s in fr1.rank ==> s in fr2.rank && fr2.rank[s] == fr1.rank[s])
    && (forall s :: s in fr1.visited && s in fr1.edge ==> s in fr2.edge && fr2.edge[s] == fr1.edge[s])
  }

  /** The `for successor in problem.getSuccessors(...)` loop from the k-th
      successor on. */
  function ExpandFrom<S(==,!new), A(!new)>(p: Problem<S, A>, st: Strategy<S, A>, h: Entry<S>, k: nat, fr: Frame<S, A>): (r: Frame<S, A>)
    requires k <= |p.successors(h.state)|
    ensures r.expanded == fr.expanded
    ensures fr.visited <= r.visited
    ensures |fr.fringe| <= |r.fringe| && r.fringe[..|fr.fringe|] == fr.fringe
    decreases |p.successors(h.state)| - k
  {
    if k == |p.successors(h.state)| then fr
    else ExpandFrom(p, st, h, k + 1, ExpandOne(p, st, h, k, fr))
  }

  /** Exactly the successors from index k on become visited. */
  lemma {:induction false} ExpandFromVisited<S(!new), A(!new)>(p: Problem<S, A>, st: Strategy<S, A>, h: Entry<S>, k: nat, fr: Frame<S, A>)
    requires k <= |p.successors(h.state)|
    ensures ExpandFrom(p, st, h, k, fr).visited == fr.visited + SuccStates(p, h.state, k)
    ensures ExpandFrom(p, st, h, k, fr).expanded == fr.expanded
    decreases |p.successors(h.state)| - k
  {
    if k < |p.successors(h.state)| {
      ExpandFromVisited(p, st, h, k + 1, ExpandOne(p, st, h, k, fr));
      assert SuccStates(p, h.state, k) == {p.successors(h.state)[k].state} + SuccStates(p, h.state, k + 1);
    }
  }

  /** Nothing recorded for an already visited state is overwritten. */
  lemma {:induction false} ExpandFromExtends<S(!new), A(!new)>(p: Problem<S, A>, st: Strategy<S, A>, h: Entry<S>, k: nat, fr: Frame<S, A>)
    requires k <= |p.successors(h.state)|
    ensures Extends(fr, ExpandFrom(p, st, h, k, fr))
    decreases |p.successors(h.state)| - k
  {
    if k < |p.successors(h.state)| {
      var mid := ExpandOne(p, st, h, k, fr);
      ExpandFromExtends(p, st, h, k + 1, mid);
      ExtendsTrans(fr, mid, ExpandFrom(p, st, h, k + 1, mid));
    }
  }

  /** The fringe only grows at its end, and every entry pushed holds a state
      that was not visited before and is visited now. */
  lemma {:induction false} ExpandFromFringe<S(!new), A(!new)>(p: Problem<S, A>, st: Strategy<S, A>, h: Entry<S>, k: nat, fr: Frame<S, A>)
    requires k <= |p.successors(h.state)|
    ensures var r := ExpandFrom(p, st, h, k, fr);
      && |fr.fringe| <= |r.fringe|
      && (forall j :: 0 <= j < |fr.fringe| ==> r.fringe[j] == fr.fringe[j])
      && (forall j :: |fr.fringe| <= j < |r.fringe| ==> r.fringe[j].state in r.visited - fr.visited)
      && (r.visited == fr.visited ==> r.fringe == fr.fringe)
    decreases |p.successors(h.state)| - k
  {
    if k < |p.successors(h.state)| {
      var mid := ExpandOne(p, st, h, k, fr);
      ExpandFromFringe(p, st, h, k + 1, mid);
      ExpandFromVisited(p, st, h, k + 1, mid);
      var r := ExpandFrom(p, st, h, k + 1, mid);
      assert r.visited == fr.visited ==> |r.fringe| == |fr.fringe|;
    }
  }

  lemma ExtendsTrans<S(!new), A(!new)>(fr1: Frame<S, A>, fr2: Frame<S, A>, fr3: Frame<S, A>)
    requires Extends(fr1, fr2) && Extends(fr2, fr3)
    ensures Extends(fr1, fr3)
  {
  }

  lemma ExpandOnePush<S(!new), A(!new)>(p: Problem<S, A>, st: Strategy<S, A>, h: Entry<S>, k: nat, fr: Frame<S, A>)
    requires k < |p.successors(h.state)|
    requires p.successors(h.state)[k].state !in fr.visited
    ensures var t := p.successors(h.state)[k];
            var c := h.cost + t.cost;
            ExpandOne(p, st, h, k, fr)
            == Frame(fr.fringe + [Entry(c, t.state, Priority(st, p, c, t.state))],
                     fr.visited + {t.state},
                     fr.ancestor[t.state := Link(h.state, t.action)],
                     fr.rank[t.state := |fr.log|],
                     fr.edge[t.state := k],
                     fr.log + [t.state],
                     fr.expanded)
  {
  }

  lemma ExpandOneSkip<S(!new), A(!new)>(p: Problem<S, A>, st: Strategy<S, A>, h: Entry<S>, k: nat, fr: Frame<S, A>)
    requires k < |p.successors(h.state)|
    requires p.successors(h.state)[k].state in fr.visited
    ensures ExpandOne(p, st, h, k, fr) == fr
  {
  }

  lemma ExpandFromUnfold<S(!new), A(!new)>(p: Problem<S, A>, st: Strategy<S, A>, h: Entry<S>, k: nat, fr: Frame<S, A>)
    requires k < |p.successors(h.state)|
    ensures ExpandFrom(p, st, h, k, fr) == ExpandFrom(p, st, h, k + 1, ExpandOne(p, st, h, k, fr))
  {
  }

  /** One iteration of the main loop that does not pop a goal: pop by the
      strategy's rule, then expand the popped entry. */
  function Step<S(==,!new), A(!new)>(p: Problem<S, A>, st: Strategy<S, A>, fr: Frame<S, A>): (r: Frame<S, A>)
    requires fr.fringe != []
    ensures r.expanded == fr.expanded + {fr.fringe[PopIndex(st, fr.fringe)].state}
    ensures fr.visited <= r.visited
  {
    var i := PopIndex(st, fr.fringe);
    var h := fr.fringe[i];
    var fr1 := ExpandFrom(p, st, h, 0, fr.(fringe := Remove(fr.fringe, i)));
    fr1.(expanded := fr1.expanded + {h.state})
  }

  lemma SubsetCard<T>(a: set<T>, b: set<T>, u: set<T>)
    requires a <= b <= u && a != b
    ensures |u - b| < |u - a|
  {
    var x :| x in b && x !in a;
    assert u - a == (u - b) + (b - a);
    assert (u - b) * (b - a) == {};
    assert x in b - a;
  }

  lemma ExpandOneSane<S(!new), A(!new)>(p: Problem<S, A>, st: Strategy<S, A>, h: Entry<S>, k: nat, fr: Frame<S, A>)
    requires Sane(p, fr)
    requires h.state == p.start || h.state in fr.visited
    requires k < |p.successors(h.state)|
    ensures Sane(p, ExpandOne(p, st, h, k, fr))
  {
    var t := p.successors(h.state)[k];
    if t.state !in fr.visited {
      ExpandOnePush(p, st, h, k, fr);
      var c := h.cost + t.cost;
      PushSane(p, h.state, k, fr, Entry(c, t.state, Priority(st, p, c, t.state)));
    }
  }

  /** Pushing, marking and recording the k-th successor t of a discovered
      state s that is not yet visited keeps the frame sane. */
  lemma PushSane<S(!new), A(!new)>(p: Problem<S, A>, s: S, k: nat, fr: Frame<S, A>, e: Entry<S>)
    requires Sane(p, fr)
    requires s == p.start || s in fr.visited
    requires k < |p.successors(s)|
    requires e.state == p.successors(s)[k].state && e.state !in fr.visited
    ensures var t := p.successors(s)[k];
            Sane(p, Frame(fr.fringe + [e],
                          fr.visited + {t.state},
                          fr.ancestor[t.state := Link(s, t.action)],
                          fr.rank[t.state := |fr.log|],
                          fr.edge[t.state := k],
                          fr.log + [t.state],
                          fr.expanded))
  {
    var t := p.successors(s)[k];
    var r := Frame(fr.fringe + [e], fr.visited + {t.state}, fr.ancestor[t.state := Link(s, t.action)],
                   fr.rank[t.state := |fr.log|], fr.edge[t.state := k], fr.log + [t.state], fr.expanded);
    assert s in p.universe;
    forall x | x in r.ancestor && x != p.start
      ensures LinkOk(p, r, x)
    {
      if x != t.state {
        assert LinkOk(p, fr, x);
      }
    }
  }

  lemma {:induction false} ExpandFromSane<S(!new), A(!new)>(p: Problem<S, A>, st: Strategy<S, A>, h: Entry<S>, k: nat, fr: Frame<S, A>)
    requires Sane(p, fr)
    requires h.state == p.start || h.state in fr.visited
    requires k <= |p.successors(h.state)|
    ensures Sane(p, ExpandFrom(p, st, h, k, fr))
    decreases |p.successors(h.state)| - k
  {
    if k < |p.successors(h.state)| {
      ExpandOneSane(p, st, h, k, fr);
      ExpandFromSane(p, st, h, k + 1, ExpandOne(p, st, h, k, fr));
    }
  }

  /** Popping an entry keeps the frame sane. */
  lemma RemoveSane<S(!new), A(!new)>(p: Problem<S, A>, fr: Frame<S, A>, i: nat)
    requires Sane(p, fr) && i < |fr.fringe|
    ensures Sane(p, fr.(fringe := Remove(fr.fringe, i)))
  {
    var r := fr.(fringe := Remove(fr.fringe, i));
    forall s | s in r.ancestor && s != p.start
      ensures LinkOk(p, r, s)
    {
      assert LinkOk(p, fr, s);
    }
  }

  lemma MarkSane<S(!new), A(!new)>(p: Problem<S, A>, fr: Frame<S, A>, x: S)
    requires Sane(p, fr)
    ensures Sane(p, fr.(expanded := fr.expanded + {x}))
  {
    var r := fr.(expanded := fr.expanded + {x});
    forall s | s in r.ancestor && s != p.start
      ensures LinkOk(p, r, s)
    {
      assert LinkOk(p, fr, s);
    }
  }

  /** A step keeps the frame sane and makes progress: either a new state is
      visited, or the fringe shrinks. */
  lemma StepSane<S(!new), A(!new)>(p: Problem<S, A>, st: Strategy<S, A>, fr: Frame<S, A>)
    requires Sane(p, fr) && fr.fringe != []
    ensures Sane(p, Step(p, st, fr))
    ensures |p.universe - Step(p, st, fr).visited| < |p.universe - fr.visited|
         || (Step(p, st, fr).visited == fr.visited && |Step(p, st, fr).fringe| < |fr.fringe|)
  {
    var i := PopIndex(st, fr.fringe);
    var h := fr.fringe[i];
    var fr0 := fr.(fringe := Remove(fr.fringe, i));
    RemoveSane(p, fr, i);
    ExpandFromSane(p, st, h, 0, fr0);
    var fr1 := ExpandFrom(p, st, h, 0, fr0);
    ExpandFromVisited(p, st, h, 0, fr0);
    ExpandFromFringe(p, st, h, 0, fr0);
    MarkSane(p, fr1, h.state);
    if fr1.visited != fr.visited {
      SubsetCard(fr.visited, fr1.visited, p.universe);
    }
  }

  /** The main `while not fringe.isEmpty()` loop from frame fr to its end. */
  function Loop<S(==,!new), A(!new)>(p: Problem<S, A>, st: Strategy<S, A>, fr: Frame<S, A>): (r: Outcome<A>)
    requires Sane(p, fr)
    ensures r.NoPlan? ==> p.isGoal(p.start)
    ensures r.Plan? ==> r.actions != []
    decreases |p.universe - fr.visited|, |fr.fringe|
  {
    if fr.fringe == [] then NotFound
    else
      var h := fr.fringe[PopIndex(st, fr.fringe)];
      if p.isGoal(h.state) then Finish(p, fr, h.state)
      else
        StepSane(p, st, fr);
        Loop(p, st, Step(p, st, fr))
  }

  /** How Loop unfolds once: on a goal pop it finishes, otherwise it continues
      from the frame after one Step. */
  lemma LoopUnfold<S(!new), A(!new)>(p: Problem<S, A>, st: Strategy<S, A>, fr: Frame<S, A>)
    requires Sane(p, fr) && fr.fringe != []
    ensures var h := fr.fringe[PopIndex(st, fr.fringe)];
            && (h.state == p.start || h.state in fr.visited)
            && (p.isGoal(h.state) ==> Loop(p, st, fr) == Finish(p, fr, h.state))
            && (!p.isGoal(h.state) ==> Sane(p, Step(p, st, fr)) && Loop(p, st, fr) == Loop(p, st, Step(p, st, fr)))
  {
    StepSane(p, st, fr);
  }

  /** The frame before the loop: the start state pushed with cost 0 and
      priority 0 (the heuristic is not consulted for it), nothing
      visited (the start is not inserted into `visited`), no ancestors. */
  function Init<S(==,!new), A(!new)>(p: Problem<S, A>, st: Strategy<S, A>): (r: Frame<S, A>)
    ensures |r.fringe| == 1 && r.fringe[0].state == p.start
    ensures forall i :: 0 <= i < |r.fringe| ==> r.fringe[i].cost == 0 && r.fringe[i].priority == 0
    ensures r.visited == {} && r.ancestor == map[] && r.expanded == {}
    ensures WellFormed(p) ==> Sane(p, r)
  {
    Frame([Entry(0, p.start, 0)], {}, map[], map[], map[], [], {})
  }

  /** A complete search call with strategy st. */
  function Search<S(==,!new), A(!new)>(p: Problem<S, A>, st: Strategy<S, A>): (r: Outcome<A>)
    requires WellFormed(p)
    ensures r.NoPlan? ==> p.isGoal(p.start)
    ensures r.Plan? ==> r.actions != []
  {
    Loop(p, st, Init(p, st))
  }
}
