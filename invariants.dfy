/** Invariants of the main loop shared by the four searches: what is pushed,
    marked and recorded together in the `for successor` loop, that every
    discovered state is either expanded or waiting on the fringe, that expanded
    states have all their successors discovered, and the cost bookkeeping of
    the fringe entries. Each is proved to hold initially and to survive a Step. */
module Invariants {
  import opened Problems
  import opened Fringes
  import opened GraphSearch

  /** e was pushed while expanding the popped entry h on the way from fr to r:
      its state was unvisited in fr, its ancestor entry in r names h's state
      and one of h's successor triples, and its cost and priority come from that
      triple's step cost. */
  ghost predicate NewEntry<S(!new), A(!new)>(p: Problem<S, A>, st: Strategy<S, A>, h: Entry<S>,
                                             fr: Frame<S, A>, r: Frame<S, A>, e: Entry<S>) {
    && e.state in r.visited && e.state !in fr.visited
    && e.state in r.ancestor && e.state in r.edge
    && r.ancestor[e.state].parent == h.state
    && r.edge[e.state] < |p.successors(h.state)|
    && p.successors(h.state)[r.edge[e.state]].state == e.state
    && e.cost == h.cost + p.successors(h.state)[r.edge[e.state]].cost
    && e.priority == Priority(st, p, e.cost, e.state)
  }

  lemma NewEntryWeaken<S(!new), A(!new)>(p: Problem<S, A>, st: Strategy<S, A>, h: Entry<S>,
                                          fr: Frame<S, A>, mid: Frame<S, A>, r: Frame<S, A>, e: Entry<S>)
    requires fr.visited <= mid.visited && NewEntry(p, st, h, mid, r, e)
    ensures NewEntry(p, st, h, fr, r, e)
  {
  }

  /** The entry pushed for the k-th successor stays a NewEntry in every frame
      that extends the one right after the push. */
  lemma PushedEntry<S(!new), A(!new)>(p: Problem<S, A>, st: Strategy<S, A>, h: Entry<S>, k: nat,
                                      fr: Frame<S, A>, r: Frame<S, A>)
    requires k < |p.successors(h.state)| && p.successors(h.state)[k].state !in fr.visited
    requires Extends(ExpandOne(p, st, h, k, fr), r)
    ensures |ExpandOne(p, st, h, k, fr).fringe| == |fr.fringe| + 1
    ensures fr.visited <= ExpandOne(p, st, h, k, fr).visited
    ensures NewEntry(p, st, h, fr, r, ExpandOne(p, st, h, k, fr).fringe[|fr.fringe|])
  {
    ExpandOnePush(p, st, h, k, fr);
  }

  /** Every entry the `for successor` loop pushes is a NewEntry. */
  lemma {:induction false} ExpandFromNew<S(!new), A(!new)>(p: Problem<S, A>, st: Strategy<S, A>, h: Entry<S>, k: nat, fr: Frame<S, A>)
    requires k <= |p.successors(h.state)|
    ensures var r := ExpandFrom(p, st, h, k, fr);
      forall j :: |fr.fringe| <= j < |r.fringe| ==> NewEntry(p, st, h, fr, r, r.fringe[j])
    decreases |p.successors(h.state)| - k, 1
  {
    if k < |p.successors(h.state)| {
      if p.successors(h.state)[k].state !in fr.visited {
        ExpandFromNewPush(p, st, h, k, fr);
      } else {
        ExpandOneSkip(p, st, h, k, fr);
        ExpandFromUnfold(p, st, h, k, fr);
        ExpandFromNew(p, st, h, k + 1, fr);
      }
    }
  }

  /** ExpandFromNew when the k-th successor is pushed. */
  lemma {:induction false} ExpandFromNewPush<S(!new), A(!new)>(p: Problem<S, A>, st: Strategy<S, A>, h: Entry<S>, k: nat, fr: Frame<S, A>)
    requires k < |p.successors(h.state)|
    requires p.successors(h.state)[k].state !in fr.visited
    ensures var r := ExpandFrom(p, st, h, k, fr);
      forall j :: |fr.fringe| <= j < |r.fringe| ==> NewEntry(p, st, h, fr, r, r.fringe[j])
    decreases |p.successors(h.state)| - k, 0
  {
    var mid := ExpandOne(p, st, h, k, fr);
    var r := ExpandFrom(p, st, h, k + 1, mid);
    ExpandFromNew(p, st, h, k + 1, mid);
    ExpandFromFringe(p, st, h, k + 1, mid);
    ExpandFromExtends(p, st, h, k + 1, mid);
    PushedEntry(p, st, h, k, fr, r);
    forall j | |fr.fringe| <= j < |r.fringe|
      ensures NewEntry(p, st, h, fr, r, r.fringe[j])
    {
      if j == |fr.fringe| {
        assert r.fringe[j] == mid.fringe[j];
      } else {
        NewEntryWeaken(p, st, h, fr, mid, r, r.fringe[j]);
      }
    }
  }

  /** Every state the `for successor` loop marks visited has been pushed. */
  lemma {:induction false} ExpandFromPushed<S(!new), A(!new)>(p: Problem<S, A>, st: Strategy<S, A>, h: Entry<S>, k: nat, fr: Frame<S, A>)
    requires k <= |p.successors(h.state)|
    ensures var r := ExpandFrom(p, st, h, k, fr);
      forall s :: s in r.visited && s !in fr.visited ==> s in States(r.fringe)
    decreases |p.successors(h.state)| - k
  {
    if k < |p.successors(h.state)| {
      var mid := ExpandOne(p, st, h, k, fr);
      var r := ExpandFrom(p, st, h, k + 1, mid);
      ExpandFromPushed(p, st, h, k + 1, mid);
      var t := p.successors(h.state)[k];
      if t.state !in fr.visited {
        ExpandFromFringe(p, st, h, k + 1, mid);
        ExpandOnePush(p, st, h, k, fr);
        assert r.fringe[|fr.fringe|].state == t.state;
        assert t.state in States(r.fringe);
      } else {
        ExpandOneSkip(p, st, h, k, fr);
      }
    }
  }

  /** The push log never repeats a state and holds only visited states: each
      state is pushed, marked and recorded at most once. */
  ghost predicate LogOk<S(!new), A(!new)>(fr: Frame<S, A>) {
    && (forall i :: 0 <= i < |fr.log| ==> fr.log[i] in fr.visited)
    && (forall i, j :: 0 <= i < j < |fr.log| ==> fr.log[i] != fr.log[j])
  }

  lemma {:induction false} ExpandFromLog<S(!new), A(!new)>(p: Problem<S, A>, st: Strategy<S, A>, h: Entry<S>, k: nat, fr: Frame<S, A>)
    requires k <= |p.successors(h.state)|
    requires LogOk(fr)
    ensures LogOk(ExpandFrom(p, st, h, k, fr))
    decreases |p.successors(h.state)| - k
  {
    if k < |p.successors(h.state)| {
      var t := p.successors(h.state)[k];
      if t.state !in fr.visited {
        ExpandOnePush(p, st, h, k, fr);
      } else {
        ExpandOneSkip(p, st, h, k, fr);
      }
      ExpandFromLog(p, st, h, k + 1, ExpandOne(p, st, h, k, fr));
    }
  }

  /** The recorded chain of a state does not change once the state is visited. */
  lemma {:induction false} ChainStable<S(!new), A(!new)>(p: Problem<S, A>, fr1: Frame<S, A>, fr2: Frame<S, A>, s: S)
    requires Sane(p, fr1) && Sane(p, fr2) && Extends(fr1, fr2)
    requires s == p.start || s in fr1.visited
    ensures ChainEdges(p, fr2, s) == ChainEdges(p, fr1, s)
    decreases if s == p.start then 0 else fr1.rank[s] + 1
  {
    if s != p.start {
      ChainUnfold(p, fr1, s);
      ChainUnfold(p, fr2, s);
      ChainStable(p, fr1, fr2, fr1.ancestor[s].parent);
    }
  }

  /** What one Step does to a frame, as facts about the frame r it produces:
      the popped state becomes expanded, exactly its successors join the
      visited states, the rest of the fringe keeps its order and is followed by
      the new entries, every newly visited state is pushed, and nothing
      recorded is overwritten. */
  ghost predicate StepFacts<S(!new), A(!new)>(p: Problem<S, A>, st: Strategy<S, A>, fr: Frame<S, A>, r: Frame<S, A>)
    requires fr.fringe != []
  {
    var i := PopIndex(st, fr.fringe);
    var h := fr.fringe[i];
    var rest := Remove(fr.fringe, i);
    && r.expanded == fr.expanded + {h.state}
    && r.visited == fr.visited + SuccStates(p, h.state, 0)
    && |rest| <= |r.fringe|
    && (forall j :: 0 <= j < |rest| ==> r.fringe[j] == rest[j])
    && (forall j :: |rest| <= j < |r.fringe| ==> NewEntry(p, st, h, fr, r, r.fringe[j]))
    && (forall s :: s in r.visited && s !in fr.visited ==> s in States(r.fringe))
    && (r.visited == fr.visited ==> |r.fringe| == |rest|)
    && Extends(fr, r)
  }

  /** The same facts about one run of the `for successor` loop from fr to r,
      stated for the frame after the pop. They are spelled out a second time,
      rather than StepFacts being defined through them, so that each proof that
      converts one into the other (StepFactsFrom) stays small enough for the
      verifier. */
  ghost predicate ExpandFacts<S(!new), A(!new)>(p: Problem<S, A>, st: Strategy<S, A>, h: Entry<S>, fr: Frame<S, A>, r: Frame<S, A>) {
    && r.expanded == fr.expanded
    && r.visited == fr.visited + SuccStates(p, h.state, 0)
    && |fr.fringe| <= |r.fringe|
    && (forall j :: 0 <= j < |fr.fringe| ==> r.fringe[j] == fr.fringe[j])
    && (forall j :: |fr.fringe| <= j < |r.fringe| ==> NewEntry(p, st, h, fr, r, r.fringe[j]))
    && (forall s :: s in r.visited && s !in fr.visited ==> s in States(r.fringe))
    && (r.visited == fr.visited ==> |r.fringe| == |fr.fringe|)
    && Extends(fr, r)
  }

  lemma ExpandFactsHold<S(!new), A(!new)>(p: Problem<S, A>, st: Strategy<S, A>, h: Entry<S>, fr: Frame<S, A>)
    ensures ExpandFacts(p, st, h, fr, ExpandFrom(p, st, h, 0, fr))
  {
    ExpandFromVisited(p, st, h, 0, fr);
    ExpandFromFringe(p, st, h, 0, fr);
    ExpandFromNew(p, st, h, 0, fr);
    ExpandFromPushed(p, st, h, 0, fr);
    ExpandFromExtends(p, st, h, 0, fr);
  }

  /** Marking the popped state expanded turns the loop's facts into a Step's. */
  lemma StepFactsFrom<S(!new), A(!new)>(p: Problem<S, A>, st: Strategy<S, A>, fr: Frame<S, A>, r: Frame<S, A>)
    requires fr.fringe != []
    requires ExpandFacts(p, st, fr.fringe[PopIndex(st, fr.fringe)], fr.(fringe := Remove(fr.fringe, PopIndex(st, fr.fringe))), r)
    ensures StepFacts(p, st, fr, r.(expanded := r.expanded + {fr.fringe[PopIndex(st, fr.fringe)].state}))
  {
  }

  lemma StepFactsHold<S(!new), A(!new)>(p: Problem<S, A>, st: Strategy<S, A>, fr: Frame<S, A>)
    requires fr.fringe != []
    ensures StepFacts(p, st, fr, Step(p, st, fr))
  {
    var i := PopIndex(st, fr.fringe);
    var fr0 := fr.(fringe := Remove(fr.fringe, i));
    ExpandFactsHold(p, st, fr.fringe[i], fr0);
    StepFactsFrom(p, st, fr, ExpandFrom(p, st, fr.fringe[i], 0, fr0));
  }

  /** Every expanded state has had all its successors discovered. */
  ghost predicate Closed<S(!new), A(!new)>(p: Problem<S, A>, fr: Frame<S, A>) {
    forall x, k :: x in fr.expanded && 0 <= k < |p.successors(x)| ==> p.successors(x)[k].state in fr.visited
  }

  /** Every discovered state (and the start) has been expanded or waits on the
      fringe. */
  ghost predicate Covered<S(!new), A(!new)>(p: Problem<S, A>, fr: Frame<S, A>) {
    forall s :: (s == p.start || s in fr.visited) ==> s in fr.expanded || s in States(fr.fringe)
  }

  /** Only discovered states, and the start, are expanded, and never a goal. */
  ghost predicate ExpandedOk<S(!new), A(!new)>(p: Problem<S, A>, st: Strategy<S, A>, fr: Frame<S, A>) {
    && (forall x :: x in fr.expanded ==> !p.isGoal(x) && (x == p.start || x in fr.visited))
    && (p.start !in fr.expanded ==> fr == Init(p, st))
  }

  /** The cost bookkeeping of one fringe entry: a non-start entry was pushed
      with the priority its strategy gives its cost, and that cost is the path
      cost of the recorded chain of its state; a start entry has cost and
      priority 0 unless it is a re-push made after the start was expanded, which
      still carries its strategy's priority for its cost. */
  ghost predicate CostOk<S(!new), A(!new)>(p: Problem<S, A>, st: Strategy<S, A>, fr: Frame<S, A>, e: Entry<S>)
    requires Sane(p, fr) && (e.state == p.start || e.state in fr.visited)
  {
    && (e.state != p.start ==> e.priority == Priority(st, p, e.cost, e.state) && e.cost == PathCost(ChainEdges(p, fr, e.state)))
    && (e.state == p.start ==>
          (e.cost == 0 && e.priority == 0) || (p.start in fr.expanded && e.priority == Priority(st, p, e.cost, e.state)))
  }

  ghost predicate Costs<S(!new), A(!new)>(p: Problem<S, A>, st: Strategy<S, A>, fr: Frame<S, A>)
    requires Sane(p, fr)
  {
    forall j :: 0 <= j < |fr.fringe| ==> CostOk(p, st, fr, fr.fringe[j])
  }

  /** The invariant of the main loop. */
  ghost predicate Inv<S(!new), A(!new)>(p: Problem<S, A>, st: Strategy<S, A>, fr: Frame<S, A>) {
    && Sane(p, fr)
    && LogOk(fr)
    && Closed(p, fr)
    && Covered(p, fr)
    && ExpandedOk(p, st, fr)
    && Costs(p, st, fr)
  }

  lemma InitInv<S(!new), A(!new)>(p: Problem<S, A>, st: Strategy<S, A>)
    requires WellFormed(p)
    ensures Inv(p, st, Init(p, st))
  {
    var fr := Init(p, st);
    assert fr.fringe[0].state in States(fr.fringe);
  }

  lemma StepLog<S(!new), A(!new)>(p: Problem<S, A>, st: Strategy<S, A>, fr: Frame<S, A>)
    requires fr.fringe != [] && LogOk(fr)
    ensures LogOk(Step(p, st, fr))
  {
    var i := PopIndex(st, fr.fringe);
    ExpandFromLog(p, st, fr.fringe[i], 0, fr.(fringe := Remove(fr.fringe, i)));
  }

  lemma ClosedAfter<S(!new), A(!new)>(p: Problem<S, A>, st: Strategy<S, A>, fr: Frame<S, A>, r: Frame<S, A>)
    requires fr.fringe != [] && Closed(p, fr) && StepFacts(p, st, fr, r)
    ensures Closed(p, r)
  {
    var h := fr.fringe[PopIndex(st, fr.fringe)];
    forall x, k | x in r.expanded && 0 <= k < |p.successors(x)|
      ensures p.successors(x)[k].state in r.visited
    {
      if x == h.state {
        assert p.successors(x)[k].state in SuccStates(p, h.state, 0);
      }
    }
  }

  lemma CoveredAfter<S(!new), A(!new)>(p: Problem<S, A>, st: Strategy<S, A>, fr: Frame<S, A>, r: Frame<S, A>)
    requires fr.fringe != [] && Covered(p, fr) && StepFacts(p, st, fr, r)
    ensures Covered(p, r)
  {
    var i := PopIndex(st, fr.fringe);
    var h := fr.fringe[i];
    var rest := Remove(fr.fringe, i);
    forall s | s == p.start || s in r.visited
      ensures s in r.expanded || s in States(r.fringe)
    {
      if (s == p.start || s in fr.visited) && s !in fr.expanded && s != h.state {
        var j :| 0 <= j < |fr.fringe| && fr.fringe[j].state == s;
        var j' := if j < i then j else j - 1;
        assert rest[j'] == fr.fringe[j];
        assert r.fringe[j'] == rest[j'];
        assert r.fringe[j'].state in States(r.fringe);
      }
    }
  }

  /** The entry popped from the initial frame is the start entry. */
  lemma InitPop<S(!new), A(!new)>(p: Problem<S, A>, st: Strategy<S, A>)
    ensures PopIndex(st, Init(p, st).fringe) == 0
    ensures Init(p, st).fringe[0].state == p.start
  {
  }

  /** A Step that does not pop a goal expands a discovered state (or the
      start), and from the first Step on the start counts as expanded. */
  lemma ExpandedAfter<S(!new), A(!new)>(p: Problem<S, A>, st: Strategy<S, A>, fr: Frame<S, A>, r: Frame<S, A>)
    requires Sane(p, fr) && ExpandedOk(p, st, fr) && fr.fringe != [] && StepFacts(p, st, fr, r)
    requires !p.isGoal(fr.fringe[PopIndex(st, fr.fringe)].state)
    ensures ExpandedOk(p, st, r)
    ensures p.start in r.expanded
  {
    if p.start !in fr.expanded {
      InitPop(p, st);
    }
  }

  lemma PathCostSnoc<S, A>(w: seq<Successor<S, A>>, e: Successor<S, A>)
    ensures PathCost(w + [e]) == PathCost(w) + e.cost
  {
    assert (w + [e])[..|w|] == w;
  }

  /** An entry that stays on the fringe keeps its cost bookkeeping. */
  lemma KeptCost<S(!new), A(!new)>(p: Problem<S, A>, st: Strategy<S, A>, fr: Frame<S, A>, r: Frame<S, A>, e: Entry<S>)
    requires Sane(p, fr) && Sane(p, r) && Extends(fr, r) && fr.expanded <= r.expanded
    requires e.state == p.start || e.state in fr.visited
    requires CostOk(p, st, fr, e)
    ensures CostOk(p, st, r, e)
  {
    if e.state != p.start {
      ChainStable(p, fr, r, e.state);
    }
  }

  /** An entry pushed for a successor of h gets the right cost bookkeeping
      when h's cost is the path cost of its own chain. */
  lemma PushedCost<S(!new), A(!new)>(p: Problem<S, A>, st: Strategy<S, A>, h: Entry<S>,
                                      fr: Frame<S, A>, r: Frame<S, A>, e: Entry<S>)
    requires Sane(p, r) && NewEntry(p, st, h, fr, r, e) && p.start in r.expanded
    requires h.state == p.start || h.state in r.visited
    requires h.cost == PathCost(ChainEdges(p, r, h.state))
    ensures CostOk(p, st, r, e)
  {
    if e.state != p.start {
      ChainUnfold(p, r, e.state);
      PathCostSnoc(ChainEdges(p, r, h.state), p.successors(h.state)[r.edge[e.state]]);
    }
  }

  /** The popped entry pushes anything only if its cost is the path cost of
      its state's chain: a start entry re-pushed after the start was expanded
      finds every successor visited already. */
  lemma PopCost<S(!new), A(!new)>(p: Problem<S, A>, st: Strategy<S, A>, fr: Frame<S, A>, r: Frame<S, A>)
    requires Inv(p, st, fr) && fr.fringe != [] && StepFacts(p, st, fr, r) && Sane(p, r)
    ensures var i := PopIndex(st, fr.fringe);
            var h := fr.fringe[i];
            |r.fringe| == |fr.fringe| - 1 || h.cost == PathCost(ChainEdges(p, r, h.state))
  {
    var i := PopIndex(st, fr.fringe);
    var h := fr.fringe[i];
    assert CostOk(p, st, fr, h);
    if h.state == p.start && p.start in fr.expanded {
      forall x | x in SuccStates(p, h.state, 0)
        ensures x in fr.visited
      {
        var k :| 0 <= k < |p.successors(h.state)| && p.successors(h.state)[k].state == x;
      }
    } else if h.state != p.start {
      ChainStable(p, fr, r, h.state);
    }
  }

  lemma CostsAfter<S(!new), A(!new)>(p: Problem<S, A>, st: Strategy<S, A>, fr: Frame<S, A>, r: Frame<S, A>)
    requires Inv(p, st, fr) && fr.fringe != [] && StepFacts(p, st, fr, r)
    requires Sane(p, r) && p.start in r.expanded
    ensures Costs(p, st, r)
  {
    var i := PopIndex(st, fr.fringe);
    var h := fr.fringe[i];
    var rest := Remove(fr.fringe, i);
    PopCost(p, st, fr, r);
    forall j | 0 <= j < |r.fringe|
      ensures CostOk(p, st, r, r.fringe[j])
    {
      if j < |rest| {
        var j' := if j < i then j else j + 1;
        assert r.fringe[j] == fr.fringe[j'];
        KeptCost(p, st, fr, r, r.fringe[j]);
      } else {
        PushedCost(p, st, h, fr, r, r.fringe[j]);
      }
    }
  }

  /** A Step that does not pop a goal keeps the invariant. */
  lemma StepInv<S(!new), A(!new)>(p: Problem<S, A>, st: Strategy<S, A>, fr: Frame<S, A>)
    requires Inv(p, st, fr) && fr.fringe != []
    requires !p.isGoal(fr.fringe[PopIndex(st, fr.fringe)].state)
    ensures Inv(p, st, Step(p, st, fr))
  {
    var r := Step(p, st, fr);
    StepFactsHold(p, st, fr);
    StepSane(p, st, fr);
    StepLog(p, st, fr);
    ClosedAfter(p, st, fr, r);
    CoveredAfter(p, st, fr, r);
    ExpandedAfter(p, st, fr, r);
    CostsAfter(p, st, fr, r);
  }
}
