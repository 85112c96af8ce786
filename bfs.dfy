/** breadthFirstSearch returns a plan with the fewest actions: the queue holds
    states in order of the length of their recorded chain, and those lengths
    differ by at most one across the queue. */
module Shortest {
  import opened Problems
  import opened Fringes
  import opened GraphSearch
  import opened Invariants

  /** The number of actions on the recorded chain of s. */
  ghost function Depth<S(!new), A(!new)>(p: Problem<S, A>, fr: Frame<S, A>, s: S): nat
    requires Sane(p, fr) && (s == p.start || s in fr.visited)
  {
    |ChainEdges(p, fr, s)|
  }

  /** The depth of a fringe state, with -1 standing for the start, whose
      re-pushed entries push nothing when popped. */
  ghost function Key<S(!new), A(!new)>(p: Problem<S, A>, fr: Frame<S, A>, s: S): int
    requires Sane(p, fr) && (s == p.start || s in fr.visited)
  {
    if s == p.start then -1 else Depth(p, fr, s)
  }

  /** The keys of the fringe entries, front to back. */
  ghost function Keys<S(!new), A(!new)>(p: Problem<S, A>, fr: Frame<S, A>): (ks: seq<int>)
    requires Sane(p, fr)
    ensures |ks| == |fr.fringe|
    ensures forall j :: 0 <= j < |ks| ==> ks[j] == Key(p, fr, fr.fringe[j].state)
  {
    seq(|fr.fringe|, j => if 0 <= j < |fr.fringe| then Key(p, fr, fr.fringe[j].state) else -1)
  }

  /** Ignoring the -1 keys, the keys never decrease from front to back and
      grow by at most one overall. */
  ghost predicate Layered(ks: seq<int>) {
    forall i, j :: 0 <= i < j < |ks| && ks[i] >= 0 && ks[j] >= 0 ==> ks[i] <= ks[j] <= ks[i] + 1
  }

  /** No expanded state is deeper than a queued one. */
  ghost predicate Shallow<S(!new), A(!new)>(p: Problem<S, A>, fr: Frame<S, A>)
    requires Sane(p, fr)
  {
    forall x, j :: x in fr.expanded && (x == p.start || x in fr.visited) && 0 <= j < |fr.fringe| && Keys(p, fr)[j] >= 0
      ==> Depth(p, fr, x) <= Keys(p, fr)[j]
  }

  /** A discovered successor of an expanded state is at most one deeper. */
  ghost predicate SuccDepth<S(!new), A(!new)>(p: Problem<S, A>, fr: Frame<S, A>)
    requires Sane(p, fr)
  {
    forall x, k :: x in fr.expanded && (x == p.start || x in fr.visited) && 0 <= k < |p.successors(x)| && p.successors(x)[k].state in fr.visited
      ==> Depth(p, fr, p.successors(x)[k].state) <= Depth(p, fr, x) + 1
  }

  /** The breadth-first invariant. */
  ghost predicate BfsInv<S(!new), A(!new)>(p: Problem<S, A>, fr: Frame<S, A>)
    requires Sane(p, fr)
  {
    Layered(Keys(p, fr)) && Shallow(p, fr) && SuccDepth(p, fr)
  }

  /** The queue discipline on keys: dropping the front key d and appending
      keys that are -1 or d + 1 keeps the keys layered, and every new key is at
      least d. */
  lemma LayeredStep(ks: seq<int>, ks': seq<int>, d: int)
    requires ks != [] && Layered(ks) && d >= 0
    requires forall j :: 1 <= j < |ks| && ks[j] >= 0 ==> d <= ks[j] <= d + 1
    requires |ks| - 1 <= |ks'|
    requires forall j :: 0 <= j < |ks| - 1 ==> ks'[j] == ks[j + 1]
    requires forall j :: |ks| - 1 <= j < |ks'| ==> ks'[j] == -1 || ks'[j] == d + 1
    ensures Layered(ks')
    ensures forall j :: 0 <= j < |ks'| && ks'[j] >= 0 ==> d <= ks'[j]
  {
    var n := |ks| - 1;
    forall i, j | 0 <= i < j < |ks'| && ks'[i] >= 0 && ks'[j] >= 0
      ensures ks'[i] <= ks'[j] <= ks'[i] + 1
    {
      if j < n {
        assert ks'[i] == ks[i + 1] && ks'[j] == ks[j + 1];
      } else if i < n {
        assert ks'[i] == ks[i + 1];
      }
    }
    forall j | 0 <= j < |ks'| && ks'[j] >= 0
      ensures d <= ks'[j]
    {
      if j < n {
        assert ks'[j] == ks[j + 1];
      }
    }
  }

  lemma InitBfs<S(!new), A(!new)>(p: Problem<S, A>)
    requires WellFormed(p)
    ensures Sane(p, Init(p, BreadthFirst)) && BfsInv(p, Init(p, BreadthFirst))
  {
    InitInv(p, BreadthFirst);
  }

  /** Depths of states discovered before a Step do not change. */
  lemma DepthsKept<S(!new), A(!new)>(p: Problem<S, A>, fr: Frame<S, A>, r: Frame<S, A>)
    requires Sane(p, fr) && Sane(p, r) && Extends(fr, r)
    ensures forall x :: (x == p.start || x in fr.visited) ==> Depth(p, r, x) == Depth(p, fr, x)
  {
    forall x | x == p.start || x in fr.visited
      ensures Depth(p, r, x) == Depth(p, fr, x)
    {
      ChainStable(p, fr, r, x);
    }
  }

  /** A state pushed for a successor of h is one deeper than h. */
  lemma NewDepth<S(!new), A(!new)>(p: Problem<S, A>, st: Strategy<S, A>, h: Entry<S>,
                                    fr: Frame<S, A>, r: Frame<S, A>, e: Entry<S>)
    requires Sane(p, r) && NewEntry(p, st, h, fr, r, e) && e.state != p.start
    requires h.state == p.start || h.state in r.visited
    ensures Depth(p, r, e.state) == Depth(p, r, h.state) + 1
  {
    ChainUnfold(p, r, e.state);
  }

  /** After a breadth-first Step the entries behind the popped front keep
      their keys. */
  lemma KeysKept<S(!new), A(!new)>(p: Problem<S, A>, fr: Frame<S, A>, r: Frame<S, A>)
    requires Sane(p, fr) && fr.fringe != [] && StepFacts(p, BreadthFirst, fr, r) && Sane(p, r)
    ensures forall j :: 0 <= j < |fr.fringe| - 1 ==> r.fringe[j] == fr.fringe[j + 1]
    ensures |fr.fringe| - 1 <= |r.fringe|
    ensures forall j :: 0 <= j < |fr.fringe| - 1 ==> Keys(p, r)[j] == Keys(p, fr)[j + 1]
  {
    DepthsKept(p, fr, r);
    var ks, ks' := Keys(p, fr), Keys(p, r);
    forall j | 0 <= j < |fr.fringe| - 1
      ensures ks'[j] == ks[j + 1]
    {
      assert r.fringe[j] == fr.fringe[j + 1];
    }
  }

  /** After a breadth-first Step the pushed entries have key -1 or one more
      than the depth of the popped front. */
  lemma KeysPushed<S(!new), A(!new)>(p: Problem<S, A>, fr: Frame<S, A>, r: Frame<S, A>)
    requires Sane(p, fr) && fr.fringe != [] && StepFacts(p, BreadthFirst, fr, r) && Sane(p, r)
    ensures forall j :: |fr.fringe| - 1 <= j < |r.fringe|
              ==> Keys(p, r)[j] == -1 || Keys(p, r)[j] == Depth(p, fr, fr.fringe[0].state) + 1
  {
    var h := fr.fringe[0];
    ChainStable(p, fr, r, h.state);
    forall j | |fr.fringe| - 1 <= j < |r.fringe| && r.fringe[j].state != p.start
      ensures Keys(p, r)[j] == Depth(p, fr, h.state) + 1
    {
      NewDepth(p, BreadthFirst, h, fr, r, r.fringe[j]);
    }
  }

  /** Popping the front h of a breadth-first frame pushes something only if h
      is not the start, or if it is the very first pop. */
  ghost predicate LivePop<S(!new), A(!new)>(p: Problem<S, A>, fr: Frame<S, A>)
    requires fr.fringe != []
  {
    fr.fringe[0].state != p.start || (|fr.fringe| == 1 && fr.visited == {} && fr.expanded == {})
  }

  /** The queued keys lie between the depth of the front and one more. */
  lemma FrontBound<S(!new), A(!new)>(p: Problem<S, A>, fr: Frame<S, A>)
    requires Sane(p, fr) && fr.fringe != [] && Layered(Keys(p, fr)) && LivePop(p, fr)
    ensures var ks := Keys(p, fr);
            var d := Depth(p, fr, fr.fringe[0].state);
            forall j :: 1 <= j < |ks| && ks[j] >= 0 ==> d <= ks[j] <= d + 1
  {
    var ks := Keys(p, fr);
    if fr.fringe[0].state != p.start {
      assert ks[0] == Depth(p, fr, fr.fringe[0].state);
    }
  }

  lemma LayeredAfter<S(!new), A(!new)>(p: Problem<S, A>, fr: Frame<S, A>, r: Frame<S, A>)
    requires Sane(p, fr) && fr.fringe != [] && StepFacts(p, BreadthFirst, fr, r) && Sane(p, r)
    requires Layered(Keys(p, fr)) && LivePop(p, fr)
    ensures Layered(Keys(p, r))
    ensures forall j :: 0 <= j < |r.fringe| && Keys(p, r)[j] >= 0 ==> Depth(p, fr, fr.fringe[0].state) <= Keys(p, r)[j]
  {
    KeysKept(p, fr, r);
    KeysPushed(p, fr, r);
    FrontBound(p, fr);
    LayeredStep(Keys(p, fr), Keys(p, r), Depth(p, fr, fr.fringe[0].state));
  }

  lemma ShallowAfter<S(!new), A(!new)>(p: Problem<S, A>, fr: Frame<S, A>, r: Frame<S, A>)
    requires Sane(p, fr) && fr.fringe != [] && StepFacts(p, BreadthFirst, fr, r) && Sane(p, r)
    requires ExpandedOk(p, BreadthFirst, fr) && Layered(Keys(p, fr)) && Shallow(p, fr) && LivePop(p, fr)
    ensures Shallow(p, r)
  {
    LayeredAfter(p, fr, r);
    DepthsKept(p, fr, r);
    var h := fr.fringe[0];
    var d := Depth(p, fr, h.state);
    forall x | x in r.expanded
      ensures (x == p.start || x in fr.visited) && Depth(p, fr, x) <= d
    {
      if x != h.state {
        assert Keys(p, fr)[0] == d;
      }
    }
  }

  /** Successors of states expanded before the Step keep their depth bound. */
  lemma SuccDepthOld<S(!new), A(!new)>(p: Problem<S, A>, fr: Frame<S, A>, r: Frame<S, A>)
    requires Sane(p, fr) && fr.fringe != [] && StepFacts(p, BreadthFirst, fr, r) && Sane(p, r)
    requires Closed(p, fr) && SuccDepth(p, fr)
    ensures forall x, k :: x in fr.expanded && (x == p.start || x in fr.visited) && 0 <= k < |p.successors(x)|
              ==> p.successors(x)[k].state in fr.visited
                  && Depth(p, r, p.successors(x)[k].state) <= Depth(p, r, x) + 1
  {
    DepthsKept(p, fr, r);
  }

  /** A successor y of the popped front h that was discovered before the Step
      is at most one deeper than h: it is expanded, hence no deeper than h, or
      it waits on the queue, hence at most one deeper. */
  lemma SuccDepthSeen<S(!new), A(!new)>(p: Problem<S, A>, fr: Frame<S, A>, y: S)
    requires Sane(p, fr) && fr.fringe != [] && fr.fringe[0].state != p.start
    requires Covered(p, fr) && Layered(Keys(p, fr)) && Shallow(p, fr)
    requires y in fr.visited && y != p.start
    ensures Depth(p, fr, y) <= Depth(p, fr, fr.fringe[0].state) + 1
  {
    var ks := Keys(p, fr);
    assert ks[0] == Depth(p, fr, fr.fringe[0].state);
    if y !in fr.expanded {
      var j :| 0 <= j < |fr.fringe| && fr.fringe[j].state == y;
      assert ks[j] == Depth(p, fr, y);
    }
  }

  /** A successor of the popped front h that the Step discovers is one deeper
      than h. */
  lemma SuccDepthNew<S(!new), A(!new)>(p: Problem<S, A>, fr: Frame<S, A>, r: Frame<S, A>, y: S)
    requires Sane(p, fr) && fr.fringe != [] && StepFacts(p, BreadthFirst, fr, r) && Sane(p, r)
    requires y in r.visited && y !in fr.visited && y != p.start
    ensures Depth(p, r, y) == Depth(p, fr, fr.fringe[0].state) + 1
  {
    KeysKept(p, fr, r);
    KeysPushed(p, fr, r);
    var j :| 0 <= j < |r.fringe| && r.fringe[j].state == y;
    assert Keys(p, r)[j] == Depth(p, r, y);
  }

  /** Every successor of the popped front is at most one deeper than it. */
  lemma SuccDepthHead<S(!new), A(!new)>(p: Problem<S, A>, fr: Frame<S, A>, r: Frame<S, A>)
    requires Sane(p, fr) && fr.fringe != [] && StepFacts(p, BreadthFirst, fr, r) && Sane(p, r)
    requires Covered(p, fr) && LivePop(p, fr) && Layered(Keys(p, fr)) && Shallow(p, fr)
    ensures forall k :: 0 <= k < |p.successors(fr.fringe[0].state)|
              ==> p.successors(fr.fringe[0].state)[k].state in r.visited
                  && Depth(p, r, p.successors(fr.fringe[0].state)[k].state) <= Depth(p, fr, fr.fringe[0].state) + 1
  {
    var h := fr.fringe[0];
    forall k | 0 <= k < |p.successors(h.state)|
      ensures p.successors(h.state)[k].state in r.visited
      ensures Depth(p, r, p.successors(h.state)[k].state) <= Depth(p, fr, h.state) + 1
    {
      var y := p.successors(h.state)[k].state;
      assert y in SuccStates(p, h.state, 0);
      if y == p.start {
        assert ChainEdges(p, r, y) == [];
      } else if y in fr.visited {
        SuccDepthSeen(p, fr, y);
        ChainStable(p, fr, r, y);
      } else {
        SuccDepthNew(p, fr, r, y);
      }
    }
  }

  lemma SuccDepthAfter<S(!new), A(!new)>(p: Problem<S, A>, fr: Frame<S, A>, r: Frame<S, A>)
    requires Sane(p, fr) && fr.fringe != [] && StepFacts(p, BreadthFirst, fr, r) && Sane(p, r)
    requires ExpandedOk(p, BreadthFirst, fr) && Closed(p, fr) && Covered(p, fr) && LivePop(p, fr)
    requires BfsInv(p, fr)
    ensures SuccDepth(p, r)
  {
    SuccDepthOld(p, fr, r);
    SuccDepthHead(p, fr, r);
    var h := fr.fringe[0];
    ChainStable(p, fr, r, h.state);
    forall x, k | x in r.expanded && (x == p.start || x in r.visited) && 0 <= k < |p.successors(x)| && p.successors(x)[k].state in r.visited
      ensures Depth(p, r, p.successors(x)[k].state) <= Depth(p, r, x) + 1
    {
      if x != h.state {
        assert x in fr.expanded;
      }
    }
  }

  /** Dropping the front key keeps the keys layered. */
  lemma LayeredTail(ks: seq<int>, ks': seq<int>)
    requires ks != [] && Layered(ks) && |ks'| == |ks| - 1
    requires forall j :: 0 <= j < |ks'| ==> ks'[j] == ks[j + 1]
    ensures Layered(ks')
  {
    forall i, j | 0 <= i < j < |ks'| && ks'[i] >= 0 && ks'[j] >= 0
      ensures ks'[i] <= ks'[j] <= ks'[i] + 1
    {
      assert ks'[i] == ks[i + 1] && ks'[j] == ks[j + 1];
    }
  }

  /** Popping a re-pushed start entry discovers and expands nothing new. */
  lemma DeadPop<S(!new), A(!new)>(p: Problem<S, A>, fr: Frame<S, A>, r: Frame<S, A>)
    requires fr.fringe != [] && StepFacts(p, BreadthFirst, fr, r)
    requires Closed(p, fr) && fr.fringe[0].state == p.start && p.start in fr.expanded
    ensures r.visited == fr.visited && r.expanded == fr.expanded && |r.fringe| == |fr.fringe| - 1
  {
    forall x | x in SuccStates(p, p.start, 0)
      ensures x in fr.visited
    {
      var k :| 0 <= k < |p.successors(p.start)| && p.successors(p.start)[k].state == x;
    }
  }

  /** Popping a re-pushed start entry changes nothing but the queue front. */
  lemma DeadPopBfs<S(!new), A(!new)>(p: Problem<S, A>, fr: Frame<S, A>, r: Frame<S, A>)
    requires Sane(p, fr) && fr.fringe != [] && StepFacts(p, BreadthFirst, fr, r) && Sane(p, r)
    requires ExpandedOk(p, BreadthFirst, fr) && BfsInv(p, fr) && Closed(p, fr)
    requires fr.fringe[0].state == p.start && p.start in fr.expanded
    ensures BfsInv(p, r)
  {
    DeadPop(p, fr, r);
    KeysKept(p, fr, r);
    LayeredTail(Keys(p, fr), Keys(p, r));
    SuccDepthOld(p, fr, r);
    DepthsKept(p, fr, r);
    DeadPopShallow(p, fr, r);
  }

  /** Dropping the front of the fringe, with depths and expanded states
      unchanged, keeps expanded states no deeper than the queued ones. */
  lemma DeadPopShallow<S(!new), A(!new)>(p: Problem<S, A>, fr: Frame<S, A>, r: Frame<S, A>)
    requires Sane(p, fr) && Sane(p, r) && Shallow(p, fr)
    requires r.expanded == fr.expanded && r.visited == fr.visited && |r.fringe| == |fr.fringe| - 1
    requires forall j :: 0 <= j < |r.fringe| ==> Keys(p, r)[j] == Keys(p, fr)[j + 1]
    requires forall x :: (x == p.start || x in fr.visited) ==> Depth(p, r, x) == Depth(p, fr, x)
    ensures Shallow(p, r)
  {
    var ks, ks' := Keys(p, fr), Keys(p, r);
    forall x, j | x in r.expanded && (x == p.start || x in r.visited) && 0 <= j < |r.fringe| && ks'[j] >= 0
      ensures Depth(p, r, x) <= ks'[j]
    {
      assert ks'[j] == ks[j + 1];
      assert Depth(p, r, x) == Depth(p, fr, x);
    }
  }

  lemma BfsAfter<S(!new), A(!new)>(p: Problem<S, A>, fr: Frame<S, A>, r: Frame<S, A>)
    requires Sane(p, fr) && fr.fringe != [] && StepFacts(p, BreadthFirst, fr, r) && Sane(p, r)
    requires ExpandedOk(p, BreadthFirst, fr) && Closed(p, fr) && Covered(p, fr) && BfsInv(p, fr)
    ensures BfsInv(p, r)
  {
    if fr.fringe[0].state == p.start && p.start in fr.expanded {
      DeadPopBfs(p, fr, r);
    } else {
      assert LivePop(p, fr);
      LayeredAfter(p, fr, r);
      ShallowAfter(p, fr, r);
      SuccDepthAfter(p, fr, r);
    }
  }

  /** A breadth-first Step that does not pop a goal keeps the invariant. */
  lemma StepBfs<S(!new), A(!new)>(p: Problem<S, A>, fr: Frame<S, A>)
    requires Inv(p, BreadthFirst, fr) && BfsInv(p, fr) && fr.fringe != []
    ensures Sane(p, Step(p, BreadthFirst, fr)) && BfsInv(p, Step(p, BreadthFirst, fr))
  {
    StepFactsHold(p, BreadthFirst, fr);
    StepSane(p, BreadthFirst, fr);
    BfsAfter(p, fr, Step(p, BreadthFirst, fr));
  }

  /** When the front h of the queue is popped, a walk from the start either
      stays among expanded states, no deeper than its length, or is at least as
      long as h is deep. */
  lemma {:induction false} ReachDepth<S(!new), A(!new)>(p: Problem<S, A>, fr: Frame<S, A>, w: seq<Successor<S, A>>)
    requires Sane(p, fr) && Closed(p, fr) && Covered(p, fr) && ExpandedOk(p, BreadthFirst, fr) && BfsInv(p, fr)
    requires fr.fringe != [] && fr.fringe[0].state != p.start
    requires Walk(p, p.start, w)
    ensures (End(p.start, w) in fr.expanded && (End(p.start, w) == p.start || End(p.start, w) in fr.visited)
             && Depth(p, fr, End(p.start, w)) <= |w|)
            || Depth(p, fr, fr.fringe[0].state) <= |w|
    decreases |w|
  {
    var h := fr.fringe[0];
    assert p.start in fr.expanded;
    if w == [] {
      assert ChainEdges(p, fr, p.start) == [];
    } else {
      var n := |w| - 1;
      WalkPrefix(p, p.start, w, n);
      ReachDepth(p, fr, w[..n]);
      var x := End(p.start, w[..n]);
      if Depth(p, fr, h.state) > n {
        assert w[n] in p.successors(x);
        var k :| 0 <= k < |p.successors(x)| && p.successors(x)[k] == w[n];
        var y := End(p.start, w);
        assert y == p.successors(x)[k].state;
        assert Depth(p, fr, y) <= |w|;
        if y !in fr.expanded {
          var j :| 0 <= j < |fr.fringe| && fr.fringe[j].state == y;
          var ks := Keys(p, fr);
          assert ks[0] == Depth(p, fr, h.state) && ks[j] == Depth(p, fr, y);
        }
      }
    }
  }

  /** A goal at the front of the queue is no deeper than any walk to a goal. */
  lemma GoalAtFront<S(!new), A(!new)>(p: Problem<S, A>, fr: Frame<S, A>)
    requires Inv(p, BreadthFirst, fr) && BfsInv(p, fr) && fr.fringe != [] && fr.fringe[0].state != p.start
    ensures forall w :: Walk(p, p.start, w) && p.isGoal(End(p.start, w)) ==> Depth(p, fr, fr.fringe[0].state) <= |w|
  {
    forall w | Walk(p, p.start, w) && p.isGoal(End(p.start, w))
      ensures Depth(p, fr, fr.fringe[0].state) <= |w|
    {
      ReachDepth(p, fr, w);
    }
  }

  /** From any frame satisfying both invariants, a plan the breadth-first loop
      returns is no longer than any walk from the start to a goal. */
  lemma {:induction false} LoopShortest<S(!new), A(!new)>(p: Problem<S, A>, fr: Frame<S, A>)
    requires Inv(p, BreadthFirst, fr) && BfsInv(p, fr)
    ensures Loop(p, BreadthFirst, fr).Plan? ==>
              forall w :: Walk(p, p.start, w) && p.isGoal(End(p.start, w)) ==> |Loop(p, BreadthFirst, fr).actions| <= |w|
    decreases |p.universe - fr.visited|, |fr.fringe|
  {
    if fr.fringe != [] {
      LoopUnfold(p, BreadthFirst, fr);
      var h := fr.fringe[0];
      if p.isGoal(h.state) {
        if h.state != p.start {
          GoalAtFront(p, fr);
          ActionsAt(ChainEdges(p, fr, h.state));
        }
      } else {
        StepInv(p, BreadthFirst, fr);
        StepBfs(p, fr);
        StepSane(p, BreadthFirst, fr);
        LoopShortest(p, Step(p, BreadthFirst, fr));
      }
    }
  }

  /** breadthFirstSearch returns a plan with the fewest actions among all
      action sequences that lead from the start state to a goal. */
  lemma BreadthFirstShortest<S(!new), A(!new)>(p: Problem<S, A>)
    requires WellFormed(p)
    ensures Search(p, BreadthFirst).Plan? ==>
              forall w :: Walk(p, p.start, w) && p.isGoal(End(p.start, w)) ==> |Search(p, BreadthFirst).actions| <= |w|
  {
    InitInv(p, BreadthFirst);
    InitBfs(p);
    LoopShortest(p, Init(p, BreadthFirst));
  }
}
