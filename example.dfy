/** A three-state problem on which uniformCostSearch, as written, does not
    return the cheapest plan: A (0) reaches C (2) directly at cost 5, or
    through B (1) at cost 1 + 1. Expanding A marks both B and C visited, so the
    cheaper route to C found when B is expanded is never pushed. */
module Examples {
  import opened Problems
  import opened Fringes
  import opened GraphSearch
  import opened Invariants

  function TriangleSuccessors(s: int): seq<Successor<int, string>> {
    if s == 0 then [Successor(1, "AB", 1), Successor(2, "AC", 5)]
    else if s == 1 then [Successor(2, "BC", 1)]
    else []
  }

  function Triangle(): Problem<int, string> {
    Problem(0, TriangleSuccessors, (s: int) => s == 2, {0, 1, 2})
  }

  /** The frame after A is expanded: B pushed with cost 1, C with cost 5. */
  function AfterA(): Frame<int, string> {
    Frame([Entry(1, 1, 1), Entry(5, 2, 5)], {1, 2}, map[1 := Link(0, "AB"), 2 := Link(0, "AC")],
          map[1 := 0, 2 := 1], map[1 := 0, 2 := 1], [1, 2], {0})
  }

  /** The frame after B is expanded: its successor C was already visited. */
  function AfterB(): Frame<int, string> {
    AfterA().(fringe := [Entry(5, 2, 5)], expanded := {0, 1})
  }

  lemma TriangleWellFormed()
    ensures WellFormed(Triangle())
  {
  }

  lemma ExpandA()
    ensures ExpandFrom(Triangle(), UniformCost, Entry(0, 0, 0), 0, Init(Triangle(), UniformCost).(fringe := []))
            == AfterA().(expanded := {})
  {
    var p := Triangle();
    var st: Strategy<int, string> := UniformCost;
    var fr := Init(p, st).(fringe := []);
    var h := Entry(0, 0, 0);
    ExpandFromUnfold(p, st, h, 0, fr);
    var mid := ExpandOne(p, st, h, 0, fr);
    ExpandOnePush(p, st, h, 0, fr);
    ExpandFromUnfold(p, st, h, 1, mid);
    ExpandOnePush(p, st, h, 1, mid);
  }

  lemma StepA()
    ensures Step(Triangle(), UniformCost, Init(Triangle(), UniformCost)) == AfterA()
  {
    ExpandA();
  }

  lemma StepB()
    ensures Step(Triangle(), UniformCost, AfterA()) == AfterB()
  {
    var p := Triangle();
    var st: Strategy<int, string> := UniformCost;
    assert MinIndex(AfterA().fringe) == 0;
    var fr := AfterA().(fringe := [Entry(5, 2, 5)]);
    ExpandFromUnfold(p, st, Entry(1, 1, 1), 0, fr);
    ExpandOneSkip(p, st, Entry(1, 1, 1), 0, fr);
  }

  lemma SaneAfterA()
    ensures Sane(Triangle(), AfterA())
  {
    TriangleWellFormed();
    InitInv(Triangle(), UniformCost);
    StepSane(Triangle(), UniformCost, Init(Triangle(), UniformCost));
    StepA();
  }

  lemma SaneAfterB()
    ensures Sane(Triangle(), AfterB())
  {
    SaneAfterA();
    StepB();
    StepSane(Triangle(), UniformCost, AfterA());
  }

  lemma LoopAfterB()
    ensures Sane(Triangle(), AfterB()) && Loop(Triangle(), UniformCost, AfterB()) == Plan(["AC"])
  {
    SaneAfterB();
    LoopUnfold(Triangle(), UniformCost, AfterB());
    assert ChainEdges(Triangle(), AfterB(), 2) == [Successor(2, "AC", 5)];
  }

  lemma LoopAfterA()
    ensures Sane(Triangle(), AfterA()) && Loop(Triangle(), UniformCost, AfterA()) == Plan(["AC"])
  {
    SaneAfterA();
    StepB();
    LoopAfterB();
    LoopUnfold(Triangle(), UniformCost, AfterA());
    assert MinIndex(AfterA().fringe) == 0;
  }

  lemma UniformCostResult()
    ensures Search(Triangle(), UniformCost) == Plan(["AC"])
  {
    TriangleWellFormed();
    InitInv(Triangle(), UniformCost);
    StepA();
    LoopAfterA();
    LoopUnfold(Triangle(), UniformCost, Init(Triangle(), UniformCost));
  }

  lemma DirectCost(w: seq<Successor<int, string>>)
    requires Walk(Triangle(), 0, w) && Actions(w) == ["AC"]
    ensures PathCost(w) == 5
  {
    ActionsAt(w);
    assert w[0] in TriangleSuccessors(0);
    assert w == [w[0]];
  }

  lemma CheaperRoute()
    ensures var w := [Successor(1, "AB", 1), Successor(2, "BC", 1)];
            Walk(Triangle(), 0, w) && Triangle().isGoal(End(0, w)) && PathCost(w) == 2
  {
    var w := [Successor(1, "AB", 1), Successor(2, "BC", 1)];
    assert At(0, w, 1) == 1;
  }

  /** uniformCostSearch returns the direct action of cost 5, although the
      route through B reaches the goal at cost 2. */
  lemma UniformCostNotCheapest()
    ensures Search(Triangle(), UniformCost) == Plan(["AC"])
    ensures forall w :: Walk(Triangle(), 0, w) && Actions(w) == ["AC"] ==> PathCost(w) == 5
    ensures exists w :: Walk(Triangle(), 0, w) && Triangle().isGoal(End(0, w)) && PathCost(w) == 2
  {
    UniformCostResult();
    forall w | Walk(Triangle(), 0, w) && Actions(w) == ["AC"]
      ensures PathCost(w) == 5
    {
      DirectCost(w);
    }
    CheaperRoute();
    var w := [Successor(1, "AB", 1), Successor(2, "BC", 1)];
    assert Walk(Triangle(), 0, w) && Triangle().isGoal(End(0, w)) && PathCost(w) == 2;
  }
}
