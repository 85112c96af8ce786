/** The fringe: the util.Stack, util.Queue and util.PriorityQueue that the four
    searches use, modelled as one sequence kept in push order, and the rule by
    which each search strategy chooses the entry to pop. */
module Fringes {
  import opened Problems

  /** A fringe entry: the accumulated path cost (the first component of the
      (cost, state) items of uniformCostSearch and aStarSearch), the state, and
      the priority it was pushed with. */
  datatype Entry<S> = Entry(cost: nat, state: S, priority: nat)

  /** The four searches. A* carries its heuristic, a function of (state, problem). */
  datatype Strategy<!S(==), !A> =
    | DepthFirst
    | BreadthFirst
    | UniformCost
    | AStar(heuristic: (S, Problem<S, A>) -> nat)

  /** nullHeuristic: the trivial estimate, zero for every state. */
  function NullHeuristic<S(==,!new), A(!new)>(state: S, problem: Problem<S, A>): (r: nat)
    ensures r == 0
  {
    0
  }

  /** The push priority: the accumulated cost for uniform-cost search, the cost
      plus the heuristic estimate for A*; stacks and queues ignore it. */
  function Priority<S(==,!new), A(!new)>(st: Strategy<S, A>, p: Problem<S, A>, cost: nat, s: S): (r: nat)
    ensures st.UniformCost? || st.AStar? ==> cost <= r
    ensures st.UniformCost? ==> r == cost
    ensures st.AStar? ==> r - cost == st.heuristic(s, p)
    ensures st.DepthFirst? || st.BreadthFirst? ==> r == 0
  {
    match st
    case UniformCost => cost
    case AStar(h) => cost + h(s, p)
    case _ => 0
  }

  /** Index of the first-pushed entry among those with the least priority. */
  function MinIndex<S>(fringe: seq<Entry<S>>): (i: nat)
    requires fringe != []
    ensures i < |fringe|
    ensures forall j :: 0 <= j < |fringe| ==> fringe[i].priority <= fringe[j].priority
    ensures forall j :: 0 <= j < i ==> fringe[i].priority < fringe[j].priority
  {
    if |fringe| == 1 then 0
    else
      var j := MinIndex(fringe[..|fringe| - 1]);
      if fringe[|fringe| - 1].priority < fringe[j].priority then |fringe| - 1 else j
  }

  /** Which entry fringe.pop() returns: the last pushed for a stack, the first
      pushed for a queue, the least priority for a priority queue. */
  function PopIndex<S(==,!new), A(!new)>(st: Strategy<S, A>, fringe: seq<Entry<S>>): (i: nat)
    requires fringe != []
    ensures i < |fringe|
    ensures st.DepthFirst? ==> i == |fringe| - 1
    ensures st.BreadthFirst? ==> i == 0
    ensures st.UniformCost? || st.AStar? ==>
      && (forall j :: 0 <= j < |fringe| ==> fringe[i].priority <= fringe[j].priority)
      && (forall j :: 0 <= j < i ==> fringe[i].priority < fringe[j].priority)
  {
    match st
    case DepthFirst => |fringe| - 1
    case BreadthFirst => 0
    case _ => MinIndex(fringe)
  }

  /** The fringe after the entry at index i has been popped. */
  function Remove<S>(fringe: seq<Entry<S>>, i: nat): (r: seq<Entry<S>>)
    requires i < |fringe|
    ensures |r| == |fringe| - 1
    ensures forall j :: 0 <= j < i ==> r[j] == fringe[j]
    ensures forall j :: i <= j < |r| ==> r[j] == fringe[j + 1]
  {
    fringe[..i] + fringe[i + 1..]
  }

  /** The states held by fringe entries. */
  ghost function States<S>(fringe: seq<Entry<S>>): set<S> {
    set i | 0 <= i < |fringe| :: fringe[i].state
  }
}
