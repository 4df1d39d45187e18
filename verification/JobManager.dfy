/** The job manager's choice of a destination node. */
module JobManagers {

  datatype Node = ClusterNode(nodeId: int)
  type Loads = map<Node, real>

  datatype Choice = Chosen(node: Node) | OutOfRange

  predicate IsLeast(load: Loads, n: Node) {
    n in load && forall m :: m in load ==> load[n] <= load[m]
  }

  /** The current node is to be given up: it is over the limit, the task has no
      destination yet, or the task its destination names is set. */
  predicate MustMove(load: Loads, current: Node, limit: real, tasks: map<int, bool>, dests: map<int, int>, task: int)
    requires current in load
  {
    load[current] > limit || task !in dests || (dests[task] in tasks && tasks[dests[task]])
  }

  /** A lookup that throws: the current node is unknown, or it may stay and the
      destination of the task names an unknown task. */
  predicate Throws(load: Loads, current: Node, limit: real, tasks: map<int, bool>, dests: map<int, int>, task: int) {
    current !in load || (load[current] <= limit && task in dests && dests[task] !in tasks)
  }

  class JobManager {
    var loadMap: Loads
    var currentNode: Node
    var taskMap: map<int, bool>
    var destinationMap: map<int, int>
    const maxLoad: real

    ghost function Snapshot(): State
      reads this
    {
      State(loadMap, currentNode, maxLoad, taskMap, destinationMap)
    }

    constructor (limit: real, node: Node, load: real)
      ensures loadMap == map[node := load] && currentNode == node && maxLoad == limit
      ensures taskMap == map[] && destinationMap == map[]
    {
      loadMap, currentNode, taskMap, destinationMap := map[node := load], node, map[], map[];
      maxLoad := limit;
    }

    /** One pass over the map, in whatever order its entries come. */
    method FindMinLoad() returns (min: Node)
      requires loadMap != map[]
      ensures IsLeast(loadMap, min)
    {
      var rest := loadMap.Keys;
      assert rest != {};
      min :| min in rest;
      rest := rest - {min};
      while rest != {}
        invariant min in loadMap && rest <= loadMap.Keys
        invariant forall m :: m in loadMap && m !in rest ==> loadMap[min] <= loadMap[m]
        decreases rest
      {
        var n :| n in rest;
        rest := rest - {n};
        if loadMap[n] < loadMap[min] {
          min := n;
        }
      }
    }

    method UpdateLoad(node: Node, load: real)
      modifies this`loadMap
      ensures Step(old(Snapshot()), Update(node, load), Snapshot())
    {
      loadMap := loadMap[node := load];
    }

    method GiveMeDestination(task: int) returns (c: Choice)
      modifies this`currentNode
      ensures Step(old(Snapshot()), Give(task, c), Snapshot())
      ensures c.OutOfRange? <==> Throws(loadMap, old(currentNode), maxLoad, taskMap, destinationMap, task)
      ensures c.OutOfRange? ==> currentNode == old(currentNode)
      ensures c.Chosen? ==> c.node == currentNode
      ensures c.Chosen? ==> if MustMove(loadMap, old(currentNode), maxLoad, taskMap, destinationMap, task)
                            then IsLeast(loadMap, currentNode) else currentNode == old(currentNode)
      ensures c.Chosen? && (loadMap[old(currentNode)] > maxLoad || task !in destinationMap ||
                            (destinationMap[task] in taskMap && taskMap[destinationMap[task]])) ==>
                c.node in loadMap && forall m :: m in loadMap ==> loadMap[c.node] <= loadMap[m]
      ensures c.Chosen? && currentNode != old(currentNode) ==>
                loadMap[old(currentNode)] > maxLoad || task !in destinationMap ||
                (destinationMap[task] in taskMap && taskMap[destinationMap[task]])
      ensures c.OutOfRange? <==>
                old(currentNode) !in loadMap ||
                (loadMap[old(currentNode)] <= maxLoad && task in destinationMap && destinationMap[task] !in taskMap)
    {
      if currentNode !in loadMap { return OutOfRange; }
      var move := loadMap[currentNode] > maxLoad || task !in destinationMap;
      if !move {
        if destinationMap[task] !in taskMap { return OutOfRange; }
        move := taskMap[destinationMap[task]];
      }
      if move {
        currentNode := FindMinLoad();
      }
      c := Chosen(currentNode);
    }
  }

  // ---------- over all runs ----------

  datatype State = State(load: Loads, current: Node, limit: real, tasks: map<int, bool>, dests: map<int, int>)

  datatype Call = Update(node: Node, load: real) | Give(task: int, answer: Choice)

  /** What a call may do. */
  predicate Step(s: State, c: Call, t: State) {
    match c
    case Update(n, x) => t == s.(load := s.load[n := x])
    case Give(task, OutOfRange) =>
      t == s && Throws(s.load, s.current, s.limit, s.tasks, s.dests, task)
    case Give(task, Chosen(n)) =>
      t == s.(current := n) && !Throws(s.load, s.current, s.limit, s.tasks, s.dests, task) &&
      if MustMove(s.load, s.current, s.limit, s.tasks, s.dests, task) then IsLeast(s.load, n) else n == s.current
  }

  /** The states a run goes through and the calls between them. */
  ghost predicate Run(ss: seq<State>, cs: seq<Call>) {
    |ss| == |cs| + 1 && forall i :: 0 <= i < |cs| ==> Step(ss[i], cs[i], ss[i + 1])
  }

  lemma {:induction false} CurrentStaysKnown(ss: seq<State>, cs: seq<Call>, i: nat)
    requires Run(ss, cs) && ss[0].current in ss[0].load && i < |ss|
    ensures ss[i].current in ss[i].load
  {
    if i > 0 {
      CurrentStaysKnown(ss, cs, i - 1);
      assert Step(ss[i - 1], cs[i - 1], ss[i]);
    }
  }

  /** In every run each answer is the current node; it is within the limit unless
      every known node is above it; and it differs from the node before only if it
      carries the least load. */
  lemma AnswersAreGood(ss: seq<State>, cs: seq<Call>, i: nat)
    requires Run(ss, cs) && i < |cs| && cs[i].Give? && cs[i].answer.Chosen?
    ensures var n := cs[i].answer.node;
            && n == ss[i + 1].current && n in ss[i].load
            && (ss[i].load[n] <= ss[i].limit || forall m :: m in ss[i].load ==> ss[i].load[m] > ss[i].limit)
            && (n != ss[i].current ==> IsLeast(ss[i].load, n))
  {
  }

  /** The choice is sticky: as long as no call finds a reason to move, the node stays
      and every answer names it, whatever loads are reported in between. */
  lemma {:induction false} StaysPut(ss: seq<State>, cs: seq<Call>, i: nat, k: nat)
    requires Run(ss, cs) && ss[0].current in ss[0].load && i <= k < |ss|
    requires forall m :: i <= m < k && cs[m].Give? && ss[m].current in ss[m].load ==>
               !MustMove(ss[m].load, ss[m].current, ss[m].limit, ss[m].tasks, ss[m].dests, cs[m].task)
    ensures ss[k].current == ss[i].current
    ensures forall m :: i <= m < k && cs[m].Give? && cs[m].answer.Chosen? ==> cs[m].answer.node == ss[i].current
  {
    if i < k {
      StaysPut(ss, cs, i, k - 1);
      CurrentStaysKnown(ss, cs, k - 1);
      assert Step(ss[k - 1], cs[k - 1], ss[k]);
    }
  }

  /** Why a call moves the node, and what it then answers, over all runs. */
  lemma MovesForAReason(ss: seq<State>, cs: seq<Call>, i: nat)
    requires Run(ss, cs) && i < |cs| && cs[i].Give? && cs[i].answer.Chosen?
    ensures var s, task, n := ss[i], cs[i].task, cs[i].answer.node;
            && s.current in s.load
            && var reason := s.load[s.current] > s.limit || task !in s.dests ||
                             (s.dests[task] in s.tasks && s.tasks[s.dests[task]]);
               && (reason ==> n in s.load && forall m :: m in s.load ==> s.load[n] <= s.load[m])
               && (!reason ==> n == s.current)
  {
    assert Step(ss[i], cs[i], ss[i + 1]);
  }
}
