/** Task managers and task executors passing events, over all runs. */
module EventNetwork {
  import opened Bags
  import opened Options
  import opened TaskManagers

  /** What a task makes of an event, as `send` sees it. */
  datatype Result = NEW(event: Event) | ORIGINAL | KEYBY(to: Location) | HOLD

  /** An executor thread: the task it runs and the queue it polls. */
  datatype Executor = Executor(task: Location, origin: Location)

  /** What became of the events, over the run so far. */
  datatype Tally = Tally(
    entered: multiset<Event>,               // put from outside or made by a task
    absorbed: multiset<Event>,              // popped and held back
    replaced: multiset<Event>,              // popped and answered with a new event
    dropped: multiset<Event>)               // in a queue when its task was destroyed

  datatype State = State(
    queues: map<Location, seq<Event>>,
    stops: set<Location>,
    destinations: map<Location, Location>,
    executors: map<nat, Executor>,
    holding: map<nat, seq<Event>>,          // the event an executor has popped and not yet sent on
    next: nat,
    // history
    tally: Tally,
    puts: map<Location, seq<Event>>,        // put since the queue was created
    gots: map<Location, seq<Event>>)        // popped since the queue was created

  datatype Label =
    | Put(to: Location, event: Event)
    | Spawn(task: Location, origin: Location, destination: Option<Location>)
    | UpdateDestination(task: Location, to: Location)
    | Destroy(task: Location)
    | Get(x: nat)
    | Send(x: nat, result: Result)
    | Finish(x: nat, result: Result)

  /** What an executor passes for the original event when its task finishes. */
  const NO_EVENT := Event(0, 0, "")

  predicate HasTarget(s: State, x: nat, r: Result) {
    x in s.executors && (r.NEW? || r.ORIGINAL? ==> s.executors[x].task in s.destinations)
  }

  predicate Enabled(s: State, l: Label) {
    match l
    case Put(_, _) => true
    case Spawn(_, _, _) => true
    case UpdateDestination(_, _) => true
    case Destroy(task) => task in s.stops
    case Get(x) => x in s.executors && ListAt(s.holding, x) == [] && ListAt(s.queues, s.executors[x].origin) != []
    case Send(x, r) => HasTarget(s, x, r) && |ListAt(s.holding, x)| == 1
    case Finish(x, r) => HasTarget(s, x, r) && ListAt(s.holding, x) == []
  }

  function Spawned(s: State, task: Location, origin: Location): State {
    s.(stops := s.stops + {task}, executors := s.executors[s.next := Executor(task, origin)], next := s.next + 1)
  }

  /** PutTask on the task's manager; a new queue comes with a new executor. */
  function PutInto(s: State, to: Location, e: Event): State {
    var t := if to in s.queues then s else Spawned(s, to, to).(puts := s.puts[to := []], gots := s.gots[to := []]);
    t.(queues := t.queues[to := ListAt(t.queues, to) + [e]], puts := t.puts[to := ListAt(t.puts, to) + [e]])
  }

  /** Where `send` puts an event, if it puts one. */
  function Target(s: State, x: nat, r: Result): Option<Location>
    requires HasTarget(s, x, r)
  {
    match r
    case NEW(_) => Some(s.destinations[s.executors[x].task])
    case ORIGINAL => Some(s.destinations[s.executors[x].task])
    case KEYBY(to) => Some(to)
    case HOLD => None
  }

  /** The event it puts there. */
  function Payload(r: Result, original: Event): Event {
    if r.NEW? then r.event else original
  }

  function Forward(s: State, x: nat, r: Result, original: Event): State
    requires HasTarget(s, x, r)
  {
    if Target(s, x, r).None? then s else PutInto(s, Target(s, x, r).value, Payload(r, original))
  }

  /** The tally after a task's result for a popped event. */
  function SendTally(t: Tally, r: Result, original: Event): Tally {
    match r
    case NEW(e) => t.(entered := t.entered + multiset{e}, replaced := t.replaced + multiset{original})
    case HOLD => t.(absorbed := t.absorbed + multiset{original})
    case _ => t
  }

  function Next(s: State, l: Label): State
    requires Enabled(s, l)
  {
    match l
    case Put(to, e) => PutInto(s, to, e).(tally := s.tally.(entered := s.tally.entered + multiset{e}))
    case Spawn(task, origin, d) =>
      Spawned(s, task, origin).(destinations :=
        if d.Some? && task !in s.destinations then s.destinations[task := d.value] else s.destinations)
    case UpdateDestination(task, to) => s.(destinations := s.destinations[task := to])
    case Destroy(task) =>
      s.(stops := s.stops - {task}, queues := s.queues - {task}, destinations := s.destinations - {task},
         tally := s.tally.(dropped := s.tally.dropped + multiset(ListAt(s.queues, task))))
    case Get(x) =>
      var o := s.executors[x].origin;
      s.(queues := s.queues[o := s.queues[o][1..]], holding := s.holding[x := [s.queues[o][0]]],
         gots := s.gots[o := ListAt(s.gots, o) + [s.queues[o][0]]])
    case Send(x, r) =>
      var e := s.holding[x][0];
      Forward(s, x, r, e).(holding := s.holding[x := []], tally := SendTally(s.tally, r, e))
    case Finish(x, r) =>
      var t := Forward(s, x, r, NO_EVENT);
      t.(executors := t.executors - {x},
         tally := if r.HOLD? then s.tally else s.tally.(entered := s.tally.entered + multiset{Payload(r, NO_EVENT)}))
  }

  ghost predicate Run(s: State, ls: seq<Label>, t: State)
    decreases |ls|
  {
    if ls == [] then s == t else Enabled(s, ls[0]) && Run(Next(s, ls[0]), ls[1..], t)
  }

  /** An event has entered as often as it is in a queue, held by an executor,
      absorbed, replaced or dropped. */
  ghost predicate Conserved(s: State, e: Event) {
    s.tally.entered[e] == Occurs(s.queues, e) + Occurs(s.holding, e)
                        + s.tally.absorbed[e] + s.tally.replaced[e] + s.tally.dropped[e]
  }

  predicate QueueOk(s: State, k: Location) {
    k in s.queues ==> k in s.stops && ListAt(s.puts, k) == ListAt(s.gots, k) + s.queues[k]
  }

  ghost predicate Coherent(s: State) {
    forall k :: QueueOk(s, k)
  }

  lemma PutAddsOne(s: State, to: Location, e: Event, x: Event)
    ensures Occurs(PutInto(s, to, e).queues, x) == Occurs(s.queues, x) + (if x == e then 1 else 0)
  {
    assert PutInto(s, to, e).queues == s.queues[to := ListAt(s.queues, to) + [e]];
    OccursUpdate(s.queues, to, ListAt(s.queues, to) + [e], x);
  }

  lemma PutRest(s: State, to: Location, e: Event)
    ensures PutInto(s, to, e).holding == s.holding && PutInto(s, to, e).tally == s.tally
  {
  }

  lemma ForwardAddsOne(s: State, x: nat, r: Result, original: Event, e: Event)
    requires HasTarget(s, x, r)
    ensures Occurs(Forward(s, x, r, original).queues, e)
         == Occurs(s.queues, e) + (if !r.HOLD? && e == Payload(r, original) then 1 else 0)
  {
    if !r.HOLD? {
      PutAddsOne(s, Target(s, x, r).value, Payload(r, original), e);
    }
  }

  lemma PutLands(s: State, to: Location, e: Event)
    ensures PutInto(s, to, e).destinations == s.destinations
    ensures ListAt(PutInto(s, to, e).queues, to) == ListAt(s.queues, to) + [e]
    ensures forall k :: k != to ==> ListAt(PutInto(s, to, e).queues, k) == ListAt(s.queues, k)
  {
  }

  lemma ForwardLands(s: State, x: nat, r: Result, original: Event)
    requires HasTarget(s, x, r)
    ensures var t := Forward(s, x, r, original);
            && t.destinations == s.destinations && (r.HOLD? ==> t == s)
            && (!r.HOLD? ==>
                  var to := if r.KEYBY? then r.to else s.destinations[s.executors[x].task];
                  && ListAt(t.queues, to) == ListAt(s.queues, to) + [if r.NEW? then r.event else original]
                  && forall k :: k != to ==> ListAt(t.queues, k) == ListAt(s.queues, k))
  {
    if !r.HOLD? { PutLands(s, Target(s, x, r).value, Payload(r, original)); }
  }

  lemma ForwardRest(s: State, x: nat, r: Result, original: Event)
    requires HasTarget(s, x, r)
    ensures Forward(s, x, r, original).holding == s.holding && Forward(s, x, r, original).tally == s.tally
  {
    if !r.HOLD? {
      PutRest(s, Target(s, x, r).value, Payload(r, original));
    }
  }

  lemma SendConserves(s: State, x: nat, r: Result, e: Event)
    requires Conserved(s, e) && Enabled(s, Send(x, r))
    ensures Conserved(Next(s, Send(x, r)), e)
  {
    var original := s.holding[x][0];
    assert s.holding[x] == [original];
    OccursUpdate(s.holding, x, [], e);
    ForwardAddsOne(s, x, r, original, e);
  }

  lemma FinishConserves(s: State, x: nat, r: Result, e: Event)
    requires Conserved(s, e) && Enabled(s, Finish(x, r))
    ensures Conserved(Next(s, Finish(x, r)), e)
  {
    ForwardAddsOne(s, x, r, NO_EVENT, e);
    ForwardRest(s, x, r, NO_EVENT);
  }

  lemma GetConserves(s: State, x: nat, e: Event)
    requires Conserved(s, e) && Enabled(s, Get(x))
    ensures Conserved(Next(s, Get(x)), e)
  {
    var o := s.executors[x].origin;
    var q := s.queues[o];
    assert q == [q[0]] + q[1..];
    OccursUpdate(s.queues, o, q[1..], e);
    OccursUpdate(s.holding, x, [q[0]], e);
  }

  lemma StepConserves(s: State, l: Label, e: Event)
    requires Conserved(s, e) && Enabled(s, l)
    ensures Conserved(Next(s, l), e)
  {
    match l
    case Put(to, n) =>
      PutAddsOne(s, to, n, e);
      PutRest(s, to, n);
    case Spawn(_, _, _) =>
    case UpdateDestination(_, _) =>
    case Destroy(task) => OccursWithout(s.queues, task, e);
    case Get(x) => GetConserves(s, x, e);
    case Send(x, r) => SendConserves(s, x, r, e);
    case Finish(x, r) => FinishConserves(s, x, r, e);
  }

  lemma PutKeepsQueue(s: State, to: Location, e: Event, k: Location)
    requires QueueOk(s, k)
    ensures QueueOk(PutInto(s, to, e), k)
  {
  }

  lemma ForwardKeepsQueue(s: State, x: nat, r: Result, original: Event, k: Location)
    requires HasTarget(s, x, r) && QueueOk(s, k)
    ensures QueueOk(Forward(s, x, r, original), k)
  {
    if !r.HOLD? {
      PutKeepsQueue(s, Target(s, x, r).value, Payload(r, original), k);
    }
  }

  lemma StepCoherent(s: State, l: Label, k: Location)
    requires QueueOk(s, k) && Enabled(s, l)
    ensures QueueOk(Next(s, l), k)
  {
    match l
    case Put(to, e) => PutKeepsQueue(s, to, e, k);
    case Get(x) =>
      var q := s.queues[s.executors[x].origin];
      assert q == [q[0]] + q[1..];
    case Send(x, r) => ForwardKeepsQueue(s, x, r, s.holding[x][0], k);
    case Finish(x, r) => ForwardKeepsQueue(s, x, r, NO_EVENT, k);
    case _ =>
  }

  lemma {:induction false} RunConserves(s: State, ls: seq<Label>, t: State)
    requires Coherent(s) && (forall e :: Conserved(s, e)) && Run(s, ls, t)
    ensures forall e :: Conserved(t, e)
    ensures t.queues.Keys <= t.stops
    ensures forall k :: k in t.queues ==> ListAt(t.gots, k) <= ListAt(t.puts, k)
    decreases |ls|
  {
    if ls == [] {
      forall k | k in t.queues
        ensures k in t.stops && ListAt(t.gots, k) <= ListAt(t.puts, k)
      {
        assert QueueOk(t, k);
      }
    } else {
      forall e ensures Conserved(Next(s, ls[0]), e) { StepConserves(s, ls[0], e); }
      forall k ensures QueueOk(Next(s, ls[0]), k) { StepCoherent(s, ls[0], k); }
      RunConserves(Next(s, ls[0]), ls[1..], t);
    }
  }

  /** No task has been put, spawned or run yet. */
  predicate Init(s: State) {
    && s.queues == map[] && s.stops == {} && s.executors == map[] && s.holding == map[]
    && s.tally == Tally(multiset{}, multiset{}, multiset{}, multiset{})
  }

  /** Over every run: no event is lost or duplicated; a task with a queue has a stop
      signal; what was popped from a queue is a prefix of what was put into it. */
  lemma EventsAreConserved(s0: State, ls: seq<Label>, t: State)
    requires Init(s0) && Run(s0, ls, t)
    ensures forall e :: Conserved(t, e)
    ensures t.queues.Keys <= t.stops
    ensures forall k :: k in t.queues ==> ListAt(t.gots, k) <= ListAt(t.puts, k)
  {
    RunConserves(s0, ls, t);
  }

  /** A task's result for a popped event puts at most one event: NEW the new one and
      ORIGINAL the popped one at the task's destination, KEYBY the popped one where
      the result says, HOLD none.  No other queue and no other executor is touched. */
  lemma SendsOnce(s: State, x: nat, r: Result)
    requires Enabled(s, Send(x, r))
    ensures var t := Next(s, Send(x, r));
            && (r.HOLD? ==> t.queues == s.queues)
            && (!r.HOLD? ==>
                  var to := if r.KEYBY? then r.to else s.destinations[s.executors[x].task];
                  var e := if r.NEW? then r.event else s.holding[x][0];
                  && ListAt(t.queues, to) == ListAt(s.queues, to) + [e]
                  && forall k :: k != to ==> ListAt(t.queues, k) == ListAt(s.queues, k))
            && ListAt(t.holding, x) == [] && (forall y :: y != x ==> ListAt(t.holding, y) == ListAt(s.holding, y))
  {
    ForwardRest(s, x, r, s.holding[x][0]);
    ForwardLands(s, x, r, s.holding[x][0]);
  }

  /** What a put from outside does. */
  lemma PutEnters(s: State, to: Location, e: Event)
    ensures var t := Next(s, Put(to, e));
            && ListAt(t.queues, to) == ListAt(s.queues, to) + [e]
            && (forall k :: k != to ==> ListAt(t.queues, k) == ListAt(s.queues, k))
            && t.tally == s.tally.(entered := s.tally.entered + multiset{e})
            && t.holding == s.holding && t.destinations == s.destinations
            && t.stops == (if to in s.queues then s.stops else s.stops + {to})
            && t.executors == (if to in s.queues then s.executors else s.executors[s.next := Executor(to, to)])
  {
    PutRest(s, to, e);
  }

  /** A task's last result is put like any other, the empty event standing for the
      popped one, and the executor is gone. */
  lemma FinishPutsLast(s: State, x: nat, r: Result)
    requires Enabled(s, Finish(x, r))
    ensures var t := Next(s, Finish(x, r));
            && (r.HOLD? ==> t.queues == s.queues && t.tally == s.tally)
            && (!r.HOLD? ==>
                  var to := if r.KEYBY? then r.to else s.destinations[s.executors[x].task];
                  var e := if r.NEW? then r.event else Event(0, 0, "");
                  && ListAt(t.queues, to) == ListAt(s.queues, to) + [e]
                  && (forall k :: k != to ==> ListAt(t.queues, k) == ListAt(s.queues, k))
                  && t.tally == s.tally.(entered := s.tally.entered + multiset{e}))
            && x !in t.executors && t.holding == s.holding && t.destinations == s.destinations
  {
    ForwardRest(s, x, r, NO_EVENT);
    ForwardLands(s, x, r, NO_EVENT);
  }

  /** A spawn adds an executor and a stop signal; a destination that is there stays. */
  lemma SpawnAdds(s: State, task: Location, origin: Location, d: Option<Location>)
    ensures var t := Next(s, Spawn(task, origin, d));
            && t.executors == s.executors[s.next := Executor(task, origin)] && t.stops == s.stops + {task}
            && t.destinations == (if d.Some? && task !in s.destinations then s.destinations[task := d.value]
                                  else s.destinations)
            && t.queues == s.queues && t.holding == s.holding && t.tally == s.tally
  {
  }

  /** An update replaces the destination of one task and nothing else. */
  lemma UpdateReplaces(s: State, task: Location, to: Location)
    ensures Next(s, UpdateDestination(task, to)) == s.(destinations := s.destinations[task := to])
  {
  }

  /** The events in the queue of a destroyed task are counted as dropped. */
  lemma DestroyDrops(s: State, task: Location)
    requires Enabled(s, Destroy(task))
    ensures var t := Next(s, Destroy(task));
            && t.tally == s.tally.(dropped := s.tally.dropped + multiset(ListAt(s.queues, task)))
            && t.executors == s.executors && t.holding == s.holding
  {
  }

  /** What a task's result for a popped event adds to the tally. */
  lemma SendCounts(s: State, x: nat, r: Result)
    requires Enabled(s, Send(x, r))
    ensures var t, e := Next(s, Send(x, r)), s.holding[x][0];
            match r
            case NEW(n) =>
              t.tally == s.tally.(entered := s.tally.entered + multiset{n}, replaced := s.tally.replaced + multiset{e})
            case HOLD => t.tally == s.tally.(absorbed := s.tally.absorbed + multiset{e})
            case _ => t.tally == s.tally
  {
    ForwardRest(s, x, r, s.holding[x][0]);
  }

  // ---------- the methods of the managers ----------

  /** What manager `m` has of a map over all managers. */
  function At<V>(all: map<Location, V>, m: int): map<string, V> {
    map k | k in all && k.manager == m :: k.taskId := all[k]
  }

  function StopsAt(stops: set<Location>, m: int): set<string> {
    set k | k in stops && k.manager == m :: k.taskId
  }

  lemma AtUpdate<V>(all: map<Location, V>, k: Location, v: V, m: int)
    ensures At(all[k := v], m) == if k.manager == m then At(all, m)[k.taskId := v] else At(all, m)
  {
    var now := At(all[k := v], m);
    forall t: string
      ensures t in now <==> Location(m, t) in all || (k.manager == m && t == k.taskId)
    {
      assert Location(m, t).taskId == t;
    }
    assert forall t :: t in At(all, m) <==> Location(m, t) in all;
  }

  lemma AtRemove<V>(all: map<Location, V>, k: Location, m: int)
    ensures At(all - {k}, m) == if k.manager == m then At(all, m) - {k.taskId} else At(all, m)
  {
    assert forall t :: t in At(all - {k}, m) <==> Location(m, t) in all && Location(m, t) != k;
    assert forall t :: t in At(all, m) <==> Location(m, t) in all;
  }

  lemma StopsAdded(stops: set<Location>, k: Location, m: int)
    ensures StopsAt(stops + {k}, m) == if k.manager == m then StopsAt(stops, m) + {k.taskId} else StopsAt(stops, m)
  {
    assert forall t :: t in StopsAt(stops + {k}, m) <==> Location(m, t) in stops || Location(m, t) == k;
    assert forall t :: t in StopsAt(stops, m) <==> Location(m, t) in stops;
  }

  lemma StopsRemoved(stops: set<Location>, k: Location, m: int)
    ensures StopsAt(stops - {k}, m) == if k.manager == m then StopsAt(stops, m) - {k.taskId} else StopsAt(stops, m)
  {
    assert forall t :: t in StopsAt(stops - {k}, m) <==> Location(m, t) in stops && Location(m, t) != k;
    assert forall t :: t in StopsAt(stops, m) <==> Location(m, t) in stops;
  }

  /** A put does to the manager's queues and stop signals what PutTask does, and
      spawns an executor exactly if PutTask does; nothing happens to other managers. */
  lemma PutIsPutTask(s: State, to: Location, e: Event, m: int)
    ensures var t := PutInto(s, to, e);
            var known := to.taskId in At(s.queues, to.manager);
            && At(t.queues, m) == (if m == to.manager
                                   then At(s.queues, m)[to.taskId := ListAt(At(s.queues, m), to.taskId) + [e]]
                                   else At(s.queues, m))
            && StopsAt(t.stops, m) == (if m == to.manager && !known then StopsAt(s.stops, m) + {to.taskId}
                                       else StopsAt(s.stops, m))
            && t.executors == (if known then s.executors else s.executors[s.next := Executor(to, to)])
            && t.destinations == s.destinations
  {
    assert PutInto(s, to, e).queues == s.queues[to := ListAt(s.queues, to) + [e]];
    AtUpdate(s.queues, to, ListAt(s.queues, to) + [e], m);
    assert to.taskId in At(s.queues, to.manager) <==> to in s.queues;
    StopsAdded(s.stops, to, m);
  }

  /** Likewise for GetTask. */
  lemma GetIsGetTask(s: State, x: nat, m: int)
    requires Enabled(s, Get(x))
    ensures var o := s.executors[x].origin;
            var q := ListAt(At(s.queues, o.manager), o.taskId);
            && q != [] && Next(s, Get(x)).holding[x] == [q[0]]
            && At(Next(s, Get(x)).queues, m)
               == if m == o.manager then At(s.queues, m)[o.taskId := q[1..]] else At(s.queues, m)
  {
    var o := s.executors[x].origin;
    AtUpdate(s.queues, o, s.queues[o][1..], m);
    assert o.taskId in At(s.queues, o.manager) && At(s.queues, o.manager)[o.taskId] == s.queues[o];
  }

  /** Likewise for DestroyTask. */
  lemma DestroyIsDestroyTask(s: State, task: Location, m: int)
    requires Enabled(s, Destroy(task))
    ensures task.taskId in StopsAt(s.stops, task.manager)
    ensures var t := Next(s, Destroy(task));
            if m == task.manager then
              && At(t.queues, m) == At(s.queues, m) - {task.taskId}
              && At(t.destinations, m) == At(s.destinations, m) - {task.taskId}
              && StopsAt(t.stops, m) == StopsAt(s.stops, m) - {task.taskId}
            else
              && At(t.queues, m) == At(s.queues, m) && At(t.destinations, m) == At(s.destinations, m)
              && StopsAt(t.stops, m) == StopsAt(s.stops, m)
  {
    AtRemove(s.queues, task, m);
    AtRemove(s.destinations, task, m);
    StopsRemoved(s.stops, task, m);
  }
}
