/** The parcel pipeline as a labelled transition system.  Each access to shared
    state by a Publish, Subscribe or WaitAll call, by a source task or by a sink
    task is one step, and any number of calls, sources and sinks interleave. */
module Pipeline {
  import opened Parcels
  import opened FileStore
  import opened Options

  /** What the run does with a parcel: publish these bytes, or subscribe. */
  datatype Op = Write(data: Bytes) | Read

  type Plan = map<Parcel, Op>

  datatype Queue = WriteQueue(server: nat) | ReadQueue(server: nat)

  /** The places that can hold a parcel; a source keeps the batch it popped apart
      from the parcel its loop is at. */
  datatype Place =
    | Publisher | InQueue(q: Queue) | InBatch(a: nat) | Current(a: nat) | InFlight | AtSink(i: nat)
    | Finished | Refused

  /** The program counter and local buffer of the task or call that holds the parcel. */
  datatype Pc =
    | Putting(data: Bytes) | Pushing                                // Publish
    | Ready | Loaded(data: Bytes) | Parked | Unstowed | Running     // source tasks
    | Took | Pulled(data: Bytes) | Dropped(data: Bytes) | Landed    // sink tasks

  /** A Subscribe call: it polls, has seen DONE, has erased the status, has the bytes,
      has erased them.  An AsyncSubscribe has returned; GetSubscribedData goes on
      from there without a Wait of its own. */
  datatype Sub =
    | Asked | Seen | Cleared | Async
    | Fetched(data: Bytes, waited: bool) | Answered(data: Bytes, waited: bool)

  /** A Publish call after its push: the QUEUED put is pending, was refused, or came
      before the IN_PROGRESS put, between the IN_PROGRESS and the DONE put, or after
      the DONE put. */
  datatype Mark = Pending | Skipped | Early | Mid | Late

  /** A WaitAll call, with the status its poll has just read; Wait is WaitAll of one parcel. */
  datatype Waiter = Waiter(todo: seq<Parcel>, got: seq<Status>, seen: Option<Status>)

  datatype Job = WriteJob | ReadJob

  datatype State = State(
    warehouse: map<Key, Bytes>,
    status: map<Key, Status>,
    files: Files,
    held: map<Place, seq<Parcel>>,
    pc: map<Parcel, Pc>,
    mark: map<Parcel, Mark>,         // guards ask only whether it is Pending
    subs: map<Parcel, Sub>,
    waiters: map<nat, Waiter>,
    serves: map<nat, Queue>,         // the queue of each source task
    looping: set<nat>,               // sources that have stopped popping and handle their batch
    sinks: map<nat, Job>,            // the job of each sink task
    routes: map<string, nat>,        // the sink to which the write job's key-by task sends a file's parcels
    // history, read only by the guards of BeginPublish, Ask and AskAsync, which say
    // what the clients do
    at: map<Parcel, Place>,
    fetched: map<Parcel, Bytes>,
    stored: seq<Parcel>)

  datatype Label =
    | BeginPublish(p: Parcel) | PutPayload(p: Parcel) | PushParcel(p: Parcel, server: nat)
    | Refuse(p: Parcel) | MarkQueued(p: Parcel) | SkipMark(p: Parcel)
    | Ask(p: Parcel, server: nat) | AskAsync(p: Parcel, server: nat)
    | SeeAnswer(p: Parcel) | ClearAnswer(p: Parcel) | Fetch(p: Parcel) | Release(p: Parcel)
    | BeginWait(w: nat, ps: seq<Parcel>) | SeeDone(w: nat) | EraseStatus(w: nat, p: Parcel) | EndWait(w: nat)
    | Pop(a: nat, q: Queue, p: Parcel) | Start(a: nat, p: Parcel)
    | Load(p: Parcel) | Park(p: Parcel) | Unstow(p: Parcel)
    | MarkRunning(p: Parcel) | Emit(a: nat, p: Parcel)
    | Take(i: nat, p: Parcel) | Pull(p: Parcel) | Drop(p: Parcel) | Land(p: Parcel) | Finish(i: nat, p: Parcel)

  predicate IsWrite(plan: Plan, p: Parcel) {
    p in plan && plan[p].Write?
  }

  predicate IsRead(plan: Plan, p: Parcel) {
    p in plan && plan[p].Read?
  }

  predicate Belongs(plan: Plan, p: Parcel, q: Queue) {
    if q.WriteQueue? then IsWrite(plan, p) else IsRead(plan, p)
  }

  function Payloads(plan: Plan): map<Parcel, Bytes> {
    map p | p in plan && plan[p].Write? :: plan[p].data
  }

  function Held(s: State, pl: Place): seq<Parcel> {
    if pl in s.held then s.held[pl] else []
  }

  // ---------- one parcel's share of the state ----------

  /** Everything in the state that is filed under one parcel. */
  datatype View = View(
    at: Option<Place>, pc: Option<Pc>, cargo: Option<Bytes>, temp: Option<Bytes>, status: Option<Status>,
    mark: Option<Mark>, sub: Option<Sub>, fetched: Option<Bytes>, landed: bool)

  function ViewOf(plan: Plan, s: State, p: Parcel): View {
    View(Look(s.at, p), Look(s.pc, p), Look(s.warehouse, KeyOf(p)),
         if IsWrite(plan, p) then Look(s.files, TempOf(p)) else None,
         Look(s.status, KeyOf(p)), Look(s.mark, p), Look(s.subs, p), Look(s.fetched, p), p in s.stored)
  }

  datatype Change<T> = Keep | Put(value: T) | Remove

  datatype Move = Stay | Enter(to: Place) | Go(from: Place, to: Place)

  /** What a step does to the parcel it works on. */
  datatype Effect = Effect(
    move: Move, pc: Change<Pc>, cargo: Change<Bytes>, temp: Change<Bytes>, status: Change<Status>,
    mark: Change<Mark>, sub: Change<Sub>, fetched: Change<Bytes>, land: Option<Bytes>)

  const NOTHING := Effect(Stay, Keep, Keep, Keep, Keep, Keep, Keep, Keep, None)

  function Update<K, V>(m: map<K, V>, k: K, c: Change<V>): map<K, V> {
    match c
    case Keep => m
    case Put(v) => m[k := v]
    case Remove => m - {k}
  }

  function Changed<T>(o: Option<T>, c: Change<T>): Option<T> {
    match c
    case Keep => o
    case Put(v) => Some(v)
    case Remove => None
  }

  /** The source has put IN_PROGRESS for the parcel. */
  predicate RunningPut(v: View) {
    v.at.Some? && (v.at.value.Finished? || v.at.value.InFlight? || v.at.value.AtSink? ||
                   (v.at.value.Current? && v.pc == Some(Running)))
  }

  /** The sink has put DONE for the parcel. */
  predicate DonePut(v: View) {
    v.at == Some(Finished)
  }

  /** What a step does to its parcel, whose view is `v`; `bytes` is what the
      storage holds in the parcel's range. */
  function EffectOf(plan: Plan, v: View, l: Label, p: Parcel, bytes: Bytes): Effect
    requires p in plan
  {
    match l
    // Publish
    case BeginPublish(_) =>
      NOTHING.(move := Enter(Publisher), pc := Put(Putting(if plan[p].Write? then plan[p].data else [])))
    case PutPayload(_) => NOTHING.(cargo := Put(Buffer(v)), pc := Put(Pushing))
    case PushParcel(_, server) =>
      NOTHING.(move := Go(Publisher, InQueue(WriteQueue(server))), pc := Remove, mark := Put(Pending))
    case MarkQueued(_) =>
      NOTHING.(status := Put(QUEUED), mark := Put(if DonePut(v) then Late else if RunningPut(v) then Mid else Early))
    case Refuse(_) => NOTHING.(move := Go(Publisher, Refused))
    case SkipMark(_) => NOTHING.(mark := Put(Skipped))
    // Subscribe
    case Ask(_, server) => NOTHING.(move := Enter(InQueue(ReadQueue(server))), sub := Put(Asked))
    case AskAsync(_, server) => NOTHING.(move := Enter(InQueue(ReadQueue(server))), sub := Put(Async))
    case SeeAnswer(_) => NOTHING.(sub := Put(Seen))
    case ClearAnswer(_) => NOTHING.(status := Remove, sub := Put(Cleared))
    case Fetch(_) => NOTHING.(sub := Put(Fetched(GetOr(v.cargo, []), v.sub == Some(Cleared))))
    case Release(_) =>
      NOTHING.(cargo := Remove,
               sub := if v.sub.Some? && v.sub.value.Fetched?
                      then Put(Answered(v.sub.value.data, v.sub.value.waited)) else Keep)
    // Wait
    case BeginWait(_, _) => NOTHING
    case SeeDone(_) => NOTHING
    case EraseStatus(_, _) => NOTHING.(status := Remove)
    case EndWait(_) => NOTHING
    // source tasks
    case Pop(a, q, _) => NOTHING.(move := Go(InQueue(q), InBatch(a)))
    case Start(a, _) => NOTHING.(move := Go(InBatch(a), Current(a)), pc := Put(Ready))
    case Load(_) => NOTHING.(pc := Put(Loaded(GetOr(v.cargo, []))))
    case Park(_) => NOTHING.(temp := Put(Overwrite(GetOr(v.temp, []), 0, Buffer(v))), pc := Put(Parked))
    case Unstow(_) => NOTHING.(cargo := Remove, pc := Put(Unstowed))
    case MarkRunning(_) => NOTHING.(status := Put(IN_PROGRESS), pc := Put(Running))
    case Emit(a, _) => NOTHING.(move := Go(Current(a), InFlight), pc := Remove)
    // sink tasks
    case Take(i, _) => NOTHING.(move := Go(InFlight, AtSink(i)), pc := Put(Took))
    case Pull(_) =>
      if plan[p].Write? then NOTHING.(pc := Put(Pulled(Slice(GetOr(v.temp, []), 0, p.dataSize))))
      else NOTHING.(pc := Put(Pulled(bytes)), fetched := Put(bytes))
    case Drop(_) => NOTHING.(temp := Remove, pc := Put(Dropped(Buffer(v))))
    case Land(_) =>
      if plan[p].Write? then NOTHING.(land := Some(Buffer(v)), pc := Put(Landed))
      else NOTHING.(cargo := Put(Buffer(v)), pc := Put(Landed))
    case Finish(i, _) => NOTHING.(move := Go(AtSink(i), Finished), status := Put(DONE), pc := Remove)
  }

  /** The bytes in the local buffer. */
  function Buffer(v: View): Bytes {
    match v.pc
    case Some(Putting(d)) => d
    case Some(Loaded(d)) => d
    case Some(Pulled(d)) => d
    case Some(Dropped(d)) => d
    case _ => []
  }

  /** What the step asks of the parcel's program counter, calls and status.  Only a
      client's first step asks where the parcel has been: it uses a parcel once. */
  predicate Guard(plan: Plan, v: View, l: Label, p: Parcel)
    requires p in plan
  {
    match l
    case BeginPublish(_) => plan[p].Write? && v.at.None?
    case PutPayload(_) => v.pc.Some? && v.pc.value.Putting?
    case PushParcel(_, _) => v.pc == Some(Pushing)
    case MarkQueued(_) => v.mark == Some(Pending)
    case SkipMark(_) => v.mark == Some(Pending)
    case Ask(_, _) => plan[p].Read? && v.at.None?
    case AskAsync(_, _) => plan[p].Read? && v.at.None?
    case SeeAnswer(_) => v.sub == Some(Asked) && v.status == Some(DONE)
    case ClearAnswer(_) => v.sub == Some(Seen)
    case Fetch(_) => v.sub == Some(Cleared) || (v.sub == Some(Async) && v.cargo.Some?)
    case Release(_) => v.sub.Some? && v.sub.value.Fetched?
    case Load(_) => v.pc == Some(Ready) && plan[p].Write?
    case Park(_) => v.pc.Some? && v.pc.value.Loaded?
    case Unstow(_) => v.pc == Some(Parked)
    case MarkRunning(_) => v.pc == Some(if plan[p].Write? then Unstowed else Ready)
    case Emit(_, _) => v.pc == Some(Running)
    case Pull(_) => v.pc == Some(Took)
    case Drop(_) => v.pc.Some? && v.pc.value.Pulled? && plan[p].Write?
    case Land(_) => v.pc.Some? && (if plan[p].Write? then v.pc.value.Dropped? else v.pc.value.Pulled?)
    case Finish(_, _) => v.pc == Some(Landed)
    case _ => true
  }

  /** The place that must hold the parcel a step works on, where the program counter
      does not tell. */
  function From(l: Label): Option<Place> {
    match l
    case PutPayload(_) => Some(Publisher)
    case PushParcel(_, _) => Some(Publisher)
    case Refuse(_) => Some(Publisher)
    case Pop(_, q, _) => Some(InQueue(q))
    case Start(a, _) => Some(InBatch(a))
    case Emit(a, _) => Some(Current(a))
    case Take(_, _) => Some(InFlight)
    case Finish(i, _) => Some(AtSink(i))
    case _ => None
  }

  /** The sink works for the parcel's job, and the write job's routing by file name,
      where it says anything, sends the parcel there. */
  predicate MayTake(plan: Plan, sinks: map<nat, Job>, routes: map<string, nat>, i: nat, p: Parcel) {
    && i in sinks && sinks[i] == (if IsWrite(plan, p) then WriteJob else ReadJob)
    && (IsWrite(plan, p) && p.id in routes ==> routes[p.id] == i)
  }

  /** A published parcel that is still under way. */
  predicate Active(plan: Plan, at: map<Parcel, Place>, p: Parcel) {
    IsWrite(plan, p) && p in at && at[p] != Finished && at[p] != Refused
  }

  /** What the queues, the source and sink tasks and the WaitAll calls must look
      like.  No client publishes to a file name and offset for which a parcel is
      still under way.  A source pops until it finds its queue empty and only then handles
      the batch it has, one parcel at a time; a sink handles one parcel at a time. */
  predicate Allows(plan: Plan, s: State, l: Label) {
    match l
    case BeginPublish(p) =>
      forall q :: q in s.at && q != p && Active(plan, s.at, q) ==> q.id != p.id || q.position != p.position
    case BeginWait(w, ps) => w !in s.waiters && forall p :: p in ps ==> p in plan
    case SeeDone(w) =>
      w in s.waiters && s.waiters[w].seen.None? && s.waiters[w].todo != [] &&
      Look(s.status, KeyOf(s.waiters[w].todo[0])) == Some(DONE)
    case EraseStatus(w, p) =>
      w in s.waiters && s.waiters[w].seen.Some? && s.waiters[w].todo != [] && s.waiters[w].todo[0] == p
    case EndWait(w) => w in s.waiters && s.waiters[w].todo == []
    case Pop(a, q, p) =>
      a in s.serves && s.serves[a] == q && a !in s.looping && Held(s, InQueue(q)) != [] && Held(s, InQueue(q))[0] == p
    case Start(a, p) =>
      a in s.serves && Held(s, InBatch(a)) != [] && Held(s, InBatch(a))[0] == p && Held(s, Current(a)) == [] &&
      (a in s.looping || Held(s, InQueue(s.serves[a])) == [])
    case Take(i, p) =>
      MayTake(plan, s.sinks, s.routes, i, p) && Held(s, AtSink(i)) == []
    case _ => true
  }

  /** The parcel a step works on. */
  function Who(l: Label): Option<Parcel> {
    match l
    case BeginWait(_, _) => None
    case SeeDone(_) => None
    case EndWait(_) => None
    case _ => Some(l.p)
  }

  predicate Enabled(plan: Plan, s: State, l: Label) {
    && Allows(plan, s, l)
    && (Who(l).Some? ==>
          var p := Who(l).value;
          p in plan && Guard(plan, ViewOf(plan, s, p), l, p) && (From(l).Some? ==> p in Held(s, From(l).value)))
  }

  /** A queue or batch without the first occurrence of `p`. */
  function Without(q: seq<Parcel>, p: Parcel): seq<Parcel> {
    if q == [] then [] else if q[0] == p then q[1..] else [q[0]] + Without(q[1..], p)
  }

  function Moved(held: map<Place, seq<Parcel>>, p: Parcel, m: Move): map<Place, seq<Parcel>> {
    match m
    case Stay => held
    case Enter(to) => held[to := GetOr(Look(held, to), []) + [p]]
    case Go(from, to) =>
      var rest := held[from := Without(GetOr(Look(held, from), []), p)];
      rest[to := GetOr(Look(rest, to), []) + [p]]
  }

  /** The state after `p` has undergone `e`. */
  function Apply(s: State, p: Parcel, e: Effect): State {
    s.(warehouse := Update(s.warehouse, KeyOf(p), e.cargo),
       status := Update(s.status, KeyOf(p), e.status),
       files := if e.land.Some? then WriteParcel(s.files, p, e.land.value) else Update(s.files, TempOf(p), e.temp),
       held := Moved(s.held, p, e.move),
       pc := Update(s.pc, p, e.pc),
       subs := Update(s.subs, p, e.sub),
       at := if e.move.Stay? then s.at else s.at[p := e.move.to],
       mark := Update(s.mark, p, e.mark),
       fetched := Update(s.fetched, p, e.fetched),
       stored := if e.land.Some? then s.stored + [p] else s.stored)
  }

  function WaitersAfter(s: State, l: Label): map<nat, Waiter> {
    match l
    case BeginWait(w, ps) => s.waiters[w := Waiter(ps, [], None)]
    case SeeDone(w) =>
      if w in s.waiters && s.waiters[w].todo != []
      then s.waiters[w := s.waiters[w].(seen := Look(s.status, KeyOf(s.waiters[w].todo[0])))] else s.waiters
    case EraseStatus(w, _) =>
      if w in s.waiters && s.waiters[w].todo != [] && s.waiters[w].seen.Some?
      then s.waiters[w := Waiter(s.waiters[w].todo[1..], s.waiters[w].got + [s.waiters[w].seen.value], None)]
      else s.waiters
    case EndWait(w) => s.waiters - {w}
    case _ => s.waiters
  }

  /** A source enters its loop when it starts a batch and leaves it with the last
      parcel of the batch. */
  function LoopingAfter(s: State, l: Label): set<nat> {
    match l
    case Start(a, _) => s.looping + {a}
    case Emit(a, _) => if Held(s, InBatch(a)) == [] then s.looping - {a} else s.looping
    case _ => s.looping
  }

  function StepEffect(plan: Plan, s: State, l: Label, p: Parcel): Effect
    requires p in plan
  {
    EffectOf(plan, ViewOf(plan, s, p), l, p, ReadFile(s.files, StorageOf(p), p.position, p.dataSize))
  }

  function Next(plan: Plan, s: State, l: Label): State
    requires Enabled(plan, s, l)
  {
    var t := if Who(l).Some? then Apply(s, Who(l).value, StepEffect(plan, s, l, Who(l).value)) else s;
    t.(waiters := WaitersAfter(s, l), looping := LoopingAfter(s, l))
  }

  /** `ls` is a run from `s` to `t`. */
  ghost predicate Run(plan: Plan, s: State, ls: seq<Label>, t: State)
    decreases |ls|
  {
    if ls == [] then s == t
    else Enabled(plan, s, ls[0]) && Run(plan, Next(plan, s, ls[0]), ls[1..], t)
  }

  /** What a run may rely on: parcels are fresh, no planned file is one of the
      temporary files, and a payload has the announced size. */
  ghost predicate ValidPlan(plan: Plan) {
    && (forall p, q :: p in plan && q in plan && KeyOf(p) == KeyOf(q) ==> p == q)
    && (forall p, q :: p in plan && IsWrite(plan, q) ==> StorageOf(p) != TempOf(q))
    && (forall p :: IsWrite(plan, p) ==> |plan[p].data| == p.dataSize)
  }

  /** Nothing of the plan has started; other entries of the shared maps and all
      files are arbitrary. */
  ghost predicate Init(plan: Plan, s: State) {
    && (forall p :: p in plan ==> KeyOf(p) !in s.warehouse && KeyOf(p) !in s.status)
    && (forall pl :: pl in s.held ==> s.held[pl] == [])
    && s.pc == map[] && s.subs == map[] && s.waiters == map[] && s.looping == {}
    && s.at == map[] && s.mark == map[] && s.fetched == map[] && s.stored == []
  }
}
