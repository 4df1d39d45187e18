/** Every step of a source or sink task brings a parcel nearer its end, and as long
    as a parcel is on its way some task can step. */
module PipelineProgress {
  import opened Parcels
  import opened FileStore
  import opened Options
  import opened Sums
  import opened Pipeline
  import opened PipelineFrame
  import opened PipelineLocal
  import opened PipelineInv

  /** The steps a parcel still has to take in the hands of source and sink tasks. */
  function StagesLeft(at: Place, pc: Option<Pc>): nat {
    match at
    case InQueue(_) => 12
    case InBatch(_) => 11
    case Current(_) =>
      (match pc
       case Some(Ready) => 10
       case Some(Loaded(_)) => 9
       case Some(Parked) => 8
       case Some(Unstowed) => 7
       case _ => 6)
    case InFlight => 5
    case AtSink(_) =>
      (match pc
       case Some(Took) => 4
       case Some(Pulled(_)) => 3
       case Some(Dropped(_)) => 2
       case _ => 1)
    case _ => 0
  }

  function Ranks(at: map<Parcel, Place>, pc: map<Parcel, Pc>): map<Parcel, nat> {
    map p | p in at :: StagesLeft(at[p], Look(pc, p))
  }

  ghost function Rank(s: State): nat {
    Sum(Ranks(s.at, s.pc))
  }

  predicate TaskStep(l: Label) {
    l.Pop? || l.Start? || l.Load? || l.Park? || l.Unstow? || l.MarkRunning? || l.Emit? ||
    l.Take? || l.Pull? || l.Drop? || l.Land? || l.Finish?
  }

  function ParcelOf(l: Label): Parcel
    requires TaskStep(l)
  {
    l.p
  }

  /** A parcel joins a queue. */
  predicate Arrival(l: Label) {
    l.PushParcel? || l.Ask? || l.AskAsync?
  }

  function LocalStages(v: View): nat {
    if v.at.Some? then StagesLeft(v.at.value, v.pc) else 0
  }

  lemma LocalRank(plan: Plan, v: View, l: Label, p: Parcel, bytes: Bytes)
    requires p in plan && LocalOk(plan, p, v) && Fits(plan, v, l, p) && Who(l) == Some(p)
    ensures RankChange(l, LocalStages(v), LocalStages(LocalNext(plan, v, l, p, bytes)))
  {
  }

  lemma RanksUpdate(at: map<Parcel, Place>, pc: map<Parcel, Pc>, p: Parcel, m: Move, c: Change<Pc>)
    requires p in at || !m.Stay?
    ensures Ranks(AtAfter(at, p, m), Update(pc, p, c))
         == Ranks(at, pc)[p := StagesLeft(AtAfter(at, p, m)[p], Look(Update(pc, p, c), p))]
  {
  }

  lemma OnlyOldParcelsStay(plan: Plan, v: View, l: Label, p: Parcel, bytes: Bytes)
    requires p in plan && LocalOk(plan, p, v) && Fits(plan, v, l, p) && Who(l) == Some(p)
    requires l.EraseStatus? ==> DonePut(v)
    ensures v.at.Some? || !EffectOf(plan, v, l, p, bytes).move.Stay?
  {
  }

  lemma RankOfStepped(plan: Plan, s: State, p: Parcel, e: Effect, t: State)
    requires Stepped(s, p, e, t) && (p in s.at || !e.move.Stay?)
    ensures Rank(t) == Rank(s) - LocalStages(ViewOf(plan, s, p)) + LocalStages(After(ViewOf(plan, s, p), e))
  {
    SteppedMoves(s, p, e, t);
    LookUpdated(s.pc, p, e.pc, p);
    RanksUpdate(s.at, s.pc, p, e.move, e.pc);
    SumUpdate(Ranks(s.at, s.pc), p, StagesLeft(t.at[p], Look(t.pc, p)));
  }

  predicate RankChange(l: Label, n: nat, n': nat) {
    if TaskStep(l) then n' < n else if Arrival(l) then n' == n + 12 else n' == n
  }

  /** Task steps lower the rank, arrivals raise it by 12, other steps keep it. */
  lemma RankStep(plan: Plan, base: Files, s: State, l: Label)
    requires ValidPlan(plan) && Inv(plan, base, s) && Enabled(plan, s, l)
    ensures RankChange(l, Rank(s), Rank(Next(plan, s, l)))
  {
    InvProceeds(plan, base, s, l);
    if Who(l).Some? {
      RankStepOf(plan, s, l, Who(l).value);
    } else {
      RankStepOfNone(plan, s, l);
    }
  }

  lemma RankStepOfNone(plan: Plan, s: State, l: Label)
    requires Enabled(plan, s, l) && Who(l) == None
    ensures RankChange(l, Rank(s), Rank(Next(plan, s, l)))
  {
    NextOfNone(plan, s, l);
  }

  lemma RankStepOf(plan: Plan, s: State, l: Label, p: Parcel)
    requires WaitersOk(plan, s) && Steps(plan, s, l, p)
    ensures RankChange(l, Rank(s), Rank(Next(plan, s, l)))
  {
    var v, bytes := ViewOf(plan, s, p), ReadFile(s.files, StorageOf(p), p.position, p.dataSize);
    assert l.EraseStatus? ==> WaiterOk(plan, s.at, s.waiters[l.w]);
    OnlyOldParcelsStay(plan, v, l, p, bytes);
    LocalRank(plan, v, l, p, bytes);
    NextIsStepped(plan, s, l, p);
    RankOfStepped(plan, s, p, StepEffect(plan, s, l, p), Next(plan, s, l));
  }

  function Count(ls: seq<Label>, f: Label -> bool): nat {
    if ls == [] then 0 else (if f(ls[0]) then 1 else 0) + Count(ls[1..], f)
  }

  /** In every run the tasks take at most 12 steps per arrival, over those owed at
      the start; without arrivals they come to rest. */
  lemma {:induction false} TaskStepsBounded(plan: Plan, base: Files, s: State, ls: seq<Label>, t: State)
    requires ValidPlan(plan) && Inv(plan, base, s) && Run(plan, s, ls, t)
    ensures Count(ls, TaskStep) + Rank(t) <= Rank(s) + 12 * Count(ls, Arrival)
    decreases |ls|
  {
    if ls != [] {
      RankStep(plan, base, s, ls[0]);
      InvStep(plan, base, s, ls[0]);
      TaskStepsBounded(plan, base, Next(plan, s, ls[0]), ls[1..], t);
    }
  }

  // ---------- some task can always step ----------

  predicate OnItsWay(pl: Place) {
    pl.InQueue? || pl.InBatch? || pl.Current? || pl.InFlight? || pl.AtSink?
  }

  /** Some sink task may take the parcel. */
  ghost predicate HasSink(plan: Plan, sinks: map<nat, Job>, routes: map<string, nat>, p: Parcel) {
    exists i :: MayTake(plan, sinks, routes, i, p)
  }

  predicate HasSource(serves: map<nat, Queue>, q: Queue) {
    exists a :: a in serves && serves[a] == q
  }

  /** Every queue that holds a parcel has a source task, and every parcel taken on has a
      sink task that may take it. */
  ghost predicate Staffed(plan: Plan, s: State) {
    && (forall q :: Held(s, InQueue(q)) != [] ==> HasSource(s.serves, q))
    && (forall p :: p in s.at ==> HasSink(plan, s.sinks, s.routes, p))
  }

  lemma HeldIsAt(plan: Plan, base: Files, s: State, pl: Place)
    requires Inv(plan, base, s) && Held(s, pl) != []
    ensures Look(s.at, Held(s, pl)[0]) == Some(pl) && Held(s, pl)[0] in plan
  {
    var p := Held(s, pl)[0];
    assert Mult(s.held, pl, p) > 0;
    assert KindOk(plan, s, p, s.at[p]);
  }

  lemma AtIsHeld(plan: Plan, base: Files, s: State, p: Parcel)
    requires Inv(plan, base, s) && p in s.at
    ensures p in Held(s, s.at[p]) && p in plan
  {
    assert Mult(s.held, s.at[p], p) == 1;
    assert KindOk(plan, s, p, s.at[p]);
  }

  lemma ViewFits(plan: Plan, s: State, l: Label, p: Parcel)
    requires p in plan && Who(l) == Some(p) && Guard(plan, ViewOf(plan, s, p), l, p) && Allows(plan, s, l)
    requires From(l).Some? ==> p in Held(s, From(l).value)
    ensures Enabled(plan, s, l)
  {
  }

  /** The step asks nothing of queues and other parcels. */
  predicate NeedsLittle(l: Label) {
    TaskStep(l) && !l.Pop? && !l.Start? && !l.Take?
  }

  function CurrentLabel(plan: Plan, v: View, a: nat, p: Parcel): Label
    requires p in plan
  {
    match v.pc
    case Some(Ready) => if plan[p].Write? then Load(p) else MarkRunning(p)
    case Some(Loaded(_)) => Park(p)
    case Some(Parked) => Unstow(p)
    case Some(Unstowed) => MarkRunning(p)
    case _ => Emit(a, p)
  }

  lemma CurrentFits(plan: Plan, v: View, a: nat, p: Parcel)
    requires p in plan && LocalOk(plan, p, v) && v.at == Some(Current(a))
    ensures var l := CurrentLabel(plan, v, a, p); NeedsLittle(l) && Who(l) == Some(p) && Fits(plan, v, l, p)
  {
  }

  lemma CurrentCanStep(plan: Plan, base: Files, s: State, a: nat) returns (l: Label)
    requires Inv(plan, base, s) && Held(s, Current(a)) != []
    ensures TaskStep(l) && Enabled(plan, s, l)
  {
    HeldIsAt(plan, base, s, Current(a));
    var p := Held(s, Current(a))[0];
    l := CurrentLabel(plan, ViewOf(plan, s, p), a, p);
    CurrentFits(plan, ViewOf(plan, s, p), a, p);
    ViewFits(plan, s, l, p);
  }

  function SinkLabel(plan: Plan, v: View, i: nat, p: Parcel): Label
    requires p in plan
  {
    match v.pc
    case Some(Took) => Pull(p)
    case Some(Pulled(_)) => if plan[p].Write? then Drop(p) else Land(p)
    case Some(Dropped(_)) => Land(p)
    case _ => Finish(i, p)
  }

  lemma SinkFits(plan: Plan, v: View, i: nat, p: Parcel)
    requires p in plan && LocalOk(plan, p, v) && v.at == Some(AtSink(i))
    ensures var l := SinkLabel(plan, v, i, p); NeedsLittle(l) && Who(l) == Some(p) && Fits(plan, v, l, p)
  {
  }

  lemma SinkCanStep(plan: Plan, base: Files, s: State, i: nat, p: Parcel) returns (l: Label)
    requires Inv(plan, base, s) && Look(s.at, p) == Some(AtSink(i))
    ensures TaskStep(l) && Enabled(plan, s, l)
  {
    AtIsHeld(plan, base, s, p);
    l := SinkLabel(plan, ViewOf(plan, s, p), i, p);
    SinkFits(plan, ViewOf(plan, s, p), i, p);
    ViewFits(plan, s, l, p);
  }

  /** A source with something popped or something to pop can step. */
  lemma CanPop(plan: Plan, s: State, a: nat, q: Queue, p: Parcel)
    requires p in plan
    requires a in s.serves && s.serves[a] == q && a !in s.looping
    requires Held(s, InQueue(q)) != [] && Held(s, InQueue(q))[0] == p
    ensures Enabled(plan, s, Pop(a, q, p))
  {
  }

  lemma CanStart(plan: Plan, s: State, a: nat, p: Parcel)
    requires p in plan
    requires a in s.serves && Held(s, InBatch(a)) != [] && Held(s, InBatch(a))[0] == p && Held(s, Current(a)) == []
    requires a in s.looping || Held(s, InQueue(s.serves[a])) == []
    ensures Enabled(plan, s, Start(a, p))
  {
  }

  lemma SourceCanStep(plan: Plan, base: Files, s: State, a: nat) returns (l: Label)
    requires Inv(plan, base, s) && a in s.serves
    requires Held(s, InBatch(a)) != [] || Held(s, Current(a)) != [] || Held(s, InQueue(s.serves[a])) != []
    ensures TaskStep(l) && Enabled(plan, s, l)
  {
    var q := s.serves[a];
    if Held(s, Current(a)) != [] {
      l := CurrentCanStep(plan, base, s, a);
    } else if a !in s.looping && Held(s, InQueue(q)) != [] {
      HeldIsAt(plan, base, s, InQueue(q));
      l := Pop(a, q, Held(s, InQueue(q))[0]);
      CanPop(plan, s, a, q, l.p);
    } else {
      HeldIsAt(plan, base, s, InBatch(a));
      l := Start(a, Held(s, InBatch(a))[0]);
      CanStart(plan, s, a, l.p);
    }
  }

  lemma CanTake(plan: Plan, s: State, i: nat, p: Parcel)
    requires p in plan && p in Held(s, InFlight) && Held(s, AtSink(i)) == []
    requires MayTake(plan, s.sinks, s.routes, i, p)
    ensures Enabled(plan, s, Take(i, p))
  {
  }

  /** An emitted parcel waits for a sink that may take it, the routed one if it is
      routed; that sink takes it or is busy and can step. */
  lemma FlightCanStep(plan: Plan, base: Files, s: State, p: Parcel) returns (l: Label)
    requires Inv(plan, base, s) && Look(s.at, p) == Some(InFlight) && HasSink(plan, s.sinks, s.routes, p)
    ensures TaskStep(l) && Enabled(plan, s, l)
  {
    AtIsHeld(plan, base, s, p);
    var i :| MayTake(plan, s.sinks, s.routes, i, p);
    if Held(s, AtSink(i)) == [] {
      l := Take(i, p);
      CanTake(plan, s, i, p);
    } else {
      HeldIsAt(plan, base, s, AtSink(i));
      l := SinkCanStep(plan, base, s, i, Held(s, AtSink(i))[0]);
    }
  }

  /** While a parcel is on its way, some source or sink task can step. */
  lemma SomeTaskCanStep(plan: Plan, base: Files, s: State, p: Parcel) returns (l: Label)
    requires Inv(plan, base, s) && Staffed(plan, s)
    requires p in s.at && OnItsWay(s.at[p])
    ensures TaskStep(l) && Enabled(plan, s, l)
  {
    AtIsHeld(plan, base, s, p);
    assert KindOk(plan, s, p, s.at[p]);
    match s.at[p]
    case InQueue(q) =>
      assert HasSource(s.serves, q);
      var a :| a in s.serves && s.serves[a] == q;
      l := SourceCanStep(plan, base, s, a);
    case InBatch(a) => l := SourceCanStep(plan, base, s, a);
    case Current(a) => l := SourceCanStep(plan, base, s, a);
    case InFlight => l := FlightCanStep(plan, base, s, p);
    case AtSink(i) => l := SinkCanStep(plan, base, s, i, p);
  }

  /** Where no task can step, no parcel is on its way; a published one has its
      payload in storage and, unless its QUEUED put came after the DONE put, its
      status is DONE or was consumed by a Wait. */
  lemma RestIsFinished(plan: Plan, base: Files, s: State, p: Parcel)
    requires Inv(plan, base, s) && Staffed(plan, s)
    requires forall l :: TaskStep(l) ==> !Enabled(plan, s, l)
    requires p in s.at
    ensures !OnItsWay(s.at[p])
    ensures IsWrite(plan, p) && p in s.mark && s.mark[p] != Late ==>
              s.at[p] == Finished && p in s.stored &&
              (Look(s.status, KeyOf(p)) == Some(DONE) || Look(s.status, KeyOf(p)) == None)
    ensures IsRead(plan, p) ==> ReadIsDone(s, p)
  {
    if OnItsWay(s.at[p]) {
      var l := SomeTaskCanStep(plan, base, s, p);
      assert false;
    }
    AtIsHeld(plan, base, s, p);
    FinishedLooks(plan, s, p);
  }

  /** A finished subscription: the bytes that were read wait in the warehouse or have
      been handed out. */
  predicate ReadIsDone(s: State, p: Parcel) {
    && Look(s.at, p) == Some(Finished) && p in s.fetched && p in s.subs
    && (Look(s.status, KeyOf(p)) == Some(DONE) || Look(s.status, KeyOf(p)) == None)
    && if s.subs[p].Answered? then s.subs[p].data == s.fetched[p]
       else Look(s.warehouse, KeyOf(p)) == Some(s.fetched[p])
  }

  lemma FinishedLooks(plan: Plan, s: State, p: Parcel)
    requires p in plan && LocalOk(plan, p, ViewOf(plan, s, p)) && p in s.at && !OnItsWay(s.at[p])
    ensures IsWrite(plan, p) && p in s.mark && s.mark[p] != Late ==>
              s.at[p] == Finished && p in s.stored &&
              (Look(s.status, KeyOf(p)) == Some(DONE) || Look(s.status, KeyOf(p)) == None)
    ensures IsRead(plan, p) ==> ReadIsDone(s, p)
  {
    var v := ViewOf(plan, s, p);
    assert v.mark == Look(s.mark, p) && v.fetched == Look(s.fetched, p) && v.sub == Look(s.subs, p);
  }

  /** The steps of the tasks put nothing into a queue and take on no parcel. */
  lemma TasksLeaveQueues(plan: Plan, v: View, l: Label, p: Parcel, bytes: Bytes)
    requires p in plan && Who(l) == Some(p) && TaskStep(l)
    ensures var m := EffectOf(plan, v, l, p, bytes).move; !m.Enter? && (m.Go? ==> !m.to.InQueue?)
  {
  }

  lemma TaskStepMoves(plan: Plan, s: State, l: Label, p: Parcel)
    requires Steps(plan, s, l, p) && TaskStep(l)
    ensures var e := StepEffect(plan, s, l, p);
            && Stepped(s, p, e, Next(plan, s, l)) && Follows(s.at, p, e.move)
            && !e.move.Enter? && (e.move.Go? ==> !e.move.to.InQueue?)
  {
    NextIsStepped(plan, s, l, p);
    StepsFollow(plan, s, l, p);
    TasksLeaveQueues(plan, ViewOf(plan, s, p), l, p, ReadFile(s.files, StorageOf(p), p.position, p.dataSize));
  }

  lemma QueuesShrink(plan: Plan, s: State, p: Parcel, e: Effect, t: State)
    requires Custody(s.held, s.at) && Staffed(plan, s) && Stepped(s, p, e, t) && Follows(s.at, p, e.move)
    requires !e.move.Enter? && (e.move.Go? ==> !e.move.to.InQueue?)
    ensures Staffed(plan, t)
  {
    forall q | Held(t, InQueue(q)) != []
      ensures HasSource(t.serves, q)
    {
      SteppedLengths(s, p, e, t, InQueue(q));
      assert Held(s, InQueue(q)) != [];
    }
    assert t.at.Keys == s.at.Keys;
  }

  /** From every reachable state the tasks alone can bring every parcel on its way
      to its end. */
  lemma {:induction false} TasksCanFinish(plan: Plan, base: Files, s: State) returns (ls: seq<Label>, t: State)
    requires ValidPlan(plan) && Inv(plan, base, s) && Staffed(plan, s)
    ensures Run(plan, s, ls, t) && Inv(plan, base, t) && (forall l :: l in ls ==> TaskStep(l))
    ensures forall p :: p in t.at ==> !OnItsWay(t.at[p])
    decreases Rank(s)
  {
    if p :| p in s.at && OnItsWay(s.at[p]) {
      var l := SomeTaskCanStep(plan, base, s, p);
      var s' := Next(plan, s, l);
      RankStep(plan, base, s, l);
      InvStep(plan, base, s, l);
      InvProceeds(plan, base, s, l);
      TaskStepMoves(plan, s, l, ParcelOf(l));
      QueuesShrink(plan, s, ParcelOf(l), StepEffect(plan, s, l, ParcelOf(l)), s');
      var rest;
      rest, t := TasksCanFinish(plan, base, s');
      ls := [l] + rest;
      assert ls[1..] == rest;
    } else {
      ls, t := [], s;
    }
  }
}
