/** The transition system and the task methods describe the same work: a task whose
    steps on one parcel are not interrupted does what its handler function says. */
module PipelineTasks {
  import opened Parcels
  import opened FileStore
  import opened Options
  import opened RheaClient
  import opened RheaJob
  import opened Pipeline
  import opened PipelineFrame
  import opened PipelineLocal

  function SharedOf(s: State): Shared {
    Shared(s.warehouse, s.status, s.files)
  }

  function Effected(sh: Shared, p: Parcel, e: Effect): Shared {
    Shared(Update(sh.warehouse, KeyOf(p), e.cargo), Update(sh.status, KeyOf(p), e.status),
           if e.land.Some? then WriteParcel(sh.files, p, e.land.value) else Update(sh.files, TempOf(p), e.temp))
  }

  /** The steps of a task within its handling of one parcel. */
  predicate Handling(l: Label) {
    l.Load? || l.Park? || l.Unstow? || l.MarkRunning? || l.Emit? || l.Pull? || l.Drop? || l.Land? || l.Finish?
  }

  predicate Holds(s: State, p: Parcel, pl: Place, pc: Pc) {
    p in Held(s, pl) && Look(s.pc, p) == Some(pc)
  }

  /** One step of a task whose effect is `e`. */
  lemma TaskRun(plan: Plan, s: State, l: Label, p: Parcel, e: Effect) returns (t: State)
    requires p in plan && Handling(l) && l.p == p && Guard(plan, ViewOf(plan, s, p), l, p)
    requires From(l).Some? ==> p in Held(s, From(l).value)
    requires e == StepEffect(plan, s, l, p)
    ensures Run(plan, s, [l], t) && SharedOf(t) == Effected(SharedOf(s), p, e)
    ensures if e.move.Stay? then t.held == s.held else p in Held(t, e.move.to)
    ensures Look(t.pc, p) == Changed(Look(s.pc, p), e.pc)
  {
    HandlingIsEnabled(plan, s, l, p);
    t := Next(plan, s, l);
    NextIsStepped(plan, s, l, p);
    SteppedShared(s, p, e, t);
    SingleRun(plan, s, l);
  }

  lemma HandlingIsEnabled(plan: Plan, s: State, l: Label, p: Parcel)
    requires p in plan && Handling(l) && l.p == p && Guard(plan, ViewOf(plan, s, p), l, p)
    requires From(l).Some? ==> p in Held(s, From(l).value)
    ensures Who(l) == Some(p) && Enabled(plan, s, l)
  {
  }

  lemma SteppedShared(s: State, p: Parcel, e: Effect, t: State)
    requires Stepped(s, p, e, t)
    ensures SharedOf(t) == Effected(SharedOf(s), p, e)
    ensures if e.move.Stay? then t.held == s.held else p in Held(t, e.move.to)
    ensures Look(t.pc, p) == Changed(Look(s.pc, p), e.pc)
  {
    LookUpdated(s.pc, p, e.pc, p);
  }

  // ---------- the steps of a source ----------

  lemma LoadRun(plan: Plan, s: State, a: nat, p: Parcel) returns (t: State)
    requires IsWrite(plan, p) && Holds(s, p, Current(a), Ready)
    ensures Run(plan, s, [Load(p)], t) && SharedOf(t) == SharedOf(s)
    ensures Holds(t, p, Current(a), Loaded(CargoOf(s.warehouse, p)))
  {
    t := TaskRun(plan, s, Load(p), p, NOTHING.(pc := Put(Loaded(CargoOf(s.warehouse, p)))));
  }

  lemma ParkRun(plan: Plan, s: State, a: nat, p: Parcel, d: Bytes) returns (t: State)
    requires IsWrite(plan, p) && Holds(s, p, Current(a), Loaded(d))
    ensures Run(plan, s, [Park(p)], t) && Holds(t, p, Current(a), Parked)
    ensures SharedOf(t) == SharedOf(s).(files := WriteFile(s.files, TempOf(p), 0, d))
  {
    var after := Overwrite(Content(s.files, TempOf(p)), 0, d);
    t := TaskRun(plan, s, Park(p), p, NOTHING.(temp := Put(after), pc := Put(Parked)));
  }

  lemma UnstowRun(plan: Plan, s: State, a: nat, p: Parcel) returns (t: State)
    requires IsWrite(plan, p) && Holds(s, p, Current(a), Parked)
    ensures Run(plan, s, [Unstow(p)], t) && Holds(t, p, Current(a), Unstowed)
    ensures SharedOf(t) == SharedOf(s).(warehouse := s.warehouse - {KeyOf(p)})
  {
    t := TaskRun(plan, s, Unstow(p), p, NOTHING.(cargo := Remove, pc := Put(Unstowed)));
  }

  lemma MarkRunningRun(plan: Plan, s: State, a: nat, p: Parcel) returns (t: State)
    requires p in plan && Holds(s, p, Current(a), if plan[p].Write? then Unstowed else Ready)
    ensures Run(plan, s, [MarkRunning(p)], t) && Holds(t, p, Current(a), Running)
    ensures SharedOf(t) == SharedOf(s).(status := s.status[KeyOf(p) := IN_PROGRESS])
  {
    t := TaskRun(plan, s, MarkRunning(p), p, NOTHING.(status := Put(IN_PROGRESS), pc := Put(Running)));
  }

  lemma EmitRun(plan: Plan, s: State, a: nat, p: Parcel) returns (t: State)
    requires p in plan && Holds(s, p, Current(a), Running)
    ensures Run(plan, s, [Emit(a, p)], t) && p in Held(t, InFlight) && SharedOf(t) == SharedOf(s)
  {
    t := TaskRun(plan, s, Emit(a, p), p, NOTHING.(move := Go(Current(a), InFlight), pc := Remove));
  }

  // ---------- the steps of a sink ----------

  lemma PullRun(plan: Plan, s: State, i: nat, p: Parcel) returns (t: State)
    requires IsWrite(plan, p) && Holds(s, p, AtSink(i), Took)
    ensures Run(plan, s, [Pull(p)], t) && SharedOf(t) == SharedOf(s)
    ensures Holds(t, p, AtSink(i), Pulled(ReadFile(s.files, TempOf(p), 0, p.dataSize)))
  {
    t := TaskRun(plan, s, Pull(p), p, NOTHING.(pc := Put(Pulled(ReadFile(s.files, TempOf(p), 0, p.dataSize)))));
  }

  lemma DropRun(plan: Plan, s: State, i: nat, p: Parcel, d: Bytes) returns (t: State)
    requires IsWrite(plan, p) && Holds(s, p, AtSink(i), Pulled(d))
    ensures Run(plan, s, [Drop(p)], t) && Holds(t, p, AtSink(i), Dropped(d))
    ensures SharedOf(t) == SharedOf(s).(files := s.files - {TempOf(p)})
  {
    t := TaskRun(plan, s, Drop(p), p, NOTHING.(temp := Remove, pc := Put(Dropped(d))));
  }

  lemma LandRun(plan: Plan, s: State, i: nat, p: Parcel, d: Bytes) returns (t: State)
    requires IsWrite(plan, p) && Holds(s, p, AtSink(i), Dropped(d))
    ensures Run(plan, s, [Land(p)], t) && Holds(t, p, AtSink(i), Landed)
    ensures SharedOf(t) == SharedOf(s).(files := WriteParcel(s.files, p, d))
  {
    t := TaskRun(plan, s, Land(p), p, NOTHING.(land := Some(d), pc := Put(Landed)));
  }

  lemma ReadPullRun(plan: Plan, s: State, i: nat, p: Parcel) returns (t: State)
    requires IsRead(plan, p) && Holds(s, p, AtSink(i), Took)
    ensures Run(plan, s, [Pull(p)], t) && SharedOf(t) == SharedOf(s)
    ensures Holds(t, p, AtSink(i), Pulled(ReadFile(s.files, StorageOf(p), p.position, p.dataSize)))
  {
    var d := ReadFile(s.files, StorageOf(p), p.position, p.dataSize);
    t := TaskRun(plan, s, Pull(p), p, NOTHING.(pc := Put(Pulled(d)), fetched := Put(d)));
  }

  lemma ReadLandRun(plan: Plan, s: State, i: nat, p: Parcel, d: Bytes) returns (t: State)
    requires IsRead(plan, p) && Holds(s, p, AtSink(i), Pulled(d))
    ensures Run(plan, s, [Land(p)], t) && Holds(t, p, AtSink(i), Landed)
    ensures SharedOf(t) == SharedOf(s).(warehouse := s.warehouse[KeyOf(p) := d])
  {
    t := TaskRun(plan, s, Land(p), p, NOTHING.(cargo := Put(d), pc := Put(Landed)));
  }

  lemma FinishRun(plan: Plan, s: State, i: nat, p: Parcel) returns (t: State)
    requires p in plan && Holds(s, p, AtSink(i), Landed)
    ensures Run(plan, s, [Finish(i, p)], t) && p in Held(t, Finished)
    ensures SharedOf(t) == SharedOf(s).(status := s.status[KeyOf(p) := DONE])
  {
    var e := NOTHING.(move := Go(AtSink(i), Finished), status := Put(DONE), pc := Remove);
    t := TaskRun(plan, s, Finish(i, p), p, e);
  }

  // ---------- whole handlings ----------

  /** The last two steps of either source.  On a subscribed parcel they are all it
      does, and what the read source method does. */
  lemma SourceEndRun(plan: Plan, s: State, a: nat, p: Parcel) returns (t: State)
    requires p in plan && Holds(s, p, Current(a), if plan[p].Write? then Unstowed else Ready)
    ensures Run(plan, s, [MarkRunning(p)] + [Emit(a, p)], t) && p in Held(t, InFlight)
    ensures SharedOf(t) == ReadSourceHandles(SharedOf(s), p)
  {
    var s1 := MarkRunningRun(plan, s, a, p);
    t := EmitRun(plan, s1, a, p);
    RunsCompose(plan, s, [MarkRunning(p)], s1, [Emit(a, p)], t);
  }

  lemma StowRun(plan: Plan, s: State, a: nat, p: Parcel) returns (t: State)
    requires IsWrite(plan, p) && Holds(s, p, Current(a), Ready)
    ensures Run(plan, s, [Load(p)] + [Park(p)], t) && Holds(t, p, Current(a), Parked)
    ensures SharedOf(t) == SharedOf(s).(files := WriteFile(s.files, TempOf(p), 0, CargoOf(s.warehouse, p)))
  {
    var s1 := LoadRun(plan, s, a, p);
    t := ParkRun(plan, s1, a, p, CargoOf(s.warehouse, p));
    RunsCompose(plan, s, [Load(p)], s1, [Park(p)], t);
  }

  /** A source whose steps on a published parcel are not interrupted does to the
      shared state what the write source method does. */
  lemma WriteSourceRun(plan: Plan, s: State, a: nat, p: Parcel) returns (t: State)
    requires IsWrite(plan, p) && Holds(s, p, Current(a), Ready)
    ensures Run(plan, s, [Load(p)] + [Park(p)] + ([Unstow(p)] + ([MarkRunning(p)] + [Emit(a, p)])), t)
    ensures p in Held(t, InFlight) && SharedOf(t) == SourceHandles(SharedOf(s), p)
  {
    var s1 := StowRun(plan, s, a, p);
    var s2 := UnstowRun(plan, s1, a, p);
    t := SourceEndRun(plan, s2, a, p);
    RunsCompose(plan, s1, [Unstow(p)], s2, [MarkRunning(p)] + [Emit(a, p)], t);
    RunsCompose(plan, s, [Load(p)] + [Park(p)], s1, [Unstow(p)] + ([MarkRunning(p)] + [Emit(a, p)]), t);
  }

  lemma UnparkRun(plan: Plan, s: State, i: nat, p: Parcel) returns (t: State)
    requires IsWrite(plan, p) && Holds(s, p, AtSink(i), Took)
    ensures Run(plan, s, [Pull(p)] + [Drop(p)], t)
    ensures Holds(t, p, AtSink(i), Dropped(ReadFile(s.files, TempOf(p), 0, p.dataSize)))
    ensures SharedOf(t) == SharedOf(s).(files := s.files - {TempOf(p)})
  {
    var s1 := PullRun(plan, s, i, p);
    t := DropRun(plan, s1, i, p, ReadFile(s.files, TempOf(p), 0, p.dataSize));
    RunsCompose(plan, s, [Pull(p)], s1, [Drop(p)], t);
  }

  lemma StoreRun(plan: Plan, s: State, i: nat, p: Parcel, d: Bytes) returns (t: State)
    requires IsWrite(plan, p) && Holds(s, p, AtSink(i), Dropped(d))
    ensures Run(plan, s, [Land(p)] + [Finish(i, p)], t) && p in Held(t, Finished)
    ensures SharedOf(t) == Shared(s.warehouse, s.status[KeyOf(p) := DONE], WriteParcel(s.files, p, d))
  {
    var s1 := LandRun(plan, s, i, p, d);
    t := FinishRun(plan, s1, i, p);
    RunsCompose(plan, s, [Land(p)], s1, [Finish(i, p)], t);
  }

  /** A sink whose steps on a published parcel are not interrupted does what the
      write sink method does. */
  lemma WriteSinkRun(plan: Plan, s: State, i: nat, p: Parcel) returns (t: State)
    requires IsWrite(plan, p) && Holds(s, p, AtSink(i), Took)
    ensures Run(plan, s, [Pull(p)] + [Drop(p)] + ([Land(p)] + [Finish(i, p)]), t)
    ensures p in Held(t, Finished) && SharedOf(t) == SinkHandles(SharedOf(s), p)
  {
    var s1 := UnparkRun(plan, s, i, p);
    t := StoreRun(plan, s1, i, p, ReadFile(s.files, TempOf(p), 0, p.dataSize));
    RunsCompose(plan, s, [Pull(p)] + [Drop(p)], s1, [Land(p)] + [Finish(i, p)], t);
  }

  /** Likewise on a subscribed parcel. */
  lemma ReadSinkRun(plan: Plan, s: State, i: nat, p: Parcel) returns (t: State)
    requires IsRead(plan, p) && Holds(s, p, AtSink(i), Took)
    ensures Run(plan, s, [Pull(p)] + ([Land(p)] + [Finish(i, p)]), t)
    ensures p in Held(t, Finished) && SharedOf(t) == ReadSinkHandles(SharedOf(s), p)
  {
    var s1 := ReadPullRun(plan, s, i, p);
    var s2 := ReadLandRun(plan, s1, i, p, ReadFile(s.files, StorageOf(p), p.position, p.dataSize));
    t := FinishRun(plan, s2, i, p);
    RunsCompose(plan, s1, [Land(p)], s2, [Finish(i, p)], t);
    RunsCompose(plan, s, [Pull(p)], s1, [Land(p)] + [Finish(i, p)], t);
  }
}
