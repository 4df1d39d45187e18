/** What every reachable state of the pipeline satisfies. */
module PipelineInv {
  import opened Parcels
  import opened FileStore
  import opened Options
  import opened Pipeline
  import opened PipelineFrame
  import opened PipelineLocal

  /** How often a place holds a parcel. */
  function Mult(held: map<Place, seq<Parcel>>, pl: Place, p: Parcel): nat {
    multiset(GetOr(Look(held, pl), []))[p]
  }

  /** A parcel that has entered the pipeline is held once, at one place; any other
      parcel is held nowhere. */
  ghost predicate Custody(held: map<Place, seq<Parcel>>, at: map<Parcel, Place>) {
    forall p, pl :: Mult(held, pl, p) == if Look(at, p) == Some(pl) then 1 else 0
  }

  ghost predicate AllLocal(plan: Plan, s: State) {
    forall p :: p in plan ==> LocalOk(plan, p, ViewOf(plan, s, p))
  }

  predicate WaiterOk(plan: Plan, at: map<Parcel, Place>, w: Waiter) {
    && (forall p :: p in w.todo ==> p in plan)
    && (w.seen.Some? ==> w.seen == Some(DONE) && w.todo != [] && Look(at, w.todo[0]) == Some(Finished))
    && (forall st :: st in w.got ==> st == DONE)
  }

  ghost predicate WaitersOk(plan: Plan, s: State) {
    forall w :: w in s.waiters ==> WaiterOk(plan, s.at, s.waiters[w])
  }

  /** The files that are not temporary. */
  function Strip(plan: Plan, fs: Files): Files {
    fs - set p | p in plan && plan[p].Write? :: TempOf(p)
  }

  /** Storage is the initial storage with the landed payloads written one after the
      other, each of them once. */
  ghost predicate StorageOk(plan: Plan, base: Files, s: State) {
    && Strip(plan, s.files) == ApplyAll(Strip(plan, base), s.stored, Payloads(plan))
    && (forall p :: p in s.stored ==> IsWrite(plan, p))
    && (forall p :: multiset(s.stored)[p] <= 1)
  }

  /** The parcel's payload is in its temporary file and the sink has not removed it. */
  predicate UsesTemp(plan: Plan, v: View, p: Parcel) {
    IsWrite(plan, p) && v.at.Some? &&
    match v.at.value
    case Current(_) => v.pc == Some(Parked) || v.pc == Some(Unstowed) || v.pc == Some(Running)
    case InFlight => true
    case AtSink(_) => v.pc.Some? && (v.pc.value.Took? || v.pc.value.Pulled?)
    case _ => false
  }

  /** A parcel whose sink is done with the temporary file. */
  predicate LeftTemp(plan: Plan, v: View, p: Parcel) {
    IsWrite(plan, p) && v.at.Some? &&
    match v.at.value
    case AtSink(_) => v.pc.Some? && !v.pc.value.Took? && !v.pc.value.Pulled?
    case Finished => true
    case _ => false
  }

  predicate UserOf(plan: Plan, s: State, k: FileKey, q: Parcel) {
    TempOf(q) == k && UsesTemp(plan, ViewOf(plan, s, q), q)
  }

  /** Once a parcel is done with its temporary file, that file exists only for a
      later parcel of the same name and offset. */
  ghost predicate TempFilesOk(plan: Plan, s: State) {
    forall p :: LeftTemp(plan, ViewOf(plan, s, p), p) && TempOf(p) in s.files ==>
      exists q :: UserOf(plan, s, TempOf(p), q)
  }

  /** A source or sink is at one parcel at a time, and a source in its loop has one left. */
  ghost predicate TasksOk(s: State) {
    && (forall a :: |Held(s, Current(a))| <= 1)
    && (forall i :: |Held(s, AtSink(i))| <= 1)
    && (forall a :: a in s.looping ==> Held(s, InBatch(a)) != [] || Held(s, Current(a)) != [])
    && (forall a :: a !in s.looping ==> Held(s, Current(a)) == [])
  }

  predicate KindOk(plan: Plan, s: State, p: Parcel, pl: Place) {
    match pl
    case InQueue(q) => Belongs(plan, p, q)
    case InBatch(a) => a in s.serves && Belongs(plan, p, s.serves[a])
    case Current(a) => a in s.serves && Belongs(plan, p, s.serves[a])
    case _ => p in plan
  }

  /** Write sources only meet publishing parcels and read sources only subscribing ones. */
  ghost predicate KindsOk(plan: Plan, s: State) {
    forall p :: p in s.at ==> KindOk(plan, s, p, s.at[p])
  }

  ghost predicate Inv(plan: Plan, base: Files, s: State) {
    && Custody(s.held, s.at) && AllLocal(plan, s) && WaitersOk(plan, s)
    && TempsApart(plan, s.at) && TempFilesOk(plan, s)
    && StorageOk(plan, base, s) && TasksOk(s) && KindsOk(plan, s)
  }

  // ---------- custody ----------

  lemma {:induction false} WithoutCounts(q: seq<Parcel>, p: Parcel)
    ensures multiset(Without(q, p)) == multiset(q) - multiset{p}
    ensures p in q ==> |Without(q, p)| == |q| - 1
  {
    if q != [] {
      assert q == [q[0]] + q[1..];
      if q[0] != p { WithoutCounts(q[1..], p); }
    }
  }

  predicate Follows(at: map<Parcel, Place>, p: Parcel, m: Move) {
    match m
    case Stay => true
    case Enter(_) => p !in at
    case Go(from, to) => Look(at, p) == Some(from) && from != to
  }

  function AtAfter(at: map<Parcel, Place>, p: Parcel, m: Move): map<Parcel, Place> {
    if m.Stay? then at else at[p := m.to]
  }

  lemma AddCounts(held: map<Place, seq<Parcel>>, p: Parcel, to: Place, pl: Place, x: Parcel)
    ensures Mult(held[to := GetOr(Look(held, to), []) + [p]], pl, x)
         == Mult(held, pl, x) + (if x == p && pl == to then 1 else 0)
  {
  }

  lemma TakeCounts(held: map<Place, seq<Parcel>>, p: Parcel, from: Place, pl: Place, x: Parcel)
    requires Mult(held, from, p) > 0
    ensures Mult(held[from := Without(GetOr(Look(held, from), []), p)], pl, x)
         == Mult(held, pl, x) - (if x == p && pl == from then 1 else 0)
  {
    WithoutCounts(GetOr(Look(held, from), []), p);
  }

  /** A move takes one occurrence from where it starts and adds one where it ends. */
  lemma MoveCounts(held: map<Place, seq<Parcel>>, p: Parcel, m: Move, pl: Place, x: Parcel)
    requires m.Go? ==> m.from != m.to && Mult(held, m.from, p) > 0
    ensures Mult(Moved(held, p, m), pl, x)
         == Mult(held, pl, x) - (if m.Go? && x == p && pl == m.from then 1 else 0)
                              + (if !m.Stay? && x == p && pl == m.to then 1 else 0)
  {
    match m
    case Stay =>
    case Enter(to) => AddCounts(held, p, to, pl, x);
    case Go(from, to) =>
      TakeCounts(held, p, from, pl, x);
      AddCounts(held[from := Without(GetOr(Look(held, from), []), p)], p, to, pl, x);
  }

  lemma MoveKeepsCustody(held: map<Place, seq<Parcel>>, at: map<Parcel, Place>, p: Parcel, m: Move)
    requires Custody(held, at) && Follows(at, p, m)
    ensures Custody(Moved(held, p, m), AtAfter(at, p, m))
  {
    forall x, pl
      ensures Mult(Moved(held, p, m), pl, x) == if Look(AtAfter(at, p, m), x) == Some(pl) then 1 else 0
    {
      assert m.Go? ==> Mult(held, m.from, p) == 1;
      MoveCounts(held, p, m, pl, x);
      assert Mult(held, pl, x) == if Look(at, x) == Some(pl) then 1 else 0;
    }
  }

  lemma LocalFollows(plan: Plan, v: View, l: Label, p: Parcel, bytes: Bytes)
    requires p in plan && LocalOk(plan, p, v) && Fits(plan, v, l, p)
    ensures match EffectOf(plan, v, l, p, bytes).move
            case Stay => true
            case Enter(_) => v.at.None?
            case Go(from, to) => v.at == Some(from) && from != to
  {
  }

  lemma StepsFollow(plan: Plan, s: State, l: Label, p: Parcel)
    requires Steps(plan, s, l, p)
    ensures Follows(s.at, p, StepEffect(plan, s, l, p).move)
  {
    LocalFollows(plan, ViewOf(plan, s, p), l, p, ReadFile(s.files, StorageOf(p), p.position, p.dataSize));
  }

  lemma SteppedMoves(s: State, p: Parcel, e: Effect, t: State)
    requires Stepped(s, p, e, t)
    ensures t.held == Moved(s.held, p, e.move) && t.at == AtAfter(s.at, p, e.move)
  {
  }

  /** What a place holds is there. */
  lemma EnabledSteps(plan: Plan, s: State, l: Label, p: Parcel)
    requires Custody(s.held, s.at) && Enabled(plan, s, l) && Who(l) == Some(p)
    requires LocalOk(plan, p, ViewOf(plan, s, p))
    ensures Steps(plan, s, l, p)
  {
    if From(l).Some? {
      HeldThere(s.held, s.at, From(l).value, p);
    }
  }

  lemma HeldThere(held: map<Place, seq<Parcel>>, at: map<Parcel, Place>, pl: Place, p: Parcel)
    requires Custody(held, at) && p in GetOr(Look(held, pl), [])
    ensures Look(at, p) == Some(pl)
  {
    assert Mult(held, pl, p) > 0;
  }

  lemma CustodyStep(plan: Plan, s: State, p: Parcel, e: Effect, t: State)
    requires Custody(s.held, s.at) && Stepped(s, p, e, t) && Follows(s.at, p, e.move)
    ensures Custody(t.held, t.at)
  {
    SteppedMoves(s, p, e, t);
    MoveKeepsCustody(s.held, s.at, p, e.move);
  }

  // ---------- every parcel stays in order ----------

  /** No other parcel under way has the name and offset of `p`. */
  predicate Unrivalled(plan: Plan, at: map<Parcel, Place>, p: Parcel) {
    forall q :: q in at && q != p && Active(plan, at, q) ==> q.id != p.id || q.position != p.position
  }

  lemma TempsApartStep(plan: Plan, s: State, p: Parcel, e: Effect, t: State)
    requires TempsApart(plan, s.at) && Stepped(s, p, e, t)
    requires !e.move.Stay? && IsWrite(plan, p) ==> Active(plan, s.at, p) || Unrivalled(plan, s.at, p)
    ensures TempsApart(plan, t.at)
  {
    SteppedMoves(s, p, e, t);
    forall x, y | Active(plan, t.at, x) && Active(plan, t.at, y) && x != y
      ensures TempOf(x) != TempOf(y)
    {
      TempOfInjective(x, y);
    }
  }

  /** A parcel comes under way only with its BeginPublish step. */
  lemma LocalActive(plan: Plan, v: View, l: Label, p: Parcel, bytes: Bytes)
    requires p in plan && LocalOk(plan, p, v) && Fits(plan, v, l, p) && Who(l) == Some(p) && plan[p].Write?
    ensures !EffectOf(plan, v, l, p, bytes).move.Stay? ==> l.BeginPublish? || UnderWay(v)
  {
  }

  lemma ActiveBefore(plan: Plan, s: State, l: Label, p: Parcel)
    requires Steps(plan, s, l, p)
    requires !StepEffect(plan, s, l, p).move.Stay? && IsWrite(plan, p)
    ensures Active(plan, s.at, p) || Unrivalled(plan, s.at, p)
  {
    LocalActive(plan, ViewOf(plan, s, p), l, p, ReadFile(s.files, StorageOf(p), p.position, p.dataSize));
  }

  lemma TempTouchers(plan: Plan, s: State, l: Label, p: Parcel)
    requires Steps(plan, s, l, p)
    ensures var e := StepEffect(plan, s, l, p);
            FileSafe(plan, p, e) && (!e.temp.Keep? ==> UnderWay(ViewOf(plan, s, p)))
  {
    var bytes := ReadFile(s.files, StorageOf(p), p.position, p.dataSize);
    EffectsAreFileSafe(plan, ViewOf(plan, s, p), l, p, bytes);
    if !StepEffect(plan, s, l, p).temp.Keep? { OnlyActiveTouchTemps(plan, ViewOf(plan, s, p), l, p, bytes); }
  }

  /** The view of the parcel a step works on. */
  lemma OwnNext(plan: Plan, s: State, l: Label, p: Parcel)
    requires ValidPlan(plan) && Steps(plan, s, l, p)
    ensures ViewOf(plan, Next(plan, s, l), p) == After(ViewOf(plan, s, p), StepEffect(plan, s, l, p))
    ensures Next(plan, s, l).serves == s.serves
  {
    NextIsStepped(plan, s, l, p);
    TempTouchers(plan, s, l, p);
    OwnView(plan, s, p, StepEffect(plan, s, l, p), Next(plan, s, l));
  }

  lemma NextView(plan: Plan, s: State, l: Label, x: Parcel)
    requires ValidPlan(plan) && TempsApart(plan, s.at) && Proceeds(plan, s, l) && x in plan
    ensures var v := ViewOf(plan, Next(plan, s, l), x);
            if Who(l) == Some(x) then v == After(ViewOf(plan, s, x), StepEffect(plan, s, l, x))
            else v == ViewOf(plan, s, x).(temp := v.temp) && (Active(plan, s.at, x) ==> v == ViewOf(plan, s, x))
  {
    var t := Next(plan, s, l);
    if Who(l).Some? {
      var p := Who(l).value;
      NextIsStepped(plan, s, l, p);
      TempTouchers(plan, s, l, p);
      SteppedView(plan, s, p, StepEffect(plan, s, l, p), t, x);
    } else {
      NextOfNone(plan, s, l);
      SameView(plan, s, t, x);
    }
  }

  lemma SameView(plan: Plan, s: State, t: State, x: Parcel)
    requires t == s.(waiters := t.waiters, looping := t.looping)
    ensures ViewOf(plan, s, x) == ViewOf(plan, t, x)
  {
  }

  lemma LocalStep(plan: Plan, s: State, l: Label, p: Parcel)
    requires WaitersOk(plan, s) && Steps(plan, s, l, p)
    ensures LocalOk(plan, p, After(ViewOf(plan, s, p), StepEffect(plan, s, l, p)))
  {
    assert l.EraseStatus? ==> WaiterOk(plan, s.at, s.waiters[l.w]);
    match plan[p]
    case Write(_) => WriteStep(plan, ViewOf(plan, s, p), l, p, ReadFile(s.files, StorageOf(p), p.position, p.dataSize));
    case Read => ReadStep(plan, ViewOf(plan, s, p), l, p, ReadFile(s.files, StorageOf(p), p.position, p.dataSize));
  }

  lemma StaysLocal(plan: Plan, s: State, p: Parcel, e: Effect, t: State, x: Parcel)
    requires ValidPlan(plan) && TempsApart(plan, s.at) && p in plan && Stepped(s, p, e, t)
    requires FileSafe(plan, p, e) && (!e.temp.Keep? ==> UnderWay(ViewOf(plan, s, p)))
    requires x in plan && x != p && LocalOk(plan, x, ViewOf(plan, s, x))
    ensures LocalOk(plan, x, ViewOf(plan, t, x))
  {
    OtherStaysUnderWay(plan, s, p, e, t, x);
    UntouchedStaysLocal(plan, x, ViewOf(plan, s, x), ViewOf(plan, t, x));
  }

  lemma OtherStaysUnderWay(plan: Plan, s: State, p: Parcel, e: Effect, t: State, x: Parcel)
    requires ValidPlan(plan) && TempsApart(plan, s.at) && p in plan && Stepped(s, p, e, t)
    requires FileSafe(plan, p, e) && (!e.temp.Keep? ==> UnderWay(ViewOf(plan, s, p)))
    requires x in plan && x != p
    ensures var v, v' := ViewOf(plan, s, x), ViewOf(plan, t, x);
            v' == v.(temp := v'.temp) && (plan[x].Write? && UnderWay(v) ==> v' == v)
  {
    SteppedView(plan, s, p, e, t, x);
  }

  lemma AllLocalStep(plan: Plan, s: State, p: Parcel, e: Effect, t: State)
    requires ValidPlan(plan) && TempsApart(plan, s.at) && AllLocal(plan, s) && p in plan && Stepped(s, p, e, t)
    requires FileSafe(plan, p, e) && (!e.temp.Keep? ==> UnderWay(ViewOf(plan, s, p)))
    requires LocalOk(plan, p, After(ViewOf(plan, s, p), e))
    ensures AllLocal(plan, t)
  {
    OwnView(plan, s, p, e, t);
    forall x | x in plan && x != p { StaysLocal(plan, s, p, e, t, x); }
  }

  // ---------- WaitAll calls ----------

  lemma FinishedStays(plan: Plan, s: State, l: Label, x: Parcel)
    requires Proceeds(plan, s, l) && Look(s.at, x) == Some(Finished)
    ensures Look(Next(plan, s, l).at, x) == Some(Finished)
  {
    if Who(l).Some? {
      NextIsStepped(plan, s, l, Who(l).value);
      SteppedMoves(s, Who(l).value, StepEffect(plan, s, l, Who(l).value), Next(plan, s, l));
      if Who(l) == Some(x) {
        FinishedIsLast(plan, ViewOf(plan, s, x), l, x, ReadFile(s.files, StorageOf(x), x.position, x.dataSize));
      }
    } else {
      NextOfNone(plan, s, l);
    }
  }

  lemma FinishedIsLast(plan: Plan, v: View, l: Label, p: Parcel, bytes: Bytes)
    requires p in plan && LocalOk(plan, p, v) && Fits(plan, v, l, p) && DonePut(v)
    ensures EffectOf(plan, v, l, p, bytes).move.Stay?
  {
  }

  lemma NextWaiters(plan: Plan, s: State, l: Label)
    requires Enabled(plan, s, l)
    ensures Next(plan, s, l).waiters == WaitersAfter(s, l)
  {
  }

  lemma DoneMeansFinished(plan: Plan, s: State, p: Parcel)
    requires p in plan && LocalOk(plan, p, ViewOf(plan, s, p))
    requires Look(s.status, KeyOf(p)) == Some(DONE)
    ensures Look(s.at, p) == Some(Finished)
  {
  }

  lemma WaiterAfterOk(plan: Plan, s: State, l: Label, w: nat)
    requires AllLocal(plan, s) && WaitersOk(plan, s) && Enabled(plan, s, l)
    requires w in WaitersAfter(s, l)
    ensures WaiterOk(plan, s.at, WaitersAfter(s, l)[w])
  {
    if w in s.waiters {
      assert WaiterOk(plan, s.at, s.waiters[w]);
      if l == SeeDone(w) {
        assert s.waiters[w].todo[0] in s.waiters[w].todo;
        DoneMeansFinished(plan, s, s.waiters[w].todo[0]);
      }
    }
  }

  lemma WaitersStep(plan: Plan, s: State, l: Label)
    requires AllLocal(plan, s) && WaitersOk(plan, s) && Proceeds(plan, s, l)
    ensures WaitersOk(plan, Next(plan, s, l))
  {
    NextWaiters(plan, s, l);
    forall w | w in WaitersAfter(s, l)
      ensures WaiterOk(plan, Next(plan, s, l).at, WaitersAfter(s, l)[w])
    {
      WaiterAfterOk(plan, s, l, w);
      var saw := WaitersAfter(s, l)[w];
      if saw.seen.Some? { FinishedStays(plan, s, l, saw.todo[0]); }
    }
  }

  // ---------- storage ----------

  lemma StripStorageWrite(plan: Plan, fs: Files, p: Parcel, d: Bytes)
    requires ValidPlan(plan) && p in plan
    ensures Strip(plan, WriteParcel(fs, p, d)) == WriteParcel(Strip(plan, fs), p, d)
  {
  }

  lemma StripTempChange(plan: Plan, fs: Files, p: Parcel, c: Change<Bytes>)
    requires c.Keep? || IsWrite(plan, p)
    ensures Strip(plan, Update(fs, TempOf(p), c)) == Strip(plan, fs)
  {
  }

  /** The payload that a step writes, if any, is the right one, and it is the first. */
  predicate LandsRight(plan: Plan, stored: seq<Parcel>, p: Parcel, e: Effect) {
    e.land.Some? ==> IsWrite(plan, p) && p !in stored && e.land.value == plan[p].data
  }

  lemma LandsPayload(plan: Plan, v: View, l: Label, p: Parcel, bytes: Bytes)
    requires p in plan && LocalOk(plan, p, v) && Fits(plan, v, l, p)
    requires EffectOf(plan, v, l, p, bytes).land.Some?
    ensures l.Land? && IsWrite(plan, p) && !v.landed && EffectOf(plan, v, l, p, bytes).land.value == plan[p].data
  {
  }

  lemma StepLandsRight(plan: Plan, s: State, l: Label, p: Parcel)
    requires Steps(plan, s, l, p)
    ensures LandsRight(plan, s.stored, p, StepEffect(plan, s, l, p))
    ensures StepEffect(plan, s, l, p).land.Some? <==> l.Land? && IsWrite(plan, p)
  {
    if StepEffect(plan, s, l, p).land.Some? {
      LandsPayload(plan, ViewOf(plan, s, p), l, p, ReadFile(s.files, StorageOf(p), p.position, p.dataSize));
    }
  }

  /** A step writes one payload to storage or leaves storage alone. */
  lemma StorageChange(plan: Plan, s: State, p: Parcel, e: Effect, t: State)
    requires ValidPlan(plan) && p in plan && Stepped(s, p, e, t)
    requires FileSafe(plan, p, e) && LandsRight(plan, s.stored, p, e)
    ensures if e.land.Some? then
              t.stored == s.stored + [p] && Strip(plan, t.files) == WriteParcel(Strip(plan, s.files), p, plan[p].data)
            else t.stored == s.stored && Strip(plan, t.files) == Strip(plan, s.files)
  {
    if e.land.Some? {
      StripStorageWrite(plan, s.files, p, plan[p].data);
    } else {
      StripTempChange(plan, s.files, p, e.temp);
    }
  }

  lemma StorageStep(plan: Plan, base: Files, s: State, p: Parcel, e: Effect, t: State)
    requires ValidPlan(plan) && StorageOk(plan, base, s) && p in plan && Stepped(s, p, e, t)
    requires FileSafe(plan, p, e) && LandsRight(plan, s.stored, p, e)
    ensures StorageOk(plan, base, t)
  {
    StorageChange(plan, s, p, e, t);
    ApplyOneMore(Strip(plan, base), s.stored, p, Payloads(plan));
  }

  // ---------- temporary files ----------

  /** What a step may do about the temporary file: create it only to use it, and
      stop using it only by removing it. */
  predicate TempHandled(plan: Plan, v: View, p: Parcel, e: Effect) {
    && (UsesTemp(plan, v, p) ==> UsesTemp(plan, After(v, e), p) || e.temp == Remove)
    && (LeftTemp(plan, After(v, e), p) ==> LeftTemp(plan, v, p) || e.temp == Remove)
    && (e.temp.Put? ==> UsesTemp(plan, After(v, e), p))
  }

  lemma UserGoesOn(plan: Plan, v: View, l: Label, p: Parcel, bytes: Bytes)
    requires p in plan && LocalOk(plan, p, v) && Fits(plan, v, l, p) && UsesTemp(plan, v, p)
    ensures UsesTemp(plan, LocalNext(plan, v, l, p, bytes), p) || EffectOf(plan, v, l, p, bytes).temp == Remove
  {
  }

  lemma LeavesByRemoving(plan: Plan, v: View, l: Label, p: Parcel, bytes: Bytes)
    requires p in plan && LocalOk(plan, p, v) && Fits(plan, v, l, p)
    requires LeftTemp(plan, LocalNext(plan, v, l, p, bytes), p)
    ensures LeftTemp(plan, v, p) || EffectOf(plan, v, l, p, bytes).temp == Remove
  {
  }

  lemma CreatesToUse(plan: Plan, v: View, l: Label, p: Parcel, bytes: Bytes)
    requires p in plan && LocalOk(plan, p, v) && Fits(plan, v, l, p) && EffectOf(plan, v, l, p, bytes).temp.Put?
    ensures UsesTemp(plan, LocalNext(plan, v, l, p, bytes), p)
  {
  }

  lemma LocalTemps(plan: Plan, v: View, l: Label, p: Parcel, bytes: Bytes)
    requires p in plan && LocalOk(plan, p, v) && Fits(plan, v, l, p)
    ensures TempHandled(plan, v, p, EffectOf(plan, v, l, p, bytes))
  {
    if UsesTemp(plan, v, p) { UserGoesOn(plan, v, l, p, bytes); }
    if LeftTemp(plan, LocalNext(plan, v, l, p, bytes), p) { LeavesByRemoving(plan, v, l, p, bytes); }
    if EffectOf(plan, v, l, p, bytes).temp.Put? { CreatesToUse(plan, v, l, p, bytes); }
  }

  /** Which temporary file appears or disappears in a step. */
  lemma TempsLeft(plan: Plan, s: State, p: Parcel, e: Effect, t: State, x: Parcel)
    requires ValidPlan(plan) && p in plan && IsWrite(plan, x) && FileSafe(plan, p, e) && Stepped(s, p, e, t)
    ensures TempOf(x) in t.files
       <==> if TempOf(x) != TempOf(p) || e.temp.Keep? then TempOf(x) in s.files else e.temp.Put?
  {
    TempAfter(plan, s.files, p, e, x);
    assert TempOf(x) in t.files <==> Look(t.files, TempOf(x)).Some?;
  }

  /** A user of a temporary file stays one, unless the step removes that file. */
  lemma UserStays(plan: Plan, s: State, p: Parcel, e: Effect, t: State, k: FileKey, q: Parcel)
    requires ValidPlan(plan) && TempsApart(plan, s.at) && p in plan && Stepped(s, p, e, t)
    requires FileSafe(plan, p, e) && (!e.temp.Keep? ==> UnderWay(ViewOf(plan, s, p)))
    requires TempHandled(plan, ViewOf(plan, s, p), p, e)
    requires UserOf(plan, s, k, q)
    ensures UserOf(plan, t, k, q) || (e.temp.Remove? && k == TempOf(p))
  {
    SteppedView(plan, s, p, e, t, q);
  }

  lemma LeftBefore(plan: Plan, s: State, p: Parcel, e: Effect, t: State, x: Parcel)
    requires ValidPlan(plan) && TempsApart(plan, s.at) && p in plan && Stepped(s, p, e, t)
    requires FileSafe(plan, p, e) && (!e.temp.Keep? ==> UnderWay(ViewOf(plan, s, p)))
    requires TempHandled(plan, ViewOf(plan, s, p), p, e)
    requires LeftTemp(plan, ViewOf(plan, t, x), x)
    ensures LeftTemp(plan, ViewOf(plan, s, x), x) || (e.temp.Remove? && x == p)
  {
    SteppedView(plan, s, p, e, t, x);
  }

  lemma TempFilesStep(plan: Plan, s: State, p: Parcel, e: Effect, t: State)
    requires ValidPlan(plan) && TempsApart(plan, s.at) && TempFilesOk(plan, s) && p in plan && Stepped(s, p, e, t)
    requires FileSafe(plan, p, e) && (!e.temp.Keep? ==> UnderWay(ViewOf(plan, s, p)))
    requires TempHandled(plan, ViewOf(plan, s, p), p, e)
    ensures TempFilesOk(plan, t)
  {
    forall x | LeftTemp(plan, ViewOf(plan, t, x), x) && TempOf(x) in t.files
      ensures exists q :: UserOf(plan, t, TempOf(x), q)
    {
      TempsLeft(plan, s, p, e, t, x);
      if TempOf(x) == TempOf(p) && e.temp.Put? {
        OwnView(plan, s, p, e, t);
        assert UserOf(plan, t, TempOf(x), p);
      } else {
        LeftBefore(plan, s, p, e, t, x);
        var q :| UserOf(plan, s, TempOf(x), q);
        UserStays(plan, s, p, e, t, TempOf(x), q);
      }
    }
  }

  // ---------- source and sink tasks ----------

  /** Which step moves a parcel into or out of a task. */
  predicate TaskMove(plan: Plan, l: Label, p: Parcel, m: Move) {
    && ((l.Start? && l.p == p) <==> (!m.Stay? && m.to.Current?))
    && ((l.Start? && l.p == p) <==> (m.Go? && m.from.InBatch?))
    && ((l.Emit? && l.p == p) <==> (m.Go? && m.from.Current?))
    && ((l.Take? && l.p == p) <==> (!m.Stay? && m.to.AtSink?))
    && (l.Start? && l.p == p ==> m == Go(InBatch(l.a), Current(l.a)))
    && (l.Emit? && l.p == p ==> m == Go(Current(l.a), InFlight))
    && (l.Take? && l.p == p ==> m == Go(InFlight, AtSink(l.i)))
  }

  lemma TaskMoves(plan: Plan, v: View, l: Label, p: Parcel, bytes: Bytes)
    requires p in plan && LocalOk(plan, p, v) && Fits(plan, v, l, p) && Who(l) == Some(p)
    ensures TaskMove(plan, l, p, EffectOf(plan, v, l, p, bytes).move)
  {
  }

  lemma MoveLengths(held: map<Place, seq<Parcel>>, p: Parcel, m: Move, pl: Place)
    requires m.Go? ==> m.from != m.to && p in GetOr(Look(held, m.from), [])
    ensures |GetOr(Look(Moved(held, p, m), pl), [])|
         == |GetOr(Look(held, pl), [])| - (if m.Go? && pl == m.from then 1 else 0)
                                        + (if !m.Stay? && pl == m.to then 1 else 0)
  {
    if m.Go? {
      WithoutCounts(GetOr(Look(held, m.from), []), p);
    }
  }

  /** How the number of parcels at a place changes in a step. */
  lemma SteppedLengths(s: State, p: Parcel, e: Effect, t: State, pl: Place)
    requires Custody(s.held, s.at) && Stepped(s, p, e, t) && Follows(s.at, p, e.move)
    ensures |Held(t, pl)| == |Held(s, pl)| - (if e.move.Go? && pl == e.move.from then 1 else 0)
                                           + (if !e.move.Stay? && pl == e.move.to then 1 else 0)
  {
    assert e.move.Go? ==> Mult(s.held, e.move.from, p) == 1;
    MoveLengths(s.held, p, e.move, pl);
  }

  /** Only its Start and Emit steps change what a source is at; only Start takes
      from its batch. */
  lemma CurrentLength(plan: Plan, s: State, l: Label, p: Parcel, e: Effect, t: State, a: nat)
    requires Custody(s.held, s.at) && Stepped(s, p, e, t) && Follows(s.at, p, e.move)
    requires Who(l) == Some(p) && TaskMove(plan, l, p, e.move)
    ensures |Held(t, Current(a))|
         == |Held(s, Current(a))| + (if l == Start(a, p) then 1 else 0) - (if l == Emit(a, p) then 1 else 0)
  {
    SteppedLengths(s, p, e, t, Current(a));
  }

  lemma BatchLength(plan: Plan, s: State, l: Label, p: Parcel, e: Effect, t: State, a: nat)
    requires Custody(s.held, s.at) && Stepped(s, p, e, t) && Follows(s.at, p, e.move)
    requires Who(l) == Some(p) && TaskMove(plan, l, p, e.move)
    ensures |Held(t, InBatch(a))| >= |Held(s, InBatch(a))| - (if l == Start(a, p) then 1 else 0)
  {
    SteppedLengths(s, p, e, t, InBatch(a));
  }

  lemma CurrentStep(plan: Plan, s: State, l: Label, p: Parcel, e: Effect, t: State, a: nat)
    requires Custody(s.held, s.at) && TasksOk(s) && Stepped(s, p, e, t) && Follows(s.at, p, e.move)
    requires Who(l) == Some(p) && TaskMove(plan, l, p, e.move) && t.looping == LoopingAfter(s, l)
    requires l.Start? ==> Held(s, Current(l.a)) == []
    ensures |Held(t, Current(a))| <= 1 && (a !in t.looping ==> Held(t, Current(a)) == [])
  {
    CurrentLength(plan, s, l, p, e, t, a);
  }

  lemma LoopStep(plan: Plan, s: State, l: Label, p: Parcel, e: Effect, t: State, a: nat)
    requires Custody(s.held, s.at) && TasksOk(s) && Stepped(s, p, e, t) && Follows(s.at, p, e.move)
    requires Who(l) == Some(p) && TaskMove(plan, l, p, e.move) && t.looping == LoopingAfter(s, l)
    requires l.Start? ==> Held(s, Current(l.a)) == []
    ensures a in t.looping ==> Held(t, InBatch(a)) != [] || Held(t, Current(a)) != []
  {
    CurrentLength(plan, s, l, p, e, t, a);
    BatchLength(plan, s, l, p, e, t, a);
  }

  lemma SourceStep(plan: Plan, s: State, l: Label, p: Parcel, e: Effect, t: State, a: nat)
    requires Custody(s.held, s.at) && TasksOk(s) && Stepped(s, p, e, t) && Follows(s.at, p, e.move)
    requires Who(l) == Some(p) && TaskMove(plan, l, p, e.move) && t.looping == LoopingAfter(s, l)
    requires l.Start? ==> Held(s, Current(l.a)) == []
    ensures |Held(t, Current(a))| <= 1
    ensures a in t.looping ==> Held(t, InBatch(a)) != [] || Held(t, Current(a)) != []
    ensures a !in t.looping ==> Held(t, Current(a)) == []
  {
    CurrentStep(plan, s, l, p, e, t, a);
    LoopStep(plan, s, l, p, e, t, a);
  }

  lemma SinkStep(plan: Plan, s: State, l: Label, p: Parcel, e: Effect, t: State, i: nat)
    requires Custody(s.held, s.at) && TasksOk(s) && Stepped(s, p, e, t) && Follows(s.at, p, e.move)
    requires Who(l) == Some(p) && TaskMove(plan, l, p, e.move)
    requires l.Take? ==> Held(s, AtSink(l.i)) == []
    ensures |Held(t, AtSink(i))| <= 1
  {
    SteppedLengths(s, p, e, t, AtSink(i));
  }

  lemma TasksStep(plan: Plan, s: State, l: Label, p: Parcel)
    requires Custody(s.held, s.at) && TasksOk(s) && Steps(plan, s, l, p)
    ensures TasksOk(Next(plan, s, l))
  {
    var e, t := StepEffect(plan, s, l, p), Next(plan, s, l);
    NextIsStepped(plan, s, l, p);
    StepsFollow(plan, s, l, p);
    TaskMoves(plan, ViewOf(plan, s, p), l, p, ReadFile(s.files, StorageOf(p), p.position, p.dataSize));
    forall a { SourceStep(plan, s, l, p, e, t, a); }
    forall i { SinkStep(plan, s, l, p, e, t, i); }
  }

  /** Queue to batch to loop of one source, and into a queue of the right kind. */
  predicate Routed(plan: Plan, l: Label, p: Parcel, m: Move) {
    match m
    case Stay => true
    case Enter(to) => !to.InBatch? && !to.Current? && (to.InQueue? ==> Belongs(plan, p, to.q))
    case Go(from, to) =>
      && (to.InBatch? ==> from.InQueue? && l == Pop(to.a, from.q, p))
      && (to.Current? ==> from == InBatch(to.a))
      && (to.InQueue? ==> Belongs(plan, p, to.q))
  }

  lemma LocalKinds(plan: Plan, v: View, l: Label, p: Parcel, bytes: Bytes)
    requires p in plan && LocalOk(plan, p, v) && Fits(plan, v, l, p) && Who(l) == Some(p)
    ensures Routed(plan, l, p, EffectOf(plan, v, l, p, bytes).move)
  {
  }

  lemma PopsItsQueue(plan: Plan, s: State, l: Label)
    requires Enabled(plan, s, l) && l.Pop?
    ensures l.a in s.serves && s.serves[l.a] == l.q
  {
  }

  /** A parcel only goes where it belongs. */
  lemma GoesWhereItBelongs(plan: Plan, s: State, l: Label, p: Parcel)
    requires KindsOk(plan, s) && Steps(plan, s, l, p)
    ensures var m := StepEffect(plan, s, l, p).move; !m.Stay? ==> KindOk(plan, s, p, m.to)
  {
    LocalKinds(plan, ViewOf(plan, s, p), l, p, ReadFile(s.files, StorageOf(p), p.position, p.dataSize));
    StepsFollow(plan, s, l, p);
    if l.Pop? { PopsItsQueue(plan, s, l); }
    MoveKind(plan, s, l, p, StepEffect(plan, s, l, p).move);
  }

  lemma MoveKind(plan: Plan, s: State, l: Label, p: Parcel, m: Move)
    requires KindsOk(plan, s) && p in plan && Follows(s.at, p, m)
    requires l.Pop? ==> l.a in s.serves && s.serves[l.a] == l.q
    requires Routed(plan, l, p, m)
    ensures !m.Stay? ==> KindOk(plan, s, p, m.to)
  {
    assert p in s.at ==> KindOk(plan, s, p, s.at[p]);
  }

  lemma KindsStep(plan: Plan, s: State, p: Parcel, e: Effect, t: State)
    requires KindsOk(plan, s) && Stepped(s, p, e, t)
    requires !e.move.Stay? ==> KindOk(plan, s, p, e.move.to)
    ensures KindsOk(plan, t)
  {
    forall x | x in t.at
      ensures KindOk(plan, t, x, t.at[x])
    {
      assert x in s.at ==> KindOk(plan, s, x, s.at[x]);
    }
  }

  // ---------- all runs ----------

  /** What the invariant needs to know of the effect of a step. */
  ghost predicate Proper(plan: Plan, s: State, p: Parcel, e: Effect) {
    && p in plan && FileSafe(plan, p, e) && Follows(s.at, p, e.move)
    && (!e.temp.Keep? ==> UnderWay(ViewOf(plan, s, p)))
    && (!e.move.Stay? && IsWrite(plan, p) ==> Active(plan, s.at, p) || Unrivalled(plan, s.at, p))
    && (!e.move.Stay? ==> KindOk(plan, s, p, e.move.to))
    && LocalOk(plan, p, After(ViewOf(plan, s, p), e))
    && TempHandled(plan, ViewOf(plan, s, p), p, e)
    && LandsRight(plan, s.stored, p, e)
  }

  lemma StepIsProper(plan: Plan, s: State, l: Label, p: Parcel)
    requires Steps(plan, s, l, p) && WaitersOk(plan, s) && KindsOk(plan, s)
    ensures Proper(plan, s, p, StepEffect(plan, s, l, p))
  {
    TempTouchers(plan, s, l, p);
    StepsFollow(plan, s, l, p);
    if !StepEffect(plan, s, l, p).move.Stay? && IsWrite(plan, p) { ActiveBefore(plan, s, l, p); }
    GoesWhereItBelongs(plan, s, l, p);
    LocalStep(plan, s, l, p);
    LocalTemps(plan, ViewOf(plan, s, p), l, p, ReadFile(s.files, StorageOf(p), p.position, p.dataSize));
    StepLandsRight(plan, s, l, p);
  }

  lemma ProperStep(plan: Plan, base: Files, s: State, p: Parcel, e: Effect, t: State)
    requires ValidPlan(plan) && Inv(plan, base, s) && Proper(plan, s, p, e) && Stepped(s, p, e, t)
    requires WaitersOk(plan, t) && TasksOk(t)
    ensures Inv(plan, base, t)
  {
    CustodyStep(plan, s, p, e, t);
    TempsApartStep(plan, s, p, e, t);
    AllLocalStep(plan, s, p, e, t);
    StorageStep(plan, base, s, p, e, t);
    TempFilesStep(plan, s, p, e, t);
    KindsStep(plan, s, p, e, t);
  }

  lemma IdleViews(plan: Plan, s: State, t: State)
    requires AllLocal(plan, s) && TempFilesOk(plan, s) && t == s.(waiters := t.waiters, looping := t.looping)
    ensures AllLocal(plan, t) && TempFilesOk(plan, t)
  {
    forall x
      ensures ViewOf(plan, s, x) == ViewOf(plan, t, x)
    {
      SameView(plan, s, t, x);
    }
    assert forall k, q :: UserOf(plan, s, k, q) ==> UserOf(plan, t, k, q);
  }

  lemma IdleKinds(plan: Plan, s: State, t: State)
    requires KindsOk(plan, s) && t == s.(waiters := t.waiters, looping := t.looping)
    ensures KindsOk(plan, t)
  {
    forall x | x in t.at
      ensures KindOk(plan, t, x, t.at[x])
    {
      assert KindOk(plan, s, x, s.at[x]);
    }
  }

  /** The steps of a WaitAll call that work on no parcel. */
  lemma IdleStep(plan: Plan, base: Files, s: State, t: State)
    requires Inv(plan, base, s) && t == s.(waiters := t.waiters, looping := t.looping)
    requires t.looping == s.looping && WaitersOk(plan, t)
    ensures Inv(plan, base, t)
  {
    IdleViews(plan, s, t);
    IdleKinds(plan, s, t);
  }

  lemma InvProceeds(plan: Plan, base: Files, s: State, l: Label)
    requires Inv(plan, base, s) && Enabled(plan, s, l)
    ensures Proceeds(plan, s, l)
  {
    if Who(l).Some? { EnabledSteps(plan, s, l, Who(l).value); }
  }

  lemma InvStep(plan: Plan, base: Files, s: State, l: Label)
    requires ValidPlan(plan) && Inv(plan, base, s) && Enabled(plan, s, l)
    ensures Inv(plan, base, Next(plan, s, l))
  {
    InvProceeds(plan, base, s, l);
    WaitersStep(plan, s, l);
    if Who(l).Some? {
      var p := Who(l).value;
      NextIsStepped(plan, s, l, p);
      StepIsProper(plan, s, l, p);
      TasksStep(plan, s, l, p);
      ProperStep(plan, base, s, p, StepEffect(plan, s, l, p), Next(plan, s, l));
    } else {
      NextOfNone(plan, s, l);
      IdleStep(plan, base, s, Next(plan, s, l));
    }
  }

  lemma InvInit(plan: Plan, s: State)
    requires ValidPlan(plan) && Init(plan, s)
    ensures Inv(plan, s.files, s)
  {
  }

  /** Every state that any interleaving reaches satisfies the invariant. */
  lemma {:induction false} InvRun(plan: Plan, base: Files, s: State, ls: seq<Label>, t: State)
    requires ValidPlan(plan) && Inv(plan, base, s) && Run(plan, s, ls, t)
    ensures Inv(plan, base, t)
    decreases |ls|
  {
    if ls != [] {
      InvStep(plan, base, s, ls[0]);
      InvRun(plan, base, Next(plan, s, ls[0]), ls[1..], t);
    }
  }

  /** The run `past` leads from the start to `s`. */
  ghost predicate Reaches(plan: Plan, s0: State, past: seq<Label>, s: State) {
    ValidPlan(plan) && Init(plan, s0) && Run(plan, s0, past, s)
  }

  lemma Reached(plan: Plan, s0: State, past: seq<Label>, s: State)
    requires Reaches(plan, s0, past, s)
    ensures Inv(plan, s0.files, s)
  {
    InvInit(plan, s0);
    InvRun(plan, s0.files, s0, past, s);
  }
}
