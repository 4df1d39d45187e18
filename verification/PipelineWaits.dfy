/** WaitAll under any interleaving: what it has found, and what it does to the shared
    status map. */
module PipelineWaits {
  import opened Parcels
  import opened FileStore
  import opened Options
  import opened Pipeline
  import opened PipelineFrame
  import opened PipelineLocal
  import opened PipelineInv
  import opened PipelineSafety
  import opened PipelineStatus

  // ---------- the call's own list ----------

  /** The parcels whose statuses call `w` erased, in order. */
  function Erased(ls: seq<Label>, w: nat): seq<Parcel> {
    if ls == [] then []
    else (if ls[0].EraseStatus? && ls[0].w == w then [ls[0].p] else []) + Erased(ls[1..], w)
  }

  /** A WaitAll call takes its parcels in order and keeps the status it read for each. */
  lemma WaiterAfter(plan: Plan, s: State, l: Label, w: nat)
    requires Enabled(plan, s, l) && w in s.waiters && l != EndWait(w)
    ensures w in Next(plan, s, l).waiters
    ensures var x, y := s.waiters[w], Next(plan, s, l).waiters[w];
            if l.EraseStatus? && l.w == w
            then x.seen.Some? && x.todo == [l.p] + y.todo && y.got == x.got + [x.seen.value]
            else y.todo == x.todo && y.got == x.got
  {
    NextWaiters(plan, s, l);
  }

  lemma ErasedMore(x: Waiter, y: Waiter, z: Waiter, ls: seq<Label>, w: nat)
    requires ls != []
    requires if ls[0].EraseStatus? && ls[0].w == w then x.todo == [ls[0].p] + y.todo && |y.got| == |x.got| + 1
             else y.todo == x.todo && y.got == x.got
    requires y.todo == Erased(ls[1..], w) + z.todo && |z.got| == |y.got| + |Erased(ls[1..], w)|
    ensures x.todo == Erased(ls, w) + z.todo && |z.got| == |x.got| + |Erased(ls, w)|
  {
  }

  lemma {:induction false} WaiterRun(plan: Plan, s: State, ls: seq<Label>, t: State, w: nat)
    requires Run(plan, s, ls, t) && w in s.waiters && EndWait(w) !in ls
    ensures w in t.waiters
    ensures s.waiters[w].todo == Erased(ls, w) + t.waiters[w].todo
    ensures |t.waiters[w].got| == |s.waiters[w].got| + |Erased(ls, w)|
    decreases |ls|
  {
    if ls != [] {
      var s' := Next(plan, s, ls[0]);
      WaiterAfter(plan, s, ls[0], w);
      WaiterRun(plan, s', ls[1..], t, w);
      ErasedMore(s.waiters[w], s'.waiters[w], t.waiters[w], ls, w);
    }
  }

  // ---------- consumed statuses ----------

  /** The Publish call, if the parcel is published, has returned. */
  predicate PublishOver(plan: Plan, s: State, p: Parcel) {
    IsWrite(plan, p) ==> p in s.mark && s.mark[p] != Pending
  }

  /** No one will put a status for the parcel any more, and there is none. */
  predicate Spent(s: State, p: Parcel) {
    Look(s.at, p) == Some(Finished) && Look(s.mark, p) != Some(Pending) && Look(s.status, KeyOf(p)) == None
  }

  lemma LocalSpent(plan: Plan, v: View, l: Label, p: Parcel, bytes: Bytes)
    requires p in plan && LocalOk(plan, p, v) && Fits(plan, v, l, p) && Who(l) == Some(p)
    requires DonePut(v) && v.mark != Some(Pending) && (v.status == None || l.EraseStatus?)
    ensures var v' := LocalNext(plan, v, l, p, bytes); v'.at == v.at && v'.mark == v.mark && v'.status == None
  {
  }

  lemma OwnSpent(plan: Plan, s: State, l: Label, p: Parcel)
    requires ValidPlan(plan) && Steps(plan, s, l, p)
    requires Look(s.at, p) == Some(Finished) && Look(s.mark, p) != Some(Pending)
    requires Look(s.status, KeyOf(p)) == None || l.EraseStatus?
    ensures Spent(Next(plan, s, l), p)
  {
    OwnNext(plan, s, l, p);
    LocalSpent(plan, ViewOf(plan, s, p), l, p, ReadFile(s.files, StorageOf(p), p.position, p.dataSize));
    SpentView(plan, Next(plan, s, l), p);
  }

  lemma SpentView(plan: Plan, s: State, p: Parcel)
    ensures var v := ViewOf(plan, s, p);
            Spent(s, p) <==> v.at == Some(Finished) && v.mark != Some(Pending) && v.status == None
  {
  }

  lemma SpentStep(plan: Plan, s: State, l: Label, p: Parcel)
    requires ValidPlan(plan) && TempsApart(plan, s.at) && Proceeds(plan, s, l) && p in plan && Spent(s, p)
    ensures Spent(Next(plan, s, l), p)
  {
    if Who(l) == Some(p) {
      OwnSpent(plan, s, l, p);
    } else {
      NextView(plan, s, l, p);
      SpentView(plan, s, p);
      SpentView(plan, Next(plan, s, l), p);
    }
  }

  /** What has been consumed stays consumed. */
  lemma {:induction false} SpentForever(plan: Plan, base: Files, s: State, ls: seq<Label>, t: State, p: Parcel)
    requires ValidPlan(plan) && Inv(plan, base, s) && Run(plan, s, ls, t) && p in plan && Spent(s, p)
    ensures Spent(t, p)
    decreases |ls|
  {
    if ls != [] {
      InvProceeds(plan, base, s, ls[0]);
      SpentStep(plan, s, ls[0], p);
      InvStep(plan, base, s, ls[0]);
      SpentForever(plan, base, Next(plan, s, ls[0]), ls[1..], t, p);
    }
  }

  lemma LocalOver(plan: Plan, v: View, l: Label, p: Parcel, bytes: Bytes)
    requires p in plan && LocalOk(plan, p, v) && Fits(plan, v, l, p) && v.mark.Some? && v.mark != Some(Pending)
    ensures EffectOf(plan, v, l, p, bytes).mark.Keep?
  {
  }

  lemma OverStays(plan: Plan, s: State, l: Label, p: Parcel)
    requires Proceeds(plan, s, l) && PublishOver(plan, s, p)
    ensures PublishOver(plan, Next(plan, s, l), p)
  {
    if Who(l).Some? {
      var q := Who(l).value;
      NextIsStepped(plan, s, l, q);
      LookUpdated(s.mark, q, StepEffect(plan, s, l, q).mark, p);
      if q == p && IsWrite(plan, p) {
        LocalOver(plan, ViewOf(plan, s, p), l, p, ReadFile(s.files, StorageOf(p), p.position, p.dataSize));
      }
    } else {
      NextOfNone(plan, s, l);
    }
  }

  lemma {:induction false} FinishedRun(plan: Plan, base: Files, s: State, ls: seq<Label>, t: State, p: Parcel)
    requires ValidPlan(plan) && Inv(plan, base, s) && Run(plan, s, ls, t) && Look(s.at, p) == Some(Finished)
    ensures Look(t.at, p) == Some(Finished)
    decreases |ls|
  {
    if ls != [] {
      InvProceeds(plan, base, s, ls[0]);
      FinishedStays(plan, s, ls[0], p);
      InvStep(plan, base, s, ls[0]);
      FinishedRun(plan, base, Next(plan, s, ls[0]), ls[1..], t, p);
    }
  }

  /** An erase finds its parcel finished and leaves it without a status. */
  lemma EraseSpends(plan: Plan, base: Files, s: State, w: nat, p: Parcel)
    requires ValidPlan(plan) && Inv(plan, base, s) && Enabled(plan, s, EraseStatus(w, p))
    ensures p in plan && Look(Next(plan, s, EraseStatus(w, p)).at, p) == Some(Finished)
    ensures PublishOver(plan, s, p) ==> Spent(Next(plan, s, EraseStatus(w, p)), p)
  {
    WaitedIsFinished(plan, s, w, p);
    InvProceeds(plan, base, s, EraseStatus(w, p));
    FinishedStays(plan, s, EraseStatus(w, p), p);
    if PublishOver(plan, s, p) {
      UnmarkedRead(plan, s, p);
      OwnSpent(plan, s, EraseStatus(w, p), p);
    }
  }

  lemma UnmarkedRead(plan: Plan, s: State, p: Parcel)
    requires p in plan && LocalOk(plan, p, ViewOf(plan, s, p)) && PublishOver(plan, s, p)
    ensures Look(s.mark, p) != Some(Pending)
  {
    assert Look(s.mark, p) == ViewOf(plan, s, p).mark;
  }

  lemma ErasedFirst(ls: seq<Label>, w: nat, p: Parcel)
    requires p in Erased(ls, w)
    ensures ls != [] && (ls[0] == EraseStatus(w, p) || p in Erased(ls[1..], w))
  {
  }

  lemma SpentAtEnd(plan: Plan, base: Files, s: State, w: nat, p: Parcel, ls: seq<Label>, t: State)
    requires ValidPlan(plan) && Inv(plan, base, s) && Enabled(plan, s, EraseStatus(w, p))
    requires Run(plan, Next(plan, s, EraseStatus(w, p)), ls, t)
    ensures p in plan && Look(t.at, p) == Some(Finished)
    ensures PublishOver(plan, s, p) ==> KeyOf(p) !in t.status
  {
    var u := Next(plan, s, EraseStatus(w, p));
    EraseSpends(plan, base, s, w, p);
    InvStep(plan, base, s, EraseStatus(w, p));
    FinishedRun(plan, base, u, ls, t, p);
    if PublishOver(plan, s, p) { SpentForever(plan, base, u, ls, t, p); }
  }

  lemma OverStep(plan: Plan, base: Files, s: State, l: Label, p: Parcel)
    requires Inv(plan, base, s) && Enabled(plan, s, l)
    ensures PublishOver(plan, s, p) ==> PublishOver(plan, Next(plan, s, l), p)
  {
    InvProceeds(plan, base, s, l);
    if PublishOver(plan, s, p) { OverStays(plan, s, l, p); }
  }

  lemma {:induction false} ErasedIsSpent(plan: Plan, base: Files, s: State, ls: seq<Label>, t: State, w: nat, p: Parcel)
    requires ValidPlan(plan) && Inv(plan, base, s) && Run(plan, s, ls, t) && p in Erased(ls, w)
    ensures p in plan && Look(t.at, p) == Some(Finished)
    ensures PublishOver(plan, s, p) ==> KeyOf(p) !in t.status
    decreases |ls|
  {
    ErasedFirst(ls, w, p);
    if ls[0] == EraseStatus(w, p) {
      SpentAtEnd(plan, base, s, w, p, ls[1..], t);
    } else {
      OverStep(plan, base, s, ls[0], p);
      InvStep(plan, base, s, ls[0]);
      ErasedIsSpent(plan, base, Next(plan, s, ls[0]), ls[1..], t, w, p);
    }
  }

  // ---------- the status map ----------

  predicate OfCall(l: Label, w: nat) {
    (l.BeginWait? || l.SeeDone? || l.EraseStatus? || l.EndWait?) && l.w == w
  }

  /** The keys that the steps of call `w` take out of the status map along a run. */
  function RemovedBy(plan: Plan, s: State, ls: seq<Label>, w: nat): set<Key>
    decreases |ls|
  {
    if ls == [] || !Enabled(plan, s, ls[0]) then {}
    else
      var t := Next(plan, s, ls[0]);
      (if OfCall(ls[0], w) then s.status.Keys - t.status.Keys else {}) + RemovedBy(plan, t, ls[1..], w)
  }

  function KeysOf(ps: seq<Parcel>): set<Key> {
    set p | p in ps :: KeyOf(p)
  }

  /** A WaitAll call touches no status but the one it erases. */
  lemma CallTouches(plan: Plan, s: State, l: Label, w: nat)
    requires Enabled(plan, s, l) && OfCall(l, w)
    ensures Next(plan, s, l).status == if l.EraseStatus? then s.status - {KeyOf(l.p)} else s.status
  {
    if l.EraseStatus? {
      NextIsStepped(plan, s, l, l.p);
    } else {
      NextOfNone(plan, s, l);
    }
  }

  lemma {:induction false} RemovesOnlyErased(plan: Plan, s: State, ls: seq<Label>, t: State, w: nat, k: Key)
    requires Run(plan, s, ls, t) && k in RemovedBy(plan, s, ls, w)
    ensures k in KeysOf(Erased(ls, w))
    decreases |ls|
  {
    var u := Next(plan, s, ls[0]);
    if OfCall(ls[0], w) && k in s.status.Keys - u.status.Keys {
      CallTouches(plan, s, ls[0], w);
      assert ls[0].p in Erased(ls, w);
    } else {
      RemovesOnlyErased(plan, u, ls[1..], t, w, k);
      KeysGrow(Erased(ls[1..], w), Erased(ls, w), k);
    }
  }

  lemma KeysGrow(ps: seq<Parcel>, qs: seq<Parcel>, k: Key)
    requires k in KeysOf(ps) && forall p :: p in ps ==> p in qs
    ensures k in KeysOf(qs)
  {
  }

  /** A status that the call has seen and not yet erased is still in the map. */
  predicate Primed(s: State, w: nat) {
    w in s.waiters && (s.waiters[w].seen.Some? && s.waiters[w].todo != [] ==> KeyOf(s.waiters[w].todo[0]) in s.status)
  }

  /** No one else erases a status of these parcels. */
  predicate Alone(ls: seq<Label>, w: nat, ps: seq<Parcel>) {
    forall l :: l in ls && ((l.EraseStatus? && l.w != w) || l.ClearAnswer?) ==> l.p !in ps
  }

  lemma LocalKeepsStatus(plan: Plan, v: View, l: Label, p: Parcel, bytes: Bytes)
    requires p in plan && Who(l) == Some(p) && !l.EraseStatus? && !l.ClearAnswer?
    ensures !EffectOf(plan, v, l, p, bytes).status.Remove?
  {
  }

  lemma StatusStays(plan: Plan, s: State, l: Label, k: Key)
    requires Enabled(plan, s, l) && k in s.status
    requires l.EraseStatus? || l.ClearAnswer? ==> KeyOf(l.p) != k
    ensures k in Next(plan, s, l).status
  {
    if Who(l).Some? {
      var q := Who(l).value;
      NextIsStepped(plan, s, l, q);
      if !l.EraseStatus? && !l.ClearAnswer? {
        LocalKeepsStatus(plan, ViewOf(plan, s, q), l, q, ReadFile(s.files, StorageOf(q), q.position, q.dataSize));
      }
    } else {
      NextOfNone(plan, s, l);
    }
  }

  lemma PrimedStep(plan: Plan, s: State, l: Label, w: nat)
    requires ValidPlan(plan) && Enabled(plan, s, l) && l != EndWait(w) && Primed(s, w)
    requires forall p :: p in s.waiters[w].todo ==> p in plan
    requires (l.EraseStatus? && l.w != w) || l.ClearAnswer? ==> l.p !in s.waiters[w].todo
    ensures Primed(Next(plan, s, l), w)
  {
    NextWaiters(plan, s, l);
    var x := s.waiters[w];
    if x.todo != [] && !(l.EraseStatus? && l.w == w) {
      assert x.todo[0] in x.todo;
      if KeyOf(x.todo[0]) in s.status { StatusStays(plan, s, l, KeyOf(x.todo[0])); }
    }
  }

  lemma EraseRemoves(plan: Plan, s: State, w: nat, p: Parcel)
    requires Enabled(plan, s, EraseStatus(w, p)) && Primed(s, w)
    ensures KeyOf(p) in s.status.Keys - Next(plan, s, EraseStatus(w, p)).status.Keys
  {
    CallTouches(plan, s, EraseStatus(w, p), w);
  }

  lemma {:induction false} RemovesAllErased(plan: Plan, s: State, ls: seq<Label>, t: State, w: nat, p: Parcel)
    requires ValidPlan(plan) && Run(plan, s, ls, t) && EndWait(w) !in ls && Primed(s, w)
    requires (forall q :: q in s.waiters[w].todo ==> q in plan) && Alone(ls, w, s.waiters[w].todo)
    requires p in Erased(ls, w)
    ensures KeyOf(p) in RemovedBy(plan, s, ls, w)
    decreases |ls|
  {
    if ls[0] == EraseStatus(w, p) {
      EraseRemoves(plan, s, w, p);
    } else {
      assert ls[0] in ls;
      PrimedStep(plan, s, ls[0], w);
      StillAlone(plan, s, ls, w);
      RemovesAllErased(plan, Next(plan, s, ls[0]), ls[1..], t, w, p);
    }
  }

  lemma StillAlone(plan: Plan, s: State, ls: seq<Label>, w: nat)
    requires ls != [] && Enabled(plan, s, ls[0]) && ls[0] != EndWait(w) && w in s.waiters
    requires (forall q :: q in s.waiters[w].todo ==> q in plan) && Alone(ls, w, s.waiters[w].todo)
    ensures var u := Next(plan, s, ls[0]);
            && w in u.waiters && (forall q :: q in u.waiters[w].todo ==> q in plan)
            && Alone(ls[1..], w, u.waiters[w].todo)
  {
    WaiterAfter(plan, s, ls[0], w);
    assert forall q :: q in Next(plan, s, ls[0]).waiters[w].todo ==> q in s.waiters[w].todo;
    assert forall l :: l in ls[1..] ==> l in ls;
  }

  // ---------- WaitAll ----------

  predicate AllDone(got: seq<Status>) {
    forall x :: x in got ==> x == DONE
  }

  lemma BegunWaiter(plan: Plan, s: State, w: nat, ps: seq<Parcel>)
    requires Enabled(plan, s, BeginWait(w, ps))
    ensures var u := Next(plan, s, BeginWait(w, ps));
            && u == s.(waiters := u.waiters, looping := u.looping)
            && w in u.waiters && u.waiters[w] == Waiter(ps, [], None) && (forall p :: p in ps ==> p in plan)
  {
    NextOfNone(plan, s, BeginWait(w, ps));
    NextWaiters(plan, s, BeginWait(w, ps));
  }

  lemma EndedWaiter(plan: Plan, base: Files, t: State, w: nat)
    requires Inv(plan, base, t) && Enabled(plan, t, EndWait(w))
    ensures w in t.waiters && t.waiters[w].todo == [] && AllDone(t.waiters[w].got)
  {
    assert WaiterOk(plan, t.at, t.waiters[w]);
  }

  /** What a finished parcel has to show: its payload in storage, or the bytes read for it. */
  predicate Served(plan: Plan, t: State, p: Parcel) {
    Look(t.at, p) == Some(Finished) && if IsWrite(plan, p) then p in t.stored else p in t.fetched
  }

  lemma FinishedIsServed(plan: Plan, t: State, p: Parcel)
    requires p in plan && LocalOk(plan, p, ViewOf(plan, t, p)) && Look(t.at, p) == Some(Finished)
    ensures Served(plan, t, p)
  {
    assert Look(t.fetched, p) == ViewOf(plan, t, p).fetched;
  }

  /** When a WaitAll call on `ps`, published or subscribed, can end: every poll has
      read DONE from the status map, one for each parcel in order; every parcel is
      served; the status of each whose Publish call was over is gone for good; and
      the call has taken out of the map no key but those of `ps`, and exactly those
      unless another call took one first. */
  lemma WaitAllReturns(plan: Plan, s0: State, past: seq<Label>, s: State, w: nat, ps: seq<Parcel>,
                       ls: seq<Label>, t: State)
    requires Reaches(plan, s0, past, s)
    requires Run(plan, s, ls, t) && ls != [] && ls[0] == BeginWait(w, ps)
    requires EndWait(w) !in ls && Enabled(plan, t, EndWait(w))
    ensures Erased(ls, w) == ps && |t.waiters[w].got| == |ps| && AllDone(t.waiters[w].got)
    ensures forall p :: p in ps ==> Served(plan, t, p)
    ensures forall p :: p in ps && PublishOver(plan, s, p) ==> KeyOf(p) !in t.status
    ensures RemovedBy(plan, s, ls, w) <= KeysOf(ps)
    ensures Alone(ls, w, ps) ==> RemovedBy(plan, s, ls, w) == KeysOf(ps)
  {
    Reached(plan, s0, past, s);
    InvStep(plan, s0.files, s, ls[0]);
    BegunWaiter(plan, s, w, ps);
    BeginRemovesNothing(plan, s, ls, w, ps);
    WaitAllEnds(plan, s0.files, Next(plan, s, ls[0]), w, ps, ls[1..], t);
  }

  lemma BeginRemovesNothing(plan: Plan, s: State, ls: seq<Label>, w: nat, ps: seq<Parcel>)
    requires ls != [] && ls[0] == BeginWait(w, ps) && Enabled(plan, s, ls[0])
    ensures RemovedBy(plan, s, ls, w) == RemovedBy(plan, Next(plan, s, ls[0]), ls[1..], w)
    ensures Erased(ls, w) == Erased(ls[1..], w) && (Alone(ls, w, ps) ==> Alone(ls[1..], w, ps))
    ensures EndWait(w) !in ls ==> EndWait(w) !in ls[1..]
    ensures forall p :: PublishOver(plan, s, p) ==> PublishOver(plan, Next(plan, s, ls[0]), p)
  {
    BegunWaiter(plan, s, w, ps);
    assert forall l :: l in ls[1..] ==> l in ls;
  }

  lemma WaitAllEnds(plan: Plan, base: Files, u: State, w: nat, ps: seq<Parcel>, ls: seq<Label>, t: State)
    requires ValidPlan(plan) && Inv(plan, base, u) && Run(plan, u, ls, t)
    requires w in u.waiters && u.waiters[w] == Waiter(ps, [], None) && (forall p :: p in ps ==> p in plan)
    requires EndWait(w) !in ls && Enabled(plan, t, EndWait(w))
    ensures Erased(ls, w) == ps && |t.waiters[w].got| == |ps| && AllDone(t.waiters[w].got)
    ensures forall p :: p in ps ==> Served(plan, t, p)
    ensures forall p :: p in ps && PublishOver(plan, u, p) ==> KeyOf(p) !in t.status
    ensures RemovedBy(plan, u, ls, w) <= KeysOf(ps)
    ensures Alone(ls, w, ps) ==> RemovedBy(plan, u, ls, w) == KeysOf(ps)
  {
    InvRun(plan, base, u, ls, t);
    WaiterRun(plan, u, ls, t, w);
    EndedWaiter(plan, base, t, w);
    forall p | p in ps
      ensures Served(plan, t, p) && (PublishOver(plan, u, p) ==> KeyOf(p) !in t.status)
    {
      ErasedIsServed(plan, base, u, ls, t, w, p);
    }
    RemovedKeys(plan, u, ls, t, w, ps);
  }

  lemma ErasedIsServed(plan: Plan, base: Files, u: State, ls: seq<Label>, t: State, w: nat, p: Parcel)
    requires ValidPlan(plan) && Inv(plan, base, u) && Run(plan, u, ls, t) && AllLocal(plan, t) && p in Erased(ls, w)
    ensures Served(plan, t, p) && (PublishOver(plan, u, p) ==> KeyOf(p) !in t.status)
  {
    ErasedIsSpent(plan, base, u, ls, t, w, p);
    FinishedIsServed(plan, t, p);
  }

  lemma RemovedKeys(plan: Plan, u: State, ls: seq<Label>, t: State, w: nat, ps: seq<Parcel>)
    requires ValidPlan(plan) && Run(plan, u, ls, t) && EndWait(w) !in ls && Erased(ls, w) == ps
    requires w in u.waiters && u.waiters[w] == Waiter(ps, [], None) && (forall p :: p in ps ==> p in plan)
    ensures RemovedBy(plan, u, ls, w) <= KeysOf(ps)
    ensures Alone(ls, w, ps) ==> RemovedBy(plan, u, ls, w) == KeysOf(ps)
  {
    forall k | k in RemovedBy(plan, u, ls, w) { RemovesOnlyErased(plan, u, ls, t, w, k); }
    if Alone(ls, w, ps) {
      forall p | p in ps { RemovesAllErased(plan, u, ls, t, w, p); }
    }
  }

  // ---------- a call whose parcels are done gets through ----------

  predicate DistinctParcels(ps: seq<Parcel>) {
    forall i, j :: 0 <= i < j < |ps| ==> ps[i] != ps[j]
  }

  predicate AllHaveDone(s: State, ps: seq<Parcel>) {
    forall p :: p in ps ==> Look(s.status, KeyOf(p)) == Some(DONE)
  }

  lemma PollRun(plan: Plan, s: State, w: nat) returns (t: State)
    requires w in s.waiters && s.waiters[w].seen == None && s.waiters[w].todo != []
    requires Look(s.status, KeyOf(s.waiters[w].todo[0])) == Some(DONE)
    ensures Run(plan, s, [SeeDone(w)], t)
    ensures t == s.(waiters := s.waiters[w := s.waiters[w].(seen := Some(DONE))])
  {
    t := Next(plan, s, SeeDone(w));
    NextOfNone(plan, s, SeeDone(w));
    NextWaiters(plan, s, SeeDone(w));
    NextLooping(plan, s, SeeDone(w));
    SingleRun(plan, s, SeeDone(w));
  }

  lemma NextLooping(plan: Plan, s: State, l: Label)
    requires Enabled(plan, s, l) && (l.BeginWait? || l.SeeDone? || l.EraseStatus? || l.EndWait?)
    ensures Next(plan, s, l).looping == s.looping
  {
  }

  lemma EraseRun(plan: Plan, s: State, w: nat, p: Parcel) returns (t: State)
    requires p in plan && w in s.waiters && s.waiters[w].seen == Some(DONE)
    requires s.waiters[w].todo != [] && s.waiters[w].todo[0] == p
    ensures Run(plan, s, [EraseStatus(w, p)], t)
    ensures var x := s.waiters[w];
            && t.waiters == s.waiters[w := Waiter(x.todo[1..], x.got + [DONE], None)]
            && t.status == s.status - {KeyOf(p)}
  {
    t := Next(plan, s, EraseStatus(w, p));
    CallTouches(plan, s, EraseStatus(w, p), w);
    NextWaiters(plan, s, EraseStatus(w, p));
    SingleRun(plan, s, EraseStatus(w, p));
  }

  lemma EndRun(plan: Plan, s: State, w: nat) returns (t: State)
    requires w in s.waiters && s.waiters[w].todo == []
    ensures Run(plan, s, [EndWait(w)], t) && t.waiters == s.waiters - {w} && t.status == s.status
  {
    t := Next(plan, s, EndWait(w));
    NextOfNone(plan, s, EndWait(w));
    NextWaiters(plan, s, EndWait(w));
    SingleRun(plan, s, EndWait(w));
  }

  lemma BeginRun(plan: Plan, s: State, w: nat, ps: seq<Parcel>) returns (t: State)
    requires w !in s.waiters && forall p :: p in ps ==> p in plan
    ensures Run(plan, s, [BeginWait(w, ps)], t)
    ensures t.waiters == s.waiters[w := Waiter(ps, [], None)] && t.status == s.status
  {
    t := Next(plan, s, BeginWait(w, ps));
    NextOfNone(plan, s, BeginWait(w, ps));
    NextWaiters(plan, s, BeginWait(w, ps));
    SingleRun(plan, s, BeginWait(w, ps));
  }

  lemma RestHasDone(plan: Plan, s: State, ps: seq<Parcel>, t: State)
    requires ValidPlan(plan) && ps != [] && (forall p :: p in ps ==> p in plan)
    requires DistinctParcels(ps) && AllHaveDone(s, ps) && t.status == s.status - {KeyOf(ps[0])}
    ensures DistinctParcels(ps[1..]) && AllHaveDone(t, ps[1..])
    ensures KeysOf(ps) == {KeyOf(ps[0])} + KeysOf(ps[1..])
  {
    forall p | p in ps[1..]
      ensures p in ps && KeyOf(p) != KeyOf(ps[0])
    {
      var i :| 1 <= i < |ps| && ps[i] == p;
    }
    forall k | k in KeysOf(ps)
      ensures k in {KeyOf(ps[0])} + KeysOf(ps[1..])
    {
      var p :| p in ps && KeyOf(p) == k;
      if p != ps[0] { assert p in ps[1..]; }
    }
  }

  lemma FirstGetsThrough(plan: Plan, s: State, w: nat, p: Parcel) returns (t: State)
    requires p in plan && w in s.waiters && s.waiters[w].seen == None
    requires s.waiters[w].todo != [] && s.waiters[w].todo[0] == p && Look(s.status, KeyOf(p)) == Some(DONE)
    ensures Run(plan, s, [SeeDone(w)] + [EraseStatus(w, p)], t) && t.status == s.status - {KeyOf(p)}
    ensures t.waiters == s.waiters[w := Waiter(s.waiters[w].todo[1..], s.waiters[w].got + [DONE], None)]
  {
    var u := PollRun(plan, s, w);
    t := EraseRun(plan, u, w, p);
    RunsCompose(plan, s, [SeeDone(w)], u, [EraseStatus(w, p)], t);
    PutTwice(s.waiters, w, u.waiters[w], t.waiters[w]);
  }

  /** If all parcels on its list have status DONE, a WaitAll call gets through the list
      by its own steps alone, and takes their statuses out of the map. */
  lemma {:induction false} CallGetsThrough(plan: Plan, s: State, w: nat, ps: seq<Parcel>)
    returns (ls: seq<Label>, t: State)
    requires ValidPlan(plan) && w in s.waiters && s.waiters[w].seen == None && s.waiters[w].todo == ps
    requires (forall p :: p in ps ==> p in plan) && DistinctParcels(ps) && AllHaveDone(s, ps)
    ensures Run(plan, s, ls, t) && (forall l :: l in ls ==> OfCall(l, w) && !l.EndWait?)
    ensures w in t.waiters && t.waiters[w].todo == [] && t.waiters == s.waiters[w := t.waiters[w]]
    ensures Erased(ls, w) == ps && t.status == s.status - KeysOf(ps)
    decreases |ps|
  {
    if ps == [] {
      ls, t := [], s;
      EmptyRun(plan, s, ls);
    } else {
      var first := [SeeDone(w)] + [EraseStatus(w, ps[0])];
      var u := FirstGetsThrough(plan, s, w, ps[0]);
      RestHasDone(plan, s, ps, u);
      var rest;
      rest, t := CallGetsThrough(plan, u, w, ps[1..]);
      RunsCompose(plan, s, first, u, rest, t);
      ls := first + rest;
      ErasedTwo(w, ps[0], rest);
      PutTwice(s.waiters, w, u.waiters[w], t.waiters[w]);
      KeysGone(s.status, KeyOf(ps[0]), KeysOf(ps[1..]));
    }
  }

  lemma PutGone<K, V>(m: map<K, V>, k: K, v: V)
    requires k !in m
    ensures m[k := v] - {k} == m
  {
  }

  lemma KeysGone(m: map<Key, Status>, k: Key, ks: set<Key>)
    ensures m - {k} - ks == m - ({k} + ks)
  {
  }

  lemma ErasedTwo(w: nat, p: Parcel, rest: seq<Label>)
    ensures Erased([SeeDone(w)] + [EraseStatus(w, p)] + rest, w) == [p] + Erased(rest, w)
  {
    var tail := [EraseStatus(w, p)] + rest;
    assert [SeeDone(w)] + [EraseStatus(w, p)] + rest == [SeeDone(w)] + tail;
    assert ([SeeDone(w)] + tail)[1..] == tail && tail[1..] == rest;
  }

  /** A WaitAll call under way, in any reachable state, whose distinct parcels all have
      status DONE can end by its own steps alone. */
  lemma CallCanEnd(plan: Plan, s0: State, past: seq<Label>, s: State, w: nat) returns (ls: seq<Label>, t: State)
    requires Reaches(plan, s0, past, s) && w in s.waiters && s.waiters[w].seen == None
    requires DistinctParcels(s.waiters[w].todo) && AllHaveDone(s, s.waiters[w].todo)
    ensures Run(plan, s, ls, t) && (forall l :: l in ls ==> OfCall(l, w)) && Enabled(plan, t, EndWait(w))
    ensures Erased(ls, w) == s.waiters[w].todo
    ensures t.status == s.status - (set p | p in s.waiters[w].todo :: KeyOf(p))
  {
    Reached(plan, s0, past, s);
    ListedArePlanned(plan, s, w);
    ls, t := CallGetsThrough(plan, s, w, s.waiters[w].todo);
    CanEnd(plan, t, w);
  }

  lemma ListedArePlanned(plan: Plan, s: State, w: nat)
    requires WaitersOk(plan, s) && w in s.waiters
    ensures forall p :: p in s.waiters[w].todo ==> p in plan
  {
    assert WaiterOk(plan, s.at, s.waiters[w]);
  }

  lemma CanEnd(plan: Plan, t: State, w: nat)
    requires w in t.waiters && t.waiters[w].todo == []
    ensures Enabled(plan, t, EndWait(w))
  {
  }

  /** WaitAll on distinct parcels that all have status DONE can return: the call begins,
      polls and erases each in order, ends, and leaves the other calls alone. */
  lemma WaitAllCanReturn(plan: Plan, s: State, w: nat, ps: seq<Parcel>) returns (ls: seq<Label>, t: State)
    requires ValidPlan(plan) && w !in s.waiters && (forall p :: p in ps ==> p in plan)
    requires DistinctParcels(ps) && AllHaveDone(s, ps)
    ensures Run(plan, s, [BeginWait(w, ps)] + (ls + [EndWait(w)]), t) && (forall l :: l in ls ==> OfCall(l, w))
    ensures Erased(ls, w) == ps && t.status == s.status - KeysOf(ps) && t.waiters == s.waiters
  {
    var u := BeginRun(plan, s, w, ps);
    var v;
    ls, v := CallGetsThrough(plan, u, w, ps);
    t := EndRun(plan, v, w);
    PutGone(s.waiters, w, v.waiters[w]);
    PutTwice(s.waiters, w, u.waiters[w], v.waiters[w]);
    RunsCompose(plan, u, ls, v, [EndWait(w)], t);
    RunsCompose(plan, s, [BeginWait(w, ps)], u, ls + [EndWait(w)], t);
  }

  // ---------- calls that never get through ----------

  /** Call `w` is between seeing and erasing the status of `p`. */
  predicate HasSeen(s: State, w: nat, p: Parcel) {
    w in s.waiters && s.waiters[w].seen.Some? && s.waiters[w].todo != [] && s.waiters[w].todo[0] == p
  }

  lemma SeesOnlyDone(plan: Plan, s: State, l: Label, w: nat, p: Parcel)
    requires Enabled(plan, s, l) && !HasSeen(s, w, p) && Look(s.status, KeyOf(p)) != Some(DONE)
    ensures !HasSeen(Next(plan, s, l), w, p) && l != EraseStatus(w, p)
  {
    NextWaiters(plan, s, l);
  }

  /** Once the sink is done with a parcel whose status is not DONE, no call returns for
      it but one that has seen DONE already. */
  lemma {:induction false} NeverErases(plan: Plan, base: Files, s: State, ls: seq<Label>, t: State, w: nat, p: Parcel)
    requires ValidPlan(plan) && Inv(plan, base, s) && Run(plan, s, ls, t) && Undone(plan, s, p) && !HasSeen(s, w, p)
    ensures EraseStatus(w, p) !in ls
    decreases |ls|
  {
    if ls != [] {
      SeesOnlyDone(plan, s, ls[0], w, p);
      InvProceeds(plan, base, s, ls[0]);
      UndoneStep(plan, s, ls[0], p);
      InvStep(plan, base, s, ls[0]);
      NeverErases(plan, base, Next(plan, s, ls[0]), ls[1..], t, w, p);
    }
  }

  // ---------- a second Wait ----------

  /** No other call is between seeing and erasing the status of `p`. */
  ghost predicate NoOtherSaw(s: State, w: nat, p: Parcel) {
    forall x :: x in s.waiters && x != w && s.waiters[x].seen.Some? && s.waiters[x].todo != [] ==>
      s.waiters[x].todo[0] != p
  }

  lemma NoneSaw(plan: Plan, s: State, w: nat, p: Parcel)
    requires Enabled(plan, s, EraseStatus(w, p)) && NoOtherSaw(s, w, p)
    ensures NobodySaw(Next(plan, s, EraseStatus(w, p)), p)
  {
    NextWaiters(plan, s, EraseStatus(w, p));
  }

  lemma ErasedIsUndone(plan: Plan, base: Files, s: State, w: nat, p: Parcel)
    requires ValidPlan(plan) && Inv(plan, base, s) && Enabled(plan, s, EraseStatus(w, p)) && NoOtherSaw(s, w, p)
    ensures var u := Next(plan, s, EraseStatus(w, p)); Undone(plan, u, p) && NobodySaw(u, p)
  {
    EraseSpends(plan, base, s, w, p);
    CallTouches(plan, s, EraseStatus(w, p), w);
    NoneSaw(plan, s, w, p);
  }

  /** Once a Wait has consumed the status of a parcel, published or subscribed, no later
      Wait on it returns, unless another call is already past its poll; and once the
      Publish call, if any, is over, the status stays absent. */
  lemma SecondWaitNeverReturns(plan: Plan, s0: State, past: seq<Label>, s: State, w: nat, p: Parcel,
                               ls: seq<Label>, t: State)
    requires Reaches(plan, s0, past, s) && Enabled(plan, s, EraseStatus(w, p))
    requires Run(plan, Next(plan, s, EraseStatus(w, p)), ls, t)
    ensures NoOtherSaw(s, w, p) ==> forall l :: l in ls ==> !EndsWait(l, p)
    ensures PublishOver(plan, s, p) ==> KeyOf(p) !in t.status
  {
    Reached(plan, s0, past, s);
    SpentAtEnd(plan, s0.files, s, w, p, ls, t);
    if NoOtherSaw(s, w, p) {
      ErasedIsUndone(plan, s0.files, s, w, p);
      InvStep(plan, s0.files, s, EraseStatus(w, p));
      NoWaitEnds(plan, s0.files, Next(plan, s, EraseStatus(w, p)), ls, t, p);
    }
  }

  lemma SubscribedIsSettled(plan: Plan, s: State, p: Parcel)
    requires IsRead(plan, p) && LocalOk(plan, p, ViewOf(plan, s, p)) && NobodySaw(s, p)
    requires p in s.subs && s.subs[p].Answered? && s.subs[p].waited
    ensures Settled(plan, s, p) && KeyOf(p) !in s.status
  {
    var v := ViewOf(plan, s, p);
    assert v.sub == Look(s.subs, p) && v.mark == Look(s.mark, p);
  }

  /** A Wait on a parcel after Subscribe has returned for it never returns. */
  lemma WaitAfterSubscribeNeverReturns(plan: Plan, s0: State, past: seq<Label>, s: State, p: Parcel,
                                       ls: seq<Label>, t: State)
    requires Reaches(plan, s0, past, s) && Run(plan, s, ls, t)
    requires IsRead(plan, p) && p in s.subs && s.subs[p].Answered? && s.subs[p].waited && NobodySaw(s, p)
    ensures KeyOf(p) !in t.status
    ensures forall l :: l in ls ==> !EndsWait(l, p)
  {
    Reached(plan, s0, past, s);
    SubscribedIsSettled(plan, s, p);
    SettledForever(plan, s0.files, s, ls, t, p);
  }
}
