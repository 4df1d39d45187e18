/** The statuses over all runs: their order, and when no Wait can return any more. */
module PipelineStatus {
  import opened Parcels
  import opened FileStore
  import opened Options
  import opened Pipeline
  import opened PipelineFrame
  import opened PipelineLocal
  import opened PipelineInv
  import opened PipelineSafety
  import opened PipelineProgress

  // ---------- order ----------

  /** absent, QUEUED, IN_PROGRESS, DONE, erased */
  function StatusRank(v: View): nat {
    match v.status
    case None => if DonePut(v) then 4 else 0
    case Some(QUEUED) => 1
    case Some(IN_PROGRESS) => 2
    case Some(DONE) => 3
  }

  lemma LocalStatusOrder(plan: Plan, v: View, l: Label, p: Parcel, bytes: Bytes)
    requires p in plan && LocalOk(plan, p, v) && Fits(plan, v, l, p) && Who(l) == Some(p)
    requires l.EraseStatus? ==> DonePut(v)
    ensures StatusRank(LocalNext(plan, v, l, p, bytes)) < StatusRank(v) <==> l.MarkQueued? && RunningPut(v)
    ensures plan[p].Read? ==> !l.MarkQueued?
  {
  }

  lemma OthersKeepRank(v: View, v': View)
    requires v' == v.(temp := v'.temp)
    ensures StatusRank(v') == StatusRank(v)
  {
  }

  /** A status goes back in the order exactly when Publish puts QUEUED after the
      source has put IN_PROGRESS; for a subscription it never does. */
  lemma StatusOrder(plan: Plan, base: Files, s: State, l: Label, p: Parcel)
    requires ValidPlan(plan) && Inv(plan, base, s) && Enabled(plan, s, l) && p in plan
    ensures StatusRank(ViewOf(plan, Next(plan, s, l), p)) < StatusRank(ViewOf(plan, s, p))
       <==> l == MarkQueued(p) && RunningPut(ViewOf(plan, s, p))
    ensures IsRead(plan, p) ==> StatusRank(ViewOf(plan, Next(plan, s, l), p)) >= StatusRank(ViewOf(plan, s, p))
  {
    InvProceeds(plan, base, s, l);
    if Who(l) == Some(p) {
      OwnStatusOrder(plan, s, l, p);
    } else {
      OthersStatusOrder(plan, s, l, p);
    }
  }

  lemma OwnStatusOrder(plan: Plan, s: State, l: Label, p: Parcel)
    requires ValidPlan(plan) && WaitersOk(plan, s) && Steps(plan, s, l, p)
    ensures StatusRank(ViewOf(plan, Next(plan, s, l), p)) < StatusRank(ViewOf(plan, s, p))
       <==> l == MarkQueued(p) && RunningPut(ViewOf(plan, s, p))
    ensures IsRead(plan, p) ==> l != MarkQueued(p)
  {
    OwnNext(plan, s, l, p);
    assert l.EraseStatus? ==> WaiterOk(plan, s.at, s.waiters[l.w]);
    LocalStatusOrder(plan, ViewOf(plan, s, p), l, p, ReadFile(s.files, StorageOf(p), p.position, p.dataSize));
  }

  lemma OthersStatusOrder(plan: Plan, s: State, l: Label, p: Parcel)
    requires ValidPlan(plan) && TempsApart(plan, s.at) && Proceeds(plan, s, l) && p in plan && Who(l) != Some(p)
    ensures StatusRank(ViewOf(plan, Next(plan, s, l), p)) == StatusRank(ViewOf(plan, s, p))
  {
    NextView(plan, s, l, p);
    OthersKeepRank(ViewOf(plan, s, p), ViewOf(plan, Next(plan, s, l), p));
  }

  // ---------- statuses that no longer change ----------

  /** No WaitAll call is between seeing the status of `p` and erasing it. */
  ghost predicate NobodySaw(s: State, p: Parcel) {
    forall w :: w in s.waiters && s.waiters[w].seen.Some? && s.waiters[w].todo != [] ==> s.waiters[w].todo[0] != p
  }

  /** A Wait on `p`, be it WaitAll's or the one inside Subscribe, gets past its poll
      or returns. */
  predicate EndsWait(l: Label, p: Parcel) {
    (l.EraseStatus? || l.SeeAnswer?) && l.p == p
  }

  /** The sink is done with the parcel, its Publish call, if any, is over, its status
      is not DONE and no WaitAll call has seen it DONE. */
  ghost predicate Settled(plan: Plan, s: State, p: Parcel) {
    && p in plan && Look(s.at, p) == Some(Finished) && Look(s.mark, p) != Some(Pending)
    && Look(s.status, KeyOf(p)) != Some(DONE)
    && NobodySaw(s, p)
  }

  lemma LocalSettled(plan: Plan, v: View, l: Label, p: Parcel, bytes: Bytes)
    requires p in plan && LocalOk(plan, p, v) && Fits(plan, v, l, p) && Who(l) == Some(p)
    requires DonePut(v) && v.mark != Some(Pending) && v.status != Some(DONE) && !l.EraseStatus?
    ensures var v' := LocalNext(plan, v, l, p, bytes);
            v'.at == v.at && v'.mark == v.mark && v'.status == v.status && !l.SeeAnswer?
  {
  }

  lemma NobodySees(plan: Plan, s: State, l: Label, p: Parcel)
    requires Enabled(plan, s, l) && NobodySaw(s, p) && Look(s.status, KeyOf(p)) != Some(DONE)
    ensures NobodySaw(Next(plan, s, l), p)
  {
    NextWaiters(plan, s, l);
  }

  lemma UnseenUnerased(plan: Plan, s: State, l: Label, p: Parcel)
    requires Enabled(plan, s, l) && NobodySaw(s, p)
    ensures !(l.EraseStatus? && l.p == p)
  {
  }

  lemma OwnSettled(plan: Plan, s: State, l: Label, p: Parcel)
    requires ValidPlan(plan) && Steps(plan, s, l, p) && Settled(plan, s, p) && !l.EraseStatus?
    ensures var v, v' := ViewOf(plan, s, p), ViewOf(plan, Next(plan, s, l), p);
            v'.at == v.at && v'.mark == v.mark && v'.status == v.status && !l.SeeAnswer?
  {
    OwnNext(plan, s, l, p);
    LocalSettled(plan, ViewOf(plan, s, p), l, p, ReadFile(s.files, StorageOf(p), p.position, p.dataSize));
  }

  lemma SettledView(plan: Plan, s: State, l: Label, p: Parcel)
    requires ValidPlan(plan) && TempsApart(plan, s.at) && Proceeds(plan, s, l) && Settled(plan, s, p)
    requires !(l.EraseStatus? && l.p == p)
    ensures var v, v' := ViewOf(plan, s, p), ViewOf(plan, Next(plan, s, l), p);
            v'.at == v.at && v'.mark == v.mark && v'.status == v.status
    ensures !EndsWait(l, p)
  {
    if Who(l) == Some(p) {
      OwnSettled(plan, s, l, p);
    } else {
      NextView(plan, s, l, p);
    }
  }

  lemma SettledStep(plan: Plan, base: Files, s: State, l: Label, p: Parcel)
    requires ValidPlan(plan) && Inv(plan, base, s) && Enabled(plan, s, l) && Settled(plan, s, p)
    ensures Settled(plan, Next(plan, s, l), p)
    ensures Look(Next(plan, s, l).status, KeyOf(p)) == Look(s.status, KeyOf(p))
    ensures !EndsWait(l, p)
  {
    InvProceeds(plan, base, s, l);
    UnseenUnerased(plan, s, l, p);
    SettledView(plan, s, l, p);
    NobodySees(plan, s, l, p);
  }

  /** A settled status never changes again and no Wait on the parcel returns. */
  lemma {:induction false} SettledForever(plan: Plan, base: Files, s: State, ls: seq<Label>, t: State, p: Parcel)
    requires ValidPlan(plan) && Inv(plan, base, s) && Run(plan, s, ls, t) && Settled(plan, s, p)
    ensures Look(t.status, KeyOf(p)) == Look(s.status, KeyOf(p)) && NobodySaw(t, p)
    ensures forall l :: l in ls ==> !EndsWait(l, p)
    decreases |ls|
  {
    if ls != [] {
      SettledStep(plan, base, s, ls[0], p);
      InvStep(plan, base, s, ls[0]);
      SettledForever(plan, base, Next(plan, s, ls[0]), ls[1..], t, p);
    }
  }

  // ---------- statuses that never become DONE again ----------

  /** The sink is done with the parcel, and its status is not DONE. */
  predicate Undone(plan: Plan, s: State, p: Parcel) {
    p in plan && Look(s.at, p) == Some(Finished) && Look(s.status, KeyOf(p)) != Some(DONE)
  }

  lemma LocalUndone(plan: Plan, v: View, l: Label, p: Parcel, bytes: Bytes)
    requires p in plan && LocalOk(plan, p, v) && Fits(plan, v, l, p) && Who(l) == Some(p)
    requires DonePut(v) && v.status != Some(DONE)
    ensures var v' := LocalNext(plan, v, l, p, bytes); v'.at == v.at && v'.status != Some(DONE) && !l.SeeAnswer?
  {
    assert v.pc.None?;
    assert !l.Finish? && !l.MarkRunning?;
  }

  lemma UndoneView(plan: Plan, s: State, p: Parcel)
    requires p in plan
    ensures Undone(plan, s, p) <==> DonePut(ViewOf(plan, s, p)) && ViewOf(plan, s, p).status != Some(DONE)
  {
  }

  lemma OwnUndone(plan: Plan, s: State, l: Label, p: Parcel)
    requires ValidPlan(plan) && Steps(plan, s, l, p) && Undone(plan, s, p)
    ensures Undone(plan, Next(plan, s, l), p) && !l.SeeAnswer?
  {
    OwnNext(plan, s, l, p);
    LocalUndone(plan, ViewOf(plan, s, p), l, p, ReadFile(s.files, StorageOf(p), p.position, p.dataSize));
    UndoneView(plan, Next(plan, s, l), p);
  }

  lemma OthersUndone(plan: Plan, s: State, l: Label, p: Parcel)
    requires ValidPlan(plan) && TempsApart(plan, s.at) && Proceeds(plan, s, l)
    requires Who(l) != Some(p) && Undone(plan, s, p)
    ensures Undone(plan, Next(plan, s, l), p)
  {
    UndoneView(plan, s, p);
    NextView(plan, s, l, p);
    UndoneView(plan, Next(plan, s, l), p);
  }

  lemma UndoneStep(plan: Plan, s: State, l: Label, p: Parcel)
    requires ValidPlan(plan) && TempsApart(plan, s.at) && Proceeds(plan, s, l) && Undone(plan, s, p)
    ensures Undone(plan, Next(plan, s, l), p) && !(l.SeeAnswer? && l.p == p)
  {
    if Who(l) == Some(p) { OwnUndone(plan, s, l, p); } else { OthersUndone(plan, s, l, p); }
  }

  lemma UnseenStep(plan: Plan, s: State, l: Label, p: Parcel)
    requires Enabled(plan, s, l) && Undone(plan, s, p) && NobodySaw(s, p)
    ensures NobodySaw(Next(plan, s, l), p) && !(l.EraseStatus? && l.p == p)
  {
    NobodySees(plan, s, l, p);
    UnseenUnerased(plan, s, l, p);
  }

  /** Once the sink is done, a status that is not DONE never becomes DONE, whatever
      Publish still puts. */
  lemma {:induction false} UndoneForever(plan: Plan, base: Files, s: State, ls: seq<Label>, t: State, p: Parcel)
    requires ValidPlan(plan) && Inv(plan, base, s) && Run(plan, s, ls, t) && Undone(plan, s, p)
    ensures Undone(plan, t, p)
    decreases |ls|
  {
    if ls != [] {
      InvProceeds(plan, base, s, ls[0]);
      UndoneStep(plan, s, ls[0], p);
      InvStep(plan, base, s, ls[0]);
      UndoneForever(plan, base, Next(plan, s, ls[0]), ls[1..], t, p);
    }
  }

  /** And if no WaitAll call has seen it DONE either, no Wait on the parcel returns. */
  lemma {:induction false} NoWaitEnds(plan: Plan, base: Files, s: State, ls: seq<Label>, t: State, p: Parcel)
    requires ValidPlan(plan) && Inv(plan, base, s) && Run(plan, s, ls, t) && Undone(plan, s, p) && NobodySaw(s, p)
    ensures forall l :: l in ls ==> !EndsWait(l, p)
    decreases |ls|
  {
    if ls != [] {
      InvProceeds(plan, base, s, ls[0]);
      UndoneStep(plan, s, ls[0], p);
      UnseenStep(plan, s, ls[0], p);
      InvStep(plan, base, s, ls[0]);
      NoWaitEnds(plan, base, Next(plan, s, ls[0]), ls[1..], t, p);
    }
  }

  lemma MarkedView(plan: Plan, s: State, p: Parcel)
    requires ValidPlan(plan) && Enabled(plan, s, MarkQueued(p))
    ensures var t := Next(plan, s, MarkQueued(p));
            && t.at == s.at && t.waiters == s.waiters && Look(t.status, KeyOf(p)) == Some(QUEUED)
            && p in t.mark && (Look(s.at, p) == Some(Finished) <==> t.mark[p] == Late) && t.mark[p] != Pending
  {
  }

  /** A QUEUED put that comes after the DONE put stays for ever, and from then on
      no Wait on the parcel returns; this needs only that no WaitAll call was
      already past its poll. */
  lemma LateQueuedStays(plan: Plan, base: Files, s: State, p: Parcel, ls: seq<Label>, t: State)
    requires ValidPlan(plan) && Inv(plan, base, s) && IsWrite(plan, p)
    requires Enabled(plan, s, MarkQueued(p)) && Look(s.at, p) == Some(Finished) && NobodySaw(s, p)
    requires Run(plan, Next(plan, s, MarkQueued(p)), ls, t)
    ensures Look(t.status, KeyOf(p)) == Some(QUEUED)
    ensures forall l :: l in ls ==> !EndsWait(l, p)
  {
    MarkedView(plan, s, p);
    InvStep(plan, base, s, MarkQueued(p));
    SettledForever(plan, base, Next(plan, s, MarkQueued(p)), ls, t, p);
  }

  // ---------- the unlucky schedule exists ----------

  lemma LocalTaskKeepsMark(plan: Plan, v: View, l: Label, p: Parcel, bytes: Bytes)
    requires p in plan && TaskStep(l) && Who(l) == Some(p)
    ensures EffectOf(plan, v, l, p, bytes).mark.Keep? && !EffectOf(plan, v, l, p, bytes).status.Remove?
  {
  }

  lemma TaskHasParcel(l: Label)
    requires TaskStep(l)
    ensures Who(l) == Some(ParcelOf(l))
  {
  }

  /** Task steps end no WaitAll call, change no mark and remove no status. */
  lemma WaitersKept(plan: Plan, s: State, l: Label)
    requires Enabled(plan, s, l) && TaskStep(l)
    ensures Next(plan, s, l).waiters == s.waiters
  {
    NextWaiters(plan, s, l);
  }

  lemma MarkKept(plan: Plan, s: State, l: Label, q: Parcel, p: Parcel)
    requires Enabled(plan, s, l) && TaskStep(l) && Who(l) == Some(q)
    ensures Look(Next(plan, s, l).mark, p) == Look(s.mark, p)
  {
    NextIsStepped(plan, s, l, q);
    LocalTaskKeepsMark(plan, ViewOf(plan, s, q), l, q, ReadFile(s.files, StorageOf(q), q.position, q.dataSize));
    LookUpdated(s.mark, q, Keep, p);
  }

  lemma StatusKept(plan: Plan, s: State, l: Label, q: Parcel, k: Key)
    requires Enabled(plan, s, l) && TaskStep(l) && Who(l) == Some(q) && k in s.status
    ensures k in Next(plan, s, l).status
  {
    NextIsStepped(plan, s, l, q);
    LocalTaskKeepsMark(plan, ViewOf(plan, s, q), l, q, ReadFile(s.files, StorageOf(q), q.position, q.dataSize));
  }

  lemma {:induction false} TasksKeepStatus(plan: Plan, s: State, ls: seq<Label>, t: State, k: Key)
    requires Run(plan, s, ls, t) && k in s.status && forall l :: l in ls ==> TaskStep(l)
    ensures k in t.status
    decreases |ls|
  {
    if ls != [] {
      assert ls[0] in ls;
      TaskHasParcel(ls[0]);
      StatusKept(plan, s, ls[0], ParcelOf(ls[0]), k);
      TasksKeepStatus(plan, Next(plan, s, ls[0]), ls[1..], t, k);
    }
  }

  lemma {:induction false} TasksKeepMark(plan: Plan, s: State, ls: seq<Label>, t: State, p: Parcel)
    requires Run(plan, s, ls, t) && forall l :: l in ls ==> TaskStep(l)
    ensures Look(t.mark, p) == Look(s.mark, p) && t.waiters == s.waiters
    decreases |ls|
  {
    if ls != [] {
      assert ls[0] in ls;
      TaskHasParcel(ls[0]);
      MarkKept(plan, s, ls[0], ParcelOf(ls[0]), p);
      WaitersKept(plan, s, ls[0]);
      TasksKeepMark(plan, Next(plan, s, ls[0]), ls[1..], t, p);
    }
  }

  /** The tasks on duty. */
  predicate SameStaff(s: State, t: State) {
    t.serves == s.serves && t.sinks == s.sinks && t.routes == s.routes
  }

  lemma OneStepRun(plan: Plan, base: Files, s: State, l: Label, p: Parcel) returns (t: State)
    requires ValidPlan(plan) && Inv(plan, base, s) && Enabled(plan, s, l) && Who(l) == Some(p)
    ensures t == Next(plan, s, l) && Run(plan, s, [l], t) && Inv(plan, base, t) && SameStaff(s, t)
    ensures Stepped(s, p, StepEffect(plan, s, l, p), t)
  {
    t := Next(plan, s, l);
    InvStep(plan, base, s, l);
    NextIsStepped(plan, s, l, p);
    SingleRun(plan, s, l);
  }

  lemma AfterBegin(plan: Plan, s: State, p: Parcel, t: State)
    requires IsWrite(plan, p) && Stepped(s, p, StepEffect(plan, s, BeginPublish(p), p), t)
    ensures t.at == s.at[p := Publisher] && Look(t.pc, p) == Some(Putting(plan[p].data))
  {
  }

  lemma AfterPut(plan: Plan, s: State, p: Parcel, t: State)
    requires p in plan && Stepped(s, p, StepEffect(plan, s, PutPayload(p), p), t)
    ensures t.at == s.at && Look(t.pc, p) == Some(Pushing)
  {
  }

  lemma AfterPush(plan: Plan, s: State, p: Parcel, server: nat, t: State)
    requires p in plan && Stepped(s, p, StepEffect(plan, s, PushParcel(p, server), p), t)
    ensures t.at == s.at[p := InQueue(WriteQueue(server))] && Look(t.mark, p) == Some(Pending)
  {
  }

  lemma CanPut(plan: Plan, t: State, p: Parcel, d: Bytes)
    requires p in plan && p in Held(t, Publisher) && Look(t.pc, p) == Some(Putting(d))
    ensures Enabled(plan, t, PutPayload(p))
  {
  }

  lemma CanPush(plan: Plan, t: State, p: Parcel, server: nat)
    requires p in plan && p in Held(t, Publisher) && Look(t.pc, p) == Some(Pushing)
    ensures Enabled(plan, t, PushParcel(p, server))
  {
  }

  lemma BeginRun(plan: Plan, base: Files, s: State, p: Parcel) returns (t: State)
    requires ValidPlan(plan) && Inv(plan, base, s) && Enabled(plan, s, BeginPublish(p))
    ensures Run(plan, s, [BeginPublish(p)], t) && Inv(plan, base, t) && SameStaff(s, t)
    ensures t.at == s.at[p := Publisher] && Enabled(plan, t, PutPayload(p))
  {
    t := OneStepRun(plan, base, s, BeginPublish(p), p);
    AfterBegin(plan, s, p, t);
    AtIsHeld(plan, base, t, p);
    CanPut(plan, t, p, plan[p].data);
  }

  lemma PutRun(plan: Plan, base: Files, s: State, p: Parcel, server: nat) returns (t: State)
    requires ValidPlan(plan) && Inv(plan, base, s)
    requires Enabled(plan, s, PutPayload(p)) && Look(s.at, p) == Some(Publisher)
    ensures Run(plan, s, [PutPayload(p)], t) && Inv(plan, base, t) && SameStaff(s, t)
    ensures t.at == s.at && Enabled(plan, t, PushParcel(p, server))
  {
    t := OneStepRun(plan, base, s, PutPayload(p), p);
    AfterPut(plan, s, p, t);
    AtIsHeld(plan, base, t, p);
    CanPush(plan, t, p, server);
  }

  lemma PushRun(plan: Plan, base: Files, s: State, p: Parcel, server: nat) returns (t: State)
    requires ValidPlan(plan) && Inv(plan, base, s) && Enabled(plan, s, PushParcel(p, server))
    ensures Run(plan, s, [PushParcel(p, server)], t) && Inv(plan, base, t) && SameStaff(s, t)
    ensures Look(t.mark, p) == Some(Pending) && t.at == s.at[p := InQueue(WriteQueue(server))]
  {
    t := OneStepRun(plan, base, s, PushParcel(p, server), p);
    AfterPush(plan, s, p, server, t);
  }

  lemma PutTwice<K, V>(m: map<K, V>, k: K, x: V, y: V)
    ensures m[k := x][k := y] == m[k := y]
  {
  }

  /** A parcel that no one uses can be published up to the pending QUEUED put. */
  lemma PublishUpToMark(plan: Plan, base: Files, s: State, p: Parcel, server: nat) returns (t: State)
    requires ValidPlan(plan) && Inv(plan, base, s) && Enabled(plan, s, BeginPublish(p))
    ensures Run(plan, s, [BeginPublish(p)] + ([PutPayload(p)] + [PushParcel(p, server)]), t)
    ensures Look(t.mark, p) == Some(Pending) && t.at == s.at[p := InQueue(WriteQueue(server))]
    ensures Inv(plan, base, t) && SameStaff(s, t)
  {
    var s1 := BeginRun(plan, base, s, p);
    var s2 := PutRun(plan, base, s1, p, server);
    t := PushRun(plan, base, s2, p, server);
    PutTwice(s.at, p, Publisher, InQueue(WriteQueue(server)));
    RunsCompose(plan, s1, [PutPayload(p)], s2, [PushParcel(p, server)], t);
    RunsCompose(plan, s, [BeginPublish(p)], s1, [PutPayload(p)] + [PushParcel(p, server)], t);
  }

  lemma PendingIsTaken(plan: Plan, s: State, p: Parcel)
    requires IsWrite(plan, p) && LocalOk(plan, p, ViewOf(plan, s, p)) && Look(s.mark, p) == Some(Pending)
    ensures p in s.at && (OnItsWay(s.at[p]) || s.at[p] == Finished)
  {
  }

  lemma UnfinishedUnseen(plan: Plan, s: State, p: Parcel)
    requires WaitersOk(plan, s) && Look(s.at, p) != Some(Finished)
    ensures NobodySaw(s, p)
  {
    forall w | w in s.waiters && s.waiters[w].seen.Some? && s.waiters[w].todo != []
      ensures s.waiters[w].todo[0] != p
    {
      assert WaiterOk(plan, s.at, s.waiters[w]);
    }
  }

  lemma RestingPending(plan: Plan, base: Files, t: State, p: Parcel)
    requires Inv(plan, base, t) && IsWrite(plan, p) && Look(t.mark, p) == Some(Pending)
    requires forall x :: x in t.at ==> !OnItsWay(t.at[x])
    ensures Look(t.at, p) == Some(Finished) && Enabled(plan, t, MarkQueued(p))
  {
    assert LocalOk(plan, p, ViewOf(plan, t, p));
    PendingIsTaken(plan, t, p);
  }

  /** Whenever a pushed parcel is not yet marked QUEUED and not finished, the tasks
      can be so fast that its Publish call returns success and yet no Wait on it
      ever returns. */
  lemma LateMarkCanHappen(plan: Plan, base: Files, s: State, p: Parcel) returns (ls: seq<Label>, t: State)
    requires ValidPlan(plan) && Inv(plan, base, s) && Staffed(plan, s)
    requires IsWrite(plan, p) && Look(s.mark, p) == Some(Pending) && Look(s.at, p) != Some(Finished)
    ensures Run(plan, s, ls, t) && (forall l :: l in ls ==> TaskStep(l))
    ensures Enabled(plan, t, MarkQueued(p)) && Look(t.at, p) == Some(Finished) && NobodySaw(t, p) && Inv(plan, base, t)
  {
    ls, t := TasksCanFinish(plan, base, s);
    TasksKeepMark(plan, s, ls, t, p);
    RestingPending(plan, base, t, p);
    UnfinishedUnseen(plan, s, p);
  }
}
