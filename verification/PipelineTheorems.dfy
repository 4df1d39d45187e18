/** The main results about the pipeline that are not stated over whole runs where
    they are proved, for every state that any interleaving reaches. */
module PipelineTheorems {
  import opened Parcels
  import opened FileStore
  import opened Options
  import opened Sums
  import opened Pipeline
  import opened PipelineFrame
  import opened PipelineLocal
  import opened PipelineInv
  import opened PipelineSafety
  import opened PipelineProgress
  import opened PipelineStatus
  import opened PipelineWaits

  /** The pipeline refines atomic range writes: the step that lands a payload is one
      such write, of a payload not written before; no other step is seen in storage. */
  lemma EveryStepRefines(plan: Plan, s0: State, past: seq<Label>, s: State, l: Label)
    requires Reaches(plan, s0, past, s) && Enabled(plan, s, l)
    ensures var t := Next(plan, s, l);
            if l.Land? && IsWrite(plan, l.p) then
              l.p !in s.stored && t.stored == s.stored + [l.p] &&
              Strip(plan, t.files) == WriteParcel(Strip(plan, s.files), l.p, plan[l.p].data)
            else t.stored == s.stored && Strip(plan, t.files) == Strip(plan, s.files)
  {
    Reached(plan, s0, past, s);
    StepRefines(plan, s0.files, s, l);
  }

  /** Statuses go absent, QUEUED, IN_PROGRESS, DONE, erased; the only step back is a
      QUEUED put after the IN_PROGRESS put, and subscriptions never step back. */
  lemma StatusesGoForward(plan: Plan, s0: State, past: seq<Label>, s: State, l: Label, p: Parcel)
    requires Reaches(plan, s0, past, s) && Enabled(plan, s, l) && p in plan
    ensures StatusRank(ViewOf(plan, Next(plan, s, l), p)) < StatusRank(ViewOf(plan, s, p))
       <==> l == MarkQueued(p) && RunningPut(ViewOf(plan, s, p))
    ensures IsRead(plan, p) ==> StatusRank(ViewOf(plan, Next(plan, s, l), p)) >= StatusRank(ViewOf(plan, s, p))
  {
    Reached(plan, s0, past, s);
    StatusOrder(plan, s0.files, s, l, p);
  }

  /** In every run the tasks take at most 12 steps for each parcel that joined a
      queue, so without further calls they come to rest. */
  lemma TaskWorkIsBounded(plan: Plan, s0: State, ls: seq<Label>, t: State)
    requires Reaches(plan, s0, ls, t)
    ensures Count(ls, TaskStep) + Rank(t) <= 12 * Count(ls, Arrival)
  {
    InvInit(plan, s0);
    assert Ranks(s0.at, s0.pc) == map[];
    TaskStepsBounded(plan, s0.files, s0, ls, t);
  }

  /** Where they rest nothing is on its way, and a published parcel is in storage
      with status DONE or consumed, unless its QUEUED put came late. */
  lemma RestingRunsAreDone(plan: Plan, s0: State, past: seq<Label>, s: State, p: Parcel)
    requires Reaches(plan, s0, past, s) && Staffed(plan, s) && p in s.at
    requires forall l :: TaskStep(l) ==> !Enabled(plan, s, l)
    ensures !OnItsWay(s.at[p])
    ensures IsWrite(plan, p) && p in s.mark && s.mark[p] != Late ==>
              s.at[p] == Finished && p in s.stored &&
              (Look(s.status, KeyOf(p)) == Some(DONE) || Look(s.status, KeyOf(p)) == None)
    ensures IsRead(plan, p) ==> ReadIsDone(s, p)
  {
    Reached(plan, s0, past, s);
    RestIsFinished(plan, s0.files, s, p);
  }

  // ---------- the late QUEUED put ----------

  /** The tasks can bring a parcel whose QUEUED put is over to DONE. */
  lemma CanBeDone(plan: Plan, base: Files, s: State, p: Parcel) returns (ls: seq<Label>, t: State)
    requires ValidPlan(plan) && Inv(plan, base, s) && Staffed(plan, s) && IsWrite(plan, p)
    requires p in s.mark && s.mark[p] != Late && s.mark[p] != Pending && KeyOf(p) in s.status
    ensures Run(plan, s, ls, t) && Look(t.status, KeyOf(p)) == Some(DONE) && t.waiters == s.waiters
  {
    ls, t := TasksCanFinish(plan, base, s);
    TasksKeepMark(plan, s, ls, t, p);
    TasksKeepStatus(plan, s, ls, t, KeyOf(p));
    RestedIsDone(plan, t, p);
  }

  lemma RestedIsDone(plan: Plan, t: State, p: Parcel)
    requires IsWrite(plan, p) && LocalOk(plan, p, ViewOf(plan, t, p))
    requires forall x :: x in t.at ==> !OnItsWay(t.at[x])
    requires p in t.mark && t.mark[p] != Late && KeyOf(p) in t.status
    ensures Look(t.status, KeyOf(p)) == Some(DONE)
  {
    assert Look(t.mark, p) == ViewOf(plan, t, p).mark;
  }

  lemma MarkingKeepsStaff(plan: Plan, s: State, p: Parcel)
    requires Custody(s.held, s.at) && Staffed(plan, s) && Enabled(plan, s, MarkQueued(p))
    ensures Staffed(plan, Next(plan, s, MarkQueued(p)))
  {
    NextIsStepped(plan, s, MarkQueued(p), p);
    QueuesShrink(plan, s, p, StepEffect(plan, s, MarkQueued(p), p), Next(plan, s, MarkQueued(p)));
  }

  lemma MarkedInTime(plan: Plan, base: Files, s: State, p: Parcel)
    requires ValidPlan(plan) && Inv(plan, base, s) && Enabled(plan, s, MarkQueued(p)) && Staffed(plan, s)
    requires IsWrite(plan, p) && Look(s.at, p) != Some(Finished)
    ensures var u := Next(plan, s, MarkQueued(p));
            && Inv(plan, base, u) && Staffed(plan, u)
            && p in u.mark && u.mark[p] != Late && u.mark[p] != Pending && KeyOf(p) in u.status
  {
    InvStep(plan, base, s, MarkQueued(p));
    MarkingKeepsStaff(plan, s, p);
    MarkedView(plan, s, p);
  }

  /** In some run a Wait on `p` that has not begun yet returns: it erases the status. */
  ghost predicate WaitCanReturn(plan: Plan, s: State, p: Parcel) {
    exists w, ls, t :: w !in s.waiters && Run(plan, s, ls, t) && EraseStatus(w, p) in ls
  }

  lemma {:induction false} FreshCall(busy: set<nat>, n: nat) returns (w: nat)
    ensures w !in busy && w >= n
    decreases |busy|
  {
    if n in busy {
      w := FreshCall(busy - {n}, n + 1);
    } else {
      w := n;
    }
  }

  lemma ErasedInRun(ls: seq<Label>, w: nat, p: Parcel)
    requires p in Erased(ls, w)
    ensures EraseStatus(w, p) in ls
    decreases |ls|
  {
    ErasedFirst(ls, w, p);
    if ls[0] != EraseStatus(w, p) { ErasedInRun(ls[1..], w, p); }
  }

  lemma OneWait(plan: Plan, t: State, w: nat, p: Parcel) returns (ls: seq<Label>, u: State)
    requires ValidPlan(plan) && p in plan && w !in t.waiters && Look(t.status, KeyOf(p)) == Some(DONE)
    ensures Run(plan, t, ls, u) && EraseStatus(w, p) in ls
  {
    var ms;
    ms, u := WaitAllCanReturn(plan, t, w, [p]);
    ErasedInRun(ms, w, p);
    ls := [BeginWait(w, [p])] + (ms + [EndWait(w)]);
  }

  lemma DoneLetsWaitReturn(plan: Plan, s: State, ls: seq<Label>, t: State, p: Parcel)
    requires ValidPlan(plan) && p in plan && Run(plan, s, ls, t) && t.waiters == s.waiters
    requires Look(t.status, KeyOf(p)) == Some(DONE)
    ensures WaitCanReturn(plan, s, p)
  {
    var w := FreshCall(s.waiters.Keys, 0);
    var ms, u := OneWait(plan, t, w, p);
    RunsCompose(plan, s, ls, t, ms, u);
    assert EraseStatus(w, p) in ls + ms;
  }

  /** After the QUEUED put of Publish a Wait on the parcel can still return if and only
      if the sink had not finished the parcel before that put. */
  lemma WaitCanReturnUnlessLate(plan: Plan, s0: State, past: seq<Label>, s: State, p: Parcel)
    requires Reaches(plan, s0, past, s) && Staffed(plan, s) && IsWrite(plan, p)
    requires Enabled(plan, s, MarkQueued(p))
    ensures WaitCanReturn(plan, Next(plan, s, MarkQueued(p)), p) <==> Look(s.at, p) != Some(Finished)
  {
    Reached(plan, s0, past, s);
    if Look(s.at, p) == Some(Finished) {
      LateIsUndone(plan, s0.files, s, p);
    } else {
      MarkedInTime(plan, s0.files, s, p);
      var ls, t := CanBeDone(plan, s0.files, Next(plan, s, MarkQueued(p)), p);
      DoneLetsWaitReturn(plan, Next(plan, s, MarkQueued(p)), ls, t, p);
    }
  }

  lemma LateIsUndone(plan: Plan, base: Files, s: State, p: Parcel)
    requires ValidPlan(plan) && Inv(plan, base, s) && IsWrite(plan, p)
    requires Enabled(plan, s, MarkQueued(p)) && Look(s.at, p) == Some(Finished)
    ensures !WaitCanReturn(plan, Next(plan, s, MarkQueued(p)), p)
  {
    var u := Next(plan, s, MarkQueued(p));
    MarkedView(plan, s, p);
    InvStep(plan, base, s, MarkQueued(p));
    forall w, ls, t | w !in u.waiters && Run(plan, u, ls, t)
      ensures EraseStatus(w, p) !in ls
    {
      NeverErases(plan, base, u, ls, t, w, p);
    }
  }

  /** The parcel's status is QUEUED and no Wait on it returns, whatever happens. */
  ghost predicate Stuck(plan: Plan, s: State, p: Parcel) {
    forall ls, t :: Run(plan, s, ls, t) ==>
      Look(t.status, KeyOf(p)) == Some(QUEUED) && forall l :: l in ls ==> !EndsWait(l, p)
  }

  lemma LateIsStuck(plan: Plan, base: Files, s: State, p: Parcel)
    requires ValidPlan(plan) && Inv(plan, base, s) && IsWrite(plan, p)
    requires Enabled(plan, s, MarkQueued(p)) && Look(s.at, p) == Some(Finished) && NobodySaw(s, p)
    ensures Stuck(plan, Next(plan, s, MarkQueued(p)), p)
  {
    forall ls, t | Run(plan, Next(plan, s, MarkQueued(p)), ls, t)
      ensures Look(t.status, KeyOf(p)) == Some(QUEUED) && forall l :: l in ls ==> !EndsWait(l, p)
    {
      LateQueuedStays(plan, base, s, p, ls, t);
    }
  }

  /** The late case does happen: from every state in which a pushed parcel still
      lacks its QUEUED put, the tasks alone can finish the parcel first. */
  lemma LateCaseIsReachable(plan: Plan, s0: State, past: seq<Label>, s: State,
                            p: Parcel) returns (ls: seq<Label>, t: State)
    requires Reaches(plan, s0, past, s) && Staffed(plan, s) && IsWrite(plan, p)
    requires Look(s.mark, p) == Some(Pending) && Look(s.at, p) != Some(Finished)
    ensures Run(plan, s, ls, t) && Enabled(plan, t, MarkQueued(p)) && Stuck(plan, Next(plan, t, MarkQueued(p)), p)
  {
    Reached(plan, s0, past, s);
    ls, t := LateMarkCanHappen(plan, s0.files, s, p);
    LateIsStuck(plan, s0.files, t, p);
  }

  /** With only `p` under way, a source for its queue and a sink for its job are staff enough. */
  lemma OneParcelIsStaffed(plan: Plan, base: Files, s: State, p: Parcel, q: Queue)
    requires Inv(plan, base, s) && s.at == map[p := InQueue(q)]
    requires HasSource(s.serves, q) && HasSink(plan, s.sinks, s.routes, p)
    ensures Staffed(plan, s)
  {
    forall x | Held(s, InQueue(x)) != []
      ensures HasSource(s.serves, x)
    {
      HeldIsAt(plan, base, s, InQueue(x));
    }
  }

  lemma CanBegin(plan: Plan, s0: State, p: Parcel)
    requires Init(plan, s0) && IsWrite(plan, p)
    ensures Enabled(plan, s0, BeginPublish(p))
  {
  }

  /** From every start with one source for the queue and one write sink, every planned
      write has a run in which Publish returns success and no Wait on the parcel can
      ever return. */
  lemma PublishCanBeStuck(plan: Plan, s0: State, p: Parcel, server: nat) returns (ls: seq<Label>, t: State)
    requires ValidPlan(plan) && Init(plan, s0) && IsWrite(plan, p)
    requires HasSource(s0.serves, WriteQueue(server)) && HasSink(plan, s0.sinks, s0.routes, p)
    ensures Run(plan, s0, ls, t) && Look(t.mark, p) == Some(Late) && Look(t.at, p) == Some(Finished)
    ensures Stuck(plan, t, p)
  {
    InvInit(plan, s0);
    CanBegin(plan, s0, p);
    var s := PublishUpToMark(plan, s0.files, s0, p, server);
    OneParcelIsStaffed(plan, s0.files, s, p, WriteQueue(server));
    var ms, u := LateMarkCanHappen(plan, s0.files, s, p);
    t := MarkLate(plan, s0.files, u, p);
    var before := [BeginPublish(p)] + ([PutPayload(p)] + [PushParcel(p, server)]);
    RunsCompose(plan, s, ms, u, [MarkQueued(p)], t);
    RunsCompose(plan, s0, before, s, ms + [MarkQueued(p)], t);
    ls := before + (ms + [MarkQueued(p)]);
  }

  lemma MarkLate(plan: Plan, base: Files, u: State, p: Parcel) returns (t: State)
    requires ValidPlan(plan) && Inv(plan, base, u) && IsWrite(plan, p)
    requires Enabled(plan, u, MarkQueued(p)) && Look(u.at, p) == Some(Finished) && NobodySaw(u, p)
    ensures Run(plan, u, [MarkQueued(p)], t) && Look(t.mark, p) == Some(Late) && Look(t.at, p) == Some(Finished)
    ensures Stuck(plan, t, p)
  {
    t := Next(plan, u, MarkQueued(p));
    SingleRun(plan, u, MarkQueued(p));
    MarkedView(plan, u, p);
    LateIsStuck(plan, base, u, p);
  }
}
