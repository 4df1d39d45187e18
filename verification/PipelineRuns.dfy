/** What the pipeline can do: starts, publications, refusals and answers that are
    always possible, and the exact effect of the steps that are not a task's. */
module PipelineRuns {
  import opened Parcels
  import opened FileStore
  import opened Options
  import opened TempNames
  import opened Pipeline
  import opened PipelineFrame
  import opened PipelineLocal
  import opened PipelineInv
  import opened PipelineProgress
  import opened PipelineStatus

  // ---------- starts ----------

  /** A plan is fit to run if no two parcels agree in name and unique id, no planned
      file on device 0 has the name of a temporary file, and payloads have the
      announced size. */
  lemma FitPlan(plan: Plan)
    requires forall p, q :: p in plan && q in plan && p.id == q.id && p.uniqueId == q.uniqueId ==> p == q
    requires forall p, q :: p in plan && q in plan && plan[q].Write? && p.storageIndex == 0 ==>
               p.id != q.id + "_temp" + Decimal(q.position)
    requires forall p :: p in plan && plan[p].Write? ==> |plan[p].data| == p.dataSize
    ensures ValidPlan(plan)
  {
  }

  /** Whatever else the shared maps and the files hold, and whoever works, is a start. */
  lemma AnyStart(plan: Plan, warehouse: map<Key, Bytes>, status: map<Key, Status>, files: Files,
                 serves: map<nat, Queue>, sinks: map<nat, Job>, routes: map<string, nat>)
    requires forall p :: p in plan ==> Key(p.id, p.uniqueId) !in warehouse && Key(p.id, p.uniqueId) !in status
    ensures Init(plan, State(warehouse, status, files, map[], map[], map[], map[], map[], serves, {}, sinks, routes,
                             map[], map[], []))
  {
  }

  /** Which sinks will do. */
  lemma AnySink(plan: Plan, sinks: map<nat, Job>, routes: map<string, nat>, i: nat, p: Parcel)
    requires p in plan && i in sinks && sinks[i] == (if plan[p].Write? then WriteJob else ReadJob)
    requires plan[p].Write? && p.id in routes ==> routes[p.id] == i
    ensures HasSink(plan, sinks, routes, p)
  {
    assert MayTake(plan, sinks, routes, i, p);
  }

  // ---------- single steps ----------

  lemma StepRun(plan: Plan, s: State, l: Label, p: Parcel, e: Effect) returns (t: State)
    requires Enabled(plan, s, l) && Who(l) == Some(p) && e == StepEffect(plan, s, l, p)
    ensures Run(plan, s, [l], t) && t == Next(plan, s, l) && Stepped(s, p, e, t)
  {
    t := Next(plan, s, l);
    NextIsStepped(plan, s, l, p);
    SingleRun(plan, s, l);
  }

  /** A parcel may be published while others are under way, as long as none of those
      has its name and offset. */
  lemma CanPublishBeside(plan: Plan, s: State, p: Parcel)
    requires p in plan && plan[p].Write? && p !in s.at
    requires forall q :: q in s.at && q in plan && plan[q].Write? && s.at[q] != Finished && s.at[q] != Refused ==>
               q.id != p.id || q.position != p.position
    ensures Enabled(plan, s, BeginPublish(p))
  {
  }

  /** The warehouse put and the push may be refused, and so may the QUEUED put; nothing
      but the call's own state changes. */
  lemma PutsCanBeRefused(plan: Plan, s: State, p: Parcel)
    requires p in plan
    ensures p in Held(s, Publisher) ==>
              Enabled(plan, s, Refuse(p)) &&
              var t := Next(plan, s, Refuse(p));
              t.warehouse == s.warehouse && t.status == s.status && t.files == s.files && t.pc == s.pc
    ensures Look(s.mark, p) == Some(Pending) ==>
              Enabled(plan, s, SkipMark(p)) &&
              var t := Next(plan, s, SkipMark(p));
              t.warehouse == s.warehouse && t.status == s.status && t.files == s.files && t.held == s.held
  {
  }

  /** The head of one place's list goes to the end of another's. */
  lemma HeadMoves(s: State, p: Parcel, e: Effect, t: State, from: Place, to: Place)
    requires Stepped(s, p, e, t) && e.move == Go(from, to) && from != to && Held(s, from) != [] && Held(s, from)[0] == p
    ensures Held(s, from) == [p] + Held(t, from) && Held(t, to) == Held(s, to) + [p]
    ensures forall pl :: pl != from && pl != to ==> Held(t, pl) == Held(s, pl)
  {
  }

  /** A pop takes the head of the queue and puts it at the end of the source's batch. */
  lemma PopsHead(plan: Plan, s: State, a: nat, q: Queue, p: Parcel)
    requires Enabled(plan, s, Pop(a, q, p))
    ensures var t := Next(plan, s, Pop(a, q, p));
            && Held(s, InQueue(q)) == [p] + Held(t, InQueue(q)) && Held(t, InBatch(a)) == Held(s, InBatch(a)) + [p]
            && forall pl :: pl != InQueue(q) && pl != InBatch(a) ==> Held(t, pl) == Held(s, pl)
  {
    var l := Pop(a, q, p);
    NextIsStepped(plan, s, l, p);
    HeadMoves(s, p, StepEffect(plan, s, l, p), Next(plan, s, l), InQueue(q), InBatch(a));
  }

  /** A source handles its batch from the front. */
  lemma StartsHead(plan: Plan, s: State, a: nat, p: Parcel)
    requires Enabled(plan, s, Start(a, p))
    ensures var t := Next(plan, s, Start(a, p));
            && Held(s, InBatch(a)) == [p] + Held(t, InBatch(a)) && Held(t, Current(a)) == [p]
            && forall pl :: pl != InBatch(a) && pl != Current(a) ==> Held(t, pl) == Held(s, pl)
  {
    var l := Start(a, p);
    NextIsStepped(plan, s, l, p);
    HeadMoves(s, p, StepEffect(plan, s, l, p), Next(plan, s, l), InBatch(a), Current(a));
  }

  // ---------- Publish, not interrupted ----------

  lemma PutEffect(plan: Plan, s: State, p: Parcel, d: Bytes)
    requires p in plan && Look(s.pc, p) == Some(Putting(d))
    ensures StepEffect(plan, s, PutPayload(p), p) == NOTHING.(cargo := Put(d), pc := Put(Pushing))
  {
  }

  lemma MarkEffect(plan: Plan, s: State, p: Parcel, q: Queue)
    requires p in plan && Look(s.at, p) == Some(InQueue(q))
    ensures StepEffect(plan, s, MarkQueued(p), p) == NOTHING.(status := Put(QUEUED), mark := Put(Early))
  {
  }

  lemma ThenPut(plan: Plan, s: State, p: Parcel, d: Bytes) returns (t: State)
    requires p in plan && p in Held(s, Publisher) && Look(s.pc, p) == Some(Putting(d))
    ensures Run(plan, s, [PutPayload(p)], t) && t.warehouse == s.warehouse[KeyOf(p) := d] && t.held == s.held
    ensures t.status == s.status && t.files == s.files && Look(t.pc, p) == Some(Pushing)
  {
    PutEffect(plan, s, p, d);
    t := StepRun(plan, s, PutPayload(p), p, NOTHING.(cargo := Put(d), pc := Put(Pushing)));
  }

  lemma ThenPush(plan: Plan, s: State, p: Parcel, server: nat) returns (t: State)
    requires p in plan && p in Held(s, Publisher) && Look(s.pc, p) == Some(Pushing)
    ensures Run(plan, s, [PushParcel(p, server)], t) && t.warehouse == s.warehouse
    ensures t.status == s.status && t.files == s.files && Look(t.mark, p) == Some(Pending)
    ensures t.held == Moved(s.held, p, Go(Publisher, InQueue(WriteQueue(server))))
    ensures Look(t.at, p) == Some(InQueue(WriteQueue(server)))
  {
    t := StepRun(plan, s, PushParcel(p, server), p,
                 NOTHING.(move := Go(Publisher, InQueue(WriteQueue(server))), pc := Remove, mark := Put(Pending)));
  }

  lemma ThenMark(plan: Plan, s: State, p: Parcel, q: Queue) returns (t: State)
    requires p in plan && Look(s.at, p) == Some(InQueue(q)) && Look(s.mark, p) == Some(Pending)
    ensures Run(plan, s, [MarkQueued(p)], t) && t.warehouse == s.warehouse && t.held == s.held
    ensures t.status == s.status[KeyOf(p) := QUEUED] && t.files == s.files
  {
    MarkEffect(plan, s, p, q);
    t := StepRun(plan, s, MarkQueued(p), p, NOTHING.(status := Put(QUEUED), mark := Put(Early)));
  }

  lemma FirstBegin(plan: Plan, s: State, p: Parcel) returns (t: State)
    requires IsWrite(plan, p) && Enabled(plan, s, BeginPublish(p))
    ensures Run(plan, s, [BeginPublish(p)], t) && t.warehouse == s.warehouse && t.status == s.status
    ensures t.files == s.files && Look(t.pc, p) == Some(Putting(plan[p].data))
    ensures t.held == s.held[Publisher := Held(s, Publisher) + [p]]
  {
    t := StepRun(plan, s, BeginPublish(p), p, NOTHING.(move := Enter(Publisher), pc := Put(Putting(plan[p].data))));
  }

  lemma QueueAfterPush(s: State, t: State, p: Parcel, q: Queue)
    requires t.held == Moved(s.held[Publisher := Held(s, Publisher) + [p]], p, Go(Publisher, InQueue(q)))
    ensures Held(t, InQueue(q)) == Held(s, InQueue(q)) + [p]
  {
  }

  lemma PutRun(plan: Plan, s: State, p: Parcel) returns (t: State)
    requires IsWrite(plan, p) && Enabled(plan, s, BeginPublish(p))
    ensures Run(plan, s, [BeginPublish(p)] + [PutPayload(p)], t)
    ensures t.warehouse == s.warehouse[KeyOf(p) := plan[p].data] && t.status == s.status && t.files == s.files
    ensures t.held == s.held[Publisher := Held(s, Publisher) + [p]] && Look(t.pc, p) == Some(Pushing)
  {
    var u := FirstBegin(plan, s, p);
    t := ThenPut(plan, u, p, plan[p].data);
    RunsCompose(plan, s, [BeginPublish(p)], u, [PutPayload(p)], t);
  }

  lemma PushRun(plan: Plan, s: State, p: Parcel, server: nat) returns (t: State)
    requires p in plan && p in Held(s, Publisher) && Look(s.pc, p) == Some(Pushing)
    ensures Run(plan, s, [PushParcel(p, server)] + [MarkQueued(p)], t)
    ensures t.warehouse == s.warehouse && t.status == s.status[KeyOf(p) := QUEUED] && t.files == s.files
    ensures t.held == Moved(s.held, p, Go(Publisher, InQueue(WriteQueue(server))))
  {
    var u := ThenPush(plan, s, p, server);
    t := ThenMark(plan, u, p, WriteQueue(server));
    RunsCompose(plan, s, [PushParcel(p, server)], u, [MarkQueued(p)], t);
  }

  /** Publish without interruption: the payload is in the warehouse under the parcel's
      key, the parcel is at the end of the server's queue, its status is QUEUED, and no
      file has changed. */
  lemma PublishRun(plan: Plan, s: State, p: Parcel, server: nat) returns (t: State)
    requires IsWrite(plan, p) && Enabled(plan, s, BeginPublish(p))
    ensures Run(plan, s, ([BeginPublish(p)] + [PutPayload(p)]) + ([PushParcel(p, server)] + [MarkQueued(p)]), t)
    ensures t.warehouse == s.warehouse[KeyOf(p) := plan[p].data] && t.status == s.status[KeyOf(p) := QUEUED]
    ensures Held(t, InQueue(WriteQueue(server))) == Held(s, InQueue(WriteQueue(server))) + [p] && t.files == s.files
  {
    var u := PutRun(plan, s, p);
    t := PushRun(plan, u, p, server);
    QueueAfterPush(s, t, p, WriteQueue(server));
    RunsCompose(plan, s, [BeginPublish(p)] + [PutPayload(p)], u, [PushParcel(p, server)] + [MarkQueued(p)], t);
  }

  // ---------- a subscription to its answer ----------

  lemma LocalTaskKeepsSub(plan: Plan, v: View, l: Label, p: Parcel, bytes: Bytes)
    requires p in plan && TaskStep(l) && Who(l) == Some(p)
    ensures EffectOf(plan, v, l, p, bytes).sub.Keep?
  {
  }

  lemma SubKept(plan: Plan, s: State, l: Label, q: Parcel, r: Parcel)
    requires Enabled(plan, s, l) && TaskStep(l) && Who(l) == Some(q)
    ensures Look(Next(plan, s, l).subs, r) == Look(s.subs, r)
  {
    NextIsStepped(plan, s, l, q);
    LocalTaskKeepsSub(plan, ViewOf(plan, s, q), l, q, ReadFile(s.files, StorageOf(q), q.position, q.dataSize));
    LookUpdated(s.subs, q, Keep, r);
  }

  /** A finished parcel has a status. */
  predicate HasStatus(v: View) {
    DonePut(v) ==> v.status.Some?
  }

  lemma LocalHasStatus(plan: Plan, v: View, l: Label, p: Parcel, bytes: Bytes)
    requires p in plan && TaskStep(l) && Who(l) == Some(p) && HasStatus(v)
    ensures HasStatus(LocalNext(plan, v, l, p, bytes))
  {
  }

  lemma OwnHasStatus(plan: Plan, s: State, l: Label, r: Parcel)
    requires ValidPlan(plan) && Steps(plan, s, l, r) && TaskStep(l) && HasStatus(ViewOf(plan, s, r))
    ensures HasStatus(ViewOf(plan, Next(plan, s, l), r))
  {
    OwnNext(plan, s, l, r);
    LocalHasStatus(plan, ViewOf(plan, s, r), l, r, ReadFile(s.files, StorageOf(r), r.position, r.dataSize));
  }

  lemma OthersHaveStatus(plan: Plan, s: State, l: Label, r: Parcel)
    requires ValidPlan(plan) && TempsApart(plan, s.at) && Proceeds(plan, s, l) && r in plan && Who(l) != Some(r)
    requires HasStatus(ViewOf(plan, s, r))
    ensures HasStatus(ViewOf(plan, Next(plan, s, l), r))
  {
    NextView(plan, s, l, r);
  }

  lemma KeepsStatus(plan: Plan, s: State, l: Label, r: Parcel)
    requires ValidPlan(plan) && TempsApart(plan, s.at) && Proceeds(plan, s, l) && r in plan && TaskStep(l)
    requires HasStatus(ViewOf(plan, s, r))
    ensures HasStatus(ViewOf(plan, Next(plan, s, l), r))
  {
    if Who(l) == Some(r) { OwnHasStatus(plan, s, l, r); } else { OthersHaveStatus(plan, s, l, r); }
  }

  lemma {:induction false} TasksAnswer(plan: Plan, base: Files, s: State, ls: seq<Label>, t: State, r: Parcel)
    requires ValidPlan(plan) && Inv(plan, base, s) && Run(plan, s, ls, t) && r in plan && HasStatus(ViewOf(plan, s, r))
    requires forall l :: l in ls ==> TaskStep(l)
    ensures HasStatus(ViewOf(plan, t, r)) && Look(t.subs, r) == Look(s.subs, r)
    decreases |ls|
  {
    if ls != [] {
      assert ls[0] in ls;
      InvProceeds(plan, base, s, ls[0]);
      KeepsStatus(plan, s, ls[0], r);
      TaskHasParcel(ls[0]);
      SubKept(plan, s, ls[0], ParcelOf(ls[0]), r);
      InvStep(plan, base, s, ls[0]);
      TasksAnswer(plan, base, Next(plan, s, ls[0]), ls[1..], t, r);
    }
  }

  /** The bytes read for `r` wait in the warehouse. */
  predicate Ripe(s: State, r: Parcel, d: Bytes) {
    Look(s.status, KeyOf(r)) == Some(DONE) && Look(s.warehouse, KeyOf(r)) == Some(d) && Look(s.fetched, r) == Some(d)
  }

  lemma RestedIsRipe(plan: Plan, t: State, r: Parcel) returns (d: Bytes)
    requires IsRead(plan, r) && LocalOk(plan, r, ViewOf(plan, t, r)) && HasStatus(ViewOf(plan, t, r))
    requires forall x :: x in t.at ==> !OnItsWay(t.at[x])
    requires Look(t.subs, r) == Some(Asked) || Look(t.subs, r) == Some(Async)
    ensures Ripe(t, r, d)
  {
    var v := ViewOf(plan, t, r);
    assert v.at == Look(t.at, r) && v.sub == Look(t.subs, r) && v.fetched == Look(t.fetched, r);
    d := v.fetched.value;
  }

  lemma TasksToRipe(plan: Plan, base: Files, s: State, r: Parcel) returns (ls: seq<Label>, t: State, d: Bytes)
    requires ValidPlan(plan) && Inv(plan, base, s) && Staffed(plan, s) && IsRead(plan, r)
    requires HasStatus(ViewOf(plan, s, r))
    requires Look(s.subs, r) == Some(Asked) || Look(s.subs, r) == Some(Async)
    ensures Run(plan, s, ls, t) && Ripe(t, r, d) && Look(t.subs, r) == Look(s.subs, r)
  {
    ls, t := TasksCanFinish(plan, base, s);
    TasksAnswer(plan, base, s, ls, t, r);
    d := RestedIsRipe(plan, t, r);
  }

  /** One more parcel in a queue that has a source, with a sink to go to. */
  lemma StillStaffed(plan: Plan, s: State, r: Parcel, e: Effect, t: State, q: Queue)
    requires Staffed(plan, s) && Custody(s.held, s.at) && r !in s.at && Stepped(s, r, e, t)
    requires e.move == Enter(InQueue(q))
    requires HasSource(s.serves, q) && HasSink(plan, s.sinks, s.routes, r)
    ensures Staffed(plan, t)
  {
    forall x | Held(t, InQueue(x)) != []
      ensures HasSource(t.serves, x)
    {
      SteppedLengths(s, r, e, t, InQueue(x));
      if x != q { assert Held(s, InQueue(x)) != []; }
    }
  }

  lemma AskStep(plan: Plan, s: State, r: Parcel, q: Queue, l: Label, sub: Sub) returns (t: State, e: Effect)
    requires IsRead(plan, r) && r !in s.at && q.ReadQueue?
    requires (l == Ask(r, q.server) && sub == Asked) || (l == AskAsync(r, q.server) && sub == Async)
    ensures Enabled(plan, s, l) && t == Next(plan, s, l) && Run(plan, s, [l], t)
    ensures Stepped(s, r, e, t) && e == NOTHING.(move := Enter(InQueue(q)), sub := Put(sub))
  {
    e := NOTHING.(move := Enter(InQueue(q)), sub := Put(sub));
    t := StepRun(plan, s, l, r, e);
  }

  lemma AskedView(plan: Plan, s: State, r: Parcel, e: Effect, t: State, q: Queue, sub: Sub)
    requires Stepped(s, r, e, t) && e == NOTHING.(move := Enter(InQueue(q)), sub := Put(sub))
    ensures Look(t.subs, r) == Some(sub) && HasStatus(ViewOf(plan, t, r))
  {
  }

  lemma AskRun(plan: Plan, base: Files, s: State, r: Parcel, server: nat, wait: bool) returns (l: Label, t: State)
    requires ValidPlan(plan) && Inv(plan, base, s) && Staffed(plan, s) && IsRead(plan, r) && r !in s.at
    requires HasSource(s.serves, ReadQueue(server)) && HasSink(plan, s.sinks, s.routes, r)
    ensures l == (if wait then Ask(r, server) else AskAsync(r, server)) && Run(plan, s, [l], t)
    ensures Inv(plan, base, t) && Staffed(plan, t)
    ensures Look(t.subs, r) == Some(if wait then Asked else Async) && HasStatus(ViewOf(plan, t, r))
  {
    var q, sub := ReadQueue(server), if wait then Asked else Async;
    l := if wait then Ask(r, server) else AskAsync(r, server);
    var e;
    t, e := AskStep(plan, s, r, q, l, sub);
    AskedView(plan, s, r, e, t, q, sub);
    StillStaffed(plan, s, r, e, t, q);
    InvStep(plan, base, s, l);
  }

  lemma SeeRun(plan: Plan, s: State, r: Parcel, d: Bytes) returns (t: State)
    requires r in plan && Look(s.subs, r) == Some(Asked) && Ripe(s, r, d)
    ensures Run(plan, s, [SeeAnswer(r)], t) && Ripe(t, r, d) && Look(t.subs, r) == Some(Seen)
  {
    t := StepRun(plan, s, SeeAnswer(r), r, NOTHING.(sub := Put(Seen)));
  }

  lemma ClearRun(plan: Plan, s: State, r: Parcel, d: Bytes) returns (t: State)
    requires r in plan && Look(s.subs, r) == Some(Seen) && Ripe(s, r, d)
    ensures Run(plan, s, [ClearAnswer(r)], t) && t.warehouse == s.warehouse && t.fetched == s.fetched
    ensures Look(t.subs, r) == Some(Cleared) && t.status == s.status - {KeyOf(r)}
  {
    t := StepRun(plan, s, ClearAnswer(r), r, NOTHING.(status := Remove, sub := Put(Cleared)));
  }

  lemma FetchRun(plan: Plan, s: State, r: Parcel, d: Bytes) returns (t: State)
    requires r in plan && Look(s.warehouse, KeyOf(r)) == Some(d)
    requires Look(s.subs, r) == Some(Cleared) || Look(s.subs, r) == Some(Async)
    ensures Run(plan, s, [Fetch(r)], t) && t.warehouse == s.warehouse && t.status == s.status && t.fetched == s.fetched
    ensures Look(t.subs, r) == Some(Fetched(d, Look(s.subs, r) == Some(Cleared)))
  {
    var e := NOTHING.(sub := Put(Fetched(d, Look(s.subs, r) == Some(Cleared))));
    t := StepRun(plan, s, Fetch(r), r, e);
  }

  lemma ReleaseRun(plan: Plan, s: State, r: Parcel, d: Bytes, waited: bool) returns (t: State)
    requires r in plan && Look(s.subs, r) == Some(Fetched(d, waited))
    ensures Run(plan, s, [Release(r)], t) && t.warehouse == s.warehouse - {KeyOf(r)} && t.status == s.status
    ensures Look(t.subs, r) == Some(Answered(d, waited)) && t.fetched == s.fetched
  {
    t := StepRun(plan, s, Release(r), r, NOTHING.(cargo := Remove, sub := Put(Answered(d, waited))));
  }

  lemma TakeRun(plan: Plan, s: State, r: Parcel, d: Bytes) returns (t: State)
    requires r in plan && Look(s.warehouse, KeyOf(r)) == Some(d)
    requires Look(s.subs, r) == Some(Cleared) || Look(s.subs, r) == Some(Async)
    ensures Run(plan, s, [Fetch(r)] + [Release(r)], t) && t.warehouse == s.warehouse - {KeyOf(r)}
    ensures t.status == s.status && t.fetched == s.fetched
    ensures Look(t.subs, r) == Some(Answered(d, Look(s.subs, r) == Some(Cleared)))
  {
    var u := FetchRun(plan, s, r, d);
    t := ReleaseRun(plan, u, r, d, Look(s.subs, r) == Some(Cleared));
    RunsCompose(plan, s, [Fetch(r)], u, [Release(r)], t);
  }

  lemma WaitRun(plan: Plan, s: State, r: Parcel, d: Bytes) returns (t: State)
    requires r in plan && Look(s.subs, r) == Some(Asked) && Ripe(s, r, d)
    ensures Run(plan, s, [SeeAnswer(r)] + [ClearAnswer(r)], t) && Look(t.subs, r) == Some(Cleared)
    ensures Look(t.warehouse, KeyOf(r)) == Some(d) && Look(t.fetched, r) == Some(d) && KeyOf(r) !in t.status
  {
    var u := SeeRun(plan, s, r, d);
    t := ClearRun(plan, u, r, d);
    RunsCompose(plan, s, [SeeAnswer(r)], u, [ClearAnswer(r)], t);
  }

  /** From every reachable state with its queue served, a fresh subscription has a run in
      which Subscribe returns: it hands out exactly the bytes that the sink read and
      leaves neither them nor a status behind. */
  lemma SubscribeCanReturn(plan: Plan, s0: State, past: seq<Label>, s: State, r: Parcel, server: nat)
    returns (ls: seq<Label>, t: State)
    requires Reaches(plan, s0, past, s) && Staffed(plan, s) && IsRead(plan, r) && r !in s.at
    requires HasSource(s.serves, ReadQueue(server)) && HasSink(plan, s.sinks, s.routes, r)
    ensures Run(plan, s, ls, t) && r in t.subs && r in t.fetched && t.subs[r] == Answered(t.fetched[r], true)
    ensures KeyOf(r) !in t.warehouse && KeyOf(r) !in t.status
  {
    Reached(plan, s0, past, s);
    var l, s1 := AskRun(plan, s0.files, s, r, server, true);
    var ms, s2, d := TasksToRipe(plan, s0.files, s1, r);
    var s3 := WaitRun(plan, s2, r, d);
    t := TakeRun(plan, s3, r, d);
    var wait, take := [SeeAnswer(r)] + [ClearAnswer(r)], [Fetch(r)] + [Release(r)];
    RunsCompose(plan, s2, wait, s3, take, t);
    RunsCompose(plan, s1, ms, s2, wait + take, t);
    RunsCompose(plan, s, [l], s1, ms + (wait + take), t);
    ls := [l] + (ms + (wait + take));
  }

  /** Likewise AsyncSubscribe followed by GetSubscribedData, which leaves the status. */
  lemma AsyncCanReturn(plan: Plan, s0: State, past: seq<Label>, s: State, r: Parcel, server: nat)
    returns (ls: seq<Label>, t: State)
    requires Reaches(plan, s0, past, s) && Staffed(plan, s) && IsRead(plan, r) && r !in s.at
    requires HasSource(s.serves, ReadQueue(server)) && HasSink(plan, s.sinks, s.routes, r)
    ensures Run(plan, s, ls, t) && r in t.subs && r in t.fetched && t.subs[r] == Answered(t.fetched[r], false)
    ensures KeyOf(r) !in t.warehouse && Look(t.status, KeyOf(r)) == Some(DONE)
  {
    Reached(plan, s0, past, s);
    var l, s1 := AskRun(plan, s0.files, s, r, server, false);
    var ms, s2, d := TasksToRipe(plan, s0.files, s1, r);
    t := TakeRun(plan, s2, r, d);
    RunsCompose(plan, s1, ms, s2, [Fetch(r)] + [Release(r)], t);
    RunsCompose(plan, s, [l], s1, ms + ([Fetch(r)] + [Release(r)]), t);
    ls := [l] + (ms + ([Fetch(r)] + [Release(r)]));
  }
}
