/** The life of one parcel: what its view looks like at each place, which steps
    change it, and in which order its statuses come. */
module PipelineLocal {
  import opened Parcels
  import opened FileStore
  import opened Options
  import opened Pipeline
  import opened PipelineFrame

  /** The temporary file holds the payload. */
  predicate InTemp(p: Parcel, d: Bytes, v: View) {
    v.temp.Some? && Slice(v.temp.value, 0, p.dataSize) == d
  }

  /** The status of a published parcel, by the status puts made so far. */
  predicate StatusOk(v: View) {
    v.mark.Some? &&
    match v.mark.value
    case Late => DonePut(v) && (v.status == Some(QUEUED) || v.status == None)
    case Mid =>
      RunningPut(v) && if DonePut(v) then v.status == Some(DONE) || v.status == None else v.status == Some(QUEUED)
    case m =>
      if DonePut(v) then v.status == Some(DONE) || v.status == None
      else if RunningPut(v) then v.status == Some(IN_PROGRESS)
      else if m.Early? then v.status == Some(QUEUED)
      else v.status == None
  }

  /** Where the payload `d` of a publishing parcel is: warehouse, then temporary
      file, then sink buffer, then storage. */
  predicate WriteOk(p: Parcel, d: Bytes, v: View) {
    v.sub.None? && v.fetched.None? && |d| == p.dataSize &&
    (if v.at.None? || v.at == Some(Publisher) || v.at == Some(Refused) then v.status.None? && v.mark.None?
     else StatusOk(v)) &&
    match v.at
    case None => v.pc.None? && v.cargo.None? && !v.landed
    case Some(Publisher) =>
      !v.landed && ((v.pc == Some(Putting(d)) && v.cargo.None?) || (v.pc == Some(Pushing) && v.cargo == Some(d)))
    case Some(Refused) =>
      !v.landed && ((v.pc == Some(Putting(d)) && v.cargo.None?) || (v.pc == Some(Pushing) && v.cargo == Some(d)))
    case Some(Current(_)) =>
      !v.landed && v.pc.Some? &&
      (match v.pc.value
       case Ready => v.cargo == Some(d)
       case Loaded(x) => x == d && v.cargo == Some(d)
       case Parked => InTemp(p, d, v) && v.cargo == Some(d)
       case Unstowed => InTemp(p, d, v) && v.cargo.None?
       case Running => InTemp(p, d, v) && v.cargo.None?
       case _ => false)
    case Some(InFlight) => !v.landed && v.pc.None? && InTemp(p, d, v) && v.cargo.None?
    case Some(AtSink(_)) =>
      v.cargo.None? && v.pc.Some? && v.landed == v.pc.value.Landed? &&
      (match v.pc.value
       case Took => InTemp(p, d, v)
       case Pulled(x) => x == d
       case Dropped(x) => x == d && v.temp.None?
       case Landed => v.temp.None?
       case _ => false)
    case Some(Finished) => v.landed && v.pc.None? && v.cargo.None?
    case _ => !v.landed && v.pc.None? && v.cargo == Some(d)
  }

  /** The subscriber has not taken the bytes out of the warehouse. */
  predicate Waiting(v: View) {
    v.fetched.Some? && v.cargo == v.fetched && v.sub.Some? &&
    match v.sub.value
    case Fetched(x, _) => v.fetched == Some(x)
    case Answered(_, _) => false
    case _ => true
  }

  predicate AnsweredOk(v: View) {
    v.sub.Some? && v.sub.value.Answered? && v.fetched == Some(v.sub.value.data) && v.cargo.None?
  }

  /** The Wait of the Subscribe call has erased the status. */
  predicate WaitedOwn(v: View) {
    v.sub.Some? &&
    match v.sub.value
    case Cleared => true
    case Fetched(_, waited) => waited
    case Answered(_, waited) => waited
    case _ => false
  }

  /** A subscribing parcel: the bytes the sink read reach the subscriber unchanged.
      GetSubscribedData may take them before the sink has put DONE. */
  predicate ReadOk(v: View) {
    v.mark.None? && !v.landed && (v.sub.None? <==> v.at.None?) &&
    (WaitedOwn(v) || v.sub == Some(Seen) ==> DonePut(v)) &&
    (if DonePut(v) then v.status == None || (v.status == Some(DONE) && !WaitedOwn(v))
     else v.status == if RunningPut(v) then Some(IN_PROGRESS) else None) &&
    match v.at
    case Some(Current(_)) =>
      (v.pc == Some(Ready) || v.pc == Some(Running)) && v.cargo.None? && v.fetched.None? && Unanswered(v)
    case Some(AtSink(_)) =>
      v.pc.Some? &&
      (match v.pc.value
       case Took => v.cargo.None? && v.fetched.None? && Unanswered(v)
       case Pulled(x) => v.cargo.None? && v.fetched == Some(x) && Unanswered(v)
       case Landed => Waiting(v) || AnsweredOk(v)
       case _ => false)
    case Some(Finished) => v.pc.None? && (Waiting(v) || AnsweredOk(v))
    case Some(Publisher) => false
    case Some(Refused) => false
    case _ => v.pc.None? && v.cargo.None? && v.fetched.None? && Unanswered(v)
  }

  predicate Unanswered(v: View) {
    v.sub.None? || v.sub == Some(Asked) || v.sub == Some(Async)
  }

  predicate LocalOk(plan: Plan, p: Parcel, v: View)
    requires p in plan
  {
    match plan[p]
    case Write(d) => WriteOk(p, d, v)
    case Read => ReadOk(v)
  }

  /** The step `l` on `p` is possible, and `p` is in order. */
  predicate Steps(plan: Plan, s: State, l: Label, p: Parcel) {
    && Enabled(plan, s, l) && Who(l) == Some(p)
    && Fits(plan, ViewOf(plan, s, p), l, p) && LocalOk(plan, p, ViewOf(plan, s, p))
  }

  /** The step is possible, and the parcel it works on, if any, is in order. */
  predicate Proceeds(plan: Plan, s: State, l: Label) {
    Enabled(plan, s, l) && (Who(l).Some? ==> Steps(plan, s, l, Who(l).value))
  }

  function LocalNext(plan: Plan, v: View, l: Label, p: Parcel, bytes: Bytes): View
    requires p in plan
  {
    After(v, EffectOf(plan, v, l, p, bytes))
  }

  lemma EffectsAreFileSafe(plan: Plan, v: View, l: Label, p: Parcel, bytes: Bytes)
    requires p in plan && LocalOk(plan, p, v) && Fits(plan, v, l, p)
    ensures FileSafe(plan, p, EffectOf(plan, v, l, p, bytes))
  {
  }

  /** Overwriting from offset 0 and reading back gives the payload, whatever a
      stale temporary file held. */
  lemma ParkReadsBack(f: Bytes, d: Bytes)
    ensures Slice(Overwrite(f, 0, d), 0, |d|) == d
  {
    OverwriteBytes(f, 0, d);
    SliceBytes(Overwrite(f, 0, d), 0, |d|);
  }

  /** A step that changes a temporary file belongs to a parcel under way. */
  lemma OnlyActiveTouchTemps(plan: Plan, v: View, l: Label, p: Parcel, bytes: Bytes)
    requires p in plan && LocalOk(plan, p, v) && Fits(plan, v, l, p)
    requires !EffectOf(plan, v, l, p, bytes).temp.Keep?
    ensures IsWrite(plan, p) && v.at.Some? && (v.at.value.Current? || v.at.value.AtSink?)
  {
    assert l.Park? || l.Drop?;
  }

  /** A parcel that is not under way does not care about its temporary file. */
  lemma UntouchedStaysLocal(plan: Plan, p: Parcel, v: View, v': View)
    requires p in plan && LocalOk(plan, p, v) && v' == v.(temp := v'.temp)
    requires plan[p].Write? && UnderWay(v) ==> v' == v
    ensures LocalOk(plan, p, v')
  {
  }

  predicate OfClient(l: Label) {
    l.BeginPublish? || l.PutPayload? || l.PushParcel? || l.MarkQueued? || l.Refuse? || l.SkipMark? || l.EraseStatus?
  }

  /** The steps of a source up to the parked payload, and those after it. */
  predicate Stowing(l: Label) {
    l.Pop? || l.Start? || l.Load? || l.Park?
  }

  predicate Leaving(l: Label) {
    l.Unstow? || l.MarkRunning? || l.Emit?
  }

  lemma WriteStepOfClient(plan: Plan, v: View, l: Label, p: Parcel, bytes: Bytes)
    requires IsWrite(plan, p) && WriteOk(p, plan[p].data, v) && Fits(plan, v, l, p) && OfClient(l)
    requires l.EraseStatus? ==> DonePut(v)
    ensures WriteOk(p, plan[p].data, LocalNext(plan, v, l, p, bytes))
  {
  }

  lemma WriteStepStowing(plan: Plan, v: View, l: Label, p: Parcel, bytes: Bytes)
    requires IsWrite(plan, p) && WriteOk(p, plan[p].data, v) && Fits(plan, v, l, p) && Stowing(l)
    ensures WriteOk(p, plan[p].data, LocalNext(plan, v, l, p, bytes))
  {
    if l.Park? {
      ParkReadsBack(GetOr(v.temp, []), plan[p].data);
    }
  }

  lemma WriteStepLeaving(plan: Plan, v: View, l: Label, p: Parcel, bytes: Bytes)
    requires IsWrite(plan, p) && WriteOk(p, plan[p].data, v) && Fits(plan, v, l, p) && Leaving(l)
    ensures WriteOk(p, plan[p].data, LocalNext(plan, v, l, p, bytes))
  {
  }

  lemma WriteStep(plan: Plan, v: View, l: Label, p: Parcel, bytes: Bytes)
    requires IsWrite(plan, p) && WriteOk(p, plan[p].data, v) && Fits(plan, v, l, p)
    requires l.EraseStatus? ==> DonePut(v)
    ensures WriteOk(p, plan[p].data, LocalNext(plan, v, l, p, bytes))
  {
    if OfClient(l) {
      WriteStepOfClient(plan, v, l, p, bytes);
    } else if Stowing(l) {
      WriteStepStowing(plan, v, l, p, bytes);
    } else if Leaving(l) {
      WriteStepLeaving(plan, v, l, p, bytes);
    }
  }

  lemma ReadStep(plan: Plan, v: View, l: Label, p: Parcel, bytes: Bytes)
    requires IsRead(plan, p) && ReadOk(v) && Fits(plan, v, l, p)
    requires l.EraseStatus? ==> DonePut(v)
    ensures ReadOk(LocalNext(plan, v, l, p, bytes))
  {
  }
}
