/** A step touches what is filed under its own parcel and nothing else; runs compose. */
module PipelineFrame {
  import opened Parcels
  import opened FileStore
  import opened Options
  import opened Pipeline

  /** Published parcels under way have different temporary files. */
  ghost predicate TempsApart(plan: Plan, at: map<Parcel, Place>) {
    forall p, q :: Active(plan, at, p) && Active(plan, at, q) && p != q ==> TempOf(p) != TempOf(q)
  }

  /** The step suits the parcel, and where it must be held it is. */
  predicate Fits(plan: Plan, v: View, l: Label, p: Parcel)
    requires p in plan
  {
    Guard(plan, v, l, p) && (From(l).Some? ==> v.at == From(l))
  }

  /** The parcel's own view after an effect. */
  function After(v: View, e: Effect): View {
    View(if e.move.Stay? then v.at else Some(e.move.to), Changed(v.pc, e.pc), Changed(v.cargo, e.cargo),
         Changed(v.temp, e.temp), Changed(v.status, e.status), Changed(v.mark, e.mark), Changed(v.sub, e.sub),
         Changed(v.fetched, e.fetched), v.landed || e.land.Some?)
  }

  /** Only publishing parcels touch temporary files or write to storage, never both at once. */
  predicate FileSafe(plan: Plan, p: Parcel, e: Effect) {
    && (e.land.Some? || !e.temp.Keep? ==> IsWrite(plan, p))
    && (e.land.Some? ==> e.temp.Keep?)
  }

  /** `t` is `s` after `p` has undergone `e`, but for the WaitAll calls and the
      sources' loops. */
  predicate Stepped(s: State, p: Parcel, e: Effect, t: State) {
    t == Apply(s, p, e).(waiters := t.waiters, looping := t.looping)
  }

  lemma NextIsStepped(plan: Plan, s: State, l: Label, p: Parcel)
    requires Enabled(plan, s, l) && Who(l) == Some(p)
    ensures Stepped(s, p, StepEffect(plan, s, l, p), Next(plan, s, l))
  {
  }

  lemma NextOfNone(plan: Plan, s: State, l: Label)
    requires Enabled(plan, s, l) && Who(l) == None
    ensures var t := Next(plan, s, l); t == s.(waiters := t.waiters, looping := t.looping)
  {
  }

  lemma LookUpdated<K, V>(m: map<K, V>, k: K, c: Change<V>, x: K)
    ensures Look(Update(m, k, c), x) == if x == k then Changed(Look(m, k), c) else Look(m, x)
  {
  }

  /** A parcel's temporary file after a step of `p`. */
  lemma TempAfter(plan: Plan, fs: Files, p: Parcel, e: Effect, x: Parcel)
    requires ValidPlan(plan) && p in plan && FileSafe(plan, p, e) && IsWrite(plan, x)
    ensures var fs' := if e.land.Some? then WriteParcel(fs, p, e.land.value) else Update(fs, TempOf(p), e.temp);
            Look(fs', TempOf(x)) == if TempOf(x) == TempOf(p) then Changed(Look(fs, TempOf(p)), e.temp)
                                    else Look(fs, TempOf(x))
  {
    LookUpdated(fs, TempOf(p), e.temp, TempOf(x));
  }

  lemma OwnView(plan: Plan, s: State, p: Parcel, e: Effect, t: State)
    requires ValidPlan(plan) && p in plan && FileSafe(plan, p, e) && Stepped(s, p, e, t)
    ensures ViewOf(plan, t, p) == After(ViewOf(plan, s, p), e)
  {
    LookUpdated(s.warehouse, KeyOf(p), e.cargo, KeyOf(p));
    LookUpdated(s.status, KeyOf(p), e.status, KeyOf(p));
    LookUpdated(s.pc, p, e.pc, p);
    LookUpdated(s.subs, p, e.sub, p);
    LookUpdated(s.mark, p, e.mark, p);
    LookUpdated(s.fetched, p, e.fetched, p);
    if IsWrite(plan, p) { TempAfter(plan, s.files, p, e, p); }
  }

  lemma OtherFields(plan: Plan, s: State, p: Parcel, e: Effect, t: State, x: Parcel)
    requires ValidPlan(plan) && p in plan && x in plan && x != p && Stepped(s, p, e, t)
    ensures var v := ViewOf(plan, t, x); v == ViewOf(plan, s, x).(temp := v.temp)
  {
    LookUpdated(s.warehouse, KeyOf(p), e.cargo, KeyOf(x));
    LookUpdated(s.status, KeyOf(p), e.status, KeyOf(x));
    LookUpdated(s.pc, p, e.pc, x);
    LookUpdated(s.subs, p, e.sub, x);
    LookUpdated(s.mark, p, e.mark, x);
    LookUpdated(s.fetched, p, e.fetched, x);
  }

  /** Another parcel sees nothing of the step, except perhaps in a temporary file
      that it does not use now. */
  lemma OtherView(plan: Plan, s: State, p: Parcel, e: Effect, t: State, x: Parcel)
    requires ValidPlan(plan) && p in plan && x in plan && x != p && FileSafe(plan, p, e) && Stepped(s, p, e, t)
    ensures var v := ViewOf(plan, t, x);
            && v == ViewOf(plan, s, x).(temp := v.temp)
            && (TempOf(x) != TempOf(p) || e.temp.Keep? ==> v == ViewOf(plan, s, x))
  {
    OtherFields(plan, s, p, e, t, x);
    if IsWrite(plan, x) { TempAfter(plan, s.files, p, e, x); }
  }

  predicate UnderWay(v: View) {
    v.at.Some? && v.at != Some(Finished) && v.at != Some(Refused)
  }

  /** A parcel under way keeps its view when another parcel steps. */
  lemma SteppedView(plan: Plan, s: State, p: Parcel, e: Effect, t: State, x: Parcel)
    requires ValidPlan(plan) && TempsApart(plan, s.at) && p in plan && x in plan
    requires FileSafe(plan, p, e) && Stepped(s, p, e, t)
    requires !e.temp.Keep? ==> UnderWay(ViewOf(plan, s, p))
    ensures var v := ViewOf(plan, t, x);
            if x == p then v == After(ViewOf(plan, s, x), e)
            else v == ViewOf(plan, s, x).(temp := v.temp) && (Active(plan, s.at, x) ==> v == ViewOf(plan, s, x))
  {
    if x == p {
      OwnView(plan, s, p, e, t);
    } else {
      OtherView(plan, s, p, e, t, x);
    }
  }

  // ---------- runs ----------

  lemma EmptyRun(plan: Plan, s: State, ls: seq<Label>)
    requires ls == []
    ensures Run(plan, s, ls, s)
  {
  }

  lemma SingleRun(plan: Plan, s: State, l: Label)
    requires Enabled(plan, s, l)
    ensures Run(plan, s, [l], Next(plan, s, l))
  {
    EmptyRun(plan, Next(plan, s, l), [l][1..]);
  }

  lemma {:induction false} RunsCompose(plan: Plan, s: State, ls: seq<Label>, t: State, ls': seq<Label>, u: State)
    requires Run(plan, s, ls, t) && Run(plan, t, ls', u)
    ensures Run(plan, s, ls + ls', u)
    decreases |ls|
  {
    if ls == [] {
      assert ls + ls' == ls';
    } else {
      assert (ls + ls')[1..] == ls[1..] + ls';
      RunsCompose(plan, Next(plan, s, ls[0]), ls[1..], t, ls', u);
    }
  }
}
