/** Safety over all runs: custody, refinement of atomic range writes, read-back. */
module PipelineSafety {
  import opened Parcels
  import opened FileStore
  import opened Options
  import opened Pipeline
  import opened PipelineFrame
  import opened PipelineLocal
  import opened PipelineInv

  // ---------- custody ----------

  /** Where the payload is to be had, by the place and program counter of the
      parcel: caller's buffer, warehouse, temporary file, sink's buffer; None once
      it is in storage. */
  function Carried(v: View, size: nat): Option<Bytes> {
    match v.at
    case Some(Publisher) => if v.pc == Some(Pushing) then v.cargo else Some(Buffer(v))
    case Some(Current(_)) => if v.pc == Some(Unstowed) || v.pc == Some(Running) then TempBytes(v, size) else v.cargo
    case Some(InFlight) => TempBytes(v, size)
    case Some(AtSink(_)) =>
      if v.pc == Some(Took) then TempBytes(v, size) else if v.pc == Some(Landed) then None else Some(Buffer(v))
    case Some(Finished) => None
    case _ => v.cargo
  }

  function TempBytes(v: View, size: nat): Option<Bytes> {
    if v.temp.Some? then Some(Slice(v.temp.value, 0, size)) else None
  }

  /** In every reachable state a parcel of the plan is held by no place, or once by
      exactly one. */
  lemma OneHolder(plan: Plan, s0: State, ls: seq<Label>, s: State, p: Parcel)
    requires Reaches(plan, s0, ls, s)
    ensures p !in s.at ==> forall pl :: p !in Held(s, pl)
    ensures p in s.at ==> forall pl :: multiset(Held(s, pl))[p] == if pl == s.at[p] then 1 else 0
  {
    Reached(plan, s0, ls, s);
    CustodyOf(s, p);
  }

  lemma CustodyOf(s: State, p: Parcel)
    requires Custody(s.held, s.at)
    ensures p !in s.at ==> forall pl :: p !in Held(s, pl)
    ensures p in s.at ==> forall pl :: multiset(Held(s, pl))[p] == if pl == s.at[p] then 1 else 0
  {
    forall pl
      ensures multiset(Held(s, pl))[p] == if Look(s.at, p) == Some(pl) then 1 else 0
    {
      assert Mult(s.held, pl, p) == if Look(s.at, p) == Some(pl) then 1 else 0;
    }
  }

  lemma CarriedIsPayload(p: Parcel, d: Bytes, v: View)
    requires WriteOk(p, d, v) && v.at.Some? && (v.at == Some(Refused) ==> v.pc == Some(Pushing))
    ensures Carried(v, p.dataSize) == if v.landed then None else Some(d)
  {
  }

  /** The payload is never lost on the way: until it lands it can be had, exactly,
      from where the parcel's stage says; after that the parcel is among the landed. */
  lemma PayloadInCustody(plan: Plan, s0: State, ls: seq<Label>, s: State, p: Parcel)
    requires Reaches(plan, s0, ls, s)
    requires IsWrite(plan, p) && p in s.at && (s.at[p] == Refused ==> Look(s.pc, p) == Some(Pushing))
    ensures Carried(ViewOf(plan, s, p), p.dataSize) == if p in s.stored then None else Some(plan[p].data)
  {
    Reached(plan, s0, ls, s);
    CarriedIsPayload(p, plan[p].data, ViewOf(plan, s, p));
  }

  // ---------- refinement of atomic range writes ----------

  /** Each step leaves storage alone, except the step that lands a payload, and
      that is one atomic write of a payload that has not landed before. */
  lemma StepRefines(plan: Plan, base: Files, s: State, l: Label)
    requires ValidPlan(plan) && Inv(plan, base, s) && Enabled(plan, s, l)
    ensures var t := Next(plan, s, l);
            if l.Land? && IsWrite(plan, l.p) then
              l.p !in s.stored && t.stored == s.stored + [l.p] &&
              Strip(plan, t.files) == WriteParcel(Strip(plan, s.files), l.p, plan[l.p].data)
            else t.stored == s.stored && Strip(plan, t.files) == Strip(plan, s.files)
  {
    InvProceeds(plan, base, s, l);
    if Who(l).Some? {
      StepChangesStorage(plan, s, l, Who(l).value);
    } else {
      NextOfNone(plan, s, l);
    }
  }

  lemma StepChangesStorage(plan: Plan, s: State, l: Label, p: Parcel)
    requires ValidPlan(plan) && Steps(plan, s, l, p)
    ensures var t := Next(plan, s, l);
            if l.Land? && IsWrite(plan, p) then
              p !in s.stored && t.stored == s.stored + [p] &&
              Strip(plan, t.files) == WriteParcel(Strip(plan, s.files), p, plan[p].data)
            else t.stored == s.stored && Strip(plan, t.files) == Strip(plan, s.files)
  {
    NextIsStepped(plan, s, l, p);
    TempTouchers(plan, s, l, p);
    StepLandsRight(plan, s, l, p);
    StorageChange(plan, s, p, StepEffect(plan, s, l, p), Next(plan, s, l));
  }

  /** All parcels that were taken on have left the pipeline. */
  predicate Quiescent(s: State) {
    forall p :: p in s.at ==> s.at[p] == Finished || s.at[p] == Refused
  }

  predicate FinishedWrite(plan: Plan, s: State, p: Parcel) {
    IsWrite(plan, p) && Look(s.at, p) == Some(Finished)
  }

  /** `ps` lists the finished publishing parcels, each once. */
  ghost predicate ListsFinished(plan: Plan, s: State, ps: seq<Parcel>) {
    forall p :: multiset(ps)[p] == if FinishedWrite(plan, s, p) then 1 else 0
  }

  lemma StoredAreFinished(plan: Plan, base: Files, s: State)
    requires Inv(plan, base, s) && Quiescent(s)
    ensures ListsFinished(plan, s, s.stored)
  {
    forall p
      ensures multiset(s.stored)[p] == if FinishedWrite(plan, s, p) then 1 else 0
    {
      assert p in plan ==> LocalOk(plan, p, ViewOf(plan, s, p));
      assert p in s.stored <==> multiset(s.stored)[p] > 0;
    }
  }

  lemma NoTempsLeft(plan: Plan, s: State, p: Parcel)
    requires TempFilesOk(plan, s) && Quiescent(s) && IsWrite(plan, p) && Look(s.at, p) == Some(Finished)
    ensures TempOf(p) !in s.files
  {
    assert LeftTemp(plan, ViewOf(plan, s, p), p);
    assert forall q :: q in s.at ==> !UserOf(plan, s, TempOf(p), q);
  }

  lemma WarehouseLeft(plan: Plan, s: State, p: Parcel)
    requires Quiescent(s) && IsWrite(plan, p) && LocalOk(plan, p, ViewOf(plan, s, p))
    ensures KeyOf(p) in s.warehouse <==> Look(s.at, p) == Some(Refused) && Look(s.pc, p) == Some(Pushing)
  {
    assert Look(s.warehouse, KeyOf(p)) == ViewOf(plan, s, p).cargo;
  }

  lemma SameListing(plan: Plan, s: State, xs: seq<Parcel>, ys: seq<Parcel>)
    requires ListsFinished(plan, s, xs) && ListsFinished(plan, s, ys)
    ensures multiset(xs) == multiset(ys)
  {
    assert forall p :: multiset(xs)[p] == multiset(ys)[p];
  }

  lemma PayloadsSized(plan: Plan)
    requires ValidPlan(plan)
    ensures Sized(Payloads(plan))
  {
  }

  /** Once everything has left the pipeline, and if the published ranges are
      pairwise disjoint, storage is the initial storage with every payload written
      at its offset, in whatever order one likes; no temporary file is left, and
      the warehouse holds only payloads whose push was refused. */
  lemma FinalStorage(plan: Plan, s0: State, ls: seq<Label>, s: State, order: seq<Parcel>)
    requires Reaches(plan, s0, ls, s) && Quiescent(s)
    requires ListsFinished(plan, s, order) && PairwiseApart(order)
    ensures Strip(plan, s.files) == ApplyAll(Strip(plan, s0.files), order, Payloads(plan))
    ensures forall p :: p in order ==> TempOf(p) !in s.files
    ensures forall p :: IsWrite(plan, p) ==>
              (KeyOf(p) in s.warehouse <==> Look(s.at, p) == Some(Refused) && Look(s.pc, p) == Some(Pushing))
  {
    Reached(plan, s0, ls, s);
    FinalState(plan, s0.files, s, order);
  }

  lemma FinalState(plan: Plan, base: Files, s: State, order: seq<Parcel>)
    requires ValidPlan(plan) && Inv(plan, base, s) && Quiescent(s)
    requires ListsFinished(plan, s, order) && PairwiseApart(order)
    ensures Strip(plan, s.files) == ApplyAll(Strip(plan, base), order, Payloads(plan))
    ensures forall p :: p in order ==> TempOf(p) !in s.files
    ensures forall p :: IsWrite(plan, p) ==>
              (KeyOf(p) in s.warehouse <==> Look(s.at, p) == Some(Refused) && Look(s.pc, p) == Some(Pushing))
  {
    StoredAreFinished(plan, base, s);
    SameListing(plan, s, order, s.stored);
    PayloadsSized(plan);
    OrderIrrelevant(Strip(plan, base), order, s.stored, Payloads(plan));
    forall p | p in order
      ensures TempOf(p) !in s.files
    {
      assert multiset(order)[p] > 0;
      NoTempsLeft(plan, s, p);
    }
    forall p | IsWrite(plan, p)
      ensures KeyOf(p) in s.warehouse <==> Look(s.at, p) == Some(Refused) && Look(s.pc, p) == Some(Pushing)
    {
      WarehouseLeft(plan, s, p);
    }
  }

  // ---------- storage byte by byte ----------

  predicate IsTemp(plan: Plan, file: FileKey) {
    exists p :: p in plan && IsWrite(plan, p) && TempOf(p) == file
  }

  lemma StripKeeps(plan: Plan, fs: Files, file: FileKey)
    ensures Look(Strip(plan, fs), file) == if IsTemp(plan, file) then None else Look(fs, file)
  {
  }

  lemma WrittenByte(plan: Plan, base: Files, s: State, file: FileKey, i: nat,
                    before: seq<Parcel>, p: Parcel, after: seq<Parcel>)
    requires ValidPlan(plan) && StorageOk(plan, base, s) && !IsTemp(plan, file)
    requires s.stored == before + [p] + after && Touches(p, file, i) && forall q :: q in after ==> !Touches(q, file, i)
    ensures IsWrite(plan, p) && 0 <= i - p.position < |plan[p].data|
    ensures ByteAt(Content(s.files, file), i) == plan[p].data[i - p.position]
  {
    StripKeeps(plan, s.files, file);
    PayloadsSized(plan);
    assert p in s.stored && forall q :: q in after ==> q in s.stored;
    TouchedByte(Strip(plan, base), before, p, after, Payloads(plan), file, i);
  }

  lemma UnwrittenByte(plan: Plan, base: Files, s: State, file: FileKey, i: nat)
    requires ValidPlan(plan) && StorageOk(plan, base, s) && !IsTemp(plan, file)
    requires forall q :: q in s.stored ==> !Touches(q, file, i)
    ensures ByteAt(Content(s.files, file), i) == ByteAt(Content(base, file), i)
  {
    StripKeeps(plan, s.files, file);
    StripKeeps(plan, base, file);
    PayloadsSized(plan);
    UntouchedByte(Strip(plan, base), s.stored, Payloads(plan), file, i);
  }

  /** In every reachable state, a byte of a file that is not temporary is the payload
      byte of the last landed parcel whose range holds it, or, if there is none, what it
      was at the start. */
  lemma LandedBytes(plan: Plan, s0: State, past: seq<Label>, s: State, file: FileKey, i: nat,
                    before: seq<Parcel>, p: Parcel, after: seq<Parcel>)
    requires Reaches(plan, s0, past, s) && !IsTemp(plan, file) && forall q :: q in after ==> !Touches(q, file, i)
    ensures s.stored == before + [p] + after && Touches(p, file, i) ==>
              IsWrite(plan, p) && 0 <= i - p.position < |plan[p].data| &&
              ByteAt(Content(s.files, file), i) == plan[p].data[i - p.position]
    ensures s.stored == after ==> ByteAt(Content(s.files, file), i) == ByteAt(Content(s0.files, file), i)
  {
    Reached(plan, s0, past, s);
    if s.stored == after { UnwrittenByte(plan, s0.files, s, file, i); }
    if s.stored == before + [p] + after && Touches(p, file, i) {
      WrittenByte(plan, s0.files, s, file, i, before, p, after);
    }
  }

  lemma SplitAt(ps: seq<Parcel>, p: Parcel) returns (before: seq<Parcel>, after: seq<Parcel>)
    requires p in ps && forall q :: multiset(ps)[q] <= 1
    ensures ps == before + [p] + after && p !in after
  {
    var k :| 0 <= k < |ps| && ps[k] == p;
    before, after := ps[..k], ps[k + 1..];
    assert ps == before + [p] + after;
    assert multiset(ps)[p] == multiset(before)[p] + 1 + multiset(after)[p];
  }

  ghost predicate FinishedApart(plan: Plan, s: State) {
    forall x, y :: FinishedWrite(plan, s, x) && FinishedWrite(plan, s, y) && x != y ==> Apart(x, y)
  }

  lemma InStored(plan: Plan, s: State, p: Parcel)
    requires ListsFinished(plan, s, s.stored)
    ensures p in s.stored <==> FinishedWrite(plan, s, p)
  {
    assert p in s.stored <==> multiset(s.stored)[p] > 0;
  }

  lemma FinishedByte(plan: Plan, base: Files, s: State, file: FileKey, i: nat, p: Parcel)
    requires ValidPlan(plan) && StorageOk(plan, base, s) && ListsFinished(plan, s, s.stored) && FinishedApart(plan, s)
    requires !IsTemp(plan, file) && FinishedWrite(plan, s, p) && Touches(p, file, i)
    ensures 0 <= i - p.position < |plan[p].data|
    ensures ByteAt(Content(s.files, file), i) == plan[p].data[i - p.position]
  {
    InStored(plan, s, p);
    var before, after := SplitAt(s.stored, p);
    forall q | q in after
      ensures !Touches(q, file, i)
    {
      assert q in s.stored;
      InStored(plan, s, q);
      NotBoth(p, q, file, i);
    }
    WrittenByte(plan, base, s, file, i, before, p, after);
  }

  /** At rest, with disjoint ranges: each payload byte of a finished parcel is at its
      offset of the file that the parcel's storage index and name give. */
  lemma FinalBytes(plan: Plan, s0: State, past: seq<Label>, s: State, p: Parcel, k: nat)
    requires Reaches(plan, s0, past, s) && Quiescent(s) && FinishedApart(plan, s)
    requires FinishedWrite(plan, s, p) && k < |plan[p].data|
    ensures ByteAt(Content(s.files, FileKey(p.storageIndex, p.id)), p.position + k) == plan[p].data[k]
  {
    Reached(plan, s0, past, s);
    StoredAreFinished(plan, s0.files, s);
    PayloadByte(plan, s0.files, s, p, k);
  }

  lemma PayloadByte(plan: Plan, base: Files, s: State, p: Parcel, k: nat)
    requires ValidPlan(plan) && StorageOk(plan, base, s) && ListsFinished(plan, s, s.stored) && FinishedApart(plan, s)
    requires FinishedWrite(plan, s, p) && k < |plan[p].data|
    ensures ByteAt(Content(s.files, FileKey(p.storageIndex, p.id)), p.position + k) == plan[p].data[k]
  {
    NotATemp(plan, p);
    var file := FileKey(p.storageIndex, p.id);
    assert Touches(p, file, p.position + k);
    FinishedByte(plan, base, s, file, p.position + k, p);
  }

  lemma NotATemp(plan: Plan, p: Parcel)
    requires ValidPlan(plan) && p in plan
    ensures !IsTemp(plan, FileKey(p.storageIndex, p.id))
  {
    assert StorageOf(p) == FileKey(p.storageIndex, p.id);
  }

  /** And every byte that belongs to no finished parcel is as it was at the start, in
      every file that is not temporary. */
  lemma OtherBytesStay(plan: Plan, s0: State, past: seq<Label>, s: State, file: FileKey, i: nat)
    requires Reaches(plan, s0, past, s) && Quiescent(s) && !IsTemp(plan, file)
    requires forall p :: FinishedWrite(plan, s, p) && file == FileKey(p.storageIndex, p.id) ==>
               !(p.position <= i < p.position + p.dataSize)
    ensures ByteAt(Content(s.files, file), i) == ByteAt(Content(s0.files, file), i)
  {
    Reached(plan, s0, past, s);
    StoredAreFinished(plan, s0.files, s);
    forall q | q in s.stored
      ensures !Touches(q, file, i)
    {
      InStored(plan, s, q);
    }
    UnwrittenByte(plan, s0.files, s, file, i);
  }

  // ---------- read-back ----------

  /** The bytes that a write puts into the range of `r`. */
  function CoveringBytes(plan: Plan, w: Parcel, r: Parcel): Bytes
    requires IsWrite(plan, w) && |plan[w].data| == w.dataSize && Inside(r, w)
  {
    plan[w].data[r.position - w.position..][..r.dataSize]
  }

  /** Byte by byte: each file position gets from the write what the write has there. */
  lemma CoveringByte(plan: Plan, w: Parcel, r: Parcel, k: nat)
    requires IsWrite(plan, w) && |plan[w].data| == w.dataSize && Inside(r, w) && k < r.dataSize
    ensures |CoveringBytes(plan, w, r)| == r.dataSize && 0 <= r.position + k - w.position < |plan[w].data|
    ensures CoveringBytes(plan, w, r)[k] == plan[w].data[r.position + k - w.position]
  {
  }

  /** All writes after position `i` of the landing order are apart from `r`. */
  predicate ClearAfter(stored: seq<Parcel>, i: nat, r: Parcel) {
    forall j :: i < j < |stored| ==> Apart(stored[j], r)
  }

  lemma StripContent(plan: Plan, fs: Files, r: Parcel)
    requires ValidPlan(plan) && r in plan
    ensures Content(fs, StorageOf(r)) == Content(Strip(plan, fs), StorageOf(r))
  {
    NotATemp(plan, r);
    StripKeeps(plan, fs, StorageOf(r));
  }

  /** What a read finds in the range of `r`, if the last write to overlap it covers it. */
  lemma CoveredBytes(plan: Plan, base: Files, s: State, i: nat, r: Parcel)
    requires ValidPlan(plan) && StorageOk(plan, base, s) && r in plan
    requires i < |s.stored| && Inside(r, s.stored[i]) && ClearAfter(s.stored, i, r)
    ensures IsWrite(plan, s.stored[i]) && |plan[s.stored[i]].data| == s.stored[i].dataSize
    ensures ReadFile(s.files, StorageOf(r), r.position, r.dataSize) == CoveringBytes(plan, s.stored[i], r)
  {
    PayloadsSized(plan);
    assert s.stored[i] in s.stored;
    StripContent(plan, s.files, r);
    RangeSurvives(Strip(plan, base), s.stored, i, r, Payloads(plan));
  }

  lemma FetchOnlyByPull(plan: Plan, v: View, l: Label, p: Parcel, bytes: Bytes)
    requires p in plan && LocalOk(plan, p, v) && Fits(plan, v, l, p)
    ensures var e := EffectOf(plan, v, l, p, bytes);
            e.fetched == if l.Pull? && plan[p].Read? then Put(bytes) else Keep
    ensures l.Pull? && plan[p].Read? ==> v.fetched == None
  {
  }

  lemma FetchedBy(plan: Plan, s: State, l: Label, p: Parcel, r: Parcel)
    requires Steps(plan, s, l, p) && IsRead(plan, r)
    ensures Look(Next(plan, s, l).fetched, r)
         == if l.Pull? && p == r then Some(ReadFile(s.files, StorageOf(r), r.position, r.dataSize))
            else Look(s.fetched, r)
    ensures l.Pull? && p == r ==> r !in s.fetched
  {
    var bytes := ReadFile(s.files, StorageOf(p), p.position, p.dataSize);
    NextIsStepped(plan, s, l, p);
    LookUpdated(s.fetched, p, StepEffect(plan, s, l, p).fetched, r);
    FetchOnlyByPull(plan, ViewOf(plan, s, p), l, p, bytes);
  }

  /** Only its own Pull step reads for `r`, and only once. */
  lemma FetchedStep(plan: Plan, s: State, l: Label, r: Parcel)
    requires Proceeds(plan, s, l) && IsRead(plan, r)
    ensures Look(Next(plan, s, l).fetched, r)
         == if l == Pull(r) then Some(ReadFile(s.files, StorageOf(r), r.position, r.dataSize)) else Look(s.fetched, r)
    ensures l == Pull(r) ==> r !in s.fetched
  {
    if Who(l).Some? { FetchedBy(plan, s, l, Who(l).value, r); } else { NextOfNone(plan, s, l); }
  }

  lemma {:induction false} FetchedStays(plan: Plan, base: Files, s: State, ls: seq<Label>, t: State, r: Parcel)
    requires ValidPlan(plan) && Inv(plan, base, s) && Run(plan, s, ls, t) && IsRead(plan, r) && r in s.fetched
    ensures Look(t.fetched, r) == Look(s.fetched, r)
    decreases |ls|
  {
    if ls != [] {
      InvProceeds(plan, base, s, ls[0]);
      FetchedStep(plan, s, ls[0], r);
      InvStep(plan, base, s, ls[0]);
      FetchedStays(plan, base, Next(plan, s, ls[0]), ls[1..], t, r);
    }
  }

  /** The landing order at the moment when a sink reads for `r`, or at the end of the run. */
  function LandedAtPull(plan: Plan, s: State, ls: seq<Label>, r: Parcel): seq<Parcel>
    decreases |ls|
  {
    if ls == [] || ls[0] == Pull(r) || !Enabled(plan, s, ls[0]) then s.stored
    else LandedAtPull(plan, Next(plan, s, ls[0]), ls[1..], r)
  }

  /** It is the landing order of the state in which the Pull step of `r` is taken. */
  lemma {:induction false} LandedAtItsPull(plan: Plan, s: State, ls: seq<Label>, u: State, rest: seq<Label>, r: Parcel)
    requires Run(plan, s, ls, u) && Pull(r) !in ls && (rest == [] || rest[0] == Pull(r))
    ensures LandedAtPull(plan, s, ls + rest, r) == u.stored
    decreases |ls|
  {
    if ls == [] {
      assert ls + rest == rest;
    } else {
      assert (ls + rest)[1..] == ls[1..] + rest;
      LandedAtItsPull(plan, Next(plan, s, ls[0]), ls[1..], u, rest, r);
    }
  }

  lemma StoredGrows(plan: Plan, base: Files, s: State, l: Label)
    requires ValidPlan(plan) && Inv(plan, base, s) && Enabled(plan, s, l)
    ensures s.stored <= Next(plan, s, l).stored
  {
    StepRefines(plan, base, s, l);
  }

  lemma PrefixesCompose(a: seq<Parcel>, b: seq<Parcel>, c: seq<Parcel>)
    requires a <= b <= c
    ensures a <= c
  {
  }

  lemma {:induction false} LandedGrows(plan: Plan, base: Files, s: State, ls: seq<Label>, t: State, r: Parcel)
    requires ValidPlan(plan) && Inv(plan, base, s) && Run(plan, s, ls, t)
    ensures s.stored <= LandedAtPull(plan, s, ls, r)
    decreases |ls|
  {
    if ls != [] && ls[0] != Pull(r) {
      var u := Next(plan, s, ls[0]);
      StoredGrows(plan, base, s, ls[0]);
      InvStep(plan, base, s, ls[0]);
      LandedGrows(plan, base, u, ls[1..], t, r);
      PrefixesCompose(s.stored, u.stored, LandedAtPull(plan, u, ls[1..], r));
    }
  }

  lemma PullReads(plan: Plan, base: Files, s: State, i: nat, r: Parcel)
    requires ValidPlan(plan) && Inv(plan, base, s) && Enabled(plan, s, Pull(r)) && IsRead(plan, r)
    requires i < |s.stored| && Inside(r, s.stored[i]) && ClearAfter(s.stored, i, r)
    ensures IsWrite(plan, s.stored[i]) && |plan[s.stored[i]].data| == s.stored[i].dataSize
    ensures Look(Next(plan, s, Pull(r)).fetched, r) == Some(CoveringBytes(plan, s.stored[i], r))
  {
    InvProceeds(plan, base, s, Pull(r));
    FetchedStep(plan, s, Pull(r), r);
    CoveredBytes(plan, base, s, i, r);
  }

  lemma {:induction false} RunReads(plan: Plan, base: Files, s: State, ls: seq<Label>, t: State, i: nat, r: Parcel)
    requires ValidPlan(plan) && Inv(plan, base, s) && Run(plan, s, ls, t) && IsRead(plan, r)
    requires r !in s.fetched && r in t.fetched
    requires i < |s.stored| && Inside(r, s.stored[i]) && ClearAfter(LandedAtPull(plan, s, ls, r), i, r)
    ensures IsWrite(plan, s.stored[i]) && |plan[s.stored[i]].data| == s.stored[i].dataSize
    ensures t.fetched[r] == CoveringBytes(plan, s.stored[i], r)
    decreases |ls|
  {
    if ls != [] {
      var u := Next(plan, s, ls[0]);
      InvStep(plan, base, s, ls[0]);
      if ls[0] == Pull(r) {
        PullReads(plan, base, s, i, r);
        FetchedStays(plan, base, u, ls[1..], t, r);
      } else {
        InvProceeds(plan, base, s, ls[0]);
        FetchedStep(plan, s, ls[0], r);
        StoredGrows(plan, base, s, ls[0]);
        RunReads(plan, base, u, ls[1..], t, i, r);
      }
    }
  }

  lemma WaitedIsFinished(plan: Plan, s: State, id: nat, p: Parcel)
    requires AllLocal(plan, s) && WaitersOk(plan, s) && Enabled(plan, s, EraseStatus(id, p))
    ensures p in plan && Look(s.at, p) == Some(Finished)
    ensures if IsWrite(plan, p) then p in s.stored else p in s.fetched
  {
    assert WaiterOk(plan, s.at, s.waiters[id]);
    assert LocalOk(plan, p, ViewOf(plan, s, p));
  }

  lemma AnswerIsFetched(plan: Plan, t: State, r: Parcel)
    requires AllLocal(plan, t) && IsRead(plan, r) && r in t.subs && t.subs[r].Answered?
    ensures Look(t.fetched, r) == Some(t.subs[r].data)
  {
    assert LocalOk(plan, r, ViewOf(plan, t, r));
    assert ViewOf(plan, t, r).sub == Some(t.subs[r]);
  }

  lemma UnaskedUnfetched(plan: Plan, s: State, r: Parcel)
    requires AllLocal(plan, s) && IsRead(plan, r) && r !in s.at
    ensures r !in s.fetched
  {
    assert LocalOk(plan, r, ViewOf(plan, s, r));
    assert Look(s.fetched, r) == ViewOf(plan, s, r).fetched;
  }

  /** `q` reached storage after `w` did. */
  predicate LandsAfter(stored: seq<Parcel>, w: Parcel, q: Parcel) {
    exists i, j :: 0 <= i < j < |stored| && stored[i] == w && stored[j] == q
  }

  /** Publish, Wait, Subscribe: when a Wait on `w` returns and `r`, not yet asked for,
      lies in the range of `w`, then whatever the subscriber gets for `r` in any
      continuation is the published bytes, provided no write that lands between `w`
      and the moment of the read overlaps `r`.  Writes that land later are free. */
  lemma PublishThenSubscribe(plan: Plan, s0: State, past: seq<Label>, s: State, id: nat, w: Parcel,
                             ls: seq<Label>, t: State, r: Parcel)
    requires Reaches(plan, s0, past, s)
    requires Run(plan, s, ls, t) && ls != [] && ls[0] == EraseStatus(id, w) && IsWrite(plan, w)
    requires IsRead(plan, r) && r !in s.at && Inside(r, w)
    requires forall q :: LandsAfter(LandedAtPull(plan, s, ls, r), w, q) ==> Apart(q, r)
    requires r in t.subs && t.subs[r].Answered?
    ensures |plan[w].data| == w.dataSize && t.subs[r].data == CoveringBytes(plan, w, r)
  {
    Reached(plan, s0, past, s);
    InvRun(plan, s0.files, s, ls, t);
    WaitedIsFinished(plan, s, id, w);
    UnaskedUnfetched(plan, s, r);
    AnswerIsFetched(plan, t, r);
    RoundTrip(plan, s0.files, s, w, ls, t, r);
  }

  lemma RoundTrip(plan: Plan, base: Files, s: State, w: Parcel, ls: seq<Label>, t: State, r: Parcel)
    requires ValidPlan(plan) && Inv(plan, base, s) && Run(plan, s, ls, t)
    requires w in s.stored && IsWrite(plan, w) && IsRead(plan, r) && r !in s.fetched && r in t.fetched && Inside(r, w)
    requires forall q :: LandsAfter(LandedAtPull(plan, s, ls, r), w, q) ==> Apart(q, r)
    ensures |plan[w].data| == w.dataSize && t.fetched[r] == CoveringBytes(plan, w, r)
  {
    LandedGrows(plan, base, s, ls, t, r);
    var i := ClearFrom(s.stored, LandedAtPull(plan, s, ls, r), w, r);
    RunReads(plan, base, s, ls, t, i, r);
  }

  lemma ClearFrom(before: seq<Parcel>, stored: seq<Parcel>, w: Parcel, r: Parcel) returns (i: nat)
    requires w in before && before <= stored && forall q :: LandsAfter(stored, w, q) ==> Apart(q, r)
    ensures i < |before| && before[i] == w && ClearAfter(stored, i, r)
  {
    i :| 0 <= i < |before| && before[i] == w;
    forall j | i < j < |stored|
      ensures Apart(stored[j], r)
    {
      assert LandsAfter(stored, w, stored[j]);
    }
  }
}
