/** The direct-write job: on every server one source takes parcels off the server's
    queue and writes each straight to storage, while clients go on publishing. */
module DirectWrite {
  import opened Bags
  import opened Parcels
  import opened FileStore
  import opened RheaClient

  /** A source's next step on the first parcel of its batch. */
  datatype Pc = Draining | Ready | Loaded(data: Bytes) | Stored | Erased

  /** Queues, batches and program counters are by server. */
  datatype State = State(
    warehouse: map<Key, Bytes>,
    status: map<Key, Status>,
    files: Files,
    queue: map<nat, seq<Parcel>>,
    batch: map<nat, seq<Parcel>>,
    pc: map<nat, Pc>,
    offered: set<Parcel>,             // payload put into the warehouse
    // history
    home: map<Parcel, nat>,           // the server whose queue the parcel was pushed to
    pushed: map<nat, seq<Parcel>>,    // in the order of the queue pushes
    landed: seq<Parcel>)              // in the order of the storage writes

  datatype Label =
    | PutPayload(p: Parcel) | PushParcel(p: Parcel, a: nat) | MarkQueued(p: Parcel)
    | Pop(a: nat) | BeginLoop(a: nat) | Load(a: nat) | Store(a: nat) | Erase(a: nat) | Finish(a: nat)
    | EraseStatus(p: Parcel)

  function PcAt(s: State, a: nat): Pc {
    if a in s.pc then s.pc[a] else Draining
  }

  /** Clients use a parcel once. */
  predicate Enabled(load: map<Parcel, Bytes>, s: State, l: Label) {
    match l
    case PutPayload(p) => p in load && p !in s.offered
    case PushParcel(p, _) => p in s.offered && p !in s.home
    case MarkQueued(p) => p in s.home
    case Pop(a) => PcAt(s, a).Draining? && ListAt(s.queue, a) != []
    case BeginLoop(a) => PcAt(s, a).Draining? && ListAt(s.queue, a) == [] && ListAt(s.batch, a) != []
    case Load(a) => PcAt(s, a).Ready? && ListAt(s.batch, a) != []
    case Store(a) => PcAt(s, a).Loaded? && ListAt(s.batch, a) != []
    case Erase(a) => PcAt(s, a).Stored? && ListAt(s.batch, a) != []
    case Finish(a) => PcAt(s, a).Erased? && ListAt(s.batch, a) != []
    case EraseStatus(p) => KeyOf(p) in s.status && s.status[KeyOf(p)] == DONE
  }

  function Next(load: map<Parcel, Bytes>, s: State, l: Label): State
    requires Enabled(load, s, l)
  {
    match l
    case PutPayload(p) => s.(warehouse := s.warehouse[KeyOf(p) := load[p]], offered := s.offered + {p})
    case PushParcel(p, a) =>
      s.(queue := s.queue[a := ListAt(s.queue, a) + [p]], pushed := s.pushed[a := ListAt(s.pushed, a) + [p]],
         home := s.home[p := a])
    case MarkQueued(p) => s.(status := s.status[KeyOf(p) := QUEUED])
    case Pop(a) =>
      var q := ListAt(s.queue, a);
      s.(queue := s.queue[a := q[1..]], batch := s.batch[a := ListAt(s.batch, a) + [q[0]]])
    case BeginLoop(a) => s.(pc := s.pc[a := Ready])
    case Load(a) => s.(pc := s.pc[a := Loaded(CargoOf(s.warehouse, s.batch[a][0]))])
    case Store(a) =>
      var p := s.batch[a][0];
      s.(files := WriteParcel(s.files, p, s.pc[a].data), landed := s.landed + [p], pc := s.pc[a := Stored])
    case Erase(a) => s.(warehouse := s.warehouse - {KeyOf(s.batch[a][0])}, pc := s.pc[a := Erased])
    case Finish(a) =>
      s.(status := s.status[KeyOf(s.batch[a][0]) := DONE], batch := s.batch[a := s.batch[a][1..]],
         pc := s.pc[a := if |s.batch[a]| == 1 then Draining else Ready])
    case EraseStatus(p) => s.(status := s.status - {KeyOf(p)})
  }

  ghost predicate Run(load: map<Parcel, Bytes>, s: State, ls: seq<Label>, t: State)
    decreases |ls|
  {
    if ls == [] then s == t
    else Enabled(load, s, ls[0]) && Run(load, Next(load, s, ls[0]), ls[1..], t)
  }

  predicate Fresh(load: map<Parcel, Bytes>) {
    forall p, q :: p in load && q in load && KeyOf(p) == KeyOf(q) ==> p == q
  }

  predicate Init(s: State) {
    s.queue == map[] && s.batch == map[] && s.pc == map[] && s.offered == {} &&
    s.home == map[] && s.pushed == map[] && s.landed == []
  }

  /** Nothing is queued and no source has a batch. */
  ghost predicate AtRest(s: State) {
    forall a :: ListAt(s.queue, a) == [] && ListAt(s.batch, a) == []
  }

  // ---------- the parcels of one server ----------

  /** The parcels of server `a` in a list, in order. */
  function Of(ps: seq<Parcel>, home: map<Parcel, nat>, a: nat): seq<Parcel> {
    if ps == [] then []
    else
      var n := |ps| - 1;
      Of(ps[..n], home, a) + if ps[n] in home && home[ps[n]] == a then [ps[n]] else []
  }

  lemma OfOneMore(ps: seq<Parcel>, p: Parcel, home: map<Parcel, nat>, a: nat)
    ensures Of(ps + [p], home, a) == Of(ps, home, a) + if p in home && home[p] == a then [p] else []
  {
    assert (ps + [p])[..|ps|] == ps;
  }

  lemma {:induction false} OfConcat(xs: seq<Parcel>, ys: seq<Parcel>, home: map<Parcel, nat>, a: nat)
    ensures Of(xs + ys, home, a) == Of(xs, home, a) + Of(ys, home, a)
    decreases |ys|
  {
    if ys == [] {
      assert xs + ys == xs;
    } else {
      var n := |ys| - 1;
      OfConcat(xs, ys[..n], home, a);
      OfOneMore(xs + ys[..n], ys[n], home, a);
      assert xs + ys == xs + ys[..n] + [ys[n]];
    }
  }

  lemma {:induction false} OfNewcomer(ps: seq<Parcel>, home: map<Parcel, nat>, p: Parcel, b: nat, a: nat)
    requires p !in ps
    ensures Of(ps, home[p := b], a) == Of(ps, home, a)
    decreases |ps|
  {
    if ps != [] { OfNewcomer(ps[..|ps| - 1], home, p, b, a); }
  }

  lemma {:induction false} OfMembers(ps: seq<Parcel>, home: map<Parcel, nat>, a: nat, p: Parcel)
    ensures p in Of(ps, home, a) <==> p in ps && p in home && home[p] == a
    decreases |ps|
  {
    if ps != [] {
      var n := |ps| - 1;
      OfMembers(ps[..n], home, a, p);
      assert ps == ps[..n] + [ps[n]];
    }
  }

  lemma {:induction false} OfCounts(ps: seq<Parcel>, home: map<Parcel, nat>, p: Parcel)
    requires p in home
    ensures multiset(Of(ps, home, home[p]))[p] == multiset(ps)[p]
    decreases |ps|
  {
    if ps != [] {
      var n := |ps| - 1;
      OfCounts(ps[..n], home, p);
      assert ps == ps[..n] + [ps[n]];
    }
  }

  // ---------- the invariant ----------

  /** The parcels that source `a` has taken off its queue and not yet written. */
  function Unstored(s: State, a: nat): seq<Parcel> {
    var b := ListAt(s.batch, a);
    if b != [] && (PcAt(s, a).Stored? || PcAt(s, a).Erased?) then b[1..] else b
  }

  predicate InOrder(s: State, a: nat) {
    ListAt(s.pushed, a) == Of(s.landed, s.home, a) + Unstored(s, a) + ListAt(s.queue, a)
  }

  predicate PcOk(s: State, a: nat) {
    var b := ListAt(s.batch, a);
    && (PcAt(s, a).Stored? || PcAt(s, a).Erased? ==> b != [] && b[0] in s.landed)
    && (PcAt(s, a).Ready? || PcAt(s, a).Loaded? ==> b != [])
  }

  predicate Distinct(ps: seq<Parcel>) {
    forall i, j :: 0 <= i < j < |ps| ==> ps[i] != ps[j]
  }

  /** The parcels of a server are those pushed to its queue, each once. */
  ghost predicate HomeOk(s: State, a: nat) {
    Distinct(ListAt(s.pushed, a)) && forall p :: p in ListAt(s.pushed, a) <==> p in s.home && s.home[p] == a
  }

  ghost predicate HomesOk(s: State) {
    && (forall a :: HomeOk(s, a))
    && (forall p :: p in s.home ==> p in s.offered)
    && (forall p :: p in s.landed ==> p in s.home)
  }

  predicate LoadedOk(load: map<Parcel, Bytes>, s: State, a: nat) {
    PcAt(s, a).Loaded? ==> ListAt(s.batch, a) != [] && PcAt(s, a).data == LoadOf(load, ListAt(s.batch, a)[0])
  }

  ghost predicate CargoOk(load: map<Parcel, Bytes>, s: State) {
    && (forall p :: p in s.offered ==> p in load)
    && (forall p :: p in s.offered && p !in s.landed ==> KeyOf(p) in s.warehouse && s.warehouse[KeyOf(p)] == load[p])
  }

  ghost predicate Inv(load: map<Parcel, Bytes>, base: Files, s: State) {
    && (forall a :: InOrder(s, a) && PcOk(s, a) && LoadedOk(load, s, a)) && HomesOk(s) && CargoOk(load, s)
    && s.files == ApplyAll(base, s.landed, load)
  }

  lemma UnstoredNotLanded(s: State, a: nat)
    requires InOrder(s, a) && HomeOk(s, a) && Unstored(s, a) != []
    ensures var p := Unstored(s, a)[0]; p in s.home && s.home[p] == a && p !in s.landed
  {
    var of, ps, p := Of(s.landed, s.home, a), ListAt(s.pushed, a), Unstored(s, a)[0];
    assert ps[|of|] == p;
    forall i | 0 <= i < |of|
      ensures of[i] != p
    {
      assert ps[i] == of[i];
    }
    OfMembers(s.landed, s.home, a, p);
  }

  /** The element between two lists may be seen as the end of the one or the head of the other. */
  lemma Shift(a: seq<Parcel>, b: seq<Parcel>, x: Parcel, c: seq<Parcel>)
    ensures a + b + ([x] + c) == a + (b + [x]) + c
    ensures a + ([x] + b) + c == (a + [x]) + b + c
    ensures a + b + (c + [x]) == a + b + c + [x]
  {
  }

  lemma PushOrder(load: map<Parcel, Bytes>, s: State, p: Parcel, b: nat, a: nat)
    requires InOrder(s, a) && (forall q :: q in s.landed ==> q in s.home) && Enabled(load, s, PushParcel(p, b))
    ensures InOrder(Next(load, s, PushParcel(p, b)), a)
  {
    OfNewcomer(s.landed, s.home, p, b, a);
    Shift(Of(s.landed, s.home, a), Unstored(s, a), p, ListAt(s.queue, a));
  }

  lemma PopOrder(load: map<Parcel, Bytes>, s: State, b: nat, a: nat)
    requires InOrder(s, a) && Enabled(load, s, Pop(b))
    ensures InOrder(Next(load, s, Pop(b)), a)
  {
    var q := ListAt(s.queue, a);
    if a == b {
      assert q == [q[0]] + q[1..];
      Shift(Of(s.landed, s.home, a), Unstored(s, a), q[0], q[1..]);
    }
  }

  /** `t` is `s` after source `b` has stored `p`, as far as order is concerned. */
  predicate StoredBy(s: State, b: nat, p: Parcel, t: State) {
    && t.landed == s.landed + [p] && t.pushed == s.pushed && t.queue == s.queue && t.home == s.home
    && t.batch == s.batch && t.pc == s.pc[b := Stored]
    && PcAt(s, b).Loaded? && ListAt(s.batch, b) != [] && s.batch[b][0] == p
    && p in s.home && s.home[p] == b
  }

  lemma StoreOrder(s: State, a: nat, p: Parcel, t: State)
    requires InOrder(s, a) && StoredBy(s, a, p, t)
    ensures InOrder(t, a)
  {
    OfOneMore(s.landed, p, s.home, a);
    var rest := s.batch[a][1..];
    assert Unstored(s, a) == [p] + rest && Unstored(t, a) == rest;
    Shift(Of(s.landed, s.home, a), rest, p, ListAt(s.queue, a));
  }

  lemma StoreElsewhere(s: State, b: nat, p: Parcel, t: State, a: nat)
    requires InOrder(s, a) && a != b && StoredBy(s, b, p, t)
    ensures InOrder(t, a)
  {
    OfOneMore(s.landed, p, s.home, a);
    assert Unstored(t, a) == Unstored(s, a);
    assert Of(s.landed, s.home, a) + [] == Of(s.landed, s.home, a);
  }

  /** The other steps move no parcel from one list to the next. */
  lemma SameLists(load: map<Parcel, Bytes>, s: State, l: Label, a: nat)
    requires PcOk(s, a) && Enabled(load, s, l) && !l.PushParcel? && !l.Pop? && !l.Store?
    ensures var t := Next(load, s, l);
            && t.pushed == s.pushed && t.landed == s.landed && t.home == s.home && t.queue == s.queue
            && Unstored(t, a) == Unstored(s, a)
  {
  }

  lemma OrderStep(load: map<Parcel, Bytes>, s: State, l: Label, a: nat)
    requires (forall b :: InOrder(s, b) && PcOk(s, b)) && HomesOk(s) && Enabled(load, s, l)
    ensures InOrder(Next(load, s, l), a)
  {
    match l
    case PushParcel(p, b) => PushOrder(load, s, p, b, a);
    case Pop(b) => PopOrder(load, s, b, a);
    case Store(b) =>
      UnstoredNotLanded(s, b);
      var p, t := s.batch[b][0], Next(load, s, l);
      if a == b { StoreOrder(s, a, p, t); } else { StoreElsewhere(s, b, p, t, a); }
    case _ => SameLists(load, s, l, a);
  }

  lemma PcStep(load: map<Parcel, Bytes>, s: State, l: Label, a: nat)
    requires PcOk(s, a) && Enabled(load, s, l)
    ensures PcOk(Next(load, s, l), a)
  {
  }

  lemma HomeAfterPush(load: map<Parcel, Bytes>, s: State, p: Parcel, b: nat, a: nat)
    requires HomeOk(s, a) && Enabled(load, s, PushParcel(p, b))
    ensures HomeOk(Next(load, s, PushParcel(p, b)), a)
  {
    assert p !in ListAt(s.pushed, a);
  }

  lemma HomeStep(load: map<Parcel, Bytes>, s: State, l: Label, a: nat)
    requires HomeOk(s, a) && Enabled(load, s, l)
    ensures HomeOk(Next(load, s, l), a)
  {
    if l.PushParcel? { HomeAfterPush(load, s, l.p, l.a, a); }
  }

  lemma NewHomes(load: map<Parcel, Bytes>, s: State, l: Label)
    requires (forall p :: p in s.home ==> p in s.offered) && (forall p :: p in s.landed ==> p in s.home)
    requires Enabled(load, s, l) && (l.Store? ==> s.batch[l.a][0] in s.home)
    ensures var t := Next(load, s, l);
            (forall p :: p in t.home ==> p in t.offered) && (forall p :: p in t.landed ==> p in t.home)
  {
  }

  lemma HomesStep(load: map<Parcel, Bytes>, s: State, l: Label)
    requires (l.Store? ==> InOrder(s, l.a)) && HomesOk(s) && Enabled(load, s, l)
    ensures HomesOk(Next(load, s, l))
  {
    if l.Store? {
      assert HomeOk(s, l.a);
      UnstoredNotLanded(s, l.a);
    }
    NewHomes(load, s, l);
    forall a { HomeStep(load, s, l, a); }
  }

  lemma LoadedStep(load: map<Parcel, Bytes>, s: State, l: Label, a: nat)
    requires InOrder(s, a) && LoadedOk(load, s, a) && HomesOk(s) && CargoOk(load, s) && Enabled(load, s, l)
    ensures LoadedOk(load, Next(load, s, l), a)
  {
    if l == Load(a) {
      assert HomeOk(s, a);
      UnstoredNotLanded(s, a);
    }
  }

  lemma CargoStep(load: map<Parcel, Bytes>, s: State, l: Label)
    requires Fresh(load) && (forall b :: PcOk(s, b)) && HomesOk(s) && CargoOk(load, s) && Enabled(load, s, l)
    ensures CargoOk(load, Next(load, s, l))
  {
    if l.Erase? {
      assert PcOk(s, l.a) && s.batch[l.a][0] in load;
    }
  }

  lemma ServerStep(load: map<Parcel, Bytes>, s: State, l: Label, a: nat)
    requires (forall b :: InOrder(s, b) && PcOk(s, b) && LoadedOk(load, s, b)) && HomesOk(s) && CargoOk(load, s)
    requires Enabled(load, s, l)
    ensures var t := Next(load, s, l); InOrder(t, a) && PcOk(t, a) && LoadedOk(load, t, a)
  {
    assert InOrder(s, a) && PcOk(s, a) && LoadedOk(load, s, a);
    OrderStep(load, s, l, a);
    PcStep(load, s, l, a);
    LoadedStep(load, s, l, a);
  }

  lemma FilesStep(load: map<Parcel, Bytes>, base: Files, s: State, l: Label)
    requires (l.Store? ==> LoadedOk(load, s, l.a)) && s.files == ApplyAll(base, s.landed, load) && Enabled(load, s, l)
    ensures Next(load, s, l).files == ApplyAll(base, Next(load, s, l).landed, load)
  {
    if l.Store? { ApplyOneMore(base, s.landed, s.batch[l.a][0], load); }
  }

  lemma InvStep(load: map<Parcel, Bytes>, base: Files, s: State, l: Label)
    requires Fresh(load) && Inv(load, base, s) && Enabled(load, s, l)
    ensures Inv(load, base, Next(load, s, l))
  {
    forall a { ServerStep(load, s, l, a); }
    HomesStep(load, s, l);
    CargoStep(load, s, l);
    FilesStep(load, base, s, l);
  }

  lemma {:induction false} InvRun(load: map<Parcel, Bytes>, base: Files, s: State, ls: seq<Label>, t: State)
    requires Fresh(load) && Inv(load, base, s) && Run(load, s, ls, t)
    ensures Inv(load, base, t)
    decreases |ls|
  {
    if ls != [] {
      InvStep(load, base, s, ls[0]);
      InvRun(load, base, Next(load, s, ls[0]), ls[1..], t);
    }
  }

  lemma InvInit(load: map<Parcel, Bytes>, s: State)
    requires Init(s)
    ensures Inv(load, s.files, s)
  {
  }

  // ---------- results ----------

  lemma Prefix(s: State, a: nat)
    requires InOrder(s, a)
    ensures Of(s.landed, s.home, a) <= ListAt(s.pushed, a)
    ensures ListAt(s.queue, a) == [] && ListAt(s.batch, a) == [] ==> Of(s.landed, s.home, a) == ListAt(s.pushed, a)
  {
  }

  lemma OnceIn(ps: seq<Parcel>, p: Parcel)
    requires Distinct(ps)
    ensures multiset(ps)[p] == if p in ps then 1 else 0
  {
    if p in ps {
      var i :| 0 <= i < |ps| && ps[i] == p;
      assert ps == ps[..i] + [p] + ps[i + 1..];
      assert p !in ps[..i] && p !in ps[i + 1..];
    }
  }

  lemma PrefixCounts(xs: seq<Parcel>, ys: seq<Parcel>, p: Parcel)
    requires xs <= ys
    ensures multiset(xs)[p] <= multiset(ys)[p]
  {
    assert ys == xs + ys[|xs|..];
  }

  lemma LandedOnce(s: State, p: Parcel)
    requires (forall a :: InOrder(s, a)) && HomesOk(s)
    ensures multiset(s.landed)[p] <= 1
    ensures AtRest(s) ==> multiset(s.landed)[p] == if p in s.home then 1 else 0
  {
    if p in s.home {
      var a := s.home[p];
      assert InOrder(s, a) && HomeOk(s, a);
      LandedOnceAt(s, p, a);
    } else {
      assert p !in s.landed;
    }
  }

  lemma LandedOnceAt(s: State, p: Parcel, a: nat)
    requires InOrder(s, a) && HomeOk(s, a) && p in s.home && s.home[p] == a
    ensures multiset(s.landed)[p] <= 1
    ensures ListAt(s.queue, a) == [] && ListAt(s.batch, a) == [] ==> multiset(s.landed)[p] == 1
  {
    Prefix(s, a);
    OfCounts(s.landed, s.home, p);
    OnceIn(ListAt(s.pushed, a), p);
    PrefixCounts(Of(s.landed, s.home, a), ListAt(s.pushed, a), p);
  }

  /** At any time storage holds the writes of parcels of all servers, each parcel once,
      of each server a prefix of what was pushed to its queue, in push order, ranges
      overlapping or not; with nothing left to do, of all that was pushed. */
  lemma StorageIsPushOrder(load: map<Parcel, Bytes>, s0: State, ls: seq<Label>, s: State)
    requires Fresh(load) && Init(s0) && Run(load, s0, ls, s)
    ensures s.files == ApplyAll(s0.files, s.landed, load)
    ensures forall a :: Of(s.landed, s.home, a) <= ListAt(s.pushed, a)
    ensures AtRest(s) ==> forall a :: Of(s.landed, s.home, a) == ListAt(s.pushed, a)
    ensures forall p :: multiset(s.landed)[p] <= 1
    ensures forall p :: p in s.landed ==> p in s.home
    ensures AtRest(s) ==> forall p :: multiset(s.landed)[p] == if p in s.home then 1 else 0
  {
    InvInit(load, s0);
    InvRun(load, s0.files, s0, ls, s);
    forall a { Prefix(s, a); }
    forall p { LandedOnce(s, p); }
  }

  // ---------- orders that give the same storage ----------

  /** Parcels of different servers do not overlap. */
  predicate ServersApart(ps: seq<Parcel>, home: map<Parcel, nat>) {
    forall p, q :: p in ps && q in ps && p in home && q in home && home[p] != home[q] ==> Apart(p, q)
  }

  predicate AllHome(ps: seq<Parcel>, home: map<Parcel, nat>) {
    forall p :: p in ps ==> p in home
  }

  /** The last parcel of a server, and what follows it. */
  lemma {:induction false} LastOf(xs: seq<Parcel>, home: map<Parcel, nat>, a: nat)
    returns (before: seq<Parcel>, q: Parcel, after: seq<Parcel>)
    requires AllHome(xs, home) && Of(xs, home, a) != []
    ensures xs == before + [q] + after && home[q] == a && forall x :: x in after ==> home[x] != a
    decreases |xs|
  {
    var n := |xs| - 1;
    assert xs == xs[..n] + [xs[n]];
    if home[xs[n]] == a {
      before, q, after := xs[..n], xs[n], [];
    } else {
      var rest;
      before, q, rest := LastOf(xs[..n], home, a);
      after := rest + [xs[n]];
    }
  }

  lemma {:induction false} NoneOf(ps: seq<Parcel>, home: map<Parcel, nat>, a: nat)
    requires AllHome(ps, home) && forall x :: x in ps ==> home[x] != a
    ensures Of(ps, home, a) == []
    decreases |ps|
  {
    if ps != [] { NoneOf(ps[..|ps| - 1], home, a); }
  }

  lemma SplitOf(before: seq<Parcel>, q: Parcel, after: seq<Parcel>, home: map<Parcel, nat>, b: nat)
    requires q in home
    ensures Of(before + [q] + after, home, b)
         == Of(before, home, b) + (if home[q] == b then [q] else []) + Of(after, home, b)
    ensures Of(before + after, home, b) == Of(before, home, b) + Of(after, home, b)
  {
    OfConcat(before + [q], after, home, b);
    OfOneMore(before, q, home, b);
    OfConcat(before, after, home, b);
  }

  lemma LastEqual(xs: seq<Parcel>, x: Parcel, ys: seq<Parcel>, y: Parcel)
    requires xs + [x] == ys + [y]
    ensures xs == ys && x == y
  {
    assert (xs + [x])[..|xs|] == xs && (ys + [y])[..|ys|] == ys;
    assert (xs + [x])[|xs|] == x && (ys + [y])[|ys|] == y;
  }

  /** Two lists with the same projections still have the same after each loses its
      last parcel of server `a`, which is the same parcel. */
  lemma SameLast(before: seq<Parcel>, q: Parcel, after: seq<Parcel>, init: seq<Parcel>, r: Parcel,
                 home: map<Parcel, nat>, a: nat)
    requires q in home && r in home && home[q] == home[r] == a && AllHome(after, home)
    requires forall x :: x in after ==> home[x] != a
    requires Of(before + [q] + after, home, a) == Of(init + [r], home, a)
    ensures q == r && Of(before + after, home, a) == Of(init, home, a)
  {
    NoneOf(after, home, a);
    SplitOf(before, q, after, home, a);
    OfOneMore(init, r, home, a);
    LastEqual(Of(before, home, a), q, Of(init, home, a), r);
  }

  lemma SameOthers(before: seq<Parcel>, q: Parcel, after: seq<Parcel>, init: seq<Parcel>, r: Parcel,
                   home: map<Parcel, nat>, b: nat)
    requires q in home && r in home && home[q] != b && home[r] != b
    requires Of(before + [q] + after, home, b) == Of(init + [r], home, b)
    ensures Of(before + after, home, b) == Of(init, home, b)
  {
    SplitOf(before, q, after, home, b);
    OfOneMore(init, r, home, b);
    assert Of(before, home, b) + [] == Of(before, home, b) && Of(init, home, b) + [] == Of(init, home, b);
  }

  lemma NothingHome(ps: seq<Parcel>, home: map<Parcel, nat>)
    requires AllHome(ps, home) && forall a :: Of(ps, home, a) == []
    ensures ps == []
  {
    if ps != [] { OfMembers(ps, home, home[ps[0]], ps[0]); }
  }

  /** If parcels of different servers do not overlap, the order among those of each
      server decides what storage holds. */
  lemma {:induction false} ServerOrderDecides(fs: Files, xs: seq<Parcel>, ys: seq<Parcel>, home: map<Parcel, nat>,
                                              load: map<Parcel, Bytes>)
    requires Sized(load) && AllHome(xs, home) && AllHome(ys, home) && ServersApart(xs, home)
    requires forall a :: Of(xs, home, a) == Of(ys, home, a)
    ensures ApplyAll(fs, xs, load) == ApplyAll(fs, ys, load)
    decreases |ys|
  {
    if ys == [] {
      NothingHome(xs, home);
    } else {
      var n := |ys| - 1;
      var init, r := ys[..n], ys[n];
      assert ys == init + [r];
      var a := home[r];
      OfMembers(ys, home, a, r);
      assert Of(xs, home, a) == Of(ys, home, a);
      var before, q, after := LastOf(xs, home, a);
      SameLast(before, q, after, init, r, home, a);
      forall b | b != a
        ensures Of(before + after, home, b) == Of(init, home, b)
      {
        assert Of(xs, home, b) == Of(ys, home, b);
        SameOthers(before, q, after, init, r, home, b);
      }
      ServerOrderDecides(fs, before + after, init, home, load);
      MoveToEnd(fs, before, q, after, load);
      SamePrefix(fs, before + after, init, q, load);
    }
  }

  /** At rest, if parcels of different servers do not overlap, storage is what any
      order of the writes gives that keeps the push order of each queue; with one
      queue, the push order itself. */
  lemma AnyMergeWillDo(load: map<Parcel, Bytes>, s0: State, ls: seq<Label>, s: State, order: seq<Parcel>)
    requires Fresh(load) && Sized(load) && Init(s0) && Run(load, s0, ls, s) && AtRest(s)
    requires AllHome(order, s.home) && ServersApart(order, s.home)
    requires forall a :: Of(order, s.home, a) == ListAt(s.pushed, a)
    ensures s.files == ApplyAll(s0.files, order, load)
  {
    StorageIsPushOrder(load, s0, ls, s);
    ServerOrderDecides(s0.files, order, s.landed, s.home, load);
  }
}

/** The transition system of the direct-write job and the task method describe the
    same work: a source that is not interrupted does what its turn does. */
module DirectTasks {
  import opened Bags
  import opened Parcels
  import opened RheaJob
  import opened DirectWrite

  function SharedOf(s: State): Shared {
    Shared(s.warehouse, s.status, s.files)
  }

  lemma {:induction false} RunsCompose(load: map<Parcel, Bytes>, s: State, ls: seq<Label>, t: State,
                                       ms: seq<Label>, u: State)
    requires Run(load, s, ls, t) && Run(load, t, ms, u)
    ensures Run(load, s, ls + ms, u)
    decreases |ls|
  {
    if ls == [] {
      assert ls + ms == ms;
    } else {
      assert (ls + ms)[0] == ls[0] && (ls + ms)[1..] == ls[1..] + ms;
      RunsCompose(load, Next(load, s, ls[0]), ls[1..], t, ms, u);
    }
  }

  lemma OneStep(load: map<Parcel, Bytes>, s: State, l: Label)
    requires Enabled(load, s, l)
    ensures Run(load, s, [l], Next(load, s, l))
  {
    assert Run(load, Next(load, s, l), [l][1..], Next(load, s, l));
  }

  /** A publication that is not interrupted. */
  lemma PublishRun(load: map<Parcel, Bytes>, s: State, p: Parcel, a: nat) returns (t: State)
    requires p in load && p !in s.offered && p !in s.home
    ensures Run(load, s, [PutPayload(p)] + ([PushParcel(p, a)] + [MarkQueued(p)]), t)
    ensures SharedOf(t) == Shared(s.warehouse[KeyOf(p) := load[p]], s.status[KeyOf(p) := QUEUED], s.files)
    ensures ListAt(t.queue, a) == ListAt(s.queue, a) + [p] && t.batch == s.batch && t.pc == s.pc
  {
    var s1 := Next(load, s, PutPayload(p));
    var s2 := Next(load, s1, PushParcel(p, a));
    t := Next(load, s2, MarkQueued(p));
    OneStep(load, s, PutPayload(p));
    OneStep(load, s1, PushParcel(p, a));
    OneStep(load, s2, MarkQueued(p));
    RunsCompose(load, s1, [PushParcel(p, a)], s2, [MarkQueued(p)], t);
    RunsCompose(load, s, [PutPayload(p)], s1, [PushParcel(p, a)] + [MarkQueued(p)], t);
  }

  lemma PopRun(load: map<Parcel, Bytes>, s: State, a: nat) returns (t: State)
    requires PcAt(s, a) == Draining && ListAt(s.queue, a) != []
    ensures Run(load, s, [Pop(a)], t) && SharedOf(t) == SharedOf(s) && PcAt(t, a) == Draining
    ensures ListAt(s.queue, a) == [ListAt(s.queue, a)[0]] + ListAt(t.queue, a)
    ensures ListAt(t.batch, a) == ListAt(s.batch, a) + [ListAt(s.queue, a)[0]]
  {
    t := Next(load, s, Pop(a));
    OneStep(load, s, Pop(a));
  }

  lemma BeginRun(load: map<Parcel, Bytes>, s: State, a: nat) returns (t: State)
    requires PcAt(s, a) == Draining && ListAt(s.queue, a) == [] && ListAt(s.batch, a) != []
    ensures Run(load, s, [BeginLoop(a)], t) && t == s.(pc := t.pc) && PcAt(t, a) == Ready
  {
    t := Next(load, s, BeginLoop(a));
    OneStep(load, s, BeginLoop(a));
  }

  /** The drain: pop until the queue is empty. */
  lemma {:induction false} DrainRun(load: map<Parcel, Bytes>, s: State, a: nat) returns (ls: seq<Label>, t: State)
    requires PcAt(s, a) == Draining
    ensures Run(load, s, ls, t) && SharedOf(t) == SharedOf(s) && PcAt(t, a) == Draining
    ensures ListAt(t.queue, a) == [] && ListAt(t.batch, a) == ListAt(s.batch, a) + ListAt(s.queue, a)
    decreases |ListAt(s.queue, a)|
  {
    if ListAt(s.queue, a) == [] {
      ls, t := [], s;
    } else {
      var u := PopRun(load, s, a);
      var rest;
      rest, t := DrainRun(load, u, a);
      RunsCompose(load, s, [Pop(a)], u, rest, t);
      ls := [Pop(a)] + rest;
    }
  }

  /** One parcel: load, store, erase, finish. */
  lemma HandleRun(load: map<Parcel, Bytes>, s: State, a: nat) returns (ls: seq<Label>, t: State)
    requires PcAt(s, a) == Ready && ListAt(s.batch, a) != []
    ensures Run(load, s, ls, t) && SharedOf(t) == DirectHandles(SharedOf(s), s.batch[a][0])
    ensures ListAt(t.batch, a) == s.batch[a][1..] && t.queue == s.queue
    ensures PcAt(t, a) == if |s.batch[a]| == 1 then Draining else Ready
  {
    var s1 := Next(load, s, Load(a));
    var s2 := Next(load, s1, Store(a));
    var s3 := Next(load, s2, Erase(a));
    t := Next(load, s3, Finish(a));
    OneStep(load, s, Load(a));
    OneStep(load, s1, Store(a));
    OneStep(load, s2, Erase(a));
    OneStep(load, s3, Finish(a));
    RunsCompose(load, s2, [Erase(a)], s3, [Finish(a)], t);
    RunsCompose(load, s1, [Store(a)], s2, [Erase(a)] + [Finish(a)], t);
    ls := [Load(a)] + ([Store(a)] + ([Erase(a)] + [Finish(a)]));
    RunsCompose(load, s, [Load(a)], s1, [Store(a)] + ([Erase(a)] + [Finish(a)]), t);
  }

  lemma {:induction false} BatchFromTheFront(sh: Shared, ps: seq<Parcel>)
    requires ps != []
    ensures Batch(DirectHandles, sh, ps) == Batch(DirectHandles, DirectHandles(sh, ps[0]), ps[1..])
    decreases |ps|
  {
    var n := |ps| - 1;
    if n == 0 {
      assert Batch(DirectHandles, sh, ps[..0]) == sh;
    } else {
      BatchFromTheFront(sh, ps[..n]);
      assert ps[1..][..n - 1] == ps[..n][1..];
    }
  }

  lemma {:induction false} LoopRun(load: map<Parcel, Bytes>, s: State, a: nat) returns (ls: seq<Label>, t: State)
    requires PcAt(s, a) == if ListAt(s.batch, a) == [] then Draining else Ready
    ensures Run(load, s, ls, t) && SharedOf(t) == Batch(DirectHandles, SharedOf(s), ListAt(s.batch, a))
    ensures ListAt(t.batch, a) == [] && PcAt(t, a) == Draining && t.queue == s.queue
    decreases |ListAt(s.batch, a)|
  {
    if ListAt(s.batch, a) == [] {
      ls, t := [], s;
    } else {
      var ks, u := HandleRun(load, s, a);
      var ms;
      ms, t := LoopRun(load, u, a);
      RunsCompose(load, s, ks, u, ms, t);
      ls := ks + ms;
      BatchFromTheFront(SharedOf(s), s.batch[a]);
    }
  }

  /** The loop, from the pop that found the queue empty. */
  lemma WorkRun(load: map<Parcel, Bytes>, s: State, a: nat) returns (ls: seq<Label>, t: State)
    requires PcAt(s, a) == Draining && ListAt(s.queue, a) == []
    ensures Run(load, s, ls, t) && SharedOf(t) == Batch(DirectHandles, SharedOf(s), ListAt(s.batch, a))
    ensures ListAt(t.queue, a) == [] && ListAt(t.batch, a) == [] && PcAt(t, a) == Draining
  {
    if ListAt(s.batch, a) == [] {
      ls, t := [], s;
    } else {
      var u := BeginRun(load, s, a);
      var ms;
      ms, t := LoopRun(load, u, a);
      RunsCompose(load, s, [BeginLoop(a)], u, ms, t);
      ls := [BeginLoop(a)] + ms;
    }
  }

  /** A source that is not interrupted drains its queue and handles every parcel in
      queue order, as its turn does. */
  lemma TurnRun(load: map<Parcel, Bytes>, s: State, a: nat) returns (ls: seq<Label>, t: State)
    requires PcAt(s, a) == Draining && ListAt(s.batch, a) == []
    ensures Run(load, s, ls, t) && SharedOf(t) == Batch(DirectHandles, SharedOf(s), ListAt(s.queue, a))
    ensures ListAt(t.queue, a) == [] && ListAt(t.batch, a) == [] && PcAt(t, a) == Draining
  {
    var ks, u := DrainRun(load, s, a);
    assert ListAt(u.batch, a) == ListAt(s.queue, a);
    var ms;
    ms, t := WorkRun(load, u, a);
    RunsCompose(load, s, ks, u, ms, t);
    ls := ks + ms;
  }
}

/** The direct-write job and the two-stage job leave the same storage. */
module JobsAgree {
  import opened Parcels
  import opened FileStore
  import Pipeline
  import PipelineInv
  import opened PipelineSafety
  import DirectWrite

  lemma LandedApart(ps: seq<Parcel>)
    requires forall p :: multiset(ps)[p] <= 1
    requires forall p, q :: p in ps && q in ps && p != q ==> Apart(p, q)
    ensures PairwiseApart(ps)
  {
    forall i, j | 0 <= i < j < |ps|
      ensures Apart(ps[i], ps[j])
    {
      assert ps == ps[..i] + [ps[i]] + ps[i + 1..j] + [ps[j]] + ps[j + 1..];
      assert multiset(ps)[ps[i]] >= multiset([ps[i]])[ps[i]] + multiset([ps[j]])[ps[i]];
    }
  }

  /** Two-stage job at rest and direct-write job at rest, with any number of servers
      each, started on the same files, having finished the same parcels with pairwise
      disjoint ranges: same storage, for every interleaving of either and however the
      parcels were spread over the queues. */
  lemma SameStorage(plan: Pipeline.Plan, s0: Pipeline.State, ls: seq<Pipeline.Label>, s: Pipeline.State,
                    d0: DirectWrite.State, ms: seq<DirectWrite.Label>, d: DirectWrite.State)
    requires PipelineInv.Reaches(plan, s0, ls, s) && Quiescent(s)
    requires DirectWrite.Fresh(Pipeline.Payloads(plan)) && DirectWrite.Init(d0)
    requires DirectWrite.Run(Pipeline.Payloads(plan), d0, ms, d) && DirectWrite.AtRest(d)
    requires d0.files == PipelineInv.Strip(plan, s0.files)
    requires forall p :: p in d.home <==> FinishedWrite(plan, s, p)
    requires forall p, q :: FinishedWrite(plan, s, p) && FinishedWrite(plan, s, q) && p != q ==> Apart(p, q)
    ensures PipelineInv.Strip(plan, s.files) == d.files
  {
    DirectWrite.StorageIsPushOrder(Pipeline.Payloads(plan), d0, ms, d);
    LandedApart(d.landed);
    FinalStorage(plan, s0, ls, s, d.landed);
  }
}
