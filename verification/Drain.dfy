/** Several collectors drain one queue while clients push to it. */
module Drain {
  import opened Bags
  import opened Parcels

  datatype State = State(
    queue: seq<Parcel>,
    batches: map<nat, seq<Parcel>>,           // what each collector has popped in its current drain
    handed: map<nat, seq<Parcel>>,            // the batches a collector has returned, one after the other
    // history
    pushed: seq<Parcel>,
    popped: seq<(nat, Parcel)>)

  /** A collector's drain loop ends when a pop finds the queue empty. */
  datatype Label = Push(p: Parcel) | Pop(c: nat) | Return(c: nat)

  predicate Enabled(s: State, l: Label) {
    match l
    case Push(_) => true
    case Pop(_) => s.queue != []
    case Return(_) => s.queue == []
  }

  function Next(s: State, l: Label): State
    requires Enabled(s, l)
  {
    match l
    case Push(p) => s.(queue := s.queue + [p], pushed := s.pushed + [p])
    case Pop(c) =>
      s.(queue := s.queue[1..], batches := s.batches[c := ListAt(s.batches, c) + [s.queue[0]]],
         popped := s.popped + [(c, s.queue[0])])
    case Return(c) =>
      s.(batches := s.batches[c := []], handed := s.handed[c := ListAt(s.handed, c) + ListAt(s.batches, c)])
  }

  ghost predicate Run(s: State, ls: seq<Label>, t: State)
    decreases |ls|
  {
    if ls == [] then s == t else Enabled(s, ls[0]) && Run(Next(s, ls[0]), ls[1..], t)
  }

  /** The parcels popped, in order. */
  function Items(ps: seq<(nat, Parcel)>): seq<Parcel> {
    if ps == [] then [] else Items(ps[..|ps| - 1]) + [ps[|ps| - 1].1]
  }

  /** Those among them that collector `c` popped, in order. */
  function By(ps: seq<(nat, Parcel)>, c: nat): seq<Parcel> {
    if ps == [] then []
    else By(ps[..|ps| - 1], c) + (if ps[|ps| - 1].0 == c then [ps[|ps| - 1].1] else [])
  }

  ghost predicate Inv(s: State) {
    && s.pushed == Items(s.popped) + s.queue
    && forall c :: ListAt(s.handed, c) + ListAt(s.batches, c) == By(s.popped, c)
  }

  lemma ByOneMore(ps: seq<(nat, Parcel)>, x: (nat, Parcel), c: nat)
    ensures Items(ps + [x]) == Items(ps) + [x.1]
    ensures By(ps + [x], c) == By(ps, c) + (if x.0 == c then [x.1] else [])
  {
    assert (ps + [x])[..|ps|] == ps;
  }

  lemma QueueStep(s: State, l: Label)
    requires s.pushed == Items(s.popped) + s.queue && Enabled(s, l)
    ensures Next(s, l).pushed == Items(Next(s, l).popped) + Next(s, l).queue
  {
    if l.Pop? {
      ByOneMore(s.popped, (l.c, s.queue[0]), l.c);
      assert s.queue == [s.queue[0]] + s.queue[1..];
    }
  }

  lemma CollectorStep(s: State, l: Label, c: nat)
    requires ListAt(s.handed, c) + ListAt(s.batches, c) == By(s.popped, c) && Enabled(s, l)
    ensures ListAt(Next(s, l).handed, c) + ListAt(Next(s, l).batches, c) == By(Next(s, l).popped, c)
  {
    if l.Pop? {
      ByOneMore(s.popped, (l.c, s.queue[0]), c);
    }
  }

  lemma InvStep(s: State, l: Label)
    requires Inv(s) && Enabled(s, l)
    ensures Inv(Next(s, l))
  {
    QueueStep(s, l);
    forall c { CollectorStep(s, l, c); }
  }

  lemma {:induction false} InvRun(s: State, ls: seq<Label>, t: State)
    requires Inv(s) && Run(s, ls, t)
    ensures Inv(t)
    decreases |ls|
  {
    if ls != [] {
      InvStep(s, ls[0]);
      InvRun(Next(s, ls[0]), ls[1..], t);
    }
  }

  /** No collector has popped anything yet. */
  predicate Init(s: State) {
    s.pushed == s.queue && s.batches == map[] && s.handed == map[] && s.popped == []
  }

  /** No parcel is lost, duplicated or reordered: what was popped, followed by what
      is still queued, is what was pushed; and what each collector got is exactly its
      own pops, in queue order, so the collectors' batches partition the popped prefix. */
  lemma DrainIsLossless(s0: State, ls: seq<Label>, t: State)
    requires Init(s0) && Run(s0, ls, t)
    ensures t.pushed == Items(t.popped) + t.queue
    ensures forall c :: ListAt(t.handed, c) + ListAt(t.batches, c) == By(t.popped, c)
  {
    InvRun(s0, ls, t);
  }

  /** A collector that is not interrupted gets the whole queue, in order. */
  lemma {:induction false} DrainsAll(s: State, c: nat) returns (ls: seq<Label>, t: State)
    ensures Run(s, ls, t) && t.queue == [] && ListAt(t.batches, c) == []
    ensures ListAt(t.handed, c) == ListAt(s.handed, c) + ListAt(s.batches, c) + s.queue
    ensures forall d :: d != c ==> ListAt(t.handed, d) == ListAt(s.handed, d)
    ensures forall d :: d != c ==> ListAt(t.batches, d) == ListAt(s.batches, d)
    decreases |s.queue|
  {
    if s.queue == [] {
      t := Next(s, Return(c));
      ls := [Return(c)];
      assert Run(t, ls[1..], t);
    } else {
      var rest;
      rest, t := DrainsAll(Next(s, Pop(c)), c);
      ls := [Pop(c)] + rest;
      assert ls[1..] == rest && s.queue == [s.queue[0]] + s.queue[1..];
    }
  }

  // ---------- no tags: the queue and the collectors' lists ----------

  /** How often a parcel is queued or in a collector's hands. */
  ghost function Kept(s: State, p: Parcel): nat {
    multiset(s.queue)[p] + Occurs(s.batches, p) + Occurs(s.handed, p)
  }

  lemma KeptStep(s: State, l: Label, p: Parcel)
    requires multiset(s.pushed)[p] == Kept(s, p) && Enabled(s, l)
    ensures multiset(Next(s, l).pushed)[p] == Kept(Next(s, l), p)
  {
    match l
    case Push(_) =>
    case Pop(c) =>
      assert s.queue == [s.queue[0]] + s.queue[1..];
      OccursUpdate(s.batches, c, ListAt(s.batches, c) + [s.queue[0]], p);
    case Return(c) =>
      OccursUpdate(s.batches, c, [], p);
      OccursUpdate(s.handed, c, ListAt(s.handed, c) + ListAt(s.batches, c), p);
  }

  lemma {:induction false} KeptRun(s: State, ls: seq<Label>, t: State, p: Parcel)
    requires multiset(s.pushed)[p] == Kept(s, p) && Run(s, ls, t)
    ensures multiset(t.pushed)[p] == Kept(t, p)
    decreases |ls|
  {
    if ls != [] {
      KeptStep(s, ls[0], p);
      KeptRun(Next(s, ls[0]), ls[1..], t, p);
    }
  }

  /** `xs` is what is left of `ys` when some elements are dropped. */
  predicate Subsequence(xs: seq<Parcel>, ys: seq<Parcel>) {
    xs == [] ||
    (ys != [] &&
     var n, m := |ys| - 1, |xs| - 1;
     Subsequence(xs, ys[..n]) || (xs[m] == ys[n] && Subsequence(xs[..m], ys[..n])))
  }

  lemma OneMoreElement(xs: seq<Parcel>, ys: seq<Parcel>, y: Parcel)
    requires Subsequence(xs, ys)
    ensures Subsequence(xs, ys + [y]) && Subsequence(xs + [y], ys + [y])
  {
    assert (ys + [y])[..|ys|] == ys && (xs + [y])[..|xs|] == xs;
  }

  lemma {:induction false} PopsAreSubsequence(ps: seq<(nat, Parcel)>, c: nat)
    ensures Subsequence(By(ps, c), Items(ps))
    decreases |ps|
  {
    if ps != [] {
      var n := |ps| - 1;
      PopsAreSubsequence(ps[..n], c);
      OneMoreElement(By(ps[..n], c), Items(ps[..n]), ps[n].1);
      assert By(ps, c) == if ps[n].0 == c then By(ps[..n], c) + [ps[n].1] else By(ps[..n], c);
    }
  }

  lemma {:induction false} StaysSubsequence(xs: seq<Parcel>, ys: seq<Parcel>, zs: seq<Parcel>)
    requires Subsequence(xs, ys)
    ensures Subsequence(xs, ys + zs)
    decreases |zs|
  {
    if zs == [] {
      assert ys + zs == ys;
    } else {
      var n := |zs| - 1;
      StaysSubsequence(xs, ys, zs[..n]);
      OneMoreElement(xs, ys + zs[..n], zs[n]);
      assert ys + zs == ys + zs[..n] + [zs[n]];
    }
  }

  /** The collectors share out the queue: each pushed parcel is still queued or in the
      hands of one collector, as often as it was pushed, and what a collector has got
      is a subsequence of the pushes. */
  lemma CollectorsPartition(s0: State, ls: seq<Label>, t: State, c: nat)
    requires Init(s0) && Run(s0, ls, t)
    ensures forall p :: multiset(t.pushed)[p] == multiset(t.queue)[p] + Occurs(t.batches, p) + Occurs(t.handed, p)
    ensures Subsequence(ListAt(t.handed, c) + ListAt(t.batches, c), t.pushed)
  {
    forall p
      ensures multiset(t.pushed)[p] == Kept(t, p)
    {
      KeptRun(s0, ls, t, p);
    }
    DrainIsLossless(s0, ls, t);
    PopsAreSubsequence(t.popped, c);
    StaysSubsequence(By(t.popped, c), Items(t.popped), t.queue);
  }
}
