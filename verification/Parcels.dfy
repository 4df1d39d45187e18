/** Parcels, the names under which the shared maps and the file system know
    them, and the byte-range file store that stands for the I/O clients. */
module Parcels {
  import opened TempNames

  newtype Byte = x: int | 0 <= x < 256
  type Bytes = seq<Byte>

  datatype Parcel = Parcel(id: string, position: nat, dataSize: nat, storageIndex: nat, uniqueId: nat)

  /** Two parcels are the same map key exactly when these two fields agree. */
  datatype Key = Key(id: string, uniqueId: nat)

  datatype Status = QUEUED | IN_PROGRESS | DONE

  datatype FileKey = FileKey(device: nat, name: string)

  type Files = map<FileKey, Bytes>

  /** The temporary files share the file system of storage index 0: the least
      favourable case for the pipeline. */
  const TEMP_DEVICE: nat := 0

  function KeyOf(p: Parcel): Key {
    Key(p.id, p.uniqueId)
  }

  function StorageOf(p: Parcel): FileKey {
    FileKey(p.storageIndex, p.id)
  }

  function TempOf(p: Parcel): FileKey {
    FileKey(TEMP_DEVICE, TempName(p.id, p.position))
  }

  /** Which parcels share a map entry, and which share a file. */
  lemma KeysAndFiles(p: Parcel, q: Parcel)
    ensures KeyOf(p) == KeyOf(q) <==> p.id == q.id && p.uniqueId == q.uniqueId
    ensures StorageOf(p) == StorageOf(q) <==> p.storageIndex == q.storageIndex && p.id == q.id
  {
  }

  lemma TempOfInjective(p: Parcel, q: Parcel)
    ensures TempOf(p) == TempOf(q) <==> p.id == q.id && p.position == q.position
  {
    TempNameInjective(p.id, p.position, q.id, q.position);
  }
}

module FileStore {
  import opened Parcels

  function Max(a: int, b: int): int {
    if a < b then b else a
  }

  function Content(fs: Files, k: FileKey): Bytes {
    if k in fs then fs[k] else []
  }

  function Zeros(n: nat): (z: Bytes)
    ensures |z| == n && forall i :: 0 <= i < n ==> z[i] == 0
  {
    if n == 0 then [] else Zeros(n - 1) + [0]
  }

  /** The file with zeros behind it, at least `n` bytes. */
  function Padded(f: Bytes, n: nat): Bytes {
    if n <= |f| then f else f + Zeros(n - |f|)
  }

  /** The bytes of a file after `d` was written at `pos`; a gap reads as zero. */
  function Overwrite(f: Bytes, pos: nat, d: Bytes): Bytes {
    if d == [] then f
    else Padded(f, pos)[..pos] + d + (if pos + |d| < |f| then f[pos + |d|..] else [])
  }

  /** `n` bytes from `pos` on, in a buffer that was zero before the read. */
  function Slice(f: Bytes, pos: nat, n: nat): Bytes {
    Padded(f, pos + n)[pos..pos + n]
  }

  function ByteAt(f: Bytes, i: nat): Byte {
    if i < |f| then f[i] else 0
  }

  lemma OverwriteBytes(f: Bytes, pos: nat, d: Bytes)
    ensures |Overwrite(f, pos, d)| == if d == [] then |f| else Max(|f|, pos + |d|)
    ensures forall i: nat :: ByteAt(Overwrite(f, pos, d), i) ==
                             if pos <= i < pos + |d| then d[i - pos] else ByteAt(f, i)
  {
  }

  lemma SliceBytes(f: Bytes, pos: nat, n: nat)
    ensures |Slice(f, pos, n)| == n
    ensures forall i :: 0 <= i < n ==> Slice(f, pos, n)[i] == ByteAt(f, pos + i)
  {
  }

  function WriteFile(fs: Files, k: FileKey, pos: nat, d: Bytes): Files {
    fs[k := Overwrite(Content(fs, k), pos, d)]
  }

  function ReadFile(fs: Files, k: FileKey, pos: nat, n: nat): Bytes {
    Slice(Content(fs, k), pos, n)
  }

  /** The atomic write that a published parcel stands for. */
  function WriteParcel(fs: Files, p: Parcel, d: Bytes): Files {
    WriteFile(fs, StorageOf(p), p.position, d)
  }

  /** Payloads written one after the other, in the order of `ps`. */
  function ApplyAll(fs: Files, ps: seq<Parcel>, load: map<Parcel, Bytes>): Files {
    if ps == [] then fs
    else
      var q := ps[|ps| - 1];
      WriteParcel(ApplyAll(fs, ps[..|ps| - 1], load), q, LoadOf(load, q))
  }

  function LoadOf(load: map<Parcel, Bytes>, p: Parcel): Bytes {
    if p in load then load[p] else []
  }

  predicate Inside(r: Parcel, p: Parcel) {
    StorageOf(r) == StorageOf(p) && p.position <= r.position && r.position + r.dataSize <= p.position + p.dataSize
  }

  predicate Apart(p: Parcel, q: Parcel) {
    || StorageOf(p) != StorageOf(q)
    || p.dataSize == 0 || q.dataSize == 0
    || p.position + p.dataSize <= q.position
    || q.position + q.dataSize <= p.position
  }

  /** The parcel's range holds byte `i` of the file. */
  predicate Touches(p: Parcel, file: FileKey, i: nat) {
    file.device == p.storageIndex && file.name == p.id && p.position <= i < p.position + p.dataSize
  }

  /** Two parcels are apart exactly if no byte of any file belongs to both ranges. */
  lemma ApartMeans(p: Parcel, q: Parcel)
    ensures Apart(p, q) <==> !exists file, i :: Touches(p, file, i) && Touches(q, file, i)
  {
    if !Apart(p, q) {
      var file, i := FileKey(p.storageIndex, p.id), Max(p.position, q.position);
      assert Touches(p, file, i) && Touches(q, file, i);
    }
  }

  lemma NotBoth(p: Parcel, q: Parcel, file: FileKey, i: nat)
    requires Apart(p, q) && Touches(p, file, i)
    ensures !Touches(q, file, i)
  {
  }

  /** A nonempty range is inside another exactly if all its bytes belong to that. */
  lemma InsideMeans(r: Parcel, p: Parcel)
    requires r.dataSize > 0
    ensures Inside(r, p) <==> forall file, i :: Touches(r, file, i) ==> Touches(p, file, i)
  {
    if forall file, i :: Touches(r, file, i) ==> Touches(p, file, i) {
      var file := FileKey(r.storageIndex, r.id);
      assert Touches(r, file, r.position) && Touches(r, file, r.position + r.dataSize - 1);
    }
  }

  /** A parcel's write puts its payload at its offset of the file that its storage
      index and its name give, and changes no other byte of any file. */
  lemma WriteByte(fs: Files, p: Parcel, d: Bytes, file: FileKey, i: nat)
    requires |d| == p.dataSize
    ensures ByteAt(Content(WriteParcel(fs, p, d), file), i)
         == if Touches(p, file, i) then d[i - p.position] else ByteAt(Content(fs, file), i)
  {
    OverwriteBytes(Content(fs, StorageOf(p)), p.position, d);
  }

  predicate Sized(load: map<Parcel, Bytes>) {
    forall p :: p in load ==> |load[p]| == p.dataSize
  }

  predicate PairwiseApart(ps: seq<Parcel>) {
    forall i, j :: 0 <= i < j < |ps| ==> Apart(ps[i], ps[j])
  }

  lemma SlicesEqual(f: Bytes, g: Bytes, pos: nat, n: nat)
    requires forall i: nat :: pos <= i < pos + n ==> ByteAt(f, i) == ByteAt(g, i)
    ensures Slice(f, pos, n) == Slice(g, pos, n)
  {
    SliceBytes(f, pos, n);
    SliceBytes(g, pos, n);
  }

  /** A read inside a range that was just written gives the written bytes. */
  lemma ReadBackInside(fs: Files, p: Parcel, d: Bytes, r: Parcel)
    requires |d| == p.dataSize && Inside(r, p)
    ensures ReadFile(WriteParcel(fs, p, d), StorageOf(r), r.position, r.dataSize)
         == d[r.position - p.position..][..r.dataSize]
  {
    var f := Content(fs, StorageOf(p));
    OverwriteBytes(f, p.position, d);
    SliceBytes(Overwrite(f, p.position, d), r.position, r.dataSize);
  }

  lemma ReadBack(fs: Files, k: FileKey, d: Bytes)
    ensures ReadFile(WriteFile(fs, k, 0, d), k, 0, |d|) == d
  {
    OverwriteBytes(Content(fs, k), 0, d);
    SliceBytes(Overwrite(Content(fs, k), 0, d), 0, |d|);
  }

  lemma ReadElsewhere(fs: Files, q: Parcel, d: Bytes, r: Parcel)
    requires |d| <= q.dataSize && Apart(q, r)
    ensures ReadFile(WriteParcel(fs, q, d), StorageOf(r), r.position, r.dataSize)
         == ReadFile(fs, StorageOf(r), r.position, r.dataSize)
  {
    if StorageOf(q) == StorageOf(r) {
      var f := Content(fs, StorageOf(q));
      OverwriteBytes(f, q.position, d);
      SlicesEqual(Overwrite(f, q.position, d), f, r.position, r.dataSize);
    }
  }

  lemma OverwritesCommute(f: Bytes, a: nat, d: Bytes, b: nat, e: Bytes)
    requires d == [] || e == [] || a + |d| <= b || b + |e| <= a
    ensures Overwrite(Overwrite(f, a, d), b, e) == Overwrite(Overwrite(f, b, e), a, d)
  {
    var x, y := Overwrite(f, a, d), Overwrite(f, b, e);
    OverwriteBytes(f, a, d);
    OverwriteBytes(f, b, e);
    OverwriteBytes(x, b, e);
    OverwriteBytes(y, a, d);
    SameBytes(Overwrite(x, b, e), Overwrite(y, a, d));
  }

  lemma SameBytes(x: Bytes, y: Bytes)
    requires |x| == |y| && forall i: nat :: ByteAt(x, i) == ByteAt(y, i)
    ensures x == y
  {
    forall i | 0 <= i < |x|
      ensures x[i] == y[i]
    {
      assert ByteAt(x, i) == ByteAt(y, i);
    }
  }

  lemma WritesCommute(fs: Files, p: Parcel, d: Bytes, q: Parcel, e: Bytes)
    requires |d| <= p.dataSize && |e| <= q.dataSize && Apart(p, q)
    ensures WriteParcel(WriteParcel(fs, p, d), q, e) == WriteParcel(WriteParcel(fs, q, e), p, d)
  {
    if StorageOf(p) == StorageOf(q) {
      OverwritesCommute(Content(fs, StorageOf(p)), p.position, d, q.position, e);
    }
  }

  lemma ApplyOneMore(fs: Files, ps: seq<Parcel>, q: Parcel, load: map<Parcel, Bytes>)
    ensures ApplyAll(fs, ps + [q], load) == WriteParcel(ApplyAll(fs, ps, load), q, LoadOf(load, q))
  {
    assert (ps + [q])[..|ps|] == ps;
  }

  lemma SamePrefix(fs: Files, xs: seq<Parcel>, ys: seq<Parcel>, q: Parcel, load: map<Parcel, Bytes>)
    requires ApplyAll(fs, xs, load) == ApplyAll(fs, ys, load)
    ensures ApplyAll(fs, xs + [q], load) == ApplyAll(fs, ys + [q], load)
  {
    ApplyOneMore(fs, xs, q, load);
    ApplyOneMore(fs, ys, q, load);
  }

  lemma SwapLast(fs: Files, ps: seq<Parcel>, p: Parcel, q: Parcel, load: map<Parcel, Bytes>)
    requires Sized(load)
    requires Apart(p, q)
    ensures ApplyAll(fs, ps + [p] + [q], load) == ApplyAll(fs, ps + [q] + [p], load)
  {
    ApplyOneMore(fs, ps, p, load);
    ApplyOneMore(fs, ps + [p], q, load);
    ApplyOneMore(fs, ps, q, load);
    ApplyOneMore(fs, ps + [q], p, load);
    WritesCommute(ApplyAll(fs, ps, load), p, LoadOf(load, p), q, LoadOf(load, q));
  }

  lemma Regroup(before: seq<Parcel>, p: Parcel, head: seq<Parcel>, q: Parcel)
    ensures before + [p] + (head + [q]) == before + [p] + head + [q]
    ensures before + (head + [q]) + [p] == before + head + [q] + [p]
  {
  }

  /** A write that is apart from all later ones can be done last. */
  lemma {:induction false} MoveToEnd(fs: Files, before: seq<Parcel>, p: Parcel, after: seq<Parcel>,
                                     load: map<Parcel, Bytes>)
    requires Sized(load)
    requires forall q :: q in after ==> Apart(p, q)
    ensures ApplyAll(fs, before + [p] + after, load) == ApplyAll(fs, before + after + [p], load)
    decreases |after|
  {
    if after == [] {
      assert before + [p] + after == before + after + [p];
    } else {
      var m := |after| - 1;
      var q, head := after[m], after[..m];
      assert after == head + [q] && q in after;
      assert forall x :: x in head ==> x in after;
      MoveToEnd(fs, before, p, head, load);
      Regroup(before, p, head, q);
      SamePrefix(fs, before + [p] + head, before + head + [p], q, load);
      SwapLast(fs, before + head, p, q, load);
    }
  }

  lemma ApartWithout(before: seq<Parcel>, q: Parcel, after: seq<Parcel>)
    requires PairwiseApart(before + [q] + after)
    ensures PairwiseApart(before + after)
    ensures forall p :: p in after ==> Apart(q, p)
  {
    var xs, ys := before + [q] + after, before + after;
    assert forall j :: 0 <= j < |after| ==> xs[|before|] == q && xs[|before| + 1 + j] == after[j];
    forall i, j | 0 <= i < j < |ys|
      ensures Apart(ys[i], ys[j])
    {
      var i', j' := if i < |before| then i else i + 1, if j < |before| then j else j + 1;
      assert xs[i'] == ys[i] && xs[j'] == ys[j];
    }
  }

  lemma TakeOut(xs: seq<Parcel>, q: Parcel, init: seq<Parcel>) returns (before: seq<Parcel>, after: seq<Parcel>)
    requires multiset(xs) == multiset(init + [q])
    ensures xs == before + [q] + after && multiset(before + after) == multiset(init)
  {
    assert q in multiset(init + [q]);
    var i :| 0 <= i < |xs| && xs[i] == q;
    before, after := xs[..i], xs[i + 1..];
    assert xs == before + [q] + after;
    assert multiset(before) + multiset{q} + multiset(after) == multiset(init) + multiset{q};
    assert multiset(before + after) == multiset(before) + multiset{q} + multiset(after) - multiset{q};
    assert multiset(init) == multiset(init) + multiset{q} - multiset{q};
  }

  /** Non-overlapping writes may be done in any order. */
  lemma {:induction false} OrderIrrelevant(fs: Files, xs: seq<Parcel>, ys: seq<Parcel>, load: map<Parcel, Bytes>)
    requires Sized(load)
    requires multiset(xs) == multiset(ys) && PairwiseApart(xs)
    ensures ApplyAll(fs, xs, load) == ApplyAll(fs, ys, load)
    decreases |ys|
  {
    if ys == [] {
      assert |multiset(xs)| == 0;
    } else {
      var n := |ys| - 1;
      var q, init := ys[n], ys[..n];
      assert ys == init + [q];
      var before, after := TakeOut(xs, q, init);
      ApartWithout(before, q, after);
      OrderIrrelevant(fs, before + after, init, load);
      MoveToEnd(fs, before, q, after, load);
      ApplyOneMore(fs, before + after, q, load);
      ApplyOneMore(fs, init, q, load);
    }
  }

  /** A written range keeps its bytes under all later writes that stay clear of it. */
  lemma {:induction false} RangeSurvives(fs: Files, ps: seq<Parcel>, i: nat, r: Parcel, load: map<Parcel, Bytes>)
    requires Sized(load) && i < |ps| && ps[i] in load && Inside(r, ps[i])
    requires forall j :: i < j < |ps| ==> Apart(ps[j], r)
    ensures ReadFile(ApplyAll(fs, ps, load), StorageOf(r), r.position, r.dataSize)
         == load[ps[i]][r.position - ps[i].position..][..r.dataSize]
  {
    var n := |ps| - 1;
    var before := ApplyAll(fs, ps[..n], load);
    if i == n {
      ReadBackInside(before, ps[n], load[ps[n]], r);
    } else {
      RangeSurvives(fs, ps[..n], i, r, load);
      ReadElsewhere(before, ps[n], LoadOf(load, ps[n]), r);
    }
  }

  /** Byte `i` of the file after all writes, by the last of them. */
  lemma LastByte(fs: Files, init: seq<Parcel>, q: Parcel, load: map<Parcel, Bytes>, file: FileKey, i: nat)
    requires Sized(load) && q in load
    ensures ByteAt(Content(ApplyAll(fs, init + [q], load), file), i)
         == if Touches(q, file, i) then load[q][i - q.position]
            else ByteAt(Content(ApplyAll(fs, init, load), file), i)
  {
    ApplyOneMore(fs, init, q, load);
    WriteByte(ApplyAll(fs, init, load), q, load[q], file, i);
  }

  lemma {:induction false} UntouchedByte(fs: Files, ps: seq<Parcel>, load: map<Parcel, Bytes>, file: FileKey, i: nat)
    requires Sized(load) && forall p :: p in ps ==> p in load && !Touches(p, file, i)
    ensures ByteAt(Content(ApplyAll(fs, ps, load), file), i) == ByteAt(Content(fs, file), i)
    decreases |ps|
  {
    if ps != [] {
      var n := |ps| - 1;
      var init, q := ps[..n], ps[n];
      assert ps == init + [q] && q in ps;
      assert forall p :: p in init ==> p in ps;
      UntouchedByte(fs, init, load, file, i);
      LastByte(fs, init, q, load, file, i);
    }
  }

  /** A byte written by `p` and by no later write is the payload's. */
  lemma {:induction false} TouchedByte(fs: Files, before: seq<Parcel>, p: Parcel, after: seq<Parcel>,
                                       load: map<Parcel, Bytes>, file: FileKey, i: nat)
    requires Sized(load) && p in load && Touches(p, file, i)
    requires forall q :: q in after ==> q in load && !Touches(q, file, i)
    ensures ByteAt(Content(ApplyAll(fs, before + [p] + after, load), file), i) == load[p][i - p.position]
    decreases |after|
  {
    if after == [] {
      LastByte(fs, before, p, load, file, i);
      assert before + [p] + after == before + [p];
    } else {
      var n := |after| - 1;
      TouchedByte(fs, before, p, after[..n], load, file, i);
      LastByte(fs, before + [p] + after[..n], after[n], load, file, i);
      assert before + [p] + after == before + [p] + after[..n] + [after[n]];
    }
  }
}
