/** The source and sink tasks of the write, read and direct-write jobs. */
module RheaJob {
  import opened Bags
  import opened Parcels
  import opened FileStore
  import opened Options
  import opened RheaClient

  /** The shared state that a task works on. */
  datatype Shared = Shared(warehouse: map<Key, Bytes>, status: map<Key, Status>, files: Files)

  /** RheaWriteQueueSourceTask on one parcel. */
  function SourceHandles(sh: Shared, p: Parcel): Shared {
    Shared(sh.warehouse - {KeyOf(p)}, sh.status[KeyOf(p) := IN_PROGRESS],
           WriteFile(sh.files, TempOf(p), 0, CargoOf(sh.warehouse, p)))
  }

  /** RheaWriteSinkTask on one parcel. */
  function SinkHandles(sh: Shared, p: Parcel): Shared {
    var data := ReadFile(sh.files, TempOf(p), 0, p.dataSize);
    Shared(sh.warehouse, sh.status[KeyOf(p) := DONE], WriteParcel(sh.files - {TempOf(p)}, p, data))
  }

  /** IOFWriteQueueSourceTask on one parcel. */
  function DirectHandles(sh: Shared, p: Parcel): Shared {
    Shared(sh.warehouse - {KeyOf(p)}, sh.status[KeyOf(p) := DONE],
           WriteParcel(sh.files, p, CargoOf(sh.warehouse, p)))
  }

  /** RheaReadQueueSourceTask on one parcel. */
  function ReadSourceHandles(sh: Shared, p: Parcel): Shared {
    sh.(status := sh.status[KeyOf(p) := IN_PROGRESS])
  }

  /** RheaReadSinkTask on one parcel. */
  function ReadSinkHandles(sh: Shared, p: Parcel): Shared {
    Shared(sh.warehouse[KeyOf(p) := ReadFile(sh.files, StorageOf(p), p.position, p.dataSize)],
           sh.status[KeyOf(p) := DONE], sh.files)
  }

  /** A task on a batch, parcel by parcel. */
  function Batch(handles: (Shared, Parcel) -> Shared, sh: Shared, ps: seq<Parcel>): Shared {
    if ps == [] then sh else handles(Batch(handles, sh, ps[..|ps| - 1]), ps[|ps| - 1])
  }

  /** The queues of the other servers are as they were. */
  ghost predicate OthersSame(before: map<nat, seq<Parcel>>, after: map<nat, seq<Parcel>>, server: nat) {
    forall v :: v != server ==> ListAt(after, v) == ListAt(before, v)
  }

  class Disk {
    var files: Files

    method Write(k: FileKey, position: nat, data: Bytes)
      modifies this
      ensures files == WriteFile(old(files), k, position, data)
    {
      files := WriteFile(files, k, position, data);
    }

    method Read(k: FileKey, position: nat, size: nat) returns (data: Bytes)
      ensures data == ReadFile(files, k, position, size)
    {
      data := ReadFile(files, k, position, size);
    }

    method Remove(k: FileKey)
      modifies this
      ensures files == old(files) - {k}
    {
      files := files - {k};
    }
  }

  class Tasks {
    const client: Client
    const disk: Disk
    var emitted: seq<Parcel>

    constructor (client: Client, disk: Disk)
      ensures this.client == client && this.disk == disk && emitted == []
    {
      this.client, this.disk, emitted := client, disk, [];
    }

    ghost function Sh(): Shared
      reads this, client, disk
    {
      Shared(client.warehouse, client.parcelState, disk.files)
    }

    method WriteSourceHandle(parcel: Parcel)
      modifies this, client, disk
      ensures Sh() == SourceHandles(old(Sh()), parcel) && emitted == old(emitted) + [parcel]
      ensures client.writeQueue == old(client.writeQueue) && client.readQueue == old(client.readQueue)
    {
      var data := client.GetData(parcel);
      disk.Write(TempOf(parcel), 0, data);
      client.DeleteData(parcel);
      client.UpdateParcelStatus(parcel, IN_PROGRESS);
      emitted := emitted + [parcel];
    }

    method DirectSourceHandle(parcel: Parcel)
      modifies this, client, disk
      ensures Sh() == DirectHandles(old(Sh()), parcel) && emitted == old(emitted) + [parcel]
      ensures client.writeQueue == old(client.writeQueue) && client.readQueue == old(client.readQueue)
    {
      var data := client.GetData(parcel);
      disk.Write(StorageOf(parcel), parcel.position, data);
      client.DeleteData(parcel);
      client.UpdateParcelStatus(parcel, DONE);
      emitted := emitted + [parcel];
    }

    /** One turn of the loop of RheaWriteQueueSourceTask. */
    method WriteSourceTurn(server: nat)
      modifies this, client, disk
      ensures Sh() == Batch(SourceHandles, old(Sh()), ListAt(old(client.writeQueue), server))
      ensures emitted == old(emitted) + ListAt(old(client.writeQueue), server)
      ensures OthersSame(old(client.writeQueue), client.writeQueue, server)
      ensures ListAt(client.writeQueue, server) == [] && client.readQueue == old(client.readQueue)
    {
      var parcels := client.GetWriteParsel(server);
      for i := 0 to |parcels|
        invariant Sh() == Batch(SourceHandles, old(Sh()), parcels[..i])
        invariant emitted == old(emitted) + parcels[..i]
        invariant OthersSame(old(client.writeQueue), client.writeQueue, server)
        invariant ListAt(client.writeQueue, server) == [] && client.readQueue == old(client.readQueue)
      {
        WriteSourceHandle(parcels[i]);
        assert parcels[..i + 1][..i] == parcels[..i];
      }
      assert parcels[..|parcels|] == parcels;
    }

    method WriteSinkRun(event: Parcel)
      modifies client, disk
      ensures Sh() == SinkHandles(old(Sh()), event)
      ensures client.writeQueue == old(client.writeQueue) && client.readQueue == old(client.readQueue)
    {
      var data := disk.Read(TempOf(event), 0, event.dataSize);
      disk.Remove(TempOf(event));
      disk.Write(StorageOf(event), event.position, data);
      client.UpdateParcelStatus(event, DONE);
    }

    /** One turn of the loop of IOFWriteQueueSourceTask. */
    method DirectSourceTurn(server: nat)
      modifies this, client, disk
      ensures Sh() == Batch(DirectHandles, old(Sh()), ListAt(old(client.writeQueue), server))
      ensures emitted == old(emitted) + ListAt(old(client.writeQueue), server)
      ensures OthersSame(old(client.writeQueue), client.writeQueue, server)
      ensures ListAt(client.writeQueue, server) == [] && client.readQueue == old(client.readQueue)
    {
      var parcels := client.GetWriteParsel(server);
      for i := 0 to |parcels|
        invariant Sh() == Batch(DirectHandles, old(Sh()), parcels[..i])
        invariant emitted == old(emitted) + parcels[..i]
        invariant OthersSame(old(client.writeQueue), client.writeQueue, server)
        invariant ListAt(client.writeQueue, server) == [] && client.readQueue == old(client.readQueue)
      {
        DirectSourceHandle(parcels[i]);
        assert parcels[..i + 1][..i] == parcels[..i];
      }
      assert parcels[..|parcels|] == parcels;
    }

    /** One turn of the loop of RheaReadQueueSourceTask. */
    method ReadSourceTurn(server: nat)
      modifies this, client
      ensures Sh() == Batch(ReadSourceHandles, old(Sh()), ListAt(old(client.readQueue), server))
      ensures emitted == old(emitted) + ListAt(old(client.readQueue), server)
      ensures OthersSame(old(client.readQueue), client.readQueue, server)
      ensures ListAt(client.readQueue, server) == [] && client.writeQueue == old(client.writeQueue)
    {
      var parcels := client.GetReadParsel(server);
      for i := 0 to |parcels|
        invariant Sh() == Batch(ReadSourceHandles, old(Sh()), parcels[..i])
        invariant emitted == old(emitted) + parcels[..i]
        invariant OthersSame(old(client.readQueue), client.readQueue, server)
        invariant ListAt(client.readQueue, server) == [] && client.writeQueue == old(client.writeQueue)
      {
        var parcel := parcels[i];
        client.UpdateParcelStatus(parcel, IN_PROGRESS);
        emitted := emitted + [parcel];
        assert parcels[..i + 1][..i] == parcels[..i];
      }
      assert parcels[..|parcels|] == parcels;
    }

    method ReadSinkRun(event: Parcel)
      modifies client
      ensures Sh() == ReadSinkHandles(old(Sh()), event)
      ensures client.writeQueue == old(client.writeQueue) && client.readQueue == old(client.readQueue)
    {
      var data := disk.Read(StorageOf(event), event.position, event.dataSize);
      client.PutData(event, data);
      client.UpdateParcelStatus(event, DONE);
    }
  }

  // ---------- what the handlers amount to ----------

  /** Source then sink is one write of the payload at its offset, as in the
      direct-write job; the temporary file and the warehouse entry are gone. */
  lemma TwoStagesAreOneWrite(sh: Shared, p: Parcel)
    requires KeyOf(p) in sh.warehouse && |sh.warehouse[KeyOf(p)]| == p.dataSize && StorageOf(p) != TempOf(p)
    ensures SinkHandles(SourceHandles(sh, p), p) == DirectHandles(sh.(files := sh.files - {TempOf(p)}), p)
  {
    var d := sh.warehouse[KeyOf(p)];
    ReadBack(sh.files, TempOf(p), d);
    var f := WriteFile(sh.files, TempOf(p), 0, d);
    assert f - {TempOf(p)} == sh.files - {TempOf(p)};
    assert sh.status[KeyOf(p) := IN_PROGRESS][KeyOf(p) := DONE] == sh.status[KeyOf(p) := DONE];
  }

  /** A write job followed by a read job over the same range, on idle queues. */
  lemma WriteThenRead(sh: Shared, w: Parcel, r: Parcel)
    requires KeyOf(w) in sh.warehouse && |sh.warehouse[KeyOf(w)]| == w.dataSize && StorageOf(w) != TempOf(w)
    requires Inside(r, w)
    ensures var t := ReadSinkHandles(ReadSourceHandles(SinkHandles(SourceHandles(sh, w), w), r), r);
            t.warehouse[KeyOf(r)] == sh.warehouse[KeyOf(w)][r.position - w.position..][..r.dataSize]
  {
    TwoStagesAreOneWrite(sh, w);
    ReadBackInside(sh.files - {TempOf(w)}, w, sh.warehouse[KeyOf(w)], r);
  }

  // ---------- the handlers in terms of files and fields ----------

  /** The write sink moves the bytes of the temporary file to the parcel's range of the
      file with its name on the device of its storage index, removes the temporary
      file, and changes no other byte of any file. */
  lemma SinkWritesRange(sh: Shared, p: Parcel, file: FileKey, i: nat)
    requires file != TempOf(p)
    ensures ByteAt(Content(SinkHandles(sh, p).files, file), i)
         == if file == FileKey(p.storageIndex, p.id) && p.position <= i < p.position + p.dataSize
            then ByteAt(Content(sh.files, TempOf(p)), i - p.position) else ByteAt(Content(sh.files, file), i)
    ensures TempOf(p) in SinkHandles(sh, p).files ==> TempOf(p) == FileKey(p.storageIndex, p.id)
  {
    SliceBytes(Content(sh.files, TempOf(p)), 0, p.dataSize);
    WriteByte(sh.files - {TempOf(p)}, p, ReadFile(sh.files, TempOf(p), 0, p.dataSize), file, i);
  }

  /** The direct source writes the payload there. */
  lemma DirectWritesRange(sh: Shared, p: Parcel, file: FileKey, i: nat)
    requires KeyOf(p) in sh.warehouse && |sh.warehouse[KeyOf(p)]| == p.dataSize
    ensures ByteAt(Content(DirectHandles(sh, p).files, file), i)
         == if file == FileKey(p.storageIndex, p.id) && p.position <= i < p.position + p.dataSize
            then sh.warehouse[KeyOf(p)][i - p.position] else ByteAt(Content(sh.files, file), i)
  {
    WriteByte(sh.files, p, sh.warehouse[KeyOf(p)], file, i);
  }

  /** The read sink puts the bytes of that range into the warehouse. */
  lemma ReadSinkReadsRange(sh: Shared, p: Parcel)
    ensures var t := ReadSinkHandles(sh, p);
            && t.files == sh.files && KeyOf(p) in t.warehouse && |t.warehouse[KeyOf(p)]| == p.dataSize
            && forall i :: 0 <= i < p.dataSize ==>
                 t.warehouse[KeyOf(p)][i] == ByteAt(Content(sh.files, FileKey(p.storageIndex, p.id)), p.position + i)
  {
    SliceBytes(Content(sh.files, StorageOf(p)), p.position, p.dataSize);
  }

  // ---------- whole batches ----------

  function KeysOf(ps: seq<Parcel>): set<Key> {
    set p | p in ps :: KeyOf(p)
  }

  predicate DistinctKeys(ps: seq<Parcel>) {
    forall i, j :: 0 <= i < j < |ps| ==> KeyOf(ps[i]) != KeyOf(ps[j])
  }

  predicate DistinctTemps(ps: seq<Parcel>) {
    forall i, j :: 0 <= i < j < |ps| ==> TempOf(ps[i]) != TempOf(ps[j])
  }

  lemma KeysOfLast(ps: seq<Parcel>)
    requires ps != []
    ensures KeysOf(ps) == KeysOf(ps[..|ps| - 1]) + {KeyOf(ps[|ps| - 1])}
  {
    var n := |ps| - 1;
    forall k | k in KeysOf(ps)
      ensures k in KeysOf(ps[..n]) + {KeyOf(ps[n])}
    {
      var p :| p in ps && KeyOf(p) == k;
      if p != ps[n] { assert p in ps[..n]; }
    }
  }

  lemma LastKeyIsNew(ps: seq<Parcel>)
    requires ps != [] && DistinctKeys(ps)
    ensures KeyOf(ps[|ps| - 1]) !in KeysOf(ps[..|ps| - 1])
  {
    var n := |ps| - 1;
    forall p | p in ps[..n]
      ensures KeyOf(p) != KeyOf(ps[n])
    {
      var i :| 0 <= i < n && ps[i] == p;
    }
  }

  lemma {:induction false} BatchEmpties(sh: Shared, ps: seq<Parcel>)
    ensures Batch(SourceHandles, sh, ps).warehouse == sh.warehouse - KeysOf(ps)
    ensures Batch(DirectHandles, sh, ps).warehouse == sh.warehouse - KeysOf(ps)
    decreases |ps|
  {
    if ps != [] {
      BatchEmpties(sh, ps[..|ps| - 1]);
      KeysOfLast(ps);
    }
  }

  lemma {:induction false} BatchMarks(sh: Shared, ps: seq<Parcel>, k: Key)
    ensures Look(Batch(SourceHandles, sh, ps).status, k)
         == if k in KeysOf(ps) then Some(IN_PROGRESS) else Look(sh.status, k)
    ensures Look(Batch(ReadSourceHandles, sh, ps).status, k)
         == if k in KeysOf(ps) then Some(IN_PROGRESS) else Look(sh.status, k)
    ensures Look(Batch(DirectHandles, sh, ps).status, k)
         == if k in KeysOf(ps) then Some(DONE) else Look(sh.status, k)
    decreases |ps|
  {
    if ps != [] {
      BatchMarks(sh, ps[..|ps| - 1], k);
      KeysOfLast(ps);
    }
  }

  /** The payload of the last parcel is untouched by the parcels before it. */
  lemma LastCargo(sh: Shared, ps: seq<Parcel>)
    requires ps != [] && DistinctKeys(ps)
    ensures var n := |ps| - 1;
            && CargoOf(Batch(SourceHandles, sh, ps[..n]).warehouse, ps[n]) == CargoOf(sh.warehouse, ps[n])
            && CargoOf(Batch(DirectHandles, sh, ps[..n]).warehouse, ps[n]) == CargoOf(sh.warehouse, ps[n])
  {
    BatchEmpties(sh, ps[..|ps| - 1]);
    LastKeyIsNew(ps);
  }

  lemma {:induction false} BatchParks(sh: Shared, ps: seq<Parcel>, k: nat)
    requires DistinctKeys(ps) && DistinctTemps(ps) && k < |ps|
    ensures var d := CargoOf(sh.warehouse, ps[k]);
            ReadFile(Batch(SourceHandles, sh, ps).files, TempOf(ps[k]), 0, |d|) == d
    decreases |ps|
  {
    var n := |ps| - 1;
    var u := Batch(SourceHandles, sh, ps[..n]);
    LastCargo(sh, ps);
    if k == n {
      ReadBack(u.files, TempOf(ps[n]), CargoOf(sh.warehouse, ps[n]));
    } else {
      BatchParks(sh, ps[..n], k);
    }
  }

  lemma {:induction false} BatchLeavesOthers(sh: Shared, ps: seq<Parcel>, f: FileKey)
    requires forall p :: p in ps ==> TempOf(p) != f
    ensures var t := Batch(SourceHandles, sh, ps);
            (f in t.files <==> f in sh.files) && Content(t.files, f) == Content(sh.files, f)
    decreases |ps|
  {
    if ps != [] { BatchLeavesOthers(sh, ps[..|ps| - 1], f); }
  }

  /** A write source's turn, over any queue with distinct keys and temporary names:
      every payload is parked where its sink will look, every key has left the
      warehouse, every status is IN_PROGRESS, and nothing else has changed. */
  lemma WriteBatch(sh: Shared, ps: seq<Parcel>)
    requires DistinctKeys(ps) && DistinctTemps(ps)
    ensures var t := Batch(SourceHandles, sh, ps);
            && (forall p :: p in ps ==>
                  ReadFile(t.files, TempOf(p), 0, |CargoOf(sh.warehouse, p)|) == CargoOf(sh.warehouse, p))
            && (forall f :: (forall p :: p in ps ==> TempOf(p) != f) ==>
                  (f in t.files <==> f in sh.files) && Content(t.files, f) == Content(sh.files, f))
            && t.warehouse == sh.warehouse - KeysOf(ps)
            && (forall p :: p in ps ==> Look(t.status, KeyOf(p)) == Some(IN_PROGRESS))
            && (forall k :: k !in KeysOf(ps) ==> Look(t.status, k) == Look(sh.status, k))
  {
    var t := Batch(SourceHandles, sh, ps);
    BatchEmpties(sh, ps);
    forall k { BatchMarks(sh, ps, k); }
    forall p | p in ps
      ensures ReadFile(t.files, TempOf(p), 0, |CargoOf(sh.warehouse, p)|) == CargoOf(sh.warehouse, p)
    {
      var k :| 0 <= k < |ps| && ps[k] == p;
      BatchParks(sh, ps, k);
    }
    forall f | forall p :: p in ps ==> TempOf(p) != f { BatchLeavesOthers(sh, ps, f); }
  }

  lemma {:induction false} BatchWrites(sh: Shared, ps: seq<Parcel>, load: map<Parcel, Bytes>)
    requires DistinctKeys(ps) && forall p :: p in ps ==> LoadOf(load, p) == CargoOf(sh.warehouse, p)
    ensures Batch(DirectHandles, sh, ps).files == ApplyAll(sh.files, ps, load)
    decreases |ps|
  {
    if ps != [] {
      BatchWrites(sh, ps[..|ps| - 1], load);
      LastCargo(sh, ps);
    }
  }

  /** A direct source's turn: the payloads are written one after the other, in queue
      order, overlapping or not; every key has left the warehouse, every status is DONE. */
  lemma DirectBatch(sh: Shared, ps: seq<Parcel>)
    requires DistinctKeys(ps)
    ensures var t := Batch(DirectHandles, sh, ps);
            && t.files == ApplyAll(sh.files, ps, map p | p in ps :: CargoOf(sh.warehouse, p))
            && t.warehouse == sh.warehouse - KeysOf(ps)
            && (forall p :: p in ps ==> Look(t.status, KeyOf(p)) == Some(DONE))
            && (forall k :: k !in KeysOf(ps) ==> Look(t.status, k) == Look(sh.status, k))
  {
    BatchWrites(sh, ps, map p | p in ps :: CargoOf(sh.warehouse, p));
    BatchEmpties(sh, ps);
    forall k { BatchMarks(sh, ps, k); }
  }

  lemma {:induction false} BatchOnlyMarks(sh: Shared, ps: seq<Parcel>)
    ensures var t := Batch(ReadSourceHandles, sh, ps); t.files == sh.files && t.warehouse == sh.warehouse
    decreases |ps|
  {
    if ps != [] { BatchOnlyMarks(sh, ps[..|ps| - 1]); }
  }

  /** A read source's turn sets exactly the queued keys to IN_PROGRESS. */
  lemma ReadBatch(sh: Shared, ps: seq<Parcel>)
    ensures var t := Batch(ReadSourceHandles, sh, ps);
            && t.files == sh.files && t.warehouse == sh.warehouse
            && (forall p :: p in ps ==> Look(t.status, KeyOf(p)) == Some(IN_PROGRESS))
            && (forall k :: k !in KeysOf(ps) ==> Look(t.status, k) == Look(sh.status, k))
  {
    BatchOnlyMarks(sh, ps);
    forall k { BatchMarks(sh, ps, k); }
  }

  // ---------- two parcels under way with one temporary file ----------

  /** Source on `p`, source on `q`, then sink on `x` and sink on `y`. */
  function Overlapped(sh: Shared, p: Parcel, q: Parcel, x: Parcel, y: Parcel): Shared {
    SinkHandles(SinkHandles(SourceHandles(SourceHandles(sh, p), q), x), y)
  }

  predicate AllZero(d: Bytes) {
    forall i :: 0 <= i < |d| ==> d[i] == 0
  }

  lemma NothingParked(sh: Shared, x: Parcel, y: Parcel)
    requires TempOf(x) == TempOf(y) && StorageOf(x) != TempOf(x)
    ensures ReadFile(SinkHandles(sh, x).files, TempOf(y), 0, y.dataSize) == Zeros(y.dataSize)
  {
    assert TempOf(y) !in SinkHandles(sh, x).files;
    SliceBytes([], 0, y.dataSize);
    SameBytes(Slice([], 0, y.dataSize), Zeros(y.dataSize));
  }

  lemma SinkStoresWhatItReads(sh: Shared, y: Parcel)
    ensures ReadFile(SinkHandles(sh, y).files, StorageOf(y), y.position, y.dataSize)
         == ReadFile(sh.files, TempOf(y), 0, y.dataSize)
  {
    var d := ReadFile(sh.files, TempOf(y), 0, y.dataSize);
    ReadBackInside(sh.files - {TempOf(y)}, y, d, y);
    assert d[0..][..y.dataSize] == d;
  }

  /** If two parcels that share file name and offset are both parked before a sink
      takes either, the second sink, whichever parcel it has, finds the temporary file
      gone: its payload reaches storage if and only if it consists of zeros. */
  lemma SharedTempLosesPayload(sh: Shared, p: Parcel, q: Parcel, x: Parcel, y: Parcel)
    requires p.id == q.id && p.position == q.position && KeyOf(p) != KeyOf(q)
    requires (x == p && y == q) || (x == q && y == p)
    requires KeyOf(y) in sh.warehouse && |sh.warehouse[KeyOf(y)]| == y.dataSize && StorageOf(x) != TempOf(x)
    ensures var kept := ReadFile(Overlapped(sh, p, q, x, y).files, StorageOf(y), y.position, y.dataSize);
            kept == sh.warehouse[KeyOf(y)] <==> AllZero(sh.warehouse[KeyOf(y)])
  {
    var parked := SourceHandles(SourceHandles(sh, p), q);
    NothingParked(parked, x, y);
    SinkStoresWhatItReads(SinkHandles(parked, x), y);
    if AllZero(sh.warehouse[KeyOf(y)]) { SameBytes(sh.warehouse[KeyOf(y)], Zeros(y.dataSize)); }
  }
}
