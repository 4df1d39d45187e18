/** The client library over the shared structures it works on. */
module RheaClient {
  import opened Bags
  import opened Parcels

  function CargoOf(warehouse: map<Key, Bytes>, p: Parcel): Bytes {
    if KeyOf(p) in warehouse then warehouse[KeyOf(p)] else []
  }

  /** The number of pops the drain loops aim for; they only ask whether it is positive. */
  function Amount(size: nat): real {
    if size as real * 0.1 == 0.0 then size as real else size as real * 0.1
  }

  lemma AmountPositive(size: nat)
    ensures Amount(size) > 0.0 <==> size > 0
  {
  }

  class Client {
    var warehouse: map<Key, Bytes>
    var writeQueue: map<nat, seq<Parcel>>
    var readQueue: map<nat, seq<Parcel>>
    var parcelState: map<Key, Status>
    const myServer: nat

    constructor (server: nat)
      ensures warehouse == map[] && writeQueue == map[] && readQueue == map[] && parcelState == map[]
      ensures myServer == server
    {
      warehouse, writeQueue, readQueue, parcelState := map[], map[], map[], map[];
      myServer := server;
    }

    /** The caller's buffer holds at least the announced number of bytes.  The three
        flags say whether the shared structures accept the puts; after a refusal
        nothing more is put, and what is already put stays. */
    method Publish(parcel: Parcel, data: Bytes, stored: bool, pushed: bool, marked: bool) returns (status: bool)
      requires parcel.dataSize <= |data|
      modifies this
      ensures status == (stored && pushed && marked)
      ensures warehouse == if stored then old(warehouse)[KeyOf(parcel) := data[..parcel.dataSize]] else old(warehouse)
      ensures writeQueue == if stored && pushed
                            then old(writeQueue)[myServer := ListAt(old(writeQueue), myServer) + [parcel]]
                            else old(writeQueue)
      ensures parcelState == if status then old(parcelState)[KeyOf(parcel) := QUEUED] else old(parcelState)
      ensures readQueue == old(readQueue)
    {
      var dataStr := data[..parcel.dataSize];
      status := stored;
      if stored { warehouse := warehouse[KeyOf(parcel) := dataStr]; }
      if status {
        status := pushed;
        if pushed { writeQueue := writeQueue[myServer := ListAt(writeQueue, myServer) + [parcel]]; }
      }
      if status {
        status := marked;
        if marked { parcelState := parcelState[KeyOf(parcel) := QUEUED]; }
      }
    }

    method AsyncSubscribe(parcel: Parcel, pushed: bool) returns (status: bool)
      modifies this
      ensures status == pushed
      ensures readQueue == if pushed then old(readQueue)[myServer := ListAt(old(readQueue), myServer) + [parcel]]
                           else old(readQueue)
      ensures warehouse == old(warehouse) && writeQueue == old(writeQueue) && parcelState == old(parcelState)
    {
      status := pushed;
      if pushed { readQueue := readQueue[myServer := ListAt(readQueue, myServer) + [parcel]]; }
    }

    /** Takes the bytes out of the warehouse, if they are there. */
    method GetSubscribedData(parcel: Parcel) returns (found: bool, data: Bytes)
      modifies this
      ensures found == (KeyOf(parcel) in old(warehouse))
      ensures found ==> data == old(warehouse)[KeyOf(parcel)]
      ensures warehouse == old(warehouse) - {KeyOf(parcel)}
      ensures writeQueue == old(writeQueue) && readQueue == old(readQueue) && parcelState == old(parcelState)
    {
      found, data := KeyOf(parcel) in warehouse, [];
      if found {
        data := warehouse[KeyOf(parcel)];
        warehouse := warehouse - {KeyOf(parcel)};
      }
    }

    method PopWrite(server: nat) returns (found: bool, parcel: Parcel)
      modifies this
      ensures found == (ListAt(old(writeQueue), server) != [])
      ensures found ==> parcel == ListAt(old(writeQueue), server)[0] &&
                        writeQueue == old(writeQueue)[server := ListAt(old(writeQueue), server)[1..]]
      ensures !found ==> writeQueue == old(writeQueue)
      ensures readQueue == old(readQueue) && warehouse == old(warehouse) && parcelState == old(parcelState)
    {
      var q := ListAt(writeQueue, server);
      found, parcel := q != [], Parcel("", 0, 0, 0, 0);
      if found {
        parcel := q[0];
        writeQueue := writeQueue[server := q[1..]];
      }
    }

    /** The target is never lowered, so without concurrent pushes the loop ends with
        the queue empty and its whole content returned, in order. */
    method GetWriteParsel(server: nat) returns (parcels: seq<Parcel>)
      modifies this
      ensures parcels == ListAt(old(writeQueue), server)
      ensures ListAt(writeQueue, server) == []
      ensures forall v :: v != server ==> ListAt(writeQueue, v) == ListAt(old(writeQueue), v)
      ensures readQueue == old(readQueue) && warehouse == old(warehouse) && parcelState == old(parcelState)
    {
      var amount := Amount(|ListAt(writeQueue, server)|);
      AmountPositive(|ListAt(writeQueue, server)|);
      parcels := [];
      while amount > 0.0
        invariant parcels + ListAt(writeQueue, server) == ListAt(old(writeQueue), server)
        invariant amount <= 0.0 ==> ListAt(writeQueue, server) == []
        invariant forall v :: v != server ==> ListAt(writeQueue, v) == ListAt(old(writeQueue), v)
        invariant readQueue == old(readQueue) && warehouse == old(warehouse) && parcelState == old(parcelState)
        decreases |ListAt(writeQueue, server)|
      {
        var found, value := PopWrite(server);
        if !found { break; }
        parcels := parcels + [value];
      }
    }

    method PopRead(server: nat) returns (found: bool, parcel: Parcel)
      modifies this
      ensures found == (ListAt(old(readQueue), server) != [])
      ensures found ==> parcel == ListAt(old(readQueue), server)[0] &&
                        readQueue == old(readQueue)[server := ListAt(old(readQueue), server)[1..]]
      ensures !found ==> readQueue == old(readQueue)
      ensures writeQueue == old(writeQueue) && warehouse == old(warehouse) && parcelState == old(parcelState)
    {
      var q := ListAt(readQueue, server);
      found, parcel := q != [], Parcel("", 0, 0, 0, 0);
      if found {
        parcel := q[0];
        readQueue := readQueue[server := q[1..]];
      }
    }

    method GetReadParsel(server: nat) returns (parcels: seq<Parcel>)
      modifies this
      ensures parcels == ListAt(old(readQueue), server)
      ensures ListAt(readQueue, server) == []
      ensures forall v :: v != server ==> ListAt(readQueue, v) == ListAt(old(readQueue), v)
      ensures writeQueue == old(writeQueue) && warehouse == old(warehouse) && parcelState == old(parcelState)
    {
      var amount := Amount(|ListAt(readQueue, server)|);
      AmountPositive(|ListAt(readQueue, server)|);
      parcels := [];
      while amount > 0.0
        invariant parcels + ListAt(readQueue, server) == ListAt(old(readQueue), server)
        invariant amount <= 0.0 ==> ListAt(readQueue, server) == []
        invariant forall v :: v != server ==> ListAt(readQueue, v) == ListAt(old(readQueue), v)
        invariant writeQueue == old(writeQueue) && warehouse == old(warehouse) && parcelState == old(parcelState)
        decreases |ListAt(readQueue, server)|
      {
        var found, value := PopRead(server);
        if !found { break; }
        parcels := parcels + [value];
      }
    }

    method GetData(parcel: Parcel) returns (data: Bytes)
      ensures data == CargoOf(warehouse, parcel)
    {
      data := if KeyOf(parcel) in warehouse then warehouse[KeyOf(parcel)] else [];
    }

    method DeleteData(parcel: Parcel)
      modifies this`warehouse
      ensures warehouse == old(warehouse) - {KeyOf(parcel)}
    {
      warehouse := warehouse - {KeyOf(parcel)};
    }

    method PutData(parcel: Parcel, data: Bytes)
      modifies this`warehouse
      ensures warehouse == old(warehouse)[KeyOf(parcel) := data]
    {
      warehouse := warehouse[KeyOf(parcel) := data];
    }

    method UpdateParcelStatus(parcel: Parcel, status: Status)
      modifies this`parcelState
      ensures parcelState == old(parcelState)[KeyOf(parcel) := status]
    {
      parcelState := parcelState[KeyOf(parcel) := status];
    }

    /** One round of the polling loop of Wait. */
    method PollOnce(parcel: Parcel) returns (done: bool)
      modifies this`parcelState
      ensures done == (KeyOf(parcel) in old(parcelState) && old(parcelState)[KeyOf(parcel)] == DONE)
      ensures parcelState == if done then old(parcelState) - {KeyOf(parcel)} else old(parcelState)
    {
      done := KeyOf(parcel) in parcelState && parcelState[KeyOf(parcel)] == DONE;
      if done {
        parcelState := parcelState - {KeyOf(parcel)};
      }
    }
  }
}
