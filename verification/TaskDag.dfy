/** How task trees and parcels travel between processes: MessagePack token streams
    (header of an array, then its elements) and the object trees they stand for. */
module TaskDag {
  import opened Options
  import opened Parcels

  newtype uint32 = x: int | 0 <= x < 0x1_0000_0000

  datatype Kind = SOURCE | KEYBY | SINK

  /** A link is a shared pointer and may be null.  The packed classes of tasks (plain,
      write source, key-by, write sink) all have this format. */
  datatype Task = Task(jobId: uint32, id: uint32, kind: Kind, links: seq<Link>)

  datatype Link = Null | To(task: Task)

  datatype Token = ArrayHeader(n: nat) | UIntToken(n: nat) | StrToken(s: string) | NilToken

  datatype Object = UInt(n: nat) | Str(s: string) | Nil | Arr(items: seq<Object>)

  // ---------- the wire format ----------

  function Encode(o: Object): (ts: seq<Token>)
    ensures |ts| > 0
  {
    match o
    case UInt(n) => [UIntToken(n)]
    case Str(s) => [StrToken(s)]
    case Nil => [NilToken]
    case Arr(items) => [ArrayHeader(|items|)] + EncodeAll(items)
  }

  function EncodeAll(os: seq<Object>): seq<Token> {
    if os == [] then [] else Encode(os[0]) + EncodeAll(os[1..])
  }

  /** The first object of a stream and what follows it. */
  function Decode(ts: seq<Token>): (r: Option<(Object, seq<Token>)>)
    ensures r.Some? ==> |r.value.1| < |ts|
    decreases |ts|, 0
  {
    if ts == [] then None
    else
      match ts[0]
      case UIntToken(n) => Some((UInt(n), ts[1..]))
      case StrToken(s) => Some((Str(s), ts[1..]))
      case NilToken => Some((Nil, ts[1..]))
      case ArrayHeader(n) =>
        var r := DecodeMany(n, ts[1..]);
        if r.None? then None else Some((Arr(r.value.0), r.value.1))
  }

  function DecodeMany(n: nat, ts: seq<Token>): (r: Option<(seq<Object>, seq<Token>)>)
    ensures r.Some? ==> |r.value.1| <= |ts|
    decreases |ts|, 1
  {
    if n == 0 then Some(([], ts))
    else
      var first := Decode(ts);
      if first.None? then None
      else
        var more := DecodeMany(n - 1, first.value.1);
        if more.None? then None else Some(([first.value.0] + more.value.0, more.value.1))
  }

  lemma {:induction false} DecodeEncode(o: Object, rest: seq<Token>)
    ensures Decode(Encode(o) + rest) == Some((o, rest))
  {
    var ts := Encode(o) + rest;
    match o
    case UInt(n) => assert ts[1..] == rest;
    case Str(s) => assert ts[1..] == rest;
    case Nil => assert ts[1..] == rest;
    case Arr(items) =>
      DecodeEncodeAll(items, rest);
      assert ts[1..] == EncodeAll(items) + rest;
  }

  lemma {:induction false} DecodeEncodeAll(os: seq<Object>, rest: seq<Token>)
    ensures DecodeMany(|os|, EncodeAll(os) + rest) == Some((os, rest))
  {
    if os == [] {
      assert EncodeAll(os) + rest == rest;
    } else {
      assert EncodeAll(os) + rest == Encode(os[0]) + (EncodeAll(os[1..]) + rest);
      assert os == [os[0]] + os[1..];
      DecodeEncode(os[0], EncodeAll(os[1..]) + rest);
      DecodeEncodeAll(os[1..], rest);
    }
  }

  // ---------- tasks ----------

  function KindNumber(k: Kind): nat {
    match k
    case SOURCE => 0
    case KEYBY => 1
    case SINK => 2
  }

  function KindOf(n: nat): Option<Kind> {
    if n == 0 then Some(SOURCE) else if n == 1 then Some(KEYBY) else if n == 2 then Some(SINK) else None
  }

  /** The stream that pack emits: array of four, the three numbers, then the links. */
  function Pack(t: Task): seq<Token> {
    [ArrayHeader(4), UIntToken(t.jobId as nat), UIntToken(t.id as nat), UIntToken(KindNumber(t.kind)),
     ArrayHeader(|t.links|)]
    + PackAll(t.links)
  }

  function PackLink(l: Link): seq<Token> {
    match l
    case Null => [NilToken]
    case To(t) => Pack(t)
  }

  function PackAll(ts: seq<Link>): seq<Token> {
    if ts == [] then [] else PackLink(ts[0]) + PackAll(ts[1..])
  }

  /** The object tree that object_with_zone builds. */
  function ToObject(t: Task): Object {
    Arr([UInt(t.jobId as nat), UInt(t.id as nat), UInt(KindNumber(t.kind)), Arr(ToObjects(t.links))])
  }

  function LinkObject(l: Link): Object {
    match l
    case Null => Nil
    case To(t) => ToObject(t)
  }

  function ToObjects(ts: seq<Link>): seq<Object> {
    if ts == [] then [] else [LinkObject(ts[0])] + ToObjects(ts[1..])
  }

  /** convert looks at the first four elements only; None stands for a type error. */
  function Convert(o: Object): Option<Task> {
    if !(o.Arr? && |o.items| >= 4) then None
    else
      var job, id, kind, links := o.items[0], o.items[1], o.items[2], o.items[3];
      if !(job.UInt? && id.UInt? && kind.UInt? && links.Arr?) then None
      else if job.n >= 0x1_0000_0000 || id.n >= 0x1_0000_0000 || KindOf(kind.n).None? then None
      else
        var ls := ConvertAll(links.items);
        if ls.None? then None else Some(Task(job.n as uint32, id.n as uint32, KindOf(kind.n).value, ls.value))
  }

  function ConvertAll(os: seq<Object>): Option<seq<Link>> {
    if os == [] then Some([])
    else
      var first, more := Convert(os[0]), ConvertAll(os[1..]);
      if more.None? || (first.None? && !os[0].Nil?) then None
      else Some([if first.Some? then To(first.value) else Null] + more.value)
  }

  lemma {:induction false} ConvertToObject(t: Task)
    ensures Convert(ToObject(t)) == Some(t)
  {
    ConvertToObjects(t.links);
  }

  lemma {:induction false} ConvertLink(l: Link)
    ensures Convert(LinkObject(l)) == if l.To? then Some(l.task) else None
    ensures LinkObject(l).Nil? <==> l.Null?
  {
    if l.To? { ConvertToObject(l.task); }
  }

  lemma {:induction false} ConvertToObjects(ts: seq<Link>)
    ensures ConvertAll(ToObjects(ts)) == Some(ts)
  {
    if ts != [] {
      assert ts == [ts[0]] + ts[1..];
      ConvertLink(ts[0]);
      ConvertToObjects(ts[1..]);
      assert ToObjects(ts)[1..] == ToObjects(ts[1..]);
    }
  }

  /** Packing a task is encoding its object tree: the two ways out of a process agree. */
  lemma {:induction false} PackIsEncode(t: Task)
    ensures Pack(t) == Encode(ToObject(t))
  {
    var links := Arr(ToObjects(t.links));
    PackAllIsEncodeAll(t.links);
    EncodeFour(UInt(t.jobId as nat), UInt(t.id as nat), UInt(KindNumber(t.kind)), links);
  }

  lemma EncodeMore(o: Object, os: seq<Object>)
    ensures EncodeAll([o] + os) == Encode(o) + EncodeAll(os)
  {
    assert ([o] + os)[1..] == os;
  }

  lemma EncodeFour(a: Object, b: Object, c: Object, d: Object)
    ensures EncodeAll([a, b, c, d]) == Encode(a) + (Encode(b) + (Encode(c) + Encode(d)))
  {
    assert [d] == [d] + [] && [c, d] == [c] + [d] && [b, c, d] == [b] + [c, d] && [a, b, c, d] == [a] + [b, c, d];
    EncodeMore(d, []);
    EncodeMore(c, [d]);
    EncodeMore(b, [c, d]);
    EncodeMore(a, [b, c, d]);
  }

  lemma {:induction false} PackLinkIsEncode(l: Link)
    ensures PackLink(l) == Encode(LinkObject(l))
  {
    if l.To? { PackIsEncode(l.task); }
  }

  lemma {:induction false} PackAllIsEncodeAll(ts: seq<Link>)
    ensures PackAll(ts) == EncodeAll(ToObjects(ts)) && |ToObjects(ts)| == |ts|
  {
    if ts != [] {
      PackLinkIsEncode(ts[0]);
      PackAllIsEncodeAll(ts[1..]);
      assert ToObjects(ts)[1..] == ToObjects(ts[1..]);
    }
  }

  /** What a receiver gets from a stream. */
  function Parse(ts: seq<Token>): Option<(Task, seq<Token>)> {
    var r := Decode(ts);
    if r.None? || Convert(r.value.0).None? then None else Some((Convert(r.value.0).value, r.value.1))
  }

  /** Every task tree comes back as it was packed, and the rest of the stream is untouched. */
  lemma TaskRoundTrip(t: Task, rest: seq<Token>)
    ensures Parse(Pack(t) + rest) == Some((t, rest))
  {
    PackIsEncode(t);
    DecodeEncode(ToObject(t), rest);
    ConvertToObject(t);
  }

  /** No stream begins with two different packed trees. */
  lemma PackIsPrefixFree(t: Task, u: Task, r1: seq<Token>, r2: seq<Token>)
    requires Pack(t) + r1 == Pack(u) + r2
    ensures t == u && r1 == r2
  {
    TaskRoundTrip(t, r1);
    TaskRoundTrip(u, r2);
  }

  // ---------- parcels ----------

  const TWO_TO_THE_64: nat := 0x1_0000_0000_0000_0000

  /** The field widths of a parcel. */
  predicate Fits(p: Parcel) {
    p.position < TWO_TO_THE_64 && p.dataSize < TWO_TO_THE_64 && p.storageIndex < 0x1_0000 && p.uniqueId < TWO_TO_THE_64
  }

  function PackParcel(p: Parcel): seq<Token> {
    [ArrayHeader(5), StrToken(p.id), UIntToken(p.position), UIntToken(p.dataSize), UIntToken(p.storageIndex),
     UIntToken(p.uniqueId)]
  }

  function ConvertParcel(o: Object): Option<Parcel> {
    if !(o.Arr? && |o.items| >= 5) then None
    else
      var id, position, size, index, unique := o.items[0], o.items[1], o.items[2], o.items[3], o.items[4];
      if !(id.Str? && position.UInt? && size.UInt? && index.UInt? && unique.UInt?) then None
      else
        var p := Parcel(id.s, position.n, size.n, index.n, unique.n);
        if Fits(p) then Some(p) else None
  }

  /** A parcel keeps its five fields on the wire. */
  lemma ParcelRoundTrip(p: Parcel, rest: seq<Token>)
    requires Fits(p)
    ensures var r := Decode(PackParcel(p) + rest);
            r.Some? && r.value.1 == rest && ConvertParcel(r.value.0) == Some(p)
  {
    var items := [Str(p.id), UInt(p.position), UInt(p.dataSize), UInt(p.storageIndex), UInt(p.uniqueId)];
    EncodeFour(items[1], items[2], items[3], items[4]);
    EncodeMore(items[0], [items[1], items[2], items[3], items[4]]);
    assert items == [items[0]] + [items[1], items[2], items[3], items[4]];
    assert PackParcel(p) == Encode(Arr(items));
    DecodeEncode(Arr(items), rest);
  }

  /** Which element of a packed parcel is which field, and what a receiver makes of five elements. */
  lemma ParcelFields(p: Parcel)
    ensures |PackParcel(p)| == 6 && PackParcel(p)[0] == ArrayHeader(5)
    ensures PackParcel(p)[1] == StrToken(p.id) && PackParcel(p)[2] == UIntToken(p.position)
    ensures PackParcel(p)[3] == UIntToken(p.dataSize) && PackParcel(p)[4] == UIntToken(p.storageIndex)
    ensures PackParcel(p)[5] == UIntToken(p.uniqueId)
    ensures forall o :: ConvertParcel(o) == Some(p) ==>
              o.Arr? && |o.items| >= 5 && o.items[0] == Str(p.id) && o.items[1] == UInt(p.position) &&
              o.items[2] == UInt(p.dataSize) && o.items[3] == UInt(p.storageIndex) && o.items[4] == UInt(p.uniqueId)
  {
  }

  /** Likewise for tasks. */
  lemma TaskFields(t: Task)
    ensures |Pack(t)| >= 5 && Pack(t)[0] == ArrayHeader(4) && Pack(t)[1] == UIntToken(t.jobId as nat)
    ensures Pack(t)[2] == UIntToken(t.id as nat) && Pack(t)[4] == ArrayHeader(|t.links|)
    ensures Pack(t)[3] == UIntToken(match t.kind case SOURCE => 0 case KEYBY => 1 case SINK => 2)
    ensures forall o :: Convert(o) == Some(t) ==>
              o.Arr? && |o.items| >= 4 && o.items[0] == UInt(t.jobId as nat) && o.items[1] == UInt(t.id as nat) &&
              o.items[2].UInt? && o.items[3].Arr? && ConvertAll(o.items[3].items) == Some(t.links)
  {
  }
}
