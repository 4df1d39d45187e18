/** The byte-flow regulator: when it asks for a change of nodes, and for how many,
    in the fixed-width arithmetic it computes with. */
module RegulatorArithmetic {

  const TWO_16: nat := 0x1_0000
  const TWO_31: nat := 0x8000_0000
  const TWO_32: nat := 0x1_0000_0000
  const TWO_64: nat := 0x1_0000_0000_0000_0000

  /** Conversion to a 32-bit int. */
  function ToInt32(x: int): int {
    if x % TWO_32 >= TWO_31 then x % TWO_32 - TWO_32 else x % TWO_32
  }

  /** Conversion to a 16-bit int. */
  function ToInt16(x: int): int {
    if x % TWO_16 >= 0x8000 then x % TWO_16 - TWO_16 else x % TWO_16
  }

  /** abs on 32-bit ints; the least int has no positive counterpart. */
  function AbsInt(x: int): int {
    if x == 0 - TWO_31 then x else if x < 0 then -x else x
  }

  /** The rate difference as the code sees it: subtracted as unsigned numbers, cast to int. */
  function Spread(outRate: nat, inRate: nat): int {
    AbsInt(ToInt32(outRate - inRate))
  }

  /** The difference beyond half the dead band. */
  function Beyond(outRate: nat, inRate: nat, variation: nat): int {
    Spread(outRate, inRate) - variation / 2
  }

  /** AlterNodes: that difference, signed, then divided as an unsigned 64-bit number
      and cut to 16 bits. */
  function NodeVar(outRate: nat, inRate: nat, variation: nat, step: nat): int
    requires step > 0
  {
    var difference := Beyond(outRate, inRate, variation);
    var multiplier := if outRate > inRate then -1 else 1;
    ToInt16((difference * multiplier) % TWO_64 / step)
  }

  /** CalculateRate asks for a change. */
  predicate Fires(outRate: nat, inRate: nat, variation: nat) {
    inRate != 0 && outRate != 0 && Spread(outRate, inRate) >= variation
  }

  function Gap(a: nat, b: nat): nat {
    if a < b then b - a else a - b
  }

  lemma SpreadIsGap(outRate: nat, inRate: nat)
    requires outRate < TWO_32 && inRate < TWO_32
    ensures var g: int := Gap(outRate, inRate);
            Spread(outRate, inRate) == if g < TWO_31 then g else if g == TWO_31 then 0 - TWO_31 else TWO_32 - g
  {
    var x := outRate - inRate;
    if x < 0 { ModPlus(x, TWO_32); }
  }

  lemma SpreadBound(outRate: nat, inRate: nat)
    ensures 0 - TWO_31 <= Spread(outRate, inRate) < TWO_31
  {
  }

  /** The distance as the code sees it, in the rates alone: the gap of the rates, or
      2^32 less the gap once that is more than 2^31; half the dead band is taken off. */
  lemma BeyondMeans(outRate: nat, inRate: nat, variation: nat)
    requires outRate < TWO_32 && inRate < TWO_32
    ensures var g := if outRate < inRate then inRate - outRate else outRate - inRate;
            Beyond(outRate, inRate, variation)
            == (if g < 0x8000_0000 then g else if g == 0x8000_0000 then -0x8000_0000 else 0x1_0000_0000 - g)
               - variation / 2
  {
    SpreadIsGap(outRate, inRate);
  }

  /** When the loop asks for a change, in the rates alone. */
  lemma FiresMeans(outRate: nat, inRate: nat, variation: nat)
    requires outRate < TWO_32 && inRate < TWO_32
    ensures var g := if outRate < inRate then inRate - outRate else outRate - inRate;
            Fires(outRate, inRate, variation) <==>
            inRate != 0 && outRate != 0 && g != 0x8000_0000 &&
            (if g < 0x8000_0000 then g else 0x1_0000_0000 - g) >= variation
  {
    SpreadIsGap(outRate, inRate);
  }

  /** What the loop passes on lies beyond half the dead band, the wrapped rates included. */
  lemma FiringIsBeyond(outRate: nat, inRate: nat, variation: nat)
    requires Fires(outRate, inRate, variation)
    ensures Beyond(outRate, inRate, variation) >= 0
    ensures outRate > inRate && outRate - inRate < TWO_32 ==> Beyond(outRate, inRate, variation) > 0
  {
    if outRate > inRate && outRate - inRate < TWO_32 && variation == 0 {
      assert (outRate - inRate) % TWO_32 == outRate - inRate;
    }
  }

  lemma ModPlus(x: int, m: nat)
    requires m > 0 && x < 0 && x + m >= 0
    ensures x % m == x + m
  {
  }

  /** The decision means what its dead band says, rates further apart than the
      variation, exactly when neither the gap is 2^31 nor its wrapped value drops
      into the dead band. */
  lemma FiresAsIntended(outRate: nat, inRate: nat, variation: nat)
    requires 0 < outRate < TWO_32 && 0 < inRate < TWO_32 && variation < TWO_16
    ensures var g := Gap(outRate, inRate);
            ((Fires(outRate, inRate, variation) <==> g >= variation)
             <==> g < TWO_31 || (g > TWO_31 && TWO_32 - g >= variation))
  {
  }

  function Ceil(d: nat, step: nat): nat
    requires step > 0
  {
    d / step + if d % step > 0 then 1 else 0
  }

  /** It is the least number of steps that covers the difference. */
  lemma CeilMeans(d: nat, step: nat)
    requires step > 0
    ensures Ceil(d, step) * step >= d && (Ceil(d, step) - 1) * step < d
  {
    var q, r := d / step, d % step;
    assert d == q * step + r;
    Distribute(q + 1, 1, step);
    Distribute(q, 1, step);
  }

  lemma Distribute(x: int, y: int, z: int)
    ensures (x - y) * z == x * z - y * z
  {
  }

  lemma AtLeastOne(x: int, step: nat)
    requires x >= 1
    ensures x * step >= step
  {
  }

  lemma DivUnique(n: int, k: int, r: int, step: nat)
    requires step > 0 && 0 <= r < step && n == k * step + r
    ensures n / step == k && n % step == r
  {
    var q, m := n / step, n % step;
    assert n == q * step + m;
    Distribute(q, k, step);
    Distribute(k, q, step);
    if q > k { AtLeastOne(q - k, step); }
    if q < k { AtLeastOne(k - q, step); }
  }

  /** Growing: the request is the difference beyond half the band in whole steps,
      exactly when that fits 16 bits. */
  lemma GrowExact(outRate: nat, inRate: nat, variation: nat, step: nat)
    requires step > 0 && outRate <= inRate && Beyond(outRate, inRate, variation) >= 0
    ensures var d := Beyond(outRate, inRate, variation);
            && NodeVar(outRate, inRate, variation, step) == ToInt16(d / step)
            && (NodeVar(outRate, inRate, variation, step) == d / step <==> d / step < 0x8000)
  {
    SpreadBound(outRate, inRate);
    var d := Beyond(outRate, inRate, variation);
    assert d % TWO_64 == d;
    QuotientSmall(d, step);
    Int16Exact(d / step);
  }

  /** The same in the rates alone, for rates less than 2^31 apart and for wrapped ones. */
  lemma GrowRequest(outRate: nat, inRate: nat, variation: nat, step: nat)
    requires step > 0 && outRate <= inRate < TWO_32
    ensures var g := inRate - outRate;
            g < 0x8000_0000 && g >= variation / 2 ==>
              (NodeVar(outRate, inRate, variation, step) == (g - variation / 2) / step
               <==> (g - variation / 2) / step < 0x8000)
    ensures var g := inRate - outRate;
            g > 0x8000_0000 && 0x1_0000_0000 - g >= variation / 2 ==>
              (NodeVar(outRate, inRate, variation, step) == (0x1_0000_0000 - g - variation / 2) / step
               <==> (0x1_0000_0000 - g - variation / 2) / step < 0x8000)
  {
    BeyondMeans(outRate, inRate, variation);
    if Beyond(outRate, inRate, variation) >= 0 { GrowExact(outRate, inRate, variation, step); }
  }

  lemma QuotientSmall(d: nat, step: nat)
    requires step > 0
    ensures 0 <= d / step <= d
  {
    var q, m := d / step, d % step;
    assert d == q * step + m;
    if q < 0 {
      AtLeastOne(-q, step);
      Distribute(0, q, step);
    } else {
      AtLeastItself(q, step);
    }
  }

  lemma AtLeastItself(q: nat, step: nat)
    requires step > 0
    ensures q * step >= q
  {
    assert q * step == q + q * (step - 1);
  }

  lemma Int16Exact(x: nat)
    requires x < TWO_32
    ensures ToInt16(x) == x <==> x < 0x8000
  {
  }

  /** Shrinking: the negative difference is divided as a number just below 2^64. */
  lemma ShrinkValue(outRate: nat, inRate: nat, variation: nat, step: nat)
    requires step > 0 && outRate > inRate && Beyond(outRate, inRate, variation) > 0
    ensures var d := Beyond(outRate, inRate, variation);
            NodeVar(outRate, inRate, variation, step) == ToInt16((TWO_64 - d) / step)
  {
    SpreadBound(outRate, inRate);
    var d := Beyond(outRate, inRate, variation);
    ModPlus(-d, TWO_64);
    assert (d * -1) % TWO_64 == TWO_64 - d;
  }

  /** 1 when the rest of 2^64 covers the rest of d, which saves a step. */
  function Carry(d: nat, step: nat): nat
    requires step > 0
  {
    if 0 < d % step <= TWO_64 % step then 1 else 0
  }

  lemma ShrinkQuotient(d: nat, step: nat)
    requires step > 0 && d < TWO_64
    ensures (TWO_64 - d) / step == TWO_64 / step - Ceil(d, step) + Carry(d, step)
  {
    var q, r, a, b := TWO_64 / step, TWO_64 % step, d / step, d % step;
    assert TWO_64 == q * step + r && d == a * step + b;
    if b <= r {
      assert TWO_64 - d == (q - a) * step + (r - b) by { Distribute(q, a, step); }
      DivUnique(TWO_64 - d, q - a, r - b, step);
    } else {
      Distribute(q, a, step);
      Distribute(q - a, 1, step);
      assert TWO_64 - d == (q - a - 1) * step + (step + r - b);
      DivUnique(TWO_64 - d, q - a - 1, step + r - b, step);
    }
  }

  lemma ToInt16Of(x: int, c: nat)
    ensures ToInt16(x - c) == 0 - c <==> x % TWO_16 == 0 && c <= 0x8000
  {
    var k, m := (x - c) / TWO_16, (x - c) % TWO_16;
    assert x - c == k * TWO_16 + m;
    if ToInt16(x - c) == 0 - c {
      assert x == k * TWO_16 || x == (k + 1) * TWO_16;
    }
    if x % TWO_16 == 0 && c <= 0x8000 {
      var q := x / TWO_16;
      assert x == q * TWO_16;
      assert (x - c) % TWO_16 == if c == 0 then 0 else TWO_16 - c;
    }
  }

  /** 1 when the rest of 2^64 does not cover the rest of d, which costs a step. */
  function Short(d: nat, step: nat): nat
    requires step > 0
  {
    if d % step > TWO_64 % step then 1 else 0
  }

  /** Shrinking asks for what the signed division would give, minus the whole steps
      and so the mirror image of growing, exactly when that fits 16 bits and the
      quotient of 2^64 by the step, less the short step, vanishes modulo 2^16. */
  lemma ShrinkAsSigned(outRate: nat, inRate: nat, variation: nat, step: nat)
    requires step > 0 && outRate > inRate && Beyond(outRate, inRate, variation) > 0
    ensures var d := Beyond(outRate, inRate, variation);
            (NodeVar(outRate, inRate, variation, step) == 0 - d / step
             <==> (TWO_64 / step - Short(d, step)) % TWO_16 == 0 && d / step <= 0x8000)
  {
    var d := Beyond(outRate, inRate, variation);
    ShrinkValue(outRate, inRate, variation, step);
    ShrinkQuotient(d, step);
    QuotientSmall(d, step);
    ToInt16Of(TWO_64 / step - Short(d, step), d / step);
  }

  /** Shrinking in the rates alone, with `d` the distance less half the dead band: what
      the signed division would give, exactly when the quotient of 2^64 by the step,
      less 1 if its remainder is smaller than that of `d`, vanishes modulo 2^16. */
  lemma ShrinkRequest(outRate: nat, inRate: nat, variation: nat, step: nat)
    requires step > 0 && inRate < outRate < TWO_32
    ensures var g := outRate - inRate;
            var d := (if g < 0x8000_0000 then g else 0x1_0000_0000 - g) - variation / 2;
            g != 0x8000_0000 && d > 0 ==>
              (NodeVar(outRate, inRate, variation, step) == -(d / step) <==>
               (TWO_64 / step - (if d % step > TWO_64 % step then 1 else 0)) % 0x1_0000 == 0 && d / step <= 0x8000)
  {
    BeyondMeans(outRate, inRate, variation);
    if Beyond(outRate, inRate, variation) > 0 { ShrinkAsSigned(outRate, inRate, variation, step); }
  }

  /** Shrinking asks for minus the number of steps, rounded up, exactly when that
      fits 16 bits and the quotient of 2^64 by the step, carry included, vanishes
      modulo 2^16. */
  lemma ShrinkExact(outRate: nat, inRate: nat, variation: nat, step: nat)
    requires step > 0 && outRate > inRate && Beyond(outRate, inRate, variation) > 0
    ensures var d := Beyond(outRate, inRate, variation);
            (NodeVar(outRate, inRate, variation, step) == 0 - Ceil(d, step)
             <==> (TWO_64 / step + Carry(d, step)) % TWO_16 == 0 && Ceil(d, step) <= 0x8000)
  {
    var d := Beyond(outRate, inRate, variation);
    ShrinkValue(outRate, inRate, variation, step);
    ShrinkQuotient(d, step);
    ToInt16Of(TWO_64 / step + Carry(d, step), Ceil(d, step));
  }

  function Pow2(k: nat): nat {
    if k == 0 then 1 else 2 * Pow2(k - 1)
  }

  lemma {:induction false} Pow2Add(j: nat, k: nat)
    ensures Pow2(j + k) == Pow2(j) * Pow2(k) && Pow2(j) > 0
  {
    if j > 0 {
      Pow2Add(j - 1, k);
      assert Pow2(j + k) == 2 * (Pow2(j - 1) * Pow2(k)) == (2 * Pow2(j - 1)) * Pow2(k);
    } else {
      assert Pow2(0) * Pow2(k) == Pow2(k);
    }
  }

  lemma Pow2Values()
    ensures Pow2(16) == TWO_16 && Pow2(64) == TWO_64
  {
    assert Pow2(8) == 256;
    Pow2Add(8, 8);
    Pow2Add(16, 16);
    Pow2Add(32, 32);
  }

  /** A step that is a power of two up to 2^48 gives the right sign, but rounds away
      from zero: the request is the number of steps rounded up, exactly when that fits. */
  lemma ShrinkByPowerOfTwo(outRate: nat, inRate: nat, variation: nat, k: nat)
    requires k <= 48 && outRate > inRate && Beyond(outRate, inRate, variation) > 0
    requires Pow2(k) > 0
    ensures var d := Beyond(outRate, inRate, variation);
            (NodeVar(outRate, inRate, variation, Pow2(k)) == 0 - Ceil(d, Pow2(k)) <==> Ceil(d, Pow2(k)) <= 0x8000)
  {
    QuotientOfPower(k);
    ShrinkExact(outRate, inRate, variation, Pow2(k));
  }

  /** With such a step shrinking mirrors growing exactly when the difference is a
      multiple of the step and the quotient fits. */
  lemma ShrinkAsSignedByPowerOfTwo(outRate: nat, inRate: nat, variation: nat, k: nat)
    requires k <= 48 && outRate > inRate && Beyond(outRate, inRate, variation) > 0
    requires Pow2(k) > 0
    ensures var d := Beyond(outRate, inRate, variation);
            (NodeVar(outRate, inRate, variation, Pow2(k)) == 0 - d / Pow2(k)
             <==> d % Pow2(k) == 0 && d / Pow2(k) <= 0x8000)
  {
    QuotientOfPower(k);
    ShrinkAsSigned(outRate, inRate, variation, Pow2(k));
  }

  lemma QuotientOfPower(k: nat)
    requires k <= 48 && Pow2(k) > 0
    ensures TWO_64 / Pow2(k) == Pow2(64 - k) && TWO_64 % Pow2(k) == 0 && Pow2(64 - k) % TWO_16 == 0
  {
    Pow2Values();
    Pow2Add(64 - k, k);
    Pow2Add(48 - k, 16);
    DivUnique(TWO_64, Pow2(64 - k), 0, Pow2(k));
    DivUnique(Pow2(64 - k), Pow2(48 - k), 0, TWO_16);
  }

  const DEFAULT_STEP: nat := 5

  /** With the default step every shrink request is off: 13107 is added to it, so it
      asks for more nodes, not fewer, for every difference up to 65531. */
  lemma ShrinkByDefaultStep(outRate: nat, inRate: nat, variation: nat)
    requires outRate > inRate && Beyond(outRate, inRate, variation) > 0
    ensures var d := Beyond(outRate, inRate, variation);
            && NodeVar(outRate, inRate, variation, DEFAULT_STEP) == ToInt16(13107 - Ceil(d - 1, DEFAULT_STEP))
            && (d <= 65531 ==> NodeVar(outRate, inRate, variation, DEFAULT_STEP) > 0)
            && NodeVar(outRate, inRate, variation, DEFAULT_STEP) != 0 - Ceil(d, DEFAULT_STEP)
            && NodeVar(outRate, inRate, variation, DEFAULT_STEP) != 0 - d / DEFAULT_STEP
  {
    var d := Beyond(outRate, inRate, variation);
    ShrinkValue(outRate, inRate, variation, DEFAULT_STEP);
    ShrinkAsSigned(outRate, inRate, variation, DEFAULT_STEP);
    ShrinkExact(outRate, inRate, variation, DEFAULT_STEP);
    var q := 3689348814741910323;
    assert TWO_64 - 1 == q * 5;
    var c := Ceil(d - 1, 5);
    assert (TWO_64 - d) / 5 == q - c;
    assert q == 56295300517302 * TWO_16 + 51 + (q - 56295300517302 * TWO_16 - 51);
    assert q % TWO_16 == 13107;
    SameInt16(q - c, 13107 - c, q / TWO_16);
  }

  lemma SameInt16(x: int, y: int, k: int)
    requires x == y + k * TWO_16
    ensures ToInt16(x) == ToInt16(y)
  {
  }
}

/** The regulator's server object. */
module RegulatorServer {
  import opened RegulatorArithmetic

  type JobId = j: int | 0 <= j < 0x1_0000

  type Rate = r: nat | r < 0x1_0000_0000

  function RateOf(rates: map<JobId, Rate>, job: JobId): nat {
    if job in rates then rates[job] else 0
  }

  /** The jobs for which one undisturbed pass asks for a change. */
  predicate Asks(inRates: map<JobId, Rate>, outRates: map<JobId, Rate>, variation: nat, job: JobId) {
    job in inRates && Fires(RateOf(outRates, job), inRates[job], variation)
  }

  /** What an undisturbed pass asks for, in the rates alone. */
  lemma AsksMeans(inRates: map<JobId, Rate>, outRates: map<JobId, Rate>, variation: nat, job: JobId)
    ensures var i := if job in inRates then inRates[job] else 0;
            var o := if job in outRates then outRates[job] else 0;
            var g := if o < i then i - o else o - i;
            Asks(inRates, outRates, variation, job) <==>
            i != 0 && o != 0 && g != 0x8000_0000 && (if g < 0x8000_0000 then g else 0x1_0000_0000 - g) >= variation
  {
    FiresMeans(RateOf(outRates, job), RateOf(inRates, job), variation);
  }

  /** A change of `nodes` nodes asked of the job manager for `job`. */
  datatype Request = Request(job: JobId, nodes: int)

  class Server {
    var inRates: map<JobId, Rate>
    var outRates: map<JobId, Rate>
    var requests: seq<Request>    // the calls made to the job manager
    const variation: nat
    const step: nat

    constructor (variation: nat, step: nat)
      ensures inRates == map[] && outRates == map[] && requests == []
      ensures this.variation == variation && this.step == step
    {
      inRates, outRates, requests := map[], map[], [];
      this.variation, this.step := variation, step;
    }

    method RegisterJob(job: JobId)
      modifies this
      ensures inRates == old(inRates)[job := 0] && outRates == old(outRates)[job := 0] && requests == old(requests)
    {
      inRates := inRates[job := 0];
      outRates := outRates[job := 0];
    }

    method FinalizeJob(job: JobId)
      modifies this
      ensures inRates == old(inRates)[job := 0] && outRates == old(outRates)[job := 0] && requests == old(requests)
    {
      inRates := inRates[job := 0];
      outRates := outRates[job := 0];
    }

    method SetInRate(job: JobId, rate: Rate)
      modifies this`inRates
      ensures inRates == old(inRates)[job := rate]
    {
      inRates := inRates[job := rate];
    }

    method SetOutRate(job: JobId, rate: Rate)
      modifies this`outRates
      ensures outRates == old(outRates)[job := rate]
    {
      outRates := outRates[job := rate];
    }

    method AlterNodes(job: JobId, outRate: nat, inRate: nat)
      requires step > 0
      modifies this`requests
      ensures requests == old(requests) + [Request(job, NodeVar(outRate, inRate, variation, step))]
    {
      requests := requests + [Request(job, NodeVar(outRate, inRate, variation, step))];
    }

    /** One pass: exactly one request for each job that asks, none for any other; no
        rate changes, and jobs without an out rate get the rate 0. */
    method CalculateRate()
      requires step > 0
      modifies this
      ensures inRates == old(inRates)
      ensures outRates == (map j | j in old(inRates) :: 0) + old(outRates)
      ensures old(requests) <= requests
      ensures forall j, n ::
                j !in old(inRates) || old(inRates)[j] == 0 || j !in old(outRates) || old(outRates)[j] == 0 ==>
                multiset(requests[|old(requests)|..])[Request(j, n)] == 0
      ensures forall j, n ::
                j in old(inRates) && old(inRates)[j] != 0 && j in old(outRates) && old(outRates)[j] != 0 ==>
                var i, o := old(inRates)[j], old(outRates)[j];
                var g := if o < i then i - o else o - i;
                g < 0x8000_0000 ==>
                  multiset(requests[|old(requests)|..])[Request(j, n)]
                  == if g >= variation && n == NodeVar(o, i, variation, step) then 1 else 0
      ensures forall j, n :: multiset(requests[|old(requests)|..])[Request(j, n)]
                == if Asks(old(inRates), old(outRates), variation, j) &&
                      n == NodeVar(RateOf(old(outRates), j), RateOf(old(inRates), j), variation, step) then 1 else 0
    {
      var todo := inRates.Keys;
      ghost var done: set<JobId> := {};
      ghost var made: seq<Request> := [];
      while todo != {}
        invariant todo !! done && todo + done == old(inRates).Keys
        invariant inRates == old(inRates)
        invariant outRates == (map j | j in done :: 0) + old(outRates)
        invariant requests == old(requests) + made
        invariant forall j, n :: multiset(made)[Request(j, n)]
                    == if j in done && Asks(old(inRates), old(outRates), variation, j) &&
                          n == NodeVar(RateOf(old(outRates), j), RateOf(old(inRates), j), variation, step) then 1 else 0
        decreases todo
      {
        var job :| job in todo;
        todo, done := todo - {job}, done + {job};
        var inRate := inRates[job];
        if job !in outRates {
          outRates := outRates[job := 0];
        }
        var outRate := outRates[job];
        if inRate == 0 || outRate == 0 { continue; }
        if Spread(outRate, inRate) >= variation {
          AlterNodes(job, outRate, inRate);
          made := made + [Request(job, NodeVar(outRate, inRate, variation, step))];
        }
      }
      assert requests[|old(requests)|..] == made;
      forall j { AsksMeans(old(inRates), old(outRates), variation, j); }
    }
  }
}

/** The decision loop against concurrent rate updates: each read and each map write
    is a step of its own. */
module RegulatorRuns {
  import opened RegulatorArithmetic
  import opened RegulatorServer

  datatype Pc =
    | Resting
    | Scanning(todo: seq<JobId>)
    | GotIn(job: JobId, inRate: nat, todo: seq<JobId>)
    | GotBoth(job: JobId, inRate: nat, outRate: nat, todo: seq<JobId>)

  datatype State = State(inRates: map<JobId, Rate>, outRates: map<JobId, Rate>, pc: Pc)

  /** RegisterJob and FinalizeJob are WriteIn(job, 0) followed by WriteOut(job, 0),
      the setters one write each. */
  datatype Label =
    | WriteIn(job: JobId, rate: Rate) | WriteOut(job: JobId, rate: Rate)
    | Snapshot(order: seq<JobId>) | ReadIn | ReadOut | Decide | EndPass

  predicate Enabled(s: State, l: Label) {
    match l
    case WriteIn(_, _) => true
    case WriteOut(_, _) => true
    case Snapshot(order) => s.pc.Resting? && (set j | j in order) == s.inRates.Keys
    case ReadIn => s.pc.Scanning? && s.pc.todo != []
    case ReadOut => s.pc.GotIn?
    case Decide => s.pc.GotBoth?
    case EndPass => s.pc.Scanning? && s.pc.todo == []
  }

  /** Reading a rate of an unknown job adds it with rate 0. */
  function Touched(rates: map<JobId, Rate>, job: JobId): map<JobId, Rate> {
    if job in rates then rates else rates[job := 0]
  }

  function Next(s: State, l: Label): State
    requires Enabled(s, l)
  {
    match l
    case WriteIn(job, rate) => s.(inRates := s.inRates[job := rate])
    case WriteOut(job, rate) => s.(outRates := s.outRates[job := rate])
    case Snapshot(order) => s.(pc := Scanning(order))
    case ReadIn =>
      var job := s.pc.todo[0];
      s.(inRates := Touched(s.inRates, job), pc := GotIn(job, RateOf(s.inRates, job), s.pc.todo[1..]))
    case ReadOut =>
      s.(outRates := Touched(s.outRates, s.pc.job),
         pc := GotBoth(s.pc.job, s.pc.inRate, RateOf(s.outRates, s.pc.job), s.pc.todo))
    case Decide => s.(pc := Scanning(s.pc.todo))
    case EndPass => s.(pc := Resting)
  }

  /** The step is a request for `job`. */
  predicate Requests(s: State, l: Label, variation: nat, job: JobId) {
    l.Decide? && s.pc.GotBoth? && s.pc.job == job && Fires(s.pc.outRate, s.pc.inRate, variation)
  }

  ghost predicate Run(s: State, ls: seq<Label>, t: State)
    decreases |ls|
  {
    if ls == [] then s == t else Enabled(s, ls[0]) && Run(Next(s, ls[0]), ls[1..], t)
  }

  /** The number of requests for `job` along a run. */
  function RequestCount(s: State, ls: seq<Label>, variation: nat, job: JobId): nat
    decreases |ls|
  {
    if ls == [] || !Enabled(s, ls[0]) then 0
    else (if Requests(s, ls[0], variation, job) then 1 else 0) + RequestCount(Next(s, ls[0]), ls[1..], variation, job)
  }

  /** No client gives the job an out rate other than 0. */
  predicate NoOut(ls: seq<Label>, job: JobId) {
    forall l :: l in ls && l.WriteOut? && l.job == job ==> l.rate == 0
  }

  /** No client gives the job an in rate other than 0. */
  predicate NoIn(ls: seq<Label>, job: JobId) {
    forall l :: l in ls && l.WriteIn? && l.job == job ==> l.rate == 0
  }

  /** 1 if the loop already holds both rates of the job and they call for a change. */
  function InFlight(s: State, variation: nat, job: JobId): nat {
    if s.pc.GotBoth? && s.pc.job == job && Fires(s.pc.outRate, s.pc.inRate, variation) then 1 else 0
  }

  /** A job whose out rate is 0 and stays so gets no request but the one already
      decided, whatever in rates are set. */
  lemma {:induction false} QuietJob(s: State, ls: seq<Label>, t: State, variation: nat, job: JobId)
    requires Run(s, ls, t) && RateOf(s.outRates, job) == 0 && NoOut(ls, job)
    ensures RateOf(t.outRates, job) == 0
    ensures RequestCount(s, ls, variation, job) + InFlight(t, variation, job) <= InFlight(s, variation, job)
    decreases |ls|
  {
    if ls != [] {
      var l, u := ls[0], Next(s, ls[0]);
      assert l in ls;
      assert RateOf(u.outRates, job) == 0;
      assert InFlight(u, variation, job) + (if Requests(s, l, variation, job) then 1 else 0)
             <= InFlight(s, variation, job);
      assert NoOut(ls[1..], job);
      QuietJob(u, ls[1..], t, variation, job);
    }
  }

  lemma {:induction false} InStaysZero(s: State, ls: seq<Label>, t: State, job: JobId)
    requires Run(s, ls, t) && RateOf(s.inRates, job) == 0 && NoIn(ls, job)
    ensures RateOf(t.inRates, job) == 0
    decreases |ls|
  {
    if ls != [] {
      assert ls[0] in ls;
      assert NoIn(ls[1..], job);
      InStaysZero(Next(s, ls[0]), ls[1..], t, job);
    }
  }

  /** After FinalizeJob, whose two writes may be far apart with any calls for the job
      between them, and without a later out rate for the job, at most one more request
      is made for it, and only if the loop had read both rates before the second
      write.  Without an in rate since the first write, both rates are 0 in the end. */
  lemma FinalizedJobGoesQuiet(s: State, job: JobId, mid: seq<Label>, u: State, ls: seq<Label>, t: State, variation: nat)
    requires Run(Next(s, WriteIn(job, 0)), mid, u)
    requires Run(Next(u, WriteOut(job, 0)), ls, t) && NoOut(ls, job)
    ensures RequestCount(Next(u, WriteOut(job, 0)), ls, variation, job) <= InFlight(u, variation, job) <= 1
    ensures RateOf(t.outRates, job) == 0
    ensures NoIn(mid, job) && NoIn(ls, job) ==> RateOf(t.inRates, job) == 0
  {
    QuietJob(Next(u, WriteOut(job, 0)), ls, t, variation, job);
    if NoIn(mid, job) && NoIn(ls, job) {
      InStaysZero(Next(s, WriteIn(job, 0)), mid, u, job);
      InStaysZero(Next(u, WriteOut(job, 0)), ls, t, job);
    }
  }

  predicate TodoKnown(s: State) {
    s.pc.Resting? || forall j :: j in s.pc.todo ==> j in s.inRates
  }

  /** 1 if the loop holds a nonzero in rate of the job that may yet call for a change. */
  function InHand(s: State, variation: nat, job: JobId): nat {
    match s.pc
    case GotIn(j, i, _) => if j == job && i != 0 then 1 else 0
    case GotBoth(j, i, o, _) => if j == job && Fires(o, i, variation) then 1 else 0
    case _ => 0
  }

  /** A job whose in rate is 0 and stays so gets no request but one for which the loop
      has already read a nonzero in rate, whatever out rates are set. */
  lemma {:induction false} QuietInJob(s: State, ls: seq<Label>, t: State, variation: nat, job: JobId)
    requires Run(s, ls, t) && RateOf(s.inRates, job) == 0 && NoIn(ls, job)
    ensures RateOf(t.inRates, job) == 0
    ensures RequestCount(s, ls, variation, job) + InHand(t, variation, job) <= InHand(s, variation, job)
    decreases |ls|
  {
    if ls != [] {
      var l, u := ls[0], Next(s, ls[0]);
      assert l in ls;
      assert RateOf(u.inRates, job) == 0;
      assert InHand(u, variation, job) + (if Requests(s, l, variation, job) then 1 else 0) <= InHand(s, variation, job);
      assert NoIn(ls[1..], job);
      QuietInJob(u, ls[1..], t, variation, job);
    }
  }

  /** No job of a snapshot is ever missing when the loop gets to it, so the loop adds
      no job to the in rates; and every job keeps its entries. */
  lemma {:induction false} SnapshotStaysKnown(s: State, ls: seq<Label>, t: State)
    requires Run(s, ls, t) && TodoKnown(s)
    ensures TodoKnown(t) && s.inRates.Keys <= t.inRates.Keys && s.outRates.Keys <= t.outRates.Keys
    ensures (forall l :: l in ls ==> !l.WriteIn?) ==> t.inRates == s.inRates
    decreases |ls|
  {
    if ls != [] {
      var u := Next(s, ls[0]);
      assert TodoKnown(u);
      assert ls[0] in ls;
      SnapshotStaysKnown(u, ls[1..], t);
    }
  }

  // ---------- an undisturbed pass ----------

  predicate Distinct(js: seq<JobId>) {
    forall i, k :: 0 <= i < k < |js| ==> js[i] != js[k]
  }

  function One(b: bool): nat {
    if b then 1 else 0
  }

  /** The requests for `job` that the rest of the pass will make if no one interferes. */
  function Expected(s: State, variation: nat, job: JobId): nat {
    var asks := Asks(s.inRates, s.outRates, variation, job);
    match s.pc
    case Resting => 0
    case Scanning(todo) => One(job in todo && asks)
    case GotIn(j, i, todo) => One(j == job && Fires(RateOf(s.outRates, job), i, variation)) + One(job in todo && asks)
    case GotBoth(j, i, o, todo) => One(j == job && Fires(o, i, variation)) + One(job in todo && asks)
  }

  /** The jobs to come are known and different, and differ from the one in hand. */
  predicate PassOk(s: State) {
    match s.pc
    case Resting => true
    case Scanning(todo) => Distinct(todo) && TodoKnown(s)
    case GotIn(j, _, todo) => Distinct([j] + todo) && TodoKnown(s)
    case GotBoth(j, _, _, todo) => Distinct([j] + todo) && TodoKnown(s)
  }

  predicate LoopStep(l: Label) {
    l.ReadIn? || l.ReadOut? || l.Decide? || l.EndPass?
  }

  lemma PassStep(s: State, l: Label, variation: nat, job: JobId)
    requires PassOk(s) && LoopStep(l) && Enabled(s, l)
    ensures PassOk(Next(s, l))
    ensures One(Requests(s, l, variation, job)) + Expected(Next(s, l), variation, job) == Expected(s, variation, job)
  {
    if l.ReadIn? {
      assert s.pc.todo == [s.pc.todo[0]] + s.pc.todo[1..];
    } else if l.Decide? {
      assert s.pc.todo == ([s.pc.job] + s.pc.todo)[1..];
    }
  }

  lemma {:induction false} PassRun(s: State, ls: seq<Label>, t: State, variation: nat, job: JobId)
    requires PassOk(s) && Run(s, ls, t) && forall l :: l in ls ==> LoopStep(l)
    ensures RequestCount(s, ls, variation, job) + Expected(t, variation, job) == Expected(s, variation, job)
    decreases |ls|
  {
    if ls != [] {
      assert ls[0] in ls;
      PassStep(s, ls[0], variation, job);
      PassRun(Next(s, ls[0]), ls[1..], t, variation, job);
    }
  }

  /** The loop's steps without interference do what CalculateRate does: from the
      snapshot to the end of the pass each job gets exactly one request if its rates
      call for one, and none otherwise. */
  lemma UndisturbedPass(s: State, order: seq<JobId>, ls: seq<Label>, t: State, variation: nat, job: JobId)
    requires Enabled(s, Snapshot(order)) && Distinct(order)
    requires Run(Next(s, Snapshot(order)), ls, t) && (forall l :: l in ls ==> LoopStep(l)) && t.pc.Resting?
    ensures RequestCount(Next(s, Snapshot(order)), ls, variation, job)
         == One(Asks(s.inRates, s.outRates, variation, job))
  {
    var u := Next(s, Snapshot(order));
    assert forall j :: j in order <==> j in s.inRates;
    PassRun(u, ls, t, variation, job);
  }
}
