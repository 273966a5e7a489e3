/** The DHT11 temperature/humidity sensor driver (main/src/dht11.c).

    The data line is given as the sequence of levels the driver's polls see:
    `line[t]` is the level of the poll made after t microsecond delays since
    the start signal released the line.  Past the end of the recorded
    samples the pull-up resistor holds the line high.  The two readings of
    the microsecond clock are inputs. */
module Dht11 {
  import opened Common
  import opened Gpio

  /** Minimum distance between two reads, in microseconds. */
  const READ_INTERVAL_US: int := 2000000
  /** Time-outs passed to `wait_or_timeout`. */
  const RESPONSE_US: u16 := 80
  const BIT_LOW_US: u16 := 50
  const BIT_HIGH_US: u16 := 70
  /** A high phase longer than this many polls is a 1 bit. */
  const ONE_ABOVE: nat := 28
  const DATA_BITS: nat := 40

  /** What `wait_or_timeout` returns: the number of polls that saw the
      awaited level, or the time-out code (a negative constant of dht11.h,
      so it is never above 28). */
  datatype Wait = Ticks(n: nat) | Timeout

  // ---------------------------------------------------------------------
  // The line and the counting wait
  // ---------------------------------------------------------------------

  /** The level seen by the poll at tick t. */
  function LevelAt(line: seq<Level>, t: nat): Level
  {
    if t < |line| then line[t] else High
  }

  /** The length of the run of samples at `level` that starts at tick t,
      counted up to `cap`. */
  function Run(line: seq<Level>, t: nat, level: Level, cap: nat): (r: nat)
    ensures r <= cap
    decreases cap
  {
    if cap == 0 || LevelAt(line, t) != level then 0
    else 1 + Run(line, t + 1, level, cap - 1)
  }

  /** The run is all at `level`, and it ends at the first other level unless
      the cap stopped it. */
  lemma {:induction false} RunMeaning(line: seq<Level>, t: nat, level: Level, cap: nat)
    ensures forall p :: t <= p < t + Run(line, t, level, cap) ==> LevelAt(line, p) == level
    ensures Run(line, t, level, cap) < cap ==> LevelAt(line, t + Run(line, t, level, cap)) != level
    decreases cap
  {
    if cap > 0 && LevelAt(line, t) == level {
      RunMeaning(line, t + 1, level, cap - 1);
    }
  }

  /** The result of `wait_or_timeout(us, level)` started at tick t: it gives
      up at the poll after it has counted us + 1 polls at `level`; otherwise
      it returns how many polls saw `level` before the line left it. */
  function WaitResult(line: seq<Level>, t: nat, us: u16, level: Level): Wait
  {
    var n := Run(line, t, level, us + 2);
    if n <= us + 1 then Ticks(n) else Timeout
  }

  /** The tick of the first poll after a wait with result r. */
  function NextTick(t: nat, us: u16, r: Wait): nat
  {
    match r
    case Ticks(n) => t + n
    case Timeout => t + us + 1
  }

  /** The wait returns n exactly when n <= us + 1 polls saw `level` and the
      next one did not; it times out exactly when us + 2 polls in a row saw
      `level`. */
  lemma WaitMeaning(line: seq<Level>, t: nat, us: u16, level: Level)
    ensures var r := WaitResult(line, t, us, level);
      r.Ticks? ==>
        r.n <= us + 1
        && (forall p :: t <= p < t + r.n ==> LevelAt(line, p) == level)
        && LevelAt(line, t + r.n) != level
    ensures WaitResult(line, t, us, level) == Timeout <==>
      forall p :: t <= p <= t + us + 1 ==> LevelAt(line, p) == level
  {
    RunMeaning(line, t, level, us + 2);
    var n := Run(line, t, level, us + 2);
    if n < us + 2 {
      assert LevelAt(line, t + n) != level;
    }
  }

  /** `wait_or_timeout` (dht11.c:33-42): count the polls that see `level`,
      one microsecond apart, and give up once the count passes `us`. */
  method WaitOrTimeout(line: seq<Level>, t: nat, us: u16, level: Level) returns (r: Wait, next: nat)
    ensures r == WaitResult(line, t, us, level)
    ensures next == NextTick(t, us, r)
  {
    var ticks: nat := 0;
    next := t;
    while LevelAt(line, next) == level
      invariant next == t + ticks && ticks <= us + 1
      invariant Run(line, t, level, us + 2) == ticks + Run(line, next, level, us + 2 - ticks)
      decreases us + 1 - ticks
    {
      if ticks > us {
        return Timeout, next;
      }
      ticks := ticks + 1;
      next := next + 1;
    }
    return Ticks(ticks), next;
  }

  // ---------------------------------------------------------------------
  // Checksum
  // ---------------------------------------------------------------------

  /** The value of a `uint8_t` byte. */
  function ByteValue(x: bv8): (v: nat)
    ensures v < 0x100
  {
    x as int
  }

  /** `check_crc` (dht11.c:44-49): the fifth byte must equal the sum of the
      first four, computed as an `int` (no reduction modulo 256). */
  function CheckCrc(data: seq<bv8>): bool
    requires |data| == 5
  {
    ByteValue(data[4]) == ByteValue(data[0]) + ByteValue(data[1]) + ByteValue(data[2]) + ByteValue(data[3])
  }

  /** The sum of the first four bytes. */
  function Sum4(data: seq<bv8>): nat
    requires |data| == 5
  {
    ByteValue(data[0]) + ByteValue(data[1]) + ByteValue(data[2]) + ByteValue(data[3])
  }

  /** An accepted payload has a sum of at most 255, so the check is the
      datasheet's modulo-256 checksum restricted to sums without carry. */
  lemma CrcAccepts(data: seq<bv8>)
    requires |data| == 5
    ensures CheckCrc(data) <==> Sum4(data) <= 0xFF && Sum4(data) % 0x100 == ByteValue(data[4])
  {
    assert CheckCrc(data) == (ByteValue(data[4]) == Sum4(data));
    SumCheck(Sum4(data), ByteValue(data[4]));
  }

  /** A byte equals a non-negative sum exactly when the sum has no carry
      and agrees with the byte modulo 256. */
  lemma SumCheck(sum: int, byte: int)
    requires 0 <= sum && 0 <= byte < 0x100
    ensures byte == sum <==> sum <= 0xFF && sum % 0x100 == byte
  {
    if sum <= 0xFF {
      assert sum % 0x100 == sum;
    }
  }

  /** A payload whose first four bytes sum above 255 is rejected even when
      the checksum byte matches the sum modulo 256. */
  lemma CrcRejectsCarry()
    ensures var data: seq<bv8> := [200, 0, 100, 0, 44];
      Sum4(data) % 0x100 == ByteValue(data[4]) && !CheckCrc(data)
  { }

  // ---------------------------------------------------------------------
  // Bits and bytes
  // ---------------------------------------------------------------------

  /** The mask of the k-th bit of a byte counted from the most significant. */
  function Mask(k: nat): (m: bv8)
    requires k < 8
  {
    if k == 0 then 0x80 else if k == 1 then 0x40 else if k == 2 then 0x20 else if k == 3 then 0x10
    else if k == 4 then 0x08 else if k == 5 then 0x04 else if k == 6 then 0x02 else 0x01
  }

  /** Bit k of x, counted from the most significant bit. */
  predicate BitMsb(x: bv8, k: nat)
    requires k < 8
  {
    x & Mask(k) != 0
  }

  /** The mask the driver builds, `1 << (7 - k)`, is bit k from the top. */
  lemma ShiftMask(k: nat)
    requires k < 8
    ensures 1 << (7 - k) == Mask(k)
  { }

  /** Setting bit s sets exactly that bit. */
  lemma OrMask(x: bv8, s: nat, k: nat)
    requires s < 8 && k < 8
    ensures BitMsb(x | Mask(s), k) == (k == s || BitMsb(x, k))
  { }

  lemma ByteParts(x: bv8)
    ensures x == (x & 0x80) | (x & 0x40) | (x & 0x20) | (x & 0x10) | (x & 0x08) | (x & 0x04) | (x & 0x02) | (x & 0x01)
  { }

  /** A byte is determined by its eight bits. */
  lemma ByteExt(x: bv8, y: bv8)
    requires forall k | 0 <= k < 8 :: BitMsb(x, k) == BitMsb(y, k)
    ensures x == y
  {
    assert x & 0x80 == y & 0x80 by { assert BitMsb(x, 0) == BitMsb(y, 0); }
    assert x & 0x40 == y & 0x40 by { assert BitMsb(x, 1) == BitMsb(y, 1); }
    assert x & 0x20 == y & 0x20 by { assert BitMsb(x, 2) == BitMsb(y, 2); }
    assert x & 0x10 == y & 0x10 by { assert BitMsb(x, 3) == BitMsb(y, 3); }
    assert x & 0x08 == y & 0x08 by { assert BitMsb(x, 4) == BitMsb(y, 4); }
    assert x & 0x04 == y & 0x04 by { assert BitMsb(x, 5) == BitMsb(y, 5); }
    assert x & 0x02 == y & 0x02 by { assert BitMsb(x, 6) == BitMsb(y, 6); }
    assert x & 0x01 == y & 0x01 by { assert BitMsb(x, 7) == BitMsb(y, 7); }
    ByteParts(x);
    ByteParts(y);
  }

  /** The five data bytes hold `bits` in byte-major, most-significant-first
      order, and every later bit is clear. */
  predicate Packs(data: seq<bv8>, bits: seq<bool>)
    requires |data| == 5
  {
    forall b, k | 0 <= b < 5 && 0 <= k < 8 :: BitMsb(data[b], k) == (8 * b + k < |bits| && bits[8 * b + k])
  }

  /** The byte whose bits, from the top, are b[0..8]. */
  function ByteOf(b: seq<bool>): (x: bv8)
    requires |b| == 8
  {
    (if b[0] then 0x80 else 0) | (if b[1] then 0x40 else 0) | (if b[2] then 0x20 else 0)
    | (if b[3] then 0x10 else 0) | (if b[4] then 0x08 else 0) | (if b[5] then 0x04 else 0)
    | (if b[6] then 0x02 else 0) | (if b[7] then 0x01 else 0)
  }

  lemma ByteOfBit(b: seq<bool>, k: nat)
    requires |b| == 8 && k < 8
    ensures BitMsb(ByteOf(b), k) == b[k]
  { }

  /** The 40 received bits as five bytes. */
  function Pack(bits: seq<bool>): (data: seq<bv8>)
    requires |bits| == DATA_BITS
    ensures |data| == 5
  {
    seq(5, b requires 0 <= b < 5 => ByteOf(bits[8 * b .. 8 * b + 8]))
  }

  /** The 40 bits of five bytes, in the order the sensor sends them. */
  function Unpack(data: seq<bv8>): (bits: seq<bool>)
    requires |data| == 5
    ensures |bits| == DATA_BITS
  {
    seq(DATA_BITS, i requires 0 <= i < DATA_BITS => BitMsb(data[i / 8], i % 8))
  }

  lemma PackPacks(bits: seq<bool>)
    requires |bits| == DATA_BITS
    ensures Packs(Pack(bits), bits)
  {
    forall b, k | 0 <= b < 5 && 0 <= k < 8
      ensures BitMsb(Pack(bits)[b], k) == bits[8 * b + k]
    {
      ByteOfBit(bits[8 * b .. 8 * b + 8], k);
    }
  }

  /** Five bytes are determined by the 40 bits they pack. */
  lemma PacksUnique(data: seq<bv8>, bits: seq<bool>)
    requires |data| == 5 && |bits| == DATA_BITS && Packs(data, bits)
    ensures data == Pack(bits)
  {
    PackPacks(bits);
    forall b | 0 <= b < 5
      ensures data[b] == Pack(bits)[b]
    {
      ByteExt(data[b], Pack(bits)[b]);
    }
  }

  lemma PackUnpack(data: seq<bv8>)
    requires |data| == 5
    ensures Pack(Unpack(data)) == data
  {
    var bits := Unpack(data);
    forall b, k | 0 <= b < 5 && 0 <= k < 8
      ensures BitMsb(data[b], k) == (8 * b + k < |bits| && bits[8 * b + k])
    {
      DivMod8(8 * b + k, b, k);
    }
    PacksUnique(data, bits);
  }

  lemma DivMod8(i: int, b: int, k: int)
    requires 0 <= k < 8 && i == 8 * b + k
    ensures i / 8 == b && i % 8 == k
  { }

  /** One step of the read loop: OR-ing bit `v` of position |bits| into its
      byte keeps the bytes packing the bits read so far. */
  lemma PacksStep(data: seq<bv8>, bits: seq<bool>, v: bool, data': seq<bv8>)
    requires |data| == 5 && |bits| < DATA_BITS && Packs(data, bits)
    requires |data'| == 5
    requires forall b | 0 <= b < 5 && b != |bits| / 8 :: data'[b] == data[b]
    requires data'[|bits| / 8] == if v then data[|bits| / 8] | Mask(|bits| % 8) else data[|bits| / 8]
    ensures Packs(data', bits + [v])
  {
    var i := |bits|;
    forall b, k | 0 <= b < 5 && 0 <= k < 8
      ensures BitMsb(data'[b], k) == (8 * b + k < |bits + [v]| && (bits + [v])[8 * b + k])
    {
      ByteStep(data[b], data'[b], i % 8, k, b == i / 8 && v);
      PacksStepAt(bits, v, b, k, BitMsb(data[b], k), BitMsb(data'[b], k));
    }
  }

  /** A byte that has bit s ORed in when `on`, and is kept otherwise. */
  lemma ByteStep(x: bv8, x': bv8, s: nat, k: nat, on: bool)
    requires s < 8 && k < 8
    requires x' == if on then x | Mask(s) else x
    ensures BitMsb(x', k) == (BitMsb(x, k) || (on && k == s))
  {
    if on {
      OrMask(x, s, k);
    }
  }

  /** PacksStep at bit k of byte b, where `before` and `after` are that bit
      before and after the step. */
  lemma PacksStepAt(bits: seq<bool>, v: bool, b: nat, k: nat, before: bool, after: bool)
    requires |bits| < DATA_BITS && b < 5 && k < 8
    requires before == (8 * b + k < |bits| && bits[8 * b + k])
    requires after == (before || (v && b == |bits| / 8 && k == |bits| % 8))
    ensures after == (8 * b + k < |bits| + 1 && (bits + [v])[8 * b + k])
  {
    var i := |bits|;
    if 8 * b + k == i {
      DivMod8(i, b, k);
    } else if b == i / 8 {
      DivMod8(i, b, i % 8);
    }
  }

  /** The five bytes after the loop has ORed in the bits read so far,
      starting from all zeroes. */
  function PackPrefix(bits: seq<bool>): (data: seq<bv8>)
    requires |bits| <= DATA_BITS
    ensures |data| == 5
    decreases |bits|
  {
    if bits == [] then [0, 0, 0, 0, 0]
    else
      var i := |bits| - 1;
      var data := PackPrefix(bits[..i]);
      if bits[i] then data[i / 8 := data[i / 8] | Mask(i % 8)] else data
  }

  lemma PackPrefixStep(bits: seq<bool>, v: bool)
    requires |bits| < DATA_BITS
    ensures var data := PackPrefix(bits);
      PackPrefix(bits + [v])
        == if v then data[|bits| / 8 := data[|bits| / 8] | Mask(|bits| % 8)] else data
  {
    assert (bits + [v])[..|bits|] == bits;
  }

  /** The OR-ing loop stores each bit at its place and nothing else. */
  lemma {:induction false} PackPrefixPacks(bits: seq<bool>)
    requires |bits| <= DATA_BITS
    ensures Packs(PackPrefix(bits), bits)
    decreases |bits|
  {
    if bits == [] {
      forall b, k | 0 <= b < 5 && 0 <= k < 8
        ensures !BitMsb(PackPrefix(bits)[b], k)
      {
      }
    } else {
      var i := |bits| - 1;
      PackPrefixPacks(bits[..i]);
      PacksStep(PackPrefix(bits[..i]), bits[..i], bits[i], PackPrefix(bits));
      assert bits[..i] + [bits[i]] == bits;
    }
  }

  /** After all 40 bits the loop's bytes are the packed bits. */
  lemma PackPrefixIsPack(bits: seq<bool>)
    requires |bits| == DATA_BITS
    ensures PackPrefix(bits) == Pack(bits)
  {
    PackPrefixPacks(bits);
    PacksUnique(PackPrefix(bits), bits);
  }

  // ---------------------------------------------------------------------
  // Reading a frame
  // ---------------------------------------------------------------------

  /** `check_response` (dht11.c:62-73): the sensor answers with a low phase
      and then a high phase of about 80 µs each.  The tick after both, or
      None when either wait times out. */
  function ResponseEnd(line: seq<Level>): Option<nat>
  {
    var low := WaitResult(line, 0, RESPONSE_US, Low);
    if low == Timeout then None
    else
      var t1 := NextTick(0, RESPONSE_US, low);
      var high := WaitResult(line, t1, RESPONSE_US, High);
      if high == Timeout then None else Some(NextTick(t1, RESPONSE_US, high))
  }

  method CheckResponse(line: seq<Level>) returns (ok: bool, next: nat)
    ensures ok <==> ResponseEnd(line).Some?
    ensures ok ==> next == ResponseEnd(line).value
  {
    var low, t1 := WaitOrTimeout(line, 0, RESPONSE_US, Low);
    if low == Timeout {
      return false, t1;
    }
    var high, t2 := WaitOrTimeout(line, t1, RESPONSE_US, High);
    if high == Timeout {
      return false, t2;
    }
    return true, t2;
  }

  /** A bit is 1 when its high phase counted more than 28 polls; a time-out
      of the high phase reads as 0. */
  predicate IsOne(high: Wait)
  {
    high.Ticks? && high.n > ONE_ABOVE
  }

  /** The tick at which the high phase of the bit starting at t starts. */
  function HighStart(line: seq<Level>, t: nat): nat
  {
    NextTick(t, BIT_LOW_US, WaitResult(line, t, BIT_LOW_US, Low))
  }

  /** The value of the bit whose low phase starts at tick t. */
  predicate BitOf(line: seq<Level>, t: nat)
  {
    IsOne(WaitResult(line, HighStart(line, t), BIT_HIGH_US, High))
  }

  /** The tick after the low and high phases of the bit starting at t. */
  function BitEnd(line: seq<Level>, t: nat): nat
  {
    var t1 := HighStart(line, t);
    NextTick(t1, BIT_HIGH_US, WaitResult(line, t1, BIT_HIGH_US, High))
  }

  function Prepend(v: bool, rest: Option<seq<bool>>): Option<seq<bool>>
  {
    match rest
    case None => None
    case Some(bits) => Some([v] + bits)
  }

  function Join(prefix: seq<bool>, rest: Option<seq<bool>>): Option<seq<bool>>
  {
    match rest
    case None => None
    case Some(bits) => Some(prefix + bits)
  }

  /** The loop of dht11.c:98-108 run for n bits from tick t: each bit is a
      low phase, whose time-out aborts the read, then a high phase whose
      length gives the bit. */
  function DecodeBits(line: seq<Level>, t: nat, n: nat): (r: Option<seq<bool>>)
    ensures r.Some? ==> |r.value| == n
    decreases n
  {
    if n == 0 then Some([])
    else if WaitResult(line, t, BIT_LOW_US, Low) == Timeout then None
    else Prepend(BitOf(line, t), DecodeBits(line, BitEnd(line, t), n - 1))
  }

  lemma DecodeUnfold(line: seq<Level>, t: nat, n: nat)
    requires n > 0 && WaitResult(line, t, BIT_LOW_US, Low) != Timeout
    ensures DecodeBits(line, t, n) == Prepend(BitOf(line, t), DecodeBits(line, BitEnd(line, t), n - 1))
  { }

  /** The read loop's invariant: reading 40 bits from tick t gives `bits`
      followed by whatever the remaining `rem` bits from tick `next` give. */
  predicate Consumed(line: seq<Level>, t: nat, bits: seq<bool>, next: nat, rem: nat)
  {
    DecodeBits(line, t, DATA_BITS) == Join(bits, DecodeBits(line, next, rem))
  }

  /** A low-phase time-out inside the loop makes the whole read fail. */
  lemma LoopTimeout(line: seq<Level>, t: nat, bits: seq<bool>, next: nat, rem: nat)
    requires rem > 0 && WaitResult(line, next, BIT_LOW_US, Low) == Timeout
    requires Consumed(line, t, bits, next, rem)
    ensures DecodeBits(line, t, DATA_BITS) == None
  { }

  /** Starting and finishing the read loop. */
  lemma LoopBounds(line: seq<Level>, t: nat, bits: seq<bool>, next: nat)
    ensures Consumed(line, t, [], t, DATA_BITS)
    ensures Consumed(line, t, bits, next, 0) ==> DecodeBits(line, t, DATA_BITS) == Some(bits)
  {
    if DecodeBits(line, t, DATA_BITS).Some? {
      assert [] + DecodeBits(line, t, DATA_BITS).value == DecodeBits(line, t, DATA_BITS).value;
    }
    assert bits + [] == bits;
  }

  /** The read loop's invariant is kept by reading one more bit. */
  lemma LoopStep(line: seq<Level>, t: nat, bits: seq<bool>, next: nat, rem: nat, one: bool, next': nat)
    requires rem > 0 && WaitResult(line, next, BIT_LOW_US, Low) != Timeout
    requires one == BitOf(line, next) && next' == BitEnd(line, next)
    requires Consumed(line, t, bits, next, rem)
    ensures Consumed(line, t, bits + [one], next', rem - 1)
  {
    DecodeUnfold(line, next, rem);
    JoinPrepend(bits, one, DecodeBits(line, next', rem - 1));
  }

  /** What `read_dht11` accepts from the line once past the rate limit: the
      five data bytes when the response, all 40 low phases and the checksum
      are good, and None otherwise. */
  function ReadOutcome(line: seq<Level>): (r: Option<seq<bv8>>)
    ensures r.Some? ==> |r.value| == 5 && CheckCrc(r.value)
  {
    match ResponseEnd(line)
    case None => None
    case Some(t) =>
      match DecodeBits(line, t, DATA_BITS)
      case None => None
      case Some(bits) => if CheckCrc(Pack(bits)) then Some(Pack(bits)) else None
  }

  lemma ReadOutcomeOf(line: seq<Level>, t: nat, bits: seq<bool>)
    requires ResponseEnd(line) == Some(t) && DecodeBits(line, t, DATA_BITS) == Some(bits)
    ensures |bits| == DATA_BITS
    ensures ReadOutcome(line) == if CheckCrc(Pack(bits)) then Some(Pack(bits)) else None
  { }

  lemma JoinPrepend(prefix: seq<bool>, v: bool, rest: Option<seq<bool>>)
    ensures Join(prefix, Prepend(v, rest)) == Join(prefix + [v], rest)
  {
    if rest.Some? {
      assert prefix + ([v] + rest.value) == (prefix + [v]) + rest.value;
    }
  }

  /** A time-out in any bit's low phase aborts the whole read. */
  lemma {:induction false} LowTimeoutAborts(line: seq<Level>, t: nat, n: nat, k: nat)
    requires k < n
    requires DecodeBits(line, t, k).Some?
    requires WaitResult(line, BitStart(line, t, k), BIT_LOW_US, Low) == Timeout
    ensures DecodeBits(line, t, n) == None
    decreases k
  {
    if k > 0 {
      LowTimeoutAborts(line, BitEnd(line, t), n - 1, k - 1);
    }
  }

  /** The tick at which bit k's low phase starts, reading from tick t. */
  function BitStart(line: seq<Level>, t: nat, k: nat): nat
    decreases k
  {
    if k == 0 then t else BitStart(line, BitEnd(line, t), k - 1)
  }

  // ---------------------------------------------------------------------
  // The sensor's side: a frame built from phase lengths
  // ---------------------------------------------------------------------

  function Phase(level: Level, n: nat): (s: seq<Level>)
    ensures |s| == n
  {
    seq(n, _ => level)
  }

  /** The bits as the sensor sends them: each one a low phase of `low`
      polls, then a high phase of `zero` or `one` polls. */
  function BitsLine(bits: seq<bool>, low: nat, zero: nat, one: nat): seq<Level>
    decreases |bits|
  {
    if bits == [] then []
    else Phase(Low, low) + Phase(High, if bits[0] then one else zero) + BitsLine(bits[1..], low, zero, one)
  }

  /** The sensor's whole answer to a start signal: the response phases, the
      40 data bits of `data`, and a final low phase before it lets go. */
  function SensorLine(data: seq<bv8>, respLow: nat, respHigh: nat, low: nat, zero: nat, one: nat): seq<Level>
    requires |data| == 5
  {
    Phase(Low, respLow) + Phase(High, respHigh) + BitsLine(Unpack(data), low, zero, one) + Phase(Low, low)
  }

  lemma {:induction false} RunShift(a: seq<Level>, b: seq<Level>, t: nat, level: Level, cap: nat)
    ensures Run(a + b, |a| + t, level, cap) == Run(b, t, level, cap)
    decreases cap
  {
    assert LevelAt(a + b, |a| + t) == LevelAt(b, t);
    if cap > 0 {
      RunShift(a, b, t + 1, level, cap - 1);
    }
  }

  lemma WaitShift(a: seq<Level>, b: seq<Level>, t: nat, us: u16, level: Level)
    ensures WaitResult(a + b, |a| + t, us, level) == WaitResult(b, t, us, level)
  {
    RunShift(a, b, t, level, us + 2);
  }

  /** Reading a line with a prefix in front, from the end of that prefix, is
      reading the rest. */
  lemma {:induction false} DecodeShift(a: seq<Level>, b: seq<Level>, t: nat, n: nat)
    ensures DecodeBits(a + b, |a| + t, n) == DecodeBits(b, t, n)
    decreases n
  {
    if n > 0 {
      WaitShift(a, b, t, BIT_LOW_US, Low);
      assert HighStart(a + b, |a| + t) == |a| + HighStart(b, t);
      WaitShift(a, b, HighStart(b, t), BIT_HIGH_US, High);
      assert BitEnd(a + b, |a| + t) == |a| + BitEnd(b, t);
      DecodeShift(a, b, BitEnd(b, t), n - 1);
    }
  }

  lemma DecodeAfter(a: seq<Level>, b: seq<Level>, n: nat)
    ensures DecodeBits(a + b, |a|, n) == DecodeBits(b, 0, n)
  {
    DecodeShift(a, b, 0, n);
  }

  /** A phase of n polls at `level`, followed by a different level, is
      counted as n polls when n is within the wait's budget. */
  lemma WaitPhase(line: seq<Level>, n: nat, us: u16, level: Level)
    requires n <= us + 1 && n <= |line|
    requires forall p | 0 <= p < n :: line[p] == level
    requires LevelAt(line, n) != level
    ensures WaitResult(line, 0, us, level) == Ticks(n)
  {
    RunMeaning(line, 0, level, us + 2);
  }

  lemma WaitOnPhase(n: nat, rest: seq<Level>, us: u16, level: Level)
    requires n <= us + 1
    requires LevelAt(rest, 0) != level
    ensures WaitResult(Phase(level, n) + rest, 0, us, level) == Ticks(n)
  {
    var line := Phase(level, n) + rest;
    assert LevelAt(line, n) == LevelAt(rest, 0);
    WaitPhase(line, n, us, level);
  }

  /** One bit as the sensor sends it: a low phase of `low` polls and a high
      phase of h polls, followed by a line that starts low. */
  lemma BitStep(line: seq<Level>, low: nat, h: nat, tail: seq<Level>, n: nat)
    requires 1 <= low <= BIT_LOW_US as int + 1 && 1 <= h <= BIT_HIGH_US as int + 1
    requires LevelAt(tail, 0) == Low && n > 0
    requires line == Phase(Low, low) + (Phase(High, h) + tail)
    ensures DecodeBits(line, 0, n) == Prepend(h > ONE_ABOVE, DecodeBits(tail, 0, n - 1))
  {
    var afterLow := Phase(High, h) + tail;
    assert LevelAt(afterLow, 0) == High;
    WaitOnPhase(low, afterLow, BIT_LOW_US, Low);
    assert HighStart(line, 0) == low;
    WaitOnPhase(h, tail, BIT_HIGH_US, High);
    WaitShift(Phase(Low, low), afterLow, 0, BIT_HIGH_US, High);
    assert BitOf(line, 0) == (h > ONE_ABOVE) && BitEnd(line, 0) == low + h;
    var head := Phase(Low, low) + Phase(High, h);
    assert line == head + tail && |head| == low + h;
    DecodeAfter(head, tail, n - 1);
    DecodeUnfold(line, 0, n);
  }

  /** The response as the sensor sends it: low for respLow polls, high for
      respHigh polls, then a line that starts low. */
  lemma ResponseStep(line: seq<Level>, respLow: nat, respHigh: nat, frame: seq<Level>)
    requires 1 <= respLow <= RESPONSE_US as int + 1 && 1 <= respHigh <= RESPONSE_US as int + 1
    requires LevelAt(frame, 0) == Low
    requires line == Phase(Low, respLow) + (Phase(High, respHigh) + frame)
    ensures ResponseEnd(line) == Some(respLow + respHigh)
  {
    var afterLow := Phase(High, respHigh) + frame;
    assert LevelAt(afterLow, 0) == High;
    WaitOnPhase(respLow, afterLow, RESPONSE_US, Low);
    WaitOnPhase(respHigh, frame, RESPONSE_US, High);
    WaitShift(Phase(Low, respLow), afterLow, 0, RESPONSE_US, High);
  }

  lemma BitsLineStartsLow(bits: seq<bool>, low: nat, zero: nat, one: nat, rest: seq<Level>)
    requires low >= 1 && LevelAt(rest, 0) == Low
    ensures LevelAt(BitsLine(bits, low, zero, one) + rest, 0) == Low
  {
    if bits != [] {
      assert (BitsLine(bits, low, zero, one) + rest)[0] == Phase(Low, low)[0];
    }
  }

  /** The sensor's bits, followed by any line that starts low, decode to
      exactly those bits when every low phase fits in 51 polls, every 0 has
      at most 28 high polls and every 1 has between 29 and 71. */
  lemma {:induction false} DecodeBitsLine(bits: seq<bool>, low: nat, zero: nat, one: nat, rest: seq<Level>)
    requires 1 <= low <= BIT_LOW_US as int + 1
    requires 1 <= zero <= ONE_ABOVE && ONE_ABOVE < one <= BIT_HIGH_US as int + 1
    requires LevelAt(rest, 0) == Low
    ensures DecodeBits(BitsLine(bits, low, zero, one) + rest, 0, |bits|) == Some(bits)
    decreases |bits|
  {
    if bits != [] {
      var h := if bits[0] then one else zero;
      var tail := BitsLine(bits[1..], low, zero, one) + rest;
      BitsLineStartsLow(bits[1..], low, zero, one, rest);
      assert BitsLine(bits, low, zero, one) + rest == Phase(Low, low) + (Phase(High, h) + tail);
      BitStep(BitsLine(bits, low, zero, one) + rest, low, h, tail, |bits|);
      DecodeBitsLine(bits[1..], low, zero, one, rest);
      assert [bits[0]] + bits[1..] == bits;
    }
  }

  /** Round trip: whatever five bytes the sensor sends, with phase lengths
      inside the driver's windows, `read_dht11` accepts exactly those bytes
      when their checksum holds and rejects them otherwise. */
  lemma SensorRoundTrip(data: seq<bv8>, respLow: nat, respHigh: nat, low: nat, zero: nat, one: nat)
    requires |data| == 5
    requires 1 <= respLow <= RESPONSE_US as int + 1 && 1 <= respHigh <= RESPONSE_US as int + 1
    requires 1 <= low <= BIT_LOW_US as int + 1
    requires 1 <= zero <= ONE_ABOVE && ONE_ABOVE < one <= BIT_HIGH_US as int + 1
    ensures ReadOutcome(SensorLine(data, respLow, respHigh, low, zero, one))
      == if CheckCrc(data) then Some(data) else None
  {
    var bits := Unpack(data);
    var frame := BitsLine(bits, low, zero, one) + Phase(Low, low);
    var line := SensorLine(data, respLow, respHigh, low, zero, one);
    var head := Phase(Low, respLow) + Phase(High, respHigh);
    assert line == head + frame;
    assert ResponseEnd(line) == Some(|head|) by {
      assert LevelAt(Phase(Low, low), 0) == Low;
      BitsLineStartsLow(bits, low, zero, one, Phase(Low, low));
      assert line == Phase(Low, respLow) + (Phase(High, respHigh) + frame);
      ResponseStep(line, respLow, respHigh, frame);
    }
    DecodeAfter(head, frame, DATA_BITS);
    DecodeBitsLine(bits, low, zero, one, Phase(Low, low));
    assert DecodeBits(line, |head|, DATA_BITS) == Some(bits);
    PackUnpack(data);
    ReadOutcomeOf(line, |head|, bits);
  }

  /** Storing bit i of the frame (dht11.c:103-107): a 1 is ORed into
      `data[i/8]` as `1 << (7 - i%8)`, a 0 leaves the bytes alone.  `bits`
      are the bits stored before. */
  method StoreBit(data: array<bv8>, i: nat, one: bool, ghost bits: seq<bool>)
    requires data.Length == 5 && i == |bits| < DATA_BITS && data[..] == PackPrefix(bits)
    modifies data
    ensures data[..] == PackPrefix(bits + [one])
  {
    PackPrefixStep(bits, one);
    if one {
      var m: bv8 := 1 << (7 - i % 8);
      ShiftMask(i % 8);
      data[i / 8] := data[i / 8] | m;
    }
  }

  /** The two waits of one iteration of the bit loop (dht11.c:101-103),
      from tick t: false on a low-phase time-out, otherwise the bit and the
      tick after its high phase. */
  method ReadBit(line: seq<Level>, t: nat) returns (ok: bool, one: bool, next: nat)
    ensures ok <==> WaitResult(line, t, BIT_LOW_US, Low) != Timeout
    ensures ok ==> one == BitOf(line, t) && next == BitEnd(line, t)
  {
    var low, t1 := WaitOrTimeout(line, t, BIT_LOW_US, Low);
    if low == Timeout {
      return false, false, t1;
    }
    var high, t2 := WaitOrTimeout(line, t1, BIT_HIGH_US, High);
    return true, IsOne(high), t2;
  }

  /** One iteration of the bit loop (dht11.c:99-107), read against the
      loop invariant: a low-phase time-out fails the whole read; otherwise
      the bit is stored in `data` and the invariant holds one bit further. */
  method LoopBit(line: seq<Level>, ghost t: nat, ghost bits: seq<bool>, next: nat, ghost rem: nat,
                 data: array<bv8>, i: nat)
    returns (ok: bool, one: bool, next': nat)
    requires rem > 0 && Consumed(line, t, bits, next, rem)
    requires data.Length == 5 && i == |bits| < DATA_BITS && data[..] == PackPrefix(bits)
    modifies data
    ensures !ok ==> DecodeBits(line, t, DATA_BITS) == None
    ensures ok ==> Consumed(line, t, bits + [one], next', rem - 1)
    ensures ok ==> data[..] == PackPrefix(bits + [one])
  {
    ok, one, next' := ReadBit(line, next);
    if !ok {
      LoopTimeout(line, t, bits, next, rem);
      return;
    }
    LoopStep(line, t, bits, next, rem, one, next');
    StoreBit(data, i, one, bits);
  }

  /** The 40-bit loop of `read_dht11` (dht11.c:92, 98-108) from tick t:
      the five bytes, each bit ORed into `data[i/8]` at `1 << (7 - i%8)`,
      or None when a low phase timed out. */
  method ReceiveData(line: seq<Level>, t: nat) returns (bytes: Option<seq<bv8>>)
    ensures bytes.None? <==> DecodeBits(line, t, DATA_BITS).None?
    ensures bytes.Some? ==> bytes.value == Pack(DecodeBits(line, t, DATA_BITS).value)
  {
    var data := new bv8[5](_ => 0);
    var next := t;
    ghost var bits: seq<bool> := [];
    ghost var rem: nat := DATA_BITS;
    LoopBounds(line, t, [], t);
    for i := 0 to DATA_BITS
      invariant |bits| == i
      invariant rem == DATA_BITS - i
      invariant Consumed(line, t, bits, next, rem)
      invariant data[..] == PackPrefix(bits)
    {
      var ok, one, t2 := LoopBit(line, t, bits, next, rem, data, i);
      if !ok {
        return None;
      }
      bits := bits + [one];
      next := t2;
      rem := rem - 1;
    }
    LoopBounds(line, t, bits, next);
    PackPrefixIsPack(bits);
    return Some(data[..]);
  }

  // ---------------------------------------------------------------------
  // The device record
  // ---------------------------------------------------------------------

  /** The fields of `dht11_t` that a read updates. */
  datatype Readings = Readings(lastReadTime: int, temperature: int, humidity: int)

  /** `read_dht11` (dht11.c:84-115) on the device's fields: `now` and
      `later` are the two readings of the microsecond clock (lines 88 and
      90), `line` what the polls see after the start signal.  Within 2 s of
      the last attempt nothing changes; otherwise the attempt time is reset
      whatever the outcome, and only an accepted frame sets the integral
      temperature (byte 2) and humidity (byte 0). */
  function AfterRead(r: Readings, now: int, later: int, line: seq<Level>): (r': Readings)
    ensures now - READ_INTERVAL_US < r.lastReadTime ==> r' == r
    ensures now - READ_INTERVAL_US >= r.lastReadTime ==> r'.lastReadTime == later
    ensures ReadOutcome(line).None? ==> r'.temperature == r.temperature && r'.humidity == r.humidity
    ensures now - READ_INTERVAL_US >= r.lastReadTime && ReadOutcome(line).Some? ==>
      r'.temperature == ByteValue(ReadOutcome(line).value[2]) && r'.humidity == ByteValue(ReadOutcome(line).value[0])
    ensures 0 <= r.temperature < 0x100 && 0 <= r.humidity < 0x100 ==>
      0 <= r'.temperature < 0x100 && 0 <= r'.humidity < 0x100
  {
    if now - READ_INTERVAL_US < r.lastReadTime then r
    else
      match ReadOutcome(line)
      case None => r.(lastReadTime := later)
      case Some(data) => Readings(later, ByteValue(data[2]), ByteValue(data[0]))
  }

  /** A time-out of a bit's high phase does not abort the read: the bit
      reads as 0 and the next bit starts 71 polls after the high phase. */
  lemma HighTimeoutReadsZero(line: seq<Level>, t: nat, n: nat)
    requires n > 0 && WaitResult(line, t, BIT_LOW_US, Low) != Timeout
    requires WaitResult(line, HighStart(line, t), BIT_HIGH_US, High) == Timeout
    ensures BitEnd(line, t) == HighStart(line, t) + BIT_HIGH_US as int + 1
    ensures DecodeBits(line, t, n) == Prepend(false, DecodeBits(line, BitEnd(line, t), n - 1))
  {
    DecodeUnfold(line, t, n);
  }

  /** A response that times out leaves the readings as they were and only
      restarts the 2 s window. */
  lemma ResponseTimeoutKeepsReadings(r: Readings, now: int, later: int, line: seq<Level>)
    requires now - READ_INTERVAL_US >= r.lastReadTime && ResponseEnd(line).None?
    ensures AfterRead(r, now, later, line) == r.(lastReadTime := later)
  { }

  /** After an attempt, any read that starts less than 2 s after the clock
      was recorded changes nothing, whatever the line shows. */
  lemma {:induction false} ReadWithinIntervalSkipped(r: Readings, now: int, later: int, line: seq<Level>,
                                                     now2: int, later2: int, line2: seq<Level>)
    requires now - READ_INTERVAL_US >= r.lastReadTime
    requires now2 - READ_INTERVAL_US < later
    ensures var r1 := AfterRead(r, now, later, line);
      AfterRead(r1, now2, later2, line2) == r1
  {
    var r1 := AfterRead(r, now, later, line);
    assert r1.lastReadTime == later;
  }

  /** `dht11_t`: the time of the last read attempt and the last accepted
      readings.  The driver's instance is a zero-initialised global. */
  class Device {
    var lastReadTime: int
    var temperature: int
    var humidity: int

    constructor ()
      ensures State() == Readings(0, 0, 0)
    {
      lastReadTime := 0;
      temperature := 0;
      humidity := 0;
    }

    function State(): Readings
      reads this
    {
      Readings(lastReadTime, temperature, humidity)
    }

    /** `read_dht11` (dht11.c:84-115).  `now` and `later` are the two
        readings of the microsecond clock, `line` what the polls see after
        the start signal. */
    method Read(now: int, later: int, line: seq<Level>)
      modifies this
      ensures State() == AfterRead(old(State()), now, later, line)
    {
      if now - READ_INTERVAL_US < lastReadTime {
        return;
      }
      lastReadTime := later;
      // The start signal drives the pin; the line samples start after it.
      var ok, t := CheckResponse(line);
      if !ok {
        return;
      }
      var bytes := ReceiveData(line, t);
      if bytes.None? {
        return;
      }
      var data := bytes.value;
      if CheckCrc(data) {
        temperature := ByteValue(data[2]);
        humidity := ByteValue(data[0]);
      }
    }
  }
}
