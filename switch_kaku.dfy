/** The KlikAanKlikUit remote-switch transmitter (main/src/switch_kaku.c).

    A switch profile holds the transmitter id, group, device, dim level and
    repeat count, and the on/off state that every transmission toggles. The
    transmission turns an address word into a pulse train on the radio pin:
    a sync pattern, one four-pulse symbol per bit (most significant first) and
    a trailing pulse, repeated `repeat` times. The pin's output is modelled as
    the sequence of (level, microseconds) segments it was driven through. */
module SwitchKaku {
  import opened Common
  import opened Gpio

  /** kaku_state_t: KAKU_STATE_OFF = 0, KAKU_STATE_ON = 1. */
  datatype State = Off | On

  /** `kaku->state = !kaku->state` */
  function Toggle(s: State): (r: State)
    ensures r != s
  {
    if s == Off then On else Off
  }

  function StateBit(s: State): bv32 {
    if s == On then 1 else 0
  }

  /** KAKU_DEVICE_ALL addresses every device of the group. */
  const DEVICE_ALL: int := -1

  /** kaku_group_t: KAKU_GROUP_1 .. KAKU_GROUP_4. */
  type Group = g: int | 1 <= g <= 4 witness 1
  /** kaku_device_t: KAKU_DEVICE_ALL or KAKU_DEVICE_1 .. KAKU_DEVICE_4. */
  type Device = d: int | d == DEVICE_ALL || 1 <= d <= 4 witness DEVICE_ALL
  /** -1 (no dimmer) or a dim level 0..15. */
  type DimLevel = d: int | -1 <= d <= 15 witness -1

  /** `uint8_t period = 230` in both send routines. */
  const PERIOD: u8 := 230

  /** The number of bits of the id that reach the air. */
  const ID_BITS: nat := 26

  // ---------------------------------------------------------------------
  // Address words

  /** `dev` in switch_kaku: the device index, or bit 5 for the whole group. */
  function DeviceSelector(device: Device): bv32 {
    if device == DEVICE_ALL then 1 << 5 else (device - 1) as bv32
  }

  /** The 32-bit word of a non-dim command (see CodeWordLayout). */
  function CodeWord(id: bv32, group: Group, device: Device, state: State): bv32 {
    (((id << 6) | DeviceSelector(device)) | (StateBit(state) << 4)) | (((group - 1) as bv32) << 2)
  }

  /** The 10-bit code of a dim command (see DimCodeLayout). */
  function DimCode(group: Group, device: Device, state: State, dimLevel: int): bv32
    requires 0 <= dimLevel <= 15
  {
    (((DeviceSelector(device) << 4) | (StateBit(state) << 8)) | (((group - 1) as bv32) << 6))
      | dimLevel as bv32
  }

  /** The fields of a non-dim word do not overlap: the word carries the low
      26 bits of the id in bits 31..6, the all-devices flag in bit 5, the
      state in bit 4, the group in bits 3..2 and the device in bits 1..0. */
  lemma CodeWordLayout(id: bv32, group: Group, device: Device, state: State)
    ensures var w := CodeWord(id, group, device, state);
      && w >> 6 == id & 0x3FF_FFFF
      && (w >> 5) & 1 == (if device == DEVICE_ALL then 1 else 0)
      && (w >> 4) & 1 == StateBit(state)
      && (w >> 2) & 3 == (group - 1) as bv32
      && w & 3 == if device == DEVICE_ALL then 0 else (device - 1) as bv32
  {
  }

  /** The fields of a dim code: the all-devices flag in bit 9, the state in
      bit 8, the group in bits 7..6, the device in bits 5..4 and the dim
      level in bits 3..0; nothing above bit 9. */
  lemma DimCodeLayout(group: Group, device: Device, state: State, dimLevel: int)
    requires 0 <= dimLevel <= 15
    ensures var c := DimCode(group, device, state, dimLevel);
      && c < 0x400
      && (c >> 9) & 1 == (if device == DEVICE_ALL then 1 else 0)
      && (c >> 8) & 1 == StateBit(state)
      && (c >> 6) & 3 == (group - 1) as bv32
      && (c >> 4) & 3 == (if device == DEVICE_ALL then 0 else (device - 1) as bv32)
      && c & 15 == dimLevel as bv32
  {
  }

  /** `((code & (1 << j)) == (1 << j))`: bit j of the word, as 0 or 1. */
  function BitValue(code: bv32, j: nat): (b: int)
    requires j < 32
    ensures b == 0 || b == 1
    decreases j
  {
    if j == 0 then (if code & 1 == 1 then 1 else 0) else BitValue(code >> 1, j - 1)
  }

  /** The lowest `width` bits of x, most significant first. */
  function MsbBits(x: bv32, width: nat): (bits: seq<int>)
    requires width <= 32
    ensures |bits| == width
  {
    seq(width, k requires 0 <= k < width => BitValue(x, width - 1 - k))
  }

  // ---------------------------------------------------------------------
  // Pulse timing

  /** `(uint32_t)(period * 1.4)`. The double product lies just below an
      integer for exactly seven 8-bit periods, where the cast truncates one
      microsecond more than the exact product would. */
  function ShortLow(period: u8): (us: nat)
    ensures us * 10 <= period * 14 < (us + 2) * 10
  {
    period * 14 / 10 - (if period in {45, 85, 90, 165, 170, 175, 180} then 1 else 0)
  }

  /** send_syc: low 47 periods, high one period, low 12 periods. */
  function SyncPulses(period: u8): (s: seq<Segment>)
    ensures |s| == 3 && s[0].level == Low && s[2].level == Low
  {
    [Segment(Low, 47 * period), Segment(High, period), Segment(Low, period * 12)]
  }

  /** The low gap after the first high pulse of a symbol: long for 1,
      short otherwise. */
  function FirstGap(value: int, period: u8): nat {
    if value == 1 then period * 6 else ShortLow(period)
  }

  /** The low gap after the second high pulse of a symbol: long for 0,
      short otherwise. */
  function SecondGap(value: int, period: u8): nat {
    if value == 0 then period * 6 else ShortLow(period)
  }

  /** send_bit: 0 and 1 are a short and a long low gap in opposite order;
      any other value is the dim sentinel, two short gaps. */
  function BitPulses(value: int, period: u8): (s: seq<Segment>)
    ensures |s| == 4
  {
    [Segment(High, period), Segment(Low, FirstGap(value, period)), Segment(High, period), Segment(Low, SecondGap(value, period))]
  }

  /** The value send_bit is called with for the dim sentinel. */
  const SENTINEL: int := -1

  predicate IsSymbolValue(v: int) {
    v == 0 || v == 1 || v == SENTINEL
  }

  /** The end of every frame: high for one period, then the pin is set low. */
  function Trailer(period: u8): (s: seq<Segment>)
    ensures |s| == 2 && s[1].level == Low
  {
    [Segment(High, period), Segment(Low, 0)]
  }

  /** The pulses of the symbols for `values`, in order. */
  function Symbols(values: seq<int>, period: u8): (s: seq<Segment>)
    ensures |s| == 4 * |values|
  {
    if values == [] then []
    else Symbols(values[..|values| - 1], period) + BitPulses(values[|values| - 1], period)
  }

  /** The symbol values of a non-dim frame: bits 31 down to 0 of the word. */
  function CodeValues(code: bv32): seq<int> {
    MsbBits(code, 32)
  }

  /** The symbol values of the code part of a dim frame: bit 9, the
      sentinel in the place of bit 8, then bits 7 down to 0. */
  function DimCodeValues(code: bv32): (vs: seq<int>)
    ensures |vs| == 10
  {
    [BitValue(code, 9), SENTINEL] + MsbBits(code, 8)
  }

  /** The symbol values of a dim frame: bits 25 down to 0 of the id, then the
      code part. */
  function DimValues(id: bv32, code: bv32): (vs: seq<int>)
    ensures |vs| == ID_BITS + 10
  {
    MsbBits(id, ID_BITS) + DimCodeValues(code)
  }

  /** One repetition of send_kaku_code. */
  function Frame(code: bv32, period: u8): (f: seq<Segment>)
    ensures |f| == 133
  {
    SyncPulses(period) + Symbols(CodeValues(code), period) + Trailer(period)
  }

  /** One repetition of send_kaku_dim_code. */
  function DimFrame(id: bv32, code: bv32, period: u8): (f: seq<Segment>)
    ensures |f| == 149
  {
    SyncPulses(period) + Symbols(DimValues(id, code), period) + Trailer(period)
  }

  /** f, n times over. */
  function Repeated(f: seq<Segment>, n: nat): seq<Segment> {
    if n == 0 then [] else Repeated(f, n - 1) + f
  }

  /** Everything switch_kaku emits on the pin once the state has become
      `state`. */
  function Transmission(id: bv32, dimLevel: DimLevel, group: Group, device: Device, repeat: u8, state: State): seq<Segment> {
    if dimLevel == -1 then Repeated(Frame(CodeWord(id, group, device, state), PERIOD), repeat)
    else Repeated(DimFrame(id, DimCode(group, device, state, dimLevel), PERIOD), repeat)
  }

  // ---------------------------------------------------------------------
  // A receiver for the pulse trains: the reference the transmitter is
  // proved against.

  function DecodeSymbol(s: seq<Segment>, period: u8): Option<int> {
    if s == BitPulses(0, period) then Some(0)
    else if s == BitPulses(1, period) then Some(1)
    else if s == BitPulses(SENTINEL, period) then Some(SENTINEL)
    else None
  }

  function DecodeSymbols(s: seq<Segment>, period: u8): Option<seq<int>>
    decreases |s|
  {
    if s == [] then Some([])
    else if |s| < 4 then None
    else match DecodeSymbols(s[..|s| - 4], period)
      case None => None
      case Some(vs) =>
        match DecodeSymbol(s[|s| - 4..], period)
        case None => None
        case Some(v) => Some(vs + [v])
  }

  predicate AllBits(vs: seq<int>) {
    forall k :: 0 <= k < |vs| ==> vs[k] == 0 || vs[k] == 1
  }

  /** The 32 bits, most significant first, carried by one non-dim frame, if
      it is one. */
  function DecodeFrame(f: seq<Segment>, period: u8): Option<seq<int>> {
    if |f| == 133 && f[..3] == SyncPulses(period) && f[131..] == Trailer(period) then
      match DecodeSymbols(f[3..131], period)
      case Some(vs) => if |vs| == 32 && AllBits(vs) then Some(vs) else None
      case None => None
    else None
  }

  /** The 26 id bits and the 9 code bits (bit 9, then bits 7..0) carried by
      one dim frame, if it is one: the symbol in the place of code bit 8 must
      be the sentinel. */
  function DecodeDimFrame(f: seq<Segment>, period: u8): Option<(seq<int>, seq<int>)> {
    if |f| == 149 && f[..3] == SyncPulses(period) && f[147..] == Trailer(period) then
      match DecodeSymbols(f[3..147], period)
      case Some(vs) =>
        if |vs| == ID_BITS + 10 && AllBits(vs[..ID_BITS + 1]) && vs[ID_BITS + 1] == SENTINEL && AllBits(vs[ID_BITS + 2..])
        then Some((vs[..ID_BITS], [vs[ID_BITS]] + vs[ID_BITS + 2..]))
        else None
      case None => None
    else None
  }

  // ---------------------------------------------------------------------
  // Properties

  /** The worked example: id 123456, group 1, all devices, turning on. */
  lemma Example123456()
    ensures CodeWord(123456, 1, DEVICE_ALL, On) == 7901232
    ensures CodeWord(123456, 1, DEVICE_ALL, On) == ((123456 << 6) | 0x20) | (1 << 4)
  {
  }

  /** The timing profile for the firmware's period of 230 us. */
  lemma TimingProfile230()
    ensures SyncPulses(PERIOD) == [Segment(Low, 10810), Segment(High, 230), Segment(Low, 2760)]
    ensures BitPulses(0, PERIOD) == [Segment(High, 230), Segment(Low, 322), Segment(High, 230), Segment(Low, 1380)]
    ensures BitPulses(1, PERIOD) == [Segment(High, 230), Segment(Low, 1380), Segment(High, 230), Segment(Low, 322)]
    ensures BitPulses(SENTINEL, PERIOD) == [Segment(High, 230), Segment(Low, 322), Segment(High, 230), Segment(Low, 322)]
  {
  }

  /** For any positive period the three symbols are pairwise distinct. */
  lemma SymbolsDistinct(period: u8)
    requires period > 0
    ensures BitPulses(0, period) != BitPulses(1, period)
    ensures BitPulses(0, period) != BitPulses(SENTINEL, period)
    ensures BitPulses(1, period) != BitPulses(SENTINEL, period)
  {
    assert BitPulses(0, period)[3] != BitPulses(1, period)[3];
    assert BitPulses(0, period)[3] != BitPulses(SENTINEL, period)[3];
    assert BitPulses(1, period)[1] != BitPulses(SENTINEL, period)[1];
  }

  lemma DecodeSymbolOf(v: int, period: u8)
    requires period > 0 && IsSymbolValue(v)
    ensures DecodeSymbol(BitPulses(v, period), period) == Some(v)
  {
    SymbolsDistinct(period);
  }

  /** Decoding the pulses of any symbol sequence gives the sequence back. */
  lemma {:induction false} SymbolsRoundTrip(vs: seq<int>, period: u8)
    requires period > 0
    requires forall k :: 0 <= k < |vs| ==> IsSymbolValue(vs[k])
    ensures DecodeSymbols(Symbols(vs, period), period) == Some(vs)
  {
    if vs != [] {
      var init, last := vs[..|vs| - 1], vs[|vs| - 1];
      var s := Symbols(vs, period);
      assert s[..|s| - 4] == Symbols(init, period);
      assert s[|s| - 4..] == BitPulses(last, period);
      SymbolsRoundTrip(init, period);
      DecodeSymbolOf(last, period);
      assert init + [last] == vs;
    }
  }

  /** Element k of MsbBits(x, width) is bit width-1-k of x. */
  lemma {:induction false} MsbBitsAt(x: bv32, width: nat, k: nat)
    requires k < width <= 32
    decreases width
    ensures MsbBits(x, width)[k] == BitValue(x, width - 1 - k)
  {
  }

  lemma ShiftAnd(x: bv32, m: bv32)
    ensures (x & m) >> 1 == (x >> 1) & (m >> 1)
  {
  }

  lemma LowAnd(x: bv32, m: bv32)
    requires BitValue(m, 0) == 1
    ensures BitValue(x & m, 0) == BitValue(x, 0)
  {
  }

  /** Masking with m keeps bit j of x wherever m has a one. */
  lemma {:induction false} BitValueAnd(x: bv32, m: bv32, j: nat)
    requires j < 32 && BitValue(m, j) == 1
    decreases j
    ensures BitValue(x & m, j) == BitValue(x, j)
  {
    if j > 0 {
      ShiftAnd(x, m);
      BitValueAnd(x >> 1, m >> 1, j - 1);
    } else {
      LowAnd(x, m);
    }
  }

  /** BitValue is the test `(code & (1 << j)) == (1 << j)` that
      send_kaku_code (line 64) hands to send_bit, for every count j of the
      loop (held here as the word `k`). */
  lemma {:induction false} BitValueMask(code: bv32, k: bv32)
    requires k < 32
    decreases k as int
    ensures BitValue(code, k as int) == (if code & (1 << k) == (1 << k) then 1 else 0)
  {
    if k > 0 {
      WordPredecessor(k);
      ShiftOnce(k);
      MaskShift(code, 1 << k, 1 << (k - 1));
      BitValueMask(code >> 1, k - 1);
    }
  }

  lemma WordPredecessor(k: bv32)
    requires 0 < k < 32
    ensures (k - 1) as int == k as int - 1
  {
  }

  /** `1 << k` is `1 << (k - 1)` shifted once more, whose top bit is clear. */
  lemma ShiftOnce(k: bv32)
    requires 0 < k < 32
    ensures (1 as bv32 << (k - 1)) & 0x8000_0000 == 0
    ensures (1 as bv32 << k) == (1 as bv32 << (k - 1)) << 1
  {
  }

  /** A mask whose top bit is clear tests the same bits of `code >> 1` as
      the mask shifted left once tests of `code`. */
  lemma MaskShift(code: bv32, m: bv32, m2: bv32)
    requires m2 & 0x8000_0000 == 0 && m == m2 << 1
    ensures (code >> 1) & m2 == m2 ==> code & m == m
    ensures code & m == m ==> (code >> 1) & m2 == m2
  {
  }

  /** The bits of 0x2FF: every bit of 9..0 except bit 8. */
  lemma DimMaskValues()
    ensures BitValue(0x2FF, 8) == 0 && BitValue(0x2FF, 9) == 1
    ensures forall j :: 0 <= j < 8 ==> BitValue(0x2FF, j) == 1
  {
    assert BitValue(0x2FF, 7) == 1;
  }

  /** Every element of MsbBits is a bit. */
  lemma MsbBitsAreBits(x: bv32, width: nat)
    requires width <= 32
    ensures AllBits(MsbBits(x, width))
  {
    forall k | 0 <= k < width
      ensures MsbBits(x, width)[k] == 0 || MsbBits(x, width)[k] == 1
    {
      MsbBitsAt(x, width, k);
    }
  }

  lemma BitValueIsBit(x: bv32, j: nat)
    requires j < 32
    ensures BitValue(x, j) == 0 || BitValue(x, j) == 1
  {
  }

  /** A non-dim frame decodes to the bits of its word, most significant
      first: every bit of the word is recovered. */
  lemma FrameRoundTrip(code: bv32, period: u8)
    requires period > 0
    ensures DecodeFrame(Frame(code, period), period) == Some(MsbBits(code, 32))
    ensures forall j :: 0 <= j < 32 ==> MsbBits(code, 32)[31 - j] == BitValue(code, j)
  {
    var f := Frame(code, period);
    var vs := CodeValues(code);
    assert f[..3] == SyncPulses(period);
    assert f[3..131] == Symbols(vs, period);
    assert f[131..] == Trailer(period);
    MsbBitsAreBits(code, 32);
    SymbolsRoundTrip(vs, period);
    forall j | 0 <= j < 32
      ensures MsbBits(code, 32)[31 - j] == BitValue(code, j)
    {
      MsbBitsAt(code, 32, 31 - j);
    }
  }

  /** A dim frame decodes to the low 26 bits of the id and the code bits 9
      and 7..0; bit 8 is not on the air. */
  lemma DimFrameRoundTrip(id: bv32, code: bv32, period: u8)
    requires period > 0
    ensures DecodeDimFrame(DimFrame(id, code, period), period)
         == Some((MsbBits(id, ID_BITS), [BitValue(code, 9)] + MsbBits(code, 8)))
  {
    var idBits, low := MsbBits(id, ID_BITS), MsbBits(code, 8);
    assert DimValues(id, code) == idBits + [BitValue(code, 9), SENTINEL] + low;
    MsbBitsAreBits(id, ID_BITS);
    MsbBitsAreBits(code, 8);
    BitValueIsBit(code, 9);
    DecodeDimFrameOf(idBits, BitValue(code, 9), low, period);
  }

  /** The receiver reads back any 26 id bits and 9 code bits framed around
      the sentinel. */
  lemma DecodeDimFrameOf(idBits: seq<int>, b: int, low: seq<int>, period: u8)
    requires period > 0
    requires |idBits| == ID_BITS && |low| == 8 && AllBits(idBits) && AllBits(low) && (b == 0 || b == 1)
    ensures DecodeDimFrame(SyncPulses(period) + Symbols(idBits + [b, SENTINEL] + low, period) + Trailer(period), period)
         == Some((idBits, [b] + low))
  {
    var vs := idBits + [b, SENTINEL] + low;
    var f := SyncPulses(period) + Symbols(vs, period) + Trailer(period);
    assert f[..3] == SyncPulses(period);
    assert f[3..147] == Symbols(vs, period);
    assert f[147..] == Trailer(period);
    SymbolsRoundTrip(vs, period);
    assert vs[..ID_BITS] == idBits;
    assert vs[..ID_BITS + 1] == idBits + [b];
    assert vs[ID_BITS + 2..] == low;
  }

  /** Only bit 8 tells the on and the off dim code apart. */
  lemma DimCodeStateBit(group: Group, device: Device, dimLevel: int)
    requires 0 <= dimLevel <= 15
    ensures DimCode(group, device, On, dimLevel) & 0x2FF == DimCode(group, device, Off, dimLevel) & 0x2FF
  {
  }

  /** Two codes that agree under the mask 0x2FF agree in bits 9 and 7..0. */
  lemma MaskedBitsAgree(on: bv32, off: bv32, j: nat)
    requires on & 0x2FF == off & 0x2FF
    requires j < 10 && j != 8
    ensures BitValue(on, j) == BitValue(off, j)
  {
    DimMaskValues();
    BitValueAnd(on, 0x2FF, j);
    BitValueAnd(off, 0x2FF, j);
  }

  /** Two codes that agree outside bit 8 have the same dim symbols. */
  lemma DimSymbolsAgree(on: bv32, off: bv32)
    requires on & 0x2FF == off & 0x2FF
    ensures DimCodeValues(on) == DimCodeValues(off)
  {
    MaskedBitsAgree(on, off, 9);
    forall k | 0 <= k < 8
      ensures MsbBits(on, 8)[k] == MsbBits(off, 8)[k]
    {
      MaskedBitsAgree(on, off, 7 - k);
    }
  }

  /** The state bit of a dim command is never transmitted: switching a
      dimmer on and switching it off put the same pulses on the air. */
  lemma DimFrameIgnoresState(id: bv32, group: Group, device: Device, dimLevel: int, period: u8)
    requires 0 <= dimLevel <= 15
    ensures DimFrame(id, DimCode(group, device, On, dimLevel), period)
         == DimFrame(id, DimCode(group, device, Off, dimLevel), period)
  {
    var on, off := DimCode(group, device, On, dimLevel), DimCode(group, device, Off, dimLevel);
    DimCodeStateBit(group, device, dimLevel);
    DimSymbolsAgree(on, off);
    assert DimValues(id, on) == DimValues(id, off);
  }

  /** Repetition k of a repeated frame is the frame itself. */
  lemma {:induction false} RepeatedChunk(f: seq<Segment>, n: nat, k: nat)
    requires k < n
    ensures k * |f| + |f| <= |Repeated(f, n)|
    ensures Repeated(f, n)[k * |f| .. k * |f| + |f|] == f
  {
    var prev := Repeated(f, n - 1);
    assert Repeated(f, n) == prev + f;
    if k < n - 1 {
      RepeatedChunk(f, n - 1, k);
      assert Repeated(f, n)[k * |f| .. k * |f| + |f|] == prev[k * |f| .. k * |f| + |f|];
    } else {
      RepeatedLength(f, n - 1);
      assert k * |f| == |prev|;
    }
  }

  /** f, n times over, is n times as long as f. */
  lemma {:induction false} RepeatedLength(f: seq<Segment>, n: nat)
    ensures |Repeated(f, n)| == n * |f|
  {
    if n > 0 {
      RepeatedLength(f, n - 1);
      assert n * |f| == (n - 1) * |f| + |f|;
    }
  }

  /** Every repetition of a non-dim transmission decodes to the bits of the
      command word. */
  lemma NonDimTransmissionDecodes(id: bv32, group: Group, device: Device, repeat: u8, state: State, k: nat)
    requires k < repeat
    ensures var s := Transmission(id, -1, group, device, repeat, state);
      k * 133 + 133 <= |s| && DecodeFrame(s[k * 133 .. k * 133 + 133], PERIOD) == Some(MsbBits(CodeWord(id, group, device, state), 32))
  {
    var f := Frame(CodeWord(id, group, device, state), PERIOD);
    RepeatedChunk(f, repeat, k);
    FrameRoundTrip(CodeWord(id, group, device, state), PERIOD);
  }

  /** Every repetition of a dim transmission decodes to the id bits and the
      group, device and dim level of the command. */
  lemma DimTransmissionDecodes(id: bv32, dimLevel: DimLevel, group: Group, device: Device, repeat: u8, state: State, k: nat)
    requires dimLevel != -1 && k < repeat
    ensures var s := Transmission(id, dimLevel, group, device, repeat, state);
      var c := DimCode(group, device, state, dimLevel);
      k * 149 + 149 <= |s| && DecodeDimFrame(s[k * 149 .. k * 149 + 149], PERIOD) == Some((MsbBits(id, ID_BITS), [BitValue(c, 9)] + MsbBits(c, 8)))
  {
    var c := DimCode(group, device, state, dimLevel);
    RepeatedChunk(DimFrame(id, c, PERIOD), repeat, k);
    DimFrameRoundTrip(id, c, PERIOD);
  }

  /** The pin is low at the end of every repetition of every transmission. */
  lemma EveryRepetitionEndsLow(id: bv32, dimLevel: DimLevel, group: Group, device: Device, repeat: u8, state: State, k: nat)
    requires k < repeat
    ensures var s := Transmission(id, dimLevel, group, device, repeat, state);
      var len := if dimLevel == -1 then 133 else 149;
      k * len + len <= |s| && s[k * len + len - 1] == Segment(Low, 0)
  {
    if dimLevel == -1 {
      var c := CodeWord(id, group, device, state);
      FramesEndLow(id, c, PERIOD);
      RepeatedEndsLow(Frame(c, PERIOD), repeat, k);
    } else {
      var c := DimCode(group, device, state, dimLevel);
      FramesEndLow(id, c, PERIOD);
      RepeatedEndsLow(DimFrame(id, c, PERIOD), repeat, k);
    }
  }

  /** Both kinds of frame leave the pin low. */
  lemma FramesEndLow(id: bv32, code: bv32, period: u8)
    ensures Frame(code, period)[132] == Segment(Low, 0)
    ensures DimFrame(id, code, period)[148] == Segment(Low, 0)
  {
  }

  /** A transmission of at least one frame leaves the pin low with no wait
      after it (lines 68 and 89). */
  lemma TransmissionEndsLow(id: bv32, dimLevel: DimLevel, group: Group, device: Device, repeat: u8, state: State)
    requires repeat > 0
    ensures var s := Transmission(id, dimLevel, group, device, repeat, state);
      s != [] && s[|s| - 1] == Segment(Low, 0)
  {
    if dimLevel == -1 {
      var f := Frame(CodeWord(id, group, device, state), PERIOD);
      FramesEndLow(id, CodeWord(id, group, device, state), PERIOD);
      assert |f| == 133;
      assert Repeated(f, repeat as nat) == Repeated(f, repeat as nat - 1) + f;
    } else {
      var f := DimFrame(id, DimCode(group, device, state, dimLevel), PERIOD);
      FramesEndLow(id, DimCode(group, device, state, dimLevel), PERIOD);
      assert |f| == 149;
      assert Repeated(f, repeat as nat) == Repeated(f, repeat as nat - 1) + f;
    }
  }

  /** Every repetition of a frame that ends low ends low. */
  lemma RepeatedEndsLow(f: seq<Segment>, n: nat, k: nat)
    requires k < n && |f| > 0 && f[|f| - 1] == Segment(Low, 0)
    ensures k * |f| + |f| <= |Repeated(f, n)| && Repeated(f, n)[k * |f| + |f| - 1] == Segment(Low, 0)
  {
    RepeatedChunk(f, n, k);
    assert Repeated(f, n)[k * |f| .. k * |f| + |f|][|f| - 1] == Segment(Low, 0);
  }

  /** The pulses of two symbol sequences in a row. */
  lemma {:induction false} SymbolsAppend(a: seq<int>, b: seq<int>, period: u8)
    decreases |b|
    ensures Symbols(a + b, period) == Symbols(a, period) + Symbols(b, period)
  {
    if b == [] {
      assert a + b == a;
    } else {
      var init := b[..|b| - 1];
      SymbolsAppend(a, init, period);
      assert (a + b)[..|a + b| - 1] == a + init;
    }
  }

  /** Sending element k of `all` after its first k elements: the symbols
      sent so far grow by one, and so do their pulses. */
  lemma SendStep(all: seq<int>, k: nat, sent: seq<int>, v: int, period: u8)
    requires k < |all| && sent == all[..k] && all[k] == v
    ensures sent + [v] == all[..k + 1]
    ensures Symbols(sent + [v], period) == Symbols(sent, period) + BitPulses(v, period)
  {
    assert (sent + [v])[..k] == sent;
  }

  /** Sending bit j of x after bits width-1 down to j+1. */
  lemma SendBitStep(x: bv32, width: nat, j: nat, sent: seq<int>, period: u8)
    requires j < width <= 32 && sent == MsbBits(x, width)[..width - 1 - j]
    ensures sent + [BitValue(x, j)] == MsbBits(x, width)[..width - j]
    ensures Symbols(sent + [BitValue(x, j)], period) == Symbols(sent, period) + BitPulses(BitValue(x, j), period)
  {
    MsbBitsAt(x, width, width - 1 - j);
    SendStep(MsbBits(x, width), width - 1 - j, sent, BitValue(x, j), period);
  }

  /** The dim symbols of a code, counted from bit 9 down: the sentinel in
      the place of bit 8. */
  lemma DimCodeValuesAt(code: bv32, i: nat)
    requires i < 10
    ensures DimCodeValues(code)[9 - i] == if i == 8 then SENTINEL else BitValue(code, i)
  {
  }

  // ---------------------------------------------------------------------
  // The transmitter

  /** send_syc */
  method SendSync(pin: OutputPin, period: u8)
    modifies pin
    ensures pin.trace == old(pin.trace) + SyncPulses(period)
  {
    pin.Drive(Low, 47 * period);
    pin.Drive(High, period);
    pin.Drive(Low, period * 12);
  }

  /** send_bit */
  method SendBit(value: int, pin: OutputPin, period: u8)
    modifies pin
    ensures pin.trace == old(pin.trace) + BitPulses(value, period)
  {
    if value == 0 {
      pin.Drive(High, period);
      pin.Drive(Low, ShortLow(period));
      pin.Drive(High, period);
      pin.Drive(Low, period * 6);
    } else if value == 1 {
      pin.Drive(High, period);
      pin.Drive(Low, period * 6);
      pin.Drive(High, period);
      pin.Drive(Low, ShortLow(period));
    } else {
      pin.Drive(High, period);
      pin.Drive(Low, ShortLow(period));
      pin.Drive(High, period);
      pin.Drive(Low, ShortLow(period));
    }
  }

  /** The bit loop of send_kaku_code: bits 31 down to 0 of the word. */
  method SendCodeBits(pin: OutputPin, code: bv32)
    modifies pin
    ensures pin.trace == old(pin.trace) + Symbols(CodeValues(code), PERIOD)
  {
    var period := PERIOD;
    ghost var sent: seq<int> := [];
    var j := 31;
    while j >= 0
      invariant -1 <= j <= 31
      invariant sent == MsbBits(code, 32)[..31 - j]
      invariant pin.trace == old(pin.trace) + Symbols(sent, period)
    {
      SendBit(BitValue(code, j), pin, period);
      SendBitStep(code, 32, j, sent, period);
      sent := sent + [BitValue(code, j)];
      j := j - 1;
    }
    assert sent == MsbBits(code, 32);
  }

  /** send_kaku_code: `repeat` frames of the 32-bit word. */
  method SendKakuCode(pin: OutputPin, code: bv32, repeat: u8)
    modifies pin
    ensures pin.trace == old(pin.trace) + Repeated(Frame(code, PERIOD), repeat)
  {
    var period: u8 := 230;
    for i := 0 to repeat
      invariant pin.trace == old(pin.trace) + Repeated(Frame(code, period), i)
    {
      SendSync(pin, period);
      SendCodeBits(pin, code);
      pin.Drive(High, period);
      pin.Drive(Low, 0);
    }
  }

  /** The id loop of send_kaku_dim_code: id bits 25 down to 0. */
  method SendDimIdBits(pin: OutputPin, id: bv32)
    modifies pin
    ensures pin.trace == old(pin.trace) + Symbols(MsbBits(id, ID_BITS), PERIOD)
  {
    var period := PERIOD;
    ghost var sent: seq<int> := [];
    var j := 25;
    while j >= 0
      invariant -1 <= j <= 25
      invariant sent == MsbBits(id, 26)[..25 - j]
      invariant pin.trace == old(pin.trace) + Symbols(sent, period)
    {
      SendBit(BitValue(id, j), pin, period);
      SendBitStep(id, 26, j, sent, period);
      sent := sent + [BitValue(id, j)];
      j := j - 1;
    }
    assert sent == MsbBits(id, 26);
  }

  /** The code loop of send_kaku_dim_code: code bits 9 down to 0, with the
      sentinel in the place of bit 8. */
  method SendDimCodeBits(pin: OutputPin, code: bv32)
    modifies pin
    ensures pin.trace == old(pin.trace) + Symbols(DimCodeValues(code), PERIOD)
  {
    var period := PERIOD;
    ghost var tail := DimCodeValues(code);
    ghost var sent: seq<int> := [];
    var i := 9;
    while i >= 0
      invariant -1 <= i <= 9
      invariant sent == tail[..9 - i]
      invariant pin.trace == old(pin.trace) + Symbols(sent, period)
    {
      var v;
      if i == 8 {
        v := SENTINEL;
      } else {
        v := BitValue(code, i);
      }
      SendBit(v, pin, period);
      DimCodeValuesAt(code, i);
      SendStep(tail, 9 - i, sent, v, period);
      sent := sent + [v];
      i := i - 1;
    }
    assert sent == tail;
  }

  /** One pass of the repeat loop of send_kaku_dim_code. */
  method SendDimFrame(pin: OutputPin, id: bv32, code: bv32)
    modifies pin
    ensures pin.trace == old(pin.trace) + DimFrame(id, code, PERIOD)
  {
    var period := PERIOD;
    SendSync(pin, period);
    SendDimIdBits(pin, id);
    SendDimCodeBits(pin, code);
    SymbolsAppend(MsbBits(id, ID_BITS), DimCodeValues(code), period);
    pin.Drive(High, period);
    pin.Drive(Low, 0);
  }

  /** send_kaku_dim_code: `repeat` frames of 26 id bits and the dim code. */
  method SendKakuDimCode(pin: OutputPin, id: bv32, code: bv32, repeat: u8)
    modifies pin
    ensures pin.trace == old(pin.trace) + Repeated(DimFrame(id, code, PERIOD), repeat)
  {
    for r := 0 to repeat
      invariant pin.trace == old(pin.trace) + Repeated(DimFrame(id, code, PERIOD), r)
    {
      SendDimFrame(pin, id, code);
    }
  }

  /** A switch profile (kaku_t) bound to its transmitter pin. */
  class Kaku {
    const pin: OutputPin
    const id: bv32
    const dimLevel: DimLevel
    const group: Group
    const device: Device
    const repeat: u8
    var state: State

    /** initialize_kaku: the dim level must be -1..15; the state starts off
        and the pin is driven low. */
    constructor (pin: OutputPin, id: bv32, dimLevel: int, group: Group, device: Device, repeat: u8)
      requires -1 <= dimLevel <= 15
      modifies pin
      ensures this.pin == pin && this.id == id && this.dimLevel == dimLevel
      ensures this.group == group && this.device == device && this.repeat == repeat
      ensures state == Off
      ensures pin.trace == old(pin.trace) + [Segment(Low, 0)]
    {
      this.pin := pin;
      this.id := id;
      this.dimLevel := dimLevel;
      this.group := group;
      this.device := device;
      this.repeat := repeat;
      this.state := Off;
      new;
      pin.Drive(Low, 0);
    }

    /** switch_kaku: toggle the state, then transmit the command for the new
        state, as a dim command when a dim level is configured. */
    method Switch()
      modifies this`state, pin
      ensures state == Toggle(old(state))
      ensures pin.trace == old(pin.trace) + Transmission(id, dimLevel, group, device, repeat, state)
    {
      state := Toggle(state);
      var dev := DeviceSelector(device);
      if dimLevel == -1 {
        var code := (((id << 6) | dev) | (StateBit(state) << 4)) | (((group - 1) as bv32) << 2);
        SendKakuCode(pin, code, repeat);
      } else {
        SendKakuDimCode(pin, id, (((dev << 4) | (StateBit(state) << 8)) | (((group - 1) as bv32) << 6)) | dimLevel as bv32, repeat);
      }
    }
  }
}
