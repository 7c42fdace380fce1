/**
 The SBC offload codec (bluetooth/audio/hal/A2dpOffloadCodecSbc.cpp). Field positions follow
 section 4.3, frame length and bit rate section 12.9, of the Bluetooth A2DP specification.
 */
module SbcCodec {
  import opened A2dpBits
  import opened A2dpCodec
  import opened Options
  import opened Arithmetic

  const SAMPLING_FREQUENCY := Range(0, 4)
  const CHANNEL_MODE := Range(4, 4)
  const BLOCK_LENGTH := Range(8, 4)
  const SUBBANDS := Range(12, 2)
  const ALLOCATION_METHOD := Range(14, 2)
  const MINIMUM_BITPOOL := Range(16, 8)
  const MAXIMUM_BITPOOL := Range(24, 8)
  const CAPABILITIES_SIZE := 4

  const BITDEPTH := 16

  /** The local capabilities: 44.1 and 48 kHz, every mode, block length, band count and
      allocation method, bitpool 2 to 250. */
  const LOCAL: seq<bv8> := [0x3F, 0xFF, 0x02, 0xFA]

  /** The bits of LOCAL outside the bitpool fields; see LocalBits. */
  predicate LocalBit(i: int) {
    2 <= i < 16
  }

  // ------------------------------------------------------------ conversions

  function FrequencyBit(hz: int): int {
    match hz
    case 16000 => 0
    case 32000 => 1
    case 44100 => 2
    case 48000 => 3
    case _ => -1
  }

  function FrequencyValue(bit: int): int {
    match bit
    case 0 => 16000
    case 1 => 32000
    case 2 => 44100
    case 3 => 48000
    case _ => 0
  }

  /** A stereo hint is `7 | 6` in the source, which is the joint stereo bit alone. */
  function ChannelModeBit(m: ChannelMode): int {
    match m
    case STEREO => 7
    case DUALMONO => 5
    case MONO => 4
    case UNKNOWN => -1
  }

  function ChannelModeEnum(bit: int): ChannelMode {
    match bit
    case 4 => MONO
    case 5 => DUALMONO
    case 6 => STEREO
    case 7 => STEREO
    case _ => UNKNOWN
  }

  function BlockLengthValue(bit: int): int {
    match bit
    case 8 => 4
    case 9 => 8
    case 10 => 12
    case 11 => 16
    case _ => 0
  }

  function SubbandsValue(bit: int): int {
    match bit
    case 13 => 4
    case 12 => 8
    case _ => 0
  }

  datatype Allocation = SNR | LOUDNESS

  function AllocationEnum(bit: int): Allocation {
    if bit == 14 then SNR else LOUDNESS
  }

  // ------------------------------------------------------------ section 12.9

  datatype Mode = Mono | Dual | Stereo | Joint

  datatype Shape = Shape(frequency: int, blocks: int, subbands: int, mode: Mode)

  predicate ValidShape(x: Shape) {
    x.frequency in {16000, 32000, 44100, 48000}
    && x.blocks in {4, 8, 12, 16}
    && x.subbands in {4, 8}
  }

  function CeilDiv8(n: nat): nat { (n + 7) / 8 }

  /** The frame length in bytes as section 12.9 gives it. */
  function FrameLength(x: Shape, bitpool: nat): nat
    requires ValidShape(x)
  {
    var channels := if x.mode == Mono then 1 else 2;
    4 + 4 * x.subbands * channels / 8
    + if x.mode == Mono || x.mode == Dual then CeilDiv8(x.blocks * channels * bitpool)
      else CeilDiv8((if x.mode == Joint then x.subbands else 0) + x.blocks * bitpool)
  }

  /** The bit rate in bits per second as section 12.9 gives it, rounded down. */
  function Bitrate(x: Shape, bitpool: nat): nat
    requires ValidShape(x)
  {
    8 * FrameLength(x, bitpool) * x.frequency / (x.blocks * x.subbands)
  }

  /** The source adds up the bits of a frame and rounds once; section 12.9 rounds the part
      that follows the scale factors. Scale factors fill whole bytes, so the two agree. */
  lemma FrameLengthFromBits(x: Shape, bitpool: nat)
    requires ValidShape(x)
    ensures var bits := 4 * x.subbands * (if x.mode == Mono then 1 else 2)
                      + x.blocks * bitpool * (if x.mode == Dual then 2 else 1)
                      + (if x.mode == Joint then x.subbands else 0);
            FrameLength(x, bitpool) == 4 + (bits + 7) / 8
  {
    if x.mode == Dual {
      assert x.blocks * 2 * bitpool == x.blocks * bitpool * 2;
    }
  }

  lemma FrameLengthMonotone(x: Shape, b: nat, c: nat)
    requires ValidShape(x) && b <= c
    ensures FrameLength(x, b) <= FrameLength(x, c)
  {
    assert x.blocks * b <= x.blocks * c;
  }

  /** A larger bitpool never lowers the bit rate. */
  lemma BitrateMonotone(x: Shape, b: nat, c: nat)
    requires ValidShape(x) && b <= c
    ensures Bitrate(x, b) <= Bitrate(x, c)
  {
    var l, m := 8 * FrameLength(x, b), 8 * FrameLength(x, c);
    FrameLengthMonotone(x, b, c);
    assert (m - l) * x.frequency >= 0;
    DivMonotone(l * x.frequency, m * x.frequency, x.blocks * x.subbands);
  }

  /** The product `bits * sampling_frequency` fits a signed 32-bit integer. */
  lemma BitrateFits(x: Shape, bitpool: nat)
    requires ValidShape(x) && bitpool <= 255
    ensures 8 * FrameLength(x, bitpool) * x.frequency < 0x8000_0000
  {
    FrameLengthMonotone(x, bitpool, 255);
    assert FrameLength(x, 255) <= 1033;
    var l := 8 * FrameLength(x, bitpool);
    assert l <= 8264;
    assert l * x.frequency <= 8264 * x.frequency;
  }

  // ------------------------------------------------------------ what a configuration says

  ghost predicate Coded(c: seq<bv8>) {
    |c| == CAPABILITIES_SIZE
    && ActiveBit(c, SAMPLING_FREQUENCY) != -1
    && ActiveBit(c, CHANNEL_MODE) != -1
    && ActiveBit(c, BLOCK_LENGTH) != -1
    && ActiveBit(c, SUBBANDS) != -1
  }

  ghost function ModeOf(bit: int): Mode {
    if bit == 4 then Mono else if bit == 5 then Dual else if bit == 6 then Stereo else Joint
  }

  /** The coding parameters of a configuration whose fields each hold one set bit. */
  ghost function ShapeOf(c: seq<bv8>): (x: Shape)
    requires Coded(c)
    ensures ValidShape(x)
  {
    Shape(FrequencyValue(ActiveBit(c, SAMPLING_FREQUENCY)),
          BlockLengthValue(ActiveBit(c, BLOCK_LENGTH)),
          SubbandsValue(ActiveBit(c, SUBBANDS)),
          ModeOf(ActiveBit(c, CHANNEL_MODE)))
  }

  method GetFrameSize(c: seq<bv8>, bitpool: nat) returns (size: nat)
    requires Coded(c)
    ensures size == FrameLength(ShapeOf(c), bitpool)
  {
    var s := FindActiveBit(c, SUBBANDS);
    var b := FindActiveBit(c, BLOCK_LENGTH);
    var subbands, blocks := SubbandsValue(s), BlockLengthValue(b);
    ghost var mode := ActiveBit(c, CHANNEL_MODE);
    assert Bit(c, 4) == (mode == 4) && Bit(c, 5) == (mode == 5) && Bit(c, 7) == (mode == 7);
    var bits := 4 * subbands * (if Bit(c, 4) then 1 else 2)
              + blocks * bitpool * (if Bit(c, 5) then 2 else 1)
              + (if Bit(c, 7) then subbands else 0);
    size := 4 + (bits + 7) / 8;
    FrameLengthFromBits(ShapeOf(c), bitpool);
  }

  method GetBitrate(c: seq<bv8>, bitpool: nat) returns (rate: nat)
    requires Coded(c)
    ensures rate == Bitrate(ShapeOf(c), bitpool)
  {
    var f := FindActiveBit(c, SAMPLING_FREQUENCY);
    var s := FindActiveBit(c, SUBBANDS);
    var b := FindActiveBit(c, BLOCK_LENGTH);
    var size := GetFrameSize(c, bitpool);
    rate := 8 * size * FrequencyValue(f) / (BlockLengthValue(b) * SubbandsValue(s));
  }

  // ------------------------------------------------------------ bitpool search

  /** The largest value of a bitpool field. */
  function Top(): nat { 255 }

  /** The largest bitpool up to `top` whose bit rate is below the target, or 0. */
  ghost function LargestBelow(x: Shape, target: int, top: nat): (b: nat)
    requires ValidShape(x)
    ensures b <= top
    ensures b == 0 || Bitrate(x, b) < target
    ensures forall c :: b < c <= top ==> Bitrate(x, c) >= target
  {
    if top == 0 || Bitrate(x, top) < target then top else LargestBelow(x, target, top - 1)
  }

  ghost function BitpoolFor(x: Shape, target: int): nat
    requires ValidShape(x)
  {
    Min(Max(LargestBelow(x, target, Top()), 2), 250)
  }

  lemma LargestBelowIs(x: Shape, target: int, b: nat)
    requires ValidShape(x) && b <= 255
    requires b == 0 || Bitrate(x, b) < target
    requires b == 255 || Bitrate(x, b + 1) >= target
    ensures LargestBelow(x, target, Top()) == b
  {
    var l := LargestBelow(x, target, Top());
    if l > b {
      BitrateMonotone(x, b + 1, l);
    }
  }

  /** The bitwise search finds what the linear search of `LargestBelow` finds. */
  method GetBitpool(c: seq<bv8>, bitrate: int) returns (bitpool: nat)
    requires Coded(c)
    ensures bitpool == BitpoolFor(ShapeOf(c), bitrate)
  {
    ghost var x := ShapeOf(c);
    var b: nat := 0;
    var i: nat := 128;
    ghost var above := 256;
    while i != 0
      invariant i in {0, 1, 2, 4, 8, 16, 32, 64, 128}
      invariant above <= 256 && above == b + if i == 0 then 1 else 2 * i
      invariant b == 0 || Bitrate(x, b) < bitrate
      invariant above == 256 || Bitrate(x, above) >= bitrate
    {
      var rate := GetBitrate(c, b + i);
      if bitrate > rate {
        b := b + i;
      } else {
        above := b + i;
      }
      i := i / 2;
    }
    LargestBelowIs(x, bitrate, b);
    bitpool := Min(Max(b, 2), 250);
  }

  // ------------------------------------------------------------ parsing

  datatype SbcParameters = SbcParameters(
    codec: CodecParameters,
    allocationMethod: Allocation,
    blockLength: int,
    subbands: int,
    minBitpool: nat,
    maxBitpool: nat)

  /** The one set bit of the field is one the local side supports. */
  ghost predicate Supported(c: seq<bv8>, r: Range)
    requires |c| == CAPABILITIES_SIZE && InBounds(c, r)
  {
    LocalBit(ActiveBit(c, r))
  }

  /** A well-formed SBC configuration within the local capabilities. */
  ghost predicate Valid(c: seq<bv8>) {
    |c| == CAPABILITIES_SIZE
    && Supported(c, SAMPLING_FREQUENCY)
    && Supported(c, CHANNEL_MODE)
    && Supported(c, BLOCK_LENGTH)
    && Supported(c, SUBBANDS)
    && Supported(c, ALLOCATION_METHOD)
    && 2 <= Field(c, MINIMUM_BITPOOL) <= 250
    && 2 <= Field(c, MAXIMUM_BITPOOL) <= 250
  }

  ghost function Decode(c: seq<bv8>): SbcParameters
    requires Valid(c)
  {
    var x := ShapeOf(c);
    var lo, hi := Field(c, MINIMUM_BITPOOL), Field(c, MAXIMUM_BITPOOL);
    SbcParameters(
      CodecParameters(ChannelModeEnum(ActiveBit(c, CHANNEL_MODE)), x.frequency, BITDEPTH,
                      Bitrate(x, lo), Bitrate(x, hi)),
      AllocationEnum(ActiveBit(c, ALLOCATION_METHOD)), x.blocks, x.subbands, lo, hi)
  }

  lemma LocalBits()
    ensures forall i :: 0 <= i < 16 ==> (Bit(LOCAL, i) <==> LocalBit(i))
  {
    forall i | 0 <= i < 16
      ensures Bit(LOCAL, i) <==> LocalBit(i)
    {
      LocalByte(i % 8);
    }
  }

  lemma LocalByte(k: nat)
    requires k < 8
    ensures BitOfByte(0x3F, k) <==> k >= 2
    ensures BitOfByte(0xFF, k)
    ensures BitOfByte(0x02, k) <==> k == 6
    ensures BitOfByte(0xFA, k) <==> k < 5 || k == 6
  {
  }

  lemma LocalBitpools()
    ensures Field(LOCAL, MINIMUM_BITPOOL) == 2
    ensures Field(LOCAL, MAXIMUM_BITPOOL) == 250
  {
    forall k | 0 <= k < 8
      ensures Slice(LOCAL, 16, 8)[k] == (k == 6)
      ensures Slice(LOCAL, 24, 8)[k] == (k < 5 || k == 6)
    {
      LocalByte(k);
    }
    NibblesValue(Slice(LOCAL, 16, 8));
    NibblesValue(Slice(LOCAL, 24, 8));
  }

  /** The value of eight digits, four at a time. */
  lemma NibblesValue(b: seq<bool>)
    requires |b| == 8
    ensures Value(b) == 16 * Nibble(b[0], b[1], b[2], b[3]) + Nibble(b[4], b[5], b[6], b[7])
  {
    var high := b[..4];
    assert high[..3] == b[..3] && b[..3][..2] == b[..2] && b[..2][..1] == b[..1];
    assert b[..1][..0] == [] && Value(b[..1]) == if b[0] then 1 else 0;
    assert Value(b[..2]) == (if b[0] then 2 else 0) + if b[1] then 1 else 0;
    assert Value(high) == Nibble(b[0], b[1], b[2], b[3]);
    assert b[..7][..6] == b[..6] && b[..6][..5] == b[..5] && b[..5][..4] == high;
    assert Value(b[..6]) == 4 * Value(high) + (if b[4] then 2 else 0) + if b[5] then 1 else 0;
  }

  function Nibble(a: bool, b: bool, c: bool, d: bool): nat {
    (if a then 8 else 0) + (if b then 4 else 0) + (if c then 2 else 0) + if d then 1 else 0
  }

  /** The first check of ParseConfiguration that `c` fails, in the order of the source. */
  ghost function ParseStatus(c: seq<bv8>): (status: A2dpStatus)
    ensures status == OK <==> Valid(c)
  {
    if |c| != CAPABILITIES_SIZE then BAD_LENGTH
    else if ActiveBit(c, SAMPLING_FREQUENCY) == -1 then INVALID_SAMPLING_FREQUENCY
    else if !Supported(c, SAMPLING_FREQUENCY) then NOT_SUPPORTED_SAMPLING_FREQUENCY
    else if ActiveBit(c, CHANNEL_MODE) == -1 then INVALID_CHANNEL_MODE
    else if ActiveBit(c, BLOCK_LENGTH) == -1 then INVALID_BLOCK_LENGTH
    else if ActiveBit(c, SUBBANDS) == -1 then INVALID_SUBBANDS
    else if ActiveBit(c, ALLOCATION_METHOD) == -1 then INVALID_ALLOCATION_METHOD
    else if !(2 <= Field(c, MINIMUM_BITPOOL) <= 250) then INVALID_MINIMUM_BITPOOL_VALUE
    else if !(2 <= Field(c, MAXIMUM_BITPOOL) <= 250) then INVALID_MAXIMUM_BITPOOL_VALUE
    else OK
  }

  // ------------------------------------------------------------ building

  function HintBit(hint: Option<CodecParameters>): int {
    if hint.Some? then FrequencyBit(hint.value.samplingFrequencyHz) else -1
  }

  function ModeHintBit(hint: Option<CodecParameters>): int {
    if hint.Some? then ChannelModeBit(hint.value.channelMode) else -1
  }

  // The order in which each field's bits are tried.
  function FrequencyPrefs(hint: Option<CodecParameters>): seq<int> { [HintBit(hint), 2, 3] }
  function ModePrefs(hint: Option<CodecParameters>): seq<int> { [ModeHintBit(hint), 7, 6, 5, 4] }
  const BLOCK_PREFS: seq<int> := [11, 10, 9, 8]
  const SUBBAND_PREFS: seq<int> := [12, 13]
  const ALLOCATION_PREFS: seq<int> := [15, 14]

  /** The bits outside the bitpool fields that both sides set. */
  ghost function Offered(remote: seq<bv8>): (offered: set<int>)
    requires |remote| == CAPABILITIES_SIZE
    ensures -1 !in offered
  {
    set i: int | 0 <= i < 16 && LocalBit(i) && Bit(remote, i)
  }

  ghost function Choice(remote: seq<bv8>, prefs: seq<int>): int
    requires |remote| == CAPABILITIES_SIZE
  {
    FirstOf(prefs, Offered(remote))
  }

  /** Building succeeds exactly when every field has a bit that both sides set. */
  ghost predicate Buildable(remote: seq<bv8>, hint: Option<CodecParameters>) {
    |remote| == CAPABILITIES_SIZE
    && Choice(remote, FrequencyPrefs(hint)) != -1
    && Choice(remote, ModePrefs(hint)) != -1
    && Choice(remote, BLOCK_PREFS) != -1
    && Choice(remote, SUBBAND_PREFS) != -1
    && Choice(remote, ALLOCATION_PREFS) != -1
  }

  /** The coding parameters that building selects, known before the call. */
  ghost function ChosenShape(remote: seq<bv8>, hint: Option<CodecParameters>): (x: Shape)
    requires Buildable(remote, hint)
    ensures ValidShape(x)
  {
    Shape(FrequencyValue(Choice(remote, FrequencyPrefs(hint))),
          BlockLengthValue(Choice(remote, BLOCK_PREFS)),
          SubbandsValue(Choice(remote, SUBBAND_PREFS)),
          ModeOf(Choice(remote, ModePrefs(hint))))
  }

  /** A stereo hint changes nothing: joint stereo is what comes first without a hint, and plain
      stereo is taken only where joint stereo is not on offer. */
  lemma StereoHintIsNoHint(remote: seq<bv8>, hint: CodecParameters)
    requires |remote| == CAPABILITIES_SIZE && hint.channelMode == STEREO
    ensures Choice(remote, ModePrefs(Some(hint))) == Choice(remote, ModePrefs(None))
    ensures Choice(remote, ModePrefs(Some(hint))) == 6 <==> 6 in Offered(remote) && 7 !in Offered(remote)
  {
    var offered := Offered(remote);
    var with, without := ModePrefs(Some(hint)), ModePrefs(None);
    assert with[1..] == without[1..] == [7, 6, 5, 4];
    assert with[1..][1..] == [6, 5, 4];
    assert FirstOf(with, offered) == if 7 in offered then 7 else FirstOf([7, 6, 5, 4], offered);
    assert FirstOf(without, offered) == FirstOf([7, 6, 5, 4], offered);
  }

  /** The remote's bitpool limits are usable; otherwise 2 and 250 stand in for them. */
  ghost predicate SaneBitpools(remote: seq<bv8>)
    requires |remote| == CAPABILITIES_SIZE
  {
    2 <= Field(remote, MINIMUM_BITPOOL) <= Field(remote, MAXIMUM_BITPOOL) <= 250
  }

  ghost function BuiltMinimum(remote: seq<bv8>, hint: Option<CodecParameters>, x: Shape): nat
    requires |remote| == CAPABILITIES_SIZE && ValidShape(x)
  {
    var r := if SaneBitpools(remote) then Field(remote, MINIMUM_BITPOOL) else 2;
    if hint.Some? then Max(r, BitpoolFor(x, hint.value.minBitrate)) else r
  }

  /** The hint sets an upper bit rate that BuildConfiguration takes into account. */
  predicate Limits(h: CodecParameters) {
    h.maxBitrate != 0 && h.maxBitrate >= h.minBitrate
  }

  /** Line 489 takes the larger of the remote and the local maximum, which is always 250. */
  ghost function BuiltMaximum(hint: Option<CodecParameters>, x: Shape): nat
    requires ValidShape(x)
  {
    if hint.Some? && Limits(hint.value) then BitpoolFor(x, hint.value.maxBitrate) else 250
  }

  /** Each of the five selection fields holds the preferred bit and no other. */
  ghost predicate Selected(remote: seq<bv8>, hint: Option<CodecParameters>, c: seq<bv8>)
    requires |remote| == CAPABILITIES_SIZE
  {
    |c| == CAPABILITIES_SIZE
    && OnlyActive(c, SAMPLING_FREQUENCY, Choice(remote, FrequencyPrefs(hint)))
    && OnlyActive(c, CHANNEL_MODE, Choice(remote, ModePrefs(hint)))
    && OnlyActive(c, BLOCK_LENGTH, Choice(remote, BLOCK_PREFS))
    && OnlyActive(c, SUBBANDS, Choice(remote, SUBBAND_PREFS))
    && OnlyActive(c, ALLOCATION_METHOD, Choice(remote, ALLOCATION_PREFS))
  }

  lemma SelectedIsCoded(remote: seq<bv8>, hint: Option<CodecParameters>, c: seq<bv8>)
    requires |remote| == CAPABILITIES_SIZE && Selected(remote, hint, c)
    ensures Coded(c)
    ensures ActiveBit(c, SAMPLING_FREQUENCY) == Choice(remote, FrequencyPrefs(hint))
    ensures ActiveBit(c, CHANNEL_MODE) == Choice(remote, ModePrefs(hint))
    ensures ActiveBit(c, BLOCK_LENGTH) == Choice(remote, BLOCK_PREFS)
    ensures ActiveBit(c, SUBBANDS) == Choice(remote, SUBBAND_PREFS)
    ensures ActiveBit(c, ALLOCATION_METHOD) == Choice(remote, ALLOCATION_PREFS)
  {
    ActiveBitUnique(c, SAMPLING_FREQUENCY, Choice(remote, FrequencyPrefs(hint)));
    ActiveBitUnique(c, CHANNEL_MODE, Choice(remote, ModePrefs(hint)));
    ActiveBitUnique(c, BLOCK_LENGTH, Choice(remote, BLOCK_PREFS));
    ActiveBitUnique(c, SUBBANDS, Choice(remote, SUBBAND_PREFS));
    ActiveBitUnique(c, ALLOCATION_METHOD, Choice(remote, ALLOCATION_PREFS));
  }

  lemma SelectedShape(remote: seq<bv8>, hint: Option<CodecParameters>, c: seq<bv8>)
    requires Buildable(remote, hint) && Selected(remote, hint, c)
    ensures Coded(c) && ShapeOf(c) == ChosenShape(remote, hint)
  {
    SelectedIsCoded(remote, hint, c);
  }

  /** Writing the bitpool fields changes neither the selection nor the coding parameters. */
  lemma SelectedFrame(remote: seq<bv8>, hint: Option<CodecParameters>, c: seq<bv8>, d: seq<bv8>)
    requires |remote| == |d| == CAPABILITIES_SIZE && Selected(remote, hint, c)
    requires forall i :: 0 <= i < 16 ==> Bit(c, i) == Bit(d, i)
    ensures Selected(remote, hint, d) && Coded(c) && Coded(d) && ShapeOf(c) == ShapeOf(d)
  {
    SelectedIsCoded(remote, hint, c);
    SelectedIsCoded(remote, hint, d);
  }

  /** `c` is the configuration built for the remote and the hint. */
  ghost predicate Built(remote: seq<bv8>, hint: Option<CodecParameters>, c: seq<bv8>)
    requires |remote| == CAPABILITIES_SIZE
  {
    Selected(remote, hint, c)
    && Coded(c)
    && Field(c, MINIMUM_BITPOOL) == BuiltMinimum(remote, hint, ShapeOf(c))
    && Field(c, MAXIMUM_BITPOOL) == BuiltMaximum(hint, ShapeOf(c))
  }

  /** What BuildConfiguration accepts, ParseConfiguration accepts. */
  lemma BuiltIsValid(remote: seq<bv8>, hint: Option<CodecParameters>, c: seq<bv8>)
    requires Buildable(remote, hint) && Built(remote, hint, c)
    ensures Valid(c) && ParseStatus(c) == OK
  {
    SelectedIsCoded(remote, hint, c);
  }

  /** Every selected bit is offered by both sides. */
  lemma BuiltFromBothSides(remote: seq<bv8>, hint: Option<CodecParameters>, c: seq<bv8>, p: nat)
    requires Buildable(remote, hint) && Built(remote, hint, c)
    requires p < MINIMUM_BITPOOL.first && Bit(c, p)
    ensures Bit(LOCAL, p) && Bit(remote, p)
  {
    LocalBits();
    var r := if p < 4 then SAMPLING_FREQUENCY else if p < 8 then CHANNEL_MODE
             else if p < 12 then BLOCK_LENGTH else if p < 14 then SUBBANDS
             else ALLOCATION_METHOD;
    assert OnlyActive(c, r, p);
    assert p in Offered(remote);
  }

  /** The built configuration is fixed by the remote capabilities and the hint. */
  lemma BuiltUnique(remote: seq<bv8>, hint: Option<CodecParameters>, c: seq<bv8>, d: seq<bv8>)
    requires |remote| == CAPABILITIES_SIZE && Built(remote, hint, c) && Built(remote, hint, d)
    ensures c == d
  {
    SelectedIsCoded(remote, hint, c);
    SelectedIsCoded(remote, hint, d);
    FieldsEqual(c, d, MINIMUM_BITPOOL);
    FieldsEqual(c, d, MAXIMUM_BITPOOL);
    SelectionsEqual(remote, hint, c, d);
    BitsDetermineVector(c, d);
  }

  lemma SelectionsEqual(remote: seq<bv8>, hint: Option<CodecParameters>, c: seq<bv8>, d: seq<bv8>)
    requires |remote| == CAPABILITIES_SIZE && Built(remote, hint, c) && Built(remote, hint, d)
    ensures forall i :: 0 <= i < 16 ==> Bit(c, i) == Bit(d, i)
  {
  }

  // ------------------------------------------------------------ from the remote's bits to the parameters

  /** The coding parameters of a configuration, bit by bit. */
  lemma ShapeFromBits(c: seq<bv8>)
    requires Coded(c)
    ensures ShapeOf(c).frequency == if Bit(c, 0) then 16000 else if Bit(c, 1) then 32000
                                    else if Bit(c, 2) then 44100 else 48000
    ensures ShapeOf(c).blocks == if Bit(c, 8) then 4 else if Bit(c, 9) then 8 else if Bit(c, 10) then 12 else 16
    ensures ShapeOf(c).subbands == if Bit(c, 13) then 4 else 8
    ensures ShapeOf(c).mode == if Bit(c, 4) then Mono else if Bit(c, 5) then Dual
                               else if Bit(c, 6) then Stereo else Joint
  {
  }

  lemma ChosenFrequency(remote: seq<bv8>, hint: Option<CodecParameters>)
    requires |remote| == CAPABILITIES_SIZE
    ensures Choice(remote, FrequencyPrefs(hint)) ==
      if HintedFrequencyOffered(remote, hint, 44100, 2) then 2
      else if HintedFrequencyOffered(remote, hint, 48000, 3) then 3
      else if Bit(remote, 2) then 2 else if Bit(remote, 3) then 3 else -1
  {
    FirstOfThree(HintBit(hint), 2, 3, Offered(remote));
    assert forall b :: 2 <= b < 4 ==> (b in Offered(remote) <==> Bit(remote, b));
  }

  /** The hint asks for the frequency, and the remote offers its bit. */
  predicate HintedFrequencyOffered(remote: seq<bv8>, hint: Option<CodecParameters>, hz: int, bit: nat)
    requires bit < 8 * |remote|
  {
    hint.Some? && hint.value.samplingFrequencyHz == hz && Bit(remote, bit)
  }

  /** The hinted frequency, if it is one of the two local ones and the remote offers it; otherwise
      44.1 kHz where the remote offers it, and 48 kHz where it does not. */
  lemma BuiltFrequency(remote: seq<bv8>, hint: Option<CodecParameters>, c: seq<bv8>)
    requires Buildable(remote, hint) && Built(remote, hint, c)
    ensures Valid(c)
    ensures Decode(c).codec.samplingFrequencyHz ==
      if HintedFrequencyOffered(remote, hint, 44100, 2) then 44100
      else if HintedFrequencyOffered(remote, hint, 48000, 3) then 48000
      else if Bit(remote, 2) then 44100 else 48000
  {
    BuiltIsValid(remote, hint, c);
    SelectedIsCoded(remote, hint, c);
    ChosenFrequency(remote, hint);
  }

  /** The remote bit that the hint's channel mode asks for. */
  predicate HintedModeOffered(remote: seq<bv8>, hint: Option<CodecParameters>, m: ChannelMode, bit: nat)
    requires bit < 8 * |remote|
  {
    hint.Some? && hint.value.channelMode == m && Bit(remote, bit)
  }

  lemma ChosenMode(remote: seq<bv8>, hint: Option<CodecParameters>)
    requires |remote| == CAPABILITIES_SIZE
    ensures Choice(remote, ModePrefs(hint)) ==
      if HintedModeOffered(remote, hint, MONO, 4) then 4
      else if HintedModeOffered(remote, hint, DUALMONO, 5) then 5
      else if Bit(remote, 7) then 7
      else if Bit(remote, 6) then 6
      else if Bit(remote, 5) then 5
      else if Bit(remote, 4) then 4 else -1
  {
    var offered, prefs := Offered(remote), ModePrefs(hint);
    assert prefs[1..] == [7, 6, 5, 4] && prefs[1..][1..] == [6, 5, 4];
    assert [7, 6, 5, 4][1..] == [6, 5, 4];
    FirstOfThree(6, 5, 4, offered);
    assert forall b :: 4 <= b < 8 ==> (b in offered <==> Bit(remote, b));
    assert FirstOf([7, 6, 5, 4], offered) == if 7 in offered then 7 else FirstOf([6, 5, 4], offered);
    assert FirstOf(prefs, offered) == if ModeHintBit(hint) in offered then ModeHintBit(hint)
                                      else FirstOf([7, 6, 5, 4], offered);
  }

  /** A mono or dual mono hint that the remote offers; otherwise stereo, joint before plain, before
      dual mono before mono. */
  lemma BuiltMode(remote: seq<bv8>, hint: Option<CodecParameters>, c: seq<bv8>)
    requires Buildable(remote, hint) && Built(remote, hint, c)
    ensures Valid(c)
    ensures Decode(c).codec.channelMode ==
      if HintedModeOffered(remote, hint, MONO, 4) then MONO
      else if HintedModeOffered(remote, hint, DUALMONO, 5) then DUALMONO
      else if Bit(remote, 7) || Bit(remote, 6) then STEREO
      else if Bit(remote, 5) then DUALMONO else MONO
    ensures Bit(c, 7) <==> Bit(remote, 7) && !HintedModeOffered(remote, hint, MONO, 4)
                           && !HintedModeOffered(remote, hint, DUALMONO, 5)
  {
    BuiltIsValid(remote, hint, c);
    SelectedIsCoded(remote, hint, c);
    ChosenMode(remote, hint);
  }

  lemma ChosenCoding(remote: seq<bv8>)
    requires |remote| == CAPABILITIES_SIZE
    ensures Choice(remote, BLOCK_PREFS) == if Bit(remote, 11) then 11 else if Bit(remote, 10) then 10
                                           else if Bit(remote, 9) then 9 else if Bit(remote, 8) then 8 else -1
    ensures Choice(remote, SUBBAND_PREFS) == if Bit(remote, 12) then 12 else if Bit(remote, 13) then 13 else -1
    ensures Choice(remote, ALLOCATION_PREFS) == if Bit(remote, 15) then 15 else if Bit(remote, 14) then 14 else -1
  {
    var offered := Offered(remote);
    assert forall b :: 8 <= b < 16 ==> (b in offered <==> Bit(remote, b));
    assert BLOCK_PREFS[1..] == [10, 9, 8];
    FirstOfThree(10, 9, 8, offered);
    assert SUBBAND_PREFS[1..] == [13] && [13][1..] == [];
    assert FirstOf([13], offered) == if 13 in offered then 13 else -1;
    assert ALLOCATION_PREFS[1..] == [14] && [14][1..] == [];
    assert FirstOf([14], offered) == if 14 in offered then 14 else -1;
  }

  /** The largest block length and band count, and loudness, as far as the remote offers them. */
  lemma BuiltCoding(remote: seq<bv8>, hint: Option<CodecParameters>, c: seq<bv8>)
    requires Buildable(remote, hint) && Built(remote, hint, c)
    ensures Valid(c)
    ensures Decode(c).blockLength == if Bit(remote, 11) then 16 else if Bit(remote, 10) then 12
                                     else if Bit(remote, 9) then 8 else 4
    ensures Decode(c).subbands == if Bit(remote, 12) then 8 else 4
    ensures Decode(c).allocationMethod == if Bit(remote, 15) then LOUDNESS else SNR
    ensures Decode(c).codec.bitdepth == 16
  {
    BuiltIsValid(remote, hint, c);
    SelectedIsCoded(remote, hint, c);
    ChosenCoding(remote);
  }

  /** What the built bitpools mean: a bitpool is at most the minimum iff the remote's minimum or a
      hinted minimum rate reaches it, and at most the maximum iff no limiting hint stands against it. */
  lemma BuiltBitpoolsMean(remote: seq<bv8>, hint: Option<CodecParameters>, c: seq<bv8>, b: nat)
    requires Buildable(remote, hint) && Built(remote, hint, c) && 2 <= b <= 250
    ensures Valid(c)
    ensures b <= Decode(c).minBitpool <==>
      b == 2 || b <= RemoteMinimum(remote)
      || (hint.Some? && Bitrate(ChosenShape(remote, hint), b) < hint.value.minBitrate)
    ensures b <= Decode(c).maxBitpool <==>
      b == 2 || !(hint.Some? && hint.value.maxBitrate != 0 && hint.value.maxBitrate >= hint.value.minBitrate)
      || Bitrate(ChosenShape(remote, hint), b) < hint.value.maxBitrate
  {
    BuiltIsValid(remote, hint, c);
    BuiltBitpools(remote, hint, c);
    if hint.Some? {
      BitpoolBelow(ChosenShape(remote, hint), hint.value.minBitrate, b);
      BitpoolBelow(ChosenShape(remote, hint), hint.value.maxBitrate, b);
    }
  }

  /** Parsing reads the bitpools from the third and the fourth byte, and gives their bit rates. */
  lemma DecodedBitpools(c: seq<bv8>)
    requires Valid(c)
    ensures var p, x := Decode(c), ShapeOf(c);
      p.minBitpool == Field(c, Range(16, 8)) && p.maxBitpool == Field(c, Range(24, 8))
      && p.codec.minBitrate == Bitrate(x, p.minBitpool) && p.codec.maxBitrate == Bitrate(x, p.maxBitpool)
  {
  }

  // ------------------------------------------------------------ bit rates end to end

  /** The bit rate is the quotient of section 12.9, rounded down. */
  lemma BitrateIsQuotient(x: Shape, bitpool: nat)
    requires ValidShape(x)
    ensures var rate, d := Bitrate(x, bitpool), x.blocks * x.subbands;
      d > 0 && rate * d <= 8 * FrameLength(x, bitpool) * x.frequency < (rate + 1) * d
  {
  }

  lemma BitpoolBelow(x: Shape, target: int, b: nat)
    requires ValidShape(x) && 2 <= b <= 250
    ensures b <= BitpoolFor(x, target) <==> b == 2 || Bitrate(x, b) < target
  {
    var l := LargestBelow(x, target, Top());
    if b <= l {
      BitrateMonotone(x, b, l);
    }
  }

  /** Building and parsing back keeps the maximum bit rate strictly below a limiting hint
      exactly when the hint exceeds the bit rate of the smallest bitpool. */
  lemma MaxBitrateBelowHint(remote: seq<bv8>, hint: CodecParameters, c: seq<bv8>)
    requires Buildable(remote, Some(hint)) && Built(remote, Some(hint), c) && Limits(hint)
    ensures Valid(c)
    ensures Decode(c).codec.maxBitrate < hint.maxBitrate
      <==> Bitrate(ChosenShape(remote, Some(hint)), 2) < hint.maxBitrate
  {
    BuiltIsValid(remote, Some(hint), c);
    SelectedShape(remote, Some(hint), c);
    var x := ShapeOf(c);
    var b := BitpoolFor(x, hint.maxBitrate);
    BitpoolBelow(x, hint.maxBitrate, b);
    BitrateMonotone(x, 2, b);
  }

  /** The built bitpools, from what is known before the call. */
  lemma BuiltBitpools(remote: seq<bv8>, hint: Option<CodecParameters>, c: seq<bv8>)
    requires Buildable(remote, hint) && Built(remote, hint, c)
    ensures Field(c, MINIMUM_BITPOOL) == BuiltMinimum(remote, hint, ChosenShape(remote, hint))
    ensures Field(c, MAXIMUM_BITPOOL) == BuiltMaximum(hint, ChosenShape(remote, hint))
  {
    SelectedShape(remote, hint, c);
  }

  /** The remote's minimum bitpool, or 2 in place of an unusable one. */
  ghost function RemoteMinimum(remote: seq<bv8>): nat
    requires |remote| == CAPABILITIES_SIZE
  {
    if SaneBitpools(remote) then Field(remote, MINIMUM_BITPOOL) else 2
  }

  /** The hint does not limit the bit rate below what bitpool `r` needs. */
  ghost predicate Allows(hint: Option<CodecParameters>, x: Shape, r: nat)
    requires ValidShape(x)
  {
    hint.Some? && Limits(hint.value) && r > 2 ==> Bitrate(x, r) < hint.value.maxBitrate
  }

  lemma MinimumBelowMaximum(remote: seq<bv8>, hint: Option<CodecParameters>, x: Shape)
    requires |remote| == CAPABILITIES_SIZE && ValidShape(x)
    ensures BuiltMinimum(remote, hint, x) <= BuiltMaximum(hint, x) <==> Allows(hint, x, RemoteMinimum(remote))
  {
    if hint.Some? && Limits(hint.value) {
      var lo := BitpoolFor(x, hint.value.minBitrate);
      BitpoolBelow(x, hint.value.minBitrate, lo);
      BitpoolBelow(x, hint.value.maxBitrate, lo);
      BitpoolBelow(x, hint.value.maxBitrate, RemoteMinimum(remote));
    }
  }

  /** The built bitpool range is not empty, except when the hint limits the bit rate below what the
      remote's own minimum bitpool needs. */
  lemma BitpoolRangeNotEmpty(remote: seq<bv8>, hint: Option<CodecParameters>, c: seq<bv8>)
    requires Buildable(remote, hint) && Built(remote, hint, c)
    ensures Field(c, MINIMUM_BITPOOL) <= Field(c, MAXIMUM_BITPOOL) <==>
      Allows(hint, ChosenShape(remote, hint), RemoteMinimum(remote))
  {
    BuiltBitpools(remote, hint, c);
    MinimumBelowMaximum(remote, hint, ChosenShape(remote, hint));
  }

  /** The built maximum bitpool respects the remote's limit exactly when that limit is 250 or a
      limiting hint already forbids the next larger bitpool: line 489 takes a maximum. */
  lemma MaximumWithinRemote(remote: seq<bv8>, hint: Option<CodecParameters>, c: seq<bv8>)
    requires Buildable(remote, hint) && SaneBitpools(remote) && Built(remote, hint, c)
    ensures var r := Field(remote, MAXIMUM_BITPOOL);
      (Field(c, MAXIMUM_BITPOOL) <= r) == AtMost(hint, ChosenShape(remote, hint), r)
  {
    BuiltBitpools(remote, hint, c);
    BuiltMaximumAtMost(hint, ChosenShape(remote, hint), Field(remote, MAXIMUM_BITPOOL));
  }

  /** Bitpool `r` is the largest there is, or the hint limits the bit rate to no more than the next
      larger bitpool needs. */
  ghost predicate AtMost(hint: Option<CodecParameters>, x: Shape, r: nat)
    requires ValidShape(x)
  {
    r == 250 || (hint.Some? && Limits(hint.value) && Bitrate(x, r + 1) >= hint.value.maxBitrate)
  }

  lemma BuiltMaximumAtMost(hint: Option<CodecParameters>, x: Shape, r: nat)
    requires ValidShape(x) && 2 <= r <= 250
    ensures (BuiltMaximum(hint, x) <= r) == AtMost(hint, x, r)
  {
    if r < 250 && hint.Some? {
      BitpoolBelow(x, hint.value.maxBitrate, r + 1);
    }
  }

  // ------------------------------------------------------------ two remotes that show the limits

  lemma ExampleBytes(k: nat)
    requires k < 8
    ensures BitOfByte(0x21, k) <==> k == 2 || k == 7
    ensures BitOfByte(0x19, k) <==> k == 3 || k == 4 || k == 7
    ensures BitOfByte(0x35, k) <==> k == 2 || k == 3 || k == 5 || k == 7
  {
  }

  /** 44.1 kHz, joint stereo, 16 blocks, 8 subbands, loudness; both bitpool limits are 53. */
  const EXAMPLE: seq<bv8> := [0x21, 0x19, 0x35, 0x35]

  lemma ExampleFields()
    ensures Offered(EXAMPLE) == {2, 7, 11, 12, 15}
    ensures Field(EXAMPLE, MINIMUM_BITPOOL) == 53 && Field(EXAMPLE, MAXIMUM_BITPOOL) == 53
  {
    forall i: int | 0 <= i < 16
      ensures Bit(EXAMPLE, i) <==> i in {2, 7, 11, 12, 15}
    {
      ExampleBytes(i % 8);
    }
    forall k | 0 <= k < 8
      ensures Slice(EXAMPLE, 16, 8)[k] == (k == 2 || k == 3 || k == 5 || k == 7)
      ensures Slice(EXAMPLE, 24, 8)[k] == (k == 2 || k == 3 || k == 5 || k == 7)
    {
      ExampleBytes(k);
    }
    NibblesValue(Slice(EXAMPLE, 16, 8));
    NibblesValue(Slice(EXAMPLE, 24, 8));
  }

  /** Without a hint the maximum is 250, although the remote allows no more than 53. */
  lemma RemoteMaximumExceeded(c: seq<bv8>)
    ensures Buildable(EXAMPLE, None)
    ensures Built(EXAMPLE, None, c) ==>
      Field(EXAMPLE, MAXIMUM_BITPOOL) == 53 && Field(c, MAXIMUM_BITPOOL) == 250
  {
    ExampleFields();
  }

  const LOW_RATE := CodecParameters(UNKNOWN, 0, 16, 0, 100000)

  lemma ExampleChoices()
    ensures Buildable(EXAMPLE, Some(LOW_RATE))
    ensures Choice(EXAMPLE, FrequencyPrefs(Some(LOW_RATE))) == 2
    ensures Choice(EXAMPLE, ModePrefs(Some(LOW_RATE))) == 7
    ensures Choice(EXAMPLE, BLOCK_PREFS) == 11
    ensures Choice(EXAMPLE, SUBBAND_PREFS) == 12
    ensures ChosenShape(EXAMPLE, Some(LOW_RATE)) == Shape(44100, 16, 8, Joint)
  {
    ExampleFields();
    var offered := Offered(EXAMPLE);
    FirstOfAt(FrequencyPrefs(Some(LOW_RATE)), offered, 1);
    FirstOfAt(ModePrefs(Some(LOW_RATE)), offered, 1);
    FirstOfAt(BLOCK_PREFS, offered, 0);
    FirstOfAt(SUBBAND_PREFS, offered, 0);
  }

  lemma ExampleRate()
    ensures Bitrate(Shape(44100, 16, 8, Joint), 53) >= 100000
  {
    assert FrameLength(Shape(44100, 16, 8, Joint), 53) == 119;
  }

  lemma ExampleTooLow()
    ensures Buildable(EXAMPLE, Some(LOW_RATE)) && RemoteMinimum(EXAMPLE) == 53
    ensures !Allows(Some(LOW_RATE), ChosenShape(EXAMPLE, Some(LOW_RATE)), 53)
  {
    ExampleChoices();
    ExampleFields();
    ExampleRate();
  }

  /** A hint of at most 100 kbit/s makes the range empty: the minimum stays 53. */
  lemma BitpoolRangeEmpty(c: seq<bv8>)
    requires Built(EXAMPLE, Some(LOW_RATE), c)
    ensures Buildable(EXAMPLE, Some(LOW_RATE))
    ensures Field(c, MINIMUM_BITPOOL) > Field(c, MAXIMUM_BITPOOL)
  {
    ExampleTooLow();
    BitpoolRangeNotEmpty(EXAMPLE, Some(LOW_RATE), c);
  }

  // ------------------------------------------------------------ the codec object

  lemma CapabilitiesAre(caps: seq<bv8>)
    requires HasLocalBits(caps) && HasLocalBitpools(caps)
    ensures caps == LOCAL
  {
    LocalBits();
    LocalBitpools();
    FieldsEqual(caps, LOCAL, MINIMUM_BITPOOL);
    FieldsEqual(caps, LOCAL, MAXIMUM_BITPOOL);
    BitsDetermineVector(caps, LOCAL);
  }

  ghost predicate HasLocalBits(caps: seq<bv8>) {
    |caps| == CAPABILITIES_SIZE && forall i :: 0 <= i < 16 ==> (Bit(caps, i) <==> LocalBit(i))
  }

  ghost predicate HasLocalBitpools(caps: seq<bv8>) {
    |caps| == CAPABILITIES_SIZE
    && Field(caps, MINIMUM_BITPOOL) == 2 && Field(caps, MAXIMUM_BITPOOL) == 250
  }

  /** Five set bits, one in each field, are the active bits of those fields. */
  lemma SelectedFields(c: seq<bv8>, f: int, m: int, b: int, s: int, a: int)
    requires |c| == CAPABILITIES_SIZE
    requires 0 <= f < 4 <= m < 8 <= b < 12 <= s < 14 <= a < 16
    requires forall i :: 0 <= i < 16 ==> (Bit(c, i) <==> i in {f, m, b, s, a})
    ensures OnlyActive(c, SAMPLING_FREQUENCY, f) && ActiveBit(c, SAMPLING_FREQUENCY) == f
    ensures OnlyActive(c, CHANNEL_MODE, m) && ActiveBit(c, CHANNEL_MODE) == m
    ensures OnlyActive(c, BLOCK_LENGTH, b) && ActiveBit(c, BLOCK_LENGTH) == b
    ensures OnlyActive(c, SUBBANDS, s) && ActiveBit(c, SUBBANDS) == s
    ensures OnlyActive(c, ALLOCATION_METHOD, a)
  {
    ActiveBitUnique(c, SAMPLING_FREQUENCY, f);
    ActiveBitUnique(c, CHANNEL_MODE, m);
    ActiveBitUnique(c, BLOCK_LENGTH, b);
    ActiveBitUnique(c, SUBBANDS, s);
  }

  method EnableFrequenciesAndModes(caps: ByteVector)
    requires |caps.data| == CAPABILITIES_SIZE
    modifies caps
    ensures |caps.data| == CAPABILITIES_SIZE
    ensures forall i :: 0 <= i < 32 ==> Bit(caps.data, i) == (2 <= i < 8 || Bit(old(caps.data), i))
  {
    caps.SetBit(2);
    caps.SetBit(3);
    caps.SetBit(4);
    caps.SetBit(5);
    caps.SetBit(6);
    caps.SetBit(7);
  }

  method EnableBlocksAndBands(caps: ByteVector)
    requires |caps.data| == CAPABILITIES_SIZE
    modifies caps
    ensures |caps.data| == CAPABILITIES_SIZE
    ensures forall i :: 0 <= i < 32 ==> Bit(caps.data, i) == (8 <= i < 16 || Bit(old(caps.data), i))
  {
    caps.SetBit(8);
    caps.SetBit(9);
    caps.SetBit(10);
    caps.SetBit(11);
    caps.SetBit(13);
    caps.SetBit(12);
    caps.SetBit(14);
    caps.SetBit(15);
  }

  method WriteBitpools(config: ByteVector, lo: nat, hi: nat)
    requires |config.data| == CAPABILITIES_SIZE && lo < 256 && hi < 256
    modifies config
    ensures |config.data| == CAPABILITIES_SIZE
    ensures forall i :: 0 <= i < 16 ==> Bit(old(config.data), i) == Bit(config.data, i)
    ensures Field(config.data, MINIMUM_BITPOOL) == lo && Field(config.data, MAXIMUM_BITPOOL) == hi
  {
    assert Pow2(8) == 256;
    config.SetRange(MINIMUM_BITPOOL, lo);
    ghost var before := config.data;
    config.SetRange(MAXIMUM_BITPOOL, hi);
    FieldFrame(before, config.data, MINIMUM_BITPOOL);
  }

  class A2dpOffloadCodecSbc {
    const capabilities: seq<bv8>

    constructor ()
      ensures capabilities == LOCAL
      ensures HasLocalBits(capabilities) && HasLocalBitpools(capabilities)
    {
      var caps := new ByteVector();
      caps.Clear(CAPABILITIES_SIZE);
      EnableFrequenciesAndModes(caps);
      EnableBlocksAndBands(caps);
      WriteBitpools(caps, 2, 250);
      capabilities := caps.data;
      CapabilitiesAre(caps.data);
    }

    method ParseConfiguration(c: seq<bv8>) returns (status: A2dpStatus, out: Option<SbcParameters>)
      requires HasLocalBits(capabilities) && HasLocalBitpools(capabilities)
      ensures status == ParseStatus(c)
      ensures out == if Valid(c) then Some(Decode(c)) else None
    {
      out := None;
      if |c| != |capabilities| {
        return BAD_LENGTH, None;
      }
      var frequency := FindActiveBit(c, SAMPLING_FREQUENCY);
      if frequency < 0 { return INVALID_SAMPLING_FREQUENCY, None; }
      if !Bit(capabilities, frequency) { return NOT_SUPPORTED_SAMPLING_FREQUENCY, None; }
      var mode := FindActiveBit(c, CHANNEL_MODE);
      if mode < 0 { return INVALID_CHANNEL_MODE, None; }
      if !Bit(capabilities, mode) { return NOT_SUPPORTED_CHANNEL_MODE, None; }
      var blocks := FindActiveBit(c, BLOCK_LENGTH);
      if blocks < 0 { return INVALID_BLOCK_LENGTH, None; }
      var subbands := FindActiveBit(c, SUBBANDS);
      if subbands < 0 { return INVALID_SUBBANDS, None; }
      if !Bit(capabilities, subbands) { return NOT_SUPPORTED_SUBBANDS, None; }
      var allocation := FindActiveBit(c, ALLOCATION_METHOD);
      if allocation < 0 { return INVALID_ALLOCATION_METHOD, None; }
      if !Bit(capabilities, allocation) { return NOT_SUPPORTED_ALLOCATION_METHOD, None; }

      var lo := GetRange(c, MINIMUM_BITPOOL);
      if lo < 2 || lo > 250 { return INVALID_MINIMUM_BITPOOL_VALUE, None; }
      var localMin := GetRange(capabilities, MINIMUM_BITPOOL);
      if lo < localMin { return NOT_SUPPORTED_MINIMUM_BITPOOL_VALUE, None; }
      var hi := GetRange(c, MAXIMUM_BITPOOL);
      if hi < 2 || hi > 250 { return INVALID_MAXIMUM_BITPOOL_VALUE, None; }
      var localMax := GetRange(capabilities, MAXIMUM_BITPOOL);
      if hi > localMax { return NOT_SUPPORTED_MAXIMUM_BITPOOL_VALUE, None; }

      var minBitrate := GetBitrate(c, lo);
      var maxBitrate := GetBitrate(c, hi);
      return OK, Some(SbcParameters(
        CodecParameters(ChannelModeEnum(mode), FrequencyValue(frequency), BITDEPTH,
                        minBitrate, maxBitrate),
        AllocationEnum(allocation), BlockLengthValue(blocks), SubbandsValue(subbands), lo, hi));
    }

    method ChooseFrequency(rcaps: seq<bv8>, hint: Option<CodecParameters>) returns (p: int)
      requires HasLocalBits(capabilities) && |rcaps| == CAPABILITIES_SIZE
      ensures p == Choice(rcaps, FrequencyPrefs(hint)) && (p == -1 || 0 <= p < 4)
    {
      p := HintBit(hint);
      if p >= 0 && Bit(capabilities, p) && Bit(rcaps, p) {
        FirstOfAt(FrequencyPrefs(hint), Offered(rcaps), 0);
      } else if Bit(capabilities, 2) && Bit(rcaps, 2) {
        p := 2;
        FirstOfAt(FrequencyPrefs(hint), Offered(rcaps), 1);
      } else if Bit(capabilities, 3) && Bit(rcaps, 3) {
        p := 3;
        FirstOfAt(FrequencyPrefs(hint), Offered(rcaps), 2);
      } else {
        p := -1;
      }
    }

    method ChooseMode(rcaps: seq<bv8>, hint: Option<CodecParameters>) returns (p: int)
      requires HasLocalBits(capabilities) && |rcaps| == CAPABILITIES_SIZE
      ensures p == Choice(rcaps, ModePrefs(hint)) && (p == -1 || 4 <= p < 8)
    {
      p := ModeHintBit(hint);
      if p >= 0 && Bit(capabilities, p) && Bit(rcaps, p) {
        FirstOfAt(ModePrefs(hint), Offered(rcaps), 0);
      } else if Bit(capabilities, 7) && Bit(rcaps, 7) {
        p := 7;
        FirstOfAt(ModePrefs(hint), Offered(rcaps), 1);
      } else if Bit(capabilities, 6) && Bit(rcaps, 6) {
        p := 6;
        FirstOfAt(ModePrefs(hint), Offered(rcaps), 2);
      } else if Bit(capabilities, 5) && Bit(rcaps, 5) {
        p := 5;
        FirstOfAt(ModePrefs(hint), Offered(rcaps), 3);
      } else if Bit(capabilities, 4) && Bit(rcaps, 4) {
        p := 4;
        FirstOfAt(ModePrefs(hint), Offered(rcaps), 4);
      } else {
        p := -1;
      }
    }

    method ChooseBlocks(rcaps: seq<bv8>) returns (p: int)
      requires HasLocalBits(capabilities) && |rcaps| == CAPABILITIES_SIZE
      ensures p == Choice(rcaps, BLOCK_PREFS) && (p == -1 || 8 <= p < 12)
    {
      if Bit(capabilities, 11) && Bit(rcaps, 11) {
        p := 11;
        FirstOfAt(BLOCK_PREFS, Offered(rcaps), 0);
      } else if Bit(capabilities, 10) && Bit(rcaps, 10) {
        p := 10;
        FirstOfAt(BLOCK_PREFS, Offered(rcaps), 1);
      } else if Bit(capabilities, 9) && Bit(rcaps, 9) {
        p := 9;
        FirstOfAt(BLOCK_PREFS, Offered(rcaps), 2);
      } else if Bit(capabilities, 8) && Bit(rcaps, 8) {
        p := 8;
        FirstOfAt(BLOCK_PREFS, Offered(rcaps), 3);
      } else {
        p := -1;
      }
    }

    method ChooseSubbands(rcaps: seq<bv8>) returns (p: int)
      requires HasLocalBits(capabilities) && |rcaps| == CAPABILITIES_SIZE
      ensures p == Choice(rcaps, SUBBAND_PREFS) && (p == -1 || 12 <= p < 14)
    {
      if Bit(capabilities, 12) && Bit(rcaps, 12) {
        p := 12;
        FirstOfAt(SUBBAND_PREFS, Offered(rcaps), 0);
      } else if Bit(capabilities, 13) && Bit(rcaps, 13) {
        p := 13;
        FirstOfAt(SUBBAND_PREFS, Offered(rcaps), 1);
      } else {
        p := -1;
      }
    }

    method ChooseAllocation(rcaps: seq<bv8>) returns (p: int)
      requires HasLocalBits(capabilities) && |rcaps| == CAPABILITIES_SIZE
      ensures p == Choice(rcaps, ALLOCATION_PREFS) && (p == -1 || 14 <= p < 16)
    {
      if Bit(capabilities, 15) && Bit(rcaps, 15) {
        p := 15;
        FirstOfAt(ALLOCATION_PREFS, Offered(rcaps), 0);
      } else if Bit(capabilities, 14) && Bit(rcaps, 14) {
        p := 14;
        FirstOfAt(ALLOCATION_PREFS, Offered(rcaps), 1);
      } else {
        p := -1;
      }
    }

    /** The bitpools come from the configuration as it stands before its bitpool fields are
        written. */
    method ChooseBitpools(rcaps: seq<bv8>, hint: Option<CodecParameters>, c: seq<bv8>)
      returns (lo: nat, hi: nat)
      requires HasLocalBitpools(capabilities) && |rcaps| == CAPABILITIES_SIZE && Coded(c)
      ensures lo == BuiltMinimum(rcaps, hint, ShapeOf(c))
      ensures hi == BuiltMaximum(hint, ShapeOf(c))
    {
      lo := GetRange(rcaps, MINIMUM_BITPOOL);
      hi := GetRange(rcaps, MAXIMUM_BITPOOL);
      if lo < 2 || lo > 250 || hi < 2 || hi > 250 || lo > hi {
        lo, hi := 2, 250;
      }
      var localMin := GetRange(capabilities, MINIMUM_BITPOOL);
      var localMax := GetRange(capabilities, MAXIMUM_BITPOOL);
      lo, hi := Max(lo, localMin), Max(hi, localMax);
      if hint.Some? {
        var b := GetBitpool(c, hint.value.minBitrate);
        lo := Max(lo, b);
        if hint.value.maxBitrate != 0 && hint.value.maxBitrate >= hint.value.minBitrate {
          var t := GetBitpool(c, hint.value.maxBitrate);
          hi := Min(hi, t);
        }
      }
    }

    /** Chooses and sets one bit in each of the five selection fields. */
    method SelectFields(rcaps: seq<bv8>, hint: Option<CodecParameters>, config: ByteVector)
      returns (ok: bool)
      requires HasLocalBits(capabilities) && |rcaps| == |config.data| == CAPABILITIES_SIZE
      requires Blank(config.data, Range(0, 32))
      modifies config
      ensures ok <==> Buildable(rcaps, hint)
      ensures ok ==> Selected(rcaps, hint, config.data)
    {
      var f := ChooseFrequency(rcaps, hint);
      if f < 0 { return false; }
      config.SetBit(f);
      var m := ChooseMode(rcaps, hint);
      if m < 0 { return false; }
      config.SetBit(m);
      var b := ChooseBlocks(rcaps);
      if b < 0 { return false; }
      config.SetBit(b);
      var s := ChooseSubbands(rcaps);
      if s < 0 { return false; }
      config.SetBit(s);
      var a := ChooseAllocation(rcaps);
      if a < 0 { return false; }
      config.SetBit(a);
      SelectedFields(config.data, f, m, b, s, a);
      return true;
    }

    /** On failure the configuration may be left half written; a remote vector of the wrong
        length leaves it alone. */
    method BuildConfiguration(rcaps: seq<bv8>, hint: Option<CodecParameters>, config: ByteVector)
      returns (ok: bool)
      requires HasLocalBits(capabilities) && HasLocalBitpools(capabilities)
      modifies config
      ensures ok <==> Buildable(rcaps, hint)
      ensures ok ==> Built(rcaps, hint, config.data)
      ensures |rcaps| != CAPABILITIES_SIZE ==> config.data == old(config.data)
    {
      if |rcaps| != |capabilities| {
        return false;
      }
      config.Clear(|capabilities|);
      ok := SelectFields(rcaps, hint, config);
      if !ok {
        return;
      }
      ghost var selected := config.data;
      SelectedIsCoded(rcaps, hint, selected);
      var lo, hi := ChooseBitpools(rcaps, hint, config.data);
      WriteBitpools(config, lo, hi);
      SelectedFrame(rcaps, hint, selected, config.data);
    }
  }
}
