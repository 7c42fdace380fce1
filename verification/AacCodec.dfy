/**
 The AAC offload codec (bluetooth/audio/hal/A2dpOffloadCodecAac.cpp). Field positions follow
 section 4.5 of the Bluetooth A2DP specification.
 */
module AacCodec {
  import opened A2dpBits
  import opened A2dpCodec
  import opened Options

  const OBJECT_TYPE := Range(0, 7)
  const SAMPLING_FREQUENCY := Range(8, 12)
  const CHANNELS := Range(20, 4)
  const VBR_SUPPORTED := Range(24, 1)
  const BITRATE := Range(25, 23)
  const CAPABILITIES_SIZE := 6

  const BITDEPTH := 24

  /** The local capabilities: MPEG-2 and MPEG-4 AAC LC, 44.1 and 48 kHz, one and two channels,
      variable bit rate, no bit rate limit. */
  const LOCAL: seq<bv8> := [0xC0, 0x01, 0x8C, 0x80, 0x00, 0x00]

  /** The bits of LOCAL; see LocalBits. */
  predicate LocalBit(i: int) {
    i in {0, 1, 15, 16, 20, 21, 24}
  }

  // ------------------------------------------------------------ conversions

  datatype ObjectType = MPEG2_AAC_LC | MPEG4_AAC_LC

  function ObjectTypeEnum(bit: int): ObjectType {
    if bit == 0 then MPEG2_AAC_LC else MPEG4_AAC_LC
  }

  function FrequencyBit(hz: int): int {
    match hz
    case 8000 => 8
    case 11025 => 9
    case 12000 => 10
    case 16000 => 11
    case 22050 => 12
    case 24000 => 13
    case 32000 => 14
    case 44100 => 15
    case 48000 => 16
    case 64000 => 17
    case 88200 => 18
    case 96000 => 19
    case _ => -1
  }

  function FrequencyValue(bit: int): int {
    match bit
    case 8 => 8000
    case 9 => 11025
    case 10 => 12000
    case 11 => 16000
    case 12 => 22050
    case 13 => 24000
    case 14 => 32000
    case 15 => 44100
    case 16 => 48000
    case 17 => 64000
    case 18 => 88200
    case 19 => 96000
    case _ => 0
  }

  function ChannelsBit(m: ChannelMode): int {
    match m
    case MONO => 20
    case STEREO => 21
    case _ => -1
  }

  function ChannelModeEnum(bit: int): ChannelMode {
    match bit
    case 20 => MONO
    case 21 => STEREO
    case _ => UNKNOWN
  }

  // ------------------------------------------------------------ parsing

  datatype AacParameters = AacParameters(codec: CodecParameters, objectType: ObjectType)

  ghost predicate Supported(c: seq<bv8>, r: Range)
    requires |c| == CAPABILITIES_SIZE && InBounds(c, r)
  {
    LocalBit(ActiveBit(c, r))
  }

  /** A well-formed AAC configuration within the local capabilities, which allow a variable bit
      rate and limit no bit rate. */
  ghost predicate Valid(c: seq<bv8>) {
    |c| == CAPABILITIES_SIZE
    && Supported(c, OBJECT_TYPE) && Supported(c, SAMPLING_FREQUENCY) && Supported(c, CHANNELS)
  }

  ghost function Decode(c: seq<bv8>): AacParameters
    requires Valid(c)
  {
    var rate := Field(c, BITRATE);
    AacParameters(
      CodecParameters(ChannelModeEnum(ActiveBit(c, CHANNELS)),
                      FrequencyValue(ActiveBit(c, SAMPLING_FREQUENCY)), BITDEPTH,
                      if Bit(c, 24) then 0 else rate, rate),
      ObjectTypeEnum(ActiveBit(c, OBJECT_TYPE)))
  }

  /** The first check of ParseConfiguration that `c` fails, in the order of the source. */
  ghost function ParseStatus(c: seq<bv8>): (status: A2dpStatus)
    ensures status == OK <==> Valid(c)
  {
    if |c| != CAPABILITIES_SIZE then BAD_LENGTH
    else if ActiveBit(c, OBJECT_TYPE) == -1 then INVALID_OBJECT_TYPE
    else if !Supported(c, OBJECT_TYPE) then NOT_SUPPORTED_OBJECT_TYPE
    else if ActiveBit(c, SAMPLING_FREQUENCY) == -1 then INVALID_SAMPLING_FREQUENCY
    else if !Supported(c, SAMPLING_FREQUENCY) then NOT_SUPPORTED_SAMPLING_FREQUENCY
    else if ActiveBit(c, CHANNELS) == -1 then INVALID_CHANNELS
    else if !Supported(c, CHANNELS) then NOT_SUPPORTED_CHANNELS
    else OK
  }

  // ------------------------------------------------------------ building

  function HintBit(hint: Option<CodecParameters>): int {
    if hint.Some? then FrequencyBit(hint.value.samplingFrequencyHz) else -1
  }

  function ChannelsHintBit(hint: Option<CodecParameters>): int {
    if hint.Some? then ChannelsBit(hint.value.channelMode) else -1
  }

  // The order in which each field's bits are tried.
  const OBJECT_PREFS: seq<int> := [0, 1]
  function FrequencyPrefs(hint: Option<CodecParameters>): seq<int> { [HintBit(hint), 19, 18, 16, 15] }
  function ChannelsPrefs(hint: Option<CodecParameters>): seq<int> { [ChannelsHintBit(hint), 21, 20] }

  /** The selection bits that both sides set. */
  ghost function Offered(remote: seq<bv8>): (offered: set<int>)
    requires |remote| == CAPABILITIES_SIZE
    ensures -1 !in offered
  {
    set i: int | 0 <= i < 24 && LocalBit(i) && Bit(remote, i)
  }

  ghost function Choice(remote: seq<bv8>, prefs: seq<int>): int
    requires |remote| == CAPABILITIES_SIZE
  {
    FirstOf(prefs, Offered(remote))
  }

  /** Building succeeds exactly when every field has a bit that both sides set. */
  ghost predicate Buildable(remote: seq<bv8>, hint: Option<CodecParameters>) {
    |remote| == CAPABILITIES_SIZE
    && Choice(remote, OBJECT_PREFS) != -1
    && Choice(remote, FrequencyPrefs(hint)) != -1
    && Choice(remote, ChannelsPrefs(hint)) != -1
  }

  ghost predicate Selected(remote: seq<bv8>, hint: Option<CodecParameters>, c: seq<bv8>)
    requires |remote| == CAPABILITIES_SIZE
  {
    |c| == CAPABILITIES_SIZE
    && OnlyActive(c, OBJECT_TYPE, Choice(remote, OBJECT_PREFS))
    && !Bit(c, 7)
    && OnlyActive(c, SAMPLING_FREQUENCY, Choice(remote, FrequencyPrefs(hint)))
    && OnlyActive(c, CHANNELS, Choice(remote, ChannelsPrefs(hint)))
  }

  /** A variable bit rate is asked for when both sides can and the hint sets no minimum. */
  ghost predicate BuiltVbr(remote: seq<bv8>, hint: Option<CodecParameters>)
    requires |remote| == CAPABILITIES_SIZE
  {
    (hint.None? || hint.value.minBitrate == 0) && Bit(remote, 24)
  }

  /** The hinted bit rate cut to the 23 bits of its field. */
  ghost function BuiltBitrate(hint: Option<CodecParameters>): nat {
    if hint.Some? && hint.value.maxBitrate > 0 then hint.value.maxBitrate % 0x80_0000 else 0
  }

  /** `c` is the configuration built for the remote and the hint. */
  ghost predicate Built(remote: seq<bv8>, hint: Option<CodecParameters>, c: seq<bv8>)
    requires |remote| == CAPABILITIES_SIZE
  {
    Selected(remote, hint, c)
    && Bit(c, 24) == BuiltVbr(remote, hint)
    && Field(c, BITRATE) == BuiltBitrate(hint)
  }

  /** Writing the bit rate fields leaves the selection alone. */
  lemma SelectedFrame(remote: seq<bv8>, hint: Option<CodecParameters>,
                      c: seq<bv8>, d: seq<bv8>, e: seq<bv8>)
    requires |remote| == CAPABILITIES_SIZE && Selected(remote, hint, c)
    requires SameOutside(c, d, VBR_SUPPORTED) && SameOutside(d, e, BITRATE)
    ensures Selected(remote, hint, e) && Bit(e, 24) == Bit(d, 24)
  {
    assert forall i :: 0 <= i < 24 ==> Bit(e, i) == Bit(c, i);
  }

  lemma SelectedActive(remote: seq<bv8>, hint: Option<CodecParameters>, c: seq<bv8>)
    requires |remote| == CAPABILITIES_SIZE && Selected(remote, hint, c)
    ensures ActiveBit(c, OBJECT_TYPE) == Choice(remote, OBJECT_PREFS)
    ensures ActiveBit(c, SAMPLING_FREQUENCY) == Choice(remote, FrequencyPrefs(hint))
    ensures ActiveBit(c, CHANNELS) == Choice(remote, ChannelsPrefs(hint))
  {
    ActiveBitUnique(c, OBJECT_TYPE, Choice(remote, OBJECT_PREFS));
    ActiveBitUnique(c, SAMPLING_FREQUENCY, Choice(remote, FrequencyPrefs(hint)));
    ActiveBitUnique(c, CHANNELS, Choice(remote, ChannelsPrefs(hint)));
  }

  /** What BuildConfiguration accepts, ParseConfiguration accepts. */
  lemma BuiltIsValid(remote: seq<bv8>, hint: Option<CodecParameters>, c: seq<bv8>)
    requires Buildable(remote, hint) && Built(remote, hint, c)
    ensures Valid(c) && ParseStatus(c) == OK
  {
    SelectedActive(remote, hint, c);
  }

  /** Every selected bit is offered by both sides. */
  lemma BuiltFromBothSides(remote: seq<bv8>, hint: Option<CodecParameters>, c: seq<bv8>, p: nat)
    requires Buildable(remote, hint) && Built(remote, hint, c)
    requires p < 24 && Bit(c, p)
    ensures Bit(LOCAL, p) && Bit(remote, p)
  {
    LocalBits();
    var r := if p < 8 then OBJECT_TYPE else if p < 20 then SAMPLING_FREQUENCY else CHANNELS;
    assert OnlyActive(c, r, p);
    assert p in Offered(remote);
  }

  /** The built configuration is fixed by the remote capabilities and the hint. */
  lemma BuiltUnique(remote: seq<bv8>, hint: Option<CodecParameters>, c: seq<bv8>, d: seq<bv8>)
    requires |remote| == CAPABILITIES_SIZE && Built(remote, hint, c) && Built(remote, hint, d)
    ensures c == d
  {
    SelectedUnique(remote, hint, c, d);
    FieldsDetermineVector(c, d);
  }

  lemma FieldsDetermineVector(c: seq<bv8>, d: seq<bv8>)
    requires |c| == |d| == CAPABILITIES_SIZE && Bit(c, 24) == Bit(d, 24)
    requires forall i :: 0 <= i < 24 ==> Bit(c, i) == Bit(d, i)
    requires Field(c, BITRATE) == Field(d, BITRATE)
    ensures c == d
  {
    FieldsEqual(c, d, BITRATE);
    BitsDetermineVector(c, d);
  }

  lemma SelectedUnique(remote: seq<bv8>, hint: Option<CodecParameters>, c: seq<bv8>, d: seq<bv8>)
    requires |remote| == CAPABILITIES_SIZE && Selected(remote, hint, c) && Selected(remote, hint, d)
    ensures forall i :: 0 <= i < 24 ==> Bit(c, i) == Bit(d, i)
  {
    SelectionEqual(c, d, OBJECT_TYPE, Choice(remote, OBJECT_PREFS));
    SelectionEqual(c, d, SAMPLING_FREQUENCY, Choice(remote, FrequencyPrefs(hint)));
    SelectionEqual(c, d, CHANNELS, Choice(remote, ChannelsPrefs(hint)));
    assert Bit(c, 7) == Bit(d, 7);
  }

  lemma SelectionEqual(c: seq<bv8>, d: seq<bv8>, r: Range, p: int)
    requires InBounds(c, r) && InBounds(d, r) && OnlyActive(c, r, p) && OnlyActive(d, r, p)
    ensures forall i :: r.first <= i < r.first + r.len ==> Bit(c, i) == Bit(d, i)
  {
  }

  /** The hint asks for the frequency, and the remote offers its bit. */
  predicate HintedFrequencyOffered(remote: seq<bv8>, hint: Option<CodecParameters>, hz: int, bit: nat)
    requires bit < 8 * |remote|
  {
    hint.Some? && hint.value.samplingFrequencyHz == hz && Bit(remote, bit)
  }

  predicate HintedChannelsOffered(remote: seq<bv8>, hint: Option<CodecParameters>, m: ChannelMode, bit: nat)
    requires bit < 8 * |remote|
  {
    hint.Some? && hint.value.channelMode == m && Bit(remote, bit)
  }

  lemma OfferedFrequencies(remote: seq<bv8>)
    requires |remote| == CAPABILITIES_SIZE
    ensures 18 !in Offered(remote) && 19 !in Offered(remote)
    ensures 15 in Offered(remote) <==> Bit(remote, 15)
    ensures 16 in Offered(remote) <==> Bit(remote, 16)
    ensures forall b :: 8 <= b < 20 && b in Offered(remote) ==> b == 15 || b == 16
  {
  }

  lemma HintIsOffered(remote: seq<bv8>, hint: Option<CodecParameters>)
    requires |remote| == CAPABILITIES_SIZE
    ensures HintBit(hint) in Offered(remote) <==>
      HintedFrequencyOffered(remote, hint, 44100, 15) || HintedFrequencyOffered(remote, hint, 48000, 16)
  {
    OfferedFrequencies(remote);
    var bit := HintBit(hint);
    assert bit == -1 || 8 <= bit < 20;
    assert bit == 15 <==> hint.Some? && hint.value.samplingFrequencyHz == 44100;
    assert bit == 16 <==> hint.Some? && hint.value.samplingFrequencyHz == 48000;
  }

  lemma ChosenFrequency(remote: seq<bv8>, hint: Option<CodecParameters>)
    requires |remote| == CAPABILITIES_SIZE
    ensures Choice(remote, FrequencyPrefs(hint)) ==
      if HintedFrequencyOffered(remote, hint, 44100, 15) then 15
      else if HintedFrequencyOffered(remote, hint, 48000, 16) then 16
      else if Bit(remote, 16) then 16 else if Bit(remote, 15) then 15 else -1
  {
    OfferedFrequencies(remote);
    HintIsOffered(remote, hint);
    FirstFrequency(HintBit(hint), Offered(remote));
  }

  lemma FirstFrequency(h: int, offered: set<int>)
    requires -1 !in offered && 18 !in offered && 19 !in offered
    ensures FirstOf([h, 19, 18, 16, 15], offered) ==
      if h in offered then h else if 16 in offered then 16 else if 15 in offered then 15 else -1
  {
    var prefs := [h, 19, 18, 16, 15];
    assert prefs[1..] == [19, 18, 16, 15] && [19, 18, 16, 15][1..] == [18, 16, 15];
    FirstOfThree(18, 16, 15, offered);
    assert FirstOf([19, 18, 16, 15], offered) == FirstOf([18, 16, 15], offered);
    assert FirstOf(prefs, offered) == if h in offered then h else FirstOf([19, 18, 16, 15], offered);
  }

  lemma ChosenRest(remote: seq<bv8>, hint: Option<CodecParameters>)
    requires |remote| == CAPABILITIES_SIZE
    ensures Choice(remote, ChannelsPrefs(hint)) ==
      if HintedChannelsOffered(remote, hint, MONO, 20) then 20
      else if HintedChannelsOffered(remote, hint, STEREO, 21) then 21
      else if Bit(remote, 21) then 21 else if Bit(remote, 20) then 20 else -1
    ensures Choice(remote, OBJECT_PREFS) == if Bit(remote, 0) then 0 else if Bit(remote, 1) then 1 else -1
  {
    var offered := Offered(remote);
    assert forall b :: b in {0, 1, 20, 21} ==> (b in offered <==> Bit(remote, b));
    FirstOfThree(ChannelsHintBit(hint), 21, 20, offered);
    assert OBJECT_PREFS[1..] == [1] && [1][1..] == [];
    assert FirstOf([1], offered) == if 1 in offered then 1 else -1;
  }

  /** The hinted frequency, if it is one of the two local ones and the remote offers it; otherwise
      48 kHz where the remote offers it, and 44.1 kHz where it does not. */
  lemma BuiltFrequency(remote: seq<bv8>, hint: Option<CodecParameters>, c: seq<bv8>)
    requires Buildable(remote, hint) && Built(remote, hint, c)
    ensures Valid(c)
    ensures Decode(c).codec.samplingFrequencyHz ==
      if HintedFrequencyOffered(remote, hint, 44100, 15) then 44100
      else if HintedFrequencyOffered(remote, hint, 48000, 16) then 48000
      else if Bit(remote, 16) then 48000 else 44100
  {
    BuiltIsValid(remote, hint, c);
    SelectedActive(remote, hint, c);
    ChosenFrequency(remote, hint);
  }

  /** The hinted channels, if the remote offers them, otherwise stereo before mono; MPEG-2 before
      MPEG-4; a minimum bit rate of 0 exactly when the rate is variable. */
  lemma BuiltParameters(remote: seq<bv8>, hint: Option<CodecParameters>, c: seq<bv8>)
    requires Buildable(remote, hint) && Built(remote, hint, c)
    ensures Valid(c)
    ensures Decode(c).codec.channelMode ==
      if HintedChannelsOffered(remote, hint, MONO, 20) then MONO
      else if HintedChannelsOffered(remote, hint, STEREO, 21) then STEREO
      else if Bit(remote, 21) then STEREO else MONO
    ensures Decode(c).objectType == if Bit(remote, 0) then MPEG2_AAC_LC else MPEG4_AAC_LC
    ensures Decode(c).codec.bitdepth == 24
    ensures Decode(c).codec.maxBitrate ==
      if hint.Some? && hint.value.maxBitrate > 0 then hint.value.maxBitrate % 0x80_0000 else 0
    ensures Decode(c).codec.minBitrate ==
      if (hint.None? || hint.value.minBitrate == 0) && Bit(remote, 24) then 0 else Decode(c).codec.maxBitrate
  {
    BuiltIsValid(remote, hint, c);
    SelectedActive(remote, hint, c);
    ChosenRest(remote, hint);
  }

  /** Building and parsing back keeps the hinted maximum bit rate exactly when it fits the
      23-bit field. */
  lemma HintedBitrateKept(remote: seq<bv8>, hint: CodecParameters, c: seq<bv8>)
    requires Buildable(remote, Some(hint)) && Built(remote, Some(hint), c)
    ensures Valid(c)
    ensures Decode(c).codec.maxBitrate == hint.maxBitrate <==> 0 <= hint.maxBitrate < 0x80_0000
  {
    BuiltIsValid(remote, Some(hint), c);
  }

  /** A hint of 2^23 bit/s is lost: the configuration says 0. */
  lemma HintedBitrateLost(remote: seq<bv8>, c: seq<bv8>)
    requires Buildable(remote, Some(CodecParameters(STEREO, 44100, 24, 0, 0x80_0000)))
    requires Built(remote, Some(CodecParameters(STEREO, 44100, 24, 0, 0x80_0000)), c)
    ensures Valid(c) && Decode(c).codec.maxBitrate == 0
  {
    BuiltIsValid(remote, Some(CodecParameters(STEREO, 44100, 24, 0, 0x80_0000)), c);
  }

  // ------------------------------------------------------------ the codec object

  lemma LocalByte(k: nat)
    requires k < 8
    ensures BitOfByte(0xC0, k) <==> k < 2
    ensures BitOfByte(0x01, k) <==> k == 7
    ensures BitOfByte(0x8C, k) <==> k == 0 || k == 4 || k == 5
    ensures BitOfByte(0x80, k) <==> k == 0
    ensures !BitOfByte(0x00, k)
  {
  }

  lemma LocalBits()
    ensures forall i :: 0 <= i < 48 ==> (Bit(LOCAL, i) <==> LocalBit(i))
  {
    forall i | 0 <= i < 48
      ensures Bit(LOCAL, i) <==> LocalBit(i)
    {
      LocalByte(i % 8);
    }
  }

  ghost predicate HasLocalBits(caps: seq<bv8>) {
    |caps| == CAPABILITIES_SIZE && forall i :: 0 <= i < 48 ==> (Bit(caps, i) <==> LocalBit(i))
  }

  /** The local vector sets no bit rate. */
  lemma LocalBitrate(caps: seq<bv8>)
    requires HasLocalBits(caps)
    ensures Field(caps, BITRATE) == 0
  {
    ValueZero(Slice(caps, 25, 23));
  }

  lemma OneBitField(c: seq<bv8>, first: nat)
    requires first < 8 * |c|
    ensures Field(c, Range(first, 1)) == if Bit(c, first) then 1 else 0
  {
    var b := Slice(c, first, 1);
    assert b[0] == Bit(c, first) && Value(b[..|b| - 1]) == 0;
  }

  lemma SelectedFields(c: seq<bv8>, o: int, f: int, h: int)
    requires |c| == CAPABILITIES_SIZE
    requires 0 <= o < 7 && 8 <= f < 20 <= h < 24
    requires forall i :: 0 <= i < 24 ==> (Bit(c, i) <==> i in {o, f, h})
    ensures OnlyActive(c, OBJECT_TYPE, o) && !Bit(c, 7)
    ensures OnlyActive(c, SAMPLING_FREQUENCY, f) && OnlyActive(c, CHANNELS, h)
  {
  }

  /** The hinted bit rate, within the local limit when there is one. */
  method ChooseBitrate(local: nat, hint: Option<CodecParameters>) returns (rate: nat)
    ensures hint.None? || hint.value.maxBitrate <= 0 ==> rate == local
    ensures hint.Some? && hint.value.maxBitrate > 0 ==>
      rate <= hint.value.maxBitrate && (local != 0 ==> rate <= local)
      && (rate == hint.value.maxBitrate || rate == local != 0)
  {
    rate := local;
    if hint.Some? && hint.value.maxBitrate > 0 && rate != 0 {
      rate := Min(hint.value.maxBitrate, rate);
    } else if hint.Some? && hint.value.maxBitrate > 0 {
      rate := hint.value.maxBitrate;
    }
  }

  method WriteBitrate(config: ByteVector, rate: nat)
    requires |config.data| == CAPABILITIES_SIZE
    modifies config
    ensures SameOutside(old(config.data), config.data, BITRATE)
    ensures Field(config.data, BITRATE) == rate % 0x80_0000
  {
    assert Pow2(8) == 0x100;
    assert Pow2(16) == 0x1_0000;
    assert Pow2(23) == 0x80_0000;
    config.SetRange(BITRATE, rate);
  }

  class A2dpOffloadCodecAac {
    const capabilities: seq<bv8>

    constructor ()
      ensures capabilities == LOCAL
      ensures HasLocalBits(capabilities)
    {
      var caps := new ByteVector();
      caps.Clear(CAPABILITIES_SIZE);
      caps.SetBit(0);
      caps.SetBit(1);
      caps.SetBit(15);
      caps.SetBit(16);
      caps.SetBit(18, 0);
      caps.SetBit(19, 0);
      caps.SetBit(20);
      caps.SetBit(21);
      caps.SetBit(24);
      capabilities := caps.data;
      assert HasLocalBits(caps.data);
      assert caps.data == LOCAL by {
        LocalBits();
        BitsDetermineVector(caps.data, LOCAL);
      }
    }

    method ParseConfiguration(c: seq<bv8>) returns (status: A2dpStatus, out: Option<AacParameters>)
      requires HasLocalBits(capabilities)
      ensures status == ParseStatus(c)
      ensures out == if Valid(c) then Some(Decode(c)) else None
    {
      out := None;
      if |c| != |capabilities| { return BAD_LENGTH, None; }
      var objectType := FindActiveBit(c, OBJECT_TYPE);
      if objectType < 0 { return INVALID_OBJECT_TYPE, None; }
      if !Bit(capabilities, objectType) { return NOT_SUPPORTED_OBJECT_TYPE, None; }
      var frequency := FindActiveBit(c, SAMPLING_FREQUENCY);
      if frequency < 0 { return INVALID_SAMPLING_FREQUENCY, None; }
      if !Bit(capabilities, frequency) { return NOT_SUPPORTED_SAMPLING_FREQUENCY, None; }
      var channels := FindActiveBit(c, CHANNELS);
      if channels < 0 { return INVALID_CHANNELS, None; }
      if !Bit(capabilities, channels) { return NOT_SUPPORTED_CHANNELS, None; }

      var vbr := GetRange(c, VBR_SUPPORTED);
      var localVbr := GetRange(capabilities, VBR_SUPPORTED);
      OneBitField(c, 24);
      OneBitField(capabilities, 24);
      if vbr != 0 && localVbr == 0 { return NOT_SUPPORTED_VBR, None; }
      var rate := GetRange(c, BITRATE);
      var localRate := GetRange(capabilities, BITRATE);
      LocalBitrate(capabilities);
      if vbr != 0 && localRate != 0 && rate > localRate { return NOT_SUPPORTED_BIT_RATE, None; }

      return OK, Some(AacParameters(
        CodecParameters(ChannelModeEnum(channels), FrequencyValue(frequency), BITDEPTH,
                        if vbr != 0 then 0 else rate, rate),
        ObjectTypeEnum(objectType)));
    }

    method ChooseObjectType(rcaps: seq<bv8>) returns (p: int)
      requires HasLocalBits(capabilities) && |rcaps| == CAPABILITIES_SIZE
      ensures p == Choice(rcaps, OBJECT_PREFS) && (p == -1 || 0 <= p < 2)
    {
      if Bit(capabilities, 0) && Bit(rcaps, 0) {
        p := 0;
        FirstOfAt(OBJECT_PREFS, Offered(rcaps), 0);
      } else if Bit(capabilities, 1) && Bit(rcaps, 1) {
        p := 1;
        FirstOfAt(OBJECT_PREFS, Offered(rcaps), 1);
      } else {
        p := -1;
      }
    }

    method ChooseFrequency(rcaps: seq<bv8>, hint: Option<CodecParameters>) returns (p: int)
      requires HasLocalBits(capabilities) && |rcaps| == CAPABILITIES_SIZE
      ensures p == Choice(rcaps, FrequencyPrefs(hint)) && (p == -1 || 8 <= p < 20)
    {
      p := HintBit(hint);
      if p >= 0 && Bit(capabilities, p) && Bit(rcaps, p) {
        FirstOfAt(FrequencyPrefs(hint), Offered(rcaps), 0);
      } else if Bit(rcaps, 19) && Bit(capabilities, 19) {
        p := 19;
      } else if Bit(rcaps, 18) && Bit(capabilities, 18) {
        p := 18;
      } else if Bit(capabilities, 16) && Bit(rcaps, 16) {
        p := 16;
        FirstOfAt(FrequencyPrefs(hint), Offered(rcaps), 3);
      } else if Bit(capabilities, 15) && Bit(rcaps, 15) {
        p := 15;
        FirstOfAt(FrequencyPrefs(hint), Offered(rcaps), 4);
      } else {
        p := -1;
      }
    }

    method ChooseChannels(rcaps: seq<bv8>, hint: Option<CodecParameters>) returns (p: int)
      requires HasLocalBits(capabilities) && |rcaps| == CAPABILITIES_SIZE
      ensures p == Choice(rcaps, ChannelsPrefs(hint)) && (p == -1 || 20 <= p < 24)
    {
      p := ChannelsHintBit(hint);
      if p >= 0 && Bit(capabilities, p) && Bit(rcaps, p) {
        FirstOfAt(ChannelsPrefs(hint), Offered(rcaps), 0);
      } else if Bit(capabilities, 21) && Bit(rcaps, 21) {
        p := 21;
        FirstOfAt(ChannelsPrefs(hint), Offered(rcaps), 1);
      } else if Bit(capabilities, 20) && Bit(rcaps, 20) {
        p := 20;
        FirstOfAt(ChannelsPrefs(hint), Offered(rcaps), 2);
      } else {
        p := -1;
      }
    }

    method SelectFields(rcaps: seq<bv8>, hint: Option<CodecParameters>, config: ByteVector)
      returns (ok: bool)
      requires HasLocalBits(capabilities) && |rcaps| == |config.data| == CAPABILITIES_SIZE
      requires Blank(config.data, Range(0, 48))
      modifies config
      ensures ok <==> Buildable(rcaps, hint)
      ensures ok ==> Selected(rcaps, hint, config.data) && Blank(config.data, Range(24, 24))
    {
      var o := ChooseObjectType(rcaps);
      if o < 0 { return false; }
      config.SetBit(o);
      var f := ChooseFrequency(rcaps, hint);
      if f < 0 { return false; }
      config.SetBit(f);
      var h := ChooseChannels(rcaps, hint);
      if h < 0 { return false; }
      config.SetBit(h);
      SelectedFields(config.data, o, f, h);
      return true;
    }

    /** On failure the configuration may be left half written; a remote vector of the wrong
        length leaves it alone. */
    method BuildConfiguration(rcaps: seq<bv8>, hint: Option<CodecParameters>, config: ByteVector)
      returns (ok: bool)
      requires HasLocalBits(capabilities)
      modifies config
      ensures ok <==> Buildable(rcaps, hint)
      ensures ok ==> Built(rcaps, hint, config.data)
      ensures |rcaps| != CAPABILITIES_SIZE ==> config.data == old(config.data)
    {
      if |rcaps| != |capabilities| {
        return false;
      }
      config.Clear(|capabilities|);
      ok := SelectFields(rcaps, hint, config);
      if !ok {
        return;
      }
      WriteRates(rcaps, hint, config);
    }

    method WriteRates(rcaps: seq<bv8>, hint: Option<CodecParameters>, config: ByteVector)
      requires HasLocalBits(capabilities) && |rcaps| == CAPABILITIES_SIZE
      requires Selected(rcaps, hint, config.data) && !Bit(config.data, 24)
      modifies config
      ensures Built(rcaps, hint, config.data)
    {
      ghost var selected := config.data;
      WriteVbr(rcaps, hint, config);
      ghost var before := config.data;
      var local := GetRange(capabilities, BITRATE);
      LocalBitrate(capabilities);
      var rate := ChooseBitrate(local, hint);
      assert rate % 0x80_0000 == BuiltBitrate(hint);
      WriteBitrate(config, rate);
      SelectedFrame(rcaps, hint, selected, before, config.data);
    }

    method WriteVbr(rcaps: seq<bv8>, hint: Option<CodecParameters>, config: ByteVector)
      requires HasLocalBits(capabilities) && |rcaps| == |config.data| == CAPABILITIES_SIZE
      requires !Bit(config.data, 24)
      modifies config
      ensures SameOutside(old(config.data), config.data, VBR_SUPPORTED)
      ensures Bit(config.data, 24) == BuiltVbr(rcaps, hint)
    {
      if hint.None? || hint.value.minBitrate == 0 {
        var localVbr := GetRange(capabilities, VBR_SUPPORTED);
        var remoteVbr := GetRange(rcaps, VBR_SUPPORTED);
        OneBitField(capabilities, 24);
        OneBitField(rcaps, 24);
        assert Pow2(1) == 2;
        config.SetRange(VBR_SUPPORTED, if localVbr != 0 && remoteVbr != 0 then 1 else 0);
        OneBitField(config.data, 24);
      }
    }
  }
}
