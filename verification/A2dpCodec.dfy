/**
 What the A2DP offload codecs share (bluetooth/audio/hal/A2dpOffloadCodec.h): parameters,
 status codes, and the choice of one capability bit that both sides offer.
 */
module A2dpCodec {
  import opened A2dpBits

  datatype ChannelMode = UNKNOWN | MONO | STEREO | DUALMONO

  datatype CodecParameters = CodecParameters(
    channelMode: ChannelMode,
    samplingFrequencyHz: int,
    bitdepth: int,
    minBitrate: int,
    maxBitrate: int)

  datatype A2dpStatus =
    | OK
    | BAD_LENGTH
    | INVALID_SAMPLING_FREQUENCY
    | NOT_SUPPORTED_SAMPLING_FREQUENCY
    | INVALID_CHANNEL_MODE
    | NOT_SUPPORTED_CHANNEL_MODE
    | INVALID_BLOCK_LENGTH
    | INVALID_SUBBANDS
    | NOT_SUPPORTED_SUBBANDS
    | INVALID_ALLOCATION_METHOD
    | NOT_SUPPORTED_ALLOCATION_METHOD
    | INVALID_MINIMUM_BITPOOL_VALUE
    | NOT_SUPPORTED_MINIMUM_BITPOOL_VALUE
    | INVALID_MAXIMUM_BITPOOL_VALUE
    | NOT_SUPPORTED_MAXIMUM_BITPOOL_VALUE
    | INVALID_OBJECT_TYPE
    | NOT_SUPPORTED_OBJECT_TYPE
    | INVALID_CHANNELS
    | NOT_SUPPORTED_CHANNELS
    | NOT_SUPPORTED_VBR
    | NOT_SUPPORTED_BIT_RATE

  function Max(a: int, b: int): int { if a >= b then a else b }

  function Min(a: int, b: int): int { if a <= b then a else b }

  /** The first preference that is on offer, or -1. */
  ghost function FirstOf(prefs: seq<int>, offered: set<int>): (p: int)
    requires -1 !in offered
    ensures p == -1 || (p in prefs && p in offered)
    ensures p == -1 <==> forall k :: 0 <= k < |prefs| ==> prefs[k] !in offered
  {
    if prefs == [] then -1
    else if prefs[0] in offered then prefs[0]
    else FirstOf(prefs[1..], offered)
  }

  lemma {:induction false} FirstOfAt(prefs: seq<int>, offered: set<int>, k: nat)
    requires -1 !in offered && k < |prefs|
    requires prefs[k] in offered && forall j :: 0 <= j < k ==> prefs[j] !in offered
    ensures FirstOf(prefs, offered) == prefs[k]
  {
    if k > 0 {
      FirstOfAt(prefs[1..], offered, k - 1);
    }
  }

  lemma FirstOfThree(a: int, b: int, c: int, offered: set<int>)
    requires -1 !in offered
    ensures FirstOf([a, b, c], offered)
         == if a in offered then a else if b in offered then b else if c in offered then c else -1
  {
    assert [a, b, c][1..] == [b, c] && [b, c][1..] == [c] && [c][1..] == [];
    assert FirstOf([c], offered) == if c in offered then c else -1;
    assert FirstOf([b, c], offered) == if b in offered then b else FirstOf([c], offered);
  }
}
