/**
 The single-bit test of the offload codec database and the SBC check built on it
 (bluetooth/audio/utils/session/BluetoothAudioSupportedCodecsDB.cpp). A 32-bit word is a number
 below 2^32; `w & (1 << i)` is bit `i` of its binary digits.
 */
module CodecsDb {
  import opened A2dpBits

  type Word = w: int | 0 <= w < 0x1_0000_0000

  /** `w & (1 << i)` is not zero. */
  predicate Has(w: Word, i: nat) { Shr(w, i) % 2 == 1 }

  predicate Shared(a: Word, b: Word, i: nat) { Has(a, i) && Has(b, i) }

  /** Bit `i` is the only one that both words set. */
  ghost predicate OnlyShared(a: Word, b: Word, i: nat) {
    i < 32 && forall j :: 0 <= j < 32 ==> (Shared(a, b, j) <==> j == i)
  }

  lemma {:induction false} ShrSmall(w: nat, i: nat)
    ensures Shr(w, i) == 0 <==> w < Pow2(i)
    decreases i
  {
    if i > 0 {
      ShrSmall(w / 2, i - 1);
    }
  }

  lemma {:induction false} Pow2Monotone(i: nat, j: nat)
    requires i <= j
    ensures Pow2(i) <= Pow2(j)
    decreases j
  {
    if i < j {
      Pow2Monotone(i, j - 1);
    }
  }

  /** A word below 2^i has no bit from `i` on. */
  lemma NoBitBeyond(w: Word, i: nat, j: nat)
    requires w < Pow2(i) && i <= j
    ensures !Has(w, j)
  {
    Pow2Monotone(i, j);
    ShrSmall(w, j);
  }

  /** Below bit `i` the words share bit `found` alone, or nothing if not `single`. */
  ghost predicate SharedBelow(a: Word, b: Word, i: nat, single: bool, found: nat) {
    if single then found < i && forall j :: 0 <= j < i ==> (Shared(a, b, j) <==> j == found)
    else forall j :: 0 <= j < i ==> !Shared(a, b, j)
  }

  lemma SharedInAll(a: Word, b: Word, single: bool, found: nat)
    requires SharedBelow(a, b, 32, single, found)
    ensures single <==> exists i :: OnlyShared(a, b, i)
  {
    assert forall i :: OnlyShared(a, b, i) ==> Shared(a, b, i);
    assert single ==> OnlyShared(a, b, found);
  }

  /** A test bit above one of the words ends the search. */
  lemma NothingBeyond(a: Word, b: Word, i: nat, single: bool, found: nat)
    requires i <= 32 && SharedBelow(a, b, i, single, found) && (a < Pow2(i) || b < Pow2(i))
    ensures SharedBelow(a, b, 32, single, found)
  {
    forall j | i <= j < 32
      ensures !Shared(a, b, j)
    {
      NoBitBeyond(if a < Pow2(i) then a else b, i, j);
    }
  }

  lemma TwoShared(a: Word, b: Word, i: nat, found: nat)
    requires i < 32 && SharedBelow(a, b, i, true, found) && Shared(a, b, i)
    ensures !exists k :: OnlyShared(a, b, k)
  {
    assert Shared(a, b, found);
  }

  /** True exactly when one bit is common to both words. */
  method IsSingleBit(bitmasks: Word, bitfield: Word) returns (single: bool)
    ensures single <==> exists i :: OnlyShared(bitmasks, bitfield, i)
  {
    single := false;
    var i := 0;  // test_bit is 1 << i
    ghost var found := 0;
    while Pow2(i) <= bitmasks && Pow2(i) <= bitfield
      invariant i <= 31 && SharedBelow(bitmasks, bitfield, i, single, found)
      decreases 32 - i
    {
      if Has(bitfield, i) && Has(bitmasks, i) {
        if single {
          TwoShared(bitmasks, bitfield, i, found);
          return false;
        }
        single := true;
        found := i;
      }
      if i == 31 {
        SharedInAll(bitmasks, bitfield, single, found);
        return;
      }
      i := i + 1;
    }
    NothingBeyond(bitmasks, bitfield, i, single, found);
    SharedInAll(bitmasks, bitfield, single, found);
  }

  // ------------------------------------------------------------ SBC configurations

  datatype Sbc = Sbc(sampleRate: Word, channelMode: Word, blockLength: Word, numSubbands: Word,
                     allocMethod: Word, bitsPerSample: Word, minBitpool: nat, maxBitpool: nat)

  datatype CodecSpecific = SbcConfig(sbc: Sbc) | OtherConfig

  /** `(a & b) != 0` */
  predicate Meets(a: Word, b: Word) {
    exists i :: 0 <= i < 32 && Shared(a, b, i)
  }

  /** One bit of the field lies under the mask, and the field meets the capability. */
  ghost predicate FieldOk(field: Word, mask: Word, cap: Word) {
    (exists i :: OnlyShared(field, mask, i)) && Meets(field, cap)
  }

  ghost predicate SbcOk(c: Sbc, cap: Sbc) {
    FieldOk(c.sampleRate, 0xff, cap.sampleRate)
    && FieldOk(c.channelMode, 0x0f, cap.channelMode)
    && FieldOk(c.blockLength, 0xf0, cap.blockLength)
    && FieldOk(c.numSubbands, 0x0c, cap.numSubbands)
    && FieldOk(c.allocMethod, 0x03, cap.allocMethod)
    && FieldOk(c.bitsPerSample, 0x07, cap.bitsPerSample)
    && cap.minBitpool <= c.minBitpool <= c.maxBitpool <= cap.maxBitpool
  }

  method CheckField(field: Word, mask: Word, cap: Word) returns (single: bool, met: bool)
    ensures single && met <==> FieldOk(field, mask, cap)
  {
    single := IsSingleBit(field, mask);
    met := Meets(field, cap);
  }

  method IsOffloadSbcConfigurationValid(codec: CodecSpecific, cap: Sbc) returns (ok: bool)
    ensures ok <==> codec.SbcConfig? && SbcOk(codec.sbc, cap)
  {
    if codec.OtherConfig? {
      return false;
    }
    var c := codec.sbc;
    var s0, m0 := CheckField(c.sampleRate, 0xff, cap.sampleRate);
    var s1, m1 := CheckField(c.channelMode, 0x0f, cap.channelMode);
    var s2, m2 := CheckField(c.blockLength, 0xf0, cap.blockLength);
    var s3, m3 := CheckField(c.numSubbands, 0x0c, cap.numSubbands);
    var s4, m4 := CheckField(c.allocMethod, 0x03, cap.allocMethod);
    var s5, m5 := CheckField(c.bitsPerSample, 0x07, cap.bitsPerSample);
    if !s0 || !s1 || !s2 || !s3 || !s4 || !s5 || c.minBitpool > c.maxBitpool {
      return false;
    }
    ok := m0 && m1 && m2 && m3 && m4 && m5
      && cap.minBitpool <= c.minBitpool && c.maxBitpool <= cap.maxBitpool;
  }

  ghost predicate Within(cap: Word, mask: Word) {
    forall i :: 0 <= i < 32 && Has(cap, i) ==> Has(mask, i)
  }

  /** The selected bit of an accepted field is in the capability, if the capability lies inside
      the field's mask. */
  lemma SelectedBitSupported(field: Word, mask: Word, cap: Word, p: nat)
    requires FieldOk(field, mask, cap) && Within(cap, mask)
    requires p < 32 && Shared(field, mask, p)
    ensures Has(cap, p) && forall q :: 0 <= q < 32 && Shared(field, mask, q) ==> q == p
  {
    var i :| OnlyShared(field, mask, i);
    var j :| 0 <= j < 32 && Shared(field, cap, j);
    assert Shared(field, mask, j);
  }
}
