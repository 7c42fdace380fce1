/**
 Big-endian bit fields over a byte vector (bluetooth/audio/hal/A2dpBits.h).

 Bytes are 8-bit vectors, so writing a bit is the source's own `|` and `& ~` with a shifted
 mask. The value of a multi-bit field is an integer: `Shr(v, k)` is `v >> k` (arithmetic for
 a negative `v`) and `Pow2(k)` is `1 << k`.
 */
module A2dpBits {
  import opened Arithmetic

  datatype Range = Range(first: nat, len: nat)

  /** The range lies inside the vector. */
  predicate InBounds(s: seq<bv8>, r: Range) {
    r.first + r.len <= 8 * |s|
  }

  function Pow2(k: nat): (p: nat)
    ensures p >= 1
  {
    if k == 0 then 1 else 2 * Pow2(k - 1)
  }

  function Shr(v: int, k: nat): int
    decreases k
  {
    if k == 0 then v else Shr(v / 2, k - 1)
  }

  // ------------------------------------------------------------ single bits

  /** The mask `1 << (7 - k)`. */
  function Mask(k: nat): bv8
    requires k < 8
  {
    match k
    case 0 => 0x80
    case 1 => 0x40
    case 2 => 0x20
    case 3 => 0x10
    case 4 => 0x08
    case 5 => 0x04
    case 6 => 0x02
    case _ => 0x01
  }

  /** `(b >> (7 - k)) & 1`, read through the mask of that bit. */
  predicate BitOfByte(b: bv8, k: nat)
    requires k < 8
  {
    b & Mask(k) != 0
  }

  /** Bit `bit` of the vector, the most significant bit of each byte first. */
  predicate Bit(s: seq<bv8>, bit: nat)
    requires bit < 8 * |s|
  {
    BitOfByte(s[bit / 8], bit % 8)
  }

  function ByteWithBit(b: bv8, k: nat, on: bool): bv8
    requires k < 8
  {
    if on then b | Mask(k) else b & !Mask(k)
  }

  lemma WriteMask(b: bv8, m: bv8, n: bv8)
    requires m & n == 0
    ensures (b | m) & n == b & n
    ensures (b & !m) & n == b & n
    ensures (b | m) & m == m
    ensures (b & !m) & m == 0
  {
  }

  lemma MasksDisjoint(k: nat, j: nat)
    requires k < 8 && j < 8
    ensures Mask(k) != 0
    ensures k != j ==> Mask(k) & Mask(j) == 0
  {
  }

  lemma ByteWithBitAt(b: bv8, k: nat, on: bool, j: nat)
    requires k < 8 && j < 8
    ensures BitOfByte(ByteWithBit(b, k, on), j) == if j == k then on else BitOfByte(b, j)
  {
    MasksDisjoint(k, j);
    WriteMask(b, Mask(k), if k == j then 0 else Mask(j));
  }

  /** The vector with one bit written, by `|= mask` or `&= ~mask` on its byte. */
  function WithBit(s: seq<bv8>, bit: nat, on: bool): seq<bv8>
    requires bit < 8 * |s|
  {
    s[bit / 8 := ByteWithBit(s[bit / 8], bit % 8, on)]
  }

  lemma WithBitAt(s: seq<bv8>, bit: nat, on: bool, i: nat)
    requires bit < 8 * |s| && i < 8 * |s|
    ensures Bit(WithBit(s, bit, on), i) == if i == bit then on else Bit(s, i)
  {
    ByteWithBitAt(s[bit / 8], bit % 8, on, i % 8);
  }

  lemma WithBitFrame(s: seq<bv8>, bit: nat, on: bool)
    requires bit < 8 * |s|
    ensures forall i :: 0 <= i < 8 * |s| ==> Bit(WithBit(s, bit, on), i) == if i == bit then on else Bit(s, i)
  {
    forall i | 0 <= i < 8 * |s|
      ensures Bit(WithBit(s, bit, on), i) == if i == bit then on else Bit(s, i)
    {
      WithBitAt(s, bit, on, i);
    }
  }

  /** Two vectors of one length with the same bits are the same vector. */
  lemma BitsDetermineByte(b: bv8, c: bv8)
    requires forall k :: 0 <= k < 8 ==> BitOfByte(b, k) == BitOfByte(c, k)
    ensures b == c
  {
    assert BitOfByte(b, 0) == BitOfByte(c, 0);
    assert BitOfByte(b, 1) == BitOfByte(c, 1);
    assert BitOfByte(b, 2) == BitOfByte(c, 2);
    assert BitOfByte(b, 3) == BitOfByte(c, 3);
    assert BitOfByte(b, 4) == BitOfByte(c, 4);
    assert BitOfByte(b, 5) == BitOfByte(c, 5);
    assert BitOfByte(b, 6) == BitOfByte(c, 6);
    assert BitOfByte(b, 7) == BitOfByte(c, 7);
  }

  lemma BitsDetermineVector(s: seq<bv8>, t: seq<bv8>)
    requires |s| == |t|
    requires forall i :: 0 <= i < 8 * |s| ==> Bit(s, i) == Bit(t, i)
    ensures s == t
  {
    forall j | 0 <= j < |s|
      ensures s[j] == t[j]
    {
      forall k | 0 <= k < 8
        ensures BitOfByte(s[j], k) == BitOfByte(t[j], k)
      {
        assert Bit(s, 8 * j + k) == Bit(t, 8 * j + k);
      }
      BitsDetermineByte(s[j], t[j]);
    }
  }

  // ------------------------------------------------------------ field values

  /** The number whose binary digits are `b`, the most significant first. */
  function Value(b: seq<bool>): (v: nat) {
    if b == [] then 0
    else 2 * Value(b[..|b| - 1]) + if b[|b| - 1] then 1 else 0
  }

  lemma {:induction false} ValueBound(b: seq<bool>)
    ensures Value(b) < Pow2(|b|)
  {
    if b != [] {
      ValueBound(b[..|b| - 1]);
    }
  }

  /** Digit `i` of a value, counted from the least significant. */
  lemma {:induction false} ValueDigit(b: seq<bool>, i: nat)
    requires i < |b|
    ensures Shr(Value(b), i) % 2 == 1 <==> b[|b| - 1 - i]
    decreases i
  {
    var c, n := b[..|b| - 1], |b|;
    ValueHalf(b);
    if i > 0 {
      ValueDigit(c, i - 1);
      assert b[n - 1 - i] == c[n - 2 - (i - 1)];
    }
  }

  lemma ValueHalf(b: seq<bool>)
    requires b != []
    ensures Value(b) / 2 == Value(b[..|b| - 1]) && (Value(b) % 2 == 1 <==> b[|b| - 1])
  {
  }

  lemma {:induction false} ValueZero(b: seq<bool>)
    ensures Value(b) == 0 <==> forall j :: 0 <= j < |b| ==> !b[j]
  {
    if b != [] {
      var c := b[..|b| - 1];
      ValueZero(c);
      assert forall j :: 0 <= j < |b| - 1 ==> b[j] == c[j];
    }
  }

  /** A value is a power of two exactly when a single digit is set, at the matching place. */
  lemma {:induction false} ValueIsPowerOfTwo(b: seq<bool>, i: nat)
    requires i < |b|
    ensures Value(b) == Pow2(i) <==> forall j :: 0 <= j < |b| ==> (b[j] <==> j == |b| - 1 - i)
    decreases i
  {
    var c := b[..|b| - 1];
    assert forall j :: 0 <= j < |b| - 1 ==> b[j] == c[j];
    if i == 0 {
      ValueZero(c);
    } else {
      ValueIsPowerOfTwo(c, i - 1);
    }
  }

  /** The low `|b|` binary digits of `v`, high digit first, are the number `v mod 2^|b|`. */
  lemma {:induction false} ValueOfDigits(b: seq<bool>, v: int)
    requires forall j :: 0 <= j < |b| ==> (b[j] <==> Shr(v, |b| - 1 - j) % 2 == 1)
    ensures Value(b) == v % Pow2(|b|)
  {
    if b != [] {
      var c := b[..|b| - 1];
      forall j | 0 <= j < |c|
        ensures c[j] <==> Shr(v / 2, |c| - 1 - j) % 2 == 1
      {
        assert c[j] == b[j];
      }
      ValueOfDigits(c, v / 2);
      ModStep(v, Pow2(|c|));
    }
  }

  function Slice(s: seq<bv8>, first: nat, len: nat): seq<bool>
    requires first + len <= 8 * |s|
  {
    seq(len, i requires 0 <= i < len => Bit(s, first + i))
  }

  /** The unsigned number held by a range of bits. */
  function Field(s: seq<bv8>, r: Range): (v: nat)
    requires InBounds(s, r)
  {
    Value(Slice(s, r.first, r.len))
  }

  lemma FieldFrame(s: seq<bv8>, t: seq<bv8>, r: Range)
    requires InBounds(s, r) && InBounds(t, r)
    requires forall i :: r.first <= i < r.first + r.len ==> Bit(s, i) == Bit(t, i)
    ensures Field(s, r) == Field(t, r)
  {
    assert Slice(s, r.first, r.len) == Slice(t, r.first, r.len);
  }

  /** Fields with the same value hold the same bits. */
  lemma FieldsEqual(s: seq<bv8>, t: seq<bv8>, r: Range)
    requires InBounds(s, r) && InBounds(t, r) && Field(s, r) == Field(t, r)
    ensures forall i :: r.first <= i < r.first + r.len ==> Bit(s, i) == Bit(t, i)
  {
    forall i | r.first <= i < r.first + r.len
      ensures Bit(s, i) == Bit(t, i)
    {
      var b, c, k := Slice(s, r.first, r.len), Slice(t, r.first, r.len), i - r.first;
      ValueDigit(b, r.len - 1 - k);
      ValueDigit(c, r.len - 1 - k);
      assert b[k] == Bit(s, i) && c[k] == Bit(t, i);
    }
  }

  /** No bit of the range is set. */
  ghost predicate Blank(s: seq<bv8>, r: Range)
    requires InBounds(s, r)
  {
    forall i :: r.first <= i < r.first + r.len ==> !Bit(s, i)
  }

  /** Nothing outside the range differs. */
  ghost predicate SameOutside(s: seq<bv8>, t: seq<bv8>, r: Range) {
    |s| == |t|
    && forall i :: 0 <= i < 8 * |s| && !(r.first <= i < r.first + r.len) ==> Bit(s, i) == Bit(t, i)
  }

  /** Exactly one bit of the range is set, and it is bit `p` of the vector. */
  ghost predicate OnlyActive(s: seq<bv8>, r: Range, p: int)
    requires InBounds(s, r)
  {
    r.first <= p < r.first + r.len
    && forall i :: r.first <= i < r.first + r.len ==> (Bit(s, i) <==> i == p)
  }

  /** The one set bit of the range, or -1 when there is none or there are several. */
  ghost function ActiveBit(s: seq<bv8>, r: Range): (p: int)
    requires InBounds(s, r)
    ensures p == -1 || OnlyActive(s, r, p)
    ensures p == -1 <==> forall q :: !OnlyActive(s, r, q)
  {
    if exists q :: OnlyActive(s, r, q) then var q :| OnlyActive(s, r, q); q else -1
  }

  lemma OnlyActiveSlice(s: seq<bv8>, r: Range, p: int)
    requires InBounds(s, r) && r.first <= p < r.first + r.len
    ensures OnlyActive(s, r, p) <==>
      forall j :: 0 <= j < r.len ==> (Slice(s, r.first, r.len)[j] <==> j == p - r.first)
  {
    var b := Slice(s, r.first, r.len);
    if forall j :: 0 <= j < r.len ==> (b[j] <==> j == p - r.first) {
      forall i | r.first <= i < r.first + r.len
        ensures Bit(s, i) <==> i == p
      {
        assert b[i - r.first] == Bit(s, i);
      }
    }
  }

  lemma ActiveBitUnique(s: seq<bv8>, r: Range, p: int)
    requires InBounds(s, r) && OnlyActive(s, r, p)
    ensures ActiveBit(s, r) == p
  {
    var q := ActiveBit(s, r);
    assert Bit(s, q);
  }

  function Scale(f: nat, k: nat): nat
    decreases k
  {
    if k == 0 then f else Scale(2 * f, k - 1)
  }

  lemma {:induction false} ScaleZero(k: nat)
    ensures Scale(0, k) == 0
  {
    if k > 0 {
      ScaleZero(k - 1);
    }
  }

  lemma {:induction false} ScaleNext(f: nat, k: nat)
    ensures Scale(f + 1, k) == Scale(f, k) + Pow2(k)
    decreases k
  {
    if k > 0 {
      ScaleNext(2 * f, k - 1);
      ScaleNext(2 * f + 1, k - 1);
    }
  }

  // ------------------------------------------------------------ reading

  /** `get(range)`: the source's `|=` only ever fills digits that are still clear. */
  method GetRange(s: seq<bv8>, r: Range) returns (v: nat)
    requires InBounds(s, r)
    ensures v == Field(s, r)
  {
    v := 0;
    var i := 0;
    ghost var b := Slice(s, r.first, r.len);
    ScaleZero(r.len);
    while i < r.len
      invariant i <= r.len
      invariant v == Scale(Value(b[..i]), r.len - i)
    {
      assert b[..i + 1][..i] == b[..i];
      ScaleNext(2 * Value(b[..i]), r.len - 1 - i);
      if Bit(s, r.first + i) {
        v := v + Pow2((r.len - 1) - i);
      }
      i := i + 1;
    }
    assert b[..r.len] == b;
  }

  method FindActiveBit(s: seq<bv8>, r: Range) returns (p: int)
    requires InBounds(s, r)
    ensures p == ActiveBit(s, r)
  {
    var v := GetRange(s, r);
    ghost var b := Slice(s, r.first, r.len);
    var i := 0;
    while i < r.len && Shr(v, i) % 2 == 0
      invariant i <= r.len
      invariant forall j :: 0 <= j < i ==> Shr(v, j) % 2 == 0
    {
      i := i + 1;
    }
    if i < r.len {
      ValueIsPowerOfTwo(b, i);
      ValueDigit(b, i);
    }
    // v ^ (1 << i) == 0
    if i < r.len && v == Pow2(i) {
      p := r.first + (r.len - 1) - i;
      OnlyActiveSlice(s, r, p);
      ActiveBitUnique(s, r, p);
    } else {
      p := -1;
      forall q
        ensures !OnlyActive(s, r, q)
      {
        if OnlyActive(s, r, q) {
          OnlyActiveSlice(s, r, q);
          ValueDigit(b, r.len - 1 - (q - r.first));
        }
      }
    }
  }

  // ------------------------------------------------------------ writing

  /** A byte vector written in place, bit by bit. */
  class ByteVector {
    var data: seq<bv8>

    constructor ()
      ensures data == []
    {
      data := [];
    }

    /** `resize(n)` followed by filling with zero bytes. */
    method Clear(n: nat)
      modifies this
      ensures |data| == n
      ensures forall i :: 0 <= i < 8 * n ==> !Bit(data, i)
    {
      data := seq(n, _ => 0);
    }

    method SetBit(bit: nat, value: int := 1)
      requires bit < 8 * |data|
      modifies this
      ensures |data| == |old(data)|
      ensures forall i :: 0 <= i < 8 * |data| ==>
        Bit(data, i) == if i == bit then value != 0 else Bit(old(data), i)
    {
      WithBitFrame(data, bit, value != 0);
      data := WithBit(data, bit, value != 0);
    }

    method SetRange(r: Range, value: int)
      requires InBounds(data, r)
      modifies this
      ensures SameOutside(old(data), data, r)
      ensures Field(data, r) == value % Pow2(r.len)
    {
      var i := 0;
      while i < r.len
        invariant i <= r.len && |data| == |old(data)|
        invariant forall j :: r.first <= j < r.first + i ==>
          (Bit(data, j) <==> Shr(value, r.first + r.len - 1 - j) % 2 == 1)
        invariant forall j :: 0 <= j < 8 * |data| && !(r.first <= j < r.first + r.len) ==>
          Bit(data, j) == Bit(old(data), j)
      {
        SetBit(r.first + i, Shr(value, (r.len - 1) - i) % 2);
        i := i + 1;
      }
      ValueOfDigits(Slice(data, r.first, r.len), value);
    }
  }
}
