/**
 The checksum of message blocks: `crc16_ccitt` of `src/generic/crc16_ccitt.c` and of
 `klippy/msgproto.py`. Both are the same division by the CCITT polynomial, and it sees
 damage to adjacent bytes.
 */
module Checksums {
  import opened Vlq

  // ----- one byte ------------------------------------------------------------------------------

  function Sum(a: bv16, b: bv16): bv16 {
    a ^ b
  }

  function Upper(crc: bv16): bv16 {
    crc >> 8
  }

  /** The byte and the lower half of the checksum, added up. */
  function Entering(crc: bv16, byte': bv8): bv8 {
    byte' ^ ((crc & 0xff) as bv8)
  }

  function Mixed(d: bv8): bv8 {
    d ^ (d << 4)
  }

  function Folded(crc: bv16, data: bv8): bv16 {
    (((data as bv16) << 8) | Upper(crc)) ^ ((data >> 4) as bv16) ^ ((data as bv16) << 3)
  }

  /** One byte of the loop in C, on 16-bit and 8-bit registers. */
  function StepC(crc: bv16, byte': bv8): bv16 {
    Folded(crc, Mixed(Entering(crc, byte')))
  }

  function MixedPy(d: bv32): bv32 {
    d ^ ((d & 0x0f) << 4)
  }

  function FoldedPy(crc: bv32, data: bv32): bv32 {
    ((data << 8) | (crc >> 8)) ^ (data >> 4) ^ (data << 3)
  }

  /** One byte of the loop in Python, whose integers are wider. */
  function StepPy(crc: bv32, byte': bv32): bv32 {
    FoldedPy(crc, MixedPy(byte' ^ (crc & 0xff)))
  }

  lemma LowAgrees(crc: bv16, byte': bv8)
    ensures (byte' as bv32) ^ ((crc as bv32) & 0xff) == Entering(crc, byte') as bv32
  {
  }

  lemma MixAgrees(d: bv8)
    ensures MixedPy(d as bv32) == Mixed(d) as bv32
  {
  }

  lemma FoldAgrees(crc: bv16, data: bv8)
    ensures FoldedPy(crc as bv32, data as bv32) == Folded(crc, data) as bv32
  {
  }

  lemma StepsAgree(crc: bv16, byte': bv8)
    ensures StepPy(crc as bv32, byte' as bv32) == StepC(crc, byte') as bv32
  {
    hide Folded, FoldedPy, Mixed, MixedPy, Entering;
    LowAgrees(crc, byte');
    MixAgrees(Entering(crc, byte'));
    FoldAgrees(crc, Mixed(Entering(crc, byte')));
  }

  // ----- a list of bytes -----------------------------------------------------------------------

  function Byte8(x: byte): bv8 {
    x as bv8
  }

  function Crc(s: seq<byte>): bv16 {
    if s == [] then 0xffff else StepC(Crc(s[..|s| - 1]), Byte8(s[|s| - 1]))
  }

  /** `crc16_ccitt` of `src/generic/crc16_ccitt.c`. */
  method CrcC(s: seq<byte>) returns (crc: bv16)
    ensures crc == Crc(s)
  {
    hide StepC, Byte8;
    crc := 0xffff;
    for k := 0 to |s|
      invariant crc == Crc(s[..k])
    {
      assert s[..k + 1][..k] == s[..k];
      crc := StepC(crc, Byte8(s[k]));
    }
    assert s[..|s|] == s;
  }

  function Byte32(x: byte): bv32 {
    x as bv32
  }

  function Wide(crc: bv16): bv32 {
    crc as bv32
  }

  /** `crc16_ccitt` of `klippy/msgproto.py`: the same checksum. */
  method CrcPy(s: seq<byte>) returns (crc: bv32)
    ensures crc == Wide(Crc(s))
  {
    hide StepC, StepPy, Byte8, Byte32, Wide;
    crc := 0xffff;
    WideStart();
    for k := 0 to |s|
      invariant crc == Wide(Crc(s[..k]))
    {
      assert s[..k + 1][..k] == s[..k];
      ByteAgrees(Crc(s[..k]), s[k]);
      crc := StepPy(crc, Byte32(s[k]));
    }
    assert s[..|s|] == s;
  }

  lemma WideStart()
    ensures Wide(0xffff) == 0xffff
  {
  }

  lemma ByteAgrees(crc: bv16, x: byte)
    ensures StepPy(Wide(crc), Byte32(x)) == Wide(StepC(crc, Byte8(x)))
  {
    hide StepC, StepPy;
    StepsAgree(crc, Byte8(x));
    ByteWidths(x);
  }

  lemma ByteWidths(x: byte)
    ensures Byte8(x) as bv32 == Byte32(x)
  {
  }

  // ----- what it is ------------------------------------------------------------------------------

  /** One bit of the division by the CCITT polynomial, lowest bit first. */
  function Shifted(crc: bv16): bv16 {
    (crc >> 1) ^ (if crc & 1 == 1 then 0x8408 else 0)
  }

  function Divided(crc: bv16, bits: nat): bv16
    decreases bits
  {
    if bits == 0 then crc else Shifted(Divided(crc, bits - 1))
  }

  function OneBit(x: bv16): bv16 {
    (x >> 1) ^ ((x & 1) << 15) ^ ((x & 1) << 10) ^ ((x & 1) << 3)
  }

  function TwoBits(x: bv16): bv16 {
    (x >> 2) ^ ((x & 3) << 14) ^ ((x & 3) << 9) ^ ((x & 3) << 2)
  }

  function FourBits(x: bv16): bv16 {
    (x >> 4) ^ ((x & 15) << 12) ^ ((x & 15) << 7) ^ (x & 15)
  }

  lemma LastBit(x: bv16)
    ensures x & 1 == 0 || x & 1 == 1
  {
  }

  lemma Polynomial(b: bv16)
    requires b == 0 || b == 1
    ensures (b << 15) ^ (b << 10) ^ (b << 3) == if b == 1 then 0x8408 else 0
  {
  }

  lemma XorRight(p: bv16, a: bv16, b: bv16, c: bv16)
    ensures p ^ a ^ b ^ c == p ^ (a ^ b ^ c)
  {
  }

  lemma ShiftedIs(x: bv16)
    ensures Shifted(x) == OneBit(x)
  {
    var b := x & 1;
    LastBit(x);
    Polynomial(b);
    XorRight(x >> 1, b << 15, b << 10, b << 3);
  }

  lemma TwoBitsIs(x: bv16)
    ensures OneBit(OneBit(x)) == TwoBits(x)
  {
  }

  lemma FourBitsIs(x: bv16)
    ensures TwoBits(TwoBits(x)) == FourBits(x)
  {
  }

  lemma TwoShifts(x: bv16, n: nat)
    ensures Divided(x, n + 2) == TwoBits(Divided(x, n))
  {
    hide Shifted, OneBit, TwoBits;
    var y := Divided(x, n);
    assert Divided(x, n + 1) == Shifted(y);
    ShiftedIs(y);
    ShiftedIs(Shifted(y));
    TwoBitsIs(y);
  }

  lemma FourShifts(x: bv16, n: nat)
    ensures Divided(x, n + 4) == FourBits(Divided(x, n))
  {
    hide Divided, TwoBits, FourBits;
    TwoShifts(x, n);
    TwoShifts(x, n + 2);
    FourBitsIs(Divided(x, n));
  }

  lemma EightShifts(x: bv16)
    ensures Divided(x, 8) == FourBits(FourBits(x))
  {
    hide FourBits;
    FourShifts(x, 0);
    FourShifts(x, 4);
  }

  lemma OneBitAdds(a: bv16, b: bv16)
    ensures OneBit(Sum(a, b)) == Sum(OneBit(a), OneBit(b))
  {
  }

  /** Division adds up. */
  lemma {:induction false} DivisionAdds(a: bv16, b: bv16, bits: nat)
    ensures Divided(Sum(a, b), bits) == Sum(Divided(a, bits), Divided(b, bits))
    decreases bits
  {
    hide Shifted, OneBit, Sum;
    if bits > 0 {
      var a', b' := Divided(a, bits - 1), Divided(b, bits - 1);
      DivisionAdds(a, b, bits - 1);
      ShiftedIs(a');
      ShiftedIs(b');
      ShiftedIs(Sum(a', b'));
      OneBitAdds(a', b');
    }
  }

  function Spread(data: bv8): bv16 {
    ((data as bv16) << 8) ^ ((data >> 4) as bv16) ^ ((data as bv16) << 3)
  }

  function UpperPart(crc: bv16): bv16 {
    crc & 0xff00
  }

  function Widened(d: bv8): bv16 {
    d as bv16
  }

  lemma UpperBits(x: bv16)
    ensures FourBits(FourBits(UpperPart(x))) == Upper(x)
  {
  }

  lemma LowerBits(d: bv8)
    ensures FourBits(FourBits(Widened(d))) == Spread(Mixed(d))
  {
  }

  lemma OrIsXor(data: bv8, crc: bv16)
    ensures ((data as bv16) << 8) | (crc >> 8) == ((data as bv16) << 8) ^ (crc >> 8)
  {
  }

  lemma XorSwap(h: bv16, c: bv16, x: bv16, y: bv16)
    ensures h ^ c ^ x ^ y == c ^ (h ^ x ^ y)
  {
  }

  lemma FoldSplits(crc: bv16, data: bv8)
    ensures Folded(crc, data) == Sum(Upper(crc), Spread(data))
  {
    OrIsXor(data, crc);
    XorSwap((data as bv16) << 8, crc >> 8, (data >> 4) as bv16, (data as bv16) << 3);
  }

  lemma UpperAndLower(crc: bv16)
    ensures crc == (crc & 0xff00) ^ (((crc & 0xff) as bv8) as bv16)
  {
  }

  lemma WordAdds(a: bv8, b: bv8)
    ensures (a ^ b) as bv16 == (a as bv16) ^ (b as bv16)
  {
  }

  lemma XorTurn(u: bv16, l: bv16, w: bv16)
    ensures (u ^ l) ^ w == u ^ (w ^ l)
  {
  }

  lemma Parts(crc: bv16, byte': bv8)
    ensures Sum(crc, Widened(byte')) == Sum(UpperPart(crc), Widened(Entering(crc, byte')))
  {
    var low := (crc & 0xff) as bv8;
    UpperAndLower(crc);
    WordAdds(byte', low);
    XorTurn(crc & 0xff00, low as bv16, byte' as bv16);
  }

  /** The byte-wise trick of the code is eight steps of the bit-wise division. */
  lemma StepDivides(crc: bv16, byte': bv8)
    ensures StepC(crc, byte') == Divided(Sum(crc, Widened(byte')), 8)
  {
    hide Sum, Upper, UpperPart, Widened, Entering, Mixed, Folded, Divided, FourBits, Spread;
    var d := Entering(crc, byte');
    Parts(crc, byte');
    DivisionAdds(UpperPart(crc), Widened(d), 8);
    EightShifts(UpperPart(crc));
    EightShifts(Widened(d));
    UpperBits(crc);
    LowerBits(d);
    FoldSplits(crc, Mixed(d));
  }

  // ----- what it detects ---------------------------------------------------------------------------

  lemma SpreadTop(i: bv8, j: bv8)
    requires Upper(Spread(Mixed(i))) == Upper(Spread(Mixed(j)))
    ensures i == j
  {
  }

  lemma CancelTop(u: bv16, w: bv16, s: bv16, t: bv16)
    requires Sum(Upper(u), s) == Sum(Upper(w), t)
    ensures Upper(s) == Upper(t) && (s == t ==> Upper(u) == Upper(w))
  {
  }

  lemma CancelLow(c: bv16, d: bv16, byte': bv8)
    requires Upper(c) == Upper(d) && Entering(c, byte') == Entering(d, byte')
    ensures c == d
  {
  }

  lemma CancelByte(crc: bv16, a: bv8, b: bv8)
    requires Entering(crc, a) == Entering(crc, b)
    ensures a == b
  {
  }

  lemma TopIs(u: bv16, s: bv16)
    ensures Upper(Sum(Upper(u), s)) == Upper(s)
  {
  }

  /** Equal checksums come from equal upper halves one byte before, and equal sums of byte and lower half. */
  lemma SameSum(u: bv16, w: bv16, a: bv8, b: bv8)
    requires StepC(u, a) == StepC(w, b)
    ensures Upper(u) == Upper(w) && Entering(u, a) == Entering(w, b)
  {
    hide Sum, Upper, Entering, Folded, Mixed, Spread;
    var i, j := Entering(u, a), Entering(w, b);
    FoldSplits(u, Mixed(i));
    FoldSplits(w, Mixed(j));
    CancelTop(u, w, Spread(Mixed(i)), Spread(Mixed(j)));
    SpreadTop(i, j);
  }

  lemma SameCrc(c: bv16, d: bv16, byte': bv8)
    requires StepC(c, byte') == StepC(d, byte')
    ensures c == d
  {
    hide StepC, Upper, Entering;
    SameSum(c, d, byte', byte');
    CancelLow(c, d, byte');
  }

  lemma SameByte(crc: bv16, a: bv8, b: bv8)
    requires StepC(crc, a) == StepC(crc, b)
    ensures a == b
  {
    hide StepC, Upper, Entering;
    SameSum(crc, crc, a, b);
    CancelByte(crc, a, b);
  }

  lemma SameTop(crc: bv16, a: bv8, b: bv8)
    requires Upper(StepC(crc, a)) == Upper(StepC(crc, b))
    ensures a == b
  {
    hide Sum, Upper, Entering, Folded, Mixed, Spread;
    var i, j := Entering(crc, a), Entering(crc, b);
    FoldSplits(crc, Mixed(i));
    FoldSplits(crc, Mixed(j));
    TopIs(crc, Spread(Mixed(i)));
    TopIs(crc, Spread(Mixed(j)));
    SpreadTop(i, j);
    CancelByte(crc, a, b);
  }

  lemma DivTwice(x: int)
    ensures x / 4 == x / 2 / 2 && x / 8 == x / 4 / 2 && x / 16 == x / 8 / 2
    ensures x / 32 == x / 16 / 2 && x / 64 == x / 32 / 2 && x / 128 == x / 64 / 2
  {
  }

  lemma HalfAndBit(x: int)
    ensures x == 2 * (x / 2) + x % 2
  {
  }

  lemma BitSteps(x: int)
    ensures x == 2 * (x / 2) + x % 2 && x / 2 == 2 * (x / 4) + x / 2 % 2
    ensures x / 4 == 2 * (x / 8) + x / 4 % 2 && x / 8 == 2 * (x / 16) + x / 8 % 2
    ensures x / 16 == 2 * (x / 32) + x / 16 % 2 && x / 32 == 2 * (x / 64) + x / 32 % 2
    ensures x / 64 == 2 * (x / 128) + x / 64 % 2
    ensures 0 <= x < 256 ==> x / 128 == x / 128 % 2
  {
    DivTwice(x);
    HalfAndBit(x);
    HalfAndBit(x / 2);
    HalfAndBit(x / 4);
    HalfAndBit(x / 8);
    HalfAndBit(x / 16);
    HalfAndBit(x / 32);
    HalfAndBit(x / 64);
  }

  lemma IntByte(x: int)
    requires 0 <= x < 256
    ensures (x as bv8) as int == x
  {
    BitSteps(x);
  }

  lemma ByteIs(x: byte)
    ensures Byte8(x) as int == x
  {
    IntByte(x);
  }

  /** One or two bytes in a row that differ make a different checksum. */
  lemma StepsDiffer(crc: bv16, a: byte, a': byte, b: byte, b': byte)
    ensures StepC(crc, Byte8(a)) == StepC(crc, Byte8(b)) ==> a == b
    ensures StepC(StepC(crc, Byte8(a)), Byte8(a')) == StepC(StepC(crc, Byte8(b)), Byte8(b')) ==> a == b && a' == b'
  {
    hide StepC, Byte8, Upper, Entering;
    ByteIs(a);
    ByteIs(a');
    ByteIs(b);
    ByteIs(b');
    var u, w := StepC(crc, Byte8(a)), StepC(crc, Byte8(b));
    if u == w {
      SameByte(crc, Byte8(a), Byte8(b));
    }
    if StepC(u, Byte8(a')) == StepC(w, Byte8(b')) {
      SameSum(u, w, Byte8(a'), Byte8(b'));
      SameTop(crc, Byte8(a), Byte8(b));
      SameByte(u, Byte8(a'), Byte8(b'));
    }
  }

  /** `t` is `s` with something else at `j`, at `j + 1` or at both. */
  ghost predicate Burst(s: seq<byte>, t: seq<byte>, j: nat) {
    |s| == |t| && s != t && forall k :: 0 <= k < |s| && k != j && k != j + 1 ==> s[k] == t[k]
  }

  /** The checksum changes if up to two adjacent bytes do, wherever they are. */
  lemma {:induction false} CrcSeesBurst(s: seq<byte>, t: seq<byte>, j: nat)
    requires Burst(s, t, j)
    ensures Crc(s) != Crc(t)
    decreases |s|
  {
    hide StepC, Byte8;
    var n := |s| - 1;
    var front, front' := s[..n], t[..n];
    assert s == front + [s[n]] && t == front' + [t[n]];
    if j + 1 < n {
      CrcSeesBurst(front, front', j);
      if Crc(s) == Crc(t) {
        SameCrc(Crc(front), Crc(front'), Byte8(s[n]));
      }
    } else if j + 1 == n {
      assert front == front[..j] + [s[j]] && front' == front'[..j] + [t[j]];
      assert front[..j] == front'[..j];
      StepsDiffer(Crc(front[..j]), s[j], s[n], t[j], t[n]);
    } else {
      assert front == front';
      StepsDiffer(Crc(front), s[n], 0, t[n], 0);
    }
  }

  // ----- as two bytes --------------------------------------------------------------------------------

  function High(crc: bv16): byte {
    ((crc >> 8) as bv8) as byte
  }

  function Low(crc: bv16): byte {
    ((crc & 0xff) as bv8) as byte
  }

  lemma Halves(crc: bv16)
    ensures High(crc) * 256 + Low(crc) == crc as int
  {
  }

  lemma BackToBits(a: bv8)
    ensures (a as int) as bv8 == a
  {
  }

  lemma SameBits(a: bv8, b: bv8)
    requires a as int == b as int
    ensures a == b
  {
    BackToBits(a);
    BackToBits(b);
  }

  lemma Whole(c: bv16, d: bv16)
    requires (c >> 8) as bv8 == (d >> 8) as bv8 && (c & 0xff) as bv8 == (d & 0xff) as bv8
    ensures c == d
  {
  }

  lemma PairsDiffer(c: bv16, d: bv16)
    requires c != d
    ensures High(c) != High(d) || Low(c) != Low(d)
  {
    if High(c) == High(d) && Low(c) == Low(d) {
      SameBits((c >> 8) as bv8, (d >> 8) as bv8);
      SameBits((c & 0xff) as bv8, (d & 0xff) as bv8);
      Whole(c, d);
    }
  }
}
