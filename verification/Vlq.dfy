/**
 Variable length quantities: `encode_int` and `parse_int` of `src/command.c`, and
 `PT_uint32` of `klippy/msgproto.py`. Shifts and masks are written as arithmetic.
 */
module Vlq {
  import opened Ticks

  type byte = x: int | 0 <= x < 256

  /** Seven bits of `v`, from bit 7 * k up. */
  function Group(v: int, k: nat): (g: int)
    requires k <= 4
    ensures 0 <= g < 128
  {
    Above(v, k) % 128
  }

  /** `v` shifted right by 7 * k bits. */
  function Above(v: int, k: nat): int
    requires k <= 4
  {
    v / Shift(k)
  }

  function Shift(k: nat): int
    requires k <= 4
  {
    match k
    case 0 => 1
    case 1 => 0x80
    case 2 => 0x4000
    case 3 => 0x20_0000
    case _ => 0x1000_0000
  }

  /** `encode_int`. */
  function EncodeC(v: uint32): seq<byte> {
    var sv := Signed(v);
    (if sv < 0xc00_0000 && sv >= -0x400_0000 then [] else [Above(v, 4) + 128]) +
    (if sv < 0x18_0000 && sv >= -0x8_0000 then [] else [Group(v, 3) + 128]) +
    (if sv < 0x3000 && sv >= -0x1000 then [] else [Group(v, 2) + 128]) +
    (if sv < 0x60 && sv >= -0x20 then [] else [Group(v, 1) + 128]) +
    [Group(v, 0)]
  }

  /** `PT_uint32.encode`. */
  function EncodePy(v: int): seq<byte> {
    (if v >= 0xc00_0000 || v < -0x400_0000 then [Group(v, 4) + 128] else []) +
    (if v >= 0x18_0000 || v < -0x8_0000 then [Group(v, 3) + 128] else []) +
    (if v >= 0x3000 || v < -0x1000 then [Group(v, 2) + 128] else []) +
    (if v >= 0x60 || v < -0x20 then [Group(v, 1) + 128] else []) +
    [Group(v, 0)]
  }

  /** A byte without the continuation bit comes at `p` or later. */
  ghost predicate Terminated(s: seq<byte>, p: nat) {
    exists t :: p <= t < |s| && s[t] < 128
  }

  /** The value of the first byte, which carries the sign. */
  function First(c: byte): int {
    if c % 128 >= 0x60 then c % 128 - 128 else c % 128
  }

  /** The number that the bytes from `p` on spell, after `v`, and where it ends. */
  ghost function Rest(s: seq<byte>, p: nat, v: int): (r: (int, nat))
    requires p > 0 && p <= |s| && (s[p - 1] >= 128 ==> Terminated(s, p))
    ensures p <= r.1 <= |s|
    decreases |s| - p
  {
    if s[p - 1] < 128 then (v, p) else Rest(s, p + 1, v * 128 + s[p] % 128)
  }

  ghost function Parsed(s: seq<byte>, p: nat): (r: (int, nat))
    requires Terminated(s, p)
    ensures p < r.1 <= |s|
  {
    Rest(s, p + 1, First(s[p]))
  }

  lemma WrapShift(v: int, d: int)
    ensures Wrap(Wrap(v) * 128 + d) == Wrap(v * 128 + d)
  {
    assert v == v / WORD * WORD + Wrap(v);
    WrapMultiple(v / WORD * 128, Wrap(v) * 128 + d);
  }

  lemma WrapMultiple(k: int, x: int)
    ensures Wrap(k * WORD + x) == Wrap(x)
  {
  }

  /** Bits 5 and 6 of the first byte are both set in a negative number only. */
  lemma SignBits(c: byte)
    ensures First(c) == if c / 32 % 4 == 3 then c % 128 - 128 else c % 128
  {
  }

  /** `parse_int`, on a buffer where the number ends. */
  method ParseInt(s: seq<byte>, start: nat) returns (v: uint32, end: nat)
    requires Terminated(s, start)
    ensures Parsed(s, start).1 == end && v == Wrap(Parsed(s, start).0)
  {
    hide First, Wrap;
    var p := start;
    var c := s[p];
    p := p + 1;
    v := c % 128;
    SignBits(c);
    WrapSmall(c % 128);
    ghost var exact := First(c);
    if c / 32 % 4 == 3 {
      v := Wrap(v - 128);
    }
    while c >= 128
      invariant start < p <= |s| && c == s[p - 1] && (c >= 128 ==> Terminated(s, p))
      invariant v == Wrap(exact) && Parsed(s, start) == Rest(s, p, exact)
      decreases |s| - p
    {
      WrapShift(exact, s[p] % 128);
      c := s[p];
      p := p + 1;
      v, exact := Wrap(v * 128 + c % 128), exact * 128 + c % 128;
    }
    end := p;
  }

  /** `PT_uint32.parse`, unsigned or signed. */
  method ParsePy(s: seq<byte>, start: nat, signed: bool) returns (v: int, end: nat)
    requires Terminated(s, start)
    ensures Parsed(s, start).1 == end
    ensures v == if signed then Parsed(s, start).0 else Wrap(Parsed(s, start).0)
  {
    hide First, Wrap;
    var pos := start;
    var c := s[pos];
    pos := pos + 1;
    v := c % 128;
    SignBits(c);
    if c / 32 % 4 == 3 {
      v := v - 128;
    }
    while c >= 128
      invariant start < pos <= |s| && c == s[pos - 1] && (c >= 128 ==> Terminated(s, pos))
      invariant Parsed(s, start) == Rest(s, pos, v)
      decreases |s| - pos
    {
      c := s[pos];
      pos := pos + 1;
      v := v * 128 + c % 128;
    }
    if !signed {
      v := Wrap(v);
    }
    end := pos;
  }

  // ----- round trips -----------------------------------------------------------------------

  /** At `p` come the low `k` groups of `v`, all but the last with a continuation bit. */
  ghost predicate Spelled(s: seq<byte>, p: nat, v: int, k: nat)
    requires 1 <= k <= 5
  {
    && p + k <= |s|
    && forall j {:trigger Group(v, j)} :: 0 <= j < k ==> s[p + k - 1 - j] == Group(v, j) + if j > 0 then 128 else 0
  }

  lemma GroupStep(v: int, k: nat)
    requires 1 <= k <= 4
    ensures Above(v, k) * 128 + Group(v, k - 1) == Above(v, k - 1)
  {
  }

  /** Reading `k` more groups of `v` after its higher ones. */
  lemma {:induction false} ReadsOn(s: seq<byte>, p: nat, v: int, k: nat)
    requires 1 <= k <= 4 && Spelled(s, p, v, k) && p > 0 && s[p - 1] >= 128
    ensures Terminated(s, p) && Rest(s, p, Above(v, k)) == (v, p + k)
    decreases k
  {
    hide Above, Group;
    assert s[p + k - 1] == Group(v, 0);
    GroupStep(v, k);
    assert s[p] == Group(v, k - 1) + if k > 1 then 128 else 0;
    SevenBits(Group(v, k - 1));
    if k > 1 {
      assert Spelled(s, p + 1, v, k - 1);
      ReadsOn(s, p + 1, v, k - 1);
    } else {
      AboveNone(v);
    }
  }

  lemma SevenBits(x: int)
    requires 0 <= x < 128
    ensures (x + 128) % 128 == x % 128 == x
  {
  }

  lemma AboveNone(v: int)
    ensures Above(v, 0) == v
  {
  }

  lemma SignedFirst(v: int, k: nat)
    requires k <= 4 && -32 <= Above(v, k) < 96
    ensures First(Group(v, k)) == First(Group(v, k) + 128) == Above(v, k)
  {
    hide Above;
  }

  /** The first group carries the sign if it is small enough. */
  lemma ReadsAll(s: seq<byte>, p: nat, v: int, k: nat)
    requires 1 <= k <= 5 && Spelled(s, p, v, k) && -32 <= Above(v, k - 1) < 96
    ensures Terminated(s, p) && Parsed(s, p) == (v, p + k)
  {
    hide Above, Group, First;
    assert s[p + k - 1] == Group(v, 0);
    assert s[p] == Group(v, k - 1) + if k > 1 then 128 else 0;
    SignedFirst(v, k - 1);
    if k > 1 {
      assert Spelled(s, p + 1, v, k - 1);
      ReadsOn(s, p + 1, v, k - 1);
    } else {
      AboveNone(v);
    }
  }

  /** Length of an encoding. */
  function Size(v: int): (k: nat)
    ensures 1 <= k <= 5
  {
    if -0x20 <= v < 0x60 then 1
    else if -0x1000 <= v < 0x3000 then 2
    else if -0x8_0000 <= v < 0x18_0000 then 3
    else if -0x400_0000 <= v < 0xc00_0000 then 4
    else 5
  }

  lemma SizeFits(v: int)
    requires -0x2_0000_0000 <= v < 0x6_0000_0000
    ensures -32 <= Above(v, Size(v) - 1) < 96
  {
  }

  lemma PySpells(v: int, before: seq<byte>, after: seq<byte>)
    ensures |EncodePy(v)| == Size(v) && Spelled(before + EncodePy(v) + after, |before|, v, Size(v))
  {
    hide Group, Above;
  }

  /**
   Whatever Python encodes, both parsers read back, wherever it stands: exactly by the
   signed Python parser, modulo 2^32 by the others.
   */
  lemma PythonRoundTrip(v: int, before: seq<byte>, after: seq<byte>)
    requires -0x2_0000_0000 <= v < 0x6_0000_0000
    ensures var s := before + EncodePy(v) + after;
            Terminated(s, |before|) && Parsed(s, |before|) == (v, |before| + |EncodePy(v)|)
  {
    PySpells(v, before, after);
    SizeFits(v);
    ReadsAll(before + EncodePy(v) + after, |before|, v, Size(v));
  }

  /** What the bytes behind the first can add to a number. */
  lemma {:induction false} RestRange(s: seq<byte>, p: nat, v: int, k: nat)
    requires 0 < p <= |s| && (s[p - 1] >= 128 ==> Terminated(s, p))
    requires k <= 3 && Rest(s, p, v).1 == p + k
    ensures v * Shift(k) <= Rest(s, p, v).0 < (v + 1) * Shift(k)
    decreases k
  {
    if s[p - 1] >= 128 {
      RestRange(s, p + 1, v * 128 + s[p] % 128, k - 1);
    }
  }

  lemma FirstRange(c: byte)
    ensures -32 <= First(c) < 96
  {
  }

  lemma SizeOfRange(v: int, first: int, k: nat)
    requires k <= 3 && -32 <= first < 96 && first * Shift(k) <= v < (first + 1) * Shift(k)
    ensures Size(v) <= k + 1
  {
  }

  lemma SizeBound(s: seq<byte>, p: nat)
    requires Terminated(s, p)
    ensures Size(Parsed(s, p).0) <= Parsed(s, p).1 - p
  {
    hide First, Size, Rest;
    var end := Parsed(s, p).1;
    if end - p <= 4 {
      FirstRange(s[p]);
      RestRange(s, p + 1, First(s[p]), end - p - 1);
      SizeOfRange(Parsed(s, p).0, First(s[p]), end - p - 1);
    }
  }

  /** No shorter list of bytes spells the same number. */
  lemma Shortest(s: seq<byte>, p: nat)
    requires Terminated(s, p)
    ensures var (v, end) := Parsed(s, p); |EncodePy(v)| <= end - p
  {
    hide Parsed, Size, EncodePy, Spelled;
    SizeBound(s, p);
    PySpells(Parsed(s, p).0, [], []);
  }

  lemma SizeOfWord(v: uint32, x: int)
    requires Wrap(x) == v
    ensures Size(Signed(v)) <= Size(x)
  {
  }

  /** Nor does one spell the same word. */
  lemma ShortestWord(v: uint32, s: seq<byte>, p: nat)
    requires Terminated(s, p) && Wrap(Parsed(s, p).0) == v
    ensures |EncodeC(v)| <= Parsed(s, p).1 - p
  {
    hide Parsed, Size, EncodeC, Spelled, Wrap;
    SizeBound(s, p);
    SizeOfWord(v, Parsed(s, p).0);
    CSpells(v, [], []);
  }

  /** What the firmware's encoding of a word spells: five bytes carry no sign. */
  function Carried(v: uint32): int {
    if Size(Signed(v)) == 5 then v else Signed(v)
  }

  lemma Lowered(v: int)
    ensures (v - WORD) % 128 == v % 128
    ensures (v - WORD) / 0x80 == v / 0x80 - 0x200_0000
    ensures (v - WORD) / 0x4000 == v / 0x4000 - 0x4_0000
    ensures (v - WORD) / 0x20_0000 == v / 0x20_0000 - 0x800
  {
  }

  lemma WholeGroups(x: int)
    ensures (x - 0x200_0000) % 128 == (x - 0x4_0000) % 128 == (x - 0x800) % 128 == x % 128
  {
  }

  /** The top bit of a word does not show in its low 28 bits. */
  lemma SameGroups(v: uint32, k: nat)
    requires k <= 3
    ensures Group(v, k) == Group(Signed(v), k)
  {
    Lowered(v);
    WholeGroups(Above(v, k));
  }

  lemma TopGroup(v: uint32)
    ensures 0 <= Above(v, 4) < 16 && Group(v, 4) == Above(v, 4)
  {
  }

  lemma CSpells(v: uint32, before: seq<byte>, after: seq<byte>)
    ensures |EncodeC(v)| == Size(Signed(v))
    ensures Spelled(before + EncodeC(v) + after, |before|, Carried(v), Size(Signed(v)))
  {
    hide Group, Above;
    SameGroups(v, 0);
    SameGroups(v, 1);
    SameGroups(v, 2);
    SameGroups(v, 3);
    TopGroup(v);
  }

  /** The firmware's words come back from its own parser and from Python's unsigned one. */
  lemma FirmwareRoundTrip(v: uint32, before: seq<byte>, after: seq<byte>)
    ensures var s := before + EncodeC(v) + after;
            Terminated(s, |before|) && Parsed(s, |before|) == (Carried(v), |before| + |EncodeC(v)|)
    ensures Wrap(Carried(v)) == v
  {
    hide EncodeC, Above, Spelled;
    CSpells(v, before, after);
    if Size(Signed(v)) < 5 {
      SizeFits(Signed(v));
    }
    TopGroup(v);
    ReadsAll(before + EncodeC(v) + after, |before|, Carried(v), Size(Signed(v)));
  }

  /** Python's signed parser reads a firmware word as its signed value exactly from -2^26 up. */
  lemma SignedExactly(v: uint32)
    ensures Terminated(EncodeC(v), 0)
    ensures Parsed(EncodeC(v), 0).0 == Signed(v) <==> Signed(v) >= -0x400_0000
  {
    FirmwareRoundTrip(v, [], []);
    assert [] + EncodeC(v) + [] == EncodeC(v);
  }

  /** A word below that bound: -2^31 arrives as 2^31. */
  lemma SignedCounterexample()
    ensures Signed(HALF) == -HALF && Terminated(EncodeC(HALF), 0) && Parsed(EncodeC(HALF), 0).0 == HALF
  {
    FirmwareRoundTrip(HALF, [], []);
    assert [] + EncodeC(HALF) + [] == EncodeC(HALF);
  }
}
