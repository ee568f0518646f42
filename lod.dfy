/**
 * Fixed-point LOD index arithmetic (worldsim/src/lodstore/index.rs).
 *
 * A LodIndex stores each axis as a u32 holding `x * 32 + 65535`, i.e. an
 * offset fixed-point value with 5 fractional bits. Rust integer arithmetic is
 * modelled with release-build semantics: `+`, `-`, `*` wrap modulo 2^width and
 * `as` casts reinterpret the low bits. A debug build panics instead of
 * wrapping. The "no wrap" ranges below are where the final u32 equals the
 * plain value; above 67106816 the intermediate i32 steps of `new` overflow
 * and only the final cast restores that value, so a debug build agrees with
 * the model only up to 67106816.
 */
module Lod {

  const TWO_32: int := 0x1_0000_0000
  const TWO_31: int := 0x8000_0000

  type U32 = x: int | 0 <= x < TWO_32
  type I32 = x: int | -TWO_31 <= x < TWO_31
  type I8 = x: int | -128 <= x < 128
  type U8 = x: int | 0 <= x < 256
  type U16 = x: int | 0 <= x < 0x1_0000

  /** `v as u32` for any integer value held in a wider type: keep the low 32 bits. */
  function WrapU32(v: int): U32 { v % TWO_32 }

  /** `v as i32`: keep the low 32 bits and read them as two's complement. */
  function WrapI32(v: int): I32 {
    var u := v % TWO_32;
    if u < TWO_31 then u else u - TWO_32
  }

  datatype Vec3I = Vec3I(x: I32, y: I32, z: I32)
  datatype LodIndex = LodIndex(x: U32, y: U32, z: U32)

  const ENCODE_SCALE: int := 32
  const ENCODE_OFFSET: int := 65535
  const DECODE_OFFSET: int := 2048

  /** One axis of `LodIndex::new`: `(x * 32 + 65535) as u32`, computed in i32. */
  function NewAxis(x: I32): U32 {
    WrapU32(WrapI32(WrapI32(x * ENCODE_SCALE) + ENCODE_OFFSET))
  }

  function New(p: Vec3I): LodIndex {
    LodIndex(NewAxis(p.x), NewAxis(p.y), NewAxis(p.z))
  }

  /** One axis of `to_pos_i`: `(x / 32 - 2048) as i32`, computed in u32. */
  function ToPosAxis(x: U32): I32 {
    WrapI32(WrapU32(x / ENCODE_SCALE - DECODE_OFFSET))
  }

  function ToPosI(l: LodIndex): Vec3I {
    Vec3I(ToPosAxis(l.x), ToPosAxis(l.y), ToPosAxis(l.z))
  }

  /** One axis of `Sub`: `(x - y) as i32` in u32 arithmetic, then re-encoded by `new`. */
  function SubAxis(x: U32, y: U32): U32 {
    NewAxis(WrapI32(WrapU32(x - y)))
  }

  function Sub(a: LodIndex, b: LodIndex): LodIndex {
    LodIndex(SubAxis(a.x, b.x), SubAxis(a.y, b.y), SubAxis(a.z, b.z))
  }

  /** `relative_to_1d`: row-major flattening, computed in u32 and widened to usize. */
  function RelativeTo1d(index: LodIndex, size: LodIndex): nat {
    WrapU32(WrapU32(index.x + WrapU32(index.y * size.x)) + WrapU32(WrapU32(index.z * size.x) * size.y))
  }

  const LEVEL_LENGTH_POW_MAX: I8 := 11
  const LEVEL_LENGTH_POW_MIN: I8 := -4
  const LEVEL_INDEX_POW_MAX: U8 := 15
  const LEVEL_INDEX_POW_MIN: U8 := 0

  /** `length_to_index`: `(n + 4) as u8`, the addition done in i8. */
  function LengthToIndex(n: I8): U8 {
    var s := (n + 4 + 128) % 256 - 128;   // i8 wrap-around of n + 4
    s % 256                               // reinterpret as u8
  }

  /** `two_pow_u`: `1 << n` in u16; a release build masks the shift amount to its low 4 bits. */
  function TwoPowU(n: U8): U16 {
    ((1 as bv16) << ((n % 16) as bv4)) as int
  }

  function Pow2(n: nat): nat {
    if n == 0 then 1 else 2 * Pow2(n - 1)
  }

  // ---------------------------------------------------------------------------
  // Encoding

  /** The encoded axis is the plain value `x * 32 + 65535` (no u32 wrap) exactly on this range. */
  lemma NewAxisNoWrap(x: I32)
    ensures NewAxis(x) == 32 * x + 65535 <==> -2047 <= x <= 134215680
  {
    var m := WrapI32(x * 32);
    assert m % TWO_32 == (x * 32) % TWO_32;
    var s := WrapI32(m + 65535);
    assert s % TWO_32 == (m + 65535) % TWO_32;
    assert NewAxis(x) == (32 * x + 65535) % TWO_32;
  }

  /** The value actually stored: the true encoding taken modulo 2^32. */
  lemma NewAxisIsModular(x: I32)
    ensures NewAxis(x) == (32 * x + 65535) % TWO_32
  {
    var m := WrapI32(x * 32);
    assert m % TWO_32 == (x * 32) % TWO_32;
    var s := WrapI32(m + 65535);
    assert s % TWO_32 == (m + 65535) % TWO_32;
  }

  /** Below -2047 the cast to u32 wraps: the stored value is 2^32 too large. */
  lemma NewAxisWrapsBelow(x: I32)
    requires x < -2047 && -67108864 <= x
    ensures NewAxis(x) == 32 * x + 65535 + TWO_32
  {
    NewAxisIsModular(x);
  }

  // ---------------------------------------------------------------------------
  // Decoding

  /** `to_pos_i` is floor division by 32 minus 2048, whatever the u32 wrap does in between. */
  lemma ToPosAxisIsFloor(x: U32)
    ensures ToPosAxis(x) == x / 32 - 2048
  {
  }

  /** Values that differ only in their 5 fractional bits decode to the same integer. */
  lemma ToPosAxisIgnoresFraction(a: U32, b: U32)
    ensures ToPosAxis(a) == ToPosAxis(b) <==> a / 32 == b / 32
  {
    ToPosAxisIsFloor(a);
    ToPosAxisIsFloor(b);
  }

  /** Decoding an encoded axis yields x - 1, not x: the encode offset is 65535 but decode removes 65536. */
  lemma DecodeEncodeAxis(x: I32)
    requires -2047 <= x <= 134215680
    ensures ToPosAxis(NewAxis(x)) == x - 1
  {
    NewAxisNoWrap(x);
    ToPosAxisIsFloor(NewAxis(x));
    assert (32 * x + 65535) / 32 == x + 2047;
  }

  lemma DecodeEncode(p: Vec3I)
    requires -2047 <= p.x <= 134215680 && -2047 <= p.y <= 134215680 && -2047 <= p.z <= 134215680
    ensures ToPosI(New(p)) == Vec3I(p.x - 1, p.y - 1, p.z - 1)
  {
    DecodeEncodeAxis(p.x);
    DecodeEncodeAxis(p.y);
    DecodeEncodeAxis(p.z);
  }

  /** No input survives the round trip unchanged on the non-wrapping range. */
  lemma DecodeEncodeNeverIdentity(p: Vec3I)
    requires -2047 <= p.x <= 134215680
    ensures ToPosI(New(p)) != p
  {
    DecodeEncodeAxis(p.x);
  }

  // ---------------------------------------------------------------------------
  // Subtraction

  /** Subtracting two encodings re-encodes the raw difference of the stored values. */
  lemma SubOfEncodings(p: I32, q: I32)
    requires -2047 <= q <= p <= 134215680 && p - q <= 4194240
    ensures SubAxis(NewAxis(p), NewAxis(q)) == 1024 * (p - q) + 65535
  {
    NewAxisNoWrap(p);
    NewAxisNoWrap(q);
    var d := 32 * (p - q);
    assert WrapU32(NewAxis(p) - NewAxis(q)) == d;
    assert WrapI32(d) == d;
    NewAxisNoWrap(d);
  }

  lemma SubOfNew(p: Vec3I, q: Vec3I)
    requires -2047 <= q.x <= p.x <= 134215680 && p.x - q.x <= 4194240
    requires -2047 <= q.y <= p.y <= 134215680 && p.y - q.y <= 4194240
    requires -2047 <= q.z <= p.z <= 134215680 && p.z - q.z <= 4194240
    ensures Sub(New(p), New(q)) == LodIndex(1024 * (p.x - q.x) + 65535, 1024 * (p.y - q.y) + 65535, 1024 * (p.z - q.z) + 65535)
  {
    SubOfEncodings(p.x, q.x);
    SubOfEncodings(p.y, q.y);
    SubOfEncodings(p.z, q.z);
  }

  /** When the left operand is smaller the u32 subtraction wraps; the wrapped value is re-encoded. */
  lemma SubAxisUnderflow(x: U32, y: U32)
    requires x < y
    ensures SubAxis(x, y) == NewAxis(WrapI32(x - y + TWO_32))
  {
  }

  // ---------------------------------------------------------------------------
  // Flattening

  /** Within bounds and without u32 overflow, the flat index is the row-major offset and lies below the volume. */
  lemma RelativeTo1dInRange(i: LodIndex, s: LodIndex)
    requires i.x < s.x && i.y < s.y && i.z < s.z
    requires s.x * s.y * s.z <= TWO_32
    ensures RelativeTo1d(i, s) == i.x + i.y * s.x + i.z * s.x * s.y
    ensures RelativeTo1d(i, s) < s.x * s.y * s.z
  {
    var area := s.x * s.y;
    var volume := area * s.z;
    var row := i.x + i.y * s.x;
    RowBelow(i.x, i.y, s.x, s.y);
    assert row < area;
    var sheet := i.z * s.x;
    var sheets := sheet * s.y;
    assert sheets == i.z * area by { MulAssoc(i.z, s.x, s.y); }
    RowBelow(row, i.z, area, s.z);
    assert row + sheets < volume;
    assert sheet <= sheets by { MulMono(sheet, 1, s.y); }
    assert WrapU32(i.y * s.x) == i.y * s.x;
    assert WrapU32(i.x + i.y * s.x) == row;
    assert WrapU32(sheet) == sheet;
    assert WrapU32(sheet * s.y) == sheets;
    assert WrapU32(row + sheets) == row + sheets;
  }

  /** r + q * d < n * d whenever r < d and q < n. */
  lemma RowBelow(r: nat, q: nat, d: nat, n: nat)
    requires r < d && q < n
    ensures r + q * d < n * d
  {
    MulMono(d, q + 1, n);
    assert d * (q + 1) == q * d + d;
  }

  lemma MulAssoc(a: nat, b: nat, c: nat)
    ensures (a * b) * c == a * (b * c)
  {
  }

  lemma MulMono(a: nat, b: nat, c: nat)
    requires b <= c
    ensures a * b <= a * c
  {
  }

  /** The flat index split into its offset inside a z-sheet and the whole sheets below it. */
  lemma RowMajor(i: LodIndex, s: LodIndex)
    requires i.x < s.x && i.y < s.y && i.z < s.z
    requires s.x * s.y * s.z <= TWO_32
    ensures RelativeTo1d(i, s) == (i.x + i.y * s.x) + i.z * (s.x * s.y)
    ensures i.x + i.y * s.x < s.x * s.y
  {
    RelativeTo1dInRange(i, s);
    RowBelow(i.x, i.y, s.x, s.y);
    MulAssoc(i.z, s.x, s.y);
  }

  /** Distinct in-bounds positions flatten to distinct indices. */
  lemma RelativeTo1dInjective(i: LodIndex, j: LodIndex, s: LodIndex)
    requires i.x < s.x && i.y < s.y && i.z < s.z
    requires j.x < s.x && j.y < s.y && j.z < s.z
    requires s.x * s.y * s.z <= TWO_32
    requires RelativeTo1d(i, s) == RelativeTo1d(j, s)
    ensures i == j
  {
    RowMajor(i, s);
    RowMajor(j, s);
    Unflatten(i.x, i.y, i.z, j.x, j.y, j.z, s.x, s.y);
  }

  /** Row-major offsets with in-range x and y determine all three coordinates. */
  lemma Unflatten(x1: nat, y1: nat, z1: nat, x2: nat, y2: nat, z2: nat, sx: nat, sy: nat)
    requires x1 < sx && y1 < sy && x2 < sx && y2 < sy
    requires x1 + y1 * sx + z1 * (sx * sy) == x2 + y2 * sx + z2 * (sx * sy)
    ensures x1 == x2 && y1 == y2 && z1 == z2
  {
    RowBelow(x1, y1, sx, sy);
    RowBelow(x2, y2, sx, sy);
    DivModUnique(x1 + y1 * sx, z1, x2 + y2 * sx, z2, sx * sy);
    DivModUnique(x1, y1, x2, y2, sx);
  }

  lemma DivModUnique(r1: nat, q1: nat, r2: nat, q2: nat, d: nat)
    requires r1 < d && r2 < d
    requires r1 + q1 * d == r2 + q2 * d
    ensures r1 == r2 && q1 == q2
  {
    if q1 < q2 {
      RowBelow(r1, q1, d, q2);
      assert false;
    } else if q2 < q1 {
      RowBelow(r2, q2, d, q1);
      assert false;
    }
  }

  // ---------------------------------------------------------------------------
  // Level indices

  /** The level length exponents [-4, 11] map one-to-one and in order onto level index exponents [0, 15]. */
  lemma LengthToIndexRange(n: I8)
    requires LEVEL_LENGTH_POW_MIN <= n <= LEVEL_LENGTH_POW_MAX
    ensures LEVEL_INDEX_POW_MIN <= LengthToIndex(n) <= LEVEL_INDEX_POW_MAX
    ensures LengthToIndex(n) == n - LEVEL_LENGTH_POW_MIN
  {
  }

  /** `length_to_index` loses nothing on any i8: the wrap-around is a bijection onto u8. */
  lemma LengthToIndexInjective(n: I8, m: I8)
    requires LengthToIndex(n) == LengthToIndex(m)
    ensures n == m
  {
  }

  lemma LengthToIndexBounds()
    ensures LengthToIndex(LEVEL_LENGTH_POW_MIN) == LEVEL_INDEX_POW_MIN
    ensures LengthToIndex(LEVEL_LENGTH_POW_MAX) == LEVEL_INDEX_POW_MAX
  {
  }

  /** `two_pow_u(n)` is 2^n and fits in u16 for every level index exponent. */
  lemma TwoPowUIsPow2(n: U8)
    requires n <= LEVEL_INDEX_POW_MAX
    ensures TwoPowU(n) == Pow2(n)
    ensures Pow2(n) < 0x1_0000
  {
    if n < 8 { TwoPowULow(n); } else { TwoPowUHigh(n); }
  }

  // the sixteen shift amounts, each checked by the bit-vector decision procedure
  lemma TwoPowULow(n: U8)
    requires n < 8
    ensures TwoPowU(n) == Pow2(n)
  {
    if n == 0 { assert TwoPowU(0) == 1; }
    else if n == 1 { assert TwoPowU(1) == 2; }
    else if n == 2 { assert TwoPowU(2) == 4; }
    else if n == 3 { assert TwoPowU(3) == 8; }
    else if n == 4 { assert TwoPowU(4) == 16; }
    else if n == 5 { assert TwoPowU(5) == 32; }
    else if n == 6 { assert TwoPowU(6) == 64; }
    else { assert TwoPowU(7) == 128; }
  }

  lemma TwoPowUHigh(n: U8)
    requires 8 <= n <= LEVEL_INDEX_POW_MAX
    ensures TwoPowU(n) == Pow2(n) && Pow2(n) < 0x1_0000
  {
    assert Pow2(8) == 256;
    if n < 12 { TwoPowUTo11(n); } else { TwoPowUTo15(n); }
  }

  lemma TwoPowUTo11(n: U8)
    requires 8 <= n < 12
    requires Pow2(8) == 256
    ensures TwoPowU(n) == Pow2(n) && Pow2(n) < 0x1_0000
  {
    if n == 8 { assert TwoPowU(8) == 256; }
    else if n == 9 { assert TwoPowU(9) == 512; }
    else if n == 10 { assert TwoPowU(10) == 1024; }
    else { assert TwoPowU(11) == 2048; }
  }

  lemma TwoPowUTo15(n: U8)
    requires 12 <= n <= LEVEL_INDEX_POW_MAX
    requires Pow2(8) == 256
    ensures TwoPowU(n) == Pow2(n) && Pow2(n) < 0x1_0000
  {
    assert Pow2(12) == 4096;
    if n == 12 { assert TwoPowU(12) == 4096; }
    else if n == 13 { assert TwoPowU(13) == 8192; }
    else if n == 14 { assert TwoPowU(14) == 16384; }
    else { assert TwoPowU(15) == 32768; }
  }

  lemma TwoPowUMasksShift(n: U8)
    ensures TwoPowU(n) == TwoPowU(n % 16)
  {
  }

  /** The release-build value for every u8: the shift amount is taken mod 16, so `two_pow_u(n)` is 2^(n mod 16). */
  lemma TwoPowURelease(n: U8)
    ensures TwoPowU(n) == Pow2(n % 16) && Pow2(n % 16) < 0x1_0000
  {
    TwoPowUMasksShift(n);
    TwoPowUIsPow2(n % 16);
  }
}
