/** Machine integers of the AVR target and the semantics of the handful of
    8-bit instructions that the two inline-assembly routines of the wave
    generator use (`mul`, `mulsu`, `add`, `adc`, `sbc`).  Registers are bytes;
    a 16-bit or 32-bit C variable is a little-endian group of bytes. */
module Avr {

  type uint8 = x: int | 0 <= x < 0x100
  type uint16 = x: int | 0 <= x < 0x1_0000
  type uint32 = x: int | 0 <= x < 0x1_0000_0000
  type int16 = x: int | -0x8000 <= x < 0x8000

  const TWO_8: int := 0x100
  const TWO_16: int := 0x1_0000
  const TWO_24: int := 0x100_0000
  const TWO_32: int := 0x1_0000_0000

  function Bit(b: bool): (n: int)
    ensures 0 <= n <= 1 && (n == 1 <==> b)
  {
    if b then 1 else 0
  }

  /** A byte read as a two's-complement number, as `mulsu` reads its first operand. */
  function Signed8(b: uint8): (s: int)
    ensures -0x80 <= s < 0x80
    ensures s % TWO_8 == b
    ensures s < 0 <==> b >= 0x80
  {
    if b < 0x80 then b else b - TWO_8
  }

  /** The register pair hi:lo as an unsigned 16-bit value (what `movw` moves). */
  function Word(lo: uint8, hi: uint8): uint16
  {
    lo + TWO_8 * hi
  }

  /** Four bytes a (least significant) .. d as an unsigned 32-bit value. */
  function Long(a: uint8, b: uint8, c: uint8, d: uint8): uint32
  {
    a + TWO_8 * b + TWO_16 * c + TWO_24 * d
  }

  /** The four-byte group is positional notation: its halves are register pairs. */
  lemma LongHalves(a: uint8, b: uint8, c: uint8, d: uint8)
    ensures Long(a, b, c, d) / TWO_16 == Word(c, d)
    ensures Long(a, b, c, d) % TWO_16 == Word(a, b)
  {
  }

  /** r1:r0 and the carry flag after a multiply instruction; the carry is bit 15 of the result. */
  datatype Product = Product(lo: uint8, hi: uint8, carry: bool)

  /** A byte result and the carry (or borrow) flag of an add or subtract instruction. */
  datatype Flagged = Flagged(value: uint8, carry: bool)

  /** Monotonicity of multiplication by a non-negative factor. */
  lemma MulLe(x: int, y: int, z: int)
    requires x <= y && 0 <= z
    ensures x * z <= y * z
  {
  }

  lemma ByteProductBound(x: uint8, y: uint8)
    ensures 0 <= x * y <= 0xFE01
  {
    MulLe(0, x, y);
    MulLe(x, 0xFF, y);
    MulLe(y, 0xFF, 0xFF);
  }

  /** `mul Rd, Rr`: unsigned 8 x 8 multiplication into r1:r0. */
  function Mul(d: uint8, r: uint8): (p: Product)
    ensures Word(p.lo, p.hi) == d * r
    ensures p.hi <= 0xFE
    ensures p.carry <==> p.hi >= 0x80
  {
    ByteProductBound(d, r);
    var w := d * r;
    Product(w % TWO_8, w / TWO_8, w >= 0x8000)
  }

  lemma SignedByteProductBound(d: uint8, r: uint8)
    ensures -0x7F80 <= Signed8(d) * r <= 0x7E81
  {
    var s := Signed8(d);
    if s >= 0 {
      ByteProductBound(s, r);
    } else {
      ByteProductBound(-s, r);
      assert s * r == -((-s) * r);
    }
  }

  /** Splitting a 16-bit two's-complement value into the bytes of a register pair. */
  lemma SignedWord(x: int, w: int)
    requires -0x8000 <= x < 0x8000 && w == x % TWO_16
    ensures 0 <= w < TWO_16
    ensures w - TWO_16 * Bit(w >= 0x8000) == x
  {
  }

  /** `mulsu Rd, Rr`: signed Rd times unsigned Rr into r1:r0 as a 16-bit
      two's-complement number; the carry flag is its bit 15. */
  function Mulsu(d: uint8, r: uint8): (p: Product)
    ensures Word(p.lo, p.hi) - TWO_16 * Bit(p.carry) == Signed8(d) * r
    ensures p.carry <==> p.hi >= 0x80
  {
    var x := Signed8(d) * r;
    SignedByteProductBound(d, r);
    var w := x % TWO_16;
    SignedWord(x, w);
    Product(w % TWO_8, w / TWO_8, w >= 0x8000)
  }

  /** `adc Rd, Rr` (and `add Rd, Rr` with the carry in clear): byte sum with carry in and out. */
  function Adc(d: uint8, r: uint8, carryIn: bool): (s: Flagged)
    ensures s.value + TWO_8 * Bit(s.carry) == d + r + Bit(carryIn)
  {
    var t := d + r + Bit(carryIn);
    Flagged(t % TWO_8, t >= TWO_8)
  }

  function Add(d: uint8, r: uint8): (s: Flagged)
    ensures s.value + TWO_8 * Bit(s.carry) == d + r
  {
    Adc(d, r, false)
  }

  /** `sbc Rd, Rr`: byte difference with borrow in and out. */
  function Sbc(d: uint8, r: uint8, borrowIn: bool): (s: Flagged)
    ensures s.value - TWO_8 * Bit(s.carry) == d - r - Bit(borrowIn)
  {
    var t := d - r - Bit(borrowIn);
    Flagged(t % TWO_8, t < 0)
  }

  /** Low and high byte of a 16-bit two's-complement value, as a register pair holds it. */
  function LowByte(x: int16): uint8
  {
    x % TWO_8
  }

  function HighByte(x: int16): (b: uint8)
    ensures Signed8(b) * TWO_8 + LowByte(x) == x
  {
    var h := (x / TWO_8) % TWO_8;
    assert -0x80 <= x / TWO_8 < 0x80;
    h
  }
}
