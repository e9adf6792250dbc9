/** The volume shaper of the wave generator: `volexp`, which scales a signed
    wavetable sample by a quasi-exponential function of the 8-bit volume and
    re-centres it on the converter's mid-scale, and `mul_16_8`, an unsigned
    16 x 8 multiply.  Each routine is an inline-assembly sequence; the methods
    below execute it instruction by instruction on byte registers and are
    proved equal to a plain arithmetic definition, about which the range,
    silence and monotonicity properties are then proved. */
module VolumeShaper {
  import opened Avr

  /** The correction constant `cor`: the converter offset 0x0800 pre-shifted
      into the high half, plus half an output LSB (0x8000) for rounding. */
  const COR: uint32 := 0x0800_8000
  /** The converter mid-scale of the older shaping code, which `volexp` does not use. */
  const MCP_DAC_BASE: uint32 := 2047
  /** What `volexp` outputs for a zero sample or a zero volume. */
  const SILENCE: uint16 := 0x0800

  /** Nominal range of a wavetable sample (12 significant bits). */
  predicate NominalSample(samp: int)
  {
    -2048 <= samp <= 2047
  }

  /** The gain curve x -> x^2 + 2x as a mathematical integer. */
  function Gain(vol: uint8): int
  {
    vol * vol + 2 * vol
  }

  lemma {:induction false} GainFits(vol: uint8)
    ensures 0 <= Gain(vol) <= 0xFFFF
    ensures Gain(vol) == 0xFFFF <==> vol == 0xFF
  {
    ByteProductBound(vol, vol);
    if vol < 0xFF {
      assert vol * vol <= 0xFE * vol <= 0xFE * 0xFE;
    }
  }

  lemma {:induction false} GainStrictlyIncreasing(v1: uint8, v2: uint8)
    requires v1 < v2
    ensures Gain(v1) < Gain(v2)
  {
    assert v1 * v1 <= v1 * v2 < v2 * v2;
  }

  /** What `volexp` computes: sample times gain plus `cor`, kept to 32 bits
      (two's complement), high half taken. */
  function VolExp(samp: int16, vol: uint8): uint16
  {
    ((samp * Gain(vol) + COR) % TWO_32) / TWO_16
  }

  lemma {:induction false} ProductOfSplits(sh: int, sl: int, gh: int, gl: int)
    ensures (TWO_8 * sh + sl) * (TWO_8 * gh + gl)
         == TWO_16 * (sh * gh) + TWO_8 * (sh * gl) + TWO_8 * (sl * gh) + sl * gl
  {
  }

  lemma ModOfShift(u: int, acc: int, k: int)
    requires u == acc + TWO_32 * k
    requires 0 <= u < TWO_32
    ensures u == acc % TWO_32
  {
  }

  /** `add`, `adc`, `adc` with the zero register: a 16-bit value added at byte 1 of a 32-bit register. */
  lemma ChainAt8(a: uint8, b: uint8, c: uint8, d: uint8, lo: uint8, hi: uint8, s1: Flagged, s2: Flagged, s3: Flagged)
    requires s1 == Add(b, lo) && s2 == Adc(c, hi, s1.carry) && s3 == Adc(d, 0, s2.carry)
    ensures Long(a, s1.value, s2.value, s3.value)
         == Long(a, b, c, d) + TWO_8 * Word(lo, hi) - TWO_32 * Bit(s3.carry)
  {
  }

  /** `mul`, `add`, `adc`, `add`, `adc`: the square of the volume plus the volume twice. */
  lemma GainInRegisters(vol: uint8, p: Product, s1: Flagged, s2: Flagged, s3: Flagged, s4: Flagged)
    requires p == Mul(vol, vol)
    requires s1 == Add(p.lo, vol) && s2 == Adc(p.hi, 0, s1.carry)
    requires s3 == Add(s1.value, vol) && s4 == Adc(s2.value, 0, s3.carry)
    ensures Word(s3.value, s4.value) == Gain(vol)
  {
    GainFits(vol);
  }

  /** The two products moved with `movw`: sample high byte times gain high
      byte (signed) into bytes 2..3, the low bytes' product into bytes 0..1. */
  lemma OuterPartials(sh: uint8, sl: uint8, gh: uint8, gl: uint8, p1: Product, p2: Product)
    requires p1 == Mulsu(sh, gh) && p2 == Mul(sl, gl)
    ensures Long(p2.lo, p2.hi, p1.lo, p1.hi)
         == TWO_16 * (Signed8(sh) * gh) + sl * gl + TWO_32 * Bit(p1.carry)
  {
  }

  /** `mulsu`, `sbc`, `add`, `adc`, `adc`: a signed product added at byte 1,
      sign-extended into byte 3 by subtracting its bit 15 there. */
  lemma SignedPartialAt8(a: uint8, b: uint8, c: uint8, d: uint8, x: uint8, y: uint8,
                         p: Product, s0: Flagged, s1: Flagged, s2: Flagged, s3: Flagged)
    requires p == Mulsu(x, y) && s0 == Sbc(d, 0, p.carry)
    requires s1 == Add(b, p.lo) && s2 == Adc(c, p.hi, s1.carry) && s3 == Adc(s0.value, 0, s2.carry)
    ensures Long(a, s1.value, s2.value, s3.value)
         == Long(a, b, c, d) + TWO_8 * (Signed8(x) * y) + TWO_32 * (Bit(s0.carry) - Bit(s3.carry))
  {
    ChainAt8(a, b, c, s0.value, p.lo, p.hi, s1, s2, s3);
  }

  /** `mul`, `add`, `adc`, `adc`: an unsigned product added at byte 1. */
  lemma UnsignedPartialAt8(a: uint8, b: uint8, c: uint8, d: uint8, x: uint8, y: uint8,
                           p: Product, s1: Flagged, s2: Flagged, s3: Flagged)
    requires p == Mul(x, y)
    requires s1 == Add(b, p.lo) && s2 == Adc(c, p.hi, s1.carry) && s3 == Adc(d, 0, s2.carry)
    ensures Long(a, s1.value, s2.value, s3.value)
         == Long(a, b, c, d) + TWO_8 * (x * y) - TWO_32 * Bit(s3.carry)
  {
    ChainAt8(a, b, c, d, p.lo, p.hi, s1, s2, s3);
  }

  /** `add`, `adc`, `adc` of the three upper bytes of `cor` (its lowest byte is zero). */
  lemma CorrectionAdded(a: uint8, b: uint8, c: uint8, d: uint8, s1: Flagged, s2: Flagged, s3: Flagged)
    requires s1 == Add(b, 0x80) && s2 == Adc(c, 0x00, s1.carry) && s3 == Adc(d, 0x08, s2.carry)
    ensures Long(a, s1.value, s2.value, s3.value) == Long(a, b, c, d) + COR - TWO_32 * Bit(s3.carry)
  {
  }

  /** The four partial products and `cor`, gathered modulo 2^32, give the
      scaled sample whose high half `volexp` returns. */
  lemma Gathered(samp: int16, vol: uint8, sh: uint8, sl: uint8, gh: uint8, gl: uint8,
                 a: uint8, b: uint8, c: uint8, d: uint8, k: int)
    requires samp == TWO_8 * Signed8(sh) + sl && Gain(vol) == TWO_8 * gh + gl
    requires Long(a, b, c, d) == TWO_16 * (Signed8(sh) * gh) + TWO_8 * (Signed8(sh) * gl)
                               + TWO_8 * (sl * gh) + sl * gl + COR + TWO_32 * k
    ensures Long(a, b, c, d) == (samp * Gain(vol) + COR) % TWO_32
    ensures VolExp(samp, vol) == Word(c, d)
  {
    ProductOfSplits(Signed8(sh), sl, gh, gl);
    ModOfShift(Long(a, b, c, d), samp * Gain(vol) + COR, k);
    LongHalves(a, b, c, d);
  }

  /** `volexp` (the inline assembly), instruction by instruction.  The gain
      is left in `res`; the four partial products of sample bytes and gain
      bytes are accumulated into `tmp` (bytes tmpA..tmpD, tmpA least
      significant), the signed one at byte 1 sign-extended by the `sbc`;
      r2 is the zero register the assembly clears for itself. */
  method VolExpAsm(samp: int16, vol: uint8) returns (res: uint16)
    ensures res == VolExp(samp, vol)
  {
    var sampLo, sampHi := LowByte(samp), HighByte(samp);   // %A3, %B3
    var r2: uint8 := 0;                                     // clr r2
    var p := Mul(vol, vol);                                 // mul %2, %2
    var s1 := Add(p.lo, vol);                               // add r0, %2
    var s2 := Adc(p.hi, r2, s1.carry);                      // adc r1, r2
    var s3 := Add(s1.value, vol);                           // add r0, %2
    var s4 := Adc(s2.value, r2, s3.carry);                  // adc r1, r2
    GainInRegisters(vol, p, s1, s2, s3, s4);
    var resLo, resHi := s3.value, s4.value;                 // movw %0, r0

    var p1 := Mulsu(sampHi, resHi);                         // mulsu %B3, %B0
    var tmpC, tmpD := p1.lo, p1.hi;                         // movw %C1, r0
    p := Mul(sampLo, resLo);                                // mul %A3, %A0
    var tmpA, tmpB := p.lo, p.hi;                           // movw %A1, r0
    OuterPartials(sampHi, sampLo, resHi, resLo, p1, p);
    ghost var k := Bit(p1.carry);

    p := Mulsu(sampHi, resLo);                              // mulsu %B3, %A0
    var s0 := Sbc(tmpD, r2, p.carry);                       // sbc %D1, r2
    s1 := Add(tmpB, p.lo);                                  // add %B1, r0
    s2 := Adc(tmpC, p.hi, s1.carry);                        // adc %C1, r1
    s3 := Adc(s0.value, r2, s2.carry);                      // adc %D1, r2
    SignedPartialAt8(tmpA, tmpB, tmpC, tmpD, sampHi, resLo, p, s0, s1, s2, s3);
    tmpB, tmpC, tmpD := s1.value, s2.value, s3.value;
    k := k + Bit(s0.carry) - Bit(s3.carry);

    p := Mul(sampLo, resHi);                                // mul %A3, %B0
    s1 := Add(tmpB, p.lo);                                  // add %B1, r0
    s2 := Adc(tmpC, p.hi, s1.carry);                        // adc %C1, r1
    s3 := Adc(tmpD, r2, s2.carry);                          // adc %D1, r2
    UnsignedPartialAt8(tmpA, tmpB, tmpC, tmpD, sampLo, resHi, p, s1, s2, s3);
    tmpB, tmpC, tmpD := s1.value, s2.value, s3.value;
    k := k - Bit(s3.carry);

    s1 := Add(tmpB, 0x80);                                  // add %B1, %B4
    s2 := Adc(tmpC, 0x00, s1.carry);                        // adc %C1, %C4
    s3 := Adc(tmpD, 0x08, s2.carry);                        // adc %D1, %D4
    CorrectionAdded(tmpA, tmpB, tmpC, tmpD, s1, s2, s3);
    tmpB, tmpC, tmpD := s1.value, s2.value, s3.value;
    k := k - Bit(s3.carry);

    Gathered(samp, vol, sampHi, sampLo, resHi, resLo, tmpA, tmpB, tmpC, tmpD, k);
    res := Word(tmpC, tmpD);                                // movw %0, %C1
  }

  /** `mul_16_8` (the inline assembly), instruction by instruction: the two
      partial products of the bytes of `a` with `b`, the second added at
      byte 1; the top byte is cleared and never written again. */
  method Mul16x8(a: uint16, b: uint8) returns (product: uint32)
    ensures product == a * b
    ensures product < TWO_24
  {
    var aLo: uint8, aHi: uint8 := a % TWO_8, a / TWO_8;     // %A1, %B1
    var p := Mul(aLo, b);                                   // mul %A1, %2
    var pA, pB := p.lo, p.hi;                               // movw %A0, r0
    var pC: uint8 := 0;                                     // clr %C0
    var pD: uint8 := 0;                                     // clr %D0
    p := Mul(aHi, b);                                       // mul %B1, %2
    var s := Add(pB, p.lo);                                 // add %B0, r0
    pB := s.value;
    s := Adc(pC, p.hi, s.carry);                            // adc %C0, r1
    pC := s.value;
    assert !s.carry;
    assert a * b == aLo * b + TWO_8 * (aHi * b);
    product := Long(pA, pB, pC, pD);
  }

  // ---------------------------------------------------------------------
  // Properties of the shaper

  lemma {:induction false} ScaledBound(samp: int, vol: uint8)
    requires NominalSample(samp)
    ensures -2048 * 0xFFFF <= samp * Gain(vol) <= 2047 * 0xFFFF
  {
    GainFits(vol);
    var g := Gain(vol);
    MulLe(samp, 2047, g);
    MulLe(-2048, samp, g);
    MulLe(g, 0xFFFF, 2047);
    MulLe(g, 0xFFFF, 2048);
  }

  /** For nominal samples the 32-bit sum never wraps, whatever the volume. */
  lemma {:induction false} VolExpNoWrap(samp: int16, vol: uint8)
    requires NominalSample(samp)
    ensures 0 < samp * Gain(vol) + COR < TWO_32
    ensures VolExp(samp, vol) == (samp * Gain(vol) + COR) / TWO_16
  {
    ScaledBound(samp, vol);
  }

  /** For nominal samples the output is a 12-bit converter code. */
  lemma {:induction false} VolExpRange(samp: int16, vol: uint8)
    requires NominalSample(samp)
    ensures 0 <= VolExp(samp, vol) <= 4095
  {
    ScaledBound(samp, vol);
    VolExpNoWrap(samp, vol);
  }

  /** For nominal samples the output is mid-scale 2048 plus sample * gain / 2^16
      rounded half up. */
  lemma {:induction false} VolExpRounds(samp: int16, vol: uint8)
    requires NominalSample(samp)
    ensures VolExp(samp, vol) == SILENCE + (samp * Gain(vol) + 0x8000) / TWO_16
  {
    VolExpNoWrap(samp, vol);
    var x := samp * Gain(vol) + 0x8000;
    assert samp * Gain(vol) + COR == x + SILENCE * TWO_16;
  }

  /** A zero sample or a zero volume gives 0x0800 -- one count above the
      unused MCP_DAC_BASE. */
  lemma VolExpSilence(samp: int16, vol: uint8)
    ensures VolExp(0, vol) == SILENCE
    ensures VolExp(samp, 0) == SILENCE
    ensures SILENCE == MCP_DAC_BASE + 1
  {
  }

  lemma {:induction false} VolExpMonotoneInSample(s1: int16, s2: int16, vol: uint8)
    requires NominalSample(s1) && NominalSample(s2) && s1 <= s2
    ensures VolExp(s1, vol) <= VolExp(s2, vol)
  {
    VolExpNoWrap(s1, vol);
    VolExpNoWrap(s2, vol);
    GainFits(vol);
    MulLe(s1, s2, Gain(vol));
  }

  /** Louder volume moves a positive sample up and a negative one down. */
  lemma {:induction false} VolExpMonotoneInVolume(samp: int16, v1: uint8, v2: uint8)
    requires NominalSample(samp) && v1 <= v2
    ensures samp >= 0 ==> VolExp(samp, v1) <= VolExp(samp, v2)
    ensures samp <= 0 ==> VolExp(samp, v1) >= VolExp(samp, v2)
  {
    VolExpNoWrap(samp, v1);
    VolExpNoWrap(samp, v2);
    var g1, g2 := Gain(v1), Gain(v2);
    if v1 < v2 { GainStrictlyIncreasing(v1, v2); }
    if samp >= 0 {
      MulLe(g1, g2, samp);
      assert samp * g1 <= samp * g2;
      DivLe(samp * g1 + COR, samp * g2 + COR);
    } else {
      MulLe(g1, g2, -samp);
      assert samp * g1 >= samp * g2;
      DivLe(samp * g2 + COR, samp * g1 + COR);
    }
  }

  lemma DivLe(x: int, y: int)
    requires x <= y
    ensures x / TWO_16 <= y / TWO_16
  {
  }

  /** Outside the nominal range nothing saturates: the most negative sample
      at full volume wraps around to a code far above mid-scale. */
  lemma VolExpWrapsBelowNominal()
    ensures -32768 * Gain(255) + COR < 0
    ensures VolExp(-32768, 255) == 34817
    ensures VolExp(-32768, 255) > VolExp(0, 255)
  {
  }
}
