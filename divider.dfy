/** The fractional-divider arithmetic of the Si5351 driver (the double build):
    turning a frequency ratio into the (P1, P2, P3, integer-flag) parameters of
    a PLL feedback or output Multisynth, the search for the output R divider,
    the inverse computations, and the spread-spectrum and VCXO parameters.

    Doubles are read as exact reals: `(uint32_t)x` on a non-negative x is
    `x.Floor`, and `uint32_t` arithmetic wraps modulo 2^32 (Wrap32). */
module Divider {
  import opened Si5351Types

  /** P3, the fixed denominator c = 2^19 of every encoding the driver makes. */
  const FRAC_SCALE: int := 524288

  /* ---------------- the parts of a ratio ---------------- */

  /** `dAfter = dRatio - (uint32_t)dRatio` */
  function Frac(r: real): (f: real)
    ensures 0.0 <= f < 1.0
  {
    r - r.Floor as real
  }

  /** b = `(uint32_t)(dAfter * 524288)`, the numerator over 2^19. */
  function FracNum(r: real): (b: int)
    ensures 0 <= b < FRAC_SCALE
  {
    (Frac(r) * 524288.0).Floor
  }

  /** q = `(uint32_t)((128 * dAfter) + 0.5)`: 128 times the remainder, rounded half up. */
  function Steps128(r: real): (q: int)
    ensures 0 <= q <= 128
  {
    (128.0 * Frac(r) + 0.5).Floor
  }

  /** Whether that rounding goes up: the part of 128 * dAfter below one unit is at least 1/2. */
  predicate RoundsUp(r: real) {
    Frac(128.0 * Frac(r)) >= 0.5
  }

  /** a + b/2^19, the ratio the encoding stands for. */
  function Quantize(r: real): real {
    r.Floor as real + FracNum(r) as real / 524288.0
  }

  /* ---------------- encoding ---------------- */

  /** The shared encoding of CalcMSPLL and CalcMSClk (si5351.c:1411-1424 and
      1491-1504): writes bInteger, P1, P2 and P3 of `ms`, keeps tDIV and bDivBy4. */
  function Encode(ms: MS, r: real): (e: MS)
    requires r >= 0.0
    ensures e.tDiv == ms.tDiv && e.bDivBy4 == ms.bDivBy4 && e.p3 == FRAC_SCALE
    ensures e.bInteger <==> Frac(r) < 1.0 / 524288.0
    ensures e.bInteger ==> e.p2 == 0
  {
    var a := r.Floor;
    var b := FracNum(r);
    if b == 0 then
      ms.(bInteger := true, p1 := Wrap32(a * 128 - 512), p2 := 0, p3 := FRAC_SCALE)
    else
      var q := Steps128(r);
      ms.(bInteger := false, p1 := Wrap32(a * 128 + q - 512), p2 := Wrap32(b * 128 - FRAC_SCALE * q), p3 := FRAC_SCALE)
  }

  /** `Si5351_CalcMSPLL` (si5351.c:1398-1429): the feedback ratio is output/base. */
  function CalcMSPLL(ms0: MS, base: real, output: real): (r: Out<MS>)
    ensures r.valid <==> base > 0.0 && output > 0.0 && 15.0 <= output / base <= 90.0
    ensures !r.valid ==> r.value == ms0
    ensures r.valid ==> !r.value.bDivBy4 && r.value.tDiv == MS_DIV_BY1 && r.value.p3 == FRAC_SCALE
    ensures r.valid ==> (r.value.bInteger <==> Frac(output / base) < 1.0 / 524288.0)
  {
    if base > 0.0 && output > 0.0 && 15.0 <= output / base <= 90.0 then
      Out(true, Encode(ms0.(bDivBy4 := false, tDiv := MS_DIV_BY1), output / base))
    else
      Out(false, ms0)
  }

  /* ---------------- decoding ---------------- */

  /** The field checks both Decalc functions make first (si5351.c:1436-1441, 1516-1521). */
  predicate FieldsInRange(ms: MS) {
    ms.p1 < 0x40000 && ms.p2 < 0x10_0000 && ms.p3 < 0x10_0000 && ms.p3 > 0
  }

  /** The Multisynth ratio as DecalcMSPLL reads it (si5351.c:1436-1452):
      `P1 / 128` is an integer division. */
  function DecodeRatioPLL(ms: MS): (r: Option<real>)
    ensures r.Some? <==> FieldsInRange(ms) && (ms.bInteger ==> ms.p2 == 0)
    ensures r.Some? && ms.bInteger ==> r.value == ((ms.p1 + 512) / 128) as real
  {
    if !FieldsInRange(ms) then None
    else if ms.bInteger then
      if ms.p2 == 0 then Some(((ms.p1 + 512) / 128) as real) else None
    else
      Some((ms.p1 / 128 + 4) as real + ms.p2 as real / (128.0 * 524288.0))
  }

  /** The Multisynth ratio as DecalcMSClk reads it (si5351.c:1516-1532), before
      the R divider: `(double)P1 / 128 + 4 + (P2 >> 7) / 524288`. */
  function DecodeRatioClk(ms: MS): (r: Option<real>)
    ensures r.Some? <==> FieldsInRange(ms) && (ms.bInteger ==> ms.p2 == 0)
    ensures r.Some? && !ms.bInteger ==> 4.0 <= r.value < 2053.0
  {
    if !FieldsInRange(ms) then None
    else if ms.bInteger then
      if ms.p2 == 0 then Some(((ms.p1 + 512) / 128) as real) else None
    else
      Some(ms.p1 as real / 128.0 + 4.0 + (ms.p2 / 128) as real / 524288.0)
  }

  /** `Si5351_DecalcMSPLL` (si5351.c:1431-1463): VCO frequency = base * ratio. */
  function DecalcMSPLL(out0: real, base: real, ms: MS): (r: Out<real>)
    ensures r.valid <==> base > 0.0 && DecodeRatioPLL(ms).Some? && 15.0 <= DecodeRatioPLL(ms).value <= 90.0
    ensures !r.valid ==> r.value == out0
    ensures r.valid ==> base * 15.0 <= r.value <= base * 90.0
  {
    PllFromRatio(out0, base, DecodeRatioPLL(ms))
  }

  /** x * y as a named term: statements about a decoded frequency then match
      by equality of the arguments alone. */
  function Product(x: real, y: real): real {
    x * y
  }

  /** The second half of DecalcMSPLL (si5351.c:1454-1460): the window check on
      the decoded ratio and the product with the base clock. */
  function PllFromRatio(out0: real, base: real, ratio: Option<real>): (r: Out<real>)
    ensures r.valid <==> base > 0.0 && ratio.Some? && 15.0 <= ratio.value <= 90.0
    ensures !r.valid ==> r.value == out0
    ensures r.valid ==> base * 15.0 <= r.value <= base * 90.0
  {
    if base > 0.0 && ratio.Some? && 15.0 <= ratio.value <= 90.0 then
      ScaleMonotone(base, 15.0, ratio.value);
      ScaleMonotone(base, ratio.value, 90.0);
      Out(true, Product(base, ratio.value))
    else Out(false, out0)
  }

  /** The total output division 2^(tDIV + (bDivBy4 ? 2 : 0)) applied after the Multisynth. */
  function RScale(ms: MS): (s: nat)
    ensures s >= 1
  {
    Pow2(ms.tDiv + (if ms.bDivBy4 then 2 else 0))
  }

  /** `Si5351_DecalcMSClk` (si5351.c:1511-1544): output frequency = base / (ratio * R). */
  function DecalcMSClk(out0: real, base: real, ms: MS): (r: Out<real>)
    ensures r.valid <==> base > 0.0 && DecodeRatioClk(ms).Some?
                         && 6.0 <= Product(DecodeRatioClk(ms).value, RScale(ms) as real) <= 1800.0
    ensures !r.valid ==> r.value == out0
    ensures r.valid ==> base / 1800.0 <= r.value <= base / 6.0
  {
    ClkFromRatio(out0, base, DecodeRatioClk(ms), RScale(ms))
  }

  /** The second half of DecalcMSClk (si5351.c:1534-1540): the R divider
      applied to the decoded ratio, the window check and the quotient. */
  function ClkFromRatio(out0: real, base: real, ratio: Option<real>, scale: nat): (r: Out<real>)
    ensures r.valid <==> base > 0.0 && ratio.Some? && 6.0 <= Product(ratio.value, scale as real) <= 1800.0
    ensures !r.valid ==> r.value == out0
    ensures r.valid ==> base / 1800.0 <= r.value <= base / 6.0
  {
    if base > 0.0 && ratio.Some? && 6.0 <= Product(ratio.value, scale as real) <= 1800.0 then
      var total := Product(ratio.value, scale as real);
      DivideWithinWindow(base, total);
      Out(true, base / total)
    else Out(false, out0)
  }

  lemma DivideWithinWindow(base: real, total: real)
    requires base > 0.0 && 6.0 <= total <= 1800.0
    ensures base / 1800.0 <= base / total <= base / 6.0
  {
    var x := base / total;
    assert x * total == base;
    ScaleMonotone(x, 6.0, total);
    ScaleMonotone(x, total, 1800.0);
  }

  lemma ProductNonNegative(x: real, y: real)
    requires y >= 0.0
    ensures x >= 0.0 ==> Product(x, y) >= 0.0
  {
    if x >= 0.0 {
      ScaleMonotone(x, 0.0, y);
    }
  }

  lemma QuotientBelowFour(r: real, d: real)
    requires d > 0.0
    ensures r < 4.0 * d ==> r / d < 4.0
  {
    if r / d >= 4.0 {
      assert r / d * d == r;
      ScaleMonotone(d, 4.0, r / d);
    }
  }

  lemma QuotientNonNegative(x: real, d: real)
    requires x >= 0.0 && d > 0.0
    ensures x / d >= 0.0
  {
    assert x / d * d == x;
  }

  /** Multiplying by a non-negative factor keeps the order. */
  lemma ScaleMonotone(x: real, a: real, b: real)
    requires x >= 0.0 && a <= b
    ensures x * a <= x * b
  {
    assert x * b - x * a == x * (b - a);
  }

  /* ---------------- the output R-divider search ---------------- */

  /** The exit test of the search loop at index k (si5351.c:1479-1483), with
      bDivBy4 already cleared: the candidate ratio/2^(k+1) is below 4, or its
      remainder survives the 1/128 rounding, or it does not multiply back. */
  predicate SearchStops(r: real, k: nat)
    ensures r < 4.0 * Pow2(k + 1) as real ==> SearchStops(r, k)
  {
    QuotientBelowFour(r, Pow2(k + 1) as real);
    StopsAt(r, Pow2(k + 1) as real)
  }

  /** The same test for the divisor d = `1 << (u32a + 1 + ...)`, with
      t = dRatioTemp and `after` = dAfterTemp. */
  predicate StopsAt(r: real, d: real)
    requires d > 0.0
    ensures r / d < 4.0 ==> StopsAt(r, d)
  {
    var t := r / d;
    var after := t - t.Floor as real;
    || t < 4.0
    || Wrap32(Wrap32(after.Floor * FRAC_SCALE) * 128) < Wrap32(FRAC_SCALE * (128.0 * after + 0.5).Floor)
    || r != t * d
  }

  /** The index at which the loop started at k leaves: the first stopping index, or 8. */
  function SearchFrom(r: real, k: nat): (j: nat)
    requires k <= 8
    ensures k <= j <= 8
    ensures j < 8 ==> SearchStops(r, j)
    ensures forall i :: k <= i < j ==> !SearchStops(r, i)
    decreases 8 - k
  {
    if k == 8 then 8
    else if SearchStops(r, k) then k
    else SearchFrom(r, k + 1)
  }

  /** tDIV as CalcMSClk chooses it (si5351.c:1485-1489): the loop index, saturated to BY128. */
  function RExponent(r: real): (e: MsDiv)
    ensures e < 7 ==> SearchStops(r, e)
    ensures forall i :: 0 <= i < e ==> !SearchStops(r, i)
  {
    var j := SearchFrom(r, 0);
    if j == 8 then MS_DIV_BY128 else j
  }

  /** The ratio left for the Multisynth once the R divider 2^tDIV is taken out (si5351.c:1490). */
  function Residual(r: real): (res: real)
    requires r >= 0.0
    ensures res >= 0.0
  {
    var scale := Pow2(RExponent(r)) as real;
    QuotientNonNegative(r, scale);
    r / scale
  }

  /** `Si5351_CalcMSClk` (si5351.c:1465-1509): the output ratio is base/output;
      the loop looks for the R divider, the rest is encoded as by CalcMSPLL. */
  method CalcMSClk(ms0: MS, base: real, output: real) returns (valid: bool, ms: MS)
    ensures valid <==> base > 0.0 && output > 0.0 && 6.0 <= base / output <= 1800.0
    ensures !valid ==> ms == ms0
    ensures valid ==> ms == Encode(ms0.(bDivBy4 := false, tDiv := RExponent(base / output)), Residual(base / output))
  {
    valid := false;
    ms := ms0;
    if base > 0.0 && output > 0.0 {
      var ratio := base / output;
      if 6.0 <= ratio <= 1800.0 {
        valid := true;
        ms := ms.(bDivBy4 := false, tDiv := MS_DIV_BY1);
        var k: nat := 0;
        while k < 8
          invariant k <= 8
          invariant ms == ms0.(bDivBy4 := false, tDiv := MS_DIV_BY1)
          invariant SearchFrom(ratio, k) == SearchFrom(ratio, 0)
        {
          var d := Pow2(k + 1 + (if ms.bDivBy4 then 2 else 0)) as real;
          if StopsAt(ratio, d) {
            break;
          }
          assert !SearchStops(ratio, k);
          k := k + 1;
        }
        ms := ms.(tDiv := if k == 8 then MS_DIV_BY128 else k);
        var scale := Pow2(ms.tDiv + (if ms.bDivBy4 then 2 else 0)) as real;
        QuotientNonNegative(ratio, scale);
        ratio := ratio / scale;
        ms := Encode(ms, ratio);
      }
    }
  }

  /* ---------------- corrected encoding and PLL decoding ---------------- */

  /** The encoding with the 128ths rounded down, q = floor(128 * b / 2^19), as the
      parameter formulas of the header (si5351.h:235-237) define P1 and P2; the
      driver rounds half up instead (si5351.c:1421-1422). */
  function EncodeIntended(ms: MS, r: real): (e: MS)
    requires r >= 0.0
    ensures e.tDiv == ms.tDiv && e.bDivBy4 == ms.bDivBy4 && e.p3 == FRAC_SCALE
    ensures e.bInteger <==> FracNum(r) == 0
  {
    var a := r.Floor;
    var b := FracNum(r);
    if b == 0 then
      ms.(bInteger := true, p1 := Wrap32(a * 128 - 512), p2 := 0, p3 := FRAC_SCALE)
    else
      var q := b / 4096;
      ms.(bInteger := false, p1 := Wrap32(a * 128 + q - 512), p2 := Wrap32(b * 128 - FRAC_SCALE * q), p3 := FRAC_SCALE)
  }

  /** CalcMSPLL over the corrected encoding. */
  function CalcMSPLLIntended(ms0: MS, base: real, output: real): (r: Out<MS>)
    ensures r.valid <==> base > 0.0 && output > 0.0 && 15.0 <= output / base <= 90.0
    ensures !r.valid ==> r.value == ms0
    ensures r.valid ==> !r.value.bDivBy4 && r.value.tDiv == MS_DIV_BY1 && r.value.p3 == FRAC_SCALE
  {
    if base > 0.0 && output > 0.0 && 15.0 <= output / base <= 90.0 then
      Out(true, EncodeIntended(ms0.(bDivBy4 := false, tDiv := MS_DIV_BY1), output / base))
    else
      Out(false, ms0)
  }

  /** The PLL ratio read with a real division `P1 / 128.0`, as DecalcMSClk
      already reads it (si5351.c:1529). */
  function DecodeRatioPLLIntended(ms: MS): (r: Option<real>)
    ensures r.Some? <==> FieldsInRange(ms) && (ms.bInteger ==> ms.p2 == 0)
    ensures r.Some? && ms.bInteger ==> r.value == ((ms.p1 + 512) / 128) as real
  {
    if !FieldsInRange(ms) then None
    else if ms.bInteger then
      if ms.p2 == 0 then Some(((ms.p1 + 512) / 128) as real) else None
    else
      Some(ms.p1 as real / 128.0 + 4.0 + ms.p2 as real / (128.0 * 524288.0))
  }

  /** DecalcMSPLL over the corrected decoding. */
  function DecalcMSPLLIntended(out0: real, base: real, ms: MS): (r: Out<real>)
    ensures r.valid <==> base > 0.0 && DecodeRatioPLLIntended(ms).Some? && 15.0 <= DecodeRatioPLLIntended(ms).value <= 90.0
    ensures !r.valid ==> r.value == out0
    ensures r.valid ==> base * 15.0 <= r.value <= base * 90.0
  {
    PllFromRatio(out0, base, DecodeRatioPLLIntended(ms))
  }

  /* ---------------- spread spectrum and VCXO ---------------- */

  /** The four 16-bit values CalcSSP derives from floating-point intermediates
      (SSDN_P1, SSDN_P2 and, in center mode, SSUP_P1, SSUP_P2). They are inputs
      of this model, not computed by it. */
  datatype SpreadLegs = SpreadLegs(dnP1: u16, dnP2: u16, upP1: u16, upP2: u16)

  /** SSUDP = `(uint16_t)(dFreq_PFD / (4 * 35100) + 0.5)`: PFD / 140400 rounded
      half up. For PFD / 140400 in [65535.5, 65536) the guard of CalcSSP passes
      but the rounded value is 65536, whose conversion to uint16_t is undefined
      in C; the model takes it modulo 2^16 there. */
  function UpDownPeriod(pfd: real): (p: u16)
    requires pfd >= 0.0
    ensures pfd / 140400.0 + 0.5 < 65536.0 ==> p as real <= pfd / 140400.0 + 0.5 < p as real + 1.0
  {
    (pfd / 140400.0 + 0.5).Floor % 0x1_0000
  }

  /** `Si5351_CalcSSP` (si5351.c:1546-1586). The mode and SSUDP are stored before
      the amplitude is checked. */
  function CalcSSP(ssp0: SSP, mode: nat, pfd: real, amp: real, legs: SpreadLegs): (r: Out<SSP>)
    ensures r.valid <==> && pfd >= 0.0 && pfd / 140400.0 < 65536.0
                         && (if mode % 2 == SSP_MODE_DOWN then -0.025 <= amp <= -0.001 else -0.015 <= amp <= 0.015)
    ensures pfd >= 0.0 && pfd / 140400.0 < 65536.0 ==> r.value.mode == mode % 2 && r.value.udp == UpDownPeriod(pfd)
    ensures !(pfd >= 0.0 && pfd / 140400.0 < 65536.0) ==> r.value == ssp0
    ensures r.valid ==> r.value.dnP3 == 32767
    ensures r.valid && mode % 2 == SSP_MODE_DOWN ==> r.value.upP1 == 0 && r.value.upP2 == 0 && r.value.upP3 == 1
    ensures r.valid && mode % 2 == SSP_MODE_CENTER ==> r.value.upP3 == 32767
  {
    if pfd >= 0.0 && pfd / 140400.0 < 65536.0 then
      var s := ssp0.(mode := mode % 2, udp := UpDownPeriod(pfd));
      if s.mode == SSP_MODE_DOWN then
        if -0.025 <= amp <= -0.001 then
          Out(true, s.(dnP1 := legs.dnP1, dnP2 := legs.dnP2, dnP3 := 32767, upP1 := 0, upP2 := 0, upP3 := 1))
        else Out(false, s)
      else
        if -0.015 <= amp <= 0.015 then
          Out(true, s.(dnP1 := legs.dnP1, dnP2 := legs.dnP2, dnP3 := 32767, upP1 := legs.upP1, upP2 := legs.upP2, upP3 := 32767))
        else Out(false, s)
    else Out(false, ssp0)
  }

  /** `1.03 * (128 * dRatio) * u8APR`, the product VCXO_Param truncates. */
  function VcxoProduct(ratio: real, apr: u8): (x: real)
    ensures ratio >= 0.0 ==> x >= 0.0
  {
    ProductNonNegative(1.03 * (128.0 * ratio), apr as real);
    Product(1.03 * (128.0 * ratio), apr as real)
  }

  /** `Si5351_CalcVCXO` (si5351.c:1589-1598): VCXO_Param = (uint32_t)(1.03 * 128 * ratio * APR). */
  function CalcVCXO(v0: u32, ratio: real, apr: u8): (r: Out<u32>)
    requires 0.0 <= VcxoProduct(ratio, apr) < 4294967296.0
    ensures r.valid
    ensures r.value as real <= VcxoProduct(ratio, apr) < r.value as real + 1.0
  {
    Out(true, VcxoProduct(ratio, apr).Floor)
  }
}
