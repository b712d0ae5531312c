/** Properties of the fractional-divider arithmetic: the 4096/128 split of the
    fraction numerator, the register widths of the encoding, the two defects
    (P2 wrap-around when the 128ths round up, the integer division in the PLL
    decoding) with their corrections, and the R-divider search. */
module DividerProofs {
  import opened Si5351Types
  import opened Divider

  /* ---------------- the parts of a ratio ---------------- */

  /** b = 4096 * n + (b mod 4096) where n = floor(128 * frac(r)), and the rounded
      128ths q are n, or n + 1 exactly when the rounding goes up. */
  lemma FracSplit(r: real)
    ensures FracNum(r) / 4096 == (128.0 * Frac(r)).Floor
    ensures Steps128(r) == FracNum(r) / 4096 + (if RoundsUp(r) then 1 else 0)
  {
    var f := Frac(r);
    var n := (128.0 * f).Floor;
    var g := 128.0 * f - n as real;
    assert 0.0 <= g < 1.0;
    assert f * 524288.0 == 4096.0 * n as real + 4096.0 * g;
    var m := (4096.0 * g).Floor;
    assert 0 <= m < 4096;
    assert FracNum(r) == 4096 * n + m;
    assert Frac(128.0 * f) == g;
    assert 128.0 * f + 0.5 == n as real + (g + 0.5);
    if g >= 0.5 {
      assert Steps128(r) == n + 1;
    } else {
      assert Steps128(r) == n;
    }
  }

  /** The interval of ratios whose encoding fits the 18-bit P1 field; it holds
      both the PLL window [15, 90] and the Multisynth residuals [4, 1800]. */
  predicate InEncodableRange(r: real) {
    4.0 <= r < 2052.0
  }

  /* ---------------- the encoding, as written ---------------- */

  /** Integer mode (b = 0): P1 = 128a - 512, P2 = 0, P3 = 2^19, all within their fields. */
  lemma EncodeIntegerMode(ms: MS, r: real)
    requires InEncodableRange(r) && FracNum(r) == 0
    ensures Encode(ms, r).bInteger
    ensures Encode(ms, r).p1 == 128 * r.Floor - 512 && Encode(ms, r).p2 == 0
    ensures FitsRegisters(Encode(ms, r))
  {
  }

  /** Fractional mode with the 128ths rounding down: P1 = 128a + (b div 4096) - 512
      and P2 = 128 * (b mod 4096), both within their register fields. */
  lemma EncodeRoundDown(ms: MS, r: real)
    requires InEncodableRange(r) && FracNum(r) != 0 && !RoundsUp(r)
    ensures !Encode(ms, r).bInteger
    ensures Encode(ms, r).p1 == 128 * r.Floor + FracNum(r) / 4096 - 512
    ensures Encode(ms, r).p2 == 128 * (FracNum(r) % 4096)
    ensures FitsRegisters(Encode(ms, r))
  {
    FracSplit(r);
    var b := FracNum(r);
    assert b == 4096 * (b / 4096) + b % 4096;
    assert b * 128 - FRAC_SCALE * (b / 4096) == 128 * (b % 4096);
  }

  /** Fractional mode with the 128ths rounding up: 128b - 2^19 * q is negative,
      the `uint32_t` subtraction wraps, and P2 no longer fits 20 bits, so both
      decodings reject the encoding. */
  lemma EncodeRoundUpWraps(ms: MS, r: real)
    requires r >= 0.0 && RoundsUp(r)
    ensures FracNum(r) != 0 && !Encode(ms, r).bInteger
    ensures Encode(ms, r).p2 == 0x1_0000_0000 + 128 * (FracNum(r) % 4096) - FRAC_SCALE
    ensures Encode(ms, r).p2 >= 0x10_0000
    ensures DecodeRatioPLL(Encode(ms, r)) == None && DecodeRatioClk(Encode(ms, r)) == None
  {
    FracSplit(r);
    var b := FracNum(r);
    assert b == 4096 * (b / 4096) + b % 4096;
    assert b * 128 - FRAC_SCALE * (b / 4096 + 1) == 128 * (b % 4096) - FRAC_SCALE;
  }

  /* ---------------- decoding what was encoded ---------------- */

  /** Quantize(r) is r truncated to a multiple of 2^-19. */
  lemma QuantizeError(r: real)
    ensures r.Floor as real <= Quantize(r) <= r < Quantize(r) + 1.0 / 524288.0
  {
    var f := Frac(r);
    var b := FracNum(r);
    assert b as real <= f * 524288.0 < b as real + 1.0;
    assert b as real / 524288.0 <= f;
    assert f < (b as real + 1.0) / 524288.0;
  }

  /** The Multisynth decoding inverts the encoding up to the 2^-19 truncation
      whenever the 128ths round down: (double)P1/128 + 4 + (P2 >> 7)/2^19 = a + b/2^19. */
  lemma EncodeDecodeClk(ms: MS, r: real)
    requires InEncodableRange(r) && !RoundsUp(r)
    ensures DecodeRatioClk(Encode(ms, r)) == Some(Quantize(r))
  {
    var b := FracNum(r);
    var e := Encode(ms, r);
    if b == 0 {
      EncodeIntegerMode(ms, r);
      assert (e.p1 + 512) / 128 == r.Floor;
    } else {
      EncodeRoundDown(ms, r);
      var n := b / 4096;
      var m := b % 4096;
      assert b == 4096 * n + m;
      assert e.p2 / 128 == m;
      assert e.p1 as real / 128.0 + 4.0 == r.Floor as real + n as real / 128.0;
      assert n as real / 128.0 + m as real / 524288.0 == b as real / 524288.0;
    }
  }

  /** The PLL decoding reads `P1 / 128` as an integer division, which drops the
      n = b div 4096 128ths carried in P1: the decoded ratio falls short of the
      encoded one by n/128. */
  lemma DecodePLLDrops128ths(ms: MS, r: real)
    requires InEncodableRange(r) && !RoundsUp(r) && FracNum(r) != 0
    ensures DecodeRatioPLL(Encode(ms, r)) == Some(Quantize(r) - (FracNum(r) / 4096) as real / 128.0)
  {
    EncodeRoundDown(ms, r);
    var b := FracNum(r);
    var e := Encode(ms, r);
    var n := b / 4096;
    var m := b % 4096;
    assert b == 4096 * n + m;
    assert e.p1 / 128 + 4 == r.Floor;
    assert e.p2 as real / (128.0 * 524288.0) == m as real / 524288.0;
    assert n as real / 128.0 + m as real / 524288.0 == b as real / 524288.0;
  }

  /** With the corrected rounding every ratio of the encodable range fits the
      registers, and both decodings return a + b/2^19. */
  lemma EncodeIntendedRoundTrip(ms: MS, r: real)
    requires InEncodableRange(r)
    ensures FitsRegisters(EncodeIntended(ms, r))
    ensures DecodeRatioClk(EncodeIntended(ms, r)) == Some(Quantize(r))
    ensures DecodeRatioPLLIntended(EncodeIntended(ms, r)) == Some(Quantize(r))
  {
    var b := FracNum(r);
    var e := EncodeIntended(ms, r);
    if b != 0 {
      var n := b / 4096;
      var m := b % 4096;
      assert b == 4096 * n + m;
      assert b * 128 - FRAC_SCALE * n == 128 * m;
      assert e.p2 == 128 * m;
      assert e.p1 == 128 * r.Floor + n - 512;
      assert e.p2 / 128 == m;
      assert e.p1 as real / 128.0 + 4.0 == r.Floor as real + n as real / 128.0;
      assert e.p2 as real / (128.0 * 524288.0) == m as real / 524288.0;
      assert n as real / 128.0 + m as real / 524288.0 == b as real / 524288.0;
    }
  }

  /* ---------------- CalcMSPLL then DecalcMSPLL ---------------- */

  /** An integral feedback ratio round-trips: DecalcMSPLL of what CalcMSPLL
      made gives back the VCO frequency. */
  lemma PllIntegralRoundTrip(ms0: MS, out0: real, base: real, output: real)
    requires CalcMSPLL(ms0, base, output).valid && Frac(output / base) == 0.0
    ensures CalcMSPLL(ms0, base, output).value.bInteger
    ensures DecalcMSPLL(out0, base, CalcMSPLL(ms0, base, output).value) == Out(true, output)
  {
    var r := output / base;
    var e := CalcMSPLL(ms0, base, output).value;
    assert FracNum(r) == 0;
    EncodeIntegerMode(ms0.(bDivBy4 := false, tDiv := MS_DIV_BY1), r);
    assert (e.p1 + 512) / 128 == r.Floor;
    assert r.Floor as real == r;
    assert DecodeRatioPLL(e) == Some(r);
    assert base > 0.0 && 15.0 <= r <= 90.0;
    assert base * r == output;
    assert PllFromRatio(out0, base, Some(r)).valid;
    assert PllFromRatio(out0, base, Some(r)).value == base * r;
  }

  /** As written: when the 128ths round up, DecalcMSPLL rejects what CalcMSPLL
      accepted. */
  lemma PllRoundUpRejected(ms0: MS, out0: real, base: real, output: real)
    requires CalcMSPLL(ms0, base, output).valid && RoundsUp(output / base)
    ensures !FitsRegisters(CalcMSPLL(ms0, base, output).value)
    ensures DecalcMSPLL(out0, base, CalcMSPLL(ms0, base, output).value) == Out(false, out0)
  {
    EncodeRoundUpWraps(ms0.(bDivBy4 := false, tDiv := MS_DIV_BY1), output / base);
  }

  /** A concrete instance: a 25 MHz reference and a 387.59765625 MHz VCO
      (ratio 15 + 129/256) give P2 = 4294705152, far beyond 20 bits. */
  lemma PllRoundUpExample()
    ensures CalcMSPLL(MS(false, 0, 0, 0, 0, false), 25000000.0, 387597656.25).valid
    ensures CalcMSPLL(MS(false, 0, 0, 0, 0, false), 25000000.0, 387597656.25).value.p2 == 4294705152
    ensures !DecalcMSPLL(0.0, 25000000.0, CalcMSPLL(MS(false, 0, 0, 0, 0, false), 25000000.0, 387597656.25).value).valid
  {
    var r := 387597656.25 / 25000000.0;
    assert r == 15.50390625;
    assert r.Floor == 15;
    assert Frac(r) == 0.50390625;
    assert FracNum(r) == 264192;
    assert Steps128(r) == 65;
    assert Frac(128.0 * Frac(r)) == 0.5;
    PllRoundUpRejected(MS(false, 0, 0, 0, 0, false), 0.0, 25000000.0, 387597656.25);
  }

  /** As written: a 25 MHz reference and a 387.5 MHz VCO (ratio 15.5) encode
      exactly, yet DecalcMSPLL reads them back as 375 MHz. */
  lemma PllTruncationExample()
    ensures CalcMSPLL(MS(false, 0, 0, 0, 0, false), 25000000.0, 387500000.0)
            == Out(true, MS(false, 1472, 0, 524288, 0, false))
    ensures DecalcMSPLL(0.0, 25000000.0, MS(false, 1472, 0, 524288, 0, false)) == Out(true, 375000000.0)
  {
    var r := 387500000.0 / 25000000.0;
    assert r == 15.5;
    assert r.Floor == 15;
    assert Frac(r) == 0.5;
    assert FracNum(r) == 262144;
    assert Steps128(r) == 64;
    assert DecodeRatioPLL(MS(false, 1472, 0, 524288, 0, false)) == Some(15.0);
  }

  /** Corrected: CalcMSPLLIntended then DecalcMSPLLIntended returns the VCO
      frequency of the truncated ratio a + b/2^19 (QuantizedFrequency bounds
      its distance to the requested one). */
  lemma PllIntendedRoundTrip(ms0: MS, out0: real, base: real, output: real)
    requires CalcMSPLLIntended(ms0, base, output).valid
    ensures DecalcMSPLLIntended(out0, base, CalcMSPLLIntended(ms0, base, output).value).valid
    ensures DecalcMSPLLIntended(out0, base, CalcMSPLLIntended(ms0, base, output).value).value
            == Product(base, Quantize(output / base))
  {
    var ms1 := ms0.(bDivBy4 := false, tDiv := MS_DIV_BY1);
    assert CalcMSPLLIntended(ms0, base, output).value == EncodeIntended(ms1, output / base);
    PllIntendedDecodesEncoding(out0, base, ms1, output / base);
  }

  lemma PllIntendedDecodesEncoding(out0: real, base: real, ms: MS, r: real)
    requires base > 0.0 && 15.0 <= r <= 90.0
    ensures DecalcMSPLLIntended(out0, base, EncodeIntended(ms, r)).valid
    ensures DecalcMSPLLIntended(out0, base, EncodeIntended(ms, r)).value == Product(base, Quantize(r))
  {
    var q := Quantize(r);
    assert DecodeRatioPLLIntended(EncodeIntended(ms, r)) == Some(q) && 15.0 <= q <= 90.0 by {
      EncodeIntendedRoundTrip(ms, r);
      QuantizeError(r);
    }
  }

  /** The frequency of the truncated ratio lies within base/2^19 below the
      requested output frequency. */
  lemma QuantizedFrequency(base: real, output: real)
    requires base > 0.0
    ensures output - base / 524288.0 < Product(base, Quantize(output / base)) <= output
  {
    QuantizeError(output / base);
    ScaledGap(base, output, Quantize(output / base));
  }

  lemma ScaledGap(base: real, output: real, q: real)
    requires base > 0.0 && q <= output / base < q + 1.0 / 524288.0
    ensures output - base / 524288.0 < base * q <= output
  {
    GapBelow(base, output, q);
    GapAbove(base, output, q);
  }

  lemma GapBelow(base: real, output: real, q: real)
    requires base > 0.0 && q <= output / base
    ensures base * q <= output
  {
    var r := output / base;
    assert base * r == output;
    ScaleMonotone(base, q, r);
  }

  lemma GapAbove(base: real, output: real, q: real)
    requires base > 0.0 && output / base < q + 1.0 / 524288.0
    ensures output - base / 524288.0 < base * q
  {
    var r := output / base;
    var u := q + 1.0 / 524288.0;
    assert base * r == output;
    ScaleStrict(base, r, u);
    assert base * u == base * q + base / 524288.0;
  }

  /** Multiplying by a positive factor keeps the strict order. */
  lemma ScaleStrict(x: real, a: real, b: real)
    requires x > 0.0 && a < b
    ensures x * a < x * b
  {
    assert x * b - x * a == x * (b - a);
  }
}
