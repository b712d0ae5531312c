/** Properties of the output R-divider search of CalcMSClk and of the
    Multisynth encodings it produces. */
module SearchProofs {
  import opened Si5351Types
  import opened Divider
  import opened DividerProofs

  /** The exit test of the search read over exact reals: the candidate
      r/d is below 4, or its remainder is at least 1/256. The left operand
      `(uint32_t)dAfterTemp * 524288 << 7` is always 0, and r/d*d == r. */
  predicate Exits(r: real, d: real)
    requires d > 0.0
  {
    r / d < 4.0 || Frac(r / d) >= 1.0 / 256.0
  }

  lemma StopsAtMeaning(r: real, d: real)
    requires r >= 0.0 && d > 0.0
    ensures StopsAt(r, d) <==> Exits(r, d)
  {
    var t := r / d;
    var after := t - t.Floor as real;
    assert after == Frac(t);
    assert after.Floor == 0;
    assert Wrap32(Wrap32(after.Floor * FRAC_SCALE) * 128) == 0;
    var q := (128.0 * after + 0.5).Floor;
    assert 0 <= q <= 128;
    assert Wrap32(FRAC_SCALE * q) == FRAC_SCALE * q;
    assert q >= 1 <==> after >= 1.0 / 256.0;
    assert t * d == r;
  }

  /** SearchStops(r, k) says the loop leaves at index k. */
  lemma SearchStopsMeaning(r: real, k: nat)
    requires r >= 0.0
    ensures SearchStops(r, k) <==> Exits(r, Pow2(k + 1) as real)
  {
    StopsAtMeaning(r, Pow2(k + 1) as real);
  }

  /** The loop leaves at index k: Exits for the divisor 2^(k+1). */
  predicate ExitsAt(r: real, k: nat) {
    Exits(r, Pow2(k + 1) as real)
  }

  /** tDIV is the least index 0..6 at which the search exits, and saturates to
      7 (divide by 128) when it exits at none of them. */
  lemma RExponentIsLeastExit(r: real)
    requires r >= 0.0
    ensures forall i :: 0 <= i < RExponent(r) ==> !ExitsAt(r, i)
    ensures RExponent(r) < 7 ==> ExitsAt(r, RExponent(r))
  {
    forall i | 0 <= i < 8
      ensures SearchStops(r, i) <==> ExitsAt(r, i)
    {
      SearchStopsMeaning(r, i);
    }
  }

  /** The residual the Multisynth encodes is at least 4, at most the ratio, and
      multiplied by the R divider gives the ratio back. */
  lemma ResidualBounds(r: real)
    requires 6.0 <= r <= 1800.0
    ensures 4.0 <= Residual(r) <= r
    ensures Product(Residual(r), Pow2(RExponent(r)) as real) == r
  {
    var k := RExponent(r);
    var p := Pow2(k) as real;
    assert Residual(r) == r / p;
    DivideBack(r, p);
    QuotientBelow(r, p);
    if k > 0 {
      RExponentIsLeastExit(r);
      assert !ExitsAt(r, k - 1);
    }
  }

  lemma DivideBack(r: real, p: real)
    requires p >= 1.0
    ensures Product(r / p, p) == r
  {}

  lemma QuotientBelow(r: real, p: real)
    requires r >= 0.0 && p >= 1.0
    ensures r / p <= r
  {
    QuotientNonNegative(r, p);
    ScaleMonotone(r / p, 1.0, p);
  }

  /** n/p for an integer n and 1 <= p <= 256 is either integral or has a
      remainder of at least 1/p >= 1/256. */
  lemma SmallRemainderIsZero(n: int, p: nat)
    requires 1 <= p <= 256 && Frac(n as real / p as real) < 1.0 / 256.0
    ensures Frac(n as real / p as real) == 0.0
  {
    var q := n / p;
    var m := n % p;
    assert n == p * q + m;
    assert n as real / p as real == q as real + m as real / p as real;
    QuotientBelowOne(m, p);
    assert (n as real / p as real).Floor == q;
    assert Frac(n as real / p as real) == m as real / p as real;
    if m >= 1 {
      RemainderAtLeast(m, p);
    }
  }

  lemma RemainderAtLeast(m: int, p: nat)
    requires 1 <= m && 1 <= p <= 256
    ensures m as real / p as real >= 1.0 / 256.0
  {
    var x := m as real / p as real;
    assert x * p as real == m as real;
    ScaleMonotone(x, p as real, 256.0);
  }

  lemma QuotientBelowOne(m: int, p: nat)
    requires 0 <= m < p
    ensures 0.0 <= m as real / p as real < 1.0
  {
    var x := m as real / p as real;
    assert x * p as real == m as real;
    QuotientNonNegative(m as real, p as real);
    ScaleOneBelow(x, p as real);
  }

  /** x * p < p with p > 0 puts x below 1. */
  lemma ScaleOneBelow(x: real, p: real)
    requires p > 0.0 && x >= 0.0 && x * p < p
    ensures x < 1.0
  {
    if x >= 1.0 {
      ScaleMonotone(p, 1.0, x);
    }
  }

  /** An integral ratio leaves an integral residual: the search only divides
      by 2 while the remainder stays below 1/256, which for a divisor of at
      most 128 means no remainder at all. */
  lemma ResidualIntegral(r: real)
    requires 6.0 <= r <= 1800.0 && Frac(r) == 0.0
    ensures Frac(Residual(r)) == 0.0
  {
    var k := RExponent(r);
    if k > 0 {
      RExponentIsLeastExit(r);
      assert !ExitsAt(r, k - 1);
      MsDivIsThreeBitExponent(k);
      assert r == r.Floor as real;
      SmallRemainderIsZero(r.Floor, Pow2(k));
    }
  }

  /* ---------------- CalcMSClk then DecalcMSClk ---------------- */

  /** The Multisynth record CalcMSClk leaves for the ratio r (its ensures). */
  function ClkEncoding(ms0: MS, r: real): MS
    requires r >= 0.0
  {
    Encode(ms0.(bDivBy4 := false, tDiv := RExponent(r)), Residual(r))
  }

  /** The output frequency of the ratio r once its residual is truncated to
      steps of 2^-19: base / (Quantize(res) * 2^tDIV). */
  function TruncatedOutput(base: real, r: real): real
    requires 6.0 <= r <= 1800.0
  {
    var q := Quantize(Residual(r));
    assert 6.0 <= Product(q, Pow2(RExponent(r)) as real) by {
      ResidualBounds(r);
      QuantizeError(Residual(r));
      WindowAfterTruncation(r, Residual(r), q, RExponent(r));
    }
    base / Product(q, Pow2(RExponent(r)) as real)
  }

  /** When the 128ths of the residual round down, DecalcMSClk of what
      CalcMSClk made returns the frequency of the truncated residual times the
      R divider. */
  lemma ClkRoundTrip(ms0: MS, out0: real, base: real, output: real)
    requires base > 0.0 && output > 0.0 && 6.0 <= base / output <= 1800.0
    requires !RoundsUp(Residual(base / output))
    ensures DecalcMSClk(out0, base, ClkEncoding(ms0, base / output)).valid
    ensures DecalcMSClk(out0, base, ClkEncoding(ms0, base / output)).value == TruncatedOutput(base, base / output)
  {
    ClkDecodesEncoding(out0, base, ms0, base / output);
  }

  /** The frequency the clock round trip returns lies within the truncation of
      the residual: at least the requested output, and below output / (1 - 2^-21),
      since a residual of at least 4 loses less than 2^-19 to the truncation. */
  lemma ClkQuantizedFrequency(base: real, output: real)
    requires base > 0.0 && output > 0.0 && 6.0 <= base / output <= 1800.0
    ensures output <= TruncatedOutput(base, base / output)
    ensures TruncatedOutput(base, base / output) < output / (1.0 - 1.0 / 2097152.0)
  {
    var r := base / output;
    var res := Residual(r);
    var q := Quantize(res);
    ResidualBounds(r);
    QuantizeError(res);
    WindowAfterTruncation(r, res, q, RExponent(r));
    assert TruncatedOutput(base, r) == base / Product(q, Pow2(RExponent(r)) as real);
    TruncationWindow(base, output, res, Pow2(RExponent(r)) as real, q);
  }

  /** The arithmetic of ClkQuantizedFrequency: base / (q * p) against
      output = base / (res * p) when q <= res < q + 2^-19 and res >= 4. */
  lemma TruncationWindow(base: real, output: real, res: real, p: real, q: real)
    requires base > 0.0 && output > 0.0 && p >= 1.0 && 4.0 <= res
    requires Product(res, p) == base / output && q <= res < q + 1.0 / 524288.0
    requires Product(q, p) >= 6.0
    ensures output <= base / Product(q, p) < output / (1.0 - 1.0 / 2097152.0)
  {
    var r := base / output;
    var t := Product(q, p);
    ProductMonotone(q, res, p);
    DivAntitone(base, t, r);
    DivideTwice(base, output);
    var c := 1.0 - 1.0 / 2097152.0;
    assert res * c < q;
    ScaleStrict(p, res * c, q);
    assert r * c < t by {
      assert Product(res, p) * c == p * (res * c);
    }
    DivStrictAntitone(base, r * c, t);
    DivideScaled(base, output, c);
  }

  /** Division of a positive number is antitone in the divisor. */
  lemma DivAntitone(x: real, a: real, b: real)
    requires x > 0.0 && 0.0 < a <= b
    ensures x / b <= x / a
  {
    var u := x / a;
    var v := x / b;
    assert u * a == x && v * b == x;
    if v > u {
      ScaleStrict(a, u, v);
      ScaleMonotone(v, a, b);
      assert false;
    }
  }

  lemma DivStrictAntitone(x: real, a: real, b: real)
    requires x > 0.0 && 0.0 < a < b
    ensures x / b < x / a
  {
    var u := x / a;
    var v := x / b;
    assert u * a == x && v * b == x;
    assert v > 0.0;
    if v >= u {
      ScaleMonotone(a, u, v);
      ScaleStrict(v, a, b);
      assert false;
    }
  }

  lemma DivideScaled(base: real, output: real, c: real)
    requires base > 0.0 && output > 0.0 && c > 0.0
    ensures base / (base / output * c) == output / c
  {
    var d := base / output * c;
    var y := output / c;
    assert base / output * output == base;
    assert y * c == output;
    assert y * d == base by {
      assert y * d == (y * c) * (base / output);
    }
  }

  lemma ClkDecodesEncoding(out0: real, base: real, ms0: MS, r: real)
    requires base > 0.0 && 6.0 <= r <= 1800.0 && !RoundsUp(Residual(r))
    ensures DecalcMSClk(out0, base, ClkEncoding(ms0, r)).valid
    ensures DecalcMSClk(out0, base, ClkEncoding(ms0, r)).value == TruncatedOutput(base, r)
  {
    var res := Residual(r);
    var k := RExponent(r);
    var e := ClkEncoding(ms0, r);
    var q := Quantize(res);
    assert DecodeRatioClk(e) == Some(q) && RScale(e) == Pow2(k) by {
      ResidualBounds(r);
      EncodeDecodeClk(ms0.(bDivBy4 := false, tDiv := k), res);
    }
    assert 6.0 <= Product(q, Pow2(k) as real) <= 1800.0 by {
      ResidualBounds(r);
      QuantizeError(res);
      WindowAfterTruncation(r, res, q, k);
    }
  }

  /** Truncating the residual keeps the total division within [6, 1800]. */
  lemma WindowAfterTruncation(r: real, res: real, q: real, k: MsDiv)
    requires 6.0 <= r <= 1800.0 && Product(res, Pow2(k) as real) == r
    requires 4.0 <= res && res.Floor as real <= q <= res
    ensures 6.0 <= Product(q, Pow2(k) as real) <= 1800.0
  {
    var p := Pow2(k) as real;
    ProductMonotone(q, res, p);
    if k == 0 {
      assert p == 1.0;
      assert res == r;
      assert r.Floor >= 6;
    } else {
      assert p >= 2.0;
      assert q >= 4.0;
      ScaleMonotone(q, 2.0, p);
    }
  }

  lemma ProductMonotone(a: real, b: real, y: real)
    requires y >= 0.0 && a <= b
    ensures Product(a, y) <= Product(b, y)
  {
    assert b * y - a * y == (b - a) * y;
  }

  /** An integral total division round-trips exactly: DecalcMSClk of what
      CalcMSClk made returns the requested output frequency. */
  lemma ClkIntegralRoundTrip(ms0: MS, out0: real, base: real, output: real)
    requires base > 0.0 && output > 0.0 && 6.0 <= base / output <= 1800.0
    requires Frac(base / output) == 0.0
    ensures ClkEncoding(ms0, base / output).bInteger
    ensures DecalcMSClk(out0, base, ClkEncoding(ms0, base / output)).valid
    ensures DecalcMSClk(out0, base, ClkEncoding(ms0, base / output)).value == output
  {
    var r := base / output;
    ClkIntegralDecodes(out0, base, ms0, r);
    DivideTwice(base, output);
  }

  lemma ClkIntegralDecodes(out0: real, base: real, ms0: MS, r: real)
    requires base > 0.0 && 6.0 <= r <= 1800.0 && Frac(r) == 0.0
    ensures ClkEncoding(ms0, r).bInteger
    ensures DecalcMSClk(out0, base, ClkEncoding(ms0, r)).valid
    ensures DecalcMSClk(out0, base, ClkEncoding(ms0, r)).value == base / r
  {
    var res := Residual(r);
    assert Frac(res) == 0.0 && Product(res, Pow2(RExponent(r)) as real) == r by {
      ResidualIntegral(r);
      ResidualBounds(r);
    }
    assert !RoundsUp(res) && Quantize(res) == res;
    ClkDecodesEncoding(out0, base, ms0, r);
  }

  lemma DivideTwice(base: real, output: real)
    requires base > 0.0 && output > 0.0
    ensures base / (base / output) == output
  {}

  /** As written: when the 128ths of the residual round up, DecalcMSClk
      rejects what CalcMSClk accepted. */
  lemma ClkRoundUpRejected(ms0: MS, out0: real, base: real, output: real)
    requires base > 0.0 && output > 0.0 && 6.0 <= base / output <= 1800.0
    requires RoundsUp(Residual(base / output))
    ensures !FitsRegisters(ClkEncoding(ms0, base / output))
    ensures !DecalcMSClk(out0, base, ClkEncoding(ms0, base / output)).valid
    ensures DecalcMSClk(out0, base, ClkEncoding(ms0, base / output)).value == out0
  {
    var r := base / output;
    EncodeRoundUpWraps(ms0.(bDivBy4 := false, tDiv := RExponent(r)), Residual(r));
  }

  /** A ratio of 8 leaves the search at index 1 (8/4 = 2 is below 4): R = 2
      and a Multisynth ratio of 4. */
  lemma SearchExampleEight()
    ensures RExponent(8.0) == 1 && Residual(8.0) == 4.0
  {
    StopsAtMeaning(8.0, 2.0);
    StopsAtMeaning(8.0, 4.0);
    assert !StopsAt(8.0, 2.0);
    assert StopsAt(8.0, 4.0);
  }

  /** A ratio of 1024 halves all the way: R = 128 and a Multisynth ratio of 8. */
  lemma SearchExampleSaturates()
    ensures RExponent(1024.0) == 7 && Residual(1024.0) == 8.0
  {
    StopsAtMeaning(1024.0, 2.0);
    StopsAtMeaning(1024.0, 4.0);
    StopsAtMeaning(1024.0, 8.0);
    StopsAtMeaning(1024.0, 16.0);
    StopsAtMeaning(1024.0, 32.0);
    StopsAtMeaning(1024.0, 64.0);
    StopsAtMeaning(1024.0, 128.0);
    StopsAtMeaning(1024.0, 256.0);
    assert Pow2(7) == 128;
  }
}
