/** Properties of the spread-spectrum and VCXO parameter computations. */
module SpreadProofs {
  import opened Si5351Types
  import opened Divider

  /** The PFD guard of CalcSSP. */
  predicate PfdInRange(pfd: real) {
    pfd >= 0.0 && pfd / 140400.0 < 65536.0
  }

  /** The amplitude window of the selected mode. */
  predicate AmplitudeInRange(mode: Bit, amp: real) {
    if mode == SSP_MODE_DOWN then -0.025 <= amp <= -0.001 else -0.015 <= amp <= 0.015
  }

  /** A rejected amplitude still leaves the mode and SSUDP written: a false
      return does not mean an untouched parameter record. */
  lemma CalcSSPPartialWrite(ssp0: SSP, mode: nat, pfd: real, amp: real, legs: SpreadLegs)
    requires PfdInRange(pfd) && !AmplitudeInRange(mode % 2, amp)
    ensures !CalcSSP(ssp0, mode, pfd, amp, legs).valid
    ensures CalcSSP(ssp0, mode, pfd, amp, legs).value == ssp0.(mode := mode % 2, udp := UpDownPeriod(pfd))
  {}

  /** On success every field is written: the mode, SSUDP, the down leg from
      the computed values with P3 = 32767, and the up leg either (0, 0, 1) in
      down mode or the computed values with P3 = 32767 in center mode. */
  lemma CalcSSPWritesEveryField(ssp0: SSP, mode: nat, pfd: real, amp: real, legs: SpreadLegs)
    requires CalcSSP(ssp0, mode, pfd, amp, legs).valid
    ensures var s := CalcSSP(ssp0, mode, pfd, amp, legs).value;
            s == (if mode % 2 == SSP_MODE_DOWN
                  then SSP(SSP_MODE_DOWN, legs.dnP1, legs.dnP2, 32767, UpDownPeriod(pfd), 0, 0, 1)
                  else SSP(SSP_MODE_CENTER, legs.dnP1, legs.dnP2, 32767, UpDownPeriod(pfd), legs.upP1, legs.upP2, 32767))
  {}

  /** The PFD guard admits SSUDP values beyond the 12-bit register field: a
      702 MHz PFD gives SSUDP = 5000 and CalcSSP still reports success. */
  lemma UpDownPeriodExceedsField()
    ensures CalcSSP(SSP(0, 0, 0, 0, 0, 0, 0, 0), 0, 702000000.0, -0.01, SpreadLegs(0, 0, 0, 0)).valid
    ensures CalcSSP(SSP(0, 0, 0, 0, 0, 0, 0, 0), 0, 702000000.0, -0.01, SpreadLegs(0, 0, 0, 0)).value.udp == 5000
    ensures !SspFitsRegisters(CalcSSP(SSP(0, 0, 0, 0, 0, 0, 0, 0), 0, 702000000.0, -0.01, SpreadLegs(0, 0, 0, 0)).value)
  {
    assert 702000000.0 / 140400.0 == 5000.0;
    assert UpDownPeriod(702000000.0) == 5000;
  }

  /** VCXO_Param grows with the pull range. */
  lemma CalcVCXOMonotone(v0: u32, ratio: real, apr1: u8, apr2: u8)
    requires 0.0 <= ratio && apr1 <= apr2 && VcxoProduct(ratio, apr2) < 4294967296.0
    ensures 0.0 <= VcxoProduct(ratio, apr1) <= VcxoProduct(ratio, apr2)
    ensures CalcVCXO(v0, ratio, apr1).value <= CalcVCXO(v0, ratio, apr2).value
  {
    ProductOrdered(1.03 * (128.0 * ratio), apr1 as real, apr2 as real);
  }

  /** Once 1.03 * 128 * ratio is at least 1, each step of the pull range adds
      at least 1 to the product, so VCXO_Param strictly grows with it. */
  lemma CalcVCXOStrict(v0: u32, ratio: real, apr1: u8, apr2: u8)
    requires 1.03 * (128.0 * ratio) >= 1.0 && apr1 < apr2 && VcxoProduct(ratio, apr2) < 4294967296.0
    ensures 0.0 <= VcxoProduct(ratio, apr1) < VcxoProduct(ratio, apr2)
    ensures CalcVCXO(v0, ratio, apr1).value < CalcVCXO(v0, ratio, apr2).value
  {
    var x := 1.03 * (128.0 * ratio);
    ProductOrdered(x, apr1 as real, apr2 as real);
    assert VcxoProduct(ratio, apr1) + 1.0 <= VcxoProduct(ratio, apr2) by {
      assert Product(x, apr2 as real) - Product(x, apr1 as real) == x * (apr2 - apr1) as real;
      ScaleMonotone(x, 1.0, (apr2 - apr1) as real);
    }
  }

  lemma ProductOrdered(x: real, a: real, b: real)
    requires 0.0 <= x && 0.0 <= a <= b
    ensures 0.0 <= Product(x, a) <= Product(x, b)
  {
    ScaleMonotone(x, a, b);
    ScaleMonotone(x, 0.0, a);
  }
}
