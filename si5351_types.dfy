/** The type layer of the Si5351 driver: the build configuration checks, the
    clock numbers, the field enumerations and the two parameter records
    (Multisynth divider and spread-spectrum parameters). */
module Si5351Types {

  /* ---------------- fixed-width unsigned integers ---------------- */

  /** `uint32_t`, `uint16_t` and `uint8_t` as ranges of the mathematical integers. */
  type u32 = x: int | 0 <= x < 0x1_0000_0000
  type u16 = x: int | 0 <= x < 0x1_0000
  type u8 = x: int | 0 <= x < 0x100

  /** Arithmetic on `uint32_t` wraps modulo 2^32. */
  function Wrap32(x: int): (r: u32)
    ensures 0 <= x < 0x1_0000_0000 ==> r == x
    ensures x < 0 && -0x1_0000_0000 <= x ==> r == x + 0x1_0000_0000
  {
    x % 0x1_0000_0000
  }

  /** `1 << k` for the small shift counts the driver uses. */
  function Pow2(k: nat): (p: nat)
    ensures p >= 1
  {
    if k == 0 then 1 else 2 * Pow2(k - 1)
  }

  /* ---------------- build configuration ---------------- */

  /** The preprocessor configuration: SI5351_TYPE (0: Si5351A, 1: Si5351B with
      VCXO, 2: Si5351C with CLKIN), SI5351_CLKNUM, SI5351_XTAL_FREQ and, for
      type 2, SI5351_CLKIN_FREQ. */
  datatype Config = Config(chipType: int, clkNum: int, xtalFreq: int, clkinFreq: int)

  /** The `#if ... #error` checks: a build exists only for a configuration
      that satisfies this predicate. */
  predicate ValidConfig(c: Config) {
    && (c.chipType == 0 || c.chipType == 1 || c.chipType == 2)
    && (if c.chipType == 0 then c.clkNum == 3 || c.clkNum == 8 else c.clkNum == 8)
    && (c.xtalFreq == 25000000 || c.xtalFreq == 27000000)
    && (c.chipType == 2 ==> 10000000 <= c.clkinFreq <= 100000000)
  }

  /** The configuration the header ships with. */
  const DefaultConfig := Config(0, 3, 25000000, 25000000)

  lemma DefaultConfigIsValid()
    ensures ValidConfig(DefaultConfig)
  {}

  /** The configuration checks accept exactly these shapes of build. */
  lemma ValidConfigShapes(c: Config)
    requires ValidConfig(c)
    ensures c.clkNum == 3 || c.clkNum == 8
    ensures c.clkNum == 3 ==> c.chipType == 0
    ensures c.chipType == 2 ==> c.clkinFreq >= 10000000
  {}

  /** `Si5351_CLKNo_t`: CLK0 .. CLK2 when SI5351_CLKNUM <= 3, CLK0 .. CLK7 otherwise. */
  function ClkCount(c: Config): (n: int)
    ensures n == 3 || n == 8
  {
    if c.clkNum <= 3 then 3 else 8
  }

  predicate IsClkNo(c: Config, n: int) {
    0 <= n < ClkCount(c)
  }

  /** In every valid build the enumeration has exactly SI5351_CLKNUM members. */
  lemma ClkNoEnumeratesClkNum(c: Config, n: int)
    requires ValidConfig(c)
    ensures IsClkNo(c, n) <==> 0 <= n < c.clkNum
  {}

  /** Outputs with an initial phase offset register: CLK0-2 or CLK0-5. */
  function PhaseOffsetCount(c: Config): int {
    if c.clkNum <= 3 then 3 else 6
  }

  /* ---------------- field enumerations ---------------- */

  /** A one-bit field (PLL_SRC, MSx_SRC, SSC_MODE). */
  type Bit = x: int | 0 <= x < 2
  /** A two-bit field (CLKIN_DIV, CLKx_SRC, CLKx_IDRV, CLKx_DIS_STATE, XTAL_CL). */
  type TwoBit = x: int | 0 <= x < 4

  /** `Si5351_PLL_SRC_t`: CLKIN exists only on the Si5351C. */
  const PLL_SRC_XTAL: Bit := 0
  const PLL_SRC_CLKIN: Bit := 1
  predicate IsPllSrc(c: Config, v: int) {
    v == PLL_SRC_XTAL || (c.chipType == 2 && v == PLL_SRC_CLKIN)
  }

  /** `Si5351_CLK_SRC_t`: XTAL = 0, CLKIN = 1 (Si5351C only), ALTMS = 2, MS = 3. */
  const CLK_SRC_XTAL: TwoBit := 0
  const CLK_SRC_CLKIN: TwoBit := 1
  const CLK_SRC_ALTMS: TwoBit := 2
  const CLK_SRC_MS: TwoBit := 3
  predicate IsClkSrc(c: Config, v: int) {
    v == CLK_SRC_XTAL || v == CLK_SRC_ALTMS || v == CLK_SRC_MS || (c.chipType == 2 && v == CLK_SRC_CLKIN)
  }

  /** `Si5351_CLK_IDRV_t`: 2, 4, 6, 8 mA as 0 .. 3. */
  const CLK_IDRV_2MA: TwoBit := 0
  const CLK_IDRV_8MA: TwoBit := 3

  /** `Si5351_CLK_DIS_STATE_t`: LOW, HIGH, HIGH_IMP, NEVER as 0 .. 3. */
  const CLK_DIS_STATE_LOW: TwoBit := 0
  const CLK_DIS_STATE_HIGH: TwoBit := 1
  const CLK_DIS_STATE_HIGH_IMP: TwoBit := 2
  const CLK_DIS_STATE_NEVER: TwoBit := 3

  /** `Si5351_XTALLoadCap_t`: 6, 8, 10 pF as 1 .. 3; the field value 0 is reserved. */
  const XTALLOADCAP_6PF: TwoBit := 1
  const XTALLOADCAP_10PF: TwoBit := 3
  predicate IsXtalLoadCap(v: int) {
    XTALLOADCAP_6PF <= v <= XTALLOADCAP_10PF
  }

  /** `Si5351_SSP_Mode_t`. */
  const SSP_MODE_DOWN: Bit := 0
  const SSP_MODE_CENTER: Bit := 1

  /** `Si5351_MS_DIV_t`: the exponent k of the output R divider 2^k, BY1 .. BY128. */
  type MsDiv = k: int | 0 <= k < 8
  const MS_DIV_BY1: MsDiv := 0
  const MS_DIV_BY128: MsDiv := 7

  /** Every `Si5351_MS_DIV_t` value selects a divider 1 .. 128 and fits the 3-bit R field. */
  lemma MsDivIsThreeBitExponent(k: MsDiv)
    ensures k < 8 && 1 <= Pow2(k) <= 128
  {
    Pow2Add(k, 7 - k);
    assert Pow2(7) == 128;
  }

  lemma {:induction false} Pow2Add(a: nat, b: nat)
    ensures Pow2(a + b) == Pow2(a) * Pow2(b)
  {
    if a > 0 { Pow2Add(a - 1, b); }
  }

  /* ---------------- parameter records ---------------- */

  /** `Si5351_MS_t`: integer-mode flag, the three divider parameters (18, 20 and
      20-bit fields on the chip, held in `uint32_t`), the R divider exponent and
      the divide-by-4 flag. */
  datatype MS = MS(bInteger: bool, p1: u32, p2: u32, p3: u32, tDiv: MsDiv, bDivBy4: bool)

  /** The field widths the chip registers hold. */
  predicate FitsRegisters(ms: MS) {
    ms.p1 < 0x40000 && ms.p2 < 0x10_0000 && ms.p3 < 0x10_0000
  }

  /** `Si5351_SSP_t`: the mode and seven 16-bit parameters. */
  datatype SSP = SSP(mode: Bit, dnP1: u16, dnP2: u16, dnP3: u16, udp: u16, upP1: u16, upP2: u16, upP3: u16)

  /** The spread-spectrum register fields: 12-bit P1 and SSUDP, 15-bit P2 and P3. */
  predicate SspFitsRegisters(s: SSP) {
    && s.dnP1 < 0x1000 && s.dnP2 < 0x8000 && s.dnP3 < 0x8000 && s.udp < 0x1000
    && s.upP1 < 0x1000 && s.upP2 < 0x8000 && s.upP3 < 0x8000
  }

  /** `Si5351_Status_t`; the three loss-of-lock/loss-of-signal flags exist only
      in Si5351C builds. */
  datatype Status = Status(sysInit: bool, lolB: bool, lolA: bool, los: bool)

  /** The result of a driver call: the `bool` it returns and the value left in
      the object its out-parameter designates. */
  datatype Out<T> = Out(valid: bool, value: T)

  datatype Option<T> = None | Some(value: T)
}
