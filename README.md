# Si5351 clock generator driver, modelled in Dafny

This project models the C driver for the Silicon Labs Si5351 family of
clock generators: Si5351A, Si5351B with VCXO, and Si5351C with CLKIN. It
proves properties of that model. It covers three parts of the driver:

- **The build configuration and the types** of `si5351.h`, in
  `si5351_types.dfy`. The `#error` checks become the predicate
  `ValidConfig`. The clock-number enumeration depends on `SI5351_CLKNUM`.
  The field enumerations, the Multisynth record `Si5351_MS_t` and the
  spread-spectrum record `Si5351_SSP_t` are datatypes and subset types.
- **The divider arithmetic** of the double build, in `divider.dfy`, with
  the proofs in `divider_lemmas.dfy`, `search_lemmas.dfy` and
  `ssp_lemmas.dfy`.
  - `CalcMSPLL` encodes a ratio as the P1/P2/P3 parameters of a PLL
    feedback Multisynth, and `DecalcMSPLL` decodes them.
  - `CalcMSClk` searches for the output R divider and encodes an output
    Multisynth. It keeps the source's `for` loop, as a method with loop
    invariants. `DecalcMSClk` decodes an output Multisynth.
  - The guards and fixed legs of `CalcSSP` are modelled, and so is
    `CalcVCXO`.
  - Doubles are read as exact reals. `(uint32_t)x` is `Floor`, and
    `uint32_t` arithmetic wraps modulo 2^32 (`Wrap32`).
- **The register helpers** (`Si5351_Get*`, `Si5351_Set*`, `InitDevice`,
  `PLLSoftReset`), in two layers.
  - `register_map.dfy` holds the register file as a value (`RegFile`, 256
    bytes). Every register format is a pure function: bitfield read and
    read-modify-write, the 8-byte Multisynth blocks, the 13-byte
    spread-spectrum block, the VCXO parameter, status and output-enable
    bytes. The round trips and frames are proved there.
  - `device.dfy` holds the driver handle: the class `Device.Si5351`. Its
    registers live in an `array<bv8>`. Every helper is a method that calls
    `Read` and `Write` on that array, in the order the source does.
  - A getter returns the driver's `bool` together with the value left in
    its out-parameter. That value is the previous content when the call
    fails.
  - A setter's `ensures` ties the new register image to the RegisterMap
    function of the old image. So the RegisterMap lemmas hold for a live
    device.
  - The `tRead`/`tWrite` callbacks are present or absent through the two
    flags `hasRead` and `hasWrite`. Each method checks the same flags, in
    the same combination, as the C function it models, except SetSSP (see
    "## Left out").

The model and the code differ in three setters, all reported under
"## Findings". `SetMS`, `SetSSP` and `SetClkDisableState` act on registers
differently from what the register map and the getters require.
`RegisterMap` models each one twice: as written, with a lemma and a
concrete input that show the discrepancy, and corrected, with the round
trip proved. The device methods use the corrected versions.

For the PLL encoding, the header's own parameter formulas
(`si5351.h:235-237`) round `128 * b / c` down. The code rounds it half up
(`si5351.c:1421`). On this point the model follows the code, and
`EncodeIntended` models the header's formula.

## Model

| member | source | states |
|---|---|---|
| Si5351Types.Wrap32 | si5351.c:1416 | `uint32_t` subtraction: a value in range is kept and one negative value wraps by 2^32 |
| Si5351Types.Pow2 | si5351.c:1490 | `1 << k` is at least 1, so the R divider never divides by zero |
| Bytes.ByteOf | si5351.c:811-819 | `(x >> k) & 0xFF` as a register byte is the value modulo 256 |
| Si5351Types.ValidConfig | si5351.h:44-83 | the configuration checks: type 0, 1 or 2; 3 or 8 outputs only for type 0, otherwise 8; a 25 or 27 MHz crystal; CLKIN at 10-100 MHz on type 2 |
| Si5351Types.DefaultConfigIsValid | si5351.h:44-83 | the shipped configuration passes the checks |
| Si5351Types.ValidConfigShapes | si5351.h:53-65 | every accepted build has 3 or 8 outputs, and only a Si5351A has 3 |
| Si5351Types.ClkCount | si5351.h:85-98 | the clock enumeration has 3 or 8 members |
| Si5351Types.ClkNoEnumeratesClkNum | si5351.h:85-98 | in every accepted build a clock number is valid exactly when it is below SI5351_CLKNUM |
| Si5351Types.MsDivIsThreeBitExponent | si5351.h:242-251 | every MS_DIV value selects a divider from 1 to 128 and fits the 3-bit R field |
| Si5351Types.Pow2Add | si5351.c:1490 | 2^(a+b) = 2^a * 2^b, so the R divider and the divide-by-4 multiply |
| Divider.Frac | si5351.c:1411 | dAfter lies in [0, 1) |
| Divider.FracNum | si5351.c:1413 | u32b is below 2^19 |
| Divider.Steps128 | si5351.c:1421 | the rounded 128ths lie in 0..128 |
| Divider.Encode | si5351.c:1411-1424 | tDIV and bDivBy4 are kept, P3 = 2^19, integer mode holds exactly when the fraction is below 2^-19, and integer mode has P2 = 0 |
| Divider.CalcMSPLL | si5351.c:1398-1429 | success exactly when both frequencies are positive and the ratio is within [15, 90]; on failure the record is untouched; on success tDIV = BY1, no divide-by-4, P3 = 2^19 |
| Divider.DecodeRatioPLL | si5351.c:1436-1452 | a ratio exactly when the fields fit and integer mode has P2 = 0; in integer mode the ratio is (P1 + 512) >> 7 |
| Divider.DecodeRatioClk | si5351.c:1516-1532 | a ratio under the same conditions; in fractional mode it lies in [4, 2053) |
| Divider.DecalcMSPLL | si5351.c:1431-1463 | success exactly when the base is positive, the record decodes and the ratio is in [15, 90]; then the VCO frequency is within [15, 90] times the base; otherwise the output is untouched |
| Divider.PllFromRatio | si5351.c:1453-1459 | the window check and the product, with the output untouched on failure |
| Divider.RScale | si5351.c:1534 | the total R division is at least 1 |
| Divider.DecalcMSClk | si5351.c:1511-1544 | success exactly when the base is positive, the record decodes and ratio * R is in [6, 1800]; then the output is within [base/1800, base/6]; otherwise the output is untouched |
| Divider.ClkFromRatio | si5351.c:1533-1540 | the R divider, the window check and the quotient, with the output untouched on failure |
| Divider.SearchFrom | si5351.c:1478-1484 | the loop leaves at the first index whose exit test holds, or at 8, and no earlier index passes the exit test |
| Divider.StopsAt | si5351.c:1479-1481 | the exit test of the search for divisor d: it holds whenever the candidate ratio/d is below 4 (its full meaning is SearchProofs.StopsAtMeaning) |
| Divider.SearchStops | si5351.c:1479-1481 | the exit test at loop index k: it holds whenever the ratio is below 4 * 2^(k+1) |
| Divider.RExponent | si5351.c:1478-1489 | tDIV: below 7 it is an index whose exit test holds, and the exit test fails at every earlier index |
| Divider.Residual | si5351.c:1490 | the ratio left for the Multisynth is non-negative |
| Divider.CalcMSClk | si5351.c:1465-1509 | success exactly when both frequencies are positive and the ratio is in [6, 1800]; on failure the record is untouched; on success the record is the encoding of the residual, with tDIV chosen by the search and no divide-by-4 |
| Divider.EncodeIntended | si5351.h:235-237 | the parameter formulas with int(128 * b / c): tDIV and bDivBy4 kept, P3 = 2^19, integer mode exactly when b = 0 |
| Divider.CalcMSPLLIntended | si5351.c:1398-1429 | the guards of CalcMSPLL over the corrected encoding |
| Divider.DecodeRatioPLLIntended | si5351.c:1436-1452 | the PLL decoding with the real division P1 / 128.0 that DecalcMSClk uses |
| Divider.DecalcMSPLLIntended | si5351.c:1431-1463 | the guards and bounds of DecalcMSPLL over the corrected decoding |
| Divider.CalcSSP | si5351.c:1546-1586 | success exactly when the PFD guard and the amplitude window of the mode hold; mode and SSUDP are stored whenever the PFD guard holds; when it fails the record is untouched; on success SSDN_P3 = 32767, and the up leg is (0, 0, 1) in down mode and has SSUP_P3 = 32767 in center mode |
| Divider.VcxoProduct | si5351.c:1594 | the product 1.03 * 128 * ratio * APR, non-negative for a non-negative ratio |
| Divider.CalcVCXO | si5351.c:1589-1598 | always succeeds, and the parameter is the truncation of 1.03 * 128 * ratio * APR |
| DividerProofs.FracSplit | si5351.c:1421-1422 | the rounded 128ths are floor(b / 4096), plus one exactly when the rounding goes up |
| DividerProofs.EncodeIntegerMode | si5351.c:1414-1418 | with b = 0: integer mode, P1 = 128a - 512, P2 = 0, and all fields fit the registers |
| DividerProofs.EncodeRoundDown | si5351.c:1420-1423 | fractional mode rounding down: P1 = 128a + b/4096 - 512, P2 = 128 * (b mod 4096), and all fields fit |
| DividerProofs.EncodeRoundUpWraps | si5351.c:1421-1422 | rounding up makes P2 wrap to 2^32 + 128 * (b mod 4096) - 2^19, beyond 20 bits, and both decoders reject the record |
| DividerProofs.QuantizeError | si5351.c:1411-1413 | a + b/2^19 lies at most 2^-19 below the ratio |
| DividerProofs.EncodeDecodeClk | si5351.c:1491-1531 | decoding an output encoding that rounded down gives back a + b/2^19 |
| DividerProofs.DecodePLLDrops128ths | si5351.c:1449 | the PLL decoding falls short of the encoded ratio by (b div 4096)/128 |
| DividerProofs.EncodeIntendedRoundTrip | si5351.h:235-237 | the corrected encoding of every ratio in [4, 2052) fits the registers, and both decodings return a + b/2^19 |
| DividerProofs.PllIntegralRoundTrip | si5351.c:1398-1463 | an integral feedback ratio round-trips: DecalcMSPLL of CalcMSPLL returns the VCO frequency |
| DividerProofs.PllRoundUpRejected | si5351.c:1421-1438 | when the 128ths round up, the record does not fit the registers and DecalcMSPLL rejects what CalcMSPLL accepted |
| DividerProofs.PllRoundUpExample | si5351.c:1421-1422 | 25 MHz to 387.59765625 MHz gives P2 = 4294705152, and the decoder rejects it |
| DividerProofs.PllTruncationExample | si5351.c:1449 | 25 MHz to 387.5 MHz encodes exactly, yet decodes as 375 MHz |
| DividerProofs.PllIntendedRoundTrip | si5351.c:1398-1463 | corrected: decoding the encoding returns base * (a + b/2^19) |
| DividerProofs.PllIntendedDecodesEncoding | si5351.c:1436-1459 | corrected: every ratio in [15, 90] decodes to base * (a + b/2^19) |
| DividerProofs.QuantizedFrequency | si5351.c:1411-1413 | the frequency of the truncated ratio is at most base/2^19 below the requested one, and never above it |
| SearchProofs.StopsAtMeaning | si5351.c:1479-1481 | over exact reals the loop's exit test says: the candidate is below 4, or its remainder is at least 1/256 |
| SearchProofs.SearchStopsMeaning | si5351.c:1479-1481 | the same test at loop index k, for the divisor 2^(k+1) |
| SearchProofs.RExponentIsLeastExit | si5351.c:1478-1489 | tDIV is the first index at which the search exits, and is 7 (divide by 128) when it exits at none of 0..6 |
| SearchProofs.ResidualBounds | si5351.c:1490 | the residual is at least 4 and at most the ratio, and times 2^tDIV it gives the ratio back |
| SearchProofs.ResidualIntegral | si5351.c:1478-1490 | an integral ratio leaves an integral residual |
| SearchProofs.ClkRoundTrip | si5351.c:1465-1544 | when the residual's 128ths round down, DecalcMSClk of CalcMSClk succeeds and returns base / (a + b/2^19) / 2^tDIV |
| SearchProofs.ClkQuantizedFrequency | si5351.c:1465-1544 | the round-trip frequency is at least the requested output and below output / (1 - 2^-21) |
| SearchProofs.ClkDecodesEncoding | si5351.c:1490-1540 | the same for any ratio in [6, 1800] |
| SearchProofs.WindowAfterTruncation | si5351.c:1534-1535 | truncating the residual keeps the total division within [6, 1800] |
| SearchProofs.ClkIntegralRoundTrip | si5351.c:1465-1544 | an integral output ratio round-trips exactly: integer mode, and DecalcMSClk returns the requested frequency |
| SearchProofs.ClkIntegralDecodes | si5351.c:1490-1540 | the same for any integral ratio in [6, 1800] |
| SearchProofs.ClkRoundUpRejected | si5351.c:1501-1518 | when the residual's 128ths round up, the record does not fit and DecalcMSClk rejects it, leaving the output untouched |
| SearchProofs.SearchExampleEight | si5351.c:1478-1490 | a ratio of 8 gives R = 2 and a Multisynth ratio of 4 |
| SearchProofs.SearchExampleSaturates | si5351.c:1478-1490 | a ratio of 1024 gives R = 128 and a Multisynth ratio of 8 |
| SpreadProofs.CalcSSPPartialWrite | si5351.c:1556-1571 | a rejected amplitude still leaves the mode and SSUDP written while the result is false |
| SpreadProofs.CalcSSPWritesEveryField | si5351.c:1556-1582 | a success writes the whole record: each leg either from the computed values or from the fixed ones |
| Divider.UpDownPeriod | si5351.c:1558 | SSUDP is PFD/140400 rounded half up while that stays below 2^16 |
| SpreadProofs.UpDownPeriodExceedsField | si5351.c:1556-1558 | a 702 MHz PFD passes the guard with SSUDP = 5000, which does not fit the 12-bit register field |
| SpreadProofs.CalcVCXOMonotone | si5351.c:1594 | the VCXO parameter grows with the pull range |
| SpreadProofs.CalcVCXOStrict | si5351.c:1594 | once 1.03 * 128 * ratio is at least 1, a larger pull range gives a strictly larger VCXO parameter |
| RegisterMap.WriteThenRead | si5351.c:536-554 | a field reads back the written value cut to its width |
| RegisterMap.GetBits | si5351.c:519-534 | `(v >> shift) & mask` never exceeds the mask |
| RegisterMap.PutBits | si5351.c:536-554 | the read-modify-write keeps every bit outside `mask << shift` |
| RegisterMap.ReadField | si5351.c:519-534 | a getter's field value never exceeds the field's mask |
| RegisterMap.WriteField | si5351.c:536-554 | a field setter changes only the field's register |
| RegisterMap.ClkPowerDown | si5351.c:519-554 | CLKn_PDN is a well-formed field of register 0x10 + n |
| RegisterMap.ClkIntMode | si5351.c:877-941 | MSn_INT is a well-formed field of register 0x10 + n |
| RegisterMap.ClkMsSource | si5351.c:557-592 | MSn_SRC is a well-formed field of register 0x10 + n |
| RegisterMap.ClkInvert | si5351.c:595-630 | CLKn_INV is a well-formed field of register 0x10 + n |
| RegisterMap.ClkSource | si5351.c:633-668 | CLKn_SRC is a well-formed two-bit field of register 0x10 + n |
| RegisterMap.ClkDrive | si5351.c:671-706 | CLKn_IDRV is a well-formed two-bit field of register 0x10 + n |
| RegisterMap.PairShift | si5351.c:720 | the shift of the k-th two-bit field of a register is 2 * k |
| RegisterMap.WriteOtherField | si5351.c:536-554 | writing a field keeps every disjoint field |
| RegisterMap.FixedFieldsWellFormed | si5351.c:427-514 | CLKIN_DIV, PLLA_SRC, PLLB_SRC, SSC_EN and XTAL_CL lie within their bytes, and the three fields of register 0x0F share no bit |
| RegisterMap.ClkFieldsDisjoint | si5351.c:519-706 | the six fields of a clock control byte share no bit, so each setter leaves the other five alone |
| RegisterMap.DisableState | si5351.c:710-725 | the field of clock n is well formed |
| RegisterMap.DisableStatesDisjoint | si5351.c:710-745 | the disable-state fields of two clocks share no bit |
| RegisterMap.DisableStateAsWrittenReadsBack | si5351.c:727-745 | as written: a clock reads back the state only when that state is 0 or equals n mod 4; otherwise its field is cleared |
| RegisterMap.WriteDisableStateAsWritten | si5351.c:737-740 | as written: only register 0x18 + n/4 changes, and in it only the pairs of clock n and of position state mod 4 |
| RegisterMap.DisableStateAsWrittenExample | si5351.c:739 | as written: setting CLK0 to HIGH_IMP leaves CLK0 LOW and sets CLK2 to HIGH_IMP |
| RegisterMap.DisableStateRoundTrip | si5351.c:710-745 | corrected: the state reads back, and no other clock's state changes |
| RegisterMap.WriteDisableState | si5351.c:727-745 | corrected: only register 0x18 + n/4 changes, and in it only the pair of clock n |
| RegisterMap.MsP1 | si5351.c:777-798 | P1 read from the block fits 18 bits |
| RegisterMap.MsP2 | si5351.c:790 | P2 read from the block fits 20 bits |
| RegisterMap.MsP3 | si5351.c:791 | P3 read from the block fits 20 bits |
| RegisterMap.PllIntMode | si5351.c:777-874 | FBA_INT and FBB_INT are well-formed one-bit fields |
| RegisterMap.PllBase | si5351.c:777-874 | the eight-byte block of MSNA or MSNB lies within the register file |
| RegisterMap.MsBase | si5351.c:877-941 | the eight-byte block of MSn lies within the register file |
| RegisterMap.MsBlock | si5351.c:811-819 | the eight bytes a Multisynth setter writes, with byte 2 the merged byte given |
| RegisterMap.PllByte2 | si5351.c:813-814 | byte 2 of a feedback block keeps bits 7:2 of the old byte and holds P1[17:16] in bits 1:0 |
| RegisterMap.ClkByte2 | si5351.c:927-931 | byte 2 of an output block keeps bit 7 of the old byte |
| RegisterMap.ReadMsPll | si5351.c:777-798 | GetMSA and GetMSB return a record that fits the registers, with tDIV = BY1 and no divide-by-4 |
| RegisterMap.WriteMsPll | si5351.c:800-824 | SetMSA and SetMSB change only the flag register and the eight parameter bytes |
| RegisterMap.ReadMsClk | si5351.c:877-906 | GetMS returns a record that fits the registers, in integer mode for CLK6 and CLK7 |
| RegisterMap.WriteMsClk | si5351.c:908-941 | corrected: SetMS changes only CLKn's control register and its eight parameter bytes |
| RegisterMap.MsPllFromBytes | si5351.c:777-798 | GetMSA and GetMSB decode a record that fits the registers |
| RegisterMap.MsClkFromBytes | si5351.c:877-906 | GetMS decodes a record that fits the registers |
| RegisterMap.MsCut | si5351.c:800-824 | P1, P2 and P3 cut to their field widths, which is the identity on a record that fits |
| RegisterMap.MsBlockParams | si5351.c:777-824 | P1, P2 and P3 survive the packing into eight bytes, cut to their widths |
| RegisterMap.MsPllRoundTrip | si5351.c:777-874 | GetMSA after SetMSA (and GetMSB after SetMSB) returns the flag and the parameters, cut to their widths, with tDIV = BY1 and no divide-by-4 |
| RegisterMap.MsPllFrame | si5351.c:800-874 | a feedback setter changes only its flag register and its eight parameter bytes |
| RegisterMap.MsPllKeepsBits | si5351.c:800-874 | a feedback setter keeps bits 7:2 of byte 2 and every bit of the flag register except the flag |
| RegisterMap.ClkByte2Fields | si5351.c:927-931 | byte 2 of an output block holds P1[17:16], the R divider and DIVBY4, and keeps bit 7 |
| RegisterMap.MsClkBlock | si5351.c:877-941 | the parameters and R-divider fields of an output block survive the store |
| RegisterMap.MsClkRoundTrip | si5351.c:877-941 | corrected: GetMS after SetMS returns the record cut to its widths; CLK6 and CLK7 always read integer mode |
| RegisterMap.MsClkFrame | si5351.c:908-941 | corrected: SetMS changes only CLKn's flag bit and its eight parameter bytes, and keeps bit 7 of byte 2 |
| RegisterMap.MsClkAsWrittenRoundTrip | si5351.c:908-941 | as written: the parameters read back, but the flag reads back only for CLK0; CLK1-5 keep their old flag |
| RegisterMap.MsClkAsWrittenExample | si5351.c:919-924 | as written: SetMS for CLK1 overwrites CLK0's control byte 0x80 with 0x4F, powering CLK0 up, and CLK1's flag stays clear |
| RegisterMap.WriteMsClkAsWritten | si5351.c:919-936 | as written: only register 0x10 and the eight parameter bytes change; CLK1-5 keep their own control register, and CLK6-7 leave 0x10 alone |
| RegisterMap.SspFromBytes | si5351.c:1006-1030 | GetSSP decodes a record that fits the register fields |
| RegisterMap.Join12 | si5351.c:1019 | a value over a low byte and the low nibble of another fits 12 bits |
| RegisterMap.Join15 | si5351.c:1020 | a value over a low byte and the low seven bits of another fits 15 bits |
| RegisterMap.ReadSsp | si5351.c:1006-1030 | GetSSP returns a record that fits the register fields |
| RegisterMap.WriteSsp | si5351.c:1032-1060 | corrected: SSC_EN is kept and nothing outside 0x95-0xA1 changes |
| RegisterMap.SspCut | si5351.c:1032-1060 | the record cut to the register field widths, which is the identity on a record that fits |
| RegisterMap.SspFields | si5351.c:1006-1060 | every field but SSDN_P2 survives the twelve bytes of SetSSP |
| RegisterMap.SspAsWrittenRoundTrip | si5351.c:1006-1060 | as written: GetSSP after SetSSP returns every field cut to its width, except that SSDN_P2 takes bits 14:8 from the old register 0x95; nothing outside 0x96-0xA1 changes |
| RegisterMap.SspAsWrittenExample | si5351.c:1038-1055 | as written: SSDN_P2 = 0x1234 over a cleared register 0x95 reads back as 0x34 |
| RegisterMap.SspBytes | si5351.c:1038-1055 | the twelve bytes SetSSP writes, one per register 0x96-0xA1 |
| RegisterMap.WriteSspAsWritten | si5351.c:1038-1055 | as written: register 0x95 is kept and nothing outside 0x96-0xA1 changes |
| RegisterMap.SspRoundTrip | si5351.c:1006-1060 | corrected: GetSSP after SetSSP returns the record cut to its widths |
| RegisterMap.SspFrame | si5351.c:1032-1060 | corrected: SSC_EN is kept and nothing outside 0x95-0xA1 changes |
| RegisterMap.SscSwitch | si5351.c:963-1004 | GetSSPEnable reads true after SetSSPEnable and false after SetSSPDisable, and SSDN_P2[14:8] is kept |
| RegisterMap.SscOn | si5351.c:976-989 | SetSSPEnable sets SSC_EN, keeps bits 6:0 of 0x95 and changes no other register |
| RegisterMap.SscOff | si5351.c:991-1004 | SetSSPDisable clears SSC_EN, keeps bits 6:0 of 0x95 and changes no other register |
| RegisterMap.VcxoFromBytes | si5351.c:1065-1082 | GetVCXO reads a 22-bit parameter |
| RegisterMap.VcxoBytes | si5351.c:1084-1097 | the three bytes SetVCXO writes, with bits 7:6 of the last one clear |
| RegisterMap.ReadVcxo | si5351.c:1065-1082 | GetVCXO returns a 22-bit parameter |
| RegisterMap.WriteVcxo | si5351.c:1084-1097 | SetVCXO changes nothing outside 0xA2-0xA4 |
| RegisterMap.VcxoRoundTrip | si5351.c:1065-1097 | GetVCXO after SetVCXO returns the parameter cut to 22 bits, and nothing outside 0xA2-0xA4 changes |
| RegisterMap.StatusRoundTrip | si5351.c:223-330 | a status written and read back gives the flags the chip has: all four on a Si5351C, only SYS_INIT otherwise |
| RegisterMap.StatusFromByte | si5351.c:230-236 | SYS_INIT is bit 7; on a Si5351C LOL_B, LOL_A and LOS are bits 6, 5 and 4; other chips keep the previous LOL_B, LOL_A and LOS |
| RegisterMap.StatusByte | si5351.c:271-280 | bit 7 is SYS_INIT and bits 3:0 are clear; on a Si5351C bits 6, 5 and 4 are LOL_B, LOL_A and LOS, on other chips they are clear |
| RegisterMap.OutputEnableBits | si5351.c:348-366 | SetOutputEnable clears exactly the requested bits and keeps the others |
| RegisterMap.OutputDisableBits | si5351.c:368-386 | SetOutputDisable sets exactly the requested bits and keeps the others |
| RegisterMap.OutputMask | si5351.c:356-360 | a subset of the requested bits: exactly bits 2:0 of the request in a 3-output build, the whole request otherwise |
| RegisterMap.EnableOutputs | si5351.c:348-366 | SetOutputEnable changes only register 0x03 and clears the requested bits there |
| RegisterMap.DisableOutputs | si5351.c:368-386 | SetOutputDisable changes only register 0x03 and sets the requested bits there |
| RegisterMap.OutputMaskIdempotent | si5351.c:389-421 | the OEB mask reads back as written: masking twice is masking once |
| RegisterMap.OutputMaskThreeClocks | si5351.c:348-421 | in a 3-output build SetOutputEnable and SetOutputDisable keep bits 7:3 of register 0x03 (CLK3-7) unchanged |
| RegisterMap.PhaseOffsetRoundTrip | si5351.c:1102-1134 | a phase offset below 0x80 reads back unchanged |
| RegisterMap.SoftResetBits | si5351.c:1138-1149 | PLLSoftReset sets PLLB_RST and PLLA_RST, clears bits 6 and 4, and keeps bits 3:0 |
| RegisterMap.SoftResetByte | si5351.c:1144 | bits 7:4 become 1010 (PLLB_RST and PLLA_RST set), bits 3:0 are kept |
| RegisterMap.InitImage | si5351.c:185-219 | after InitDevice, register 0x03 = 0xFF, 0x10-0x17 = 0x80, 0x02 = 0xF0, and every other register is unchanged |
| RegisterMap.InitDeviceState | si5351.c:185-219 | after InitDevice every output is disabled and powered down with the control fields at their reset meaning; the mask byte masks SYS_INIT, and on a Si5351C every interrupt source |
| Device.Si5351.constructor | si5351.c:172-183 | a handle bound to a chip with the given registers and callbacks |
| Device.Si5351.Read | si5351.h:306 | tRead returns the current content of the register |
| Device.Si5351.Write | si5351.h:307 | tWrite changes that one register and no other |
| Device.Si5351.ReadWindow | si5351.c:786-788 | the read loop collects the window of consecutive registers |
| Device.Si5351.GetField | si5351.c:519-534 | a getter returns the field of the current registers, within its mask |
| Device.Si5351.SetField | si5351.c:536-554 | a read-modify-write leaves the register image with the field written |
| Device.Si5351.InitDevice | si5351.c:185-219 | succeeds exactly when both callbacks exist, and then leaves InitImage of the old registers, otherwise no change |
| Device.Si5351.GetStatus | si5351.c:223-242 | needs tRead, and decodes register 0x00 |
| Device.Si5351.GetStickyStatus | si5351.c:244-263 | needs tRead, and decodes register 0x01 |
| Device.Si5351.SetStickyStatus | si5351.c:265-286 | needs tWrite, and writes the status byte to 0x01 |
| Device.Si5351.GetStatusMask | si5351.c:288-307 | needs tRead, and decodes register 0x02 |
| Device.Si5351.SetStatusMask | si5351.c:309-330 | needs tWrite, and writes the status byte to 0x02 |
| Device.Si5351.GetOutputEnable | si5351.c:335-346 | needs tRead, and returns register 0x03 |
| Device.Si5351.SetOutputEnable | si5351.c:348-366 | needs both callbacks, and leaves EnableOutputs of the old registers |
| Device.Si5351.SetOutputDisable | si5351.c:368-386 | needs both callbacks, and leaves DisableOutputs of the old registers |
| Device.Si5351.GetOutputControlMask | si5351.c:389-404 | needs tRead, and returns register 0x09 masked to the build's outputs |
| Device.Si5351.SetOutputControlMask | si5351.c:406-421 | needs tWrite, and writes the masked value to 0x09 |
| Device.Si5351.GetClkinDiv | si5351.c:427-438 | needs tRead, and returns CLKIN_DIV |
| Device.Si5351.SetClkinDiv | si5351.c:440-454 | needs both callbacks, and writes CLKIN_DIV only |
| Device.Si5351.GetPllASrc | si5351.c:458-469 | needs tRead, and returns PLLA_SRC |
| Device.Si5351.SetPllASrc | si5351.c:471-485 | needs both callbacks, and writes PLLA_SRC only |
| Device.Si5351.GetPllBSrc | si5351.c:487-498 | needs tRead, and returns PLLB_SRC |
| Device.Si5351.SetPllBSrc | si5351.c:500-514 | needs both callbacks, and writes PLLB_SRC only |
| Device.Si5351.GetClkPowerDown | si5351.c:519-534 | needs tRead and a valid clock, and returns CLKn_PDN |
| Device.Si5351.SetClkPowerDown | si5351.c:536-554 | needs both callbacks and a valid clock, and writes CLKn_PDN only |
| Device.Si5351.GetClkMsSource | si5351.c:557-572 | needs tRead and a valid clock, and returns MSn_SRC |
| Device.Si5351.SetClkMsSource | si5351.c:574-592 | needs both callbacks and a valid clock, and writes MSn_SRC only |
| Device.Si5351.GetClkInvert | si5351.c:595-610 | needs tRead and a valid clock, and returns CLKn_INV |
| Device.Si5351.SetClkInvert | si5351.c:612-630 | needs both callbacks and a valid clock, and writes CLKn_INV only |
| Device.Si5351.GetClkSrc | si5351.c:633-648 | needs tRead and a valid clock, and returns CLKn_SRC |
| Device.Si5351.SetClkSrc | si5351.c:650-668 | needs both callbacks and a valid clock, and writes CLKn_SRC only |
| Device.Si5351.GetClkIDrive | si5351.c:671-686 | needs tRead and a valid clock, and returns CLKn_IDRV |
| Device.Si5351.SetClkIDrive | si5351.c:688-706 | needs both callbacks and a valid clock, and writes CLKn_IDRV only |
| Device.Si5351.GetClkDisableState | si5351.c:710-725 | needs tRead and a valid clock, and returns CLKn_DIS_STATE |
| Device.Si5351.SetClkDisableState | si5351.c:727-745 | needs both callbacks and a valid clock, and writes the corrected CLKn_DIS_STATE field |
| Device.Si5351.WriteParams | si5351.c:811-819 | the eight parameter writes store the block, with byte 2 merged from its old value |
| Device.Si5351.GetFeedback | si5351.c:777-798 | needs tRead, and returns ReadMsPll for the given PLL |
| Device.Si5351.SetFeedback | si5351.c:800-824 | needs both callbacks, and leaves WriteMsPll for the given PLL |
| Device.Si5351.GetMSA | si5351.c:777-798 | needs tRead, and returns ReadMsPll for PLLA |
| Device.Si5351.SetMSA | si5351.c:800-824 | needs both callbacks, and leaves WriteMsPll for PLLA |
| Device.Si5351.GetMSB | si5351.c:827-848 | needs tRead, and returns ReadMsPll for PLLB |
| Device.Si5351.SetMSB | si5351.c:850-874 | needs both callbacks, and leaves WriteMsPll for PLLB |
| Device.Si5351.GetMS | si5351.c:877-906 | needs tRead and a valid clock, and returns ReadMsClk |
| Device.Si5351.SetMS | si5351.c:908-941 | needs both callbacks and a valid clock, and leaves the corrected WriteMsClk |
| Device.Si5351.GetSSPEnable | si5351.c:963-974 | always reports failure; with tRead it returns SSC_EN |
| Device.Si5351.SetSSPEnable | si5351.c:976-989 | always reports failure; with both callbacks it sets SSC_EN |
| Device.Si5351.SetSSPDisable | si5351.c:991-1004 | always reports failure; with both callbacks it clears SSC_EN |
| Device.Si5351.GetSSP | si5351.c:1006-1030 | needs tRead, and returns ReadSsp |
| Device.Si5351.WriteSspParams | si5351.c:1038-1055 | the twelve writes of SetSSP leave WriteSspAsWritten |
| Device.Si5351.SetSSP | si5351.c:1032-1060 | corrected: needs both callbacks, and leaves WriteSsp |
| Device.Si5351.GetVCXO | si5351.c:1065-1082 | needs tRead, and returns ReadVcxo |
| Device.Si5351.SetVCXO | si5351.c:1084-1097 | needs tWrite, and leaves WriteVcxo |
| Device.Si5351.GetPhaseOffset | si5351.c:1102-1117 | needs tRead and an output with a phase register, and returns the low seven bits |
| Device.Si5351.SetPhaseOffset | si5351.c:1119-1134 | needs tWrite and an output with a phase register, and writes the low seven bits |
| Device.Si5351.PLLSoftReset | si5351.c:1138-1149 | needs both callbacks, and rewrites register 0xB1 with SoftResetByte |
| Device.Si5351.GetXTALLoadCap | si5351.c:1153-1164 | needs tRead, and returns XTAL_CL |
| Device.Si5351.SetXTALLoadCap | si5351.c:1166-1180 | needs both callbacks, and writes XTAL_CL only |

## Left out

- `Si5351_Initialize` is not a method of the model. It returns false and binds nothing unless the handle, the instance and both callbacks are non-NULL; that refusal is not modelled. The constructor models a handle built directly: it binds the configuration, the callbacks' presence and the register contents, and it also accepts absent callbacks, whose helpers then fail as the driver's NULL checks make them.
- The I2C transport (`si5351_i2c.cpp`, `si5351_i2c.h`) is not part of this model. `tRead` and `tWrite` act directly on the register array.
- The Berkeley softfloat build of the divider functions (`si5351.c` before line 1398) is not modelled. Only the double build is.
- Doubles are exact reals in the model. IEEE rounding of quotients and products is not modelled. The search's third exit test, `dRatio != dRatioTemp * 2^k`, never fires: not over the reals, and not over doubles on [6, 1800], where dividing and multiplying by a power of two is exact.
- CalcSSP: SSDN_P1, SSDN_P2, SSUP_P1 and SSUP_P2 come from floating-point expressions that can divide by zero (SSUDP = 0) and can convert out-of-range doubles to `uint16_t`, which is undefined behaviour in C. These four values are inputs of the model (`SpreadLegs`), not computed by it.
- UpDownPeriod: for PFD/140400 in [65535.5, 65536) the PFD guard of CalcSSP passes, but SSUDP rounds to 65536, and converting that double to `uint16_t` is undefined in C. The model takes the value modulo 2^16 there.
- CalcVCXO: the precondition keeps the product in [0, 2^32). Converting a double of 2^32 or more, or of -1 or less, to `uint32_t` is undefined in C; a product in (-1, 0) gives 0 in C, which the model does not cover.
- NULL arguments are not modelled. The handle and every out-parameter are taken to be present. Only the two callbacks can be absent (`hasRead`, `hasWrite`).
- GetClkinDiv/SetClkinDiv and GetVCXO/SetVCXO exist only in Si5351C and Si5351B builds. The model gives them a precondition on the chip type instead of leaving them out of other builds.
- Enumeration arguments are typed by their field width (`Bit`, `TwoBit`). The per-chip restrictions (`IsPllSrc`, `IsClkSrc`, `IsXtalLoadCap`) are predicates, and the setters do not require them. The C setters do not check them either.
- Device.Si5351.SetSSP: it models the corrected setter. It reads register 0x95 and so needs tRead, which the driver's SetSSP does not check. The as-written twelve writes are `WriteSspParams` and `RegisterMap.WriteSspAsWritten`.
- Device.Si5351.SetMS: it models the corrected setter. The as-written behaviour is `RegisterMap.WriteMsClkAsWritten`.
- Device.Si5351.SetClkDisableState: it models the corrected setter. The as-written behaviour is `RegisterMap.WriteDisableStateAsWritten`.
- GetSSPEnable, SetSSPEnable and SetSSPDisable never set their result to true. The model keeps that `false` result.
- The electrical meaning of the register bits and the frequency plans of the design guidance in the header comments are not modelled.

## Findings

| source | as written | input that shows it | evidently intended | confidence | as-written member | corrected member |
|---|---|---|---|---|---|---|
| si5351.c:919-924 | SetMS reads CLKn's control byte, sets MSn_INT in it, and writes the result to register 0x10 (CLK0) | CLK1 with register 0x10 = 0x80 and register 0x11 = 0x0F, integer mode: CLK0 becomes 0x4F (powered up), and CLK1's flag is still clear | write the byte back to 0x10 + n | not executed | RegisterMap.MsClkAsWrittenRoundTrip, RegisterMap.MsClkAsWrittenExample | RegisterMap.MsClkRoundTrip |
| si5351.c:1032-1060 | SetSSP writes 0x96-0xA1 but never 0x95, which holds SSDN_P2[14:8] and which GetSSP reads | SSDN_P2 = 0x1234 with register 0x95 = 0 reads back as 0x34 | also store SSDN_P2[14:8] in bits 6:0 of 0x95, keeping SSC_EN | not executed | RegisterMap.SspAsWrittenRoundTrip, RegisterMap.SspAsWrittenExample | RegisterMap.SspRoundTrip |
| si5351.c:739 | SetClkDisableState shifts the new state by 2 * (state mod 4) instead of 2 * (clock mod 4) | CLK0 set to HIGH_IMP (2) with register 0x18 = 0: CLK0 reads LOW and CLK2 reads HIGH_IMP | shift by the clock's position in the register | not executed | RegisterMap.DisableStateAsWrittenReadsBack, RegisterMap.DisableStateAsWrittenExample | RegisterMap.DisableStateRoundTrip |
| si5351.c:1421-1422 | P1 and P2 use the 128ths rounded half up; when they round up, the `uint32_t` P2 underflows past 20 bits (same code at 1501-1502) | 25 MHz to 387.59765625 MHz: P2 = 4294705152, and DecalcMSPLL rejects the record | int(128 * b / c), as in the header formula at si5351.h:235-237 | not executed | DividerProofs.EncodeRoundUpWraps, DividerProofs.PllRoundUpExample, DividerProofs.PllRoundUpRejected | DividerProofs.EncodeIntendedRoundTrip |
| si5351.c:1449 | DecalcMSPLL divides P1 by 128 in integer arithmetic and drops the 128ths that P1 carries | 25 MHz with P1 = 1472, P2 = 0 (ratio 15.5): 375 MHz instead of 387.5 MHz | the real division (double)P1 / 128 that DecalcMSClk uses at line 1529 | not executed | DividerProofs.DecodePLLDrops128ths, DividerProofs.PllTruncationExample | DividerProofs.PllIntendedRoundTrip |
