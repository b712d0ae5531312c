/** The Si5351 register map as the driver uses it: a 256-byte image, the
    bitfields of the control registers, and the byte packing of the
    Multisynth, spread-spectrum and VCXO parameter blocks. Each function here
    gives the bytes one driver call leaves behind (or the value it reads); the
    class in module Device performs the same reads and writes in place. */
module RegisterMap {
  import opened Si5351Types
  import opened Bytes

  /** The register file: one byte for each address 0x00 .. 0xFF. */
  type RegFile = s: seq<bv8> | |s| == 256 witness seq(256, i => 0 as bv8)

  /* ---------------- bitfields ---------------- */

  /** `(v >> shift) & mask` */
  function GetBits(v: bv8, shift: bv8, mask: bv8): (b: bv8)
    requires shift < 8
    ensures b <= mask
  {
    (v >> shift) & mask
  }

  /** `(v & ~(mask << shift)) | ((x & mask) << shift)`, the read-modify-write
      update every field setter performs. */
  function PutBits(v: bv8, shift: bv8, mask: bv8, x: bv8): (w: bv8)
    requires shift < 8
    ensures w & !(mask << shift) == v & !(mask << shift)
  {
    (v & !(mask << shift)) | ((x & mask) << shift)
  }

  /** A bitfield of one register: its address, the position of its lowest
      bit and its mask. */
  datatype Field = Field(addr: u8, shift: bv8, mask: bv8)

  /** The field lies within its byte: no bit of the mask is shifted out. */
  predicate WellFormed(f: Field) {
    f.shift < 8 && (f.mask << f.shift) >> f.shift == f.mask
  }

  /** Two fields that share no bit. */
  predicate Disjoint(f: Field, g: Field)
    requires WellFormed(f) && WellFormed(g)
  {
    f.addr != g.addr || (f.mask << f.shift) & (g.mask << g.shift) == 0
  }

  function ReadField(r: RegFile, f: Field): (x: bv8)
    requires WellFormed(f)
    ensures x <= f.mask
  {
    GetBits(r[f.addr], f.shift, f.mask)
  }

  function WriteField(r: RegFile, f: Field, x: bv8): (w: RegFile)
    requires WellFormed(f)
    ensures forall a :: 0 <= a < 256 && a != f.addr ==> w[a] == r[a]
  {
    r[f.addr := PutBits(r[f.addr], f.shift, f.mask, x)]
  }

  /** Reading a field back gives the value written, cut to the field width. */
  lemma WriteThenRead(r: RegFile, f: Field, x: bv8)
    requires WellFormed(f)
    ensures ReadField(WriteField(r, f, x), f) == x & f.mask
  {
    var w := PutBits(r[f.addr], f.shift, f.mask, x);
    assert WriteField(r, f, x)[f.addr] == w;
    PutThenGet(r[f.addr], f.shift, f.mask, x);
  }

  /** Writing one field leaves every disjoint field as it was. */
  lemma WriteOtherField(r: RegFile, f: Field, g: Field, x: bv8)
    requires WellFormed(f) && WellFormed(g) && Disjoint(f, g)
    ensures ReadField(WriteField(r, f, x), g) == ReadField(r, g)
  {
    if f.addr == g.addr {
      PutOther(r[f.addr], f.shift, f.mask, x, g.shift, g.mask);
    }
  }

  /** The bit-level fact behind WriteOtherField. */
  lemma PutOther(v: bv8, shift: bv8, mask: bv8, x: bv8, s2: bv8, m2: bv8)
    requires shift < 8 && s2 < 8 && (mask << shift) & (m2 << s2) == 0 && (m2 << s2) >> s2 == m2
    ensures GetBits(PutBits(v, shift, mask, x), s2, m2) == GetBits(v, s2, m2)
  {
    var w := PutBits(v, shift, mask, x);
    assert w & (m2 << s2) == v & (m2 << s2);
    GetOnlyField(w, v, s2, m2);
  }

  lemma PutThenGet(v: bv8, shift: bv8, mask: bv8, x: bv8)
    requires shift < 8 && (mask << shift) >> shift == mask
    ensures GetBits(PutBits(v, shift, mask, x), shift, mask) == x & mask
  {}

  lemma GetOnlyField(a: bv8, b: bv8, shift: bv8, mask: bv8)
    requires shift < 8 && (mask << shift) >> shift == mask
    requires a & (mask << shift) == b & (mask << shift)
    ensures GetBits(a, shift, mask) == GetBits(b, shift, mask)
  {}

  /** A one-bit value as the driver writes a `bool`: `(b ? 1 : 0)`. */
  function BoolBit(b: bool): bv8 {
    if b then 1 else 0
  }

  /* ---------------- the named fields ---------------- */

  /** Register 0x0F: PLLA_SRC (bit 2), PLLB_SRC (bit 3), CLKIN_DIV (bits 7:6). */
  const PllASrc: Field := Field(0x0F, 2, 1)
  const PllBSrc: Field := Field(0x0F, 3, 1)
  const ClkinDiv: Field := Field(0x0F, 6, 3)

  /** Registers 0x10 + n: CLKn_PDN (7), MSn_INT (6), MSn_SRC (5), CLKn_INV (4),
      CLKn_SRC (3:2), CLKn_IDRV (1:0). */
  function ClkPowerDown(n: nat): (f: Field) requires n < 8 ensures WellFormed(f) { Field(0x10 + n, 7, 1) }
  function ClkIntMode(n: nat): (f: Field) requires n < 8 ensures WellFormed(f) { Field(0x10 + n, 6, 1) }
  function ClkMsSource(n: nat): (f: Field) requires n < 8 ensures WellFormed(f) { Field(0x10 + n, 5, 1) }
  function ClkInvert(n: nat): (f: Field) requires n < 8 ensures WellFormed(f) { Field(0x10 + n, 4, 1) }
  function ClkSource(n: nat): (f: Field) requires n < 8 ensures WellFormed(f) { Field(0x10 + n, 2, 3) }
  function ClkDrive(n: nat): (f: Field) requires n < 8 ensures WellFormed(f) { Field(0x10 + n, 0, 3) }

  /** Registers 0x18, 0x19: CLKn_DIS_STATE, two bits per clock, four clocks per register. */
  function DisableState(n: nat): (f: Field)
    requires n < 8
    ensures WellFormed(f)
  {
    Field(0x18 + n / 4, PairShift(n % 4), 3)
  }

  /** The shift count `2 * k` of the k-th two-bit field of a register. */
  function PairShift(k: int): (s: bv8)
    requires 0 <= k < 4
    ensures s as int == 2 * k
  {
    if k == 0 then 0 else if k == 1 then 2 else if k == 2 then 4 else 6
  }

  /** The two PLLs and their feedback Multisynths MSNA and MSNB. */
  datatype Pll = PllA | PllB

  /** FBA_INT and FBB_INT: bit 6 of registers 0x16 and 0x17. */
  function PllIntMode(p: Pll): (f: Field)
    ensures WellFormed(f)
  {
    Field(if p == PllA then 0x16 else 0x17, 6, 1)
  }

  /** SSC_EN: bit 7 of register 0x95. */
  const SscEnable: Field := Field(0x95, 7, 1)

  /** XTAL_CL: bits 7:6 of register 0xB7. */
  const XtalLoadCap: Field := Field(0xB7, 6, 3)

  /** The fixed fields lie within their registers, and the fields of
      register 0x0F share no bit. */
  lemma FixedFieldsWellFormed()
    ensures WellFormed(PllASrc) && WellFormed(PllBSrc) && WellFormed(ClkinDiv)
    ensures WellFormed(SscEnable) && WellFormed(XtalLoadCap)
    ensures Disjoint(PllASrc, PllBSrc) && Disjoint(PllASrc, ClkinDiv) && Disjoint(PllBSrc, ClkinDiv)
  {}

  /** The six fields of a clock control register share no bit. */
  lemma ClkFieldsDisjoint(n: nat)
    requires n < 8
    ensures Disjoint(ClkPowerDown(n), ClkIntMode(n)) && Disjoint(ClkPowerDown(n), ClkMsSource(n))
    ensures Disjoint(ClkPowerDown(n), ClkInvert(n)) && Disjoint(ClkPowerDown(n), ClkSource(n))
    ensures Disjoint(ClkPowerDown(n), ClkDrive(n)) && Disjoint(ClkIntMode(n), ClkMsSource(n))
    ensures Disjoint(ClkIntMode(n), ClkInvert(n)) && Disjoint(ClkIntMode(n), ClkSource(n))
    ensures Disjoint(ClkIntMode(n), ClkDrive(n)) && Disjoint(ClkMsSource(n), ClkInvert(n))
    ensures Disjoint(ClkMsSource(n), ClkSource(n)) && Disjoint(ClkMsSource(n), ClkDrive(n))
    ensures Disjoint(ClkInvert(n), ClkSource(n)) && Disjoint(ClkInvert(n), ClkDrive(n))
    ensures Disjoint(ClkSource(n), ClkDrive(n))
  {}

  /** The disable-state fields of different clocks share no bit. */
  lemma DisableStatesDisjoint(n: nat, m: nat)
    requires n < 8 && m < 8 && n != m
    ensures Disjoint(DisableState(n), DisableState(m))
  {
    if n / 4 == m / 4 {
      assert n % 4 != m % 4;
      PairMasksDisjoint(n % 4, m % 4);
    }
  }

  lemma PairMasksDisjoint(i: int, j: int)
    requires 0 <= i < 4 && 0 <= j < 4 && i != j
    ensures (3 as bv8 << PairShift(i)) & (3 as bv8 << PairShift(j)) == 0
  {
    assert i == 0 || i == 1 || i == 2 || i == 3;
    assert j == 0 || j == 1 || j == 2 || j == 3;
  }

  /* ---------------- CLKx_DIS_STATE ---------------- */

  /** `Si5351_SetClkDisableState` as written: the field of clock n is cleared,
      but the new value is shifted by twice its own value instead of by twice
      the clock's position in the register. */
  function WriteDisableStateAsWritten(r: RegFile, n: nat, st: TwoBit): (w: RegFile)
    requires n < 8
    ensures forall a :: 0 <= a < 256 && a != 0x18 + n / 4 ==> w[a] == r[a]
    ensures w[0x18 + n / 4] & !(3 << PairShift(n % 4)) & !(3 << PairShift(st % 4))
            == r[0x18 + n / 4] & !(3 << PairShift(n % 4)) & !(3 << PairShift(st % 4))
  {
    var a := 0x18 + n / 4;
    r[a := (r[a] & !(3 << PairShift(n % 4))) | ((ToByte(st) & 3) << PairShift(st % 4))]
  }

  /** The setter with the shift by the clock's position. */
  function WriteDisableState(r: RegFile, n: nat, st: TwoBit): (w: RegFile)
    requires n < 8
    ensures forall a :: 0 <= a < 256 && a != 0x18 + n / 4 ==> w[a] == r[a]
    ensures w[0x18 + n / 4] & !(3 << PairShift(n % 4)) == r[0x18 + n / 4] & !(3 << PairShift(n % 4))
  {
    WriteField(r, DisableState(n), ToByte(st))
  }

  /** As written, clock n reads back the written state only when that state
      is 0 or equals n mod 4; otherwise its field is left cleared. */
  lemma DisableStateAsWrittenReadsBack(r: RegFile, n: nat, st: TwoBit)
    requires n < 8
    ensures ReadField(WriteDisableStateAsWritten(r, n, st), DisableState(n))
            == ToByte(if st == n % 4 then st else 0)
  {
    var w := WriteDisableStateAsWritten(r, n, st);
    var f := DisableState(n);
    var x := w[f.addr];
    assert ReadField(w, f) == GetBits(x, PairShift(n % 4), 3);
    DisableStateAsWrittenByte(r, n, st);
    DisableStateBits(r[f.addr], n % 4, st);
  }

  /** The byte the as-written setter stores. */
  lemma DisableStateAsWrittenByte(r: RegFile, n: nat, st: TwoBit)
    requires n < 8
    ensures WriteDisableStateAsWritten(r, n, st)[0x18 + n / 4]
            == (r[0x18 + n / 4] & !(3 << PairShift(n % 4))) | ((ToByte(st) & 3) << PairShift(st))
  {
    assert st % 4 == st;
  }

  lemma DisableStateBits(v: bv8, i: int, j: int)
    requires 0 <= i < 4 && 0 <= j < 4
    ensures GetBits((v & !(3 << PairShift(i))) | ((ToByte(j) & 3) << PairShift(j)), PairShift(i), 3)
            == ToByte(if i == j then j else 0)
  {
    var b := ToByte(j);
    assert b < 4;
    assert PairShift(j) == b + b by {
      assert j == 0 || j == 1 || j == 2 || j == 3;
    }
    assert i == 0 || i == 1 || i == 2 || i == 3;
  }

  /** As written, a concrete failure: with register 0x18 clear, setting CLK0
      to HIGH_IMP leaves CLK0 at LOW and puts HIGH_IMP into CLK2's field. */
  lemma DisableStateAsWrittenExample(r: RegFile)
    requires r[0x18] == 0
    ensures ReadField(WriteDisableStateAsWritten(r, 0, CLK_DIS_STATE_HIGH_IMP), DisableState(0)) == CLK_DIS_STATE_LOW as bv8
    ensures ReadField(WriteDisableStateAsWritten(r, 0, CLK_DIS_STATE_HIGH_IMP), DisableState(2)) == CLK_DIS_STATE_HIGH_IMP as bv8
  {
    assert WriteDisableStateAsWritten(r, 0, CLK_DIS_STATE_HIGH_IMP)[0x18] == 0x20;
  }

  /** Corrected: the state written is the state read back, and no other
      clock's disable state moves. */
  lemma DisableStateRoundTrip(r: RegFile, n: nat, st: TwoBit)
    requires n < 8
    ensures ReadField(WriteDisableState(r, n, st), DisableState(n)) as int == st
    ensures forall m :: 0 <= m < 8 && m != n ==>
              ReadField(WriteDisableState(r, n, st), DisableState(m)) == ReadField(r, DisableState(m))
  {
    WriteThenRead(r, DisableState(n), ToByte(st));
    forall m | 0 <= m < 8 && m != n
      ensures ReadField(WriteDisableState(r, n, st), DisableState(m)) == ReadField(r, DisableState(m))
    {
      DisableStatesDisjoint(n, m);
      WriteOtherField(r, DisableState(n), DisableState(m), ToByte(st));
    }
  }

  /* ---------------- Multisynth parameter blocks ---------------- */

  /** The first of the eight parameter registers: MSNA at 0x1A, MSNB at 0x22,
      and MSn at 0x2A + 8n. */
  function PllBase(p: Pll): (b: nat)
    ensures b + 8 <= 256
  {
    if p == PllA then 0x1A else 0x22
  }

  function MsBase(n: nat): (b: nat)
    requires n < 8
    ensures b + 8 <= 256
  {
    0x2A + 8 * n
  }

  /** P1 from bytes 2 .. 4 of a block: `(v[2] & 0x03) << 16 | v[3] << 8 | v[4]`. */
  function MsP1(v: seq<bv8>): (p: int)
    requires |v| == 8
    ensures 0 <= p < 0x40000
  {
    MaskLow2(v[2]);
    (v[2] & 0x03) as int * 0x10000 + v[3] as int * 0x100 + v[4] as int
  }

  /** P2 from bytes 5 .. 7: `(v[5] & 0x0F) << 16 | v[6] << 8 | v[7]`. */
  function MsP2(v: seq<bv8>): (p: int)
    requires |v| == 8
    ensures 0 <= p < 0x10_0000
  {
    MaskLow4(v[5]);
    (v[5] & 0x0F) as int * 0x10000 + v[6] as int * 0x100 + v[7] as int
  }

  /** P3 from bytes 5, 0 and 1: `(v[5] & 0xF0) << 12 | v[0] << 8 | v[1]`. */
  function MsP3(v: seq<bv8>): (p: int)
    requires |v| == 8
    ensures 0 <= p < 0x10_0000
  {
    MaskHigh4(v[5]);
    (v[5] & 0xF0) as int * 0x1000 + v[0] as int * 0x100 + v[1] as int
  }

  /** `Si5351_GetMSA` / `Si5351_GetMSB`: the integer flag and the block; the
      feedback Multisynths have no R divider, so tDIV = BY1 and bDivBy4 = false. */
  function MsPllFromBytes(intBit: bv8, v: seq<bv8>): (ms: MS)
    requires |v| == 8
    ensures FitsRegisters(ms)
  {
    MS(intBit == 1, MsP1(v), MsP2(v), MsP3(v), MS_DIV_BY1, false)
  }

  /** `Si5351_GetMS`: the integer flag of CLK0-5 (CLK6 and CLK7 always read
      as integer), the block, R0_DIV in bits 6:4 of byte 2 and DIVBY4 in
      bits 3:2 (set only when both bits are). */
  function MsClkFromBytes(n: nat, intBit: bv8, v: seq<bv8>): (ms: MS)
    requires |v| == 8
    ensures FitsRegisters(ms)
  {
    MS(if n < 6 then intBit == 1 else true, MsP1(v), MsP2(v), MsP3(v),
       ((v[2] >> 4) & 0x7) as int, (v[2] >> 2) & 0x3 == 0x3)
  }

  /** The eight bytes a Multisynth setter writes, with byte 2 given:
      P3[15:8], P3[7:0], byte 2, P1[15:8], P1[7:0], P3[19:16] | P2[19:16],
      P2[15:8], P2[7:0]. */
  function MsBlock(ms: MS, byte2: bv8): (v: seq<bv8>)
    ensures |v| == 8 && v[2] == byte2
  {
    [ByteOf(ms.p3 / 0x100), ByteOf(ms.p3), byte2, ByteOf(ms.p1 / 0x100), ByteOf(ms.p1),
     (ByteOf(ms.p3 / 0x1000) & 0xF0) | (ByteOf(ms.p2 / 0x10000) & 0x0F),
     ByteOf(ms.p2 / 0x100), ByteOf(ms.p2)]
  }

  /** Byte 2 of a feedback block: bits 7:2 kept, P1[17:16] in bits 1:0. */
  function PllByte2(old2: bv8, ms: MS): (b: bv8)
    ensures b & 0xFC == old2 & 0xFC
    ensures b & 0x03 == ByteOf(ms.p1 / 0x10000) & 0x03
  {
    (old2 & !0x3) | (ByteOf(ms.p1 / 0x10000) & 0x3)
  }

  /** Byte 2 of an output block: bit 7 kept, R divider in 6:4, DIVBY4 in
      3:2, P1[17:16] in 1:0. */
  function ClkByte2(old2: bv8, ms: MS): (b: bv8)
    ensures b & 0x80 == old2 & 0x80
  {
    (old2 & !0x7F) | ((ToByte(ms.tDiv) & 0x7) << 4) | ((if ms.bDivBy4 then 3 else 0) << 2) | (ByteOf(ms.p1 / 0x10000) & 0x3)
  }

  /** The register image with the bytes v stored from `base` on. */
  function Store(r: RegFile, base: nat, v: seq<bv8>): (r': RegFile)
    requires base + |v| <= 256
  {
    seq(256, a requires 0 <= a < 256 => if base <= a < base + |v| then v[a - base] else r[a])
  }

  /** A getter reading back the window a store wrote sees the stored bytes. */
  lemma StoreWindow(r: RegFile, base: nat, v: seq<bv8>)
    requires base + |v| <= 256
    ensures Window(Store(r, base, v), base, |v|) == v
    ensures forall a :: 0 <= a < 256 && !(base <= a < base + |v|) ==> Store(r, base, v)[a] == r[a]
  {}

  /** The bytes from `base` on, as a getter's loop collects them. */
  function Window(r: RegFile, base: nat, len: nat): (v: seq<bv8>)
    requires base + len <= 256
    ensures |v| == len
  {
    r[base..base + len]
  }

  /** A store is the writes of its bytes one register after the other. */
  lemma StoreThree(r: RegFile, base: nat, v: seq<bv8>)
    requires |v| == 3 && base + 3 <= 256
    ensures Store(r, base, v) == r[base := v[0]][base + 1 := v[1]][base + 2 := v[2]]
  {}

  lemma StoreEight(r: RegFile, base: nat, v: seq<bv8>)
    requires |v| == 8 && base + 8 <= 256
    ensures Store(r, base, v)
            == r[base := v[0]][base + 1 := v[1]][base + 2 := v[2]][base + 3 := v[3]]
                [base + 4 := v[4]][base + 5 := v[5]][base + 6 := v[6]][base + 7 := v[7]]
  {}

  lemma StoreTwelve(r: RegFile, base: nat, v: seq<bv8>)
    requires |v| == 12 && base + 12 <= 256
    ensures Store(r, base, v)
            == r[base := v[0]][base + 1 := v[1]][base + 2 := v[2]][base + 3 := v[3]]
                [base + 4 := v[4]][base + 5 := v[5]][base + 6 := v[6]][base + 7 := v[7]]
                [base + 8 := v[8]][base + 9 := v[9]][base + 10 := v[10]][base + 11 := v[11]]
  {}

  /** Storing a leading byte, then the rest from the next address on. */
  lemma StoreCons(r: RegFile, base: nat, b: bv8, v: seq<bv8>)
    requires base + 1 + |v| <= 256
    ensures Store(r, base, [b] + v) == Store(r[base := b], base + 1, v)
  {}

  /** A store followed by one more byte is the store of the longer sequence. */
  lemma StoreExtend(r: RegFile, base: nat, v: seq<bv8>, b: bv8)
    requires base + |v| + 1 <= 256
    ensures Store(r, base, v)[base + |v| := b] == Store(r, base, v + [b])
  {}

  /** `Si5351_SetMSA` / `Si5351_SetMSB`: the integer flag, then the block with
      byte 2 read, modified and written back. */
  function WriteMsPll(r: RegFile, p: Pll, ms: MS): (w: RegFile)
    ensures forall a :: 0 <= a < 256 && a != PllIntMode(p).addr && !(PllBase(p) <= a < PllBase(p) + 8) ==> w[a] == r[a]
  {
    var r1 := WriteField(r, PllIntMode(p), BoolBit(ms.bInteger));
    StoreWindow(r1, PllBase(p), MsBlock(ms, PllByte2(r1[PllBase(p) + 2], ms)));
    Store(r1, PllBase(p), MsBlock(ms, PllByte2(r1[PllBase(p) + 2], ms)))
  }

  /** `Si5351_SetMS` as written: for CLK0-5 the integer flag is merged into
      the control byte of CLKn but stored at register 0x10 (CLK0's). */
  function WriteMsClkAsWritten(r: RegFile, n: nat, ms: MS): (w: RegFile)
    requires n < 8
    ensures forall a :: 0 <= a < 256 && a != 0x10 && !(MsBase(n) <= a < MsBase(n) + 8) ==> w[a] == r[a]
    ensures n >= 6 ==> w[0x10] == r[0x10]
    ensures 0 < n < 6 ==> w[0x10 + n] == r[0x10 + n]
  {
    var r1 := if n < 6 then r[0x10 := PutBits(r[0x10 + n], 6, 1, BoolBit(ms.bInteger))] else r;
    Store(r1, MsBase(n), MsBlock(ms, ClkByte2(r1[MsBase(n) + 2], ms)))
  }

  /** The setter with the flag stored in CLKn's own control register. */
  function WriteMsClk(r: RegFile, n: nat, ms: MS): (w: RegFile)
    requires n < 8
    ensures forall a :: 0 <= a < 256 && a != 0x10 + n && !(MsBase(n) <= a < MsBase(n) + 8) ==> w[a] == r[a]
  {
    var r1 := if n < 6 then WriteField(r, ClkIntMode(n), BoolBit(ms.bInteger)) else r;
    StoreWindow(r1, MsBase(n), MsBlock(ms, ClkByte2(r1[MsBase(n) + 2], ms)));
    Store(r1, MsBase(n), MsBlock(ms, ClkByte2(r1[MsBase(n) + 2], ms)))
  }

  /** `Si5351_GetMSA` / `Si5351_GetMSB`. */
  function ReadMsPll(r: RegFile, p: Pll): (ms: MS)
    ensures FitsRegisters(ms) && ms.tDiv == MS_DIV_BY1 && !ms.bDivBy4
  {
    MsPllFromBytes(ReadField(r, PllIntMode(p)), Window(r, PllBase(p), 8))
  }

  /** The output getter of MSn. */
  function ReadMsClk(r: RegFile, n: nat): (ms: MS)
    requires n < 8
    ensures FitsRegisters(ms) && (n >= 6 ==> ms.bInteger)
  {
    MsClkFromBytes(n, ReadField(r, ClkIntMode(n)), Window(r, MsBase(n), 8))
  }

  /** A Multisynth record with P1, P2 and P3 cut to their 18, 20 and 20-bit
      register fields. */
  function MsCut(ms: MS): (c: MS)
    ensures FitsRegisters(c)
    ensures FitsRegisters(ms) ==> c == ms
  {
    ms.(p1 := ms.p1 % 0x40000, p2 := ms.p2 % 0x10_0000, p3 := ms.p3 % 0x10_0000)
  }

  /** The three parameters survive the packing, cut to their widths,
      whatever the upper bits of byte 2 hold. */
  lemma MsBlockParams(ms: MS, byte2: bv8)
    requires byte2 & 0x03 == ByteOf(ms.p1 / 0x10000) & 0x03
    ensures MsP1(MsBlock(ms, byte2)) == ms.p1 % 0x40000
    ensures MsP2(MsBlock(ms, byte2)) == ms.p2 % 0x10_0000
    ensures MsP3(MsBlock(ms, byte2)) == ms.p3 % 0x10_0000
  {
    var top := ByteOf(ms.p3 / 0x1000) & 0xF0;
    var bot := ByteOf(ms.p2 / 0x10000) & 0x0F;
    NibbleJoin(top, bot);
    MsP1Bytes(ms.p1, byte2, MsBlock(ms, byte2));
    MsP2Bytes(ms.p2, MsBlock(ms, byte2));
    MsP3Bytes(ms.p3, MsBlock(ms, byte2));
  }

  lemma MsP1Bytes(p: int, byte2: bv8, v: seq<bv8>)
    requires p >= 0 && |v| == 8 && v[2] == byte2 && byte2 & 0x03 == ByteOf(p / 0x10000) & 0x03
    requires v[3] == ByteOf(p / 0x100) && v[4] == ByteOf(p)
    ensures MsP1(v) == p % 0x40000
  {
    MaskLow2(ByteOf(p / 0x10000));
    High18(p);
  }

  lemma MsP2Bytes(p: int, v: seq<bv8>)
    requires p >= 0 && |v| == 8 && v[5] & 0x0F == ByteOf(p / 0x10000) & 0x0F
    requires v[6] == ByteOf(p / 0x100) && v[7] == ByteOf(p)
    ensures MsP2(v) == p % 0x10_0000
  {
    MaskLow4(ByteOf(p / 0x10000));
    High20(p);
  }

  lemma MsP3Bytes(p: int, v: seq<bv8>)
    requires p >= 0 && |v| == 8 && v[5] & 0xF0 == ByteOf(p / 0x1000) & 0xF0
    requires v[0] == ByteOf(p / 0x100) && v[1] == ByteOf(p)
    ensures MsP3(v) == p % 0x10_0000
  {
    MaskHigh4(ByteOf(p / 0x1000));
    NibbleAt16(p);
    var hi := (v[5] & 0xF0) as int;
    assert hi == (p / 0x10000) % 16 * 16;
    ModOfByte(p / 0x10000, 16);
    High20(p);
    assert MsP3(v) == hi * 0x1000 + v[0] as int * 0x100 + v[1] as int;
  }

  /** A byte made of a high and a low nibble gives each back under its mask. */
  lemma NibbleJoin(top: bv8, bot: bv8)
    requires top & 0x0F == 0 && bot & 0xF0 == 0
    ensures (top | bot) & 0x0F == bot && (top | bot) & 0xF0 == top
  {}

  /** Byte 2 of a feedback block: P1[17:16] low, bits 7:2 kept. */
  lemma PllByte2Bits(old2: bv8, p: bv8)
    ensures ((old2 & !0x3) | (p & 0x3)) & 0x03 == p & 0x03
    ensures ((old2 & !0x3) | (p & 0x3)) & 0xFC == old2 & 0xFC
  {}

  /** A one-bit flag written through a field reads back as the flag. */
  lemma BoolBitRoundTrip(b: bool)
    ensures (BoolBit(b) & 1 == 1) == b
  {}

  /** GetMSA after SetMSA (and GetMSB after SetMSB) returns the integer flag
      and P1, P2, P3 cut to their field widths, with tDIV = BY1 and no
      divide-by-4. */
  lemma MsPllRoundTrip(r: RegFile, p: Pll, ms: MS)
    ensures ReadMsPll(WriteMsPll(r, p, ms), p) == MsCut(ms).(tDiv := MS_DIV_BY1, bDivBy4 := false)
  {
    var f := PllIntMode(p);
    var base := PllBase(p);
    var r1 := WriteField(r, f, BoolBit(ms.bInteger));
    var b2 := PllByte2(r1[base + 2], ms);
    StoreWindow(r1, base, MsBlock(ms, b2));
    WriteThenRead(r, f, BoolBit(ms.bInteger));
    BoolBitRoundTrip(ms.bInteger);
    PllByte2Bits(r1[base + 2], ByteOf(ms.p1 / 0x10000));
    MsBlockParams(ms, b2);
  }

  /** A feedback setter changes only its flag register and its eight bytes. */
  lemma MsPllFrame(r: RegFile, p: Pll, ms: MS)
    ensures forall a :: 0 <= a < 256 && a != PllIntMode(p).addr && !(PllBase(p) <= a < PllBase(p) + 8) ==> WriteMsPll(r, p, ms)[a] == r[a]
  {
    var r1 := WriteField(r, PllIntMode(p), BoolBit(ms.bInteger));
    StoreWindow(r1, PllBase(p), MsBlock(ms, PllByte2(r1[PllBase(p) + 2], ms)));
  }

  /** A feedback setter keeps bits 7:2 of byte 2 and every bit of the flag
      register but the flag. */
  lemma MsPllKeepsBits(r: RegFile, p: Pll, ms: MS)
    ensures WriteMsPll(r, p, ms)[PllBase(p) + 2] & 0xFC == r[PllBase(p) + 2] & 0xFC
    ensures WriteMsPll(r, p, ms)[PllIntMode(p).addr] & 0xBF == r[PllIntMode(p).addr] & 0xBF
  {
    MsPllBytes(r, p, ms);
    PllByte2Bits(r[PllBase(p) + 2], ByteOf(ms.p1 / 0x10000));
    FlagKeeps(r[PllIntMode(p).addr], BoolBit(ms.bInteger));
  }

  /** The two bytes of a feedback setter that merge old bits with new ones. */
  lemma MsPllBytes(r: RegFile, p: Pll, ms: MS)
    ensures WriteMsPll(r, p, ms)[PllBase(p) + 2] == PllByte2(r[PllBase(p) + 2], ms)
    ensures WriteMsPll(r, p, ms)[PllIntMode(p).addr] == PutBits(r[PllIntMode(p).addr], 6, 1, BoolBit(ms.bInteger))
  {
    var r1 := WriteField(r, PllIntMode(p), BoolBit(ms.bInteger));
    StoreWindow(r1, PllBase(p), MsBlock(ms, PllByte2(r1[PllBase(p) + 2], ms)));
  }

  /** Writing bit 6 keeps the other seven bits. */
  lemma FlagKeeps(v: bv8, x: bv8)
    ensures PutBits(v, 6, 1, x) & 0xBF == v & 0xBF
  {}

  /** The R divider and divide-by-4 bits survive byte 2 of an output block. */
  lemma ClkByte2Fields(old2: bv8, ms: MS)
    ensures ClkByte2(old2, ms) & 0x03 == ByteOf(ms.p1 / 0x10000) & 0x03
    ensures ((ClkByte2(old2, ms) >> 4) & 0x7) as int == ms.tDiv
    ensures ((ClkByte2(old2, ms) >> 2) & 0x3 == 0x3) == ms.bDivBy4
    ensures ClkByte2(old2, ms) & 0x80 == old2 & 0x80
  {
    var t := ToByte(ms.tDiv);
    ClkByte2Bits(old2, t, ms.bDivBy4, ByteOf(ms.p1 / 0x10000));
  }

  lemma ClkByte2Bits(old2: bv8, t: bv8, div4: bool, p: bv8)
    requires t < 8
    ensures ((old2 & !0x7F) | ((t & 0x7) << 4) | ((if div4 then 3 else 0) << 2) | (p & 0x3)) & 0x03 == p & 0x03
    ensures (((old2 & !0x7F) | ((t & 0x7) << 4) | ((if div4 then 3 else 0) << 2) | (p & 0x3)) >> 4) & 0x7 == t
    ensures ((((old2 & !0x7F) | ((t & 0x7) << 4) | ((if div4 then 3 else 0) << 2) | (p & 0x3)) >> 2) & 0x3 == 0x3) == div4
    ensures ((old2 & !0x7F) | ((t & 0x7) << 4) | ((if div4 then 3 else 0) << 2) | (p & 0x3)) & 0x80 == old2 & 0x80
  {}

  /** The parameter block and the R divider fields of an output Multisynth
      survive the store, whichever register the flag went to. */
  lemma MsClkBlock(r1: RegFile, n: nat, ms: MS)
    requires n < 8
    ensures var r2 := Store(r1, MsBase(n), MsBlock(ms, ClkByte2(r1[MsBase(n) + 2], ms)));
            MsClkFromBytes(n, 0, Window(r2, MsBase(n), 8)) == MsCut(ms).(bInteger := n >= 6)
  {
    var b2 := ClkByte2(r1[MsBase(n) + 2], ms);
    StoreWindow(r1, MsBase(n), MsBlock(ms, b2));
    ClkByte2Fields(r1[MsBase(n) + 2], ms);
    MsBlockParams(ms, b2);
  }

  /** Corrected: GetMS after SetMS returns the record with P1, P2, P3 cut to
      their widths; the integer flag of CLK6 and CLK7 always reads true. */
  lemma MsClkRoundTrip(r: RegFile, n: nat, ms: MS)
    requires n < 8
    ensures ReadMsClk(WriteMsClk(r, n, ms), n) == MsCut(ms).(bInteger := if n < 6 then ms.bInteger else true)
  {
    var r1 := if n < 6 then WriteField(r, ClkIntMode(n), BoolBit(ms.bInteger)) else r;
    var r2 := WriteMsClk(r, n, ms);
    MsClkBlock(r1, n, ms);
    StoreWindow(r1, MsBase(n), MsBlock(ms, ClkByte2(r1[MsBase(n) + 2], ms)));
    if n < 6 {
      WriteThenRead(r, ClkIntMode(n), BoolBit(ms.bInteger));
      BoolBitRoundTrip(ms.bInteger);
      assert r2[0x10 + n] == r1[0x10 + n];
    }
  }

  /** As written: GetMS after SetMS returns the parameters, but the integer
      flag reads back only for CLK0; for CLK1-5 it is CLKn's old flag. */
  lemma MsClkAsWrittenRoundTrip(r: RegFile, n: nat, ms: MS)
    requires n < 8
    ensures ReadMsClk(WriteMsClkAsWritten(r, n, ms), n)
            == MsCut(ms).(bInteger := if n == 0 then ms.bInteger else if n < 6 then GetBits(r[0x10 + n], 6, 1) == 1 else true)
  {
    var r1 := if n < 6 then r[0x10 := PutBits(r[0x10 + n], 6, 1, BoolBit(ms.bInteger))] else r;
    var r2 := WriteMsClkAsWritten(r, n, ms);
    MsClkBlock(r1, n, ms);
    StoreWindow(r1, MsBase(n), MsBlock(ms, ClkByte2(r1[MsBase(n) + 2], ms)));
    if n < 6 {
      assert r2[0x10 + n] == r1[0x10 + n];
    }
    if n == 0 {
      PutThenGet(r[0x10], 6, 1, BoolBit(ms.bInteger));
      BoolBitRoundTrip(ms.bInteger);
    }
  }

  /** As written, a concrete failure: SetMS for CLK1 copies CLK1's control
      byte into CLK0's, so a powered-down CLK0 (0x80) is powered up and takes
      CLK1's source and drive settings (here 0x0F), while CLK1's own flag is
      not set. */
  lemma MsClkAsWrittenExample(r: RegFile, ms: MS)
    requires r[0x10] == 0x80 && r[0x11] == 0x0F && ms.bInteger
    ensures WriteMsClkAsWritten(r, 1, ms)[0x10] == 0x4F
    ensures WriteMsClkAsWritten(r, 1, ms)[0x11] == 0x0F
    ensures !ReadMsClk(WriteMsClkAsWritten(r, 1, ms), 1).bInteger
  {
    var r1 := r[0x10 := PutBits(r[0x11], 6, 1, BoolBit(ms.bInteger))];
    StoreWindow(r1, MsBase(1), MsBlock(ms, ClkByte2(r1[MsBase(1) + 2], ms)));
    assert PutBits(0x0F, 6, 1, 1) == 0x4F;
    MsClkAsWrittenRoundTrip(r, 1, ms);
  }

  /** Corrected: SetMS changes only CLKn's control register (and there only
      the integer flag) and the eight parameter bytes, keeping bit 7 of byte 2. */
  lemma MsClkFrame(r: RegFile, n: nat, ms: MS)
    requires n < 8
    ensures forall a :: 0 <= a < 256 && a != 0x10 + n && !(MsBase(n) <= a < MsBase(n) + 8) ==> WriteMsClk(r, n, ms)[a] == r[a]
    ensures WriteMsClk(r, n, ms)[0x10 + n] & 0xBF == r[0x10 + n] & 0xBF
    ensures WriteMsClk(r, n, ms)[MsBase(n) + 2] & 0x80 == r[MsBase(n) + 2] & 0x80
  {
    var r1 := if n < 6 then WriteField(r, ClkIntMode(n), BoolBit(ms.bInteger)) else r;
    StoreWindow(r1, MsBase(n), MsBlock(ms, ClkByte2(r1[MsBase(n) + 2], ms)));
    if n < 6 {
      assert r1[0x10 + n] == PutBits(r[0x10 + n], 6, 1, BoolBit(ms.bInteger));
    }
    ClkByte2Fields(r1[MsBase(n) + 2], ms);
  }

  /* ---------------- spread-spectrum block, registers 0x95 .. 0xA1 ---------------- */

  const SSP_BASE := 0x95

  /** A 12-bit value over a low byte and the low nibble of another. */
  function Join12(hi: bv8, lo: bv8): (x: u16)
    ensures x < 0x1000
  {
    MaskLow4(hi);
    (hi & 0x0F) as int * 0x100 + lo as int
  }

  /** A 15-bit value over a low byte and bits 6:0 of another. */
  function Join15(hi: bv8, lo: bv8): (x: u16)
    ensures x < 0x8000
  {
    MaskLow7(hi);
    (hi & 0x7F) as int * 0x100 + lo as int
  }

  /** `Si5351_GetSSP` over the thirteen bytes 0x95 .. 0xA1. */
  function SspFromBytes(v: seq<bv8>): (s: SSP)
    requires |v| == 13
    ensures SspFitsRegisters(s)
  {
    MaskHigh4(v[5]);
    SSP(((v[2] >> 7) & 0x1) as int, Join12(v[5], v[4]), Join15(v[0], v[1]), Join15(v[2], v[3]),
        (v[5] & 0xF0) as int * 0x10 + v[6] as int,
        Join12(v[12], v[11]), Join15(v[7], v[8]), Join15(v[9], v[10]))
  }

  /** The twelve bytes 0x96 .. 0xA1 `Si5351_SetSSP` writes. */
  function SspBytes(s: SSP): (v: seq<bv8>)
    ensures |v| == 12
  {
    [ByteOf(s.dnP2),
     ((ToByte(s.mode) & 0x1) << 7) | (ByteOf(s.dnP3 / 0x100) & 0x7F),
     ByteOf(s.dnP3),
     ByteOf(s.dnP1),
     (ByteOf(s.udp / 0x10) & 0xF0) | (ByteOf(s.dnP1 / 0x100) & 0x0F),
     ByteOf(s.udp),
     ByteOf(s.upP2 / 0x100) & 0x7F,
     ByteOf(s.upP2),
     ByteOf(s.upP3 / 0x100) & 0x7F,
     ByteOf(s.upP3),
     ByteOf(s.upP1),
     ByteOf(s.upP1 / 0x100) & 0x0F]
  }

  /** `Si5351_SetSSP` as written: register 0x95, which holds SSDN_P2[14:8]
      below SSC_EN, is never written. */
  function WriteSspAsWritten(r: RegFile, s: SSP): (w: RegFile)
    ensures w[SSP_BASE] == r[SSP_BASE]
    ensures forall a :: 0 <= a < 256 && !(SSP_BASE < a <= SSP_BASE + 12) ==> w[a] == r[a]
  {
    Store(r, SSP_BASE + 1, SspBytes(s))
  }

  /** The setter that also stores SSDN_P2[14:8], keeping SSC_EN. */
  function WriteSsp(r: RegFile, s: SSP): (w: RegFile)
    ensures w[SSP_BASE] & 0x80 == r[SSP_BASE] & 0x80
    ensures forall a :: 0 <= a < 256 && !(SSP_BASE <= a <= SSP_BASE + 12) ==> w[a] == r[a]
  {
    HighBitJoin(r[SSP_BASE], ByteOf(s.dnP2 / 0x100));
    Store(r, SSP_BASE, [(r[SSP_BASE] & 0x80) | (ByteOf(s.dnP2 / 0x100) & 0x7F)] + SspBytes(s))
  }

  function ReadSsp(r: RegFile): (s: SSP)
    ensures SspFitsRegisters(s)
  {
    SspFromBytes(Window(r, SSP_BASE, 13))
  }

  /** The fields a setter leaves in the thirteen bytes, given byte 0x95. */
  lemma SspFields(b0: bv8, s: SSP)
    ensures SspFromBytes([b0] + SspBytes(s)) == SspCut(s).(dnP2 := Join15(b0, ByteOf(s.dnP2)))
  {
    var v := [b0] + SspBytes(s);
    ModeBit(ToByte(s.mode), ByteOf(s.dnP3 / 0x100));
    Pair15(s.dnP3, v[2]);
    Pair12(s.dnP1, v[5]);
    UdpNibble(s.udp, s.dnP1);
    Pair12(s.upP1, v[12]);
    Pair15(s.upP2, v[7]);
    Pair15(s.upP3, v[9]);
  }

  lemma ModeBit(m: bv8, hi: bv8)
    requires m < 2
    ensures ((((m & 0x1) << 7) | (hi & 0x7F)) >> 7) & 0x1 == m
    ensures (((m & 0x1) << 7) | (hi & 0x7F)) & 0x7F == hi & 0x7F
  {}

  lemma Pair12(x: int, hi: bv8)
    requires x >= 0 && hi & 0x0F == ByteOf(x / 0x100) & 0x0F
    ensures Join12(hi, ByteOf(x)) == x % 0x1000
  {
    MaskLow4(ByteOf(x / 0x100));
    Low12(x);
  }

  lemma Pair15(x: int, hi: bv8)
    requires x >= 0 && hi & 0x7F == ByteOf(x / 0x100) & 0x7F
    ensures Join15(hi, ByteOf(x)) == x % 0x8000
  {
    MaskLow7(ByteOf(x / 0x100));
    Low15(x);
  }

  /** Register 0x9A: SSUDP[11:8] in the high nibble, SSDN_P1[11:8] in the low. */
  lemma UdpNibble(u: int, p: int)
    requires u >= 0 && p >= 0
    ensures var b := (ByteOf(u / 0x10) & 0xF0) | (ByteOf(p / 0x100) & 0x0F);
            (b & 0xF0) as int * 0x10 + ByteOf(u) as int == u % 0x1000
            && b & 0x0F == ByteOf(p / 0x100) & 0x0F
  {
    var hi := ByteOf(u / 0x10) & 0xF0;
    NibbleJoin(hi, ByteOf(p / 0x100) & 0x0F);
    MaskHigh4(ByteOf(u / 0x10));
    NibbleAt8(u);
    assert hi as int == (u / 0x100) % 16 * 16;
    ModOfByte(u / 0x100, 16);
    Low12(u);
  }

  /** An SSP record cut to the register field widths. */
  function SspCut(s: SSP): (c: SSP)
    ensures SspFitsRegisters(c)
    ensures SspFitsRegisters(s) ==> c == s
  {
    SSP(s.mode, s.dnP1 % 0x1000, s.dnP2 % 0x8000, s.dnP3 % 0x8000,
        s.udp % 0x1000, s.upP1 % 0x1000, s.upP2 % 0x8000, s.upP3 % 0x8000)
  }

  /** As written: GetSSP after SetSSP returns every field cut to its width,
      except that SSDN_P2 keeps only its low byte and takes bits 14:8 from
      whatever register 0x95 held; register 0x95 and every register outside
      the block keep their values. */
  lemma SspAsWrittenRoundTrip(r: RegFile, s: SSP)
    ensures ReadSsp(WriteSspAsWritten(r, s)) == SspCut(s).(dnP2 := Join15(r[SSP_BASE], ByteOf(s.dnP2)))
    ensures WriteSspAsWritten(r, s)[SSP_BASE] == r[SSP_BASE]
    ensures forall a :: 0 <= a < 256 && !(SSP_BASE <= a <= 0xA1) ==> WriteSspAsWritten(r, s)[a] == r[a]
  {
    StoreWindow(r, SSP_BASE + 1, SspBytes(s));
    assert Window(WriteSspAsWritten(r, s), SSP_BASE, 13) == [r[SSP_BASE]] + SspBytes(s);
    SspFields(r[SSP_BASE], s);
  }

  /** As written, a concrete failure: an SSDN_P2 of 0x1234 stored over a
      cleared register 0x95 reads back as 0x34. */
  lemma SspAsWrittenExample(r: RegFile)
    requires r[SSP_BASE] == 0
    ensures ReadSsp(WriteSspAsWritten(r, SSP(0, 0, 0x1234, 0, 0, 0, 0, 0))).dnP2 == 0x34
  {
    SspAsWrittenRoundTrip(r, SSP(0, 0, 0x1234, 0, 0, 0, 0, 0));
  }

  /** Corrected: GetSSP after SetSSP returns every field cut to its width,
      so exactly the record whenever it fits the registers. */
  lemma SspRoundTrip(r: RegFile, s: SSP)
    ensures ReadSsp(WriteSsp(r, s)) == SspCut(s)
  {
    var b0 := (r[SSP_BASE] & 0x80) | (ByteOf(s.dnP2 / 0x100) & 0x7F);
    StoreWindow(r, SSP_BASE, [b0] + SspBytes(s));
    SspFields(b0, s);
    HighBitJoin(r[SSP_BASE], ByteOf(s.dnP2 / 0x100));
    Pair15(s.dnP2, b0);
    assert SspCut(s).(dnP2 := s.dnP2 % 0x8000) == SspCut(s);
  }

  lemma HighBitJoin(a: bv8, b: bv8)
    ensures ((a & 0x80) | (b & 0x7F)) & 0x7F == b & 0x7F
    ensures ((a & 0x80) | (b & 0x7F)) & 0x80 == a & 0x80
  {}

  /** The corrected setter keeps SSC_EN and changes nothing outside 0x95 .. 0xA1. */
  lemma SspFrame(r: RegFile, s: SSP)
    ensures WriteSsp(r, s)[SSP_BASE] & 0x80 == r[SSP_BASE] & 0x80
    ensures forall a :: 0 <= a < 256 && !(SSP_BASE <= a <= 0xA1) ==> WriteSsp(r, s)[a] == r[a]
  {
    HighBitJoin(r[SSP_BASE], ByteOf(s.dnP2 / 0x100));
  }

  /** `Si5351_SetSSPEnable` and `Si5351_SetSSPDisable`: set or clear bit 7 of
      register 0x95. */
  function SscOn(r: RegFile): (w: RegFile)
    ensures forall a :: 0 <= a < 256 && a != SSP_BASE ==> w[a] == r[a]
    ensures w[SSP_BASE] & 0x80 == 0x80 && w[SSP_BASE] & 0x7F == r[SSP_BASE] & 0x7F
  {
    r[SSP_BASE := r[SSP_BASE] | 0x80]
  }

  function SscOff(r: RegFile): (w: RegFile)
    ensures forall a :: 0 <= a < 256 && a != SSP_BASE ==> w[a] == r[a]
    ensures w[SSP_BASE] & 0x80 == 0 && w[SSP_BASE] & 0x7F == r[SSP_BASE] & 0x7F
  {
    r[SSP_BASE := r[SSP_BASE] & !0x80]
  }

  /** GetSSPEnable reads true after SetSSPEnable and false after
      SetSSPDisable; SSDN_P2[14:8] below it is kept. */
  lemma SscSwitch(r: RegFile)
    ensures ReadField(SscOn(r), SscEnable) == 1 && SscOn(r)[SSP_BASE] & 0x7F == r[SSP_BASE] & 0x7F
    ensures ReadField(SscOff(r), SscEnable) == 0 && SscOff(r)[SSP_BASE] & 0x7F == r[SSP_BASE] & 0x7F
  {
    var v := r[SSP_BASE];
    assert SscOn(r)[SSP_BASE] == v | 0x80;
    assert SscOff(r)[SSP_BASE] == v & !0x80;
    SscBits(v);
  }

  lemma SscBits(v: bv8)
    ensures GetBits(v | 0x80, 7, 1) == 1 && (v | 0x80) & 0x7F == v & 0x7F
    ensures GetBits(v & !0x80, 7, 1) == 0 && (v & !0x80) & 0x7F == v & 0x7F
  {}

  /* ---------------- VCXO parameter, registers 0xA2 .. 0xA4 ---------------- */

  const VCXO_BASE := 0xA2

  /** `Si5351_GetVCXO`: `(v[2] & 0x3F) << 16 | v[1] << 8 | v[0]`. */
  function VcxoFromBytes(v: seq<bv8>): (x: u32)
    requires |v| == 3
    ensures x < 0x40_0000
  {
    MaskLow6(v[2]);
    (v[2] & 0x3F) as int * 0x10000 + v[1] as int * 0x100 + v[0] as int
  }

  /** `Si5351_SetVCXO`: the low, middle and (six-bit) high byte. */
  function VcxoBytes(x: u32): (v: seq<bv8>)
    ensures |v| == 3 && v[2] & 0xC0 == 0
  {
    [ByteOf(x), ByteOf(x / 0x100), ByteOf(x / 0x10000) & 0x3F]
  }

  function WriteVcxo(r: RegFile, x: u32): (w: RegFile)
    ensures forall a :: 0 <= a < 256 && !(VCXO_BASE <= a < VCXO_BASE + 3) ==> w[a] == r[a]
  {
    StoreWindow(r, VCXO_BASE, VcxoBytes(x));
    Store(r, VCXO_BASE, VcxoBytes(x))
  }

  function ReadVcxo(r: RegFile): (x: u32)
    ensures x < 0x40_0000
  {
    VcxoFromBytes(Window(r, VCXO_BASE, 3))
  }

  /** GetVCXO after SetVCXO returns the 22-bit parameter, and nothing outside
      0xA2 .. 0xA4 changes. */
  lemma VcxoRoundTrip(r: RegFile, x: u32)
    ensures ReadVcxo(WriteVcxo(r, x)) == x % 0x40_0000
    ensures forall a :: 0 <= a < 256 && !(VCXO_BASE <= a < VCXO_BASE + 3) ==> WriteVcxo(r, x)[a] == r[a]
  {
    StoreWindow(r, VCXO_BASE, VcxoBytes(x));
    MaskLow6(ByteOf(x / 0x10000));
    High22(x);
  }

  /* ---------------- status, output enable, phase offset, reset ---------------- */

  /** Registers 0x00 (status), 0x01 (sticky status), 0x02 (interrupt mask). */
  const REG_STATUS := 0x00
  const REG_STICKY := 0x01
  const REG_MASK := 0x02

  /** The status getters: SYS_INIT is bit 7; on the Si5351C also LOL_B (6),
      LOL_A (5) and LOS (4). On other chips the other flags keep their values. */
  function StatusFromByte(c: Config, st0: Status, b: bv8): (s: Status)
    ensures s.sysInit == (b & 0x80 != 0)
    ensures c.chipType == 2 ==> s.lolB == (b & 0x40 != 0) && s.lolA == (b & 0x20 != 0) && s.los == (b & 0x10 != 0)
    ensures c.chipType != 2 ==> s.(sysInit := st0.sysInit) == st0
  {
    var s := st0.(sysInit := (b >> 7) & 0x1 != 0);
    if c.chipType == 2 then s.(lolB := (b >> 6) & 0x1 != 0, lolA := (b >> 5) & 0x1 != 0, los := (b >> 4) & 0x1 != 0)
    else s
  }

  /** The byte the status setters write. */
  function StatusByte(c: Config, st: Status): (b: bv8)
    ensures b & 0x0F == 0
    ensures (b & 0x80 != 0) == st.sysInit
    ensures c.chipType != 2 ==> b & 0x7F == 0
    ensures c.chipType == 2 ==> (b & 0x40 != 0) == st.lolB && (b & 0x20 != 0) == st.lolA && (b & 0x10 != 0) == st.los
  {
    if c.chipType != 2 then BoolBit(st.sysInit) << 7
    else (BoolBit(st.sysInit) << 7) | (BoolBit(st.lolB) << 6) | (BoolBit(st.lolA) << 5) | (BoolBit(st.los) << 4)
  }

  /** Reading back a written status gives the flags the chip has. */
  lemma StatusRoundTrip(c: Config, st0: Status, st: Status)
    ensures StatusFromByte(c, st0, StatusByte(c, st)) == if c.chipType == 2 then st else st0.(sysInit := st.sysInit)
  {
    StatusBits(BoolBit(st.sysInit), BoolBit(st.lolB), BoolBit(st.lolA), BoolBit(st.los));
  }

  lemma StatusBits(a: bv8, b: bv8, c: bv8, d: bv8)
    requires a < 2 && b < 2 && c < 2 && d < 2
    ensures ((a << 7) >> 7) & 0x1 == a
    ensures var x := (a << 7) | (b << 6) | (c << 5) | (d << 4);
            (x >> 7) & 0x1 == a && (x >> 6) & 0x1 == b && (x >> 5) & 0x1 == c && (x >> 4) & 0x1 == d
  {}

  /** Register 0x03 (CLKx_OEB) and register 0x09 (OEB pin mask): a 3-output
      build touches only bits 2:0. */
  const REG_OUTPUT_ENABLE := 0x03
  const REG_OEB_MASK := 0x09

  function OutputMask(c: Config, m: bv8): (k: bv8)
    ensures k & !m == 0
    ensures c.clkNum <= 3 ==> k & 0xF8 == 0 && k == m & 0x07
    ensures c.clkNum > 3 ==> k == m
  {
    if c.clkNum <= 3 then m & 0x7 else m
  }

  /** `Si5351_SetOutputEnable`: clears the requested disable bits. */
  function EnableOutputs(r: RegFile, c: Config, m: bv8): (w: RegFile)
    ensures forall a :: 0 <= a < 256 && a != REG_OUTPUT_ENABLE ==> w[a] == r[a]
    ensures w[REG_OUTPUT_ENABLE] & OutputMask(c, m) == 0
  {
    r[REG_OUTPUT_ENABLE := r[REG_OUTPUT_ENABLE] & !OutputMask(c, m)]
  }

  /** `Si5351_SetOutputDisable`: sets the requested disable bits. */
  function DisableOutputs(r: RegFile, c: Config, m: bv8): (w: RegFile)
    ensures forall a :: 0 <= a < 256 && a != REG_OUTPUT_ENABLE ==> w[a] == r[a]
    ensures w[REG_OUTPUT_ENABLE] & OutputMask(c, m) == OutputMask(c, m)
  {
    r[REG_OUTPUT_ENABLE := r[REG_OUTPUT_ENABLE] | OutputMask(c, m)]
  }

  /** Enabling clears exactly the requested bits and keeps all others. */
  lemma OutputEnableBits(r: RegFile, c: Config, m: bv8)
    ensures EnableOutputs(r, c, m)[REG_OUTPUT_ENABLE] & OutputMask(c, m) == 0
    ensures EnableOutputs(r, c, m)[REG_OUTPUT_ENABLE] & !OutputMask(c, m) == r[REG_OUTPUT_ENABLE] & !OutputMask(c, m)
  {
    var k := OutputMask(c, m);
    var v := r[REG_OUTPUT_ENABLE];
    MaskBits(v, k);
    assert EnableOutputs(r, c, m)[REG_OUTPUT_ENABLE] == v & !k;
  }

  /** Disabling sets exactly the requested bits and keeps all others. */
  lemma OutputDisableBits(r: RegFile, c: Config, m: bv8)
    ensures DisableOutputs(r, c, m)[REG_OUTPUT_ENABLE] & OutputMask(c, m) == OutputMask(c, m)
    ensures DisableOutputs(r, c, m)[REG_OUTPUT_ENABLE] & !OutputMask(c, m) == r[REG_OUTPUT_ENABLE] & !OutputMask(c, m)
  {
    var k := OutputMask(c, m);
    var v := r[REG_OUTPUT_ENABLE];
    MaskBits(v, k);
    assert DisableOutputs(r, c, m)[REG_OUTPUT_ENABLE] == v | k;
  }

  lemma MaskBits(v: bv8, k: bv8)
    ensures (v & !k) & k == 0 && (v & !k) & !k == v & !k
    ensures (v | k) & k == k && (v | k) & !k == v & !k
  {}

  /** The OEB pin mask reads back as written: masking twice is masking once. */
  lemma OutputMaskIdempotent(c: Config, m: bv8)
    ensures OutputMask(c, OutputMask(c, m)) == OutputMask(c, m)
  {}

  /** A 3-output build never touches the disable bits of CLK3-7 in register 0x03. */
  lemma OutputMaskThreeClocks(r: RegFile, c: Config, m: bv8)
    requires c.clkNum <= 3
    ensures EnableOutputs(r, c, m)[REG_OUTPUT_ENABLE] & 0xF8 == r[REG_OUTPUT_ENABLE] & 0xF8
    ensures DisableOutputs(r, c, m)[REG_OUTPUT_ENABLE] & 0xF8 == r[REG_OUTPUT_ENABLE] & 0xF8
  {}

  /** Registers 0xA5 + n: CLKn_PHOFF, seven bits. */
  const PHASE_BASE := 0xA5

  /** Reading back a written phase offset gives its low seven bits. */
  lemma PhaseOffsetRoundTrip(r: RegFile, n: nat, ph: bv8)
    requires n < 6
    ensures ph < 0x80 ==> r[PHASE_BASE + n := ph & 0x7F][PHASE_BASE + n] & 0x7F == ph
  {}

  /** Register 0xB1: PLLB_RST (7) and PLLA_RST (5). */
  const REG_PLL_RESET := 0xB1

  /** `Si5351_PLLSoftReset`: keep bits 3:0, set 7 and 5, clear 6 and 4. */
  function SoftResetByte(v: bv8): (b: bv8)
    ensures b & 0xF0 == 0xA0
    ensures b & 0x0F == v & 0x0F
  {
    (v & 0x0F) | 0xA0
  }

  lemma SoftResetBits(v: bv8)
    ensures (SoftResetByte(v) >> 7) & 1 == 1 && (SoftResetByte(v) >> 5) & 1 == 1
    ensures (SoftResetByte(v) >> 6) & 1 == 0 && (SoftResetByte(v) >> 4) & 1 == 0
    ensures SoftResetByte(v) & 0x0F == v & 0x0F
  {}

  /** `Si5351_InitDevice`: every output disabled (0x03 = 0xFF), every output
      driver powered down (0x10 .. 0x17 = 0x80), interrupts masked (0x02 = 0xF0). */
  function InitImage(r: RegFile): (r': RegFile)
    ensures forall a :: 0 <= a < 256 ==>
              r'[a] == if a == REG_OUTPUT_ENABLE then 0xFF else if 0x10 <= a <= 0x17 then 0x80
                       else if a == REG_MASK then 0xF0 else r[a]
  {
    Store(r[REG_OUTPUT_ENABLE := 0xFF], 0x10, seq(8, i => 0x80))[REG_MASK := 0xF0]
  }

  /** After InitDevice every output is disabled and its control byte is 0x80:
      powered down, fractional mode, Multisynth fed by PLLA, not inverted,
      output source XTAL, 2 mA drive. The interrupt mask byte 0xF0 masks
      SYS_INIT and, on a Si5351C, every other interrupt source. */
  lemma InitDeviceState(c: Config, st0: Status, r: RegFile, n: nat)
    requires n < 8
    ensures NamedFieldsAre(InitImage(r), n)
    ensures (InitImage(r)[REG_OUTPUT_ENABLE] >> n) & 1 == 1
    ensures StatusFromByte(c, st0, InitImage(r)[REG_MASK]).sysInit
    ensures c.chipType == 2 ==> StatusFromByte(c, st0, InitImage(r)[REG_MASK]) == Status(true, true, true, true)
  {
    InitControlByte();
  }

  predicate NamedFieldsAre(r: RegFile, n: nat)
    requires n < 8
  {
    && ReadField(r, ClkPowerDown(n)) == 1 && ReadField(r, ClkIntMode(n)) == 0
    && ReadField(r, ClkMsSource(n)) == 0 && ReadField(r, ClkInvert(n)) == 0
    && ReadField(r, ClkSource(n)) == CLK_SRC_XTAL as bv8 && ReadField(r, ClkDrive(n)) == CLK_IDRV_2MA as bv8
  }

  lemma InitControlByte()
    ensures GetBits(0x80, 7, 1) == 1 && GetBits(0x80, 6, 1) == 0 && GetBits(0x80, 5, 1) == 0
    ensures GetBits(0x80, 4, 1) == 0 && GetBits(0x80, 2, 3) == 0 && GetBits(0x80, 0, 3) == 0
  {}
}
